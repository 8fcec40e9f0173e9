/**
 * The scan as the engine runs it: methods that walk the payload in place,
 * call the per-node callback and append follow-up queries to the shared
 * `extraQueries` list. Each method is proved to leave exactly what the
 * matching function of `ScanSpec` describes.
 */
module Scanner {
  import opened Wrappers
  import opened Json
  import opened Nodes
  import opened Elements
  import opened Shells
  import opened Queries
  import opened ScanSpec

  /**
   * What a scan leaves behind: the nodes the callback was called with, in
   * call order, and the shared `extraQueries` list. Both are only appended to.
   */
  class ScanLog {
    var delivered: seq<Node>
    var extraQueries: seq<Query>

    constructor ()
      ensures delivered == [] && extraQueries == []
    {
      delivered := [];
      extraQueries := [];
    }
  }

  /** `Scanning.scan` on any scannable element. */
  method ScanElement(e: Element, q: Query, data: Json, parent: Option<Node>, oracle: Node -> bool, log: ScanLog)
    modifies log
    ensures log.delivered == old(log.delivered) + ElementScan(e, q, data, parent, oracle).delivered
    ensures log.extraQueries == old(log.extraQueries) + ElementScan(e, q, data, parent, oracle).extraQueries
    decreases e, 0, 0
  {
    match e
    case FieldElement(_) =>
    case FragmentElement(f) => ScanFragment(f, q, data, parent, oracle, log);
    case GroupElement(g) => ScanGroup(g, q, data, parent, oracle, log);
    case BatchElement(b) => ScanBatch(b, q, data, parent, oracle, log);
  }

  /** `Group.scan` */
  method ScanGroup(g: Group, q: Query, data: Json, parent: Option<Node>, oracle: Node -> bool, log: ScanLog)
    modifies log
    ensures log.delivered == old(log.delivered) + GroupScan(g, q, data, parent, oracle).delivered
    ensures log.extraQueries == old(log.extraQueries) + GroupScan(g, q, data, parent, oracle).extraQueries
    decreases g, 5, 0
  {
    match data
    case JObject(hash) =>
      if "edges" in hash && hash["edges"].JArray? && AllObjects(hash["edges"].items) {
        ScanEdges(g, q, hash["edges"].items, ObjectAt(hash, "pageInfo"), parent, oracle, log);
      } else {
        // not a new node: `alreadyParsed` is ignored
        var _ := ScanNode(g, q, hash, parent, oracle, log);
      }
    case JArray(items) =>
      if AllObjects(items) {
        ScanList(g, q, Objects(items), parent, oracle, log);
      }
    case _ =>
  }

  /** `Group.scanEdges`: the edges' nodes, then the next-page query when one is due. */
  method ScanEdges(g: Group, q: Query, edges: seq<Json>, pageInfo: Option<map<string, Json>>,
                   parent: Option<Node>, oracle: Node -> bool, log: ScanLog)
    requires AllObjects(edges)
    modifies log
    ensures log.delivered == old(log.delivered) + EdgesScan(g, q, edges, pageInfo, parent, oracle).delivered
    ensures log.extraQueries == old(log.extraQueries) + EdgesScan(g, q, edges, pageInfo, parent, oracle).extraQueries
    decreases g, 4, 0
  {
    var alreadyParsed := ScanRows(g, q, EdgeNodes(edges), parent, oracle, log);
    if alreadyParsed {
      // exhausted new nodes
      return;
    }
    if |edges| > 0 && StringAt(edges[|edges| - 1].fields, "cursor").Some? {
      var latestCursor := StringAt(edges[|edges| - 1].fields, "cursor").value;
      if pageInfo.Some? && "hasNextPage" in pageInfo.value && pageInfo.value["hasNextPage"] == JBool(true) && parent.Some? {
        var newGroup := CloneGroup(g, Some(latestCursor), None);
        var shellRootElement := AsShell(q.rootElement, GroupElement(newGroup), Some(parent.value.id));
        if shellRootElement.Some? && Scanning(shellRootElement.value) {
          var nextPage := FromQuery(q, shellRootElement.value);
          log.extraQueries := log.extraQueries + [nextPage];
        }
      }
    }
  }

  /** `Group.scanList` */
  method ScanList(g: Group, q: Query, rows: seq<map<string, Json>>, parent: Option<Node>, oracle: Node -> bool, log: ScanLog)
    modifies log
    ensures log.delivered == old(log.delivered) + RowsScan(g, q, rows, parent, oracle).trace.delivered
    ensures log.extraQueries == old(log.extraQueries) + RowsScan(g, q, rows, parent, oracle).trace.extraQueries
    decreases g, 4, 0
  {
    // exhausted new nodes: `alreadyParsed` is ignored
    var _ := ScanRows(g, q, rows, parent, oracle, log);
  }

  /**
   * The row loop of `scanEdges` and `scanList`: it leaves at the first
   * `alreadyParsed`, which it reports.
   */
  method ScanRows(g: Group, q: Query, rows: seq<map<string, Json>>, parent: Option<Node>, oracle: Node -> bool, log: ScanLog)
    returns (alreadyParsed: bool)
    modifies log
    ensures alreadyParsed == RowsScan(g, q, rows, parent, oracle).alreadyParsed
    ensures log.delivered == old(log.delivered) + RowsScan(g, q, rows, parent, oracle).trace.delivered
    ensures log.extraQueries == old(log.extraQueries) + RowsScan(g, q, rows, parent, oracle).trace.extraQueries
    decreases g, 3, 0
  {
    alreadyParsed := false;
    var i := 0;
    while i < |rows| && !alreadyParsed
      invariant 0 <= i <= |rows|
      invariant alreadyParsed == RowsScan(g, q, rows[..i], parent, oracle).alreadyParsed
      invariant log.delivered == old(log.delivered) + RowsScan(g, q, rows[..i], parent, oracle).trace.delivered
      invariant log.extraQueries == old(log.extraQueries) + RowsScan(g, q, rows[..i], parent, oracle).trace.extraQueries
      decreases |rows| - i
    {
      RowsScanStep(g, q, rows, i, parent, oracle);
      alreadyParsed := ScanNode(g, q, rows[i], parent, oracle, log);
      AppendAssociates(old(log.delivered), RowsScan(g, q, rows[..i], parent, oracle).trace.delivered,
        RowScan(g, q, rows[i], parent, oracle).trace.delivered);
      AppendAssociates(old(log.extraQueries), RowsScan(g, q, rows[..i], parent, oracle).trace.extraQueries,
        RowScan(g, q, rows[i], parent, oracle).trace.extraQueries);
      i := i + 1;
    }
    RowsLoopExit(g, q, rows, i, parent, oracle);
  }

  lemma AppendAssociates<T>(a: seq<T>, b: seq<T>, c: seq<T>)
    ensures a + (b + c) == (a + b) + c
  {
  }

  /**
   * `Group.scanNode`: deliver the row's node, if it is one, then scan the
   * children below it; reports whether the callback threw `alreadyParsed`.
   */
  method ScanNode(g: Group, q: Query, row: map<string, Json>, parent: Option<Node>, oracle: Node -> bool, log: ScanLog)
    returns (alreadyParsed: bool)
    modifies log
    ensures alreadyParsed == RowScan(g, q, row, parent, oracle).alreadyParsed
    ensures log.delivered == old(log.delivered) + RowScan(g, q, row, parent, oracle).trace.delivered
    ensures log.extraQueries == old(log.extraQueries) + RowScan(g, q, row, parent, oracle).trace.extraQueries
    decreases g, 2, 0
  {
    RowDeliversItsNodeFirst(g, q, row, parent, oracle);
    var resolvedParent := parent;
    var o := MakeNode(row, parent, None);
    if o.Some? {
      if q.perNode.Some? {
        log.delivered := log.delivered + [o.value];
        if oracle(o.value) {
          return true;
        }
      }
      resolvedParent := o;
    }
    ScanChildren(g.fields, q, row, resolvedParent, oracle, log);
    alreadyParsed := false;
  }

  /** The child loop of `Group.scanNode`. */
  method ScanChildren(fields: seq<Element>, q: Query, row: map<string, Json>, parent: Option<Node>, oracle: Node -> bool, log: ScanLog)
    modifies log
    ensures log.delivered == old(log.delivered) + ChildrenScan(fields, q, row, parent, oracle).delivered
    ensures log.extraQueries == old(log.extraQueries) + ChildrenScan(fields, q, row, parent, oracle).extraQueries
    decreases fields, 1, 0
  {
    var i := 0;
    while i < |fields|
      invariant 0 <= i <= |fields|
      invariant log.delivered == old(log.delivered) + ChildrenScan(fields[..i], q, row, parent, oracle).delivered
      invariant log.extraQueries == old(log.extraQueries) + ChildrenScan(fields[..i], q, row, parent, oracle).extraQueries
    {
      ChildrenScanStep(fields, q, row, i, parent, oracle);
      ScanChild(fields[i], q, row, parent, oracle, log);
      AppendAssociates(old(log.delivered), ChildrenScan(fields[..i], q, row, parent, oracle).delivered, ChildScan(fields[i], q, row, parent, oracle).delivered);
      AppendAssociates(old(log.extraQueries), ChildrenScan(fields[..i], q, row, parent, oracle).extraQueries, ChildScan(fields[i], q, row, parent, oracle).extraQueries);
      i := i + 1;
    }
    assert fields[..i] == fields;
  }

  /** One child of a row: fragments get the whole row, other scannable children their own key. */
  method ScanChild(child: Element, q: Query, row: map<string, Json>, parent: Option<Node>, oracle: Node -> bool, log: ScanLog)
    modifies log
    ensures log.delivered == old(log.delivered) + ChildScan(child, q, row, parent, oracle).delivered
    ensures log.extraQueries == old(log.extraQueries) + ChildScan(child, q, row, parent, oracle).extraQueries
    decreases child, 1, 0
  {
    if child.FragmentElement? {
      ScanElement(child, q, JObject(row), parent, oracle, log);
    } else if Scanning(child) && Name(child) in row {
      ScanElement(child, q, row[Name(child)], parent, oracle, log);
    }
  }

  /** `Fragment.scan` */
  method ScanFragment(f: Fragment, q: Query, data: Json, parent: Option<Node>, oracle: Node -> bool, log: ScanLog)
    modifies log
    ensures log.delivered == old(log.delivered) + FragmentScan(f, q, data, parent, oracle).delivered
    ensures log.extraQueries == old(log.extraQueries) + FragmentScan(f, q, data, parent, oracle).extraQueries
    decreases f, 1, 0
  {
    if data.JObject? {
      ScanFragmentChildren(f.elements, q, data.fields, parent, oracle, log);
    }
  }

  /** The element loop of `Fragment.scan`. */
  method ScanFragmentChildren(elements: seq<Element>, q: Query, hash: map<string, Json>, parent: Option<Node>, oracle: Node -> bool, log: ScanLog)
    modifies log
    ensures log.delivered == old(log.delivered) + FragmentChildrenScan(elements, q, hash, parent, oracle).delivered
    ensures log.extraQueries == old(log.extraQueries) + FragmentChildrenScan(elements, q, hash, parent, oracle).extraQueries
    decreases elements, 1, 0
  {
    var i := 0;
    while i < |elements|
      invariant 0 <= i <= |elements|
      invariant log.delivered == old(log.delivered) + FragmentChildrenScan(elements[..i], q, hash, parent, oracle).delivered
      invariant log.extraQueries == old(log.extraQueries) + FragmentChildrenScan(elements[..i], q, hash, parent, oracle).extraQueries
    {
      FragmentChildrenScanStep(elements, q, hash, i, parent, oracle);
      ScanFragmentChild(elements[i], q, hash, parent, oracle, log);
      AppendAssociates(old(log.delivered), FragmentChildrenScan(elements[..i], q, hash, parent, oracle).delivered, FragmentChildScan(elements[i], q, hash, parent, oracle).delivered);
      AppendAssociates(old(log.extraQueries), FragmentChildrenScan(elements[..i], q, hash, parent, oracle).extraQueries, FragmentChildScan(elements[i], q, hash, parent, oracle).extraQueries);
      i := i + 1;
    }
    assert elements[..i] == elements;
  }

  /** One element of a fragment: a scannable element reads its own key, when there is one. */
  method ScanFragmentChild(element: Element, q: Query, hash: map<string, Json>, parent: Option<Node>, oracle: Node -> bool, log: ScanLog)
    modifies log
    ensures log.delivered == old(log.delivered) + FragmentChildScan(element, q, hash, parent, oracle).delivered
    ensures log.extraQueries == old(log.extraQueries) + FragmentChildScan(element, q, hash, parent, oracle).extraQueries
    decreases element, 1, 0
  {
    if Scanning(element) && Name(element) in hash {
      ScanElement(element, q, hash[Name(element)], parent, oracle, log);
    }
  }

  /** `BatchGroup.scan` */
  method ScanBatch(b: BatchGroup, q: Query, data: Json, parent: Option<Node>, oracle: Node -> bool, log: ScanLog)
    modifies log
    ensures log.delivered == old(log.delivered) + BatchScan(b, q, data, parent, oracle).delivered
    ensures log.extraQueries == old(log.extraQueries) + BatchScan(b, q, data, parent, oracle).extraQueries
    decreases b, 1, 0
  {
    if data.JArray? {
      ScanBatchItems(b.templateGroup, q, data.items, parent, oracle, log);
    }
  }

  /** The item loop of `BatchGroup.scan`. */
  method ScanBatchItems(t: Group, q: Query, items: seq<Json>, parent: Option<Node>, oracle: Node -> bool, log: ScanLog)
    modifies log
    ensures log.delivered == old(log.delivered) + BatchRowsScan(t, q, items, parent, oracle).delivered
    ensures log.extraQueries == old(log.extraQueries) + BatchRowsScan(t, q, items, parent, oracle).extraQueries
    decreases t, 7, 0
  {
    var i := 0;
    while i < |items|
      invariant 0 <= i <= |items|
      invariant log.delivered == old(log.delivered) + BatchRowsScan(t, q, items[..i], parent, oracle).delivered
      invariant log.extraQueries == old(log.extraQueries) + BatchRowsScan(t, q, items[..i], parent, oracle).extraQueries
    {
      BatchRowsScanStep(t, q, items, i, parent, oracle);
      ScanBatchItem(t, q, items[i], parent, oracle, log);
      AppendAssociates(old(log.delivered), BatchRowsScan(t, q, items[..i], parent, oracle).delivered, BatchItemScan(t, q, items[i], parent, oracle).delivered);
      AppendAssociates(old(log.extraQueries), BatchRowsScan(t, q, items[..i], parent, oracle).extraQueries, BatchItemScan(t, q, items[i], parent, oracle).extraQueries);
      i := i + 1;
    }
    assert items[..i] == items;
  }

  /** One item of a batch response: an object is scanned with the template. */
  method ScanBatchItem(t: Group, q: Query, item: Json, parent: Option<Node>, oracle: Node -> bool, log: ScanLog)
    modifies log
    ensures log.delivered == old(log.delivered) + BatchItemScan(t, q, item, parent, oracle).delivered
    ensures log.extraQueries == old(log.extraQueries) + BatchItemScan(t, q, item, parent, oracle).extraQueries
    decreases t, 6, 0
  {
    if item.JObject? {
      ScanGroup(t, q, item, parent, oracle, log);
    }
  }
}
