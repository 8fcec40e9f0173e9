/**
 * What scanning a response produces (`scan` of `Group`, `Fragment` and
 * `BatchGroup`), as functions of the tree, the payload and the callback's
 * answers. A scan yields the nodes handed to the per-node callback, in call
 * order, and the follow-up page queries, in append order.
 *
 * The callback is caller code; `oracle(n)` says whether it throws
 * `alreadyParsed` for `n`. An `alreadyParsed` answer ends the current row
 * list (edges or plain list) or the current single row: the functions at row
 * level carry an `alreadyParsed` flag, and no element-level scan does.
 */
module ScanSpec {
  import opened Wrappers
  import opened Json
  import opened Nodes
  import opened Elements
  import opened Shells
  import opened Queries

  /** Callback invocations and appended follow-up queries. */
  datatype Trace = Trace(delivered: seq<Node>, extraQueries: seq<Query>)

  /** The outcome of scanning rows: a trace, and whether the callback threw `alreadyParsed`. */
  datatype RowTrace = RowTrace(trace: Trace, alreadyParsed: bool)

  const Empty: Trace := Trace([], [])

  function Then(a: Trace, b: Trace): Trace {
    Trace(a.delivered + b.delivered, a.extraQueries + b.extraQueries)
  }

  // ---------------------------------------------------------------------------
  // The invariant every scan keeps

  /** Each delivered node hangs below `base` or below a node delivered before it. */
  predicate WellParented(d: seq<Node>, base: Option<Node>) {
    forall i :: 0 <= i < |d| ==> d[i].parent == base || exists j :: 0 <= j < i && d[i].parent == Some(d[j])
  }

  /** The node is what the failable initialiser makes of its own payload below its own parent. */
  predicate BuiltFromPayload(n: Node) {
    MakeNode(n.jsonPayload, n.parent, None) == Some(n)
  }

  /** A follow-up query is the scanned query with a new root cut from the old one. */
  predicate Continues(x: Query, q: Query) {
    x == FromQuery(q, x.rootElement) && Id(x.rootElement) == Id(q.rootElement)
  }

  /**
   * What holds of every scan of query `q` below `base`: parents come first,
   * every node is built from its payload, nothing is delivered without a
   * callback, and every follow-up query continues `q`.
   */
  predicate TraceOk(t: Trace, q: Query, base: Option<Node>) {
    && WellParented(t.delivered, base)
    && (forall n :: n in t.delivered ==> BuiltFromPayload(n))
    && (q.perNode.None? ==> t.delivered == [])
    && (forall x :: x in t.extraQueries ==> Continues(x, q))
  }

  lemma ThenOk(a: Trace, b: Trace, q: Query, base: Option<Node>)
    requires TraceOk(a, q, base) && TraceOk(b, q, base)
    ensures TraceOk(Then(a, b), q, base)
  {
    WellParentedConcat(a.delivered, b.delivered, base);
  }

  /** Two well-parented runs of deliveries below the same base stay well parented one after the other. */
  lemma WellParentedConcat(a: seq<Node>, b: seq<Node>, base: Option<Node>)
    requires WellParented(a, base) && WellParented(b, base)
    ensures WellParented(a + b, base)
  {
    var d := a + b;
    forall i | 0 <= i < |d| && d[i].parent != base
      ensures exists j :: 0 <= j < i && d[i].parent == Some(d[j])
    {
      if i < |a| {
        var j :| 0 <= j < i && a[i].parent == Some(a[j]);
        assert d[j] == a[j];
      } else {
        var k := i - |a|;
        assert d[i] == b[k];
        var j :| 0 <= j < k && b[k].parent == Some(b[j]);
        assert d[|a| + j] == b[j];
      }
    }
  }

  /** A row's node, delivered before the scan of its children, which take it as their parent. */
  lemma RowOk(n: Node, c: Trace, q: Query, base: Option<Node>)
    requires n.parent == base && BuiltFromPayload(n)
    requires TraceOk(c, q, Some(n))
    ensures TraceOk(Then(Trace(if q.perNode.Some? then [n] else [], []), c), q, base)
  {
    if q.perNode.Some? {
      WellParentedBelow(n, c.delivered, base);
    }
  }

  /** A node below `base`, followed by deliveries below it, is well parented below `base`. */
  lemma WellParentedBelow(n: Node, c: seq<Node>, base: Option<Node>)
    requires n.parent == base && WellParented(c, Some(n))
    ensures WellParented([n] + c, base)
  {
    var d := [n] + c;
    forall i | 0 < i < |d| && d[i].parent != base
      ensures exists j :: 0 <= j < i && d[i].parent == Some(d[j])
    {
      assert d[i] == c[i - 1];
      if c[i - 1].parent == Some(n) {
        assert d[0] == n;
      } else {
        var j :| 0 <= j < i - 1 && c[i - 1].parent == Some(c[j]);
        assert d[j + 1] == c[j];
      }
    }
  }

  // ---------------------------------------------------------------------------
  // Element level: `scan(query:pageData:parent:extraQueries:)`

  /** `Scanning.scan`, dispatched on the kind; a field is never scanned. */
  function ElementScan(e: Element, q: Query, data: Json, parent: Option<Node>, oracle: Node -> bool): Trace
    decreases e, 0, 0
  {
    match e
    case FieldElement(_) => Empty
    case FragmentElement(f) => FragmentScan(f, q, data, parent, oracle)
    case GroupElement(g) => GroupScan(g, q, data, parent, oracle)
    case BatchElement(b) => BatchScan(b, q, data, parent, oracle)
  }

  /**
   * `Group.scan`: an object with an `edges` array of objects is a page of
   * edges; any other object is a single row whose `alreadyParsed` is
   * swallowed; an array of objects is a plain list; anything else is ignored.
   */
  function GroupScan(g: Group, q: Query, data: Json, parent: Option<Node>, oracle: Node -> bool): Trace
    decreases g, 5, 0
  {
    match data
    case JObject(hash) =>
      if "edges" in hash && hash["edges"].JArray? && AllObjects(hash["edges"].items) then
        EdgesScan(g, q, hash["edges"].items, ObjectAt(hash, "pageInfo"), parent, oracle)
      else RowScan(g, q, hash, parent, oracle).trace
    case JArray(items) =>
      if AllObjects(items) then RowsScan(g, q, Objects(items), parent, oracle).trace
      else Empty
    case _ => Empty
  }

  /** The objects of an array of objects. */
  function Objects(items: seq<Json>): (r: seq<map<string, Json>>)
    requires AllObjects(items)
    ensures |r| == |items| && forall i :: 0 <= i < |items| ==> items[i] == JObject(r[i])
  {
    seq(|items|, i requires 0 <= i < |items| => items[i].fields)
  }

  /** `edges.compactMap { $0["node"] as? JSON }` */
  function EdgeNodes(edges: seq<Json>): (r: seq<map<string, Json>>)
    requires AllObjects(edges)
    ensures |r| <= |edges|
  {
    if |edges| == 0 then []
    else
      var rest := EdgeNodes(edges[1..]);
      match ObjectAt(edges[0].fields, "node")
      case Some(node) => [node] + rest
      case None => rest
  }

  /**
   * `scanEdges`: the rows, then, unless the callback threw `alreadyParsed`,
   * the follow-up query for the next page.
   */
  function EdgesScan(g: Group, q: Query, edges: seq<Json>, pageInfo: Option<map<string, Json>>,
                     parent: Option<Node>, oracle: Node -> bool): Trace
    requires AllObjects(edges)
    decreases g, 4, 0
  {
    var rows := RowsScan(g, q, EdgeNodes(edges), parent, oracle);
    if rows.alreadyParsed then rows.trace
    else
      var next := Trace([], Continuation(g, q, edges, pageInfo, parent));
      Then(rows.trace, next)
  }

  /** The conditions of `scanEdges` for asking for one more page. */
  predicate HasNextPage(edges: seq<Json>, pageInfo: Option<map<string, Json>>, parent: Option<Node>)
    requires AllObjects(edges)
  {
    && |edges| > 0
    && StringAt(edges[|edges| - 1].fields, "cursor").Some?
    && pageInfo.Some? && "hasNextPage" in pageInfo.value && pageInfo.value["hasNextPage"] == JBool(true)
    && parent.Some?
  }

  /**
   * The follow-up query of `scanEdges`: the root's shell for a clone of this
   * group that carries the last edge's cursor, when such a shell exists.
   */
  function Continuation(g: Group, q: Query, edges: seq<Json>, pageInfo: Option<map<string, Json>>,
                        parent: Option<Node>): (r: seq<Query>)
    requires AllObjects(edges)
    ensures |r| <= 1
    ensures forall x :: x in r ==> Continues(x, q)
  {
    if HasNextPage(edges, pageInfo, parent) then
      var cursor := StringAt(edges[|edges| - 1].fields, "cursor").value;
      var shell := AsShell(q.rootElement, GroupElement(CloneGroup(g, Some(cursor), None)), Some(parent.value.id));
      if shell.Some? && Scanning(shell.value) then [FromQuery(q, shell.value)] else []
    else []
  }

  /**
   * The row loop of `scanEdges` and `scanList`, row by row; once the callback
   * has thrown `alreadyParsed` the remaining rows are skipped.
   */
  function RowsScan(g: Group, q: Query, rows: seq<map<string, Json>>, parent: Option<Node>, oracle: Node -> bool): RowTrace
    decreases g, 3, |rows|
  {
    if |rows| == 0 then RowTrace(Empty, false)
    else
      var prev := RowsScan(g, q, rows[..|rows| - 1], parent, oracle);
      if prev.alreadyParsed then prev
      else
        var last := RowScan(g, q, rows[|rows| - 1], parent, oracle);
        RowTrace(Then(prev.trace, last.trace), last.alreadyParsed)
  }

  /**
   * `scanNode`: an object with a string `id` and `__typename` is a node; it
   * goes to the callback (when there is one) and becomes its children's
   * parent. A container object is unwrapped and its children keep the parent.
   */
  function RowScan(g: Group, q: Query, row: map<string, Json>, parent: Option<Node>, oracle: Node -> bool): RowTrace
    decreases g, 2, 0
  {
    match MakeNode(row, parent, None)
    case Some(n) =>
      if q.perNode.Some? && oracle(n) then
        RowTrace(Trace([n], []), true)
      else
        var c := ChildrenScan(g.fields, q, row, Some(n), oracle);
        RowTrace(Then(Trace(if q.perNode.Some? then [n] else [], []), c), false)
    case None => RowTrace(ChildrenScan(g.fields, q, row, parent, oracle), false)
  }

  /** The child loop of `scanNode`, child by child. */
  function ChildrenScan(s: seq<Element>, q: Query, row: map<string, Json>, parent: Option<Node>, oracle: Node -> bool): Trace
    decreases s, 1, |s|
  {
    if |s| == 0 then Empty
    else
      var prev := ChildrenScan(s[..|s| - 1], q, row, parent, oracle);
      var last := ChildScan(s[|s| - 1], q, row, parent, oracle);
      Then(prev, last)
  }

  /**
   * One child of a group's row: a field is skipped, a fragment reads the
   * whole row, and any other child reads `row[name]` when that key exists.
   */
  function ChildScan(e: Element, q: Query, row: map<string, Json>, parent: Option<Node>, oracle: Node -> bool): Trace
    decreases e, 1, 0
  {
    match e
    case FieldElement(_) => Empty
    case FragmentElement(_) => ElementScan(e, q, JObject(row), parent, oracle)
    case _ => if Name(e) in row then ElementScan(e, q, row[Name(e)], parent, oracle) else Empty
  }

  /**
   * `Fragment.scan`: only an object is scanned; each scannable child whose
   * name is a key reads that key, with the same parent.
   */
  function FragmentScan(f: Fragment, q: Query, data: Json, parent: Option<Node>, oracle: Node -> bool): Trace
    decreases f, 1, 0
  {
    match data
    case JObject(hash) => FragmentChildrenScan(f.elements, q, hash, parent, oracle)
    case _ => Empty
  }

  function FragmentChildrenScan(s: seq<Element>, q: Query, hash: map<string, Json>, parent: Option<Node>, oracle: Node -> bool): Trace
    decreases s, 1, |s|
  {
    if |s| == 0 then Empty
    else
      var prev := FragmentChildrenScan(s[..|s| - 1], q, hash, parent, oracle);
      var last := FragmentChildScan(s[|s| - 1], q, hash, parent, oracle);
      Then(prev, last)
  }

  /** One element of a fragment: a scannable element reads its own key, when there is one. */
  function FragmentChildScan(e: Element, q: Query, hash: map<string, Json>, parent: Option<Node>, oracle: Node -> bool): Trace
    decreases e, 1, 0
  {
    if Scanning(e) && Name(e) in hash then ElementScan(e, q, hash[Name(e)], parent, oracle) else Empty
  }

  /**
   * `BatchGroup.scan`: each object of an array payload goes, in order, to the
   * template's `scan` with the same parent.
   */
  function BatchScan(b: BatchGroup, q: Query, data: Json, parent: Option<Node>, oracle: Node -> bool): Trace
    decreases b, 1, 0
  {
    match data
    case JArray(items) => BatchRowsScan(b.templateGroup, q, items, parent, oracle)
    case _ => Empty
  }

  function BatchRowsScan(t: Group, q: Query, items: seq<Json>, parent: Option<Node>, oracle: Node -> bool): Trace
    decreases t, 6, |items|
  {
    if |items| == 0 then Empty
    else
      var prev := BatchRowsScan(t, q, items[..|items| - 1], parent, oracle);
      var last := BatchItemScan(t, q, items[|items| - 1], parent, oracle);
      Then(prev, last)
  }

  /** One item of a batch response: an object is scanned with the template. */
  function BatchItemScan(t: Group, q: Query, item: Json, parent: Option<Node>, oracle: Node -> bool): Trace
    decreases t, 6, 0
  {
    if item.JObject? then GroupScan(t, q, item, parent, oracle) else Empty
  }

  // ---------------------------------------------------------------------------
  // Every scan keeps `TraceOk`

  lemma {:induction false} ElementScanOk(e: Element, q: Query, data: Json, parent: Option<Node>, oracle: Node -> bool)
    ensures TraceOk(ElementScan(e, q, data, parent, oracle), q, parent)
    decreases e, 0, 0
  {
    match e
    case FieldElement(_) =>
    case FragmentElement(f) => FragmentScanOk(f, q, data, parent, oracle);
    case GroupElement(g) => GroupScanOk(g, q, data, parent, oracle);
    case BatchElement(b) => BatchScanOk(b, q, data, parent, oracle);
  }

  lemma {:induction false} GroupScanOk(g: Group, q: Query, data: Json, parent: Option<Node>, oracle: Node -> bool)
    ensures TraceOk(GroupScan(g, q, data, parent, oracle), q, parent)
    decreases g, 5, 0
  {
    match data
    case JObject(hash) =>
      if "edges" in hash && hash["edges"].JArray? && AllObjects(hash["edges"].items) {
        EdgesScanOk(g, q, hash["edges"].items, ObjectAt(hash, "pageInfo"), parent, oracle);
      } else {
        RowScanOk(g, q, hash, parent, oracle);
      }
    case JArray(items) =>
      if AllObjects(items) {
        RowsScanOk(g, q, Objects(items), parent, oracle);
      }
    case _ =>
  }

  lemma {:induction false} EdgesScanOk(g: Group, q: Query, edges: seq<Json>, pageInfo: Option<map<string, Json>>,
                                       parent: Option<Node>, oracle: Node -> bool)
    requires AllObjects(edges)
    ensures TraceOk(EdgesScan(g, q, edges, pageInfo, parent, oracle), q, parent)
    decreases g, 4, 0
  {
    var rows := RowsScan(g, q, EdgeNodes(edges), parent, oracle);
    RowsScanOk(g, q, EdgeNodes(edges), parent, oracle);
    if !rows.alreadyParsed {
      ThenOk(rows.trace, Trace([], Continuation(g, q, edges, pageInfo, parent)), q, parent);
    }
  }

  lemma {:induction false} RowsScanOk(g: Group, q: Query, rows: seq<map<string, Json>>, parent: Option<Node>, oracle: Node -> bool)
    ensures TraceOk(RowsScan(g, q, rows, parent, oracle).trace, q, parent)
    decreases g, 3, |rows|
  {
    if |rows| > 0 {
      var prev := RowsScan(g, q, rows[..|rows| - 1], parent, oracle);
      RowsScanOk(g, q, rows[..|rows| - 1], parent, oracle);
      if !prev.alreadyParsed {
        RowScanOk(g, q, rows[|rows| - 1], parent, oracle);
        ThenOk(prev.trace, RowScan(g, q, rows[|rows| - 1], parent, oracle).trace, q, parent);
      }
    }
  }

  lemma {:induction false} RowScanOk(g: Group, q: Query, row: map<string, Json>, parent: Option<Node>, oracle: Node -> bool)
    ensures TraceOk(RowScan(g, q, row, parent, oracle).trace, q, parent)
    decreases g, 2, 0
  {
    match MakeNode(row, parent, None)
    case Some(n) =>
      if !(q.perNode.Some? && oracle(n)) {
        ChildrenScanOk(g.fields, q, row, Some(n), oracle);
        RowOk(n, ChildrenScan(g.fields, q, row, Some(n), oracle), q, parent);
      }
    case None =>
      ChildrenScanOk(g.fields, q, row, parent, oracle);
  }

  lemma {:induction false} ChildrenScanOk(s: seq<Element>, q: Query, row: map<string, Json>, parent: Option<Node>, oracle: Node -> bool)
    ensures TraceOk(ChildrenScan(s, q, row, parent, oracle), q, parent)
    decreases s, 1, |s|
  {
    if |s| > 0 {
      ChildrenScanOk(s[..|s| - 1], q, row, parent, oracle);
      ChildScanOk(s[|s| - 1], q, row, parent, oracle);
      ThenOk(ChildrenScan(s[..|s| - 1], q, row, parent, oracle), ChildScan(s[|s| - 1], q, row, parent, oracle), q, parent);
    }
  }

  lemma {:induction false} ChildScanOk(e: Element, q: Query, row: map<string, Json>, parent: Option<Node>, oracle: Node -> bool)
    ensures TraceOk(ChildScan(e, q, row, parent, oracle), q, parent)
    decreases e, 1, 0
  {
    match e
    case FieldElement(_) =>
    case FragmentElement(_) => ElementScanOk(e, q, JObject(row), parent, oracle);
    case _ =>
      if Name(e) in row {
        ElementScanOk(e, q, row[Name(e)], parent, oracle);
      }
  }

  lemma {:induction false} FragmentScanOk(f: Fragment, q: Query, data: Json, parent: Option<Node>, oracle: Node -> bool)
    ensures TraceOk(FragmentScan(f, q, data, parent, oracle), q, parent)
    decreases f, 1, 0
  {
    if data.JObject? {
      FragmentChildrenScanOk(f.elements, q, data.fields, parent, oracle);
    }
  }

  lemma {:induction false} FragmentChildrenScanOk(s: seq<Element>, q: Query, hash: map<string, Json>, parent: Option<Node>, oracle: Node -> bool)
    ensures TraceOk(FragmentChildrenScan(s, q, hash, parent, oracle), q, parent)
    decreases s, 1, |s|
  {
    if |s| > 0 {
      var e := s[|s| - 1];
      FragmentChildrenScanOk(s[..|s| - 1], q, hash, parent, oracle);
      if Scanning(e) && Name(e) in hash {
        ElementScanOk(e, q, hash[Name(e)], parent, oracle);
      }
      ThenOk(FragmentChildrenScan(s[..|s| - 1], q, hash, parent, oracle), FragmentChildScan(e, q, hash, parent, oracle), q, parent);
    }
  }

  lemma {:induction false} BatchScanOk(b: BatchGroup, q: Query, data: Json, parent: Option<Node>, oracle: Node -> bool)
    ensures TraceOk(BatchScan(b, q, data, parent, oracle), q, parent)
    decreases b, 1, 0
  {
    if data.JArray? {
      BatchRowsScanOk(b.templateGroup, q, data.items, parent, oracle);
    }
  }

  lemma {:induction false} BatchRowsScanOk(t: Group, q: Query, items: seq<Json>, parent: Option<Node>, oracle: Node -> bool)
    ensures TraceOk(BatchRowsScan(t, q, items, parent, oracle), q, parent)
    decreases t, 6, |items|
  {
    if |items| > 0 {
      var item := items[|items| - 1];
      BatchRowsScanOk(t, q, items[..|items| - 1], parent, oracle);
      if item.JObject? {
        GroupScanOk(t, q, item, parent, oracle);
      }
      ThenOk(BatchRowsScan(t, q, items[..|items| - 1], parent, oracle), BatchItemScan(t, q, item, parent, oracle), q, parent);
    }
  }

  // ---------------------------------------------------------------------------
  // Properties

  /** Once a prefix of the rows has hit `alreadyParsed`, the later rows change nothing. */
  lemma {:induction false} AbortedPrefixStable(g: Group, q: Query, rows: seq<map<string, Json>>, i: nat,
                                               parent: Option<Node>, oracle: Node -> bool)
    requires i <= |rows| && RowsScan(g, q, rows[..i], parent, oracle).alreadyParsed
    ensures RowsScan(g, q, rows, parent, oracle) == RowsScan(g, q, rows[..i], parent, oracle)
    decreases |rows| - i
  {
    if i < |rows| {
      var k := |rows| - 1;
      assert rows[..k][..i] == rows[..i];
      AbortedPrefixStable(g, q, rows[..k], i, parent, oracle);
    } else {
      assert rows[..i] == rows;
    }
  }

  /**
   * A row list stops only at a node the callback refused: that node is the
   * last one delivered.
   */
  lemma {:induction false} AlreadyParsedStopsAtRefusedNode(g: Group, q: Query, rows: seq<map<string, Json>>,
                                                           parent: Option<Node>, oracle: Node -> bool)
    requires RowsScan(g, q, rows, parent, oracle).alreadyParsed
    ensures var d := RowsScan(g, q, rows, parent, oracle).trace.delivered;
      |d| > 0 && oracle(d[|d| - 1])
    decreases |rows|
  {
    var prev := RowsScan(g, q, rows[..|rows| - 1], parent, oracle);
    if prev.alreadyParsed {
      AlreadyParsedStopsAtRefusedNode(g, q, rows[..|rows| - 1], parent, oracle);
    }
  }

  /**
   * A row that is a node is delivered before everything below it, and its
   * children are scanned with it as their parent; a refused node ends the
   * row. A row that is not a node is unwrapped: no delivery, same parent.
   */
  lemma RowDeliversItsNodeFirst(g: Group, q: Query, row: map<string, Json>, parent: Option<Node>, oracle: Node -> bool)
    ensures var r := RowScan(g, q, row, parent, oracle);
      match MakeNode(row, parent, None)
      case Some(n) =>
        if q.perNode.None? then r == RowTrace(ChildrenScan(g.fields, q, row, Some(n), oracle), false)
        else if oracle(n) then r == RowTrace(Trace([n], []), true)
        else r == RowTrace(Then(Trace([n], []), ChildrenScan(g.fields, q, row, Some(n), oracle)), false)
      case None => r == RowTrace(ChildrenScan(g.fields, q, row, parent, oracle), false)
  {
    match MakeNode(row, parent, None)
    case Some(n) =>
      if q.perNode.None? {
        ChildrenScanOk(g.fields, q, row, Some(n), oracle);
      }
    case None =>
  }

  /**
   * Payloads of the wrong shape are ignored: a group reads only objects and
   * arrays of objects, a fragment only objects, a batch group only arrays.
   */
  lemma WrongShapesAreIgnored(e: Element, q: Query, data: Json, parent: Option<Node>, oracle: Node -> bool)
    ensures e.GroupElement? && !data.JObject? && !(data.JArray? && AllObjects(data.items))
      ==> ElementScan(e, q, data, parent, oracle) == Empty
    ensures e.FragmentElement? && !data.JObject? ==> ElementScan(e, q, data, parent, oracle) == Empty
    ensures e.BatchElement? && !data.JArray? ==> ElementScan(e, q, data, parent, oracle) == Empty
  {
  }

  /**
   * A page of edges with a next page below a parent continues the query with
   * the root's shell for this group carrying the last edge's cursor, unless
   * the callback refused a node of the page.
   */
  lemma NextPageContinues(g: Group, q: Query, edges: seq<Json>, pageInfo: Option<map<string, Json>>,
                           parent: Option<Node>, oracle: Node -> bool)
    requires AllObjects(edges)
    ensures var rows := RowsScan(g, q, EdgeNodes(edges), parent, oracle);
      var r := EdgesScan(g, q, edges, pageInfo, parent, oracle);
      if rows.alreadyParsed || !HasNextPage(edges, pageInfo, parent) then r.extraQueries == rows.trace.extraQueries
      else
        var cursor := StringAt(edges[|edges| - 1].fields, "cursor").value;
        var shell := AsShell(q.rootElement, GroupElement(CloneGroup(g, Some(cursor), None)), Some(parent.value.id));
        r.extraQueries == rows.trace.extraQueries + (if shell.Some? then [FromQuery(q, shell.value)] else [])
  {
  }

  // ---------------------------------------------------------------------------
  // One more row, child or item: how the loops of the scanner advance

  lemma RowsScanStep(g: Group, q: Query, rows: seq<map<string, Json>>, i: nat, parent: Option<Node>, oracle: Node -> bool)
    requires i < |rows| && !RowsScan(g, q, rows[..i], parent, oracle).alreadyParsed
    ensures var prev := RowsScan(g, q, rows[..i], parent, oracle);
      var last := RowScan(g, q, rows[i], parent, oracle);
      var next := RowsScan(g, q, rows[..i + 1], parent, oracle);
      && next.alreadyParsed == last.alreadyParsed
      && next.trace.delivered == prev.trace.delivered + last.trace.delivered
      && next.trace.extraQueries == prev.trace.extraQueries + last.trace.extraQueries
  {
    assert rows[..i + 1][..i] == rows[..i];
  }

  lemma ChildrenScanStep(s: seq<Element>, q: Query, row: map<string, Json>, i: nat, parent: Option<Node>, oracle: Node -> bool)
    requires i < |s|
    ensures ChildrenScan(s[..i + 1], q, row, parent, oracle)
         == Then(ChildrenScan(s[..i], q, row, parent, oracle), ChildScan(s[i], q, row, parent, oracle))
  {
    assert s[..i + 1][..i] == s[..i];
  }

  /** Where the row loop leaves, at the end or at `alreadyParsed`, its prefix already gives the whole result. */
  lemma RowsLoopExit(g: Group, q: Query, rows: seq<map<string, Json>>, i: nat, parent: Option<Node>, oracle: Node -> bool)
    requires i <= |rows| && (i == |rows| || RowsScan(g, q, rows[..i], parent, oracle).alreadyParsed)
    ensures RowsScan(g, q, rows, parent, oracle) == RowsScan(g, q, rows[..i], parent, oracle)
  {
    if i < |rows| {
      AbortedPrefixStable(g, q, rows, i, parent, oracle);
    } else {
      assert rows[..i] == rows;
    }
  }

  lemma FragmentChildrenScanStep(s: seq<Element>, q: Query, hash: map<string, Json>, i: nat, parent: Option<Node>, oracle: Node -> bool)
    requires i < |s|
    ensures FragmentChildrenScan(s[..i + 1], q, hash, parent, oracle)
         == Then(FragmentChildrenScan(s[..i], q, hash, parent, oracle), FragmentChildScan(s[i], q, hash, parent, oracle))
  {
    assert s[..i + 1][..i] == s[..i];
  }

  lemma BatchRowsScanStep(t: Group, q: Query, items: seq<Json>, i: nat, parent: Option<Node>, oracle: Node -> bool)
    requires i < |items|
    ensures BatchRowsScan(t, q, items[..i + 1], parent, oracle)
         == Then(BatchRowsScan(t, q, items[..i], parent, oracle), BatchItemScan(t, q, items[i], parent, oracle))
  {
    assert items[..i + 1][..i] == items[..i];
  }
}
