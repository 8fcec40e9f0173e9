/**
 * One page of a paged list scanned below a parent: the edge's node goes to
 * the callback, and the last edge's cursor turns into a query for the next
 * page, unless the callback says the node was already parsed.
 */
module ScanExample {
  import opened Wrappers
  import opened Strings
  import opened Json
  import opened Nodes
  import opened Elements
  import opened Render
  import opened Queries
  import opened ScanSpec

  /** `Group("items", paging: .first(count: 10, paging: true)) { Field("name") }` */
  function Items(): Group {
    Group(10, "items", [FieldElement(Field(11, "name"))], First(10, true), [], None)
  }

  /** The query asks for the owner's items, so the scan starts below the owner, as `processResponse` does. */
  function ItemsQuery(): Query {
    Query("items", GroupElement(Items()), Some(Owner()), false, Some(0))
  }

  function Owner(): Node {
    Node("R1", "Repository", map[], None, None, 0)
  }

  function ItemPayload(): map<string, Json> {
    map["id" := JString("I1"), "__typename" := JString("Issue")]
  }

  /** `{ "edges": [ { "node": { "id": "I1", "__typename": "Issue" }, "cursor": "c1" } ], "pageInfo": { "hasNextPage": true } }` */
  function Page(): Json {
    JObject(map[
      "edges" := JArray([JObject(map["node" := JObject(ItemPayload()), "cursor" := JString("c1")])]),
      "pageInfo" := JObject(map["hasNextPage" := JBool(true)])])
  }

  function ItemNode(): Node {
    Node("I1", "Issue", ItemPayload(), Some(Owner()), None, 0)
  }

  lemma PageRow(oracle: Node -> bool)
    ensures RowScan(Items(), ItemsQuery(), ItemPayload(), Some(Owner()), oracle)
         == if oracle(ItemNode()) then RowTrace(Trace([ItemNode()], []), true)
            else RowTrace(Trace([ItemNode()], []), false)
  {
    var row := ItemPayload();
    assert StringAt(row, "id") == Some("I1");
    assert StringAt(row, "__typename") == Some("Issue");
    assert MakeNode(row, Some(Owner()), None) == Some(ItemNode());
    var fields := Items().fields;
    assert fields[..0] == [];
    assert ChildrenScan(fields, ItemsQuery(), row, Some(ItemNode()), oracle) == Empty;
  }

  lemma PageRows(oracle: Node -> bool)
    ensures var edges := Page().fields["edges"].items;
      AllObjects(edges) && EdgeNodes(edges) == [ItemPayload()]
  {
    var edges := Page().fields["edges"].items;
    assert edges[1..] == [];
    assert ObjectAt(edges[0].fields, "node") == Some(ItemPayload());
  }

  /**
   * A new node: it is delivered, and the next page is asked for with a clone
   * of the group that carries the cursor `c1`, which renders as `after: "c1"`.
   */
  lemma NewNodeAsksForNextPage(oracle: Node -> bool)
    requires !oracle(ItemNode())
    ensures GroupScan(Items(), ItemsQuery(), Page(), Some(Owner()), oracle)
         == Trace([ItemNode()], [FromQuery(ItemsQuery(), GroupElement(CloneGroup(Items(), Some("c1"), None)))])
    ensures AfterArgument("c1") in Arguments(CloneGroup(Items(), Some("c1"), None))
  {
    var edges := Page().fields["edges"].items;
    PageRows(oracle);
    PageRow(oracle);
    var rows := [ItemPayload()];
    assert rows[..0] == [];
    assert RowsScan(Items(), ItemsQuery(), rows, Some(Owner()), oracle) == RowTrace(Trace([ItemNode()], []), false);
    assert StringAt(edges[0].fields, "cursor") == Some("c1");
    assert HasNextPage(edges, ObjectAt(Page().fields, "pageInfo"), Some(Owner()));
    var clone := CloneGroup(Items(), Some("c1"), None);
    assert PagingArguments(clone.paging, clone.lastCursor)[1] == AfterArgument("c1");
  }

  /** An already-parsed node: it was still handed to the callback, but no next page is asked for. */
  lemma KnownNodeEndsThePaging(oracle: Node -> bool)
    requires oracle(ItemNode())
    ensures GroupScan(Items(), ItemsQuery(), Page(), Some(Owner()), oracle) == Trace([ItemNode()], [])
  {
    PageRows(oracle);
    PageRow(oracle);
    var rows := [ItemPayload()];
    assert rows[..0] == [];
    assert RowsScan(Items(), ItemsQuery(), rows, Some(Owner()), oracle) == RowTrace(Trace([ItemNode()], []), true);
  }

  lemma TenText()
    ensures IntToString(10) == "10"
  {
    assert NatToString(1) == "1";
    assert NatToString(10) == NatToString(1) + [DigitChar(0)];
  }

  /**
   * The next-page group, piece by piece: its header carries `first: 10` and
   * `after: "c1"`, and its body the paged-list shape around its fields.
   */
  lemma NextPageGroupText()
    ensures GroupQueryText(CloneGroup(Items(), Some("c1"), None))
      == "items" + "(" + ("first: " + IntToString(10) + ", " + AfterArgument("c1")) + ")"
       + " { edges { node { " + ("__typename " + "name") + " } cursor } pageInfo { hasNextPage } }"
  {
    var g := CloneGroup(Items(), Some("c1"), None);
    var args := ["first: " + IntToString(10), AfterArgument("c1")];
    assert Arguments(g) == args;
    assert args[1..] == [AfterArgument("c1")];
    assert Join(args, ", ") == "first: " + IntToString(10) + ", " + AfterArgument("c1");
    assert g.fields[1..] == [];
    assert Texts(g.fields) == ["name"];
  }

  /**
   * The next-page query asks for the owner's node by its id and type, and
   * inside it for the items after the cursor `c1`.
   */
  lemma NextPageText()
    ensures RootQueryText(FromQuery(ItemsQuery(), GroupElement(CloneGroup(Items(), Some("c1"), None))))
      == "node(id: \"" + "R1" + "\") { ... on " + "Repository" + " { "
       + GroupQueryText(CloneGroup(Items(), Some("c1"), None)) + " } }"
  {
  }
}
