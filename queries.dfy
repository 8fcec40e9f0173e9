/**
 * `Query.swift` apart from response processing: the query value, its copy
 * with a new root, the full request text, its cost, and the splitting of an
 * id list into batch queries.
 */
module Queries {
  import opened Wrappers
  import opened Strings
  import opened Nodes
  import opened Elements
  import opened Cost
  import opened Render
  import opened FragmentLists

  /** A root element must conform to `Scanning`. */
  type ScanningElement = e: Element | Scanning(e)
    witness GroupElement(Group(0, "", [], NoPaging, [], None))

  /**
   * `Query`. The per-node callback is code of the caller; the model keeps only
   * whether there is one and an identity for it, and the scan asks an oracle
   * for its answer.
   */
  datatype Query = Query(
    name: string,
    rootElement: ScanningElement,
    parent: Option<Node>,
    allowsEmptyResponse: bool,
    perNode: Option<nat>)

  /** `Query.init(from:with:)`: everything is copied except the root. */
  function FromQuery(q: Query, newRootElement: ScanningElement): (r: Query)
    ensures r.rootElement == newRootElement
    ensures r.(rootElement := q.rootElement) == q
  {
    Query(q.name, newRootElement, q.parent, q.allowsEmptyResponse, q.perNode)
  }

  /** `Query.nodeCost` */
  function QueryNodeCost(q: Query): int {
    NodeCost(q.rootElement)
  }

  /** `Query.logPrefix` */
  function LogPrefix(q: Query): string {
    "(TQL '" + q.name + "') "
  }

  // ---------------------------------------------------------------------------
  // Request text

  /** `rootQueryText`: below a parent, the root is asked for through `node(id:)`. */
  function RootQueryText(q: Query): string {
    if q.parent.Some? then
      "node(id: \"" + q.parent.value.id + "\") { ... on " + q.parent.value.elementType + " { "
        + QueryText(q.rootElement) + " } }"
    else QueryText(q.rootElement)
  }

  function FragmentNames(s: seq<Fragment>): set<string> {
    set f | f in s :: f.name
  }

  /**
   * The fragments of `s` with one per name, whose name is not in `seen`. The
   * model keeps the first of each name in list order; the engine collects
   * them in a `Set` (equality and hash by name), whose order is not fixed.
   */
  function DistinctByName(s: seq<Fragment>, seen: set<string>): (r: seq<Fragment>)
    ensures FragmentNames(r) == FragmentNames(s) - seen
    ensures forall i, j :: 0 <= i < j < |r| ==> r[i].name != r[j].name
    ensures forall f :: f in r ==> f in s
    decreases |s|
  {
    if |s| == 0 then []
    else if s[0].name in seen then
      var r := DistinctByName(s[1..], seen);
      assert FragmentNames(s) == {s[0].name} + FragmentNames(s[1..]) by {
        assert forall f :: f in s <==> f == s[0] || f in s[1..];
      }
      r
    else
      var rest := DistinctByName(s[1..], seen + {s[0].name});
      var r := [s[0]] + rest;
      assert FragmentNames(s) == {s[0].name} + FragmentNames(s[1..]) by {
        assert forall f :: f in s <==> f == s[0] || f in s[1..];
      }
      assert FragmentNames(r) == {s[0].name} + FragmentNames(rest) by {
        assert forall f :: f in r <==> f == s[0] || f in rest;
      }
      assert forall j :: 0 < j < |r| ==> r[j] in rest;
      r
  }

  function Declarations(s: seq<Fragment>): (r: seq<string>)
    ensures |r| == |s|
    ensures forall i :: 0 <= i < |s| ==> r[i] == Declaration(s[i])
  {
    seq(|s|, i requires 0 <= i < |s| => Declaration(s[i]))
  }

  /** The fragments `fragmentQueryText` declares. */
  function DeclaredFragments(q: Query): seq<Fragment> {
    DistinctByName(Fragments(q.rootElement), {})
  }

  /** `fragmentQueryText`: one declaration per distinct fragment name, separated by spaces. */
  function FragmentQueryText(q: Query): string {
    Join(Declarations(DeclaredFragments(q)), " ")
  }

  const RateLimitText: string := " rateLimit { limit cost remaining resetAt nodeCount } }"

  /** `Query.queryText` */
  function QueryRequestText(q: Query): string {
    FragmentQueryText(q) + " { " + RootQueryText(q) + RateLimitText
  }

  /**
   * Exactly one declaration is emitted for each fragment name occurring in
   * the root's tree, and no two declarations share a name.
   */
  lemma DeclaresEachFragmentOnce(q: Query)
    ensures forall name :: (name in FragmentNames(DeclaredFragments(q))
      <==> exists f :: Occurs(FragmentElement(f), q.rootElement) && f.name == name)
    ensures forall i, j :: 0 <= i < j < |DeclaredFragments(q)| ==> DeclaredFragments(q)[i].name != DeclaredFragments(q)[j].name
    ensures forall f :: f in DeclaredFragments(q) ==> Occurs(FragmentElement(f), q.rootElement)
  {
    forall f {
      ListedIffOccurs(f, q.rootElement);
    }
  }

  /** A tree without fragments renders no declarations, so the text starts with the root's braces. */
  lemma NoFragmentsNoDeclarations(q: Query)
    requires forall f :: !Occurs(FragmentElement(f), q.rootElement)
    ensures QueryRequestText(q) == " { " + RootQueryText(q) + RateLimitText
  {
    DeclaresEachFragmentOnce(q);
    FirstIsMember(DeclaredFragments(q));
  }

  lemma FirstIsMember(s: seq<Fragment>)
    ensures |s| > 0 ==> s[0] in s
  {
  }

  // ---------------------------------------------------------------------------
  // Batching

  /** The consecutive slices that `prefix(size)` / `dropFirst(size)` cut from `list`. */
  function Chunks(list: seq<string>, size: nat): (r: seq<seq<string>>)
    requires size >= 1
    ensures forall i :: 0 <= i < |r| ==> 1 <= |r[i]| <= size
    ensures |list| == 0 <==> r == []
    decreases |list|
  {
    if |list| == 0 then []
    else
      var n := if size < |list| then size else |list|;
      [list[..n]] + Chunks(list[n..], size)
  }

  function Flatten(ss: seq<seq<string>>): seq<string> {
    if |ss| == 0 then [] else ss[0] + Flatten(ss[1..])
  }

  /** The first chunk is the list's first `size` ids, or all of them; the rest is chunked alike. */
  lemma ChunksFirst(list: seq<string>, size: nat)
    requires size >= 1 && |list| > 0
    ensures var n := if size < |list| then size else |list|;
      && |Chunks(list, size)| > 0
      && Chunks(list, size)[0] == list[..n]
      && Chunks(list, size)[1..] == Chunks(list[n..], size)
  {
  }

  /** The chunks put back together are the original list. */
  lemma {:induction false} ChunksConcatenate(list: seq<string>, size: nat)
    requires size >= 1
    ensures Flatten(Chunks(list, size)) == list
    decreases |list|
  {
    if |list| > 0 {
      var n := if size < |list| then size else |list|;
      ChunksFirst(list, size);
      ChunksConcatenate(list[n..], size);
      assert list[..n] + list[n..] == list;
    }
  }

  /**
   * There are `ceil(|list| / size)` chunks: the fewest whose total capacity
   * holds the list.
   */
  lemma {:induction false} ChunkCount(list: seq<string>, size: nat)
    requires size >= 1
    ensures |list| <= |Chunks(list, size)| * size
    ensures |Chunks(list, size)| > 0 ==> (|Chunks(list, size)| - 1) * size < |list|
    decreases |list|
  {
    if |list| > 0 {
      if size < |list| {
        ChunkCount(list[size..], size);
        CapacityStep(|list|, |Chunks(list[size..], size)|, size);
      } else {
        assert list[|list|..] == [];
      }
    }
  }

  lemma CapacityStep(n: int, k: int, size: int)
    requires size >= 1 && n > size && k >= 0
    requires n - size <= k * size
    requires k > 0 ==> (k - 1) * size < n - size
    ensures n <= (k + 1) * size && k * size < n
  {
    assert (k + 1) * size == k * size + size;
    assert k > 0 ==> (k - 1) * size == k * size - size;
  }

  /** The `"items"` group that `batching` builds around the given fields. */
  function BatchTemplate(id: nat, fields: seq<Element>): Group {
    NewGroup(id, "items", [], NoPaging, fields)
  }

  /** `batchLimit` for the given budget (the budget is not passed at `Query.swift:39`). */
  function BatchLimit(fields: seq<Element>, maximumCost: int): (r: nat)
    ensures 1 <= r <= 100
  {
    RecommendedLimit(BatchTemplate(0, fields), maximumCost)
  }

  /**
   * `Query.batching`: one query per chunk, in order. Every query carries the
   * given name and callback, no parent and no empty-response allowance, and
   * its root is a `nodes` batch group over the chunk and the shared template.
   * `nextId` stands for the template's fresh id; batch group `i` takes
   * `nextId + 1 + i`.
   */
  method Batching(name: string, idList: seq<string>, perNode: Option<nat>, fields: seq<Element>,
                  maximumCost: int, nextId: nat) returns (queries: seq<Query>)
    ensures |queries| == |Chunks(idList, BatchLimit(fields, maximumCost))|
    ensures forall i :: 0 <= i < |queries| ==>
      queries[i] == Query(name,
        BatchElement(NewBatchGroup(nextId + 1 + i, BatchTemplate(nextId, fields), Chunks(idList, BatchLimit(fields, maximumCost))[i])),
        None, false, perNode)
  {
    var template := BatchTemplate(nextId, fields);
    var batchLimit := RecommendedLimit(template, maximumCost);
    BatchLimitIgnoresId(nextId, fields, maximumCost);
    queries := BatchQueries(name, idList, perNode, template, batchLimit, nextId + 1);
  }

  /** The template's id plays no part in the limit. */
  lemma BatchLimitIgnoresId(id: nat, fields: seq<Element>, maximumCost: int)
    ensures RecommendedLimit(BatchTemplate(id, fields), maximumCost) == BatchLimit(fields, maximumCost)
  {
    assert GroupCost(BatchTemplate(id, fields)) == GroupCost(BatchTemplate(0, fields));
  }

  /** The loop of `batching`: the list is cut into chunks of `batchLimit` ids, and query `i` takes id `firstId + i`. */
  method BatchQueries(name: string, idList: seq<string>, perNode: Option<nat>, template: Group,
                      batchLimit: nat, firstId: nat) returns (queries: seq<Query>)
    requires 1 <= batchLimit <= 100
    ensures |queries| == |Chunks(idList, batchLimit)|
    ensures forall i :: 0 <= i < |queries| ==>
      queries[i] == Query(name, BatchElement(NewBatchGroup(firstId + i, template, Chunks(idList, batchLimit)[i])), None, false, perNode)
  {
    ghost var chunks := Chunks(idList, batchLimit);
    var list := idList;
    queries := [];
    while |list| > 0
      invariant |queries| <= |chunks|
      invariant Chunks(list, batchLimit) == chunks[|queries|..]
      invariant forall i :: 0 <= i < |queries| ==>
        queries[i] == Query(name, BatchElement(NewBatchGroup(firstId + i, template, chunks[i])), None, false, perNode)
      decreases |list|
    {
      var n := if batchLimit < |list| then batchLimit else |list|;
      var chunk := list[..n];
      ChunksFirst(list, batchLimit);
      var k := |queries|;
      assert chunks[k] == chunk && chunks[k + 1..] == Chunks(list[n..], batchLimit);
      var batchGroup := NewBatchGroup(firstId + k, template, chunk);
      var query := Query(name, BatchElement(batchGroup), None, false, perNode);
      queries := queries + [query];
      list := list[n..];
    }
    assert chunks[|queries|..] == [];
  }

  /** The batch queries ask for every id of the list exactly once, in order. */
  lemma BatchesCoverTheList(idList: seq<string>, fields: seq<Element>, maximumCost: int)
    ensures Flatten(Chunks(idList, BatchLimit(fields, maximumCost))) == idList
    ensures |idList| <= |Chunks(idList, BatchLimit(fields, maximumCost))| * BatchLimit(fields, maximumCost)
    ensures |idList| > 0 ==> (|Chunks(idList, BatchLimit(fields, maximumCost))| - 1) * BatchLimit(fields, maximumCost) < |idList|
  {
    ChunksConcatenate(idList, BatchLimit(fields, maximumCost));
    ChunkCount(idList, BatchLimit(fields, maximumCost));
  }

  /**
   * The cost of a batch query: every id of its chunk pays one row plus the
   * cost of the fields asked for it.
   */
  lemma BatchQueryCost(name: string, id: nat, templateId: nat, fields: seq<Element>, chunk: seq<string>, perNode: Option<nat>)
    requires |chunk| <= 100
    ensures QueryNodeCost(Query(name, BatchElement(NewBatchGroup(id, BatchTemplate(templateId, fields), chunk)), None, false, perNode))
         == |chunk| * (1 + SumCost(fields))
  {
    var t := BatchTemplate(templateId, fields);
    var b := NewBatchGroup(id, t, chunk);
    assert GroupCost(t) == SumCost(fields);
    assert NodeCost(BatchElement(b)) == BatchCost(b) == |chunk| + |chunk| * GroupCost(t);
    assert |chunk| + |chunk| * SumCost(fields) == |chunk| * (1 + SumCost(fields));
  }
}
