/**
 * A graph object found while scanning a response (`Node.swift`): its protocol
 * id, its `__typename`, the raw object it was read from, the node it was
 * reached through and a flag word reserved for the caller.
 */
module Nodes {
  import opened Wrappers
  import opened Json

  /**
   * All fields are immutable except `flags`, which no part of the engine writes.
   * The parent is a value that exists before its child, so the ancestor chain
   * is fixed at construction and cannot loop back on itself.
   */
  datatype Node = Node(
    id: string,
    elementType: string,
    jsonPayload: map<string, Json>,
    parent: Option<Node>,
    relationship: Option<string>,
    flags: int)

  /** What the caller's callback is told about (the engine's shown code only ever sends `NodeOutput`). */
  datatype ParseOutput = NodeOutput(node: Node) | QueryPageComplete | QueryComplete

  /** The failable initialiser: an object is a node when it carries a string `id` and a string `__typename`. */
  function MakeNode(payload: map<string, Json>, parent: Option<Node>, relationship: Option<string>): (r: Option<Node>)
    ensures r.Some? <==> StringAt(payload, "id").Some? && StringAt(payload, "__typename").Some?
    ensures r.Some? ==> payload["id"] == JString(r.value.id) && payload["__typename"] == JString(r.value.elementType)
    ensures r.Some? ==> r.value.jsonPayload == payload && r.value.parent == parent
                        && r.value.relationship == relationship && r.value.flags == 0
  {
    match (StringAt(payload, "id"), StringAt(payload, "__typename"))
    case (Some(id), Some(elementType)) => Some(Node(id, elementType, payload, parent, relationship, 0))
    case _ => None
  }

  /** `parent?.id` */
  function ParentId(n: Node): Option<string> {
    if n.parent.Some? then Some(n.parent.value.id) else None
  }

  /** `==`: same id and same parent id, two absent parents counting as the same. */
  predicate Equal(a: Node, b: Node) {
    a.id == b.id && ParentId(a) == ParentId(b)
  }

  /** What `hash(into:)` feeds the hasher: the id, then the parent's id when there is one. */
  function HashInput(n: Node): seq<string> {
    [n.id] + (if n.parent.Some? then [n.parent.value.id] else [])
  }

  /** Equality and hashing agree: equal nodes hash alike, and nodes fed identically to the hasher are equal. */
  lemma EqualIffSameHashInput(a: Node, b: Node)
    ensures Equal(a, b) <==> HashInput(a) == HashInput(b)
  {
    if HashInput(a) == HashInput(b) {
      assert |HashInput(a)| == |HashInput(b)|;
      assert HashInput(a)[0] == HashInput(b)[0];
      if a.parent.Some? {
        assert HashInput(a)[1] == HashInput(b)[1];
      }
    }
  }

  /** Node equality is an equivalence relation. */
  lemma EqualIsEquivalence(a: Node, b: Node, c: Node)
    ensures Equal(a, a)
    ensures Equal(a, b) ==> Equal(b, a)
    ensures Equal(a, b) && Equal(b, c) ==> Equal(a, c)
  {
  }

  /** The chain of nodes reached by following `parent`, nearest first. */
  function Ancestors(n: Node): seq<Node>
    decreases n
  {
    if n.parent.None? then [] else [n.parent.value] + Ancestors(n.parent.value)
  }

  /** Every ancestor is strictly smaller than the node, so no node is its own ancestor: the parent links form no cycle. */
  lemma {:induction false} NoCycles(n: Node)
    ensures forall i :: 0 <= i < |Ancestors(n)| ==> Ancestors(n)[i] < n
    ensures n !in Ancestors(n)
  {
    if n.parent.Some? {
      var p := n.parent.value;
      NoCycles(p);
      forall i | 0 <= i < |Ancestors(n)|
        ensures Ancestors(n)[i] < n
      {
        if i > 0 {
          assert Ancestors(n)[i] == Ancestors(p)[i - 1];
        }
      }
    }
  }

  /** A node built by the initialiser hangs below the given parent and inherits its ancestors. */
  lemma NewNodeAncestors(payload: map<string, Json>, parent: Node, relationship: Option<string>)
    requires MakeNode(payload, Some(parent), relationship).Some?
    ensures Ancestors(MakeNode(payload, Some(parent), relationship).value) == [parent] + Ancestors(parent)
  {
  }
}
