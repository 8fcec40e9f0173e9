/**
 * The schema-element tree (`Element.swift`, `Field.swift`, `Fragment.swift`,
 * `Group.swift`, `BatchGroup.swift`): a closed family of four element kinds.
 * Every constructed element carries an id; the ids stand for the `UUID()`
 * values the initialisers draw and are supplied by the caller. A clone keeps
 * the id of the element it was cloned from.
 */
module Elements {
  import opened Wrappers
  import opened Strings

  /** `Group.Paging` */
  datatype Paging = NoPaging | First(count: int, paging: bool) | Last(count: int) | Max

  /** A parameter value is `LosslessStringConvertible`: either a `String` or something rendered by its description. */
  datatype ParamValue = StringValue(text: string) | OtherValue(description: string)

  /** `Group.Param` */
  datatype Param = Param(name: string, value: ParamValue)

  /** The `Element` protocol, closed over its four conforming types. */
  datatype Element =
    | FieldElement(field: Field)
    | FragmentElement(fragment: Fragment)
    | GroupElement(group: Group)
    | BatchElement(batch: BatchGroup)

  datatype Field = Field(id: nat, name: string)

  datatype Fragment = Fragment(id: nat, name: string, typeName: string, elements: seq<Element>)

  datatype Group = Group(
    id: nat,
    name: string,
    fields: seq<Element>,
    paging: Paging,
    extraParams: seq<Param>,
    lastCursor: Option<string>)

  datatype BatchGroup = BatchGroup(id: nat, name: string, idList: seq<string>, templateGroup: Group)

  /** The name of the shared `idField`. */
  const IdFieldName: string := "id"

  function Id(e: Element): nat {
    match e
    case FieldElement(f) => f.id
    case FragmentElement(f) => f.id
    case GroupElement(g) => g.id
    case BatchElement(b) => b.id
  }

  function Name(e: Element): string {
    match e
    case FieldElement(f) => f.name
    case FragmentElement(f) => f.name
    case GroupElement(g) => g.name
    case BatchElement(b) => b.name
  }

  /** Conformance to the `Scanning` protocol: every kind but `Field`. */
  predicate Scanning(e: Element) {
    !e.FieldElement?
  }

  /** `Group.init`: a fresh group starts without a cursor. */
  function NewGroup(id: nat, name: string, params: seq<Param>, paging: Paging, fields: seq<Element>): (g: Group)
    ensures g.id == id && g.name == name && g.fields == fields && g.paging == paging && g.extraParams == params
    ensures g.lastCursor == None
  {
    Group(id, name, fields, paging, params, None)
  }

  /**
   * `Group.init(cloning:lastCursor:replacedFields:)`: keeps id, name, paging
   * and parameters, takes the given cursor (absent by default) and replaces
   * the children when told to.
   */
  function CloneGroup(g: Group, lastCursor: Option<string>, replacedFields: Option<seq<Element>>): (r: Group)
    ensures r.id == g.id && r.name == g.name && r.paging == g.paging && r.extraParams == g.extraParams
    ensures r.lastCursor == lastCursor
    ensures r.fields == if replacedFields.Some? then replacedFields.value else g.fields
  {
    Group(g.id, g.name, if replacedFields.Some? then replacedFields.value else g.fields, g.paging, g.extraParams, lastCursor)
  }

  /** `Fragment.init(on:elements:)`: the name is the lower-cased type followed by `Fragment`. */
  function NewFragment(id: nat, typeName: string, elements: seq<Element>): (f: Fragment)
    ensures f.id == id && f.typeName == typeName && f.elements == elements
    ensures f.name == Lowercased(typeName) + "Fragment"
  {
    Fragment(id, Lowercased(typeName) + "Fragment", typeName, elements)
  }

  /** `Fragment.init(cloning:elements:)` */
  function CloneFragment(f: Fragment, elements: seq<Element>): (r: Fragment)
    ensures r.id == f.id && r.name == f.name && r.typeName == f.typeName && r.elements == elements
  {
    Fragment(f.id, f.name, f.typeName, elements)
  }

  /** `Fragment.addingElement`: the element goes last; identity, name and type are kept. */
  function AddingElement(f: Fragment, e: Element): (r: Fragment)
    ensures r.id == f.id && r.name == f.name && r.typeName == f.typeName
    ensures |r.elements| == |f.elements| + 1 && r.elements[..|f.elements|] == f.elements
    ensures r.elements[|f.elements|] == e
  {
    CloneFragment(f, f.elements + [e])
  }

  /** `BatchGroup.init(templateGroup:idList:)`, whose `assert` demands at most 100 ids. */
  function NewBatchGroup(id: nat, templateGroup: Group, idList: seq<string>): (b: BatchGroup)
    requires |idList| <= 100
    ensures b.id == id && b.name == "nodes" && b.templateGroup == templateGroup && b.idList == idList
  {
    BatchGroup(id, "nodes", idList, templateGroup)
  }

  /** `BatchGroup.init(cloning:templateGroup:rootId:)`: same identity, one id, a replaced template. */
  function CloneBatchGroup(b: BatchGroup, templateGroup: Group, rootId: string): (r: BatchGroup)
    ensures r.id == b.id && r.name == b.name && r.idList == [rootId] && r.templateGroup == templateGroup
  {
    BatchGroup(b.id, b.name, [rootId], templateGroup)
  }

  /** `Fragment ==`: fragments are equal when their names are. */
  predicate FragmentEquals(a: Fragment, b: Fragment) {
    a.name == b.name
  }

  /** What `Fragment.hash(into:)` feeds the hasher. */
  function FragmentHashInput(f: Fragment): string {
    f.name
  }

  /**
   * Fragments on the same type are equal and hash alike whatever their
   * contents and ids, equal fragments always hash alike, and adding any
   * element keeps a fragment equal to itself.
   */
  lemma FragmentIdentityIsTheName(a: Fragment, b: Fragment, id1: nat, id2: nat, typeName: string, e1: seq<Element>, e2: seq<Element>,
                                  x: Element)
    ensures FragmentEquals(a, b) ==> FragmentHashInput(a) == FragmentHashInput(b)
    ensures FragmentEquals(NewFragment(id1, typeName, e1), NewFragment(id2, typeName, e2))
    ensures FragmentEquals(a, AddingElement(a, x))
  {
  }

  // ---------------------------------------------------------------------------
  // Where an element or an id occurs in a tree

  /** `x` is `e` or is found somewhere below it. */
  ghost predicate Occurs(x: Element, e: Element)
    decreases e, 1
  {
    x == e ||
    match e
    case FieldElement(_) => false
    case FragmentElement(f) => OccursIn(x, f.elements)
    case GroupElement(g) => OccursIn(x, g.fields)
    case BatchElement(b) => OccursInGroup(x, b.templateGroup)
  }

  ghost predicate OccursInGroup(x: Element, g: Group)
    decreases g, 2
  {
    x == GroupElement(g) || OccursIn(x, g.fields)
  }

  ghost predicate OccursIn(x: Element, s: seq<Element>)
    decreases s, 0
  {
    |s| > 0 && (Occurs(x, s[0]) || OccursIn(x, s[1..]))
  }

  /** Some element with this id is `e` or lies below it. */
  predicate IdOccurs(id: nat, e: Element)
    decreases e, 1
  {
    Id(e) == id ||
    match e
    case FieldElement(_) => false
    case FragmentElement(f) => IdOccursIn(id, f.elements)
    case GroupElement(g) => IdOccursIn(id, g.fields)
    case BatchElement(b) => IdOccursInGroup(id, b.templateGroup)
  }

  predicate IdOccursInGroup(id: nat, g: Group)
    decreases g, 2
  {
    g.id == id || IdOccursIn(id, g.fields)
  }

  predicate IdOccursIn(id: nat, s: seq<Element>)
    decreases s, 0
  {
    |s| > 0 && (IdOccurs(id, s[0]) || IdOccursIn(id, s[1..]))
  }

  /** No batch group anywhere in the tree. */
  predicate BatchFree(e: Element)
    decreases e, 1
  {
    match e
    case FieldElement(_) => true
    case FragmentElement(f) => BatchFreeIn(f.elements)
    case GroupElement(g) => BatchFreeIn(g.fields)
    case BatchElement(_) => false
  }

  predicate BatchFreeIn(s: seq<Element>)
    decreases s, 0
  {
    |s| == 0 || (BatchFree(s[0]) && BatchFreeIn(s[1..]))
  }
}
