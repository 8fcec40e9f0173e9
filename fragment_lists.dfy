/**
 * The `fragments` lists of the four element kinds: every fragment reachable
 * from an element, in tree order, with repeats (deduplication happens only
 * when a query renders its fragment declarations).
 */
module FragmentLists {
  import opened Elements

  /** `Element.fragments`; a field has none and a batch group lists its template's. */
  function Fragments(e: Element): seq<Fragment>
    decreases e, 1
  {
    match e
    case FieldElement(_) => []
    case FragmentElement(f) => FragmentFragments(f)
    case GroupElement(g) => GroupFragments(g)
    case BatchElement(b) => GroupFragments(b.templateGroup)
  }

  /** `Fragment.fragments`: the fragment itself comes first. */
  function FragmentFragments(f: Fragment): seq<Fragment>
    decreases f, 2
  {
    [f] + ChildFragments(f.elements)
  }

  /** `Group.fragments` */
  function GroupFragments(g: Group): seq<Fragment>
    decreases g, 2
  {
    ChildFragments(g.fields)
  }

  /** The children's lists, one after the other. */
  function ChildFragments(s: seq<Element>): seq<Fragment>
    decreases s, 0
  {
    if |s| == 0 then [] else Fragments(s[0]) + ChildFragments(s[1..])
  }

  lemma {:induction false} ChildFragmentsAppend(a: seq<Element>, b: seq<Element>)
    ensures ChildFragments(a + b) == ChildFragments(a) + ChildFragments(b)
    decreases |a|
  {
    if |a| == 0 {
      assert a + b == b;
    } else {
      assert (a + b)[0] == a[0];
      assert (a + b)[1..] == a[1..] + b;
      ChildFragmentsAppend(a[1..], b);
    }
  }

  /** The loop shared by `Group.fragments` and `Fragment.fragments`: append each child's list to `res0`. */
  method AppendChildFragments(res0: seq<Fragment>, s: seq<Element>) returns (res: seq<Fragment>)
    ensures res == res0 + ChildFragments(s)
  {
    res := res0;
    for i := 0 to |s|
      invariant res == res0 + ChildFragments(s[..i])
    {
      assert s[..i + 1] == s[..i] + [s[i]];
      assert [s[i]][1..] == [];
      ChildFragmentsAppend(s[..i], [s[i]]);
      res := res + Fragments(s[i]);
    }
    assert s[..|s|] == s;
  }

  /** `Group.fragments`, starting from an empty list. */
  method CollectGroupFragments(g: Group) returns (res: seq<Fragment>)
    ensures res == GroupFragments(g)
  {
    res := AppendChildFragments([], g.fields);
  }

  /** `Fragment.fragments`, starting from a list holding the fragment itself. */
  method CollectFragmentFragments(f: Fragment) returns (res: seq<Fragment>)
    ensures res == FragmentFragments(f)
    ensures |res| > 0 && res[0] == f
  {
    res := AppendChildFragments([f], f.elements);
  }

  /**
   * A fragment is listed exactly when it occurs in the tree; a field lists
   * nothing.
   */
  lemma {:induction false} ListedIffOccurs(x: Fragment, e: Element)
    ensures x in Fragments(e) <==> Occurs(FragmentElement(x), e)
    ensures e.FieldElement? ==> Fragments(e) == []
    decreases e, 1
  {
    match e
    case FieldElement(_) =>
    case FragmentElement(f) => ChildListedIffOccurs(x, f.elements);
    case GroupElement(g) => ChildListedIffOccurs(x, g.fields);
    case BatchElement(b) => ChildListedIffOccurs(x, b.templateGroup.fields);
  }

  lemma {:induction false} ChildListedIffOccurs(x: Fragment, s: seq<Element>)
    ensures x in ChildFragments(s) <==> OccursIn(FragmentElement(x), s)
    decreases s, 0
  {
    if |s| > 0 {
      ListedIffOccurs(x, s[0]);
      ChildListedIffOccurs(x, s[1..]);
    }
  }
}
