/**
 * The cost model (`nodeCost` of every element kind) and the batch-size rule
 * `Group.recommendedLimit(upTo:)`.
 */
module Cost {
  import opened Elements

  function NodeCost(e: Element): int
    decreases e, 1
  {
    match e
    case FieldElement(_) => 0
    case FragmentElement(f) => FragmentCost(f)
    case GroupElement(g) => GroupCost(g)
    case BatchElement(b) => BatchCost(b)
  }

  /** `elements.reduce(0) { $0 + $1.nodeCost }` */
  function SumCost(s: seq<Element>): int
    decreases s, 0
  {
    if |s| == 0 then 0 else NodeCost(s[0]) + SumCost(s[1..])
  }

  function FragmentCost(f: Fragment): int
    decreases f, 0
  {
    SumCost(f.elements)
  }

  /** A paged group pays once per requested row, plus each row's children. */
  function GroupCost(g: Group): int
    decreases g, 0
  {
    var fieldCost := SumCost(g.fields);
    match g.paging
    case NoPaging => fieldCost
    case Max => 100 + fieldCost * 100
    case First(count, _) => count + fieldCost * count
    case Last(count) => count + fieldCost * count
  }

  /** One row per id, each paying the template's cost. */
  function BatchCost(b: BatchGroup): int
    decreases b, 0
  {
    |b.idList| + |b.idList| * GroupCost(b.templateGroup)
  }

  /** `(Float(a) / Float(b)).rounded(.down)` taken on integers. */
  function FloorDiv(a: int, b: int): (q: int)
    requires b != 0
    ensures b > 0 ==> q * b <= a < (q + 1) * b
    ensures b < 0 ==> (q + 1) * b < a <= q * b
  {
    if b > 0 then a / b else (-a) / (-b)
  }

  function MinInt(a: int, b: int): int { if a < b then a else b }

  function MaxInt(a: int, b: int): int { if a < b then b else a }

  /** How many rows of this template fit in a budget: 100 for a free template, otherwise the floor of budget over cost clamped to 1..100. */
  function RecommendedLimit(g: Group, maximumCost: int): (r: int)
    ensures 1 <= r <= 100
    ensures GroupCost(g) == 0 ==> r == 100
  {
    var templateCost := GroupCost(g);
    if templateCost == 0 then 100 else MinInt(100, MaxInt(1, FloorDiv(maximumCost, templateCost)))
  }

  // ---------------------------------------------------------------------------
  // Properties

  /** A field costs nothing. */
  lemma FieldCostsNothing(f: Field)
    ensures NodeCost(FieldElement(f)) == 0
  {
  }

  /** The cost of children is additive over concatenation. */
  lemma {:induction false} SumCostAppend(a: seq<Element>, b: seq<Element>)
    ensures SumCost(a + b) == SumCost(a) + SumCost(b)
    decreases |a|
  {
    if |a| > 0 {
      assert (a + b)[1..] == a[1..] + b;
      SumCostAppend(a[1..], b);
    } else {
      assert a + b == b;
    }
  }

  /** Adding an element to a fragment adds exactly that element's cost. */
  lemma AddingElementCost(f: Fragment, e: Element)
    ensures FragmentCost(AddingElement(f, e)) == FragmentCost(f) + NodeCost(e)
  {
    SumCostAppend(f.elements, [e]);
    assert [e][1..] == [];
  }

  /** No paging count anywhere in the tree is negative. */
  predicate CountsNonNegative(e: Element)
    decreases e, 1
  {
    match e
    case FieldElement(_) => true
    case FragmentElement(f) => AllCountsNonNegative(f.elements)
    case GroupElement(g) => GroupCountsNonNegative(g)
    case BatchElement(b) => GroupCountsNonNegative(b.templateGroup)
  }

  predicate GroupCountsNonNegative(g: Group)
    decreases g, 0
  {
    AllCountsNonNegative(g.fields) &&
    match g.paging
    case First(count, _) => count >= 0
    case Last(count) => count >= 0
    case _ => true
  }

  predicate AllCountsNonNegative(s: seq<Element>)
    decreases s, 0
  {
    |s| == 0 || (CountsNonNegative(s[0]) && AllCountsNonNegative(s[1..]))
  }

  /** With non-negative paging counts every cost is non-negative. */
  lemma {:induction false} CostNonNegative(e: Element)
    requires CountsNonNegative(e)
    ensures NodeCost(e) >= 0
    decreases e, 1
  {
    match e
    case FieldElement(_) =>
    case FragmentElement(f) => SumCostNonNegative(f.elements);
    case GroupElement(g) => GroupCostNonNegative(g);
    case BatchElement(b) => GroupCostNonNegative(b.templateGroup);
  }

  lemma {:induction false} GroupCostNonNegative(g: Group)
    requires GroupCountsNonNegative(g)
    ensures GroupCost(g) >= 0
    decreases g, 0
  {
    SumCostNonNegative(g.fields);
    var fc := SumCost(g.fields);
    match g.paging
    case NoPaging =>
    case Max =>
    case First(count, _) => assert fc * count >= 0;
    case Last(count) => assert fc * count >= 0;
  }

  lemma {:induction false} SumCostNonNegative(s: seq<Element>)
    requires AllCountsNonNegative(s)
    ensures SumCost(s) >= 0
    decreases s, 0
  {
    if |s| > 0 {
      CostNonNegative(s[0]);
      SumCostNonNegative(s[1..]);
    }
  }

  /** Asking for more rows costs strictly more, for `first` and `last` alike, once the children's cost is non-negative. */
  lemma CostIncreasesWithCount(g: Group, n1: int, n2: int, withCursor: bool)
    requires AllCountsNonNegative(g.fields)
    requires n1 < n2
    ensures GroupCost(g.(paging := First(n1, withCursor))) < GroupCost(g.(paging := First(n2, withCursor)))
    ensures GroupCost(g.(paging := Last(n1))) < GroupCost(g.(paging := Last(n2)))
  {
    SumCostNonNegative(g.fields);
    var fc := SumCost(g.fields);
    assert fc * n2 - fc * n1 == fc * (n2 - n1);
    assert fc * (n2 - n1) >= 0;
  }

  /** `max` paging costs what `first: 100` costs. */
  lemma MaxIsFirstHundred(g: Group, withCursor: bool)
    ensures GroupCost(g.(paging := Max)) == GroupCost(g.(paging := First(100, withCursor)))
  {
  }

  /** When at least one row fits, the recommended number of rows stays within the budget. */
  lemma RecommendedLimitFitsBudget(g: Group, maximumCost: int)
    requires GroupCost(g) > 0 && maximumCost >= GroupCost(g)
    ensures RecommendedLimit(g, maximumCost) * GroupCost(g) <= maximumCost
  {
    var c := GroupCost(g);
    var q := FloorDiv(maximumCost, c);
    QuotientAtLeastOne(maximumCost, c, q);
    var r := RecommendedLimit(g, maximumCost);
    assert 1 <= r <= q;
    ScaleBelow(r, q, c);
  }

  lemma QuotientAtLeastOne(a: int, c: int, q: int)
    requires 0 < c <= a && a < (q + 1) * c
    ensures q >= 1
  {
    assert (q + 1) * c == q * c + c;
    assert q * c > 0;
  }

  lemma ScaleBelow(r: int, q: int, c: int)
    requires r <= q && c > 0
    ensures r * c <= q * c
  {
    assert q * c - r * c == (q - r) * c;
  }

  /** Below the cap of 100 rows, one more row would exceed the budget: the limit is the largest that fits. */
  lemma RecommendedLimitIsLargest(g: Group, maximumCost: int)
    requires GroupCost(g) > 0
    requires RecommendedLimit(g, maximumCost) < 100
    ensures (RecommendedLimit(g, maximumCost) + 1) * GroupCost(g) > maximumCost
  {
    var c := GroupCost(g);
    var q := FloorDiv(maximumCost, c);
    var r := RecommendedLimit(g, maximumCost);
    assert maximumCost < (q + 1) * c;
    if q >= 1 {
      assert r == q;
    } else {
      assert r == 1;
      assert (q + 1) * c <= 2 * c by {
        assert q + 1 <= 2;
      }
    }
  }

  /** A budget below the cost of one row still asks for one row: the `max(1, …)` floor. */
  lemma TooSmallBudgetAsksForOneRow(g: Group, maximumCost: int)
    requires GroupCost(g) > 0 && maximumCost < GroupCost(g)
    ensures RecommendedLimit(g, maximumCost) == 1
  {
    var c := GroupCost(g);
    QuotientBelowOne(maximumCost, c, FloorDiv(maximumCost, c));
  }

  lemma QuotientBelowOne(a: int, c: int, q: int)
    requires c > 0 && q * c <= a < c
    ensures q <= 0
  {
    assert (q - 1) * c == q * c - c;
    assert (q - 1) * c < 0;
  }

  /** The worked example: `first(count: 2, paging: true)` over one free field costs 2, and a budget of 10 fits 5 rows. */
  lemma ExampleCostAndLimit(fieldId: nat, groupId: nat)
    ensures GroupCost(Group(groupId, "items", [FieldElement(Field(fieldId, "id"))], First(2, true), [], Wrappers.None)) == 2
    ensures RecommendedLimit(Group(groupId, "items", [FieldElement(Field(fieldId, "id"))], First(2, true), [], Wrappers.None), 10) == 5
  {
    var g := Group(groupId, "items", [FieldElement(Field(fieldId, "id"))], First(2, true), [], Wrappers.None);
    assert SumCost(g.fields) == 0 by {
      assert g.fields[1..] == [];
    }
  }
}
