/**
 * Shell pruning (`asShell(for:batchRootId:)` of the four element kinds): a
 * pruned copy of a tree that still reaches a given target element, used to
 * re-request one more page of a nested list.
 */
module Shells {
  import opened Wrappers
  import opened Elements

  /**
   * `Element.asShell`, dispatched on the kind. A shell always carries the id
   * of the element it was cut from, and an element whose id is the target's
   * is replaced by the target as passed.
   */
  function AsShell(e: Element, target: Element, batchRootId: Option<string>): (r: Option<Element>)
    ensures Id(target) == Id(e) ==> r == Some(target)
    ensures r.Some? ==> Id(r.value) == Id(e)
    ensures r.Some? && Scanning(e) && Scanning(target) ==> Scanning(r.value)
    decreases e, 1
  {
    match e
    case FieldElement(f) => FieldShell(f, target)
    case FragmentElement(f) => FragmentShell(f, target)
    case GroupElement(g) => GroupShell(g, target)
    case BatchElement(b) => BatchShell(b, target, batchRootId)
  }

  /** `Field.asShell`: a field survives only as the target itself. */
  function FieldShell(f: Field, target: Element): Option<Element> {
    if Id(target) == f.id then Some(target) else None
  }

  /**
   * The `compactMap` over children that every container performs; children
   * are always pruned without a batch root id. Kept shells stay in order.
   */
  function Shells(s: seq<Element>, target: Element): (r: seq<Element>)
    ensures |r| <= |s|
    decreases s, 0
  {
    if |s| == 0 then []
    else
      var rest := Shells(s[1..], target);
      match AsShell(s[0], target, None)
      case Some(x) => [x] + rest
      case None => rest
  }

  /** `elements.first(where: { $0.name == name })` */
  function FirstNamed(s: seq<Element>, name: string): (r: Option<Element>)
    ensures r.Some? <==> exists i :: 0 <= i < |s| && Name(s[i]) == name
    ensures r.Some? ==> exists i :: 0 <= i < |s| && s[i] == r.value && Name(s[i]) == name
                                  && forall j :: 0 <= j < i ==> Name(s[j]) != name
  {
    if |s| == 0 then None
    else if Name(s[0]) == name then Some(s[0])
    else
      var r := FirstNamed(s[1..], name);
      assert forall i :: 0 < i < |s| ==> s[i] == s[1..][i - 1];
      r
  }

  /**
   * `Fragment.asShell`: the surviving child shells, followed by the
   * fragment's own first child named `id` when it has one.
   */
  function FragmentShell(f: Fragment, target: Element): Option<Element>
    decreases f, 2
  {
    if Id(target) == f.id then Some(target)
    else
      var kept := Shells(f.elements, target);
      if |kept| == 0 then None
      else
        var withId := match FirstNamed(f.elements, IdFieldName)
          case Some(idField) => kept + [idField]
          case None => kept;
        Some(FragmentElement(CloneFragment(f, withId)))
  }

  /**
   * `Group.asShell`: a clone holding the surviving child shells; the clone
   * takes no cursor.
   */
  function GroupShell(g: Group, target: Element): Option<Element>
    decreases g, 2
  {
    if Id(target) == g.id then Some(target)
    else
      var kept := Shells(g.fields, target);
      if |kept| == 0 then None
      else Some(GroupElement(CloneGroup(g, None, Some(kept))))
  }

  /**
   * `BatchGroup.asShell`: with a root id, a one-id clone around the pruned
   * template, provided the template's shell is a group.
   */
  function BatchShell(b: BatchGroup, target: Element, batchRootId: Option<string>): Option<Element>
    decreases b, 2
  {
    if Id(target) == b.id then Some(target)
    else if batchRootId.Some? then
      match GroupShell(b.templateGroup, target)
      case Some(GroupElement(t)) => Some(BatchElement(CloneBatchGroup(b, t, batchRootId.value)))
      case _ => None
    else None
  }

  // ---------------------------------------------------------------------------
  // Properties

  /** Pruning distributes over concatenation: kept shells keep their order. */
  lemma {:induction false} ShellsAppend(a: seq<Element>, b: seq<Element>, target: Element)
    ensures Shells(a + b, target) == Shells(a, target) + Shells(b, target)
    decreases |a|
  {
    if |a| == 0 {
      assert a + b == b;
    } else {
      assert (a + b)[0] == a[0];
      assert (a + b)[1..] == a[1..] + b;
      ShellsAppend(a[1..], b, target);
    }
  }

  /** A single child contributes its own shell, when it has one. */
  lemma ShellsOfOne(x: Element, target: Element)
    ensures Shells([x], target) == match AsShell(x, target, None) case Some(y) => [y] case None => []
  {
    assert [x][1..] == [];
  }

  /** A tree in which the target's id does not occur has no shell. */
  lemma {:induction false} AbsentIdHasNoShell(e: Element, target: Element, batchRootId: Option<string>)
    requires !IdOccurs(Id(target), e)
    ensures AsShell(e, target, batchRootId) == None
    decreases e, 1
  {
    match e
    case FieldElement(_) =>
    case FragmentElement(f) => AbsentIdHasNoShells(f.elements, target);
    case GroupElement(g) => AbsentIdHasNoGroupShell(g, target);
    case BatchElement(b) => AbsentIdHasNoGroupShell(b.templateGroup, target);
  }

  lemma {:induction false} AbsentIdHasNoGroupShell(g: Group, target: Element)
    requires !IdOccursInGroup(Id(target), g)
    ensures GroupShell(g, target) == None
    decreases g, 2
  {
    AbsentIdHasNoShells(g.fields, target);
  }

  lemma {:induction false} AbsentIdHasNoShells(s: seq<Element>, target: Element)
    requires !IdOccursIn(Id(target), s)
    ensures Shells(s, target) == []
    decreases s, 0
  {
    if |s| > 0 {
      AbsentIdHasNoShell(s[0], target, None);
      AbsentIdHasNoShells(s[1..], target);
    }
  }

  /**
   * In a tree without batch groups a shell exists as soon as the target's id
   * occurs; with `AbsentIdHasNoShell` this makes it an if-and-only-if.
   */
  lemma {:induction false} PresentIdHasShell(e: Element, target: Element, batchRootId: Option<string>)
    requires BatchFree(e) && IdOccurs(Id(target), e)
    ensures AsShell(e, target, batchRootId).Some?
    decreases e, 1
  {
    if Id(target) != Id(e) {
      match e
      case FieldElement(_) =>
      case FragmentElement(f) => PresentIdHasShells(f.elements, target);
      case GroupElement(g) => PresentIdHasShells(g.fields, target);
    }
  }

  lemma {:induction false} PresentIdHasShells(s: seq<Element>, target: Element)
    requires BatchFreeIn(s) && IdOccursIn(Id(target), s)
    ensures |Shells(s, target)| > 0
    decreases s, 0
  {
    if IdOccurs(Id(target), s[0]) {
      PresentIdHasShell(s[0], target, None);
    } else {
      PresentIdHasShells(s[1..], target);
    }
  }

  /** Every shell still reaches the target: the target occurs in it. */
  lemma {:induction false} ShellReachesTarget(e: Element, target: Element, batchRootId: Option<string>)
    requires AsShell(e, target, batchRootId).Some?
    ensures Occurs(target, AsShell(e, target, batchRootId).value)
    decreases e, 1
  {
    if Id(target) != Id(e) {
      match e
      case FragmentElement(f) =>
        var kept := Shells(f.elements, target);
        ShellsReachTarget(f.elements, target);
        var x := AsShell(e, target, batchRootId).value;
        assert x.fragment.elements[0] == kept[0];
      case GroupElement(g) => GroupShellReachesTarget(g, target);
      case BatchElement(b) => GroupShellReachesTarget(b.templateGroup, target);
    }
  }

  lemma {:induction false} GroupShellReachesTarget(g: Group, target: Element)
    requires GroupShell(g, target).Some?
    ensures Occurs(target, GroupShell(g, target).value)
    decreases g, 2
  {
    if Id(target) != g.id {
      ShellsReachTarget(g.fields, target);
    }
  }

  /** The first kept shell, when there is one, reaches the target. */
  lemma {:induction false} ShellsReachTarget(s: seq<Element>, target: Element)
    requires |Shells(s, target)| > 0
    ensures Occurs(target, Shells(s, target)[0])
    decreases s, 0
  {
    match AsShell(s[0], target, None)
    case Some(_) => ShellReachesTarget(s[0], target, None);
    case None => ShellsReachTarget(s[1..], target);
  }

  /**
   * The shell of a top-level group for a cursor-bearing clone of one of its
   * own children keeps every other part of the group and holds exactly that
   * clone, cursor included.
   */
  lemma GroupShellOfChildClone(g: Group, child: Group, c: string)
    requires g.fields == [GroupElement(child)] && g.id != child.id
    ensures GroupShell(g, GroupElement(CloneGroup(child, Some(c), None)))
         == Some(GroupElement(Group(g.id, g.name, [GroupElement(CloneGroup(child, Some(c), None))], g.paging, g.extraParams, None)))
  {
    var t := GroupElement(CloneGroup(child, Some(c), None));
    ShellsOfOne(GroupElement(child), t);
  }

  /**
   * A fragment's shell ends with the fragment's own first `id` field when it
   * has one, so the re-requested fragment still identifies its node.
   */
  lemma FragmentShellCarriesIdField(f: Fragment, target: Element, i: nat)
    requires Id(target) != f.id && |Shells(f.elements, target)| > 0
    requires i < |f.elements| && Name(f.elements[i]) == IdFieldName
    ensures FragmentShell(f, target).Some? && FragmentShell(f, target).value.FragmentElement?
    ensures var es := FragmentShell(f, target).value.fragment.elements;
      |es| == |Shells(f.elements, target)| + 1 && Name(es[|es| - 1]) == IdFieldName && es[|es| - 1] in f.elements
  {
  }

  /**
   * A batch group is only cut down when a batch root id is given; with one,
   * it has a shell exactly when some child of its template keeps a shell, and
   * that shell asks for the one id, around the template's shell.
   */
  lemma BatchShellNeedsRootId(b: BatchGroup, target: Element, rootId: string)
    requires Id(target) != b.id && Id(target) != b.templateGroup.id
    ensures AsShell(BatchElement(b), target, None) == None
    ensures AsShell(BatchElement(b), target, Some(rootId)).Some? <==> |Shells(b.templateGroup.fields, target)| > 0
    ensures AsShell(BatchElement(b), target, Some(rootId)).Some? ==>
      var r := AsShell(BatchElement(b), target, Some(rootId)).value;
      r.BatchElement? && r.batch.idList == [rootId] && r.batch.name == b.name
      && r.batch.templateGroup.fields == Shells(b.templateGroup.fields, target)
  {
    var kept := Shells(b.templateGroup.fields, target);
    if |kept| > 0 {
      assert GroupShell(b.templateGroup, target) == Some(GroupElement(CloneGroup(b.templateGroup, None, Some(kept))));
    } else {
      assert GroupShell(b.templateGroup, target) == None;
    }
  }

  /**
   * A batch root whose batch-free template contains the target's id does
   * have a shell once a root id is given: the path a batched query takes to
   * ask for the next page of one of its nodes' lists. (When the target has
   * the template's own id it must be a group, as the template's shell is then
   * the target itself.)
   */
  lemma BatchRootHasShell(b: BatchGroup, target: Element, rootId: string)
    requires BatchFreeIn(b.templateGroup.fields) && IdOccursInGroup(Id(target), b.templateGroup)
    requires Id(target) == b.templateGroup.id ==> target.GroupElement?
    ensures AsShell(BatchElement(b), target, Some(rootId)).Some?
  {
    if Id(target) != b.id && Id(target) != b.templateGroup.id {
      PresentIdHasShells(b.templateGroup.fields, target);
      BatchShellNeedsRootId(b, target, rootId);
    } else if Id(target) != b.id {
      assert GroupShell(b.templateGroup, target) == Some(target);
    }
  }
}
