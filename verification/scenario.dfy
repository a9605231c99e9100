/**
 * A worked example: a container parent A holding one CAD block B, both
 * selected.  The cleanup finds one parent and one child, converts B, renames
 * it after A, unparents it and deletes A.
 */
module Scenario {
  import opened Hierarchy
  import opened Classification
  import opened Phases

  const A: Id := 0
  const B: Id := 1

  /** A container `A` (text `tagA`, named `nameA`) with a single linked object `B`. */
  function ContainerAndBlock(tagA: string, nameA: string, tagB: string, nameB: string): (objs: map<Id, Obj>)
    ensures objs.Keys == {A, B} && Linked(objs)
    ensures objs[B].parent == Some(A) && objs[A].parent.None?
  {
    map[A := Obj(tagA, nameA, None, 0, false), B := Obj(tagB, nameB, Some(A), 1, false)]
  }

  /** Step 2/5 and the count of step 4/5 on the selection `[A, B]`. */
  lemma ContainerAndBlockClassified(tagA: string, nameA: string, tagB: string, nameB: string)
    requires BlockStyleParent <= tagA && VizBlock <= tagB
    ensures ParentsIn(ContainerAndBlock(tagA, nameA, tagB, nameB), [A, B]) == [A]
    ensures ChildrenIn(ContainerAndBlock(tagA, nameA, tagB, nameB), [A, B]) == [B]
    ensures CadIn(ContainerAndBlock(tagA, nameA, tagB, nameB), [A, B]) == [B]
  {
    var objs := ContainerAndBlock(tagA, nameA, tagB, nameB);
    HeadTestIsPrefixTest(tagA);
    HeadTestIsPrefixTest(tagB);
    CadIsNoContainer(tagB);
    assert tagA[1] != VizBlock[1] && tagA[1] != LinkedGeometry[1];
    ContainerChildHasContainerParent(objs, A);
    ContainerChildHasContainerParent(objs, B);
    var l := [A, B];
    assert l[..|l| - 1] == [A] && l[|l| - 1] == B && [A][..0] == [];
    assert ParentsIn(objs, [A]) == [A];
    assert ChildrenIn(objs, [A]) == [];
    assert CadIn(objs, [A]) == [];
  }

  /** Steps 3/5 and 4/5 on the selection `[A, B]`, with controllers numbered from 2. */
  lemma ContainerAndBlockPrepared(tagA: string, nameA: string, tagB: string, nameB: string)
    requires VizBlock <= tagB
    ensures var m := Converted(Recontrolled(ContainerAndBlock(tagA, nameA, tagB, nameB), [A, B], 2, 2), [A, B], 2);
            m[B] == Obj(tagB, nameB, Some(A), 3, true) && m[A].name == nameA
  {
    var objs := ContainerAndBlock(tagA, nameA, tagB, nameB);
    var list := [A, B];
    assert list[..2] == list;
    HeadTestIsPrefixTest(tagB);
    var m1 := Recontrolled(objs, list, 2, 2);
    RecontrolledReached(objs, list, 2, 2, 0);
    RecontrolledReached(objs, list, 2, 2, 1);
    ConvertedAt(m1, list, 2, A);
    ConvertedAt(m1, list, 2, B);
  }

  /** The flatten loop over the one child B names it after A and unparents it. */
  lemma ContainerAndBlockFlattened(tagA: string, nameA: string, tagB: string, nameB: string)
    requires BlockStyleParent <= tagA && VizBlock <= tagB
    ensures var m := Converted(Recontrolled(ContainerAndBlock(tagA, nameA, tagB, nameB), [A, B], 2, 2), [A, B], 2);
            Flattenable(m, [B]) && Flattened(m, [B], 1)[B] == Obj(tagB, nameA, None, 3, true)
  {
    var objs := ContainerAndBlock(tagA, nameA, tagB, nameB);
    var m := Converted(Recontrolled(objs, [A, B], 2, 2), [A, B], 2);
    assert Flattenable(m, [B]) by {
      ContainerAndBlockClassified(tagA, nameA, tagB, nameB);
      ReadyToFlatten(objs, [A, B], 2);
    }
    assert [B][..1] == [B];
    ContainerAndBlockPrepared(tagA, nameA, tagB, nameB);
    FlattenedAt(m, [B], 1, B);
  }

  /** Only B survives the deletion of the parents. */
  lemma ContainerAndBlockSurvivors(tagA: string, nameA: string, tagB: string, nameB: string)
    requires BlockStyleParent <= tagA && VizBlock <= tagB
    ensures AfterClean(ContainerAndBlock(tagA, nameA, tagB, nameB), [A, B], 2).Keys == {B}
  {
    ContainerAndBlockClassified(tagA, nameA, tagB, nameB);
    assert Elems([A]) == {A};
  }

  lemma SingletonMap(r: map<Id, Obj>, k: Id, v: Obj)
    requires r.Keys == {k} && r[k] == v
    ensures r == map[k := v]
  {
  }

  /**
   * Steps 3/5 to 5/5 on the selection `[A, B]`, with controllers numbered
   * from 2: only B is left, parentless, named after A, converted, and holding
   * the second new controller.
   */
  lemma ContainerAndBlockCleaned(tagA: string, nameA: string, tagB: string, nameB: string)
    requires BlockStyleParent <= tagA && VizBlock <= tagB
    ensures AfterClean(ContainerAndBlock(tagA, nameA, tagB, nameB), [A, B], 2) == map[B := Obj(tagB, nameA, None, 3, true)]
  {
    var objs := ContainerAndBlock(tagA, nameA, tagB, nameB);
    var list := [A, B];
    var r := AfterClean(objs, list, 2);
    assert r.Keys == {B} by {
      ContainerAndBlockSurvivors(tagA, nameA, tagB, nameB);
    }
    assert r[B] == Obj(tagB, nameA, None, 3, true) by {
      ContainerAndBlockClassified(tagA, nameA, tagB, nameB);
      ContainerAndBlockFlattened(tagA, nameA, tagB, nameB);
    }
    SingletonMap(r, B, Obj(tagB, nameA, None, 3, true));
  }

  /** Step 2/5 on the selection `[A]` alone: A is the one parent, and there are no children. */
  lemma ContainerOnlyClassified(tagA: string, nameA: string, tagB: string, nameB: string)
    requires BlockStyleParent <= tagA
    ensures ParentsIn(ContainerAndBlock(tagA, nameA, tagB, nameB), [A]) == [A]
    ensures ChildrenIn(ContainerAndBlock(tagA, nameA, tagB, nameB), [A]) == []
  {
    var objs := ContainerAndBlock(tagA, nameA, tagB, nameB);
    HeadTestIsPrefixTest(tagA);
    ContainerChildHasContainerParent(objs, A);
    assert [A][..0] == [];
  }

  /**
   * Steps 3/5 to 5/5 on the selection `[A]` alone (the selected-only mode with
   * the container selected but not its child): A is deleted, and B is merely
   * detached by the host.  B is neither renamed nor given a new controller nor
   * converted, because only listed objects are classified and processed.
   */
  lemma ContainerOnlyCleaned(tagA: string, nameA: string, tagB: string, nameB: string)
    requires BlockStyleParent <= tagA
    ensures AfterClean(ContainerAndBlock(tagA, nameA, tagB, nameB), [A], 2) == map[B := Obj(tagB, nameB, None, 1, false)]
  {
    var objs := ContainerAndBlock(tagA, nameA, tagB, nameB);
    var r := AfterClean(objs, [A], 2);
    ContainerOnlyClassified(tagA, nameA, tagB, nameB);
    assert Elems([A]) == {A};
    assert r.Keys == {B};
    CleanEffect(objs, [A], 2, B);
    SingletonMap(r, B, Obj(tagB, nameB, None, 1, false));
  }
}
