/**
 * "Expand selection to the full hierarchy of the selected objects": walk up
 * from every selected object to its root, keep each root once, then list every
 * root followed by everything below each root in pre-order.
 */
module Expansion {
  import opened Hierarchy

  /**
   * The roots the first loop of the expansion records, in the order it first
   * meets them: one entry per distinct root of a selected object.
   */
  ghost function DistinctRoots(objs: map<Id, Obj>, height: map<Id, nat>, sel: seq<Id>): (roots: seq<Id>)
    requires Forest(objs, height) && forall x :: x in sel ==> x in objs
    ensures NoDup(roots)
    ensures forall r :: r in roots ==> r in objs && objs[r].parent.None?
    ensures forall i :: 0 <= i < |sel| ==> Root(objs, height, sel[i]) in roots
    ensures forall r :: r in roots ==> exists i :: 0 <= i < |sel| && Root(objs, height, sel[i]) == r
  {
    if sel == [] then []
    else
      var init := sel[..|sel| - 1];
      var prev := DistinctRoots(objs, height, init);
      var r := Root(objs, height, sel[|sel| - 1]);
      assert forall i :: 0 <= i < |init| ==> init[i] == sel[i];
      if r in prev then prev
      else
        NoDupAppend(prev, [r]);
        prev + [r]
  }

  /** What the second loop appends after the roots: the descendants of each root in turn. */
  ghost function DescendantsOfEach(objs: map<Id, Obj>, order: seq<Id>, height: map<Id, nat>, rs: seq<Id>): seq<Id>
    requires Forest(objs, height) && forall r :: r in rs ==> r in objs
  {
    if rs == [] then []
    else Descendants(objs, order, height, rs[0]) + DescendantsOfEach(objs, order, height, rs[1..])
  }

  /** One step of the walk over a list of roots: the first remaining root's descendants come first. */
  lemma DescendantsOfEachStep(objs: map<Id, Obj>, order: seq<Id>, height: map<Id, nat>, rs: seq<Id>, i: nat)
    requires Forest(objs, height) && i < |rs| && forall r :: r in rs ==> r in objs
    ensures forall r :: r in rs[i..] ==> r in objs
    ensures forall r :: r in rs[i + 1..] ==> r in objs
    ensures DescendantsOfEach(objs, order, height, rs[i..])
            == Descendants(objs, order, height, rs[i]) + DescendantsOfEach(objs, order, height, rs[i + 1..])
  {
    assert rs[i..][1..] == rs[i + 1..];
  }

  /** The object list of the expand-to-hierarchy mode. */
  ghost function Expanded(objs: map<Id, Obj>, order: seq<Id>, height: map<Id, nat>, sel: seq<Id>): seq<Id>
    requires Forest(objs, height) && forall x :: x in sel ==> x in objs
  {
    var roots := DistinctRoots(objs, height, sel);
    roots + DescendantsOfEach(objs, order, height, roots)
  }

  /** Below a list of roots lie exactly the non-root objects whose root is on the list. */
  lemma {:induction false} DescendantsOfEachMembers(objs: map<Id, Obj>, order: seq<Id>, height: map<Id, nat>, rs: seq<Id>, y: Id)
    requires Forest(objs, height) && (forall z :: z in objs ==> z in order)
    requires forall r :: r in rs ==> r in objs && objs[r].parent.None?
    requires y in objs
    ensures y in DescendantsOfEach(objs, order, height, rs) <==> objs[y].parent.Some? && Root(objs, height, y) in rs
  {
    if rs != [] {
      DescendantsOfEachMembers(objs, order, height, rs[1..], y);
      InTreeOfRoot(objs, order, height, rs[0], y);
      if objs[y].parent.None? {
        assert Root(objs, height, y) == y;
      }
    }
  }

  lemma {:induction false} DescendantsOfEachSound(objs: map<Id, Obj>, order: seq<Id>, height: map<Id, nat>, rs: seq<Id>, y: Id)
    requires Forest(objs, height) && forall r :: r in rs ==> r in objs
    requires y in DescendantsOfEach(objs, order, height, rs)
    ensures y in objs
  {
    if y in Descendants(objs, order, height, rs[0]) {
      DescendantsSound(objs, order, height, rs[0], y);
    } else {
      DescendantsOfEachSound(objs, order, height, rs[1..], y);
    }
  }

  /**
   * The expanded list holds exactly the objects that share their root with
   * some selected object: whole trees, nothing else.
   */
  lemma ExpandedMembers(objs: map<Id, Obj>, order: seq<Id>, height: map<Id, nat>, sel: seq<Id>, y: Id)
    requires Forest(objs, height) && (forall z :: z in objs ==> z in order)
    requires forall x :: x in sel ==> x in objs
    ensures y in Expanded(objs, order, height, sel) <==>
            y in objs && exists i :: 0 <= i < |sel| && Root(objs, height, sel[i]) == Root(objs, height, y)
  {
    var roots := DistinctRoots(objs, height, sel);
    if y in DescendantsOfEach(objs, order, height, roots) {
      DescendantsOfEachSound(objs, order, height, roots, y);
    }
    if y in objs {
      DescendantsOfEachMembers(objs, order, height, roots, y);
      if y in roots {
        assert Root(objs, height, y) == y;
      }
      if objs[y].parent.None? {
        assert Root(objs, height, y) == y;
      }
    }
  }

  /** The expanded list contains the selection, and nothing but scene objects. */
  lemma ExpandedCoversSelection(objs: map<Id, Obj>, order: seq<Id>, height: map<Id, nat>, sel: seq<Id>)
    requires Forest(objs, height) && (forall z :: z in objs ==> z in order)
    requires forall x :: x in sel ==> x in objs
    ensures forall x :: x in sel ==> x in Expanded(objs, order, height, sel)
    ensures forall y :: y in Expanded(objs, order, height, sel) ==> y in objs
  {
    var ex := Expanded(objs, order, height, sel);
    forall x | x in sel ensures x in ex {
      var i :| 0 <= i < |sel| && sel[i] == x;
      ExpandedMembers(objs, order, height, sel, x);
    }
    forall y | y in ex ensures y in objs {
      ExpandedMembers(objs, order, height, sel, y);
    }
  }

  /** The parent of a listed object is listed. */
  lemma ExpandedClosedUpwards(objs: map<Id, Obj>, order: seq<Id>, height: map<Id, nat>, sel: seq<Id>, y: Id)
    requires Forest(objs, height) && (forall z :: z in objs ==> z in order)
    requires forall x :: x in sel ==> x in objs
    requires y in Expanded(objs, order, height, sel) && y in objs && objs[y].parent.Some?
    ensures objs[y].parent.value in Expanded(objs, order, height, sel)
  {
    ExpandedMembers(objs, order, height, sel, y);
    RootOfChild(objs, height, y);
    ExpandedMembers(objs, order, height, sel, objs[y].parent.value);
  }

  /** Every child of a listed object is listed. */
  lemma ExpandedClosedDownwards(objs: map<Id, Obj>, order: seq<Id>, height: map<Id, nat>, sel: seq<Id>)
    requires Forest(objs, height) && (forall z :: z in objs ==> z in order)
    requires forall x :: x in sel ==> x in objs
    ensures forall c :: c in objs && objs[c].parent.Some? && objs[c].parent.value in Expanded(objs, order, height, sel) ==>
              c in Expanded(objs, order, height, sel)
  {
    var ex := Expanded(objs, order, height, sel);
    forall c | c in objs && objs[c].parent.Some? && objs[c].parent.value in ex ensures c in ex {
      ExpandedMembers(objs, order, height, sel, objs[c].parent.value);
      RootOfChild(objs, height, c);
      ExpandedMembers(objs, order, height, sel, c);
    }
  }

  lemma {:induction false} DescendantsOfEachNoDup(objs: map<Id, Obj>, order: seq<Id>, height: map<Id, nat>, rs: seq<Id>)
    requires Forest(objs, height) && NoDup(order) && (forall z :: z in objs ==> z in order)
    requires NoDup(rs) && forall r :: r in rs ==> r in objs && objs[r].parent.None?
    ensures NoDup(DescendantsOfEach(objs, order, height, rs))
  {
    if rs != [] {
      var first := Descendants(objs, order, height, rs[0]);
      var rest := DescendantsOfEach(objs, order, height, rs[1..]);
      assert NoDup(rs[1..]) by {
        forall i, j | 0 <= i < j < |rs[1..]| ensures rs[1..][i] != rs[1..][j] {
          assert rs[1..][i] == rs[i + 1] && rs[1..][j] == rs[j + 1];
        }
      }
      DescendantsNoDup(objs, order, height, rs[0]);
      DescendantsOfEachNoDup(objs, order, height, rs[1..]);
      forall y | y in first ensures y !in rest {
        DescendantsSound(objs, order, height, rs[0], y);
        InTreeOfRoot(objs, order, height, rs[0], y);
        DescendantsOfEachMembers(objs, order, height, rs[1..], y);
      }
      NoDupAppend(first, rest);
    }
  }

  /** Roots are unique and trees are disjoint, so the expanded list has no duplicates. */
  lemma ExpandedNoDup(objs: map<Id, Obj>, order: seq<Id>, height: map<Id, nat>, sel: seq<Id>)
    requires Forest(objs, height) && NoDup(order) && (forall z :: z in objs ==> z in order)
    requires forall x :: x in sel ==> x in objs
    ensures NoDup(Expanded(objs, order, height, sel))
  {
    var roots := DistinctRoots(objs, height, sel);
    var below := DescendantsOfEach(objs, order, height, roots);
    DescendantsOfEachNoDup(objs, order, height, roots);
    forall y | y in roots ensures y !in below {
      DescendantsOfEachMembers(objs, order, height, roots, y);
    }
    NoDupAppend(roots, below);
  }
}
