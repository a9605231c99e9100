/**
 * What the loops of `clean` do to the scene's objects, as functions on the
 * object map.  Each function follows its loop one object at a time; its
 * contract (or the lemma beside it) says what the whole loop amounts to.
 */
module Phases {
  import opened Hierarchy
  import opened Classification

  // ---------------------------------------------------------------------------
  // Step 3/5: a new transform controller for every listed object

  /**
   * The objects after the first `n` rounds of `obj.controller = rt.prs()`
   * over `list`; the k-th call creates the controller numbered `next + k`.
   */
  ghost function Recontrolled(objs: map<Id, Obj>, list: seq<Id>, n: nat, next: nat): (r: map<Id, Obj>)
    requires n <= |list| && forall x :: x in list ==> x in objs
    ensures r.Keys == objs.Keys
  {
    if n == 0 then objs
    else
      var m := Recontrolled(objs, list, n - 1, next);
      m[list[n - 1] := m[list[n - 1]].(controller := next + n - 1)]
  }

  /** An object the first `n` rounds did not reach is unchanged. */
  lemma {:induction false} RecontrolledUnreached(objs: map<Id, Obj>, list: seq<Id>, n: nat, next: nat, x: Id)
    requires n <= |list| && forall y :: y in list ==> y in objs
    requires x in objs && forall i :: 0 <= i < n ==> list[i] != x
    ensures Recontrolled(objs, list, n, next)[x] == objs[x]
  {
    if n > 0 {
      RecontrolledUnreached(objs, list, n - 1, next, x);
    }
  }

  /**
   * The object at position `i` has nothing changed but its controller, which
   * is the one created by the `i`-th call.
   */
  lemma {:induction false} RecontrolledReached(objs: map<Id, Obj>, list: seq<Id>, n: nat, next: nat, i: nat)
    requires n <= |list| && NoDup(list) && forall y :: y in list ==> y in objs
    requires i < n
    ensures Recontrolled(objs, list, n, next)[list[i]] == objs[list[i]].(controller := next + i)
  {
    if i == n - 1 {
      RecontrolledUnreached(objs, list, n - 1, next, list[i]);
    } else {
      RecontrolledReached(objs, list, n - 1, next, i);
    }
  }

  /**
   * After the whole loop, only controllers have changed.  Every listed
   * object has one created by the loop (none of them existed before, all
   * numbers below `next` being taken), no two listed objects share one, and
   * every other object keeps its own.
   */
  lemma RecontrolledFresh(objs: map<Id, Obj>, list: seq<Id>, next: nat)
    requires NoDup(list) && forall x :: x in list ==> x in objs
    ensures forall x :: x in objs ==>
              Recontrolled(objs, list, |list|, next)[x] == objs[x].(controller := Recontrolled(objs, list, |list|, next)[x].controller)
    ensures forall x :: x in list ==> next <= Recontrolled(objs, list, |list|, next)[x].controller < next + |list|
    ensures forall x :: x in objs && x !in list ==> Recontrolled(objs, list, |list|, next)[x] == objs[x]
    ensures forall x, y :: x in list && y in list && x != y ==>
              Recontrolled(objs, list, |list|, next)[x].controller != Recontrolled(objs, list, |list|, next)[y].controller
  {
    var r := Recontrolled(objs, list, |list|, next);
    forall x | x in objs ensures r[x] == objs[x].(controller := r[x].controller) {
      if x in list {
        var i :| 0 <= i < |list| && list[i] == x;
        RecontrolledReached(objs, list, |list|, next, i);
      } else {
        RecontrolledUnreached(objs, list, |list|, next, x);
      }
    }
    forall x | x in list ensures next <= r[x].controller < next + |list| {
      var i :| 0 <= i < |list| && list[i] == x;
      RecontrolledReached(objs, list, |list|, next, i);
    }
    forall x | x in objs && x !in list ensures r[x] == objs[x] {
      RecontrolledUnreached(objs, list, |list|, next, x);
    }
    forall x, y | x in list && y in list && x != y ensures r[x].controller != r[y].controller {
      var i :| 0 <= i < |list| && list[i] == x;
      var j :| 0 <= j < |list| && list[j] == y;
      RecontrolledReached(objs, list, |list|, next, i);
      RecontrolledReached(objs, list, |list|, next, j);
    }
  }

  /**
   * With duplicates in the list or without, the loop changes nothing but
   * controllers, and every controller it hands out is numbered below `next + n`.
   */
  lemma {:induction false} RecontrolledBounded(objs: map<Id, Obj>, list: seq<Id>, n: nat, next: nat)
    requires n <= |list| && forall x :: x in list ==> x in objs
    ensures var r := Recontrolled(objs, list, n, next);
            forall x :: x in objs ==>
              && r[x] == objs[x].(controller := r[x].controller)
              && (r[x].controller == objs[x].controller || r[x].controller < next + n)
  {
    if n > 0 {
      RecontrolledBounded(objs, list, n - 1, next);
    }
  }

  /** New controllers leave the type texts, so the CAD objects, as they were. */
  lemma RecontrolledKeepsCad(objs: map<Id, Obj>, list: seq<Id>, next: nat)
    requires NoDup(list) && forall x :: x in list ==> x in objs
    ensures CadIn(Recontrolled(objs, list, |list|, next), list) == CadIn(objs, list)
  {
    RecontrolledFresh(objs, list, next);
    CadInSameTags(objs, Recontrolled(objs, list, |list|, next), list);
  }

  // ---------------------------------------------------------------------------
  // Step 4/5: mesh conversion of the CAD objects

  /** The objects after the first `n` rounds of the conversion loop over `list`. */
  ghost function Converted(objs: map<Id, Obj>, list: seq<Id>, n: nat): (r: map<Id, Obj>)
    requires n <= |list| && forall x :: x in list ==> x in objs
    ensures r.Keys == objs.Keys
  {
    if n == 0 then objs
    else
      var m := Converted(objs, list, n - 1);
      var obj := list[n - 1];
      if IsCadText(m[obj].tag) then m[obj := m[obj].(converted := true)] else m
  }

  /**
   * After `n` rounds exactly the objects among the first `n` whose text names
   * a CAD class are converted; nothing else changes.
   */
  lemma {:induction false} ConvertedAt(objs: map<Id, Obj>, list: seq<Id>, n: nat, x: Id)
    requires n <= |list| && forall y :: y in list ==> y in objs
    requires x in objs
    ensures Converted(objs, list, n)[x] ==
            objs[x].(converted := objs[x].converted || (x in list[..n] && IsCadText(objs[x].tag)))
  {
    if n > 0 {
      var obj := list[n - 1];
      var m := Converted(objs, list, n - 1);
      ConvertedAt(objs, list, n - 1, x);
      assert x in list[..n] <==> x in list[..n - 1] || x == obj by {
        assert list[..n] == list[..n - 1] + [obj];
      }
      if x != obj {
        assert Converted(objs, list, n)[x] == m[x];
      }
    }
  }

  /** The whole loop converts exactly the listed CAD objects and changes nothing else. */
  lemma ConvertedExactly(objs: map<Id, Obj>, list: seq<Id>)
    requires forall y :: y in list ==> y in objs
    ensures forall x :: x in objs ==>
              Converted(objs, list, |list|)[x] ==
              objs[x].(converted := objs[x].converted || (x in list && IsCadText(objs[x].tag)))
  {
    assert list[..|list|] == list;
    forall x | x in objs
      ensures Converted(objs, list, |list|)[x] ==
              objs[x].(converted := objs[x].converted || (x in list && IsCadText(objs[x].tag)))
    {
      ConvertedAt(objs, list, |list|, x);
    }
  }

  // ---------------------------------------------------------------------------
  // The flatten loop

  /**
   * What the flatten loop needs to run without failing: no child twice, each
   * child with a parent in the scene, and no child's parent itself a child.
   */
  ghost predicate Flattenable(objs: map<Id, Obj>, cs: seq<Id>)
  {
    && NoDup(cs)
    && forall c :: c in cs ==>
         c in objs && objs[c].parent.Some? && objs[c].parent.value in objs && objs[c].parent.value !in cs
  }

  /**
   * The objects after the first `n` rounds of `child.name = child.parent.name;
   * child.parent = None` over `cs`, each round reading the current state.
   */
  ghost function Flattened(objs: map<Id, Obj>, cs: seq<Id>, n: nat): (r: map<Id, Obj>)
    requires n <= |cs| && Flattenable(objs, cs)
    ensures r.Keys == objs.Keys
    decreases n, 0
  {
    if n == 0 then objs
    else
      var m := Flattened(objs, cs, n - 1);
      var c := cs[n - 1];
      FlattenedAt(objs, cs, n - 1, c);
      var p := m[c].parent.value;
      FlattenedAt(objs, cs, n - 1, p);
      m[c := m[c].(name := m[p].name, parent := None)]
  }

  /**
   * After `n` rounds each of the first `n` children is parentless and named
   * after its former parent, whose name the loop reads before any change;
   * every other object, parents included, is as it was.
   */
  lemma {:induction false} FlattenedAt(objs: map<Id, Obj>, cs: seq<Id>, n: nat, x: Id)
    requires n <= |cs| && Flattenable(objs, cs) && x in objs
    ensures Flattened(objs, cs, n)[x] ==
            if x in cs[..n] then objs[x].(name := objs[objs[x].parent.value].name, parent := None) else objs[x]
    decreases n, 1
  {
    if n > 0 {
      var c := cs[n - 1];
      assert cs[..n] == cs[..n - 1] + [c];
      assert c !in cs[..n - 1];
      FlattenedAt(objs, cs, n - 1, x);
      FlattenedAt(objs, cs, n - 1, c);
      FlattenedAt(objs, cs, n - 1, objs[c].parent.value);
    }
  }

  /** The whole loop flattens exactly the children and leaves every other object as it was. */
  lemma FlattenedExactly(objs: map<Id, Obj>, cs: seq<Id>)
    requires Flattenable(objs, cs)
    ensures forall x :: x in objs && x !in cs ==> Flattened(objs, cs, |cs|)[x] == objs[x]
    ensures forall c :: c in cs ==>
              Flattened(objs, cs, |cs|)[c] == objs[c].(name := objs[objs[c].parent.value].name, parent := None)
  {
    assert cs[..|cs|] == cs;
    forall x | x in objs ensures Flattened(objs, cs, |cs|)[x] ==
      if x in cs then objs[x].(name := objs[objs[x].parent.value].name, parent := None) else objs[x]
    {
      FlattenedAt(objs, cs, |cs|, x);
    }
  }

  // ---------------------------------------------------------------------------
  // Deletion

  /** An object after `rt.delete` removed `doomed`: the host unlinks it from a deleted parent. */
  function Detach(o: Obj, doomed: set<Id>): (o': Obj)
    ensures o'.parent.Some? ==> o'.parent == o.parent && o.parent.value !in doomed
    ensures o'.parent.None? ==> o.parent.None? || o.parent.value in doomed
    ensures o' == o.(parent := o'.parent)
  {
    if o.parent.Some? && o.parent.value in doomed then o.(parent := None) else o
  }

  /** The objects after `rt.delete(doomed)`. */
  function Deleted(objs: map<Id, Obj>, doomed: set<Id>): (r: map<Id, Obj>)
    ensures r.Keys == objs.Keys - doomed
    ensures forall x :: x in r ==> r[x] == Detach(objs[x], doomed)
  {
    map x | x in objs && x !in doomed :: Detach(objs[x], doomed)
  }

  /**
   * Changing objects without adding parent links keeps the forest: any map
   * whose links are old links to surviving objects, or none, is ranked by the
   * same heights.
   */
  lemma FewerLinksKeepForest(objs: map<Id, Obj>, objs': map<Id, Obj>, height: map<Id, nat>)
    requires Forest(objs, height) && objs'.Keys <= objs.Keys
    requires forall x :: x in objs' && objs'[x].parent.Some? ==>
               objs'[x].parent == objs[x].parent && objs[x].parent.value in objs'
    ensures Forest(objs', height)
  {
  }

  // ---------------------------------------------------------------------------
  // Steps 3/5 to 5/5 together

  /** Recontrolling and converting keep every tag and link, so the classified children can be flattened. */
  lemma ChildrenFlattenable(objs: map<Id, Obj>, list: seq<Id>, m: map<Id, Obj>)
    requires Linked(objs) && NoDup(list) && forall x :: x in list ==> x in objs
    requires m.Keys == objs.Keys && forall x :: x in objs ==> m[x].parent == objs[x].parent
    ensures Flattenable(m, ChildrenIn(objs, list))
  {
    var cs := ChildrenIn(objs, list);
    forall c | c in cs
      ensures c in m && m[c].parent.Some? && m[c].parent.value in m && m[c].parent.value !in cs
    {
      ContainerChildHasContainerParent(objs, c);
      var p := objs[c].parent.value;
      if p in cs {
        ContainerChildHasContainerParent(objs, p);
      }
    }
  }

  /** After steps 3/5 and 4/5 the children found in step 2/5 can still be flattened. */
  lemma ReadyToFlatten(objs: map<Id, Obj>, list: seq<Id>, next: nat)
    requires Linked(objs) && NoDup(list) && forall x :: x in list ==> x in objs
    ensures Flattenable(Converted(Recontrolled(objs, list, |list|, next), list, |list|), ChildrenIn(objs, list))
  {
    var m1 := Recontrolled(objs, list, |list|, next);
    RecontrolledFresh(objs, list, next);
    ConvertedExactly(m1, list);
    ChildrenFlattenable(objs, list, Converted(m1, list, |list|));
  }

  /**
   * The objects after steps 3/5 to 5/5 ran on `list`: new controllers
   * numbered from `next`, the CAD objects converted, the children flattened,
   * the parents deleted.
   */
  ghost function AfterClean(objs: map<Id, Obj>, list: seq<Id>, next: nat): (r: map<Id, Obj>)
    requires Linked(objs) && NoDup(list) && forall x :: x in list ==> x in objs
    ensures r.Keys == objs.Keys - Elems(ParentsIn(objs, list))
  {
    var m := Converted(Recontrolled(objs, list, |list|, next), list, |list|);
    ReadyToFlatten(objs, list, next);
    Deleted(Flattened(m, ChildrenIn(objs, list), |ChildrenIn(objs, list)|), Elems(ParentsIn(objs, list)))
  }

  /**
   * What the cleanup does to a surviving object.  A child is unparented and
   * named after its former parent; any other survivor keeps its name, and its
   * parent unless that parent was deleted.  The tag never changes.  A listed
   * survivor has a controller created by the cleanup; an unlisted one keeps
   * its own.  The object is converted exactly when it is a listed CAD object
   * (or already was).
   */
  lemma CleanEffect(objs: map<Id, Obj>, list: seq<Id>, next: nat, x: Id)
    requires Linked(objs) && NoDup(list) && forall y :: y in list ==> y in objs
    requires x in AfterClean(objs, list, next)
    ensures var o := AfterClean(objs, list, next)[x];
            && (x in ChildrenIn(objs, list) ==> o.parent.None? && o.name == objs[objs[x].parent.value].name)
            && (x !in ChildrenIn(objs, list) ==>
                  o.name == objs[x].name && o.parent == Detach(objs[x], Elems(ParentsIn(objs, list))).parent)
            && o.tag == objs[x].tag
            && (x in list ==> next <= o.controller < next + |list|)
            && (x !in list ==> o.controller == objs[x].controller)
            && o.converted == (objs[x].converted || (x in list && IsCadText(objs[x].tag)))
  {
    var m1 := Recontrolled(objs, list, |list|, next);
    var m := Converted(m1, list, |list|);
    var cs := ChildrenIn(objs, list);
    RecontrolledFresh(objs, list, next);
    ConvertedExactly(m1, list);
    ChildrenFlattenable(objs, list, m);
    FlattenedExactly(m, cs);
  }

  /** No two listed survivors share a controller. */
  lemma CleanControllersDistinct(objs: map<Id, Obj>, list: seq<Id>, next: nat, x: Id, y: Id)
    requires Linked(objs) && NoDup(list) && forall z :: z in list ==> z in objs
    requires x in AfterClean(objs, list, next) && y in AfterClean(objs, list, next)
    requires x in list && y in list && x != y
    ensures AfterClean(objs, list, next)[x].controller != AfterClean(objs, list, next)[y].controller
  {
    var m1 := Recontrolled(objs, list, |list|, next);
    var m := Converted(m1, list, |list|);
    var cs := ChildrenIn(objs, list);
    RecontrolledFresh(objs, list, next);
    ConvertedExactly(m1, list);
    ChildrenFlattenable(objs, list, m);
    FlattenedExactly(m, cs);
  }

  /**
   * When the list holds every child of each of its members (as the expanded
   * and the full-scene lists do), no survivor lost its parent to the deletion
   * without having been flattened first.
   */
  lemma ClosedListFlattensAllOrphans(objs: map<Id, Obj>, list: seq<Id>, next: nat)
    requires Linked(objs) && NoDup(list) && forall x :: x in list ==> x in objs
    requires forall y :: y in objs && objs[y].parent.Some? && objs[y].parent.value in list ==> y in list
    ensures forall x :: x in AfterClean(objs, list, next) && objs[x].parent.Some? &&
                        objs[x].parent.value in ParentsIn(objs, list) ==>
              x in ChildrenIn(objs, list)
  {
    forall x | x in AfterClean(objs, list, next) && objs[x].parent.Some? && objs[x].parent.value in ParentsIn(objs, list)
      ensures x in ChildrenIn(objs, list)
    {
      ClosedListLeavesNoOrphans(objs, list, x);
    }
  }

  /** On the whole scene, no survivor is left attached to a container parent. */
  lemma FullSceneLeavesNoContainerLinks(objs: map<Id, Obj>, list: seq<Id>, next: nat)
    requires Linked(objs) && NoDup(list) && forall x :: x in list <==> x in objs
    ensures var r := AfterClean(objs, list, next);
            forall x :: x in r && r[x].parent.Some? ==>
              r[x].parent.value in objs && !IsContainerText(objs[r[x].parent.value].tag)
  {
    var r := AfterClean(objs, list, next);
    forall x | x in r && r[x].parent.Some?
      ensures r[x].parent.value in objs && !IsContainerText(objs[r[x].parent.value].tag)
    {
      CleanEffect(objs, list, next, x);
    }
  }
}
