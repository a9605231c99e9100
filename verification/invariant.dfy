/**
 * The invariant a scene keeps between operations, stated on values, and the
 * proof that each phase of the cleanup preserves it.
 */
module SceneInvariant {
  import opened Hierarchy
  import opened Classification
  import opened Phases

  /** `s` without the elements of `doomed`, in the same order. */
  function Without(s: seq<Id>, doomed: set<Id>): (r: seq<Id>)
    ensures forall x :: x in r <==> x in s && x !in doomed
    ensures NoDup(s) ==> NoDup(r)
  {
    if s == [] then []
    else
      var rest := Without(s[1..], doomed);
      assert NoDup(s) ==> s[0] !in s[1..];
      if s[0] in doomed then rest else [s[0]] + rest
  }

  /**
   * What holds of a scene between operations: the links form a forest, the
   * scene order lists every object once, the selection and the current layer
   * hold scene objects, and every controller in use is numbered below `next`.
   */
  ghost predicate Consistent(objects: map<Id, Obj>, order: seq<Id>, selection: seq<Id>, layer: set<Id>,
                             next: nat, height: map<Id, nat>)
  {
    && Forest(objects, height)
    && NoDup(order) && (forall x {:trigger x in order} :: x in order <==> x in objects)
    && NoDup(selection) && (forall x :: x in selection ==> x in objects)
    && layer <= objects.Keys
    && forall x :: x in objects ==> objects[x].controller < next
  }

  /** Step 3/5 keeps the scene consistent: the new controllers are numbered below the new `next`. */
  lemma RecontrolKeepsConsistent(objects: map<Id, Obj>, order: seq<Id>, selection: seq<Id>, layer: set<Id>,
                                 next: nat, height: map<Id, nat>, list: seq<Id>)
    requires Consistent(objects, order, selection, layer, next, height)
    requires forall x :: x in list ==> x in objects
    ensures Consistent(Recontrolled(objects, list, |list|, next), order, selection, layer, next + |list|, height)
  {
    RecontrolledBounded(objects, list, |list|, next);
    FewerLinksKeepForest(objects, Recontrolled(objects, list, |list|, next), height);
  }

  /** Step 4/5 keeps the scene consistent. */
  lemma ConvertKeepsConsistent(objects: map<Id, Obj>, order: seq<Id>, selection: seq<Id>, layer: set<Id>,
                               next: nat, height: map<Id, nat>, list: seq<Id>)
    requires Consistent(objects, order, selection, layer, next, height)
    requires forall x :: x in list ==> x in objects
    ensures Consistent(Converted(objects, list, |list|), order, selection, layer, next, height)
  {
    ConvertedExactly(objects, list);
    FewerLinksKeepForest(objects, Converted(objects, list, |list|), height);
  }

  /** The flatten loop keeps the scene consistent: it only removes links. */
  lemma FlattenKeepsConsistent(objects: map<Id, Obj>, order: seq<Id>, selection: seq<Id>, layer: set<Id>,
                               next: nat, height: map<Id, nat>, children: seq<Id>)
    requires Consistent(objects, order, selection, layer, next, height)
    requires Flattenable(objects, children)
    ensures Consistent(Flattened(objects, children, |children|), order, selection, layer, next, height)
  {
    FlattenedExactly(objects, children);
    FewerLinksKeepForest(objects, Flattened(objects, children, |children|), height);
  }

  /** Deleting keeps the scene consistent: the host drops the deleted objects everywhere. */
  lemma DeleteKeepsConsistent(objects: map<Id, Obj>, order: seq<Id>, selection: seq<Id>, layer: set<Id>,
                              next: nat, height: map<Id, nat>, gone: set<Id>)
    requires Consistent(objects, order, selection, layer, next, height)
    ensures Consistent(Deleted(objects, gone), Without(order, gone), Without(selection, gone), layer - gone, next, height)
  {
    FewerLinksKeepForest(objects, Deleted(objects, gone), height);
  }

  /**
   * Steps 3/5 to 5/5 with the deletion keep the scene consistent: the deleted
   * parents leave the scene order, the selection and the layer.  `added` are
   * the nodes the layer option moved to the current layer; the primed
   * parameters are the scene after the cleanup.
   */
  lemma CleanKeepsConsistent(objects: map<Id, Obj>, order: seq<Id>, selection: seq<Id>, layer: set<Id>,
                             next: nat, height: map<Id, nat>, list: seq<Id>, added: set<Id>,
                             objects': map<Id, Obj>, order': seq<Id>, selection': seq<Id>, layer': set<Id>, next': nat)
    requires Consistent(objects, order, selection, layer, next, height)
    requires NoDup(list) && (forall x :: x in list ==> x in objects) && added <= objects.Keys
    requires objects' == AfterClean(objects, list, next) && next' == next + |list|
    requires order' == Without(order, Elems(ParentsIn(objects, list)))
    requires selection' == Without(selection, Elems(ParentsIn(objects, list)))
    requires layer' == (layer + added) - Elems(ParentsIn(objects, list))
    ensures Consistent(objects', order', selection', layer', next', height)
  {
    var m1 := Recontrolled(objects, list, |list|, next);
    RecontrolKeepsConsistent(objects, order, selection, layer + added, next, height, list);
    var m2 := Converted(m1, list, |list|);
    ConvertKeepsConsistent(m1, order, selection, layer + added, next + |list|, height, list);
    ReadyToFlatten(objects, list, next);
    var cs := ChildrenIn(objects, list);
    FlattenKeepsConsistent(m2, order, selection, layer + added, next + |list|, height, cs);
    DeleteKeepsConsistent(Flattened(m2, cs, |cs|), order, selection, layer + added, next + |list|, height,
                          Elems(ParentsIn(objects, list)));
  }
}
