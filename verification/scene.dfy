/**
 * The scene as the cleanup changes it, and `clean` itself, phase by phase:
 * resolve the object list, classify it, give every object a new transform
 * controller, convert CAD objects, unparent and rename the children, optionally
 * move the non-parents to the current layer, and delete the parents.
 */
module CleanDwg {
  import opened Hierarchy
  import opened Expansion
  import opened Classification
  import opened Phases
  import opened SceneInvariant

  /** What `clean` worked on and found; the two counts it prints are `|parents|` and `cadObjs`. */
  datatype Report = Report(list: seq<Id>, parents: seq<Id>, children: seq<Id>, cadObjs: nat)

  class Scene {
    /** Every object of the scene, by identity. */
    var objects: map<Id, Obj>
    /** `rt.objects`: all scene objects in scene order. */
    var order: seq<Id>
    /** The current selection. */
    var selection: seq<Id>
    /** The nodes of the current layer. */
    var currentLayer: set<Id>
    /** Controllers are numbered; every number below this one has been handed out. */
    var nextController: nat
    /** Witness that the parent links form a forest (a parent is strictly higher than its children). */
    ghost var height: map<Id, nat>

    ghost predicate Valid()
      reads this
    {
      Consistent(objects, order, selection, currentLayer, nextController, height)
    }

    constructor Load(objects: map<Id, Obj>, order: seq<Id>, selection: seq<Id>, currentLayer: set<Id>,
                     nextController: nat, ghost height: map<Id, nat>)
      requires Consistent(objects, order, selection, currentLayer, nextController, height)
      ensures Valid()
      ensures this.objects == objects && this.order == order && this.selection == selection
      ensures this.currentLayer == currentLayer && this.nextController == nextController
      ensures this.height == height
    {
      this.objects := objects;
      this.order := order;
      this.selection := selection;
      this.currentLayer := currentLayer;
      this.nextController := nextController;
      this.height := height;
    }

    /** The `while x_parent is not None` walk: the root above `x`. */
    method RootOf(x: Id) returns (root: Id)
      requires Forest(objects, height) && x in objects
      ensures root == Root(objects, height, x)
    {
      root := x;
      var parent := objects[x].parent;
      while parent.Some?
        invariant root in objects && parent == objects[root].parent
        invariant Root(objects, height, root) == Root(objects, height, x)
        decreases Above(height, root)
      {
        AboveShrinks(height, root, parent.value);
        root := parent.value;
        parent := objects[root].parent;
      }
    }

    /** `_get_children(obj, input_list)`: appends the pre-order walk below `obj`. */
    method GetChildren(obj: Id, inputList: seq<Id>) returns (list: seq<Id>)
      requires Forest(objects, height) && obj in objects
      ensures list == inputList + Descendants(objects, order, height, obj)
      decreases height[obj]
    {
      ghost var objs, ord, h := objects, order, height;
      var children := ChildrenOf(objects, order, obj);
      list := inputList;
      for i := 0 to |children|
        invariant objects == objs && order == ord && height == h
        invariant list + DescendantsFrom(objs, ord, h, obj, children[i..])
               == inputList + Descendants(objs, ord, h, obj)
      {
        var child := children[i];
        DescendantsFromStep(objs, ord, h, obj, children, i);
        ghost var below := Descendants(objs, ord, h, child);
        ghost var later := DescendantsFrom(objs, ord, h, obj, children[i + 1..]);
        ghost var before := list;
        list := list + [child];
        AppendAssoc(before, [child], below + later);
        list := GetChildren(child, list);
        AppendAssoc(before + [child], below, later);
      }
    }

    /** The first loop of the expand-to-hierarchy branch: the distinct roots of the selection. */
    method SelectionRoots(sel: seq<Id>) returns (roots: seq<Id>)
      requires Forest(objects, height) && forall x :: x in sel ==> x in objects
      ensures roots == DistinctRoots(objects, height, sel)
    {
      roots := [];
      for i := 0 to |sel|
        invariant roots == DistinctRoots(objects, height, sel[..i])
      {
        var root := RootOf(sel[i]);
        assert sel[..i + 1][..i] == sel[..i] && sel[..i + 1][i] == sel[i];
        if root !in roots {
          roots := roots + [root];
        }
      }
      assert sel[..|sel|] == sel;
    }

    /** The expand-to-hierarchy branch: distinct roots first, then everything below each root. */
    method ExpandHierarchy(sel: seq<Id>) returns (ex: seq<Id>)
      requires Forest(objects, height) && forall x :: x in sel ==> x in objects
      ensures ex == Expanded(objects, order, height, sel)
    {
      var roots := SelectionRoots(sel);
      ghost var below := DescendantsOfEach(objects, order, height, roots);
      ex := roots;
      for i := 0 to |roots|
        invariant ex + DescendantsOfEach(objects, order, height, roots[i..]) == roots + below
      {
        DescendantsOfEachStep(objects, order, height, roots, i);
        ghost var rest := DescendantsOfEach(objects, order, height, roots[i + 1..]);
        ghost var before := ex;
        ex := GetChildren(roots[i], ex);
        AppendAssoc(before, Descendants(objects, order, height, roots[i]), rest);
      }
    }

    /**
     * Step 1/5: the object list.  The three guards of the source cover every
     * combination of the two options, so its "Unknown error" branch is dead.
     */
    method ResolveScope(sel: seq<Id>, expand: bool, scene: bool) returns (list: seq<Id>)
      requires Forest(objects, height)
      requires NoDup(order) && forall x {:trigger x in order} :: x in order <==> x in objects
      requires NoDup(sel) && forall x :: x in sel ==> x in objects
      ensures !expand && !scene ==> list == sel
      ensures expand && !scene ==> list == Expanded(objects, order, height, sel)
      ensures scene ==> list == order
      ensures NoDup(list) && forall x :: x in list ==> x in objects
    {
      if !expand && !scene {
        list := sel;
      } else if expand && !scene {
        list := ExpandHierarchy(sel);
        ExpandedNoDup(objects, order, height, sel);
        ExpandedCoversSelection(objects, order, height, sel);
      } else if scene {
        list := order;
      } else {
        assert false;
      }
    }

    /** Step 2/5: the parent/child lists. */
    method Classify(list: seq<Id>) returns (parents: seq<Id>, children: seq<Id>)
      requires Linked(objects) && forall x :: x in list ==> x in objects
      ensures parents == ParentsIn(objects, list)
      ensures children == ChildrenIn(objects, list)
    {
      parents, children := [], [];
      for i := 0 to |list|
        invariant parents == ParentsIn(objects, list[..i])
        invariant children == ChildrenIn(objects, list[..i])
      {
        var obj := list[i];
        assert list[..i + 1][..i] == list[..i];
        if IsContainerText(objects[obj].tag) {
          parents := parents + [obj];
        } else if IsContainerText(ParentText(objects, objects[obj])) {
          children := children + [obj];
        }
      }
      assert list[..|list|] == list;
    }

    /** Step 3/5: `obj.controller = rt.prs()` for every listed object. */
    method UniquifyControllers(list: seq<Id>)
      requires forall x :: x in list ==> x in objects
      modifies this`objects, this`nextController
      ensures old(Valid()) ==> Valid()
      ensures objects == Recontrolled(old(objects), list, |list|, old(nextController))
      ensures nextController == old(nextController) + |list|
    {
      ghost var objs, next := objects, nextController;
      for i := 0 to |list|
        invariant objects == Recontrolled(objs, list, i, next)
        invariant nextController == next + i
      {
        var obj := list[i];
        objects := objects[obj := objects[obj].(controller := nextController)];
        nextController := nextController + 1;
      }
      if old(Valid()) {
        RecontrolKeepsConsistent(objs, order, selection, currentLayer, next, height, list);
      }
    }

    /** Step 4/5: convert the CAD objects of the list to meshes and count them. */
    method ConvertCadObjects(list: seq<Id>) returns (cadObjs: nat)
      requires forall x :: x in list ==> x in objects
      modifies this`objects
      ensures old(Valid()) ==> Valid()
      ensures objects == Converted(old(objects), list, |list|)
      ensures cadObjs == |CadIn(old(objects), list)|
    {
      ghost var objs := objects;
      cadObjs := 0;
      for i := 0 to |list|
        invariant objects == Converted(objs, list, i)
        invariant cadObjs == |CadIn(objs, list[..i])|
      {
        var obj := list[i];
        CadInStep(objs, list, i);
        ConvertedAt(objs, list, i, obj);
        if IsCadText(objects[obj].tag) {
          objects := objects[obj := objects[obj].(converted := true)];
          cadObjs := cadObjs + 1;
        }
      }
      assert list[..|list|] == list;
      if old(Valid()) {
        ConvertKeepsConsistent(objs, order, selection, currentLayer, nextController, height, list);
      }
    }

    /** The flatten loop: each child takes its parent's name, then loses its parent link. */
    method Flatten(children: seq<Id>)
      requires Flattenable(objects, children)
      modifies this`objects
      ensures old(Valid()) ==> Valid()
      ensures objects == Flattened(old(objects), children, |children|)
    {
      ghost var objs := objects;
      for i := 0 to |children|
        invariant objects == Flattened(objs, children, i)
      {
        var child := children[i];
        FlattenedAt(objs, children, i, child);
        FlattenedAt(objs, children, i, objs[child].parent.value);
        var parent := objects[child].parent.value;
        objects := objects[child := objects[child].(name := objects[parent].name, parent := None)];
      }
      if old(Valid()) {
        FlattenKeepsConsistent(objs, order, selection, currentLayer, nextController, height, children);
      }
    }

    /** `current_layer.addNode(x)` for every node of `nodes`. */
    method AddToCurrentLayer(nodes: set<Id>)
      requires Valid() && nodes <= objects.Keys
      modifies this`currentLayer
      ensures Valid()
      ensures currentLayer == old(currentLayer) + nodes
    {
      var remaining := nodes;
      while remaining != {}
        invariant remaining <= nodes
        invariant currentLayer == old(currentLayer) + (nodes - remaining)
        decreases remaining
      {
        var x :| x in remaining;
        currentLayer := currentLayer + {x};
        remaining := remaining - {x};
      }
    }

    /** `rt.delete(doomed)`: the objects go; the host unlinks any object still attached to one of them. */
    method Delete(doomed: seq<Id>)
      requires Valid()
      modifies this`objects, this`order, this`selection, this`currentLayer
      ensures Valid()
      ensures objects == Deleted(old(objects), Elems(doomed))
      ensures order == Without(old(order), Elems(doomed))
      ensures selection == Without(old(selection), Elems(doomed))
      ensures currentLayer == old(currentLayer) - Elems(doomed)
    {
      var gone := Elems(doomed);
      DeleteKeepsConsistent(objects, order, selection, currentLayer, nextController, height, gone);
      objects := Deleted(objects, gone);
      order := Without(order, gone);
      selection := Without(selection, gone);
      currentLayer := currentLayer - gone;
    }

    /**
     * Step 1/5 of `clean()`: the objects to work on, by the dialog's `expand`
     * and `scene` options; the selection is cleared (`clearSelection()`).
     */
    method TakeScope(expand: bool, scene: bool) returns (list: seq<Id>)
      requires Valid()
      modifies this`selection
      ensures Valid() && selection == []
      ensures !expand && !scene ==> list == old(selection)
      ensures expand && !scene ==> list == Expanded(objects, order, height, old(selection))
      ensures scene ==> list == order
      ensures NoDup(list) && forall x :: x in list ==> x in objects
      ensures expand || scene ==>
                forall c :: c in objects && objects[c].parent.Some? && objects[c].parent.value in list ==> c in list
    {
      var sel := selection;
      selection := [];
      list := ResolveScope(sel, expand, scene);
      if expand && !scene {
        ExpandedClosedDownwards(objects, order, height, sel);
      }
    }

    /**
     * Steps 2/5 to 4/5 of `clean()` on `list`: classify it, give every object
     * a fresh controller, and convert the CAD objects.
     */
    method Prepare(list: seq<Id>) returns (parents: seq<Id>, children: seq<Id>, cadObjs: nat)
      requires Valid()
      requires NoDup(list) && forall x :: x in list ==> x in objects
      modifies this`objects, this`nextController
      ensures Valid()
      ensures parents == ParentsIn(old(objects), list)
      ensures children == ChildrenIn(old(objects), list)
      ensures cadObjs == |CadIn(old(objects), list)|
      ensures objects == Converted(Recontrolled(old(objects), list, |list|, old(nextController)), list, |list|)
      ensures nextController == old(nextController) + |list|
    {
      // 2/5
      parents, children := Classify(list);
      // 3/5
      UniquifyControllers(list);
      RecontrolledKeepsCad(old(objects), list, old(nextController));
      // 4/5
      cadObjs := ConvertCadObjects(list);
    }

    /**
     * Step 5/5 of `clean()` and the deletion: unparent and rename the
     * children, with the `layer` option move the list without its parents to
     * the current layer, then delete the parents.
     */
    method Finish(list: seq<Id>, parents: seq<Id>, children: seq<Id>, layer: bool)
      requires Valid() && Flattenable(objects, children)
      requires forall x :: x in list ==> x in objects
      modifies this`objects, this`order, this`selection, this`currentLayer
      ensures Valid()
      ensures objects == Deleted(Flattened(old(objects), children, |children|), Elems(parents))
      ensures order == Without(old(order), Elems(parents))
      ensures selection == Without(old(selection), Elems(parents))
      ensures currentLayer == (old(currentLayer) + if layer then Elems(list) else {}) - Elems(parents)
    {
      Flatten(children);
      if layer {
        AddToCurrentLayer(Elems(list) - Elems(parents));
      }
      Delete(parents);
    }

    /** Steps 2/5 to 5/5 of `clean()` on `list`, with the deletion of the parents. */
    method Process(list: seq<Id>, layer: bool) returns (parents: seq<Id>, children: seq<Id>, cadObjs: nat)
      requires Valid()
      requires NoDup(list) && forall x :: x in list ==> x in objects
      modifies this`objects, this`order, this`selection, this`currentLayer, this`nextController
      ensures Valid()
      ensures parents == ParentsIn(old(objects), list)
      ensures children == ChildrenIn(old(objects), list)
      ensures cadObjs == |CadIn(old(objects), list)|
      ensures objects == AfterClean(old(objects), list, old(nextController))
      ensures nextController == old(nextController) + |list|
      ensures order == Without(old(order), Elems(parents))
      ensures selection == Without(old(selection), Elems(parents))
      ensures currentLayer == (old(currentLayer) + if layer then Elems(list) else {}) - Elems(parents)
    {
      ghost var objs, next := objects, nextController;
      parents, children, cadObjs := Prepare(list);
      ReadyToFlatten(objs, list, next);
      Finish(list, parents, children, layer);
    }

    /**
     * `clean()` with the three options of its dialog: `layer`, `expand` and
     * `scene`.  Reports the list it worked on, the parents and children it
     * found, and the number of CAD objects it converted.
     */
    method Clean(layer: bool, expand: bool, scene: bool) returns (r: Report)
      requires Valid()
      modifies this`objects, this`order, this`selection, this`currentLayer, this`nextController
      ensures Valid()
      ensures selection == []
      // the object list
      ensures !expand && !scene ==> r.list == old(selection)
      ensures expand && !scene ==> r.list == Expanded(old(objects), old(order), height, old(selection))
      ensures scene ==> r.list == old(order)
      ensures NoDup(r.list) && forall x :: x in r.list ==> x in old(objects)
      // the expanded and full-scene lists hold every child of their members
      ensures expand || scene ==>
                forall c :: c in old(objects) && old(objects)[c].parent.Some? && old(objects)[c].parent.value in r.list ==>
                  c in r.list
      // classification and conversion
      ensures r.parents == ParentsIn(old(objects), r.list)
      ensures r.children == ChildrenIn(old(objects), r.list)
      ensures r.cadObjs == |CadIn(old(objects), r.list)|
      // the objects after steps 3/5 to 5/5
      ensures objects == AfterClean(old(objects), r.list, old(nextController))
      ensures nextController == old(nextController) + |r.list|
      ensures order == Without(old(order), Elems(r.parents))
      // the current layer
      ensures currentLayer == (old(currentLayer) + if layer then Elems(r.list) else {}) - Elems(r.parents)
    {
      var list := TakeScope(expand, scene);
      var parents, children, cadObjs := Process(list, layer);
      r := Report(list, parents, children, cadObjs);
    }
  }
}
