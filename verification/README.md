# cleanDWG: the hierarchy cleanup, modelled in Dafny

`cleanDWG.py` is a 3ds Max script that tidies geometry imported from DWG
files. Its `clean()` runs five passes over a list of scene objects:

1. Pick the objects: the selection, the selection expanded to the whole
   hierarchies it touches, or the whole scene.
2. Sort them into *container parents* (type text starting with
   `$Block_Style_Parent`) and *children* (other objects whose parent is such a
   container).
3. Give every object a new transform controller.
4. Convert the CAD objects (`$VIZBlock`, `$Linked_Geometry`) to meshes and
   count them.
5. Rename each child after its parent and unparent it. With the layer option,
   move the list without its parents to the current layer. Then delete the
   parents.

This project models that pipeline and `_get_children`, the recursive
pre-order walk used by the expand mode. It is written as a class `Scene` whose
methods follow the loops of the script. Beside them are value-level
specification functions and lemmas about them.

Modules, one per file:

- `Hierarchy` (`hierarchy.dfy`): objects, parent links, and the forest
  invariant. A ghost `height` map ranks every parent above its children, so
  the root walk and the recursion both end. Also roots, `obj.children`, and
  the pre-order walk `Descendants`.
- `Expansion` (`expansion.dfy`): the expand-to-hierarchy list. It holds the
  distinct roots of the selection, then everything below each root.
- `Classification` (`classification.dfy`): the prefix tests on type texts,
  and the `parents`, `children` and CAD lists the loops build.
- `Phases` (`phases.dfy`): what steps 3/5 to 5/5 and the deletion do to the
  object map. Each is a function that follows its loop one object at a time,
  with lemmas stating the effect of the whole loop.
- `SceneInvariant` (`invariant.dfy`): the invariant a scene keeps between
  operations, and the proof that every phase preserves it.
- `CleanDwg` (`scene.dfy`): the `Scene` class, with one method per loop of
  the script and `Clean` composing them.
- `Scenario` (`scenario.dfy`): a container with one CAD block inside, cleaned
  end to end, once with both objects listed and once with the container alone.

## Model

| member | source | states |
|---|---|---|
| `Hierarchy.Root` | cleanDWG.py:177-181 | The top of an object's parent chain has no parent and is an ancestor-or-self of the object |
| `Hierarchy.RootIsUnique` | cleanDWG.py:177-181 | Any parentless ancestor-or-self of an object is its root, so each object has exactly one root |
| `Hierarchy.RootOfChild` | cleanDWG.py:179-181 | Stepping from a child to its parent keeps the root |
| `Hierarchy.AncestorsComparable` | cleanDWG.py:177-181 | Two ancestors of one object lie on one chain |
| `Hierarchy.ChildrenOf` | cleanDWG.py:132 | `obj.children` holds exactly the scene objects linked to `obj`, each once. The order is scene order by definition; the contract does not state it |
| `Hierarchy.Descendants` | cleanDWG.py:131-138 | Definition, with no ensures of its own, of what `_get_children(obj, [])` appends: for each child in order, the child and then the walk below it. `DescendantsSound`, `DescendantsComplete`, `DescendantsNoDup` and `InTreeOfRoot` characterise it |
| `Hierarchy.DescendantsFrom` | cleanDWG.py:133-137 | Definition, with no ensures of its own, of the `for child in children` loop of `_get_children` over a suffix of the children. It is characterised together with `Descendants` |
| `Hierarchy.Elems` | cleanDWG.py:282-284 | Definition of Python's `set(list)`: its ensures gives membership in both directions, and `Hierarchy.NoDupCard` relates its size to the list's length |
| `Hierarchy.NoDupCard` | cleanDWG.py:249-256 | Helper behind `Classification.CadCount`: a list without duplicates has as many elements as its set |
| `Hierarchy.DescendantsSound` | cleanDWG.py:131-138 | Everything `_get_children` appends below `x` is a proper descendant of `x` |
| `Hierarchy.DescendantsComplete` | cleanDWG.py:131-138 | Every proper descendant of `x` is appended by `_get_children` |
| `Hierarchy.DescendantsNoDup` | cleanDWG.py:134-137 | The walk below one object never yields an object twice, as the comment in `_get_children` says |
| `Hierarchy.SiblingsDisjoint` | cleanDWG.py:133-137 | The subtrees of two different children of one object share nothing |
| `Hierarchy.InTreeOfRoot` | cleanDWG.py:192-194 | Below a root lie exactly the other objects whose root it is |
| `Expansion.DistinctRoots` | cleanDWG.py:171-183 | `selection_roots` has no duplicates, holds parentless objects only, holds the root of every selected object, and holds nothing else |
| `Expansion.DescendantsOfEach` | cleanDWG.py:192-194 | Definition, with no ensures of its own, of what the second expand loop appends: the walk below each root in turn. `DescendantsOfEachMembers` characterises it |
| `Expansion.Expanded` | cleanDWG.py:188-197 | Definition, with no ensures of its own, of the expand-mode list: the distinct roots followed by the walk below each. `ExpandedMembers`, `ExpandedCoversSelection`, `ExpandedClosedUpwards`, `ExpandedClosedDownwards` and `ExpandedNoDup` characterise it |
| `Expansion.DescendantsOfEachMembers` | cleanDWG.py:188-194 | Below a list of roots lie exactly the linked objects whose root is on the list |
| `Expansion.ExpandedMembers` | cleanDWG.py:169-197 | An object is in the expanded list exactly when its root is the root of some selected object |
| `Expansion.ExpandedCoversSelection` | cleanDWG.py:169-197 | The expanded list contains the selection and only scene objects |
| `Expansion.ExpandedClosedUpwards` | cleanDWG.py:169-197 | The parent of every object in the expanded list is in the list too |
| `Expansion.ExpandedClosedDownwards` | cleanDWG.py:169-197 | Every child of an object in the expanded list is in the list too |
| `Expansion.ExpandedNoDup` | cleanDWG.py:188-197 | The expanded list has no duplicates, because the roots are distinct and the hierarchy is a forest |
| `Classification.Head` | cleanDWG.py:221 | Python's `s[:n]` is a prefix of `s` of length `min(n, |s|)` |
| `Classification.IsContainerText` | cleanDWG.py:221 | Definition, with no ensures of its own, of the test `str(obj)[:19] == "$Block_Style_Parent"`. `HeadTestIsPrefixTest` shows it is a starts-with test |
| `Classification.IsCadText` | cleanDWG.py:252-253 | Definition, with no ensures of its own, of the CAD test on `str(obj)`. `HeadTestIsPrefixTest` and `CadIsNoContainer` characterise it |
| `Classification.HeadTestIsPrefixTest` | cleanDWG.py:221-253 | The fixed-length head comparisons are exactly "starts with" tests for the three class names |
| `Classification.CadIsNoContainer` | cleanDWG.py:221-253 | A CAD object's text never starts with the container class name |
| `Classification.ParentText` | cleanDWG.py:223 | `str(obj.parent)` of a parentless object ("None") never names a container |
| `Classification.IsContainerChild` | cleanDWG.py:223 | Definition, with no ensures of its own, of the `elif` test on `str(obj.parent)` for an object that failed the container test. `ContainerChildHasContainerParent` characterises it |
| `Classification.ContainerChildHasContainerParent` | cleanDWG.py:221-224 | The `elif` holds exactly for a non-container whose parent exists and is a container |
| `Classification.ParentsIn` | cleanDWG.py:216-222 | `parents` holds exactly the listed containers, without duplicates when the list has none |
| `Classification.ChildrenIn` | cleanDWG.py:216-224 | `children` holds exactly the listed non-containers whose parent is a container, without duplicates when the list has none |
| `Classification.CadIn` | cleanDWG.py:249-256 | The converted objects are exactly the listed objects with a CAD class text, and there are at most as many as listed |
| `Classification.CadInNoDup` | cleanDWG.py:249-256 | Over a list without duplicates, no object is converted twice |
| `Classification.CadCount` | cleanDWG.py:249-256 | Over a list without duplicates, `cad_objs` is the number of listed objects whose text names a CAD class |
| `Classification.CadInSameTags` | cleanDWG.py:250-253 | Which objects count as CAD depends on the type texts alone |
| `Classification.ClassesDisjoint` | cleanDWG.py:218-224 | No object is both a parent and a child, every listed container is a parent, and a parentless object is never a child |
| `Classification.ClosedListLeavesNoOrphans` | cleanDWG.py:218-224 | When the list holds every child of its members, every object linked to a collected parent was itself classified |
| `Phases.Recontrolled` | cleanDWG.py:233-237 | The controller loop neither adds nor removes objects |
| `Phases.RecontrolledUnreached` | cleanDWG.py:233-237 | An object the loop has not reached yet is unchanged |
| `Phases.RecontrolledReached` | cleanDWG.py:233-237 | The `i`-th listed object holds the controller created by the `i`-th call, and nothing else about it changed |
| `Phases.RecontrolledFresh` | cleanDWG.py:233-237 | After the loop only controllers changed: every listed object holds a newly created controller, no two listed objects share one, and unlisted objects are untouched |
| `Phases.RecontrolledBounded` | cleanDWG.py:233-237 | Whether or not the list holds an object twice, the loop changes only controllers, and each one it hands out is numbered below the advanced counter |
| `Phases.RecontrolledKeepsCad` | cleanDWG.py:237-253 | New controllers do not change which objects count as CAD |
| `Phases.Converted` | cleanDWG.py:250-256 | The conversion loop neither adds nor removes objects |
| `Phases.ConvertedAt` | cleanDWG.py:250-256 | After `n` rounds, exactly the CAD objects among the first `n` listed are converted, and nothing else changed |
| `Phases.ConvertedExactly` | cleanDWG.py:250-256 | The whole loop converts exactly the listed CAD objects and changes nothing else |
| `Phases.Flattened` | cleanDWG.py:273-275 | The flatten loop neither adds nor removes objects |
| `Phases.FlattenedAt` | cleanDWG.py:273-275 | After `n` rounds, each of the first `n` children has no parent and bears its former parent's name; every other object, its parent included, is as before |
| `Phases.FlattenedExactly` | cleanDWG.py:273-275 | The whole loop flattens exactly the children and leaves every other object as it was |
| `Phases.Detach` | cleanDWG.py:296 | Definition of the assumed host behaviour of `rt.delete` on a survivor: it loses its parent link exactly when that parent was deleted, and nothing else about it changes |
| `Phases.Deleted` | cleanDWG.py:296 | Definition of the assumed host behaviour of `rt.delete`: exactly the doomed objects are removed, and each survivor is detached from them |
| `Phases.FewerLinksKeepForest` | cleanDWG.py:273-296 | Removing objects or parent links keeps the hierarchy a forest |
| `Phases.ChildrenFlattenable` | cleanDWG.py:221-275 | The classified children each have a parent in the scene that is not itself a child, so the flatten loop is well defined |
| `Phases.ReadyToFlatten` | cleanDWG.py:229-275 | That still holds after the controller and conversion loops |
| `Phases.AfterClean` | cleanDWG.py:229-296 | After steps 3/5 to 5/5 the scene holds exactly the objects that are not collected parents |
| `Phases.CleanEffect` | cleanDWG.py:229-296 | What the cleanup does to a survivor: a child is unparented and renamed after its old parent; another survivor keeps its name, and its parent unless that parent was deleted; tags never change; listed survivors get new controllers and unlisted ones keep theirs; exactly the listed CAD objects are converted |
| `Phases.CleanControllersDistinct` | cleanDWG.py:233-237 | No two listed survivors share a controller after the cleanup |
| `Phases.ClosedListFlattensAllOrphans` | cleanDWG.py:266-296 | With an expanded or full-scene list, every survivor whose parent was deleted had been flattened first |
| `Phases.FullSceneLeavesNoContainerLinks` | cleanDWG.py:200-296 | After a full-scene cleanup no survivor is linked to a container |
| `SceneInvariant.Without` | cleanDWG.py:296 | A list without the deleted objects keeps exactly the survivors, and no duplicates |
| `SceneInvariant.RecontrolKeepsConsistent` | cleanDWG.py:233-237 | The controller loop keeps the scene consistent, with every controller numbered below the new counter |
| `SceneInvariant.ConvertKeepsConsistent` | cleanDWG.py:250-256 | The conversion loop keeps the scene consistent |
| `SceneInvariant.FlattenKeepsConsistent` | cleanDWG.py:273-275 | The flatten loop keeps the scene consistent |
| `SceneInvariant.DeleteKeepsConsistent` | cleanDWG.py:296 | Deleting keeps the scene consistent, with the deleted objects gone from the scene order, the selection and the layer |
| `SceneInvariant.CleanKeepsConsistent` | cleanDWG.py:229-296 | Steps 3/5 to 5/5 together keep the scene consistent, stated on values. It is a summary that no other member depends on; `CleanDwg.Scene.Process` establishes the same fact on the scene step by step |
| `CleanDwg.Scene.RootOf` | cleanDWG.py:177-181 | The `while x_parent is not None` loop ends at the object's root |
| `CleanDwg.Scene.GetChildren` | cleanDWG.py:131-138 | `_get_children(obj, input_list)` returns `input_list` followed by the pre-order walk below `obj` |
| `CleanDwg.Scene.SelectionRoots` | cleanDWG.py:171-183 | The first loop of the expand mode builds the distinct roots of the selection, in first-seen order |
| `CleanDwg.Scene.ExpandHierarchy` | cleanDWG.py:169-197 | The expand mode yields the distinct roots followed by the walk below each of them |
| `CleanDwg.Scene.ResolveScope` | cleanDWG.py:164-207 | The list is the selection, the expanded list or the whole scene, by the two options. Scene mode wins over expand. The list has no duplicates and holds scene objects only. The "Unknown error" branch is unreachable |
| `CleanDwg.Scene.TakeScope` | cleanDWG.py:161-207 | Step 1/5 takes the selection, clears it and resolves the list; the expanded and full-scene lists contain every child of their members |
| `CleanDwg.Scene.Classify` | cleanDWG.py:216-224 | The classification loop builds `parents` and `children` as specified |
| `CleanDwg.Scene.UniquifyControllers` | cleanDWG.py:233-237 | The controller loop gives the listed objects the next fresh controllers. It keeps the scene valid |
| `CleanDwg.Scene.ConvertCadObjects` | cleanDWG.py:249-256 | The conversion loop converts the listed CAD objects, and `cad_objs` is the length of `CadIn`. By `Classification.CadCount`, over a list without duplicates that is the number of listed objects with a CAD class text. It keeps the scene valid |
| `CleanDwg.Scene.Flatten` | cleanDWG.py:273-275 | The flatten loop renames and unparents the children. It keeps the scene valid |
| `CleanDwg.Scene.AddToCurrentLayer` | cleanDWG.py:290-292 | `addNode` over a set adds exactly that set to the current layer. It takes scene objects only and keeps the scene valid |
| `CleanDwg.Scene.Delete` | cleanDWG.py:296 | `rt.delete(parents)` removes the parents from the scene, the scene order, the selection and the current layer. It keeps the scene valid |
| `CleanDwg.Scene.Prepare` | cleanDWG.py:209-256 | Steps 2/5 to 4/5 in sequence. They keep the scene valid |
| `CleanDwg.Scene.Finish` | cleanDWG.py:265-296 | Step 5/5: flatten, then with the layer option add the list without its parents to the current layer, then delete the parents. It keeps the scene valid |
| `CleanDwg.Scene.Process` | cleanDWG.py:209-296 | Steps 2/5 to 5/5 yield the classified lists, the CAD count, and the scene described by `AfterClean`. They keep the scene valid |
| `CleanDwg.Scene.Clean` | cleanDWG.py:143-305 | `clean()` keeps the scene consistent and leaves the selection empty. It works on the list of the chosen mode and reports the parents, children and CAD count found in it. The objects become `AfterClean` of that list, the parents leave the scene order, and the current layer changes only as the layer option says |
| `Scenario.ContainerAndBlockClassified` | cleanDWG.py:216-256 | With a container A and a CAD block B inside it both selected, `parents` is `[A]`, `children` is `[B]` and B alone is converted |
| `Scenario.ContainerAndBlockPrepared` | cleanDWG.py:233-256 | In that scene B gets the second new controller and is converted; A keeps its name |
| `Scenario.ContainerAndBlockFlattened` | cleanDWG.py:273-275 | In that scene the flatten loop leaves B parentless and named after A |
| `Scenario.ContainerAndBlockSurvivors` | cleanDWG.py:296 | In that scene only B survives |
| `Scenario.ContainerAndBlockCleaned` | cleanDWG.py:229-296 | In that scene the cleanup leaves exactly one object: B, parentless, named after A, converted, with its new controller |
| `Scenario.ContainerOnlyClassified` | cleanDWG.py:216-224 | With only the container A listed, `parents` is `[A]` and `children` is empty |
| `Scenario.ContainerOnlyCleaned` | cleanDWG.py:216-296 | With only the container A listed, the cleanup deletes A and leaves B parentless, with its own name, its old controller, and unconverted |

## Left out

- The Qt dialog: loading the UI file, widget lookup, status labels, progress
  bars and showing the window. They do not affect the objects. The three
  check boxes become the `layer`, `expand` and `scene` parameters of `Clean`.
- `rt.gc()`, the undo context and redraw suspension. These are host calls with
  no visible effect on the list logic. `rt.clearSelection()` is modelled as
  emptying the selection.
- The mesh conversion itself (`addModifier`, `CollapseNodeTo`). It is a
  `converted` flag. The object's type text is kept as it was, so the model
  does not capture that the host later shows the object as an editable mesh.
- `Classification.CadCount`, `Phases.ConvertedExactly` and
  `CleanDwg.Scene.ConvertCadObjects`: instances, that is, scene objects that
  share one underlying object, are not modelled. The model converts and counts
  every listed CAD object on its own. The script converts "preserving
  instancing" (cleanDWG.py:243). It rebuilds `str(obj)` on every round
  (cleanDWG.py:252), so an instance whose shared object an earlier round
  already collapsed no longer shows a CAD class text. Such an instance is
  neither converted again nor counted. Collapsing a shared object also changes
  unlisted instances of it. So `cad_objs` can be smaller than the model's
  count, and unlisted instances can change.
- How the host renders `str(obj)`. Each object carries its type text as a
  field, and the prefix tests run on that field.
- `rt.prs()`: a new controller is a number taken from a counter in the
  scene. That makes "newly created and distinct" a statement about numbers.
- Exceptions and `traceback.print_exc()`. The model assumes every host call
  succeeds, so a failure halfway through the pipeline is not represented.
- The two `print` statements. `Clean` returns the parents and the CAD count
  in its `Report` instead.
- The layer manager. The current layer is a set of object identities, and
  `addNode` adds to it.
- The order of `obj.children` is not documented by the host. The model takes
  it to be scene order, filtered by parent link.
- What `rt.delete` does to objects still linked to a deleted one. The model
  assumes the host unlinks them (`Phases.Detach`) and removes the deleted
  objects from the scene order, the selection and the current layer.
- The host selection is taken to hold no object twice (part of the scene
  invariant). The selected-only mode passes it through unchanged, as the
  script does.
- Only listed objects are classified (cleanDWG.py:218-224). So in the
  selected-only mode, a selected container whose child is not selected is
  deleted, and the child is merely detached by the host: it keeps its name
  and is not renamed after the container (`Scenario.ContainerOnlyCleaned`).
  Renaming every orphan after its former parent holds only for lists that
  hold the children of their members, as the expanded and full-scene lists
  do (`Phases.ClosedListFlattensAllOrphans`).
- The disposal alternative of moving parents and children into dedicated,
  hidden layers. It does not occur in this version of the script, which
  deletes the parents and can add the list without its parents to the
  current layer. The model follows the script.
