/**
 * Classification by type text.  The host renders an object as a string whose
 * beginning names its class; the cleanup compares a fixed-length head of that
 * string with a literal.  A parentless object's parent renders as "None".
 */
module Classification {
  import opened Hierarchy

  const BlockStyleParent: string := "$Block_Style_Parent"
  const VizBlock: string := "$VIZBlock"
  const LinkedGeometry: string := "$Linked_Geometry"

  /** Python's `s[:n]`: the first `n` characters, or all of `s` when it is shorter. */
  function Head(s: string, n: nat): (h: string)
    ensures h <= s
    ensures |h| == if |s| < n then |s| else n
  {
    if |s| <= n then s else s[..n]
  }

  /** `str(x)[:19] == "$Block_Style_Parent"`: the text starts with the container-parent class name. */
  predicate IsContainerText(text: string)
  {
    Head(text, 19) == BlockStyleParent
  }

  /** `s[:9] == "$VIZBlock" or s[:16] == "$Linked_Geometry"`. */
  predicate IsCadText(text: string)
  {
    Head(text, 9) == VizBlock || Head(text, 16) == LinkedGeometry
  }

  lemma HeadTestIsPrefixTest(text: string)
    ensures IsContainerText(text) <==> BlockStyleParent <= text
    ensures IsCadText(text) <==> VizBlock <= text || LinkedGeometry <= text
  {
    assert |BlockStyleParent| == 19 && |VizBlock| == 9 && |LinkedGeometry| == 16;
    if BlockStyleParent <= text {
      assert text[..19] == BlockStyleParent;
    }
    if VizBlock <= text {
      assert text[..9] == VizBlock;
    }
    if LinkedGeometry <= text {
      assert text[..16] == LinkedGeometry;
    }
  }

  /** A CAD object is never a container parent: the two class names differ at their second character. */
  lemma CadIsNoContainer(text: string)
    ensures IsCadText(text) ==> !IsContainerText(text)
  {
    HeadTestIsPrefixTest(text);
    assert VizBlock[1] != BlockStyleParent[1] && LinkedGeometry[1] != BlockStyleParent[1];
  }

  /** `str(obj.parent)`: the parent's type text, or "None" for a parentless object. */
  function ParentText(objs: map<Id, Obj>, o: Obj): (text: string)
    requires o.parent.Some? ==> o.parent.value in objs
    ensures o.parent.None? ==> !IsContainerText(text)
  {
    match o.parent
    case None => "None"
    case Some(p) => objs[p].tag
  }

  /** The test of the `elif`: a non-container whose parent's text starts with the container class name. */
  predicate IsContainerChild(objs: map<Id, Obj>, x: Id)
    requires x in objs && Linked(objs)
  {
    !IsContainerText(objs[x].tag) && IsContainerText(ParentText(objs, objs[x]))
  }

  /** A container child has a parent, and that parent is a container. */
  lemma ContainerChildHasContainerParent(objs: map<Id, Obj>, x: Id)
    requires x in objs && Linked(objs)
    ensures IsContainerChild(objs, x) <==>
            !IsContainerText(objs[x].tag) && objs[x].parent.Some? && IsContainerText(objs[objs[x].parent.value].tag)
  {
  }

  /** `parents` after the classification loop over `list`. */
  ghost function ParentsIn(objs: map<Id, Obj>, list: seq<Id>): (ps: seq<Id>)
    requires forall x :: x in list ==> x in objs
    ensures forall x :: x in ps <==> x in list && IsContainerText(objs[x].tag)
    ensures NoDup(list) ==> NoDup(ps)
  {
    if list == [] then []
    else
      var init := list[..|list| - 1];
      var last := list[|list| - 1];
      assert forall x :: x in init ==> x in list;
      NoDupInit(list);
      ParentsIn(objs, init) + if IsContainerText(objs[last].tag) then [last] else []
  }

  /** `children` after the classification loop over `list`. */
  ghost function ChildrenIn(objs: map<Id, Obj>, list: seq<Id>): (cs: seq<Id>)
    requires Linked(objs) && forall x :: x in list ==> x in objs
    ensures forall x :: x in cs <==> x in list && IsContainerChild(objs, x)
    ensures NoDup(list) ==> NoDup(cs)
  {
    if list == [] then []
    else
      var init := list[..|list| - 1];
      var last := list[|list| - 1];
      assert forall x :: x in init ==> x in list;
      NoDupInit(list);
      ChildrenIn(objs, init) + if IsContainerChild(objs, last) then [last] else []
  }

  /** The objects the conversion loop converts and counts, in list order. */
  ghost function CadIn(objs: map<Id, Obj>, list: seq<Id>): (cad: seq<Id>)
    requires forall x :: x in list ==> x in objs
    ensures forall x :: x in cad <==> x in list && IsCadText(objs[x].tag)
    ensures |cad| <= |list|
  {
    if list == [] then []
    else
      var init := list[..|list| - 1];
      var last := list[|list| - 1];
      assert forall x :: x in init ==> x in list;
      CadIn(objs, init) + if IsCadText(objs[last].tag) then [last] else []
  }

  /** Which objects count as CAD depends on their tags alone. */
  lemma {:induction false} CadInSameTags(objs: map<Id, Obj>, objs': map<Id, Obj>, list: seq<Id>)
    requires forall x :: x in list ==> x in objs && x in objs' && objs'[x].tag == objs[x].tag
    ensures CadIn(objs', list) == CadIn(objs, list)
  {
    if list != [] {
      var init := list[..|list| - 1];
      assert forall x :: x in init ==> x in list;
      CadInSameTags(objs, objs', init);
    }
  }

  /** Over a list without duplicates, no object is converted twice. */
  lemma {:induction false} CadInNoDup(objs: map<Id, Obj>, list: seq<Id>)
    requires NoDup(list) && forall x :: x in list ==> x in objs
    ensures NoDup(CadIn(objs, list))
  {
    if list != [] {
      var init := list[..|list| - 1];
      assert forall x :: x in init ==> x in list;
      NoDupInit(list);
      CadInNoDup(objs, init);
    }
  }

  /**
   * Over a list without duplicates, the count the conversion loop reports is
   * the number of listed objects whose text names a CAD class.
   */
  lemma CadCount(objs: map<Id, Obj>, list: seq<Id>)
    requires NoDup(list) && forall x :: x in list ==> x in objs
    ensures |CadIn(objs, list)| == |set x | x in list && IsCadText(objs[x].tag)|
  {
    var cad := CadIn(objs, list);
    CadInNoDup(objs, list);
    NoDupCard(cad);
    assert Elems(cad) == set x | x in list && IsCadText(objs[x].tag);
  }

  lemma CadInStep(objs: map<Id, Obj>, list: seq<Id>, i: nat)
    requires i < |list| && forall x :: x in list ==> x in objs
    ensures forall x :: x in list[..i] ==> x in objs
    ensures forall x :: x in list[..i + 1] ==> x in objs
    ensures CadIn(objs, list[..i + 1]) ==
            CadIn(objs, list[..i]) + if IsCadText(objs[list[i]].tag) then [list[i]] else []
  {
    assert list[..i + 1][..i] == list[..i];
    assert forall x :: x in list[..i + 1] ==> x in list;
    assert forall x :: x in list[..i] ==> x in list;
  }

  /**
   * The two classes are disjoint; every container lands in `parents`, and a
   * parentless object is never a child.
   */
  lemma ClassesDisjoint(objs: map<Id, Obj>, list: seq<Id>, x: Id)
    requires Linked(objs) && forall y :: y in list ==> y in objs
    ensures !(x in ParentsIn(objs, list) && x in ChildrenIn(objs, list))
    ensures x in list && IsContainerText(objs[x].tag) ==> x in ParentsIn(objs, list)
    ensures x in list && objs[x].parent.None? ==> x !in ChildrenIn(objs, list)
  {
  }

  /**
   * When the list holds every child of each of its members, each object whose
   * parent is one of the collected parents was itself classified: as a parent
   * or as a child.  So once the children are unparented, deleting the parents
   * leaves nothing linked to a deleted object.
   */
  lemma ClosedListLeavesNoOrphans(objs: map<Id, Obj>, list: seq<Id>, c: Id)
    requires Linked(objs) && forall y :: y in list ==> y in objs
    requires forall y :: y in objs && objs[y].parent.Some? && objs[y].parent.value in list ==> y in list
    requires c in objs && objs[c].parent.Some? && objs[c].parent.value in ParentsIn(objs, list)
    ensures c in ParentsIn(objs, list) || c in ChildrenIn(objs, list)
  {
  }
}
