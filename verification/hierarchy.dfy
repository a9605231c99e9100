/**
 * The scene graph the cleanup works on, seen from outside the host: every
 * object has an identity, a type text (what `str(obj)` shows), a name, an
 * optional parent link and a transform controller.  Children are derived from
 * the parent links; the order of `obj.children` is taken to be the scene order.
 *
 * The hierarchy is a forest.  The witness of that is a ghost `height` map in
 * which every parent stands strictly higher than each of its children: walking
 * up from an object ends at a root, and walking down ends at the leaves.
 */
module Hierarchy {

  type Id = nat

  datatype Option<T> = None | Some(value: T)

  /** One scene object.  `converted` records that the mesh conversion ran on it. */
  datatype Obj = Obj(tag: string, name: string, parent: Option<Id>, controller: nat, converted: bool)

  predicate NoDup(s: seq<Id>)
  {
    forall i, j :: 0 <= i < j < |s| ==> s[i] != s[j]
  }

  /** Dropping the last element keeps a list free of duplicates, and the last element is not in the rest. */
  lemma NoDupInit(s: seq<Id>)
    requires s != []
    ensures NoDup(s) ==> NoDup(s[..|s| - 1]) && s[|s| - 1] !in s[..|s| - 1]
  {
  }

  lemma AppendAssoc(a: seq<Id>, b: seq<Id>, c: seq<Id>)
    ensures (a + b) + c == a + (b + c)
  {
  }

  /** The objects of a list, as a set (Python's `set(list)`). */
  function Elems(s: seq<Id>): (r: set<Id>)
    ensures forall x :: x in r <==> x in s
  {
    set x | x in s
  }

  /** A list without duplicates has as many elements as its set. */
  lemma {:induction false} NoDupCard(s: seq<Id>)
    requires NoDup(s)
    ensures |Elems(s)| == |s|
  {
    if s != [] {
      var init := s[..|s| - 1];
      NoDupInit(s);
      NoDupCard(init);
      assert s == init + [s[|s| - 1]];
      assert Elems(s) == Elems(init) + {s[|s| - 1]};
    }
  }

  /** Every parent link points at an object of the scene. */
  ghost predicate Linked(objs: map<Id, Obj>)
  {
    forall x :: x in objs && objs[x].parent.Some? ==> objs[x].parent.value in objs
  }

  /** The parent links form a forest, ranked by `height`. */
  ghost predicate Forest(objs: map<Id, Obj>, height: map<Id, nat>)
  {
    && Linked(objs)
    && objs.Keys <= height.Keys
    && forall x :: x in objs && objs[x].parent.Some? ==> height[x] < height[objs[x].parent.value]
  }

  /** The objects ranked strictly above `x`; it shrinks on every step up a parent link. */
  ghost function Above(height: map<Id, nat>, x: Id): set<Id>
    requires x in height
  {
    set y | y in height && height[y] > height[x]
  }

  lemma AboveShrinks(height: map<Id, nat>, x: Id, p: Id)
    requires x in height && p in height && height[x] < height[p]
    ensures Above(height, p) < Above(height, x)
  {
    assert p in Above(height, x) && p !in Above(height, p);
  }

  // ---------------------------------------------------------------------------
  // Walking up: ancestors and roots

  /** `a` is `y` itself or lies on the parent chain above `y`. */
  ghost predicate AncestorOrSelf(objs: map<Id, Obj>, height: map<Id, nat>, a: Id, y: Id)
    requires Forest(objs, height) && y in objs
    decreases Above(height, y)
  {
    || a == y
    || (objs[y].parent.Some? &&
        var p := objs[y].parent.value;
        AboveShrinks(height, y, p);
        AncestorOrSelf(objs, height, a, p))
  }

  /** The top of the parent chain that starts at `y`. */
  ghost function Root(objs: map<Id, Obj>, height: map<Id, nat>, y: Id): (r: Id)
    requires Forest(objs, height) && y in objs
    ensures r in objs && objs[r].parent.None?
    ensures AncestorOrSelf(objs, height, r, y)
    decreases Above(height, y)
  {
    match objs[y].parent
    case None => y
    case Some(p) =>
      AboveShrinks(height, y, p);
      Root(objs, height, p)
  }

  lemma {:induction false} AncestorIsHigher(objs: map<Id, Obj>, height: map<Id, nat>, a: Id, y: Id)
    requires Forest(objs, height) && y in objs && AncestorOrSelf(objs, height, a, y)
    ensures a in objs && height[y] <= height[a]
    ensures a != y ==> height[y] < height[a]
    decreases Above(height, y)
  {
    if a != y {
      var p := objs[y].parent.value;
      AboveShrinks(height, y, p);
      AncestorIsHigher(objs, height, a, p);
    }
  }

  lemma {:induction false} AncestorTransitive(objs: map<Id, Obj>, height: map<Id, nat>, a: Id, b: Id, y: Id)
    requires Forest(objs, height) && b in objs && y in objs
    requires AncestorOrSelf(objs, height, a, b) && AncestorOrSelf(objs, height, b, y)
    ensures AncestorOrSelf(objs, height, a, y)
    decreases Above(height, y)
  {
    if b != y {
      var p := objs[y].parent.value;
      AboveShrinks(height, y, p);
      AncestorTransitive(objs, height, a, b, p);
    }
  }

  /** Two ancestors of one object lie on one chain: one is an ancestor of the other. */
  lemma {:induction false} AncestorsComparable(objs: map<Id, Obj>, height: map<Id, nat>, a: Id, b: Id, y: Id)
    requires Forest(objs, height) && y in objs
    requires AncestorOrSelf(objs, height, a, y) && AncestorOrSelf(objs, height, b, y)
    ensures a in objs && b in objs
    ensures AncestorOrSelf(objs, height, a, b) || AncestorOrSelf(objs, height, b, a)
    decreases Above(height, y)
  {
    AncestorIsHigher(objs, height, a, y);
    AncestorIsHigher(objs, height, b, y);
    if a != y && b != y {
      var p := objs[y].parent.value;
      AboveShrinks(height, y, p);
      AncestorsComparable(objs, height, a, b, p);
    }
  }

  /** A root is the only ancestor-or-self of itself, so each object has one root. */
  lemma RootIsUnique(objs: map<Id, Obj>, height: map<Id, nat>, r: Id, y: Id)
    requires Forest(objs, height) && y in objs && r in objs && objs[r].parent.None?
    requires AncestorOrSelf(objs, height, r, y)
    ensures Root(objs, height, y) == r
  {
    var q := Root(objs, height, y);
    AncestorsComparable(objs, height, r, q, y);
  }

  /** Stepping from a child to its parent does not change the root. */
  lemma RootOfChild(objs: map<Id, Obj>, height: map<Id, nat>, c: Id)
    requires Forest(objs, height) && c in objs && objs[c].parent.Some?
    ensures Root(objs, height, c) == Root(objs, height, objs[c].parent.value)
  {
  }

  // ---------------------------------------------------------------------------
  // Walking down: children and descendants

  /** `obj.children`: the objects linked to `x`, in scene order. */
  function ChildrenOf(objs: map<Id, Obj>, order: seq<Id>, x: Id): (cs: seq<Id>)
    ensures forall c :: c in cs <==> c in order && c in objs && objs[c].parent == Some(x)
    ensures NoDup(order) ==> NoDup(cs)
  {
    if order == [] then []
    else
      var rest := ChildrenOf(objs, order[1..], x);
      if order[0] in objs && objs[order[0]].parent == Some(x) then
        assert NoDup(order) ==> order[0] !in order[1..];
        [order[0]] + rest
      else rest
  }

  /**
   * What `_get_children(x, list)` appends to `list`: every child of `x` in turn,
   * each followed by that child's own descendants (depth-first pre-order).
   */
  ghost function Descendants(objs: map<Id, Obj>, order: seq<Id>, height: map<Id, nat>, x: Id): seq<Id>
    requires Forest(objs, height) && x in objs
    decreases height[x], 1, 0
  {
    DescendantsFrom(objs, order, height, x, ChildrenOf(objs, order, x))
  }

  /** The pre-order walk below the children `cs` of `x`. */
  ghost function DescendantsFrom(objs: map<Id, Obj>, order: seq<Id>, height: map<Id, nat>, x: Id, cs: seq<Id>): seq<Id>
    requires Forest(objs, height) && x in objs
    requires forall c :: c in cs ==> c in objs && objs[c].parent == Some(x)
    decreases height[x], 0, |cs|
  {
    if cs == [] then []
    else [cs[0]] + Descendants(objs, order, height, cs[0]) + DescendantsFrom(objs, order, height, x, cs[1..])
  }

  /** One step of the walk over the children of `x`, at the `i`-th child. */
  lemma DescendantsFromStep(objs: map<Id, Obj>, order: seq<Id>, height: map<Id, nat>, x: Id, cs: seq<Id>, i: nat)
    requires Forest(objs, height) && x in objs && i < |cs|
    requires forall c :: c in cs ==> c in objs && objs[c].parent == Some(x)
    ensures forall c :: c in cs[i..] ==> c in objs && objs[c].parent == Some(x)
    ensures forall c :: c in cs[i + 1..] ==> c in objs && objs[c].parent == Some(x)
    ensures DescendantsFrom(objs, order, height, x, cs[i..])
         == [cs[i]] + (Descendants(objs, order, height, cs[i]) + DescendantsFrom(objs, order, height, x, cs[i + 1..]))
  {
    assert cs[i..][1..] == cs[i + 1..];
    AppendAssoc([cs[i]], Descendants(objs, order, height, cs[i]), DescendantsFrom(objs, order, height, x, cs[i + 1..]));
  }

  /** Everything the walk below `x` yields is a proper descendant of `x`. */
  lemma {:induction false} DescendantsSound(objs: map<Id, Obj>, order: seq<Id>, height: map<Id, nat>, x: Id, y: Id)
    requires Forest(objs, height) && x in objs
    requires y in Descendants(objs, order, height, x)
    ensures y in objs && height[y] < height[x] && AncestorOrSelf(objs, height, x, y)
    decreases height[x], 1, 0
  {
    DescendantsFromSound(objs, order, height, x, ChildrenOf(objs, order, x), y);
  }

  lemma {:induction false} DescendantsFromSound(objs: map<Id, Obj>, order: seq<Id>, height: map<Id, nat>, x: Id, cs: seq<Id>, y: Id)
    requires Forest(objs, height) && x in objs
    requires forall c :: c in cs ==> c in objs && objs[c].parent == Some(x)
    requires y in DescendantsFrom(objs, order, height, x, cs)
    ensures y in objs && height[y] < height[x] && AncestorOrSelf(objs, height, x, y)
    ensures exists i :: 0 <= i < |cs| && AncestorOrSelf(objs, height, cs[i], y)
    decreases height[x], 0, |cs|
  {
    var c := cs[0];
    assert AncestorOrSelf(objs, height, x, c);
    if y == c {
      assert AncestorOrSelf(objs, height, cs[0], y);
    } else if y in Descendants(objs, order, height, c) {
      DescendantsSound(objs, order, height, c, y);
      AncestorTransitive(objs, height, x, c, y);
      assert AncestorOrSelf(objs, height, cs[0], y);
    } else {
      DescendantsFromSound(objs, order, height, x, cs[1..], y);
      var i :| 0 <= i < |cs[1..]| && AncestorOrSelf(objs, height, cs[1..][i], y);
      assert AncestorOrSelf(objs, height, cs[i + 1], y);
    }
  }

  /** On the chain from a proper descendant `y` up to `x` there is a child of `x`. */
  lemma {:induction false} ChildOnPath(objs: map<Id, Obj>, height: map<Id, nat>, x: Id, y: Id) returns (c: Id)
    requires Forest(objs, height) && y in objs && y != x && AncestorOrSelf(objs, height, x, y)
    ensures c in objs && objs[c].parent == Some(x) && AncestorOrSelf(objs, height, c, y)
    decreases Above(height, y)
  {
    var p := objs[y].parent.value;
    if p == x {
      c := y;
    } else {
      AboveShrinks(height, y, p);
      c := ChildOnPath(objs, height, x, p);
      assert AncestorOrSelf(objs, height, p, y);
      AncestorTransitive(objs, height, c, p, y);
    }
  }

  lemma {:induction false} InDescendantsFrom(objs: map<Id, Obj>, order: seq<Id>, height: map<Id, nat>, x: Id, cs: seq<Id>, c: Id, y: Id)
    requires Forest(objs, height) && x in objs
    requires forall c' :: c' in cs ==> c' in objs && objs[c'].parent == Some(x)
    requires c in cs && (y == c || y in Descendants(objs, order, height, c))
    ensures y in DescendantsFrom(objs, order, height, x, cs)
    decreases |cs|
  {
    if cs[0] != c {
      InDescendantsFrom(objs, order, height, x, cs[1..], c, y);
    }
  }

  /** Every proper descendant of `x` in the scene is reached by the walk below `x`. */
  lemma {:induction false} DescendantsComplete(objs: map<Id, Obj>, order: seq<Id>, height: map<Id, nat>, x: Id, y: Id)
    requires Forest(objs, height) && (forall z :: z in objs ==> z in order)
    requires x in objs && y in objs && y != x && AncestorOrSelf(objs, height, x, y)
    ensures y in Descendants(objs, order, height, x)
    decreases height[x]
  {
    var c := ChildOnPath(objs, height, x, y);
    var cs := ChildrenOf(objs, order, x);
    if y != c {
      DescendantsComplete(objs, order, height, c, y);
    }
    InDescendantsFrom(objs, order, height, x, cs, c, y);
  }

  /** Two children of one parent with a common descendant-or-self are the same child. */
  lemma SiblingsDisjoint(objs: map<Id, Obj>, height: map<Id, nat>, x: Id, c: Id, d: Id, y: Id)
    requires Forest(objs, height) && c in objs && d in objs && y in objs
    requires objs[c].parent == Some(x) && objs[d].parent == Some(x)
    requires AncestorOrSelf(objs, height, c, y) && AncestorOrSelf(objs, height, d, y)
    ensures c == d
  {
    AncestorsComparable(objs, height, c, d, y);
    if AncestorOrSelf(objs, height, c, d) {
      AncestorIsHigher(objs, height, c, d);
      if c != d {
        AncestorIsHigher(objs, height, c, x);
      }
    } else {
      AncestorIsHigher(objs, height, d, c);
      if c != d {
        AncestorIsHigher(objs, height, d, x);
      }
    }
  }

  lemma NoDupAppend(a: seq<Id>, b: seq<Id>)
    requires NoDup(a) && NoDup(b) && forall y :: y in a ==> y !in b
    ensures NoDup(a + b)
  {
    forall i, j | 0 <= i < j < |a + b|
      ensures (a + b)[i] != (a + b)[j]
    {
      if j < |a| {
      } else if i >= |a| {
        assert (a + b)[i] == b[i - |a|] && (a + b)[j] == b[j - |a|];
      } else {
        assert (a + b)[i] in a && (a + b)[j] in b;
      }
    }
  }

  /** The walk below `x` never yields an object twice, so `_get_children` needs no duplicate check. */
  lemma {:induction false} DescendantsNoDup(objs: map<Id, Obj>, order: seq<Id>, height: map<Id, nat>, x: Id)
    requires Forest(objs, height) && NoDup(order) && x in objs
    ensures NoDup(Descendants(objs, order, height, x))
    decreases height[x], 1, 0
  {
    DescendantsFromNoDup(objs, order, height, x, ChildrenOf(objs, order, x));
  }

  lemma {:induction false} DescendantsFromNoDup(objs: map<Id, Obj>, order: seq<Id>, height: map<Id, nat>, x: Id, cs: seq<Id>)
    requires Forest(objs, height) && NoDup(order) && x in objs && NoDup(cs)
    requires forall c :: c in cs ==> c in objs && objs[c].parent == Some(x)
    ensures NoDup(DescendantsFrom(objs, order, height, x, cs))
    decreases height[x], 0, |cs|
  {
    if cs != [] {
      var c := cs[0];
      var below := Descendants(objs, order, height, c);
      var rest := DescendantsFrom(objs, order, height, x, cs[1..]);
      assert NoDup(cs[1..]) by {
        forall i, j | 0 <= i < j < |cs[1..]| ensures cs[1..][i] != cs[1..][j] {
          assert cs[1..][i] == cs[i + 1] && cs[1..][j] == cs[j + 1];
        }
      }
      DescendantsNoDup(objs, order, height, c);
      DescendantsFromNoDup(objs, order, height, x, cs[1..]);
      forall y | y in below ensures y != c {
        DescendantsSound(objs, order, height, c, y);
      }
      forall y | y in [c] + below ensures y !in rest {
        if y in rest {
          DescendantsFromSound(objs, order, height, x, cs[1..], y);
          var i :| 0 <= i < |cs[1..]| && AncestorOrSelf(objs, height, cs[1..][i], y);
          assert cs[1..][i] == cs[i + 1] != c;
          if y != c {
            DescendantsSound(objs, order, height, c, y);
          }
          SiblingsDisjoint(objs, height, x, c, cs[i + 1], y);
        }
      }
      NoDupAppend([c], below);
      NoDupAppend([c] + below, rest);
    }
  }

  /** The tree below a root `r` is exactly the set of objects whose root is `r`. */
  lemma InTreeOfRoot(objs: map<Id, Obj>, order: seq<Id>, height: map<Id, nat>, r: Id, y: Id)
    requires Forest(objs, height) && (forall z :: z in objs ==> z in order)
    requires r in objs && objs[r].parent.None? && y in objs
    ensures y in Descendants(objs, order, height, r) <==> y != r && Root(objs, height, y) == r
  {
    if y in Descendants(objs, order, height, r) {
      DescendantsSound(objs, order, height, r, y);
      RootIsUnique(objs, height, r, y);
    }
    if y != r && Root(objs, height, y) == r {
      DescendantsComplete(objs, order, height, r, y);
    }
  }
}
