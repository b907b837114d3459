/** Quadro::withAllChildren (Util.cpp): a pre-order walk that hands every
    object below the root to a callback. The QObject ownership tree is a
    finite tree of values; the callback is modelled by the sequence of
    objects it receives. Within a tree an object is identified by its path:
    the child indices leading to it from the root, [] being the root. */
module Traversal {

  /** A QObject and the objects it owns, in children() order. Its identity
      is its path from the root; id only tells apart objects of the same
      shape. */
  datatype Object = Object(id: nat, children: seq<Object>)

  type Path = seq<nat>

  /** The objects withAllChildren(obj, f) passes to f, in call order. */
  function Visits(obj: Object): seq<Object>
    decreases obj
  {
    VisitsAll(obj.children)
  }

  /** The calls made by the loop over the children cs: for each child, the
      child itself, then everything below it. */
  function VisitsAll(cs: seq<Object>): seq<Object>
    decreases cs
  {
    if cs == [] then []
    else
      var last := cs[|cs| - 1];
      VisitsAll(cs[..|cs| - 1]) + [last] + Visits(last)
  }

  /** withAllChildren with the callback's calls recorded in order. */
  method WithAllChildren(obj: Object) returns (visited: seq<Object>)
    ensures visited == Visits(obj)
    decreases obj
  {
    visited := [];
    for i := 0 to |obj.children|
      invariant visited == VisitsAll(obj.children[..i])
    {
      var child := obj.children[i];
      visited := visited + [child];
      var below := WithAllChildren(child);
      visited := visited + below;
      assert obj.children[..i + 1][..i] == obj.children[..i];
    }
    assert obj.children[..|obj.children|] == obj.children;
  }

  /** The number of objects in a tree. */
  function Size(obj: Object): nat
    decreases obj
  {
    1 + ForestSize(obj.children)
  }

  function ForestSize(cs: seq<Object>): nat
    decreases cs
  {
    if cs == [] then 0 else ForestSize(cs[..|cs| - 1]) + Size(cs[|cs| - 1])
  }

  /** The loop over cs makes one call per object in the forest, and every
      object it passes is no larger than the forest. */
  lemma {:induction false} VisitsAllCount(cs: seq<Object>)
    ensures |VisitsAll(cs)| == ForestSize(cs)
    ensures forall x :: x in VisitsAll(cs) ==> Size(x) <= ForestSize(cs)
    decreases cs
  {
    if cs != [] {
      var n := |cs| - 1;
      VisitsAllCount(cs[..n]);
      VisitsAllCount(cs[n].children);
    }
  }

  /** f is called once for each object of the tree except the root, and
      never with the root itself. */
  lemma VisitCountAndRoot(obj: Object)
    ensures |Visits(obj)| == Size(obj) - 1
    ensures obj !in Visits(obj)
  {
    VisitsAllCount(obj.children);
  }

  // Paths

  /** Whether p leads from a forest cs (the children of some object) to an
      object in it; [] leads to the owner of cs. */
  predicate ValidPath(cs: seq<Object>, p: Path)
    decreases p
  {
    p == [] || (p[0] < |cs| && ValidPath(cs[p[0]].children, p[1..]))
  }

  /** The object a non-empty valid path leads to. */
  function At(cs: seq<Object>, p: Path): Object
    requires p != [] && ValidPath(cs, p)
    decreases p
  {
    if |p| == 1 then cs[p[0]] else At(cs[p[0]].children, p[1..])
  }

  /** Paths with i put in front: the paths below the i-th child. */
  function Below(i: nat, ps: seq<Path>): seq<Path> {
    seq(|ps|, k requires 0 <= k < |ps| => [i] + ps[k])
  }

  /** The path of each object in VisitsAll(cs), position by position. */
  function PathsAll(cs: seq<Object>): seq<Path>
    decreases cs
  {
    if cs == [] then []
    else
      var n := |cs| - 1;
      PathsAll(cs[..n]) + [[n]] + Below(n, PathsAll(cs[n].children))
  }

  /** Pre-order on paths: a path comes before every path that extends it,
      and otherwise the one with the smaller index at the first difference
      comes first. */
  predicate Before(p: Path, q: Path)
    decreases p
  {
    if p == [] then q != []
    else q != [] && (p[0] < q[0] || (p[0] == q[0] && Before(p[1..], q[1..])))
  }

  predicate IsProperPrefix(p: Path, q: Path) {
    |p| < |q| && q[..|p|] == p
  }

  /** A sequence of paths strictly increasing in pre-order. */
  predicate InPreorder(ps: seq<Path>) {
    forall j, k :: 0 <= j < k < |ps| ==> Before(ps[j], ps[k])
  }

  // Facts about pre-order

  lemma {:induction false} BeforeIrreflexive(p: Path)
    ensures !Before(p, p)
    decreases p
  {
    if p != [] {
      BeforeIrreflexive(p[1..]);
    }
  }

  lemma {:induction false} BeforeAsymmetric(p: Path, q: Path)
    ensures Before(p, q) ==> !Before(q, p)
    decreases p
  {
    if p != [] && q != [] && p[0] == q[0] {
      BeforeAsymmetric(p[1..], q[1..]);
    }
  }

  /** A proper prefix comes before the paths extending it. */
  lemma {:induction false} PrefixBefore(p: Path, q: Path)
    requires IsProperPrefix(p, q)
    ensures Before(p, q)
    decreases p
  {
    if p != [] {
      assert q[1..][..|p[1..]|] == p[1..];
      PrefixBefore(p[1..], q[1..]);
    }
  }

  /** Of two siblings, the one with the smaller index comes first. */
  lemma {:induction false} SiblingBefore(p: Path, a: nat, b: nat)
    requires a < b
    ensures Before(p + [a], p + [b])
    decreases p
  {
    if p != [] {
      assert (p + [a])[1..] == p[1..] + [a];
      assert (p + [b])[1..] == p[1..] + [b];
      SiblingBefore(p[1..], a, b);
    }
  }

  lemma ConcatInPreorder(xs: seq<Path>, ys: seq<Path>)
    requires InPreorder(xs) && InPreorder(ys)
    requires forall j, k :: 0 <= j < |xs| && 0 <= k < |ys| ==> Before(xs[j], ys[k])
    ensures InPreorder(xs + ys)
  {
  }

  /** A sequence in pre-order holds no path twice. */
  lemma PreorderDistinct(ps: seq<Path>)
    requires InPreorder(ps)
    ensures forall j, k :: 0 <= j < k < |ps| ==> ps[j] != ps[k]
  {
    forall j, k | 0 <= j < k < |ps| ensures ps[j] != ps[k] {
      BeforeIrreflexive(ps[j]);
    }
  }

  lemma BelowInPreorder(i: nat, ps: seq<Path>)
    requires InPreorder(ps)
    ensures InPreorder(Below(i, ps))
  {
  }

  // Facts about PathsAll

  /** The paths are valid, not the root's, as many as the visits, and each
      leads to the object visited at that position. */
  lemma {:induction false} PathsMatchVisits(cs: seq<Object>)
    ensures |PathsAll(cs)| == |VisitsAll(cs)|
    ensures forall k :: 0 <= k < |PathsAll(cs)| ==>
      PathsAll(cs)[k] != [] && ValidPath(cs, PathsAll(cs)[k]) &&
      At(cs, PathsAll(cs)[k]) == VisitsAll(cs)[k]
    decreases cs
  {
    if cs != [] {
      var n := |cs| - 1;
      var init, last := cs[..n], cs[n];
      PathsMatchVisits(init);
      PathsMatchVisits(last.children);
      var left := PathsAll(init);
      var inner := PathsAll(last.children);
      var ps := PathsAll(cs);
      var vs := VisitsAll(cs);
      assert ps == left + [[n]] + Below(n, inner);
      assert vs == VisitsAll(init) + [last] + Visits(last);
      forall k | 0 <= k < |ps|
        ensures ps[k] != [] && ValidPath(cs, ps[k]) && At(cs, ps[k]) == vs[k]
      {
        if k < |left| {
          ForestPrefixPath(cs, n, left[k]);
          assert ps[k] == left[k] && vs[k] == VisitsAll(init)[k];
        } else if k == |left| {
          assert ps[k] == [n];
          assert ValidPath(cs[n].children, [n][1..]);
        } else {
          var m := k - |left| - 1;
          assert ps[k] == [n] + inner[m];
          assert vs[k] == Visits(last)[m];
          assert ([n] + inner[m])[1..] == inner[m];
        }
      }
    }
  }

  /** A path into the first n trees of a forest leads to the same object in
      the whole forest. */
  lemma ForestPrefixPath(cs: seq<Object>, n: nat, p: Path)
    requires n <= |cs| && p != [] && ValidPath(cs[..n], p)
    ensures ValidPath(cs, p) && At(cs, p) == At(cs[..n], p)
  {
  }

  /** Every object below the owner of cs has its path among PathsAll(cs). */
  lemma {:induction false} PathsComplete(cs: seq<Object>, p: Path)
    requires p != [] && ValidPath(cs, p)
    ensures p in PathsAll(cs)
    decreases cs
  {
    var n := |cs| - 1;
    var init, last := cs[..n], cs[n];
    assert PathsAll(cs) == PathsAll(init) + [[n]] + Below(n, PathsAll(last.children));
    if p[0] < n {
      assert ValidPath(init, p);
      PathsComplete(init, p);
    } else if p != [n] {
      var rest := p[1..];
      assert rest != [];
      PathsComplete(last.children, rest);
      var m :| 0 <= m < |PathsAll(last.children)| && PathsAll(last.children)[m] == rest;
      assert Below(n, PathsAll(last.children))[m] == p;
    }
  }

  /** PathsAll lists the paths in pre-order, and so lists no path twice. */
  lemma {:induction false} PathsInPreorder(cs: seq<Object>)
    ensures InPreorder(PathsAll(cs))
    ensures forall k :: 0 <= k < |PathsAll(cs)| ==> |PathsAll(cs)[k]| > 0 && PathsAll(cs)[k][0] < |cs|
    decreases cs
  {
    if cs != [] {
      var n := |cs| - 1;
      var init, last := cs[..n], cs[n];
      PathsInPreorder(init);
      PathsInPreorder(last.children);
      PathsMatchVisits(last.children);
      var left := PathsAll(init);
      var inner := Below(n, PathsAll(last.children));
      BelowInPreorder(n, PathsAll(last.children));
      assert InPreorder([[n]]);
      forall k | 0 <= k < |inner| ensures Before([n], inner[k]) {
        PrefixBefore([n], inner[k]);
      }
      ConcatInPreorder([[n]], inner);
      forall j, k | 0 <= j < |left| && 0 <= k < |[[n]] + inner|
        ensures Before(left[j], ([[n]] + inner)[k])
      {
        assert left[j][0] < n;
        if k > 0 {
          assert ([[n]] + inner)[k] == inner[k - 1];
        }
      }
      ConcatInPreorder(left, [[n]] + inner);
      assert PathsAll(cs) == left + ([[n]] + inner);
    }
  }

  // What withAllChildren guarantees

  /** f is called once per object below obj: the calls correspond one to
      one to the paths of those objects, and the root (path []) gets none. */
  lemma VisitsExactlyDescendants(obj: Object)
    ensures |PathsAll(obj.children)| == |Visits(obj)|
    ensures forall p :: p in PathsAll(obj.children) <==> p != [] && ValidPath(obj.children, p)
    ensures forall k :: 0 <= k < |Visits(obj)| ==>
      PathsAll(obj.children)[k] != [] && ValidPath(obj.children, PathsAll(obj.children)[k]) &&
      Visits(obj)[k] == At(obj.children, PathsAll(obj.children)[k])
    ensures forall j, k :: 0 <= j < k < |Visits(obj)| ==>
      PathsAll(obj.children)[j] != PathsAll(obj.children)[k]
  {
    var cs := obj.children;
    var ps := PathsAll(cs);
    PathsMatchVisits(cs);
    PathsInPreorder(cs);
    forall p ensures p in ps <==> p != [] && ValidPath(cs, p) {
      if p != [] && ValidPath(cs, p) {
        PathsComplete(cs, p);
      }
    }
    PreorderDistinct(ps);
  }

  /** Every object is visited before the objects below it. */
  lemma ParentBeforeChildren(obj: Object, j: nat, k: nat)
    requires j < |PathsAll(obj.children)| && k < |PathsAll(obj.children)|
    requires IsProperPrefix(PathsAll(obj.children)[j], PathsAll(obj.children)[k])
    ensures j < k
  {
    var ps := PathsAll(obj.children);
    PathsInPreorder(obj.children);
    PrefixBefore(ps[j], ps[k]);
    if k < j {
      BeforeAsymmetric(ps[k], ps[j]);
    }
  }

  /** Siblings are visited in children() order. */
  lemma SiblingsInOrder(obj: Object, j: nat, k: nat, p: Path, a: nat, b: nat)
    requires j < |PathsAll(obj.children)| && k < |PathsAll(obj.children)|
    requires PathsAll(obj.children)[j] == p + [a] && PathsAll(obj.children)[k] == p + [b]
    requires a < b
    ensures j < k
  {
    var ps := PathsAll(obj.children);
    PathsInPreorder(obj.children);
    SiblingBefore(p, a, b);
    assert ps[j][|p|] == a && ps[k][|p|] == b;
    if k < j {
      BeforeAsymmetric(ps[k], ps[j]);
    }
  }
}
