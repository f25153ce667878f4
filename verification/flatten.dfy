/**
 * Scene flattening: the shapes found in the scene are sorted by operation, and each is
 * followed by its run of ShapeObject descendants, depth first in child-index order,
 * following only direct children that carry a ShapeObject. There is no check for nodes
 * already emitted, so a shape nested under a shape is emitted once for itself and once
 * more inside the run of every ShapeObject ancestor it reaches by climbing through
 * ShapeObjects.
 */
module Flattening {
  import opened Wrappers
  import opened Vectors
  import opened Hierarchy
  import opened ShapeObjects

  /** The operation ordinal of a shape node. */
  function Op(g: Graph, n: nat): nat
    requires n < |g.nodes| && IsShape(g, n)
  {
    g.nodes[n].component.value.operation
  }

  ghost predicate AllShapes(g: Graph, xs: seq<nat>)
  {
    forall k :: 0 <= k < |xs| ==> xs[k] < |g.nodes| && IsShape(g, xs[k])
  }

  ghost predicate SortedByOp(g: Graph, xs: seq<nat>)
    requires AllShapes(g, xs)
  {
    forall i, j :: 0 <= i < j < |xs| ==> Op(g, xs[i]) <= Op(g, xs[j])
  }

  /** The result of FindObjectsOfType<ShapeObject>(): every shape node exactly once, in an
      order the engine chooses, and nothing else. */
  ghost predicate IsDiscovery(g: Graph, found: seq<nat>)
  {
    forall n: nat :: multiset(found)[n] == if n < |g.nodes| && IsShape(g, n) then 1 else 0
  }

  lemma DiscoveryFacts(g: Graph, found: seq<nat>)
    requires IsDiscovery(g, found)
    ensures AllShapes(g, found)
  {
    forall k | 0 <= k < |found|
      ensures found[k] < |g.nodes| && IsShape(g, found[k])
    {
      assert multiset(found)[found[k]] > 0;
    }
  }

  /** Every shape node is among those found. */
  lemma DiscoveryFinds(g: Graph, found: seq<nat>, n: nat)
    requires IsDiscovery(g, found) && n < |g.nodes| && IsShape(g, n)
    ensures n in found
  {
    assert multiset(found)[n] == 1;
  }

  /** Inserts x after the entries with a smaller or equal operation. */
  function Insert(g: Graph, x: nat, s: seq<nat>): (r: seq<nat>)
    requires x < |g.nodes| && IsShape(g, x) && AllShapes(g, s)
    ensures |r| == |s| + 1 && AllShapes(g, r)
  {
    if s == [] then [x]
    else if Op(g, x) <= Op(g, s[0]) then [x] + s
    else
      assert s == [s[0]] + s[1..];
      [s[0]] + Insert(g, x, s[1..])
  }

  /** Insertion adds exactly x. */
  lemma {:induction false} InsertPermutes(g: Graph, x: nat, s: seq<nat>)
    requires x < |g.nodes| && IsShape(g, x) && AllShapes(g, s)
    ensures multiset(Insert(g, x, s)) == multiset(s) + multiset{x}
  {
    if s != [] && Op(g, x) > Op(g, s[0]) {
      assert s == [s[0]] + s[1..];
      InsertPermutes(g, x, s[1..]);
    }
  }

  /** Insertion keeps a sorted list sorted. */
  lemma {:induction false} InsertSorted(g: Graph, x: nat, s: seq<nat>)
    requires x < |g.nodes| && IsShape(g, x) && AllShapes(g, s) && SortedByOp(g, s)
    ensures SortedByOp(g, Insert(g, x, s))
  {
    var r := Insert(g, x, s);
    if s != [] && Op(g, x) > Op(g, s[0]) {
      var tail := s[1..];
      InsertSorted(g, x, tail);
      InsertPermutes(g, x, tail);
      var rt := Insert(g, x, tail);
      assert r == [s[0]] + rt;
      forall k | 0 <= k < |rt|
        ensures Op(g, s[0]) <= Op(g, rt[k])
      {
        if rt[k] != x {
          assert rt[k] in multiset(rt);
          var j :| 0 <= j < |tail| && tail[j] == rt[k];
          assert s[j + 1] == rt[k];
        }
      }
    }
  }

  /** The model of `allShapes.Sort((a, b) => a.Operation.CompareTo(b.Operation))`, by
      insertion; SortByOperationSorts states what is promised of it. */
  function SortByOperation(g: Graph, xs: seq<nat>): (r: seq<nat>)
    requires AllShapes(g, xs)
    ensures |r| == |xs| && AllShapes(g, r)
  {
    if xs == [] then []
    else Insert(g, xs[0], SortByOperation(g, xs[1..]))
  }

  /** The sorted list is a permutation of the found shapes in non-decreasing operation
      order. Which of several equal-operation orders the engine's sort picks is not
      promised. */
  lemma {:induction false} SortByOperationSorts(g: Graph, xs: seq<nat>)
    requires AllShapes(g, xs)
    ensures multiset(SortByOperation(g, xs)) == multiset(xs)
    ensures SortedByOp(g, SortByOperation(g, xs))
  {
    if xs != [] {
      assert xs == [xs[0]] + xs[1..];
      var rest := SortByOperation(g, xs[1..]);
      SortByOperationSorts(g, xs[1..]);
      InsertPermutes(g, xs[0], rest);
      InsertSorted(g, xs[0], rest);
    }
  }

  /** What AddChildShape appends to the list after node n itself: for each of the first k
      direct children in child-index order, if it carries a ShapeObject, its run. */
  function ChildRuns(g: Graph, n: nat, k: nat): (r: seq<nat>)
    requires Hierarchy.Valid(g) && n < |g.nodes| && k <= |g.nodes[n].children|
    ensures forall j :: 0 <= j < |r| ==> r[j] < |g.nodes| && IsShape(g, r[j])
    decreases |g.nodes| - g.depth[n], 0, k
  {
    if k == 0 then []
    else
      var c := g.nodes[n].children[k - 1];
      ChildFacts(g, n, k - 1);
      ChildRuns(g, n, k - 1) + (if IsShape(g, c) then Run(g, c) else [])
  }

  /** The run of node n: n, then the runs of its ShapeObject children. */
  function Run(g: Graph, n: nat): (r: seq<nat>)
    requires Hierarchy.Valid(g) && n < |g.nodes|
    ensures |r| >= 1 && r[0] == n
    ensures forall j :: 0 <= j < |r| ==> r[j] < |g.nodes|
    ensures forall j :: 1 <= j < |r| ==> IsShape(g, r[j])
    decreases |g.nodes| - g.depth[n], 1, 0
  {
    [n] + ChildRuns(g, n, |g.nodes[n].children|)
  }

  /** The ordered list built by CreateScene from the sorted shapes. */
  function Flatten(g: Graph, xs: seq<nat>): (r: seq<nat>)
    requires Hierarchy.Valid(g) && forall k :: 0 <= k < |xs| ==> xs[k] < |g.nodes|
    ensures forall j :: 0 <= j < |r| ==> r[j] < |g.nodes|
    ensures AllShapes(g, xs) ==> AllShapes(g, r)
  {
    if xs == [] then [] else Flatten(g, xs[..|xs| - 1]) + Run(g, xs[|xs| - 1])
  }

  /** The component states after `childCount = transform.childCount` has been written, in
      order, for every node of ms (what each node then holds is StampAt). */
  function Stamp(g: Graph, os: seq<ShapeState>, ms: seq<nat>): (r: seq<ShapeState>)
    requires |os| == |g.nodes| && forall k :: 0 <= k < |ms| ==> ms[k] < |g.nodes|
    ensures |r| == |os|
  {
    if ms == [] then os
    else
      var last := ms[|ms| - 1];
      assert ms == ms[..|ms| - 1] + [last];
      var before := Stamp(g, os, ms[..|ms| - 1]);
      before[last := before[last].(childCount := |g.nodes[last].children|)]
  }

  /** After the writes, each node of ms holds its total number of direct children,
      ShapeObject or not, and every other node is as it was. */
  lemma {:induction false} StampAt(g: Graph, os: seq<ShapeState>, ms: seq<nat>, m: nat)
    requires |os| == |g.nodes| && forall k :: 0 <= k < |ms| ==> ms[k] < |g.nodes|
    requires m < |os|
    ensures Stamp(g, os, ms)[m] == if m in ms then os[m].(childCount := |g.nodes[m].children|) else os[m]
    decreases |ms|
  {
    if ms != [] {
      var init := ms[..|ms| - 1];
      assert ms == init + [ms[|ms| - 1]];
      StampAt(g, os, init, m);
    }
  }

  /** Writing counts for a then for b is writing them for a + b. */
  lemma StampAppend(g: Graph, os: seq<ShapeState>, a: seq<nat>, b: seq<nat>)
    requires |os| == |g.nodes|
    requires forall k :: 0 <= k < |a| ==> a[k] < |g.nodes|
    requires forall k :: 0 <= k < |b| ==> b[k] < |g.nodes|
    ensures Stamp(g, Stamp(g, os, a), b) == Stamp(g, os, a + b)
  {
    var l, r := Stamp(g, Stamp(g, os, a), b), Stamp(g, os, a + b);
    forall m | 0 <= m < |os|
      ensures l[m] == r[m]
    {
      StampAt(g, Stamp(g, os, a), b, m);
      StampAt(g, os, a, m);
      StampAt(g, os, a + b, m);
      assert m in a + b <==> m in a || m in b;
    }
  }

  /** Node n's ShapeObject children among the first k. */
  function ShapeChildCount(g: Graph, n: nat, k: nat): (c: nat)
    requires Hierarchy.Valid(g) && n < |g.nodes| && k <= |g.nodes[n].children|
  {
    if k == 0 then 0
    else
      ChildFacts(g, n, k - 1);
      ShapeChildCount(g, n, k - 1) + (if IsShape(g, g.nodes[n].children[k - 1]) then 1 else 0)
  }

  /** The written childCount counts every direct child: it is at least the number of
      ShapeObject children, and equal to it exactly when every child is one. */
  lemma {:induction false} ChildCountCoversShapeChildren(g: Graph, n: nat, k: nat)
    requires Hierarchy.Valid(g) && n < |g.nodes| && k <= |g.nodes[n].children|
    ensures ShapeChildCount(g, n, k) <= k
    ensures ShapeChildCount(g, n, k) == k <==>
      forall i :: 0 <= i < k ==> IsShape(g, g.nodes[n].children[i])
  {
    if k > 0 {
      ChildCountCoversShapeChildren(g, n, k - 1);
      ChildFacts(g, n, k - 1);
    }
  }

  /** Some ShapeObject child among the first k climbs to m's target, i.e. m lies in its run. */
  ghost predicate ClimbsViaChildren(g: Graph, n: nat, k: nat, m: nat)
    requires Hierarchy.Valid(g) && n < |g.nodes| && k <= |g.nodes[n].children| && m < |g.nodes|
  {
    exists i :: 0 <= i < k && IsShape(g, g.nodes[n].children[i]) && ClimbsTo(g, m, g.nodes[n].children[i])
  }

  /** At most one ShapeObject child's run can hold m. */
  lemma OneChildRunHolds(g: Graph, n: nat, k: nat, m: nat)
    requires Hierarchy.Valid(g) && n < |g.nodes| && 0 < k <= |g.nodes[n].children| && m < |g.nodes|
    requires ClimbsViaChildren(g, n, k - 1, m)
    ensures !ClimbsTo(g, m, g.nodes[n].children[k - 1])
  {
    var c := g.nodes[n].children[k - 1];
    var i :| 0 <= i < k - 1 && IsShape(g, g.nodes[n].children[i]) && ClimbsTo(g, m, g.nodes[n].children[i]);
    ChildFacts(g, n, k - 1);
    if ClimbsTo(g, m, c) {
      ClimbsLinear(g, m, g.nodes[n].children[i], c);
      SiblingsApart(g, n, i, k - 1);
      SiblingsApart(g, n, k - 1, i);
    }
  }

  /** Widening the window by child k - 1 adds exactly that child's own climb. */
  lemma ClimbsViaChildrenStep(g: Graph, n: nat, k: nat, m: nat)
    requires Hierarchy.Valid(g) && n < |g.nodes| && 0 < k <= |g.nodes[n].children| && m < |g.nodes|
    ensures var c := g.nodes[n].children[k - 1];
      c < |g.nodes| &&
      (ClimbsViaChildren(g, n, k, m) <==>
         ClimbsViaChildren(g, n, k - 1, m) || (IsShape(g, c) && ClimbsTo(g, m, c)))
  {
    ChildFacts(g, n, k - 1);
    if ClimbsViaChildren(g, n, k, m) && !ClimbsViaChildren(g, n, k - 1, m) {
      var i :| 0 <= i < k && IsShape(g, g.nodes[n].children[i]) && ClimbsTo(g, m, g.nodes[n].children[i]);
      assert i == k - 1;
    }
  }

  lemma {:induction false} ChildRunsCount(g: Graph, n: nat, k: nat, m: nat)
    requires Hierarchy.Valid(g) && n < |g.nodes| && k <= |g.nodes[n].children| && m < |g.nodes|
    ensures multiset(ChildRuns(g, n, k))[m] == if ClimbsViaChildren(g, n, k, m) then 1 else 0
    decreases |g.nodes| - g.depth[n], 0, k
  {
    if k > 0 {
      var c := g.nodes[n].children[k - 1];
      ChildFacts(g, n, k - 1);
      ChildRunsCount(g, n, k - 1, m);
      ClimbsViaChildrenStep(g, n, k, m);
      if ClimbsViaChildren(g, n, k - 1, m) {
        OneChildRunHolds(g, n, k, m);
      }
      var before := ChildRuns(g, n, k - 1);
      if IsShape(g, c) {
        RunCount(g, c, m);
        assert ChildRuns(g, n, k) == before + Run(g, c);
        assert multiset(ChildRuns(g, n, k)) == multiset(before) + multiset(Run(g, c));
      } else {
        assert ChildRuns(g, n, k) == before;
      }
    }
  }

  /** Node m occurs in the run of n exactly once if climbing from m through ShapeObjects
      reaches n, and not at all otherwise: a run never repeats a node, and never enters the
      subtree of a child without a ShapeObject. */
  lemma {:induction false} RunCount(g: Graph, n: nat, m: nat)
    requires Hierarchy.Valid(g) && n < |g.nodes| && m < |g.nodes|
    ensures multiset(Run(g, n))[m] == if ClimbsTo(g, m, n) then 1 else 0
    decreases |g.nodes| - g.depth[n], 1, 0
  {
    var kids := |g.nodes[n].children|;
    ChildRunsCount(g, n, kids, m);
    assert Run(g, n) == [n] + ChildRuns(g, n, kids);
    if m == n {
      if ClimbsViaChildren(g, n, kids, m) {
        var i :| 0 <= i < kids && IsShape(g, g.nodes[n].children[i]) && ClimbsTo(g, m, g.nodes[n].children[i]);
        ChildFacts(g, n, i);
        ClimbsNotDown(g, n, g.nodes[n].children[i]);
      }
    } else {
      if ClimbsTo(g, m, n) {
        var i := ClimbsViaChild(g, m, n);
      }
      if ClimbsViaChildren(g, n, kids, m) {
        var i :| 0 <= i < kids && IsShape(g, g.nodes[n].children[i]) && ClimbsTo(g, m, g.nodes[n].children[i]);
        ChildFacts(g, n, i);
        ClimbsThroughChild(g, m, g.nodes[n].children[i], n);
      }
    }
  }

  /** Membership in a run, stated independently of how the run is built. */
  lemma RunMembers(g: Graph, n: nat, m: nat)
    requires Hierarchy.Valid(g) && n < |g.nodes| && m < |g.nodes|
    ensures m in Run(g, n) <==> ClimbsTo(g, m, n)
  {
    RunCount(g, n, m);
  }

  lemma {:induction false} ChildRunsLength(g: Graph, n: nat, k: nat)
    requires Hierarchy.Valid(g) && n < |g.nodes| && k <= |g.nodes[n].children|
    ensures |ChildRuns(g, n, k)| >= ShapeChildCount(g, n, k)
    ensures |ChildRuns(g, n, k)| == 0 <==> ShapeChildCount(g, n, k) == 0
    decreases k
  {
    if k > 0 {
      ChildFacts(g, n, k - 1);
      ChildRunsLength(g, n, k - 1);
    }
  }

  /** A run is one node long exactly when the node has no ShapeObject child. */
  lemma RunLength(g: Graph, n: nat)
    requires Hierarchy.Valid(g) && n < |g.nodes|
    ensures |Run(g, n)| >= 1 + ShapeChildCount(g, n, |g.nodes[n].children|)
    ensures |Run(g, n)| == 1 <==> ShapeChildCount(g, n, |g.nodes[n].children|) == 0
  {
    ChildRunsLength(g, n, |g.nodes[n].children|);
  }

  /** Entries of xs whose run holds m. */
  ghost function RunsThrough(g: Graph, xs: seq<nat>, m: nat): nat
    requires Hierarchy.Valid(g) && m < |g.nodes| && forall k :: 0 <= k < |xs| ==> xs[k] < |g.nodes|
  {
    if xs == [] then 0
    else RunsThrough(g, xs[..|xs| - 1], m) + (if ClimbsTo(g, m, xs[|xs| - 1]) then 1 else 0)
  }

  /** Node m occurs in the flattened list once for every listed shape it climbs to. */
  lemma {:induction false} FlattenCount(g: Graph, xs: seq<nat>, m: nat)
    requires Hierarchy.Valid(g) && m < |g.nodes| && forall k :: 0 <= k < |xs| ==> xs[k] < |g.nodes|
    ensures multiset(Flatten(g, xs))[m] == RunsThrough(g, xs, m)
    decreases |xs|
  {
    if xs != [] {
      FlattenCount(g, xs[..|xs| - 1], m);
      RunCount(g, xs[|xs| - 1], m);
    }
  }

  lemma {:induction false} RunsThroughAtLeast(g: Graph, xs: seq<nat>, m: nat, i: nat, j: nat)
    requires Hierarchy.Valid(g) && m < |g.nodes| && forall k :: 0 <= k < |xs| ==> xs[k] < |g.nodes|
    requires i < |xs| && j < |xs| && ClimbsTo(g, m, xs[i]) && ClimbsTo(g, m, xs[j])
    ensures RunsThrough(g, xs, m) >= if i == j then 1 else 2
    decreases |xs|
  {
    var last := |xs| - 1;
    var init := xs[..last];
    if i < last && j < last {
      RunsThroughAtLeast(g, init, m, i, j);
    } else if i < last {
      RunsThroughAtLeast(g, init, m, i, i);
    } else if j < last {
      RunsThroughAtLeast(g, init, m, j, j);
    }
  }

  lemma {:induction false} RunsThroughOwnOnly(g: Graph, xs: seq<nat>, m: nat)
    requires Hierarchy.Valid(g) && m < |g.nodes| && forall k :: 0 <= k < |xs| ==> xs[k] < |g.nodes|
    requires forall k :: 0 <= k < |xs| ==> (ClimbsTo(g, m, xs[k]) <==> xs[k] == m)
    ensures RunsThrough(g, xs, m) == multiset(xs)[m]
    decreases |xs|
  {
    if xs != [] {
      assert xs == xs[..|xs| - 1] + [xs[|xs| - 1]];
      RunsThroughOwnOnly(g, xs[..|xs| - 1], m);
    }
  }

  /** Every node of the flattened list is a shape, every found shape is in it, and a shape
      occurs once when its direct parent is not a ShapeObject and at least twice when it is. */
  lemma FlattenMultiplicity(g: Graph, xs: seq<nat>, m: nat)
    requires Hierarchy.Valid(g) && IsDiscovery(g, xs) && m < |g.nodes|
    ensures AllShapes(g, xs) && AllShapes(g, Flatten(g, xs))
    ensures IsShape(g, m) && ShapeParent(g, m) == None ==> multiset(Flatten(g, xs))[m] == 1
    ensures IsShape(g, m) && ShapeParent(g, m).Some? ==> multiset(Flatten(g, xs))[m] >= 2
    ensures !IsShape(g, m) ==> m !in Flatten(g, xs)
  {
    DiscoveryFacts(g, xs);
    FlattenCount(g, xs, m);
    forall j | 0 <= j < |Flatten(g, xs)|
      ensures IsShape(g, Flatten(g, xs)[j])
    {
      var f := Flatten(g, xs)[j];
      FlattenCount(g, xs, f);
      assert f in multiset(Flatten(g, xs));
      if !IsShape(g, f) {
        RunsThroughOwnOnly(g, xs, f);
        assert false;
      }
    }
    if IsShape(g, m) {
      DiscoveryFinds(g, xs, m);
      var i :| 0 <= i < |xs| && xs[i] == m;
      assert ClimbsTo(g, m, m);
      match ShapeParent(g, m)
      case None =>
        forall k | 0 <= k < |xs|
          ensures ClimbsTo(g, m, xs[k]) <==> xs[k] == m
        {
          ParentFacts(g, m);
        }
        RunsThroughOwnOnly(g, xs, m);
      case Some(p) =>
        DiscoveryFinds(g, xs, p);
        var j :| 0 <= j < |xs| && xs[j] == p;
        assert ClimbsTo(g, p, p);
        RunsThroughAtLeast(g, xs, m, i, j);
    } else {
      forall k | 0 <= k < |xs|
        ensures !ClimbsTo(g, m, xs[k])
      {
      }
      RunsThroughOwnOnly(g, xs, m);
    }
  }

  /** The flattened list is never shorter than the list of shapes it starts from, and has
      the same length exactly when none of them has a ShapeObject child. */
  lemma {:induction false} FlattenLength(g: Graph, xs: seq<nat>)
    requires Hierarchy.Valid(g) && forall k :: 0 <= k < |xs| ==> xs[k] < |g.nodes|
    ensures |Flatten(g, xs)| >= |xs|
    ensures |Flatten(g, xs)| == |xs| <==>
      forall k :: 0 <= k < |xs| ==> ShapeChildCount(g, xs[k], |g.nodes[xs[k]].children|) == 0
    decreases |xs|
  {
    if xs != [] {
      var init := xs[..|xs| - 1];
      FlattenLength(g, init);
      RunLength(g, xs[|xs| - 1]);
      assert forall k :: 0 <= k < |init| ==> init[k] == xs[k];
    }
  }

  /** No ShapeObject has a ShapeObject as its direct parent. */
  ghost predicate NoNesting(g: Graph)
    requires Hierarchy.Valid(g)
  {
    forall n :: 0 <= n < |g.nodes| && IsShape(g, n) ==> ShapeParent(g, n) == None
  }

  /** Flattening all found shapes adds nothing exactly when no shape is nested in a shape. */
  lemma FlattenAddsIffNested(g: Graph, xs: seq<nat>)
    requires Hierarchy.Valid(g) && IsDiscovery(g, xs)
    ensures AllShapes(g, xs)
    ensures |Flatten(g, xs)| >= |xs|
    ensures |Flatten(g, xs)| == |xs| <==> NoNesting(g)
  {
    DiscoveryFacts(g, xs);
    FlattenLength(g, xs);
    if NoNesting(g) {
      forall k | 0 <= k < |xs|
        ensures ShapeChildCount(g, xs[k], |g.nodes[xs[k]].children|) == 0
      {
        var n := xs[k];
        var kids := |g.nodes[n].children|;
        ChildCountCoversShapeChildren(g, n, kids);
        forall i | 0 <= i < kids
          ensures !IsShape(g, g.nodes[n].children[i])
        {
          ChildFacts(g, n, i);
        }
        NoShapeChildrenCount(g, n, kids);
      }
    } else {
      var n :| 0 <= n < |g.nodes| && IsShape(g, n) && ShapeParent(g, n).Some?;
      var p := ShapeParent(g, n).value;
      ParentFacts(g, n);
      var i :| 0 <= i < |g.nodes[p].children| && g.nodes[p].children[i] == n;
      DiscoveryFinds(g, xs, p);
      var k :| 0 <= k < |xs| && xs[k] == p;
      ShapeChildPositive(g, p, |g.nodes[p].children|, i);
    }
  }

  lemma {:induction false} NoShapeChildrenCount(g: Graph, n: nat, k: nat)
    requires Hierarchy.Valid(g) && n < |g.nodes| && k <= |g.nodes[n].children|
    requires forall i :: 0 <= i < k ==> !IsShape(g, g.nodes[n].children[i])
    ensures ShapeChildCount(g, n, k) == 0
    decreases k
  {
    if k > 0 {
      NoShapeChildrenCount(g, n, k - 1);
    }
  }

  lemma {:induction false} ShapeChildPositive(g: Graph, n: nat, k: nat, i: nat)
    requires Hierarchy.Valid(g) && n < |g.nodes| && i < k <= |g.nodes[n].children|
    requires IsShape(g, g.nodes[n].children[i])
    ensures ShapeChildCount(g, n, k) > 0
    decreases k
  {
    if i < k - 1 {
      ShapeChildPositive(g, n, k - 1, i);
    }
  }
}
