/**
 * The ShapeObject component's lazily cached Scale property.
 *
 * Each shape node keeps `childCount`, `_IsDirty`, `_ParentScale` and `_HasParent`; its
 * transform keeps `localScale`. The getter, when dirty, refreshes the cached parent scale
 * from the direct transform parent (recursively, and only if that parent is a ShapeObject)
 * and returns localScale * parentScale; once clean it reuses the cache. The setter is
 * ignored while a ShapeObject parent exists; otherwise it writes the scale and marks the
 * node dirty. ReadScale and WriteScale give the two accessors over values; class Scene
 * holds the same state in fields and its methods are proved equal to them.
 */
module ShapeObjects {
  import opened Wrappers
  import opened Vectors
  import opened Hierarchy

  /** The per-component fields the core writes. */
  datatype ShapeState = ShapeState(childCount: int, isDirty: bool, parentScale: Vec3, hasParent: bool)

  /** A freshly created component: dirty, `_HasParent` true, `_ParentScale` unassigned. */
  const Initial: ShapeState := ShapeState(0, true, Zero, true)

  /** Arena sizes agree. */
  ghost predicate Fits(g: Graph, ls: seq<Vec3>, os: seq<ShapeState>)
  {
    Hierarchy.Valid(g) && |ls| == |g.nodes| && |os| == |g.nodes|
  }

  datatype ScaleRead = ScaleRead(value: Vec3, states: seq<ShapeState>)

  /** The getter of ShapeObject.Scale on node n: its value and every component's state after. */
  function ReadScale(g: Graph, ls: seq<Vec3>, os: seq<ShapeState>, n: nat): (r: ScaleRead)
    requires Fits(g, ls, os) && n < |g.nodes| && IsShape(g, n)
    ensures |r.states| == |os|
    ensures !r.states[n].isDirty
    ensures forall m :: 0 <= m < |os| && !ClimbsTo(g, n, m) ==> r.states[m] == os[m]
    ensures forall m :: 0 <= m < |os| && !IsShape(g, m) ==> r.states[m] == os[m]
    ensures forall m :: 0 <= m < |os| ==> r.states[m].childCount == os[m].childCount
    ensures forall m :: 0 <= m < |os| && os[m].hasParent ==> r.states[m].hasParent
    decreases g.depth[n]
  {
    if os[n].isDirty then
      var os0 := os[n := os[n].(parentScale := One)];
      var os1 :=
        (match ShapeParent(g, n)
         case None => os0
         case Some(p) =>
           var up := ReadScale(g, ls, os0, p);
           ClimbsNotDown(g, p, n);
           up.states[n := up.states[n].(parentScale := up.value, hasParent := true)]);
      var os2 := os1[n := os1[n].(isDirty := false)];
      ScaleRead(Mul(ls[n], os2[n].parentScale), os2)
    else
      ScaleRead(Mul(ls[n], os[n].parentScale), os)
  }

  datatype ScaleWrite = ScaleWrite(localScale: seq<Vec3>, states: seq<ShapeState>)

  /** The setter of ShapeObject.Scale on node n. While `_HasParent` is set the source reads
      `transform.parent` without a null test, so a parent must exist then. */
  function WriteScale(g: Graph, ls: seq<Vec3>, os: seq<ShapeState>, n: nat, v: Vec3): (w: ScaleWrite)
    requires Fits(g, ls, os) && n < |g.nodes| && IsShape(g, n)
    requires os[n].hasParent ==> g.nodes[n].parent.Some?
    ensures |w.localScale| == |ls| && |w.states| == |os|
    ensures forall m :: 0 <= m < |os| && m != n ==> w.states[m] == os[m] && w.localScale[m] == ls[m]
    ensures os[n].hasParent && ShapeParent(g, n).Some? ==> w.localScale == ls && w.states == os
    ensures !(os[n].hasParent && ShapeParent(g, n).Some?) ==>
      && w.localScale[n] == v
      && w.states[n] == ShapeState(os[n].childCount, true, v, false)
  {
    if os[n].hasParent && ShapeParent(g, n).Some? then ScaleWrite(ls, os)
    else
      var os1 := if os[n].hasParent then os[n := os[n].(hasParent := false)] else os;
      ScaleWrite(ls[n := v], os1[n := os1[n].(isDirty := true, parentScale := v)])
  }

  /** The scale a node should have: its local scale times the effective scale of its
      ShapeObject parent, if its direct parent is one. */
  function EffectiveScale(g: Graph, ls: seq<Vec3>, n: nat): Vec3
    requires Hierarchy.Valid(g) && |ls| == |g.nodes| && n < |g.nodes|
    decreases g.depth[n]
  {
    match ShapeParent(g, n)
    case None => ls[n]
    case Some(p) => Mul(ls[n], EffectiveScale(g, ls, p))
  }

  /** What a node inherits from above: the effective scale of its ShapeObject parent, or one. */
  function InheritedScale(g: Graph, ls: seq<Vec3>, n: nat): Vec3
    requires Hierarchy.Valid(g) && |ls| == |g.nodes| && n < |g.nodes|
  {
    match ShapeParent(g, n)
    case None => One
    case Some(p) => EffectiveScale(g, ls, p)
  }

  /** Every clean component's cached parent scale is current. */
  ghost predicate Coherent(g: Graph, ls: seq<Vec3>, os: seq<ShapeState>)
    requires Fits(g, ls, os)
  {
    forall m :: 0 <= m < |os| && IsShape(g, m) && !os[m].isDirty ==>
      os[m].parentScale == InheritedScale(g, ls, m)
  }

  /** Freshly created components are all dirty, hence coherent. */
  lemma InitialCoherent(g: Graph, ls: seq<Vec3>)
    requires Hierarchy.Valid(g) && |ls| == |g.nodes|
    ensures Fits(g, ls, seq(|g.nodes|, _ => Initial))
    ensures Coherent(g, ls, seq(|g.nodes|, _ => Initial))
  {
  }

  /** On a coherent cache the getter returns the effective scale and keeps the cache coherent. */
  lemma {:induction false} ReadScaleCoherent(g: Graph, ls: seq<Vec3>, os: seq<ShapeState>, n: nat)
    requires Fits(g, ls, os) && n < |g.nodes| && IsShape(g, n) && Coherent(g, ls, os)
    ensures ReadScale(g, ls, os, n).value == EffectiveScale(g, ls, n)
    ensures Coherent(g, ls, ReadScale(g, ls, os, n).states)
    decreases g.depth[n]
  {
    if os[n].isDirty {
      var os0 := os[n := os[n].(parentScale := One)];
      assert Coherent(g, ls, os0);
      match ShapeParent(g, n)
      case None =>
      case Some(p) =>
        ReadScaleCoherent(g, ls, os0, p);
        ClimbsNotDown(g, p, n);
    }
  }

  /** Reading twice in a row: the second read returns the same value and changes nothing. */
  lemma ReadScaleTwice(g: Graph, ls: seq<Vec3>, os: seq<ShapeState>, n: nat)
    requires Fits(g, ls, os) && n < |g.nodes| && IsShape(g, n)
    ensures var first := ReadScale(g, ls, os, n);
      ReadScale(g, ls, first.states, n) == first
  {
  }

  /** A clean component answers from its own cache: nothing outside node n, and no
      ancestor's scale, takes part in the result. */
  lemma CleanReadIsLocal(g: Graph, ls: seq<Vec3>, os: seq<ShapeState>, ls': seq<Vec3>, os': seq<ShapeState>, n: nat)
    requires Fits(g, ls, os) && Fits(g, ls', os') && n < |g.nodes| && IsShape(g, n)
    requires !os[n].isDirty && os'[n] == os[n] && ls'[n] == ls[n]
    ensures ReadScale(g, ls', os', n).value == ReadScale(g, ls, os, n).value
    ensures ReadScale(g, ls, os, n).value == Mul(ls[n], os[n].parentScale)
  {
  }

  /** A dirty node whose direct parent is not a ShapeObject inherits nothing, whatever lies
      further up the hierarchy. */
  lemma DirtyRootRead(g: Graph, ls: seq<Vec3>, os: seq<ShapeState>, n: nat)
    requires Fits(g, ls, os) && n < |g.nodes| && IsShape(g, n)
    requires os[n].isDirty && ShapeParent(g, n) == None
    ensures ReadScale(g, ls, os, n).value == ls[n]
    ensures ReadScale(g, ls, os, n).states == os[n := os[n].(isDirty := false, parentScale := One)]
  {
  }

  /** With no ShapeObject parent, a write followed by a read returns exactly the written value. */
  lemma WriteThenRead(g: Graph, ls: seq<Vec3>, os: seq<ShapeState>, n: nat, v: Vec3)
    requires Fits(g, ls, os) && n < |g.nodes| && IsShape(g, n)
    requires os[n].hasParent ==> g.nodes[n].parent.Some?
    requires ShapeParent(g, n) == None
    ensures var w := WriteScale(g, ls, os, n, v);
      Fits(g, w.localScale, w.states) && ReadScale(g, w.localScale, w.states, n).value == v
  {
  }

  /** The one-step lag: after a write to its ShapeObject parent, a clean child still reads
      its old cached value, while its effective scale now follows the written value. */
  lemma ParentWriteNotSeen(g: Graph, ls: seq<Vec3>, os: seq<ShapeState>, n: nat, p: nat, v: Vec3)
    requires Fits(g, ls, os) && n < |g.nodes| && IsShape(g, n) && !os[n].isDirty
    requires ShapeParent(g, n) == Some(p)
    requires os[p].hasParent ==> g.nodes[p].parent.Some?
    requires ShapeParent(g, p) == None
    ensures var w := WriteScale(g, ls, os, p, v);
      && Fits(g, w.localScale, w.states)
      && ReadScale(g, w.localScale, w.states, n).value == Mul(ls[n], os[n].parentScale)
      && EffectiveScale(g, w.localScale, n) == Mul(ls[n], v)
  {
    var w := WriteScale(g, ls, os, p, v);
    assert w.states[n] == os[n] && w.localScale[n] == ls[n];
    CleanReadIsLocal(g, ls, os, w.localScale, w.states, n);
  }

  /** The Unity scene seen by the core: the transform hierarchy, each transform's localScale
      and each ShapeObject component's fields, indexed by node. */
  class Scene {
    const graph: Graph
    var localScale: seq<Vec3>
    var objects: seq<ShapeState>

    ghost predicate Valid()
      reads this
    {
      Fits(graph, localScale, objects)
    }

    /** A scene whose components have just been created. */
    constructor (g: Graph, scales: seq<Vec3>)
      requires Hierarchy.Valid(g) && |scales| == |g.nodes|
      ensures Valid() && graph == g && localScale == scales
      ensures objects == seq(|g.nodes|, _ => Initial)
    {
      graph := g;
      localScale := scales;
      objects := seq(|g.nodes|, _ => Initial);
    }

    /** `ShapeObject.Scale { get }` on node n. */
    method GetScale(n: nat) returns (s: Vec3)
      requires Valid() && n < |graph.nodes| && IsShape(graph, n)
      modifies this
      ensures Valid() && localScale == old(localScale)
      ensures ScaleRead(s, objects) == ReadScale(graph, localScale, old(objects), n)
      decreases graph.depth[n]
    {
      if objects[n].isDirty {
        objects := objects[n := objects[n].(parentScale := One)];
        var up := ShapeParent(graph, n);
        if up.Some? {
          var ps := GetScale(up.value);
          ClimbsNotDown(graph, up.value, n);
          objects := objects[n := objects[n].(parentScale := ps, hasParent := true)];
        }
        objects := objects[n := objects[n].(isDirty := false)];
      }
      s := Mul(localScale[n], objects[n].parentScale);
    }

    /** `ShapeObject.Scale { set }` on node n. */
    method SetScale(n: nat, value: Vec3)
      requires Valid() && n < |graph.nodes| && IsShape(graph, n)
      requires objects[n].hasParent ==> graph.nodes[n].parent.Some?
      modifies this
      ensures Valid()
      ensures ScaleWrite(localScale, objects) == WriteScale(graph, old(localScale), old(objects), n, value)
    {
      if objects[n].hasParent {
        ParentFacts(graph, n);
        if !IsShape(graph, graph.nodes[n].parent.value) {
          objects := objects[n := objects[n].(hasParent := false)];
        } else {
          return;
        }
      }
      objects := objects[n := objects[n].(isDirty := true, parentScale := value)];
      localScale := localScale[n := value];
    }
  }
}
