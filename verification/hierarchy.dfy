/**
 * The engine's transform hierarchy as an arena: node i's parent and children are node
 * indices, children are kept in transform child-index order, and a node carries a
 * ShapeObject component or not. The hierarchy is acyclic; `depth` is a rank that
 * witnesses it (a parent's rank is below its children's and every rank is below the
 * number of nodes), and it serves as the termination measure both upwards and downwards.
 */
module Hierarchy {
  import opened Wrappers
  import opened Vectors
  import opened ShapeTypes

  /** The serialized properties of a ShapeObject component. The OperationType enum is
      not part of this model; an operation is its ordinal. */
  datatype ShapeProps = ShapeProps(shape: ShapeType, operation: nat, blendStrength: real, color: Color)

  /** One transform: its parent, its direct children in child-index order, its ShapeObject
      component if it has one, and its world position and Euler rotation. */
  datatype Node = Node(
    parent: Option<nat>,
    children: seq<nat>,
    component: Option<ShapeProps>,
    position: Vec3,
    rotation: Vec3)

  datatype Graph = Graph(nodes: seq<Node>, depth: seq<nat>)

  /** Node n's parent link is in range, lists n among its children and has a lower rank. */
  ghost predicate ParentLinked(g: Graph, n: nat)
    requires |g.depth| == |g.nodes| && n < |g.nodes|
  {
    match g.nodes[n].parent
    case None => true
    case Some(p) => p < |g.nodes| && g.depth[p] < g.depth[n] && n in g.nodes[p].children
  }

  /** A well-formed, acyclic hierarchy. */
  ghost predicate Valid(g: Graph)
  {
    && |g.depth| == |g.nodes|
    && (forall n :: 0 <= n < |g.nodes| ==> g.depth[n] < |g.nodes|)
    && (forall n :: 0 <= n < |g.nodes| ==> ParentLinked(g, n))
    && (forall n, i :: 0 <= n < |g.nodes| && 0 <= i < |g.nodes[n].children| ==>
          g.nodes[n].children[i] < |g.nodes| && g.nodes[g.nodes[n].children[i]].parent == Some(n))
    && (forall n, i, j :: 0 <= n < |g.nodes| && 0 <= i < j < |g.nodes[n].children| ==>
          g.nodes[n].children[i] != g.nodes[n].children[j])
  }

  /** The GetComponent<ShapeObject>() != null test. */
  predicate IsShape(g: Graph, n: nat)
    requires n < |g.nodes|
  {
    g.nodes[n].component.Some?
  }

  /** The transform parent, if it exists and carries a ShapeObject. */
  function ShapeParent(g: Graph, n: nat): (r: Option<nat>)
    requires Valid(g) && n < |g.nodes|
    ensures g.nodes[n].parent.Some? ==> g.nodes[n].parent.value < |g.nodes|
    ensures r.Some? ==> r.value < |g.nodes| && IsShape(g, r.value) && g.depth[r.value] < g.depth[n]
    ensures r.Some? <==> g.nodes[n].parent.Some? && IsShape(g, g.nodes[n].parent.value)
  {
    ParentFacts(g, n);
    match g.nodes[n].parent
    case None => None
    case Some(p) => if IsShape(g, p) then Some(p) else None
  }

  lemma ParentFacts(g: Graph, n: nat)
    requires Valid(g) && n < |g.nodes|
    ensures g.nodes[n].parent.Some? ==>
      var p := g.nodes[n].parent.value;
      p < |g.nodes| && g.depth[p] < g.depth[n] && n in g.nodes[p].children
  {
    assert ParentLinked(g, n);
  }

  lemma ChildFacts(g: Graph, n: nat, i: nat)
    requires Valid(g) && n < |g.nodes| && i < |g.nodes[n].children|
    ensures var c := g.nodes[n].children[i];
      c < |g.nodes| && g.nodes[c].parent == Some(n) && g.depth[n] < g.depth[c]
  {
    ParentFacts(g, g.nodes[n].children[i]);
  }

  /** Climbing from m through ShapeObject-carrying nodes reaches n: m == n, or m carries a
      ShapeObject and its parent climbs to n. These are exactly the nodes that a run started
      at n emits, and the nodes whose scale getter recurses up to n. */
  ghost predicate ClimbsTo(g: Graph, m: nat, n: nat)
    requires Valid(g) && m < |g.nodes|
    decreases g.depth[m]
  {
    m == n || (IsShape(g, m) && g.nodes[m].parent.Some? &&
               (ParentFacts(g, m); ClimbsTo(g, g.nodes[m].parent.value, n)))
  }

  lemma {:induction false} ClimbsToDepth(g: Graph, m: nat, n: nat)
    requires Valid(g) && m < |g.nodes| && ClimbsTo(g, m, n)
    ensures n < |g.nodes| && g.depth[n] <= g.depth[m]
    ensures m != n ==> g.depth[n] < g.depth[m]
    decreases g.depth[m]
  {
    if m != n {
      ParentFacts(g, m);
      ClimbsToDepth(g, g.nodes[m].parent.value, n);
    }
  }

  /** A climb never ends at a node of higher rank. */
  lemma ClimbsNotDown(g: Graph, m: nat, n: nat)
    requires Valid(g) && m < |g.nodes| && n < |g.nodes| && g.depth[m] < g.depth[n]
    ensures !ClimbsTo(g, m, n)
  {
    if ClimbsTo(g, m, n) {
      ClimbsToDepth(g, m, n);
    }
  }

  /** Climbing through a shape child c of n continues to n. */
  lemma {:induction false} ClimbsThroughChild(g: Graph, m: nat, c: nat, n: nat)
    requires Valid(g) && m < |g.nodes| && c < |g.nodes|
    requires ClimbsTo(g, m, c) && IsShape(g, c) && g.nodes[c].parent == Some(n)
    ensures ClimbsTo(g, m, n)
    decreases g.depth[m]
  {
    ParentFacts(g, m);
    if m != c {
      ClimbsThroughChild(g, g.nodes[m].parent.value, c, n);
    }
  }

  /** The nodes a climb passes lie on one chain: of two targets, one climbs to the other. */
  lemma {:induction false} ClimbsLinear(g: Graph, m: nat, a: nat, b: nat)
    requires Valid(g) && m < |g.nodes| && ClimbsTo(g, m, a) && ClimbsTo(g, m, b)
    ensures a < |g.nodes| && b < |g.nodes|
    ensures ClimbsTo(g, a, b) || ClimbsTo(g, b, a)
    decreases g.depth[m]
  {
    ClimbsToDepth(g, m, a);
    ClimbsToDepth(g, m, b);
    if m != a && m != b {
      ParentFacts(g, m);
      ClimbsLinear(g, g.nodes[m].parent.value, a, b);
    }
  }

  /** A climb from m that ends strictly above m passes through a shape child of its target. */
  lemma {:induction false} ClimbsViaChild(g: Graph, m: nat, n: nat) returns (i: nat)
    requires Valid(g) && m < |g.nodes| && n < |g.nodes| && ClimbsTo(g, m, n) && m != n
    ensures i < |g.nodes[n].children|
    ensures var c := g.nodes[n].children[i]; c < |g.nodes| && IsShape(g, c) && ClimbsTo(g, m, c)
    decreases g.depth[m]
  {
    ParentFacts(g, m);
    var p := g.nodes[m].parent.value;
    if p == n {
      i :| 0 <= i < |g.nodes[n].children| && g.nodes[n].children[i] == m;
    } else {
      i := ClimbsViaChild(g, p, n);
      var c := g.nodes[n].children[i];
      ChildFacts(g, n, i);
      assert ClimbsTo(g, p, c);
      assert ClimbsTo(g, m, c);
    }
  }

  /** Two different children of one node never climb to each other. */
  lemma SiblingsApart(g: Graph, n: nat, i: nat, j: nat)
    requires Valid(g) && n < |g.nodes| && i < |g.nodes[n].children| && j < |g.nodes[n].children| && i != j
    ensures !ClimbsTo(g, g.nodes[n].children[i], g.nodes[n].children[j])
  {
    var ci, cj := g.nodes[n].children[i], g.nodes[n].children[j];
    ChildFacts(g, n, i);
    ChildFacts(g, n, j);
    if ClimbsTo(g, ci, cj) {
      assert ci != cj;
      ClimbsToDepth(g, n, cj);
    }
  }
}
