/**
 * RayMarchingManager: the per-frame preparation of the ray-marching pass. Calls into the
 * engine (textures, buffers, shader parameters, dispatch, blit) are not modelled beyond
 * being recorded, in order, as EngineCall values.
 */
module RayMarching {
  import opened Wrappers
  import opened Vectors
  import opened ShapeTypes
  import opened ShapeLayout
  import opened Hierarchy
  import opened ShapeObjects
  import opened Flattening

  datatype LightType = Spot | Directional | Point | Area
  datatype Light = Light(kind: LightType, position: Vec3)

  /** A 4x4 matrix computed by the engine; its entries are not interpreted here. */
  datatype Matrix = Matrix(entries: seq<real>)

  /** What the core reads of the current camera. */
  datatype Camera = Camera(
    pixelWidth: nat,
    pixelHeight: nat,
    forward: Vec3,
    cameraToWorld: Matrix,
    inverseProjection: Matrix)

  /** The intermediate render texture, identified by an engine handle. */
  datatype RenderTarget = RenderTarget(handle: nat, width: int, height: int)

  /** A compute buffer of `count` records of `stride` bytes, holding `data`. */
  datatype ComputeBuffer = ComputeBuffer(handle: nat, count: nat, stride: nat, data: seq<ShapeData>)

  /** The shader properties the manager sets. */
  datatype Property =
    | Source | Destination | Shapes | NumberShapes
    | CameraToWorld | CameraInverseProjection | LightVector | PositionLight

  datatype Texture = FrameTexture(frame: nat) | TargetTexture(target: nat)

  /** One call into the engine. */
  datatype EngineCall =
    | ReleaseTarget(released: nat)
    | CreateTarget(created: nat, width: int, height: int)
    | SetBuffer(bufferProperty: Property, buffer: nat)
    | SetInt(intProperty: Property, intValue: int)
    | SetMatrix(matrixProperty: Property, matrix: Matrix)
    | SetVector(vectorProperty: Property, vector: Vec3)
    | SetBool(boolProperty: Property, flag: bool)
    | SetTexture(textureProperty: Property, texture: Texture)
    | Dispatch(x: int, y: int, z: int)
    | Blit(from: Texture, to: Texture)
    | Dispose(disposed: nat)

  /** The record CreateScene fills for node n, given the scale its getter returned and
      its current childCount. */
  function Record(g: Graph, n: nat, size: Vec3, childCount: int): ShapeData
    requires n < |g.nodes| && IsShape(g, n)
  {
    var node := g.nodes[n];
    var props := node.component.value;
    ShapeData(
      node.position, node.rotation, size,
      Vec3(props.color.r, props.color.g, props.color.b),
      ToInt(props.shape), props.operation, props.blendStrength * 3.0, childCount)
  }

  /** A record gives back the shape it was filled from: the shape type decodes to the
      node's member, the blend strength is three times the node's, and the packed slots
      read back as the record. */
  lemma RecordReadBack(g: Graph, n: nat, size: Vec3, childCount: int)
    requires n < |g.nodes| && IsShape(g, n)
    ensures var d := Record(g, n, size, childCount);
      var props := g.nodes[n].component.value;
      && d.position == g.nodes[n].position && d.rotation == g.nodes[n].rotation
      && d.size == size && d.numChildren == childCount
      && d.colour == Vec3(props.color.r, props.color.g, props.color.b)
      && FromCode(d.shapeType) == Some(props.shape)
      && 0 <= d.shapeType <= 5
      && d.operation == props.operation
      && d.blendStrength / 3.0 == props.blendStrength
      && FromFields(Fields(d)) == Some(d)
  {
    var props := g.nodes[n].component.value;
    CodeRoundTrip(props.shape);
    FieldsRoundTrip(Record(g, n, size, childCount));
  }

  datatype ScalesRead = ScalesRead(values: seq<Vec3>, states: seq<ShapeState>)

  /** The Scale getter called on each node of ns in turn, each call seeing the cache the
      previous ones left. */
  function ReadScales(g: Graph, ls: seq<Vec3>, os: seq<ShapeState>, ns: seq<nat>): (r: ScalesRead)
    requires Fits(g, ls, os) && AllShapes(g, ns)
    ensures |r.values| == |ns| && |r.states| == |os|
    ensures forall m :: 0 <= m < |os| ==> r.states[m].childCount == os[m].childCount
    decreases |ns|
  {
    if ns == [] then ScalesRead([], os)
    else
      var before := ReadScales(g, ls, os, ns[..|ns| - 1]);
      var last := ReadScale(g, ls, before.states, ns[|ns| - 1]);
      ScalesRead(before.values + [last.value], last.states)
  }

  /** Reading scales in turn keeps a coherent cache coherent. */
  lemma {:induction false} ReadScalesCoherent(g: Graph, ls: seq<Vec3>, os: seq<ShapeState>, ns: seq<nat>)
    requires Fits(g, ls, os) && AllShapes(g, ns) && Coherent(g, ls, os)
    ensures Fits(g, ls, ReadScales(g, ls, os, ns).states) && Coherent(g, ls, ReadScales(g, ls, os, ns).states)
    decreases |ns|
  {
    if ns != [] {
      var init := ns[..|ns| - 1];
      ReadScalesCoherent(g, ls, os, init);
      ReadScaleCoherent(g, ls, ReadScales(g, ls, os, init).states, ns[|ns| - 1]);
    }
  }

  /** On a coherent cache, the last read returns the last node's effective scale. */
  lemma ReadScalesLast(g: Graph, ls: seq<Vec3>, os: seq<ShapeState>, ns: seq<nat>)
    requires Fits(g, ls, os) && AllShapes(g, ns) && Coherent(g, ls, os) && ns != []
    ensures ReadScales(g, ls, os, ns).values[|ns| - 1] == EffectiveScale(g, ls, ns[|ns| - 1])
  {
    var init := ns[..|ns| - 1];
    ReadScalesCoherent(g, ls, os, init);
    ReadScaleCoherent(g, ls, ReadScales(g, ls, os, init).states, ns[|ns| - 1]);
  }

  /** On a coherent cache, the k-th read returns the k-th node's effective scale. */
  lemma {:induction false} ReadScalesEffective(g: Graph, ls: seq<Vec3>, os: seq<ShapeState>, ns: seq<nat>, k: nat)
    requires Fits(g, ls, os) && AllShapes(g, ns) && Coherent(g, ls, os) && k < |ns|
    ensures ReadScales(g, ls, os, ns).values[k] == EffectiveScale(g, ls, ns[k])
    decreases |ns|
  {
    if k < |ns| - 1 {
      var init := ns[..|ns| - 1];
      ReadScalesEffective(g, ls, os, init, k);
      assert ReadScales(g, ls, os, ns).values[k] == ReadScales(g, ls, os, init).values[k];
    } else {
      ReadScalesLast(g, ls, os, ns);
    }
  }

  /** The records CreateScene builds for the ordered list, from the components' states
      before the record loop. */
  function ShapeRecords(g: Graph, ls: seq<Vec3>, os: seq<ShapeState>, ordered: seq<nat>): (ds: seq<ShapeData>)
    requires Fits(g, ls, os) && AllShapes(g, ordered)
    ensures |ds| == |ordered|
    decreases |ordered|
  {
    if ordered == [] then []
    else
      var init, last := ordered[..|ordered| - 1], ordered[|ordered| - 1];
      var scale := ReadScale(g, ls, ReadScales(g, ls, os, init).states, last).value;
      ShapeRecords(g, ls, os, init) + [Record(g, last, scale, os[last].childCount)]
  }

  /** Record k holds the k-th scale read and the k-th node's count. */
  lemma {:induction false} ShapeRecordsAt(g: Graph, ls: seq<Vec3>, os: seq<ShapeState>, ordered: seq<nat>, k: nat)
    requires Fits(g, ls, os) && AllShapes(g, ordered) && k < |ordered|
    ensures ShapeRecords(g, ls, os, ordered)[k]
      == Record(g, ordered[k], ReadScales(g, ls, os, ordered).values[k], os[ordered[k]].childCount)
    decreases |ordered|
  {
    var init, last := ordered[..|ordered| - 1], ordered[|ordered| - 1];
    var before := ReadScales(g, ls, os, init);
    var value := ReadScale(g, ls, before.states, last).value;
    assert ShapeRecords(g, ls, os, ordered)
      == ShapeRecords(g, ls, os, init) + [Record(g, last, value, os[last].childCount)];
    assert ReadScales(g, ls, os, ordered).values == before.values + [value];
    if k < |init| {
      ShapeRecordsAt(g, ls, os, init, k);
      assert ordered[k] == init[k];
    }
  }

  /** Writing child counts leaves every scale cache as it was. */
  lemma StampKeepsCoherent(g: Graph, ls: seq<Vec3>, os: seq<ShapeState>, ms: seq<nat>)
    requires Fits(g, ls, os) && forall k :: 0 <= k < |ms| ==> ms[k] < |g.nodes|
    requires Coherent(g, ls, os)
    ensures Fits(g, ls, Stamp(g, os, ms)) && Coherent(g, ls, Stamp(g, os, ms))
  {
    forall m | 0 <= m < |os|
      ensures Stamp(g, os, ms)[m].isDirty == os[m].isDirty
      ensures Stamp(g, os, ms)[m].parentScale == os[m].parentScale
    {
      StampAt(g, os, ms, m);
    }
  }

  /** The shapes a frame lays out, in buffer order. */
  function Ordered(g: Graph, found: seq<nat>): (ordered: seq<nat>)
    requires Hierarchy.Valid(g) && AllShapes(g, found)
    ensures AllShapes(g, ordered)
  {
    Flatten(g, SortByOperation(g, found))
  }

  /** The compute buffer a frame uploads: one record per laid-out shape, of GetSize() bytes. */
  function FrameBuffer(g: Graph, ls: seq<Vec3>, os: seq<ShapeState>, found: seq<nat>, handle: nat): (b: ComputeBuffer)
    requires Fits(g, ls, os) && AllShapes(g, found)
    ensures b.count == |b.data| == |Ordered(g, found)| && b.stride == GetSize()
  {
    var ordered := Ordered(g, found);
    var data := ShapeRecords(g, ls, Stamp(g, os, ordered), ordered);
    ComputeBuffer(handle, |data|, GetSize(), data)
  }

  /** The component states a frame leaves: counts written, then scale caches updated. */
  function FrameStates(g: Graph, ls: seq<Vec3>, os: seq<ShapeState>, found: seq<nat>): (r: seq<ShapeState>)
    requires Fits(g, ls, os) && AllShapes(g, found)
    ensures |r| == |os|
  {
    var ordered := Ordered(g, found);
    ReadScales(g, ls, Stamp(g, os, ordered), ordered).states
  }

  /** The records of a frame, on a coherent scene: one per laid-out shape, in order, each
      with the node's effective scale, its total direct child count, its own attributes,
      and the scene stays coherent. */
  lemma SceneRecordsCorrect(g: Graph, ls: seq<Vec3>, os: seq<ShapeState>, found: seq<nat>, handle: nat)
    requires Fits(g, ls, os) && AllShapes(g, found) && Coherent(g, ls, os)
    ensures var ordered := Ordered(g, found);
      var ds := FrameBuffer(g, ls, os, found, handle).data;
      && |ds| == |ordered|
      && Coherent(g, ls, FrameStates(g, ls, os, found))
      && forall k :: 0 <= k < |ds| ==>
           && ds[k].size == EffectiveScale(g, ls, ordered[k])
           && ds[k].numChildren == |g.nodes[ordered[k]].children|
           && ds[k].position == g.nodes[ordered[k]].position
           && ds[k].rotation == g.nodes[ordered[k]].rotation
           && ds[k].colour == Vec3(g.nodes[ordered[k]].component.value.color.r, g.nodes[ordered[k]].component.value.color.g,
                                 g.nodes[ordered[k]].component.value.color.b)
           && ds[k].blendStrength == g.nodes[ordered[k]].component.value.blendStrength * 3.0
           && FromCode(ds[k].shapeType) == Some(g.nodes[ordered[k]].component.value.shape)
           && ds[k].operation == Op(g, ordered[k])
  {
    var ordered := Ordered(g, found);
    var stamped := Stamp(g, os, ordered);
    StampKeepsCoherent(g, ls, os, ordered);
    ReadScalesCoherent(g, ls, stamped, ordered);
    var ds := ShapeRecords(g, ls, stamped, ordered);
    var scales := ReadScales(g, ls, stamped, ordered).values;
    forall k | 0 <= k < |ds|
      ensures ds[k].size == EffectiveScale(g, ls, ordered[k])
      ensures ds[k].numChildren == |g.nodes[ordered[k]].children|
      ensures ds[k].position == g.nodes[ordered[k]].position
      ensures ds[k].rotation == g.nodes[ordered[k]].rotation
      ensures ds[k].colour == Vec3(g.nodes[ordered[k]].component.value.color.r, g.nodes[ordered[k]].component.value.color.g,
                                 g.nodes[ordered[k]].component.value.color.b)
      ensures ds[k].blendStrength == g.nodes[ordered[k]].component.value.blendStrength * 3.0
      ensures FromCode(ds[k].shapeType) == Some(g.nodes[ordered[k]].component.value.shape)
      ensures ds[k].operation == Op(g, ordered[k])
    {
      var n := ordered[k];
      ShapeRecordsAt(g, ls, stamped, ordered, k);
      ReadScalesEffective(g, ls, stamped, ordered, k);
      StampAt(g, os, ordered, n);
      RecordReadBack(g, n, scales[k], stamped[n].childCount);
    }
  }

  /** The data a frame uploads fill its buffer exactly: count records of stride bytes, that
      is count * 64 bytes, with record k at slots 16k up to 16k + 16. */
  lemma ShapeBufferBytes(g: Graph, ls: seq<Vec3>, os: seq<ShapeState>, found: seq<nat>, handle: nat)
    requires Fits(g, ls, os) && AllShapes(g, found)
    ensures var b := FrameBuffer(g, ls, os, found, handle);
      && |SerializeAll(b.data)| == 16 * b.count
      && ByteLength(SerializeAll(b.data)) == b.count * b.stride == b.count * 64
  {
    BufferByteLength(FrameBuffer(g, ls, os, found, handle).data);
  }

  /** With every shape found once, the laid-out list is never shorter than the found list,
      and has the same length exactly when no shape is nested in a shape. */
  lemma OrderedAddsIffNested(g: Graph, found: seq<nat>)
    requires Hierarchy.Valid(g) && IsDiscovery(g, found)
    ensures AllShapes(g, found)
    ensures |Ordered(g, found)| >= |found|
    ensures |Ordered(g, found)| == |found| <==> NoNesting(g)
  {
    var sorted := SortedDiscovery(g, found);
    FlattenAddsIffNested(g, sorted);
  }

  /** With every shape found once, the laid-out list holds a shape without a ShapeObject
      parent once, a nested shape at least twice, and nothing else. */
  lemma OrderedMultiplicity(g: Graph, found: seq<nat>, m: nat)
    requires Hierarchy.Valid(g) && IsDiscovery(g, found) && m < |g.nodes|
    ensures AllShapes(g, found)
    ensures IsShape(g, m) && ShapeParent(g, m) == None ==> multiset(Ordered(g, found))[m] == 1
    ensures IsShape(g, m) && ShapeParent(g, m).Some? ==> multiset(Ordered(g, found))[m] >= 2
    ensures !IsShape(g, m) ==> m !in Ordered(g, found)
  {
    var sorted := SortedDiscovery(g, found);
    FlattenMultiplicity(g, sorted, m);
  }

  /** Sorting a discovery list gives a discovery list of the same length. */
  lemma SortedDiscovery(g: Graph, found: seq<nat>) returns (sorted: seq<nat>)
    requires IsDiscovery(g, found)
    ensures AllShapes(g, found) && sorted == SortByOperation(g, found)
    ensures IsDiscovery(g, sorted) && |sorted| == |found|
  {
    DiscoveryFacts(g, found);
    sorted := SortByOperation(g, found);
    SortByOperationSorts(g, found);
  }

  /** The light parameter: a directional light passes the camera's forward vector as a
      direction, any other light passes its world position. */
  datatype LightParam = LightParam(vector: Vec3, isPosition: bool)

  function LightParameter(cam: Camera, light: Light): (p: LightParam)
    ensures p.isPosition <==> light.kind != Directional
    ensures p.isPosition ==> p.vector == light.position
    ensures !p.isPosition ==> p.vector == cam.forward
  {
    var lightIsDirectional := light.kind == Directional;
    LightParam(if lightIsDirectional then cam.forward else light.position, !lightIsDirectional)
  }

  /** Mathf.CeilToInt(pixels / 8f): the fewest 8-pixel tiles that cover the pixels. */
  function ThreadGroups(pixels: nat): (groups: nat)
    ensures groups * 8 >= pixels
    ensures groups > 0 ==> (groups - 1) * 8 < pixels
  {
    (pixels + 7) / 8
  }

  /** The cached target can be kept: it exists and has the camera's pixel size. */
  predicate Reusable(rt: Option<RenderTarget>, cam: Camera)
  {
    rt.Some? && rt.value.width == cam.pixelWidth && rt.value.height == cam.pixelHeight
  }

  /** The engine calls InitRenderTexture makes. */
  function TargetCalls(rt: Option<RenderTarget>, handle: nat, cam: Camera): (cs: seq<EngineCall>)
    ensures Reusable(rt, cam) <==> cs == []
  {
    if Reusable(rt, cam) then []
    else (if rt.Some? then [ReleaseTarget(rt.value.handle)] else [])
         + [CreateTarget(handle, cam.pixelWidth, cam.pixelHeight)]
  }

  /** The target InitRenderTexture leaves in place. */
  function NextTarget(rt: Option<RenderTarget>, handle: nat, cam: Camera): (r: RenderTarget)
    ensures r.width == cam.pixelWidth && r.height == cam.pixelHeight
    ensures Reusable(rt, cam) ==> rt == Some(r)
  {
    if Reusable(rt, cam) then rt.value else RenderTarget(handle, cam.pixelWidth, cam.pixelHeight)
  }

  /** The next free engine handle after InitRenderTexture: one more when it created a target. */
  function HandleAfter(rt: Option<RenderTarget>, handle: nat, cam: Camera): (r: nat)
    ensures r == handle <==> Reusable(rt, cam)
    ensures r <= handle + 1
  {
    if Reusable(rt, cam) then handle else handle + 1
  }

  /** A resize releases the old target once and creates one new target, and a second frame
      at the same size makes no calls. */
  lemma ResizeOnce(rt: RenderTarget, handle: nat, handle': nat, cam: Camera)
    requires rt.width != cam.pixelWidth || rt.height != cam.pixelHeight
    ensures TargetCalls(Some(rt), handle, cam) ==
      [ReleaseTarget(rt.handle), CreateTarget(handle, cam.pixelWidth, cam.pixelHeight)]
    ensures TargetCalls(Some(NextTarget(Some(rt), handle, cam)), handle', cam) == []
  {
  }

  /** The engine calls SetParameters makes. */
  function ParameterCalls(cam: Camera, light: Light): seq<EngineCall>
  {
    var p := LightParameter(cam, light);
    [SetMatrix(CameraToWorld, cam.cameraToWorld),
     SetMatrix(CameraInverseProjection, cam.inverseProjection),
     SetVector(LightVector, p.vector),
     SetBool(PositionLight, p.isPosition)]
  }

  function Disposals(bs: seq<ComputeBuffer>): (cs: seq<EngineCall>)
    ensures |cs| == |bs|
    ensures forall k :: 0 <= k < |bs| ==> cs[k] == Dispose(bs[k].handle)
  {
    if bs == [] then [] else Disposals(bs[..|bs| - 1]) + [Dispose(bs[|bs| - 1].handle)]
  }

  /** Stamping the single node n is the first write AddChildShape makes. */
  lemma StampFirst(g: Graph, os: seq<ShapeState>, n: nat)
    requires |os| == |g.nodes| && n < |g.nodes|
    ensures Stamp(g, os, [n]) == os[n := os[n].(childCount := |g.nodes[n].children|)]
  {
    assert [n][..0] == [];
  }

  /** Regrouping a concatenation, for the list built by OrderShapes. */
  lemma AppendAssoc(a: seq<nat>, b: seq<nat>, c: seq<nat>)
    ensures a + b + c == a + (b + c)
  {
  }

  /** Regrouping a concatenation, for the list built by AddChildShape's loop. */
  lemma AppendRun(xs: seq<nat>, runs: seq<nat>, c: nat, rest: seq<nat>)
    ensures xs + runs + [c] + rest == xs + (runs + ([c] + rest))
  {
  }

  /** Stamping a child's run after n and the earlier runs is stamping them all at once. */
  lemma StampChildRun(g: Graph, os: seq<ShapeState>, n: nat, before: seq<nat>, run: seq<nat>)
    requires |os| == |g.nodes| && n < |g.nodes|
    requires forall k :: 0 <= k < |before| ==> before[k] < |g.nodes|
    requires forall k :: 0 <= k < |run| ==> run[k] < |g.nodes|
    ensures Stamp(g, Stamp(g, os, [n] + before), run) == Stamp(g, os, [n] + (before + run))
  {
    StampAppend(g, os, [n] + before, run);
    AppendAssoc([n], before, run);
  }

  /** One turn of AddChildShape's loop: the next child adds its run when it is a shape. */
  lemma ChildStep(g: Graph, os: seq<ShapeState>, n: nat, i: nat)
    requires Hierarchy.Valid(g) && |os| == |g.nodes| && n < |g.nodes| && i < |g.nodes[n].children|
    ensures var c := g.nodes[n].children[i];
      && c < |g.nodes| && g.depth[n] < g.depth[c]
      && (IsShape(g, c) ==>
            && ChildRuns(g, n, i + 1) == ChildRuns(g, n, i) + Run(g, c)
            && Run(g, c) == [c] + ChildRuns(g, c, |g.nodes[c].children|)
            && Stamp(g, Stamp(g, os, [n] + ChildRuns(g, n, i)), Run(g, c))
                 == Stamp(g, os, [n] + ChildRuns(g, n, i + 1)))
      && (!IsShape(g, c) ==> ChildRuns(g, n, i + 1) == ChildRuns(g, n, i))
  {
    var c := g.nodes[n].children[i];
    ChildFacts(g, n, i);
    if IsShape(g, c) {
      StampChildRun(g, os, n, ChildRuns(g, n, i), Run(g, c));
    }
  }

  /** One turn of OrderShapes' loop. */
  lemma FlattenStep(g: Graph, os: seq<ShapeState>, xs: seq<nat>, i: nat)
    requires Hierarchy.Valid(g) && |os| == |g.nodes| && AllShapes(g, xs) && i < |xs|
    ensures Flatten(g, xs[..i + 1]) == Flatten(g, xs[..i]) + Run(g, xs[i])
    ensures Run(g, xs[i]) == [xs[i]] + ChildRuns(g, xs[i], |g.nodes[xs[i]].children|)
    ensures Stamp(g, Stamp(g, os, Flatten(g, xs[..i])), Run(g, xs[i]))
      == Stamp(g, os, Flatten(g, xs[..i + 1]))
  {
    assert xs[..i + 1][..i] == xs[..i];
    StampAppend(g, os, Flatten(g, xs[..i]), Run(g, xs[i]));
  }

  /** One turn of the record loop. */
  lemma RecordStep(g: Graph, ls: seq<Vec3>, os: seq<ShapeState>, ns: seq<nat>, i: nat)
      returns (before: ScalesRead, r: ScaleRead)
    requires Fits(g, ls, os) && AllShapes(g, ns) && i < |ns|
    ensures before == ReadScales(g, ls, os, ns[..i]) && Fits(g, ls, before.states)
    ensures r == ReadScale(g, ls, before.states, ns[i])
    ensures ReadScales(g, ls, os, ns[..i + 1]).states == r.states
    ensures r.states[ns[i]].childCount == os[ns[i]].childCount
    ensures ShapeRecords(g, ls, os, ns[..i + 1])
      == ShapeRecords(g, ls, os, ns[..i]) + [Record(g, ns[i], r.value, os[ns[i]].childCount)]
  {
    assert ns[..i + 1][..i] == ns[..i];
    before := ReadScales(g, ls, os, ns[..i]);
    r := ReadScale(g, ls, before.states, ns[i]);
  }

  class RayMarchingManager {
    /** Whether RayMarchingShader is assigned. */
    const hasShader: bool
    /** Container.Camera and Container.LightSource. */
    var camera: Option<Camera>
    var lightSource: Option<Light>
    var buffersToDispose: seq<ComputeBuffer>
    var renderTexture: Option<RenderTarget>
    var threadGroupX: int
    var threadGroupY: int
    /** The engine calls made so far, oldest first. */
    var calls: seq<EngineCall>
    /** The handle the engine gives the next texture or buffer it creates. */
    var nextHandle: nat

    constructor (shaderAssigned: bool)
      ensures hasShader == shaderAssigned
      ensures camera == None && lightSource == None && buffersToDispose == [] && renderTexture == None
      ensures threadGroupX == 0 && threadGroupY == 0 && calls == [] && nextHandle == 0
    {
      hasShader := shaderAssigned;
      camera, lightSource := None, None;
      buffersToDispose, renderTexture := [], None;
      threadGroupX, threadGroupY := 0, 0;
      calls, nextHandle := [], 0;
    }

    /** Init: the dispatch size for the camera. */
    method Init()
      requires camera.Some?
      modifies this`threadGroupX, this`threadGroupY
      ensures threadGroupX == ThreadGroups(camera.value.pixelWidth)
      ensures threadGroupY == ThreadGroups(camera.value.pixelHeight)
    {
      threadGroupX := ThreadGroups(camera.value.pixelWidth);
      threadGroupY := ThreadGroups(camera.value.pixelHeight);
    }

    /** InitRenderTexture: keep the target if its size is the camera's, otherwise release
        it (if any) and create one at the camera's size. */
    method InitRenderTexture()
      requires camera.Some?
      modifies this`renderTexture, this`calls, this`nextHandle
      ensures renderTexture == Some(NextTarget(old(renderTexture), old(nextHandle), camera.value))
      ensures calls == old(calls) + TargetCalls(old(renderTexture), old(nextHandle), camera.value)
      ensures nextHandle == HandleAfter(old(renderTexture), old(nextHandle), camera.value)
    {
      var cam := camera.value;
      if renderTexture.Some? && renderTexture.value.width == cam.pixelWidth
         && renderTexture.value.height == cam.pixelHeight {
        return;
      }
      if renderTexture.Some? {
        calls := calls + [ReleaseTarget(renderTexture.value.handle)];
      }
      renderTexture := Some(RenderTarget(nextHandle, cam.pixelWidth, cam.pixelHeight));
      calls := calls + [CreateTarget(nextHandle, cam.pixelWidth, cam.pixelHeight)];
      nextHandle := nextHandle + 1;
    }

    /** SetParameters: camera matrices and the light. The source reads the light without a
        null test, so a light must exist. */
    method SetParameters()
      requires camera.Some? && lightSource.Some?
      modifies this`calls
      ensures calls == old(calls) + ParameterCalls(camera.value, lightSource.value)
    {
      var cam := camera.value;
      var light := lightSource.value;
      var lightIsDirectional := light.kind == Directional;
      calls := calls + [SetMatrix(CameraToWorld, cam.cameraToWorld)];
      calls := calls + [SetMatrix(CameraInverseProjection, cam.inverseProjection)];
      calls := calls + [SetVector(LightVector, if lightIsDirectional then cam.forward else light.position)];
      calls := calls + [SetBool(PositionLight, !lightIsDirectional)];
    }

    /** AddChildShape: writes n's childCount, then appends each ShapeObject child followed
        by that child's own descendants. */
    static method AddChildShape(scene: Scene, shapeObjects: seq<nat>, parentShape: nat) returns (out: seq<nat>)
      requires scene.Valid() && parentShape < |scene.graph.nodes|
      modifies scene
      ensures scene.Valid() && scene.localScale == old(scene.localScale)
      ensures out == shapeObjects + ChildRuns(scene.graph, parentShape, |scene.graph.nodes[parentShape].children|)
      ensures scene.objects == Stamp(scene.graph, old(scene.objects), Run(scene.graph, parentShape))
      decreases |scene.graph.nodes| - scene.graph.depth[parentShape], 1
    {
      var g := scene.graph;
      ghost var os := scene.objects;
      var children := g.nodes[parentShape].children;
      scene.objects := scene.objects[parentShape := scene.objects[parentShape].(childCount := |children|)];
      StampFirst(g, os, parentShape);
      assert [parentShape] + ChildRuns(g, parentShape, 0) == [parentShape];
      out := shapeObjects;
      if |children| <= 0 {
        assert Run(g, parentShape) == [parentShape] + ChildRuns(g, parentShape, 0);
        assert out == shapeObjects + ChildRuns(g, parentShape, 0);
        return;
      }
      var i := 0;
      while i < scene.objects[parentShape].childCount
        invariant 0 <= i <= |children|
        invariant scene.Valid() && scene.localScale == old(scene.localScale)
        invariant out == shapeObjects + ChildRuns(g, parentShape, i)
        invariant scene.objects == Stamp(g, os, [parentShape] + ChildRuns(g, parentShape, i))
        invariant scene.objects[parentShape].childCount == |children|
      {
        out := VisitChild(scene, out, parentShape, i, os, shapeObjects);
        i := i + 1;
      }
      assert i == |children|;
      assert Run(g, parentShape) == [parentShape] + ChildRuns(g, parentShape, i);
    }

    /** One turn of AddChildShape's loop: child i of parentShape, if it carries a ShapeObject,
        is appended and followed by its own run, and the counts of that run are written. */
    static method VisitChild(scene: Scene, out: seq<nat>, parentShape: nat, i: nat,
                             ghost os: seq<ShapeState>, ghost prefix: seq<nat>) returns (next: seq<nat>)
      requires scene.Valid() && parentShape < |scene.graph.nodes| && |os| == |scene.graph.nodes|
      requires i < |scene.graph.nodes[parentShape].children|
      requires out == prefix + ChildRuns(scene.graph, parentShape, i)
      requires scene.objects == Stamp(scene.graph, os, [parentShape] + ChildRuns(scene.graph, parentShape, i))
      modifies scene
      ensures scene.Valid() && scene.localScale == old(scene.localScale)
      ensures next == prefix + ChildRuns(scene.graph, parentShape, i + 1)
      ensures scene.objects == Stamp(scene.graph, os, [parentShape] + ChildRuns(scene.graph, parentShape, i + 1))
      ensures scene.objects[parentShape].childCount == |scene.graph.nodes[parentShape].children|
      decreases |scene.graph.nodes| - scene.graph.depth[parentShape], 0
    {
      var g := scene.graph;
      var child := g.nodes[parentShape].children[i];
      ChildStep(g, os, parentShape, i);
      next := out;
      if IsShape(g, child) {
        next := next + [child];
        next := AddChildShape(scene, next, child);
        AppendRun(prefix, ChildRuns(g, parentShape, i), child, ChildRuns(g, child, |g.nodes[child].children|));
      }
      StampAt(g, os, [parentShape] + ChildRuns(g, parentShape, i + 1), parentShape);
    }

    /** The list-building half of CreateScene: sort the found shapes by operation, then
        append each followed by its descendants. */
    static method OrderShapes(scene: Scene, found: seq<nat>) returns (orderedShapes: seq<nat>)
      requires scene.Valid() && AllShapes(scene.graph, found)
      modifies scene
      ensures scene.Valid() && scene.localScale == old(scene.localScale)
      ensures orderedShapes == Flatten(scene.graph, SortByOperation(scene.graph, found))
      ensures scene.objects == Stamp(scene.graph, old(scene.objects), orderedShapes)
    {
      var g := scene.graph;
      ghost var os := scene.objects;
      var allShapes := SortByOperation(g, found);
      orderedShapes := [];
      for i := 0 to |allShapes|
        invariant scene.Valid() && scene.localScale == old(scene.localScale)
        invariant orderedShapes == Flatten(g, allShapes[..i])
        invariant scene.objects == Stamp(g, os, orderedShapes)
      {
        var shape := allShapes[i];
        FlattenStep(g, os, allShapes, i);
        orderedShapes := orderedShapes + [shape];
        orderedShapes := AddChildShape(scene, orderedShapes, shape);
        AppendAssoc(Flatten(g, allShapes[..i]), [shape], ChildRuns(g, shape, |g.nodes[shape].children|));
      }
      assert allShapes[..|allShapes|] == allShapes;
    }

    /** The record loop of CreateScene: one record per entry, reading each node's Scale
        (which updates scale caches) and childCount. */
    static method BuildShapeData(scene: Scene, orderedShapes: seq<nat>) returns (shapeData: array<ShapeData>)
      requires scene.Valid() && AllShapes(scene.graph, orderedShapes)
      modifies scene
      ensures fresh(shapeData)
      ensures scene.Valid() && scene.localScale == old(scene.localScale)
      ensures shapeData[..] == ShapeRecords(scene.graph, old(scene.localScale), old(scene.objects), orderedShapes)
      ensures scene.objects == ReadScales(scene.graph, old(scene.localScale), old(scene.objects), orderedShapes).states
    {
      var g := scene.graph;
      ghost var ls, os := scene.localScale, scene.objects;
      shapeData := new ShapeData[|orderedShapes|];
      for i := 0 to |orderedShapes|
        invariant scene.Valid() && scene.localScale == ls
        invariant scene.objects == ReadScales(g, ls, os, orderedShapes[..i]).states
        invariant shapeData[..i] == ShapeRecords(g, ls, os, orderedShapes[..i])
      {
        StoreRecord(scene, shapeData, orderedShapes, i, ls, os);
      }
      assert orderedShapes[..|orderedShapes|] == orderedShapes;
      assert shapeData[..] == shapeData[..|orderedShapes|];
    }

    /** One turn of the record loop: read node i's Scale through its getter and store its
        record in slot i. */
    static method StoreRecord(scene: Scene, shapeData: array<ShapeData>, orderedShapes: seq<nat>, i: nat,
                              ghost ls: seq<Vec3>, ghost os: seq<ShapeState>)
      requires Fits(scene.graph, ls, os) && AllShapes(scene.graph, orderedShapes)
      requires i < |orderedShapes| == shapeData.Length
      requires scene.Valid() && scene.localScale == ls
      requires scene.objects == ReadScales(scene.graph, ls, os, orderedShapes[..i]).states
      requires shapeData[..i] == ShapeRecords(scene.graph, ls, os, orderedShapes[..i])
      modifies scene, shapeData
      ensures scene.Valid() && scene.localScale == ls
      ensures scene.objects == ReadScales(scene.graph, ls, os, orderedShapes[..i + 1]).states
      ensures shapeData[..i + 1] == ShapeRecords(scene.graph, ls, os, orderedShapes[..i + 1])
    {
      var g := scene.graph;
      var shape := orderedShapes[i];
      ghost var before, r := RecordStep(g, ls, os, orderedShapes, i);
      var size := scene.GetScale(shape);
      assert size == r.value && scene.objects == r.states;
      var data := Record(g, shape, size, scene.objects[shape].childCount);
      ghost var done := shapeData[..i];
      shapeData[i] := data;
      assert shapeData[..i + 1] == done + [data];
    }

    /** CreateScene: flatten the scene, fill the records, upload them in a new compute
        buffer, set `numberShapes`, and queue the buffer for disposal. */
    method CreateScene(scene: Scene, found: seq<nat>)
      requires scene.Valid() && AllShapes(scene.graph, found)
      modifies this`buffersToDispose, this`calls, this`nextHandle, scene
      ensures scene.Valid() && scene.localScale == old(scene.localScale)
      ensures scene.objects == FrameStates(scene.graph, old(scene.localScale), old(scene.objects), found)
      ensures buffersToDispose
        == old(buffersToDispose) + [FrameBuffer(scene.graph, old(scene.localScale), old(scene.objects), found, old(nextHandle))]
      ensures var buffer := buffersToDispose[|buffersToDispose| - 1];
        calls == old(calls) + [SetBuffer(Shapes, buffer.handle), SetInt(NumberShapes, buffer.count)]
      ensures nextHandle == old(nextHandle) + 1
    {
      ghost var frame := FrameBuffer(scene.graph, scene.localScale, scene.objects, found, nextHandle);
      ghost var states := FrameStates(scene.graph, scene.localScale, scene.objects, found);
      var orderedShapes := OrderShapes(scene, found);
      var shapeData := BuildShapeData(scene, orderedShapes);
      var shapeBuffer := ComputeBuffer(nextHandle, shapeData.Length, GetSize(), shapeData[..]);
      assert shapeBuffer == frame && scene.objects == states;
      nextHandle := nextHandle + 1;
      calls := calls + [SetBuffer(Shapes, shapeBuffer.handle), SetInt(NumberShapes, shapeData.Length)];
      buffersToDispose := buffersToDispose + [shapeBuffer];
    }

    /** The part of OnRenderImage before the dispatch: an empty disposal list, the target,
        the scene buffer, the parameters and the group counts. */
    method PrepareFrame(scene: Scene, found: seq<nat>)
      requires scene.Valid() && AllShapes(scene.graph, found)
      requires camera.Some? && lightSource.Some?
      modifies this`buffersToDispose, this`renderTexture, this`calls, this`nextHandle
      modifies this`threadGroupX, this`threadGroupY, scene
      ensures scene.Valid() && scene.localScale == old(scene.localScale)
      ensures renderTexture == Some(NextTarget(old(renderTexture), old(nextHandle), camera.value))
      ensures threadGroupX == ThreadGroups(camera.value.pixelWidth)
      ensures threadGroupY == ThreadGroups(camera.value.pixelHeight)
      ensures nextHandle == HandleAfter(old(renderTexture), old(nextHandle), camera.value) + 1
      ensures buffersToDispose == [FrameBuffer(scene.graph, old(scene.localScale), old(scene.objects), found,
                                               HandleAfter(old(renderTexture), old(nextHandle), camera.value))]
      ensures scene.objects == FrameStates(scene.graph, old(scene.localScale), old(scene.objects), found)
      ensures calls == old(calls)
        + TargetCalls(old(renderTexture), old(nextHandle), camera.value)
        + [SetBuffer(Shapes, buffersToDispose[0].handle), SetInt(NumberShapes, buffersToDispose[0].count)]
        + ParameterCalls(camera.value, lightSource.value)
    {
      buffersToDispose := [];
      InitRenderTexture();
      ghost var frame := FrameBuffer(scene.graph, scene.localScale, scene.objects, found, nextHandle);
      ghost var states := FrameStates(scene.graph, scene.localScale, scene.objects, found);
      ghost var prepared := calls;
      CreateScene(scene, found);
      assert buffersToDispose == [frame] && scene.objects == states;
      assert calls == prepared + [SetBuffer(Shapes, frame.handle), SetInt(NumberShapes, frame.count)];
      SetParameters();
      Init();
    }

    /** The part of OnRenderImage after the preparation: bind the textures, dispatch,
        blit the target to the destination, and dispose every queued buffer. */
    method DispatchFrame(source: nat, destination: nat)
      requires renderTexture.Some?
      modifies this`calls
      ensures calls == old(calls)
        + [SetTexture(Source, FrameTexture(source)),
           SetTexture(Destination, TargetTexture(renderTexture.value.handle)),
           Dispatch(threadGroupX, threadGroupY, 1),
           Blit(TargetTexture(renderTexture.value.handle), FrameTexture(destination))]
        + Disposals(buffersToDispose)
    {
      var target := renderTexture.value.handle;
      calls := calls + [SetTexture(Source, FrameTexture(source))];
      calls := calls + [SetTexture(Destination, TargetTexture(target))];
      calls := calls + [Dispatch(threadGroupX, threadGroupY, 1)];
      calls := calls + [Blit(TargetTexture(target), FrameTexture(destination))];
      ghost var beforeDispose := calls;
      for i := 0 to |buffersToDispose|
        invariant calls == beforeDispose + Disposals(buffersToDispose[..i])
      {
        assert buffersToDispose[..i + 1][..i] == buffersToDispose[..i];
        calls := calls + [Dispose(buffersToDispose[i].handle)];
      }
      assert buffersToDispose[..|buffersToDispose|] == buffersToDispose;
    }

    /** OnRenderImage: one frame. Without a shader it only records the camera and light.
        Otherwise it prepares the frame, dispatches ceil(w/8) x ceil(h/8) x 1 groups,
        blits, and disposes every buffer created in the frame. With a shader the source
        dereferences both the camera and the light without a null test, so both must exist. */
    method OnRenderImage(scene: Scene, found: seq<nat>, current: Option<Camera>, light: Option<Light>, source: nat, destination: nat)
      requires scene.Valid() && AllShapes(scene.graph, found)
      requires hasShader ==> current.Some? && light.Some?
      modifies this, scene
      ensures camera == current && lightSource == light
      ensures scene.Valid() && scene.localScale == old(scene.localScale)
      ensures !hasShader ==>
        && calls == old(calls) && buffersToDispose == old(buffersToDispose)
        && renderTexture == old(renderTexture) && nextHandle == old(nextHandle)
        && threadGroupX == old(threadGroupX) && threadGroupY == old(threadGroupY)
        && scene.objects == old(scene.objects)
      ensures hasShader ==>
        var cam := current.value;
        var target := NextTarget(old(renderTexture), old(nextHandle), cam);
        var handle := if Reusable(old(renderTexture), cam) then old(nextHandle) else old(nextHandle) + 1;
        var buffer := FrameBuffer(scene.graph, old(scene.localScale), old(scene.objects), found, handle);
        && renderTexture == Some(target)
        && threadGroupX == ThreadGroups(cam.pixelWidth)
        && threadGroupY == ThreadGroups(cam.pixelHeight)
        && buffersToDispose == [buffer]
        && nextHandle == handle + 1
        && scene.objects == FrameStates(scene.graph, old(scene.localScale), old(scene.objects), found)
        && calls == old(calls)
             + TargetCalls(old(renderTexture), old(nextHandle), cam)
             + [SetBuffer(Shapes, buffer.handle), SetInt(NumberShapes, buffer.count)]
             + ParameterCalls(cam, light.value)
             + [SetTexture(Source, FrameTexture(source)),
                SetTexture(Destination, TargetTexture(target.handle)),
                Dispatch(threadGroupX, threadGroupY, 1),
                Blit(TargetTexture(target.handle), FrameTexture(destination))]
             + Disposals(buffersToDispose)
    {
      camera := current;
      lightSource := light;
      if !hasShader {
        return;
      }
      ghost var handle := if Reusable(renderTexture, current.value) then nextHandle else nextHandle + 1;
      ghost var frame := FrameBuffer(scene.graph, scene.localScale, scene.objects, found, handle);
      ghost var states := FrameStates(scene.graph, scene.localScale, scene.objects, found);
      PrepareFrame(scene, found);
      assert buffersToDispose == [frame] && scene.objects == states;
      DispatchFrame(source, destination);
    }
  }
}
