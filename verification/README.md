# RayMarching core in Dafny

This project models the C# core of a Unity ray-marching renderer. Once per frame,
`RayMarchingManager.OnRenderImage` does the following:

- It finds every `ShapeObject` in the scene.
- It sorts the shapes by their CSG operation.
- It flattens the transform hierarchy so that each shape is followed by its ShapeObject
  descendants (`CreateScene` with its local `AddChildShape`).
- It fills one 64-byte `ShapeData` record per listed shape and uploads the records in a
  compute buffer.
- It sets the camera and light parameters, sizes the render target and dispatches the
  kernel.
- It disposes the buffers it created for the frame.

Each shape's `Scale` property caches the scale it inherits from a ShapeObject parent behind
a dirty flag. It is read through that cache while the records are filled.

The model is split into these modules:

- **`Hierarchy`** (hierarchy.dfy) holds the transform hierarchy as an arena of nodes.
  - Each node records its parent, its ordered children, its ShapeObject properties (if it
    carries one), and its world position and rotation.
  - A rank field encodes acyclicity.
- **`ShapeTypes`** (shape_type.dfy) holds the `ShapeType` byte enum and its codes.
- **`ShapeLayout`** (shape_data.dfy) holds the `ShapeData` record, `GetSize` and the
  record's slot layout in a buffer.
- **`ShapeObjects`** (shape_object.dfy) holds the mutable component state: `childCount`,
  `_IsDirty`, `_ParentScale`, `_HasParent` and `transform.localScale`.
  - This state lives in the class `Scene`, whose `GetScale` and `SetScale` methods are the
    `Scale` getter and setter.
  - The methods are proved equal to the value-level functions `ReadScale` and `WriteScale`.
  - Lemmas about those functions state what the cache guarantees.
- **`Flattening`** (flatten.dfy) holds the sort by operation and the list `AddChildShape`
  builds (`Run`, `ChildRuns`, `Flatten`), with multiplicity and length lemmas.
- **`RayMarching`** (manager.dfy) holds the class `RayMarchingManager`.
  - Its fields are `Container`, `_BuffersToDispose`, `_RenderTexture` and the thread-group
    counts, plus the log of engine calls it makes.
  - Its methods are proved against the functions `FrameBuffer`, `FrameStates`,
    `TargetCalls`, `ParameterCalls` and `Disposals`.
  - `SceneRecordsCorrect` states what the uploaded records hold.

Four behaviours of the code are easy to misread; the model follows the code:

- **`childCount`:** `AddChildShape` writes `transform.childCount`, which is the number of
  all direct children, not only those that carry a ShapeObject.
  - `ChildCountCoversShapeChildren` relates the two counts.
  - `SceneRecordsCorrect` states the stored value.
- **Nested shapes:** the loop over the sorted shapes adds every found shape, nested ones
  included, and then recurses into its children. A shape nested in another shape is
  therefore listed at least twice. `FlattenMultiplicity` and `OrderedMultiplicity` state this.
- **Sort order:** `List.Sort` is not a stable sort, so only a permutation in non-decreasing
  operation order is promised.
- **Missing light or camera:** when no light exists, `SetParameters` dereferences a null
  light, and `InitRenderTexture` and `Init` dereference the camera without a null test. The
  model makes both a precondition of a frame with a shader.

## Model

| member | source | states |
|---|---|---|
| Vectors.Mul | Assets/Script/RayMarching/ShapeObject.cs:36 | Vector3.Scale by Vector3.one leaves a vector unchanged, on either side |
| ShapeTypes.Code | Assets/Script/RayMarching/ShapeType.cs:3-11 | every member's stored byte is below 6 |
| ShapeTypes.ToInt | Assets/Script/RayMarching/RayMarchingManager.cs:93 | the `(int)` cast of a shape type lies in 0..5 |
| ShapeTypes.FromCode | Assets/Script/RayMarching/ShapeType.cs:3-11 | an integer names a member exactly when it is in 0..5, and that member's code is the integer |
| ShapeTypes.CodeRoundTrip | Assets/Script/RayMarching/ShapeType.cs:5-10 | decoding a member's code gives the member back |
| ShapeTypes.CodeInjective | Assets/Script/RayMarching/ShapeType.cs:5-10 | distinct members have distinct codes |
| ShapeTypes.DeclaredCodes | Assets/Script/RayMarching/ShapeType.cs:5-11 | Sphere..Torus have codes 0..5 and the commented-out code 6 names nothing |
| ShapeLayout.GetSize | Assets/Script/RayMarching/ShapeData.cs:15-17 | the record stride is 64 bytes |
| ShapeLayout.Fields | Assets/Script/RayMarching/ShapeData.cs:5-13 | a record occupies sixteen scalar slots |
| ShapeLayout.FromFields | Assets/Script/RayMarching/ShapeData.cs:5-13 | a record is read back only from exactly sixteen slots |
| ShapeLayout.RecordLayout | Assets/Script/RayMarching/ShapeData.cs:5-17 | the fields are 13 floats and 3 ints; their bytes add up to GetSize() with no padding; each slot starts 4 bytes after the previous one |
| ShapeLayout.FieldsRoundTrip | Assets/Script/RayMarching/ShapeData.cs:5-13 | writing a record's slots and reading them back gives the record |
| ShapeLayout.SerializeAll | Assets/Script/RayMarching/RayMarchingManager.cs:101 | the data `SetData` copies into the buffer: sixteen slots per record, records one after another; BufferByteLength and RecordAtStride state its size and where each record lies |
| ShapeLayout.BufferByteLength | Assets/Script/RayMarching/RayMarchingManager.cs:100-101 | a buffer of n records has 16n slots and n * GetSize() bytes |
| ShapeLayout.RecordAtStride | Assets/Script/RayMarching/RayMarchingManager.cs:100-101 | record i occupies slots 16i..16i+16 of the buffer and reads back as itself |
| Hierarchy.ShapeParent | Assets/Script/RayMarching/ShapeObject.cs:27 | the result is the transform parent exactly when that parent exists and carries a ShapeObject; a found parent ranks above the node |
| ShapeObjects.ReadScale | Assets/Script/RayMarching/ShapeObject.cs:22-37 | after the getter the node is clean; only the node and the ShapeObject ancestors it climbs to can change; childCount is never touched; `_HasParent` is never cleared |
| ShapeObjects.WriteScale | Assets/Script/RayMarching/ShapeObject.cs:39-56 | the setter touches only node n; it does nothing while `_HasParent` is set and the parent carries a ShapeObject; otherwise it sets the local scale and the cached `_ParentScale` to the value, marks the node dirty and leaves `_HasParent` false |
| ShapeObjects.InitialCoherent | Assets/Script/RayMarching/ShapeObject.cs:13-15 | freshly created components (all dirty) form a coherent cache |
| ShapeObjects.ReadScaleCoherent | Assets/Script/RayMarching/ShapeObject.cs:22-37 | on a coherent cache the getter returns the local scale times the effective scale of the ShapeObject parent chain, and keeps the cache coherent |
| ShapeObjects.ReadScaleTwice | Assets/Script/RayMarching/ShapeObject.cs:24-36 | a second read returns the same value and changes no state |
| ShapeObjects.CleanReadIsLocal | Assets/Script/RayMarching/ShapeObject.cs:24-36 | a clean node answers local scale times cached parent scale, whatever the rest of the scene holds |
| ShapeObjects.DirtyRootRead | Assets/Script/RayMarching/ShapeObject.cs:24-34 | a dirty node without a ShapeObject parent returns its local scale and caches Vector3.one |
| ShapeObjects.WriteThenRead | Assets/Script/RayMarching/ShapeObject.cs:39-56 | without a ShapeObject parent, a read after a write returns exactly the written value |
| ShapeObjects.ParentWriteNotSeen | Assets/Script/RayMarching/ShapeObject.cs:24-36 | after a write to its root ShapeObject parent, a clean child still returns the scale it cached before, while its effective scale already follows the written value |
| ShapeObjects.Scene.constructor | Assets/Script/RayMarching/ShapeObject.cs:12-15 | every component starts dirty with `_HasParent` set and a zero cached scale |
| ShapeObjects.Scene.GetScale | Assets/Script/RayMarching/ShapeObject.cs:22-37 | the returned value and the new component states are those of ReadScale; local scales are unchanged |
| ShapeObjects.Scene.SetScale | Assets/Script/RayMarching/ShapeObject.cs:39-56 | the new local scales and component states are those of WriteScale |
| Flattening.DiscoveryFinds | Assets/Script/RayMarching/RayMarchingManager.cs:69 | every ShapeObject in the scene is among those found |
| Flattening.InsertPermutes | Assets/Script/RayMarching/RayMarchingManager.cs:70 | one insertion step adds exactly the inserted shape |
| Flattening.InsertSorted | Assets/Script/RayMarching/RayMarchingManager.cs:70 | one insertion step keeps the list in operation order |
| Flattening.Insert | Assets/Script/RayMarching/RayMarchingManager.cs:70 | one step of the sort: one longer, still only shapes; InsertPermutes and InsertSorted state what it adds and that it keeps the order |
| Flattening.SortByOperation | Assets/Script/RayMarching/RayMarchingManager.cs:70 | the sort keeps the length and holds only shapes; SortByOperationSorts states that it is a permutation in operation order |
| Flattening.SortByOperationSorts | Assets/Script/RayMarching/RayMarchingManager.cs:70 | the sorted list is a permutation of the found shapes, in non-decreasing operation order |
| Flattening.ChildRuns | Assets/Script/RayMarching/RayMarchingManager.cs:115-123 | every node the child loop appends carries a ShapeObject |
| Flattening.Run | Assets/Script/RayMarching/RayMarchingManager.cs:108-124 | a run starts with its own node and continues only with ShapeObject nodes |
| Flattening.Flatten | Assets/Script/RayMarching/RayMarchingManager.cs:72-78 | flattening a list of shapes lists only shapes |
| Flattening.Stamp | Assets/Script/RayMarching/RayMarchingManager.cs:111 | the `childCount` writes along a list of nodes keep one state per node; StampAt states what each node holds after them |
| Flattening.StampAt | Assets/Script/RayMarching/RayMarchingManager.cs:111 | after the writes, exactly the visited nodes hold their transform's child count and every other field is unchanged |
| Flattening.ChildCountCoversShapeChildren | Assets/Script/RayMarching/RayMarchingManager.cs:111-117 | the written count is at least the number of ShapeObject children, and equal exactly when every child carries a ShapeObject |
| Flattening.ChildRunsCount | Assets/Script/RayMarching/RayMarchingManager.cs:115-123 | the child loop lists a node once if it climbs to one of the visited children, otherwise not at all |
| Flattening.RunCount | Assets/Script/RayMarching/RayMarchingManager.cs:108-124 | a node occurs in n's run exactly once when it climbs to n through ShapeObjects, otherwise never |
| Flattening.RunMembers | Assets/Script/RayMarching/RayMarchingManager.cs:108-124 | a node is in n's run exactly when it climbs to n |
| Flattening.RunLength | Assets/Script/RayMarching/RayMarchingManager.cs:113-123 | a run is one node long exactly when the node has no ShapeObject child, and it is longer than its number of ShapeObject children |
| Flattening.FlattenCount | Assets/Script/RayMarching/RayMarchingManager.cs:74-78 | a node occurs in the ordered list once for every listed shape it climbs to |
| Flattening.FlattenMultiplicity | Assets/Script/RayMarching/RayMarchingManager.cs:69-78 | for any list holding every shape once: in its flattening, a shape without a ShapeObject parent is listed once, a nested shape at least twice, and a non-shape never |
| Flattening.FlattenLength | Assets/Script/RayMarching/RayMarchingManager.cs:72-78 | the ordered list is never shorter than the sorted list, and is equal in length exactly when no listed shape has a ShapeObject child |
| Flattening.FlattenAddsIffNested | Assets/Script/RayMarching/RayMarchingManager.cs:69-78 | for any list holding every shape once: its flattening is never shorter, and is longer exactly when some shape is nested in a shape |
| RayMarching.Record | Assets/Script/RayMarching/RayMarchingManager.cs:87-97 | the `new ShapeData { ... }` initializer for one shape; RecordReadBack states every field it fills |
| RayMarching.RecordReadBack | Assets/Script/RayMarching/RayMarchingManager.cs:84-97 | a record decodes to its shape's type, holds its position, rotation, colour, operation, triple blend strength, size and child count, and its packed slots read back as the record |
| RayMarching.ReadScales | Assets/Script/RayMarching/RayMarchingManager.cs:82-98 | one value per listed node; reading never changes a child count |
| RayMarching.ReadScalesCoherent | Assets/Script/RayMarching/RayMarchingManager.cs:82-98 | reading scales in turn keeps a coherent cache coherent |
| RayMarching.ReadScalesEffective | Assets/Script/RayMarching/RayMarchingManager.cs:91 | on a coherent cache the k-th read returns the k-th node's effective scale |
| RayMarching.ShapeRecords | Assets/Script/RayMarching/RayMarchingManager.cs:80-98 | one record per listed node |
| RayMarching.ShapeRecordsAt | Assets/Script/RayMarching/RayMarchingManager.cs:82-98 | record k is built from the k-th node, the k-th value read and that node's child count |
| RayMarching.StampKeepsCoherent | Assets/Script/RayMarching/RayMarchingManager.cs:111 | writing child counts leaves the scale caches as they were |
| RayMarching.Ordered | Assets/Script/RayMarching/RayMarchingManager.cs:69-78 | the laid-out list holds only shapes |
| RayMarching.OrderedAddsIffNested | Assets/Script/RayMarching/RayMarchingManager.cs:69-78 | with every shape found once, the laid-out (sorted, then flattened) list is never shorter than the found list, and is equal in length exactly when no shape is nested in a shape |
| RayMarching.OrderedMultiplicity | Assets/Script/RayMarching/RayMarchingManager.cs:69-78 | with every shape found once, the laid-out list holds a shape without a ShapeObject parent once, a nested shape at least twice, and no non-shape |
| RayMarching.FrameBuffer | Assets/Script/RayMarching/RayMarchingManager.cs:100-101 | the buffer's count equals its number of records and the length of the laid-out list, and its stride is GetSize() |
| RayMarching.FrameStates | Assets/Script/RayMarching/RayMarchingManager.cs:67-98 | a frame keeps one state per node |
| RayMarching.SceneRecordsCorrect | Assets/Script/RayMarching/RayMarchingManager.cs:67-106 | on a coherent scene: one record per laid-out shape, each with its effective scale, its transform's child count, its position, rotation and RGB colour, three times its blend strength, its shape type and its operation; the cache stays coherent |
| RayMarching.ShapeBufferBytes | Assets/Script/RayMarching/RayMarchingManager.cs:100-101 | the data a frame uploads fill its buffer exactly: 16 slots per counted record and count * stride = count * 64 bytes |
| RayMarching.ParameterCalls | Assets/Script/RayMarching/RayMarchingManager.cs:133-137 | the two matrices, the light vector and the position flag, in source order; LightParameter states which vector and flag the light gives |
| RayMarching.LightParameter | Assets/Script/RayMarching/RayMarchingManager.cs:131-137 | a directional light passes the camera's forward vector with the position flag off; any other light passes its position with the flag on |
| RayMarching.ThreadGroups | Assets/Script/RayMarching/RayMarchingManager.cs:36-37 | the fewest 8-pixel groups that cover the pixels |
| RayMarching.TargetCalls | Assets/Script/RayMarching/RayMarchingManager.cs:144-155 | no engine call exactly when the target exists with the camera's size |
| RayMarching.NextTarget | Assets/Script/RayMarching/RayMarchingManager.cs:144-155 | the target after the call has the camera's size, and is the old one when that one was reusable |
| RayMarching.HandleAfter | Assets/Script/RayMarching/RayMarchingManager.cs:149-155 | a new engine object is created exactly when the target is not reusable |
| RayMarching.ResizeOnce | Assets/Script/RayMarching/RayMarchingManager.cs:144-155 | a resize releases the old target and creates one new target, and a second call at the same size does nothing |
| RayMarching.Disposals | Assets/Script/RayMarching/RayMarchingManager.cs:61-64 | one Dispose per buffer, in list order |
| RayMarching.RayMarchingManager.constructor | Assets/Script/RayMarching/RayMarchingManager.cs:17-22 | no camera, no light, an empty disposal list and no render target |
| RayMarching.RayMarchingManager.Init | Assets/Script/RayMarching/RayMarchingManager.cs:34-38 | the thread-group counts are ThreadGroups of the camera's pixel size |
| RayMarching.RayMarchingManager.InitRenderTexture | Assets/Script/RayMarching/RayMarchingManager.cs:140-156 | target, engine calls and next handle are those of NextTarget, TargetCalls and HandleAfter |
| RayMarching.RayMarchingManager.SetParameters | Assets/Script/RayMarching/RayMarchingManager.cs:127-138 | appends the two matrices, the light vector and the position flag |
| RayMarching.RayMarchingManager.AddChildShape | Assets/Script/RayMarching/RayMarchingManager.cs:108-124 | appends exactly the ShapeObject runs of the node's children and writes the child counts along the run |
| RayMarching.RayMarchingManager.VisitChild | Assets/Script/RayMarching/RayMarchingManager.cs:116-122 | one loop turn extends the list and the written counts by child i's run |
| RayMarching.RayMarchingManager.OrderShapes | Assets/Script/RayMarching/RayMarchingManager.cs:69-78 | the ordered list is the flattening of the sorted shapes, and the child counts are written along it |
| RayMarching.RayMarchingManager.BuildShapeData | Assets/Script/RayMarching/RayMarchingManager.cs:80-98 | the records are ShapeRecords of the ordered list, and the caches are as ReadScales leaves them |
| RayMarching.RayMarchingManager.StoreRecord | Assets/Script/RayMarching/RayMarchingManager.cs:84-97 | one loop turn extends the records and the reads by node i |
| RayMarching.RayMarchingManager.CreateScene | Assets/Script/RayMarching/RayMarchingManager.cs:67-106 | appends the frame's buffer to the disposal list, binds it and its count, and leaves the states of FrameStates |
| RayMarching.RayMarchingManager.PrepareFrame | Assets/Script/RayMarching/RayMarchingManager.cs:47-53 | the disposal list holds exactly this frame's buffer; target, thread groups, handles and engine calls are in source order |
| RayMarching.RayMarchingManager.DispatchFrame | Assets/Script/RayMarching/RayMarchingManager.cs:55-64 | the textures, the dispatch and the blit are followed by one Dispose per listed buffer |
| RayMarching.RayMarchingManager.OnRenderImage | Assets/Script/RayMarching/RayMarchingManager.cs:40-65 | the camera and light are always recorded; a frame with a shader needs both; without a shader nothing else changes; with one, exactly one buffer is created and disposed and the whole engine-call sequence is fixed |

## Left out

- Engine calls are recorded as values, not performed. The camera matrices are
  uninterpreted, and the compute kernel, the texture contents and `Graphics.Blit` are not
  modelled.
- `Camera.current`, `FindObjectOfType<Light>()` and `FindObjectsOfType<ShapeObject>()`
  become parameters of `OnRenderImage`.
  - The methods accept any list of shape nodes.
  - `FlattenMultiplicity`, `FlattenAddsIffNested`, `OrderedMultiplicity` and
    `OrderedAddsIffNested` assume it lists each shape exactly
    once, as `IsDiscovery` says.
  - The order of `FindObjectsOfType` is left open.
- Floating point: vectors, the blend strength and colours are reals. The rounding of
  `pixelWidth / 8f` is not modelled: `ThreadGroups` is the exact ceiling.
- The `OperationType` enum's own definition is not part of this model. An operation is its
  ordinal, which is what the sort compares and the record stores.
- The bytes `SetData` copies are modelled as slots of four bytes. Their encoding is not
  modelled.
- Editor and serialization attributes (`ExecuteInEditMode`, `SerializeField`, `Range`,
  `HideInInspector`) are left out, and so are `Shader.PropertyToID`. Properties are named by
  a datatype.
- Flattening.SortByOperationSorts: `List.Sort` is modelled by an insertion sort.
  - Only the permutation and the operation order are stated, because the engine's sort is
    unstable and its tie order is unspecified.
  - The ordered list therefore follows the model's tie order.
- Re-parenting and scene edits between frames are left out: the hierarchy is a fixed
  arena, and ShapeObject components are rows of `Scene` rather than separate heap objects.
- RayMarching.RayMarchingManager.OnRenderImage: requires a camera and a light when a shader
  is assigned. The source dereferences `Camera.current` in `InitRenderTexture` and `Init`
  and the light in `SetParameters`, so without them it throws before any dispatch.
- Hierarchy: a transform carries at most one ShapeObject. Unity allows several on one
  GameObject; `FindObjectsOfType` would list each of them, while `GetComponent` in
  `AddChildShape` and in the `Scale` getter picks only the first.
- RayMarching.RayMarchingManager.SetParameters: requires a light. The source throws a null
  dereference without one.
- ShapeObjects.Scene.SetScale: requires a transform parent while `_HasParent` is set. The
  source throws a null dereference on a root shape.
- RayMarching.RayMarchingManager.OnRenderImage: the method body is split.
  - `PrepareFrame` holds lines 47-53 and `DispatchFrame` holds lines 55-64.
  - The loop bodies of `AddChildShape` and of the record loop are the methods `VisitChild`
    and `StoreRecord`.
- RayMarching.RayMarchingManager.CreateScene: a scene without shapes yields a buffer of zero
  records. The engine's rejection of a zero-count `ComputeBuffer` is not modelled.
