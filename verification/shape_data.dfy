/**
 * The GPU record ShapeData and its packed layout: thirteen 4-byte floats and three
 * 4-byte ints, laid out field by field in declaration order with no padding.
 */
module ShapeLayout {
  import opened Wrappers
  import opened Vectors

  /** One shape as the compute kernel reads it. */
  datatype ShapeData = ShapeData(
    position: Vec3,
    rotation: Vec3,
    size: Vec3,
    colour: Vec3,
    shapeType: int,
    operation: int,
    blendStrength: real,
    numChildren: int)

  /** sizeof(float) and sizeof(int) in C#. */
  const FloatSize: nat := 4
  const IntSize: nat := 4

  /** The byte stride of one record, ShapeData.GetSize(). */
  function GetSize(): (bytes: nat)
    ensures bytes == 64
  {
    FloatSize * 13 + IntSize * 3
  }

  /** One scalar slot of the packed record. */
  datatype Word = F32(f: real) | I32(i: int)

  function Width(w: Word): nat
  {
    match w
    case F32(_) => FloatSize
    case I32(_) => IntSize
  }

  /** Bytes taken by a run of slots. */
  function ByteLength(ws: seq<Word>): nat
  {
    if ws == [] then 0 else ByteLength(ws[..|ws| - 1]) + Width(ws[|ws| - 1])
  }

  function Floats(ws: seq<Word>): nat
  {
    if ws == [] then 0 else Floats(ws[..|ws| - 1]) + (if ws[|ws| - 1].F32? then 1 else 0)
  }

  function Ints(ws: seq<Word>): nat
  {
    if ws == [] then 0 else Ints(ws[..|ws| - 1]) + (if ws[|ws| - 1].I32? then 1 else 0)
  }

  function Components(v: Vec3): seq<Word>
  {
    [F32(v.x), F32(v.y), F32(v.z)]
  }

  /** The record's slots in declaration order. */
  function Fields(d: ShapeData): (ws: seq<Word>)
    ensures |ws| == 16
  {
    Components(d.position) + Components(d.rotation) + Components(d.size) + Components(d.colour)
    + [I32(d.shapeType), I32(d.operation), F32(d.blendStrength), I32(d.numChildren)]
  }

  /** Reads one record back from its sixteen slots. */
  function FromFields(ws: seq<Word>): (r: Option<ShapeData>)
    ensures r.Some? ==> |ws| == 16
  {
    if |ws| != 16 then None
    else if !(ws[0].F32? && ws[1].F32? && ws[2].F32? && ws[3].F32? && ws[4].F32? && ws[5].F32?
              && ws[6].F32? && ws[7].F32? && ws[8].F32? && ws[9].F32? && ws[10].F32? && ws[11].F32?
              && ws[12].I32? && ws[13].I32? && ws[14].F32? && ws[15].I32?) then None
    else Some(ShapeData(
      Vec3(ws[0].f, ws[1].f, ws[2].f),
      Vec3(ws[3].f, ws[4].f, ws[5].f),
      Vec3(ws[6].f, ws[7].f, ws[8].f),
      Vec3(ws[9].f, ws[10].f, ws[11].f),
      ws[12].i, ws[13].i, ws[14].f, ws[15].i))
  }

  lemma {:induction false} ByteLengthAppend(a: seq<Word>, b: seq<Word>)
    ensures ByteLength(a + b) == ByteLength(a) + ByteLength(b)
    decreases |b|
  {
    if b == [] {
      assert a + b == a;
    } else {
      assert (a + b)[..|a + b| - 1] == a + b[..|b| - 1];
      ByteLengthAppend(a, b[..|b| - 1]);
    }
  }

  /** Thirteen floats and three ints, 4 bytes each: exactly GetSize() bytes, no padding. */
  lemma RecordLayout(d: ShapeData)
    ensures Floats(Fields(d)) == 13 && Ints(Fields(d)) == 3
    ensures ByteLength(Fields(d)) == GetSize()
    ensures forall k :: 0 <= k <= 16 ==> ByteLength(Fields(d)[..k]) == 4 * k
  {
    var ws := Fields(d);
    var j := 0;
    while j < 16
      invariant 0 <= j <= 16
      invariant Ints(ws[..j]) == (if j <= 12 then 0 else if j <= 14 then j - 12 else if j == 15 then 2 else 3)
      invariant Floats(ws[..j]) + Ints(ws[..j]) == j
    {
      assert ws[..j + 1][..j] == ws[..j];
      j := j + 1;
    }
    forall k | 0 <= k <= 16
      ensures ByteLength(ws[..k]) == 4 * k
    {
      var j := 0;
      while j < k
        invariant 0 <= j <= k
        invariant ByteLength(ws[..j]) == 4 * j
      {
        assert ws[..j + 1][..j] == ws[..j];
        j := j + 1;
      }
    }
    assert ws[..16] == ws;
  }

  /** Writing a record's slots and reading them back gives the record. */
  lemma FieldsRoundTrip(d: ShapeData)
    ensures FromFields(Fields(d)) == Some(d)
  {
  }

  /** The contents of a buffer of records, one record after another. */
  function SerializeAll(ds: seq<ShapeData>): (ws: seq<Word>)
    ensures |ws| == 16 * |ds|
  {
    if ds == [] then [] else SerializeAll(ds[..|ds| - 1]) + Fields(ds[|ds| - 1])
  }

  /** A buffer with stride GetSize() holds |ds| * 64 bytes. */
  lemma {:induction false} BufferByteLength(ds: seq<ShapeData>)
    ensures |SerializeAll(ds)| == 16 * |ds|
    ensures ByteLength(SerializeAll(ds)) == |ds| * GetSize()
    decreases |ds|
  {
    if ds != [] {
      var init := ds[..|ds| - 1];
      BufferByteLength(init);
      RecordLayout(ds[|ds| - 1]);
      ByteLengthAppend(SerializeAll(init), Fields(ds[|ds| - 1]));
    }
  }

  /** Record i occupies slots 16*i up to 16*i + 16 and reads back as itself. */
  lemma {:induction false} RecordAtStride(ds: seq<ShapeData>, i: nat)
    requires i < |ds|
    ensures |SerializeAll(ds)| == 16 * |ds|
    ensures SerializeAll(ds)[16 * i .. 16 * i + 16] == Fields(ds[i])
    ensures FromFields(SerializeAll(ds)[16 * i .. 16 * i + 16]) == Some(ds[i])
    decreases |ds|
  {
    BufferByteLength(ds);
    var init := ds[..|ds| - 1];
    BufferByteLength(init);
    if i < |ds| - 1 {
      RecordAtStride(init, i);
      assert SerializeAll(ds)[16 * i .. 16 * i + 16] == SerializeAll(init)[16 * i .. 16 * i + 16];
    } else {
      assert SerializeAll(ds)[16 * i .. 16 * i + 16] == Fields(ds[i]);
    }
    FieldsRoundTrip(ds[i]);
  }
}
