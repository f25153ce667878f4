/**
 * The byte-backed ShapeType enumeration and its explicit codes.
 */
module ShapeTypes {
  import opened Wrappers

  /** The C# enum's underlying type. */
  newtype Byte = x: int | 0 <= x < 256

  /** Cone is declared but not implemented by the kernel, Pyramid is experimental;
      both are members and encode like the others. A Prism (code 6) is not declared. */
  datatype ShapeType = Sphere | Cube | Cone | Pyramid | Capsule | Torus

  /** The explicit code of each member, as stored in the byte. */
  function Code(t: ShapeType): (b: Byte)
    ensures b < 6
  {
    match t
    case Sphere => 0
    case Cube => 1
    case Cone => 2
    case Pyramid => 3
    case Capsule => 4
    case Torus => 5
  }

  /** The `(int)` cast used when the record is filled. */
  function ToInt(t: ShapeType): (i: int)
    ensures 0 <= i <= 5
  {
    Code(t) as int
  }

  /** The member with a given code; only 0 to 5 name a member. */
  function FromCode(c: int): (r: Option<ShapeType>)
    ensures r.Some? <==> 0 <= c <= 5
    ensures r.Some? ==> ToInt(r.value) == c
  {
    if c == 0 then Some(Sphere)
    else if c == 1 then Some(Cube)
    else if c == 2 then Some(Cone)
    else if c == 3 then Some(Pyramid)
    else if c == 4 then Some(Capsule)
    else if c == 5 then Some(Torus)
    else None
  }

  /** Decoding the code of a member gives the member back. */
  lemma CodeRoundTrip(t: ShapeType)
    ensures FromCode(ToInt(t)) == Some(t)
  {
  }

  /** Distinct members have distinct codes. */
  lemma CodeInjective(s: ShapeType, t: ShapeType)
    ensures ToInt(s) == ToInt(t) ==> s == t
  {
    CodeRoundTrip(s);
    CodeRoundTrip(t);
  }

  /** The declared codes, with the commented-out Prism left undefined. */
  lemma DeclaredCodes()
    ensures ToInt(Sphere) == 0 && ToInt(Cube) == 1 && ToInt(Cone) == 2
    ensures ToInt(Pyramid) == 3 && ToInt(Capsule) == 4 && ToInt(Torus) == 5
    ensures FromCode(6) == None
  {
  }
}
