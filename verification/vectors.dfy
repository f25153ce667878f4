/**
 * Unity's Vector3 and Color, with exact real components (float rounding is not modelled).
 */
module Vectors {
  datatype Vec3 = Vec3(x: real, y: real, z: real)

  /** Vector3.one */
  const One: Vec3 := Vec3(1.0, 1.0, 1.0)

  /** Vector3.zero, the value of an unassigned Vector3 field. */
  const Zero: Vec3 := Vec3(0.0, 0.0, 0.0)

  /** Vector3.Scale: the component-wise product. */
  function Mul(a: Vec3, b: Vec3): (r: Vec3)
    ensures b == One ==> r == a
    ensures a == One ==> r == b
  {
    Vec3(a.x * b.x, a.y * b.y, a.z * b.z)
  }

  /** Color: red, green, blue and alpha channels. */
  datatype Color = Color(r: real, g: real, b: real, a: real)
}
