/**
 * Real-valued 3-vectors: the value behind a scene-graph `Vector3`.
 * Floating-point rounding is not modelled; the arithmetic is exact.
 */
module Vector3 {

  datatype Vec3 = Vec3(x: real, y: real, z: real)

  const Zero: Vec3 := Vec3(0.0, 0.0, 0.0)

  function Add(a: Vec3, b: Vec3): Vec3
  {
    Vec3(a.x + b.x, a.y + b.y, a.z + b.z)
  }

  function Sub(a: Vec3, b: Vec3): Vec3
  {
    Vec3(a.x - b.x, a.y - b.y, a.z - b.z)
  }

  function Neg(a: Vec3): Vec3
  {
    Vec3(-a.x, -a.y, -a.z)
  }

  /** The squared Euclidean length; `length() > t` is `LengthSq() > t * t` for `t >= 0`. */
  function LengthSq(a: Vec3): (r: real)
    ensures r >= 0.0
  {
    a.x * a.x + a.y * a.y + a.z * a.z
  }
}
