/** Unity's `Vector3`, over mathematical reals, with the few operations the
    scripts use on positions. Float rounding is not modelled. */
module Geometry {

  datatype Vec3 = Vec3(x: real, y: real, z: real)

  const ZERO: Vec3 := Vec3(0.0, 0.0, 0.0)

  function Add(a: Vec3, b: Vec3): Vec3 {
    Vec3(a.x + b.x, a.y + b.y, a.z + b.z)
  }

  function Sub(a: Vec3, b: Vec3): Vec3 {
    Vec3(a.x - b.x, a.y - b.y, a.z - b.z)
  }

  /** `Vector3.Distance(a, b)`, which Unity defines as `(a - b).magnitude`. */
  function Distance(magnitude: Vec3 -> real, a: Vec3, b: Vec3): real {
    magnitude(Sub(a, b))
  }
}
