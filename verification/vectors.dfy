/**
 Three-component vectors over exact reals.  The program works with
 single-precision `glm::vec3`; here every component is a mathematical real,
 so sums of the per-tick deltas never drift.
 */
module Vectors {

  datatype Vec3 = Vec3(x: real, y: real, z: real)

  const Zero: Vec3 := Vec3(0.0, 0.0, 0.0)

  function Add(a: Vec3, b: Vec3): Vec3 {
    Vec3(a.x + b.x, a.y + b.y, a.z + b.z)
  }

  function Neg(a: Vec3): Vec3 {
    Vec3(-a.x, -a.y, -a.z)
  }

  /** Multiplication by a scalar. */
  function Scale(k: real, a: Vec3): Vec3 {
    Vec3(k * a.x, k * a.y, k * a.z)
  }

  /** Component-wise division by 100, the world-to-camera scaling of the tram position. */
  function Hundredth(a: Vec3): Vec3 {
    Vec3(a.x / 100.0, a.y / 100.0, a.z / 100.0)
  }
}
