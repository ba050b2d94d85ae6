/** Points and displacements of the scene, with coordinates as reals. */
module Geometry {

  /** A position or a displacement in world space; z is the vertical axis. */
  datatype Vec3 = Vec3(x: real, y: real, z: real)

  function Add(a: Vec3, b: Vec3): Vec3 {
    Vec3(a.x + b.x, a.y + b.y, a.z + b.z)
  }

  function Sub(a: Vec3, b: Vec3): Vec3 {
    Vec3(a.x - b.x, a.y - b.y, a.z - b.z)
  }

  function Scale(v: Vec3, k: real): Vec3 {
    Vec3(v.x * k, v.y * k, v.z * k)
  }

  /** The same point moved vertically to height z. */
  function WithZ(v: Vec3, z: real): Vec3 {
    Vec3(v.x, v.y, z)
  }

  function Square(x: real): real {
    x * x
  }

  /** Squared distance between a and b in the ground plane (heights ignored). */
  function PlanarSq(a: Vec3, b: Vec3): real {
    (a.x - b.x) * (a.x - b.x) + (a.y - b.y) * (a.y - b.y)
  }

  /** Planar distance depends on x and y only. */
  lemma PlanarSqIgnoresHeight(a: Vec3, b: Vec3, a': Vec3, b': Vec3)
    requires a.x == a'.x && a.y == a'.y && b.x == b'.x && b.y == b'.y
    ensures PlanarSq(a, b) == PlanarSq(a', b')
  {
  }

  function Max(a: real, b: real): real {
    if a < b then b else a
  }
}
