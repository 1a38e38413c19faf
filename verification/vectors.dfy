/** Three-component vectors, the `[x, y, z]` arrays the game passes to its math helpers. */
module Vectors {

  datatype Vec3 = Vec3(x: real, y: real, z: real)

  const Zero: Vec3 := Vec3(0.0, 0.0, 0.0)

  /**
   * MathUtils.sum: component-wise addition; adding the zero vector changes nothing.
   * The first ensures is written as a difference on purpose: it says that b is what
   * takes a to r, component by component.
   */
  function Sum(a: Vec3, b: Vec3): (r: Vec3)
    ensures r.x - a.x == b.x && r.y - a.y == b.y && r.z - a.z == b.z
    ensures b == Zero ==> r == a
    ensures a == Zero ==> r == b
  {
    Vec3(a.x + b.x, a.y + b.y, a.z + b.z)
  }

  /** MathUtils.mul: a scalar times a vector; 1 keeps the vector, 0 gives the zero vector. */
  function Mul(k: real, v: Vec3): (r: Vec3)
    ensures v.x == 0.0 ==> r.x == 0.0
    ensures v.y == 0.0 ==> r.y == 0.0
    ensures v.z == 1.0 ==> r.z == k
    ensures k == 1.0 ==> r == v
    ensures k == 0.0 ==> r == Zero
  {
    Vec3(k * v.x, k * v.y, k * v.z)
  }
}
