/** Vectors over the reals (glam's `Vec3` without rounding). */
module Geometry {

  function Min(x: real, y: real): real { if x <= y then x else y }

  function Max(x: real, y: real): real { if x <= y then y else x }

  function Clamp(x: real, lo: real, hi: real): real
    requires lo <= hi
  {
    if x < lo then lo else if x > hi then hi else x
  }

  /** The product, named: proofs relate products of equal factors without multiplying out. */
  function Times(x: real, y: real): real { x * y }

  datatype Vec3 = Vec3(x: real, y: real, z: real) {

    function Add(v: Vec3): Vec3 { Vec3(x + v.x, y + v.y, z + v.z) }

    function Sub(v: Vec3): Vec3 { Vec3(x - v.x, y - v.y, z - v.z) }

    function Scale(k: real): Vec3 { Vec3(x * k, y * k, z * k) }

    function Dot(v: Vec3): real { Times(x, v.x) + Times(y, v.y) + Times(z, v.z) }

    function Cross(v: Vec3): Vec3 {
      Vec3(y * v.z - z * v.y, z * v.x - x * v.z, x * v.y - y * v.x)
    }

    function LengthSquared(): real { Dot(this) }
  }

  const ZERO := Vec3(0.0, 0.0, 0.0)
  const UNIT_X := Vec3(1.0, 0.0, 0.0)
  const UNIT_Y := Vec3(0.0, 1.0, 0.0)

  lemma SquareNonNegative(x: real)
    ensures Times(x, x) >= 0.0
  {
    assert x >= 0.0 ==> x * x >= 0.0;
    assert x <= 0.0 ==> -x * -x >= 0.0 && -x * -x == x * x;
  }

  lemma LengthNonNegative(v: Vec3)
    ensures v.LengthSquared() >= 0.0
  {
    SquareNonNegative(v.x);
    SquareNonNegative(v.y);
    SquareNonNegative(v.z);
  }
}
