/** Three-component vectors over the reals, standing for glm::vec3, and the
    Option type used for the references that may be null. */
module Vectors {

  datatype Option<+T> = None | Some(value: T)

  datatype Vec3 = Vec3(x: real, y: real, z: real)

  const Origin: Vec3 := Vec3(0.0, 0.0, 0.0)

  /** glm::vec3(a): all three components equal to a. */
  function Splat(a: real): (r: Vec3)
    ensures r.x == a && r.y == a && r.z == a
  {
    Vec3(a, a, a)
  }

  function Add(a: Vec3, b: Vec3): Vec3
  {
    Vec3(a.x + b.x, a.y + b.y, a.z + b.z)
  }

  function Sub(a: Vec3, b: Vec3): Vec3
  {
    Vec3(a.x - b.x, a.y - b.y, a.z - b.z)
  }

  function Scale(k: real, a: Vec3): Vec3
  {
    Vec3(k * a.x, k * a.y, k * a.z)
  }

  function Dot(a: Vec3, b: Vec3): real
  {
    a.x * b.x + a.y * b.y + a.z * b.z
  }

  /** The squared Euclidean length; glm::length is its square root. */
  function LengthSq(a: Vec3): (r: real)
    ensures r >= 0.0
  {
    SquareNonNegative(a.x);
    SquareNonNegative(a.y);
    SquareNonNegative(a.z);
    Dot(a, a)
  }

  /** Squared distance between two points. */
  function DistanceSq(a: Vec3, b: Vec3): (r: real)
    ensures r >= 0.0
  {
    LengthSq(Sub(a, b))
  }

  lemma DistanceSqSymmetric(a: Vec3, b: Vec3)
    ensures DistanceSq(a, b) == DistanceSq(b, a)
  {
    LengthSqScale(-1.0, Sub(a, b));
    assert Sub(b, a) == Scale(-1.0, Sub(a, b));
  }

  lemma SquareNonNegative(a: real)
    ensures a * a >= 0.0
  {
    if a < 0.0 {
      assert a * a == (-a) * (-a);
    }
  }

  lemma PositiveSquare(a: real)
    requires a > 0.0
    ensures a * a > 0.0
  {
  }

  lemma ScaleScale(a: real, b: real, v: Vec3)
    ensures Scale(a, Scale(b, v)) == Scale(a * b, v)
  {
  }

  /** Scaling a vector by k scales its squared length by k*k. */
  lemma LengthSqScale(k: real, a: Vec3)
    ensures LengthSq(Scale(k, a)) == k * k * LengthSq(a)
  {
    calc {
      LengthSq(Scale(k, a));
      (k * a.x) * (k * a.x) + (k * a.y) * (k * a.y) + (k * a.z) * (k * a.z);
      { assert (k * a.x) * (k * a.x) == k * k * (a.x * a.x);
        assert (k * a.y) * (k * a.y) == k * k * (a.y * a.y);
        assert (k * a.z) * (k * a.z) == k * k * (a.z * a.z); }
      k * k * (a.x * a.x) + k * k * (a.y * a.y) + k * k * (a.z * a.z);
      k * k * LengthSq(a);
    }
  }
}
