/** Quaternion algebra used by every escape-time formula: sum, Hamilton
    product, squared magnitude and magnitude (srcs/mathematical_enhancements.c). */
module Quaternion {

  /** A quaternion x + y i + z j + w k (`cl_quat` / `cl_quat_d`). */
  datatype Quat = Quat(x: real, y: real, z: real, w: real)

  /** The square root the C library provides, as a parameter: for s >= 0 it is
      the non-negative number whose square is s. */
  ghost predicate IsSqrt(sqrt: real -> real) {
    forall s :: 0.0 <= s ==> 0.0 <= sqrt(s) && sqrt(s) * sqrt(s) == s
  }

  /** |q|^2 = x^2 + y^2 + z^2 + w^2 */
  function MagnitudeSq(q: Quat): (m: real)
    ensures 0.0 <= m
  {
    q.x * q.x + q.y * q.y + q.z * q.z + q.w * q.w
  }

  /** `cl_quat_sum_d`: component-wise sum; taking away either summand
      gives back the other. */
  function Sum(q1: Quat, q2: Quat): (r: Quat)
    ensures Diff(r, q2) == q1 && Diff(r, q1) == q2
  {
    Quat(q1.x + q2.x, q1.y + q2.y, q1.z + q2.z, q1.w + q2.w)
  }

  /** `cl_quat_mult_d`: the Hamilton product q1 * q2, with the real number 1
      as its identity on both sides. */
  function Mult(q1: Quat, q2: Quat): (r: Quat)
    ensures q1 == Real(1.0) ==> r == q2
    ensures q2 == Real(1.0) ==> r == q1
  {
    Quat(q1.x * q2.x - q1.y * q2.y - q1.z * q2.z - q1.w * q2.w,
         q1.x * q2.y + q1.y * q2.x + q1.z * q2.w - q1.w * q2.z,
         q1.x * q2.z - q1.y * q2.w + q1.z * q2.x + q1.w * q2.y,
         q1.x * q2.w + q1.y * q2.z - q1.z * q2.y + q1.w * q2.x)
  }

  /** Component-wise difference. */
  function Diff(q1: Quat, q2: Quat): Quat {
    Quat(q1.x - q2.x, q1.y - q2.y, q1.z - q2.z, q1.w - q2.w)
  }

  /** The real number a as a quaternion. */
  function Real(a: real): Quat {
    Quat(a, 0.0, 0.0, 0.0)
  }

  /** The quaternion scaled by a real factor. */
  function Scale(a: real, q: Quat): Quat {
    Quat(a * q.x, a * q.y, a * q.z, a * q.w)
  }

  /** `cl_quat_mod_d`: the magnitude |q|, computed with the given square root. */
  function Modulus(q: Quat, sqrt: real -> real): (m: real)
    requires IsSqrt(sqrt)
    ensures 0.0 <= m && m * m == MagnitudeSq(q)
  {
    sqrt(MagnitudeSq(q))
  }

  /** The squared magnitude of a product is the product of the squared
      magnitudes (Euler's four-square identity), so |q1 q2| = |q1| |q2|. */
  lemma MultMagnitude(q1: Quat, q2: Quat)
    ensures MagnitudeSq(Mult(q1, q2)) == MagnitudeSq(q1) * MagnitudeSq(q2)
  {
  }

  /** Addition is commutative. */
  lemma SumCommutes(q1: Quat, q2: Quat)
    ensures Sum(q1, q2) == Sum(q2, q1)
  {
  }

  /** The square written out component by component, as the samplers inline
      it, (x^2 - y^2 - z^2 - w^2, 2xy, 2xz, 2xw), is the Hamilton product z * z. */
  lemma InlinedSquare(zx: real, zy: real, zz: real, zw: real)
    ensures Quat(zx * zx - zy * zy - zz * zz - zw * zw, 2.0 * (zx * zy), 2.0 * (zx * zz), 2.0 * (zx * zw))
         == Mult(Quat(zx, zy, zz, zw), Quat(zx, zy, zz, zw))
  {
  }

  /** Comparing a square root against a bound t is comparing s against t^2
      (or always true for a negative bound). */
  lemma SqrtExceeds(sqrt: real -> real, s: real, t: real)
    requires IsSqrt(sqrt) && 0.0 <= s
    ensures sqrt(s) > t <==> (t < 0.0 || s > t * t)
  {
    var r := sqrt(s);
    assert 0.0 <= r && r * r == s;
    if t >= 0.0 {
      if r > t {
        assert r * (r - t) > 0.0;
        assert t * (r - t) >= 0.0;
      } else {
        assert r * (t - r) >= 0.0;
        assert t * (t - r) >= 0.0;
      }
    }
  }
}
