/** The Julia-set samplers of srcs/sample_julia.c: the plain loop that uses
    the quaternion library and the optimized loop with inlined squaring and a
    squared-magnitude escape test. */
module SampleJulia {
  import opened Geometry
  import opened Quaternion
  import opened EscapeTime

  /** `t_julia`: iteration count, threshold, fourth start component and constant c.
      The samplers read max_iter, w and c; threshold is not read by them. */
  datatype Julia = Julia(maxIter: nat, threshold: real, w: real, c: Quat)

  /** The starting quaternion (pos.x, pos.y, pos.z, julia.w). */
  function JuliaStart(julia: Julia, pos: Point): Quat {
    Quat(pos.x, pos.y, pos.z, julia.w)
  }

  /** The value a Julia sampler returns: iterate z <- z^2 + c from the start
      point at most max_iter times, escaping once |z| > 2 (|z|^2 > 4). */
  function JuliaValue(julia: Julia, pos: Point): real {
    Escape(Square, JuliaStart(julia, pos), julia.c, julia.maxIter, 4.0)
  }

  /** `cl_quat_mod_fast`: sqrt(x^2 + y^2 + z^2 + w^2). */
  function QuatModFast(q: Quat, sqrt: real -> real): (m: real)
    requires IsSqrt(sqrt)
    ensures 0.0 <= m && m * m == q.x * q.x + q.y * q.y + q.z * q.z + q.w * q.w
  {
    var magnitudeSquared := q.x * q.x + q.y * q.y + q.z * q.z + q.w * q.w;
    sqrt(magnitudeSquared)
  }

  /** `sample_4D_Julia`: z <- z * z + c with the library product and sum, and
      an escape test |z| > 2 on the magnitude. */
  method SampleJulia4D(julia: Julia, pos: Point, sqrt: real -> real) returns (r: real)
    requires IsSqrt(sqrt)
    ensures r == JuliaValue(julia, pos)
  {
    var iter: nat := 0;
    var z := Quat(pos.x, pos.y, pos.z, julia.w);
    while iter < julia.maxIter
      invariant iter <= julia.maxIter
      invariant Escape(Square, z, julia.c, julia.maxIter - iter, 4.0) == JuliaValue(julia, pos)
    {
      z := Mult(z, z);
      z := Sum(z, julia.c);
      var tempMod := Modulus(z, sqrt);
      SqrtExceeds(sqrt, MagnitudeSq(z), 2.0);
      assert tempMod > 2.0 <==> MagnitudeSq(z) > 4.0;
      if tempMod > 2.0 {
        return 0.0;
      }
      iter := iter + 1;
    }
    return 1.0;
  }

  /** `sample_4D_Julia_optimized`: the same iteration with the square written
      out component-wise and the escape test |z|^2 > 4. */
  method SampleJulia4DOptimized(julia: Julia, pos: Point) returns (r: real)
    ensures r == JuliaValue(julia, pos)
  {
    var z := Quat(pos.x, pos.y, pos.z, julia.w);
    var c := julia.c;
    var escapeThresholdSq := 4.0;
    for iter := 0 to julia.maxIter
      invariant Escape(Square, z, c, julia.maxIter - iter, 4.0) == JuliaValue(julia, pos)
    {
      var zx, zy, zz, zw := z.x, z.y, z.z, z.w;
      InlinedSquare(zx, zy, zz, zw);
      assert z == Quat(zx, zy, zz, zw);
      z := Quat(zx * zx - zy * zy - zz * zz - zw * zw, 2.0 * (zx * zy), 2.0 * (zx * zz), 2.0 * (zx * zw));
      z := Quat(z.x + c.x, z.y + c.y, z.z + c.z, z.w + c.w);
      var magSq := MagnitudeSq(z);
      if magSq > escapeThresholdSq {
        return 0.0;
      }
    }
    return 1.0;
  }

  /** The sampled value is a strict classification: 0.0 (escaped) or 1.0. */
  lemma JuliaValueIsBinary(julia: Julia, pos: Point)
    ensures JuliaValue(julia, pos) == 0.0 || JuliaValue(julia, pos) == 1.0
  {
  }

  /** With max_iter = 0 no iteration runs and the point counts as inside. */
  lemma JuliaValueNoIterations(julia: Julia, pos: Point)
    requires julia.maxIter == 0
    ensures JuliaValue(julia, pos) == 1.0
  {
  }

  /** Escape monotonicity: a point that escapes within max_iter = K iterations
      also escapes for every K' >= K. */
  lemma JuliaEscapeMonotone(julia: Julia, pos: Point, more: nat)
    requires julia.maxIter <= more
    requires JuliaValue(julia, pos) == 0.0
    ensures JuliaValue(julia.(maxIter := more), pos) == 0.0
  {
    EscapeMonotone(Square, JuliaStart(julia, pos), julia.c, julia.maxIter, more, 4.0);
  }
}
