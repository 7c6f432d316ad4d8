/** The extra escape-time samplers of srcs/mathematical_enhancements.c:
    the deep-zoom Julia sampler, the 4D Mandelbrot sampler and the Julia
    sampler with a choice of iteration formula. */
module Samplers {
  import opened Geometry
  import opened Quaternion
  import opened EscapeTime
  import opened SampleJulia

  /** Deep zoom: the position and the fourth component are divided by the zoom
      level, then z <- z^2 + c with escape at |z|^2 > 4. */
  function DeepZoomValue(julia: Julia, pos: Point, zoomLevel: real): real
    requires zoomLevel != 0.0
  {
    var z := Quat(pos.x / zoomLevel, pos.y / zoomLevel, pos.z / zoomLevel, julia.w / zoomLevel);
    Escape(Square, z, julia.c, julia.maxIter, 4.0)
  }

  /** Mandelbrot: c is (pos.x, pos.y, pos.z, julia.w), z starts at 0.1 * julia.c,
      and z <- z^2 + c escapes at |z|^2 > 4. */
  function MandelbrotValue(julia: Julia, pos: Point): real {
    Escape(Square, Scale(0.1, julia.c), Quat(pos.x, pos.y, pos.z, julia.w), julia.maxIter, 4.0)
  }

  /** The alternative-formula Julia sampler: the formula chosen by its id, and
      the higher escape bound |z|^2 > 16. */
  function AlternativeValue(julia: Julia, pos: Point, formula: int): real {
    Escape(FormulaOf(formula), JuliaStart(julia, pos), julia.c, julia.maxIter, 16.0)
  }

  /** `sample_4D_Julia_deep_zoom` */
  method SampleJuliaDeepZoom(julia: Julia, pos: Point, zoomLevel: real) returns (r: real)
    requires zoomLevel != 0.0
    ensures r == DeepZoomValue(julia, pos, zoomLevel)
  {
    var escapeThresholdSq := 4.0;
    var z := Quat(pos.x / zoomLevel, pos.y / zoomLevel, pos.z / zoomLevel, julia.w / zoomLevel);
    var c := Quat(julia.c.x, julia.c.y, julia.c.z, julia.c.w);
    for iter := 0 to julia.maxIter
      invariant Escape(Square, z, c, julia.maxIter - iter, 4.0) == DeepZoomValue(julia, pos, zoomLevel)
    {
      var zx, zy, zz, zw := z.x, z.y, z.z, z.w;
      InlinedSquare(zx, zy, zz, zw);
      assert z == Quat(zx, zy, zz, zw);
      z := Quat(zx * zx - zy * zy - zz * zz - zw * zw, 2.0 * (zx * zy), 2.0 * (zx * zz), 2.0 * (zx * zw));
      z := Quat(z.x + c.x, z.y + c.y, z.z + c.z, z.w + c.w);
      var magSq := MagnitudeSq(z);
      if magSq > escapeThresholdSq {
        return 0.0;
      }
    }
    return 1.0;
  }

  /** `sample_4D_Mandelbrot` */
  method SampleMandelbrot4D(julia: Julia, pos: Point) returns (r: real)
    ensures r == MandelbrotValue(julia, pos)
  {
    var escapeThresholdSq := 4.0;
    var c := Quat(pos.x, pos.y, pos.z, julia.w);
    var z := Quat(julia.c.x * 0.1, julia.c.y * 0.1, julia.c.z * 0.1, julia.c.w * 0.1);
    assert z == Scale(0.1, julia.c);
    for iter := 0 to julia.maxIter
      invariant Escape(Square, z, c, julia.maxIter - iter, 4.0) == MandelbrotValue(julia, pos)
    {
      var zx, zy, zz, zw := z.x, z.y, z.z, z.w;
      InlinedSquare(zx, zy, zz, zw);
      assert z == Quat(zx, zy, zz, zw);
      z := Quat(zx * zx - zy * zy - zz * zz - zw * zw, 2.0 * (zx * zy), 2.0 * (zx * zz), 2.0 * (zx * zw));
      z := Quat(z.x + c.x, z.y + c.y, z.z + c.z, z.w + c.w);
      var magSq := MagnitudeSq(z);
      if magSq > escapeThresholdSq {
        return 0.0;
      }
    }
    return 1.0;
  }

  /** The cubic term as the alternative-formula loop writes it out (z^2 first,
      then z * z^2) is Term(Cube, z). */
  lemma InlinedCube(zx: real, zy: real, zz: real, zw: real)
    ensures var z2 := Quat(zx * zx - zy * zy - zz * zz - zw * zw, 2.0 * (zx * zy), 2.0 * (zx * zz), 2.0 * (zx * zw));
            Quat(zx * z2.x - zy * z2.y - zz * z2.z - zw * z2.w,
                 zx * z2.y + zy * z2.x + zz * z2.w - zw * z2.z,
                 zx * z2.z - zy * z2.w + zz * z2.x + zw * z2.y,
                 zx * z2.w + zy * z2.z - zz * z2.y + zw * z2.x)
            == Term(Cube, Quat(zx, zy, zz, zw))
  {
    InlinedSquare(zx, zy, zz, zw);
  }

  /** The term z^2 + z as the loop writes it out is Term(SquarePlusZ, z). */
  lemma InlinedSquarePlusZ(zx: real, zy: real, zz: real, zw: real)
    ensures Quat(zx * zx - zy * zy - zz * zz - zw * zw + zx, 2.0 * (zx * zy) + zy, 2.0 * (zx * zz) + zz, 2.0 * (zx * zw) + zw)
            == Term(SquarePlusZ, Quat(zx, zy, zz, zw))
  {
    InlinedSquare(zx, zy, zz, zw);
  }

  /** The term |z|^2 - z^2 as the loop writes it out is Term(MagnitudeMinusSquare, z). */
  lemma InlinedMagnitudeMinusSquare(zx: real, zy: real, zz: real, zw: real)
    ensures var magSqZ := zx * zx + zy * zy + zz * zz + zw * zw;
            Quat(magSqZ - (zx * zx - zy * zy - zz * zz - zw * zw), -2.0 * (zx * zy), -2.0 * (zx * zz), -2.0 * (zx * zw))
            == Term(MagnitudeMinusSquare, Quat(zx, zy, zz, zw))
  {
    InlinedSquare(zx, zy, zz, zw);
  }

  /** The `switch (formula)` of `sample_4D_Julia_alternative_formula`: the
      written-out term of the formula the id selects. */
  method AlternativeTerm(formula: int, zx: real, zy: real, zz: real, zw: real) returns (zNew: Quat)
    ensures zNew == Term(FormulaOf(formula), Quat(zx, zy, zz, zw))
  {
    if formula == 0 {
      InlinedSquare(zx, zy, zz, zw);
      zNew := Quat(zx * zx - zy * zy - zz * zz - zw * zw, 2.0 * (zx * zy), 2.0 * (zx * zz), 2.0 * (zx * zw));
    } else if formula == 1 {
      InlinedCube(zx, zy, zz, zw);
      var z2 := Quat(zx * zx - zy * zy - zz * zz - zw * zw, 2.0 * (zx * zy), 2.0 * (zx * zz), 2.0 * (zx * zw));
      zNew := Quat(zx * z2.x - zy * z2.y - zz * z2.z - zw * z2.w,
                   zx * z2.y + zy * z2.x + zz * z2.w - zw * z2.z,
                   zx * z2.z - zy * z2.w + zz * z2.x + zw * z2.y,
                   zx * z2.w + zy * z2.z - zz * z2.y + zw * z2.x);
    } else if formula == 2 {
      InlinedSquarePlusZ(zx, zy, zz, zw);
      zNew := Quat(zx * zx - zy * zy - zz * zz - zw * zw + zx, 2.0 * (zx * zy) + zy, 2.0 * (zx * zz) + zz, 2.0 * (zx * zw) + zw);
    } else if formula == 3 {
      InlinedMagnitudeMinusSquare(zx, zy, zz, zw);
      var magSqZ := zx * zx + zy * zy + zz * zz + zw * zw;
      zNew := Quat(magSqZ - (zx * zx - zy * zy - zz * zz - zw * zw), -2.0 * (zx * zy), -2.0 * (zx * zz), -2.0 * (zx * zw));
    } else {
      InlinedSquare(zx, zy, zz, zw);
      zNew := Quat(zx * zx - zy * zy - zz * zz - zw * zw, 2.0 * (zx * zy), 2.0 * (zx * zz), 2.0 * (zx * zw));
    }
  }

  /** `sample_4D_Julia_alternative_formula`: the term is chosen per iteration by
      the formula id (0 z^2, 1 z^3, 2 z^2 + z, 3 |z|^2 - z^2, any other id z^2). */
  method SampleJuliaAlternativeFormula(julia: Julia, pos: Point, formula: int) returns (r: real)
    ensures r == AlternativeValue(julia, pos, formula)
  {
    var escapeThresholdSq := 16.0;
    var z := Quat(pos.x, pos.y, pos.z, julia.w);
    var c := Quat(julia.c.x, julia.c.y, julia.c.z, julia.c.w);
    for iter := 0 to julia.maxIter
      invariant Escape(FormulaOf(formula), z, c, julia.maxIter - iter, 16.0) == AlternativeValue(julia, pos, formula)
    {
      var zx, zy, zz, zw := z.x, z.y, z.z, z.w;
      assert z == Quat(zx, zy, zz, zw);
      var zNew := AlternativeTerm(formula, zx, zy, zz, zw);
      z := Quat(zNew.x + c.x, zNew.y + c.y, zNew.z + c.z, zNew.w + c.w);
      var magSq := MagnitudeSq(z);
      if magSq > escapeThresholdSq {
        return 0.0;
      }
    }
    return 1.0;
  }

  /** An unknown formula id behaves exactly like formula 0. */
  lemma UnknownFormulaIsStandard(julia: Julia, pos: Point, formula: int)
    requires formula < 0 || 3 < formula
    ensures AlternativeValue(julia, pos, formula) == AlternativeValue(julia, pos, 0)
  {
  }

  /** Every sampler of this file returns 0.0 or 1.0. */
  lemma SamplersAreBinary(julia: Julia, pos: Point, zoomLevel: real, formula: int)
    requires zoomLevel != 0.0
    ensures DeepZoomValue(julia, pos, zoomLevel) in {0.0, 1.0}
    ensures MandelbrotValue(julia, pos) in {0.0, 1.0}
    ensures AlternativeValue(julia, pos, formula) in {0.0, 1.0}
  {
  }

  /** With the standard formula the alternative sampler's higher bound (16)
      escapes less often than the Julia sampler's bound (4): a point that
      escapes the former also escapes the latter. */
  lemma AlternativeEscapeImpliesJuliaEscape(julia: Julia, pos: Point)
    requires AlternativeValue(julia, pos, 0) == 0.0
    ensures JuliaValue(julia, pos) == 0.0
  {
    EscapeBoundMonotone(Square, JuliaStart(julia, pos), julia.c, julia.maxIter, 4.0, 16.0);
  }
}
