/** The enhanced sampling entry points of srcs/mathematical_enhancements.c:
    the dispatcher over fractal kind, precision and formula, supersampling
    over an N x N x N sub-grid, and the variance test that decides whether a
    grid cell is refined. */
module Enhancements {
  import opened Geometry
  import opened Quaternion
  import opened EscapeTime
  import opened SampleJulia
  import opened Samplers

  /** The part of `t_data` the enhanced samplers read, apart from the
      supersampling level: `fract->julia`, `fract->step_size`, the zoom level,
      the refinement depth and threshold, the precision flag, the fractal kind
      (0 Julia, 1 Mandelbrot, 2 hybrid) and the formula id. */
  datatype Settings = Settings(
    julia: Julia,
    stepSize: real,
    zoomLevel: real,
    maxGridDepth: int,
    detailThreshold: real,
    useDoublePrecision: int,
    fractalType: int,
    quaternionFormula: int)

  /** `sinf` is given as a parameter; all the model needs is its range. */
  ghost predicate IsSine(sin: real -> real) {
    forall t :: -1.0 <= sin(t) <= 1.0
  }

  /** Deep zoom is chosen for the Julia kind when double precision is on and
      the zoom level exceeds 1000. */
  predicate DeepZoom(s: Settings) {
    s.useDoublePrecision != 0 && s.zoomLevel > 1000.0
  }

  /** The position divided by the zoom level when that level exceeds 1. */
  function ZoomedPosition(s: Settings, pos: Point): (p: Point)
    ensures s.zoomLevel > 1.0 ==> p.x * s.zoomLevel == pos.x && p.y * s.zoomLevel == pos.y && p.z * s.zoomLevel == pos.z
    ensures s.zoomLevel <= 1.0 ==> p == pos
  {
    if s.zoomLevel > 1.0 then Point(pos.x / s.zoomLevel, pos.y / s.zoomLevel, pos.z / s.zoomLevel) else pos
  }

  /** The Julia kind (fractal type 0) at an already prepared position: deep
      zoom, else the alternative formula when the id is nonzero, else the
      optimized sampler. Deep zoom divides by the zoom level itself. */
  function JuliaKindValue(s: Settings, p: Point): real {
    if DeepZoom(s) then DeepZoomValue(s.julia, p, s.zoomLevel)
    else if s.quaternionFormula != 0 then AlternativeValue(s.julia, p, s.quaternionFormula)
    else JuliaValue(s.julia, p)
  }

  /** The hybrid kind: a blend of the Julia and Mandelbrot values. */
  function HybridValue(s: Settings, p: Point, sin: real -> real): real {
    var blend := 0.5 + 0.5 * sin(p.x + p.y + p.z);
    JuliaValue(s.julia, p) * blend + MandelbrotValue(s.julia, p) * (1.0 - blend)
  }

  /** One unsupersampled value of `sample_fractal_enhanced`: the position is
      zoomed first, then the fractal kind selects the sampler; kinds other
      than 0, 1 and 2 use the optimized Julia sampler. */
  function DirectValue(s: Settings, pos: Point, sin: real -> real): real {
    var p := ZoomedPosition(s, pos);
    if s.fractalType == 0 then JuliaKindValue(s, p)
    else if s.fractalType == 1 then MandelbrotValue(s.julia, p)
    else if s.fractalType == 2 then HybridValue(s, p, sin)
    else JuliaValue(s.julia, p)
  }

  /** The distance between neighbouring sub-samples: step_size / (2N). */
  function SubSampleOffset(s: Settings, n: nat): real
    requires n > 0
  {
    s.stepSize / ((n * 2) as real)
  }

  /** The sub-sample with grid indices (x, y, z): offset by (x - N/2) * offset
      from pos on each axis, so the sub-grid is centred on pos only for odd N. */
  function SubPosition(pos: Point, n: nat, offset: real, x: int, y: int, z: int): Point {
    Point(pos.x + ((x - n / 2) as real) * offset,
          pos.y + ((y - n / 2) as real) * offset,
          pos.z + ((z - n / 2) as real) * offset)
  }

  /** The sum of the first k sub-samples of the row (x, y). */
  function SumZ(s: Settings, pos: Point, n: nat, offset: real, x: int, y: int, k: nat, sin: real -> real): real {
    if k == 0 then 0.0
    else SumZ(s, pos, n, offset, x, y, k - 1, sin) + DirectValue(s, SubPosition(pos, n, offset, x, y, k - 1), sin)
  }

  /** The sum of the first k rows of the slice x. */
  function SumY(s: Settings, pos: Point, n: nat, offset: real, x: int, k: nat, sin: real -> real): real {
    if k == 0 then 0.0
    else SumY(s, pos, n, offset, x, k - 1, sin) + SumZ(s, pos, n, offset, x, k - 1, n, sin)
  }

  /** The sum of the first k slices. */
  function SumX(s: Settings, pos: Point, n: nat, offset: real, k: nat, sin: real -> real): real {
    if k == 0 then 0.0
    else SumX(s, pos, n, offset, k - 1, sin) + SumY(s, pos, n, offset, k - 1, n, sin)
  }

  /** The supersampled value: the mean of the N^3 direct values. */
  function SupersampledValue(s: Settings, pos: Point, n: nat, sin: real -> real): real
    requires n > 1
  {
    SumX(s, pos, n, SubSampleOffset(s, n), n, sin) / ((n * n * n) as real)
  }

  /** What `sample_fractal_enhanced` and `sample_with_supersampling` return for
      a supersampling level ss. */
  function EnhancedValue(s: Settings, pos: Point, ss: int, sin: real -> real): real {
    if ss > 1 then SupersampledValue(s, pos, ss, sin) else DirectValue(s, pos, sin)
  }

  /** The sampler the refinement test uses: no zoom division, and no hybrid
      kind (every kind other than 0 and 1 uses the optimized Julia sampler). */
  function RefineSample(s: Settings, p: Point): real {
    if s.fractalType == 0 then JuliaKindValue(s, p)
    else if s.fractalType == 1 then MandelbrotValue(s.julia, p)
    else JuliaValue(s.julia, p)
  }

  /** The eight corners of a cube of side cellSize centred on the origin, then
      the centre. */
  function CellOffsets(cellSize: real): (offsets: seq<Point>)
    ensures |offsets| == 9
  {
    var h := cellSize / 2.0;
    [Point(-h, -h, -h), Point(h, -h, -h), Point(-h, h, -h), Point(h, h, -h),
     Point(-h, -h, h), Point(h, -h, h), Point(-h, h, h), Point(h, h, h),
     Point(0.0, 0.0, 0.0)]
  }

  /** The nine samples of the cell centred on center. */
  function CellSamples(s: Settings, center: Point, cellSize: real): (samples: seq<real>)
    ensures |samples| == 9
  {
    var offsets := CellOffsets(cellSize);
    seq(9, i requires 0 <= i < 9 => RefineSample(s, Translate(center, offsets[i])))
  }

  /** The sum of a sequence, accumulated front to back. */
  function Total(xs: seq<real>): real {
    if |xs| == 0 then 0.0 else Total(xs[..|xs| - 1]) + xs[|xs| - 1]
  }

  /** The sum of the squared deviations of xs from m. */
  function SquaredDeviations(xs: seq<real>, m: real): (d: real)
    ensures 0.0 <= d
  {
    if |xs| == 0 then 0.0
    else
      var dev := xs[|xs| - 1] - m;
      SquaredDeviations(xs[..|xs| - 1], m) + dev * dev
  }

  function Mean(xs: seq<real>): real
    requires |xs| > 0
  {
    Total(xs) / (|xs| as real)
  }

  /** The population variance. */
  function Variance(xs: seq<real>): (v: real)
    requires |xs| > 0
    ensures 0.0 <= v
  {
    SquaredDeviations(xs, Mean(xs)) / (|xs| as real)
  }

  /** Whether a cell is refined: the depth is below the maximum and the
      standard deviation of the nine samples exceeds the threshold, that is a
      negative threshold or a variance above its square. */
  predicate Refines(s: Settings, center: Point, cellSize: real, depth: int) {
    depth < s.maxGridDepth
    && (s.detailThreshold < 0.0 || Variance(CellSamples(s, center, cellSize)) > s.detailThreshold * s.detailThreshold)
  }

  /** `t_data` as far as the enhanced samplers use it. Only the supersampling
      level is written, and only temporarily. */
  class FractalData {
    var julia: Julia
    var stepSize: real
    var zoomLevel: real
    var maxGridDepth: int
    var detailThreshold: real
    var useDoublePrecision: int
    var fractalType: int
    var quaternionFormula: int
    var supersampling: int

    /** Every setting except the supersampling level. */
    function Snapshot(): Settings
      reads this`julia, this`stepSize, this`zoomLevel, this`maxGridDepth, this`detailThreshold,
            this`useDoublePrecision, this`fractalType, this`quaternionFormula
    {
      Settings(julia, stepSize, zoomLevel, maxGridDepth, detailThreshold, useDoublePrecision, fractalType, quaternionFormula)
    }

    constructor (s: Settings, supersampling: int)
      ensures Snapshot() == s && this.supersampling == supersampling
    {
      julia := s.julia;
      stepSize := s.stepSize;
      zoomLevel := s.zoomLevel;
      maxGridDepth := s.maxGridDepth;
      detailThreshold := s.detailThreshold;
      useDoublePrecision := s.useDoublePrecision;
      fractalType := s.fractalType;
      quaternionFormula := s.quaternionFormula;
      this.supersampling := supersampling;
    }

    /** `sample_fractal_enhanced`: delegates to supersampling when the level
        exceeds 1, otherwise zooms the position and dispatches on the kind. */
    method SampleFractalEnhanced(pos: Point, sin: real -> real) returns (r: real)
      modifies this`supersampling
      decreases if supersampling > 1 then 2 else 0, 1
      ensures supersampling == old(supersampling)
      ensures r == EnhancedValue(Snapshot(), pos, supersampling, sin)
    {
      if supersampling > 1 {
        r := SampleWithSupersampling(pos, sin);
        return;
      }
      var zoomedPos := pos;
      if zoomLevel > 1.0 {
        zoomedPos := Point(pos.x / zoomLevel, pos.y / zoomLevel, pos.z / zoomLevel);
      }
      if fractalType == 0 {
        if useDoublePrecision != 0 && zoomLevel > 1000.0 {
          r := SampleJuliaDeepZoom(julia, zoomedPos, zoomLevel);
        } else if quaternionFormula != 0 {
          r := SampleJuliaAlternativeFormula(julia, zoomedPos, quaternionFormula);
        } else {
          r := SampleJulia4DOptimized(julia, zoomedPos);
        }
      } else if fractalType == 1 {
        r := SampleMandelbrot4D(julia, zoomedPos);
      } else if fractalType == 2 {
        var juliaVal := SampleJulia4DOptimized(julia, zoomedPos);
        var mandelVal := SampleMandelbrot4D(julia, zoomedPos);
        var blend := 0.5 + 0.5 * sin(zoomedPos.x + zoomedPos.y + zoomedPos.z);
        r := juliaVal * blend + mandelVal * (1.0 - blend);
      } else {
        r := SampleJulia4DOptimized(julia, zoomedPos);
      }
    }

    /** `sample_with_supersampling`: at level N > 1 the mean of the direct
        values at the N^3 sub-positions, otherwise the direct value. Each
        inner call runs with the level set to 1, and the level is restored. */
    method SampleWithSupersampling(pos: Point, sin: real -> real) returns (r: real)
      modifies this`supersampling
      decreases if supersampling > 1 then 2 else 1, 0
      ensures supersampling == old(supersampling)
      ensures r == EnhancedValue(Snapshot(), pos, supersampling, sin)
    {
      if supersampling <= 1 {
        var originalSupersampling := supersampling;
        supersampling := 1;
        r := SampleFractalEnhanced(pos, sin);
        supersampling := originalSupersampling;
        return;
      }
      ghost var s := Snapshot();
      var total := 0.0;
      var samples := supersampling;
      var offset := stepSize / ((samples * 2) as real);
      var x := 0;
      while x < samples
        invariant 0 <= x <= samples
        invariant supersampling == samples && Snapshot() == s
        invariant total == SumX(s, pos, samples, offset, x, sin)
      {
        var y := 0;
        while y < samples
          invariant 0 <= y <= samples
          invariant supersampling == samples && Snapshot() == s
          invariant total == SumX(s, pos, samples, offset, x, sin) + SumY(s, pos, samples, offset, x, y, sin)
        {
          var z := 0;
          while z < samples
            invariant 0 <= z <= samples
            invariant supersampling == samples && Snapshot() == s
            invariant total == SumX(s, pos, samples, offset, x, sin) + SumY(s, pos, samples, offset, x, y, sin)
                               + SumZ(s, pos, samples, offset, x, y, z, sin)
          {
            var samplePos := SubPosition(pos, samples, offset, x, y, z);
            var originalSupersampling := supersampling;
            supersampling := 1;
            var sampleValue := SampleFractalEnhanced(samplePos, sin);
            supersampling := originalSupersampling;
            total := total + sampleValue;
            z := z + 1;
          }
          y := y + 1;
        }
        x := x + 1;
      }
      r := total / ((samples * samples * samples) as real);
    }

    /** The per-sample switch of `should_refine_grid_cell`: the same choice
        as the dispatcher for the Julia kind, but on the unzoomed position and
        without the hybrid kind. */
    method SampleForRefinement(p: Point) returns (r: real)
      ensures r == RefineSample(Snapshot(), p)
    {
      if fractalType == 0 {
        if useDoublePrecision != 0 && zoomLevel > 1000.0 {
          r := SampleJuliaDeepZoom(julia, p, zoomLevel);
        } else if quaternionFormula != 0 {
          r := SampleJuliaAlternativeFormula(julia, p, quaternionFormula);
        } else {
          r := SampleJulia4DOptimized(julia, p);
        }
      } else if fractalType == 1 {
        r := SampleMandelbrot4D(julia, p);
      } else {
        r := SampleJulia4DOptimized(julia, p);
      }
    }

    /** `should_refine_grid_cell`: no refinement at or beyond the maximum
        depth; otherwise the nine samples' standard deviation is compared with
        the detail threshold. */
    method ShouldRefineGridCell(center: Point, cellSize: real, currentDepth: int, sqrt: real -> real) returns (b: bool)
      requires IsSqrt(sqrt)
      ensures b == Refines(Snapshot(), center, cellSize, currentDepth)
    {
      if currentDepth >= maxGridDepth {
        return false;
      }
      var samples := new real[9];
      var offsets := CellOffsets(cellSize);
      for i := 0 to 9
        invariant forall j :: 0 <= j < i ==> samples[j] == CellSamples(Snapshot(), center, cellSize)[j]
      {
        var samplePos := Translate(center, offsets[i]);
        var value := SampleForRefinement(samplePos);
        samples[i] := value;
      }
      ghost var xs := samples[..];
      assert xs == CellSamples(Snapshot(), center, cellSize);

      var mean := 0.0;
      for i := 0 to 9
        invariant samples[..] == xs
        invariant mean == Total(xs[..i])
      {
        TotalStep(xs, i);
        mean := mean + samples[i];
      }
      assert xs[..9] == xs;
      mean := mean / 9.0;
      assert mean == Mean(xs);

      var variance := 0.0;
      for i := 0 to 9
        invariant samples[..] == xs
        invariant variance == SquaredDeviations(xs[..i], mean)
      {
        var diff := samples[i] - mean;
        DeviationsStep(xs, i, mean, diff);
        variance := variance + diff * diff;
      }
      variance := variance / 9.0;
      assert variance == Variance(xs);

      var stdDev := sqrt(variance);
      RefineDecision(Snapshot(), center, cellSize, currentDepth, sqrt);
      b := stdDev > detailThreshold;
    }
  }

  // ----- properties -----

  /** Below the maximum depth, comparing the standard deviation with the
      threshold is the refinement decision. */
  lemma RefineDecision(s: Settings, center: Point, cellSize: real, depth: int, sqrt: real -> real)
    requires IsSqrt(sqrt) && depth < s.maxGridDepth
    ensures var variance := Variance(CellSamples(s, center, cellSize));
            (sqrt(variance) > s.detailThreshold) == Refines(s, center, cellSize, depth)
  {
    SqrtExceeds(sqrt, Variance(CellSamples(s, center, cellSize)), s.detailThreshold);
  }

  lemma TotalStep(xs: seq<real>, i: nat)
    requires i < |xs|
    ensures Total(xs[..i + 1]) == Total(xs[..i]) + xs[i]
  {
    assert xs[..i + 1][..i] == xs[..i];
  }

  lemma DeviationsStep(xs: seq<real>, i: nat, m: real, dev: real)
    requires i < |xs| && dev == xs[i] - m
    ensures SquaredDeviations(xs[..i + 1], m) == SquaredDeviations(xs[..i], m) + dev * dev
  {
    assert xs[..i + 1][..i] == xs[..i];
  }

  /** The hybrid blend of two binary values with a weight in [0, 1] lies in [0, 1]. */
  lemma HybridInUnitInterval(s: Settings, p: Point, sin: real -> real)
    requires IsSine(sin)
    ensures 0.0 <= HybridValue(s, p, sin) <= 1.0
  {
    var blend := 0.5 + 0.5 * sin(p.x + p.y + p.z);
    assert 0.0 <= blend <= 1.0;
    JuliaValueIsBinary(s.julia, p);
    SamplersAreBinary(s.julia, p, 1.0, 0);
  }

  /** Every direct value lies in [0, 1]; without the hybrid kind it is 0 or 1. */
  lemma DirectValueInUnitInterval(s: Settings, pos: Point, sin: real -> real)
    requires IsSine(sin)
    ensures 0.0 <= DirectValue(s, pos, sin) <= 1.0
    ensures s.fractalType != 2 ==> DirectValue(s, pos, sin) in {0.0, 1.0}
  {
    var p := ZoomedPosition(s, pos);
    JuliaValueIsBinary(s.julia, p);
    SamplersAreBinary(s.julia, p, if DeepZoom(s) then s.zoomLevel else 1.0, s.quaternionFormula);
    if s.fractalType == 2 {
      HybridInUnitInterval(s, p, sin);
    }
  }

  lemma {:induction false} SumZBounds(s: Settings, pos: Point, n: nat, offset: real, x: int, y: int, k: nat, sin: real -> real)
    requires IsSine(sin)
    ensures 0.0 <= SumZ(s, pos, n, offset, x, y, k, sin) <= k as real
  {
    if k > 0 {
      SumZBounds(s, pos, n, offset, x, y, k - 1, sin);
      DirectValueInUnitInterval(s, SubPosition(pos, n, offset, x, y, k - 1), sin);
    }
  }

  lemma {:induction false} SumYBounds(s: Settings, pos: Point, n: nat, offset: real, x: int, k: nat, sin: real -> real)
    requires IsSine(sin)
    ensures 0.0 <= SumY(s, pos, n, offset, x, k, sin) <= (k * n) as real
  {
    if k > 0 {
      SumYBounds(s, pos, n, offset, x, k - 1, sin);
      SumZBounds(s, pos, n, offset, x, k - 1, n, sin);
      ProductStep(k, n);
    }
  }

  /** nn is n * n, passed separately to keep the step linear. */
  lemma {:induction false} SumXBounds(s: Settings, pos: Point, n: nat, offset: real, k: nat, nn: nat, sin: real -> real)
    requires IsSine(sin) && nn == n * n
    ensures 0.0 <= SumX(s, pos, n, offset, k, sin) <= (k * nn) as real
  {
    if k > 0 {
      SumXBounds(s, pos, n, offset, k - 1, nn, sin);
      SumYBounds(s, pos, n, offset, k - 1, n, sin);
      ProductStep(k, nn);
    }
  }

  lemma ProductStep(k: nat, m: nat)
    requires k > 0
    ensures (k * m) as real == ((k - 1) * m) as real + m as real
  {
    assert k * m == (k - 1) * m + m;
  }

  /** The mean of N^3 values in [0, 1] lies in [0, 1]. */
  lemma SupersampledInUnitInterval(s: Settings, pos: Point, n: nat, sin: real -> real)
    requires n > 1 && IsSine(sin)
    ensures 0.0 <= SupersampledValue(s, pos, n, sin) <= 1.0
  {
    SumXBounds(s, pos, n, SubSampleOffset(s, n), n, n * n, sin);
    assert n * n * n > 0;
    QuotientInUnitInterval(SumX(s, pos, n, SubSampleOffset(s, n), n, sin), (n * n * n) as real);
  }

  lemma QuotientInUnitInterval(a: real, b: real)
    requires 0.0 <= a <= b && 0.0 < b
    ensures 0.0 <= a / b <= 1.0
  {
  }

  /** Whatever the supersampling level, the enhanced value lies in [0, 1]. */
  lemma EnhancedValueInUnitInterval(s: Settings, pos: Point, ss: int, sin: real -> real)
    requires IsSine(sin)
    ensures 0.0 <= EnhancedValue(s, pos, ss, sin) <= 1.0
  {
    if ss > 1 {
      SupersampledInUnitInterval(s, pos, ss, sin);
    } else {
      DirectValueInUnitInterval(s, pos, sin);
    }
  }

  /** The deep-zoom branch of the dispatcher divides the position by the zoom
      level twice (once as the zoomed position, once inside the deep-zoom
      sampler) but the fourth component only once. */
  lemma DeepZoomDividesPositionTwice(s: Settings, pos: Point, sin: real -> real)
    requires s.fractalType == 0 && DeepZoom(s)
    ensures var zl := s.zoomLevel;
            DirectValue(s, pos, sin)
            == Escape(Square, Quat(pos.x / zl / zl, pos.y / zl / zl, pos.z / zl / zl, s.julia.w / zl), s.julia.c, s.julia.maxIter, 4.0)
  {
    var zl := s.zoomLevel;
    var p := ZoomedPosition(s, pos);
    assert p == Point(pos.x / zl, pos.y / zl, pos.z / zl);
    assert DirectValue(s, pos, sin) == DeepZoomValue(s.julia, p, zl);
  }

  /** In the dispatcher an unknown formula id does not fall back to formula 0:
      it reaches the alternative sampler, whose bound is 16 instead of 4, so a
      point that escapes with the unknown id also escapes with id 0. */
  lemma UnknownFormulaEscapesAtMostLikeStandard(s: Settings, pos: Point, sin: real -> real)
    requires s.fractalType == 0 && !DeepZoom(s)
    requires s.quaternionFormula < 0 || 3 < s.quaternionFormula
    requires DirectValue(s, pos, sin) == 0.0
    ensures DirectValue(s.(quaternionFormula := 0), pos, sin) == 0.0
  {
    var p := ZoomedPosition(s, pos);
    UnknownFormulaIsStandard(s.julia, p, s.quaternionFormula);
    AlternativeEscapeImpliesJuliaEscape(s.julia, p);
  }

  lemma {:induction false} TotalOfConstant(xs: seq<real>, v: real)
    requires forall i :: 0 <= i < |xs| ==> xs[i] == v
    ensures Total(xs) == (|xs| as real) * v
  {
    if |xs| > 0 {
      TotalOfConstant(xs[..|xs| - 1], v);
    }
  }

  lemma {:induction false} DeviationsOfConstant(xs: seq<real>, v: real)
    requires forall i :: 0 <= i < |xs| ==> xs[i] == v
    ensures SquaredDeviations(xs, v) == 0.0
  {
    if |xs| > 0 {
      DeviationsOfConstant(xs[..|xs| - 1], v);
    }
  }

  /** Equal samples have zero variance. */
  lemma ConstantHasZeroVariance(xs: seq<real>)
    requires |xs| > 0
    requires forall i :: 0 <= i < |xs| ==> xs[i] == xs[0]
    ensures Variance(xs) == 0.0
  {
    TotalOfConstant(xs, xs[0]);
    assert Mean(xs) == xs[0];
    DeviationsOfConstant(xs, xs[0]);
  }

  /** A cell whose nine samples agree is not refined when the threshold is
      non-negative. */
  lemma UniformCellNotRefined(s: Settings, center: Point, cellSize: real, depth: int)
    requires s.detailThreshold >= 0.0
    requires forall i :: 0 <= i < 9 ==> CellSamples(s, center, cellSize)[i] == CellSamples(s, center, cellSize)[0]
    ensures !Refines(s, center, cellSize, depth)
  {
    ConstantHasZeroVariance(CellSamples(s, center, cellSize));
  }
}
