/** Escape-time iteration, the reference definition every sampler is proved
    against: z is replaced by f(z) + c, and the point escapes as soon as
    |z|^2 exceeds the bound after an update. */
module EscapeTime {
  import opened Quaternion

  /** The non-constant term f(z) of an iteration z <- f(z) + c. */
  datatype Formula =
    | Square                // z^2
    | Cube                  // z^3 = z * z^2
    | SquarePlusZ           // z^2 + z
    | MagnitudeMinusSquare  // |z|^2 - z^2

  /** The formula selected by an integer id; ids other than 1, 2, 3 select z^2. */
  function FormulaOf(id: int): (f: Formula)
    ensures f == Square <==> (id < 1 || 3 < id)
  {
    if id == 1 then Cube
    else if id == 2 then SquarePlusZ
    else if id == 3 then MagnitudeMinusSquare
    else Square
  }

  /** The term f(z), written with the Hamilton product. */
  function Term(f: Formula, z: Quat): Quat {
    match f
    case Square => Mult(z, z)
    case Cube => Mult(z, Mult(z, z))
    case SquarePlusZ => Sum(Mult(z, z), z)
    case MagnitudeMinusSquare => Diff(Real(MagnitudeSq(z)), Mult(z, z))
  }

  /** One iteration z <- f(z) + c. */
  function Step(f: Formula, z: Quat, c: Quat): Quat {
    Sum(Term(f, z), c)
  }

  /** The k-th iterate of z under Step. */
  function Orbit(f: Formula, z: Quat, c: Quat, k: nat): Quat
    decreases k
  {
    if k == 0 then z else Orbit(f, Step(f, z, c), c, k - 1)
  }

  /** The sampled value after at most n iterations: 0.0 if some iterate
      escapes (|z|^2 > bound), 1.0 if none does. */
  function Escape(f: Formula, z: Quat, c: Quat, n: nat, bound: real): (r: real)
    ensures r == 0.0 || r == 1.0
    decreases n
  {
    if n == 0 then 1.0
    else
      var z' := Step(f, z, c);
      if MagnitudeSq(z') > bound then 0.0 else Escape(f, z', c, n - 1, bound)
  }

  /** The (k+1)-th iterate of z is the k-th iterate of its first step. */
  lemma OrbitShift(f: Formula, z: Quat, c: Quat, k: nat)
    ensures Orbit(f, z, c, k + 1) == Orbit(f, Step(f, z, c), c, k)
  {
  }

  /** Escape against the orbit: the value is 0.0 exactly when one of the
      iterates 1..n has a squared magnitude above the bound. */
  lemma EscapeIffOrbitExceeds(f: Formula, z: Quat, c: Quat, n: nat, bound: real)
    ensures Escape(f, z, c, n, bound) == 0.0 <==>
            exists k :: 1 <= k <= n && MagnitudeSq(Orbit(f, z, c, k)) > bound
  {
    if Escape(f, z, c, n, bound) == 0.0 {
      var k := EscapeWitness(f, z, c, n, bound);
    } else if k :| 1 <= k <= n && MagnitudeSq(Orbit(f, z, c, k)) > bound {
      WitnessEscapes(f, z, c, n, k, bound);
    }
  }

  /** An escaped point names the iterate that escaped. */
  lemma {:induction false} EscapeWitness(f: Formula, z: Quat, c: Quat, n: nat, bound: real) returns (k: nat)
    requires Escape(f, z, c, n, bound) == 0.0
    ensures 1 <= k <= n && MagnitudeSq(Orbit(f, z, c, k)) > bound
    decreases n
  {
    var z' := Step(f, z, c);
    OrbitShift(f, z, c, 0);
    if MagnitudeSq(z') > bound {
      k := 1;
    } else {
      var j := EscapeWitness(f, z', c, n - 1, bound);
      OrbitShift(f, z, c, j);
      k := j + 1;
    }
  }

  /** An iterate within the first n that exceeds the bound makes the point escape. */
  lemma {:induction false} WitnessEscapes(f: Formula, z: Quat, c: Quat, n: nat, k: nat, bound: real)
    requires 1 <= k <= n && MagnitudeSq(Orbit(f, z, c, k)) > bound
    ensures Escape(f, z, c, n, bound) == 0.0
    decreases n
  {
    var z' := Step(f, z, c);
    OrbitShift(f, z, c, k - 1);
    if MagnitudeSq(z') <= bound {
      OrbitShift(f, z, c, 0);
      WitnessEscapes(f, z', c, n - 1, k - 1, bound);
    }
  }

  /** Escaping is never undone by allowing more iterations. */
  lemma {:induction false} EscapeMonotone(f: Formula, z: Quat, c: Quat, n: nat, m: nat, bound: real)
    requires n <= m
    requires Escape(f, z, c, n, bound) == 0.0
    ensures Escape(f, z, c, m, bound) == 0.0
    decreases n
  {
    var z' := Step(f, z, c);
    if MagnitudeSq(z') <= bound {
      EscapeMonotone(f, z', c, n - 1, m - 1, bound);
    }
  }

  /** A lower escape bound escapes at least as often as a higher one. */
  lemma {:induction false} EscapeBoundMonotone(f: Formula, z: Quat, c: Quat, n: nat, low: real, high: real)
    requires low <= high
    requires Escape(f, z, c, n, high) == 0.0
    ensures Escape(f, z, c, n, low) == 0.0
    decreases n
  {
    var z' := Step(f, z, c);
    if MagnitudeSq(z') <= high {
      EscapeBoundMonotone(f, z', c, n - 1, low, high);
    }
  }
}
