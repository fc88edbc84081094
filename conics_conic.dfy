/**
 * The second-generation conic (app/conics/conic.js), used as the orbit of the
 * bodies in app/stellarSystem: a centre `coords` in world coordinates, a signed
 * semi-major axis `j` (positive for an ellipse, negative for a hyperbola), a
 * semi-minor axis `n`, the direction `angle` of the major axis, and the focal
 * distance, which the source calls `a`.
 */
module ConicsConic {
  import opened JsMath
  import opened Vectors
  import opened Options

  /**
   * The constructor's axis fix-up: an ellipse given with n > j has its axes
   * exchanged and is turned a quarter turn; anything else is kept. Afterwards
   * an ellipse has j >= n.
   */
  function Upright(m: MathFns, j: real, n: real, angle: real): (r: (real, real, real))
    ensures multiset{r.0, r.1} == multiset{j, n}
    ensures (r.0 != j || r.2 != angle) <==> 0.0 < j < n
    ensures 0.0 < j < n ==> r == (n, j, angle + m.pi / 2.0)
    ensures 0.0 < r.0 <==> 0.0 < j
    ensures 0.0 < r.0 ==> r.1 <= r.0
  {
    if 0.0 < j && n > j then (n, j, angle + m.pi / 2.0) else (j, n, angle)
  }

  /** The distance from the centre to each focus: sqrt(j² - n²) for an ellipse, sqrt(j² + n²) for a hyperbola. */
  function FocalDistance(m: MathFns, j: real, n: real): real {
    if 0.0 < j then m.sqrt(Pow2(j) - Pow2(n)) else m.sqrt(Pow2(j) + Pow2(n))
  }

  /**
   * The focal distance is non-negative and its square is j² - n² for an
   * ellipse whose semi-minor axis is at most j, and j² + n² for a hyperbola.
   */
  lemma FocalDistanceSquare(m: MathFns, j: real, n: real)
    requires SqrtLaws(m)
    requires 0.0 < j ==> -j <= n <= j
    ensures 0.0 <= FocalDistance(m, j, n)
    ensures 0.0 < j ==> Pow2(FocalDistance(m, j, n)) == Pow2(j) - Pow2(n)
    ensures j <= 0.0 ==> Pow2(FocalDistance(m, j, n)) == Pow2(j) + Pow2(n)
  {
    Pow2Facts(j);
    Pow2Facts(n);
    if 0.0 < j {
      var an := if n < 0.0 then -n else n;
      assert Pow2(an) == Pow2(n);
      if an < j {
        Pow2Less(an, j);
      }
      assert 0.0 <= Pow2(j) - Pow2(n);
    }
  }

  /** Eccentricity: c/j for an ellipse, sqrt(1 + n²/j²) for a hyperbola. */
  function EccentricityOf(m: MathFns, j: real, n: real, c: real): real
    requires j != 0.0
  {
    Pow2Facts(j);
    if 0.0 < j then c / j else m.sqrt(1.0 + Pow2(n) / Pow2(j))
  }

  /**
   * The eccentricity of a constructed conic lies in [0, 1] for an ellipse
   * (0 exactly for a circle) and is at least 1 for a hyperbola (1 exactly
   * when n = 0).
   */
  lemma EccentricityRange(m: MathFns, j: real, n: real)
    requires j != 0.0
    ensures SqrtLaws(m) && 0.0 <= n && (0.0 < j ==> n <= j) ==>
            var e := EccentricityOf(m, j, n, FocalDistance(m, j, n));
            && (0.0 < j ==> 0.0 <= e <= 1.0 && (e == 0.0 <==> j == n) && (e < 1.0 <==> 0.0 < n))
            && (j < 0.0 ==> 1.0 <= e && (e == 1.0 <==> n == 0.0))
  {
    if SqrtLaws(m) && 0.0 <= n && (0.0 < j ==> n <= j) {
      var c := FocalDistance(m, j, n);
      FocalDistanceSquare(m, j, n);
      Pow2Facts(j);
      Pow2Facts(n);
      if 0.0 < j {
        var x := Pow2(j) - Pow2(n);
        SqrtBelow(m, x, j);
        QuotientNonNegative(c, j);
        QuotientAtMostOne(c, j);
        QuotientZero(c, j);
        SqrtZero(m, x);
        assert x == (j - n) * (j + n);
        if x == 0.0 {
          ZeroProduct(j + n, j - n);
        }
        if c == j {
          assert Pow2(c) == Pow2(j);
          assert Pow2(n) == 0.0;
        }
        if n == 0.0 {
          SqrtOfPow2(m, j);
        }
      } else {
        var q := Pow2(n) / Pow2(j);
        QuotientNonNegative(Pow2(n), Pow2(j));
        QuotientZero(Pow2(n), Pow2(j));
        SqrtAbove(m, 1.0 + q, 1.0);
        if n == 0.0 {
          SqrtOfSquare(m, 1.0);
        } else {
          assert 0.0 < q;
          assert m.sqrt(1.0 + q) * m.sqrt(1.0 + q) == 1.0 + q;
        }
      }
    }
  }

  /** The offset d from the centre to the main focus: the focal distance along the major axis, reversed for a hyperbola. */
  function FocusOffset(m: MathFns, j: real, c: real, angle: real): Vector {
    if 0.0 < j then Vector(m.cos(angle) * c, m.sin(angle) * c)
    else Vector(m.cos(angle) * -c, m.sin(angle) * -c)
  }

  /** The offset has the focal distance as its length. */
  lemma FocusOffsetLength(m: MathFns, j: real, c: real, angle: real)
    requires SqrtLaws(m) && Pythagoras(m) && 0.0 <= c
    ensures FocusOffset(m, j, c, angle).Mod(m) == c
  {
    var d := FocusOffset(m, j, c, angle);
    var s, k := m.sin(angle), m.cos(angle);
    assert d.Dot(d) == c * c * (k * k + s * s) by {
      if 0.0 < j {
        assert d == Vector(k * c, s * c);
      } else {
        assert d == Vector(k * -c, s * -c);
      }
    }
    assert k * k + s * s == 1.0;
    assert d.Dot(d) == c * c;
    SqrtOfSquare(m, c);
    assert d.Mod(m) == m.sqrt(c * c);
  }

  /**
   * Direction of the tangent before normalising: (0, 1) at an apsis, else
   * (1, slope), reversed on the first half-turn of |E|. Either way it lies
   * along the derivative of the curve in E.
   */
  function TangentHeading(m: MathFns, j: real, n: real, E: real): (d: Vector)
    requires j != 0.0 && PiLaws(m)
    ensures d != Origin
    ensures m.sin(E) == 0.0 ==> d == (if JsRem(Abs(E), m.pi * 2.0) < m.pi then Vector(0.0, -1.0) else Vector(0.0, 1.0))
    ensures m.sin(E) != 0.0 ==> (d.x == -1.0 <==> JsRem(Abs(E), m.pi * 2.0) < m.pi) && (d.x == 1.0 || d.x == -1.0)
    ensures m.sin(E) != 0.0 ==> d.x * (n * m.cos(E)) + d.y * (j * m.sin(E)) == 0.0
    ensures d.Cross(AnomalyDerivative(m, j, n, E)) == 0.0
  {
    var t := if m.sin(E) == 0.0 then Vector(0.0, 1.0) else Vector(1.0, TangentSlope(m, j, n, E));
    SlopeCancels(m, j, n, E);
    ScaleProducts(t, AnomalyDerivative(m, j, n, E), -1.0);
    if JsRem(Abs(E), m.pi * 2.0) < m.pi then t.Scale(-1.0, None) else t
  }

  /** The derivative in E of the point (j cos E, n sin E) that the slope of TangentHeading is taken from. */
  function AnomalyDerivative(m: MathFns, j: real, n: real, E: real): Vector {
    Vector(-j * m.sin(E), n * m.cos(E))
  }

  function Abs(x: real): real {
    if x < 0.0 then -x else x
  }

  /** -(n cos E)/(j sin E): the slope dy/dx of the ellipse (j cos E, n sin E). */
  function TangentSlope(m: MathFns, j: real, n: real, E: real): real
    requires j != 0.0 && m.sin(E) != 0.0
  {
    NonZeroProduct(j, m.sin(E));
    -(n * m.cos(E)) / (j * m.sin(E))
  }

  lemma SlopeCancels(m: MathFns, j: real, n: real, E: real)
    requires j != 0.0
    ensures m.sin(E) != 0.0 ==> n * m.cos(E) + TangentSlope(m, j, n, E) * (j * m.sin(E)) == 0.0
  {
    if m.sin(E) != 0.0 {
      NonZeroProduct(j, m.sin(E));
      DivisionCancels(-(n * m.cos(E)), j * m.sin(E));
    }
  }

  /** Whether eccentricAnomaly's formula is defined: its hyperbolic branch divides by 1 + e cos f. */
  predicate EccentricAnomalyDefined(m: MathFns, j: real, n: real, f: real)
    requires j != 0.0
  {
    var e := EccentricityOf(m, j, n, FocalDistance(m, j, n));
    e < 1.0 || 1.0 + e * m.cos(f) != 0.0
  }

  /**
   * eccentricAnomaly: the eccentric anomaly at true anomaly f, by atan2 for
   * e < 1 and by acosh otherwise. At periapsis (f = 0) it is 0.
   */
  function EccentricAnomalyOf(m: MathFns, j: real, n: real, f: real): (E: real)
    requires j != 0.0 && EccentricAnomalyDefined(m, j, n, f)
    ensures SqrtLaws(m) && ZeroLaws(m) && InverseZeroLaws(m) && 0.0 <= n && (0.0 < j ==> n <= j) && f == 0.0 ==> E == 0.0
  {
    var e := EccentricityOf(m, j, n, FocalDistance(m, j, n));
    PeriapsisAnomaly(m, j, n, f);
    if e < 1.0 then m.atan2(m.sqrt(1.0 - Pow2(e)) * m.sin(f), e + m.cos(f))
    else m.acosh((e + m.cos(f)) / (1.0 + e * m.cos(f)))
  }

  lemma PeriapsisAnomaly(m: MathFns, j: real, n: real, f: real)
    requires j != 0.0 && EccentricAnomalyDefined(m, j, n, f)
    ensures var e := EccentricityOf(m, j, n, FocalDistance(m, j, n));
            SqrtLaws(m) && ZeroLaws(m) && InverseZeroLaws(m) && 0.0 <= n && (0.0 < j ==> n <= j) && f == 0.0 ==>
              (e < 1.0 ==> m.atan2(m.sqrt(1.0 - Pow2(e)) * m.sin(f), e + m.cos(f)) == 0.0)
              && (1.0 <= e ==> m.acosh((e + m.cos(f)) / (1.0 + e * m.cos(f))) == 0.0)
  {
    var e := EccentricityOf(m, j, n, FocalDistance(m, j, n));
    if SqrtLaws(m) && ZeroLaws(m) && InverseZeroLaws(m) && 0.0 <= n && (0.0 < j ==> n <= j) && f == 0.0 {
      EccentricityRange(m, j, n);
      assert m.sqrt(1.0 - Pow2(e)) * m.sin(f) == 0.0;
      if 1.0 <= e {
        assert (e + m.cos(f)) / (1.0 + e * m.cos(f)) == 1.0;
      }
    }
  }

  class Conic {
    const m: MathFns
    var coords: Vector
    const j: real
    const n: real
    const angle: real
    /** The focal distance (the source's `a`). */
    const a: real

    /** Semi-axes as the constructor leaves them; parabolas (j = 0) are not represented. */
    ghost predicate Valid() {
      j != 0.0 && 0.0 <= n && (0.0 < j ==> n <= j) && a == FocalDistance(m, j, n)
    }

    /**
     * Centre (x, y), semi-axes j and n, angle: an ellipse with n > j is turned
     * upright, and the focal distance is computed from the final axes.
     */
    constructor (m: MathFns, x: real, y: real, j: real, n: real, angle: real)
      ensures this.m == m && coords == Vector(x, y)
      ensures (this.j, this.n, this.angle) == Upright(m, j, n, angle)
      ensures a == FocalDistance(m, this.j, this.n)
      ensures j != 0.0 && 0.0 <= n ==> Valid()
    {
      this.m := m;
      coords := Vector(x, y);
      var r := Upright(m, j, n, angle);
      this.j, this.n, this.angle := r.0, r.1, r.2;
      a := FocalDistance(m, r.0, r.1);
    }

    /** The foci, centre plus and minus the focus offset; the centre is their midpoint. */
    function Foci(): (f: (Vector, Vector))
      reads this
      ensures f.0.Add(f.1) == coords.Scale(2.0, None)
      ensures f.0.Subtract(coords) == FocusOffset(m, j, a, angle)
    {
      var d := FocusOffset(m, j, a, angle);
      (coords.Add(d), coords.Subtract(d))
    }

    /**
     * The eccentricity: on a valid conic in [0, 1] for an ellipse (0 exactly
     * for a circle, below 1 exactly when n > 0) and at least 1 for a
     * hyperbola (1 exactly when n = 0).
     */
    function Eccentricity(): (e: real)
      requires j != 0.0
      ensures SqrtLaws(m) && Valid() ==>
                && (0.0 < j ==> 0.0 <= e <= 1.0 && (e == 0.0 <==> j == n) && (e < 1.0 <==> 0.0 < n))
                && (j < 0.0 ==> 1.0 <= e && (e == 1.0 <==> n == 0.0))
    {
      EccentricityRange(m, j, n);
      EccentricityOf(m, j, n, a)
    }

    /** eccentricAnomaly on this conic's axes. */
    function EccentricAnomaly(f: real): (E: real)
      requires Valid() && EccentricAnomalyDefined(m, j, n, f)
      ensures SqrtLaws(m) && ZeroLaws(m) && InverseZeroLaws(m) && f == 0.0 ==> E == 0.0
    {
      EccentricAnomalyOf(m, j, n, f)
    }

    method TranslateTo(v: Vector)
      modifies this`coords
      ensures coords == v
    {
      coords := v;
    }

    method Translate(v: Vector)
      modifies this`coords
      ensures coords == old(coords).Add(v)
      ensures Foci().0 == old(Foci().0).Add(v) && Foci().1 == old(Foci().1).Add(v)
    {
      TranslateTo(coords.Add(v));
    }

    /** Moves the conic so that its main focus lands on v; axes and angle are constants. */
    method TranslateFocusTo(v: Vector)
      modifies this`coords
      ensures Foci().0 == v
      ensures Foci().1.Subtract(Foci().0) == old(Foci().1.Subtract(Foci().0))
    {
      var d := v.Subtract(Foci().0);
      Translate(d);
    }

    /** The distance from the main focus at eccentric anomaly E; positive on a proper ellipse. */
    function Radius(E: real): (r: real)
      requires Valid() && SqrtLaws(m) && Pythagoras(m) && (0.0 < j ==> 0.0 < n)
      ensures 0.0 < j ==> 0.0 < r
    {
      EccentricityRange(m, j, n);
      var e := Eccentricity();
      if 0.0 < j then
        assert 0.0 <= e < 1.0;
        var f := TrueAnomaly(E);
        TrigBounds(m, f);
        RadiusPositive(j, e, m.cos(f));
        var r := j * (1.0 - Pow2(e)) / (1.0 + e * m.cos(f));
        assert 0.0 < r;
        r
      else
        j * (e * m.cosh(E) - 1.0)
    }

    /** The true anomaly; the hyperbolic closed form is kept as written. */
    function TrueAnomaly(E: real): real
      requires Valid() && SqrtLaws(m) && (0.0 < j ==> 0.0 < n)
    {
      EccentricityRange(m, j, n);
      var e := Eccentricity();
      if 0.0 < j then 2.0 * m.atan(m.sqrt((1.0 + e) / (1.0 - e)) * m.tan(E / 2.0))
      else 2.0 * m.atan2(m.sqrt((e - 1.0) / (e + 1.0)), m.tanh(E / 2.0))
    }

    /**
     * getPointAtEccentricAnomaly: the focal radius turned by the true anomaly
     * plus the conic's angle, so it lies that far from the main focus.
     */
    function PointAt(E: real): (p: Vector)
      requires Valid() && SqrtLaws(m) && Pythagoras(m) && (0.0 < j ==> 0.0 < n)
      ensures p.Mod(m) == Abs(Radius(E))
    {
      var v := Vector(Radius(E), 0.0);
      AxisLength(m, v.x);
      RotateKeepsLength(m, v, TrueAnomaly(E) + angle);
      v.Rotate(m, TrueAnomaly(E) + angle)
    }

    /**
     * getTangentAtEccentricAnomaly as written: the heading normalised and
     * turned by the angle, a unit vector pointing the way the turned heading
     * points and lying along the turned derivative of the curve; at an apsis
     * it is the turned heading itself.
     */
    function TangentAt(E: real): (t: Vector)
      requires Valid() && SqrtLaws(m) && Pythagoras(m) && PiLaws(m)
      ensures t.Mod(m) == 1.0
      ensures t.Cross(TangentHeading(m, j, n, E).Rotate(m, angle)) == 0.0
      ensures 0.0 < t.Dot(TangentHeading(m, j, n, E).Rotate(m, angle))
      ensures t.Cross(AnomalyDerivative(m, j, n, E).Rotate(m, angle)) == 0.0
      ensures m.sin(E) == 0.0 ==> t == TangentHeading(m, j, n, E).Rotate(m, angle)
    {
      var h := TangentHeading(m, j, n, E);
      UnitTurned(m, h, angle);
      TurnedAlong(m, h, AnomalyDerivative(m, j, n, E), angle);
      ApsisHeadingUnit(m, j, n, E);
      h.Normalise(m).Rotate(m, angle)
    }
  }

  lemma UnitTurned(m: MathFns, d: Vector, angle: real)
    requires SqrtLaws(m) && Pythagoras(m) && d != Origin
    ensures d.Mod(m) != 0.0 && d.Normalise(m).Rotate(m, angle).Mod(m) == 1.0
  {
    RotateKeepsLength(m, d.Normalise(m), angle);
  }

  /** At an apsis the heading is already a unit vector, so normalising leaves it as it is. */
  lemma ApsisHeadingUnit(m: MathFns, j: real, n: real, E: real)
    requires j != 0.0 && PiLaws(m) && SqrtLaws(m)
    ensures m.sin(E) == 0.0 ==> TangentHeading(m, j, n, E).Mod(m) == 1.0
    ensures m.sin(E) == 0.0 ==> TangentHeading(m, j, n, E).Normalise(m) == TangentHeading(m, j, n, E)
  {
    if m.sin(E) == 0.0 {
      VerticalUnit(m, TangentHeading(m, j, n, E));
    }
  }

  lemma AxisLength(m: MathFns, x: real)
    requires SqrtLaws(m)
    ensures Vector(x, 0.0).Mod(m) == Abs(x)
  {
    assert Vector(x, 0.0).Dot(Vector(x, 0.0)) == x * x;
    SqrtOfSquare(m, x);
  }

  lemma RadiusPositive(j: real, e: real, x: real)
    requires 0.0 < j && 0.0 <= e < 1.0 && -1.0 <= x
    ensures 0.0 < 1.0 + e * x && 0.0 < j * (1.0 - Pow2(e)) / (1.0 + e * x)
  {
    ShiftedProductPositive(e, x);
    Pow2Less(e, 1.0);
    PositiveProduct(j, 1.0 - Pow2(e));
    QuotientPositive(j * (1.0 - Pow2(e)), 1.0 + e * x);
  }
}
