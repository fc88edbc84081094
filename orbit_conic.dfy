/**
 * A conic section in its own frame (app/orbit/conic.js): the centre is the
 * origin and the major axis lies along x. A positive semi-major axis `a` is an
 * ellipse, a negative one a hyperbola; parabolas are not represented.
 */
module OrbitConic {
  import opened JsMath
  import opened Vectors
  import opened Options

  /** The fields the constructor assigns: the axes, the focal distance, both foci and the eccentricity. */
  datatype Conic = Conic(a: real, b: real, c: real, foci: (Vector, Vector), e: real) {

    predicate IsEllipse() {
      0.0 < a
    }

    /** The eccentricity ranges the point formulas need: below 1 on an ellipse, at least 1 on a hyperbola. */
    predicate Proper() {
      if IsEllipse() then 0.0 <= e < 1.0 else 1.0 <= e
    }

    /** True anomaly at eccentric anomaly E. The hyperbolic closed form is kept as written. */
    function TrueAnomaly(m: MathFns, E: real): real
      requires Proper()
    {
      if IsEllipse() then
        2.0 * m.atan(m.sqrt((1.0 + e) / (1.0 - e)) * m.tan(E / 2.0))
      else
        2.0 * m.atan2(m.sqrt((e - 1.0) / (e + 1.0)), m.tanh(E / 2.0))
    }

    /**
     * Distance from the main focus at eccentric anomaly E: positive on an
     * ellipse, whose denominator 1 + e·cos f never vanishes.
     */
    function FocalRadius(m: MathFns, E: real): (r: real)
      requires Pythagoras(m) && Proper()
      ensures IsEllipse() ==> 0.0 < r
    {
      if IsEllipse() then
        var f := TrueAnomaly(m, E);
        TrigBounds(m, f);
        EllipseRadiusPositive(a, e, m.cos(f));
        a * (1.0 - Pow2(e)) / (1.0 + e * m.cos(f))
      else
        a * (e * m.cosh(E) - 1.0)
    }

    /**
     * The point at eccentric anomaly E relative to the main focus: the focal
     * radius turned by the true anomaly, so it lies that far from the focus.
     */
    function PointAt(m: MathFns, E: real): (p: Vector)
      requires Pythagoras(m) && Proper()
      ensures SqrtLaws(m) ==> p.Mod(m) == (if FocalRadius(m, E) < 0.0 then -FocalRadius(m, E) else FocalRadius(m, E))
    {
      var v := Vector(FocalRadius(m, E), 0.0);
      AxisPointLength(m, v.x);
      RotateKeepsLength(m, v, TrueAnomaly(m, E));
      v.Rotate(m, TrueAnomaly(m, E))
    }

    /** The same point relative to the centre, as the gradient needs it. */
    function CentrePoint(m: MathFns, E: real): (p: Vector)
      requires Pythagoras(m) && Proper()
      ensures p.Subtract(foci.0) == PointAt(m, E)
    {
      PointAt(m, E).Add(foci.0)
    }

    /**
     * getGradientAtEccentricAnomaly: no slope (undefined) at an apsis, where
     * sin E = 0; otherwise the slope g of the tangent line at the
     * centre-relative point p, which is orthogonal to the normal of
     * x²/a² ± y²/b² = 1 there: b²·p.x ± a²·p.y·g = 0.
     */
    function Gradient(m: MathFns, E: real): (g: Option<real>)
      requires Pythagoras(m) && Proper() && a != 0.0
      requires m.sin(E) != 0.0 ==> CentrePoint(m, E).y != 0.0
      ensures g.None? <==> m.sin(E) == 0.0
      ensures g.Some? ==> NormalOrthogonal(a, b, CentrePoint(m, E), e < 1.0, 1.0, g.value)
    {
      if m.sin(E) == 0.0 then
        None
      else
        var p := CentrePoint(m, E);
        SlopeLaw(a, b, p, e < 1.0);
        Some(Slope(a, b, p, e < 1.0))
    }
  }

  /** Points whose gradient is defined lie off the major axis whenever sin E is non-zero. */
  predicate OffAxis(m: MathFns, k: Conic, E: real)
    requires Pythagoras(m) && k.Proper()
  {
    m.sin(E) != 0.0 ==> k.CentrePoint(m, E).y != 0.0
  }

  /**
   * The tangent direction the apsis branch means to give: (0, 1), parallel to
   * the minor axis, where the gradient is undefined, and (1, g) for the slope
   * g elsewhere; never the zero vector.
   */
  function Direction(m: MathFns, k: Conic, E: real): (d: Vector)
    requires Pythagoras(m) && k.Proper() && k.a != 0.0 && OffAxis(m, k, E)
    ensures d != Origin
    ensures m.sin(E) == 0.0 ==> d.x == 0.0
    ensures m.sin(E) != 0.0 ==> d.x == 1.0 && NormalOrthogonal(k.a, k.b, k.CentrePoint(m, E), k.e < 1.0, d.x, d.y)
  {
    match k.Gradient(m, E)
    case None => Vector(0.0, 1.0)
    case Some(g) => Vector(1.0, g)
  }

  /** A point on the x axis lies |x| from the origin. */
  lemma AxisPointLength(m: MathFns, x: real)
    ensures SqrtLaws(m) ==> Vector(x, 0.0).Mod(m) == (if x < 0.0 then -x else x)
  {
    if SqrtLaws(m) {
      assert Vector(x, 0.0).Dot(Vector(x, 0.0)) == x * x;
      SqrtOfSquare(m, x);
    }
  }

  /** The slope formula of the gradient, ellipse or hyperbola. */
  function Slope(a: real, b: real, p: Vector, elliptic: bool): real
    requires a != 0.0 && p.y != 0.0
  {
    DenominatorNonZero(a, p.y);
    if elliptic then -(Pow2(b) * p.x) / (Pow2(a) * p.y) else (Pow2(b) * p.x) / (Pow2(a) * p.y)
  }

  lemma DenominatorNonZero(a: real, y: real)
    requires a != 0.0 && y != 0.0
    ensures Pow2(a) * y != 0.0
  {
    Pow2Facts(a);
    var s := Pow2(a);
    if s * y == 0.0 {
      ZeroProduct(y, s);
    }
  }

  /**
   * The direction (dx, dy) is orthogonal to the normal (b²·p.x, ±a²·p.y) of
   * x²/a² ± y²/b² = 1 at the centre-relative point p (+ on an ellipse).
   */
  predicate NormalOrthogonal(a: real, b: real, p: Vector, elliptic: bool, dx: real, dy: real) {
    Pow2(b) * p.x * dx + (if elliptic then 1.0 else -1.0) * (Pow2(a) * p.y) * dy == 0.0
  }

  lemma SlopeLaw(a: real, b: real, p: Vector, elliptic: bool)
    requires a != 0.0 && p.y != 0.0
    ensures NormalOrthogonal(a, b, p, elliptic, 1.0, Slope(a, b, p, elliptic))
  {
    DenominatorNonZero(a, p.y);
    var d := Pow2(a) * p.y;
    var n := Pow2(b) * p.x;
    DivisionCancels(n, d);
    if elliptic {
      assert Slope(a, b, p, elliptic) == -(n / d);
    }
  }

  /** For the same axes and centre-relative point, the ellipse and hyperbola slopes are opposite. */
  lemma SlopesOpposite(a: real, b: real, p: Vector)
    requires a != 0.0 && p.y != 0.0
    ensures Slope(a, b, p, true) == -Slope(a, b, p, false)
  {
    DenominatorNonZero(a, p.y);
    var d := Pow2(a) * p.y;
    var n := Pow2(b) * p.x;
    assert -n / d == -(n / d);
  }

  /** An ellipse's focal radius a(1 - e²)/(1 + e·x) is positive for 0 <= e < 1 and x >= -1. */
  lemma EllipseRadiusPositive(a: real, e: real, x: real)
    requires 0.0 < a && 0.0 <= e < 1.0 && -1.0 <= x
    ensures 0.0 < 1.0 + e * x
    ensures 0.0 < a * (1.0 - Pow2(e)) / (1.0 + e * x)
  {
    ShiftedProductPositive(e, x);
    var q := 1.0 + e * x;
    Pow2Less(e, 1.0);
    var p := 1.0 - Pow2(e);
    PositiveProduct(a, p);
    QuotientPositive(a * p, q);
  }

  /** The semi-axes the constructor accepts; it reports a < b on an ellipse as an error. */
  predicate Axes(a: real, b: real) {
    a != 0.0 && 0.0 <= b && (0.0 < a ==> b <= a)
  }

  /**
   * The constructor: focal distance c with c² = a² - b² (ellipse) or
   * a² + b² (hyperbola); the foci mirror each other on the x axis with the
   * main focus at (c, 0) for an ellipse and (-c, 0) for a hyperbola; the
   * eccentricity lies in [0, 1] for an ellipse (0 exactly for a circle, 1
   * exactly for b = 0) and is at least 1 for a hyperbola.
   */
  function NewConic(m: MathFns, a: real, b: real): (k: Conic)
    requires Axes(a, b)
    ensures k.a == a && k.b == b
    ensures k.foci.0 == Vector(if 0.0 < a then k.c else -k.c, 0.0)
    ensures k.foci.1 == Vector(-k.foci.0.x, 0.0)
    ensures SqrtLaws(m) ==> 0.0 <= k.c && Pow2(k.c) == (if 0.0 < a then Pow2(a) - Pow2(b) else Pow2(a) + Pow2(b))
    ensures SqrtLaws(m) && 0.0 < a ==> 0.0 <= k.e <= 1.0 && (k.e == 0.0 <==> a == b) && (k.e == 1.0 <==> b == 0.0)
    ensures SqrtLaws(m) && a < 0.0 ==> 1.0 <= k.e && (k.e == 1.0 <==> b == 0.0)
  {
    if 0.0 < a then
      var c := m.sqrt(Pow2(a) - Pow2(b));
      EllipseShape(m, a, b);
      Conic(a, b, c, (Vector(c, 0.0), Vector(-c, 0.0)), c / a)
    else
      var c := m.sqrt(Pow2(a) + Pow2(b));
      HyperbolaShape(m, a, b);
      Conic(a, b, c, (Vector(-c, 0.0), Vector(c, 0.0)), m.sqrt(1.0 + Pow2(b) / Pow2(a)))
  }

  lemma EllipseShape(m: MathFns, a: real, b: real)
    requires 0.0 <= b <= a && 0.0 < a
    ensures SqrtLaws(m) ==>
              var c := m.sqrt(Pow2(a) - Pow2(b));
              && 0.0 <= c && Pow2(c) == Pow2(a) - Pow2(b)
              && 0.0 <= c / a <= 1.0
              && (c / a == 0.0 <==> a == b)
              && (c / a == 1.0 <==> b == 0.0)
  {
    if SqrtLaws(m) {
      var x := Pow2(a) - Pow2(b);
      var c := m.sqrt(x);
      Pow2Facts(b);
      if b < a {
        Pow2Less(b, a);
      }
      assert 0.0 <= x <= a * a;
      SqrtBelow(m, x, a);
      QuotientNonNegative(c, a);
      QuotientAtMostOne(c, a);
      QuotientZero(c, a);
      SqrtZero(m, x);
      assert x == (a - b) * (a + b);
      if x == 0.0 {
        ZeroProduct(a + b, a - b);
      }
      if b == 0.0 {
        SqrtOfPow2(m, a);
      }
    }
  }

  lemma HyperbolaShape(m: MathFns, a: real, b: real)
    requires a < 0.0 && 0.0 <= b
    ensures Pow2(a) != 0.0
    ensures SqrtLaws(m) ==>
              var c := m.sqrt(Pow2(a) + Pow2(b));
              var e := m.sqrt(1.0 + Pow2(b) / Pow2(a));
              && 0.0 <= c && Pow2(c) == Pow2(a) + Pow2(b)
              && 1.0 <= e && (e == 1.0 <==> b == 0.0)
  {
    Pow2Facts(a);
    Pow2Facts(b);
    if SqrtLaws(m) {
      var q := Pow2(b) / Pow2(a);
      QuotientNonNegative(Pow2(b), Pow2(a));
      QuotientZero(Pow2(b), Pow2(a));
      var e := m.sqrt(1.0 + q);
      SqrtAbove(m, 1.0 + q, 1.0);
      if b == 0.0 {
        SqrtOfSquare(m, 1.0);
      }
    }
  }

  /** With a positive semi-minor axis the eccentricity is below 1 exactly for an ellipse and never 1. */
  lemma ProperShape(m: MathFns, a: real, b: real)
    requires SqrtLaws(m) && Axes(a, b) && 0.0 < b
    ensures NewConic(m, a, b).Proper()
    ensures NewConic(m, a, b).e < 1.0 <==> 0.0 < a
    ensures NewConic(m, a, b).e != 1.0
  {
    var k := NewConic(m, a, b);
    if a < 0.0 {
      assert 1.0 <= k.e;
    }
  }

  /**
   * At E = 0 an ellipse is at periapsis: the point is (a(1 - e), 0) from the
   * main focus, which is the vertex (a, 0) relative to the centre.
   */
  lemma EllipsePeriapsis(m: MathFns, a: real, b: real)
    requires ZeroLaws(m) && Pythagoras(m) && SqrtLaws(m) && 0.0 < b <= a
    ensures NewConic(m, a, b).Proper()
    ensures NewConic(m, a, b).PointAt(m, 0.0) == Vector(a * (1.0 - NewConic(m, a, b).e), 0.0)
    ensures NewConic(m, a, b).CentrePoint(m, 0.0) == Vector(a, 0.0)
  {
    var k := NewConic(m, a, b);
    EllipseTrueAnomalyZero(m, k);
    var f := k.TrueAnomaly(m, 0.0);
    FocalRadiusAtApsis(a, k.e, m.cos(f));
    assert k.FocalRadius(m, 0.0) == a * (1.0 - k.e);
    assert k.c == a * k.e by {
      DivisionCancels(k.c, a);
    }
  }

  /** On a proper ellipse atan(s·tan(0/2)) = 0: true anomaly 0 at eccentric anomaly 0. */
  lemma EllipseTrueAnomalyZero(m: MathFns, k: Conic)
    requires ZeroLaws(m) && k.IsEllipse() && k.Proper()
    ensures k.TrueAnomaly(m, 0.0) == 0.0
  {
    assert 0.0 / 2.0 == 0.0;
    var s := m.sqrt((1.0 + k.e) / (1.0 - k.e));
    assert s * m.tan(0.0) == 0.0;
  }

  /** The focal radius formula with cos f = 1: a(1 - e²)/(1 + e) = a(1 - e). */
  lemma FocalRadiusAtApsis(a: real, e: real, c: real)
    requires 0.0 <= e < 1.0 && c == 1.0
    ensures a * (1.0 - Pow2(e)) / (1.0 + e * c) == a * (1.0 - e)
  {
    assert a * (1.0 - Pow2(e)) == (a * (1.0 - e)) * (1.0 + e);
    DivisionCancels(a * (1.0 - e), 1.0 + e);
  }
}
