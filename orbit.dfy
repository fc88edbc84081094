/**
 * An orbit (app/orbit/orbit.js): a conic shape from OrbitConic placed in the
 * world by a centre `coords` and a rotation `angle`, with a direction of travel
 * and an epoch `t` at which the orbiter passes periapsis.
 */
module Orbits {
  import opened JsMath
  import opened Vectors
  import opened Options
  import opened OrbitConic

  /** What an orbit reads from the body it goes around: its mass and global position. */
  datatype Attractor = Attractor(mass: real, position: Vector)

  /** Constructor options: a field is present when `options` has it as an own property. */
  datatype Settings = Settings(
    angle: Option<real>,
    anticlockwise: Option<bool>,
    t: Option<real>,
    a: Option<real>,
    b: Option<real>,
    attractor: Option<Attractor>)

  const DefaultA := 10.0
  const DefaultB := 5.0

  /**
   * The constructor's axis fix-up. An ellipse given with b > a has its axes
   * exchanged and is turned a quarter turn, the new angle reduced by JavaScript's
   * `%` modulo 2π; anything else is kept. The result is a pair of semi-axes with
   * the semi-major axis first.
   */
  function SwapAxes(m: MathFns, a: real, b: real, angle: real): (r: (real, real, real))
    requires PiLaws(m)
    ensures multiset{r.0, r.1} == multiset{a, b}
    ensures r.0 != a <==> 0.0 < a < b
    ensures r.0 == a ==> r.2 == angle
    ensures r.0 != a && 0.0 <= angle ==> 0.0 <= r.2 < 2.0 * m.pi
    ensures a != 0.0 && 0.0 <= b ==> Axes(r.0, r.1)
  {
    if 0.0 < a && b > a then
      (b, a, JsRem(angle + m.pi / 2.0, m.pi * 2.0))
    else
      (a, b, angle)
  }

  /**
   * The foci getter: the shape's foci turned by `angle` and offset by the
   * centre. When the shape's foci mirror each other, the centre is their midpoint.
   */
  function FociAt(m: MathFns, coords: Vector, shape: Conic, angle: real): (f: (Vector, Vector))
    ensures shape.foci.1 == Vector(-shape.foci.0.x, -shape.foci.0.y) ==>
              f.0.Add(f.1) == coords.Scale(2.0, None)
  {
    (coords.Add(shape.foci.0.Rotate(m, angle)), coords.Add(shape.foci.1.Rotate(m, angle)))
  }

  /** Moving the centre by v moves both foci by v, so the vector between them is unchanged. */
  lemma FociFollowCentre(m: MathFns, coords: Vector, v: Vector, shape: Conic, angle: real)
    ensures FociAt(m, coords.Add(v), shape, angle).0 == FociAt(m, coords, shape, angle).0.Add(v)
    ensures FociAt(m, coords.Add(v), shape, angle).1 == FociAt(m, coords, shape, angle).1.Add(v)
    ensures FociAt(m, coords.Add(v), shape, angle).1.Subtract(FociAt(m, coords.Add(v), shape, angle).0)
         == FociAt(m, coords, shape, angle).1.Subtract(FociAt(m, coords, shape, angle).0)
  {}

  /**
   * getPointAtEccentricAnomaly: the shape's point turned by `angle`. It is
   * relative to the main focus and does not involve `coords`; it lies at the
   * focal radius from that focus.
   */
  function OrbitPoint(m: MathFns, shape: Conic, angle: real, E: real): (p: Vector)
    requires Pythagoras(m) && shape.Proper()
    ensures SqrtLaws(m) ==>
              p.Mod(m) == (if shape.FocalRadius(m, E) < 0.0 then -shape.FocalRadius(m, E) else shape.FocalRadius(m, E))
  {
    RotateKeepsLength(m, shape.PointAt(m, E), angle);
    shape.PointAt(m, E).Rotate(m, angle)
  }

  /** Whether the orbiter is leaving periapsis: sin E > 0 on an ellipse, E > 0 on a hyperbola. */
  predicate Leaving(m: MathFns, shape: Conic, E: real) {
    if shape.e < 1.0 then m.sin(E) > 0.0 else E > 0.0
  }

  /** A direction, reversed when leaving periapsis. */
  function Heading(leaving: bool, d: Vector): (r: Vector)
    ensures r.Cross(d) == 0.0
    ensures r.Dot(d) == (if leaving then -d.Dot(d) else d.Dot(d))
  {
    if leaving then Vector(-d.x, -d.y) else d
  }

  /**
   * A non-zero heading, reversed when leaving periapsis, normalised and
   * turned by `angle`: a unit vector pointing the way the turned heading
   * points, and so on the line of d turned by `angle`.
   */
  function Orient(m: MathFns, leaving: bool, d: Vector, angle: real): (r: Vector)
    requires SqrtLaws(m) && Pythagoras(m) && d != Origin
    ensures r.Mod(m) == 1.0
    ensures r.Cross(Heading(leaving, d).Rotate(m, angle)) == 0.0 && 0.0 < r.Dot(Heading(leaving, d).Rotate(m, angle))
    ensures r.Cross(d.Rotate(m, angle)) == 0.0
  {
    var h := Heading(leaving, d);
    UnitTangent(m, h, angle);
    TurnedAlong(m, h, d, angle);
    h.Normalise(m).Rotate(m, angle)
  }

  /**
   * getTangentAtEccentricAnomaly as written: (1, g) for the gradient g,
   * oriented. At an apsis the gradient is undefined and the vector is NaN,
   * modelled as None.
   */
  function TangentAsWritten(m: MathFns, shape: Conic, angle: real, E: real): (r: Option<Vector>)
    requires SqrtLaws(m) && Pythagoras(m) && shape.Proper() && shape.a != 0.0 && OffAxis(m, shape, E)
    ensures r.None? <==> m.sin(E) == 0.0
    ensures r.Some? ==> r.value.Mod(m) == 1.0
    ensures r.Some? ==>
              var d := Vector(1.0, shape.Gradient(m, E).value);
              && r.value.Cross(d.Rotate(m, angle)) == 0.0
              && 0.0 < r.value.Dot(Heading(Leaving(m, shape, E), d).Rotate(m, angle))
  {
    match shape.Gradient(m, E)
    case None => None
    case Some(g) => Some(Orient(m, Leaving(m, shape, E), Vector(1.0, g), angle))
  }

  /**
   * The tangent with the apsis case repaired: the heading is
   * OrbitConic.Direction, which is (0, 1) at an apsis. It is a unit vector for
   * every E on the line of the conic's direction turned by the angle,
   * pointing the way the turned heading points; it agrees with the written
   * tangent wherever that is defined, and is the turned minor-axis direction
   * at an apsis.
   */
  function Tangent(m: MathFns, shape: Conic, angle: real, E: real): (r: Vector)
    requires SqrtLaws(m) && Pythagoras(m) && shape.Proper() && shape.a != 0.0 && OffAxis(m, shape, E)
    ensures r.Mod(m) == 1.0
    ensures r.Cross(Direction(m, shape, E).Rotate(m, angle)) == 0.0
    ensures 0.0 < r.Dot(Heading(Leaving(m, shape, E), Direction(m, shape, E)).Rotate(m, angle))
    ensures m.sin(E) != 0.0 ==> TangentAsWritten(m, shape, angle, E) == Some(r)
    ensures m.sin(E) == 0.0 ==> r == Vector(0.0, if Leaving(m, shape, E) then -1.0 else 1.0).Rotate(m, angle)
  {
    TangentWhereDefined(m, shape, angle, E);
    TangentAtApsis(m, shape, angle, E);
    Orient(m, Leaving(m, shape, E), Direction(m, shape, E), angle)
  }

  lemma TangentWhereDefined(m: MathFns, shape: Conic, angle: real, E: real)
    requires SqrtLaws(m) && Pythagoras(m) && shape.Proper() && shape.a != 0.0 && OffAxis(m, shape, E)
    ensures m.sin(E) != 0.0 ==>
              TangentAsWritten(m, shape, angle, E) == Some(Orient(m, Leaving(m, shape, E), Direction(m, shape, E), angle))
  {
    if m.sin(E) != 0.0 {
      var g := shape.Gradient(m, E);
      DirectionFromGradient(m, shape, E);
      assert Direction(m, shape, E) == Vector(1.0, g.value);
    }
  }

  lemma TangentAtApsis(m: MathFns, shape: Conic, angle: real, E: real)
    requires SqrtLaws(m) && Pythagoras(m) && shape.Proper() && shape.a != 0.0 && OffAxis(m, shape, E)
    ensures m.sin(E) == 0.0 ==>
              Orient(m, Leaving(m, shape, E), Direction(m, shape, E), angle)
              == Vector(0.0, if Leaving(m, shape, E) then -1.0 else 1.0).Rotate(m, angle)
  {
    if m.sin(E) == 0.0 {
      var leaving := Leaving(m, shape, E);
      DirectionFromGradient(m, shape, E);
      assert Direction(m, shape, E) == Vector(0.0, 1.0);
      ApsisOrient(m, leaving, angle);
    }
  }

  /** The vertical heading is already a unit vector, so orienting it only reverses and turns it. */
  lemma ApsisOrient(m: MathFns, leaving: bool, angle: real)
    requires SqrtLaws(m) && Pythagoras(m)
    ensures Orient(m, leaving, Vector(0.0, 1.0), angle) == Vector(0.0, if leaving then -1.0 else 1.0).Rotate(m, angle)
  {
    ApsisHeading(m, leaving);
  }

  lemma DirectionFromGradient(m: MathFns, shape: Conic, E: real)
    requires Pythagoras(m) && shape.Proper() && shape.a != 0.0 && OffAxis(m, shape, E)
    ensures shape.Gradient(m, E).None? ==> Direction(m, shape, E) == Vector(0.0, 1.0)
    ensures shape.Gradient(m, E).Some? ==> Direction(m, shape, E) == Vector(1.0, shape.Gradient(m, E).value)
  {}

  lemma UnitTangent(m: MathFns, h: Vector, angle: real)
    requires SqrtLaws(m) && Pythagoras(m) && h != Origin
    ensures h.Mod(m) != 0.0
    ensures h.Normalise(m).Rotate(m, angle).Mod(m) == 1.0
  {
    RotateKeepsLength(m, h.Normalise(m), angle);
  }

  /** The vertical heading is already a unit vector, so normalising keeps it. */
  lemma ApsisHeading(m: MathFns, leaving: bool)
    requires SqrtLaws(m)
    ensures var h := Heading(leaving, Vector(0.0, 1.0));
            h == Vector(0.0, if leaving then -1.0 else 1.0) && h.Mod(m) == 1.0 && h.Normalise(m) == h
  {
    if leaving {
      UnitAxis(m, -1.0);
    } else {
      UnitAxis(m, 1.0);
    }
  }

  lemma UnitAxis(m: MathFns, y: real)
    requires SqrtLaws(m) && (y == 1.0 || y == -1.0)
    ensures Vector(0.0, y).Mod(m) == 1.0 && Vector(0.0, y).Normalise(m) == Vector(0.0, y)
  {
    UnitAxisLength(m, y);
    NormaliseUnit(m, Vector(0.0, y));
  }

  lemma UnitAxisLength(m: MathFns, y: real)
    requires SqrtLaws(m) && (y == 1.0 || y == -1.0)
    ensures Vector(0.0, y).Mod(m) == 1.0
  {
    var h := Vector(0.0, y);
    assert h.Dot(h) == y * y;
    SqrtOfSquare(m, y);
  }

  /** The sign table shared by orbitalVelocity and eccentricAnomalyAtTime: negate iff this holds. */
  predicate Negated(a: real, anticlockwise: bool) {
    if 0.0 < a then anticlockwise else !anticlockwise
  }

  /** The vis-viva speed at distance r: its square is u(2/r - 1/a). */
  function VisVivaSpeed(m: MathFns, u: real, r: real, a: real): (s: real)
    requires r != 0.0 && a != 0.0
    ensures SqrtLaws(m) && 0.0 <= u * (2.0 / r - 1.0 / a) ==> 0.0 <= s && s * s == u * (2.0 / r - 1.0 / a)
  {
    m.sqrt(u * (2.0 / r - 1.0 / a))
  }

  /**
   * orbitalVelocity: the vis-viva speed along the (repaired) tangent, against
   * it exactly when the sign table says so. It lies on the tangent's line,
   * with the speed, negated by the sign table, as its signed length along it.
   */
  function Velocity(m: MathFns, u: real, r: real, shape: Conic, angle: real, anticlockwise: bool, E: real): (v: Vector)
    requires SqrtLaws(m) && Pythagoras(m) && shape.Proper() && shape.a != 0.0 && OffAxis(m, shape, E) && r != 0.0
    ensures 0.0 <= VisVivaSpeed(m, u, r, shape.a) ==> v.Mod(m) == VisVivaSpeed(m, u, r, shape.a)
    ensures 0.0 < VisVivaSpeed(m, u, r, shape.a) ==>
              (v.Dot(Tangent(m, shape, angle, E)) < 0.0 <==> Negated(shape.a, anticlockwise))
    ensures v.Cross(Tangent(m, shape, angle, E)) == 0.0
    ensures v.Dot(Tangent(m, shape, angle, E))
         == (if Negated(shape.a, anticlockwise) then -VisVivaSpeed(m, u, r, shape.a) else VisVivaSpeed(m, u, r, shape.a))
  {
    var s := VisVivaSpeed(m, u, r, shape.a);
    var k := if Negated(shape.a, anticlockwise) then -s else s;
    var tangent := Tangent(m, shape, angle, E);
    ScaleUnit(m, tangent, k);
    ScaleAlong(tangent, k);
    tangent.Scale(k, None)
  }

  /** The standard gravitational parameter G·M of the attractor. */
  function Mu(G: real, mass: real): real {
    G * mass
  }

  /** Math.pow(a, 3) is non-zero for a non-zero a. */
  lemma CubeNonZero(a: real)
    requires a != 0.0
    ensures a * Pow2(a) != 0.0
  {
    Pow2Facts(a);
    if a * Pow2(a) == 0.0 {
      ZeroProduct(a, Pow2(a));
    }
  }

  function Abs(x: real): real {
    if x < 0.0 then -x else x
  }

  /** Mean motion n = sqrt(u/|a³|), so that n²·|a³| = u (Kepler's third law). */
  function MeanMotion(m: MathFns, u: real, a: real): (n: real)
    requires a != 0.0
    ensures SqrtLaws(m) && 0.0 <= u ==> 0.0 <= n && Pow2(n) * Abs(a * Pow2(a)) == u
  {
    CubeNonZero(a);
    var q := u / Abs(a * Pow2(a));
    if 0.0 <= u then
      QuotientNonNegative(u, Abs(a * Pow2(a)));
      DivisionCancels(u, Abs(a * Pow2(a)));
      m.sqrt(q)
    else
      m.sqrt(q)
  }

  /** Mean anomaly n(t - epoch): zero at the epoch, negative after it exactly when the sign table negates. */
  function MeanAnomaly(n: real, time: real, epoch: real, a: real, anticlockwise: bool): (M: real)
    ensures time == epoch ==> M == 0.0
    ensures 0.0 < n && epoch < time ==> (M < 0.0 <==> Negated(a, anticlockwise))
  {
    var M := n * (time - epoch);
    ElapsedSign(n, time - epoch);
    if Negated(a, anticlockwise) then -M else M
  }

  lemma ElapsedSign(n: real, d: real)
    ensures 0.0 < n && 0.0 < d ==> 0.0 < n * d
  {
    if 0.0 < n && 0.0 < d {
      PositiveProduct(n, d);
    }
  }

  /** One fixed-point step of Kepler's equation M = E - e sin E. */
  function EllipticStep(m: MathFns, M: real, e: real, E: real): real {
    M + e * m.sin(E)
  }

  /** One Newton step for the hyperbolic Kepler equation M = e sinh E - E; its denominator is positive for e > 1. */
  function HyperbolicStep(m: MathFns, M: real, e: real, E: real): real
    requires 1.0 < e && CoshLaws(m)
  {
    HyperbolicDenominator(m, e, E);
    E + (M - e * m.sinh(E) + E) / (e * m.cosh(E) - 1.0)
  }

  lemma HyperbolicDenominator(m: MathFns, e: real, E: real)
    requires 1.0 < e && CoshLaws(m)
    ensures 0.0 < e * m.cosh(E) - 1.0
  {
    ProductKeepsOrder(e, 1.0, m.cosh(E));
  }

  /**
   * k steps from E0, elliptic below e = 1 and hyperbolic above. Every
   * elliptic iterate after the first lies within e of the mean anomaly.
   */
  function KeplerIterate(m: MathFns, M: real, e: real, E0: real, k: nat): (r: real)
    requires e < 1.0 || (1.0 < e && CoshLaws(m))
    ensures Pythagoras(m) && 0.0 <= e < 1.0 && 0 < k ==> M - e <= r <= M + e
  {
    if k == 0 then E0
    else
      var E := KeplerIterate(m, M, e, E0, k - 1);
      EllipticStepNearMean(m, M, e, E);
      if e < 1.0 then EllipticStep(m, M, e, E) else HyperbolicStep(m, M, e, E)
  }

  /** One elliptic step from any E lands within e of the mean anomaly, as |sin E| <= 1. */
  lemma EllipticStepNearMean(m: MathFns, M: real, e: real, E: real)
    ensures Pythagoras(m) && 0.0 <= e < 1.0 ==> M - e <= EllipticStep(m, M, e, E) <= M + e
  {
    if Pythagoras(m) && 0.0 <= e < 1.0 {
      var s := m.sin(E);
      TrigBounds(m, E);
      if 0.0 < e {
        ProductKeepsOrder(e, -1.0, s);
        ProductKeepsOrder(e, s, 1.0);
        assert -e <= e * s <= e;
      } else {
        assert e * s == 0.0;
      }
    }
  }

  /** At M = 0 the iteration started from E = 0 stays at 0, whatever the number of steps. */
  lemma {:induction false} KeplerFixedPoint(m: MathFns, e: real, k: nat)
    requires ZeroLaws(m) && (e < 1.0 || (1.0 < e && CoshLaws(m)))
    ensures KeplerIterate(m, 0.0, e, 0.0, k) == 0.0
  {
    if k > 0 {
      KeplerFixedPoint(m, e, k - 1);
      if 1.0 <= e {
        var d := e * m.cosh(0.0) - 1.0;
        assert d == e - 1.0;
        assert 0.0 - e * m.sinh(0.0) + 0.0 == 0.0;
        assert 0.0 / d == 0.0;
        assert HyperbolicStep(m, 0.0, e, 0.0) == 0.0;
      }
    }
  }

  /** At the epoch the mean anomaly is 0, and so is the solved eccentric anomaly. */
  lemma EpochAnomaly(m: MathFns, n: real, time: real, epoch: real, a: real, anticlockwise: bool, e: real, k: nat)
    requires e < 1.0 || (1.0 < e && CoshLaws(m))
    ensures ZeroLaws(m) && time == epoch ==>
              var M := MeanAnomaly(n, time, epoch, a, anticlockwise);
              KeplerIterate(m, M, e, M, k) == 0.0
  {
    if ZeroLaws(m) && time == epoch {
      KeplerFixedPoint(m, e, k);
    }
  }

  /**
   * The numerical loop of eccentricAnomalyAtTime: iterM fixed-point steps
   * (ellipse) or Newton steps (hyperbola) from E = M.
   */
  method SolveKepler(m: MathFns, M: real, e: real, iterM: nat) returns (E: real)
    requires e < 1.0 || (1.0 < e && CoshLaws(m))
    ensures E == KeplerIterate(m, M, e, M, iterM)
  {
    E := M;
    if e < 1.0 {
      for i := 0 to iterM
        invariant E == KeplerIterate(m, M, e, M, i)
      {
        E := EllipticStep(m, M, e, E);
      }
    } else {
      for i := 0 to iterM
        invariant E == KeplerIterate(m, M, e, M, i)
      {
        E := HyperbolicStep(m, M, e, E);
      }
    }
  }

  /** The orbit's mutable state. */
  class Orbit {
    const m: MathFns
    var angle: real
    var anticlockwise: bool
    var t: real
    var attractor: Attractor
    var a: real
    var b: real
    var shape: Conic
    var e: real
    var coords: Vector

    /** The shape is the conic of the current semi-axes and e is its eccentricity. */
    ghost predicate Valid()
      reads this
    {
      Axes(a, b) && shape == NewConic(m, a, b) && e == shape.e
    }

    /**
     * Copies each option or its default, fixes an ellipse's axes, builds the
     * shape and pins its main focus onto the attractor's position. The source
     * reports a missing attractor as an error; here one is required.
     */
    constructor (m: MathFns, options: Settings)
      requires PiLaws(m) && options.attractor.Some?
      requires options.a.GetOr(DefaultA) != 0.0 && 0.0 <= options.b.GetOr(DefaultB)
      ensures this.m == m && Valid()
      ensures (a, b, angle) == SwapAxes(m, options.a.GetOr(DefaultA), options.b.GetOr(DefaultB), options.angle.GetOr(0.0))
      ensures anticlockwise == options.anticlockwise.GetOr(false) && t == options.t.GetOr(0.0)
      ensures attractor == options.attractor.value
      ensures Foci().0 == attractor.position
    {
      this.m := m;
      var axes := SwapAxes(m, options.a.GetOr(DefaultA), options.b.GetOr(DefaultB), options.angle.GetOr(0.0));
      assert Axes(axes.0, axes.1);
      var k := NewConic(m, axes.0, axes.1);
      a, b, angle := axes.0, axes.1, axes.2;
      anticlockwise := options.anticlockwise.GetOr(false);
      t := options.t.GetOr(0.0);
      attractor := options.attractor.value;
      shape, e := k, k.e;
      // translateFocusTo from the origin: shift by the attractor minus the focus there.
      var d := options.attractor.value.position.Subtract(FociAt(m, Origin, k, axes.2).0);
      FociFollowCentre(m, Origin, d, k, axes.2);
      coords := Origin.Add(d);
      new;
      assert Foci() == FociAt(m, Origin.Add(d), k, axes.2);
    }

    /** The foci in the plane; when the shape's foci mirror each other, the centre is their midpoint. */
    function Foci(): (f: (Vector, Vector))
      reads this
      ensures shape.foci.1 == Vector(-shape.foci.0.x, -shape.foci.0.y) ==> f.0.Add(f.1) == coords.Scale(2.0, None)
    {
      FociAt(m, coords, shape, angle)
    }

    method TranslateTo(v: Vector)
      modifies this`coords
      ensures coords == v
    {
      coords := v;
    }

    /** Shifts the centre, and with it both foci, by v. */
    method Translate(v: Vector)
      modifies this`coords
      ensures coords == old(coords).Add(v)
      ensures Foci().0 == old(Foci().0).Add(v) && Foci().1 == old(Foci().1).Add(v)
    {
      FociFollowCentre(m, coords, v, shape, angle);
      TranslateTo(coords.Add(v));
    }

    /** Moves the orbit so that its main focus lands on v; the shape and angle stay. */
    method TranslateFocusTo(v: Vector)
      modifies this`coords
      ensures Foci().0 == v
      ensures coords == old(coords).Add(v.Subtract(old(Foci().0)))
    {
      var d := v.Subtract(Foci().0);
      Translate(d);
    }

    /** The point at eccentric anomaly E, relative to the main focus: it lies at the focal radius from it. */
    function PointAt(E: real): (p: Vector)
      reads this
      requires Pythagoras(m) && shape.Proper()
      ensures SqrtLaws(m) ==>
                p.Mod(m) == (if shape.FocalRadius(m, E) < 0.0 then -shape.FocalRadius(m, E) else shape.FocalRadius(m, E))
    {
      OrbitPoint(m, shape, angle, E)
    }

    /**
     * The orbiter's velocity at E: the vis-viva speed for its distance from
     * the attractor, along the tangent or against it as the sign table says.
     */
    function OrbitalVelocity(G: real, orbiterCoords: Vector, E: real): (v: Vector)
      reads this
      requires SqrtLaws(m) && Pythagoras(m) && Valid() && shape.Proper() && OffAxis(m, shape, E)
      requires orbiterCoords.Mod(m) != 0.0
      ensures var s := VisVivaSpeed(m, Mu(G, attractor.mass), orbiterCoords.Mod(m), shape.a);
              && (0.0 <= s ==> v.Mod(m) == s)
              && (0.0 < s ==> (v.Dot(Tangent(m, shape, angle, E)) < 0.0 <==> Negated(shape.a, anticlockwise)))
              && v.Cross(Tangent(m, shape, angle, E)) == 0.0
              && v.Dot(Tangent(m, shape, angle, E)) == (if Negated(shape.a, anticlockwise) then -s else s)
    {
      Velocity(m, Mu(G, attractor.mass), orbiterCoords.Mod(m), shape, angle, anticlockwise, E)
    }

    /**
     * eccentricAnomalyAtTime: the mean anomaly from the epoch, signed by the
     * table, then iterM fixed-point (ellipse) or Newton (hyperbola) steps
     * from E = M. At the epoch the result is E = 0.
     */
    method EccentricAnomalyAtTime(G: real, iterM: nat, time: real) returns (E: real)
      requires Valid() && 0.0 < b && SqrtLaws(m) && CoshLaws(m)
      ensures e < 1.0 || 1.0 < e
      ensures E == KeplerIterate(m, MeanAnomaly(MeanMotion(m, Mu(G, attractor.mass), a), time, t, a, anticlockwise), e,
                                 MeanAnomaly(MeanMotion(m, Mu(G, attractor.mass), a), time, t, a, anticlockwise), iterM)
      ensures ZeroLaws(m) && time == t ==> E == 0.0
    {
      ProperShape(m, a, b);
      var M := MeanAnomaly(MeanMotion(m, Mu(G, attractor.mass), a), time, t, a, anticlockwise);
      E := SolveKepler(m, M, e, iterM);
      EpochAnomaly(m, MeanMotion(m, Mu(G, attractor.mass), a), time, t, a, anticlockwise, e, iterM);
    }
  }
}
