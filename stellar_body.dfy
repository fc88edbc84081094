/**
 * The bodies of the patched-conic system (app/stellarSystem/celestialBody.js,
 * orbiter.js and attractor.js). JavaScript objects that point at their
 * orbital parent become records in an arena: `Bodies.bodies[k]` is body k,
 * and its parent is an index. A ghost rank that strictly decreases from a
 * body to its parent makes every walk up the parent chain terminate.
 */
module StellarBodies {
  import opened JsMath
  import opened Vectors
  import opened Options
  import opened ConicsConic
  import Orbits

  /** The gravitational constant and the Kepler iteration count of celestialBody.js. */
  const G := 1000.0
  const IterM := 1000

  /** Which constructor made the body: attractor.js, orbiter.js, or celestialBody.js itself. */
  datatype Kind = Attractor | Orbiter | Plain

  datatype Colour = Colour(r: real, g: real, b: real)

  /** Constructor options; a field is present when `options` has it as an own property. */
  datatype BodyOptions = BodyOptions(
    name: Option<string>,
    x: Option<real>, y: Option<real>,
    vx: Option<real>, vy: Option<real>,
    r: Option<real>, g: Option<real>, b: Option<real>,
    size: Option<real>,
    mass: Option<real>,
    orbitParent: Option<nat>,
    orbitAnticlockwise: Option<bool>)

  const DefaultMass := 50.0

  /**
   * A body: position `coords` and velocity `v` relative to `orbitParent`, its
   * orbit, the attractor that orbit goes around (`orbitAttractor`, the field
   * stellarSystem.js reads as `orbit.attractor`) and the time `t` since
   * periapsis, absent until first set.
   */
  datatype Body = Body(
    kind: Kind,
    name: string,
    coords: Vector,
    v: Vector,
    colour: Colour,
    size: real,
    mass: real,
    orbitParent: Option<nat>,
    orbitAnticlockwise: bool,
    orbit: Option<Conic>,
    orbitAttractor: Option<nat>,
    t: Option<real>)

  /** The body the constructor's option loop produces, before any orbit is set. */
  function FromOptions(kind: Kind, o: BodyOptions): (b: Body)
    ensures b.coords == Vector(o.x.GetOr(100.0), o.y.GetOr(0.0)) && b.v == Vector(o.vx.GetOr(0.0), o.vy.GetOr(0.0))
    ensures b.mass == o.mass.GetOr(DefaultMass) && b.orbitParent == o.orbitParent
    ensures b.orbitAnticlockwise == o.orbitAnticlockwise.GetOr(false)
    ensures b.kind == kind && b.orbit.None? && b.orbitAttractor.None? && b.t.None?
  {
    Body(kind, o.name.GetOr("New celestial body"),
         Vector(o.x.GetOr(100.0), o.y.GetOr(0.0)),
         Vector(o.vx.GetOr(0.0), o.vy.GetOr(0.0)),
         Colour(o.r.GetOr(100.0), o.g.GetOr(100.0), o.b.GetOr(100.0)),
         o.size.GetOr(50.0),
         o.mass.GetOr(DefaultMass),
         o.orbitParent,
         o.orbitAnticlockwise.GetOr(false),
         None, None, None)
  }

  // ---------------------------------------------------------------------
  // The parent chain.

  datatype Quantity = Position | Velocity

  function Of(b: Body, q: Quantity): Vector {
    if q == Position then b.coords else b.v
  }

  /** Every parent index is in range and ranked strictly below its child. */
  ghost predicate Ranked(bs: seq<Body>, rank: seq<nat>) {
    && |rank| == |bs|
    && forall k :: 0 <= k < |bs| && bs[k].orbitParent.Some? ==>
         bs[k].orbitParent.value < |bs| && rank[bs[k].orbitParent.value] < rank[k]
  }

  /** The global value of body i: its own plus its parent's global value. */
  ghost function Global(bs: seq<Body>, rank: seq<nat>, i: nat, q: Quantity): Vector
    requires Ranked(bs, rank) && i < |bs|
    decreases rank[i]
  {
    var b := bs[i];
    if b.orbitParent.None? then Of(b, q) else Of(b, q).Add(Global(bs, rank, b.orbitParent.value, q))
  }

  /** The parent, grandparent, ... of body i, ending with a root. */
  ghost function Ancestors(bs: seq<Body>, rank: seq<nat>, i: nat): (a: seq<nat>)
    requires Ranked(bs, rank) && i < |bs|
    ensures forall k :: 0 <= k < |a| ==> a[k] < |bs| && rank[a[k]] < rank[i]
    decreases rank[i]
  {
    var b := bs[i];
    if b.orbitParent.None? then [] else [b.orbitParent.value] + Ancestors(bs, rank, b.orbitParent.value)
  }

  /** The sum of a quantity over a list of bodies. */
  ghost function SumOf(bs: seq<Body>, chain: seq<nat>, q: Quantity): Vector
    requires forall k :: 0 <= k < |chain| ==> chain[k] < |bs|
  {
    if chain == [] then Origin else Of(bs[chain[0]], q).Add(SumOf(bs, chain[1..], q))
  }

  /** The global value is the body's own value plus that of every ancestor, and no body is its own ancestor. */
  lemma {:induction false} GlobalIsChainSum(bs: seq<Body>, rank: seq<nat>, i: nat, q: Quantity)
    requires Ranked(bs, rank) && i < |bs|
    ensures i !in Ancestors(bs, rank, i)
    ensures Global(bs, rank, i, q) == SumOf(bs, [i] + Ancestors(bs, rank, i), q)
    decreases rank[i]
  {
    var b := bs[i];
    var chain := [i] + Ancestors(bs, rank, i);
    assert chain[1..] == Ancestors(bs, rank, i);
    if b.orbitParent.Some? {
      var p := b.orbitParent.value;
      GlobalIsChainSum(bs, rank, p, q);
      assert Ancestors(bs, rank, i) == [p] + Ancestors(bs, rank, p);
    }
  }

  /** Whether body k is i or one of i's descendants. */
  ghost predicate Descends(bs: seq<Body>, rank: seq<nat>, k: nat, i: nat)
    requires Ranked(bs, rank) && k < |bs|
  {
    k == i || i in Ancestors(bs, rank, k)
  }

  /** A body that is nobody's parent has no descendants but itself. */
  lemma {:induction false} LeafHasNoDescendants(bs: seq<Body>, rank: seq<nat>, i: nat, k: nat)
    requires Ranked(bs, rank) && k < |bs| && k != i
    requires forall l :: 0 <= l < |bs| ==> bs[l].orbitParent != Some(i)
    ensures !Descends(bs, rank, k, i)
    decreases rank[k]
  {
    if bs[k].orbitParent.Some? {
      LeafHasNoDescendants(bs, rank, i, bs[k].orbitParent.value);
    }
  }

  /** The ranks after body i is moved under p: i's whole subtree is lifted above p. */
  ghost function Rerank(bs: seq<Body>, rank: seq<nat>, i: nat, p: nat): (r: seq<nat>)
    requires Ranked(bs, rank) && p < |bs|
    ensures |r| == |bs|
  {
    seq(|bs|, k requires 0 <= k < |bs| => if Descends(bs, rank, k, i) then rank[k] + rank[p] + 1 else rank[k])
  }

  /** Moving i under a parent p that is not in i's subtree keeps the chain acyclic. */
  lemma Reattach(bs: seq<Body>, rank: seq<nat>, i: nat, p: nat, b: Body)
    requires Ranked(bs, rank) && i < |bs| && p < |bs| && !Descends(bs, rank, p, i)
    requires b.orbitParent == Some(p)
    ensures Ranked(bs[i := b], Rerank(bs, rank, i, p))
  {
    var bs', rank' := bs[i := b], Rerank(bs, rank, i, p);
    forall k | 0 <= k < |bs'| && bs'[k].orbitParent.Some?
      ensures bs'[k].orbitParent.value < |bs'| && rank'[bs'[k].orbitParent.value] < rank'[k]
    {
      if k != i {
        var q := bs[k].orbitParent.value;
        assert Ancestors(bs, rank, k) == [q] + Ancestors(bs, rank, q);
        assert Descends(bs, rank, k, i) == Descends(bs, rank, q, i);
      } else {
        assert Descends(bs, rank, i, i);
      }
    }
  }

  /** After re-expressing i's position relative to p and moving it under p, no global position changes. */
  lemma {:induction false} ReattachKeepsGlobals(bs: seq<Body>, rank: seq<nat>, i: nat, p: nat, b: Body, k: nat)
    requires Ranked(bs, rank) && i < |bs| && p < |bs| && !Descends(bs, rank, p, i)
    requires b.orbitParent == Some(p)
    requires b.coords == Global(bs, rank, i, Position).Subtract(Global(bs, rank, p, Position))
    requires k < |bs|
    ensures Ranked(bs[i := b], Rerank(bs, rank, i, p))
    ensures Global(bs[i := b], Rerank(bs, rank, i, p), k, Position) == Global(bs, rank, k, Position)
    decreases Rerank(bs, rank, i, p)[k]
  {
    Reattach(bs, rank, i, p, b);
    var bs', rank' := bs[i := b], Rerank(bs, rank, i, p);
    if k == i {
      ReattachKeepsGlobals(bs, rank, i, p, b, p);
    } else if bs[k].orbitParent.Some? {
      ReattachKeepsGlobals(bs, rank, i, p, b, bs[k].orbitParent.value);
    }
  }

  /** Replacing body i, with any ranks that keep the arena acyclic, changes no global value outside i's subtree. */
  lemma {:induction false} OutsideSubtreeKeepsGlobal(bs: seq<Body>, rank: seq<nat>, i: nat, b: Body, rank': seq<nat>, l: nat, q: Quantity)
    requires Ranked(bs, rank) && i < |bs| && Ranked(bs[i := b], rank') && l < |bs| && !Descends(bs, rank, l, i)
    ensures Global(bs[i := b], rank', l, q) == Global(bs, rank, l, q)
    decreases rank[l]
  {
    if bs[l].orbitParent.Some? {
      var p := bs[l].orbitParent.value;
      assert Ancestors(bs, rank, l) == [p] + Ancestors(bs, rank, p);
      OutsideSubtreeKeepsGlobal(bs, rank, i, b, rank', p, q);
    }
  }

  // ---------------------------------------------------------------------
  // Orbit determination (recalculateOrbit) as arithmetic on the state vectors.

  /** The parent a call means: the one passed, or else the body's orbital parent. */
  function ParentOf(parent: Option<nat>, b: Body): nat
    requires parent.Some? || b.orbitParent.Some?
  {
    if parent.Some? then parent.value else b.orbitParent.value
  }

  /** The gravitational parameter G·M of a parent of mass M. */
  function Mu(mass: real): real {
    G * mass
  }

  /** Semi-major axis from the vis-viva equation solved for a. */
  function SemiMajorAxis(r: real, u: real, speed: real): real
    requires 2.0 * u - r * Pow2(speed) != 0.0
  {
    r * u / (2.0 * u - r * Pow2(speed))
  }

  /** With r, u > 0 the semi-major axis is non-zero, and positive (an ellipse) exactly when speed² < 2u/r. */
  lemma SemiMajorAxisSign(r: real, u: real, speed: real)
    requires 0.0 < r && 0.0 < u && 2.0 * u - r * Pow2(speed) != 0.0
    ensures 0.0 < SemiMajorAxis(r, u, speed) <==> Pow2(speed) < 2.0 * u / r
    ensures 0.0 < SemiMajorAxis(r, u, speed) <==> Pow2(speed) - 2.0 * (u / r) < 0.0
    ensures SemiMajorAxis(r, u, speed) != 0.0
  {
    var d := 2.0 * u - r * Pow2(speed);
    PositiveProduct(r, u);
    var a := r * u / d;
    assert a * d == r * u;
    if 0.0 < d {
      QuotientPositive(r * u, d);
    } else {
      assert a < 0.0 by {
        if 0.0 <= a {
          ProductNonNegative(a, -d);
        }
      }
    }
    assert Pow2(speed) < 2.0 * u / r <==> 0.0 < d by {
      assert r * (2.0 * u / r) == 2.0 * u;
      ProductKeepsOrder(r, Pow2(speed), 2.0 * u / r);
      if 0.0 < d {
        assert r * Pow2(speed) < r * (2.0 * u / r);
      }
    }
  }

  /** The eccentricity vector (speed²/u - 1/r)·coords - (coords·velocity / u)·velocity. */
  function EccentricityVector(coords: Vector, velocity: Vector, u: real, r: real, speed: real): Vector
    requires u != 0.0 && r != 0.0
  {
    coords.Scale(Pow2(speed) / u - 1.0 / r, None).Subtract(velocity.Scale(coords.Dot(velocity) / u, None))
  }

  /** The semi-minor axis: a·sqrt(1 - e²) for e < 1, -a·sqrt(e² - 1) otherwise. */
  function SemiMinorAxis(m: MathFns, a: real, e: real): real {
    if e < 1.0 then a * m.sqrt(1.0 - Pow2(e)) else -a * m.sqrt(Pow2(e) - 1.0)
  }

  /** The direction flag: h < 0 on an ellipse, h > 0 on a hyperbola, where h is the angular momentum. */
  function Anticlockwise(a: real, h: real): bool {
    if a > 0.0 then h < 0.0 else h > 0.0
  }

  /**
   * Read through orbit.js's sign table, the flag negates the motion exactly
   * when the angular momentum is negative, on either kind of conic.
   */
  lemma DirectionFollowsMomentum(a: real, h: real)
    requires h != 0.0
    ensures Orbits.Negated(a, Anticlockwise(a, h)) <==> h < 0.0
  {}

  /** Where the source's divisions are defined: away from the parent, not parabolic. */
  predicate Bound(m: MathFns, u: real, coords: Vector, velocity: Vector) {
    && u != 0.0
    && coords.Mod(m) != 0.0
    && 2.0 * u - coords.Mod(m) * Pow2(velocity.Mod(m)) != 0.0
  }

  /** The shape recalculateOrbit derives before building the conic. */
  datatype Shape = Shape(a: real, ev: Vector, e: real, w: real, b: real)

  function ShapeOf(m: MathFns, u: real, coords: Vector, velocity: Vector): Shape
    requires Bound(m, u, coords, velocity)
  {
    var r, speed := coords.Mod(m), velocity.Mod(m);
    var a := SemiMajorAxis(r, u, speed);
    var ev := EccentricityVector(coords, velocity, u, r, speed);
    var e := ev.Mod(m);
    Shape(a, ev, e, ev.GetRotation(m), SemiMinorAxis(m, a, e))
  }

  /** The new conic's eccentric anomaly at the body's true anomaly is defined. */
  predicate Partial(m: MathFns, s: Shape, coords: Vector) {
    var axes := Upright(m, s.a, s.b, s.w);
    axes.0 != 0.0 && EccentricAnomalyDefined(m, axes.0, axes.1, coords.GetRotation(m) - s.w)
  }

  /** The eccentric anomaly of the new orbit at true anomaly (angle of coords) - w, by the conic's closed form. */
  function TrueToEccentric(m: MathFns, s: Shape, coords: Vector): real
    requires Partial(m, s, coords)
  {
    var axes := Upright(m, s.a, s.b, s.w);
    EccentricAnomalyOf(m, axes.0, axes.1, coords.GetRotation(m) - s.w)
  }

  predicate Determinable(m: MathFns, u: real, coords: Vector, velocity: Vector) {
    Bound(m, u, coords, velocity) && Partial(m, ShapeOf(m, u, coords, velocity), coords)
  }

  /** Kepler's equation: M = E - e sin E for e < 1, M = e sinh E - E otherwise. */
  function MeanFromEccentric(m: MathFns, e: real, E: real): real {
    if e < 1.0 then E - e * m.sin(E) else e * m.sinh(E) - E
  }

  /** The orbital elements recalculateOrbit derives. */
  datatype Elements = Elements(shape: Shape, anticlockwise: bool, M: real, n: real, t: real)

  /**
   * The arithmetic of recalculateOrbit for position `coords` and velocity
   * `velocity` relative to a parent of gravitational parameter u: None where
   * the source would divide by zero. The epoch t is the time since periapsis
   * at which the mean anomaly reaches M, with the orbit's mean motion n.
   */
  function Determine(m: MathFns, u: real, coords: Vector, velocity: Vector): (el: Option<Elements>)
    requires SqrtLaws(m) && 0.0 < u
    ensures el.Some? <==> Determinable(m, u, coords, velocity)
    ensures el.Some? ==> el.value.shape == ShapeOf(m, u, coords, velocity)
    ensures el.Some? ==> el.value.anticlockwise == Anticlockwise(el.value.shape.a, coords.Cross(velocity))
    ensures el.Some? ==> el.value.shape.a != 0.0 && (el.value.n, el.value.t) == Epoch(m, u, el.value.shape.a, el.value.M)
    ensures el.Some? ==>
              var M0 := MeanFromEccentric(m, el.value.shape.e, TrueToEccentric(m, el.value.shape, coords));
              el.value.M == if el.value.anticlockwise then -M0 else M0
  {
    if !Determinable(m, u, coords, velocity) then None
    else
      var s := ShapeOf(m, u, coords, velocity);
      var anticlockwise := Anticlockwise(s.a, coords.Cross(velocity));
      var M0 := MeanFromEccentric(m, s.e, TrueToEccentric(m, s, coords));
      var M := if anticlockwise then -M0 else M0;
      ShapeAxisNonZero(m, u, coords, velocity);
      var ep := Epoch(m, u, s.a, M);
      Some(Elements(s, anticlockwise, M, ep.0, ep.1))
  }

  /** The semi-major axis the shape carries is never zero. */
  lemma ShapeAxisNonZero(m: MathFns, u: real, coords: Vector, velocity: Vector)
    requires SqrtLaws(m) && 0.0 < u && Bound(m, u, coords, velocity)
    ensures ShapeOf(m, u, coords, velocity).a != 0.0
  {
    SemiMajorAxisSign(coords.Mod(m), u, velocity.Mod(m));
  }

  /** The mean motion n and the time t = M/n since periapsis at which the mean anomaly is M. */
  function Epoch(m: MathFns, u: real, a: real, M: real): (r: (real, real))
    requires SqrtLaws(m) && 0.0 < u && a != 0.0
    ensures r.0 == Orbits.MeanMotion(m, u, a) && 0.0 < r.0 && r.0 * r.1 == M
  {
    var n := Orbits.MeanMotion(m, u, a);
    MeanMotionPositive(m, u, a);
    DivisionCancels(M, n);
    (n, M / n)
  }

  lemma MeanMotionPositive(m: MathFns, u: real, a: real)
    requires SqrtLaws(m) && 0.0 < u && a != 0.0
    ensures 0.0 < Orbits.MeanMotion(m, u, a)
  {
    var n := Orbits.MeanMotion(m, u, a);
    FactorNonZero(Pow2(n), Orbits.Abs(a * Pow2(a)));
    Pow2Facts(n);
  }

  lemma FactorNonZero(p: real, q: real)
    requires p * q != 0.0
    ensures p != 0.0
  {}

  /** For a circular state (speed² = u/r, velocity perpendicular to position) a = r and the eccentricity vector vanishes. */
  lemma CircularState(m: MathFns, u: real, coords: Vector, velocity: Vector)
    requires SqrtLaws(m) && 0.0 < u && coords != Origin
    requires Pow2(velocity.Mod(m)) == u / coords.Mod(m) && coords.Dot(velocity) == 0.0
    ensures Bound(m, u, coords, velocity)
    ensures ShapeOf(m, u, coords, velocity).a == coords.Mod(m)
    ensures ShapeOf(m, u, coords, velocity).ev == Origin
  {
    var r, speed := coords.Mod(m), velocity.Mod(m);
    CircularAxis(r, u, Pow2(speed));
    assert SemiMajorAxis(r, u, speed) == r;
    ScaleByZero(coords, Pow2(speed) / u - 1.0 / r);
    ScaleByZero(velocity, coords.Dot(velocity) / u);
  }

  /** With speed² = u/r: 2u - r·speed² = u, so a = r·u/u = r, and the energy term speed²/u - 1/r vanishes. */
  lemma CircularAxis(r: real, u: real, S: real)
    requires 0.0 < r && 0.0 < u && S == u / r
    ensures 2.0 * u - r * S == u && r * u / (2.0 * u - r * S) == r && S / u - 1.0 / r == 0.0
  {
    assert r * S == u;
    assert S / u == 1.0 / r by {
      assert (u / r) / u == 1.0 / r;
    }
    assert r * u / u == r;
  }

  lemma ScaleByZero(v: Vector, k: real)
    requires k == 0.0
    ensures v.Scale(k, None) == Origin
  {}

  // The eccentricity classifies the orbit: e² - 1 = h²(speed² - 2u/r)/u².

  /** |al·c - be·v|² in terms of |c|², c·v and |v|². */
  lemma DotExpand(al: real, be: real, x: real, y: real, p: real, q: real, R2: real, D: real, S: real, ex: real, ey: real)
    requires R2 == x * x + y * y && D == x * p + y * q && S == p * p + q * q
    requires ex == al * x - be * p && ey == al * y - be * q
    ensures ex * ex + ey * ey == al * al * R2 - 2.0 * al * be * D + be * be * S
  {
    assert ex * ex + ey * ey == (al * x - be * p) * (al * x - be * p) + (al * y - be * q) * (al * y - be * q);
    assert al * al * R2 == al * al * (x * x + y * y);
    assert al * be * D == al * be * (x * p + y * q);
    assert be * be * S == be * be * (p * p + q * q);
  }

  /** Lagrange's identity in the plane: |c|²|v|² = (c·v)² + (c×v)². */
  lemma Lagrange(x: real, y: real, p: real, q: real, R2: real, D: real, H: real, S: real)
    requires R2 == x * x + y * y && D == x * p + y * q && H == x * q - y * p && S == p * p + q * q
    ensures R2 * S == D * D + H * H
  {
    assert R2 * S == (x * x + y * y) * (p * p + q * q);
    assert D * D + H * H == (x * p + y * q) * (x * p + y * q) + (x * q - y * p) * (x * q - y * p);
  }

  lemma EnergyIdentity(u: real, r: real, S: real, d: real, h: real, al: real, be: real, E2: real)
    requires u != 0.0 && r != 0.0
    requires al == S / u - 1.0 / r && be == d / u
    requires E2 == al * al * (r * r) - 2.0 * al * be * d + be * be * S
    requires r * r * S == d * d + h * h
    ensures u * u * (E2 - 1.0) == h * h * (S - 2.0 * (u / r))
  {
    var k := u / r;
    var A := S - k;
    assert u * al == A;
    assert u * be == d;
    assert k * r == u;
    var D2 := d * d;
    assert u * u * E2 == A * A * (r * r) - 2.0 * A * D2 + D2 * S by {
      assert u * u * E2 == (u * al) * (u * al) * (r * r) - 2.0 * (u * al) * (u * be) * d + (u * be) * (u * be) * S;
    }
    assert u * u == k * k * (r * r);
    assert D2 * (2.0 * k - S) == (r * r * S - h * h) * (2.0 * k - S);
    assert A * A * (r * r) - 2.0 * A * D2 + D2 * S - k * k * (r * r) == (r * r) * (A * A - k * k) + D2 * (2.0 * k - S);
  }

  lemma SquareBelowOne(e: real)
    requires 0.0 <= e
    ensures e < 1.0 <==> e * e < 1.0
  {
    if e < 1.0 {
      ProductKeepsOrderWeak(e, e, 1.0);
    } else {
      ProductKeepsOrderWeak(e, 1.0, e);
    }
  }

  lemma ProductKeepsOrderWeak(k: real, p: real, q: real)
    requires 0.0 <= k && p <= q
    ensures k * p <= k * q
  {
    ProductNonNegative(k, q - p);
  }

  /** The eccentricity's square: u²(e² - 1) = h²(speed² - 2u/r). */
  lemma EccentricitySquare(m: MathFns, u: real, coords: Vector, velocity: Vector)
    requires SqrtLaws(m) && 0.0 < u && Bound(m, u, coords, velocity)
    ensures var e := ShapeOf(m, u, coords, velocity).e;
            var h := coords.Cross(velocity);
            Pow2(u) * (Pow2(e) - 1.0) == Pow2(h) * (Pow2(velocity.Mod(m)) - 2.0 * (u / coords.Mod(m)))
  {
    var s := ShapeOf(m, u, coords, velocity);
    var r, speed := coords.Mod(m), velocity.Mod(m);
    assert s.ev == EccentricityVector(coords, velocity, u, r, speed) && s.e == s.ev.Mod(m);
    var S, d := Pow2(speed), coords.Dot(velocity);
    EnergyOfVector(m, u, coords, velocity, r, speed, s.ev, s.e, coords.Cross(velocity), S, d, S / u - 1.0 / r, d / u);
  }

  /** EccentricitySquare on the eccentricity vector itself, with its parts named. */
  lemma EnergyOfVector(m: MathFns, u: real, coords: Vector, velocity: Vector, r: real, speed: real, ev: Vector, e: real, h: real,
                       S: real, d: real, al: real, be: real)
    requires SqrtLaws(m) && 0.0 < u && r == coords.Mod(m) && r != 0.0 && speed == velocity.Mod(m)
    requires ev == EccentricityVector(coords, velocity, u, r, speed) && e == ev.Mod(m) && h == coords.Cross(velocity)
    requires S == Pow2(speed) && d == coords.Dot(velocity) && al == S / u - 1.0 / r && be == d / u
    ensures Pow2(u) * (Pow2(e) - 1.0) == Pow2(h) * (S - 2.0 * (u / r))
  {
    EvComponents(coords, velocity, u, r, speed, ev, al, be);
    SquaredLength(m, coords, r);
    SquaredLength(m, velocity, speed);
    SquaredLength(m, ev, e);
    CrossAndDot(coords, velocity, h, d);
    var x, y, p, q := coords.x, coords.y, velocity.x, velocity.y;
    EnergyOfComponents(u, r, S, x, y, p, q, al * x - be * p, al * y - be * q, e, h, d, al, be);
  }

  lemma EvComponents(coords: Vector, velocity: Vector, u: real, r: real, speed: real, ev: Vector, al: real, be: real)
    requires u != 0.0 && r != 0.0 && ev == EccentricityVector(coords, velocity, u, r, speed)
    requires al == Pow2(speed) / u - 1.0 / r && be == coords.Dot(velocity) / u
    ensures ev.x == al * coords.x - be * velocity.x && ev.y == al * coords.y - be * velocity.y
  {}

  lemma CrossAndDot(v: Vector, w: Vector, h: real, d: real)
    requires h == v.Cross(w) && d == v.Dot(w)
    ensures h == v.x * w.y - v.y * w.x && d == v.x * w.x + v.y * w.y
  {}

  lemma SquaredLength(m: MathFns, v: Vector, l: real)
    requires SqrtLaws(m) && l == v.Mod(m)
    ensures l * l == v.x * v.x + v.y * v.y && Pow2(l) == v.x * v.x + v.y * v.y
  {}

  lemma EnergyOfComponents(u: real, r: real, S: real, x: real, y: real, p: real, q: real, ex: real, ey: real, e: real, h: real,
                           d: real, al: real, be: real)
    requires u != 0.0 && r != 0.0 && h == x * q - y * p && d == x * p + y * q
    requires r * r == x * x + y * y && S == p * p + q * q
    requires al == S / u - 1.0 / r && be == d / u
    requires ex == al * x - be * p && ey == al * y - be * q
    requires e * e == ex * ex + ey * ey
    ensures Pow2(u) * (Pow2(e) - 1.0) == Pow2(h) * (S - 2.0 * (u / r))
  {
    var R2 := r * r;
    DotExpand(al, be, x, y, p, q, R2, d, S, ex, ey);
    Lagrange(x, y, p, q, R2, d, h, S);
    EnergyIdentity(u, r, S, d, h, al, be, e * e);
  }

  /** The sign argument: with u²(e² - 1) = h²·gap and a > 0 exactly when gap < 0. */
  lemma ClassifyBySign(u: real, e: real, h: real, gap: real, a: real)
    requires 0.0 < u && 0.0 <= e && Pow2(u) * (Pow2(e) - 1.0) == Pow2(h) * gap && (0.0 < a <==> gap < 0.0)
    ensures h != 0.0 ==> (e < 1.0 <==> 0.0 < a)
    ensures h == 0.0 ==> e == 1.0
  {
    var U, X, H := Pow2(u), Pow2(e) - 1.0, Pow2(h);
    SquareBelowOne(e);
    Pow2Facts(u);
    Pow2Facts(h);
    if h != 0.0 {
      NegativeWithPositive(U, X);
      NegativeWithPositive(H, gap);
    } else {
      assert U * X == 0.0;
      ZeroProduct(U, X);
      if e < 1.0 {
        ProductKeepsOrderWeak(e, e, 1.0);
      } else if 1.0 < e {
        ProductKeepsOrder(e, 1.0, e);
      }
    }
  }

  /** Multiplying by a positive factor keeps the sign. */
  lemma NegativeWithPositive(k: real, x: real)
    requires 0.0 < k
    ensures k * x < 0.0 <==> x < 0.0
  {
    if x < 0.0 {
      NegTimesPos(x, k);
    } else {
      ProductNonNegative(k, x);
    }
  }

  /**
   * The eccentricity classifies the determined orbit: with non-zero angular
   * momentum it is below 1 exactly when the semi-major axis is positive (an
   * ellipse); radial motion gives e = 1.
   */
  lemma EccentricityClassifies(m: MathFns, u: real, coords: Vector, velocity: Vector)
    requires SqrtLaws(m) && 0.0 < u && Bound(m, u, coords, velocity)
    ensures var s := ShapeOf(m, u, coords, velocity);
            && (coords.Cross(velocity) != 0.0 ==> (s.e < 1.0 <==> 0.0 < s.a))
            && (coords.Cross(velocity) == 0.0 ==> s.e == 1.0)
  {
    var s := ShapeOf(m, u, coords, velocity);
    var r, speed := coords.Mod(m), velocity.Mod(m);
    EccentricitySquare(m, u, coords, velocity);
    SemiMajorAxisSign(r, u, speed);
    ClassifyBySign(u, s.e, coords.Cross(velocity), Pow2(speed) - 2.0 * (u / r), s.a);
  }

  /**
   * The determined axes satisfy the conic's invariant as given: the semi-minor
   * axis is non-negative and, on an ellipse, at most the semi-major axis, so the
   * constructor keeps them as they are.
   */
  lemma DeterminedAxes(m: MathFns, u: real, coords: Vector, velocity: Vector)
    requires SqrtLaws(m) && 0.0 < u && Bound(m, u, coords, velocity)
    ensures ShapeOf(m, u, coords, velocity).a != 0.0
    ensures 0.0 <= ShapeOf(m, u, coords, velocity).b
    ensures 0.0 < ShapeOf(m, u, coords, velocity).a ==> ShapeOf(m, u, coords, velocity).b <= ShapeOf(m, u, coords, velocity).a
    ensures var s := ShapeOf(m, u, coords, velocity); Upright(m, s.a, s.b, s.w) == (s.a, s.b, s.w)
  {
    var s := ShapeOf(m, u, coords, velocity);
    SemiMajorAxisSign(coords.Mod(m), u, velocity.Mod(m));
    EccentricityClassifies(m, u, coords, velocity);
    MinorAxisBounds(m, s.a, s.e);
  }

  /** The semi-minor axis of an ellipse (e < 1, a > 0) or of a hyperbola (a < 0, or e = 1) is in [0, |a|]. */
  lemma MinorAxisBounds(m: MathFns, a: real, e: real)
    requires SqrtLaws(m) && 0.0 <= e && a != 0.0
    requires e < 1.0 ==> 0.0 < a
    requires 0.0 < a && 1.0 <= e ==> e == 1.0
    ensures 0.0 <= SemiMinorAxis(m, a, e)
    ensures 0.0 < a ==> SemiMinorAxis(m, a, e) <= a
  {
    if e < 1.0 {
      EllipseMinorAxis(m, a, e);
      assert SemiMinorAxis(m, a, e) == a * m.sqrt(1.0 - Pow2(e));
    } else {
      HyperbolaMinorAxis(m, a, e);
    }
  }

  /** On an ellipse, a·sqrt(1 - e²) is in [0, a]. */
  lemma EllipseMinorAxis(m: MathFns, a: real, e: real)
    requires SqrtLaws(m) && 0.0 <= e < 1.0 && 0.0 < a
    ensures 0.0 <= a * m.sqrt(1.0 - Pow2(e)) <= a
  {
    Pow2Facts(e);
    Pow2Less(e, 1.0);
    SqrtBelow(m, 1.0 - Pow2(e), 1.0);
    ScaledBelow(a, m.sqrt(1.0 - Pow2(e)));
  }

  /** On a hyperbola (a < 0, or e = 1), -a·sqrt(e² - 1) is non-negative, and 0 when a > 0. */
  lemma HyperbolaMinorAxis(m: MathFns, a: real, e: real)
    requires SqrtLaws(m) && 1.0 <= e && a != 0.0 && (0.0 < a ==> e == 1.0)
    ensures 0.0 <= -a * m.sqrt(Pow2(e) - 1.0)
    ensures 0.0 < a ==> -a * m.sqrt(Pow2(e) - 1.0) == 0.0
  {
    SquareAtLeastOne(e);
    if 0.0 < a {
      SqrtZero(m, 0.0);
    } else {
      ProductNonNegative(-a, m.sqrt(Pow2(e) - 1.0));
    }
  }

  lemma ScaledBelow(a: real, q: real)
    requires 0.0 <= a && 0.0 <= q <= 1.0
    ensures 0.0 <= a * q <= a
  {
    ProductKeepsOrderWeak(a, q, 1.0);
    ProductNonNegative(a, q);
  }

  lemma SquareAtLeastOne(e: real)
    requires 1.0 <= e
    ensures 1.0 <= Pow2(e)
  {
    ProductKeepsOrderWeak(e, 1.0, e);
  }

  // ---------------------------------------------------------------------
  // Sphere of influence.

  /** The patched-conic sphere of influence j·(mass/parentMass)^(2/5). */
  function SoiFormula(m: MathFns, j: real, mass: real, parentMass: real): real
    requires parentMass != 0.0
  {
    j * m.pow25(mass / parentMass)
  }

  /** The formula is non-negative, and grows with the body's own mass. */
  lemma SoiMonotone(m: MathFns, j: real, mass1: real, mass2: real, parentMass: real)
    requires Pow25Laws(m) && 0.0 <= j && 0.0 <= mass1 <= mass2 && 0.0 < parentMass
    ensures 0.0 <= SoiFormula(m, j, mass1, parentMass) <= SoiFormula(m, j, mass2, parentMass)
  {
    QuotientNonNegative(mass1, parentMass);
    assert mass1 / parentMass <= mass2 / parentMass by {
      assert mass2 / parentMass - mass1 / parentMass == (mass2 - mass1) / parentMass;
      QuotientNonNegative(mass2 - mass1, parentMass);
    }
    ProductNonNegative(j, m.pow25(mass1 / parentMass));
    ProductKeepsOrderWeak(j, m.pow25(mass1 / parentMass), m.pow25(mass2 / parentMass));
  }

  lemma SoiNonNegative(m: MathFns, j: real, mass: real, parentMass: real)
    requires 0.0 <= j && 0.0 <= mass && 0.0 < parentMass
    ensures Pow25Laws(m) ==> 0.0 <= SoiFormula(m, j, mass, parentMass)
  {
    if Pow25Laws(m) {
      SoiMonotone(m, j, mass, mass, parentMass);
    }
  }

  /**
   * sphereOfInfluenceRadius of body i: 0 for an orbiter (orbiter.js's
   * override) and for a massless body; 0 on a hyperbolic orbit; otherwise the
   * patched-conic formula around the orbital parent. A massive body must have
   * an orbit.
   */
  function SphereOfInfluenceRadius(m: MathFns, bs: seq<Body>, i: nat): (r: real)
    requires i < |bs| && BodyOk(m, bs, i)
    requires bs[i].orbitParent.Some? ==> bs[i].orbitParent.value < |bs|
    requires bs[i].kind != Orbiter && bs[i].mass != 0.0 ==> bs[i].orbit.Some?
    ensures bs[i].kind == Orbiter || bs[i].mass == 0.0 ==> r == 0.0
    ensures bs[i].kind != Orbiter && bs[i].mass != 0.0 && bs[i].orbit.value.j < 0.0 ==> r == 0.0
    ensures bs[i].kind != Orbiter && bs[i].mass != 0.0 && 0.0 <= bs[i].orbit.value.j ==>
              r == SoiFormula(m, bs[i].orbit.value.j, bs[i].mass, ParentMass(bs, i))
    ensures Pow25Laws(m) ==> 0.0 <= r
  {
    var b := bs[i];
    if b.kind == Orbiter || b.mass == 0.0 then 0.0
    else if b.orbit.value.j < 0.0 then 0.0
    else
      SoiNonNegative(m, b.orbit.value.j, b.mass, ParentMass(bs, i));
      SoiFormula(m, b.orbit.value.j, b.mass, ParentMass(bs, i))
  }

  // ---------------------------------------------------------------------
  // Propagation (update, eccentricAnomaly, orbitalVelocity).

  /** The conic facts every constructed orbit keeps. */
  ghost predicate Built(m: MathFns, o: Conic) {
    o.m == m && o.a == FocalDistance(m, o.j, o.n) && (0.0 < o.j ==> o.n <= o.j)
  }

  /** An orbit the position formulas can use: a proper ellipse or hyperbola. */
  predicate Proper(o: Conic) {
    o.j != 0.0 && 0.0 < o.n
  }

  /** The eccentricity of a proper orbit is below 1 (ellipse) or above 1 (hyperbola). */
  lemma ProperEccentricity(m: MathFns, o: Conic)
    requires SqrtLaws(m) && Built(m, o) && Proper(o)
    ensures o.Valid()
    ensures o.Eccentricity() < 1.0 <==> 0.0 < o.j
    ensures o.Eccentricity() != 1.0
  {
    EccentricityRange(m, o.j, o.n);
  }

  /** The mean anomaly after time t since periapsis: n·t, negated for an anticlockwise orbit. */
  function MeanAt(m: MathFns, o: Conic, parentMass: real, anticlockwise: bool, time: real): real
    requires o.j != 0.0
  {
    var n := Orbits.MeanMotion(m, Mu(parentMass), o.j);
    if anticlockwise then -(n * time) else n * time
  }

  /** The eccentric anomaly eccentricAnomaly() solves for: IterM Kepler steps from the mean anomaly. */
  function AnomalyAt(m: MathFns, o: Conic, parentMass: real, anticlockwise: bool, time: real): real
    requires SqrtLaws(m) && CoshLaws(m) && Built(m, o) && Proper(o)
  {
    ProperEccentricity(m, o);
    var M := MeanAt(m, o, parentMass, anticlockwise, time);
    Orbits.KeplerIterate(m, M, o.Eccentricity(), M, IterM)
  }

  /** At periapsis time (t = 0) the solved eccentric anomaly is 0. */
  lemma AnomalyAtPeriapsis(m: MathFns, o: Conic, parentMass: real, anticlockwise: bool)
    requires SqrtLaws(m) && CoshLaws(m) && ZeroLaws(m) && Built(m, o) && Proper(o)
    ensures AnomalyAt(m, o, parentMass, anticlockwise, 0.0) == 0.0
  {
    ProperEccentricity(m, o);
    assert MeanAt(m, o, parentMass, anticlockwise, 0.0) == 0.0;
    Orbits.KeplerFixedPoint(m, o.Eccentricity(), IterM);
  }

  /** On a proper orbit the distance from the parent is never zero. */
  lemma RadiusNonZero(m: MathFns, o: Conic, E: real)
    requires SqrtLaws(m) && Pythagoras(m) && CoshLaws(m) && Built(m, o) && Proper(o)
    ensures o.Valid() && o.Radius(E) != 0.0
  {
    ProperEccentricity(m, o);
    if o.j < 0.0 {
      EccentricityRange(m, o.j, o.n);
      var e := o.Eccentricity();
      ProductKeepsOrderWeak(e, 1.0, m.cosh(E));
      NegTimesPos(o.j, e * m.cosh(E) - 1.0);
    }
  }

  /** At E = 0 a proper ellipse is at periapsis, j - a from its focus. */
  lemma PeriapsisDistance(m: MathFns, o: Conic)
    requires SqrtLaws(m) && Pythagoras(m) && ZeroLaws(m) && Built(m, o) && Proper(o) && 0.0 < o.j
    ensures o.Valid() && o.Radius(0.0) == o.j - o.a
  {
    ProperEccentricity(m, o);
    EccentricityRange(m, o.j, o.n);
    var e := o.Eccentricity();
    var q := m.sqrt((1.0 + e) / (1.0 - e));
    assert 0.0 / 2.0 == 0.0;
    assert q * m.tan(0.0) == 0.0;
    assert o.TrueAnomaly(0.0) == 0.0;
    PeriapsisAlgebra(o.j, e, o.a);
  }

  /** j(1 - e²)/(1 + e) = j - e·j: the conic equation at true anomaly 0. */
  lemma PeriapsisAlgebra(j: real, e: real, a: real)
    requires 0.0 < j && 0.0 <= e < 1.0 && e == a / j
    ensures j * (1.0 - Pow2(e)) / (1.0 + e * 1.0) == j - a
  {
    assert 1.0 - Pow2(e) == (1.0 - e) * (1.0 + e);
    assert j * ((1.0 - e) * (1.0 + e)) / (1.0 + e) == j * (1.0 - e);
    assert e * j == a;
  }

  /** The vis-viva speed around a parent of the given mass at distance r on a conic of semi-major axis j. */
  function Speed(m: MathFns, parentMass: real, r: real, j: real): (s: real)
    requires r != 0.0 && j != 0.0
    ensures SqrtLaws(m) && 0.0 <= Mu(parentMass) * (2.0 / r - 1.0 / j) ==>
              0.0 <= s && s * s == Mu(parentMass) * (2.0 / r - 1.0 / j)
  {
    Orbits.VisVivaSpeed(m, Mu(parentMass), r, j)
  }

  /**
   * orbitalVelocity: the vis-viva speed along the unit tangent at E, so on
   * the tangent's line, with its signed length along the tangent the speed.
   */
  function VelocityAt(m: MathFns, o: Conic, parentMass: real, r: real, E: real): (v: Vector)
    requires SqrtLaws(m) && Pythagoras(m) && PiLaws(m) && o.Valid() && o.m == m && r != 0.0
    ensures 0.0 <= Mu(parentMass) * (2.0 / r - 1.0 / o.j) ==> v.Mod(m) == Speed(m, parentMass, r, o.j)
    ensures v.Cross(o.TangentAt(E)) == 0.0 && v.Dot(o.TangentAt(E)) == Speed(m, parentMass, r, o.j)
  {
    var t := o.TangentAt(E);
    var s := Speed(m, parentMass, r, o.j);
    ScaleLength(m, t, s);
    ScaleUnit(m, t, s);
    ScaleAlong(t, s);
    t.Scale(s, None)
  }

  /** The mass of body k's orbital parent, 0 without one. */
  function ParentMass(bs: seq<Body>, k: nat): real
    requires k < |bs|
  {
    var p := bs[k].orbitParent;
    if p.Some? && p.value < |bs| then bs[p.value].mass else 0.0
  }

  /**
   * What update does to one body: without an orbit nothing; otherwise t (0
   * if unset) advances by dt, and on a proper orbit the body moves to the
   * orbit's point at the solved eccentric anomaly, with the vis-viva velocity
   * along the tangent there. Only t, coords and v change.
   */
  function Advance(m: MathFns, b: Body, parentMass: real, dt: real): (b': Body)
    requires Propagates(m) && (b.orbit.Some? ==> Built(m, b.orbit.value))
    ensures b.orbit.None? ==> b' == b
    ensures b.orbit.Some? ==> b' == b.(t := Some(b.t.GetOr(0.0) + dt), coords := b'.coords, v := b'.v)
    ensures b.orbit.Some? && !Proper(b.orbit.value) ==> b'.coords == b.coords && b'.v == b.v
    ensures b.orbit.Some? && Proper(b.orbit.value) ==>
              (b'.coords, b'.v) == Move(m, b.orbit.value, parentMass, b.orbitAnticlockwise, b.t.GetOr(0.0) + dt)
  {
    if b.orbit.None? then b
    else
      var o := b.orbit.value;
      var time := b.t.GetOr(0.0) + dt;
      if !Proper(o) then b.(t := Some(time))
      else
        var next := Move(m, o, parentMass, b.orbitAnticlockwise, time);
        b.(t := Some(time), coords := next.0, v := next.1)
  }

  /** The laws propagation relies on. */
  ghost predicate Propagates(m: MathFns) {
    SqrtLaws(m) && Pythagoras(m) && PiLaws(m) && CoshLaws(m)
  }

  /** The new position and velocity at time since periapsis on a proper orbit. */
  function Move(m: MathFns, o: Conic, parentMass: real, anticlockwise: bool, time: real): (r: (Vector, Vector))
    requires Propagates(m) && Built(m, o) && Proper(o)
    ensures var E := AnomalyAt(m, o, parentMass, anticlockwise, time);
            && o.Valid() && r.0 == o.PointAt(E) && r.0.Mod(m) == Abs(o.Radius(E)) && r.0.Mod(m) != 0.0
            && r.1 == VelocityAt(m, o, parentMass, r.0.Mod(m), E)
  {
    var E := AnomalyAt(m, o, parentMass, anticlockwise, time);
    RadiusNonZero(m, o, E);
    var point := o.PointAt(E);
    (point, VelocityAt(m, o, parentMass, point.Mod(m), E))
  }

  /** A body's first update with dt = 0 puts it at periapsis: on an ellipse, j - a from its parent. */
  lemma FirstUpdateAtPeriapsis(m: MathFns, b: Body, parentMass: real)
    requires Propagates(m) && ZeroLaws(m) && b.orbit.Some? && Built(m, b.orbit.value) && Proper(b.orbit.value)
    requires b.t.None? && 0.0 < b.orbit.value.j
    ensures Advance(m, b, parentMass, 0.0).coords.Mod(m) == b.orbit.value.j - b.orbit.value.a
  {
    var o := b.orbit.value;
    AnomalyAtPeriapsis(m, o, parentMass, b.orbitAnticlockwise);
    PeriapsisDistance(m, o);
    assert Advance(m, b, parentMass, 0.0).t == Some(0.0);
  }

  // ---------------------------------------------------------------------
  // The arena.

  /** What every body satisfies in a well-formed arena. */
  ghost predicate BodyOk(m: MathFns, bs: seq<Body>, k: nat)
    requires k < |bs|
  {
    var b := bs[k];
    && 0.0 <= b.mass
    && (b.orbitParent.Some? && b.orbitParent.value < |bs| ==>
          bs[b.orbitParent.value].kind != Orbiter && 0.0 < bs[b.orbitParent.value].mass)
    && (b.orbit.Some? ==> b.orbitParent.Some? && b.orbitAttractor == b.orbitParent && Built(m, b.orbit.value))
    && (b.orbit.None? ==> b.orbitAttractor.None?)
  }

  /** Replacing one body by another of the same kind and mass that is itself well-formed keeps every body well-formed. */
  lemma ReplaceBody(m: MathFns, bs: seq<Body>, i: nat, b: Body, bs': seq<Body>)
    requires i < |bs| && bs' == bs[i := b] && forall k :: 0 <= k < |bs| ==> BodyOk(m, bs, k)
    requires b.kind == bs[i].kind && b.mass == bs[i].mass && BodyOk(m, bs', i)
    ensures forall k :: 0 <= k < |bs'| ==> BodyOk(m, bs', k)
  {
    forall k | 0 <= k < |bs'|
      ensures BodyOk(m, bs', k)
    {
      if k != i {
        assert BodyOk(m, bs, k);
      }
    }
  }

  /** Whether p can become i's parent: a massive non-orbiter outside i's subtree. */
  ghost predicate CanAttach(bs: seq<Body>, rank: seq<nat>, i: nat, p: nat)
    requires Ranked(bs, rank)
  {
    i < |bs| && p < |bs| && bs[p].kind != Orbiter && 0.0 < bs[p].mass && !Descends(bs, rank, p, i)
  }

  /** Giving body i a well-formed orbit around an attachable parent p keeps the arena valid. */
  lemma AttachOrbit(m: MathFns, bs: seq<Body>, rank: seq<nat>, i: nat, p: nat, b: Body, bs': seq<Body>)
    requires Ranked(bs, rank) && (forall k :: 0 <= k < |bs| ==> BodyOk(m, bs, k))
    requires CanAttach(bs, rank, i, p) && bs' == bs[i := b]
    requires b.kind == bs[i].kind && b.mass == bs[i].mass && b.orbitParent == Some(p) && b.orbitAttractor == Some(p)
    requires b.orbit.Some? && Built(m, b.orbit.value)
    ensures Ranked(bs', Rerank(bs, rank, i, p)) && forall k :: 0 <= k < |bs'| ==> BodyOk(m, bs', k)
  {
    assert BodyOk(m, bs, i);
    assert BodyOk(m, bs', i);
    ReplaceBody(m, bs, i, b, bs');
    Reattach(bs, rank, i, p, b);
  }

  /** Re-attaching body i with its new coordinates taken relative to p moves no body's global position. */
  lemma AttachKeepsGlobals(bs: seq<Body>, rank: seq<nat>, i: nat, p: nat, b: Body, bs': seq<Body>)
    requires Ranked(bs, rank) && i < |bs| && p < |bs| && !Descends(bs, rank, p, i) && bs' == bs[i := b]
    requires b.orbitParent == Some(p)
    requires b.coords == Global(bs, rank, i, Position).Subtract(Global(bs, rank, p, Position))
    ensures Ranked(bs', Rerank(bs, rank, i, p))
    ensures forall k :: 0 <= k < |bs| ==> Global(bs', Rerank(bs, rank, i, p), k, Position) == Global(bs, rank, k, Position)
  {
    Reattach(bs, rank, i, p, b);
    forall k | 0 <= k < |bs|
      ensures Global(bs', Rerank(bs, rank, i, p), k, Position) == Global(bs, rank, k, Position)
    {
      ReattachKeepsGlobals(bs, rank, i, p, b, k);
    }
  }

  /** Appending a body changes no global value of the bodies already there. */
  lemma {:induction false} AppendKeepsGlobals(bs: seq<Body>, rank: seq<nat>, b: Body, r: nat, k: nat, q: Quantity)
    requires Ranked(bs, rank) && Ranked(bs + [b], rank + [r]) && k < |bs|
    ensures Global(bs + [b], rank + [r], k, q) == Global(bs, rank, k, q)
    decreases rank[k]
  {
    assert (bs + [b])[k] == bs[k];
    if bs[k].orbitParent.Some? {
      AppendKeepsGlobals(bs, rank, b, r, bs[k].orbitParent.value, q);
    }
  }

  /**
   * Parents are never orbiters, so an arena that agrees with a well-formed
   * one on body k and on every non-orbiter gives k the same global value,
   * whatever the ranks.
   */
  lemma {:induction false} GlobalsAgree(m: MathFns, bs: seq<Body>, rank: seq<nat>, bs': seq<Body>, rank': seq<nat>, k: nat, q: Quantity)
    requires Arena(m, bs, rank) && Ranked(bs', rank') && |bs'| == |bs| && k < |bs| && bs'[k] == bs[k]
    requires forall l :: 0 <= l < |bs| && bs[l].kind != Orbiter ==> bs'[l] == bs[l]
    ensures Global(bs', rank', k, q) == Global(bs, rank, k, q)
    decreases rank[k]
  {
    assert BodyOk(m, bs, k);
    if bs[k].orbitParent.Some? {
      GlobalsAgree(m, bs, rank, bs', rank', bs[k].orbitParent.value, q);
    }
  }

  /**
   * Appending an orbit-less body of non-negative mass whose parent, if any,
   * is an existing massive non-orbiter ranked just below it keeps the arena
   * valid, and the new body is nobody's parent.
   */
  lemma AppendBody(m: MathFns, bs: seq<Body>, rank: seq<nat>, b: Body, r: nat)
    requires Ranked(bs, rank) && forall k :: 0 <= k < |bs| ==> BodyOk(m, bs, k)
    requires 0.0 <= b.mass && b.orbit.None? && b.orbitAttractor.None?
    requires b.orbitParent.Some? ==>
               var p := b.orbitParent.value;
               p < |bs| && bs[p].kind != Orbiter && 0.0 < bs[p].mass && r == rank[p] + 1
    ensures Ranked(bs + [b], rank + [r]) && forall k :: 0 <= k < |bs| + 1 ==> BodyOk(m, bs + [b], k)
    ensures forall l :: 0 <= l < |bs| + 1 ==> (bs + [b])[l].orbitParent != Some(|bs|)
  {
    var bs' := bs + [b];
    forall k | 0 <= k < |bs'|
      ensures BodyOk(m, bs', k)
    {
      if k < |bs| {
        assert BodyOk(m, bs, k);
      }
    }
  }

  /** The arena invariant: ranked parents and every body well formed. */
  ghost predicate Arena(m: MathFns, bs: seq<Body>, rank: seq<nat>) {
    Ranked(bs, rank) && forall k :: 0 <= k < |bs| ==> BodyOk(m, bs, k)
  }

  /** The orbits of the bodies of an arena. */
  ghost function OrbitsOf(bs: seq<Body>): set<Conic> {
    set k | 0 <= k < |bs| && bs[k].orbit.Some? :: bs[k].orbit.value
  }

  /** The orbits of an arena held in the heap are objects of that heap. */
  lemma OrbitsAllocated(bs: seq<Body>)
    ensures forall c :: c in OrbitsOf(bs) ==> allocated(c)
  {
  }

  class Bodies {
    const m: MathFns
    var bodies: seq<Body>
    ghost var rank: seq<nat>

    ghost predicate Valid()
      reads this
    {
      Arena(m, bodies, rank)
    }

    constructor (m: MathFns)
      ensures this.m == m && Valid() && bodies == []
    {
      this.m := m;
      bodies := [];
      rank := [];
    }

    /**
     * The CelestialBody constructor, which attractor.js and orbiter.js call
     * unchanged: the body the options describe is appended, and one with an
     * orbital parent then gets its orbit, from its state when it moves and a
     * circle through its position when it is at rest.
     */
    method NewBody(kind: Kind, o: BodyOptions) returns (i: nat)
      requires Valid() && SqrtLaws(m) && 0.0 <= o.mass.GetOr(DefaultMass)
      requires o.orbitParent.Some? ==>
                 o.orbitParent.value < |bodies| && bodies[o.orbitParent.value].kind != Orbiter &&
                 0.0 < bodies[o.orbitParent.value].mass
      modifies this
      ensures Valid() && i == old(|bodies|) && |bodies| == i + 1
      ensures forall k :: 0 <= k < i ==> bodies[k] == old(bodies[k])
      ensures o.orbitParent.None? ==> bodies[i] == FromOptions(kind, o)
      ensures o.orbitParent.Some? && FromOptions(kind, o).v != Origin ==>
                var b0, p := FromOptions(kind, o), o.orbitParent.value;
                var u := Mu(old(bodies[p].mass));
                if Determine(m, u, b0.coords, b0.v).Some?
                then OrbitFrom(m, b0, p, u, b0.coords, b0.v, Global(old(bodies), old(rank), p, Position), bodies[i])
                else bodies[i] == b0
      ensures o.orbitParent.Some? && FromOptions(kind, o).v == Origin ==>
                var b0, p, b := FromOptions(kind, o), o.orbitParent.value, bodies[i];
                && b == b0.(orbit := b.orbit, orbitAttractor := Some(p))
                && b.orbit.Some? && b.orbit.value.j == b.orbit.value.n == b0.coords.Mod(m) && b.orbit.value.angle == 0.0
                && b.orbit.value.Foci().0 == Global(old(bodies), old(rank), p, Position)
    {
      var b := FromOptions(kind, o);
      i := Append(b);
      if b.orbitParent.Some? {
        StartOrbit(i);
      }
    }

    /**
     * The constructor's orbit set-up for body i, which has an orbital parent
     * and no orbit yet: recalculateOrbit when it moves, setInitialOrbit when
     * it is at rest.
     */
    method StartOrbit(i: nat)
      requires Valid() && SqrtLaws(m) && i < |bodies| && bodies[i].orbitParent.Some? && bodies[i].orbit.None?
      requires CanAttach(bodies, rank, i, bodies[i].orbitParent.value)
      modifies this
      ensures Valid() && |bodies| == old(|bodies|)
      ensures forall k :: 0 <= k < |bodies| && k != i ==> bodies[k] == old(bodies[k])
      ensures old(bodies[i].v) != Origin ==>
                var b0, p := old(bodies[i]), old(bodies[i].orbitParent.value);
                var u := Mu(old(bodies[p].mass));
                if Determine(m, u, b0.coords, b0.v).Some?
                then OrbitFrom(m, b0, p, u, b0.coords, b0.v, Global(old(bodies), old(rank), p, Position), bodies[i])
                else bodies[i] == b0
      ensures old(bodies[i].v) == Origin ==>
                var b0, p, b := old(bodies[i]), old(bodies[i].orbitParent.value), bodies[i];
                && b == b0.(orbit := b.orbit, orbitAttractor := Some(p))
                && b.orbit.Some? && b.orbit.value.j == b.orbit.value.n == b0.coords.Mod(m) && b.orbit.value.angle == 0.0
                && b.orbit.value.Foci().0 == Global(old(bodies), old(rank), p, Position)
    {
      var b := bodies[i];
      var p := b.orbitParent.value;
      if b.v.x != 0.0 || b.v.y != 0.0 {
        assert LocalTo(bodies, rank, i, p, Position) == b.coords;
        assert LocalTo(bodies, rank, i, p, Velocity) == b.v;
        var ok := RecalculateOrbit(i, Some(p));
      } else {
        SetInitialOrbit(i, Some(p));
      }
    }

    /** Appends an orbit-less body whose parent, if any, is an existing massive non-orbiter. */
    method Append(b: Body) returns (i: nat)
      requires Valid() && 0.0 <= b.mass && b.orbit.None? && b.orbitAttractor.None?
      requires b.orbitParent.Some? ==>
                 b.orbitParent.value < |bodies| && bodies[b.orbitParent.value].kind != Orbiter &&
                 0.0 < bodies[b.orbitParent.value].mass
      modifies this
      ensures Valid() && i == old(|bodies|) && bodies == old(bodies) + [b]
      ensures b.orbitParent.Some? ==> CanAttach(bodies, rank, i, b.orbitParent.value)
      ensures forall k, q :: 0 <= k < i ==> Global(bodies, rank, k, q) == Global(old(bodies), old(rank), k, q)
    {
      i := |bodies|;
      ghost var bs, rk := bodies, rank;
      ghost var r: nat := if b.orbitParent.Some? then rank[b.orbitParent.value] + 1 else 0;
      AppendBody(m, bodies, rank, b, r);
      bodies, rank := bodies + [b], rank + [r];
      if b.orbitParent.Some? {
        LeafHasNoDescendants(bodies, rank, i, b.orbitParent.value);
      }
      forall k, q | 0 <= k < i
        ensures Global(bodies, rank, k, q) == Global(bs, rk, k, q)
      {
        AppendKeepsGlobals(bs, rk, b, r, k, q);
      }
    }

    /** getGlobalPosition and getGlobalVelocity: the loop that adds every ancestor's value. */
    method Compose(i: nat, q: Quantity) returns (acc: Vector)
      requires Valid() && i < |bodies|
      ensures acc == Global(bodies, rank, i, q)
    {
      acc := Of(bodies[i], q);
      var body := i;
      while bodies[body].orbitParent.Some?
        invariant body < |bodies|
        invariant acc.Add(Global(bodies, rank, body, q)) == Global(bodies, rank, i, q).Add(Of(bodies[body], q))
        decreases rank[body]
      {
        var parent := bodies[body].orbitParent.value;
        acc := acc.Add(Of(bodies[parent], q));
        body := parent;
      }
    }

    method GetGlobalPosition(i: nat) returns (p: Vector)
      requires Valid() && i < |bodies|
      ensures p == Global(bodies, rank, i, Position)
    {
      p := Compose(i, Position);
    }

    method GetGlobalVelocity(i: nat) returns (v: Vector)
      requires Valid() && i < |bodies|
      ensures v == Global(bodies, rank, i, Velocity)
    {
      v := Compose(i, Velocity);
    }

    /** getLocalPosition/getLocalVelocity: the global value minus that of parent, by default the orbital parent. */
    method GetLocal(i: nat, parent: Option<nat>, q: Quantity) returns (l: Vector)
      requires Valid() && i < |bodies| && (parent.Some? || bodies[i].orbitParent.Some?)
      requires ParentOf(parent, bodies[i]) < |bodies|
      ensures l == Global(bodies, rank, i, q).Subtract(Global(bodies, rank, ParentOf(parent, bodies[i]), q))
      ensures bodies[i].orbitParent == Some(ParentOf(parent, bodies[i])) ==> l == Of(bodies[i], q)
    {
      var own := Compose(i, q);
      var other := Compose(ParentOf(parent, bodies[i]), q);
      l := own.Subtract(other);
    }

    method GetLocalPosition(i: nat, parent: Option<nat>) returns (l: Vector)
      requires Valid() && i < |bodies| && (parent.Some? || bodies[i].orbitParent.Some?)
      requires ParentOf(parent, bodies[i]) < |bodies|
      ensures l == Global(bodies, rank, i, Position).Subtract(Global(bodies, rank, ParentOf(parent, bodies[i]), Position))
      ensures bodies[i].orbitParent == Some(ParentOf(parent, bodies[i])) ==> l == bodies[i].coords
    {
      l := GetLocal(i, parent, Position);
    }

    method GetLocalVelocity(i: nat, parent: Option<nat>) returns (l: Vector)
      requires Valid() && i < |bodies| && (parent.Some? || bodies[i].orbitParent.Some?)
      requires ParentOf(parent, bodies[i]) < |bodies|
      ensures l == Global(bodies, rank, i, Velocity).Subtract(Global(bodies, rank, ParentOf(parent, bodies[i]), Velocity))
      ensures bodies[i].orbitParent == Some(ParentOf(parent, bodies[i])) ==> l == bodies[i].v
    {
      l := GetLocal(i, parent, Velocity);
    }

    /**
     * setInitialOrbit: a circle of radius |coords| around the parent (by
     * default the orbital parent), placed so that its focus is on the
     * parent's global position. The position itself is not re-expressed.
     */
    method SetInitialOrbit(i: nat, parent: Option<nat>)
      requires Valid() && i < |bodies| && (parent.Some? || bodies[i].orbitParent.Some?)
      requires CanAttach(bodies, rank, i, ParentOf(parent, bodies[i]))
      modifies this
      ensures Valid() && |bodies| == old(|bodies|)
      ensures forall k :: 0 <= k < |bodies| && k != i ==> bodies[k] == old(bodies[k])
      ensures var p := ParentOf(parent, old(bodies[i]));
              var b := bodies[i];
              && b == old(bodies[i]).(orbitParent := Some(p), orbit := b.orbit, orbitAttractor := Some(p))
              && b.orbit.Some? && fresh(b.orbit.value)
              && b.orbit.value.j == b.orbit.value.n == old(bodies[i].coords).Mod(m) && b.orbit.value.angle == 0.0
              && b.orbit.value.Foci().0 == Global(old(bodies), old(rank), p, Position)
    {
      assert BodyOk(m, bodies, i);
      var p := ParentOf(parent, bodies[i]);
      var c := bodies[i].coords;
      var r := m.sqrt(Pow2(c.x) + Pow2(c.y));
      assert c.Dot(c) == Pow2(c.x) + Pow2(c.y);
      assert r == c.Mod(m);
      var target := GetGlobalPosition(p);
      var o := PlaceConic(m, r, r, 0.0, target);
      var b := bodies[i].(orbitParent := Some(p), orbit := Some(o), orbitAttractor := Some(p));
      AttachOrbit(m, bodies, rank, i, p, b, bodies[i := b]);
      rank := Rerank(bodies, rank, i, p);
      bodies := bodies[i := b];
    }

    /**
     * recalculateOrbit: derives the orbit around parent (by default the
     * orbital parent) from the body's position and velocity relative to it,
     * moves the body under that parent with its position re-expressed, and
     * reports whether it did. Nothing changes without a parent or where
     * Determine finds no orbit. No body's global position changes.
     */
    method RecalculateOrbit(i: nat, parent: Option<nat>) returns (ok: bool)
      requires Valid() && SqrtLaws(m) && i < |bodies|
      requires parent.Some? || bodies[i].orbitParent.Some? ==> CanAttach(bodies, rank, i, ParentOf(parent, bodies[i]))
      modifies this
      ensures Valid() && |bodies| == old(|bodies|)
      ensures parent.None? && old(bodies[i].orbitParent).None? ==> !ok
      ensures !ok ==> bodies == old(bodies)
      ensures forall k :: 0 <= k < |bodies| && k != i ==> bodies[k] == old(bodies[k])
      ensures forall k :: 0 <= k < |bodies| ==> Global(bodies, rank, k, Position) == Global(old(bodies), old(rank), k, Position)
      ensures parent.Some? || old(bodies[i].orbitParent).Some? ==>
                (ok <==> DeterminableAround(m, old(bodies), old(rank), i, ParentOf(parent, old(bodies[i]))))
      ensures ok ==> RecalculatedAs(m, old(bodies), old(rank), i, ParentOf(parent, old(bodies[i])), bodies[i])
      ensures ok ==> && bodies[i].orbitAttractor == Some(ParentOf(parent, old(bodies[i])))
                     && bodies[i].orbit.Some? && bodies[i].kind == old(bodies[i].kind)
      ensures ok ==> fresh(bodies[i].orbit.value)
      ensures unchanged(OrbitsOf(old(bodies)))
    {
      OrbitsAllocated(bodies);
      if parent.None? && bodies[i].orbitParent.None? {
        return false;
      }
      assert BodyOk(m, bodies, i);
      var p := ParentOf(parent, bodies[i]);
      var coords := GetLocalPosition(i, Some(p));
      var velocity := GetLocalVelocity(i, Some(p));
      if Determine(m, Mu(bodies[p].mass), coords, velocity).None? {
        return false;
      }
      Repatch(i, p, coords, velocity);
      ok := true;
    }

    /** The successful half of recalculateOrbit: body i moved under p with an orbit from its local state. */
    method Repatch(i: nat, p: nat, coords: Vector, velocity: Vector)
      requires Valid() && SqrtLaws(m) && CanAttach(bodies, rank, i, p)
      requires coords == LocalTo(bodies, rank, i, p, Position) && velocity == LocalTo(bodies, rank, i, p, Velocity)
      requires Determine(m, Mu(bodies[p].mass), coords, velocity).Some?
      modifies this
      ensures Valid() && |bodies| == old(|bodies|)
      ensures forall k :: 0 <= k < |bodies| && k != i ==> bodies[k] == old(bodies[k])
      ensures forall k :: 0 <= k < |bodies| ==> Global(bodies, rank, k, Position) == Global(old(bodies), old(rank), k, Position)
      ensures RecalculatedAs(m, old(bodies), old(rank), i, p, bodies[i]) && fresh(bodies[i].orbit.value)
      ensures unchanged(OrbitsOf(old(bodies)))
    {
      OrbitsAllocated(bodies);
      assert BodyOk(m, bodies, i);
      var target := GetGlobalPosition(p);
      var b := OrbitFromState(m, bodies[i], p, Mu(bodies[p].mass), coords, velocity, target);
      AttachOrbit(m, bodies, rank, i, p, b, bodies[i := b]);
      AttachKeepsGlobals(bodies, rank, i, p, b, bodies[i := b]);
      rank := Rerank(bodies, rank, i, p);
      bodies := bodies[i := b];
    }

    /** update on body i: see Advance. */
    method Update(i: nat, dt: real)
      requires Valid() && Propagates(m) && i < |bodies|
      modifies this
      ensures Valid() && rank == old(rank)
      ensures old(bodies[i].orbit).Some? ==> Built(m, old(bodies[i].orbit.value))
      ensures bodies == old(bodies)[i := Advance(m, old(bodies[i]), ParentMass(old(bodies), i), dt)]
    {
      assert BodyOk(m, bodies, i);
      var b := bodies[i];
      if b.orbit.None? {
        return;
      }
      ghost var target := Advance(m, b, ParentMass(bodies, i), dt);
      var o := b.orbit.value;
      var time := if b.t.Some? then b.t.value else 0.0;
      time := time + dt;
      b := b.(t := Some(time));
      if Proper(o) {
        var parentMass := bodies[b.orbitParent.value].mass;
        var E := EccentricAnomaly(o, parentMass, b.orbitAnticlockwise, time);
        RadiusNonZero(m, o, E);
        var point := o.PointAt(E);
        var v := OrbitalVelocity(o, parentMass, point, E);
        ghost var next := Move(m, o, parentMass, b.orbitAnticlockwise, time);
        assert parentMass == ParentMass(bodies, i);
        assert point == next.0 && v == next.1;
        b := b.(coords := point, v := v);
      }
      assert b == target;
      assert BodyOk(m, bodies[i := b], i);
      ReplaceBody(m, bodies, i, b, bodies[i := b]);
      bodies := bodies[i := b];
    }

    /** eccentricAnomaly: the mean anomaly after time, then IterM Kepler steps. */
    method EccentricAnomaly(o: Conic, parentMass: real, anticlockwise: bool, time: real) returns (E: real)
      requires SqrtLaws(m) && CoshLaws(m) && Built(m, o) && Proper(o)
      ensures E == AnomalyAt(m, o, parentMass, anticlockwise, time)
    {
      ProperEccentricity(m, o);
      var M := MeanAt(m, o, parentMass, anticlockwise, time);
      E := Orbits.SolveKepler(m, M, o.Eccentricity(), IterM);
    }

    /** orbitalVelocity at the body's new position. */
    method OrbitalVelocity(o: Conic, parentMass: real, point: Vector, E: real) returns (v: Vector)
      requires SqrtLaws(m) && Pythagoras(m) && PiLaws(m) && o.Valid() && o.m == m && point != Origin
      ensures v == VelocityAt(m, o, parentMass, point.Mod(m), E)
      ensures v.Cross(o.TangentAt(E)) == 0.0 && v.Dot(o.TangentAt(E)) == Speed(m, parentMass, point.Mod(m), o.j)
    {
      v := VelocityAt(m, o, parentMass, point.Mod(m), E);
    }
  }

  /** A new conic at the origin, then moved so that its main focus is on focus. */
  method PlaceConic(m: MathFns, j: real, n: real, angle: real, focus: Vector) returns (o: Conic)
    ensures fresh(o) && o.m == m && (o.j, o.n, o.angle) == Upright(m, j, n, angle)
    ensures Built(m, o) && o.Foci().0 == focus
  {
    o := new Conic(m, 0.0, 0.0, j, n, angle);
    o.TranslateFocusTo(focus);
  }

  /**
   * The body b0 becomes when it is given the orbit around p determined from
   * its local state (coords, velocity) under gravitational parameter u: the
   * local state, p as parent and attractor, the direction and epoch of the
   * elements, and a conic of their axes and angle with its main focus on focus.
   */
  ghost predicate OrbitFrom(m: MathFns, b0: Body, p: nat, u: real, coords: Vector, velocity: Vector, focus: Vector, b: Body)
    requires SqrtLaws(m) && 0.0 < u
    reads if b.orbit.Some? then {b.orbit.value} else {}
  {
    ShapedFrom(m, b0, p, u, coords, velocity, b) && b.orbit.value.Foci().0 == focus
  }

  /** OrbitFrom apart from where the conic lies, which is the one part that reads it. */
  ghost predicate ShapedFrom(m: MathFns, b0: Body, p: nat, u: real, coords: Vector, velocity: Vector, b: Body)
    requires SqrtLaws(m) && 0.0 < u
  {
    var el := Determine(m, u, coords, velocity);
    && el.Some?
    && b == b0.(coords := coords, orbitParent := Some(p), orbit := b.orbit, orbitAttractor := Some(p),
                orbitAnticlockwise := el.value.anticlockwise, t := Some(el.value.t))
    && b.orbit.Some?
    && (b.orbit.value.j, b.orbit.value.n, b.orbit.value.angle) == (el.value.shape.a, el.value.shape.b, el.value.shape.w)
  }

  /** The conic-building half of recalculateOrbit, on one body and its local state. */
  method OrbitFromState(m: MathFns, b0: Body, p: nat, u: real, coords: Vector, velocity: Vector, focus: Vector)
    returns (b: Body)
    requires SqrtLaws(m) && 0.0 < u && Determine(m, u, coords, velocity).Some?
    ensures OrbitFrom(m, b0, p, u, coords, velocity, focus, b)
    ensures b.orbit.Some? && fresh(b.orbit.value) && Built(m, b.orbit.value)
  {
    var el := Determine(m, u, coords, velocity).value;
    var s := el.shape;
    DeterminedAxes(m, u, coords, velocity);
    var o := PlaceConic(m, s.a, s.b, s.w, focus);
    b := b0.(coords := coords, orbitParent := Some(p), orbit := Some(o), orbitAttractor := Some(p),
             orbitAnticlockwise := el.anticlockwise, t := Some(el.t));
  }

  /** Body i's position or velocity relative to body p. */
  ghost function LocalTo(bs: seq<Body>, rank: seq<nat>, i: nat, p: nat, q: Quantity): Vector
    requires Ranked(bs, rank) && i < |bs| && p < |bs|
  {
    Global(bs, rank, i, q).Subtract(Global(bs, rank, p, q))
  }

  /** Whether an orbit of body i around p can be determined from their relative state. */
  ghost predicate DeterminableAround(m: MathFns, bs: seq<Body>, rank: seq<nat>, i: nat, p: nat)
    requires Ranked(bs, rank) && i < |bs| && p < |bs| && SqrtLaws(m) && 0.0 < bs[p].mass
  {
    Determine(m, Mu(bs[p].mass), LocalTo(bs, rank, i, p, Position), LocalTo(bs, rank, i, p, Velocity)).Some?
  }

  /** The body recalculateOrbit leaves behind when it succeeds. */
  ghost predicate RecalculatedAs(m: MathFns, bs: seq<Body>, rank: seq<nat>, i: nat, p: nat, b: Body)
    requires Ranked(bs, rank) && i < |bs| && p < |bs| && SqrtLaws(m) && 0.0 < bs[p].mass
    reads if b.orbit.Some? then {b.orbit.value} else {}
  {
    OrbitFrom(m, bs[i], p, Mu(bs[p].mass), LocalTo(bs, rank, i, p, Position), LocalTo(bs, rank, i, p, Velocity),
              Global(bs, rank, p, Position), b)
  }

  /** RecalculatedAs apart from where the new orbit lies. */
  ghost predicate ShapedAs(m: MathFns, bs: seq<Body>, rank: seq<nat>, i: nat, p: nat, b: Body)
    requires Ranked(bs, rank) && i < |bs| && p < |bs| && SqrtLaws(m) && 0.0 < bs[p].mass
  {
    ShapedFrom(m, bs[i], p, Mu(bs[p].mass), LocalTo(bs, rank, i, p, Position), LocalTo(bs, rank, i, p, Velocity), b)
  }
}
