/**
 * The first generation of bodies (app/celestialBody/celestialBody.js and
 * app/celestialBody/orbit.js). A body with an orbital parent owns an Orbit,
 * and the Orbit owns an ellipse (app/conics/ellipse.js) whose main focus sits
 * on the parent. As in the later generation, the bodies are records in an
 * arena: an orbit names its parent by index, and a ghost rank that decreases
 * from child to parent makes the walk up the chain terminate.
 */
module EarlyBodies {
  import opened JsMath
  import opened Vectors
  import opened Options
  import opened ConicsEllipse
  import Orbits

  /** config.G and config.iterM of celestialBody.js. */
  const G := 100000.0
  const IterM := 100

  datatype Colour = Colour(r: real, g: real, b: real)

  /** Constructor options; a field is present when `options` has it as an own property. */
  datatype BodyOptions = BodyOptions(
    name: Option<string>,
    x: Option<real>, y: Option<real>,
    r: Option<real>, g: Option<real>, b: Option<real>,
    size: Option<real>,
    mass: Option<real>,
    orbitParent: Option<nat>,
    orbitSpeed: Option<real>,
    anticlockwise: Option<bool>)

  /** The options a body hands to its Orbit. Only `anticlockwise` has a default there, so `speed` is never read. */
  datatype OrbitOptions = OrbitOptions(speed: Option<real>, anticlockwise: Option<bool>)

  /**
   * A body: position `coords` relative to its orbital parent, its orbit, and
   * the periapsis time `tP` and current time `t`, both absent until the first
   * update.
   */
  datatype Body = Body(
    name: string,
    coords: Vector,
    colour: Colour,
    size: real,
    mass: real,
    orbitParent: Option<nat>,
    orbitSpeed: real,
    anticlockwise: bool,
    orbit: Option<Orbit>,
    tP: Option<real>,
    t: Option<real>)

  /** The body the constructor's option loop produces: each option when given, its default otherwise. */
  function FromOptions(m: MathFns, o: BodyOptions): (b: Body)
    ensures b.coords == Vector(o.x.GetOr(100.0), o.y.GetOr(0.0))
    ensures b.mass == o.mass.GetOr(50.0) && b.size == o.size.GetOr(50.0)
    ensures b.orbitParent == o.orbitParent
    ensures b.orbitSpeed == o.orbitSpeed.GetOr(m.pi / 3.0) && b.anticlockwise == o.anticlockwise.GetOr(false)
    ensures b.orbit.None? && b.tP.None? && b.t.None?
  {
    Body(o.name.GetOr("New celestial body"),
         Vector(o.x.GetOr(100.0), o.y.GetOr(0.0)),
         Colour(o.r.GetOr(100.0), o.g.GetOr(100.0), o.b.GetOr(100.0)),
         o.size.GetOr(50.0),
         o.mass.GetOr(50.0),
         o.orbitParent,
         o.orbitSpeed.GetOr(m.pi / 3.0),
         o.anticlockwise.GetOr(false),
         None, None, None)
  }

  /** The ellipse's semi-axes for radius r, before the constructor puts the larger first. */
  function MajorGuess(r: real, random: real): real {
    r * (random * 0.2 + 0.9)
  }

  /**
   * With `random` in [0, 1) the first axis r(0.2 random + 0.9) lies in
   * [0.9r, 1.1r), so once the larger is first, j is in [r, 1.1r) and n in
   * [0.9r, r].
   */
  lemma AxesWithin(m: MathFns, r: real, random: real)
    requires 0.0 < r && 0.0 <= random < 1.0
    ensures var s := Sorted(m, MajorGuess(r, random), r, 0.0);
            r <= s.0 < 1.1 * r && 0.9 * r <= s.1 <= r
  {
    ScaledWithin(r, random * 0.2 + 0.9);
  }

  lemma ScaledWithin(r: real, k: real)
    requires 0.0 < r && 0.9 <= k < 1.1
    ensures 0.9 * r <= r * k < 1.1 * r
  {
    ProductKeepsOrder(r, 0.9, k);
    ProductKeepsOrder(r, k, 1.1);
  }

  class Orbit {
    const anticlockwise: bool
    const child: nat
    const parent: nat
    const r: real
    const speed: real
    const ellipse: Ellipse

    /**
     * The orbit as the constructor leaves it for a child at childCoords
     * around a parent at parentGlobal: radius and speed, the ellipse on the
     * parent with axes between 0.9 r and 1.1 r, and the ellipse's angle.
     */
    ghost predicate Built(m: MathFns, childCoords: Vector, parentGlobal: Vector, random1: real, random2: real)
      reads this, ellipse
    {
      && r == childCoords.Mod(m) && 0.0 < r && speed * r == 100.0
      && ellipse.m == m && ellipse.Valid() && ellipse.coords == parentGlobal
      && (ellipse.j, ellipse.n) == (Sorted(m, MajorGuess(r, random1), r, 0.0).0, Sorted(m, MajorGuess(r, random1), r, 0.0).1)
      && r <= ellipse.j < 1.1 * r && 0.9 * r <= ellipse.n <= r
      && ellipse.angle == random2 * m.pi * 2.0
    }

    /**
     * An orbit of body `child` at `childCoords` around `parent`, whose global
     * position is `parentGlobal`. The radius is the child's distance from
     * its parent and the speed 100/r. The ellipse is centred on the parent,
     * with one axis r and the other r(0.2 random1 + 0.9). Its angle is then
     * overwritten with 2π random2. `random1` and `random2` stand for the two
     * calls of Math.random.
     */
    constructor (m: MathFns, child: nat, childCoords: Vector, parent: nat, parentGlobal: Vector,
                 options: OrbitOptions, random1: real, random2: real)
      requires SqrtLaws(m) && childCoords != Origin && 0.0 <= random1 < 1.0
      ensures this.child == child && this.parent == parent
      ensures anticlockwise == options.anticlockwise.GetOr(false)
      ensures fresh(ellipse) && Built(m, childCoords, parentGlobal, random1, random2)
    {
      this.anticlockwise := options.anticlockwise.GetOr(false);
      this.child := child;
      this.parent := parent;
      var radius := childCoords.Mod(m);
      this.r := radius;
      this.speed := 100.0 / radius;
      var e := new Ellipse(m, parentGlobal.x, parentGlobal.y, MajorGuess(radius, random1), radius, 0.0);
      e.angle := random2 * m.pi * 2.0;
      this.ellipse := e;
      AxesWithin(m, radius, random1);
    }

    /** draw, without the canvas: the ellipse's main focus moves onto the parent's global position and the ellipse keeps its shape. */
    method Draw(parentGlobal: Vector)
      modifies ellipse`coords
      ensures ellipse.Foci().0 == parentGlobal
      ensures ellipse.Foci().0.Subtract(ellipse.Foci().1) == old(ellipse.Foci().0.Subtract(ellipse.Foci().1))
    {
      ellipse.TranslateFocusTo(parentGlobal);
    }
  }

  // ---------------------------------------------------------------------
  // The parent chain.

  /** Every orbit's parent is in range and ranked strictly below its child. */
  ghost predicate Ranked(bs: seq<Body>, rank: seq<nat>) {
    && |rank| == |bs|
    && forall k :: 0 <= k < |bs| && bs[k].orbit.Some? ==>
         bs[k].orbit.value.parent < |bs| && rank[bs[k].orbit.value.parent] < rank[k]
  }

  /** The global position of body i: its own coordinates plus its orbital parent's global position. */
  ghost function Global(bs: seq<Body>, rank: seq<nat>, i: nat): Vector
    requires Ranked(bs, rank) && i < |bs|
    decreases rank[i]
  {
    var b := bs[i];
    if b.orbit.None? then b.coords else b.coords.Add(Global(bs, rank, b.orbit.value.parent))
  }

  /** The parent, grandparent, ... of body i along the orbits, ending with a body without orbit. */
  ghost function Ancestors(bs: seq<Body>, rank: seq<nat>, i: nat): (a: seq<nat>)
    requires Ranked(bs, rank) && i < |bs|
    ensures forall k :: 0 <= k < |a| ==> a[k] < |bs| && rank[a[k]] < rank[i]
    decreases rank[i]
  {
    var b := bs[i];
    if b.orbit.None? then [] else [b.orbit.value.parent] + Ancestors(bs, rank, b.orbit.value.parent)
  }

  /** The sum of the coordinates of a list of bodies. */
  ghost function SumOf(bs: seq<Body>, chain: seq<nat>): Vector
    requires forall k :: 0 <= k < |chain| ==> chain[k] < |bs|
  {
    if chain == [] then Origin else bs[chain[0]].coords.Add(SumOf(bs, chain[1..]))
  }

  /** The global position is the body's own coordinates plus those of every ancestor, and no body is its own ancestor. */
  lemma {:induction false} GlobalIsChainSum(bs: seq<Body>, rank: seq<nat>, i: nat)
    requires Ranked(bs, rank) && i < |bs|
    ensures i !in Ancestors(bs, rank, i)
    ensures Global(bs, rank, i) == SumOf(bs, [i] + Ancestors(bs, rank, i))
    decreases rank[i]
  {
    var b := bs[i];
    var chain := [i] + Ancestors(bs, rank, i);
    assert chain[1..] == Ancestors(bs, rank, i);
    if b.orbit.Some? {
      var p := b.orbit.value.parent;
      GlobalIsChainSum(bs, rank, p);
      assert Ancestors(bs, rank, i) == [p] + Ancestors(bs, rank, p);
    }
  }

  /** Appending a body changes no global position of the bodies already there. */
  lemma {:induction false} AppendKeepsGlobals(bs: seq<Body>, rank: seq<nat>, b: Body, r: nat, k: nat)
    requires Ranked(bs, rank) && Ranked(bs + [b], rank + [r]) && k < |bs|
    ensures Global(bs + [b], rank + [r], k) == Global(bs, rank, k)
    decreases rank[k]
  {
    assert (bs + [b])[k] == bs[k];
    if bs[k].orbit.Some? {
      AppendKeepsGlobals(bs, rank, b, r, bs[k].orbit.value.parent);
    }
  }

  // ---------------------------------------------------------------------
  // update: time bookkeeping, mean and eccentric anomaly, new position.

  /** What update needs of an orbiting body: a well-formed ellipse, positive total mass, and both times or neither. */
  ghost predicate Movable(m: MathFns, b: Body, parentMass: real) {
    && b.orbit.Some?
    && var el := b.orbit.value.ellipse;
    && el.m == m && el.Valid() && 0.0 < el.n
    && 0.0 < parentMass + b.mass
    && (b.tP.Some? <==> b.t.Some?)
  }

  /**
   * The mean motion 2π/P, where P = sqrt(4π²/(G(M + m)) j³) is the period
   * by Kepler's third law: n² j³ = G(M + m).
   */
  function MeanMotion(m: MathFns, mu: real, j: real): (n: real)
    requires SqrtLaws(m) && PiLaws(m) && 0.0 < mu && 0.0 < j
    ensures 0.0 < n && Pow2(n) * (j * Pow2(j)) == mu
  {
    var k := 4.0 * Pow2(m.pi);
    var c := j * Pow2(j);
    PeriodArgument(k, mu, c, m.pi, j);
    var P := m.sqrt(k / mu * c);
    var n := 2.0 * m.pi / P;
    PeriodLaw(k, mu, c, P, n, 2.0 * m.pi);
    n
  }

  lemma PeriodArgument(k: real, mu: real, c: real, pi: real, j: real)
    requires k == 4.0 * Pow2(pi) && 3.0 < pi && 0.0 < mu && 0.0 < j && c == j * Pow2(j)
    ensures 0.0 < c && 0.0 < k / mu * c
  {
    Pow2Facts(j);
    PositiveProduct(j, j);
    PositiveProduct(j, Pow2(j));
    Pow2Facts(pi);
    PositiveProduct(pi, pi);
    QuotientPositive(k, mu);
    PositiveProduct(k / mu, c);
  }

  /** From P² = (k/mu) c and n P = w with w² = k: n² c = mu. */
  lemma PeriodLaw(k: real, mu: real, c: real, P: real, n: real, w: real)
    requires 0.0 < mu && 0.0 < c && 0.0 < k / mu * c && 0.0 <= P && P * P == k / mu * c
    requires 0.0 < w && w * w == k && n == w / P
    ensures 0.0 < P && 0.0 < n && Pow2(n) * c == mu
  {
    QuotientPositive(w, P);
    assert n * P == w;
    var q := k / mu;
    assert q * mu == k;
    assert (n * n) * (P * P) == w * w by {
      assert (n * P) * (n * P) == w * w;
    }
    assert (n * n) * c * q == q * mu;
    assert q != 0.0;
    CancelFactor(n * n * c, mu, q);
  }

  lemma CancelFactor(x: real, y: real, q: real)
    requires q != 0.0 && x * q == y * q
    ensures x == y
  {
    assert (x * q) / q == x;
    assert (y * q) / q == y;
  }

  /** The unit vector (cos angle, sin angle) along the major axis. */
  function Direction(m: MathFns, angle: real): Vector {
    Vector(m.cos(angle), m.sin(angle))
  }

  lemma DirectionIsUnit(m: MathFns, angle: real)
    requires SqrtLaws(m) && Pythagoras(m)
    ensures Direction(m, angle).Mod(m) == 1.0
  {
    var d := Direction(m, angle);
    assert d.Dot(d) == m.sin(angle) * m.sin(angle) + m.cos(angle) * m.cos(angle);
    SqrtOfSquare(m, 1.0);
  }

  /** The offset a (cos angle, sin angle) from an ellipse's centre to its main focus. */
  function FocalOffset(m: MathFns, a: real, angle: real): Vector {
    Vector(m.cos(angle) * a, m.sin(angle) * a)
  }

  /**
   * The point at eccentric anomaly E of the ellipse with semi-axes j, n,
   * focal distance a and major axis along `angle`, relative to its main
   * focus: the turned axis point less the focal offset.
   */
  function FromFocus(m: MathFns, j: real, n: real, a: real, angle: real, E: real): Vector {
    AxisPoint(m, j, n, E).Rotate(m, angle).Subtract(FocalOffset(m, a, angle))
  }

  /** Moving by c and then subtracting c + o is subtracting o. */
  lemma ShiftCancels(v: Vector, c: Vector, o: Vector)
    ensures v.Add(c).Subtract(c.Add(o)) == v.Subtract(o)
  {
  }

  /** update's new position, getPointAtEccentricAnomaly moved from the centre to the main focus: the point relative to that focus. */
  function FocusRelative(el: Ellipse, E: real): (r: Vector)
    reads el
    ensures r == FromFocus(el.m, el.j, el.n, el.a, el.angle, E)
  {
    var p, c := el.PointAt(E), el.coords;
    ShiftCancels(p, c, el.Offset());
    p.Add(c).Subtract(el.Foci().0)
  }

  /** At E = 0 the point relative to the main focus is the periapsis: j − a along the major axis, at distance j − a from the focus. */
  lemma Periapsis(m: MathFns, j: real, n: real, a: real, angle: real)
    requires ZeroLaws(m)
    ensures FromFocus(m, j, n, a, angle, 0.0) == Direction(m, angle).Scale(j - a, None)
    ensures SqrtLaws(m) && Pythagoras(m) && a <= j ==> FromFocus(m, j, n, a, angle, 0.0).Mod(m) == j - a
  {
    var c, s := m.cos(angle), m.sin(angle);
    assert AxisPoint(m, j, n, 0.0) == Vector(j, 0.0);
    assert Vector(j, 0.0).Rotate(m, angle) == Vector(j * c, j * s);
    assert FocalOffset(m, a, angle) == Vector(c * a, s * a);
    assert Direction(m, angle).Scale(j - a, None) == Vector((j - a) * c, (j - a) * s);
    assert j * c - c * a == (j - a) * c;
    assert j * s - s * a == (j - a) * s;
    if SqrtLaws(m) && Pythagoras(m) && a <= j {
      AlongAxis(m, angle, j - a);
    }
  }

  /** k along the unit direction of the major axis is at distance |k| from the origin. */
  lemma AlongAxis(m: MathFns, angle: real, k: real)
    requires SqrtLaws(m) && Pythagoras(m)
    ensures Direction(m, angle).Scale(k, None).Mod(m) == if k < 0.0 then -k else k
  {
    DirectionIsUnit(m, angle);
    ScaleUnit(m, Direction(m, angle), k);
  }

  /**
   * The eccentric anomaly of the body at time t with periapsis time tP: the
   * mean motion, the mean anomaly n(t − tP), negated anticlockwise, and IterM
   * steps E ← M + e sin E from E = M with e the ellipse's eccentricity. At the
   * periapsis time it is 0.
   */
  function AnomalyAt(m: MathFns, el: Ellipse, mu: real, anticlockwise: bool, t: real, tP: real): (E: real)
    requires SqrtLaws(m) && PiLaws(m) && el.m == m && el.Valid() && 0.0 < el.n && 0.0 < mu
    ensures ZeroLaws(m) && t == tP ==> E == 0.0
  {
    EllipseEccentricity(m, el.j, el.n, el.a);
    var n := MeanMotion(m, mu, el.j);
    var M := Orbits.MeanAnomaly(n, t, tP, el.j, anticlockwise);
    Orbits.EpochAnomaly(m, n, t, tP, el.j, anticlockwise, el.Eccentricity(), IterM);
    Orbits.KeplerIterate(m, M, el.Eccentricity(), M, IterM)
  }

  /** For a positive major axis the sign table of the later orbit reduces to update's: M = n(t − tP), negated anticlockwise. */
  lemma MeanAnomalySign(n: real, t: real, tP: real, j: real, anticlockwise: bool)
    requires 0.0 < j
    ensures Orbits.MeanAnomaly(n, t, tP, j, anticlockwise) == if anticlockwise then -(n * (t - tP)) else n * (t - tP)
  {
  }

  /**
   * update: nothing without an orbit; otherwise the first call sets tP = t = 0,
   * t grows by dt, and the body moves to the ellipse point of the eccentric
   * anomaly at t, relative to the main focus. Only the times and the
   * position change: tP stays (0 the first time), and t grows by dt from its
   * previous value (0 the first time).
   */
  function Advance(m: MathFns, b: Body, parentMass: real, dt: real): (r: Body)
    requires SqrtLaws(m) && PiLaws(m)
    requires b.orbit.Some? ==> Movable(m, b, parentMass)
    reads if b.orbit.Some? then {b.orbit.value.ellipse} else {}
    ensures b.orbit.None? ==> r == b
    ensures b.orbit.Some? ==>
              && r == b.(coords := r.coords, tP := r.tP, t := r.t)
              && r.tP == Some(b.tP.GetOr(0.0))
              && r.t == Some(b.t.GetOr(0.0) + dt)
  {
    if b.orbit.None? then b
    else
      var o := b.orbit.value;
      var tP := if b.tP.None? then 0.0 else b.tP.value;
      var t := (if b.tP.None? then 0.0 else b.t.value) + dt;
      var E := AnomalyAt(m, o.ellipse, G * (parentMass + b.mass), o.anticlockwise, t, tP);
      b.(tP := Some(tP), t := Some(t), coords := FocusRelative(o.ellipse, E))
  }

  /** Advance in terms of the times, the eccentric anomaly and the new position update computes. */
  lemma AdvanceBy(m: MathFns, b: Body, parentMass: real, dt: real, tP: real, t: real, E: real, coords: Vector)
    requires SqrtLaws(m) && PiLaws(m) && Movable(m, b, parentMass)
    requires tP == b.tP.GetOr(0.0) && t == b.t.GetOr(0.0) + dt
    requires var o := b.orbit.value;
             E == AnomalyAt(m, o.ellipse, G * (parentMass + b.mass), o.anticlockwise, t, tP)
    requires coords == FocusRelative(b.orbit.value.ellipse, E)
    ensures Advance(m, b, parentMass, dt) == b.(tP := Some(tP), t := Some(t), coords := coords)
  {
  }

  /** An update that reaches the periapsis time, such as a first update with dt = 0, puts the body at periapsis. */
  lemma AdvanceAtEpoch(m: MathFns, b: Body, parentMass: real, dt: real)
    requires SqrtLaws(m) && PiLaws(m) && ZeroLaws(m) && Movable(m, b, parentMass)
    requires b.t.GetOr(0.0) + dt == b.tP.GetOr(0.0)
    ensures var el := b.orbit.value.ellipse;
            Advance(m, b, parentMass, dt).coords == Direction(m, el.angle).Scale(el.j - el.a, None)
  {
    var el := b.orbit.value.ellipse;
    Periapsis(m, el.j, el.n, el.a, el.angle);
  }

  // ---------------------------------------------------------------------
  // update as written.

  /** FromFocus with the axis point turned by the angle twice. */
  function TurnedTwice(m: MathFns, j: real, n: real, a: real, angle: real, E: real): Vector {
    AxisPoint(m, j, n, E).Rotate(m, angle).Rotate(m, angle).Subtract(FocalOffset(m, a, angle))
  }

  /**
   * The new position as update computes it: getPointAtEccentricAnomaly
   * already turns the point by the ellipse's angle, and update turns it by
   * the angle a second time before moving it to the focus.
   */
  function PositionAsWritten(el: Ellipse, E: real): (r: Vector)
    reads el
    ensures r == TurnedTwice(el.m, el.j, el.n, el.a, el.angle, E)
  {
    var p, c := el.PointAt(E).Rotate(el.m, el.angle), el.coords;
    ShiftCancels(p, c, el.Offset());
    p.Add(c).Subtract(el.Foci().0)
  }

  /**
   * With angle π/2 (cos 0, sin 1), j = 2, n = 1 and E = 0, the position as
   * written is (−2, −a), not the periapsis (0, 2 − a).
   */
  lemma DoubleTurnMissesPeriapsis(m: MathFns, j: real, n: real, a: real, angle: real)
    requires ZeroLaws(m) && j == 2.0 && n == 1.0 && m.cos(angle) == 0.0 && m.sin(angle) == 1.0
    ensures TurnedTwice(m, j, n, a, angle, 0.0) == Vector(-2.0, -a)
    ensures FromFocus(m, j, n, a, angle, 0.0) == Vector(0.0, 2.0 - a)
    ensures TurnedTwice(m, j, n, a, angle, 0.0) != FromFocus(m, j, n, a, angle, 0.0)
  {
  }

  /**
   * The Kepler loop of update as written, with JavaScript's undefined and NaN
   * as None: `e` is read from the ellipse field `e`, which the ellipse does
   * not have, and any arithmetic with undefined or NaN gives NaN.
   */
  function KeplerAsWritten(m: MathFns, M: real, e: Option<real>, k: nat): Option<real> {
    if k == 0 then Some(M)
    else
      var E := KeplerAsWritten(m, M, e, k - 1);
      if e.None? || E.None? then None else Some(M + e.value * m.sin(E.value))
  }

  /** With `e` undefined, the eccentric anomaly is NaN after the first iteration, whatever the mean anomaly. */
  lemma UndefinedEccentricity(m: MathFns, M: real, k: nat)
    requires 1 <= k
    ensures KeplerAsWritten(m, M, None, k) == None
  {
  }

  /** With the eccentricity the ellipse does have, the loop is the elliptic Kepler iteration, which is 0 at M = 0. */
  lemma {:induction false} KeplerFromEccentricity(m: MathFns, M: real, e: real, k: nat)
    requires e < 1.0
    ensures KeplerAsWritten(m, M, Some(e), k) == Some(Orbits.KeplerIterate(m, M, e, M, k))
    ensures ZeroLaws(m) && M == 0.0 ==> KeplerAsWritten(m, M, Some(e), k) == Some(0.0)
  {
    if k > 0 {
      KeplerFromEccentricity(m, M, e, k - 1);
      var E := Orbits.KeplerIterate(m, M, e, M, k - 1);
      assert Orbits.KeplerIterate(m, M, e, M, k) == Orbits.EllipticStep(m, M, e, E) == M + e * m.sin(E);
      var r := KeplerAsWritten(m, M, Some(e), k);
      assert r.Some? && r.value == M + e * m.sin(E);
      assert r == Some(r.value);
    }
    if ZeroLaws(m) && M == 0.0 {
      Orbits.KeplerFixedPoint(m, e, k);
    }
  }

  // ---------------------------------------------------------------------
  // The arena.

  /** Body k is well formed: an orbit exactly when it has an orbital parent, owned by k, around a sound ellipse. */
  ghost predicate BodyOk(m: MathFns, bs: seq<Body>, k: nat)
    requires k < |bs|
  {
    var b := bs[k];
    && (b.orbit.Some? <==> b.orbitParent.Some?)
    && (b.tP.Some? <==> b.t.Some?)
    && (b.orbit.Some? ==>
          var o := b.orbit.value;
          && b.orbitParent == Some(o.parent) && o.child == k
          && o.ellipse.m == m && o.ellipse.Valid() && 0.0 < o.ellipse.n)
  }

  ghost predicate Arena(m: MathFns, bs: seq<Body>, rank: seq<nat>) {
    Ranked(bs, rank) && forall k :: 0 <= k < |bs| ==> BodyOk(m, bs, k)
  }

  /** The mass of body i's orbital parent, or 0 without one. */
  function ParentMass(bs: seq<Body>, i: nat): real
    requires i < |bs| && (bs[i].orbit.Some? ==> bs[i].orbit.value.parent < |bs|)
  {
    if bs[i].orbit.Some? then bs[bs[i].orbit.value.parent].mass else 0.0
  }

  /** Replacing body i by one with the same orbit and both times keeps the arena. */
  lemma ReplaceTimes(m: MathFns, bs: seq<Body>, rank: seq<nat>, i: nat, b: Body)
    requires Arena(m, bs, rank) && i < |bs|
    requires b.orbit == bs[i].orbit && b.orbitParent == bs[i].orbitParent && b.tP.Some? && b.t.Some?
    ensures Arena(m, bs[i := b], rank)
  {
    var bs' := bs[i := b];
    forall k | 0 <= k < |bs'|
      ensures BodyOk(m, bs', k)
    {
      assert BodyOk(m, bs, k);
    }
  }

  /** Appending a body with a fresh orbit around an existing parent, or with no orbit at all, keeps the arena. */
  lemma AppendBody(m: MathFns, bs: seq<Body>, rank: seq<nat>, b: Body, r: nat)
    requires Arena(m, bs, rank) && (b.orbit.Some? <==> b.orbitParent.Some?) && b.tP.None? && b.t.None?
    requires b.orbit.Some? ==>
               var o := b.orbit.value;
               && b.orbitParent == Some(o.parent) && o.child == |bs| && o.parent < |bs| && r == rank[o.parent] + 1
               && o.ellipse.m == m && o.ellipse.Valid() && 0.0 < o.ellipse.n
    ensures Arena(m, bs + [b], rank + [r])
  {
    var bs' := bs + [b];
    forall k | 0 <= k < |bs'|
      ensures BodyOk(m, bs', k)
    {
      if k < |bs| {
        assert BodyOk(m, bs, k);
      }
    }
  }

  /**
   * The body of update, for body b whose orbital parent has mass
   * parentMass: the times, the mean motion, the mean anomaly, the Kepler
   * loop and the point relative to the main focus.
   */
  method UpdateBody(m: MathFns, b: Body, parentMass: real, dt: real) returns (r: Body)
    requires SqrtLaws(m) && PiLaws(m)
    requires b.orbit.Some? ==> Movable(m, b, parentMass)
    ensures r == Advance(m, b, parentMass, dt)
  {
    r := b;
    if b.orbit.None? {
      return;
    }
    var o := b.orbit.value;
    var el := o.ellipse;
    var tP, t := 0.0, 0.0;
    if b.tP.Some? {
      tP, t := b.tP.value, b.t.value;
    }
    t := t + dt;
    EllipseEccentricity(m, el.j, el.n, el.a);
    var e := el.Eccentricity();
    var n := MeanMotion(m, G * (parentMass + b.mass), el.j);
    var M := Orbits.MeanAnomaly(n, t, tP, el.j, o.anticlockwise);
    var E := Orbits.SolveKepler(m, M, e, IterM);
    var point := el.PointAt(E);
    var coords := point.Add(el.coords).Subtract(el.Foci().0);
    assert E == AnomalyAt(m, el, G * (parentMass + b.mass), o.anticlockwise, t, tP);
    assert coords == FocusRelative(el, E);
    AdvanceBy(m, b, parentMass, dt, tP, t, E, coords);
    r := b.(tP := Some(tP), t := Some(t), coords := coords);
  }

  class Bodies {
    const m: MathFns
    var bodies: seq<Body>
    ghost var rank: seq<nat>

    ghost predicate Valid()
      reads this
    {
      Arena(m, bodies, rank)
    }

    constructor (m: MathFns)
      ensures this.m == m && Valid() && bodies == []
    {
      this.m := m;
      bodies := [];
      rank := [];
    }

    /**
     * The CelestialBody constructor: the body the options describe, with an
     * orbit around its orbital parent exactly when one is given. `random1`
     * and `random2` are the Orbit constructor's Math.random values.
     */
    method NewBody(o: BodyOptions, random1: real, random2: real) returns (i: nat)
      requires Valid() && SqrtLaws(m) && 0.0 <= random1 < 1.0
      requires o.orbitParent.Some? ==> o.orbitParent.value < |bodies| && FromOptions(m, o).coords != Origin
      modifies this
      ensures Valid() && i == old(|bodies|) && |bodies| == i + 1 && bodies[..i] == old(bodies)
      ensures bodies[i] == FromOptions(m, o).(orbit := bodies[i].orbit)
      ensures bodies[i].orbit.Some? <==> o.orbitParent.Some?
      ensures o.orbitParent.Some? ==>
                var orbit, b0 := bodies[i].orbit.value, FromOptions(m, o);
                && fresh(orbit) && fresh(orbit.ellipse)
                && orbit.child == i && orbit.parent == o.orbitParent.value
                && orbit.anticlockwise == b0.anticlockwise
                && orbit.Built(m, b0.coords, Global(old(bodies), old(rank), o.orbitParent.value), random1, random2)
      ensures forall k :: 0 <= k < i ==> Global(bodies, rank, k) == Global(old(bodies), old(rank), k)
    {
      var b := FromOptions(m, o);
      i := |bodies|;
      ghost var r: nat := 0;
      if b.orbitParent.Some? {
        var p := b.orbitParent.value;
        var parentGlobal := GetGlobalCoords(p);
        var orbit := new Orbit(m, i, b.coords, p, parentGlobal,
                               OrbitOptions(Some(b.orbitSpeed), Some(b.anticlockwise)), random1, random2);
        b := b.(orbit := Some(orbit));
        r := rank[p] + 1;
      }
      ghost var bs, rk := bodies, rank;
      AppendBody(m, bodies, rank, b, r);
      bodies, rank := bodies + [b], rank + [r];
      assert bodies[..i] == bs;
      forall k | 0 <= k < i
        ensures Global(bodies, rank, k) == Global(bs, rk, k)
      {
        AppendKeepsGlobals(bs, rk, b, r, k);
      }
    }

    /** getGlobalCoords: the loop that adds the coordinates of every body up the orbit chain. */
    method GetGlobalCoords(i: nat) returns (p: Vector)
      requires Valid() && i < |bodies|
      ensures p == Global(bodies, rank, i)
    {
      var x, y := bodies[i].coords.x, bodies[i].coords.y;
      var body := i;
      while bodies[body].orbit.Some?
        invariant body < |bodies|
        invariant Vector(x, y).Add(Global(bodies, rank, body)) == Global(bodies, rank, i).Add(bodies[body].coords)
        decreases rank[body]
      {
        var parent := bodies[body].orbit.value.parent;
        x := x + bodies[parent].coords.x;
        y := y + bodies[parent].coords.y;
        body := parent;
      }
      p := Vector(x, y);
    }

    /** update on body i: see Advance. The total mass with the parent must be positive. */
    method Update(i: nat, dt: real)
      requires Valid() && SqrtLaws(m) && PiLaws(m) && i < |bodies|
      requires bodies[i].orbit.Some? ==> 0.0 < bodies[bodies[i].orbit.value.parent].mass + bodies[i].mass
      modifies this
      ensures Valid() && rank == old(rank)
      ensures old(bodies[i].orbit.Some? ==> Movable(m, bodies[i], ParentMass(bodies, i)))
      ensures bodies == old(bodies[i := Advance(m, bodies[i], ParentMass(bodies, i), dt)])
    {
      assert BodyOk(m, bodies, i);
      var parentMass := ParentMass(bodies, i);
      var b := UpdateBody(m, bodies[i], parentMass, dt);
      if bodies[i].orbit.Some? {
        ReplaceTimes(m, bodies, rank, i, b);
      } else {
        assert bodies[i := b] == bodies;
      }
      bodies := bodies[i := b];
    }

    /** drawOrbit, without the canvas: an orbiting body's ellipse moves its main focus onto the parent's global position. */
    method DrawOrbit(i: nat)
      requires Valid() && i < |bodies|
      modifies if bodies[i].orbit.Some? then {bodies[i].orbit.value.ellipse} else {}
      ensures bodies[i].orbit.Some? ==> bodies[i].orbit.value.ellipse.Foci().0 == Global(bodies, rank, bodies[i].orbit.value.parent)
    {
      if bodies[i].orbit.Some? {
        var orbit := bodies[i].orbit.value;
        var p := GetGlobalCoords(orbit.parent);
        orbit.Draw(p);
      }
    }
  }
}
