/**
 * The ellipse of the first body generation (app/conics/ellipse.js): a centre
 * `coords`, semi-axes `j` >= `n`, the major axis direction `angle` and the
 * focal distance, which the source calls `a`. The centre and the angle are
 * variables: the orbit that owns an ellipse moves it and overwrites its angle.
 */
module ConicsEllipse {
  import opened JsMath
  import opened Vectors
  import opened Options

  /**
   * The constructor's swap, made whenever n > j whatever the signs: the
   * result always has its first axis at least its second.
   */
  function Sorted(m: MathFns, j: real, n: real, angle: real): (r: (real, real, real))
    ensures multiset{r.0, r.1} == multiset{j, n}
    ensures r.1 <= r.0
    ensures (r.0 != j || r.2 != angle) <==> j < n
    ensures j < n ==> r.2 == angle + m.pi / 2.0
  {
    if n > j then (n, j, angle + m.pi / 2.0) else (j, n, angle)
  }

  /** The unrotated point (j cos E, n sin E) of the ellipse with those semi-axes. */
  function AxisPoint(m: MathFns, j: real, n: real, E: real): Vector {
    Vector(m.cos(E) * j, m.sin(E) * n)
  }

  /** The unrotated point satisfies x²/j² + y²/n² = 1. */
  lemma AxisPointOnEllipse(m: MathFns, j: real, n: real, E: real)
    requires Pythagoras(m) && j != 0.0 && n != 0.0
    ensures var p := AxisPoint(m, j, n, E);
            Pow2(j) != 0.0 && Pow2(n) != 0.0 && Pow2(p.x) / Pow2(j) + Pow2(p.y) / Pow2(n) == 1.0
  {
    var p := AxisPoint(m, j, n, E);
    var c, s := m.cos(E), m.sin(E);
    Pow2Facts(j);
    Pow2Facts(n);
    assert Pow2(p.x) == (c * c) * Pow2(j);
    assert Pow2(p.y) == (s * s) * Pow2(n);
    CancelSquare(c * c, Pow2(j));
    CancelSquare(s * s, Pow2(n));
  }

  lemma CancelSquare(k: real, q: real)
    requires q != 0.0
    ensures (k * q) / q == k
  {}

  /** The whole turns that `eccentricAnomaly`'s normalisation removes from f. */
  function Turns(m: MathFns, f: real): int
    requires PiLaws(m)
  {
    var t := Trunc(f / (m.pi * 2.0));
    if JsRem(f, m.pi * 2.0) < 0.0 then t - 1 else t
  }

  /**
   * The argument of `eccentricAnomaly` brought into [0, 2π) with JavaScript's
   * `%` and one correction: it differs from f by whole turns.
   */
  function NormalAngle(m: MathFns, f: real): (g: real)
    requires PiLaws(m)
    ensures 0.0 <= g < 2.0 * m.pi
    ensures g == f - (Turns(m, f) as real) * (2.0 * m.pi)
  {
    var r := JsRem(f, m.pi * 2.0);
    if r < 0.0 then r + m.pi * 2.0 else r
  }

  class Ellipse {
    const m: MathFns
    var coords: Vector
    const j: real
    const n: real
    var angle: real
    /** The focal distance (the source's `a`). */
    const a: real

    /** j >= n, which the constructor guarantees, makes the focal distance real. */
    ghost predicate Valid() {
      n <= j && a == m.sqrt(Pow2(j) - Pow2(n))
    }

    /** Centre (x, y), semi-axes j and n, angle; the larger axis becomes j. */
    constructor (m: MathFns, x: real, y: real, j: real, n: real, angle: real)
      ensures this.m == m && coords == Vector(x, y)
      ensures (this.j, this.n, this.angle) == Sorted(m, j, n, angle)
      ensures Valid()
    {
      this.m := m;
      coords := Vector(x, y);
      var r := Sorted(m, j, n, angle);
      this.j, this.n, this.angle := r.0, r.1, r.2;
      a := m.sqrt(Pow2(r.0) - Pow2(r.1));
    }

    /** The offset from the centre to the main focus. */
    function Offset(): Vector
      reads this
    {
      Vector(m.cos(angle) * a, m.sin(angle) * a)
    }

    /** The foci, centre plus and minus the offset, symmetric about the centre. */
    function Foci(): (f: (Vector, Vector))
      reads this
      ensures f.0.Subtract(coords) == Offset() && coords.Subtract(f.1) == Offset()
      ensures f.0.Add(f.1) == coords.Scale(2.0, None)
    {
      (coords.Add(Offset()), coords.Subtract(Offset()))
    }

    /** The eccentricity a/j: below 1 on a valid ellipse with a positive semi-minor axis. */
    function Eccentricity(): (e: real)
      requires j != 0.0
      ensures SqrtLaws(m) && Valid() && 0.0 < n ==> 0.0 <= e < 1.0
    {
      EllipseEccentricity(m, j, n, a);
      a / j
    }

    method TranslateTo(v: Vector)
      modifies this`coords
      ensures coords == v
    {
      coords := v;
    }

    method Translate(v: Vector)
      modifies this`coords
      ensures coords == old(coords).Add(v)
    {
      TranslateTo(coords.Add(v));
    }

    /** Moves the ellipse so that its main focus lands on v. */
    method TranslateFocusTo(v: Vector)
      modifies this`coords
      ensures Foci().0 == v
      ensures Foci().0.Subtract(Foci().1) == old(Foci().0.Subtract(Foci().1))
    {
      var d := v.Subtract(Foci().0);
      Translate(d);
    }

    /**
     * getPointAtEccentricAnomaly: the point of the ellipse at eccentric
     * anomaly E, relative to the centre: (j cos E, n sin E) in the frame of
     * the major axis, which is turned by the angle.
     */
    function PointAt(E: real): (p: Vector)
      reads this
      ensures Pythagoras(m) && SqrtLaws(m) ==> p.Mod(m) == AxisPoint(m, j, n, E).Mod(m)
      ensures Pythagoras(m) ==>
                && p.Dot(Vector(m.cos(angle), m.sin(angle))) == m.cos(E) * j
                && p.Dot(Vector(-m.sin(angle), m.cos(angle))) == m.sin(E) * n
    {
      TurnKeepsLength(m, AxisPoint(m, j, n, E), angle);
      RotateCoordinates(m, AxisPoint(m, j, n, E), angle);
      AxisPoint(m, j, n, E).Rotate(m, angle)
    }

    /**
     * eccentricAnomaly: the eccentric anomaly at true anomaly f on the
     * matching half of the ellipse, from acos on [0, π] and 2π - acos beyond.
     */
    function EccentricAnomaly(f: real): (E: real)
      requires Valid() && SqrtLaws(m) && Pythagoras(m) && PiLaws(m) && 0.0 < n
      ensures AcosLaws(m) && NormalAngle(m, f) <= m.pi ==> 0.0 <= E <= m.pi
      ensures AcosLaws(m) && m.pi < NormalAngle(m, f) ==> m.pi <= E <= 2.0 * m.pi
    {
      var g := NormalAngle(m, f);
      var e := Eccentricity();
      EllipseEccentricity(m, j, n, a);
      TrigBounds(m, g);
      ShiftedProductPositive(e, m.cos(g));
      var E := m.acos((e + m.cos(g)) / (1.0 + e * m.cos(g)));
      if g > m.pi then m.pi * 2.0 - E else E
    }
  }

  lemma TurnKeepsLength(m: MathFns, v: Vector, angle: real)
    ensures Pythagoras(m) ==> v.Rotate(m, angle).Mod(m) == v.Mod(m)
  {
    if Pythagoras(m) {
      RotateKeepsLength(m, v, angle);
    }
  }

  /** With 0 < n <= j the eccentricity is in [0, 1). */
  lemma EllipseEccentricity(m: MathFns, j: real, n: real, a: real)
    ensures SqrtLaws(m) && 0.0 < n <= j && a == m.sqrt(Pow2(j) - Pow2(n)) ==> 0.0 <= a / j < 1.0
  {
    if SqrtLaws(m) && 0.0 < n <= j && a == m.sqrt(Pow2(j) - Pow2(n)) {
      Pow2Less(0.0, n);
      var x := Pow2(j) - Pow2(n);
      Pow2Facts(n);
      if n < j {
        Pow2Less(n, j);
      }
      assert j * j - x == n * n;
      var y := m.sqrt(x);
      assert y * y == x;
      if j <= y {
        SquareLessEq(j, y);
      }
      QuotientNonNegative(a, j);
      QuotientAtMostOne(a, j);
    }
  }

  lemma SquareLessEq(t: real, s: real)
    requires 0.0 <= t <= s
    ensures t * t <= s * s
  {
    if t < s {
      SquareLess(t, s);
    }
  }
}
