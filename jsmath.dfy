/**
 * The parts of JavaScript's `Math` object and number semantics that the engine
 * relies on. Transcendental functions are not computable in Dafny's reals, so
 * they are fields of a `MathFns` record handed to every operation that needs them;
 * the facts a proof needs about them are stated as law predicates and required
 * only by the members whose proofs need them.
 */
module JsMath {

  /** `Math.sqrt`, `Math.sin`, ... as opaque function values. */
  datatype MathFns = MathFns(
    sqrt: real -> real,
    sin: real -> real,
    cos: real -> real,
    tan: real -> real,
    atan: real -> real,
    atan2: (real, real) -> real,   // atan2(y, x)
    sinh: real -> real,
    cosh: real -> real,
    tanh: real -> real,
    acos: real -> real,
    acosh: real -> real,
    pow25: real -> real,           // x ↦ Math.pow(x, 2/5)
    log10: real -> real,
    rotationOf: (real, real) -> real, // Vector.prototype.getRotation, the angle of (x, y)
    pi: real)

  ghost predicate SqrtLaws(m: MathFns) {
    forall x :: 0.0 <= x ==> 0.0 <= m.sqrt(x) && m.sqrt(x) * m.sqrt(x) == x
  }

  ghost predicate Pythagoras(m: MathFns) {
    forall a :: m.sin(a) * m.sin(a) + m.cos(a) * m.cos(a) == 1.0
  }

  /** The values at 0 of the functions that vanish or equal 1 there. */
  ghost predicate ZeroLaws(m: MathFns) {
    && m.sin(0.0) == 0.0 && m.cos(0.0) == 1.0 && m.tan(0.0) == 0.0
    && m.atan(0.0) == 0.0 && m.sinh(0.0) == 0.0 && m.cosh(0.0) == 1.0 && m.tanh(0.0) == 0.0
  }

  /** The inverse functions at the points where they vanish: atan2(0, x) for x > 0, and acosh(1). */
  ghost predicate InverseZeroLaws(m: MathFns) {
    (forall x :: 0.0 < x ==> m.atan2(0.0, x) == 0.0) && m.acosh(1.0) == 0.0
  }

  ghost predicate CoshLaws(m: MathFns) {
    forall x :: 1.0 <= m.cosh(x)
  }

  ghost predicate PiLaws(m: MathFns) {
    3.0 < m.pi < 4.0
  }

  ghost predicate AcosLaws(m: MathFns) {
    forall x :: 0.0 <= m.acos(x) <= m.pi
  }

  /** x^(2/5) is non-negative and non-decreasing on the non-negative reals. */
  ghost predicate Pow25Laws(m: MathFns) {
    && (forall x :: 0.0 <= x ==> 0.0 <= m.pow25(x))
    && (forall x, y :: 0.0 <= x <= y ==> m.pow25(x) <= m.pow25(y))
  }

  /** The floor of log10 of a positive number brackets it between powers of ten. */
  ghost predicate Log10Laws(m: MathFns) {
    forall v :: 0.0 < v ==> Pow10(m.log10(v).Floor) <= v < Pow10(m.log10(v).Floor + 1)
  }

  /** Every law at once, for the stateful layers that use most of them. */
  ghost predicate Laws(m: MathFns) {
    SqrtLaws(m) && Pythagoras(m) && ZeroLaws(m) && CoshLaws(m) && PiLaws(m) && AcosLaws(m) && Pow25Laws(m)
  }

  /** Math.pow(10, k) for an integer exponent. */
  function Pow10(k: int): real {
    if 0 <= k then PowTen(k) else TenthPow(-k)
  }

  function PowTen(n: nat): real {
    if n == 0 then 1.0 else 10.0 * PowTen(n - 1)
  }

  function TenthPow(n: nat): real {
    if n == 0 then 1.0 else TenthPow(n - 1) / 10.0
  }

  lemma Pow10Step(k: int)
    ensures Pow10(k + 1) == 10.0 * Pow10(k)
  {
    if k < 0 {
      assert TenthPow(-k) == TenthPow(-k - 1) / 10.0;
    }
  }

  /** Math.pow(10, a) * Math.pow(10, b) == Math.pow(10, a + b). */
  lemma {:induction false} Pow10Add(a: int, b: int)
    ensures Pow10(a + b) == Pow10(a) * Pow10(b)
    decreases if b < 0 then -b else b
  {
    if b > 0 {
      Pow10Add(a, b - 1);
      Pow10AddUp(a, b - 1);
    } else if b < 0 {
      Pow10Add(a, b + 1);
      Pow10AddDown(a, b);
    }
  }

  lemma Pow10AddUp(a: int, c: int)
    requires Pow10(a + c) == Pow10(a) * Pow10(c)
    ensures Pow10(a + (c + 1)) == Pow10(a) * Pow10(c + 1)
  {
    var k := a + c;
    Pow10Step(k);
    Pow10Step(c);
    assert a + (c + 1) == k + 1;
    TenfoldProduct(Pow10(a), Pow10(c), Pow10(k), Pow10(k + 1), Pow10(c + 1));
  }

  lemma Pow10AddDown(a: int, b: int)
    requires Pow10(a + (b + 1)) == Pow10(a) * Pow10(b + 1)
    ensures Pow10(a + b) == Pow10(a) * Pow10(b)
  {
    var k := a + b;
    Pow10Step(k);
    Pow10Step(b);
    assert a + (b + 1) == k + 1;
    TenfoldQuotient(Pow10(a), Pow10(b), Pow10(k), Pow10(k + 1), Pow10(b + 1));
  }

  lemma Pow10Positive(k: int)
    ensures 0.0 < Pow10(k)
  {
    if 0 <= k {
      PowTenPositive(k);
    } else {
      TenthPowPositive(-k);
    }
  }

  lemma {:induction false} PowTenPositive(n: nat)
    ensures 0.0 < PowTen(n)
  {
    if n > 0 {
      PowTenPositive(n - 1);
    }
  }

  lemma {:induction false} TenthPowPositive(n: nat)
    ensures 0.0 < TenthPow(n)
  {
    if n > 0 {
      TenthPowPositive(n - 1);
    }
  }

  lemma TenfoldProduct(p: real, q: real, r: real, r10: real, q10: real)
    requires r == p * q && r10 == 10.0 * r && q10 == 10.0 * q
    ensures r10 == p * q10
  {}

  lemma TenfoldQuotient(p: real, q: real, r: real, r10: real, q10: real)
    requires r10 == p * q10 && r10 == 10.0 * r && q10 == 10.0 * q
    ensures r == p * q
  {}

  /** Truncation toward zero, the rounding JavaScript's `%` uses. */
  function Trunc(q: real): (t: int)
    ensures 0.0 <= q ==> t as real <= q < t as real + 1.0
    ensures q < 0.0 ==> t as real - 1.0 < q <= t as real
  {
    if 0.0 <= q then q.Floor else -((-q).Floor)
  }

  /** JavaScript's `x % y`: the remainder takes the sign of the dividend. */
  function JsRem(x: real, y: real): (r: real)
    requires y != 0.0
    ensures 0.0 < y && 0.0 <= x ==> 0.0 <= r < y
    ensures 0.0 < y && x < 0.0 ==> -y < r <= 0.0
  {
    var t := Trunc(x / y);
    var r := x - y * t as real;
    RemBounds(x, y, t);
    r
  }

  lemma RemBounds(x: real, y: real, t: int)
    requires y != 0.0 && t == Trunc(x / y)
    ensures 0.0 < y && 0.0 <= x ==> 0.0 <= x - y * t as real < y
    ensures 0.0 < y && x < 0.0 ==> -y < x - y * t as real <= 0.0
  {
    if y < 0.0 {
      return;
    }
    var q := x / y;
    assert x == y * q;
    if 0.0 <= x {
      assert 0.0 <= q;
      ProductKeepsOrder(y, t as real, q);
      ProductKeepsOrder(y, q, t as real + 1.0);
    } else {
      assert q < 0.0 by { NegTimesPos(x, 1.0 / y); }
      ProductKeepsOrder(y, t as real - 1.0, q);
      ProductKeepsOrder(y, q, t as real);
    }
  }

  /** JavaScript truthiness of a number that is not NaN. */
  predicate Truthy(x: real) {
    x != 0.0
  }

  // Real-arithmetic facts the solver does not find unaided.

  lemma NegTimesPos(p: real, q: real)
    requires p < 0.0 && 0.0 < q
    ensures p * q < 0.0
  {}

  lemma ProductKeepsOrder(k: real, p: real, q: real)
    requires 0.0 < k
    ensures p < q ==> k * p < k * q
    ensures p <= q ==> k * p <= k * q
  {
    assert k * q - k * p == k * (q - p);
  }

  lemma SignFromProduct(p: real, q: real)
    requires 0.0 < q && 0.0 <= p * q
    ensures 0.0 <= p
  {
    if p < 0.0 {
      NegTimesPos(p, q);
    }
  }

  lemma SquareNonNegative(x: real)
    ensures 0.0 <= x * x
  {
    if x < 0.0 {
      assert x * x == (-x) * (-x);
    }
  }

  /** Only zero squares to zero (the division keeps this within the solver's reach). */
  lemma SquareZero(x: real)
    requires x * x == 0.0
    ensures x == 0.0
  {
    if x != 0.0 {
      ZeroProduct(x, x);
    }
  }

  lemma SumOfSquaresZero(x: real, y: real)
    requires x * x + y * y == 0.0
    ensures x == 0.0 && y == 0.0
  {
    SquareNonNegative(x);
    SquareNonNegative(y);
    SquareZero(x);
    SquareZero(y);
  }

  /** The non-negative square root of a square is the absolute value. */
  lemma SqrtOfSquare(m: MathFns, x: real)
    requires SqrtLaws(m)
    ensures m.sqrt(x * x) == (if x < 0.0 then -x else x)
  {
    SquareNonNegative(x);
    var s := m.sqrt(x * x);
    var ax := if x < 0.0 then -x else x;
    assert s * s == ax * ax;
    assert (s + ax) * (s - ax) == 0.0;
    if s + ax != 0.0 {
      ZeroProduct(s + ax, s - ax);
    }
  }

  /** The non-negative square root is the only non-negative number squaring to x. */
  lemma SqrtUnique(m: MathFns, x: real, s: real)
    requires SqrtLaws(m) && 0.0 <= s && s * s == x
    ensures m.sqrt(x) == s
  {
    SqrtOfSquare(m, s);
  }

  lemma ZeroProduct(p: real, q: real)
    requires p * q == 0.0 && p != 0.0
    ensures q == 0.0
  {
    assert q == (p * q) / p;
  }

  lemma SquareLess(t: real, s: real)
    requires 0.0 <= t < s
    ensures t * t < s * s
  {
    assert s * s - t * t == (s - t) * (s + t);
    PositiveProduct(s - t, s + t);
  }

  lemma SqrtZero(m: MathFns, x: real)
    requires SqrtLaws(m) && 0.0 <= x
    ensures m.sqrt(x) == 0.0 <==> x == 0.0
  {
    SqrtOfSquare(m, 0.0);
  }

  /** Square roots preserve order. */
  lemma SqrtMonotone(m: MathFns, x: real, y: real)
    requires SqrtLaws(m) && 0.0 <= x <= y
    ensures m.sqrt(x) <= m.sqrt(y)
  {
    var s, t := m.sqrt(x), m.sqrt(y);
    if t < s {
      SquareLess(t, s);
    }
  }

  /** sqrt(x) <= y for a non-negative y whose square bounds x. */
  lemma SqrtBelow(m: MathFns, x: real, y: real)
    requires SqrtLaws(m) && 0.0 <= x <= y * y && 0.0 <= y
    ensures m.sqrt(x) <= y
  {
    SqrtMonotone(m, x, y * y);
    SqrtOfSquare(m, y);
  }

  /** sqrt(x) >= y for a non-negative y whose square is at most x. */
  lemma SqrtAbove(m: MathFns, x: real, y: real)
    requires SqrtLaws(m) && y * y <= x && 0.0 <= y
    ensures y <= m.sqrt(x)
  {
    SquareNonNegative(y);
    SqrtMonotone(m, y * y, x);
    SqrtOfSquare(m, y);
  }

  lemma SqrtOfProduct(m: MathFns, x: real, y: real)
    requires SqrtLaws(m) && 0.0 <= x && 0.0 <= y
    ensures m.sqrt(x * y) == m.sqrt(x) * m.sqrt(y)
  {
    var s, t := m.sqrt(x), m.sqrt(y);
    var p := s * t;
    ProductNonNegative(s, t);
    assert p * p == x * y by {
      assert s * s == x && t * t == y;
      assert p * p == (s * s) * (t * t);
    }
    SqrtOfSquare(m, p);
    assert m.sqrt(p * p) == p;
    assert m.sqrt(x * y) == m.sqrt(p * p);
  }

  lemma PositiveProduct(p: real, q: real)
    requires 0.0 < p && 0.0 < q
    ensures 0.0 < p * q
  {}

  lemma ProductNonNegative(p: real, q: real)
    requires 0.0 <= p && 0.0 <= q
    ensures 0.0 <= p * q
  {}

  /** |sin| and |cos| are at most 1. */
  lemma TrigBounds(m: MathFns, a: real)
    requires Pythagoras(m)
    ensures -1.0 <= m.sin(a) <= 1.0 && -1.0 <= m.cos(a) <= 1.0
  {
    SquareNonNegative(m.sin(a));
    SquareNonNegative(m.cos(a));
    SquareAtMostOne(m.sin(a));
    SquareAtMostOne(m.cos(a));
  }

  lemma SquareAtMostOne(x: real)
    requires x * x <= 1.0
    ensures -1.0 <= x <= 1.0
  {
    if 1.0 < x {
      ProductKeepsOrder(x, 1.0, x);
    } else if x < -1.0 {
      ProductKeepsOrder(-x, 1.0, -x);
    }
  }

  lemma NonZeroProduct(p: real, q: real)
    requires p != 0.0 && q != 0.0
    ensures p * q != 0.0
  {
    if p * q == 0.0 {
      ZeroProduct(p, q);
    }
  }

  lemma SquareNonZero(x: real)
    requires x != 0.0
    ensures x * x != 0.0
  {
    if x * x == 0.0 {
      SquareZero(x);
    }
  }

  /** Math.pow(x, 2). */
  function Pow2(x: real): real {
    x * x
  }

  /** A square is non-negative and zero only at zero. */
  lemma Pow2Facts(x: real)
    ensures 0.0 <= Pow2(x) && (Pow2(x) == 0.0 <==> x == 0.0)
  {
    SquareNonNegative(x);
    if x * x == 0.0 {
      SquareZero(x);
    }
  }

  lemma Pow2Less(p: real, q: real)
    requires 0.0 <= p < q
    ensures Pow2(p) < Pow2(q)
  {
    SquareLess(p, q);
  }

  lemma SqrtOfPow2(m: MathFns, x: real)
    requires SqrtLaws(m)
    ensures m.sqrt(Pow2(x)) == (if x < 0.0 then -x else x)
  {
    SqrtOfSquare(m, x);
  }

  lemma QuotientNonNegative(p: real, q: real)
    requires 0.0 <= p && 0.0 < q
    ensures 0.0 <= p / q
  {}

  lemma QuotientPositive(p: real, q: real)
    requires 0.0 < p && 0.0 < q
    ensures 0.0 < p / q
  {}

  /** For 0 <= p <= q and q > 0, p / q lies in [0, 1], reaching 1 exactly when p == q. */
  lemma QuotientAtMostOne(p: real, q: real)
    requires 0.0 <= p <= q && 0.0 < q
    ensures p / q <= 1.0 && (p / q == 1.0 <==> p == q)
  {
    assert p == q * (p / q);
  }

  /** A quotient is zero exactly when its dividend is. */
  lemma QuotientZero(p: real, q: real)
    requires q != 0.0
    ensures p / q == 0.0 <==> p == 0.0
  {
    assert p == q * (p / q);
  }

  lemma DivisionCancels(p: real, q: real)
    requires q != 0.0
    ensures q * (p / q) == p
  {}

  /** 1 + e·x stays positive for 0 <= e < 1 and x >= -1. */
  lemma ShiftedProductPositive(e: real, x: real)
    requires 0.0 <= e < 1.0 && -1.0 <= x
    ensures 0.0 < 1.0 + e * x
  {
    if 0.0 < e {
      ProductKeepsOrder(e, -1.0, x);
    }
  }
}
