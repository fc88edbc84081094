/**
 * Unit conversion on numbers of very different magnitudes (app/units/convert.js):
 * a positive number is kept as a mantissa and a decimal exponent, products
 * multiply the mantissas and add the exponents, and a Converter holds one
 * such pair that `from` multiplies by units and `to` divides by them.
 */
module Convert {
  import opened JsMath

  /** The mantissa `val` and decimal exponent `exp` of the number val·10^exp. */
  datatype Split = Split(val: real, exp: int) {
    /** The number the pair stands for. */
    function Value(): real {
      val * Pow10(exp)
    }
  }

  /**
   * splitValue: exp = ⌊log10 v⌋ and val = v / 10^exp. Given the bracketing
   * law of log10 the mantissa lies in [1, 10) and the pair stands for v.
   * log10 of a non-positive number is NaN or -Infinity, so v > 0.
   */
  function SplitValue(m: MathFns, v: real): (s: Split)
    requires 0.0 < v
    ensures Log10Laws(m) ==> 1.0 <= s.val < 10.0 && s.Value() == v
  {
    var exp := m.log10(v).Floor;
    Pow10Positive(exp);
    Pow10Step(exp);
    Mantissa(v, Pow10(exp));
    Split(v / Pow10(exp), exp)
  }

  lemma {:induction false} Mantissa(v: real, p: real)
    requires 0.0 < p
    ensures p <= v < 10.0 * p ==> 1.0 <= v / p < 10.0
    ensures (v / p) * p == v
  {
    if p <= v < 10.0 * p {
      var q := v / p;
      assert q * p == v;
      ProductKeepsOrder(p, q, 1.0);
      ProductKeepsOrder(p, 10.0, q);
    }
  }

  /** One step of combineSplit: multiply the mantissas, add the exponents. */
  function Times(a: Split, b: Split): Split {
    Split(a.val * b.val, a.exp + b.exp)
  }

  /** The pair reached from c by combining it with each of ss in turn. */
  function CombineFrom(c: Split, ss: seq<Split>): Split {
    if ss == [] then c else Times(CombineFrom(c, ss[..|ss| - 1]), ss[|ss| - 1])
  }

  /** The pair combineSplit returns: every pair combined, starting from (1, 0). */
  function Combined(ss: seq<Split>): Split {
    CombineFrom(Split(1.0, 0), ss)
  }

  /** A step multiplies the numbers the pairs stand for. */
  lemma {:induction false} TimesValue(a: Split, b: Split)
    ensures Times(a, b).Value() == a.Value() * b.Value()
  {
    Pow10Add(a.exp, b.exp);
    Regroup(a.val, b.val, Pow10(a.exp), Pow10(b.exp));
  }

  lemma {:induction false} Regroup(a: real, b: real, p: real, q: real)
    ensures (a * b) * (p * q) == (a * p) * (b * q)
  {}

  /** Combining from (1, 0) with a leading pair is combining from that pair. */
  lemma {:induction false} LeadingPair(s0: Split, ss: seq<Split>)
    ensures Combined([s0] + ss) == CombineFrom(s0, ss)
  {
    var cs := [s0] + ss;
    if ss == [] {
      assert cs[..0] == [] && cs[0] == s0;
      assert CombineFrom(Split(1.0, 0), cs[..0]) == Split(1.0, 0);
      assert Combined(cs) == Times(Split(1.0, 0), s0);
      assert Times(Split(1.0, 0), s0) == Split(s0.val, s0.exp) == s0;
    } else {
      LeadingPair(s0, ss[..|ss| - 1]);
      assert cs[..|cs| - 1] == [s0] + ss[..|ss| - 1];
    }
  }

  /** Combining c with pairs that stand for us, one for one, multiplies c's number by the product of us. */
  lemma {:induction false} CombineFromValue(c: Split, ss: seq<Split>, us: seq<real>)
    requires |ss| == |us| && forall k :: 0 <= k < |ss| ==> ss[k].Value() == us[k]
    ensures CombineFrom(c, ss).Value() == c.Value() * Product(us)
  {
    if ss == [] {
      assert us == [];
      assert CombineFrom(c, ss) == c;
      assert c.Value() * Product(us) == c.Value() * 1.0;
    } else {
      var init := ss[..|ss| - 1];
      CombineFromValue(c, init, us[..|us| - 1]);
      LastStep(c, ss, us);
    }
  }

  lemma {:induction false} LastStep(c: Split, ss: seq<Split>, us: seq<real>)
    requires |ss| == |us| != 0
    requires CombineFrom(c, ss[..|ss| - 1]).Value() == c.Value() * Product(us[..|us| - 1])
    requires ss[|ss| - 1].Value() == us[|us| - 1]
    ensures CombineFrom(c, ss).Value() == c.Value() * Product(us)
  {
    var prev := CombineFrom(c, ss[..|ss| - 1]);
    assert CombineFrom(c, ss) == Times(prev, ss[|ss| - 1]);
    StepValue(prev, ss[|ss| - 1], c.Value(), Product(us[..|us| - 1]), us[|us| - 1], Product(us));
  }

  lemma {:induction false} StepValue(prev: Split, s: Split, v: real, p: real, u: real, q: real)
    requires prev.Value() == v * p && s.Value() == u && q == p * u
    ensures Times(prev, s).Value() == v * q
  {
    TimesValue(prev, s);
    Scaled(prev.Value(), v * p, s.Value());
    Associate(v, p, u);
  }

  lemma {:induction false} Scaled(a: real, b: real, c: real)
    requires a == b
    ensures a * c == b * c
  {}

  /** combineSplit: the loop that multiplies the mantissas and adds the exponents, from (1, 0). */
  method CombineSplit(splits: seq<Split>) returns (c: Split)
    ensures c == Combined(splits)
  {
    var val, exp := 1.0, 0;
    for i := 0 to |splits|
      invariant Split(val, exp) == Combined(splits[..i])
    {
      assert splits[..i + 1][..i] == splits[..i];
      val := val * splits[i].val;
      exp := exp + splits[i].exp;
    }
    assert splits[..|splits|] == splits;
    c := Split(val, exp);
  }

  predicate Positive(us: seq<real>) {
    forall k :: 0 <= k < |us| ==> 0.0 < us[k]
  }

  function Product(us: seq<real>): real {
    if us == [] then 1.0 else Product(us[..|us| - 1]) * us[|us| - 1]
  }

  lemma {:induction false} Reciprocal(u: real)
    requires 0.0 < u
    ensures 0.0 < 1.0 / u && (1.0 / u) * u == 1.0
  {}

  /** The splits that `from` pushes, one splitValue per unit. */
  function SplitsOf(m: MathFns, us: seq<real>): (ss: seq<Split>)
    requires Positive(us)
    ensures |ss| == |us| && forall k :: 0 <= k < |us| ==> ss[k] == SplitValue(m, us[k])
  {
    if us == [] then []
    else
      assert Positive(us[..|us| - 1]);
      SplitsOf(m, us[..|us| - 1]) + [SplitValue(m, us[|us| - 1])]
  }

  /** One more unit adds its split at the end. */
  lemma {:induction false} SplitsStep(m: MathFns, us: seq<real>, i: nat)
    requires Positive(us) && i < |us|
    ensures Positive(us[..i]) && Positive(us[..i + 1])
    ensures SplitsOf(m, us[..i + 1]) == SplitsOf(m, us[..i]) + [SplitValue(m, us[i])]
  {
    assert us[..i + 1][..i] == us[..i];
  }

  /** The splits that `to` pushes, one splitValue of 1/u per unit u. */
  function InverseSplitsOf(m: MathFns, us: seq<real>): (ss: seq<Split>)
    requires Positive(us)
    ensures |ss| == |us|
    ensures forall k :: 0 <= k < |us| ==> 0.0 < 1.0 / us[k] && ss[k] == SplitValue(m, 1.0 / us[k])
  {
    if us == [] then []
    else
      assert Positive(us[..|us| - 1]);
      Reciprocal(us[|us| - 1]);
      InverseSplitsOf(m, us[..|us| - 1]) + [SplitValue(m, 1.0 / us[|us| - 1])]
  }

  /** One more unit adds the split of its reciprocal at the end. */
  lemma {:induction false} InverseSplitsStep(m: MathFns, us: seq<real>, i: nat)
    requires Positive(us) && i < |us|
    ensures Positive(us[..i]) && Positive(us[..i + 1]) && 0.0 < 1.0 / us[i]
    ensures InverseSplitsOf(m, us[..i + 1]) == InverseSplitsOf(m, us[..i]) + [SplitValue(m, 1.0 / us[i])]
  {
    assert us[..i + 1][..i] == us[..i];
    Reciprocal(us[i]);
  }

  /** Given the law of log10, the splits of positive units stand for the units. */
  lemma {:induction false} SplitsStand(m: MathFns, us: seq<real>)
    requires Log10Laws(m) && Positive(us)
    ensures forall k :: 0 <= k < |us| ==> SplitsOf(m, us)[k].Value() == us[k]
  {
    var ss := SplitsOf(m, us);
    forall k | 0 <= k < |us|
      ensures ss[k].Value() == us[k]
    {
      assert ss[k] == SplitValue(m, us[k]);
    }
  }

  lemma {:induction false} Associate(a: real, b: real, c: real)
    ensures (a * b) * c == a * (b * c)
  {}

  /** `from`: combining a pair with the splits of units multiplies its number by their product. */
  lemma {:induction false} FromProduct(m: MathFns, s0: Split, us: seq<real>)
    requires Log10Laws(m) && Positive(us)
    ensures CombineFrom(s0, SplitsOf(m, us)).Value() == s0.Value() * Product(us)
  {
    SplitsStand(m, us);
    CombineFromValue(s0, SplitsOf(m, us), us);
  }

  /** The reciprocals 1/u of the units. */
  function Reciprocals(us: seq<real>): (rs: seq<real>)
    requires Positive(us)
    ensures |rs| == |us| && forall k :: 0 <= k < |us| ==> rs[k] == 1.0 / us[k]
  {
    if us == [] then [] else
      assert Positive(us[..|us| - 1]);
      Reciprocals(us[..|us| - 1]) + [1.0 / us[|us| - 1]]
  }

  /** The product of the reciprocals of positive numbers times the product of the numbers is 1. */
  lemma {:induction false} ReciprocalsCancel(us: seq<real>)
    requires Positive(us)
    ensures Product(Reciprocals(us)) * Product(us) == 1.0
  {
    if us != [] {
      var init, u := us[..|us| - 1], us[|us| - 1];
      assert Positive(init);
      ReciprocalsCancel(init);
      var rs := Reciprocals(us);
      assert rs[..|rs| - 1] == Reciprocals(init);
      Reciprocal(u);
      Regroup(Product(Reciprocals(init)), 1.0 / u, Product(init), u);
    }
  }

  lemma {:induction false} ReciprocalsPositive(us: seq<real>)
    requires Positive(us)
    ensures Positive(Reciprocals(us))
  {
    var rs := Reciprocals(us);
    forall k | 0 <= k < |rs|
      ensures 0.0 < rs[k]
    {
      Reciprocal(us[k]);
    }
  }

  /** The splits `to` pushes are the splits of the reciprocals. */
  lemma {:induction false} InverseSplitsAreReciprocal(m: MathFns, us: seq<real>)
    requires Positive(us)
    ensures Positive(Reciprocals(us)) && InverseSplitsOf(m, us) == SplitsOf(m, Reciprocals(us))
  {
    ReciprocalsPositive(us);
    assert InverseSplitsOf(m, us) == SplitsOf(m, Reciprocals(us));
  }

  /**
   * `to`: combining a pair with the splits of the units' reciprocals
   * multiplies its number by the product rs of the reciprocals, which
   * ReciprocalsCancel shows is dividing it by the product of the units.
   */
  lemma {:induction false} ToProduct(m: MathFns, s0: Split, us: seq<real>, rs: seq<real>)
    requires Log10Laws(m) && Positive(us) && rs == Reciprocals(us)
    ensures CombineFrom(s0, InverseSplitsOf(m, us)).Value() == s0.Value() * Product(rs)
  {
    InverseSplitsAreReciprocal(m, us);
    FromProduct(m, s0, rs);
  }

  /** The mantissa and exponent of 5 are 5 and 0. */
  lemma {:induction false} SplitOfFive(m: MathFns)
    requires Log10Laws(m)
    ensures SplitValue(m, 5.0) == Split(5.0, 0)
  {
    var k := m.log10(5.0).Floor;
    Pow10Step(0);
    if k < 0 {
      Pow10Monotone(k + 1, 0);
    } else if k > 0 {
      Pow10Monotone(1, k);
    }
  }

  /** 10^a <= 10^b when a <= b. */
  lemma {:induction false} Pow10Monotone(a: int, b: int)
    requires a <= b
    ensures Pow10(a) <= Pow10(b)
    decreases b - a
  {
    if a < b {
      Pow10Monotone(a, b - 1);
      Pow10Step(b - 1);
      Pow10Positive(b - 1);
    }
  }

  /**
   * `from` and `to` store the combined pair as it comes: convert(5).from(5)
   * holds mantissa 25, outside [1, 10), and still stands for 25.
   */
  lemma {:induction false} FromLeavesMantissa(m: MathFns)
    requires Log10Laws(m)
    ensures var c := CombineFrom(SplitValue(m, 5.0), SplitsOf(m, [5.0]));
            c == Split(25.0, 0) && !(c.val < 10.0) && c.Value() == 25.0
  {
    SplitOfFive(m);
    var ss := SplitsOf(m, [5.0]);
    assert ss == [Split(5.0, 0)];
    assert ss[..0] == [];
    assert CombineFrom(Split(5.0, 0), ss) == Times(Split(5.0, 0), Split(5.0, 0));
  }

  /**
   * A Converter: the value, stored as a mantissa and an exponent, that
   * `from` and `to` rescale in place.
   */
  class Converter {
    const m: MathFns
    var val: real
    var exp: int

    /** The value getter: val·10^exp. */
    function Value(): real
      reads this
    {
      Split(val, exp).Value()
    }

    /** convert(value), through the value setter. */
    constructor (m: MathFns, value: real)
      requires 0.0 < value
      ensures this.m == m && Split(val, exp) == SplitValue(m, value)
      ensures Log10Laws(m) ==> Value() == value && 1.0 <= val < 10.0
    {
      this.m := m;
      new;
      SetValue(value);
    }

    /** The value setter: the split of the new value; reading it back gives the value. */
    method SetValue(value: real)
      requires 0.0 < value
      modifies this
      ensures Split(val, exp) == SplitValue(m, value)
      ensures Log10Laws(m) ==> Value() == value && 1.0 <= val < 10.0
    {
      var split := SplitValue(m, value);
      val := split.val;
      exp := split.exp;
    }

    /** from: combines the current pair with the split of every unit in turn (FromProduct: the value is multiplied by each). */
    method From(units: seq<real>) returns (self: Converter)
      requires Positive(units)
      modifies this
      ensures self == this
      ensures Split(val, exp) == CombineFrom(old(Split(val, exp)), SplitsOf(m, units))
    {
      var s0 := Split(val, exp);
      var splits := [s0];
      for i := 0 to |units|
        invariant splits == [s0] + SplitsOf(m, units[..i])
      {
        SplitsStep(m, units, i);
        splits := splits + [SplitValue(m, units[i])];
      }
      assert units[..|units|] == units;
      var combination := CombineSplit(splits);
      LeadingPair(s0, SplitsOf(m, units));
      val := combination.val;
      exp := combination.exp;
      self := this;
    }

    /** to: combines the current pair with the split of 1/u for every unit u in turn (ToProduct: the value is divided by each). */
    method To(units: seq<real>) returns (self: Converter)
      requires Positive(units)
      modifies this
      ensures self == this
      ensures Split(val, exp) == CombineFrom(old(Split(val, exp)), InverseSplitsOf(m, units))
    {
      var s0 := Split(val, exp);
      var splits := [s0];
      for i := 0 to |units|
        invariant splits == [s0] + InverseSplitsOf(m, units[..i])
      {
        InverseSplitsStep(m, units, i);
        splits := splits + [SplitValue(m, 1.0 / units[i])];
      }
      assert units[..|units|] == units;
      var combination := CombineSplit(splits);
      LeadingPair(s0, InverseSplitsOf(m, units));
      val := combination.val;
      exp := combination.exp;
      self := this;
    }
  }
}
