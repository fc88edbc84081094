/** Immutable 2D vectors (app/vector/vector.js). */
module Vectors {
  import opened JsMath
  import opened Options

  const Origin := Vector(0.0, 0.0)

  datatype Vector = Vector(x: real, y: real) {

    /** Euclidean length: non-negative, squares to the dot product with itself, zero only at the origin. */
    function Mod(m: MathFns): (r: real)
      ensures SqrtLaws(m) ==> 0.0 <= r && r * r == Dot(this) && (r == 0.0 <==> this == Origin)
    {
      // Math.pow(x, 2) + Math.pow(y, 2)
      LengthFacts(m, this);
      m.sqrt(Dot(this))
    }

    /** Component-wise sum; subtracting `w` again gives back this vector. */
    function Add(w: Vector): (r: Vector)
      ensures r.Subtract(w) == this
    {
      Vector(x + w.x, y + w.y)
    }

    /** Component-wise difference; zero exactly when the two vectors are equal. */
    function Subtract(w: Vector): (r: Vector)
      ensures r == Origin <==> this == w
    {
      Vector(x - w.x, y - w.y)
    }

    /**
     * Scales x by `sx` and y by `sy`; without `sy` the scale is uniform
     * (ScaleAlong shows the result stays on the line through the origin and
     * this vector).
     */
    function Scale(sx: real, sy: Option<real>): Vector {
      var ky := sy.GetOr(sx);
      Vector(sx * x, ky * y)
    }

    /**
     * Rotation by `a` about the origin: given sin² + cos² = 1 it keeps the
     * length (RotateAngle shows it makes angle `a` with this vector).
     */
    function Rotate(m: MathFns, a: real): (r: Vector)
      ensures Pythagoras(m) ==> r.Dot(r) == Dot(this)
    {
      var c, s := m.cos(a), m.sin(a);
      var r := Vector(x * c - y * s, x * s + y * c);
      assert r.Dot(r) == (x * x + y * y) * (s * s + c * c);
      r
    }

    /** The dot product (DotSelfPositive: against itself it is positive off the origin). */
    function Dot(w: Vector): real {
      x * w.x + y * w.y
    }

    /** The z component of the 3D cross product; zero exactly for parallel vectors. */
    function Cross(w: Vector): real {
      x * w.y - y * w.x
    }

    /** The angle between two non-zero vectors lies in [0, π]. */
    function GetAngle(m: MathFns, w: Vector): (r: real)
      requires Mod(m) * w.Mod(m) != 0.0
      ensures AcosLaws(m) ==> 0.0 <= r <= m.pi
    {
      m.acos(Dot(w) / (Mod(m) * w.Mod(m)))
    }

    /** The unit vector in this vector's direction. */
    function Normalise(m: MathFns): (r: Vector)
      requires Mod(m) != 0.0
      ensures SqrtLaws(m) ==> r.Mod(m) == 1.0
      ensures SqrtLaws(m) ==> r.Cross(this) == 0.0 && 0.0 < r.Dot(this)
    {
      var k := 1.0 / Mod(m);
      var r := Scale(k, None);
      UnitLength(m, this, k);
      r
    }

    /** The direction of this vector from the x axis. */
    function GetRotation(m: MathFns): real {
      m.rotationOf(x, y)
    }
  }

  lemma LengthFacts(m: MathFns, v: Vector)
    ensures SqrtLaws(m) ==> var s := m.sqrt(v.Dot(v)); 0.0 <= s && s * s == v.Dot(v) && (s == 0.0 <==> v == Origin)
  {
    if SqrtLaws(m) {
      DotSelfNonNegative(v);
      SqrtZero(m, v.Dot(v));
      if v != Origin {
        DotSelfPositive(v);
      }
    }
  }

  /** v·v is never negative. */
  lemma DotSelfNonNegative(v: Vector)
    ensures 0.0 <= v.Dot(v)
  {
    SquareNonNegative(v.x);
    SquareNonNegative(v.y);
  }

  /** v·v is positive off the origin, so it is zero only there. */
  lemma DotSelfPositive(v: Vector)
    requires v != Origin
    ensures 0.0 < v.Dot(v)
  {
    DotSelfNonNegative(v);
    if v.Dot(v) == 0.0 {
      SumOfSquaresZero(v.x, v.y);
    }
  }

  lemma UnitLength(m: MathFns, v: Vector, k: real)
    requires v.Mod(m) != 0.0 && k == 1.0 / v.Mod(m)
    ensures SqrtLaws(m) ==> v.Scale(k, None).Mod(m) == 1.0
    ensures SqrtLaws(m) ==> v.Scale(k, None).Cross(v) == 0.0 && 0.0 < v.Scale(k, None).Dot(v)
  {
    if SqrtLaws(m) {
      var l := v.Mod(m);
      var r := v.Scale(k, None);
      assert l * l == v.Dot(v);
      assert 0.0 < l;
      assert k * l == 1.0;
      assert r.Dot(r) == (k * k) * v.Dot(v);
      assert (k * k) * (l * l) == (k * l) * (k * l);
      assert r.Dot(r) == 1.0;
      SqrtOfSquare(m, 1.0);
      assert 0.0 < v.Dot(v) by { PositiveProduct(l, l); }
      PositiveProduct(k, v.Dot(v));
    }
  }

  /** Scaling uniformly by k multiplies the length by |k|. */
  lemma ScaleLength(m: MathFns, v: Vector, k: real)
    requires SqrtLaws(m)
    ensures v.Scale(k, None).Mod(m) == (if k < 0.0 then -k else k) * v.Mod(m)
  {
    var r := v.Scale(k, None);
    var n, ak := v.Mod(m), if k < 0.0 then -k else k;
    ScaledSquare(v.x, v.y, k, n, ak);
    ProductNonNegative(ak, n);
    SqrtUnique(m, r.Dot(r), ak * n);
  }

  /** (|k|·n)² = (kx)² + (ky)² when n² = x² + y². */
  lemma ScaledSquare(x: real, y: real, k: real, n: real, ak: real)
    requires n * n == x * x + y * y && ak * ak == k * k
    ensures (ak * n) * (ak * n) == (k * x) * (k * x) + (k * y) * (k * y)
  {
    assert (ak * n) * (ak * n) == (ak * ak) * (n * n);
    assert (k * x) * (k * x) + (k * y) * (k * y) == (k * k) * (x * x + y * y);
  }

  /** Scaling a unit vector by k gives length |k| and dot product k with it. */
  lemma ScaleUnit(m: MathFns, v: Vector, k: real)
    requires SqrtLaws(m) && v.Mod(m) == 1.0
    ensures v.Scale(k, None).Mod(m) == (if k < 0.0 then -k else k)
    ensures v.Scale(k, None).Dot(v) == k
  {
    ScaleLength(m, v, k);
    assert v.Mod(m) * v.Mod(m) == v.Dot(v);
  }

  /** A unit vector is its own normalisation. */
  lemma NormaliseUnit(m: MathFns, v: Vector)
    requires v.Mod(m) == 1.0
    ensures v.Normalise(m) == v
  {
    NormaliseByLength(m, v);
    ScaleByOne(v);
  }

  /** Straight up or straight down is a unit vector already. */
  lemma VerticalUnit(m: MathFns, v: Vector)
    requires SqrtLaws(m) && (v == Vector(0.0, 1.0) || v == Vector(0.0, -1.0))
    ensures v.Mod(m) == 1.0 && v.Normalise(m) == v
  {
    assert v.Dot(v) == 1.0 * 1.0;
    SqrtOfSquare(m, 1.0);
    NormaliseUnit(m, v);
  }

  /** Normalising twice is normalising once. */
  lemma NormaliseIdempotent(m: MathFns, v: Vector)
    requires SqrtLaws(m) && v.Mod(m) != 0.0
    ensures v.Normalise(m).Mod(m) != 0.0 && v.Normalise(m).Normalise(m) == v.Normalise(m)
  {
    NormaliseUnit(m, v.Normalise(m));
  }

  lemma NormaliseByLength(m: MathFns, v: Vector)
    requires v.Mod(m) == 1.0
    ensures v.Normalise(m) == v.Scale(1.0, None)
  {}

  lemma ScaleByOne(v: Vector)
    ensures v.Scale(1.0, None) == v
  {}

  /** Omitting the y scale factor is the same as repeating the x factor. */
  lemma ScaleDefaultsToUniform(v: Vector, k: real)
    ensures v.Scale(k, None) == v.Scale(k, Some(k))
  {}

  /** A rotation keeps the length. */
  lemma RotateKeepsLength(m: MathFns, v: Vector, a: real)
    requires Pythagoras(m)
    ensures v.Rotate(m, a).Mod(m) == v.Mod(m)
  {
    var r := v.Rotate(m, a);
    assert r.Dot(r) == v.Dot(v);
  }

  /** A uniform scale by k stays on the line of v, with dot product k |v|². */
  lemma ScaleAlong(v: Vector, k: real)
    ensures v.Scale(k, None).Cross(v) == 0.0
    ensures v.Scale(k, None).Dot(v) == k * v.Dot(v)
  {
    assert v.Scale(k, None).Cross(v) == (k * v.x) * v.y - (k * v.y) * v.x;
    assert v.Scale(k, None).Dot(v) == (k * v.x) * v.x + (k * v.y) * v.y;
  }

  /**
   * A rotation by `a` makes angle `a` with the vector it turns: its dot and
   * cross products with it are cos a and sin a times the squared length.
   */
  lemma RotateAngle(m: MathFns, v: Vector, a: real)
    ensures v.Dot(v.Rotate(m, a)) == m.cos(a) * v.Dot(v)
    ensures v.Cross(v.Rotate(m, a)) == m.sin(a) * v.Dot(v)
  {
    var c, s := m.cos(a), m.sin(a);
    assert v.Dot(v.Rotate(m, a)) == v.x * (v.x * c - v.y * s) + v.y * (v.x * s + v.y * c);
    assert v.Cross(v.Rotate(m, a)) == v.x * (v.x * s + v.y * c) - v.y * (v.x * c - v.y * s);
  }

  /** Turning two vectors by the same angle keeps their dot and cross products. */
  lemma RotateBoth(m: MathFns, v: Vector, w: Vector, a: real)
    requires Pythagoras(m)
    ensures v.Rotate(m, a).Dot(w.Rotate(m, a)) == v.Dot(w)
    ensures v.Rotate(m, a).Cross(w.Rotate(m, a)) == v.Cross(w)
  {
    var c, s := m.cos(a), m.sin(a);
    assert s * s + c * c == 1.0;
    assert v.Rotate(m, a).Dot(w.Rotate(m, a)) == (v.x * w.x + v.y * w.y) * (s * s + c * c);
    assert v.Rotate(m, a).Cross(w.Rotate(m, a)) == (v.x * w.y - v.y * w.x) * (s * s + c * c);
  }

  /** Read along the turned axes (cos a, sin a) and (-sin a, cos a), a turned vector has its old coordinates. */
  lemma RotateCoordinates(m: MathFns, v: Vector, a: real)
    ensures Pythagoras(m) ==>
              && v.Rotate(m, a).Dot(Vector(m.cos(a), m.sin(a))) == v.x
              && v.Rotate(m, a).Dot(Vector(-m.sin(a), m.cos(a))) == v.y
  {
    if Pythagoras(m) {
      var c, s := m.cos(a), m.sin(a);
      assert s * s + c * c == 1.0;
      assert v.Rotate(m, a).Dot(Vector(c, s)) == v.x * (s * s + c * c);
      assert v.Rotate(m, a).Dot(Vector(-s, c)) == v.y * (s * s + c * c);
    }
  }

  /** A uniform scale by k scales the dot and cross products with any vector by k. */
  lemma ScaleProducts(v: Vector, w: Vector, k: real)
    ensures v.Scale(k, None).Dot(w) == k * v.Dot(w)
    ensures v.Scale(k, None).Cross(w) == k * v.Cross(w)
  {
    assert v.Scale(k, None).Dot(w) == (k * v.x) * w.x + (k * v.y) * w.y;
    assert v.Scale(k, None).Cross(w) == (k * v.x) * w.y - (k * v.y) * w.x;
  }

  /**
   * Normalising a non-zero d and turning it gives a vector that points the
   * way the turned d points, and lies along any turned vector d lies along.
   */
  lemma TurnedAlong(m: MathFns, d: Vector, w: Vector, angle: real)
    requires SqrtLaws(m) && Pythagoras(m) && d != Origin && d.Cross(w) == 0.0
    ensures d.Mod(m) != 0.0
    ensures d.Normalise(m).Rotate(m, angle).Cross(d.Rotate(m, angle)) == 0.0
    ensures 0.0 < d.Normalise(m).Rotate(m, angle).Dot(d.Rotate(m, angle))
    ensures d.Normalise(m).Rotate(m, angle).Cross(w.Rotate(m, angle)) == 0.0
  {
    var u := d.Normalise(m);
    RotateBoth(m, u, d, angle);
    RotateBoth(m, u, w, angle);
    ScaleProducts(d, w, 1.0 / d.Mod(m));
  }

  /** Rotating by zero changes nothing. */
  lemma RotateByZero(m: MathFns, v: Vector)
    requires ZeroLaws(m)
    ensures v.Rotate(m, 0.0) == v
  {}

  /** The dot product is symmetric. */
  lemma DotSymmetric(v: Vector, w: Vector)
    ensures v.Dot(w) == w.Dot(v)
  {}

  lemma AddCommutes(v: Vector, w: Vector)
    ensures v.Add(w) == w.Add(v)
  {}

  lemma AngleSymmetric(m: MathFns, v: Vector, w: Vector)
    requires v.Mod(m) * w.Mod(m) != 0.0
    ensures v.GetAngle(m, w) == w.GetAngle(m, v)
  {
    assert v.Mod(m) * w.Mod(m) == w.Mod(m) * v.Mod(m);
  }
}
