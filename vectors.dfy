/** Three-component vectors of the dice simulation, as immutable values over the reals.
    Single-precision floats are modelled as `real`; the square root behind `Length`
    is represented by a length `len` that satisfies IsLength. */
module Vectors {

  datatype Vector3D = Vector3D(x: real, y: real, z: real)

  /** The vector built by the parameterless constructor. */
  const Zero: Vector3D := Vector3D(0.0, 0.0, 0.0)

  /** operator + */
  function Add(a: Vector3D, b: Vector3D): Vector3D {
    Vector3D(a.x + b.x, a.y + b.y, a.z + b.z)
  }

  /** operator - */
  function Sub(a: Vector3D, b: Vector3D): Vector3D {
    Vector3D(a.x - b.x, a.y - b.y, a.z - b.z)
  }

  /** operator * (vector times scalar) */
  function Scale(v: Vector3D, s: real): Vector3D {
    Vector3D(v.x * s, v.y * s, v.z * s)
  }

  function Dot(a: Vector3D, b: Vector3D): real {
    a.x * b.x + a.y * b.y + a.z * b.z
  }

  // Facts about real products, each stated over distinct variables so that the solver
  // handles squares through them rather than on its own.

  lemma MulPositive(a: real, b: real)
    requires a > 0.0 && b > 0.0
    ensures a * b > 0.0
  {
  }

  lemma ProductPositive(a: real, b: real, p: real)
    requires a > 0.0 && b > 0.0 && p == a * b
    ensures p > 0.0
  {
    MulPositive(a, b);
  }

  lemma SquareNonNegative(r: real)
    ensures r * r >= 0.0
    ensures r != 0.0 ==> r * r > 0.0
  {
    if r < 0.0 {
      MulPositive(-r, -r);
      assert r * r == (-r) * (-r);
    } else if r > 0.0 {
      MulPositive(r, r);
    }
  }

  lemma MulLe(c: real, d: real, a: real)
    requires c <= d && a >= 0.0
    ensures a * c <= a * d
  {
  }

  lemma MulLt(a: real, b: real, d: real)
    requires a < b && d > 0.0
    ensures a * d < b * d
  {
  }

  lemma MulStrict(a: real, b: real, c: real, d: real)
    requires 0.0 <= a < b && 0.0 <= c < d
    ensures a * c < b * d
  {
    assert a * c <= a * d by { MulLe(c, d, a); }
    assert a * d < b * d by { MulLt(a, b, d); }
  }

  lemma MulLeBoth(a: real, b: real, c: real, d: real)
    requires 0.0 <= a <= b && 0.0 <= c <= d
    ensures a * c <= b * d
  {
    assert a * c <= a * d by { MulLe(c, d, a); }
    assert a * d <= b * d by { MulLe(a, b, d); }
  }

  /** A sum of three squares is positive as soon as its first term is non-zero. */
  lemma FirstSquarePositive(x: real, y: real, z: real)
    requires x != 0.0
    ensures x * x + y * y + z * z > 0.0
  {
    SquareNonNegative(x);
    SquareNonNegative(y);
    SquareNonNegative(z);
  }

  lemma SumOfSquaresNonNegative(x: real, y: real, z: real)
    ensures x * x + y * y + z * z >= 0.0
  {
    SquareNonNegative(x);
    SquareNonNegative(y);
    SquareNonNegative(z);
  }

  lemma SumOfSquaresPositive(x: real, y: real, z: real)
    requires !(x == 0.0 && y == 0.0 && z == 0.0)
    ensures x * x + y * y + z * z > 0.0
  {
    if x != 0.0 {
      FirstSquarePositive(x, y, z);
    } else if y != 0.0 {
      FirstSquarePositive(y, z, x);
      assert y * y + z * z + x * x == x * x + y * y + z * z;
    } else {
      FirstSquarePositive(z, x, y);
      assert z * z + x * x + y * y == x * x + y * y + z * z;
    }
  }

  /** The quantity under the square root of `Length`. */
  function LengthSquared(v: Vector3D): real {
    v.x * v.x + v.y * v.y + v.z * v.z
  }

  lemma LengthSquaredNonNegative(v: Vector3D)
    ensures LengthSquared(v) >= 0.0
  {
    calc {
      LengthSquared(v);
      == v.x * v.x + v.y * v.y + v.z * v.z;
      >= { SumOfSquaresNonNegative(v.x, v.y, v.z); } 0.0;
    }
  }

  lemma LengthSquaredPositive(v: Vector3D)
    requires v != Zero
    ensures LengthSquared(v) > 0.0
  {
    calc {
      LengthSquared(v);
      == v.x * v.x + v.y * v.y + v.z * v.z;
      > { SumOfSquaresPositive(v.x, v.y, v.z); } 0.0;
    }
  }

  /** The squared length is non-negative, and zero exactly for the zero vector. */
  lemma LengthSquaredZeroIff(v: Vector3D)
    ensures LengthSquared(v) >= 0.0
    ensures LengthSquared(v) == 0.0 <==> v == Zero
  {
    LengthSquaredNonNegative(v);
    if v != Zero {
      LengthSquaredPositive(v);
    }
  }

  /** `len` is the value `Length` takes on `v`: the non-negative square root of its squared length. */
  ghost predicate IsLength(v: Vector3D, len: real) {
    len >= 0.0 && len * len == LengthSquared(v)
  }

  /** Over the reals, (a - b) + b gives back a, component by component. */
  lemma SubAddCancel(a: Vector3D, b: Vector3D)
    ensures Add(Sub(a, b), b) == a
    ensures Sub(Add(a, b), b) == a
  {
  }

  lemma AddCommutes(a: Vector3D, b: Vector3D)
    ensures Add(a, b) == Add(b, a)
  {
  }

  /** Scaling by one keeps the vector, scaling by zero gives the zero vector. */
  lemma ScaleIdentities(v: Vector3D)
    ensures Scale(v, 1.0) == v
    ensures Scale(v, 0.0) == Zero
  {
  }

  /** Scaling twice is scaling by the product. */
  lemma ScaleScale(v: Vector3D, s: real, t: real)
    ensures Scale(Scale(v, s), t) == Scale(v, s * t)
  {
  }

  /** Length is non-negative and is zero exactly for the zero vector. */
  lemma LengthZeroIff(v: Vector3D, len: real)
    requires IsLength(v, len)
    ensures len >= 0.0
    ensures len == 0.0 <==> v == Zero
  {
    LengthSquaredZeroIff(v);
    if len > 0.0 {
      ProductPositive(len, len, LengthSquared(v));
    }
  }

  /** A test `Length < k` with a positive bound is the same as the test `LengthSquared < k * k`. */
  lemma LengthBelow(v: Vector3D, len: real, k: real)
    requires IsLength(v, len)
    requires k > 0.0
    ensures len < k <==> LengthSquared(v) < k * k
  {
    if len < k {
      MulStrict(len, k, len, k);
    } else {
      MulLeBoth(k, len, k, len);
    }
  }

  /** Dot is symmetric, and the dot product of a vector with itself is its squared length. */
  lemma DotProperties(a: Vector3D, b: Vector3D)
    ensures Dot(a, b) == Dot(b, a)
    ensures Dot(a, a) == LengthSquared(a)
  {
  }

  /** Normalize: divides by the length when it is positive, otherwise returns the zero vector. */
  function Normalize(v: Vector3D, len: real): (r: Vector3D)
    requires IsLength(v, len)
  {
    if len > 0.0 then Vector3D(v.x / len, v.y / len, v.z / len) else Vector3D(0.0, 0.0, 0.0)
  }

  /** Normalize of the zero vector is the zero vector; no division happens. */
  lemma NormalizeZero(len: real)
    requires IsLength(Zero, len)
    ensures Normalize(Zero, len) == Zero
  {
    LengthZeroIff(Zero, len);
  }

  /** Normalize of a non-zero vector is a positive multiple of it, of unit length. */
  lemma NormalizeNonZero(v: Vector3D, len: real)
    requires IsLength(v, len)
    requires v != Zero
    ensures len > 0.0
    ensures Normalize(v, len) == Scale(v, 1.0 / len)
    ensures LengthSquared(Normalize(v, len)) == 1.0
  {
    LengthZeroIff(v, len);
    QuotientsScale(v, len);
    QuotientsUnit(v, len);
  }

  /** Dividing each component by d is scaling by 1 / d. */
  lemma QuotientsScale(v: Vector3D, d: real)
    requires d > 0.0
    ensures Vector3D(v.x / d, v.y / d, v.z / d) == Scale(v, 1.0 / d)
  {
    QuotientIsProduct(v.x, d);
    QuotientIsProduct(v.y, d);
    QuotientIsProduct(v.z, d);
  }

  /** Divided by its length, a vector has squared length 1. */
  lemma QuotientsUnit(v: Vector3D, len: real)
    requires len > 0.0 && len * len == LengthSquared(v)
    ensures LengthSquared(Vector3D(v.x / len, v.y / len, v.z / len)) == 1.0
  {
    QuotientSquare(v.x, len);
    QuotientSquare(v.y, len);
    QuotientSquare(v.z, len);
    ProductPositive(len, len, len * len);
    SumOverSquare(v.x * v.x, v.y * v.y, v.z * v.z, len * len);
  }

  lemma QuotientIsProduct(a: real, d: real)
    requires d > 0.0
    ensures a / d == a * (1.0 / d)
  {
  }

  lemma QuotientSquare(a: real, d: real)
    requires d > 0.0
    ensures (a / d) * (a / d) == (a * a) / (d * d)
  {
    QuotientIsProduct(a, d);
  }

  lemma SumOverSquare(p: real, q: real, r: real, s: real)
    requires s > 0.0 && p + q + r == s
    ensures p / s + q / s + r / s == 1.0
  {
  }
}
