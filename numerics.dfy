/** The C# numeric operations the dice code relies on, written out over `int` and `real`:
    the `(int)` cast of a float, the integer and float `%` operators, `Math.Abs`,
    `Math.Min`/`Math.Max`, `Math.Ceiling(Math.Sqrt(n))` on a count, and `Enumerable.Sum`. */
module Numerics {

  function Abs(x: real): (r: real)
    ensures r >= 0.0
    ensures r == x || r == -x
  {
    if x < 0.0 then -x else x
  }

  function Min(a: int, b: int): (r: int)
    ensures r <= a && r <= b
    ensures r == a || r == b
  {
    if a <= b then a else b
  }

  function Max(a: int, b: int): (r: int)
    ensures r >= a && r >= b
    ensures r == a || r == b
  {
    if a >= b then a else b
  }

  /** The `(int)` conversion of a float: truncation toward zero. */
  function Trunc(x: real): (r: int)
    ensures x >= 0.0 ==> r >= 0 && r as real <= x < r as real + 1.0
    ensures x < 0.0 ==> r <= 0 && r as real - 1.0 < x <= r as real
  {
    if x >= 0.0 then x.Floor else -((-x).Floor)
  }

  /** The C# integer remainder `a % b`: the dividend reduced toward zero by whole multiples of |b|
      until its magnitude is below |b|; it keeps the sign of the dividend. */
  function Rem(a: int, b: int): (r: int)
    requires b != 0
    ensures a >= 0 ==> 0 <= r < (if b < 0 then -b else b)
    ensures a < 0 ==> -(if b < 0 then -b else b) < r <= 0
    decreases if a >= 0 then a else -a
  {
    var m := if b < 0 then -b else b;
    if a >= 0 then
      if a < m then a else Rem(a - m, b)
    else
      if -a < m then a else Rem(a + m, b)
  }

  /** The C# integer quotient `a / b`: the number of whole multiples of |b| taken off the dividend
      toward zero, with the sign of a / b. */
  function Quot(a: int, b: int): int
    requires b != 0
    decreases if a >= 0 then a else -a
  {
    var m := if b < 0 then -b else b;
    var sign := if b < 0 then -1 else 1;
    if a >= 0 then
      if a < m then 0 else Quot(a - m, b) + sign
    else
      if -a < m then 0 else Quot(a + m, b) - sign
  }

  /** The remainder is what the truncated quotient leaves: a == b * Quot(a, b) + Rem(a, b). */
  lemma {:induction false} RemQuotient(a: int, b: int)
    requires b != 0
    ensures a == b * Quot(a, b) + Rem(a, b)
    decreases if a >= 0 then a else -a
  {
    var m := if b < 0 then -b else b;
    var sign := if b < 0 then -1 else 1;
    assert b * sign == m;
    if a >= 0 && a >= m {
      RemQuotient(a - m, b);
      assert b * (Quot(a - m, b) + sign) == b * Quot(a - m, b) + b * sign;
    } else if a < 0 && -a >= m {
      RemQuotient(a + m, b);
      assert b * (Quot(a + m, b) - sign) == b * Quot(a + m, b) - b * sign;
    }
  }

  /** The truncated quotient rounds toward zero: it never exceeds the exact quotient in magnitude. */
  lemma {:induction false} QuotTowardZero(a: int, b: int)
    requires b > 0
    ensures a >= 0 ==> 0 <= Quot(a, b) && b * Quot(a, b) <= a
    ensures a < 0 ==> Quot(a, b) <= 0 && a <= b * Quot(a, b)
  {
    RemQuotient(a, b);
  }

  /** The C# float remainder `x % m` (fmod): x minus the truncated quotient times m. */
  function FloatRem(x: real, m: real): (r: real)
    requires m > 0.0
    ensures x >= 0.0 ==> 0.0 <= r < m
  {
    var q := Trunc(x / m);
    if x >= 0.0 then
      FloatRemBounds(x, m, q);
      x - m * q as real
    else
      x - m * q as real
  }

  lemma FloatRemBounds(x: real, m: real, q: int)
    requires x >= 0.0 && m > 0.0
    requires q as real <= x / m < q as real + 1.0
    ensures 0.0 <= x - m * q as real < m
  {
    var d, k := x / m, q as real;
    assert x == m * d;
    calc {
      m * k;
      <= { MulMono(k, d, m); }
      m * d;
      == x;
    }
    calc {
      x;
      == m * d;
      < { MulMonoStrict(d, k + 1.0, m); }
      m * (k + 1.0);
      == m * k + m;
    }
  }

  lemma MulMono(a: real, b: real, m: real)
    requires a <= b && m >= 0.0
    ensures m * a <= m * b
  {
  }

  lemma MulMonoStrict(a: real, b: real, m: real)
    requires a < b && m > 0.0
    ensures m * a < m * b
  {
  }

  /** `(int)Math.Ceiling(Math.Sqrt(n))` for a count n: the least m with m * m >= n. */
  function CeilSqrt(n: nat): (r: nat)
    ensures r * r >= n
    ensures r == 0 || (r - 1) * (r - 1) < n
  {
    CeilSqrtFrom(n, 0)
  }

  function CeilSqrtFrom(n: nat, m: nat): (r: nat)
    requires m == 0 || (m - 1) * (m - 1) < n
    ensures r * r >= n
    ensures r == 0 || (r - 1) * (r - 1) < n
    decreases n - m
  {
    if m * m >= n then m
    else
      CeilSqrtFrom(n, m + 1)
  }

  /** `Enumerable.Sum` over a list of ints. */
  function Sum(s: seq<int>): int {
    if s == [] then 0 else Sum(s[..|s| - 1]) + s[|s| - 1]
  }

  /** Summing a list accumulates element by element, the way a loop adds to a running total. */
  lemma SumPrefix(s: seq<int>, i: nat)
    requires i < |s|
    ensures Sum(s[..i + 1]) == Sum(s[..i]) + s[i]
  {
    assert s[..i + 1][..i] == s[..i];
  }

  lemma {:induction false} SumAppend(a: seq<int>, b: seq<int>)
    ensures Sum(a + b) == Sum(a) + Sum(b)
    decreases |b|
  {
    if b == [] {
      assert a + b == a;
    } else {
      assert (a + b)[..|a + b| - 1] == a + b[..|b| - 1];
      SumAppend(a, b[..|b| - 1]);
    }
  }

  /** A list of n values, each in [lo, hi], sums to a value in [n * lo, n * hi]. */
  lemma {:induction false} SumBounds(s: seq<int>, lo: int, hi: int)
    requires forall k :: 0 <= k < |s| ==> lo <= s[k] <= hi
    ensures |s| * lo <= Sum(s) <= |s| * hi
  {
    if s != [] {
      SumBounds(s[..|s| - 1], lo, hi);
      assert |s| * lo == (|s| - 1) * lo + lo;
      assert |s| * hi == (|s| - 1) * hi + hi;
    }
  }
}
