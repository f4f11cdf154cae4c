/**
 * Arithmetic helpers shared by the models: min/max/clamp on reals, the
 * truncation toward zero that C casts and Python's int() perform, and the
 * decimal rounding of Python's round(x, n).
 */
module Numeric {
  function Min(a: real, b: real): real { if a <= b then a else b }

  function Max(a: real, b: real): real { if a >= b then a else b }

  function MinInt(a: int, b: int): int { if a <= b then a else b }

  function MaxInt(a: int, b: int): int { if a >= b then a else b }

  /** Multiplying by a non-negative factor keeps the order. */
  lemma MulMonotone(a: int, b: int, size: int)
    requires a <= b && size >= 0
    ensures a * size <= b * size
  {
    assert b * size - a * size == (b - a) * size;
  }

  /**
   * min(max(x, lo), hi): the clamp of the C engine and NumPy's np.clip.
   * With lo > hi the result is hi, as with np.clip.
   */
  function Clamp(x: real, lo: real, hi: real): (r: real)
    ensures r <= hi
    ensures lo <= hi ==> lo <= r
    ensures lo <= x <= hi ==> r == x
    ensures x < lo && lo <= hi ==> r == lo
    ensures x > hi ==> r == hi
  {
    Min(Max(x, lo), hi)
  }

  /** Truncation toward zero: a C cast from float to an integer, Python's int(x). */
  function Trunc(x: real): (r: int)
    ensures x >= 0.0 ==> r as real <= x < r as real + 1.0
    ensures x < 0.0 ==> r as real - 1.0 < x <= r as real
  {
    if x >= 0.0 then x.Floor else -((-x).Floor)
  }

  /** Truncation never leaves an interval whose ends are integers. */
  lemma TruncWithin(x: real, lo: int, hi: int)
    requires lo as real <= x <= hi as real
    ensures lo <= Trunc(x) <= hi
  {
  }

  function Pow10(d: nat): (p: nat)
    ensures p >= 1
  {
    if d == 0 then 1 else 10 * Pow10(d - 1)
  }

  /**
   * Python's round(x, d) taken on the exact real value: the nearest multiple
   * of 10^-d, ties to the even multiple.
   */
  function RoundHalfEven(x: real, d: nat): real
  {
    RoundAt(x, Pow10(d) as real)
  }

  /** The nearest multiple of 1/p, ties to the even multiple. */
  function RoundAt(x: real, p: real): real
    requires p > 0.0
  {
    RoundedUnits(x * p) as real / p
  }

  /** The integer nearest to s, ties to even. */
  function RoundedUnits(s: real): int
  {
    var f := s.Floor;
    var frac := s - f as real;
    if frac < 0.5 then f
    else if frac > 0.5 then f + 1
    else if f % 2 == 0 then f
    else f + 1
  }

  lemma RoundedUnitsClose(s: real)
    ensures -0.5 <= RoundedUnits(s) as real - s <= 0.5
  {
  }

  /** Rounding to d decimals moves a value by at most half a unit of the last place. */
  lemma RoundClose(x: real, d: nat)
    ensures -0.5 <= (RoundHalfEven(x, d) - x) * Pow10(d) as real <= 0.5
  {
    RoundAtClose(x, Pow10(d) as real);
  }

  lemma RoundAtClose(x: real, p: real)
    requires p > 0.0
    ensures -0.5 <= (RoundAt(x, p) - x) * p <= 0.5
  {
    RoundedUnitsClose(x * p);
    ScaledError(RoundedUnits(x * p) as real, x, p);
  }

  lemma ScaledError(n: real, x: real, p: real)
    requires p > 0.0 && -0.5 <= n - x * p <= 0.5
    ensures -0.5 <= (n / p - x) * p <= 0.5
  {
    DivThenMul(n, p);
    assert (n / p - x) * p == (n / p) * p - x * p;
  }

  lemma DivThenMul(n: real, p: real)
    requires p > 0.0
    ensures (n / p) * p == n
  {
  }

  lemma ScaleUnit(x: real, p: real)
    requires 0.0 <= x <= 1.0 && p >= 0.0
    ensures 0.0 <= x * p <= p
  {
  }

  lemma QuotientUnit(n: real, p: real)
    requires 0.0 <= n <= p && p > 0.0
    ensures 0.0 <= n / p <= 1.0
  {
  }

  /** Rounding keeps a value inside [0, 1] (both ends are representable). */
  lemma RoundUnitInterval(x: real, d: nat)
    requires 0.0 <= x <= 1.0
    ensures 0.0 <= RoundHalfEven(x, d) <= 1.0
  {
    RoundAtUnit(x, Pow10(d));
  }

  lemma RoundAtUnit(x: real, m: nat)
    requires 0.0 <= x <= 1.0 && m >= 1
    ensures 0.0 <= RoundAt(x, m as real) <= 1.0
  {
    var s := x * m as real;
    ScaleUnit(x, m as real);
    UnitsWithin(s, m);
    QuotientUnit(RoundedUnits(s) as real, m as real);
  }

  /** The nearest integer of a value in [0, m] lies in [0, m] for integer m. */
  lemma UnitsWithin(s: real, m: nat)
    requires 0.0 <= s <= m as real
    ensures 0 <= RoundedUnits(s) <= m
  {
    var f := s.Floor;
    if f == m {
      assert s == m as real;
    }
  }

  /** Rounding never lifts a value at most 1 above 1. */
  lemma RoundAtMostOne(x: real, d: nat)
    requires x <= 1.0
    ensures RoundHalfEven(x, d) <= 1.0
  {
    RoundAtAtMostOne(x, Pow10(d) as real);
  }

  lemma RoundAtAtMostOne(x: real, p: real)
    requires x <= 1.0 && p >= 1.0 && p.Floor as real == p
    ensures RoundAt(x, p) <= 1.0
  {
    var s := x * p;
    ScaleAtMost(x, p);
    UnitsAtMost(s, p.Floor);
    QuotientAtMostOne(RoundedUnits(s) as real, p);
  }

  lemma ScaleAtMost(x: real, p: real)
    requires x <= 1.0 && p >= 0.0
    ensures x * p <= p
  {
    assert p - x * p == (1.0 - x) * p;
  }

  lemma QuotientAtMostOne(n: real, p: real)
    requires n <= p && p > 0.0
    ensures n / p <= 1.0
  {
  }

  /** The nearest integer of a value at most the integer m is at most m. */
  lemma UnitsAtMost(s: real, m: int)
    requires s <= m as real
    ensures RoundedUnits(s) <= m
  {
    if s.Floor == m {
      assert s == m as real;
    }
  }

  /** Rounding keeps a value non-negative. */
  lemma RoundNonNegative(x: real, d: nat)
    requires 0.0 <= x
    ensures 0.0 <= RoundHalfEven(x, d)
  {
    RoundAtNonNegative(x, Pow10(d) as real);
  }

  lemma RoundAtNonNegative(x: real, p: real)
    requires 0.0 <= x && p > 0.0
    ensures 0.0 <= RoundAt(x, p)
  {
    assert 0.0 <= x * p;
    assert 0 <= RoundedUnits(x * p);
  }

  /** The sum of a sequence, added from the left as an accumulating loop does. */
  function Sum(s: seq<real>): real
  {
    if |s| == 0 then 0.0 else Sum(s[..|s| - 1]) + s[|s| - 1]
  }

  /** Extending a prefix by one element adds that element to the sum. */
  lemma SumPrefixStep(s: seq<real>, i: nat)
    requires i < |s|
    ensures Sum(s[..i + 1]) == Sum(s[..i]) + s[i]
  {
    assert s[..i + 1][..i] == s[..i];
  }

  /** Writing v over a zero entry adds v to the sum. */
  lemma {:induction false} SumOverwriteZero(s: seq<real>, i: nat, v: real)
    requires i < |s| && s[i] == 0.0
    ensures Sum(s[i := v]) == Sum(s) + v
    decreases |s|
  {
    var t := s[i := v];
    if i < |s| - 1 {
      assert t[..|t| - 1] == s[..|s| - 1][i := v];
      SumOverwriteZero(s[..|s| - 1], i, v);
    } else {
      assert t[..|t| - 1] == s[..|s| - 1];
    }
  }

  /** n times the mean of n values gives back their total. */
  lemma CountTimesMean(total: real, n: nat)
    requires n >= 1
    ensures n as real * (total / n as real) == total
  {
  }

  /** n copies of x added up. */
  function Repeat(x: real, n: nat): real
  {
    if n == 0 then 0.0 else Repeat(x, n - 1) + x
  }

  lemma {:induction false} RepeatIsProduct(x: real, n: nat)
    ensures Repeat(x, n) == n as real * x
  {
    if n > 0 {
      RepeatIsProduct(x, n - 1);
    }
  }

  /** The mean of n copies of x is x. */
  lemma RepeatMean(x: real, n: nat)
    requires n >= 1
    ensures Repeat(x, n) / n as real == x
  {
    RepeatIsProduct(x, n);
  }

  /** A total in [0, hi * n] over n values gives a mean in [0, hi]. */
  lemma MeanWithin(total: real, n: nat, hi: real)
    requires n >= 1 && 0.0 <= total <= hi * n as real
    ensures 0.0 <= total / n as real <= hi
  {
    var q := total / n as real;
    assert q * n as real == total;
  }

  lemma {:induction false} SumOfZeros(s: seq<real>)
    requires forall i :: 0 <= i < |s| ==> s[i] == 0.0
    ensures Sum(s) == 0.0
    decreases |s|
  {
    if |s| > 0 {
      SumOfZeros(s[..|s| - 1]);
    }
  }

  /** Values of at least lo sum to at least |s| lo. */
  lemma {:induction false} SumAtLeast(s: seq<real>, lo: real)
    requires forall i :: 0 <= i < |s| ==> lo <= s[i]
    ensures lo * |s| as real <= Sum(s)
    decreases |s|
  {
    if |s| > 0 {
      var init := s[..|s| - 1];
      assert forall i :: 0 <= i < |init| ==> init[i] == s[i];
      SumAtLeast(init, lo);
      assert lo * |s| as real == lo * |init| as real + lo;
    }
  }

  /** Values of at most hi sum to at most |s| hi. */
  lemma {:induction false} SumAtMost(s: seq<real>, hi: real)
    requires forall i :: 0 <= i < |s| ==> s[i] <= hi
    ensures Sum(s) <= hi * |s| as real
    decreases |s|
  {
    if |s| > 0 {
      var init := s[..|s| - 1];
      assert forall i :: 0 <= i < |init| ==> init[i] == s[i];
      SumAtMost(init, hi);
      assert hi * |s| as real == hi * |init| as real + hi;
    }
  }
}
