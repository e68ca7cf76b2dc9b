/** Arithmetic helpers standing for Python's `sum`, `min`, `max` and `round` on the
    model's exact numbers (`int` for counts, `real` for prices and ratios). */
module Numeric {

  /** Python's `min(a, b)`. */
  function Min(a: real, b: real): (r: real)
    ensures r <= a && r <= b && (r == a || r == b)
  {
    if b < a then b else a
  }

  /** Python's `max(a, b)`. */
  function Max(a: real, b: real): (r: real)
    ensures r >= a && r >= b && (r == a || r == b)
  {
    if b > a then b else a
  }

  /** Python's `abs(x)`. */
  function Abs(x: real): (r: real)
    ensures r >= 0.0 && (r == x || r == -x)
  {
    if x < 0.0 then -x else x
  }

  /** `min(1.0, max(0.0, x))`. */
  function Clamp01(x: real): (r: real)
    ensures 0.0 <= r <= 1.0
    ensures 0.0 <= x <= 1.0 ==> r == x
    ensures x < 0.0 ==> r == 0.0
    ensures x > 1.0 ==> r == 1.0
  {
    Min(1.0, Max(0.0, x))
  }

  function Pow10(k: nat): (r: nat)
    ensures r >= 1
  {
    if k == 0 then 1 else 10 * Pow10(k - 1)
  }

  /** The nearest integer to `y`, a tie going to the even neighbour. */
  function RoundHalfEven(y: real): (n: int)
    ensures -0.5 <= n as real - y <= 0.5
    ensures y.Floor as real == y ==> n == y.Floor
    ensures y >= 0.0 ==> n >= 0
    ensures y - y.Floor as real == 0.5 ==> n % 2 == 0
  {
    var f := y.Floor;
    var frac := y - f as real;
    if frac < 0.5 then f
    else if frac > 0.5 then f + 1
    else if f % 2 == 0 then f
    else f + 1
  }

  /** Python's `round(x, digits)` on an exact value: the nearest multiple of
      10^-digits, a tie going to the even one. */
  function Round(x: real, digits: nat): real
  {
    RoundToMultiple(x, Pow10(digits))
  }

  /** The nearest multiple of `1 / scale`, a tie going to the even multiple. */
  function RoundToMultiple(x: real, scale: nat): real
    requires scale >= 1
  {
    RoundHalfEven(x * scale as real) as real / scale as real
  }

  /** `r` is within half a unit of `x` counted in steps of `1 / scale`, is itself a whole
      number of steps, is non-negative when `x` is, and equals `x` when `x` is already a
      whole number of steps. When `x` lies exactly halfway between two steps, `r` is the
      even one. */
  ghost predicate NearestMultiple(x: real, r: real, scale: nat)
  {
    && -0.5 <= r * scale as real - x * scale as real <= 0.5
    && (r * scale as real).Floor as real == r * scale as real
    && (x >= 0.0 ==> r >= 0.0)
    && ((x * scale as real).Floor as real == x * scale as real ==> r == x)
    && (x * scale as real - (x * scale as real).Floor as real == 0.5 ==> (r * scale as real).Floor % 2 == 0)
  }

  /** `round(x, digits)` is the nearest value with `digits` decimals. */
  lemma RoundIsNearest(x: real, digits: nat)
    ensures NearestMultiple(x, Round(x, digits), Pow10(digits))
  {
    RoundToMultipleIsNearest(x, Pow10(digits));
  }

  lemma RoundToMultipleIsNearest(x: real, scale: nat)
    requires scale >= 1
    ensures NearestMultiple(x, RoundToMultiple(x, scale), scale)
  {
    Rescale(x, RoundHalfEven(x * scale as real), scale);
  }

  /** Dividing the integer nearest to `x * scale` by `scale` gives the nearest multiple
      of `1 / scale`. */
  lemma Rescale(x: real, n: int, scale: nat)
    requires scale >= 1
    requires -0.5 <= n as real - x * scale as real <= 0.5
    requires (x * scale as real).Floor as real == x * scale as real ==> n == (x * scale as real).Floor
    requires x >= 0.0 ==> n >= 0
    requires x * scale as real - (x * scale as real).Floor as real == 0.5 ==> n % 2 == 0
    ensures NearestMultiple(x, n as real / scale as real, scale)
  {
    assert (n as real / scale as real) * scale as real == n as real;
    assert (n as real).Floor == n;
    if (x * scale as real).Floor as real == x * scale as real {
      assert n as real == x * scale as real;
    }
  }

  /** Python's `sum` of a list of integers. */
  function Sum(s: seq<int>): int
  {
    if s == [] then 0 else Sum(s[..|s| - 1]) + s[|s| - 1]
  }

  /** Python's `sum` of a list of floats. */
  function RealSum(s: seq<real>): real
  {
    if s == [] then 0.0 else RealSum(s[..|s| - 1]) + s[|s| - 1]
  }

  /** `sum(s) / len(s) if s else 0`. */
  function Mean(s: seq<real>): real
  {
    if s == [] then 0.0 else RealSum(s) / |s| as real
  }

  lemma {:induction false} SumConcat(a: seq<int>, b: seq<int>)
    ensures Sum(a + b) == Sum(a) + Sum(b)
    decreases |b|
  {
    if b != [] {
      assert (a + b)[..|a + b| - 1] == a + b[..|b| - 1];
      SumConcat(a, b[..|b| - 1]);
    } else {
      assert a + b == a;
    }
  }

  lemma {:induction false} SumNonNegative(s: seq<int>)
    requires forall i :: 0 <= i < |s| ==> s[i] >= 0
    ensures Sum(s) >= 0
    decreases |s|
  {
    if s != [] {
      SumNonNegative(s[..|s| - 1]);
    }
  }

  lemma {:induction false} RealSumConcat(a: seq<real>, b: seq<real>)
    ensures RealSum(a + b) == RealSum(a) + RealSum(b)
    decreases |b|
  {
    if b != [] {
      assert (a + b)[..|a + b| - 1] == a + b[..|b| - 1];
      RealSumConcat(a, b[..|b| - 1]);
    } else {
      assert a + b == a;
    }
  }

  lemma {:induction false} RealSumNonNegative(s: seq<real>)
    requires forall i :: 0 <= i < |s| ==> s[i] >= 0.0
    ensures RealSum(s) >= 0.0
    decreases |s|
  {
    if s != [] {
      RealSumNonNegative(s[..|s| - 1]);
    }
  }

  /** A sum of non-negative terms is zero only when every term is. */
  lemma {:induction false} RealSumZero(s: seq<real>)
    requires forall i :: 0 <= i < |s| ==> s[i] >= 0.0
    ensures RealSum(s) == 0.0 <==> forall i :: 0 <= i < |s| ==> s[i] == 0.0
    decreases |s|
  {
    if s != [] {
      var init := s[..|s| - 1];
      RealSumZero(init);
      RealSumNonNegative(init);
      if RealSum(s) == 0.0 {
        forall i | 0 <= i < |s| ensures s[i] == 0.0 {
          if i < |s| - 1 { assert s[i] == init[i]; }
        }
      } else {
        assert forall i :: 0 <= i < |init| ==> init[i] == s[i];
      }
    }
  }

  /** Every term below a bound gives a sum below `n` times the bound. */
  lemma {:induction false} RealSumBelow(s: seq<real>, bound: real)
    requires forall i :: 0 <= i < |s| ==> s[i] < bound
    requires s != []
    ensures RealSum(s) < |s| as real * bound
    decreases |s|
  {
    if |s| > 1 {
      RealSumBelow(s[..|s| - 1], bound);
    }
  }

  lemma {:induction false} RealSumConstant(s: seq<real>, c: real)
    requires forall i :: 0 <= i < |s| ==> s[i] == c
    ensures RealSum(s) == |s| as real * c
    decreases |s|
  {
    if s != [] {
      RealSumConstant(s[..|s| - 1], c);
    }
  }

  /** The mean of non-negative values is non-negative. */
  lemma MeanNonNegative(s: seq<real>)
    requires forall i :: 0 <= i < |s| ==> s[i] >= 0.0
    ensures Mean(s) >= 0.0
  {
    RealSumNonNegative(s);
    if s != [] {
      var n := |s| as real;
      assert RealSum(s) / n >= 0.0;
    }
  }

  /** The mean of a non-empty run of one value is that value. */
  lemma MeanConstant(s: seq<real>, c: real)
    requires s != [] && forall i :: 0 <= i < |s| ==> s[i] == c
    ensures Mean(s) == c
  {
    RealSumConstant(s, c);
    MultipleOverCount(|s| as real, c);
  }

  lemma MultipleOverCount(n: real, c: real)
    requires n > 0.0
    ensures (n * c) / n == c
  {
  }

  /** `x ** 2`. */
  function Square(x: real): real
  {
    x * x
  }

  lemma SquareNonNegative(x: real)
    ensures Square(x) >= 0.0
  {
    if x < 0.0 {
      assert x * x == (-x) * (-x);
    }
  }
}
