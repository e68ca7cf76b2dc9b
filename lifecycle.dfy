/**
 * The lifecycle analyzer: the date-sorted history is cut into windows of 90
 * consecutive records ("quarters"), whose sales give growth rates, their volatility
 * and the market saturation; prices and returns give the competitive pressure; these
 * yield a stage, the days spent in it and a transition risk.
 */
module Lifecycle {
  import opened Wrappers
  import opened Numeric
  import opened PyText
  import opened Dates
  import opened History
  import Grouping

  /** The number of records in one window ("quarter"). */
  const QuarterLength: nat := 90

  // ---------------------------------------------------------------------------
  // sorted(product['history'], key=lambda x: x['date'])
  // ---------------------------------------------------------------------------

  /** `a` may come before `b` in the sorted history: `b['date'] < a['date']` is false. */
  predicate DateLe(a: SalesRecord, b: SalesRecord)
  {
    !StrLess(b.date, a.date)
  }

  predicate SortedByDate(h: seq<SalesRecord>)
  {
    forall i, j :: 0 <= i < j < |h| ==> DateLe(h[i], h[j])
  }

  /** Places `x` after every record whose date is not greater than its own. */
  function InsertByDate(x: SalesRecord, s: seq<SalesRecord>): seq<SalesRecord>
  {
    if s == [] then [x]
    else if StrLess(x.date, s[0].date) then [x] + s
    else [s[0]] + InsertByDate(x, s[1..])
  }

  /** Python's stable `sorted` by the raw `date` string: records are inserted in their
      original order, each after the equal dates already placed. */
  function SortByDate(h: seq<SalesRecord>): (s: seq<SalesRecord>)
    ensures SortedByDate(s)
    ensures multiset(s) == multiset(h)
  {
    if h == [] then []
    else
      var init := h[..|h| - 1];
      var s := SortByDate(init);
      InsertSorted(h[|h| - 1], s);
      Grouping.SplitLast(h);
      InsertByDate(h[|h| - 1], s)
  }

  lemma DateLeTransitive(a: SalesRecord, b: SalesRecord, c: SalesRecord)
    requires DateLe(a, b) && DateLe(b, c)
    ensures DateLe(a, c)
  {
    if StrLess(c.date, a.date) {
      StrLessTotal(c.date, b.date);
      if StrLess(b.date, c.date) {
        StrLessTransitive(b.date, c.date, a.date);
      }
    }
  }

  lemma {:induction false} InsertPermutes(x: SalesRecord, s: seq<SalesRecord>)
    ensures multiset(InsertByDate(x, s)) == multiset(s) + multiset{x}
    decreases |s|
  {
    if s != [] && !StrLess(x.date, s[0].date) {
      InsertPermutes(x, s[1..]);
      assert s == [s[0]] + s[1..];
    }
  }

  lemma {:induction false} InsertSorted(x: SalesRecord, s: seq<SalesRecord>)
    requires SortedByDate(s)
    ensures SortedByDate(InsertByDate(x, s))
    ensures multiset(InsertByDate(x, s)) == multiset(s) + multiset{x}
    decreases |s|
  {
    InsertPermutes(x, s);
    if s == [] {
    } else if StrLess(x.date, s[0].date) {
      assert DateLe(x, s[0]) by { StrLessIrreflexiveAsym(x.date, s[0].date); }
      PrependSorted(x, s);
    } else {
      var rest := InsertByDate(x, s[1..]);
      InsertSorted(x, s[1..]);
      assert DateLe(s[0], x) by { StrLessTotal(x.date, s[0].date); }
      forall j | 0 <= j < |rest| ensures DateLe(s[0], rest[j]) {
        var e := rest[j];
        assert e in multiset(rest);
        assert e == x || e in s[1..];
      }
      PrependSorted(s[0], rest);
    }
  }

  /** A record not after the first of a sorted list, nor (by transitivity) after any. */
  lemma PrependSorted(x: SalesRecord, s: seq<SalesRecord>)
    requires SortedByDate(s)
    requires s != [] ==> DateLe(x, s[0])
    ensures SortedByDate([x] + s)
  {
    var r := [x] + s;
    forall i, j | 0 <= i < j < |r| ensures DateLe(r[i], r[j]) {
      if i == 0 && j > 1 {
        DateLeTransitive(x, s[0], s[j - 1]);
      }
    }
  }

  /** `a < b` and `b < a` exclude each other. */
  lemma StrLessIrreflexiveAsym(a: string, b: string)
    requires StrLess(a, b)
    ensures !StrLess(b, a)
  {
    if StrLess(b, a) {
      StrLessTransitive(a, b, a);
      StrLessIrreflexive(a);
    }
  }

  // ---------------------------------------------------------------------------
  // Quarters and growth rates
  // ---------------------------------------------------------------------------

  /** The sales of each window of 90 consecutive records; the last window holds what is left. */
  function QuarterSums(h: seq<SalesRecord>): seq<int>
    decreases |h|
  {
    if h == [] then []
    else if |h| <= QuarterLength then [TotalSales(h)]
    else [TotalSales(h[..QuarterLength])] + QuarterSums(h[QuarterLength..])
  }

  /** The loop over `range(0, len(history), 90)`, summing `history[i:i+90]`. */
  method ComputeQuarters(h: seq<SalesRecord>) returns (quarters: seq<int>)
    ensures quarters == QuarterSums(h)
  {
    quarters := [];
    var i := 0;
    assert h[0..] == h;
    while i < |h|
      invariant 0 <= i
      invariant i < |h| ==> QuarterSums(h) == quarters + QuarterSums(h[i..])
      invariant i >= |h| ==> QuarterSums(h) == quarters
      decreases |h| - i
    {
      var stop := if i + QuarterLength <= |h| then i + QuarterLength else |h|;
      QuarterStep(h, i);
      ghost var rest := if i + QuarterLength < |h| then QuarterSums(h[i + QuarterLength..]) else [];
      assert quarters + ([TotalSales(h[i..stop])] + rest) == quarters + [TotalSales(h[i..stop])] + rest;
      quarters := quarters + [TotalSales(h[i..stop])];
      i := i + QuarterLength;
    }
  }

  /** The quarters from record `i` on: the window of ninety records there, then the quarters
      from record `i + 90` on, if any records remain. */
  lemma QuarterStep(h: seq<SalesRecord>, i: nat)
    requires i < |h|
    ensures var stop := if i + QuarterLength <= |h| then i + QuarterLength else |h|;
      QuarterSums(h[i..]) == [TotalSales(h[i..stop])]
        + (if i + QuarterLength < |h| then QuarterSums(h[i + QuarterLength..]) else [])
  {
    var rest := h[i..];
    if |rest| <= QuarterLength {
      assert rest == h[i..|h|];
    } else {
      assert rest[..QuarterLength] == h[i..i + QuarterLength];
      assert rest[QuarterLength..] == h[i + QuarterLength..];
    }
  }

  lemma {:induction false} QuarterCount(h: seq<SalesRecord>)
    ensures |QuarterSums(h)| == (|h| + QuarterLength - 1) / QuarterLength
    decreases |h|
  {
    if |h| > QuarterLength {
      QuarterCount(h[QuarterLength..]);
    }
  }

  /** The records `history[start:start + 90]`: ninety of them, or fewer at the end. */
  function QuarterWindow(h: seq<SalesRecord>, start: nat): (w: seq<SalesRecord>)
    requires start <= |h|
    ensures |w| <= QuarterLength
  {
    if start + QuarterLength <= |h| then h[start..start + QuarterLength] else h[start..]
  }

  /** Quarter `k` is the sales of the window starting at record `90k`. */
  lemma {:induction false} QuarterIsWindow(h: seq<SalesRecord>, k: nat)
    requires k < |QuarterSums(h)|
    ensures k * QuarterLength < |h|
    ensures QuarterSums(h)[k] == TotalSales(QuarterWindow(h, k * QuarterLength))
    decreases |h|
  {
    if k == 0 {
      if |h| <= QuarterLength {
        assert QuarterWindow(h, 0) == h;
      } else {
        assert QuarterWindow(h, 0) == h[..QuarterLength];
      }
    } else {
      var rest := h[QuarterLength..];
      assert |h| > QuarterLength && k - 1 < |QuarterSums(rest)|
          && QuarterSums(h)[k] == QuarterSums(rest)[k - 1] by {
        if |h| > QuarterLength {
          assert QuarterSums(h) == [TotalSales(h[..QuarterLength])] + QuarterSums(rest);
        }
      }
      QuarterIsWindow(rest, k - 1);
      NextQuarterStart(k);
      WindowShift(h, (k - 1) * QuarterLength);
    }
  }

  /** Dropping the first quarter shifts every later window by ninety records. */
  lemma WindowShift(h: seq<SalesRecord>, lo: nat)
    requires QuarterLength + lo <= |h|
    ensures QuarterWindow(h[QuarterLength..], lo) == QuarterWindow(h, lo + QuarterLength)
  {
  }

  lemma NextQuarterStart(k: nat)
    requires k > 0
    ensures k * QuarterLength == (k - 1) * QuarterLength + QuarterLength
  {
  }

  /** The quarters partition the history: together they hold every sale. */
  lemma {:induction false} QuartersHoldAllSales(h: seq<SalesRecord>)
    ensures Sum(QuarterSums(h)) == TotalSales(h)
    decreases |h|
  {
    if h == [] {
    } else if |h| <= QuarterLength {
      assert QuarterSums(h) == [] + [TotalSales(h)];
    } else {
      var rest := h[QuarterLength..];
      QuartersHoldAllSales(rest);
      SumConcat([TotalSales(h[..QuarterLength])], QuarterSums(rest));
      assert Sum([TotalSales(h[..QuarterLength])]) == TotalSales(h[..QuarterLength]) by {
        assert [TotalSales(h[..QuarterLength])] == [] + [TotalSales(h[..QuarterLength])];
      }
      assert h == h[..QuarterLength] + rest;
      TotalSalesConcat(h[..QuarterLength], rest);
    }
  }

  lemma {:induction false} QuartersNonNegative(h: seq<SalesRecord>)
    requires NonNegativeSales(h)
    ensures forall k :: 0 <= k < |QuarterSums(h)| ==> QuarterSums(h)[k] >= 0
    decreases |h|
  {
    if h == [] {
    } else if |h| <= QuarterLength {
      TotalSalesNonNegative(h);
    } else {
      TotalSalesNonNegative(h[..QuarterLength]);
      QuartersNonNegative(h[QuarterLength..]);
    }
  }

  /** The change from quarter `i` to `i + 1`, relative to quarter `i`. */
  function Change(before: int, after: int): real
    requires before != 0
  {
    (after - before) as real / before as real
  }

  /** One growth rate per pair of consecutive quarters whose earlier quarter is positive. */
  function GrowthRates(q: seq<int>): seq<real>
    decreases |q|
  {
    if |q| < 2 then []
    else (if q[0] > 0 then [Change(q[0], q[1])] else []) + GrowthRates(q[1..])
  }

  /** The loop over `range(1, len(quarters))` that skips a non-positive previous quarter. */
  method ComputeGrowthRates(q: seq<int>) returns (rates: seq<real>)
    ensures rates == GrowthRates(q)
  {
    rates := [];
    if |q| == 0 {
      return;
    }
    var i := 1;
    while i < |q|
      invariant 1 <= i <= |q|
      invariant GrowthRates(q) == rates + GrowthRates(q[i - 1..])
    {
      GrowthStep(q, i);
      ghost var tail := GrowthRates(q[i..]);
      if q[i - 1] > 0 {
        var rate := Change(q[i - 1], q[i]);
        assert rates + ([rate] + tail) == rates + [rate] + tail;
        rates := rates + [rate];
      } else {
        assert [] + tail == tail;
      }
      i := i + 1;
    }
  }

  /** The rates from quarter `i - 1` on: that quarter's change, when it sold, then the rates
      from quarter `i` on. */
  lemma GrowthStep(q: seq<int>, i: nat)
    requires 1 <= i < |q|
    ensures GrowthRates(q[i - 1..])
      == (if q[i - 1] > 0 then [Change(q[i - 1], q[i])] else []) + GrowthRates(q[i..])
  {
    assert q[i - 1..][1..] == q[i..];
  }

  /** The number of steps `i -> i + 1` whose earlier quarter sold something, counted from
      the last step back. */
  function PositiveSteps(q: seq<int>): nat
    decreases |q|
  {
    if |q| < 2 then 0
    else PositiveSteps(q[..|q| - 1]) + (if q[|q| - 2] > 0 then 1 else 0)
  }

  /** The same count taken from the first step on. */
  lemma {:induction false} PositiveStepsFront(q: seq<int>)
    requires |q| >= 2
    ensures PositiveSteps(q) == (if q[0] > 0 then 1 else 0) + PositiveSteps(q[1..])
    decreases |q|
  {
    var n := |q|;
    if n > 2 {
      PositiveStepsFront(q[..n - 1]);
      assert q[..n - 1][1..] == q[1..][..n - 2];
    }
  }

  /** Each growth rate is the change between two consecutive quarters the earlier of which is
      positive; every such pair gives its rate, and there is exactly one rate per such pair. */
  lemma GrowthRatesFromPositiveQuarters(q: seq<int>)
    ensures |GrowthRates(q)| == PositiveSteps(q) <= if |q| < 2 then 0 else |q| - 1
    ensures forall j :: 0 <= j < |GrowthRates(q)| ==>
      exists i :: 0 <= i < |q| - 1 && q[i] > 0 && GrowthRates(q)[j] == Change(q[i], q[i + 1])
    ensures forall i :: 0 <= i < |q| - 1 && q[i] > 0 ==> Change(q[i], q[i + 1]) in GrowthRates(q)
  {
    GrowthRatesCount(q);
    GrowthRatesSound(q);
    GrowthRatesComplete(q);
  }

  lemma {:induction false} GrowthRatesCount(q: seq<int>)
    ensures |GrowthRates(q)| == PositiveSteps(q) <= if |q| < 2 then 0 else |q| - 1
    decreases |q|
  {
    if |q| >= 2 {
      GrowthRatesCount(q[1..]);
      PositiveStepsFront(q);
    }
  }

  lemma {:induction false} GrowthRatesSound(q: seq<int>)
    ensures forall j :: 0 <= j < |GrowthRates(q)| ==>
      exists i :: 0 <= i < |q| - 1 && q[i] > 0 && GrowthRates(q)[j] == Change(q[i], q[i + 1])
    decreases |q|
  {
    if |q| >= 2 {
      var rest := q[1..];
      GrowthRatesSound(rest);
      var head := if q[0] > 0 then [Change(q[0], q[1])] else [];
      var g := GrowthRates(q);
      assert g == head + GrowthRates(rest);
      forall j | 0 <= j < |g|
        ensures exists i :: 0 <= i < |q| - 1 && q[i] > 0 && g[j] == Change(q[i], q[i + 1])
      {
        if j < |head| {
          assert q[0] > 0 && g[j] == Change(q[0], q[1]);
        } else {
          assert g[j] == GrowthRates(rest)[j - |head|];
          var i :| 0 <= i < |rest| - 1 && rest[i] > 0
                   && GrowthRates(rest)[j - |head|] == Change(rest[i], rest[i + 1]);
          assert q[i + 1] > 0 && g[j] == Change(q[i + 1], q[i + 2]);
        }
      }
    } else {
      assert GrowthRates(q) == [];
    }
  }

  lemma {:induction false} GrowthRatesComplete(q: seq<int>)
    ensures forall i :: 0 <= i < |q| - 1 && q[i] > 0 ==> Change(q[i], q[i + 1]) in GrowthRates(q)
    decreases |q|
  {
    if |q| >= 2 {
      var rest := q[1..];
      GrowthRatesComplete(rest);
      var g := GrowthRates(q);
      assert g == (if q[0] > 0 then [Change(q[0], q[1])] else []) + GrowthRates(rest);
      forall i | 0 <= i < |q| - 1 && q[i] > 0
        ensures Change(q[i], q[i + 1]) in g
      {
        if i == 0 {
          assert g[0] == Change(q[0], q[1]);
        } else {
          assert rest[i - 1] == q[i] && rest[i] == q[i + 1];
          assert Change(rest[i - 1], rest[i]) in GrowthRates(rest);
        }
      }
    }
  }

  /** When every quarter but the last is positive there is a rate for every pair. */
  lemma {:induction false} GrowthRatesAllPairs(q: seq<int>)
    requires forall i :: 0 <= i < |q| - 1 ==> q[i] > 0
    ensures |GrowthRates(q)| == if |q| < 2 then 0 else |q| - 1
    ensures forall i :: 0 <= i < |q| - 1 ==> GrowthRates(q)[i] == Change(q[i], q[i + 1])
    decreases |q|
  {
    if |q| >= 2 {
      GrowthRatesAllPairs(q[1..]);
    }
  }

  /** Every quarter sells less than the one before it, and none sells a negative amount. */
  predicate StrictlyFalling(q: seq<int>)
  {
    (forall i, j :: 0 <= i < j < |q| ==> q[i] > q[j]) && (forall i :: 0 <= i < |q| ==> q[i] >= 0)
  }

  /** Strictly falling quarters give only negative growth rates, and at least one of them. */
  lemma FallingQuartersNegativeRates(q: seq<int>)
    requires |q| >= 2 && StrictlyFalling(q)
    ensures GrowthRates(q) != []
    ensures forall j :: 0 <= j < |GrowthRates(q)| ==> GrowthRates(q)[j] < 0.0
  {
    forall i | 0 <= i < |q| - 1 ensures q[i] > 0 {
      assert q[i] > q[i + 1] >= 0;
    }
    GrowthRatesAllPairs(q);
    var g := GrowthRates(q);
    forall j | 0 <= j < |g| ensures g[j] < 0.0 {
      assert q[j] > q[j + 1];
      NegativeOverPositive(q[j + 1] - q[j], q[j]);
    }
  }

  lemma NegativeMean(s: seq<real>)
    requires s != [] && forall i :: 0 <= i < |s| ==> s[i] < 0.0
    ensures Mean(s) < 0.0
  {
    RealSumBelow(s, 0.0);
    NegativeOverCount(RealSum(s), |s| as real);
  }

  lemma NegativeOverCount(a: real, n: real)
    requires a < 0.0 < n
    ensures a / n < 0.0
  {
  }

  lemma NegativeOverPositive(a: int, b: int)
    requires a < 0 < b
    ensures a as real / b as real < 0.0
  {
  }

  // ---------------------------------------------------------------------------
  // Volatility and saturation
  // ---------------------------------------------------------------------------

  /** What the model relies on of `v ** 0.5`: it is not negative on a non-negative `v`,
      and the root of 0 is 0. */
  ghost predicate IsSqrt(sqrt: real -> real)
  {
    sqrt(0.0) == 0.0 && forall v :: v >= 0.0 ==> sqrt(v) >= 0.0
  }

  /** `[(r - mean) ** 2 for r in rates]`. */
  function SquaredDeviations(rates: seq<real>, mean: real): (d: seq<real>)
    ensures |d| == |rates|
    ensures forall i :: 0 <= i < |rates| ==> d[i] == Square(rates[i] - mean)
  {
    if rates == [] then []
    else
      var r := rates[|rates| - 1];
      SquaredDeviations(rates[..|rates| - 1], mean) + [Square(r - mean)]
  }

  /** The population variance of the rates. */
  function Variance(rates: seq<real>): real
  {
    if rates == [] then 0.0
    else RealSum(SquaredDeviations(rates, Mean(rates))) / |rates| as real
  }

  /** `calculate_volatility`: the standard deviation of the rates, capped at 1. */
  function Volatility(rates: seq<real>, sqrt: real -> real): real
  {
    if rates == [] then 0.0 else Min(1.0, sqrt(Variance(rates)))
  }

  lemma VarianceNonNegative(rates: seq<real>)
    ensures Variance(rates) >= 0.0
  {
    if rates != [] {
      var m := Mean(rates);
      var d := SquaredDeviations(rates, m);
      assert RealSum(d) >= 0.0 by {
        forall i | 0 <= i < |d| ensures d[i] >= 0.0 {
          SquareNonNegative(rates[i] - m);
        }
        RealSumNonNegative(d);
      }
      NonNegativeOverPositive(RealSum(d), |rates| as real);
    }
  }

  lemma VolatilityInUnitInterval(rates: seq<real>, sqrt: real -> real)
    requires IsSqrt(sqrt)
    ensures 0.0 <= Volatility(rates, sqrt) <= 1.0
  {
    VarianceNonNegative(rates);
  }

  /** Equal growth rates, one rate in particular, have no volatility. */
  lemma ConstantRatesNoVolatility(rates: seq<real>, sqrt: real -> real)
    requires IsSqrt(sqrt)
    requires forall i :: 0 <= i < |rates| ==> rates[i] == rates[0]
    ensures Volatility(rates, sqrt) == 0.0
  {
    if rates != [] {
      ConstantRatesNoVariance(rates);
    }
  }

  lemma ConstantRatesNoVariance(rates: seq<real>)
    requires rates != [] && forall i :: 0 <= i < |rates| ==> rates[i] == rates[0]
    ensures Variance(rates) == 0.0
  {
    var m := Mean(rates);
    MeanConstant(rates, rates[0]);
    var d := SquaredDeviations(rates, m);
    forall i | 0 <= i < |d| ensures d[i] == 0.0 {
      assert rates[i] - m == 0.0;
    }
    RealSumConstant(d, 0.0);
  }

  /** Python's `max(quarters)`. */
  function Peak(q: seq<int>): (m: int)
    requires q != []
    ensures forall i :: 0 <= i < |q| ==> q[i] <= m
    ensures exists i :: 0 <= i < |q| && q[i] == m
  {
    if |q| == 1 then q[0]
    else
      var m := Peak(q[..|q| - 1]);
      if q[|q| - 1] > m then q[|q| - 1] else m
  }

  /** The last quarter's sales over the best quarter's, 0 without a positive peak. */
  function Saturation(q: seq<int>): real
  {
    if q == [] then 0.0
    else if Peak(q) > 0 then q[|q| - 1] as real / Peak(q) as real
    else 0.0
  }

  /** With no negative quarter the saturation lies in [0, 1]; it is 1 exactly when the
      last quarter is the best one and that one sold, and 0 when no quarter sold. */
  lemma SaturationBounds(q: seq<int>)
    requires forall i :: 0 <= i < |q| ==> q[i] >= 0
    ensures 0.0 <= Saturation(q) <= 1.0
    ensures q != [] && Peak(q) > 0 ==> (Saturation(q) == 1.0 <==> q[|q| - 1] == Peak(q))
    ensures q != [] && Peak(q) <= 0 ==> Saturation(q) == 0.0
  {
    if q != [] && Peak(q) > 0 {
      FractionOfPeak(q[|q| - 1] as real, Peak(q) as real);
    }
  }

  lemma FractionOfPeak(a: real, b: real)
    requires 0.0 <= a <= b && b > 0.0
    ensures 0.0 <= a / b <= 1.0
    ensures a / b == 1.0 <==> a == b
  {
    assert a == (a / b) * b;
  }

  // ---------------------------------------------------------------------------
  // Competitive pressure
  // ---------------------------------------------------------------------------

  /** `abs(next - prev) / prev`. */
  function RelativeChange(prev: real, next: real): real
    requires prev != 0.0
  {
    Abs(next - prev) / prev
  }

  lemma RelativeChangeNonNegative(prev: real, next: real)
    requires prev > 0.0
    ensures RelativeChange(prev, next) >= 0.0
  {
    NonNegativeOverPositive(Abs(next - prev), prev);
  }

  /** `[abs(p[i] - p[i-1]) / p[i-1] for i in range(1, n)]`; a zero divisor raises. */
  function PriceChanges(h: seq<SalesRecord>): Outcome<seq<real>>
    decreases |h|
  {
    if |h| < 2 then Returned([])
    else if h[0].price == 0.0 then Raised(ZeroDivision)
    else match PriceChanges(h[1..])
      case Raised(f) => Raised(f)
      case Returned(rest) => Returned([RelativeChange(h[0].price, h[1].price)] + rest)
  }

  /** A zero price that some later day is compared against. */
  predicate HasZeroDivisor(h: seq<SalesRecord>)
  {
    exists i :: 0 <= i < |h| - 1 && h[i].price == 0.0
  }

  /** The price changes raise `ZeroDivisionError` exactly when a price that is not the last
      one is zero. */
  lemma {:induction false} PriceChangesFail(h: seq<SalesRecord>)
    ensures PriceChanges(h).Raised? <==> HasZeroDivisor(h)
    ensures PriceChanges(h).Raised? ==> PriceChanges(h).fault == ZeroDivision
    decreases |h|
  {
    if |h| >= 2 {
      PriceChangesFail(h[1..]);
      if HasZeroDivisor(h[1..]) {
        var i :| 0 <= i < |h[1..]| - 1 && h[1..][i].price == 0.0;
        assert h[i + 1].price == 0.0;
      }
      if HasZeroDivisor(h) && h[0].price != 0.0 {
        var i :| 0 <= i < |h| - 1 && h[i].price == 0.0;
        assert h[1..][i - 1].price == 0.0;
      }
    }
  }

  /** Otherwise they hold the relative change of every consecutive pair of prices. */
  lemma {:induction false} PriceChangesValues(h: seq<SalesRecord>)
    ensures PriceChanges(h).Returned? ==>
      var c := PriceChanges(h).value;
      |c| == (if |h| < 2 then 0 else |h| - 1) &&
      forall i :: 0 <= i < |c| ==> h[i].price != 0.0 && c[i] == RelativeChange(h[i].price, h[i + 1].price)
    decreases |h|
  {
    if |h| >= 2 && h[0].price != 0.0 {
      var t := h[1..];
      PriceChangesValues(t);
      if PriceChanges(t).Returned? {
        var rest := PriceChanges(t).value;
        var c := [RelativeChange(h[0].price, h[1].price)] + rest;
        assert PriceChanges(h) == Returned(c);
        forall i | 1 <= i < |c| ensures h[i].price != 0.0 && c[i] == RelativeChange(h[i].price, h[i + 1].price) {
          assert c[i] == rest[i - 1];
          assert t[i - 1] == h[i] && t[i] == h[i + 1];
        }
      }
    }
  }

  /** Every day carries the optional `returns` key. */
  predicate AllHaveReturns(h: seq<SalesRecord>)
  {
    forall i :: 0 <= i < |h| ==> h[i].returned.Some?
  }

  /** `[day['returns'] for day in history]`. */
  function ReturnsOf(h: seq<SalesRecord>): (s: seq<int>)
    requires AllHaveReturns(h)
    ensures |s| == |h| && forall i :: 0 <= i < |h| ==> s[i] == h[i].returned.value
  {
    if h == [] then [] else ReturnsOf(h[..|h| - 1]) + [h[|h| - 1].returned.value]
  }

  /** `calculate_competitive_pressure`: 0.7 times the mean relative price change plus 0.3
      times the share of sales returned, capped at 1. */
  function CompetitivePressure(h: seq<SalesRecord>): Outcome<real>
  {
    if h == [] then Returned(0.0)
    else match PriceChanges(h)
      case Raised(f) => Raised(f)
      case Returned(changes) =>
        if !AllHaveReturns(h) then Raised(MissingKey("returns"))
        else
          var totalSales := TotalSales(h);
          var returnRate := if totalSales > 0 then Sum(ReturnsOf(h)) as real / totalSales as real else 0.0;
          Returned(Min(1.0, 0.7 * Mean(changes) + 0.3 * returnRate))
  }

  /** The pressure raises `ZeroDivisionError` on a zero price that is not the last, and
      otherwise `KeyError('returns')` when a day lacks returns; nothing else raises. */
  lemma PressureFaults(h: seq<SalesRecord>)
    ensures CompetitivePressure(h).Raised? <==> HasZeroDivisor(h) || !AllHaveReturns(h)
    ensures HasZeroDivisor(h) ==> CompetitivePressure(h) == Raised(ZeroDivision)
    ensures !HasZeroDivisor(h) && !AllHaveReturns(h) ==>
      CompetitivePressure(h) == Raised(MissingKey("returns"))
  {
    PriceChangesFail(h);
  }

  /** The pressure is at most 1; with positive prices and no negative sales or returns it is
      not negative either. */
  lemma PressureBounds(h: seq<SalesRecord>)
    requires CompetitivePressure(h).Returned?
    ensures CompetitivePressure(h).value <= 1.0
    ensures (forall i :: 0 <= i < |h| ==> h[i].price > 0.0) && NonNegativeSales(h) &&
            (forall i :: 0 <= i < |h| ==> h[i].returned.Some? ==> h[i].returned.value >= 0) ==>
            CompetitivePressure(h).value >= 0.0
  {
    if h != [] && (forall i :: 0 <= i < |h| ==> h[i].price > 0.0) && NonNegativeSales(h) &&
       (forall i :: 0 <= i < |h| ==> h[i].returned.Some? ==> h[i].returned.value >= 0) {
      var c := PriceChanges(h).value;
      assert Mean(c) >= 0.0 by {
        ChangesNonNegative(h);
      }
      var t := TotalSales(h);
      var rate := if t > 0 then Sum(ReturnsOf(h)) as real / t as real else 0.0;
      assert rate >= 0.0 by {
        SumNonNegative(ReturnsOf(h));
        if t > 0 {
          NonNegativeOverPositive(Sum(ReturnsOf(h)) as real, t as real);
        }
      }
      assert CompetitivePressure(h).value == Min(1.0, 0.7 * Mean(c) + 0.3 * rate);
    }
  }

  /** With positive prices every price change, and so their mean, is non-negative. */
  lemma ChangesNonNegative(h: seq<SalesRecord>)
    requires forall i :: 0 <= i < |h| ==> h[i].price > 0.0
    requires PriceChanges(h).Returned?
    ensures Mean(PriceChanges(h).value) >= 0.0
  {
    PriceChangesValues(h);
    var c := PriceChanges(h).value;
    forall i | 0 <= i < |c| ensures c[i] >= 0.0 {
      RelativeChangeNonNegative(h[i].price, h[i + 1].price);
    }
    MeanNonNegative(c);
  }

  /** Without sales the returns do not count: only the price changes make the pressure. */
  lemma PressureWithoutSales(h: seq<SalesRecord>)
    requires h != [] && TotalSales(h) <= 0
    requires CompetitivePressure(h).Returned?
    ensures CompetitivePressure(h).value == Min(1.0, 0.7 * Mean(PriceChanges(h).value))
  {
  }

  lemma NonNegativeOverPositive(a: real, b: real)
    requires a >= 0.0 && b > 0.0
    ensures a / b >= 0.0
  {
  }

  // ---------------------------------------------------------------------------
  // Stage, days in stage, risk
  // ---------------------------------------------------------------------------

  datatype Stage = Introduction | Growth | Maturity | Decline

  /** The four metrics `calculate_lifecycle_metrics` reports. */
  datatype Metrics = Metrics(
    growthRate: real,
    growthVolatility: real,
    marketSaturation: real,
    competitivePressure: real)

  /** `{'metrics': {}}` for an empty history, otherwise the metrics and the first day's date. */
  datatype LifecycleData = NoMetrics | Measured(metrics: Metrics, stageStartDate: string)

  /** The rule of `compute_lifecycle_stage`, branch by branch. */
  function Classify(growthRate: real, marketShare: real): Stage
  {
    if growthRate < 0.0 && marketShare < 0.1 then Decline
    else if growthRate < 0.05 && marketShare >= 0.1 then Maturity
    else if growthRate >= 0.05 && marketShare >= 0.05 then Growth
    else Introduction
  }

  /** Each stage of the rule by itself, independent of the order of the branches. */
  lemma ClassifyRegions(g: real, s: real)
    ensures Classify(g, s) == Decline <==> g < 0.0 && s < 0.1
    ensures Classify(g, s) == Maturity <==> g < 0.05 && s >= 0.1
    ensures Classify(g, s) == Growth <==> g >= 0.05 && s >= 0.05 && !(g < 0.0 && s < 0.1)
    ensures Classify(g, s) == Introduction <==>
      !(g < 0.0 && s < 0.1) && !(g < 0.05 && s >= 0.1) && !(g >= 0.05 && s >= 0.05)
  {
  }

  /** The stage `compute_lifecycle_stage` gives: nothing writes `market_share`, so it is 0. */
  function CurrentStage(d: LifecycleData): (st: Stage)
    ensures st == Decline || st == Introduction
    ensures st == Decline <==> d.Measured? && d.metrics.growthRate < 0.0
  {
    var growth := if d.Measured? then d.metrics.growthRate else 0.0;
    Classify(growth, 0.0)
  }

  /** `datetime.now()`: a naive value. */
  type LocalTime = t: DateTime | t.offset.None? witness DateTime(1970, 1, 1, 0, None)

  /** `compute_days_in_stage`: whole days from the first day to `now`, never negative; a date
      the parser rejects raises `ValueError`, an aware one `TypeError`. */
  function DaysInStage(d: LifecycleData, parse: string -> Option<DateTime>, now: LocalTime): (r: Outcome<int>)
    ensures r.Returned? ==> r.value >= 0
    ensures d.NoMetrics? || d.stageStartDate == "" ==> r == Returned(0)
    ensures (d.Measured? && d.stageStartDate != "" && parse(d.stageStartDate).None?) ==>
      r == Raised(BadIsoFormat(d.stageStartDate))
  {
    if d.NoMetrics? || d.stageStartDate == "" then Returned(0)
    else match parse(d.stageStartDate)
      case None => Raised(BadIsoFormat(d.stageStartDate))
      case Some(start) =>
        match Diff(now, start)
        case None => Raised(NaiveAwareSubtraction)
        case Some(elapsed) => Returned(if elapsed / MicrosPerDay > 0 then elapsed / MicrosPerDay else 0)
  }

  /** A counted day is a whole day elapsed: `n` days means at least `n` and fewer than `n + 1`
      days of clock time have passed; zero means less than a day, or a start in the future. */
  lemma DaysAreWholeDays(d: LifecycleData, parse: string -> Option<DateTime>, now: LocalTime)
    requires d.Measured? && d.stageStartDate != "" && parse(d.stageStartDate).Some?
    ensures var start := parse(d.stageStartDate).value;
      && (start.offset.Some? <==> DaysInStage(d, parse, now) == Raised(NaiveAwareSubtraction))
      && (start.offset.None? ==>
            var elapsed := WallClock(now) - WallClock(start);
            var n := DaysInStage(d, parse, now).value;
            && n >= 0
            && (n > 0 ==> n * MicrosPerDay <= elapsed < (n + 1) * MicrosPerDay)
            && (n == 0 ==> elapsed < MicrosPerDay))
  {
  }

  /** `compute_stage_risk`: 0.4 volatility + 0.3 saturation + 0.3 pressure, kept in [0, 1];
      an empty history scores 0. */
  function StageRisk(d: LifecycleData): (r: real)
    ensures 0.0 <= r <= 1.0
    ensures d.NoMetrics? ==> r == 0.0
  {
    var m := if d.Measured? then d.metrics else Metrics(0.0, 0.0, 0.0, 0.0);
    Clamp01(0.4 * m.growthVolatility + 0.3 * m.marketSaturation + 0.3 * m.competitivePressure)
  }

  /** Metrics inside [0, 1] never need the clamp: the risk is their weighted sum. */
  lemma RiskIsWeightedSum(d: LifecycleData)
    requires d.Measured?
    requires 0.0 <= d.metrics.growthVolatility <= 1.0
    requires 0.0 <= d.metrics.marketSaturation <= 1.0
    requires 0.0 <= d.metrics.competitivePressure <= 1.0
    ensures StageRisk(d) == 0.4 * d.metrics.growthVolatility + 0.3 * d.metrics.marketSaturation
                            + 0.3 * d.metrics.competitivePressure
  {
  }

  // ---------------------------------------------------------------------------
  // The analyzer
  // ---------------------------------------------------------------------------

  /** `lifecycle_data['computed']`. */
  datatype Computed = Computed(currentStage: Stage, daysInStage: int, stageTransitionRisk: real)

  datatype LifecycleReport = LifecycleReport(data: LifecycleData, computed: Computed)

  /** `calculate_lifecycle_metrics` on the sorted history. */
  function MetricsOf(h: seq<SalesRecord>, sqrt: real -> real): Outcome<LifecycleData>
  {
    if h == [] then Returned(NoMetrics)
    else
      var q := QuarterSums(h);
      var g := GrowthRates(q);
      match CompetitivePressure(h)
      case Raised(f) => Raised(f)
      case Returned(p) => Returned(Measured(Metrics(Mean(g), Volatility(g, sqrt), Saturation(q), p), h[0].date))
  }

  method CalculateLifecycleMetrics(h: seq<SalesRecord>, sqrt: real -> real) returns (r: Outcome<LifecycleData>)
    ensures r == MetricsOf(h, sqrt)
  {
    if h == [] {
      return Returned(NoMetrics);
    }
    var quarters := ComputeQuarters(h);
    var rates := ComputeGrowthRates(quarters);
    var pressure := CompetitivePressure(h);
    if pressure.Raised? {
      return Raised(pressure.fault);
    }
    var m := Metrics(Mean(rates), Volatility(rates, sqrt), Saturation(quarters), pressure.value);
    r := Returned(Measured(m, h[0].date));
  }

  /** `get_product_lifecycle` on the product the loader returned (`None` when not found). */
  function LifecycleOf(product: Option<Product>, parse: string -> Option<DateTime>,
                       sqrt: real -> real, now: LocalTime): Outcome<Option<LifecycleReport>>
  {
    if product.None? || product.value.history.NoHistoryKey? then Returned(None)
    else if product.value.history.NullHistory? then Raised(NotIterable)
    else match MetricsOf(SortByDate(product.value.history.records), sqrt)
      case Raised(f) => Raised(f)
      case Returned(d) =>
        match DaysInStage(d, parse, now)
        case Raised(f) => Raised(f)
        case Returned(days) => Returned(Some(LifecycleReport(d, Computed(CurrentStage(d), days, StageRisk(d)))))
  }

  method GetProductLifecycle(product: Option<Product>, parse: string -> Option<DateTime>,
                             sqrt: real -> real, now: LocalTime) returns (r: Outcome<Option<LifecycleReport>>)
    ensures r == LifecycleOf(product, parse, sqrt, now)
  {
    if product.None? || product.value.history.NoHistoryKey? {
      return Returned(None);
    }
    if product.value.history.NullHistory? {
      return Raised(NotIterable);
    }
    var history := SortByDate(product.value.history.records);
    var data := CalculateLifecycleMetrics(history, sqrt);
    if data.Raised? {
      return Raised(data.fault);
    }
    var days := DaysInStage(data.value, parse, now);
    if days.Raised? {
      return Raised(days.fault);
    }
    var computed := Computed(CurrentStage(data.value), days.value, StageRisk(data.value));
    r := Returned(Some(LifecycleReport(data.value, computed)));
  }

  /** An empty history reports no metrics: stage introduction, no days, no risk. */
  lemma EmptyHistoryReport(p: Product, parse: string -> Option<DateTime>, sqrt: real -> real, now: LocalTime)
    requires p.history == Records([])
    ensures LifecycleOf(Some(p), parse, sqrt, now)
         == Returned(Some(LifecycleReport(NoMetrics, Computed(Introduction, 0, 0.0))))
  {
  }

  /** A reported stage is decline when the average growth is negative and introduction
      otherwise; the days are never negative and the risk lies in [0, 1]. */
  lemma ReportInvariants(product: Option<Product>, parse: string -> Option<DateTime>, sqrt: real -> real, now: LocalTime)
    requires LifecycleOf(product, parse, sqrt, now).Returned?
    requires LifecycleOf(product, parse, sqrt, now).value.Some?
    ensures var rep := LifecycleOf(product, parse, sqrt, now).value.value;
      && (rep.computed.currentStage == Decline <==> rep.data.Measured? && rep.data.metrics.growthRate < 0.0)
      && (rep.computed.currentStage != Decline ==> rep.computed.currentStage == Introduction)
      && rep.computed.daysInStage >= 0
      && 0.0 <= rep.computed.stageTransitionRisk <= 1.0
  {
    var d := MetricsOf(SortByDate(product.value.history.records), sqrt).value;
    var days := DaysInStage(d, parse, now).value;
    assert LifecycleOf(product, parse, sqrt, now).value.value
        == LifecycleReport(d, Computed(CurrentStage(d), days, StageRisk(d)));
  }

  /** A history whose quarters sell strictly less one after another, over at least two
      quarters, is in decline. */
  lemma FallingSalesDecline(h: seq<SalesRecord>, sqrt: real -> real)
    requires |QuarterSums(h)| >= 2 && StrictlyFalling(QuarterSums(h))
    requires MetricsOf(h, sqrt).Returned?
    ensures CurrentStage(MetricsOf(h, sqrt).value) == Decline
  {
    var g := GrowthRates(QuarterSums(h));
    assert Mean(g) < 0.0 by {
      FallingQuartersNegativeRates(QuarterSums(h));
      NegativeMean(g);
    }
    assert MetricsOf(h, sqrt).value.metrics.growthRate == Mean(g);
  }
}
