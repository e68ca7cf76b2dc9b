/**
 * The seasonality analyzer: sales grouped by month of the year, each month's average
 * compared with the overall average as a seasonality index, the peak and low months,
 * a strength score in [0, 1], and its English-language interpretation.
 */
module Seasonality {
  import opened Wrappers
  import opened Numeric
  import opened Dates
  import opened History
  import opened Grouping

  /** A month is a peak when its index is more than 10% above the average... */
  const PeakIndex: real := 1.1
  /** ...and a low when its index is more than 10% below it. */
  const LowIndex: real := 0.9

  // ---------------------------------------------------------------------------
  // The metrics
  // ---------------------------------------------------------------------------

  /** `datetime.fromisoformat(entry['date']).month` of each record. */
  function MonthsOf(h: seq<SalesRecord>, parse: string -> Option<DateTime>): (ms: seq<Month>)
    requires Parses(h, parse)
    ensures |ms| == |h|
    ensures forall i :: 0 <= i < |h| ==> ms[i] == parse(h[i].date).value.month
  {
    if h == [] then [] else MonthsOf(h[..|h| - 1], parse) + [parse(h[|h| - 1].date).value.month]
  }

  /** The first record whose date does not parse: where the grouping loop raises. */
  function FirstUnparsed(h: seq<SalesRecord>, parse: string -> Option<DateTime>): (i: nat)
    requires !Parses(h, parse)
    ensures i < |h| && parse(h[i].date).None?
    ensures forall j :: 0 <= j < i ==> parse(h[j].date).Some?
  {
    if parse(h[0].date).None? then 0
    else
      var i := FirstUnparsed(h[1..], parse);
      assert forall j :: 1 <= j <= i ==> h[j] == h[1..][j - 1];
      1 + i
  }

  /** `sum(sales) / len(sales)`. */
  function Average(sales: seq<int>): real
    requires sales != []
  {
    Sum(sales) as real / |sales| as real
  }

  /** `avg_sales / overall_average if overall_average > 0 else 0`. */
  function Index(average: real, overall: real): real
  {
    if overall > 0.0 then average / overall else 0.0
  }

  /** Every month of `months` has a non-empty list in `patterns`. */
  predicate Covers(patterns: map<Month, seq<int>>, months: seq<Month>)
  {
    forall i :: 0 <= i < |months| ==> months[i] in patterns && patterns[months[i]] != []
  }

  /** `monthly_averages`. */
  function Averages(months: seq<Month>, patterns: map<Month, seq<int>>): map<Month, real>
    requires Covers(patterns, months)
  {
    map m | m in months :: Average(patterns[m])
  }

  /** `seasonality_indices`. */
  function Indices(months: seq<Month>, averages: map<Month, real>, overall: real): map<Month, real>
    requires forall i :: 0 <= i < |months| ==> months[i] in averages
  {
    map m | m in months :: Index(averages[m], overall)
  }

  /** `[month for month, index in seasonality_indices.items() if index > 1.1]`. */
  function PeakMonths(months: seq<Month>, indices: map<Month, real>): (r: seq<Month>)
    requires forall i :: 0 <= i < |months| ==> months[i] in indices
    ensures forall m :: m in r <==> m in months && indices[m] > PeakIndex
  {
    if months == [] then []
    else
      var m := months[|months| - 1];
      PeakMonths(months[..|months| - 1], indices) + (if indices[m] > PeakIndex then [m] else [])
  }

  /** `[month for month, index in seasonality_indices.items() if index < 0.9]`. */
  function LowMonths(months: seq<Month>, indices: map<Month, real>): (r: seq<Month>)
    requires forall i :: 0 <= i < |months| ==> months[i] in indices
    ensures forall m :: m in r <==> m in months && indices[m] < LowIndex
  {
    if months == [] then []
    else
      var m := months[|months| - 1];
      LowMonths(months[..|months| - 1], indices) + (if indices[m] < LowIndex then [m] else [])
  }

  /** `[(index - 1.0) ** 2 for index in seasonality_indices.values()]`. */
  function Deviations(months: seq<Month>, indices: map<Month, real>): (d: seq<real>)
    requires forall i :: 0 <= i < |months| ==> months[i] in indices
    ensures |d| == |months|
    ensures forall i :: 0 <= i < |months| ==> d[i] == Square(indices[months[i]] - 1.0)
  {
    if months == [] then []
    else Deviations(months[..|months| - 1], indices) + [Square(indices[months[|months| - 1]] - 1.0)]
  }

  /** `calculate_seasonality_strength`: twice the mean squared distance of the indices
      from 1, capped at 1, and 0 without indices. */
  function Strength(months: seq<Month>, indices: map<Month, real>): real
    requires forall i :: 0 <= i < |months| ==> months[i] in indices
  {
    if months == [] then 0.0 else Min(1.0, Mean(Deviations(months, indices)) * 2.0)
  }

  /** What `calculate_seasonality_metrics` returns: the months in the order the history
      first shows them, `monthly_averages`, `overall_average`, `monthly_indices`,
      `peak_months`, `low_months` and `seasonality_strength`; `NoPatterns` is the
      `{'seasonality_patterns': {}}` of an empty history. */
  datatype SeasonalityData =
    | NoPatterns
    | Measured(
        months: seq<Month>,
        averages: map<Month, real>,
        overallAverage: real,
        indices: map<Month, real>,
        peakMonths: seq<Month>,
        lowMonths: seq<Month>,
        strength: real)

  /** The months of the history in first-seen order, and the grouped sales cover them. */
  lemma GroupedCovers(months: seq<Month>, sales: seq<int>)
    requires |months| == |sales|
    ensures var order := FirstSeen(months);
      Covers(GroupLists(months, sales), order)
      && forall m :: m in order <==> m in months
  {
    var order := FirstSeen(months);
    var patterns := GroupLists(months, sales);
    forall i | 0 <= i < |order| ensures order[i] in patterns && patterns[order[i]] != [] {
      SelectPresent(months, sales, order[i]);
    }
    forall m ensures m in order <==> m in months {
      if m in months {
        var i :| 0 <= i < |months| && months[i] == m;
      }
    }
  }

  /** The metrics of a non-empty history whose dates all parse. */
  function MetricsOf(h: seq<SalesRecord>, parse: string -> Option<DateTime>): SeasonalityData
    requires Parses(h, parse)
  {
    var months := MonthsOf(h, parse);
    var patterns := GroupLists(months, SalesOf(h));
    var order := FirstSeen(months);
    GroupedCovers(months, SalesOf(h));
    var averages := Averages(order, patterns);
    var all := Flatten(order, patterns);
    var overall := if all != [] then Sum(all) as real / |all| as real else 0.0;
    var indices := Indices(order, averages, overall);
    Measured(order, averages, overall, indices, PeakMonths(order, indices), LowMonths(order, indices),
             Strength(order, indices))
  }

  /** `calculate_seasonality_metrics(history)`: no patterns for an empty (or null) history,
      the `ValueError` of the first date that does not parse, or the metrics. */
  function SeasonalityOf(h: seq<SalesRecord>, parse: string -> Option<DateTime>): Outcome<SeasonalityData>
  {
    if h == [] then Returned(NoPatterns)
    else if !Parses(h, parse) then Raised(BadIsoFormat(h[FirstUnparsed(h, parse)].date))
    else Returned(MetricsOf(h, parse))
  }

  // ---------------------------------------------------------------------------
  // The loops of calculate_seasonality_metrics
  // ---------------------------------------------------------------------------

  method CalculateSeasonalityMetrics(history: seq<SalesRecord>, parse: string -> Option<DateTime>)
    returns (r: Outcome<SeasonalityData>)
    ensures r == SeasonalityOf(history, parse)
  {
    if history == [] {
      return Returned(NoPatterns);
    }
    var patterns, order, failed := GroupSalesByMonth(history, parse);
    if failed {
      return Raised(BadIsoFormat(history[FirstUnparsed(history, parse)].date));
    }
    ghost var months := MonthsOf(history, parse);
    GroupedCovers(months, SalesOf(history));
    var averages := AveragePerMonth(order, patterns);
    var all := Flatten(order, patterns);
    var overall := if all != [] then Sum(all) as real / |all| as real else 0.0;
    var indices := IndexPerMonth(order, averages, overall);
    r := Returned(Measured(order, averages, overall, indices, PeakMonths(order, indices),
                           LowMonths(order, indices), Strength(order, indices)));
  }

  /** The grouping loop: `monthly_patterns` and its insertion order, or `failed` when a
      date does not parse. */
  method GroupSalesByMonth(history: seq<SalesRecord>, parse: string -> Option<DateTime>)
    returns (patterns: map<Month, seq<int>>, order: seq<Month>, failed: bool)
    ensures failed <==> !Parses(history, parse)
    ensures !failed ==> patterns == GroupLists(MonthsOf(history, parse), SalesOf(history))
                        && order == FirstSeen(MonthsOf(history, parse))
  {
    patterns := map[];
    order := [];
    var i := 0;
    while i < |history|
      invariant 0 <= i <= |history|
      invariant Parses(history[..i], parse)
      invariant patterns == GroupLists(MonthsOf(history[..i], parse), SalesOf(history[..i]))
      invariant order == FirstSeen(MonthsOf(history[..i], parse))
    {
      var date := parse(history[i].date);
      if date.None? {
        return patterns, order, true;
      }
      var month := date.value.month;
      ghost var before, beforeOrder := patterns, order;
      if month !in patterns {
        patterns := patterns[month := []];
        order := order + [month];
      }
      patterns := patterns[month := patterns[month] + [history[i].sales]];
      CollectStep(history, parse, i, before, beforeOrder, patterns, order);
      i := i + 1;
    }
    assert history[..i] == history;
    failed := false;
  }

  /** One turn of the grouping loop: a new month gets an empty list and joins the order,
      then the record's sales are appended to its month's list. */
  lemma CollectStep(h: seq<SalesRecord>, parse: string -> Option<DateTime>, i: nat,
                    patterns: map<Month, seq<int>>, order: seq<Month>,
                    patterns': map<Month, seq<int>>, order': seq<Month>)
    requires i < |h| && Parses(h[..i], parse) && parse(h[i].date).Some?
    requires patterns == GroupLists(MonthsOf(h[..i], parse), SalesOf(h[..i]))
    requires order == FirstSeen(MonthsOf(h[..i], parse))
    requires var month := parse(h[i].date).value.month;
      && order' == (if month in patterns then order else order + [month])
      && var p0 := if month in patterns then patterns else patterns[month := []];
         patterns' == p0[month := p0[month] + [h[i].sales]]
    ensures Parses(h[..i + 1], parse)
    ensures patterns' == GroupLists(MonthsOf(h[..i + 1], parse), SalesOf(h[..i + 1]))
    ensures order' == FirstSeen(MonthsOf(h[..i + 1], parse))
  {
    var month := parse(h[i].date).value.month;
    PrefixStep(h, parse, i);
    GroupListsStep(MonthsOf(h[..i], parse), SalesOf(h[..i]), month, h[i].sales,
                   patterns, order, patterns', order');
  }

  /** Extending a parsed prefix by one parsed record extends its months and sales. */
  lemma PrefixStep(h: seq<SalesRecord>, parse: string -> Option<DateTime>, i: nat)
    requires i < |h| && Parses(h[..i], parse) && parse(h[i].date).Some?
    ensures Parses(h[..i + 1], parse)
    ensures MonthsOf(h[..i + 1], parse) == MonthsOf(h[..i], parse) + [parse(h[i].date).value.month]
    ensures SalesOf(h[..i + 1]) == SalesOf(h[..i]) + [h[i].sales]
  {
    var h' := h[..i + 1];
    assert h'[..i] == h[..i];
    assert Parses(h', parse) by {
      forall j | 0 <= j < i + 1 ensures parse(h'[j].date).Some? {
        if j < i {
          assert h'[j] == h[..i][j];
        }
      }
    }
  }

  /** The averaging loop over `monthly_patterns.items()`. */
  method AveragePerMonth(order: seq<Month>, patterns: map<Month, seq<int>>) returns (averages: map<Month, real>)
    requires Covers(patterns, order)
    ensures averages == Averages(order, patterns)
  {
    averages := map[];
    var j := 0;
    while j < |order|
      invariant 0 <= j <= |order|
      invariant averages == Averages(order[..j], patterns)
    {
      assert order[..j + 1] == order[..j] + [order[j]];
      averages := averages[order[j] := Average(patterns[order[j]])];
      j := j + 1;
    }
    assert order[..j] == order;
  }

  /** The index loop over `monthly_averages.items()`. */
  method IndexPerMonth(order: seq<Month>, averages: map<Month, real>, overall: real)
    returns (indices: map<Month, real>)
    requires forall i :: 0 <= i < |order| ==> order[i] in averages
    ensures indices == Indices(order, averages, overall)
  {
    indices := map[];
    var j := 0;
    while j < |order|
      invariant 0 <= j <= |order|
      invariant indices == Indices(order[..j], averages, overall)
    {
      assert order[..j + 1] == order[..j] + [order[j]];
      indices := indices[order[j] := Index(averages[order[j]], overall)];
      j := j + 1;
    }
    assert order[..j] == order;
  }

  // ---------------------------------------------------------------------------
  // What the metrics promise
  // ---------------------------------------------------------------------------

  /** The months reported, with an average and an index each, are exactly the months of
      the history, each once. */
  lemma MonthsPresent(h: seq<SalesRecord>, parse: string -> Option<DateTime>)
    requires Parses(h, parse)
    ensures var d := MetricsOf(h, parse);
      && Distinct(d.months)
      && (forall m :: m in d.averages <==> m in MonthsOf(h, parse))
      && (forall m :: m in d.indices <==> m in MonthsOf(h, parse))
  {
    GroupedCovers(MonthsOf(h, parse), SalesOf(h));
  }

  /** `overall_average` is the mean of the sales of all the records. */
  lemma OverallIsMean(h: seq<SalesRecord>, parse: string -> Option<DateTime>)
    requires Parses(h, parse) && h != []
    ensures MetricsOf(h, parse).overallAverage == TotalSales(h) as real / |h| as real
    ensures MetricsOf(h, parse).overallAverage > 0.0 <==> TotalSales(h) > 0
  {
    var months := MonthsOf(h, parse);
    var order := FirstSeen(months);
    GroupedCovers(months, SalesOf(h));
    forall i | 0 <= i < |months| ensures months[i] in order {
      assert months[i] in months;
    }
    FlattenPartition(order, months, SalesOf(h));
    if TotalSales(h) > 0 {
      PositiveMean(TotalSales(h), |h|);
    } else {
      NonPositiveMean(TotalSales(h), |h|);
    }
  }

  /** The stages the metrics are built from. */
  lemma MetricsParts(h: seq<SalesRecord>, parse: string -> Option<DateTime>)
    requires Parses(h, parse)
    ensures var d := MetricsOf(h, parse);
      var months := MonthsOf(h, parse);
      && d.Measured?
      && d.months == FirstSeen(months)
      && Covers(GroupLists(months, SalesOf(h)), d.months)
      && d.averages == Averages(d.months, GroupLists(months, SalesOf(h)))
      && (forall i :: 0 <= i < |d.months| ==> d.months[i] in d.averages)
      && d.indices == Indices(d.months, d.averages, d.overallAverage)
      && (forall i :: 0 <= i < |d.months| ==> d.months[i] in d.indices)
      && d.peakMonths == PeakMonths(d.months, d.indices)
      && d.lowMonths == LowMonths(d.months, d.indices)
      && d.strength == Strength(d.months, d.indices)
  {
    GroupedCovers(MonthsOf(h, parse), SalesOf(h));
  }

  /** Without a positive overall average every index is 0. */
  lemma IndicesZero(months: seq<Month>, averages: map<Month, real>, overall: real)
    requires forall i :: 0 <= i < |months| ==> months[i] in averages
    requires overall <= 0.0
    ensures var indices := Indices(months, averages, overall);
      forall m :: m in indices ==> indices[m] == 0.0
  {
  }

  /** With positive total sales the overall average is positive and each index is the
      month's average in units of it. */
  lemma IndexMeaning(h: seq<SalesRecord>, parse: string -> Option<DateTime>)
    requires Parses(h, parse) && h != [] && TotalSales(h) > 0
    ensures var d := MetricsOf(h, parse);
      && d.overallAverage > 0.0
      && forall m :: m in d.indices ==> m in d.averages && Scales(d.indices[m], d.overallAverage, d.averages[m])
  {
    var d := MetricsOf(h, parse);
    MetricsParts(h, parse);
    OverallIsMean(h, parse);
    assert d.overallAverage > 0.0;
    IndicesScale(d.months, d.averages, d.overallAverage, d.indices);
  }

  /** Without positive total sales every index is 0. */
  lemma NoSalesZeroIndices(h: seq<SalesRecord>, parse: string -> Option<DateTime>)
    requires Parses(h, parse) && h != [] && TotalSales(h) <= 0
    ensures var d := MetricsOf(h, parse);
      forall m :: m in d.indices ==> d.indices[m] == 0.0
  {
    var d := MetricsOf(h, parse);
    MetricsParts(h, parse);
    OverallIsMean(h, parse);
    IndicesZero(d.months, d.averages, d.overallAverage);
  }

  lemma PositiveMean(total: int, n: nat)
    requires total > 0 && n > 0
    ensures total as real / n as real > 0.0
  {
  }

  lemma NonPositiveMean(total: int, n: nat)
    requires total <= 0 && n > 0
    ensures total as real / n as real <= 0.0
  {
  }

  /** `index` counts `average` in units of `overall`. */
  predicate Scales(index: real, overall: real, average: real)
  {
    index * overall == average
  }

  /** Each index times a positive overall average gives back the month's average. */
  lemma IndicesScale(months: seq<Month>, averages: map<Month, real>, overall: real, indices: map<Month, real>)
    requires forall i :: 0 <= i < |months| ==> months[i] in averages
    requires overall > 0.0 && indices == Indices(months, averages, overall)
    ensures forall m :: m in indices ==> m in averages && Scales(indices[m], overall, averages[m])
  {
    forall m | m in indices ensures m in averages && Scales(indices[m], overall, averages[m]) {
      var i :| 0 <= i < |months| && months[i] == m;
      var a := averages[m];
      UnitsOf(a, overall);
      assert indices[m] == a / overall;
    }
  }

  lemma UnitsOf(a: real, b: real)
    requires b > 0.0
    ensures (a / b) * b == a
  {
  }

  /** `peak_months` and `low_months` hold the months with index above 1.1 and below 0.9,
      each once, and no month is in both. */
  lemma PeakAndLowMonths(h: seq<SalesRecord>, parse: string -> Option<DateTime>)
    requires Parses(h, parse)
    ensures var d := MetricsOf(h, parse);
      && (forall m :: m in d.peakMonths <==> m in d.indices && d.indices[m] > 1.1)
      && (forall m :: m in d.lowMonths <==> m in d.indices && d.indices[m] < 0.9)
      && (forall m :: !(m in d.peakMonths && m in d.lowMonths))
      && Distinct(d.peakMonths) && Distinct(d.lowMonths)
  {
    var d := MetricsOf(h, parse);
    MonthsPresent(h, parse);
    GroupedCovers(MonthsOf(h, parse), SalesOf(h));
    PeakMonthsDistinct(d.months, d.indices);
    LowMonthsDistinct(d.months, d.indices);
  }

  lemma {:induction false} PeakMonthsDistinct(months: seq<Month>, indices: map<Month, real>)
    requires forall i :: 0 <= i < |months| ==> months[i] in indices
    requires Distinct(months)
    ensures Distinct(PeakMonths(months, indices))
    decreases |months|
  {
    if months != [] {
      var n := |months| - 1;
      PeakMonthsDistinct(months[..n], indices);
      assert months[n] !in months[..n];
    }
  }

  lemma {:induction false} LowMonthsDistinct(months: seq<Month>, indices: map<Month, real>)
    requires forall i :: 0 <= i < |months| ==> months[i] in indices
    requires Distinct(months)
    ensures Distinct(LowMonths(months, indices))
    decreases |months|
  {
    if months != [] {
      var n := |months| - 1;
      LowMonthsDistinct(months[..n], indices);
      assert months[n] !in months[..n];
    }
  }

  /** The strength is 0 without indices and otherwise lies in [0, 1]. */
  lemma StrengthBounds(months: seq<Month>, indices: map<Month, real>)
    requires forall i :: 0 <= i < |months| ==> months[i] in indices
    ensures 0.0 <= Strength(months, indices) <= 1.0
    ensures months == [] ==> Strength(months, indices) == 0.0
  {
    if months != [] {
      var d := Deviations(months, indices);
      forall i | 0 <= i < |d| ensures d[i] >= 0.0 {
        SquareNonNegative(indices[months[i]] - 1.0);
      }
      RealSumNonNegative(d);
    }
  }

  /** A history all in one month with positive total sales has that month at index 1 and
      no seasonality. */
  lemma OneMonthNoSeasonality(h: seq<SalesRecord>, parse: string -> Option<DateTime>, m: Month)
    requires Parses(h, parse) && h != [] && TotalSales(h) > 0
    requires forall i :: 0 <= i < |h| ==> parse(h[i].date).value.month == m
    ensures var d := MetricsOf(h, parse);
      d.months == [m] && d.indices == map[m := 1.0] && d.strength == 0.0
  {
    var months := MonthsOf(h, parse);
    var d := MetricsOf(h, parse);
    MetricsParts(h, parse);
    OneKey(months, m);
    AllSelected(months, SalesOf(h), m);
    assert d.averages[m] == Average(SalesOf(h));
    OverallIsMean(h, parse);
    assert d.averages[m] == d.overallAverage;
    OneMonthParts(m, d.averages, d.overallAverage);
  }

  /** One month whose average is the overall one: index 1 and no seasonality. */
  lemma OneMonthParts(m: Month, averages: map<Month, real>, overall: real)
    requires m in averages && overall > 0.0 && averages[m] == overall
    ensures Indices([m], averages, overall) == map[m := 1.0]
    ensures Strength([m], Indices([m], averages, overall)) == 0.0
  {
    var indices := Indices([m], averages, overall);
    assert indices[m] == 1.0;
    var dev := Deviations([m], indices);
    assert dev[0] == Square(0.0) == 0.0;
    MeanConstant(dev, 0.0);
  }

  /** A run of one repeated key is first seen as that single key. */
  lemma {:induction false} OneKey(ks: seq<Month>, m: Month)
    requires ks != [] && forall i :: 0 <= i < |ks| ==> ks[i] == m
    ensures FirstSeen(ks) == [m]
    decreases |ks|
  {
    if |ks| > 1 {
      OneKey(ks[..|ks| - 1], m);
    } else {
      assert ks[..0] == [];
    }
  }

  /** When every key is `m`, `m` selects every value. */
  lemma {:induction false} AllSelected(ks: seq<Month>, vs: seq<int>, m: Month)
    requires |ks| == |vs| && forall i :: 0 <= i < |ks| ==> ks[i] == m
    ensures Select(ks, vs, m) == vs
    decreases |ks|
  {
    if ks != [] {
      AllSelected(ks[..|ks| - 1], vs[..|vs| - 1], m);
    }
  }

  /** Without positive total sales every month is low, none is a peak, and the strength
      is at its maximum 1. */
  lemma NoSalesFullSeasonality(h: seq<SalesRecord>, parse: string -> Option<DateTime>)
    requires Parses(h, parse) && h != [] && TotalSales(h) <= 0
    ensures var d := MetricsOf(h, parse);
      d.peakMonths == [] && d.lowMonths == d.months && d.strength == 1.0
  {
    var d := MetricsOf(h, parse);
    assert Derived(d) && d.months != [] && forall m :: m in d.indices ==> d.indices[m] == 0.0 by {
      MetricsParts(h, parse);
      NoSalesZeroIndices(h, parse);
      assert MonthsOf(h, parse)[0] in d.months;
    }
    ZeroData(d);
  }

  /** Measured data whose peak and low months and strength follow from its months and
      indices. */
  ghost predicate Derived(d: SeasonalityData)
  {
    && d.Measured?
    && (forall i :: 0 <= i < |d.months| ==> d.months[i] in d.indices)
    && d.peakMonths == PeakMonths(d.months, d.indices)
    && d.lowMonths == LowMonths(d.months, d.indices)
    && d.strength == Strength(d.months, d.indices)
  }

  lemma ZeroData(d: SeasonalityData)
    requires Derived(d) && d.months != [] && forall m :: m in d.indices ==> d.indices[m] == 0.0
    ensures d.peakMonths == [] && d.lowMonths == d.months && d.strength == 1.0
  {
    ZeroIndicesParts(d.months, d.indices);
  }

  /** Every index 0: no peak, every month low, and the strength at its cap. */
  lemma ZeroIndicesParts(months: seq<Month>, indices: map<Month, real>)
    requires months != []
    requires forall i :: 0 <= i < |months| ==> months[i] in indices && indices[months[i]] == 0.0
    ensures PeakMonths(months, indices) == [] && LowMonths(months, indices) == months
    ensures Strength(months, indices) == 1.0
  {
    NoPeaks(months, indices);
    AllLow(months, indices);
    var dev := Deviations(months, indices);
    forall i | 0 <= i < |dev| ensures dev[i] == 1.0 {
      assert indices[months[i]] - 1.0 == -1.0;
    }
    MeanConstant(dev, 1.0);
  }

  lemma {:induction false} NoPeaks(months: seq<Month>, indices: map<Month, real>)
    requires forall i :: 0 <= i < |months| ==> months[i] in indices && indices[months[i]] == 0.0
    ensures PeakMonths(months, indices) == []
    decreases |months|
  {
    if months != [] {
      NoPeaks(months[..|months| - 1], indices);
    }
  }

  lemma {:induction false} AllLow(months: seq<Month>, indices: map<Month, real>)
    requires forall i :: 0 <= i < |months| ==> months[i] in indices && indices[months[i]] == 0.0
    ensures LowMonths(months, indices) == months
    decreases |months|
  {
    if months != [] {
      var n := |months| - 1;
      AllLow(months[..n], indices);
      calc {
        LowMonths(months, indices);
        LowMonths(months[..n], indices) + [months[n]];
        months[..n] + [months[n]];
        months;
      }
    }
  }

  // ---------------------------------------------------------------------------
  // The interpretation and the product-level call
  // ---------------------------------------------------------------------------

  datatype SeasonalityType = Strong | Moderate | Weak

  function TypeOf(strength: real): SeasonalityType
  {
    if strength > 0.5 then Strong else if strength > 0.2 then Moderate else Weak
  }

  function MonthName(m: Month): (name: string)
    ensures name != []
  {
    match m
    case 1 => "January" case 2 => "February" case 3 => "March" case 4 => "April"
    case 5 => "May" case 6 => "June" case 7 => "July" case 8 => "August"
    case 9 => "September" case 10 => "October" case 11 => "November" case _ => "December"
  }

  /** `[month_names[m] for m in months]`. */
  function Names(months: seq<Month>): (names: seq<string>)
    ensures |names| == |months| && forall i :: 0 <= i < |months| ==> names[i] == MonthName(months[i])
  {
    if months == [] then [] else Names(months[..|months| - 1]) + [MonthName(months[|months| - 1])]
  }

  /** The dictionary `interpret_seasonality` returns. */
  datatype Interpretation = Interpretation(
    seasonalityType: SeasonalityType,
    peakSeasons: seq<string>,
    lowSeasons: seq<string>,
    confidenceScore: real)

  /** `interpret_seasonality`: `KeyError('seasonality_strength')` on the empty patterns. */
  function Interpret(d: SeasonalityData): Outcome<Interpretation>
  {
    match d
    case NoPatterns => Raised(MissingKey("seasonality_strength"))
    case Measured(_, _, _, _, peak, low, strength) =>
      Returned(Interpretation(TypeOf(strength), Names(peak), Names(low), Min(1.0, strength * 1.5)))
  }

  /** Distinct months have distinct names. */
  lemma NamesAreDistinct(a: Month, b: Month)
    ensures MonthName(a) == MonthName(b) <==> a == b
  {
  }

  /** The type follows the strength thresholds, the confidence lies in [0, 1] for a
      strength in [0, 1] and is the strength scaled by 1.5 up to that cap, and the season
      lists name the peak and low months one by one. */
  lemma InterpretationFacts(d: SeasonalityData)
    requires d.Measured? && 0.0 <= d.strength <= 1.0
    ensures var i := Interpret(d).value;
      && (i.seasonalityType == Strong <==> d.strength > 0.5)
      && (i.seasonalityType == Moderate <==> 0.2 < d.strength <= 0.5)
      && (i.seasonalityType == Weak <==> d.strength <= 0.2)
      && 0.0 <= i.confidenceScore <= 1.0
      && (d.strength <= 2.0 / 3.0 ==> i.confidenceScore == d.strength * 1.5)
      && |i.peakSeasons| == |d.peakMonths| && |i.lowSeasons| == |d.lowMonths|
      && (forall k :: 0 <= k < |d.peakMonths| ==> i.peakSeasons[k] == MonthName(d.peakMonths[k]))
      && (forall k :: 0 <= k < |d.lowMonths| ==> i.lowSeasons[k] == MonthName(d.lowMonths[k]))
  {
  }

  /** The seasonality data with its `interpretation`. */
  datatype SeasonalityReport = SeasonalityReport(data: SeasonalityData, interpretation: Interpretation)

  /** `get_product_seasonality` on what the loader returned: `None` without a product or
      its `history` key; a null history counts as empty (`not None` holds). */
  function SeasonalityReportOf(product: Option<Product>, parse: string -> Option<DateTime>)
    : Outcome<Option<SeasonalityReport>>
  {
    if product.None? || product.value.history.NoHistoryKey? then Returned(None)
    else
      var h := if product.value.history.Records? then product.value.history.records else [];
      match SeasonalityOf(h, parse)
      case Raised(f) => Raised(f)
      case Returned(d) =>
        match Interpret(d)
        case Raised(f) => Raised(f)
        case Returned(i) => Returned(Some(SeasonalityReport(d, i)))
  }

  method GetProductSeasonality(product: Option<Product>, parse: string -> Option<DateTime>)
    returns (r: Outcome<Option<SeasonalityReport>>)
    ensures r == SeasonalityReportOf(product, parse)
  {
    if product.None? || product.value.history.NoHistoryKey? {
      return Returned(None);
    }
    var h := if product.value.history.Records? then product.value.history.records else [];
    var data := CalculateSeasonalityMetrics(h, parse);
    if data.Raised? {
      return Raised(data.fault);
    }
    var interpretation := Interpret(data.value);
    if interpretation.Raised? {
      return Raised(interpretation.fault);
    }
    r := Returned(Some(SeasonalityReport(data.value, interpretation.value)));
  }

  /** A history whose dates all parse yields measured metrics with a strength in [0, 1]. */
  lemma MeasuredStrength(h: seq<SalesRecord>, parse: string -> Option<DateTime>)
    requires h != [] && Parses(h, parse)
    ensures SeasonalityOf(h, parse) == Returned(MetricsOf(h, parse))
    ensures MetricsOf(h, parse).Measured? && 0.0 <= MetricsOf(h, parse).strength <= 1.0
  {
    var d := MetricsOf(h, parse);
    assert d.Measured? && d.strength == Strength(d.months, d.indices) by {
      MetricsParts(h, parse);
    }
    StrengthBounds(d.months, d.indices);
  }

  /** The product-level call answers `None` exactly when the product or its `history`
      key is missing. */
  lemma ReportNoneIff(product: Option<Product>, parse: string -> Option<DateTime>)
    ensures SeasonalityReportOf(product, parse) == Returned(None)
      <==> product.None? || product.value.history.NoHistoryKey?
  {
    if product.Some? && product.value.history.Records? {
      var h := product.value.history.records;
      if h != [] && Parses(h, parse) {
        var d := SeasonalityOf(h, parse).value;
        assert SeasonalityOf(h, parse).Returned? && d.Measured? by {
          MeasuredStrength(h, parse);
        }
        ReportOfMeasured(product, parse, h, d);
      }
    }
  }

  /** With the history present, an empty or null history fails on the missing strength
      key and a date that does not parse fails with the first such date. */
  lemma ReportFailures(product: Option<Product>, parse: string -> Option<DateTime>)
    requires product.Some? && !product.value.history.NoHistoryKey?
    ensures var h := if product.value.history.Records? then product.value.history.records else [];
      var r := SeasonalityReportOf(product, parse);
      && (h == [] ==> r == Raised(MissingKey("seasonality_strength")))
      && (h != [] && !Parses(h, parse) ==> r == Raised(BadIsoFormat(h[FirstUnparsed(h, parse)].date)))
  {
  }

  /** With the history present, non-empty and parsable, the call reports the measured
      metrics, whose strength lies in [0, 1], with their interpretation. */
  lemma ReportStrength(product: Option<Product>, parse: string -> Option<DateTime>)
    requires product.Some? && product.value.history.Records?
    requires product.value.history.records != [] && Parses(product.value.history.records, parse)
    ensures var h := product.value.history.records;
      var r := SeasonalityReportOf(product, parse);
      && r.Returned? && r.value.Some?
      && SeasonalityOf(h, parse) == Returned(r.value.value.data)
      && r.value.value.data.Measured? && 0.0 <= r.value.value.data.strength <= 1.0
      && r.value.value.interpretation == Interpret(r.value.value.data).value
  {
    var h := product.value.history.records;
    var d := SeasonalityOf(h, parse).value;
    assert SeasonalityOf(h, parse).Returned? && d.Measured? && 0.0 <= d.strength <= 1.0 by {
      MeasuredStrength(h, parse);
    }
    ReportOfMeasured(product, parse, h, d);
  }

  lemma ReportOfMeasured(product: Option<Product>, parse: string -> Option<DateTime>,
                         h: seq<SalesRecord>, d: SeasonalityData)
    requires product.Some? && product.value.history.Records? && h == product.value.history.records
    requires SeasonalityOf(h, parse) == Returned(d) && d.Measured?
    ensures SeasonalityReportOf(product, parse) == Returned(Some(SeasonalityReport(d, Interpret(d).value)))
  {
  }
}
