/**
 * The demand aggregator: the records dated inside an inclusive window, grouped by
 * calendar month into totals of sales, revenue and returns, reported as a
 * month-ordered time series with a summary. Any exception inside it yields `None`.
 */
module Demand {
  import opened Wrappers
  import opened Numeric
  import opened Dates
  import opened History
  import opened Grouping

  // ---------------------------------------------------------------------------
  // The window filter
  // ---------------------------------------------------------------------------

  /** `start <= entry_date <= end` once all three are stamped UTC: a comparison of the
      clock readings, inclusive at both ends. */
  predicate InWindow(t: DateTime, start: DateTime, end: DateTime)
  {
    WallClock(start) <= WallClock(t) <= WallClock(end)
  }

  /** The records the filter loop keeps, in their order; `None` when a date does not
      parse (the `ValueError` the caller swallows). */
  function Kept(h: seq<SalesRecord>, parse: string -> Option<DateTime>, start: DateTime, end: DateTime)
    : (r: Option<seq<SalesRecord>>)
    ensures r.Some? ==> Parses(r.value, parse) && |r.value| <= |h|
    decreases |h|
  {
    if h == [] then Some([])
    else match Kept(h[..|h| - 1], parse, start, end)
      case None => None
      case Some(k) =>
        match parse(h[|h| - 1].date)
        case None => None
        case Some(t) => Some(if InWindow(t, start, end) then k + [h[|h| - 1]] else k)
  }

  /** A date that fails to parse in a prefix fails the whole walk. */
  lemma {:induction false} KeptFailureExtends(h: seq<SalesRecord>, n: nat, parse: string -> Option<DateTime>,
                                            start: DateTime, end: DateTime)
    requires n <= |h| && Kept(h[..n], parse, start, end).None?
    ensures Kept(h, parse, start, end).None?
    decreases |h| - n
  {
    if n < |h| {
      assert h[..n + 1][..n] == h[..n];
      KeptFailureExtends(h, n + 1, parse, start, end);
    } else {
      assert h[..n] == h;
    }
  }

  /** The walk succeeds exactly when every date parses. */
  lemma {:induction false} KeptSucceedsIff(h: seq<SalesRecord>, parse: string -> Option<DateTime>,
                                           start: DateTime, end: DateTime)
    ensures Kept(h, parse, start, end).Some? <==> Parses(h, parse)
    decreases |h|
  {
    if h != [] {
      var init := h[..|h| - 1];
      KeptSucceedsIff(init, parse, start, end);
      if !Parses(init, parse) {
        var i :| 0 <= i < |init| && parse(init[i].date).None?;
        assert parse(h[i].date).None?;
      }
    }
  }

  /** A record is kept exactly when it is in the history and dated inside the window. */
  lemma {:induction false} KeptIsWindow(h: seq<SalesRecord>, parse: string -> Option<DateTime>,
                                        start: DateTime, end: DateTime)
    requires Kept(h, parse, start, end).Some?
    ensures forall r :: r in Kept(h, parse, start, end).value <==>
      r in h && parse(r.date).Some? && InWindow(parse(r.date).value, start, end)
    decreases |h|
  {
    if h != [] {
      var init := h[..|h| - 1];
      KeptIsWindow(init, parse, start, end);
      assert h == init + [h[|h| - 1]];
    }
  }

  /** With every date parsed and none inside the window, nothing is kept. */
  lemma {:induction false} NothingKept(h: seq<SalesRecord>, parse: string -> Option<DateTime>,
                                       start: DateTime, end: DateTime)
    requires Parses(h, parse)
    requires forall i :: 0 <= i < |h| ==> !InWindow(parse(h[i].date).value, start, end)
    ensures Kept(h, parse, start, end) == Some([])
    decreases |h|
  {
    if h != [] {
      NothingKept(h[..|h| - 1], parse, start, end);
    }
  }

  /** `sales` of the in-window records, 0 for the others, record by record. */
  function WindowSales(h: seq<SalesRecord>, parse: string -> Option<DateTime>, start: DateTime, end: DateTime)
    : (s: seq<int>)
    requires Parses(h, parse)
    ensures |s| == |h|
    ensures forall i :: 0 <= i < |h| ==>
      s[i] == if InWindow(parse(h[i].date).value, start, end) then h[i].sales else 0
  {
    if h == [] then []
    else
      var t := parse(h[|h| - 1].date).value;
      WindowSales(h[..|h| - 1], parse, start, end) + [if InWindow(t, start, end) then h[|h| - 1].sales else 0]
  }

  /** Each in-window record adds its sales once; the others add nothing. */
  lemma {:induction false} KeptSales(h: seq<SalesRecord>, parse: string -> Option<DateTime>,
                                     start: DateTime, end: DateTime)
    requires Parses(h, parse)
    ensures Kept(h, parse, start, end).Some?
    ensures TotalSales(Kept(h, parse, start, end).value) == Sum(WindowSales(h, parse, start, end))
    decreases |h|
  {
    KeptSucceedsIff(h, parse, start, end);
    if h != [] {
      var n := |h| - 1;
      var init := h[..n];
      KeptSales(init, parse, start, end);
      var k := Kept(init, parse, start, end).value;
      var w := WindowSales(h, parse, start, end);
      assert w[..n] == WindowSales(init, parse, start, end);
      assert w == w[..n] + [w[n]];
      SumConcat(w[..n], [w[n]]);
      assert Sum([w[n]]) == w[n] by { assert [w[n]] == [] + [w[n]]; }
      TotalSalesConcat(k, [h[n]]);
      assert TotalSales([h[n]]) == h[n].sales by { assert SalesOf([h[n]]) == [] + [h[n].sales]; }
    }
  }

  // ---------------------------------------------------------------------------
  // Grouping by month
  // ---------------------------------------------------------------------------

  /** `date.strftime('%Y-%m')` of each record. */
  function MonthKeys(h: seq<SalesRecord>, parse: string -> Option<DateTime>): (ks: seq<MonthKey>)
    requires Parses(h, parse)
    ensures |ks| == |h|
    ensures forall i :: 0 <= i < |h| ==> ks[i] == KeyOf(parse(h[i].date).value)
  {
    if h == [] then [] else MonthKeys(h[..|h| - 1], parse) + [KeyOf(parse(h[|h| - 1].date).value)]
  }

  /** `monthly_data[month_key]`: its running `sales`, `revenue`, `returns` (here `returnCount`) and `num_transactions`
      (`average_price` in it stays 0 and is never read). */
  datatype Bucket = Bucket(sales: int, revenue: real, returnCount: int, transactions: nat)

  const EmptyBucket := Bucket(0, 0.0, 0, 0)

  /** The four `+=` of the grouping loop; a missing `returns` key counts 0. */
  function Add(b: Bucket, r: SalesRecord): Bucket
  {
    Bucket(b.sales + r.sales, b.revenue + r.sales as real * r.price, b.returnCount + r.returned.GetOr(0),
           b.transactions + 1)
  }

  /** `sales * price` summed over the records. */
  function Revenue(h: seq<SalesRecord>): real
  {
    if h == [] then 0.0 else Revenue(h[..|h| - 1]) + h[|h| - 1].sales as real * h[|h| - 1].price
  }

  /** `returns` (0 when absent) summed over the records. */
  function ReturnsOrZero(h: seq<SalesRecord>): int
  {
    if h == [] then 0 else ReturnsOrZero(h[..|h| - 1]) + h[|h| - 1].returned.GetOr(0)
  }

  /** The bucket of `month` after the records: the totals over exactly the records of that
      month, and their number. */
  function BucketOf(keys: seq<MonthKey>, h: seq<SalesRecord>, month: MonthKey): Bucket
    requires |keys| == |h|
  {
    var mine := Select(keys, h, month);
    Bucket(TotalSales(mine), Revenue(mine), ReturnsOrZero(mine), |mine|)
  }

  /** One more record changes only its own month's bucket, by `Add`. */
  lemma BucketStep(keys: seq<MonthKey>, h: seq<SalesRecord>, month: MonthKey)
    requires |keys| == |h| > 0
    ensures var n := |h| - 1;
      BucketOf(keys, h, month)
      == if keys[n] == month then Add(BucketOf(keys[..n], h[..n], month), h[n])
         else BucketOf(keys[..n], h[..n], month)
  {
    var n := |h| - 1;
    var before := Select(keys[..n], h[..n], month);
    assert Select(keys, h, month) == before + (if keys[n] == month then [h[n]] else []);
    if keys[n] == month {
      AddOne(before, h[n]);
    } else {
      assert before + [] == before;
    }
  }

  /** The totals over the records and one more are the totals over the records, `Add`ed. */
  lemma AddOne(s: seq<SalesRecord>, r: SalesRecord)
    ensures TotalSales(s + [r]) == TotalSales(s) + r.sales
    ensures Revenue(s + [r]) == Revenue(s) + r.sales as real * r.price
    ensures ReturnsOrZero(s + [r]) == ReturnsOrZero(s) + r.returned.GetOr(0)
  {
    assert (s + [r])[..|s|] == s;
    TotalSalesConcat(s, [r]);
    assert TotalSales([r]) == r.sales by {
      assert SalesOf([r]) == [r.sales];
      assert [r.sales][..0] == [];
    }
  }

  // ---------------------------------------------------------------------------
  // Ordering the months
  // ---------------------------------------------------------------------------

  predicate Ascending(s: seq<MonthKey>)
  {
    forall i, j :: 0 <= i < j < |s| ==> KeyBefore(s[i], s[j])
  }

  function InsertKey(k: MonthKey, s: seq<MonthKey>): seq<MonthKey>
  {
    if s == [] || KeyBefore(k, s[0]) then [k] + s else [s[0]] + InsertKey(k, s[1..])
  }

  /** `sorted(monthly_data.keys())`: the distinct keys in ascending order. */
  function SortKeys(ks: seq<MonthKey>): (r: seq<MonthKey>)
    ensures multiset(r) == multiset(ks)
    ensures Distinct(ks) ==> Ascending(r)
  {
    if ks == [] then []
    else
      var init := ks[..|ks| - 1];
      assert ks == init + [ks[|ks| - 1]];
      SortKeysFacts(init, ks[|ks| - 1]);
      InsertKeyFacts(ks[|ks| - 1], SortKeys(init));
      InsertKey(ks[|ks| - 1], SortKeys(init))
  }

  lemma SortKeysFacts(init: seq<MonthKey>, k: MonthKey)
    ensures Distinct(init + [k]) ==> Distinct(init) && k !in multiset(init)
  {
    if Distinct(init + [k]) {
      assert forall i :: 0 <= i < |init| ==> (init + [k])[i] == init[i];
      assert (init + [k])[|init|] == k;
    }
  }

  lemma {:induction false} InsertKeyFacts(k: MonthKey, s: seq<MonthKey>)
    ensures multiset(InsertKey(k, s)) == multiset(s) + multiset{k}
    ensures Ascending(s) && k !in multiset(s) ==> Ascending(InsertKey(k, s))
  {
    InsertKeyPermutes(k, s);
    if Ascending(s) && k !in multiset(s) {
      InsertKeySorted(k, s);
    }
  }

  lemma {:induction false} InsertKeyPermutes(k: MonthKey, s: seq<MonthKey>)
    ensures multiset(InsertKey(k, s)) == multiset(s) + multiset{k}
    decreases |s|
  {
    if s != [] && !KeyBefore(k, s[0]) {
      InsertKeyPermutes(k, s[1..]);
      assert s == [s[0]] + s[1..];
    }
  }

  /** In an ascending run that `k` does not start before, the first key comes before `k`
      and before every later key. */
  lemma FirstBeforeRest(k: MonthKey, s: seq<MonthKey>, e: MonthKey)
    requires s != [] && Ascending(s) && !KeyBefore(k, s[0]) && k !in multiset(s)
    requires e == k || e in s[1..]
    ensures KeyBefore(s[0], e)
  {
    if e != k {
      var t :| 0 <= t < |s[1..]| && s[1..][t] == e;
      assert s[t + 1] == e;
    } else {
      assert s[0] in multiset(s);
    }
  }

  lemma {:induction false} InsertKeySorted(k: MonthKey, s: seq<MonthKey>)
    requires Ascending(s) && k !in multiset(s)
    ensures Ascending(InsertKey(k, s))
    decreases |s|
  {
    if s != [] && !KeyBefore(k, s[0]) {
      assert Ascending(s[1..]) && k !in multiset(s[1..]) by {
        assert s == [s[0]] + s[1..];
      }
      InsertKeySorted(k, s[1..]);
      var rest := InsertKey(k, s[1..]);
      assert forall e :: e in rest ==> KeyBefore(s[0], e) by {
        forall e | e in rest ensures KeyBefore(s[0], e) {
          InsertKeyPermutes(k, s[1..]);
          assert e in multiset(rest);
          FirstBeforeRest(k, s, e);
        }
      }
      ConsAscending(s[0], rest);
    } else if s != [] {
      assert forall e :: e in s ==> KeyBefore(k, e) by {
        forall e | e in s ensures KeyBefore(k, e) {
          var t :| 0 <= t < |s| && s[t] == e;
          if t > 0 {
            assert KeyBefore(s[0], s[t]);
          }
        }
      }
      ConsAscending(k, s);
    }
  }

  /** A key before every key of an ascending run starts an ascending run. */
  lemma ConsAscending(x: MonthKey, rest: seq<MonthKey>)
    requires Ascending(rest) && forall e :: e in rest ==> KeyBefore(x, e)
    ensures Ascending([x] + rest)
  {
    var r := [x] + rest;
    forall i, j | 0 <= i < j < |r| ensures KeyBefore(r[i], r[j]) {
      assert r[j] == rest[j - 1];
      if i > 0 {
        assert r[i] == rest[i - 1];
      }
    }
  }

  // ---------------------------------------------------------------------------
  // The report
  // ---------------------------------------------------------------------------

  /** One element of `time_series`. */
  datatype MonthEntry = MonthEntry(
    month: MonthKey,
    totalSales: int,
    totalRevenue: real,
    totalReturns: int,
    averagePrice: real,
    returnRate: real)

  datatype Summary = Summary(totalMonths: nat, totalSales: int, totalRevenue: real, averageMonthlySales: real)

  datatype DemandReport = DemandReport(timeSeries: seq<MonthEntry>, summary: Summary)

  /** The dictionary the series loop appends for one month: the ratios are guarded by the
      month's sales. */
  function EntryOf(month: MonthKey, b: Bucket): MonthEntry
  {
    var averagePrice := if b.sales > 0 then b.revenue / b.sales as real else 0.0;
    MonthEntry(month, b.sales, Round(b.revenue, 2), b.returnCount, Round(averagePrice, 2),
               if b.sales > 0 then Round(b.returnCount as real / b.sales as real, 4) else 0.0)
  }

  function SalesColumn(ts: seq<MonthEntry>): (s: seq<int>)
    ensures |s| == |ts| && forall i :: 0 <= i < |ts| ==> s[i] == ts[i].totalSales
  {
    if ts == [] then [] else SalesColumn(ts[..|ts| - 1]) + [ts[|ts| - 1].totalSales]
  }

  function RevenueColumn(ts: seq<MonthEntry>): (s: seq<real>)
    ensures |s| == |ts| && forall i :: 0 <= i < |ts| ==> s[i] == ts[i].totalRevenue
  {
    if ts == [] then [] else RevenueColumn(ts[..|ts| - 1]) + [ts[|ts| - 1].totalRevenue]
  }

  /** The `summary` dictionary. */
  function SummaryOf(ts: seq<MonthEntry>): Summary
  {
    var totalSales := Sum(SalesColumn(ts));
    Summary(|ts|, totalSales, Round(RealSum(RevenueColumn(ts)), 2),
            if ts == [] then 0.0 else Round(totalSales as real / |ts| as real, 2))
  }

  /** The time series of the kept records: one entry per month, in ascending month order. */
  function SeriesOf(kept: seq<SalesRecord>, parse: string -> Option<DateTime>): (ts: seq<MonthEntry>)
    requires Parses(kept, parse)
  {
    var keys := MonthKeys(kept, parse);
    var months := SortKeys(FirstSeen(keys));
    seq(|months|, i requires 0 <= i < |months| => EntryOf(months[i], BucketOf(keys, kept, months[i])))
  }

  /** `get_product_demand` on the product the loader returned: `None` for a missing product
      or history, and for every exception (a null history, a date that does not parse). */
  function DemandOf(product: Option<Product>, startDate: string, endDate: string,
                    parse: string -> Option<DateTime>): Option<DemandReport>
  {
    if product.None? || !product.value.history.Records? then None
    else if parse(startDate).None? || parse(endDate).None? then None
    else match Kept(product.value.history.records, parse, parse(startDate).value, parse(endDate).value)
      case None => None
      case Some(kept) =>
        var ts := SeriesOf(kept, parse);
        Some(DemandReport(ts, SummaryOf(ts)))
  }

  /** The filter loop: the kept records, or `None` at the first date that does not parse. */
  method FilterWindow(history: seq<SalesRecord>, parse: string -> Option<DateTime>, s: DateTime, e: DateTime)
    returns (r: Option<seq<SalesRecord>>)
    ensures r == Kept(history, parse, s, e)
  {
    var start, end := AsUtc(s), AsUtc(e);
    var filtered: seq<SalesRecord> := [];
    var i := 0;
    while i < |history|
      invariant 0 <= i <= |history|
      invariant Kept(history[..i], parse, s, e) == Some(filtered)
    {
      assert history[..i + 1][..i] == history[..i];
      var d := parse(history[i].date);
      if d.None? {
        KeptFailureExtends(history, i + 1, parse, s, e);
        return None;
      }
      var entryDate := AsUtc(d.value);
      AsUtcDiff(entryDate, start);
      AsUtcDiff(end, entryDate);
      if Diff(entryDate, start).value >= 0 && Diff(end, entryDate).value >= 0 {
        filtered := filtered + [history[i]];
      }
      i := i + 1;
    }
    assert history[..i] == history;
    r := Some(filtered);
  }

  /** The dictionary's keys are exactly the months in `order`. */
  ghost predicate SameKeys(buckets: map<MonthKey, Bucket>, order: seq<MonthKey>)
  {
    forall k :: k in buckets <==> k in order
  }

  /** Every bucket holds the totals of exactly its month's records among `h`. */
  ghost predicate BucketsMatch(buckets: map<MonthKey, Bucket>, keys: seq<MonthKey>, h: seq<SalesRecord>)
    requires |keys| == |h|
  {
    forall k :: k in buckets ==> buckets[k] == BucketOf(keys, h, k)
  }

  /** What the grouping loop has built after the records `h` with month keys `keys`: the
      keys in insertion order, and each key's bucket over exactly its records. */
  ghost predicate Grouped(buckets: map<MonthKey, Bucket>, order: seq<MonthKey>, keys: seq<MonthKey>, h: seq<SalesRecord>)
    requires |keys| == |h|
  {
    order == FirstSeen(keys) && SameKeys(buckets, order) && BucketsMatch(buckets, keys, h)
  }

  /** `if month_key not in monthly_data`: a new month is appended to the insertion order,
      which stays the first-seen order of the keys. */
  lemma OrderStep(buckets: map<MonthKey, Bucket>, order: seq<MonthKey>, keys: seq<MonthKey>, i: nat,
                  after: map<MonthKey, Bucket>)
    requires i < |keys|
    requires order == FirstSeen(keys[..i]) && SameKeys(buckets, order)
    requires after.Keys == buckets.Keys + {keys[i]}
    ensures var o := if keys[i] in buckets then order else order + [keys[i]];
      o == FirstSeen(keys[..i + 1]) && SameKeys(after, o)
  {
    FirstSeenStep(keys, i);
  }

  /** A month met for the first time has no records yet, so its fresh empty bucket is
      already the right one. */
  lemma OpenStep(buckets: map<MonthKey, Bucket>, keys: seq<MonthKey>, h: seq<SalesRecord>, i: nat)
    requires |keys| == |h| && i < |h|
    requires SameKeys(buckets, FirstSeen(keys[..i])) && BucketsMatch(buckets, keys[..i], h[..i])
    ensures var b := if keys[i] in buckets then buckets else buckets[keys[i] := EmptyBucket];
      BucketsMatch(b, keys[..i], h[..i])
  {
    var key := keys[i];
    if key !in buckets {
      assert forall j :: 0 <= j < i ==> keys[..i][j] != key;
      SelectAbsent(keys[..i], h[..i], key);
    }
  }

  /** Adding the record into its month's bucket keeps every bucket equal to its month's
      totals. */
  lemma AddStep(buckets: map<MonthKey, Bucket>, keys: seq<MonthKey>, h: seq<SalesRecord>, i: nat)
    requires |keys| == |h| && i < |h| && keys[i] in buckets
    requires BucketsMatch(buckets, keys[..i], h[..i])
    ensures BucketsMatch(buckets[keys[i] := Add(buckets[keys[i]], h[i])], keys[..i + 1], h[..i + 1])
  {
    var b1 := buckets[keys[i] := Add(buckets[keys[i]], h[i])];
    assert keys[..i + 1][..i] == keys[..i] && h[..i + 1][..i] == h[..i];
    forall k | k in b1 ensures b1[k] == BucketOf(keys[..i + 1], h[..i + 1], k) {
      BucketStep(keys[..i + 1], h[..i + 1], k);
    }
  }

  /** One turn of the grouping loop: create the month's bucket if it is new, then add the
      record into it. */
  lemma GroupStep(buckets: map<MonthKey, Bucket>, order: seq<MonthKey>, keys: seq<MonthKey>,
                  h: seq<SalesRecord>, i: nat, buckets': map<MonthKey, Bucket>, order': seq<MonthKey>)
    requires |keys| == |h| && i < |h|
    requires Grouped(buckets, order, keys[..i], h[..i])
    requires order' == if keys[i] in buckets then order else order + [keys[i]]
    requires var b := if keys[i] in buckets then buckets else buckets[keys[i] := EmptyBucket];
      buckets' == b[keys[i] := Add(b[keys[i]], h[i])]
    ensures Grouped(buckets', order', keys[..i + 1], h[..i + 1])
  {
    OpenStep(buckets, keys, h, i);
    var b := if keys[i] in buckets then buckets else buckets[keys[i] := EmptyBucket];
    OrderStep(buckets, order, keys, i, buckets');
    AddStep(b, keys, h, i);
  }

  lemma FirstSeenStep(keys: seq<MonthKey>, i: nat)
    requires i < |keys|
    ensures FirstSeen(keys[..i + 1])
         == if keys[i] in FirstSeen(keys[..i]) then FirstSeen(keys[..i]) else FirstSeen(keys[..i]) + [keys[i]]
  {
    assert keys[..i + 1][..i] == keys[..i];
  }

  /** The grouping loop: the buckets of `monthly_data` and its keys in insertion order. */
  method GroupByMonth(filtered: seq<SalesRecord>, parse: string -> Option<DateTime>)
    returns (buckets: map<MonthKey, Bucket>, order: seq<MonthKey>)
    requires Parses(filtered, parse)
    ensures Grouped(buckets, order, MonthKeys(filtered, parse), filtered)
  {
    ghost var keys := MonthKeys(filtered, parse);
    buckets := map[];
    order := [];
    var i := 0;
    while i < |filtered|
      invariant 0 <= i <= |filtered|
      invariant Grouped(buckets, order, keys[..i], filtered[..i])
    {
      var entry := filtered[i];
      var key := KeyOf(AsUtc(parse(entry.date).value));
      assert key == keys[i];
      ghost var before, beforeOrder := buckets, order;
      if key !in buckets {
        buckets := buckets[key := EmptyBucket];
        order := order + [key];
      }
      buckets := buckets[key := Add(buckets[key], entry)];
      GroupStep(before, beforeOrder, keys, filtered, i, buckets, order);
      i := i + 1;
    }
    assert keys[..i] == keys && filtered[..i] == filtered;
  }

  /** The series loop over `sorted(monthly_data.keys())`. */
  method BuildSeries(filtered: seq<SalesRecord>, parse: string -> Option<DateTime>,
                     buckets: map<MonthKey, Bucket>, order: seq<MonthKey>)
    returns (series: seq<MonthEntry>)
    requires Parses(filtered, parse)
    requires BucketsGiveSeries(buckets, order, filtered, parse)
    ensures series == SeriesOf(filtered, parse)
  {
    var months := SortKeys(order);
    ghost var ts := SeriesOf(filtered, parse);
    series := [];
    var j := 0;
    while j < |months|
      invariant 0 <= j <= |months| == |ts|
      invariant series == ts[..j]
    {
      PrefixGrows(ts, j);
      series := series + [EntryOf(months[j], buckets[months[j]])];
      j := j + 1;
    }
  }

  lemma PrefixGrows<T>(s: seq<T>, j: nat)
    requires j < |s|
    ensures s[..j + 1] == s[..j] + [s[j]]
  {
  }

  /** Reading the buckets in sorted key order gives the series, entry by entry. */
  ghost predicate BucketsGiveSeries(buckets: map<MonthKey, Bucket>, order: seq<MonthKey>,
                                    kept: seq<SalesRecord>, parse: string -> Option<DateTime>)
    requires Parses(kept, parse)
  {
    var months := SortKeys(order);
    var ts := SeriesOf(kept, parse);
    |months| == |ts| &&
    forall j :: 0 <= j < |months| ==> months[j] in buckets && ts[j] == EntryOf(months[j], buckets[months[j]])
  }

  /** The buckets the grouping loop builds give the series. */
  lemma GroupedGivesSeries(buckets: map<MonthKey, Bucket>, order: seq<MonthKey>,
                           kept: seq<SalesRecord>, parse: string -> Option<DateTime>)
    requires Parses(kept, parse)
    requires Grouped(buckets, order, MonthKeys(kept, parse), kept)
    ensures BucketsGiveSeries(buckets, order, kept, parse)
  {
    var keys := MonthKeys(kept, parse);
    assert order == FirstSeen(keys);
    SeriesUnfolds(kept, parse);
    SortedMonthsHaveBuckets(buckets, order, keys, kept);
  }

  /** Every month of the sorted key list has its bucket, holding that month's totals. */
  lemma SortedMonthsHaveBuckets(buckets: map<MonthKey, Bucket>, order: seq<MonthKey>,
                                keys: seq<MonthKey>, h: seq<SalesRecord>)
    requires |keys| == |h| && Grouped(buckets, order, keys, h)
    ensures var months := SortKeys(order);
      forall j :: 0 <= j < |months| ==> months[j] in buckets && buckets[months[j]] == BucketOf(keys, h, months[j])
  {
    var months := SortKeys(order);
    forall j | 0 <= j < |months| ensures months[j] in buckets {
      assert months[j] in multiset(months);
    }
  }

  /** The series unfolded: entry `t` belongs to the `t`-th sorted month and is built from
      that month's bucket. */
  lemma SeriesUnfolds(kept: seq<SalesRecord>, parse: string -> Option<DateTime>)
    requires Parses(kept, parse)
    ensures var keys := MonthKeys(kept, parse);
      var months := SortKeys(FirstSeen(keys));
      var ts := SeriesOf(kept, parse);
      |ts| == |months| &&
      forall t :: 0 <= t < |ts| ==> ts[t] == EntryOf(months[t], BucketOf(keys, kept, months[t]))
  {
  }

  method GetProductDemand(product: Option<Product>, startDate: string, endDate: string,
                          parse: string -> Option<DateTime>) returns (r: Option<DemandReport>)
    ensures r == DemandOf(product, startDate, endDate, parse)
  {
    if product.None? || !product.value.history.Records? {
      return None;
    }
    var s := parse(startDate);
    var e := parse(endDate);
    if s.None? || e.None? {
      return None;
    }
    var filtered := FilterWindow(product.value.history.records, parse, s.value, e.value);
    if filtered.None? {
      return None;
    }
    var buckets, order := GroupByMonth(filtered.value, parse);
    GroupedGivesSeries(buckets, order, filtered.value, parse);
    var series := BuildSeries(filtered.value, parse, buckets, order);
    r := Some(DemandReport(series, SummaryOf(series)));
  }

  // ---------------------------------------------------------------------------
  // What the report promises
  // ---------------------------------------------------------------------------

  function MonthColumn(ts: seq<MonthEntry>): (s: seq<MonthKey>)
    ensures |s| == |ts| && forall i :: 0 <= i < |ts| ==> s[i] == ts[i].month
  {
    if ts == [] then [] else MonthColumn(ts[..|ts| - 1]) + [ts[|ts| - 1].month]
  }

  lemma AscendingDistinct(s: seq<MonthKey>)
    requires Ascending(s)
    ensures Distinct(s)
  {
  }

  /** `time_series` has one entry per month of the kept records, in strictly ascending
      month order. */
  lemma SeriesMonths(kept: seq<SalesRecord>, parse: string -> Option<DateTime>)
    requires Parses(kept, parse)
    ensures var ms := MonthColumn(SeriesOf(kept, parse));
      Ascending(ms) && forall m :: m in ms <==> m in MonthKeys(kept, parse)
  {
    var keys := MonthKeys(kept, parse);
    var seen := FirstSeen(keys);
    var months := SortKeys(seen);
    var ts := SeriesOf(kept, parse);
    assert MonthColumn(ts) == months;
    SortedKeysMembers(keys);
  }

  /** `time_series` has one entry per distinct month of the kept records, in ascending month
      order, and each entry carries the totals of exactly that month's records (of which
      there is at least one): their sales, their returns (0 when absent), and their revenue
      to the nearest cent. */
  lemma SeriesEntries(kept: seq<SalesRecord>, parse: string -> Option<DateTime>)
    requires Parses(kept, parse)
    ensures var ts := SeriesOf(kept, parse);
      var keys := MonthKeys(kept, parse);
      && Ascending(MonthColumn(ts))
      && (forall m :: m in MonthColumn(ts) <==> m in keys)
      && forall t :: 0 <= t < |ts| ==>
           && Select(keys, kept, ts[t].month) != []
           && ts[t].totalSales == TotalSales(Select(keys, kept, ts[t].month))
           && ts[t].totalReturns == ReturnsOrZero(Select(keys, kept, ts[t].month))
           && NearestMultiple(Revenue(Select(keys, kept, ts[t].month)), ts[t].totalRevenue, 100)
  {
    var keys := MonthKeys(kept, parse);
    var months := SortKeys(FirstSeen(keys));
    var ts := SeriesOf(kept, parse);
    SeriesUnfolds(kept, parse);
    SeriesMonths(kept, parse);
    assert MonthColumn(ts) == months;
    forall t | 0 <= t < |ts|
      ensures && Select(keys, kept, ts[t].month) != []
              && ts[t].totalSales == TotalSales(Select(keys, kept, ts[t].month))
              && ts[t].totalReturns == ReturnsOrZero(Select(keys, kept, ts[t].month))
              && NearestMultiple(Revenue(Select(keys, kept, ts[t].month)), ts[t].totalRevenue, 100)
    {
      var m := months[t];
      EntryFigures(m, BucketOf(keys, kept, m));
      assert m in MonthColumn(ts);
      SelectPresent(keys, kept, m);
    }
  }

  /** The sorted distinct keys are exactly the keys. */
  lemma SortedKeysMembers(keys: seq<MonthKey>)
    ensures var months := SortKeys(FirstSeen(keys));
      Ascending(months) && forall m :: m in months <==> m in keys
  {
    var seen := FirstSeen(keys);
    var months := SortKeys(seen);
    forall m ensures m in months <==> m in keys {
      assert m in months <==> m in multiset(months);
      assert m in seen <==> m in multiset(seen);
      if m in keys {
        var i :| 0 <= i < |keys| && keys[i] == m;
      }
    }
  }

  /** Selecting a month's records and then their sales is selecting that month's sales. */
  lemma {:induction false} SelectSales(keys: seq<MonthKey>, h: seq<SalesRecord>, m: MonthKey)
    requires |keys| == |h|
    ensures SalesOf(Select(keys, h, m)) == Select(keys, SalesOf(h), m)
    decreases |h|
  {
    if h != [] {
      var n := |h| - 1;
      SelectSales(keys[..n], h[..n], m);
      assert SalesOf(h)[..n] == SalesOf(h[..n]);
      var before := Select(keys[..n], h[..n], m);
      var extra := if keys[n] == m then [h[n]] else [];
      assert SalesOf(before + extra) == SalesOf(before) + SalesOf(extra);
    }
  }

  /** The `total_sales` column of entries built from the groups `ms` adds up to the sum of
      the groups' totals. */
  lemma {:induction false} SalesColumnSum(ts: seq<MonthEntry>, ms: seq<MonthKey>, keys: seq<MonthKey>,
                                          h: seq<SalesRecord>)
    requires |keys| == |h| && |ts| == |ms|
    requires forall i :: 0 <= i < |ts| ==> ts[i].totalSales == TotalSales(Select(keys, h, ms[i]))
    ensures Sum(SalesColumn(ts)) == SumOver(ms, keys, SalesOf(h))
    decreases |ts|
  {
    if ts != [] {
      var n := |ts| - 1;
      SalesColumnSum(ts[..n], ms[..n], keys, h);
      SelectSales(keys, h, ms[n]);
      var col := SalesColumn(ts);
      assert col[..n] == SalesColumn(ts[..n]);
    }
  }

  /** `summary.total_months` counts the entries and `summary.total_sales`, the sum of the
      monthly totals, is the total sales of the kept records: every kept record is counted
      in exactly one month. */
  lemma SummaryTotals(kept: seq<SalesRecord>, parse: string -> Option<DateTime>)
    requires Parses(kept, parse)
    ensures var ts := SeriesOf(kept, parse);
      SummaryOf(ts).totalMonths == |ts| && SummaryOf(ts).totalSales == TotalSales(kept)
  {
    var keys := MonthKeys(kept, parse);
    var months := SortKeys(FirstSeen(keys));
    var ts := SeriesOf(kept, parse);
    SeriesUnfolds(kept, parse);
    SeriesMonths(kept, parse);
    assert MonthColumn(ts) == months;
    AscendingDistinct(months);
    SalesColumnSum(ts, months, keys, kept);
    forall i | 0 <= i < |keys| ensures keys[i] in months {
      assert keys[i] in keys;
    }
    Partition(months, keys, SalesOf(kept));
  }

  /** The monthly figures: totals carried over, revenue to the nearest cent, and the two
      ratios rounded from their exact values when the month sold something and 0 when it
      did not. */
  lemma EntryFigures(month: MonthKey, b: Bucket)
    ensures var e := EntryOf(month, b);
      && e.month == month && e.totalSales == b.sales && e.totalReturns == b.returnCount
      && NearestMultiple(b.revenue, e.totalRevenue, 100)
      && (b.sales > 0 ==> NearestMultiple(b.revenue / b.sales as real, e.averagePrice, 100)
                          && NearestMultiple(b.returnCount as real / b.sales as real, e.returnRate, 10000))
      && (b.sales <= 0 ==> e.averagePrice == 0.0 && e.returnRate == 0.0)
  {
    assert Pow10(2) == 100 && Pow10(4) == 10000 by {
      assert Pow10(1) == 10 && Pow10(3) == 1000;
    }
    RoundIsNearest(b.revenue, 2);
    if b.sales > 0 {
      RoundIsNearest(b.revenue / b.sales as real, 2);
      RoundIsNearest(b.returnCount as real / b.sales as real, 4);
    } else {
      RoundIsNearest(0.0, 2);
    }
  }

  /** A whole number of cents. */
  ghost predicate Cents(x: real)
  {
    (x * 100.0).Floor as real == x * 100.0
  }

  lemma {:induction false} CentsAddUp(s: seq<real>)
    requires forall i :: 0 <= i < |s| ==> Cents(s[i])
    ensures Cents(RealSum(s))
    decreases |s|
  {
    if s != [] {
      var n := |s| - 1;
      CentsAddUp(s[..n]);
      var a, b := RealSum(s[..n]) * 100.0, s[n] * 100.0;
      assert RealSum(s) * 100.0 == a + b;
      assert (a + b).Floor == a.Floor + b.Floor;
    }
  }

  /** A month's `total_revenue` is a whole number of cents. */
  lemma RevenueInCents(month: MonthKey, b: Bucket)
    ensures Cents(EntryOf(month, b).totalRevenue)
  {
    assert Pow10(2) == 100 by {
      assert Pow10(1) == 10;
    }
    RoundIsNearest(b.revenue, 2);
  }

  /** Rounding a whole number of cents to two places leaves it unchanged. */
  lemma RoundCents(x: real)
    requires Cents(x)
    ensures Round(x, 2) == x
  {
    assert Pow10(2) == 100 by {
      assert Pow10(1) == 10;
    }
    RoundIsNearest(x, 2);
  }

  /** `summary.total_revenue` is exactly the sum of the rounded monthly revenues: they are
      whole cents, so rounding their sum again changes nothing. */
  lemma SummaryRevenue(ts: seq<MonthEntry>)
    requires forall i :: 0 <= i < |ts| ==> Cents(ts[i].totalRevenue)
    ensures SummaryOf(ts).totalRevenue == RealSum(RevenueColumn(ts))
  {
    CentsAddUp(RevenueColumn(ts));
    RoundCents(RealSum(RevenueColumn(ts)));
  }

  /** `average_monthly_sales` is the total spread over the months, to the cent, and 0 for
      an empty series. */
  lemma AverageMonthlySales(ts: seq<MonthEntry>)
    ensures ts == [] ==> SummaryOf(ts).averageMonthlySales == 0.0
    ensures ts != [] ==>
      NearestMultiple(SummaryOf(ts).totalSales as real / |ts| as real, SummaryOf(ts).averageMonthlySales, 100)
  {
    assert Pow10(2) == 100 by {
      assert Pow10(1) == 10;
    }
    if ts != [] {
      RoundIsNearest(Sum(SalesColumn(ts)) as real / |ts| as real, 2);
    }
  }

  /** The series' revenues are whole cents, so the summary revenue is their exact sum. */
  lemma SeriesRevenue(kept: seq<SalesRecord>, parse: string -> Option<DateTime>)
    requires Parses(kept, parse)
    ensures var ts := SeriesOf(kept, parse);
      SummaryOf(ts).totalRevenue == RealSum(RevenueColumn(ts))
  {
    var ts := SeriesOf(kept, parse);
    var keys := MonthKeys(kept, parse);
    var months := SortKeys(FirstSeen(keys));
    SeriesUnfolds(kept, parse);
    forall i | 0 <= i < |ts| ensures Cents(ts[i].totalRevenue) {
      RevenueInCents(months[i], BucketOf(keys, kept, months[i]));
    }
    SummaryRevenue(ts);
  }

  /** The report fails exactly when the product or its history list is missing, a window
      bound does not parse, or some record's date does not parse. */
  lemma DemandNoneIff(product: Option<Product>, startDate: string, endDate: string,
                      parse: string -> Option<DateTime>)
    ensures DemandOf(product, startDate, endDate, parse).None? <==>
      || product.None? || !product.value.history.Records?
      || parse(startDate).None? || parse(endDate).None?
      || !Parses(product.value.history.records, parse)
  {
    if product.Some? && product.value.history.Records? && parse(startDate).Some? && parse(endDate).Some? {
      KeptSucceedsIff(product.value.history.records, parse, parse(startDate).value, parse(endDate).value);
    }
  }

  /** A report's summary counts its months and totals the sales of the records dated
      inside the window. */
  lemma DemandSummary(product: Option<Product>, startDate: string, endDate: string,
                      parse: string -> Option<DateTime>)
    requires DemandOf(product, startDate, endDate, parse).Some?
    ensures var rep := DemandOf(product, startDate, endDate, parse).value;
      var h := product.value.history.records;
      && Parses(h, parse)
      && rep.summary.totalMonths == |rep.timeSeries|
      && rep.summary.totalSales == Sum(WindowSales(h, parse, parse(startDate).value, parse(endDate).value))
  {
    var h := product.value.history.records;
    var s, e := parse(startDate).value, parse(endDate).value;
    DemandNoneIff(product, startDate, endDate, parse);
    KeptSales(h, parse, s, e);
    SummaryTotals(Kept(h, parse, s, e).value, parse);
  }

  /** No record in the window gives an empty series with zero totals, not `None`. */
  lemma EmptyWindow(product: Option<Product>, startDate: string, endDate: string,
                    parse: string -> Option<DateTime>)
    requires product.Some? && product.value.history.Records?
    requires parse(startDate).Some? && parse(endDate).Some?
    requires var h := product.value.history.records;
      Parses(h, parse) &&
      forall i :: 0 <= i < |h| ==> !InWindow(parse(h[i].date).value, parse(startDate).value, parse(endDate).value)
    ensures DemandOf(product, startDate, endDate, parse) == Some(DemandReport([], Summary(0, 0, 0.0, 0.0)))
  {
    var h := product.value.history.records;
    var s, e := parse(startDate).value, parse(endDate).value;
    NothingKept(h, parse, s, e);
  }
}
