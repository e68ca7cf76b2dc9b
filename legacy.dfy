/**
 * The parts of the older single-file program (`main.py`) that differ from the package:
 * its `get_product_demand`, which filters the stored `demandHistory.monthly` entries to
 * a date window instead of aggregating the sales history, and its `DemandTool`
 * validator, which checks that the dates parse but not their order. (Its lifecycle and
 * seasonality functions, its tool classes and its `ToolRepository` are the package's
 * own code again, and the package model stands for them.)
 */
module Legacy {
  import opened Wrappers
  import opened PyText
  import opened Dates
  import opened History

  // ---------------------------------------------------------------------------
  // The window test `start <= d <= end`
  // ---------------------------------------------------------------------------

  /** `start <= d <= end` as Python evaluates the chain: `start <= d` first, and
      `d <= end` only when that holds; either comparison of a naive with an aware
      value raises `TypeError`, here `None`. No time zone is stamped on the values. */
  function Between(start: DateTime, d: DateTime, end: DateTime): (r: Option<bool>)
  {
    match Diff(d, start)
    case None => None
    case Some(x) =>
      if x < 0 then Some(false)
      else match Diff(end, d)
        case None => None
        case Some(y) => Some(y >= 0)
  }

  /** The chain holds exactly when `d` lies in the window, compared kind with kind. */
  lemma BetweenIff(start: DateTime, d: DateTime, end: DateTime)
    ensures Between(start, d, end) == Some(true) <==> NotAfter(start, d) && NotAfter(d, end)
  {
  }

  /** The chain raises exactly when `d` and `start` differ in kind, or when they agree,
      `start <= d` holds, and `d` and `end` differ in kind; a `d` before `start` is
      rejected without ever meeting `end`. */
  lemma BetweenRaisesIff(start: DateTime, d: DateTime, end: DateTime)
    ensures Between(start, d, end).None? <==>
      || d.offset.None? != start.offset.None?
      || (NotAfter(start, d) && d.offset.None? != end.offset.None?)
  {
  }

  // ---------------------------------------------------------------------------
  // The comprehension over demandHistory.monthly
  // ---------------------------------------------------------------------------

  /** `[entry for entry in monthly if start <= fromisoformat(entry['date']) <= end]`;
      `None` when a date does not parse or a comparison raises. */
  function FilterEntries(entries: seq<DemandEntry>, parse: string -> Option<DateTime>,
                         start: DateTime, end: DateTime): (r: Option<seq<DemandEntry>>)
    ensures r.Some? ==> |r.value| <= |entries|
    decreases |entries|
  {
    if entries == [] then Some([])
    else match FilterEntries(entries[..|entries| - 1], parse, start, end)
      case None => None
      case Some(k) =>
        var e := entries[|entries| - 1];
        match parse(e.date)
        case None => None
        case Some(d) =>
          match Between(start, d, end)
          case None => None
          case Some(inside) => Some(if inside then k + [e] else k)
  }

  /** The test one entry passes: its date parses and lies in the window. */
  predicate Passes(e: DemandEntry, parse: string -> Option<DateTime>, start: DateTime, end: DateTime)
  {
    parse(e.date).Some? && Between(start, parse(e.date).value, end) == Some(true)
  }

  /** The test one entry survives without an exception. */
  predicate Evaluates(e: DemandEntry, parse: string -> Option<DateTime>, start: DateTime, end: DateTime)
  {
    parse(e.date).Some? && Between(start, parse(e.date).value, end).Some?
  }

  /** The filter fails exactly when some entry's test raises, wherever it stands. */
  lemma {:induction false} FilterSucceedsIff(entries: seq<DemandEntry>, parse: string -> Option<DateTime>,
                                             start: DateTime, end: DateTime)
    ensures FilterEntries(entries, parse, start, end).Some? <==>
      forall i :: 0 <= i < |entries| ==> Evaluates(entries[i], parse, start, end)
    decreases |entries|
  {
    if entries != [] {
      var init := entries[..|entries| - 1];
      FilterSucceedsIff(init, parse, start, end);
      if !(forall i :: 0 <= i < |init| ==> Evaluates(init[i], parse, start, end)) {
        var i :| 0 <= i < |init| && !Evaluates(init[i], parse, start, end);
        assert !Evaluates(entries[i], parse, start, end);
      }
    }
  }

  /** An entry is kept exactly when it is one of the entries and passes the test. */
  lemma {:induction false} FilterKeepsPassing(entries: seq<DemandEntry>, parse: string -> Option<DateTime>,
                                              start: DateTime, end: DateTime)
    requires FilterEntries(entries, parse, start, end).Some?
    ensures forall e :: e in FilterEntries(entries, parse, start, end).value <==>
      e in entries && Passes(e, parse, start, end)
    decreases |entries|
  {
    if entries != [] {
      var init := entries[..|entries| - 1];
      FilterKeepsPassing(init, parse, start, end);
      assert entries == init + [entries[|entries| - 1]];
    }
  }

  /** The filter keeps the entries' order: filtering a list that is two lists joined
      gives the two filtered lists joined. */
  lemma {:induction false} FilterConcat(a: seq<DemandEntry>, b: seq<DemandEntry>, parse: string -> Option<DateTime>,
                                        start: DateTime, end: DateTime)
    requires FilterEntries(a, parse, start, end).Some? && FilterEntries(b, parse, start, end).Some?
    ensures FilterEntries(a + b, parse, start, end)
         == Some(FilterEntries(a, parse, start, end).value + FilterEntries(b, parse, start, end).value)
    decreases |b|
  {
    if b == [] {
      assert a + b == a;
      assert FilterEntries(a, parse, start, end).value + [] == FilterEntries(a, parse, start, end).value;
    } else {
      var n := |b| - 1;
      var binit := b[..n];
      assert (a + b)[..|a + b| - 1] == a + binit;
      assert (a + b)[|a + b| - 1] == b[n];
      assert FilterEntries(binit, parse, start, end).Some?;
      FilterConcat(a, binit, parse, start, end);
      var ka := FilterEntries(a, parse, start, end).value;
      var ki := FilterEntries(binit, parse, start, end).value;
      var d := parse(b[n].date).value;
      if Between(start, d, end) == Some(true) {
        assert FilterEntries(b, parse, start, end).value == ki + [b[n]];
        assert (ka + ki) + [b[n]] == ka + (ki + [b[n]]);
      } else {
        assert FilterEntries(b, parse, start, end).value == ki;
      }
    }
  }

  /** A single entry is kept on its own exactly when it passes. */
  lemma FilterOne(e: DemandEntry, parse: string -> Option<DateTime>, start: DateTime, end: DateTime)
    requires Evaluates(e, parse, start, end)
    ensures FilterEntries([e], parse, start, end) == Some(if Passes(e, parse, start, end) then [e] else [])
  {
    assert [e][..|[e]| - 1] == [];
    assert FilterEntries([], parse, start, end) == Some([]);
    assert [] + [e] == [e];
  }

  // ---------------------------------------------------------------------------
  // get_product_demand of main.py
  // ---------------------------------------------------------------------------

  /** `{'demand_history': filtered, 'metrics': product.get('metrics', {})}`. */
  datatype OldDemandReport = OldDemandReport(demandHistory: seq<DemandEntry>, metrics: map<string, real>)

  /** The older `get_product_demand`: `None` without a product or a `demandHistory` key,
      and `None` for every exception inside its `try` (a date that does not parse, a
      missing `monthly` key, a naive value compared with an aware one). */
  function OldDemandOf(product: Option<Product>, startDate: string, endDate: string,
                       parse: string -> Option<DateTime>): (r: Option<OldDemandReport>)
  {
    if product.None? || product.value.demandHistory.None? then None
    else if parse(startDate).None? || parse(endDate).None? then None
    else if product.value.demandHistory.value.monthly.None? then None
    else match FilterEntries(product.value.demandHistory.value.monthly.value, parse,
                             parse(startDate).value, parse(endDate).value)
      case None => None
      case Some(kept) => Some(OldDemandReport(kept, product.value.metrics.GetOr(map[])))
  }

  /** The result exists exactly when the product has a `demandHistory` with a `monthly`
      list, both bounds parse, and every entry's test runs without an exception. */
  lemma OldDemandSomeIff(product: Option<Product>, startDate: string, endDate: string,
                         parse: string -> Option<DateTime>)
    ensures OldDemandOf(product, startDate, endDate, parse).Some? <==>
      && product.Some? && product.value.demandHistory.Some?
      && product.value.demandHistory.value.monthly.Some?
      && parse(startDate).Some? && parse(endDate).Some?
      && forall i :: 0 <= i < |product.value.demandHistory.value.monthly.value| ==>
           Evaluates(product.value.demandHistory.value.monthly.value[i], parse,
                     parse(startDate).value, parse(endDate).value)
  {
    if product.Some? && product.value.demandHistory.Some? && product.value.demandHistory.value.monthly.Some?
       && parse(startDate).Some? && parse(endDate).Some? {
      FilterSucceedsIff(product.value.demandHistory.value.monthly.value, parse,
                        parse(startDate).value, parse(endDate).value);
    }
  }

  /** A result holds exactly the stored entries dated inside the inclusive window, and
      the stored metrics, or an empty map when the product has none. */
  lemma OldDemandContents(product: Option<Product>, startDate: string, endDate: string,
                          parse: string -> Option<DateTime>)
    requires OldDemandOf(product, startDate, endDate, parse).Some?
    ensures var rep := OldDemandOf(product, startDate, endDate, parse).value;
      && (forall e :: e in rep.demandHistory <==>
            e in product.value.demandHistory.value.monthly.value
            && Passes(e, parse, parse(startDate).value, parse(endDate).value))
      && rep.metrics == (if product.value.metrics.Some? then product.value.metrics.value else map[])
  {
    FilterKeepsPassing(product.value.demandHistory.value.monthly.value, parse,
                       parse(startDate).value, parse(endDate).value);
  }

  /** The products the loaders return carry no `demandHistory` key, so on them the older
      function always returns `None`: its filtering path is never reached. */
  lemma LoadedProductsHaveNoOldDemand(product: Option<Product>, startDate: string, endDate: string,
                                      parse: string -> Option<DateTime>)
    requires product.Some? ==> Loaded(product.value)
    ensures OldDemandOf(product, startDate, endDate, parse) == None
  {
  }

  // ---------------------------------------------------------------------------
  // DemandTool.validate_input of main.py
  // ---------------------------------------------------------------------------

  /** The older demand validator: the id is not blank and both dates parse; the order of
      the dates is never looked at, and nothing it does can raise. */
  predicate OldValidateDemand(productId: string, startDate: string, endDate: string,
                              parse: string -> Option<DateTime>)
  {
    HasText(productId) && parse(startDate).Some? && parse(endDate).Some?
  }

  /** Accepted exactly when the id has a non-whitespace character and both dates parse,
      whichever comes first. */
  lemma OldValidateIff(productId: string, startDate: string, endDate: string,
                       parse: string -> Option<DateTime>)
    ensures OldValidateDemand(productId, startDate, endDate, parse) <==>
      && (exists i :: 0 <= i < |productId| && !IsSpace(productId[i]))
      && parse(startDate).Some? && parse(endDate).Some?
  {
    StripNonEmptyIff(productId);
  }
}
