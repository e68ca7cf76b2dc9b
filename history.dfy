/**
 * The product data the analyzers read, and the Python exceptions they can raise.
 */
module History {
  import opened Wrappers
  import opened Numeric
  import opened Dates

  /** One element of a product's `history` list: `{date, sales, price, returns}`.
      `returned` holds the `returns` key, which is optional in the stored JSON (`None` when the key is absent). */
  datatype SalesRecord = SalesRecord(date: string, sales: int, price: real, returned: Option<int>)

  /** `[r['sales'] for r in h]`. */
  function SalesOf(h: seq<SalesRecord>): (s: seq<int>)
    ensures |s| == |h| && forall i :: 0 <= i < |h| ==> s[i] == h[i].sales
  {
    if h == [] then [] else SalesOf(h[..|h| - 1]) + [h[|h| - 1].sales]
  }

  /** `sum(r['sales'] for r in h)`. */
  function TotalSales(h: seq<SalesRecord>): int
  {
    Sum(SalesOf(h))
  }

  /** Every record's date parses. */
  predicate Parses(h: seq<SalesRecord>, parse: string -> Option<DateTime>)
  {
    forall i :: 0 <= i < |h| ==> parse(h[i].date).Some?
  }

  predicate NonNegativeSales(h: seq<SalesRecord>)
  {
    forall i :: 0 <= i < |h| ==> h[i].sales >= 0
  }

  lemma {:induction false} TotalSalesConcat(a: seq<SalesRecord>, b: seq<SalesRecord>)
    ensures TotalSales(a + b) == TotalSales(a) + TotalSales(b)
  {
    assert SalesOf(a + b) == SalesOf(a) + SalesOf(b);
    SumConcat(SalesOf(a), SalesOf(b));
  }

  lemma TotalSalesNonNegative(h: seq<SalesRecord>)
    requires NonNegativeSales(h)
    ensures TotalSales(h) >= 0
  {
    SumNonNegative(SalesOf(h));
  }

  /** An entry of the older `demandHistory.monthly` list: its `date` and the other keys,
      carried through unread. */
  datatype DemandEntry = DemandEntry(date: string, fields: map<string, real>)

  /** The older `demandHistory` object; `monthly` is `None` when that key is absent. */
  datatype DemandHistory = DemandHistory(monthly: Option<seq<DemandEntry>>)

  /** The `history` key of a loaded product: absent, JSON null, or a list of records. */
  datatype HistoryField = NoHistoryKey | NullHistory | Records(records: seq<SalesRecord>)

  /** A product dictionary as the analyzers read it: its `history` key, and the
      `demandHistory` and `metrics` keys that the older demand function looks up (`None`
      when the dictionary has no such key). */
  datatype Product = Product(
    history: HistoryField,
    demandHistory: Option<DemandHistory>,
    metrics: Option<map<string, real>>)

  /** A product as the database loaders return it: they select only the columns
      `product_id, name, category, price, attributes, history`, so the dictionary never
      has a `demandHistory` or a `metrics` key. */
  predicate Loaded(p: Product)
  {
    p.demandHistory.None? && p.metrics.None?
  }

  /** The exceptions the analyzers and tools raise. */
  datatype Fault =
    | InvalidInput                 // ValueError("Invalid input parameters") from a tool
    | BadIsoFormat(text: string)   // ValueError from datetime.fromisoformat
    | MissingKey(key: string)      // KeyError on a dictionary lookup
    | ZeroDivision                 // ZeroDivisionError
    | NaiveAwareComparison         // TypeError comparing a naive with an aware datetime
    | NaiveAwareSubtraction        // TypeError subtracting a naive from an aware datetime
    | NotImplemented               // NotImplementedError from the base Tool.execute
    | NotIterable                  // TypeError iterating over a null history

  /** `str(e)` for each exception. For `BadIsoFormat` it is the text `fromisoformat`
      gives a string that is not in ISO format at all. */
  function Message(f: Fault): string
  {
    match f
    case InvalidInput => "Invalid input parameters"
    case BadIsoFormat(text) => "Invalid isoformat string: '" + text + "'"
    case MissingKey(key) => "'" + key + "'"
    case ZeroDivision => "float division by zero"
    case NaiveAwareComparison => "can't compare offset-naive and offset-aware datetimes"
    case NaiveAwareSubtraction => "can't subtract offset-naive and offset-aware datetimes"
    case NotImplemented => ""
    case NotIterable => "'NoneType' object is not iterable"
  }

  /** How a Python call ends: it returns a value or raises an exception. */
  datatype Outcome<+T> = Returned(value: T) | Raised(fault: Fault)
}
