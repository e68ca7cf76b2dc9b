# Sales-history analytics engine, modelled in Dafny

This project models the analytics core of an e-commerce assistant. A product has a
sales history: a list of `{date, sales, price, returns}` records. Three analyzers turn
that history into metrics, and a thin tool layer validates a request, runs an
analyzer and records whether the run succeeded.

- **Demand** (`Demand`, `ecommerce_calculator/analysis/demand.py`) keeps the records
  dated inside an inclusive `[start, end]` window. Both bounds and every record date
  are stamped UTC. It then groups the kept records by `YYYY-MM` and sums sales, revenue
  and returns per month. The result is a month-sorted time series with guarded
  ratios, plus a summary. Every exception becomes `None`.
- **Lifecycle** (`Lifecycle`, `ecommerce_calculator/analysis/lifecycle.py`) sorts the
  history by its raw date string. It cuts the sorted list into windows of 90 records
  and sums each one. From those sums it derives:
  - guarded growth rates, their mean and their capped standard deviation;
  - market saturation;
  - competitive pressure.

  It then classifies the stage, counts days in stage and computes a clamped
  transition risk.
- **Seasonality** (`Seasonality`, `ecommerce_calculator/analysis/seasonality.py`)
  groups sales by month of year and computes per-month averages and indices. It
  marks peak months (index > 1.1) and low months (index < 0.9). It computes a
  strength in [0, 1] and interprets it as strong, moderate or weak, with a
  confidence score.
- **Tools** (`Tools`, `ecommerce_calculator/tools/`) covers:
  - `ToolMetrics`, with its success flag and error text;
  - the tools' `validate_input` and `execute`;
  - the name-to-tool `ToolRepository`.
- **Legacy** (`Legacy`, `main.py`) covers the two places where the older single-file
  program differs from the package:
  - its `get_product_demand`, which filters the stored `demandHistory.monthly`
    entries to the window;
  - its demand validator, which never compares the two dates.

  Both database loaders select only the columns `product_id, name, category, price,
  attributes, history` (`main.py` lines 79-88 and
  `ecommerce_calculator/database/operations.py` lines 20-30). A loaded product therefore
  never has the `demandHistory` key that the older `get_product_demand` looks up.
  `History.Loaded` states this. `Legacy.LoadedProductsHaveNoOldDemand` and
  `Tools.OldDemandToolNeverSucceeds` prove that the older demand path returns `None`
  for every product the program loads. Its filtering is modelled for a product that
  does carry that key.

  The rest of `main.py` is a verbatim copy of the package:
  - `get_product_lifecycle` at 116-133, and the lifecycle and seasonality functions
    at 135-342;
  - `ToolMetrics` and the tool classes at 401-490;
  - `ToolRepository` at 522-539.

  The package members model those copies too. Several rows below cite the
  `main.py` lines instead.

Support modules:

| module | what it holds |
|---|---|
| `Wrappers` | Python's `None`, as an `Option` |
| `PyText` | `str.strip()`, and the `<` order on `str` |
| `Dates` | parsed datetimes, naive or aware, with Python's comparison and subtraction rules (a naive value mixed with an aware one raises `TypeError`) |
| `Numeric` | sums, means, `min`/`max`, and `round(x, k)` as round-half-to-even on reals |
| `History` | the record, product and exception types, and `Outcome`, which means "returns a value or raises" |
| `Grouping` | the dictionary-building loops: insertion order, the values under each key, and the fact that the groups together hold every value exactly once |

Some inputs are outside the model and are passed in as parameters:

- the product loader (`load_product_data`);
- `datetime.fromisoformat`, as `parse`;
- `variance ** 0.5`, as `sqrt`;
- `datetime.now()`, as `now`.

The imperative loops keep their form. Each loop is a `method` with invariants, proved
equal to a specification function:

- the demand filter, group-by-month and time-series loops;
- the lifecycle quarter and growth-rate loops;
- the seasonality grouping, averaging and indexing loops;
- `ToolRepository.register_tool`;
- `execute` updating its metrics.

Lemmas prove what the source promises about those functions.

## Model

| member | source | states |
|---|---|---|
| `Demand.Kept` | ecommerce_calculator/analysis/demand.py:24-28 | the filter loop either fails on an unparsable date or returns a sub-list of the history whose dates all parse |
| `Demand.KeptFailureExtends` | ecommerce_calculator/analysis/demand.py:25-26 | one unparsable date anywhere in the history makes the whole loop fail |
| `Demand.KeptSucceedsIff` | ecommerce_calculator/analysis/demand.py:24-28 | the loop completes exactly when every record's date parses |
| `Demand.KeptIsWindow` | ecommerce_calculator/analysis/demand.py:27-28 | a record is kept exactly when it is in the history and its UTC-stamped date lies in `[start, end]`, both ends included |
| `Demand.NothingKept` | ecommerce_calculator/analysis/demand.py:24-28 | when every date parses and none lies in the window, nothing is kept |
| `Demand.WindowSales` | ecommerce_calculator/analysis/demand.py:24-28 | per record: its sales when it lies in the window, 0 otherwise |
| `Demand.KeptSales` | ecommerce_calculator/analysis/demand.py:24-28 | the kept records' total sales equals the sum of the in-window sales |
| `Demand.FilterWindow` | ecommerce_calculator/analysis/demand.py:24-28 | the filtering loop (with its invariants) computes exactly the kept list |
| `Demand.MonthKeys` | ecommerce_calculator/analysis/demand.py:33-34 | each record's month key is the `(year, month)` of its parsed date |
| `Demand.BucketStep` | ecommerce_calculator/analysis/demand.py:45-48 | one more record adds to its own month's bucket only |
| `Demand.AddOne` | ecommerce_calculator/analysis/demand.py:45-47 | adding a record adds its sales, its `sales*price`, and its returns (0 when absent) |
| `Demand.GroupByMonth` | ecommerce_calculator/analysis/demand.py:31-48 | after the loop, the buckets' keys are the kept months in first-seen order. Each bucket holds the sales, revenue, returns and count of exactly that month's records |
| `Demand.SortKeys` | ecommerce_calculator/analysis/demand.py:52 | `sorted(keys)` is a permutation of the keys, strictly ascending when the keys are distinct |
| `Demand.SortedKeysMembers` | ecommerce_calculator/analysis/demand.py:52 | the sorted distinct keys are strictly ascending and contain exactly the months that occur |
| `Demand.SortedMonthsHaveBuckets` | ecommerce_calculator/analysis/demand.py:52-53 | every sorted month has a bucket, equal to the sums over that month's records |
| `Demand.BuildSeries` | ecommerce_calculator/analysis/demand.py:51-63 | the time-series loop builds exactly the specified series |
| `Demand.SeriesEntries` | ecommerce_calculator/analysis/demand.py:52-63 | the entries' months are strictly ascending and are exactly the kept records' months. Each entry's month has at least one record. Each entry carries that month's total sales, its total returns (0 when absent), and its revenue to the nearest cent |
| `Demand.SeriesMonths` | ecommerce_calculator/analysis/demand.py:56-57 | the `month` column is strictly ascending and holds exactly the months of the kept records |
| `Demand.EntryFigures` | ecommerce_calculator/analysis/demand.py:54-62 | `total_revenue` is revenue to the nearest cent, `average_price` revenue/sales to the cent, and `return_rate` returns/sales to 4 places. Both ratios are 0 when sales are 0, so nothing divides by zero |
| `Demand.SummaryTotals` | ecommerce_calculator/analysis/demand.py:67-69 | `total_months` is the number of entries, and `total_sales` equals the kept records' total sales |
| `Demand.SummaryRevenue` | ecommerce_calculator/analysis/demand.py:70 | once the monthly revenues are whole cents, rounding their sum changes nothing |
| `Demand.SeriesRevenue` | ecommerce_calculator/analysis/demand.py:70 | `total_revenue` is the plain sum of the already-rounded monthly revenues |
| `Demand.AverageMonthlySales` | ecommerce_calculator/analysis/demand.py:71 | the monthly average is 0 for an empty series, otherwise total/months to the cent |
| `Demand.GetProductDemand` | ecommerce_calculator/analysis/demand.py:8-77 | the whole analyzer, its loops included, returns the specified report or `None` |
| `Demand.DemandNoneIff` | ecommerce_calculator/analysis/demand.py:12-26 | `None` exactly when the product or its history is missing, or a bound or some record's date does not parse |
| `Demand.DemandSummary` | ecommerce_calculator/analysis/demand.py:65-72 | a report's summary counts its months, and its total sales are the in-window sales |
| `Demand.EmptyWindow` | ecommerce_calculator/analysis/demand.py:24-73 | with no record in range the result is an empty series with zero totals, not `None` |
| `Grouping.FirstSeen` | ecommerce_calculator/analysis/seasonality.py:30-31 | a dictionary's key order: distinct keys, each one occurring in the input, every input key present |
| `Grouping.GroupLists` | ecommerce_calculator/analysis/seasonality.py:30-32 | the lists dictionary has exactly the keys that occur |
| `Grouping.Partition` | ecommerce_calculator/analysis/demand.py:36-48 | over distinct groups that cover every key, the per-group sums add up to the total and the per-group counts to the number of values |
| `Grouping.FlattenPartition` | ecommerce_calculator/analysis/seasonality.py:40 | flattening the month lists gives back every sale exactly once (the same multiset), hence the same total and count |
| `Lifecycle.SortByDate` | ecommerce_calculator/analysis/lifecycle.py:12 | the history sorted ascending by its raw date string, as a permutation of the records |
| `Lifecycle.ComputeQuarters` | ecommerce_calculator/analysis/lifecycle.py:30-33 | the quarter loop computes exactly the window sums |
| `Lifecycle.QuarterCount` | main.py:141-144 | there are `ceil(n/90)` quarters |
| `Lifecycle.QuarterIsWindow` | ecommerce_calculator/analysis/lifecycle.py:31-32 | quarter `k` is the sales total of records `[90k, 90k+90)`, and the last window may be shorter |
| `Lifecycle.QuartersHoldAllSales` | ecommerce_calculator/analysis/lifecycle.py:30-33 | the quarter sums add up to the total sales |
| `Lifecycle.QuartersNonNegative` | ecommerce_calculator/analysis/lifecycle.py:32 | non-negative sales give non-negative quarters |
| `Lifecycle.ComputeGrowthRates` | ecommerce_calculator/analysis/lifecycle.py:36-40 | the growth loop computes exactly the guarded rates |
| `Lifecycle.GrowthRatesFromPositiveQuarters` | ecommerce_calculator/analysis/lifecycle.py:37-40 | exactly one rate per step whose previous quarter is positive (so at most `#quarters - 1`). Every such step's `(q[i+1]-q[i])/q[i]` is among the rates, and every rate is one of them, so nothing divides by zero |
| `Lifecycle.GrowthRatesAllPairs` | main.py:147-151 | when every previous quarter is positive, there is one rate per step, in order |
| `Lifecycle.FallingQuartersNegativeRates` | ecommerce_calculator/analysis/lifecycle.py:36-40 | strictly falling positive quarters give only negative rates, and at least one |
| `Lifecycle.SquaredDeviations` | ecommerce_calculator/analysis/lifecycle.py:66 | one `(r - mean)²` per rate |
| `Lifecycle.VarianceNonNegative` | ecommerce_calculator/analysis/lifecycle.py:65-66 | the population variance is never negative |
| `Lifecycle.VolatilityInUnitInterval` | ecommerce_calculator/analysis/lifecycle.py:61-67 | the volatility is 0 for no rates and always lies in [0, 1] |
| `Lifecycle.ConstantRatesNoVariance` | ecommerce_calculator/analysis/lifecycle.py:65-66 | equal rates have variance 0 |
| `Lifecycle.ConstantRatesNoVolatility` | ecommerce_calculator/analysis/lifecycle.py:61-67 | equal rates have volatility 0 |
| `Lifecycle.Peak` | ecommerce_calculator/analysis/lifecycle.py:48 | `max(quarters)`: at least every quarter, and equal to one of them |
| `Lifecycle.SaturationBounds` | ecommerce_calculator/analysis/lifecycle.py:47-49 | the market saturation lies in [0, 1] for non-negative quarters. With a positive peak it is 1 exactly when the last quarter is the peak. With a peak of 0 it is 0 |
| `Lifecycle.PriceChangesFail` | ecommerce_calculator/analysis/lifecycle.py:75-77 | the price changes raise `ZeroDivisionError` exactly when some price before the last one is 0 |
| `Lifecycle.PriceChangesValues` | ecommerce_calculator/analysis/lifecycle.py:75-77 | otherwise they are `abs(p[i+1]-p[i])/p[i]`, one per step |
| `Lifecycle.ReturnsOf` | ecommerce_calculator/analysis/lifecycle.py:82 | the `returns` column, record by record |
| `Lifecycle.PressureFaults` | ecommerce_calculator/analysis/lifecycle.py:69-87 | the pressure raises exactly on a zero price (`ZeroDivisionError`) or a record without `returns` (`KeyError`) |
| `Lifecycle.PressureBounds` | ecommerce_calculator/analysis/lifecycle.py:86-87 | the pressure is at most 1, and is non-negative for positive prices and non-negative sales and returns |
| `Lifecycle.ChangesNonNegative` | ecommerce_calculator/analysis/lifecycle.py:76-78 | with positive prices the mean price change is non-negative |
| `Lifecycle.PressureWithoutSales` | ecommerce_calculator/analysis/lifecycle.py:81-83 | with no sales the return-rate term is 0 |
| `Lifecycle.ClassifyRegions` | ecommerce_calculator/analysis/lifecycle.py:95-102 | the four stages as the four guarded regions of `(growth_rate, market_share)`, in branch order |
| `Lifecycle.CurrentStage` | main.py:200-213 | with `market_share` never written (so 0), only "decline" (exactly when growth < 0) and "introduction" can occur |
| `Lifecycle.DaysInStage` | ecommerce_calculator/analysis/lifecycle.py:104-112 | 0 without metrics or with an empty `stage_start_date`. A start date that does not parse raises `ValueError`. A computed count is never negative |
| `Lifecycle.DaysAreWholeDays` | ecommerce_calculator/analysis/lifecycle.py:110-112 | an aware start date raises `TypeError`. A naive one gives the whole days elapsed until `now`, floored at 0 |
| `Lifecycle.StageRisk` | ecommerce_calculator/analysis/lifecycle.py:114-130 | the transition risk lies in [0, 1], and is 0 without metrics |
| `Lifecycle.RiskIsWeightedSum` | ecommerce_calculator/analysis/lifecycle.py:124-130 | with factors in [0, 1] the risk is exactly `0.4·volatility + 0.3·saturation + 0.3·pressure` |
| `Lifecycle.CalculateLifecycleMetrics` | ecommerce_calculator/analysis/lifecycle.py:24-59 | the metrics computation, loops included, yields the specified metrics or exception |
| `Lifecycle.GetProductLifecycle` | ecommerce_calculator/analysis/lifecycle.py:5-22 | the analyzer yields the specified report: `None` without a product or history, `TypeError` for a null history |
| `Lifecycle.EmptyHistoryReport` | ecommerce_calculator/analysis/lifecycle.py:26-27 | an empty history gives `{'metrics': {}}`, with stage "introduction", 0 days and risk 0 |
| `Lifecycle.ReportInvariants` | ecommerce_calculator/analysis/lifecycle.py:16-20 | every report has stage decline (exactly when growth < 0) or introduction, days ≥ 0 and risk in [0, 1] |
| `Lifecycle.FallingSalesDecline` | ecommerce_calculator/analysis/lifecycle.py:36-43 | strictly falling positive quarters give a negative mean growth, hence "decline" |
| `Seasonality.GroupSalesByMonth` | ecommerce_calculator/analysis/seasonality.py:25-32 | the grouping loop fails exactly on an unparsable date. Otherwise it builds each month's sales list in history order, with months in first-seen order |
| `Seasonality.AveragePerMonth` | ecommerce_calculator/analysis/seasonality.py:35-37 | the averaging loop computes each month's mean sales |
| `Seasonality.IndexPerMonth` | ecommerce_calculator/analysis/seasonality.py:44-46 | the indexing loop computes each month's guarded index |
| `Seasonality.CalculateSeasonalityMetrics` | ecommerce_calculator/analysis/seasonality.py:19-69 | the metrics computation, its loops included, yields the specified patterns or exception |
| `Seasonality.MonthsPresent` | ecommerce_calculator/analysis/seasonality.py:25-46 | the keys of `monthly_averages` and of `monthly_indices` are exactly the months that occur, each once |
| `Seasonality.OverallIsMean` | ecommerce_calculator/analysis/seasonality.py:40-41 | `overall_average` is the mean of all sales, positive exactly when total sales are |
| `Seasonality.IndexMeaning` | ecommerce_calculator/analysis/seasonality.py:44-46 | with positive sales every index is that month's average divided by the overall average |
| `Seasonality.IndicesZero` | ecommerce_calculator/analysis/seasonality.py:46 | a non-positive overall average makes every index 0 |
| `Seasonality.NoSalesZeroIndices` | ecommerce_calculator/analysis/seasonality.py:41-46 | a history without sales gets index 0 for every month |
| `Seasonality.PeakMonths` | ecommerce_calculator/analysis/seasonality.py:49-52 | the months with index > 1.1 |
| `Seasonality.LowMonths` | ecommerce_calculator/analysis/seasonality.py:53-56 | the months with index < 0.9 |
| `Seasonality.PeakAndLowMonths` | ecommerce_calculator/analysis/seasonality.py:48-56 | peak months are those with index > 1.1 and low months those below 0.9. The two lists are disjoint and neither has duplicates |
| `Seasonality.Deviations` | ecommerce_calculator/analysis/seasonality.py:77 | one `(index - 1)²` per month |
| `Seasonality.StrengthBounds` | main.py:295-306 | the strength lies in [0, 1], and is 0 on an empty index map |
| `Seasonality.OneMonthNoSeasonality` | ecommerce_calculator/analysis/seasonality.py:35-82 | a positive-sales history within one month gets index 1.0 and strength 0 |
| `Seasonality.NoSalesFullSeasonality` | ecommerce_calculator/analysis/seasonality.py:41-81 | an all-zero-sales history has no peaks, all its months low, and strength 1.0 |
| `Seasonality.MonthName` | ecommerce_calculator/analysis/seasonality.py:90-94 | each month number has a non-empty English name |
| `Seasonality.NamesAreDistinct` | ecommerce_calculator/analysis/seasonality.py:90-94 | different months have different names |
| `Seasonality.Names` | ecommerce_calculator/analysis/seasonality.py:96-97 | the names of a month list, element by element |
| `Seasonality.InterpretationFacts` | ecommerce_calculator/analysis/seasonality.py:99-104 | the type is strong above 0.5, moderate above 0.2, weak otherwise. Confidence is `min(1, 1.5·strength)` in [0, 1]. The season lists name the peak and low months, with the same length and order |
| `Seasonality.GetProductSeasonality` | ecommerce_calculator/analysis/seasonality.py:5-17 | the analyzer yields the specified report or exception |
| `Seasonality.MeasuredStrength` | ecommerce_calculator/analysis/seasonality.py:71-82 | a non-empty parsable history is measured, with strength in [0, 1] |
| `Seasonality.ReportNoneIff` | ecommerce_calculator/analysis/seasonality.py:7-9 | `None` exactly when the product or its `history` key is missing |
| `Seasonality.ReportFailures` | ecommerce_calculator/analysis/seasonality.py:15-27 | an empty or null history raises `KeyError('seasonality_strength')`. An unparsable date raises `ValueError` for the first such date |
| `Seasonality.ReportStrength` | ecommerce_calculator/analysis/seasonality.py:12-17 | a non-empty parsable history yields its measured patterns with their interpretation |
| `Seasonality.ReportOfMeasured` | ecommerce_calculator/analysis/seasonality.py:12-15 | the report is the measured data with its interpretation attached |
| `Dates.MonthsAreContiguous` | ecommerce_calculator/analysis/lifecycle.py:110-111 | the day count behind `(now - start).days` has no gaps: a month's last day is followed by the next month's first, across year ends and in leap years |
| `Numeric.RoundIsNearest` | ecommerce_calculator/analysis/demand.py:59-62 | `round(x, k)` is a nearest multiple of `10^-k`. When `x` lies exactly halfway between two multiples, the result is the even one |
| `Numeric.Clamp01` | ecommerce_calculator/analysis/lifecycle.py:130 | `min(1.0, max(0.0, x))` lies in [0, 1] and leaves values already there unchanged |
| `PyText.StripNonEmptyIff` | ecommerce_calculator/tools/implementations.py:19 | `bool(s.strip())` holds exactly when `s` has a non-whitespace character |
| `Tools.ToolMetrics.constructor` | ecommerce_calculator/tools/base.py:6-10 | fresh metrics have `success == False` and `error == None` |
| `Tools.ToolMetrics.Complete` | ecommerce_calculator/tools/base.py:12-15 | `complete(s, e)` sets `success = s` and `error = e` |
| `Tools.Tool.constructor` | ecommerce_calculator/tools/base.py:19-22 | a base tool keeps its name and description and gets fresh metrics |
| `Tools.Tool.LifecycleTool` | ecommerce_calculator/tools/implementations.py:12-16 | name `product_lifecycle`, with its description |
| `Tools.Tool.SeasonalityTool` | ecommerce_calculator/tools/implementations.py:40-44 | name `product_seasonality`, with its description |
| `Tools.Tool.DemandTool` | ecommerce_calculator/tools/implementations.py:68-72 | name `product_demand`, with its description |
| `Tools.Tool.OldDemandTool` | main.py:486-490 | the older demand tool, with the same name and description |
| `Tools.Tool.ValidateInput` | ecommerce_calculator/tools/implementations.py:18-19 | the base tool accepts anything. The lifecycle and seasonality tools accept exactly an id with a non-whitespace character. The demand tools use their own checks |
| `Tools.ValidateDemand` | ecommerce_calculator/tools/implementations.py:74-94 | acceptance implies a non-blank id and two parsed dates. It can raise only the naive/aware `TypeError` |
| `Tools.ValidateDemandAcceptsIff` | ecommerce_calculator/tools/implementations.py:77-91 | it accepts exactly a non-blank id and two parsed dates of one kind with start ≤ end |
| `Tools.ValidateDemandRaisesIff` | ecommerce_calculator/tools/implementations.py:81-94 | it raises exactly when both dates parse and only one of them has an offset, since `except ValueError` does not catch `TypeError` |
| `Tools.SameDateAccepted` | ecommerce_calculator/tools/implementations.py:87-91 | `start == end` is accepted |
| `Tools.PackageValidatorStricter` | ecommerce_calculator/tools/implementations.py:81-91 | whatever the package validator accepts, the older one accepts |
| `Tools.ReversedDatesSplitValidators` | main.py:492-502 | a start after the end is rejected by the package validator but accepted by the older one |
| `Tools.Tool.RunAnalyzer` | ecommerce_calculator/tools/implementations.py:101 | each tool runs its own analyzer on the loaded product |
| `Tools.Tool.Execute` | ecommerce_calculator/tools/implementations.py:21-37 | `execute` returns or raises as specified. Afterwards the metrics record success exactly when data came back, and the exception text exactly when one was raised. The base tool raises `NotImplementedError` and leaves its metrics alone |
| `Tools.InvalidInputRaises` | ecommerce_calculator/tools/implementations.py:23-24 | rejected input raises `ValueError("Invalid input parameters")` |
| `Tools.ValidInputPassesThrough` | ecommerce_calculator/tools/implementations.py:26-33 | accepted input returns the analyzer's data unchanged, `None` for no data, and re-raises the analyzer's exception |
| `Tools.BlankIdRejected` | ecommerce_calculator/tools/implementations.py:46-52 | a whitespace-only id makes the package tools raise `ValueError`, whatever the store holds |
| `Tools.DemandToolFaults` | ecommerce_calculator/tools/implementations.py:96-112 | the package demand tool raises only for rejected input or a naive/aware comparison |
| `Tools.OldDemandToolFaults` | main.py:504-520 | the older demand tool raises only for rejected input, and passes a reversed window to its filter |
| `Tools.OldDemandToolNeverSucceeds` | main.py:504-520 | with a loaded product the older demand tool only rejects its input or returns `None`. It never returns data |
| `Tools.RecordedSuccessIff` | ecommerce_calculator/tools/implementations.py:55-65 | success is recorded exactly when data came back. An error text is recorded exactly when an exception was raised, and never together with success |
| `Tools.Inserted` | ecommerce_calculator/tools/base.py:39 | after `_tools[name] = t`, the name is listed and no other name appears |
| `Tools.InsertedKeepsOrder` | main.py:529 | re-registering keeps a name's place, and a new name goes last without duplicating any |
| `Tools.ToolRepository.constructor` | ecommerce_calculator/tools/base.py:34-35 | a new repository is empty |
| `Tools.ToolRepository.RegisterTool` | ecommerce_calculator/tools/base.py:37-39 | the tool is stored under its name, replacing any earlier one. `get_tool(name)` then returns it, and every other name keeps its tool |
| `Tools.ToolRepository.GetTool` | main.py:532-534 | the tool registered under the name, which carries that name; `None` for a name never registered |
| `Tools.ToolRepository.ListTools` | ecommerce_calculator/tools/base.py:45-48 | one `{name, description}` entry per registered name, no name twice, in first-registration order |
| `Legacy.BetweenIff` | main.py:357 | `start <= d <= end` holds exactly when `d` lies in the window, compared kind with kind |
| `Legacy.BetweenRaisesIff` | main.py:357 | the chain raises when `d` and `start` differ in kind, or when `start <= d` holds and `d` and `end` differ in kind |
| `Legacy.FilterEntries` | main.py:355-358 | the filtered list is no longer than the monthly list |
| `Legacy.FilterSucceedsIff` | main.py:355-366 | the comprehension fails exactly when some entry's date does not parse or its comparison raises |
| `Legacy.FilterKeepsPassing` | main.py:355-358 | an entry is kept exactly when it is one of the monthly entries and its date lies in the inclusive window |
| `Legacy.FilterConcat` | main.py:355-358 | filtering keeps the entries' order: the filter of a joined list is the join of the filters |
| `Legacy.FilterOne` | main.py:356-357 | a single entry is kept on its own exactly when it passes |
| `Legacy.OldDemandSomeIff` | main.py:346-366 | a result exists exactly when the product has `demandHistory.monthly`, both bounds parse, and no entry's test raises; otherwise `None` |
| `Legacy.OldDemandContents` | main.py:360-363 | the result holds exactly the in-window entries, plus the product's metrics (empty when absent) |
| `Legacy.LoadedProductsHaveNoOldDemand` | main.py:346-348 | on a product as the loaders return it (no `demandHistory` key) the older function returns `None` |
| `Legacy.OldValidateIff` | main.py:492-502 | the older validator accepts exactly a non-blank id and two parsable dates, in either order |

## Left out

- Database access (`load_product_data`), logging, the LLM request handlers, pydantic
  schemas and the console menus: all I/O. The loader is a parameter.
- `datetime.fromisoformat` is a parameter, `parse`, with `None` for a `ValueError`. It
  is not implemented.
- Time zones are offsets in microseconds. `replace(tzinfo=utc)` keeps the clock
  reading.
- `datetime.now()` is the `now` parameter: a naive value. `ToolMetrics.start_time`
  and `computation_time` are not modelled.
- Prices are taken to be floats. A zero price that JSON decodes as the integer `0` makes
  Python say "division by zero" rather than "float division by zero". So the error text
  that `execute` records for it may differ from `History.Message(ZeroDivision)`.
- `History.Message`: every `ValueError` from `datetime.fromisoformat` gets the text
  "Invalid isoformat string: '<text>'". Python gives other texts for a well-formed date
  whose fields are out of range ("day is out of range for month", "month must be in
  1..12"). It also quotes with `repr`, which differs when the text holds a quote or a
  backslash. `parse` returns only `None`, so the model does not carry that text, and
  the `error` that `execute` records for such dates may differ.
- IEEE floating point: prices and ratios are exact reals. `round(x, k)` is exact
  round-half-to-even, so binary representation errors are not modelled.
- `Lifecycle.VolatilityInUnitInterval` assumes only that `sqrt` maps 0 to 0 and
  non-negatives to non-negatives. It is not a true square root, so the volatility
  is proved to be in [0, 1] but not equal to the standard deviation.
- `Lifecycle.SortByDate`: the sort is proved ordered and a permutation. Stability
  (Python's `sorted` keeps equal dates in input order) is not stated.
- `Demand.SeriesMonths`: months are ordered as `(year, month)` pairs. `strftime('%Y-%m')`
  does not zero-pad years before 1000, so for those years the string sort could differ.
- `Demand.BuildSeries` requires the grouped buckets in the form
  `Demand.BucketsGiveSeries`. `Demand.GroupedGivesSeries` proves that form from
  `Demand.GroupByMonth`'s postcondition.
- `Seasonality.PeakAndLowMonths`: the order of `peak_months` and `low_months` (the
  order in which each month first appears) holds by the definition of
  `Seasonality.PeakMonths` and `Seasonality.LowMonths` over the first-seen month list.
  It is not stated as a separate lemma.
- `Tools.Tool.ValidateInput`: ids are strings, so the `isinstance(product_id, str)`
  test is not modelled.
- `Tools.Tool.Execute` treats an analyzer result as truthy exactly when it is not
  `None`. None of the analyzers returns an empty dict.
- Records always carry `date`, `sales` and `price`. A JSON `null` in `returns` or in
  the older program's `metrics` is treated as an absent key.
- A JSON `null` `demandHistory` in the older program is treated as an absent key. Both
  give `None`.
- Registering the three tools at module level (`main.py`, lines 541-545) is not modelled.
