/**
 * The tool layer over the three analyzers: the `ToolMetrics` a tool keeps about its
 * last run, the tools themselves (their input validators and `execute`), and the
 * `ToolRepository` that maps a tool's name to the tool.
 */
module Tools {
  import opened Wrappers
  import opened PyText
  import opened Dates
  import opened History
  import opened Grouping
  import Lifecycle
  import Seasonality
  import Demand
  import Legacy

  // ---------------------------------------------------------------------------
  // ToolMetrics
  // ---------------------------------------------------------------------------

  /** What a tool records about its last run: whether it produced data and the text of
      the exception it raised, if any. (The start and computation times are not kept.) */
  class ToolMetrics {
    var success: bool
    var error: Option<string>

    constructor()
      ensures !success && error == None
    {
      success := false;
      error := None;
    }

    /** `complete(success, error=None)`: both fields are overwritten. */
    method Complete(success: bool, error: Option<string>)
      modifies this
      ensures this.success == success && this.error == error
    {
      this.success := success;
      this.error := error;
    }
  }

  // ---------------------------------------------------------------------------
  // Tools
  // ---------------------------------------------------------------------------

  /** Which class a tool is: the base `Tool`, the package's three analyzer tools, or the
      demand tool of the older single-file program (whose lifecycle and seasonality
      tools are the package's again). */
  datatype Kind = BaseKind | LifecycleKind | SeasonalityKind | DemandKind | OldDemandKind

  /** The arguments of `execute`; only the demand tools read the two dates. */
  datatype Args = Args(productId: string, startDate: string, endDate: string)

  /** What the analyzers depend on outside the model: the product loader, ISO date
      parsing, the square root and the current time. */
  datatype Env = Env(
    load: string -> Option<Product>,
    parse: string -> Option<DateTime>,
    sqrt: real -> real,
    now: Lifecycle.LocalTime)

  /** The dictionary an analyzer returns. */
  datatype Report =
    | LifecycleResult(lifecycle: Lifecycle.LifecycleReport)
    | SeasonalityResult(seasonality: Seasonality.SeasonalityReport)
    | DemandResult(demand: Demand.DemandReport)
    | OldDemandResult(oldDemand: Legacy.OldDemandReport)

  /** An analyzer's outcome with its dictionary tagged by the analyzer. */
  function Tagged<T>(o: Outcome<Option<T>>, tag: T -> Report): (r: Outcome<Option<Report>>)
    ensures r.Raised? <==> o.Raised?
    ensures r.Raised? ==> r.fault == o.fault
    ensures r.Returned? ==> (r.value.Some? <==> o.value.Some?)
  {
    match o
    case Raised(f) => Raised(f)
    case Returned(None) => Returned(None)
    case Returned(Some(x)) => Returned(Some(tag(x)))
  }

  /** The demand validator of the package: `False` for a blank id or a date that does not
      parse, `start > end` decides otherwise; that comparison raises `TypeError` when
      one date carries an offset and the other does not, and the `except ValueError`
      around it does not catch that. */
  function ValidateDemand(productId: string, startDate: string, endDate: string,
                          parse: string -> Option<DateTime>): (r: Outcome<bool>)
    ensures r == Returned(true) ==> HasText(productId) && parse(startDate).Some? && parse(endDate).Some?
    ensures r.Raised? ==> r.fault == NaiveAwareComparison
  {
    if !HasText(productId) then Returned(false)
    else if parse(startDate).None? || parse(endDate).None? then Returned(false)
    else match Diff(parse(startDate).value, parse(endDate).value)
      case None => Raised(NaiveAwareComparison)
      case Some(d) => Returned(d <= 0)
  }

  /** `success` and `error` as `execute` leaves them after a run that ended in `r`:
      success exactly when data came back, the exception's text exactly when one was
      raised. */
  predicate Recorded(success: bool, error: Option<string>, r: Outcome<Option<Report>>)
  {
    && success == (r.Returned? && r.value.Some?)
    && error == (if r.Raised? then Some(Message(r.fault)) else None)
  }

  class Tool {
    const name: string
    const description: string
    const kind: Kind
    const metrics: ToolMetrics

    /** `Tool(name, description)`, with fresh metrics. */
    constructor(name: string, description: string)
      ensures this.name == name && this.description == description && kind == BaseKind
      ensures fresh(metrics) && !metrics.success && metrics.error == None
    {
      this.name := name;
      this.description := description;
      kind := BaseKind;
      metrics := new ToolMetrics();
    }

    constructor LifecycleTool()
      ensures name == "product_lifecycle" && description == "Analyze product lifecycle stage"
      ensures kind == LifecycleKind
      ensures fresh(metrics) && !metrics.success && metrics.error == None
    {
      name := "product_lifecycle";
      description := "Analyze product lifecycle stage";
      kind := LifecycleKind;
      metrics := new ToolMetrics();
    }

    constructor SeasonalityTool()
      ensures name == "product_seasonality" && description == "Analyze product seasonality patterns"
      ensures kind == SeasonalityKind
      ensures fresh(metrics) && !metrics.success && metrics.error == None
    {
      name := "product_seasonality";
      description := "Analyze product seasonality patterns";
      kind := SeasonalityKind;
      metrics := new ToolMetrics();
    }

    constructor DemandTool()
      ensures name == "product_demand" && description == "Analyze product demand patterns"
      ensures kind == DemandKind
      ensures fresh(metrics) && !metrics.success && metrics.error == None
    {
      name := "product_demand";
      description := "Analyze product demand patterns";
      kind := DemandKind;
      metrics := new ToolMetrics();
    }

    /** The `DemandTool` of the older single-file program: same name and description. */
    constructor OldDemandTool()
      ensures name == "product_demand" && description == "Analyze product demand patterns"
      ensures kind == OldDemandKind
      ensures fresh(metrics) && !metrics.success && metrics.error == None
    {
      name := "product_demand";
      description := "Analyze product demand patterns";
      kind := OldDemandKind;
      metrics := new ToolMetrics();
    }

    /** `validate_input`: the base class accepts anything; the lifecycle and seasonality
        tools accept an id with a non-whitespace character; the demand tools also need
        the dates (the package's in order). Only the package's demand check can raise. */
    function ValidateInput(args: Args, parse: string -> Option<DateTime>): (r: Outcome<bool>)
      ensures kind == BaseKind ==> r == Returned(true)
      ensures kind == LifecycleKind || kind == SeasonalityKind ==>
        r == Returned(exists i :: 0 <= i < |args.productId| && !IsSpace(args.productId[i]))
      ensures kind == DemandKind ==> r == ValidateDemand(args.productId, args.startDate, args.endDate, parse)
      ensures kind == OldDemandKind ==>
        r == Returned(Legacy.OldValidateDemand(args.productId, args.startDate, args.endDate, parse))
    {
      StripNonEmptyIff(args.productId);
      match kind
      case BaseKind => Returned(true)
      case LifecycleKind => Returned(HasText(args.productId))
      case SeasonalityKind => Returned(HasText(args.productId))
      case DemandKind => ValidateDemand(args.productId, args.startDate, args.endDate, parse)
      case OldDemandKind => Returned(Legacy.OldValidateDemand(args.productId, args.startDate, args.endDate, parse))
    }

    /** The analyzer this tool runs on the loaded product. */
    function Analysis(args: Args, env: Env): Outcome<Option<Report>>
    {
      var product := env.load(args.productId);
      match kind
      case BaseKind => Raised(NotImplemented)
      case LifecycleKind =>
        Tagged(Lifecycle.LifecycleOf(product, env.parse, env.sqrt, env.now), l => LifecycleResult(l))
      case SeasonalityKind =>
        Tagged(Seasonality.SeasonalityReportOf(product, env.parse), s => SeasonalityResult(s))
      case DemandKind =>
        Tagged(Returned(Demand.DemandOf(product, args.startDate, args.endDate, env.parse)), d => DemandResult(d))
      case OldDemandKind =>
        Tagged(Returned(Legacy.OldDemandOf(product, args.startDate, args.endDate, env.parse)),
               d => OldDemandResult(d))
    }

    /** How `execute` ends: the base class raises `NotImplementedError`; the others raise
        what validation raises, `ValueError("Invalid input parameters")` when it
        rejects, and otherwise return or raise what the analyzer does. */
    function Execution(args: Args, env: Env): Outcome<Option<Report>>
    {
      if kind == BaseKind then Raised(NotImplemented)
      else match ValidateInput(args, env.parse)
        case Raised(f) => Raised(f)
        case Returned(ok) => if ok then Analysis(args, env) else Raised(InvalidInput)
    }

    /** Runs the analyzer of this tool. */
    method RunAnalyzer(args: Args, env: Env) returns (r: Outcome<Option<Report>>)
      requires kind != BaseKind
      ensures r == Analysis(args, env)
    {
      var product := env.load(args.productId);
      match kind {
        case LifecycleKind =>
          var l := Lifecycle.GetProductLifecycle(product, env.parse, env.sqrt, env.now);
          r := Tagged(l, l => LifecycleResult(l));
        case SeasonalityKind =>
          var s := Seasonality.GetProductSeasonality(product, env.parse);
          r := Tagged(s, s => SeasonalityResult(s));
        case DemandKind =>
          var d := Demand.GetProductDemand(product, args.startDate, args.endDate, env.parse);
          r := Tagged(Returned(d), d => DemandResult(d));
        case OldDemandKind =>
          r := Tagged(Returned(Legacy.OldDemandOf(product, args.startDate, args.endDate, env.parse)),
                      d => OldDemandResult(d));
      }
    }

    /** `execute`: the outcome `Execution` describes, with the metrics recording it
        (the base class raises before touching them). */
    method Execute(args: Args, env: Env) returns (r: Outcome<Option<Report>>)
      modifies metrics
      ensures r == Execution(args, env)
      ensures kind == BaseKind ==> unchanged(metrics)
      ensures kind != BaseKind ==> Recorded(metrics.success, metrics.error, r)
    {
      if kind == BaseKind {
        return Raised(NotImplemented);
      }
      var valid := ValidateInput(args, env.parse);
      if valid.Raised? {
        r := Raised(valid.fault);
      } else if !valid.value {
        r := Raised(InvalidInput);
      } else {
        r := RunAnalyzer(args, env);
      }
      match r {
        case Raised(f) => metrics.Complete(false, Some(Message(f)));
        case Returned(v) => metrics.Complete(v.Some?, None);
      }
    }
  }

  // ---------------------------------------------------------------------------
  // Properties of the validators and of execute
  // ---------------------------------------------------------------------------

  /** The package's demand validator accepts exactly a non-blank id with two parsed
      dates of the same kind, the start not after the end. */
  lemma ValidateDemandAcceptsIff(productId: string, startDate: string, endDate: string,
                                 parse: string -> Option<DateTime>)
    ensures ValidateDemand(productId, startDate, endDate, parse) == Returned(true) <==>
      && (exists i :: 0 <= i < |productId| && !IsSpace(productId[i]))
      && parse(startDate).Some? && parse(endDate).Some?
      && NotAfter(parse(startDate).value, parse(endDate).value)
  {
    StripNonEmptyIff(productId);
  }

  /** It raises exactly when the id is not blank, both dates parse, and exactly one of
      them carries an offset. */
  lemma ValidateDemandRaisesIff(productId: string, startDate: string, endDate: string,
                                parse: string -> Option<DateTime>)
    ensures ValidateDemand(productId, startDate, endDate, parse).Raised? <==>
      && HasText(productId)
      && parse(startDate).Some? && parse(endDate).Some?
      && parse(startDate).value.offset.None? != parse(endDate).value.offset.None?
  {
  }

  /** The window may be a single instant: the same date twice is accepted. */
  lemma SameDateAccepted(productId: string, date: string, parse: string -> Option<DateTime>)
    requires HasText(productId) && parse(date).Some?
    ensures ValidateDemand(productId, date, date, parse) == Returned(true)
  {
  }

  /** A start after the end is rejected by the package's check but passes the older one. */
  lemma ReversedDatesSplitValidators(productId: string, startDate: string, endDate: string,
                                     parse: string -> Option<DateTime>)
    requires HasText(productId) && parse(startDate).Some? && parse(endDate).Some?
    requires Diff(parse(startDate).value, parse(endDate).value).Some?
    requires Diff(parse(startDate).value, parse(endDate).value).value > 0
    ensures ValidateDemand(productId, startDate, endDate, parse) == Returned(false)
    ensures Legacy.OldValidateDemand(productId, startDate, endDate, parse)
  {
  }

  /** Whatever the package's check accepts, the older one accepts too. */
  lemma PackageValidatorStricter(productId: string, startDate: string, endDate: string,
                                 parse: string -> Option<DateTime>)
    ensures ValidateDemand(productId, startDate, endDate, parse) == Returned(true) ==>
      Legacy.OldValidateDemand(productId, startDate, endDate, parse)
  {
  }

  /** Rejected input raises `ValueError("Invalid input parameters")` without running the
      analyzer. */
  lemma InvalidInputRaises(t: Tool, args: Args, env: Env)
    requires t.kind != BaseKind && t.ValidateInput(args, env.parse) == Returned(false)
    ensures t.Execution(args, env) == Raised(InvalidInput)
    ensures Message(t.Execution(args, env).fault) == "Invalid input parameters"
  {
  }

  /** Accepted input hands back the analyzer's outcome untouched: its data when there is
      some, `None` when it has none, and its exception when it raises. */
  lemma ValidInputPassesThrough(t: Tool, args: Args, env: Env)
    requires t.kind != BaseKind && t.ValidateInput(args, env.parse) == Returned(true)
    ensures t.Execution(args, env) == t.Analysis(args, env)
  {
  }

  /** A lifecycle, seasonality or package demand tool given a blank id raises
      `ValueError` whatever the product store holds. */
  lemma BlankIdRejected(t: Tool, args: Args, env: Env)
    requires t.kind == LifecycleKind || t.kind == SeasonalityKind || t.kind == DemandKind
    requires forall i :: 0 <= i < |args.productId| ==> IsSpace(args.productId[i])
    ensures t.Execution(args, env) == Raised(InvalidInput)
  {
    StripNonEmptyIff(args.productId);
  }

  /** The package's demand tool raises only for rejected input and for a naive date
      compared with an aware one; the analyzer swallows everything else into `None`. */
  lemma DemandToolFaults(t: Tool, args: Args, env: Env)
    requires t.kind == DemandKind
    ensures t.Execution(args, env).Raised? ==>
      t.Execution(args, env).fault == InvalidInput || t.Execution(args, env).fault == NaiveAwareComparison
  {
  }

  /** The older demand tool raises only for rejected input, and a reversed window gets
      through to its filter. */
  lemma OldDemandToolFaults(t: Tool, args: Args, env: Env)
    requires t.kind == OldDemandKind
    ensures t.Execution(args, env).Raised? ==> t.Execution(args, env).fault == InvalidInput
    ensures Legacy.OldValidateDemand(args.productId, args.startDate, args.endDate, env.parse) ==>
      t.Execution(args, env)
        == Tagged(Returned(Legacy.OldDemandOf(env.load(args.productId), args.startDate, args.endDate, env.parse)),
                  d => OldDemandResult(d))
  {
  }

  /** With a product as the database loaders return it, the older demand tool never returns
      data: it rejects the input or returns `None`, so its metrics never record success. */
  lemma OldDemandToolNeverSucceeds(t: Tool, args: Args, env: Env)
    requires t.kind == OldDemandKind
    requires env.load(args.productId).Some? ==> Loaded(env.load(args.productId).value)
    ensures t.Execution(args, env) == Raised(InvalidInput) || t.Execution(args, env) == Returned(None)
  {
    Legacy.LoadedProductsHaveNoOldDemand(env.load(args.productId), args.startDate, args.endDate, env.parse);
  }

  /** The metrics report success exactly when `execute` returns data. */
  lemma RecordedSuccessIff(success: bool, error: Option<string>, r: Outcome<Option<Report>>)
    requires Recorded(success, error, r)
    ensures success <==> r.Returned? && r.value.Some?
    ensures error.Some? <==> r.Raised?
    ensures success ==> error == None
  {
  }

  // ---------------------------------------------------------------------------
  // ToolRepository
  // ---------------------------------------------------------------------------

  /** A `{name, description}` entry of `list_tools`. */
  datatype ToolInfo = ToolInfo(name: string, description: string)

  /** The registry's dictionary as values: the tool under each name, and the names in
      the order the dictionary iterates them (the order each name was first inserted).
      Every tool sits under its own name. */
  ghost predicate Indexed(tools: map<string, Tool>, order: seq<string>)
  {
    && Distinct(order)
    && (forall n :: n in tools <==> n in order)
    && (forall n :: n in tools ==> tools[n].name == n)
  }

  /** A name's place in the iteration order after `_tools[name] = ...`: an existing key
      keeps its place, a new one goes last. */
  function Inserted(order: seq<string>, name: string): (r: seq<string>)
    ensures name in r && forall n :: n in order ==> n in r
    ensures forall n :: n in r ==> n in order || n == name
  {
    if name in order then order else order + [name]
  }

  /** Inserting a name keeps the order free of duplicates and a prefix of what it was
      extended to. */
  lemma InsertedKeepsOrder(order: seq<string>, name: string)
    requires Distinct(order)
    ensures Distinct(Inserted(order, name))
    ensures order <= Inserted(order, name)
    ensures |Inserted(order, name)| == if name in order then |order| else |order| + 1
  {
  }

  /** A list of distinct names that covers exactly a set has as many names as the set. */
  lemma {:induction false} DistinctCount(order: seq<string>, names: set<string>)
    requires Distinct(order)
    requires forall n :: n in names <==> n in order
    ensures |order| == |names|
    decreases |order|
  {
    if order != [] {
      var last := order[|order| - 1];
      var init := order[..|order| - 1];
      assert forall n :: n in init ==> n in order;
      assert last !in init;
      assert forall n :: n in names - {last} <==> n in init by {
        assert order == init + [last];
      }
      DistinctCount(init, names - {last});
    }
  }

  /** Entries that follow the names one by one name every registered tool, each once. */
  lemma ListingCovers(tools: map<string, Tool>, order: seq<string>, r: seq<ToolInfo>)
    requires Indexed(tools, order)
    requires |r| == |order| && forall i :: 0 <= i < |r| ==> r[i].name == order[i]
    ensures forall n :: n in tools <==> exists i :: 0 <= i < |r| && r[i].name == n
  {
    forall n | n in tools
      ensures exists i :: 0 <= i < |r| && r[i].name == n
    {
      var i :| 0 <= i < |order| && order[i] == n;
      assert r[i].name == n;
    }
  }

  class ToolRepository {
    var tools: map<string, Tool>
    var order: seq<string>

    ghost predicate Valid()
      reads this
    {
      Indexed(tools, order)
    }

    /** An empty repository. */
    constructor()
      ensures Valid() && tools == map[] && order == []
    {
      tools := map[];
      order := [];
    }

    /** `register_tool`: the tool goes under its name, replacing any tool registered
        there before; every other name keeps its tool and its place. */
    method RegisterTool(t: Tool)
      requires Valid()
      modifies this
      ensures Valid()
      ensures tools == old(tools)[t.name := t]
      ensures order == Inserted(old(order), t.name)
      ensures GetTool(t.name) == Some(t)
      ensures forall n :: n != t.name ==> GetTool(n) == old(GetTool(n))
    {
      InsertedKeepsOrder(order, t.name);
      tools := tools[t.name := t];
      order := Inserted(order, t.name);
    }

    /** `get_tool`: the tool registered under `name`, `None` for a name never registered. */
    function GetTool(name: string): (r: Option<Tool>)
      reads this
      requires Valid()
      ensures r.Some? <==> name in order
      ensures r.Some? ==> r.value.name == name && r.value == tools[name]
    {
      if name in tools then Some(tools[name]) else None
    }

    /** `list_tools`: one `{name, description}` entry per registered name, in the order
        the names were first registered. */
    function ListTools(): (r: seq<ToolInfo>)
      reads this
      requires Valid()
      ensures |r| == |tools| == |order|
      ensures forall i :: 0 <= i < |r| ==> r[i] == ToolInfo(order[i], tools[order[i]].description)
      ensures forall n :: n in tools <==> exists i :: 0 <= i < |r| && r[i].name == n
      ensures forall i, j :: 0 <= i < j < |r| ==> r[i].name != r[j].name
    {
      DistinctCount(order, tools.Keys);
      var ts, names := tools, order;
      var r := seq(|names|, i requires 0 <= i < |names| && names[i] in ts =>
        ToolInfo(ts[names[i]].name, ts[names[i]].description));
      ListingCovers(ts, names, r);
      r
    }
  }
}
