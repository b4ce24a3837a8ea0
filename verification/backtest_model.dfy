/** The backtest document of the backend: the configuration schema with its
    bounds and defaults, the status enumeration, `getSummary` and
    `findRecentBacktests`. The stored results are carried, not computed. */
module BacktestModel {
  import opened Common
  import opened Ordering
  import opened Schema

  const BacktestStatuses: set<string> := {"running", "completed", "failed"}

  datatype TradingParams = TradingParams(
    initialCapital: real,
    positionSize: real,
    stopLoss: Option<real>,
    takeProfit: Option<real>,
    maxOpenPositions: real,
    trailingStopEnabled: Option<bool>,
    trailingStopPercentage: Option<real>)

  datatype Fees = Fees(maker: real, taker: real, slippage: real)

  datatype Configuration = Configuration(
    symbol: string,
    timeframe: string,
    startDate: int,
    endDate: int,
    patterns: seq<PatternFilter>,
    tradingParams: TradingParams,
    fees: Fees)

  /** `results.summary`: the stored figures by name. */
  datatype Summary = Summary(figures: map<string, real>)

  datatype Backtest = Backtest(
    id: nat,
    user: nat,
    name: string,
    description: Option<string>,
    configuration: Configuration,
    results: Option<Summary>,
    status: string,
    createdAt: int,
    completedAt: Option<int>)

  /** The fields a client supplies; absent ones are None. */
  datatype BacktestInput = BacktestInput(
    user: Option<nat>,
    name: Option<string>,
    description: Option<string>,
    symbol: Option<string>,
    timeframe: Option<string>,
    startDate: Option<int>,
    endDate: Option<int>,
    patterns: seq<PatternFilterInput>,
    initialCapital: Option<real>,
    positionSize: Option<real>,
    stopLoss: Option<real>,
    takeProfit: Option<real>,
    maxOpenPositions: Option<real>,
    trailingStopEnabled: Option<bool>,
    trailingStopPercentage: Option<real>,
    maker: Option<real>,
    taker: Option<real>,
    slippage: Option<real>,
    status: Option<string>)

  /** The fields a backtest is validated on. */
  datatype BacktestField =
    | UserField | NameField | SymbolField | TimeframeField | StartDateField | EndDateField
    | InitialCapitalField | PositionSizeField | StopLossField | TakeProfitField | StatusField
    | PatternsField(index: nat, field: FilterField)

  const ScalarFields: set<BacktestField> :=
    {UserField, NameField, SymbolField, TimeframeField, StartDateField, EndDateField,
     InitialCapitalField, PositionSizeField, StopLossField, TakeProfitField, StatusField}

  /** Whether the input breaks the rule of field `f`, once defaults are applied. */
  predicate FieldFails(i: BacktestInput, f: BacktestField) {
    match f
    case UserField => i.user.None?
    case NameField => !RequiredString(i.name)
    case SymbolField => !RequiredString(i.symbol)
    case TimeframeField => !(RequiredString(i.timeframe) && i.timeframe.value in Timeframes)
    case StartDateField => i.startDate.None?
    case EndDateField => i.endDate.None?
    case InitialCapitalField => i.initialCapital.None?
    case PositionSizeField => !(i.positionSize.Some? && AtLeast(i.positionSize, 0.0) && AtMost(i.positionSize, 1.0))
    case StopLossField => !AtLeast(i.stopLoss, 0.0)
    case TakeProfitField => !AtLeast(i.takeProfit, 0.0)
    case StatusField => !EnumOk(i.status, BacktestStatuses)
    case PatternsField(k, ff) => (k, ff) in PatternFiltersErrors(i.patterns)
  }

  /** Every error of the pattern filters is a failing field of the input. */
  lemma PatternErrorsFail(i: BacktestInput)
    ensures forall e | e in PatternFiltersErrors(i.patterns) :: FieldFails(i, PatternsField(e.0, e.1))
  {
  }

  /** Every field whose rule the input breaks. */
  function BacktestErrors(i: BacktestInput): (errs: set<BacktestField>)
    ensures forall f :: f in errs <==> FieldFails(i, f)
  {
    var pats := set e | e in PatternFiltersErrors(i.patterns) :: PatternsField(e.0, e.1);
    var scalars := set f | f in ScalarFields && FieldFails(i, f);
    forall f ensures f in scalars + pats <==> FieldFails(i, f) {
      if f.PatternsField? {
        assert f !in scalars;
        if (f.index, f.field) in PatternFiltersErrors(i.patterns) {
          assert f in pats;
        }
      } else {
        assert f in ScalarFields;
        assert f !in pats;
      }
    }
    scalars + pats
  }

  /** The configuration rules a stored backtest satisfies. */
  predicate ValidBacktest(b: Backtest) {
    var c := b.configuration;
    && b.name != "" && c.symbol != "" && c.timeframe in Timeframes
    && 0.0 <= c.tradingParams.positionSize <= 1.0
    && AtLeast(c.tradingParams.stopLoss, 0.0)
    && AtLeast(c.tradingParams.takeProfit, 0.0)
    && (forall k :: 0 <= k < |c.patterns| ==> PatternFilterValid(c.patterns[k]))
    && b.status in BacktestStatuses
  }

  /** The field rules, spelled out: what an input that breaks none of them satisfies. */
  predicate Clean(i: BacktestInput) {
    && i.user.Some? && RequiredString(i.name) && RequiredString(i.symbol)
    && RequiredString(i.timeframe) && i.timeframe.value in Timeframes
    && i.startDate.Some? && i.endDate.Some? && i.initialCapital.Some?
    && i.positionSize.Some? && 0.0 <= i.positionSize.value <= 1.0
    && AtLeast(i.stopLoss, 0.0) && AtLeast(i.takeProfit, 0.0)
    && EnumOk(i.status, BacktestStatuses)
    && PatternFiltersErrors(i.patterns) == {}
  }

  lemma NoFailingFieldIsClean(i: BacktestInput)
    requires forall f :: !FieldFails(i, f)
    ensures Clean(i)
  {
    assert !FieldFails(i, UserField) && !FieldFails(i, NameField) && !FieldFails(i, SymbolField);
    assert !FieldFails(i, TimeframeField) && !FieldFails(i, StartDateField) && !FieldFails(i, EndDateField);
    assert !FieldFails(i, InitialCapitalField) && !FieldFails(i, PositionSizeField);
    assert !FieldFails(i, StopLossField) && !FieldFails(i, TakeProfitField) && !FieldFails(i, StatusField);
    PatternErrorsFail(i);
    assert PatternFiltersErrors(i.patterns) == {};
  }

  /** Every field the client supplied is stored as given. */
  predicate StoredAsGiven(i: BacktestInput, b: Backtest) {
    && Some(b.user) == i.user && Some(b.name) == i.name && b.description == i.description
    && Some(b.configuration.symbol) == i.symbol && Some(b.configuration.timeframe) == i.timeframe
    && Some(b.configuration.startDate) == i.startDate && Some(b.configuration.endDate) == i.endDate
    && Some(b.configuration.tradingParams.initialCapital) == i.initialCapital
    && Some(b.configuration.tradingParams.positionSize) == i.positionSize
    && b.configuration.tradingParams.stopLoss == i.stopLoss
    && b.configuration.tradingParams.takeProfit == i.takeProfit
    && b.configuration.tradingParams.trailingStopEnabled == i.trailingStopEnabled
    && b.configuration.tradingParams.trailingStopPercentage == i.trailingStopPercentage
  }

  /** The stored backtest for an input that breaks no rule: one open
      position and 0.001 for each fee unless given, status "running",
      created now. */
  function Build(i: BacktestInput, id: nat, now: int): (b: Backtest)
    requires Clean(i)
    ensures ValidBacktest(b)
    ensures b.id == id && b.createdAt == now
    ensures b.status == i.status.GetOr("running")
    ensures b.configuration.tradingParams.maxOpenPositions == i.maxOpenPositions.GetOr(1.0)
    ensures b.configuration.fees == Fees(i.maker.GetOr(0.001), i.taker.GetOr(0.001), i.slippage.GetOr(0.001))
    ensures StoredAsGiven(i, b)
    ensures b.results.None? && b.completedAt.None?
    ensures |b.configuration.patterns| == |i.patterns|
    ensures forall k :: 0 <= k < |i.patterns| ==> b.configuration.patterns[k] == WithDefaults(i.patterns[k])
  {
    var trading := TradingParams(
      i.initialCapital.value, i.positionSize.value, i.stopLoss, i.takeProfit,
      i.maxOpenPositions.GetOr(1.0), i.trailingStopEnabled, i.trailingStopPercentage);
    var fees := Fees(i.maker.GetOr(0.001), i.taker.GetOr(0.001), i.slippage.GetOr(0.001));
    var config := Configuration(i.symbol.value, i.timeframe.value, i.startDate.value, i.endDate.value,
                                ApplyDefaults(i.patterns), trading, fees);
    Backtest(id, i.user.value, i.name.value, i.description, config, None,
             i.status.GetOr("running"), now, None)
  }

  /** Saving a new backtest: the stored backtest, or the set of failing fields. */
  function CreateBacktest(i: BacktestInput, id: nat, now: int): (r: Result<Backtest, set<BacktestField>>)
    ensures r.Failure? <==> exists f :: FieldFails(i, f)
    ensures r.Failure? ==> forall f :: f in r.error <==> FieldFails(i, f)
    ensures r.Success? ==>
              && ValidBacktest(r.value)
              && r.value.id == id && r.value.createdAt == now
              && r.value.status == i.status.GetOr("running")
              && r.value.configuration.tradingParams.maxOpenPositions == i.maxOpenPositions.GetOr(1.0)
              && r.value.configuration.fees
                   == Fees(i.maker.GetOr(0.001), i.taker.GetOr(0.001), i.slippage.GetOr(0.001))
              && StoredAsGiven(i, r.value)
              && r.value.results.None? && r.value.completedAt.None?
              && |r.value.configuration.patterns| == |i.patterns|
              && forall k :: 0 <= k < |i.patterns| ==>
                   r.value.configuration.patterns[k] == WithDefaults(i.patterns[k])
  {
    var errs := BacktestErrors(i);
    if errs != {} then
      Failure(errs)
    else
      assert forall f :: !FieldFails(i, f);
      NoFailingFieldIsClean(i);
      Success(Build(i, id, now))
  }

  /** A negative stop loss is refused, whatever else the input says. */
  lemma NegativeStopLossRefused(i: BacktestInput, id: nat, now: int)
    requires i.stopLoss.Some? && i.stopLoss.value < 0.0
    ensures CreateBacktest(i, id, now).Failure?
    ensures StopLossField in CreateBacktest(i, id, now).error
  {
    assert FieldFails(i, StopLossField);
  }

  // ---- getSummary ----

  datatype BacktestSummary = BacktestSummary(
    id: nat,
    name: string,
    symbol: string,
    timeframe: string,
    startDate: int,
    endDate: int,
    status: string,
    results: Option<Summary>,
    createdAt: int,
    completedAt: Option<int>)

  /** `getSummary()`: identity, configuration window, status and stored summary. */
  function GetSummary(b: Backtest): BacktestSummary {
    BacktestSummary(b.id, b.name, b.configuration.symbol, b.configuration.timeframe,
                    b.configuration.startDate, b.configuration.endDate, b.status,
                    b.results, b.createdAt, b.completedAt)
  }

  /** Two backtests share a summary exactly when they agree on the listed
      fields; everything else (owner, patterns, trading parameters, fees,
      description) is invisible in it. */
  lemma GetSummaryExact(a: Backtest, b: Backtest)
    ensures GetSummary(a) == GetSummary(b) <==>
              && a.id == b.id && a.name == b.name
              && a.configuration.symbol == b.configuration.symbol
              && a.configuration.timeframe == b.configuration.timeframe
              && a.configuration.startDate == b.configuration.startDate
              && a.configuration.endDate == b.configuration.endDate
              && a.status == b.status && a.results == b.results
              && a.createdAt == b.createdAt && a.completedAt == b.completedAt
  {
  }

  // ---- findRecentBacktests ----

  function CreatedAt(b: Backtest): real {
    b.createdAt as real
  }

  function OwnedBy(user: nat): Backtest -> bool {
    (b: Backtest) => b.user == user
  }

  const DefaultRecentLimit: int := 10

  /** The backtests `findRecentBacktests(userId, limit)` returns, before projection. */
  function RecentBacktests(store: seq<Backtest>, user: nat, limit: Option<int>): (r: seq<Backtest>)
    ensures forall b | b in r :: b in store && b.user == user
    ensures SortedDesc(r, CreatedAt)
    ensures multiset(r) <= multiset(Filter(store, OwnedBy(user)))
    ensures var l := limit.GetOr(DefaultRecentLimit);
            var m := Count(store, OwnedBy(user));
            |r| == if l == 0 then m else Min(m, Abs(l))
    ensures forall b | b in store && b.user == user ::
              b in r || (|r| > 0 && b.createdAt <= r[|r| - 1].createdAt)
  {
    var mine := Filter(store, OwnedBy(user));
    var r := TopDesc(mine, CreatedAt, limit.GetOr(DefaultRecentLimit));
    forall b | b in store && b.user == user
      ensures b in r || (|r| > 0 && b.createdAt <= r[|r| - 1].createdAt)
    {
      TopDescKeepsHighest(mine, CreatedAt, limit.GetOr(DefaultRecentLimit), b);
    }
    r
  }

  /** The projection `select` keeps (with `_id`). */
  datatype BacktestListing = BacktestListing(
    id: nat,
    name: string,
    symbol: string,
    timeframe: string,
    status: string,
    results: Option<Summary>,
    createdAt: int,
    completedAt: Option<int>)

  function Listing(b: Backtest): BacktestListing {
    BacktestListing(b.id, b.name, b.configuration.symbol, b.configuration.timeframe,
                    b.status, b.results, b.createdAt, b.completedAt)
  }

  /** `findRecentBacktests(userId, limit = 10)`: the user's newest backtests, projected. */
  function FindRecentBacktests(store: seq<Backtest>, user: nat, limit: Option<int>): (r: seq<BacktestListing>)
    ensures |r| == |RecentBacktests(store, user, limit)|
    ensures forall k :: 0 <= k < |r| ==>
              && r[k] == Listing(RecentBacktests(store, user, limit)[k])
              && (k > 0 ==> r[k - 1].createdAt >= r[k].createdAt)
    ensures limit.None? ==> |r| <= 10
  {
    Listings(RecentBacktests(store, user, limit))
  }

  /** The projections of newest-first backtests, still newest first. */
  function Listings(recent: seq<Backtest>): (r: seq<BacktestListing>)
    requires SortedDesc(recent, CreatedAt)
    ensures |r| == |recent|
    ensures forall k :: 0 <= k < |r| ==>
              && r[k] == Listing(recent[k])
              && (k > 0 ==> r[k - 1].createdAt >= r[k].createdAt)
  {
    var r := seq(|recent|, k requires 0 <= k < |recent| => Listing(recent[k]));
    forall k | 0 < k < |r| ensures r[k - 1].createdAt >= r[k].createdAt {
      assert CreatedAt(recent[k - 1]) >= CreatedAt(recent[k]);
    }
    r
  }

}
