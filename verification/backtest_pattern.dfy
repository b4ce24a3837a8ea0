/** `backtest_pattern` (overall, per-name and per-confidence-bracket statistics)
    and the structure of `generate_performance_report`. */
module PatternBacktest {
  import opened Common
  import opened Backtester
  import opened BacktestStats

  /** A half-open confidence interval [low, high) and its report label. */
  datatype Bracket = Bracket(low: real, high: real, key: string)

  const ConfidenceBrackets: seq<Bracket> := [
    Bracket(0.6, 0.7, "0.6-0.7"),
    Bracket(0.7, 0.8, "0.7-0.8"),
    Bracket(0.8, 0.9, "0.8-0.9"),
    Bracket(0.9, 1.0, "0.9-1.0")
  ]

  predicate InBracket(c: real, b: Bracket) {
    b.low <= c < b.high
  }

  function InBracketSel(b: Bracket): Trade -> bool {
    (t: Trade) => InBracket(t.confidence, b)
  }

  function NameIs(name: string): Trade -> bool {
    (t: Trade) => t.patternName == name
  }

  /** The distinct pattern names among `trades`. */
  function Names(trades: seq<Trade>): (ns: set<string>)
    ensures forall t | t in trades :: t.patternName in ns
    ensures forall name | name in ns :: exists t | t in trades :: t.patternName == name
  {
    if |trades| == 0 then {} else {trades[0].patternName} + Names(trades[1..])
  }

  datatype BacktestResult = BacktestResult(
    overallStats: Option<Stats>,
    patternStats: map<string, Stats>,
    confidenceStats: seq<(string, Stats)>,
    tradeResults: seq<Trade>)

  lemma NameGroupNonEmpty(trades: seq<Trade>, name: string)
    requires name in Names(trades)
    ensures |Filter(trades, NameIs(name))| > 0
  {
    var t :| t in trades && t.patternName == name;
    assert t in Filter(trades, NameIs(name));
  }

  /** The statistics of the trades named `name`. */
  function NameStats(trades: seq<Trade>, name: string, sqrt: real -> real): (st: Stats)
    requires name in Names(trades)
    ensures |Filter(trades, NameIs(name))| > 0
    ensures st == Statistics(Filter(trades, NameIs(name)), sqrt)
  {
    NameGroupNonEmpty(trades, name);
    Statistics(Filter(trades, NameIs(name)), sqrt)
  }

  /** One entry per distinct pattern name. */
  function PatternStatsByName(trades: seq<Trade>, sqrt: real -> real): (m: map<string, Stats>)
    ensures m.Keys == Names(trades)
  {
    map name | name in Names(trades) :: NameStats(trades, name, sqrt)
  }

  /** Each name's entry is the statistics of exactly that name's trades, of
      which there is at least one. */
  lemma PatternStatsByNameCounts(trades: seq<Trade>, sqrt: real -> real, name: string)
    requires name in Names(trades)
    ensures name in PatternStatsByName(trades, sqrt)
    ensures |Filter(trades, NameIs(name))| > 0
    ensures PatternStatsByName(trades, sqrt)[name] == Statistics(Filter(trades, NameIs(name)), sqrt)
    ensures PatternStatsByName(trades, sqrt)[name].totalTrades == |Filter(trades, NameIs(name))|
  {
    assert PatternStatsByName(trades, sqrt)[name] == NameStats(trades, name, sqrt);
  }

  /** Number of trades whose confidence lies in `b`. */
  function BracketSize(trades: seq<Trade>, b: Bracket): nat {
    |Filter(trades, InBracketSel(b))|
  }

  /** The selector "bracket holds at least one of `trades`". */
  function Occupied(trades: seq<Trade>): Bracket -> bool {
    (b: Bracket) => BracketSize(trades, b) > 0
  }

  /** `e` is the entry of bracket `b`: its label and the statistics of
      exactly the trades inside it, of which there is at least one. */
  predicate EntryFor(e: (string, Stats), b: Bracket, trades: seq<Trade>, sqrt: real -> real) {
    && e.0 == b.key
    && BracketSize(trades, b) > 0
    && e.1 == Statistics(Filter(trades, InBracketSel(b)), sqrt)
  }

  function EntryOf(trades: seq<Trade>, sqrt: real -> real): ((string, Stats), Bracket) -> bool {
    (e: (string, Stats), b: Bracket) => EntryFor(e, b, trades, sqrt)
  }

  /** `entries` holds, in order, the entry of each bracket of `occ`. */
  predicate EntriesFor(entries: seq<(string, Stats)>, occ: seq<Bracket>, trades: seq<Trade>, sqrt: real -> real) {
    Pairwise(EntryOf(trades, sqrt), entries, occ)
  }

  /** The entry of an occupied bracket. */
  function BracketEntry(trades: seq<Trade>, b: Bracket, sqrt: real -> real): (e: (string, Stats))
    requires BracketSize(trades, b) > 0
    ensures EntryOf(trades, sqrt)(e, b)
  {
    (b.key, Statistics(Filter(trades, InBracketSel(b)), sqrt))
  }

  /** One entry per occupied bracket of `bs`, in bracket order, each the
      statistics of exactly the trades whose confidence lies in that bracket. */
  function BracketStats(trades: seq<Trade>, bs: seq<Bracket>, sqrt: real -> real): (r: seq<(string, Stats)>)
    ensures EntriesFor(r, Filter(bs, Occupied(trades)), trades, sqrt)
  {
    if |bs| == 0 then []
    else
      var rest := BracketStats(trades, bs[1..], sqrt);
      if BracketSize(trades, bs[0]) > 0 then
        var e := BracketEntry(trades, bs[0], sqrt);
        assert Occupied(trades)(bs[0]);
        assert Filter(bs, Occupied(trades)) == [bs[0]] + Filter(bs[1..], Occupied(trades));
        PairwiseCons(EntryOf(trades, sqrt), e, bs[0], rest, Filter(bs[1..], Occupied(trades)));
        [e] + rest
      else
        assert !Occupied(trades)(bs[0]);
        rest
  }

  /** A confidence lies in at most one bracket. */
  lemma BracketsDisjoint(c: real)
    ensures forall i, j :: 0 <= i < j < |ConfidenceBrackets| ==>
              !(InBracket(c, ConfidenceBrackets[i]) && InBracket(c, ConfidenceBrackets[j]))
  {
  }

  /** Confidence 1.0, and anything below 0.6, falls in no bracket. */
  lemma BracketsUncovered(c: real)
    requires c < 0.6 || c >= 1.0
    ensures forall i :: 0 <= i < |ConfidenceBrackets| ==> !InBracket(c, ConfidenceBrackets[i])
  {
  }

  /** The result dictionary built from a list of trades: overall, per-name
      and per-bracket statistics. */
  function Summarize(trades: seq<Trade>, sqrt: real -> real): (r: BacktestResult)
    ensures r.tradeResults == trades
    ensures r.overallStats == PatternStatistics(trades, sqrt)
    ensures r.patternStats == PatternStatsByName(trades, sqrt)
    ensures r.patternStats.Keys == Names(trades)
    ensures EntriesFor(r.confidenceStats, Filter(ConfidenceBrackets, Occupied(trades)), trades, sqrt)
  {
    BacktestResult(
      PatternStatistics(trades, sqrt),
      PatternStatsByName(trades, sqrt),
      BracketStats(trades, ConfidenceBrackets, sqrt),
      trades)
  }

  /** `backtest_pattern`, over the trades of `_calculate_returns` as
      written; a zero entry price is passed on as the failure. */
  function BacktestPattern(bars: seq<Bar>, patterns: seq<Occurrence>, p: Params, sqrt: real -> real)
    : (r: Result<BacktestResult, NonFinite>)
    ensures r.Failure? <==> CalculateReturnsAsWritten(bars, patterns, p).Failure?
    ensures r.Failure? ==> r.error == CalculateReturnsAsWritten(bars, patterns, p).error
    ensures r.Success? ==> r.value.tradeResults == CalculateReturnsAsWritten(bars, patterns, p).value
    ensures r.Success? ==> (r.value.overallStats.None? <==> |r.value.tradeResults| == 0)
    ensures r.Success? && r.value.overallStats.Some? ==>
              r.value.overallStats.value == Statistics(r.value.tradeResults, sqrt)
    ensures r.Success? ==> r.value.patternStats == PatternStatsByName(r.value.tradeResults, sqrt)
    ensures r.Success? ==> EntriesFor(r.value.confidenceStats,
                                      Filter(ConfidenceBrackets, Occupied(r.value.tradeResults)),
                                      r.value.tradeResults, sqrt)
  {
    match CalculateReturnsAsWritten(bars, patterns, p)
    case Failure(e) => Failure(e)
    case Success(trades) => Success(Summarize(trades, sqrt))
  }

  /** `backtest_pattern` over the trades with holding-period exits dated at
      the last scanned bar. */
  function BacktestPatternCorrected(bars: seq<Bar>, patterns: seq<Occurrence>, p: Params, sqrt: real -> real)
    : (r: Result<BacktestResult, NonFinite>)
    ensures r.Failure? <==> CalculateReturns(bars, patterns, p).Failure?
    ensures r.Failure? ==> r.error == CalculateReturns(bars, patterns, p).error
    ensures r.Success? ==> r.value.tradeResults == CalculateReturns(bars, patterns, p).value
    ensures r.Success? ==> (r.value.overallStats.None? <==> |r.value.tradeResults| == 0)
    ensures r.Success? && r.value.overallStats.Some? ==>
              r.value.overallStats.value == Statistics(r.value.tradeResults, sqrt)
    ensures r.Success? ==> r.value.patternStats == PatternStatsByName(r.value.tradeResults, sqrt)
    ensures r.Success? ==> EntriesFor(r.value.confidenceStats,
                                      Filter(ConfidenceBrackets, Occupied(r.value.tradeResults)),
                                      r.value.tradeResults, sqrt)
  {
    match CalculateReturns(bars, patterns, p)
    case Failure(e) => Failure(e)
    case Success(trades) => Success(Summarize(trades, sqrt))
  }

  /** The correction keeps every trade's exit reason, price and return, so
      the overall statistics of the two backtests differ at most in the
      mean holding duration. */
  lemma BacktestPatternCorrectedAgrees(bars: seq<Bar>, patterns: seq<Occurrence>, p: Params, sqrt: real -> real)
    ensures CalculateReturnsAsWritten(bars, patterns, p).Success? == CalculateReturns(bars, patterns, p).Success?
    ensures CalculateReturns(bars, patterns, p).Success? ==>
              var a := PatternStatistics(CalculateReturnsAsWritten(bars, patterns, p).value, sqrt);
              var c := PatternStatistics(CalculateReturns(bars, patterns, p).value, sqrt);
              a.Some? == c.Some? && (a.Some? ==> a.value.(avgHoldingDuration := 0.0) == c.value.(avgHoldingDuration := 0.0))
  {
    CalculateReturnsMatchesAsWritten(bars, patterns, p);
    if CalculateReturns(bars, patterns, p).Success? {
      var a := CalculateReturnsAsWritten(bars, patterns, p).value;
      var c := CalculateReturns(bars, patterns, p).value;
      if |a| > 0 {
        SameReturnsSameStats(a, c, sqrt);
      }
    }
  }

  // ---- Performance report ----

  /** What the report shows: the overall block, the pattern sections with
      enough trades, and every confidence bracket section in order. */
  datatype Report =
    | NoResults
    | Sections(overall: Stats, patternSections: set<string>, bracketSections: seq<string>)

  datatype ReportError = KeyError(key: string)

  function Labels(entries: seq<(string, Stats)>): (ls: seq<string>)
    ensures |ls| == |entries|
    ensures forall k :: 0 <= k < |entries| ==> ls[k] == entries[k].0
  {
    seq(|entries|, k requires 0 <= k < |entries| => entries[k].0)
  }

  function SectionsOf(b: BacktestResult, overall: Stats, minTrades: int): (rep: Report)
    ensures rep.Sections? && rep.overall == overall
    ensures forall name :: name in rep.patternSections <==>
              name in b.patternStats && b.patternStats[name].totalTrades >= minTrades
    ensures rep.bracketSections == Labels(b.confidenceStats)
  {
    Sections(overall,
             (set name | name in b.patternStats && b.patternStats[name].totalTrades >= minTrades),
             Labels(b.confidenceStats))
  }

  /** `generate_performance_report` as written: the empty dictionary (None)
      reports that there are no results, but a result whose overall
      statistics are empty fails on the `total_trades` lookup. */
  function PerformanceReportAsWritten(res: Option<BacktestResult>, minTrades: int): (r: Result<Report, ReportError>)
    ensures res.None? ==> r == Success(NoResults)
    ensures r.Failure? <==> res.Some? && res.value.overallStats.None?
    ensures r.Success? && res.Some? ==>
              r.value == SectionsOf(res.value, res.value.overallStats.value, minTrades)
  {
    match res
    case None => Success(NoResults)
    case Some(b) =>
      match b.overallStats
      case None => Failure(KeyError("total_trades"))
      case Some(overall) => Success(SectionsOf(b, overall, minTrades))
  }

  /** `generate_performance_report` with a result without trades treated as no results. */
  function PerformanceReport(res: Option<BacktestResult>, minTrades: int): (r: Report)
    ensures r == NoResults <==> res.None? || res.value.overallStats.None?
    ensures PerformanceReportAsWritten(res, minTrades).Success? ==>
              r == PerformanceReportAsWritten(res, minTrades).value
  {
    match res
    case None => NoResults
    case Some(b) =>
      match b.overallStats
      case None => NoResults
      case Some(overall) => SectionsOf(b, overall, minTrades)
  }

  /** Reporting on a backtest of an empty pattern list fails as written. */
  lemma ReportOnEmptyBacktestFails(bars: seq<Bar>, p: Params, sqrt: real -> real)
    ensures BacktestPattern(bars, [], p, sqrt).Success?
    ensures PerformanceReportAsWritten(Some(BacktestPattern(bars, [], p, sqrt).value), DefaultMinTrades).Failure?
    ensures PerformanceReport(Some(BacktestPattern(bars, [], p, sqrt).value), DefaultMinTrades) == NoResults
  {
  }
}
