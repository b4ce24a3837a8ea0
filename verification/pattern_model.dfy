/** The stored pattern document of the backend: its schema rules and
    defaults, `getSummary` and `findRecentPatterns`. Price data, indicator
    snapshots and stored backtest figures are carried by no code here and
    are not modelled. */
module PatternModel {
  import opened Common
  import opened Ordering
  import opened Schema

  const TrendDirections: set<string> := {"uptrend", "downtrend", "sideways"}
  const DetectionMethods: set<string> := {"talib", "transformer", "hybrid"}
  const PatternStatuses: set<string> := {"active", "completed", "invalidated"}

  datatype Pattern = Pattern(
    id: nat,
    symbol: string,
    timeframe: string,
    patternName: string,
    patternType: string,
    confidence: real,
    startIndex: int,
    endIndex: int,
    startTime: int,
    endTime: int,
    trendDirection: string,
    detectionMethod: string,
    status: string,
    createdAt: int)

  datatype PatternInput = PatternInput(
    symbol: Option<string>,
    timeframe: Option<string>,
    patternName: Option<string>,
    patternType: Option<string>,
    confidence: Option<real>,
    startIndex: Option<int>,
    endIndex: Option<int>,
    startTime: Option<int>,
    endTime: Option<int>,
    trendDirection: Option<string>,
    detectionMethod: Option<string>,
    status: Option<string>)

  datatype PatternField =
    | SymbolField | TimeframeField | PatternNameField | PatternTypeField | ConfidenceField
    | StartIndexField | EndIndexField | StartTimeField | EndTimeField
    | TrendDirectionField | DetectionMethodField | StatusField

  /** A required string that must also be one of `allowed`. */
  predicate RequiredEnum(v: Option<string>, allowed: set<string>) {
    RequiredString(v) && v.value in allowed
  }

  /** Whether the input breaks the rule of field `f`, once defaults are applied. */
  predicate FieldFails(i: PatternInput, f: PatternField) {
    match f
    case SymbolField => !RequiredString(i.symbol)
    case TimeframeField => !RequiredEnum(i.timeframe, Timeframes)
    case PatternNameField => !RequiredString(i.patternName)
    case PatternTypeField => !RequiredEnum(i.patternType, PatternTypes)
    case ConfidenceField => !(i.confidence.Some? && 0.0 <= i.confidence.value <= 1.0)
    case StartIndexField => i.startIndex.None?
    case EndIndexField => i.endIndex.None?
    case StartTimeField => i.startTime.None?
    case EndTimeField => i.endTime.None?
    case TrendDirectionField => !RequiredEnum(i.trendDirection, TrendDirections)
    case DetectionMethodField => !RequiredEnum(i.detectionMethod, DetectionMethods)
    case StatusField => !EnumOk(i.status, PatternStatuses)
  }

  const AllFields: set<PatternField> :=
    {SymbolField, TimeframeField, PatternNameField, PatternTypeField, ConfidenceField,
     StartIndexField, EndIndexField, StartTimeField, EndTimeField,
     TrendDirectionField, DetectionMethodField, StatusField}

  lemma FieldListed(f: PatternField)
    ensures f in AllFields
  {
    match f
    case SymbolField => case TimeframeField => case PatternNameField => case PatternTypeField =>
    case ConfidenceField => case StartIndexField => case EndIndexField => case StartTimeField =>
    case EndTimeField => case TrendDirectionField => case DetectionMethodField => case StatusField =>
  }

  predicate ValidPattern(p: Pattern) {
    && p.symbol != "" && p.timeframe in Timeframes && p.patternName != ""
    && p.patternType in PatternTypes
    && 0.0 <= p.confidence <= 1.0
    && p.trendDirection in TrendDirections
    && p.detectionMethod in DetectionMethods
    && p.status in PatternStatuses
  }

  /** The field rules, spelled out: what an input that breaks none of them satisfies. */
  predicate Clean(i: PatternInput) {
    && RequiredString(i.symbol) && RequiredEnum(i.timeframe, Timeframes)
    && RequiredString(i.patternName) && RequiredEnum(i.patternType, PatternTypes)
    && i.confidence.Some? && 0.0 <= i.confidence.value <= 1.0
    && i.startIndex.Some? && i.endIndex.Some? && i.startTime.Some? && i.endTime.Some?
    && RequiredEnum(i.trendDirection, TrendDirections)
    && RequiredEnum(i.detectionMethod, DetectionMethods)
    && EnumOk(i.status, PatternStatuses)
  }

  lemma NoFailingFieldIsClean(i: PatternInput)
    requires forall f :: !FieldFails(i, f)
    ensures Clean(i)
  {
    assert !FieldFails(i, SymbolField) && !FieldFails(i, TimeframeField) && !FieldFails(i, PatternNameField);
    assert !FieldFails(i, PatternTypeField) && !FieldFails(i, ConfidenceField);
    assert !FieldFails(i, StartIndexField) && !FieldFails(i, EndIndexField);
    assert !FieldFails(i, StartTimeField) && !FieldFails(i, EndTimeField);
    assert !FieldFails(i, TrendDirectionField) && !FieldFails(i, DetectionMethodField);
    assert !FieldFails(i, StatusField);
  }

  /** Every field the client supplied is stored as given. */
  predicate StoredAsGiven(i: PatternInput, p: Pattern) {
    && Some(p.symbol) == i.symbol && Some(p.timeframe) == i.timeframe
    && Some(p.patternName) == i.patternName && Some(p.patternType) == i.patternType
    && Some(p.confidence) == i.confidence
    && Some(p.startIndex) == i.startIndex && Some(p.endIndex) == i.endIndex
    && Some(p.startTime) == i.startTime && Some(p.endTime) == i.endTime
    && Some(p.trendDirection) == i.trendDirection && Some(p.detectionMethod) == i.detectionMethod
  }

  /** The stored pattern for an input that breaks no rule: status "active"
      unless given, created now. */
  function Build(i: PatternInput, id: nat, now: int): (p: Pattern)
    requires Clean(i)
    ensures ValidPattern(p)
    ensures p.id == id && p.createdAt == now
    ensures p.status == i.status.GetOr("active")
    ensures StoredAsGiven(i, p)
  {
    Pattern(id, i.symbol.value, i.timeframe.value, i.patternName.value, i.patternType.value,
            i.confidence.value, i.startIndex.value, i.endIndex.value,
            i.startTime.value, i.endTime.value, i.trendDirection.value,
            i.detectionMethod.value, i.status.GetOr("active"), now)
  }

  /** Saving a new pattern: the stored pattern, or the set of failing fields. */
  function CreatePattern(i: PatternInput, id: nat, now: int): (r: Result<Pattern, set<PatternField>>)
    ensures r.Failure? <==> exists f :: FieldFails(i, f)
    ensures r.Failure? ==> forall f :: f in r.error <==> FieldFails(i, f)
    ensures r.Success? ==>
              && ValidPattern(r.value)
              && r.value.id == id && r.value.createdAt == now
              && r.value.status == i.status.GetOr("active")
              && StoredAsGiven(i, r.value)
  {
    var errs := set f | f in AllFields && FieldFails(i, f);
    forall f ensures f in AllFields {
      FieldListed(f);
    }
    assert forall f :: FieldFails(i, f) ==> f in errs;
    if errs != {} then
      Failure(errs)
    else
      NoFailingFieldIsClean(i);
      Success(Build(i, id, now))
  }

  // ---- getSummary ----

  datatype PatternSummary = PatternSummary(
    symbol: string,
    timeframe: string,
    patternName: string,
    patternType: string,
    confidence: real,
    startTime: int,
    endTime: int,
    status: string)

  /** `getSummary()`: eight fields of the pattern. */
  function GetSummary(p: Pattern): PatternSummary {
    PatternSummary(p.symbol, p.timeframe, p.patternName, p.patternType, p.confidence,
                   p.startTime, p.endTime, p.status)
  }

  /** Two patterns share a summary exactly when they agree on those eight fields. */
  lemma GetSummaryExact(a: Pattern, b: Pattern)
    ensures GetSummary(a) == GetSummary(b) <==>
              && a.symbol == b.symbol && a.timeframe == b.timeframe
              && a.patternName == b.patternName && a.patternType == b.patternType
              && a.confidence == b.confidence && a.startTime == b.startTime
              && a.endTime == b.endTime && a.status == b.status
  {
  }

  /** The summary of a valid pattern is a valid summary. */
  lemma GetSummaryValid(p: Pattern)
    requires ValidPattern(p)
    ensures GetSummary(p).patternType in PatternTypes && 0.0 <= GetSummary(p).confidence <= 1.0
    ensures GetSummary(p).status in PatternStatuses
  {
  }

  // ---- findRecentPatterns ----

  /** The options object; absent members take their defaults. */
  datatype RecentOptions = RecentOptions(
    symbol: string,
    timeframe: string,
    minConfidence: Option<real>,
    limit: Option<int>,
    patternTypes: Option<seq<string>>)

  const DefaultLimit: int := 50
  const DefaultTypes: seq<string> := ["bullish", "bearish", "neutral"]

  /** The query of `findRecentPatterns` with its defaults filled in. */
  predicate Selected(p: Pattern, o: RecentOptions) {
    && p.symbol == o.symbol
    && p.timeframe == o.timeframe
    && p.confidence >= o.minConfidence.GetOr(DefaultMinConfidence)
    && p.patternType in o.patternTypes.GetOr(DefaultTypes)
    && p.status == "active"
  }

  function SelectedBy(o: RecentOptions): Pattern -> bool {
    (p: Pattern) => Selected(p, o)
  }

  function CreatedAt(p: Pattern): real {
    p.createdAt as real
  }

  /** `findRecentPatterns(options)`: the selected patterns, newest first,
      at most `limit` (50 by default) of them. */
  function FindRecentPatterns(store: seq<Pattern>, o: RecentOptions): (r: seq<Pattern>)
    ensures forall p | p in r :: p in store && Selected(p, o)
    ensures forall p | p in store && Selected(p, o) ::
              p in r || (|r| > 0 && p.createdAt <= r[|r| - 1].createdAt)
    ensures SortedDesc(r, CreatedAt)
    ensures multiset(r) <= multiset(Filter(store, SelectedBy(o)))
    ensures var l := o.limit.GetOr(DefaultLimit);
            var m := Count(store, SelectedBy(o));
            |r| == if l == 0 then m else Min(m, Abs(l))
  {
    var matches := Filter(store, SelectedBy(o));
    var r := TopDesc(matches, CreatedAt, o.limit.GetOr(DefaultLimit));
    forall p | p in store && Selected(p, o)
      ensures p in r || (|r| > 0 && p.createdAt <= r[|r| - 1].createdAt)
    {
      TopDescKeepsHighest(matches, CreatedAt, o.limit.GetOr(DefaultLimit), p);
    }
    r
  }

  /** When the limit cuts nothing, every selected pattern is returned. */
  lemma FindRecentPatternsComplete(store: seq<Pattern>, o: RecentOptions, p: Pattern)
    requires o.limit.GetOr(DefaultLimit) == 0 || |Filter(store, SelectedBy(o))| <= Abs(o.limit.GetOr(DefaultLimit))
    requires p in store && Selected(p, o)
    ensures p in FindRecentPatterns(store, o)
  {
    var matches := Filter(store, SelectedBy(o));
    assert FindRecentPatterns(store, o) == TopDesc(matches, CreatedAt, o.limit.GetOr(DefaultLimit));
    assert |TopDesc(matches, CreatedAt, o.limit.GetOr(DefaultLimit))| == |matches|;
    assert TopDesc(matches, CreatedAt, o.limit.GetOr(DefaultLimit)) == SortDesc(matches, CreatedAt);
    assert p in multiset(matches);
  }

  /** With the default options only active bullish, bearish or neutral
      patterns of confidence at least 0.6 are returned, at most 50. */
  lemma FindRecentPatternsDefaults(store: seq<Pattern>, symbol: string, timeframe: string)
    ensures var r := FindRecentPatterns(store, RecentOptions(symbol, timeframe, None, None, None));
            && |r| <= 50
            && forall p | p in r :: p.confidence >= 0.6 && p.patternType in PatternTypes && p.status == "active"
  {
  }
}
