/** The document-schema rules the backend models share: enumerations, the
    required-value rule, numeric bounds, defaults, and the pattern filter
    sub-document used by alerts and backtests. Dates are integers
    (milliseconds since the epoch). */
module Schema {
  import opened Common

  const Timeframes: set<string> := {"1m", "5m", "15m", "30m", "1h", "4h", "1d"}

  const PatternTypes: set<string> := {"bullish", "bearish", "neutral"}

  /** The validated fields of a pattern filter. */
  datatype FilterField = FilterType | FilterMinConfidence

  /** A required string rejects a missing value and the empty string. */
  predicate RequiredString(v: Option<string>) {
    v.Some? && v.value != ""
  }

  /** An enumeration only constrains a value that is set. */
  predicate EnumOk(v: Option<string>, allowed: set<string>) {
    v.None? || v.value in allowed
  }

  /** `min`/`max` validators only constrain a value that is set. */
  predicate AtLeast(v: Option<real>, lo: real) {
    v.None? || v.value >= lo
  }

  predicate AtMost(v: Option<real>, hi: real) {
    v.None? || v.value <= hi
  }

  /** The error for `path` when `ok` fails, and nothing otherwise. */
  function Check<P>(ok: bool, path: P): (errs: set<P>)
    ensures path in errs <==> !ok
    ensures forall q | q in errs :: q == path
  {
    if ok then {} else {path}
  }

  // ---- pattern filter sub-document ----

  /** A stored pattern filter: name, optional type and a minimum confidence. */
  datatype PatternFilter = PatternFilter(name: Option<string>, patternType: Option<string>, minConfidence: real)

  datatype PatternFilterInput = PatternFilterInput(name: Option<string>, patternType: Option<string>,
                                                   minConfidence: Option<real>)

  const DefaultMinConfidence: real := 0.6

  predicate PatternFilterValid(f: PatternFilter) {
    EnumOk(f.patternType, PatternTypes) && 0.0 <= f.minConfidence <= 1.0
  }

  /** The errors of one filter, after its default. */
  function PatternFilterErrors(f: PatternFilterInput): (errs: set<FilterField>)
    ensures FilterType in errs <==> !EnumOk(f.patternType, PatternTypes)
    ensures FilterMinConfidence in errs <==> !(0.0 <= f.minConfidence.GetOr(DefaultMinConfidence) <= 1.0)
    ensures errs == {} <==> PatternFilterValid(WithDefaults(f))
  {
    var c := f.minConfidence.GetOr(DefaultMinConfidence);
    Check(EnumOk(f.patternType, PatternTypes), FilterType)
      + Check(AtLeast(Some(c), 0.0) && AtMost(Some(c), 1.0), FilterMinConfidence)
  }

  /** The filter as stored: a missing minimum confidence becomes 0.6. */
  function WithDefaults(f: PatternFilterInput): (g: PatternFilter)
    ensures g.name == f.name && g.patternType == f.patternType
    ensures f.minConfidence.Some? ==> g.minConfidence == f.minConfidence.value
    ensures f.minConfidence.None? ==> g.minConfidence == DefaultMinConfidence
  {
    PatternFilter(f.name, f.patternType, f.minConfidence.GetOr(DefaultMinConfidence))
  }

  /** The errors of every filter of a list, each with its element's index. */
  function PatternFiltersErrors(fs: seq<PatternFilterInput>): (errs: set<(nat, FilterField)>)
    ensures forall e | e in errs :: e.0 < |fs|
    ensures forall i: nat, f: FilterField :: (i, f) in errs <==> i < |fs| && f in PatternFilterErrors(fs[i])
    ensures errs == {} <==> forall i :: 0 <= i < |fs| ==> PatternFilterValid(WithDefaults(fs[i]))
  {
    var errs := set i: nat, f: FilterField | i < |fs| && f in PatternFilterErrors(fs[i]) :: (i, f);
    assert forall i: nat, f: FilterField :: i < |fs| && f in PatternFilterErrors(fs[i]) ==> (i, f) in errs;
    assert errs == {} <==> forall i :: 0 <= i < |fs| ==> PatternFilterValid(WithDefaults(fs[i])) by {
      if errs == {} {
        forall i | 0 <= i < |fs| ensures PatternFilterValid(WithDefaults(fs[i])) {
          assert (i as nat, FilterType) !in errs && (i as nat, FilterMinConfidence) !in errs;
        }
      } else {
        var e :| e in errs;
        assert !PatternFilterValid(WithDefaults(fs[e.0]));
      }
    }
    errs
  }

  function ApplyDefaults(fs: seq<PatternFilterInput>): (gs: seq<PatternFilter>)
    ensures |gs| == |fs|
    ensures forall i :: 0 <= i < |fs| ==> gs[i] == WithDefaults(fs[i])
  {
    seq(|fs|, i requires 0 <= i < |fs| => WithDefaults(fs[i]))
  }
}
