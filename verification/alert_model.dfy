/** The alert document of the backend: creation with defaults and
    validation, the `shouldTrigger` guard, the `trigger` transition and the
    `findActiveAlerts` selection. The guard calls four condition checkers
    that the schema never defines: `ShouldTriggerAsWritten` is the guard as
    it stands, and `ShouldTrigger` the guard with the checkers supplied as
    parameters. The clock is the parameter `now`. */
module AlertModel {
  import opened Common
  import opened Schema

  const AlertTypes: set<string> := {"pattern", "price", "indicator", "volume"}
  const Frequencies: set<string> := {"once", "always"}
  const AlertStatuses: set<string> := {"active", "triggered", "disabled"}

  datatype Channels = Channels(email: bool, telegram: bool, whatsapp: bool)

  datatype Alert = Alert(
    user: nat,
    symbol: string,
    timeframe: string,
    alertType: string,
    patterns: seq<PatternFilter>,
    channels: Channels,
    message: string,
    frequency: string,
    status: string,
    triggerCount: int,
    lastTriggered: Option<int>,
    expiresAt: Option<int>,
    createdAt: int)

  /** The fields a client supplies; absent ones are None. */
  datatype AlertInput = AlertInput(
    user: Option<nat>,
    symbol: Option<string>,
    timeframe: Option<string>,
    alertType: Option<string>,
    patterns: seq<PatternFilterInput>,
    email: Option<bool>,
    telegram: Option<bool>,
    whatsapp: Option<bool>,
    message: Option<string>,
    frequency: Option<string>,
    status: Option<string>,
    triggerCount: Option<int>,
    expiresAt: Option<int>)

  /** The fields an alert is validated on. */
  datatype AlertField =
    | UserField | SymbolField | TimeframeField | AlertTypeField | MessageField | FrequencyField | StatusField
    | PatternsField(index: nat, field: FilterField)

  /** Whether the input breaks the rule of field `f`, once defaults are applied. */
  predicate FieldFails(i: AlertInput, f: AlertField) {
    match f
    case UserField => i.user.None?
    case SymbolField => !RequiredString(i.symbol)
    case TimeframeField => !(RequiredString(i.timeframe) && i.timeframe.value in Timeframes)
    case AlertTypeField => !(RequiredString(i.alertType) && i.alertType.value in AlertTypes)
    case MessageField => !RequiredString(i.message)
    case FrequencyField => !EnumOk(i.frequency, Frequencies)
    case StatusField => !EnumOk(i.status, AlertStatuses)
    case PatternsField(k, ff) => (k, ff) in PatternFiltersErrors(i.patterns)
  }

  /** Every error of the pattern filters is a failing field of the input. */
  lemma PatternErrorsFail(i: AlertInput)
    ensures forall e | e in PatternFiltersErrors(i.patterns) :: FieldFails(i, PatternsField(e.0, e.1))
  {
  }

  const ScalarFields: set<AlertField> :=
    {UserField, SymbolField, TimeframeField, AlertTypeField, MessageField, FrequencyField, StatusField}

  /** Every field whose rule the input breaks. */
  function AlertErrors(i: AlertInput): (errs: set<AlertField>)
    ensures forall f :: f in errs <==> FieldFails(i, f)
  {
    var pats := set e | e in PatternFiltersErrors(i.patterns) :: PatternsField(e.0, e.1);
    var scalars := set f | f in ScalarFields && FieldFails(i, f);
    forall f ensures f in scalars + pats <==> FieldFails(i, f) {
      if f.PatternsField? {
        assert f !in scalars;
        if (f.index, f.field) in PatternFiltersErrors(i.patterns) {
          assert f in pats;
        }
      } else {
        assert f in ScalarFields;
        assert f !in pats;
      }
    }
    scalars + pats
  }

  /** A stored alert satisfies every schema rule. */
  predicate ValidAlert(a: Alert) {
    && a.symbol != ""
    && a.timeframe in Timeframes
    && a.alertType in AlertTypes
    && (forall k :: 0 <= k < |a.patterns| ==> PatternFilterValid(a.patterns[k]))
    && a.message != ""
    && a.frequency in Frequencies
    && a.status in AlertStatuses
  }

  /** Saving a new alert: the defaults (e-mail on, other channels off,
      frequency "once", status "active", no triggers, created now), or the
      set of failing paths. */
  function CreateAlert(i: AlertInput, now: int): (r: Result<Alert, set<AlertField>>)
    ensures r.Failure? <==> AlertErrors(i) != {}
    ensures r.Failure? ==> r.error == AlertErrors(i)
    ensures r.Success? ==>
              && ValidAlert(r.value)
              && Some(r.value.user) == i.user && Some(r.value.symbol) == i.symbol
              && Some(r.value.timeframe) == i.timeframe && Some(r.value.alertType) == i.alertType
              && Some(r.value.message) == i.message
              && r.value.channels == Channels(i.email.GetOr(true), i.telegram.GetOr(false), i.whatsapp.GetOr(false))
              && r.value.frequency == i.frequency.GetOr("once")
              && r.value.status == i.status.GetOr("active")
              && r.value.triggerCount == i.triggerCount.GetOr(0)
              && r.value.lastTriggered.None?
              && r.value.expiresAt == i.expiresAt
              && r.value.createdAt == now
              && |r.value.patterns| == |i.patterns|
              && forall k :: 0 <= k < |i.patterns| ==> r.value.patterns[k] == WithDefaults(i.patterns[k])
  {
    var errs := AlertErrors(i);
    if errs != {} then Failure(errs)
    else
      assert !FieldFails(i, UserField) && !FieldFails(i, SymbolField) && !FieldFails(i, TimeframeField);
      assert !FieldFails(i, AlertTypeField) && !FieldFails(i, MessageField);
      assert !FieldFails(i, FrequencyField) && !FieldFails(i, StatusField);
      PatternErrorsFail(i);
      assert PatternFiltersErrors(i.patterns) == {};
      Success(Alert(
        i.user.value, i.symbol.value, i.timeframe.value, i.alertType.value,
        ApplyDefaults(i.patterns),
        Channels(i.email.GetOr(true), i.telegram.GetOr(false), i.whatsapp.GetOr(false)),
        i.message.value, i.frequency.GetOr("once"), i.status.GetOr("active"),
        i.triggerCount.GetOr(0), None, i.expiresAt, now))
  }

  /** A new alert given only its required fields is an active, e-mail-only,
      fire-once alert with no triggers. */
  lemma CreateAlertDefaults(user: nat, symbol: string, timeframe: string, alertType: string, message: string, now: int)
    requires symbol != "" && message != "" && timeframe in Timeframes && alertType in AlertTypes
    ensures var r := CreateAlert(AlertInput(Some(user), Some(symbol), Some(timeframe), Some(alertType), [],
                                            None, None, None, Some(message), None, None, None, None), now);
            && r.Success?
            && r.value.frequency == "once" && r.value.status == "active" && r.value.triggerCount == 0
            && r.value.channels == Channels(true, false, false)
  {
    var i := AlertInput(Some(user), Some(symbol), Some(timeframe), Some(alertType), [],
                        None, None, None, Some(message), None, None, None, None);
    assert AlertErrors(i) == {};
  }

  // ---- shouldTrigger ----

  /** The market price object; its `volume` property may be missing. */
  datatype Quote = Quote(price: real, volume: Option<real>)

  /** The alert's condition checkers, one per alert type. */
  datatype Checkers<!P, !I> = Checkers(
    pattern: (Alert, P) -> bool,
    price: (Alert, Option<Quote>) -> bool,
    indicator: (Alert, I) -> bool,
    volume: (Alert, Option<real>) -> bool)

  /** True when `expiresAt` is set and lies strictly before `now`. */
  predicate Expired(a: Alert, now: int) {
    a.expiresAt.Some? && a.expiresAt.value < now
  }

  /** `shouldTrigger(pattern, price, indicators)`. Reading `price.volume`
      of a missing price throws, which is the Failure. */
  function ShouldTrigger<P, I>(a: Alert, now: int, pattern: P, price: Option<Quote>, indicators: I,
                               c: Checkers<P, I>): (r: Result<bool, string>)
    ensures a.status != "active" ==> r == Success(false)
    ensures Expired(a, now) ==> r == Success(false)
    ensures r.Failure? <==> a.status == "active" && !Expired(a, now) && a.alertType == "volume" && price.None?
    ensures a.status == "active" && !Expired(a, now) ==>
              && (a.alertType == "pattern" ==> r == Success(c.pattern(a, pattern)))
              && (a.alertType == "price" ==> r == Success(c.price(a, price)))
              && (a.alertType == "indicator" ==> r == Success(c.indicator(a, indicators)))
              && (a.alertType == "volume" && price.Some? ==> r == Success(c.volume(a, price.value.volume)))
              && (a.alertType !in AlertTypes ==> r == Success(false))
  {
    if a.status != "active" then Success(false)
    else if Expired(a, now) then Success(false)
    else if a.alertType == "pattern" then Success(c.pattern(a, pattern))
    else if a.alertType == "price" then Success(c.price(a, price))
    else if a.alertType == "indicator" then Success(c.indicator(a, indicators))
    else if a.alertType == "volume" then
      match price
      case None => Failure("TypeError: Cannot read properties of undefined (reading 'volume')")
      case Some(q) => Success(c.volume(a, q.volume))
    else Success(false)
  }

  /** The method `shouldTrigger` calls for an alert type. */
  function CheckerMethod(alertType: string): string {
    if alertType == "pattern" then "checkPatternConditions"
    else if alertType == "price" then "checkPriceConditions"
    else if alertType == "indicator" then "checkIndicatorConditions"
    else "checkVolumeConditions"
  }

  /** `shouldTrigger` as the schema file defines it. The schema never gets
      the four `check…Conditions` methods, so once the status and expiry
      guards pass, each of the four alert types throws a TypeError: the
      volume case while reading `price.volume` of a missing price, every
      other case when calling the missing method. */
  function ShouldTriggerAsWritten<P, I>(a: Alert, now: int, pattern: P, price: Option<Quote>, indicators: I)
    : (r: Result<bool, string>)
    ensures r.Failure? <==> a.status == "active" && !Expired(a, now) && a.alertType in AlertTypes
    ensures r.Success? ==> r.value == false
    ensures r.Failure? && !(a.alertType == "volume" && price.None?) ==>
              r.error == "TypeError: this." + CheckerMethod(a.alertType) + " is not a function"
  {
    if a.status != "active" then Success(false)
    else if Expired(a, now) then Success(false)
    else if a.alertType == "volume" && price.None? then
      Failure("TypeError: Cannot read properties of undefined (reading 'volume')")
    else if a.alertType in AlertTypes then
      Failure("TypeError: this." + CheckerMethod(a.alertType) + " is not a function")
    else Success(false)
  }

  /** Wherever the guard as written returns, the guard with checkers
      returns the same answer, whatever the checkers are; the two differ
      only where the missing methods are reached. */
  lemma ShouldTriggerAsWrittenAgrees<P, I>(a: Alert, now: int, pattern: P, price: Option<Quote>, indicators: I,
                                           c: Checkers<P, I>)
    ensures ShouldTriggerAsWritten(a, now, pattern, price, indicators).Success? ==>
              ShouldTrigger(a, now, pattern, price, indicators, c) == ShouldTriggerAsWritten(a, now, pattern, price, indicators)
    ensures ShouldTriggerAsWritten(a, now, pattern, price, indicators).Failure? && ShouldTrigger(a, now, pattern, price, indicators, c).Success? ==>
              a.alertType in AlertTypes && !(a.alertType == "volume" && price.None?)
  {
  }

  /** An active pattern alert without expiry throws as written, while the
      guard with a pattern checker returns that checker's verdict. */
  lemma MissingCheckerThrows<P, I>(a: Alert, now: int, pattern: P, price: Option<Quote>, indicators: I,
                                   c: Checkers<P, I>)
    requires a.status == "active" && a.expiresAt.None? && a.alertType == "pattern"
    ensures ShouldTriggerAsWritten(a, now, pattern, price, indicators)
              == Failure("TypeError: this.checkPatternConditions is not a function")
    ensures ShouldTrigger(a, now, pattern, price, indicators, c) == Success(c.pattern(a, pattern))
  {
    assert "TypeError: this." + CheckerMethod(a.alertType) + " is not a function"
        == "TypeError: this.checkPatternConditions is not a function";
  }

  /** An alert expiring exactly now still passes the expiry guard. */
  lemma ExpiryIsStrict<P, I>(a: Alert, now: int, pattern: P, price: Option<Quote>, indicators: I, c: Checkers<P, I>)
    requires a.status == "active" && a.alertType == "pattern" && a.expiresAt == Some(now)
    ensures ShouldTrigger(a, now, pattern, price, indicators, c) == Success(c.pattern(a, pattern))
  {
    assert "TypeError: this." + CheckerMethod(a.alertType) + " is not a function"
        == "TypeError: this.checkPatternConditions is not a function";
  }

  // ---- trigger ----

  /** `trigger()`: one more trigger, stamped now; a "once" alert leaves the active state. */
  function Trigger(a: Alert, now: int): (b: Alert)
    ensures b.triggerCount == a.triggerCount + 1
    ensures b.lastTriggered == Some(now)
    ensures b.status == (if a.frequency == "once" then "triggered" else a.status)
    ensures b.(triggerCount := a.triggerCount, lastTriggered := a.lastTriggered, status := a.status) == a
  {
    a.(triggerCount := a.triggerCount + 1,
       lastTriggered := Some(now),
       status := if a.frequency == "once" then "triggered" else a.status)
  }

  /** Triggering keeps a valid alert valid. */
  lemma TriggerValid(a: Alert, now: int)
    requires ValidAlert(a)
    ensures ValidAlert(Trigger(a, now))
  {
  }

  /** One market observation offered to every alert check. */
  datatype Observation<P, I> = Observation(now: int, pattern: P, price: Option<Quote>, indicators: I)

  /** Checking an alert against one observation and triggering it when the
      guard holds; a guard that throws does not trigger. */
  function Step<P, I>(a: Alert, o: Observation<P, I>, c: Checkers<P, I>): (r: (Alert, bool))
    ensures r.1 <==> ShouldTrigger(a, o.now, o.pattern, o.price, o.indicators, c) == Success(true)
    ensures r.0 == if r.1 then Trigger(a, o.now) else a
  {
    if ShouldTrigger(a, o.now, o.pattern, o.price, o.indicators, c) == Success(true)
    then (Trigger(a, o.now), true)
    else (a, false)
  }

  /** A guarded sequence of checks: the final alert and how often it fired. */
  function Run<P, I>(a: Alert, obs: seq<Observation<P, I>>, c: Checkers<P, I>): (r: (Alert, nat))
    decreases |obs|
    ensures r.1 <= |obs|
  {
    if |obs| == 0 then (a, 0)
    else
      var s := Step(a, obs[0], c);
      var rest := Run(s.0, obs[1..], c);
      (rest.0, rest.1 + (if s.1 then 1 else 0))
  }

  /** The trigger counter records every firing, and only the counter, the
      time stamp and the status ever change. */
  lemma {:induction false} RunCounts<P, I>(a: Alert, obs: seq<Observation<P, I>>, c: Checkers<P, I>)
    ensures Run(a, obs, c).0.triggerCount == a.triggerCount + Run(a, obs, c).1
    ensures Run(a, obs, c).0.frequency == a.frequency
    ensures Run(a, obs, c).0.(triggerCount := a.triggerCount, lastTriggered := a.lastTriggered,
                              status := a.status) == a
    decreases |obs|
  {
    if |obs| > 0 {
      var s := Step(a, obs[0], c);
      RunCounts(s.0, obs[1..], c);
    }
  }

  /** An alert that is not active never fires again, whatever it is shown. */
  lemma {:induction false} InactiveNeverFires<P, I>(a: Alert, obs: seq<Observation<P, I>>, c: Checkers<P, I>)
    requires a.status != "active"
    ensures Run(a, obs, c).1 == 0
    ensures Run(a, obs, c).0 == a
    decreases |obs|
  {
    if |obs| > 0 {
      InactiveNeverFires(a, obs[1..], c);
    }
  }

  /** Guarded by `shouldTrigger`, a "once" alert fires at most once. */
  lemma {:induction false} OnceFiresAtMostOnce<P, I>(a: Alert, obs: seq<Observation<P, I>>, c: Checkers<P, I>)
    requires a.frequency == "once"
    ensures Run(a, obs, c).1 <= 1
    decreases |obs|
  {
    if |obs| > 0 {
      var s := Step(a, obs[0], c);
      if s.1 {
        assert s.0.status == "triggered";
        InactiveNeverFires(s.0, obs[1..], c);
      } else {
        OnceFiresAtMostOnce(a, obs[1..], c);
      }
    }
  }

  /** Unguarded, `trigger` keeps counting even for a "once" alert. */
  lemma TriggerHasNoGuard(a: Alert, now: int)
    requires a.frequency == "once"
    ensures Trigger(Trigger(a, now), now).triggerCount == a.triggerCount + 2
    ensures Trigger(Trigger(a, now), now).status == "triggered"
  {
  }

  // ---- findActiveAlerts ----

  predicate ActiveFor(a: Alert, symbol: string, now: int) {
    a.symbol == symbol && a.status == "active" && (a.expiresAt.None? || a.expiresAt.value > now)
  }

  function ActiveForSel(symbol: string, now: int): Alert -> bool {
    a => ActiveFor(a, symbol, now)
  }

  /** `findActiveAlerts(symbol)`: the stored alerts of that symbol that are
      active and not expired, in store order. */
  function FindActiveAlerts(store: seq<Alert>, symbol: string, now: int): (r: seq<Alert>)
    ensures forall a :: a in r <==> a in store && a.symbol == symbol && a.status == "active"
                                    && (a.expiresAt.None? || a.expiresAt.value > now)
    ensures |r| <= |store|
  {
    Filter(store, ActiveForSel(symbol, now))
  }

  /** The query and the guard agree on expiry except at the boundary: an
      alert expiring exactly now is not found but would still pass the
      guard's expiry test. */
  lemma FoundAlertsPassGuard<P, I>(store: seq<Alert>, symbol: string, now: int, a: Alert,
                                   pattern: P, price: Option<Quote>, indicators: I, c: Checkers<P, I>)
    requires a in FindActiveAlerts(store, symbol, now)
    requires a.alertType == "pattern"
    ensures ShouldTrigger(a, now, pattern, price, indicators, c) == Success(c.pattern(a, pattern))
  {
    assert "TypeError: this." + CheckerMethod(a.alertType) + " is not a function"
        == "TypeError: this.checkPatternConditions is not a function";
  }
}
