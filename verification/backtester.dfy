/** The pattern backtester of the ML service: each detected pattern is traded
    from the next bar's open until the first close that crosses the stop-loss
    or take-profit level, or until the holding period runs out; the trades are
    then summarised overall, per pattern name and per confidence bracket.
    Prices and returns are exact reals. */
module Backtester {
  import opened Common

  /** One OHLCV row, reduced to the columns the backtester reads. */
  datatype Bar = Bar(time: int, open: real, close: real)

  /** The four keys the backtester reads from a detected-pattern dictionary. */
  datatype Occurrence = Occurrence(name: string, patternType: string, confidence: real, endIndex: nat)

  datatype ExitReason = StopLoss | TakeProfit | HoldingPeriod

  /** `stopLoss` is a signed return (negative for a loss), `takeProfit` a gain. */
  datatype Params = Params(holdingPeriod: int, stopLoss: real, takeProfit: real, transactionCost: real)

  /** The keyword defaults of `backtest_pattern` with the configured 0.1% cost per side. */
  const DefaultParams := Params(5, -0.02, 0.04, 0.001)

  /** The configured minimum number of trades for a per-pattern report section. */
  const DefaultMinTrades := 30

  datatype Exit = Exit(index: nat, price: real, reason: ExitReason)

  datatype Trade = Trade(
    patternName: string,
    patternType: string,
    confidence: real,
    entryTime: int,
    exitTime: int,
    entryPrice: real,
    exitPrice: real,
    ret: real,
    exitReason: ExitReason,
    holdingDuration: int)

  /** Only bullish patterns are traded long; every other type is sold short. */
  predicate IsLong(o: Occurrence) {
    o.patternType == "bullish"
  }

  /** A pattern is traded only if its entry bar, the bar after its end, is not the last bar. */
  predicate Retained(o: Occurrence, n: nat) {
    o.endIndex + 1 < n - 1
  }

  function RetainedIn(n: nat): Occurrence -> bool {
    o => Retained(o, n)
  }

  /** A retained pattern whose entry bar opens at a non-zero price: the
      returns of its trade divide by that price. */
  predicate EntryPriced(bars: seq<Bar>, o: Occurrence) {
    Retained(o, |bars|) && bars[o.endIndex + 1].open != 0.0
  }

  /** Every retained pattern of the list has a non-zero entry price. */
  predicate EntryOpensNonZero(bars: seq<Bar>, patterns: seq<Occurrence>) {
    forall o | o in patterns && Retained(o, |bars|) :: bars[o.endIndex + 1].open != 0.0
  }

  /** A retained pattern whose entry bar opens at zero. The source divides
      by that price, which numpy turns into an infinite or undefined
      return; the model reports the pattern instead. */
  datatype NonFinite = NonFinite(pattern: Occurrence)

  /** The exit one bar's close would cause: stop-loss is tested before take-profit. */
  function HitAt(isLong: bool, entryPrice: real, close: real, p: Params): (r: Option<(real, ExitReason)>)
    requires entryPrice != 0.0
    ensures r.Some? ==> r.value.1 != HoldingPeriod
    ensures var change := (close - entryPrice) / entryPrice;
            var sl := if isLong then change <= p.stopLoss else change >= -p.stopLoss;
            var tp := if isLong then change >= p.takeProfit else change <= -p.takeProfit;
            && ((r.Some? && r.value.1 == StopLoss) <==> sl)
            && ((r.Some? && r.value.1 == TakeProfit) <==> !sl && tp)
            && (r.None? <==> !sl && !tp)
    ensures r.Some? && r.value.1 == StopLoss ==>
              r.value.0 == entryPrice * (1.0 + (if isLong then p.stopLoss else -p.stopLoss))
    ensures r.Some? && r.value.1 == TakeProfit ==>
              r.value.0 == entryPrice * (1.0 + (if isLong then p.takeProfit else -p.takeProfit))
  {
    var change := (close - entryPrice) / entryPrice;
    if isLong then
      if change <= p.stopLoss then Some((entryPrice * (1.0 + p.stopLoss), StopLoss))
      else if change >= p.takeProfit then Some((entryPrice * (1.0 + p.takeProfit), TakeProfit))
      else None
    else
      if change >= -p.stopLoss then Some((entryPrice * (1.0 - p.stopLoss), StopLoss))
      else if change <= -p.takeProfit then Some((entryPrice * (1.0 - p.takeProfit), TakeProfit))
      else None
  }

  /** The first bar in [i, end) whose close triggers an exit. */
  function FirstHit(bars: seq<Bar>, entryPrice: real, isLong: bool, p: Params, i: nat, end: nat): (r: Option<Exit>)
    requires entryPrice != 0.0
    requires end <= |bars|
    decreases end - i
    ensures r.Some? ==> i <= r.value.index < end && r.value.reason != HoldingPeriod
    ensures r.Some? ==> HitAt(isLong, entryPrice, bars[r.value.index].close, p)
                        == Some((r.value.price, r.value.reason))
    ensures r.Some? ==> forall k :: i <= k < r.value.index ==>
                          HitAt(isLong, entryPrice, bars[k].close, p).None?
    ensures r.None? ==> forall k :: i <= k < end ==> HitAt(isLong, entryPrice, bars[k].close, p).None?
  {
    if i >= end then None
    else match HitAt(isLong, entryPrice, bars[i].close, p)
      case Some(hit) => Some(Exit(i, hit.0, hit.1))
      case None => FirstHit(bars, entryPrice, isLong, p, i + 1, end)
  }

  /** Exclusive end of the scanned bars: `min(entry + holding_period + 1, len)`. */
  function ScanEnd(n: nat, entryIdx: nat, holdingPeriod: int): (end: nat)
    ensures end <= n
    ensures end <= entryIdx + Max(0, holdingPeriod) + 1
    ensures entryIdx + 1 < n && holdingPeriod >= 1 ==> end > entryIdx + 1
  {
    if entryIdx + holdingPeriod + 1 < n then Max(0, entryIdx + holdingPeriod + 1) else n
  }

  /** The exit as the source computes it: a holding-period exit keeps `exit_idx`
      at the entry bar although the price is that of the last scanned bar. */
  function ScanExitAsWritten(bars: seq<Bar>, entryIdx: nat, isLong: bool, p: Params): (e: Exit)
    requires entryIdx < |bars| && bars[entryIdx].open != 0.0
    ensures entryIdx <= e.index < |bars|
    ensures e.index - entryIdx <= Max(0, p.holdingPeriod)
    ensures e.reason != HoldingPeriod ==>
              && entryIdx < e.index < ScanEnd(|bars|, entryIdx, p.holdingPeriod)
              && HitAt(isLong, bars[entryIdx].open, bars[e.index].close, p) == Some((e.price, e.reason))
              && forall k :: entryIdx < k < e.index ==> HitAt(isLong, bars[entryIdx].open, bars[k].close, p).None?
    ensures e.reason == HoldingPeriod ==>
              && e.index == entryIdx
              && (forall k :: entryIdx < k < ScanEnd(|bars|, entryIdx, p.holdingPeriod) ==>
                    HitAt(isLong, bars[entryIdx].open, bars[k].close, p).None?)
              && e.price == (if ScanEnd(|bars|, entryIdx, p.holdingPeriod) > entryIdx + 1
                             then bars[ScanEnd(|bars|, entryIdx, p.holdingPeriod) - 1].close
                             else bars[entryIdx].open)
  {
    var entryPrice := bars[entryIdx].open;
    var end := ScanEnd(|bars|, entryIdx, p.holdingPeriod);
    match FirstHit(bars, entryPrice, isLong, p, entryIdx + 1, end)
    case Some(e) => e
    case None =>
      if end > entryIdx + 1 then Exit(entryIdx, bars[end - 1].close, HoldingPeriod)
      else Exit(entryIdx, entryPrice, HoldingPeriod)
  }

  /** The exit with a holding-period exit dated at the last scanned bar. */
  function ScanExit(bars: seq<Bar>, entryIdx: nat, isLong: bool, p: Params): (e: Exit)
    requires entryIdx < |bars| && bars[entryIdx].open != 0.0
    ensures entryIdx <= e.index < |bars|
    ensures e.index - entryIdx <= Max(0, p.holdingPeriod)
    ensures e.reason != HoldingPeriod ==>
              && entryIdx < e.index < ScanEnd(|bars|, entryIdx, p.holdingPeriod)
              && HitAt(isLong, bars[entryIdx].open, bars[e.index].close, p) == Some((e.price, e.reason))
              && forall k :: entryIdx < k < e.index ==> HitAt(isLong, bars[entryIdx].open, bars[k].close, p).None?
    ensures e.reason == HoldingPeriod ==>
              && (forall k :: entryIdx < k < ScanEnd(|bars|, entryIdx, p.holdingPeriod) ==>
                    HitAt(isLong, bars[entryIdx].open, bars[k].close, p).None?)
              && e.index == Max(entryIdx, ScanEnd(|bars|, entryIdx, p.holdingPeriod) - 1)
              && e.price == (if e.index > entryIdx then bars[e.index].close else bars[entryIdx].open)
  {
    var entryPrice := bars[entryIdx].open;
    var end := ScanEnd(|bars|, entryIdx, p.holdingPeriod);
    match FirstHit(bars, entryPrice, isLong, p, entryIdx + 1, end)
    case Some(e) => e
    case None =>
      if end > entryIdx + 1 then Exit(end - 1, bars[end - 1].close, HoldingPeriod)
      else Exit(entryIdx, entryPrice, HoldingPeriod)
  }

  /** The return of a position opened at `entryPrice` and closed at
      `exitPrice`: the relative price change, negated for a short position,
      less the transaction cost paid on entry and on exit. */
  function NetReturn(isLong: bool, entryPrice: real, exitPrice: real, p: Params): real
    requires entryPrice != 0.0
  {
    var raw := (exitPrice - entryPrice) / entryPrice;
    (if isLong then raw else -raw) - p.transactionCost * 2.0
  }

  /** The trade record built from an entry bar and an exit. */
  function MakeTrade(bars: seq<Bar>, o: Occurrence, entryIdx: nat, e: Exit, p: Params): (t: Trade)
    requires entryIdx < |bars| && e.index < |bars| && bars[entryIdx].open != 0.0
    ensures t.patternName == o.name && t.patternType == o.patternType && t.confidence == o.confidence
    ensures t.entryPrice == bars[entryIdx].open && t.entryTime == bars[entryIdx].time
    ensures t.exitPrice == e.price && t.exitReason == e.reason && t.exitTime == bars[e.index].time
    ensures t.holdingDuration == e.index - entryIdx
    ensures t.ret == NetReturn(IsLong(o), t.entryPrice, t.exitPrice, p)
  {
    var entryPrice := bars[entryIdx].open;
    Trade(o.name, o.patternType, o.confidence, bars[entryIdx].time, bars[e.index].time,
          entryPrice, e.price, NetReturn(IsLong(o), entryPrice, e.price, p), e.reason, e.index - entryIdx)
  }

  /** Leaving at `entry * (1 + d)` is a raw return of exactly `d`. */
  lemma RawReturn(entryPrice: real, exitPrice: real, d: real)
    requires entryPrice != 0.0 && exitPrice == entryPrice * (1.0 + d)
    ensures (exitPrice - entryPrice) / entryPrice == d
  {
    assert exitPrice - entryPrice == entryPrice * d;
  }

  /** A stop-loss or take-profit exit earns exactly that level, net of both costs. */
  lemma ExitReturn(bars: seq<Bar>, o: Occurrence, entryIdx: nat, e: Exit, p: Params)
    requires entryIdx < |bars| && e.index < |bars| && bars[entryIdx].open != 0.0
    requires e.reason != HoldingPeriod ==>
               HitAt(IsLong(o), bars[entryIdx].open, bars[e.index].close, p) == Some((e.price, e.reason))
    ensures e.reason == StopLoss ==> MakeTrade(bars, o, entryIdx, e, p).ret == p.stopLoss - 2.0 * p.transactionCost
    ensures e.reason == TakeProfit ==> MakeTrade(bars, o, entryIdx, e, p).ret == p.takeProfit - 2.0 * p.transactionCost
  {
    var entryPrice := bars[entryIdx].open;
    var raw := (e.price - entryPrice) / entryPrice;
    var t := MakeTrade(bars, o, entryIdx, e, p);
    assert t.ret == (if IsLong(o) then raw else -raw) - p.transactionCost * 2.0;
    if e.reason != HoldingPeriod {
      var x := if e.reason == StopLoss then p.stopLoss else p.takeProfit;
      var d := if IsLong(o) then x else -x;
      assert e.price == entryPrice * (1.0 + d);
      RawReturn(entryPrice, e.price, d);
      assert raw == d;
    }
  }

  /** A stop-loss or take-profit exit: the bar `holdingDuration` after entry
      is the first scanned close that crosses a level, and the exit is at
      that level's price. */
  predicate FirstCrossing(bars: seq<Bar>, o: Occurrence, p: Params, t: Trade)
    requires EntryPriced(bars, o)
  {
    var entryIdx := o.endIndex + 1;
    && 0 < t.holdingDuration
    && entryIdx + t.holdingDuration < ScanEnd(|bars|, entryIdx, p.holdingPeriod)
    && HitAt(IsLong(o), bars[entryIdx].open, bars[entryIdx + t.holdingDuration].close, p)
       == Some((t.exitPrice, t.exitReason))
    && forall k :: entryIdx < k < entryIdx + t.holdingDuration ==>
         HitAt(IsLong(o), bars[entryIdx].open, bars[k].close, p).None?
  }

  /** No scanned close crosses either level. */
  predicate NoCrossing(bars: seq<Bar>, o: Occurrence, p: Params)
    requires EntryPriced(bars, o)
  {
    var entryIdx := o.endIndex + 1;
    forall k :: entryIdx < k < ScanEnd(|bars|, entryIdx, p.holdingPeriod) ==>
      HitAt(IsLong(o), bars[entryIdx].open, bars[k].close, p).None?
  }

  /** The close of the last scanned bar, or the entry price when no bar is scanned. */
  function LastScannedClose(bars: seq<Bar>, o: Occurrence, p: Params): real
    requires EntryPriced(bars, o)
  {
    var entryIdx := o.endIndex + 1;
    var end := ScanEnd(|bars|, entryIdx, p.holdingPeriod);
    if end > entryIdx + 1 then bars[end - 1].close else bars[entryIdx].open
  }

  /** One trade as the source computes it. */
  function SimulateAsWritten(bars: seq<Bar>, o: Occurrence, p: Params): (t: Trade)
    requires EntryPriced(bars, o)
    ensures t.patternName == o.name && t.patternType == o.patternType && t.confidence == o.confidence
    ensures t.entryPrice == bars[o.endIndex + 1].open && t.entryTime == bars[o.endIndex + 1].time
    ensures t.exitReason == StopLoss ==> t.ret == p.stopLoss - 2.0 * p.transactionCost
    ensures t.exitReason == TakeProfit ==> t.ret == p.takeProfit - 2.0 * p.transactionCost
    ensures 0 <= t.holdingDuration <= Max(0, p.holdingPeriod)
    ensures t.exitReason == HoldingPeriod ==> t.holdingDuration == 0 && t.exitTime == t.entryTime
    ensures o.endIndex + 1 + t.holdingDuration < |bars|
    ensures t.exitTime == bars[o.endIndex + 1 + t.holdingDuration].time
    ensures t.ret == NetReturn(IsLong(o), t.entryPrice, t.exitPrice, p)
    ensures t.exitReason != HoldingPeriod ==> FirstCrossing(bars, o, p, t)
    ensures t.exitReason == HoldingPeriod ==> NoCrossing(bars, o, p) && t.exitPrice == LastScannedClose(bars, o, p)
  {
    var entryIdx := o.endIndex + 1;
    var e := ScanExitAsWritten(bars, entryIdx, IsLong(o), p);
    ExitReturn(bars, o, entryIdx, e, p);
    MakeTrade(bars, o, entryIdx, e, p)
  }

  /** One trade, with a holding-period exit dated at the last scanned bar. */
  function Simulate(bars: seq<Bar>, o: Occurrence, p: Params): (t: Trade)
    requires EntryPriced(bars, o)
    ensures t.patternName == o.name && t.patternType == o.patternType && t.confidence == o.confidence
    ensures t.entryPrice == bars[o.endIndex + 1].open && t.entryTime == bars[o.endIndex + 1].time
    ensures t.exitReason == StopLoss ==> t.ret == p.stopLoss - 2.0 * p.transactionCost
    ensures t.exitReason == TakeProfit ==> t.ret == p.takeProfit - 2.0 * p.transactionCost
    ensures 0 <= t.holdingDuration <= Max(0, p.holdingPeriod)
    ensures t.exitReason == HoldingPeriod ==>
              t.holdingDuration == Max(0, ScanEnd(|bars|, o.endIndex + 1, p.holdingPeriod) - 1 - (o.endIndex + 1))
    ensures o.endIndex + 1 + t.holdingDuration < |bars|
    ensures t.exitTime == bars[o.endIndex + 1 + t.holdingDuration].time
    ensures t.ret == NetReturn(IsLong(o), t.entryPrice, t.exitPrice, p)
    ensures t.exitReason != HoldingPeriod ==> FirstCrossing(bars, o, p, t)
    ensures t.exitReason == HoldingPeriod ==> NoCrossing(bars, o, p) && t.exitPrice == LastScannedClose(bars, o, p)
  {
    var entryIdx := o.endIndex + 1;
    var e := ScanExit(bars, entryIdx, IsLong(o), p);
    ExitReturn(bars, o, entryIdx, e, p);
    MakeTrade(bars, o, entryIdx, e, p)
  }

  /** The correction only re-dates holding-period exits: the exit reason,
      exit price and return are those of the code as written, and a
      stop-loss or take-profit trade is the same record. */
  lemma SimulateMatchesAsWritten(bars: seq<Bar>, o: Occurrence, p: Params)
    requires EntryPriced(bars, o)
    ensures Simulate(bars, o, p).exitReason == SimulateAsWritten(bars, o, p).exitReason
    ensures Simulate(bars, o, p).exitPrice == SimulateAsWritten(bars, o, p).exitPrice
    ensures Simulate(bars, o, p).ret == SimulateAsWritten(bars, o, p).ret
    ensures Simulate(bars, o, p).exitReason != HoldingPeriod ==>
              Simulate(bars, o, p) == SimulateAsWritten(bars, o, p)
  {
  }

  /** Four flat bars, a bullish pattern ending at bar 0 and the default
      parameters: no threshold is hit on bars 2 and 3, so the position is
      held to bar 3, yet the trade as written reports a zero holding time. */
  lemma HoldingPeriodDurationLost()
    ensures var bars := [Bar(0, 100.0, 100.0), Bar(1, 100.0, 100.0), Bar(2, 100.0, 100.0), Bar(3, 100.0, 100.0)];
            var o := Occurrence("HAMMER", "bullish", 0.9, 0);
            && SimulateAsWritten(bars, o, DefaultParams).exitReason == HoldingPeriod
            && SimulateAsWritten(bars, o, DefaultParams).holdingDuration == 0
            && SimulateAsWritten(bars, o, DefaultParams).exitTime == 1
            && Simulate(bars, o, DefaultParams).holdingDuration == 2
            && Simulate(bars, o, DefaultParams).exitTime == 3
  {
    var bars := [Bar(0, 100.0, 100.0), Bar(1, 100.0, 100.0), Bar(2, 100.0, 100.0), Bar(3, 100.0, 100.0)];
    assert HitAt(true, 100.0, 100.0, DefaultParams).None?;
    assert FirstHit(bars, 100.0, true, DefaultParams, 4, 4).None?;
    assert FirstHit(bars, 100.0, true, DefaultParams, 3, 4).None?;
    assert FirstHit(bars, 100.0, true, DefaultParams, 2, 4).None?;
  }

  /** The trade loop as written, over patterns whose entry prices are all
      non-zero: one trade per retained pattern, in input order. */
  function TradesAsWritten(bars: seq<Bar>, patterns: seq<Occurrence>, p: Params): (r: seq<Trade>)
    requires EntryOpensNonZero(bars, patterns)
    ensures |r| == Count(patterns, RetainedIn(|bars|))
    ensures forall k :: 0 <= k < |r| ==>
              && EntryPriced(bars, Filter(patterns, RetainedIn(|bars|))[k])
              && r[k] == SimulateAsWritten(bars, Filter(patterns, RetainedIn(|bars|))[k], p)
  {
    if |patterns| == 0 then []
    else if Retained(patterns[0], |bars|) then
      [SimulateAsWritten(bars, patterns[0], p)] + TradesAsWritten(bars, patterns[1..], p)
    else TradesAsWritten(bars, patterns[1..], p)
  }

  /** The trade loop with holding-period exits dated at the last scanned bar. */
  function Trades(bars: seq<Bar>, patterns: seq<Occurrence>, p: Params): (r: seq<Trade>)
    requires EntryOpensNonZero(bars, patterns)
    ensures |r| == Count(patterns, RetainedIn(|bars|))
    ensures forall k :: 0 <= k < |r| ==>
              && EntryPriced(bars, Filter(patterns, RetainedIn(|bars|))[k])
              && r[k] == Simulate(bars, Filter(patterns, RetainedIn(|bars|))[k], p)
  {
    if |patterns| == 0 then []
    else if Retained(patterns[0], |bars|) then
      [Simulate(bars, patterns[0], p)] + Trades(bars, patterns[1..], p)
    else Trades(bars, patterns[1..], p)
  }

  /** The first retained pattern whose entry bar opens at zero. */
  function FirstUnpriced(bars: seq<Bar>, patterns: seq<Occurrence>): (o: Occurrence)
    requires !EntryOpensNonZero(bars, patterns)
    ensures o in patterns && Retained(o, |bars|) && bars[o.endIndex + 1].open == 0.0
  {
    var o := patterns[0];
    if Retained(o, |bars|) && bars[o.endIndex + 1].open == 0.0 then o
    else
      assert !EntryOpensNonZero(bars, patterns[1..]) by {
        var q :| q in patterns && Retained(q, |bars|) && bars[q.endIndex + 1].open == 0.0;
        assert q in patterns[1..];
      }
      FirstUnpriced(bars, patterns[1..])
  }

  /** `_calculate_returns` as written: one trade per retained pattern, in
      input order, or the pattern whose zero entry price leaves the reals. */
  function CalculateReturnsAsWritten(bars: seq<Bar>, patterns: seq<Occurrence>, p: Params)
    : (r: Result<seq<Trade>, NonFinite>)
    ensures r.Failure? <==> !EntryOpensNonZero(bars, patterns)
    ensures r.Failure? ==> var o := r.error.pattern;
              o in patterns && Retained(o, |bars|) && bars[o.endIndex + 1].open == 0.0
    ensures r.Success? ==> |r.value| == Count(patterns, RetainedIn(|bars|))
    ensures r.Success? ==> forall k :: 0 <= k < |r.value| ==>
              && EntryPriced(bars, Filter(patterns, RetainedIn(|bars|))[k])
              && r.value[k] == SimulateAsWritten(bars, Filter(patterns, RetainedIn(|bars|))[k], p)
  {
    if EntryOpensNonZero(bars, patterns) then Success(TradesAsWritten(bars, patterns, p))
    else Failure(NonFinite(FirstUnpriced(bars, patterns)))
  }

  /** `_calculate_returns` with holding-period exits dated at the last scanned bar. */
  function CalculateReturns(bars: seq<Bar>, patterns: seq<Occurrence>, p: Params)
    : (r: Result<seq<Trade>, NonFinite>)
    ensures r.Failure? <==> !EntryOpensNonZero(bars, patterns)
    ensures r.Failure? ==> var o := r.error.pattern;
              o in patterns && Retained(o, |bars|) && bars[o.endIndex + 1].open == 0.0
    ensures r.Success? ==> |r.value| == Count(patterns, RetainedIn(|bars|))
    ensures r.Success? ==> forall k :: 0 <= k < |r.value| ==>
              && EntryPriced(bars, Filter(patterns, RetainedIn(|bars|))[k])
              && r.value[k] == Simulate(bars, Filter(patterns, RetainedIn(|bars|))[k], p)
  {
    if EntryOpensNonZero(bars, patterns) then Success(Trades(bars, patterns, p))
    else Failure(NonFinite(FirstUnpriced(bars, patterns)))
  }

  /** Only entry prices divide: a zero open on a bar that is no entry bar
      leaves the trade list well defined. */
  lemma ZeroOpenOffEntryTrades()
    ensures var bars := [Bar(0, 0.0, 0.0), Bar(1, 100.0, 100.0), Bar(2, 100.0, 100.0)];
            var r := CalculateReturnsAsWritten(bars, [Occurrence("HAMMER", "bullish", 0.9, 0)], DefaultParams);
            r.Success? && |r.value| == 1 && r.value[0].entryPrice == 100.0 && r.value[0].exitPrice == 100.0
  {
    var bars := [Bar(0, 0.0, 0.0), Bar(1, 100.0, 100.0), Bar(2, 100.0, 100.0)];
    var ps := [Occurrence("HAMMER", "bullish", 0.9, 0)];
    assert Filter(ps, RetainedIn(|bars|)) == ps by {
      assert Filter(ps[1..], RetainedIn(|bars|)) == [];
    }
    assert HitAt(true, 100.0, 100.0, DefaultParams).None?;
    assert FirstHit(bars, 100.0, true, DefaultParams, 3, 3).None?;
    assert FirstHit(bars, 100.0, true, DefaultParams, 2, 3).None?;
  }

  /** Trade by trade, the correction keeps the exit reason, price and return. */
  lemma CalculateReturnsMatchesAsWritten(bars: seq<Bar>, patterns: seq<Occurrence>, p: Params)
    ensures CalculateReturnsAsWritten(bars, patterns, p).Success? == CalculateReturns(bars, patterns, p).Success?
    ensures CalculateReturns(bars, patterns, p).Success? ==>
              |CalculateReturnsAsWritten(bars, patterns, p).value| == |CalculateReturns(bars, patterns, p).value|
    ensures CalculateReturns(bars, patterns, p).Success? ==>
              forall k :: 0 <= k < |CalculateReturns(bars, patterns, p).value| ==>
                var a := CalculateReturnsAsWritten(bars, patterns, p).value[k];
                var c := CalculateReturns(bars, patterns, p).value[k];
                a.exitReason == c.exitReason && a.exitPrice == c.exitPrice && a.ret == c.ret
  {
    if EntryOpensNonZero(bars, patterns) {
      var a := CalculateReturnsAsWritten(bars, patterns, p).value;
      var c := CalculateReturns(bars, patterns, p).value;
      var kept := Filter(patterns, RetainedIn(|bars|));
      forall k | 0 <= k < |c|
        ensures a[k].exitReason == c[k].exitReason && a[k].exitPrice == c[k].exitPrice && a[k].ret == c[k].ret
      {
        SimulateMatchesAsWritten(bars, kept[k], p);
      }
    }
  }
}
