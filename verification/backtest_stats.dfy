/** Summary statistics of a list of trades: counts, win rate, mean and
    spread of the returns, extremes, Sharpe ratio, mean holding duration and
    the maximum drawdown of the compounded equity curve. */
module BacktestStats {
  import opened Common
  import opened Backtester

  datatype Stats = Stats(
    totalTrades: nat,
    winningTrades: nat,
    losingTrades: nat,
    winRate: real,
    avgReturn: real,
    stdReturn: real,
    maxReturn: real,
    minReturn: real,
    sharpeRatio: real,
    avgHoldingDuration: real,
    maxDrawdown: Option<real>)

  function Returns(trades: seq<Trade>): (rs: seq<real>)
    ensures |rs| == |trades|
    ensures forall i :: 0 <= i < |trades| ==> rs[i] == trades[i].ret
  {
    seq(|trades|, i requires 0 <= i < |trades| => trades[i].ret)
  }

  function Durations(trades: seq<Trade>): (ds: seq<real>)
    ensures |ds| == |trades|
    ensures forall i :: 0 <= i < |trades| ==> ds[i] == trades[i].holdingDuration as real
  {
    seq(|trades|, i requires 0 <= i < |trades| => trades[i].holdingDuration as real)
  }

  predicate Positive(r: real) { r > 0.0 }

  predicate NonPositive(r: real) { r <= 0.0 }

  function Sum(rs: seq<real>): real {
    if |rs| == 0 then 0.0 else rs[0] + Sum(rs[1..])
  }

  function Mean(rs: seq<real>): real
    requires |rs| > 0
  {
    Sum(rs) / (|rs| as real)
  }

  /** Population variance, numpy's default for `std`. */
  function Variance(rs: seq<real>): real
    requires |rs| > 0
  {
    var m := Mean(rs);
    Mean(seq(|rs|, i requires 0 <= i < |rs| => (rs[i] - m) * (rs[i] - m)))
  }

  function MaxOf(rs: seq<real>): (m: real)
    requires |rs| > 0
    ensures m in rs
    ensures forall i :: 0 <= i < |rs| ==> rs[i] <= m
  {
    if |rs| == 1 then rs[0]
    else
      var rest := MaxOf(rs[1..]);
      if rs[0] >= rest then rs[0] else rest
  }

  function MinOf(rs: seq<real>): (m: real)
    requires |rs| > 0
    ensures m in rs
    ensures forall i :: 0 <= i < |rs| ==> m <= rs[i]
  {
    if |rs| == 1 then rs[0]
    else
      var rest := MinOf(rs[1..]);
      if rs[0] <= rest then rs[0] else rest
  }

  /** Every return is either a win (`r > 0`) or a loss (`r <= 0`). */
  lemma {:induction false} WinLossPartition(rs: seq<real>)
    ensures |Filter(rs, Positive)| + |Filter(rs, NonPositive)| == |rs|
  {
    if |rs| != 0 {
      WinLossPartition(rs[1..]);
    }
  }

  // ---- Drawdown: cumulative product, running peak, relative decline ----

  /** `cumprod(1 + r)` continuing from the running product `acc`. */
  function CumProducts(rs: seq<real>, acc: real): (cs: seq<real>)
    ensures |cs| == |rs|
    ensures acc > 0.0 && (forall i :: 0 <= i < |rs| ==> rs[i] > -1.0) ==>
              forall i :: 0 <= i < |cs| ==> cs[i] > 0.0
  {
    if |rs| == 0 then []
    else
      var next := acc * (1.0 + rs[0]);
      assert acc > 0.0 && rs[0] > -1.0 ==> next > 0.0;
      [next] + CumProducts(rs[1..], next)
  }

  /** `maximum.accumulate`, continuing from the peak seen so far. */
  function RunningMax(cs: seq<real>, peak: real): (ms: seq<real>)
    ensures |ms| == |cs|
    ensures forall i :: 0 <= i < |cs| ==> cs[i] <= ms[i] && peak <= ms[i]
  {
    if |cs| == 0 then []
    else
      var p := if cs[0] > peak then cs[0] else peak;
      var rest := RunningMax(cs[1..], p);
      var ms := [p] + rest;
      forall i | 1 <= i < |cs| ensures cs[i] <= ms[i] && peak <= ms[i] {
        assert ms[i] == rest[i - 1] && cs[i] == cs[1..][i - 1];
        assert cs[1..][i - 1] <= rest[i - 1] && p <= rest[i - 1];
      }
      ms
  }

  /** One step of `RunningMax`: the first peak, then the rest from it. */
  lemma RunningMaxCons(cs: seq<real>, peak: real)
    requires |cs| > 0
    ensures var p := if cs[0] > peak then cs[0] else peak;
            RunningMax(cs, peak) == [p] + RunningMax(cs[1..], p)
  {
  }

  /** Each running peak is the starting peak or a value seen so far. */
  lemma {:induction false} RunningMaxAttained(cs: seq<real>, peak: real, i: nat)
    requires i < |cs|
    ensures RunningMax(cs, peak)[i] == peak || exists j :: 0 <= j <= i && RunningMax(cs, peak)[i] == cs[j]
    decreases |cs|
  {
    var p := if cs[0] > peak then cs[0] else peak;
    var rest := RunningMax(cs[1..], p);
    RunningMaxCons(cs, peak);
    if i == 0 || rest[i - 1] == p {
      assert RunningMax(cs, peak)[i] == p;
    } else {
      RunningMaxAttained(cs[1..], p, i - 1);
      var j :| 0 <= j <= i - 1 && rest[i - 1] == cs[1..][j];
      assert RunningMax(cs, peak)[i] == cs[j + 1];
    }
  }

  function Cumulative(rs: seq<real>): (cs: seq<real>)
    ensures |cs| == |rs|
  {
    CumProducts(rs, 1.0)
  }

  function Peaks(rs: seq<real>): (ms: seq<real>)
    ensures |ms| == |rs|
  {
    var cs := Cumulative(rs);
    if |cs| == 0 then [] else RunningMax(cs, cs[0])
  }

  /** Decline of `c` relative to the peak `m`. */
  function Relative(c: real, m: real): real
    requires m != 0.0
  {
    (c - m) / m
  }

  lemma RelativeFacts(c: real, m: real)
    requires 0.0 < m && c <= m
    ensures Relative(c, m) <= 0.0
    ensures Relative(c, m) == 0.0 <==> c == m
  {
    assert c - m == Relative(c, m) * m;
  }

  /** The relative drawdowns, or None when a running peak is zero and the
      division has no real value. */
  function Drawdowns(rs: seq<real>): (r: Option<seq<real>>)
    ensures r.Some? <==> forall i :: 0 <= i < |rs| ==> Peaks(rs)[i] != 0.0
    ensures r.Some? ==> |r.value| == |rs|
    ensures r.Some? ==> forall i :: 0 <= i < |rs| ==>
              r.value[i] == Relative(Cumulative(rs)[i], Peaks(rs)[i])
  {
    var cs := Cumulative(rs);
    var ms := Peaks(rs);
    if forall i :: 0 <= i < |ms| ==> ms[i] != 0.0 then
      Some(seq(|cs|, i requires 0 <= i < |cs| => Relative(cs[i], ms[i])))
    else None
  }

  /** `np.min(drawdowns)`: the deepest relative fall below a running peak,
      defined exactly when every drawdown is. */
  function MaxDrawdown(rs: seq<real>): (r: Option<real>)
    requires |rs| > 0
    ensures r.Some? <==> Drawdowns(rs).Some?
    ensures r.Some? ==> r.value in Drawdowns(rs).value
    ensures r.Some? ==> forall i :: 0 <= i < |rs| ==> r.value <= Drawdowns(rs).value[i]
  {
    match Drawdowns(rs)
    case None => None
    case Some(ds) => Some(MinOf(ds))
  }

  predicate AllAboveMinusOne(rs: seq<real>) {
    forall i :: 0 <= i < |rs| ==> rs[i] > -1.0
  }

  lemma PeaksPositive(rs: seq<real>)
    requires |rs| > 0 && AllAboveMinusOne(rs)
    ensures forall i :: 0 <= i < |rs| ==> Peaks(rs)[i] >= Cumulative(rs)[i] > 0.0
  {
    var cs := Cumulative(rs);
    assert cs[0] > 0.0;
  }

  /** While no single return loses everything, the maximum drawdown is a
      well-defined value that is never positive. */
  lemma MaxDrawdownNonPositive(rs: seq<real>)
    requires |rs| > 0 && AllAboveMinusOne(rs)
    ensures MaxDrawdown(rs).Some? && MaxDrawdown(rs).value <= 0.0
  {
    PeaksPositive(rs);
    var ds := Drawdowns(rs).value;
    forall i | 0 <= i < |ds| ensures ds[i] <= 0.0 {
      RelativeFacts(Cumulative(rs)[i], Peaks(rs)[i]);
    }
    assert ds[0] <= 0.0;
  }

  /** Of values that are all at most zero, the least is zero iff all are zero. */
  lemma MinOfNonPositive(ds: seq<real>)
    requires |ds| > 0 && forall i :: 0 <= i < |ds| ==> ds[i] <= 0.0
    ensures MinOf(ds) == 0.0 <==> forall i :: 0 <= i < |ds| ==> ds[i] == 0.0
  {
    var m := MinOf(ds);
    if forall i :: 0 <= i < |ds| ==> ds[i] == 0.0 {
      var k :| 0 <= k < |ds| && ds[k] == m;
    }
  }

  /** The maximum drawdown is zero exactly when equity never falls below its running peak. */
  lemma MaxDrawdownZeroIff(rs: seq<real>)
    requires |rs| > 0 && AllAboveMinusOne(rs)
    ensures MaxDrawdown(rs) == Some(0.0) <==>
            forall i :: 0 <= i < |rs| ==> Cumulative(rs)[i] == Peaks(rs)[i]
  {
    PeaksPositive(rs);
    var ds := Drawdowns(rs).value;
    forall i | 0 <= i < |rs|
      ensures ds[i] <= 0.0
      ensures ds[i] == 0.0 <==> Cumulative(rs)[i] == Peaks(rs)[i]
    {
      RelativeFacts(Cumulative(rs)[i], Peaks(rs)[i]);
    }
    MinOfNonPositive(ds);
  }

  // ---- Statistics ----

  /** `_calculate_pattern_statistics` on a non-empty trade list; `sqrt` is the
      square root the source takes from numpy. */
  function Statistics(trades: seq<Trade>, sqrt: real -> real): (st: Stats)
    requires |trades| > 0
    ensures st.totalTrades == |trades|
    ensures st.winningTrades == |Filter(Returns(trades), Positive)|
    ensures st.losingTrades == |Filter(Returns(trades), NonPositive)|
    ensures st.winningTrades + st.losingTrades == st.totalTrades
    ensures 0.0 <= st.winRate <= 1.0
    ensures st.winRate == st.winningTrades as real / st.totalTrades as real
    ensures forall t | t in trades :: st.minReturn <= t.ret <= st.maxReturn
    ensures exists t | t in trades :: t.ret == st.maxReturn
    ensures exists t | t in trades :: t.ret == st.minReturn
    ensures st.avgReturn == Mean(Returns(trades))
    ensures st.minReturn <= st.avgReturn <= st.maxReturn
    ensures st.stdReturn == sqrt(Variance(Returns(trades)))
    ensures st.sharpeRatio == if st.stdReturn > 0.0 then st.avgReturn / st.stdReturn else 0.0
    ensures st.avgHoldingDuration == Mean(Durations(trades))
    ensures st.maxDrawdown == MaxDrawdown(Returns(trades))
    ensures AllAboveMinusOne(Returns(trades)) ==> st.maxDrawdown.Some? && st.maxDrawdown.value <= 0.0
  {
    var rs := Returns(trades);
    var n := |rs| as real;
    var wins := |Filter(rs, Positive)|;
    var std := sqrt(Variance(rs));
    WinLossPartition(rs);
    WinRateBounds(wins, |trades|);
    MeanBetween(rs, MinOf(rs), MaxOf(rs));
    assert AllAboveMinusOne(rs) ==> MaxDrawdown(rs).Some? && MaxDrawdown(rs).value <= 0.0 by {
      if AllAboveMinusOne(rs) { MaxDrawdownNonPositive(rs); }
    }
    assert forall t | t in trades :: t.ret in rs by {
      forall t | t in trades ensures t.ret in rs {
        var i :| 0 <= i < |trades| && trades[i] == t;
        assert rs[i] == t.ret;
      }
    }
    ReturnsWitness(trades, MaxOf(rs));
    ReturnsWitness(trades, MinOf(rs));
    Stats(
      |trades|, wins, |Filter(rs, NonPositive)|,
      wins as real / |trades| as real,
      Mean(rs), std, MaxOf(rs), MinOf(rs),
      if std > 0.0 then Mean(rs) / std else 0.0,
      Mean(Durations(trades)),
      MaxDrawdown(rs))
  }

  /** Statistics read the trades only through their returns, except for the
      mean holding duration. */
  lemma SameReturnsSameStats(a: seq<Trade>, b: seq<Trade>, sqrt: real -> real)
    requires |a| == |b| > 0
    requires forall k :: 0 <= k < |a| ==> a[k].ret == b[k].ret
    ensures Statistics(a, sqrt).(avgHoldingDuration := 0.0) == Statistics(b, sqrt).(avgHoldingDuration := 0.0)
  {
    assert Returns(a) == Returns(b);
  }

  lemma ReturnsWitness(trades: seq<Trade>, r: real)
    requires r in Returns(trades)
    ensures exists t | t in trades :: t.ret == r
  {
    var i :| 0 <= i < |Returns(trades)| && Returns(trades)[i] == r;
    assert trades[i] in trades;
  }

  lemma {:induction false} SumBounds(rs: seq<real>, lo: real, hi: real)
    requires forall i :: 0 <= i < |rs| ==> lo <= rs[i] <= hi
    ensures lo * (|rs| as real) <= Sum(rs) <= hi * (|rs| as real)
  {
    if |rs| != 0 {
      SumBounds(rs[1..], lo, hi);
    }
  }

  lemma DivBetween(a: real, lo: real, hi: real, n: real)
    requires n > 0.0 && lo * n <= a <= hi * n
    ensures lo <= a / n <= hi
  {
    assert a / n * n == a;
  }

  lemma MeanBetween(rs: seq<real>, lo: real, hi: real)
    requires |rs| > 0
    requires forall i :: 0 <= i < |rs| ==> lo <= rs[i] <= hi
    ensures lo <= Mean(rs) <= hi
  {
    SumBounds(rs, lo, hi);
    DivBetween(Sum(rs), lo, hi, |rs| as real);
  }

  lemma WinRateBounds(wins: nat, n: nat)
    requires 0 < n && wins <= n
    ensures 0.0 <= wins as real / n as real <= 1.0
  {
    DivBetween(wins as real, 0.0, 1.0, n as real);
  }

  /** `_calculate_pattern_statistics`: the empty trade list gives an empty result. */
  function PatternStatistics(trades: seq<Trade>, sqrt: real -> real): (r: Option<Stats>)
    ensures r.None? <==> |trades| == 0
    ensures r.Some? ==> r.value.totalTrades == |trades|
  {
    if |trades| == 0 then None else Some(Statistics(trades, sqrt))
  }
}
