# Chart-pattern dashboard: a Dafny model of its pure logic

The chart-pattern dashboard detects candlestick patterns in market data, backtests
them, stores detected patterns, backtests and price alerts, and shows them in a
web client. This project models the parts that are pure logic, each as immutable
datatypes and functions with proved contracts.

- **ML service**
  - The pattern backtester (`Backtester`, `BacktestStats`, `PatternBacktest`):
    - entry at the next bar's open;
    - exit scan with stop-loss tested before take-profit;
    - exact return identities;
    - win/loss statistics and drawdown;
    - per-name and per-confidence-bracket grouping;
    - the shape of the performance report.
  - Post-processing of detector output (`PatternDetector`, `DetectApi`):
    - TA-Lib score arrays come in as `seq<int>`, and the classifier as a function parameter;
    - threshold tests, index windows, pattern types and the confidence sort.
- **Backend models**
  - `AlertModel`: alert validation and defaults; the `shouldTrigger` guard, `trigger`, and a guarded run of observations; `findActiveAlerts`.
  - `BacktestModel` and `PatternModel`: schema bounds, enums and defaults; `getSummary`; the "recent records" statics as filter, then sort by creation time descending, then limit.
  - `Schema`: the rules these models share.
- **Web client**
  - The five store slices (`PatternSlice`, `AlertSlice`, `BacktestSlice`, `UiSlice`, `MarketSlice`), each reducer a function from state to state.
  - `Documents`: the shared prepend, replace-by-id and delete-by-id steps.
  - The sign-up and sign-in form schemas and their submit handlers (`FormRules`, `RegisterForm`, `LoginForm`).

Prices, returns and confidences are exact `real`s. Clock readings, TA-Lib, the
classifier, `sqrt`, the e-mail format test and the alert condition checkers are
parameters. `Alert.js` never defines the checkers, and no file of this model
does, so the alert guard is modelled twice: as written, and with the checkers supplied.

## Model

| member | source | states |
|---|---|---|
| Common.MongoLimit | backend/src/models/Backtest.js:199 | a cursor limit of 0 keeps every document; any other limit keeps the first `abs(limit)` documents |
| Common.SliceTo | frontend/src/store/slices/patternSlice.js:196 | `slice(0, end)` is a prefix of length `min(end, n)`; a negative end counts back from the end |
| Common.FindIndex | frontend/src/store/slices/uiSlice.js:66 | `findIndex` returns the first index whose element matches, and None only when no element matches |
| Ordering.SortDesc | ml_service/src/models/pattern_detector.py:204 | sorting by a key in reverse gives a permutation of the input, ordered by non-increasing key |
| Ordering.SortDescStable | ml_service/src/models/pattern_detector.py:204 | elements with equal keys keep their input order, because Python's sort is stable |
| Ordering.TopDesc | backend/src/models/Pattern.js:144-145 | sort then limit gives a prefix of the sorted matches and a sub-multiset of the input; it is sorted, and has all matches when the limit is 0, otherwise the smaller of the match count and the limit |
| Ordering.PrefixMultiset | backend/src/models/Pattern.js:144-145 | a prefix of a list, as the limit keeps, holds no element more often than the list |
| Ordering.TopDescKeepsHighest | backend/src/models/Backtest.js:198-199 | any document the limit drops ranks no higher than the last one kept |
| Signals.Hits | ml_service/src/models/pattern_detector.py:107-108 | the indices returned are strictly increasing and are exactly the positions whose value passes the test |
| Backtester.HitAt | ml_service/src/models/backtester.py:56-79 | with `change = (close − entry)/entry`: a long position stops out iff `change ≤ stop_loss` and takes profit iff it does not stop out and `change ≥ take_profit`; a short one mirrors both (`change ≥ −stop_loss`, `change ≤ −take_profit`); otherwise there is no exit; the exit price is `entry * (1 ± level)` |
| Backtester.FirstHit | ml_service/src/models/backtester.py:54-80 | the exit is the first bar in the scan range that crosses a level, and no earlier bar in the range crosses one |
| Backtester.ScanEnd | ml_service/src/models/backtester.py:54 | the scan stops at `min(entry + holding_period + 1, len)` and covers at least one bar when one exists |
| Backtester.ScanExitAsWritten | ml_service/src/models/backtester.py:49-81 | a level exit is the first crossing bar; a holding-period exit keeps `exit_idx` at the entry bar but takes the last scanned close as its price |
| Backtester.ScanExit | ml_service/src/models/backtester.py:49-81 | as above, except that a holding-period exit is dated at the last scanned bar |
| Backtester.ExitReturn | ml_service/src/models/backtester.py:84-89 | a stop-loss exit returns exactly `stop_loss − 2·cost` and a take-profit exit exactly `take_profit − 2·cost`, long or short |
| Backtester.MakeTrade | ml_service/src/models/backtester.py:84-102 | the record copies name, type and confidence, enters at the entry bar's open and time, exits at the exit's price and reason and the exit bar's time, holds for the index difference, and returns the relative price change, negated when short, less twice the cost |
| Backtester.SimulateAsWritten | ml_service/src/models/backtester.py:43-102 | the trade copies name, type and confidence, enters at the next bar's open, and returns the signed net change of its exit price; a level exit is at the first scanned close that crosses a level, with no crossing before it; a holding-period exit comes only when no scanned close crosses, at the last scanned close, yet reports duration 0 and exit time equal to entry time; only the entry bar's opening price, the divisor of every change, must be non-zero |
| Backtester.Simulate | ml_service/src/models/backtester.py:43-102 | the same trade, except that a holding-period exit is dated at the last scanned bar and its duration is the bars actually held |
| Backtester.SimulateMatchesAsWritten | ml_service/src/models/backtester.py:81-101 | the correction leaves exit reason, exit price and return unchanged, and the whole record unchanged for level exits |
| Backtester.FirstUnpriced | ml_service/src/models/backtester.py:38-43 | when some retained pattern's entry bar opens at 0, returns one such pattern from the list |
| Backtester.ZeroOpenOffEntryTrades | ml_service/src/models/backtester.py:39-56 | a zero opening price on a bar that is no pattern's entry bar does not stop the trade list: the pattern ending at bar 0 still trades, entering and exiting at 100 |
| Backtester.HoldingPeriodDurationLost | ml_service/src/models/backtester.py:81-101 | on four flat bars the trade as written has duration 0 and exit time 1; the corrected trade has duration 2 and exit time 3 |
| Backtester.CalculateReturnsAsWritten | ml_service/src/models/backtester.py:38-104 | fails iff some retained pattern's entry bar opens at 0, where the code divides by zero, and then names such a pattern; otherwise there is one trade per pattern whose entry bar is before the last bar, and the k-th trade is the as-written simulation of the k-th such pattern |
| Backtester.CalculateReturns | ml_service/src/models/backtester.py:38-102 | fails exactly as the as-written list does; otherwise the k-th trade is the simulation of the k-th retained pattern, in input order |
| Backtester.CalculateReturnsMatchesAsWritten | ml_service/src/models/backtester.py:38-104 | the corrected and as-written lists both fail or both succeed; on success the corrected list has the same length as the as-written one, and the same exit reason, exit price and return at each position |
| BacktestStats.WinLossPartition | ml_service/src/models/backtester.py:120-121 | every return is counted as a win (`r > 0`) or as a loss (`r ≤ 0`), so wins + losses = total |
| BacktestStats.Statistics | ml_service/src/models/backtester.py:116-137 | gives total, wins and losses; `0 ≤ win_rate ≤ 1`; avg is the mean of the returns, std the root of their population variance, Sharpe `avg/std` when std > 0 and else 0; min ≤ avg ≤ max and both extremes are attained; the average duration is the mean of the durations; max drawdown is `MaxDrawdown` of the returns, ≤ 0 while every return is above −1 |
| BacktestStats.SameReturnsSameStats | ml_service/src/models/backtester.py:116-135 | two non-empty trade lists with the same returns in the same order get the same statistics, apart from the average duration |
| BacktestStats.CumProducts | ml_service/src/models/backtester.py:132 | `cumprod(1 + r)` has one entry per return, and every entry is positive while every return is above −1 |
| BacktestStats.RunningMax | ml_service/src/models/backtester.py:133 | `maximum.accumulate` has one entry per value, and each entry is at least the value at its position and the starting peak |
| BacktestStats.MaxDrawdown | ml_service/src/models/backtester.py:134-135 | the maximum drawdown is defined exactly when every drawdown is, and is then a drawdown no greater than any other |
| BacktestStats.RunningMaxAttained | ml_service/src/models/backtester.py:132 | every running peak is the starting peak or an equity value already seen up to that point |
| BacktestStats.MaxDrawdownNonPositive | ml_service/src/models/backtester.py:132-135 | while no return is −1 or below, every running peak is positive and the maximum drawdown is at most zero |
| BacktestStats.MaxDrawdownZeroIff | ml_service/src/models/backtester.py:132-135 | the maximum drawdown is zero exactly when cumulative equity never falls below its running peak |
| BacktestStats.PatternStatistics | ml_service/src/models/backtester.py:113-119 | an empty trade list gives the empty result; otherwise `total_trades` is the number of trades |
| PatternBacktest.Names | ml_service/src/models/backtester.py:181 | the set of names is exactly the names occurring among the trades |
| PatternBacktest.PatternStatsByName | ml_service/src/models/backtester.py:180-183 | there is exactly one entry per distinct pattern name among the trades |
| PatternBacktest.PatternStatsByNameCounts | ml_service/src/models/backtester.py:180-183 | each name among the trades has an entry, and that entry is the full statistics of exactly that name's trades, a non-empty group |
| PatternBacktest.NameStats | ml_service/src/models/backtester.py:181-183 | a name occurring among the trades has a non-empty group, and its entry is the statistics of that group |
| PatternBacktest.BracketStats | ml_service/src/models/backtester.py:186-196 | the k-th entry belongs to the k-th occupied bracket in bracket order: its label is that bracket's, and its value is the full statistics of exactly the trades whose confidence lies in it |
| PatternBacktest.BracketEntry | ml_service/src/models/backtester.py:189-196 | an occupied bracket's entry is its label with the statistics of the trades inside it |
| PatternBacktest.BracketsDisjoint | ml_service/src/models/backtester.py:186-192 | the half-open brackets are pairwise disjoint |
| PatternBacktest.BracketsUncovered | ml_service/src/models/backtester.py:186-192 | confidence 1.0, and anything below 0.6, falls in no bracket |
| PatternBacktest.BacktestPattern | ml_service/src/models/backtester.py:139-203 | fails iff the as-written `_calculate_returns` fails, with its error; otherwise the trade list is that list; the overall statistics are absent iff there are no trades and otherwise are the statistics of all trades; the per-name map and the bracket entries are those of the trade list |
| PatternBacktest.Summarize | ml_service/src/models/backtester.py:170-203 | the result keeps the trades, and its overall, per-name and per-bracket parts are the statistics of the whole list, of each name and of each occupied bracket |
| PatternBacktest.BacktestPatternCorrected | ml_service/src/models/backtester.py:139-203 | the same result, or the same failure, over the corrected trade list |
| PatternBacktest.BacktestPatternCorrectedAgrees | ml_service/src/models/backtester.py:81-137 | the as-written and corrected backtests both fail or both succeed; on success their overall statistics are both absent or both present, and then agree on every field except the average duration |
| PatternBacktest.SectionsOf | ml_service/src/models/backtester.py:227-260 | the report shows a pattern section iff that pattern has at least `min_trades` trades, and every bracket section in order |
| PatternBacktest.PerformanceReportAsWritten | ml_service/src/models/backtester.py:222-235 | an empty result reports "no results", and a result without trades fails on the `total_trades` lookup |
| PatternBacktest.PerformanceReport | ml_service/src/models/backtester.py:222-262 | reports "no results" exactly for an empty result or one without trades, and agrees with the code wherever the code succeeds |
| PatternBacktest.ReportOnEmptyBacktestFails | ml_service/src/models/backtester.py:222-235 | backtesting an empty pattern list succeeds, yet reporting on it fails as written, while the corrected report says "no results" |
| PatternDetector.ScanTalib | ml_service/src/models/pattern_detector.py:107-119 | a score becomes a pattern iff `abs(v) ≥ threshold·100`; confidence is `abs(v)/100`; the type is bullish iff `v > 0`; the window is `[max(0, i−len+1), i]` |
| PatternDetector.TalibDetectionFacts | ml_service/src/models/pattern_detector.py:108-116 | each TA-Lib pattern has confidence ≥ threshold, is bullish or bearish (never neutral), and has `0 ≤ start ≤ end` and `end − start + 1 ≤ length` |
| PatternDetector.DetectTalib | ml_service/src/models/pattern_detector.py:96-124 | a pattern comes from a table entry whose scores were computed; an entry whose computation fails contributes nothing |
| PatternDetector.GetPatternType | ml_service/src/models/pattern_detector.py:171-180 | returns the p-th of the five labels for p < 5, otherwise "UNKNOWN", and never the empty string |
| PatternDetector.WindowCount | ml_service/src/models/pattern_detector.py:138-145 | n rows give `max(0, n − 9)` windows, and the last one ends inside the data |
| PatternDetector.Completed | ml_service/src/models/pattern_detector.py:143-164 | the windows classified before the `try` block is left are a prefix of the windows; each of them has a verdict, and the first window after them raised |
| PatternDetector.CompletedTotal | ml_service/src/models/pattern_detector.py:143-164 | a classifier that never raises classifies every window |
| PatternDetector.ScanWindows | ml_service/src/models/pattern_detector.py:143-164 | with a loaded model, exactly the confident windows classified before the first exception are reported, in window order |
| PatternDetector.DetectTransformer | ml_service/src/models/pattern_detector.py:134-167 | no model gives no patterns; each pattern is a window `[k, k+9]` classified before the first exception, confident enough, named by its label and typed by the lower-cased label; patterns are in window order; every confident window classified before the first exception is reported |
| PatternDetector.TransformerRaisingFirst | ml_service/src/models/pattern_detector.py:143-167 | when the feature preparation or the first window raises, the transformer pass returns no patterns |
| PatternDetector.ConfidentNoPatternIsReported | ml_service/src/models/pattern_detector.py:154-164 | a confident "NO_PATTERN" prediction is still reported as a pattern |
| PatternDetector.TransformerTypesOutsideEnum | ml_service/src/models/pattern_detector.py:162 | transformer pattern types are never bullish, bearish or neutral |
| PatternDetector.DetectPatterns | ml_service/src/models/pattern_detector.py:197-206 | returns a permutation of the collected patterns, sorted by non-increasing confidence |
| PatternDetector.DetectPatternsStable | ml_service/src/models/pattern_detector.py:204 | patterns with equal confidence keep their collection order |
| PatternDetector.DetectPatternsEmpty | ml_service/src/models/pattern_detector.py:197-206 | no scores and no model give an empty list |
| PatternDetector.AnalyzePattern | ml_service/src/models/pattern_detector.py:223-241 | succeeds iff the slice is non-empty, keeps every input field, and for in-range indices gives `pattern_duration = end − start + 1` |
| DetectApi.ScanScores | ml_service/src/main.py:106-117 | every non-zero score yields exactly one pattern and a zero score none; the type is bullish iff `v > 0`; confidence is `abs(v)/100`; index order is kept |
| DetectApi.ResponseWindow | ml_service/src/main.py:114-115 | `start = max(0, i−2)` and `end = i`, so `0 ≤ end − start ≤ 2`, and confidence is positive |
| DetectApi.ScanAll | ml_service/src/main.py:97-125 | the request fails iff some requested pattern's function raises, and then with HTTP 500; otherwise the output holds exactly the responses of every requested pattern's scores |
| DetectApi.DetectPatterns | ml_service/src/main.py:83-125 | a request fails, always with HTTP 500, iff it has no bars (no `open` column) or some requested pattern's function raises; every name reported is in the table; with bars and an absent or empty request list it fails exactly when some table entry raises |
| DetectApi.ScanAllOrdered | ml_service/src/main.py:49-117 | the output is ordered by table position, then by ascending index |
| Schema.Check | backend/src/models/Backtest.js:33-45 | a validator reports its path exactly when its condition fails |
| Schema.PatternFilterErrors | backend/src/models/Backtest.js:33-45 | a filter fails on its type iff the type is set and not bullish, bearish or neutral, and on its confidence iff that value, after the 0.6 default, is outside [0, 1] |
| Schema.WithDefaults | backend/src/models/Backtest.js:39-44 | a missing `minConfidence` becomes 0.6 and every other field is kept |
| Schema.PatternFiltersErrors | backend/src/models/Alert.js:25-38 | the error set of a filter list is exactly the per-filter errors, indexed by position |
| AlertModel.AlertErrors | backend/src/models/Alert.js:3-110 | a field is reported exactly when its required, enum or bound rule fails |
| AlertModel.CreateAlert | backend/src/models/Alert.js:3-110 | fails with exactly the failing fields; otherwise stores the supplied user, symbol, timeframe, type and message as given and applies the defaults (e-mail on, others off, "once", "active", count 0) |
| AlertModel.CreateAlertDefaults | backend/src/models/Alert.js:66-99 | a minimal valid alert gets exactly the schema defaults |
| AlertModel.ShouldTrigger | backend/src/models/Alert.js:117-133 | status is checked first, then strict expiry; pattern, price, indicator and volume rules go to their checkers, the volume checker getting `price.volume`; other types give false |
| AlertModel.ShouldTriggerAsWritten | backend/src/models/Alert.js:117-133 | with no `check…Conditions` method on the schema, the guard throws a TypeError exactly for an active, unexpired alert of one of the four types, naming the missing method unless a volume alert has no price; otherwise it answers false |
| AlertModel.ShouldTriggerAsWrittenAgrees | backend/src/models/Alert.js:117-133 | wherever the guard as written returns, the guard with checkers returns the same answer for any checkers; they differ only where a missing method is called |
| AlertModel.MissingCheckerThrows | backend/src/models/Alert.js:117-123 | an active pattern alert without expiry throws "this.checkPatternConditions is not a function" as written, while the guard with checkers returns the pattern checker's verdict |
| AlertModel.ExpiryIsStrict | backend/src/models/Alert.js:119 | an alert expiring exactly now still reaches its checker |
| AlertModel.Trigger | backend/src/models/Alert.js:136-146 | adds exactly 1 to the count, stamps `lastTriggered`, and sets "triggered" iff the frequency is "once"; nothing else changes |
| AlertModel.TriggerValid | backend/src/models/Alert.js:91-99 | triggering keeps a valid alert valid |
| AlertModel.Step | backend/src/models/Alert.js:117-146 | an observation fires the alert iff the guard answers true, and then applies `trigger` |
| AlertModel.Run | backend/src/models/Alert.js:117-146 | a guarded run over a list of observations fires at most once per observation |
| AlertModel.RunCounts | backend/src/models/Alert.js:136-146 | after a run the count has grown by the number of firings, and only count, time and status changed |
| AlertModel.InactiveNeverFires | backend/src/models/Alert.js:118 | an alert that is not active never fires and is left as it was |
| AlertModel.OnceFiresAtMostOnce | backend/src/models/Alert.js:118-142 | a guarded run fires a "once" alert at most once |
| AlertModel.TriggerHasNoGuard | backend/src/models/Alert.js:136-146 | `trigger` itself has no guard: calling it twice counts two |
| AlertModel.FindActiveAlerts | backend/src/models/Alert.js:149-157 | selects exactly the alerts with the symbol, status "active", and no expiry or one strictly after now |
| AlertModel.FoundAlertsPassGuard | backend/src/models/Alert.js:117-157 | a pattern alert found as active passes the status and expiry guards and reaches its checker |
| BacktestModel.BacktestErrors | backend/src/models/Backtest.js:3-87 | a field is reported exactly when its rule fails: required strings and numbers, the timeframe enum, `positionSize` in [0, 1], non-negative stop-loss and take-profit |
| BacktestModel.CreateBacktest | backend/src/models/Backtest.js:3-172 | fails with exactly the failing fields; otherwise stores every supplied field (user, name, description, symbol, timeframe, dates, capital, position size, stop, target and trailing stop) as given and applies the defaults `maxOpenPositions` 1, fees 0.001 each and status "running" |
| BacktestModel.NegativeStopLossRefused | backend/src/models/Backtest.js:57-60 | a negative stop-loss is refused |
| BacktestModel.GetSummaryExact | backend/src/models/Backtest.js:179-192 | two backtests have equal summaries iff they agree on each listed field |
| BacktestModel.RecentBacktests | backend/src/models/Backtest.js:195-200 | a sub-multiset of that user's backtests, newest first; all of them when the limit is 0, otherwise the smaller of their number and the limit (default 10); any left out is no newer than the last kept |
| BacktestModel.FindRecentBacktests | backend/src/models/Backtest.js:195-200 | each listing carries only the selected fields of the corresponding recent backtest |
| BacktestModel.Listings | backend/src/models/Backtest.js:198-200 | the listings project newest-first backtests one for one and stay newest first |
| PatternModel.CreatePattern | backend/src/models/Pattern.js:3-105 | fails with exactly the failing fields: required fields, the type, method, trend and status enums, and confidence in [0, 1]; otherwise stores every supplied field (symbol, timeframe, name, type, confidence, indices, times, trend and method) as given, and status defaults to "active" |
| PatternModel.GetSummaryExact | backend/src/models/Pattern.js:114-125 | two patterns have equal summaries iff they agree on the eight listed fields |
| PatternModel.GetSummaryValid | backend/src/models/Pattern.js:114-125 | the summary of a valid pattern has an enum type, confidence in [0, 1] and an enum status |
| PatternModel.FindRecentPatterns | backend/src/models/Pattern.js:128-146 | a sub-multiset of the selected patterns (symbol, timeframe, confidence ≥ minimum, listed type, status active), newest first; all of them when the limit is 0, otherwise the smaller of their number and the limit; any left out is no newer than the last kept |
| PatternModel.FindRecentPatternsComplete | backend/src/models/Pattern.js:137-145 | when the limit does not cut, every selected pattern is returned |
| PatternModel.FindRecentPatternsDefaults | backend/src/models/Pattern.js:129-135 | with only symbol and timeframe given, the minimum is 0.6, all three types are allowed, and at most 50 are returned |
| Documents.RemoveId | frontend/src/store/slices/alertSlice.js:212 | filtering by id keeps exactly the documents with another id |
| Documents.RemoveIdAbsent | frontend/src/store/slices/backtestSlice.js:171 | deleting an id no document carries changes nothing |
| Documents.RemoveIdAppend | frontend/src/store/slices/alertSlice.js:212 | the survivors keep their order, because removal distributes over concatenation |
| Documents.ReplaceId | frontend/src/store/slices/alertSlice.js:187-190 | replacing by id keeps the length and changes only an element with that id |
| Documents.ReplaceIdFirst | frontend/src/store/slices/patternSlice.js:220-223 | only the first element with the id is replaced, and with no such element nothing changes |
| Documents.Reselect | frontend/src/store/slices/alertSlice.js:193-195 | the selection becomes the returned document iff a selection exists with the same id |
| Documents.Deselect | frontend/src/store/slices/backtestSlice.js:173-175 | the selection is cleared iff it exists and has the deleted id |
| PatternSlice.AddNewPattern | frontend/src/store/slices/patternSlice.js:112-134 | prepends to both lists, drops the oldest recent entry past ten, adds 1 to the total and to exactly one of bullish/bearish/neutral, and counts high confidence iff ≥ 0.8 |
| PatternSlice.AddNewPatternInv | frontend/src/store/slices/patternSlice.js:117-129 | keeps at most ten recent patterns and keeps total = bullish + bearish + neutral |
| PatternSlice.ClearPatterns | frontend/src/store/slices/patternSlice.js:139-142 | empties the list and the current pattern, and keeps the recent list and the counters |
| PatternSlice.SetCurrentPage | frontend/src/store/slices/patternSlice.js:143-145 | only the current page changes |
| PatternSlice.PendingThenRejected | frontend/src/store/slices/patternSlice.js:150-169 | a failed request changes only the loading flag and the error, which becomes the rejection message |
| PatternSlice.Pending | frontend/src/store/slices/patternSlice.js:150-153 | a request in flight sets the loading flag, clears the error and changes nothing else |
| PatternSlice.Rejected | frontend/src/store/slices/patternSlice.js:165-169 | a failed request clears the loading flag, records the message as the error and changes nothing else |
| PatternSlice.FetchPatternsFulfilled | frontend/src/store/slices/patternSlice.js:154-164 | the loading flag clears and the page, its pagination and the server's counters replace the local ones; nothing else changes, so the recent list, the current pattern, the error and the detection flag stay |
| PatternSlice.FetchPatternByIdFulfilled | frontend/src/store/slices/patternSlice.js:176-179 | the fetched pattern becomes the current one, and nothing else changes but the flag |
| PatternSlice.DetectionPending | frontend/src/store/slices/patternSlice.js:187-190 | sets the detection flag and clears the error |
| PatternSlice.DetectionRejected | frontend/src/store/slices/patternSlice.js:205-209 | clears the detection flag and records the error |
| PatternSlice.DetectionFulfilled | frontend/src/store/slices/patternSlice.js:191-204 | an absent or empty result changes only the flag; otherwise the new patterns are prepended in order |
| PatternSlice.DetectionFulfilledRecent | frontend/src/store/slices/patternSlice.js:195-198 | the recent list gains only as many new patterns as it has room for, stays within ten, and is unchanged when already full |
| PatternSlice.UpdateStatusFulfilled | frontend/src/store/slices/patternSlice.js:216-231 | replaces the first pattern with the id, and the current pattern only when its id matches |
| AlertSlice.ClearAlerts | frontend/src/store/slices/alertSlice.js:123-127 | clears alerts, selection and selection stats, and keeps trigger history and pagination |
| AlertSlice.SetSelectedAlert | frontend/src/store/slices/alertSlice.js:128-130 | only the selection changes |
| AlertSlice.AddTriggerHistory | frontend/src/store/slices/alertSlice.js:131-133 | prepends exactly one event |
| AlertSlice.SetCurrentPage | frontend/src/store/slices/alertSlice.js:134-136 | only the current page changes |
| AlertSlice.PendingThenRejected | frontend/src/store/slices/alertSlice.js:141-160 | a failed request changes only the loading flag and the error |
| AlertSlice.Pending | frontend/src/store/slices/alertSlice.js:141-144 | a request in flight sets the loading flag, clears the error and changes nothing else |
| AlertSlice.Rejected | frontend/src/store/slices/alertSlice.js:156-160 | a failed request clears the loading flag, records the message as the error and changes nothing else |
| AlertSlice.FetchAlertsFulfilled | frontend/src/store/slices/alertSlice.js:145-155 | sets the alerts and pagination, and the trigger history to the payload's, or [] when it is absent |
| AlertSlice.CreateAlertFulfilled | frontend/src/store/slices/alertSlice.js:167-171 | prepends the created alert |
| AlertSlice.UpdateAlertFulfilled | frontend/src/store/slices/alertSlice.js:183-198 | replaces the first alert with the id, and the selection only when its id matches |
| AlertSlice.DeleteAlertFulfilled | frontend/src/store/slices/alertSlice.js:210-219 | removes every alert with the id, and clears the selection iff its id matches |
| AlertSlice.CreateThenDelete | frontend/src/store/slices/alertSlice.js:167-219 | deleting a just-created alert with a fresh id restores the list |
| AlertSlice.TestAlertFulfilled | frontend/src/store/slices/alertSlice.js:231-234 | only the loading flag changes |
| BacktestSlice.ClearBacktests | frontend/src/store/slices/backtestSlice.js:102-105 | empties the list and the current backtest, and keeps pagination |
| BacktestSlice.SetCurrentPage | frontend/src/store/slices/backtestSlice.js:106-108 | only `paginationInfo.currentPage` changes |
| BacktestSlice.PendingThenRejected | frontend/src/store/slices/backtestSlice.js:113-131 | a failed request changes only the loading flag and the error |
| BacktestSlice.Pending | frontend/src/store/slices/backtestSlice.js:113-116 | a request in flight sets the loading flag, clears the error and changes nothing else |
| BacktestSlice.Rejected | frontend/src/store/slices/backtestSlice.js:127-131 | a failed request clears the loading flag, records the message as the error and changes nothing else |
| BacktestSlice.FetchBacktestsFulfilled | frontend/src/store/slices/backtestSlice.js:117-126 | the page and its pagination replace the local ones |
| BacktestSlice.FetchBacktestByIdFulfilled | frontend/src/store/slices/backtestSlice.js:138-141 | the fetched backtest becomes the current one |
| BacktestSlice.CreateBacktestFulfilled | frontend/src/store/slices/backtestSlice.js:153-156 | prepends the created backtest |
| BacktestSlice.DeleteBacktestFulfilled | frontend/src/store/slices/backtestSlice.js:169-178 | removes every backtest with the id, keeping the rest in order, and clears the current backtest iff its id matches |
| BacktestSlice.DeleteBacktestIdempotent | frontend/src/store/slices/backtestSlice.js:169-175 | after a delete no backtest has the id, and a second delete changes nothing |
| MarketSlice.SetSymbol | frontend/src/store/slices/marketSlice.js:97-99 | only the symbol changes |
| MarketSlice.SetTimeframe | frontend/src/store/slices/marketSlice.js:100-102 | only the timeframe changes |
| MarketSlice.SetSymbolTimeframeCommute | frontend/src/store/slices/marketSlice.js:97-102 | setting symbol and timeframe commute |
| MarketSlice.ClearMarketData | frontend/src/store/slices/marketSlice.js:103-105 | empties the candles and changes nothing else |
| MarketSlice.PendingThenRejected | frontend/src/store/slices/marketSlice.js:110-123 | a failed request changes only the loading flag and the error |
| MarketSlice.Pending | frontend/src/store/slices/marketSlice.js:110-113 | a request in flight sets the loading flag, clears the error and changes nothing else |
| MarketSlice.Rejected | frontend/src/store/slices/marketSlice.js:119-123 | a failed request clears the loading flag, records the message as the error and changes nothing else |
| MarketSlice.FetchMarketDataFulfilled | frontend/src/store/slices/marketSlice.js:114-118 | stores the payload's candles, stamps the time, and clears the loading flag |
| MarketSlice.FetchAvailableSymbolsFulfilled | frontend/src/store/slices/marketSlice.js:130-133 | stores the payload's symbols |
| MarketSlice.FetchMarketSentimentFulfilled | frontend/src/store/slices/marketSlice.js:145-148 | the payload replaces the sentiment block |
| UiSlice.TogglesInvolutive | frontend/src/store/slices/uiSlice.js:35-40 | `toggleDarkMode` and `toggleSidebar` each negate one flag, and each undoes itself |
| UiSlice.ToggleDarkMode | frontend/src/store/slices/uiSlice.js:35-37 | the dark-mode flag flips and nothing else changes |
| UiSlice.ToggleSidebar | frontend/src/store/slices/uiSlice.js:38-40 | the sidebar flag flips and nothing else changes |
| UiSlice.SetChartType | frontend/src/store/slices/uiSlice.js:41-43 | only the chart type changes |
| UiSlice.SetActivePage | frontend/src/store/slices/uiSlice.js:54-56 | only the active page changes |
| UiSlice.SplitDot | frontend/src/store/slices/uiSlice.js:48 | category and item are the dot-free texts before the first dot and up to the next dot or the end |
| UiSlice.SplitDotJoin | frontend/src/store/slices/uiSlice.js:48 | splitting "category.item" of two dot-free names gives the names back |
| UiSlice.ToggleChartOverlay | frontend/src/store/slices/uiSlice.js:44-53 | a plain key changes only that entry; a dotted key changes only that switch of its group, and fails when the category is missing (a read error without a value, a write error with one) or is not a group (a create error); the new value is the given one when present, else the negation of the current one |
| UiSlice.ToggleChartOverlayTwice | frontend/src/store/slices/uiSlice.js:44-49 | toggling an existing grouped switch twice without a value restores the state |
| UiSlice.SetChartOverlayTwice | frontend/src/store/slices/uiSlice.js:44-49 | setting a grouped switch to the same explicit value twice is the same as setting it once |
| UiSlice.ToggleTopLevel | frontend/src/store/slices/uiSlice.js:51 | a plain switch toggles back, and toggling a group's key replaces the whole group by an "off" switch |
| UiSlice.AddNotification | frontend/src/store/slices/uiSlice.js:57-64 | appends exactly one entry at the end, unread unless the payload says otherwise, with payload fields overriding the defaults |
| UiSlice.MarkNotificationAsRead | frontend/src/store/slices/uiSlice.js:65-70 | marks only the first notification with the id as read, and an unknown id changes nothing |
| UiSlice.MarkNotificationAsReadIdempotent | frontend/src/store/slices/uiSlice.js:65-70 | marking twice is marking once |
| UiSlice.AddThenMarkRead | frontend/src/store/slices/uiSlice.js:57-70 | a freshly added notification with a fresh id can be marked read by its id, and the older ones stay as they were |
| UiSlice.ClearNotifications | frontend/src/store/slices/uiSlice.js:71-73 | empties the notifications only |
| UiSlice.OpenModal | frontend/src/store/slices/uiSlice.js:74-80 | opens with the given type, and data that is falsy becomes null |
| UiSlice.CloseModal | frontend/src/store/slices/uiSlice.js:81-87 | the modal becomes closed with no type and null data, and nothing else changes |
| UiSlice.OpenThenClose | frontend/src/store/slices/uiSlice.js:74-87 | closing restores `{false, null, null}` whatever was opened |
| FormRules.FirstLine | frontend/src/pages/Register.jsx:36-37 | the text before the first line terminator |
| FormRules.SingleLineMixedClasses | frontend/src/pages/Register.jsx:35-38 | on a single-line password the pattern demands a lower-case letter, an upper-case letter and a digit somewhere |
| FormRules.LaterLinesIgnored | frontend/src/pages/Register.jsx:35-38 | for any text after the first line terminator, the pattern holds iff the first line has a lower-case letter, an upper-case letter and a digit |
| FormRules.SecondLineIgnored | frontend/src/pages/Register.jsx:35-38 | classes that occur only after a line break do not satisfy the pattern |
| RegisterForm.RegisterErrors | frontend/src/pages/Register.jsx:25-46 | name fails iff its length is outside 2..50; e-mail iff empty or malformed; password iff shorter than 8 or missing a class on its first line; confirmation iff empty or different; terms iff not accepted |
| RegisterForm.Submit | frontend/src/pages/Register.jsx:66-81 | submits only error-free values, and sends name, e-mail and password only |
| RegisterForm.SubmittedRegistration | frontend/src/pages/Register.jsx:25-46 | a submitted registration has a confirmed password of at least 8 characters and a 2..50-character name |
| RegisterForm.RegisteredCredentialsSignIn | frontend/src/pages/Register.jsx:34 | the credentials of a submitted registration pass the sign-in form |
| RegisterForm.InitialValuesRejected | frontend/src/pages/Register.jsx:66-72 | the initial values fail every field and cannot be submitted |
| LoginForm.LoginErrors | frontend/src/pages/Login.jsx:22-29 | e-mail fails iff empty or malformed, and password iff shorter than 6 |
| LoginForm.Submit | frontend/src/pages/Login.jsx:47-55 | submits only error-free values, and forwards them unchanged |
| LoginForm.InitialValuesRejected | frontend/src/pages/Login.jsx:48-51 | the empty initial values fail both fields and cannot be submitted |

## Left out

- Network and I/O:
  - market-data download and caching;
  - the HTTP server, sockets, the database and logging;
  - the request bodies of the client's asynchronous thunks and every toast notification.
  - Reducers receive the payload a request would deliver.
- Foreign computations, all parameters of the model:
  - TA-Lib's `CDL*` functions (a score array, or None when the call raises);
  - the transformer's inference (a function from window index to a verdict, or None when the preparation or the model call raises);
  - `sqrt`;
  - the e-mail format test;
  - the four alert condition checkers, which `Alert.js` never defines and no file of this model does (see the next line).
- Floating point: `real` arithmetic stands in for IEEE doubles, and numpy's NaN and infinity are not modelled.
- `PatternBacktest.BacktestPattern`:
  - A retained pattern whose entry bar opens at 0 makes numpy divide by zero. The code then carries an infinite or NaN return, and the model reports the `NonFinite` failure instead of such a record.
  - Its `except` branch, which returns `{}` on a missing column or key, is not modelled.
- `Backtester.SimulateAsWritten` and `Backtester.Simulate`: they require a non-zero opening price on the entry bar, because a `real` trade cannot hold an infinite or NaN return. That case is the `NonFinite` failure of `CalculateReturns`.
- `Backtester.SimulateAsWritten` and `Backtester.Simulate`: the pattern's end index is a natural number. The negative `iloc` indexing Python would allow is not modelled.
- `BacktestStats.Statistics`: `sqrt` is a parameter, so the standard deviation is stated as the parameter applied to the population variance.
- `AlertModel.ShouldTrigger`: `Alert.js` calls `checkPatternConditions`, `checkPriceConditions`, `checkIndicatorConditions` and `checkVolumeConditions` but never defines them. This member treats them as existing methods, passed in as parameters. `AlertModel.ShouldTriggerAsWritten` is the guard as it stands, which throws instead.
- Report text: `%.2f` and percentage formatting in the performance report are not modelled. The report is modelled as the list of sections it prints.
- `PatternDetector.AnalyzePattern`: the start and end indices are natural numbers. The negative `iloc` indexing Python would allow is not modelled.
- `analyze_pattern`: the price, volume and range ratios are not modelled. Only slice validity, field preservation and `pattern_duration` are.
- The pattern schema's `priceData`, `technicalIndicators`, `marketContext` volatility, support and resistance, and `backtestResults` are not fields of the model's pattern record. No operation of the model reads or computes them.
- `createdAt`: a value the client supplies is ignored. Every create member stamps the clock reading `now`.
- `PatternModel.FindRecentPatterns`: `RecentOptions` holds the symbol and timeframe as strings. The default `options = {}`, where both are undefined, is not expressible.
- The backtest result fields of the schema (summary, trades, equity curve, monthly analysis): no code computes them.
- Concurrency: `trigger` and `save` are modelled as one atomic step, and `populate` in `findActiveAlerts` is not modelled.
- Mongoose type casting (strings to numbers or dates) is not modelled. Dates are integer timestamps.
- Strings:
  - Lengths in the form rules count characters, not UTF-16 code units.
  - A notification payload field that is present but `undefined` is treated as absent.
- The store's persistence, routing, layout components, the socket slice, the user model (password hashing), configuration constants, and the authentication slice the forms dispatch to. These are not part of this model.

## Findings

| source | as written | input that shows it | evidently intended | confidence | as-written member | corrected member |
|---|---|---|---|---|---|---|
| ml_service/src/models/backtester.py:81-101 | on a holding-period exit `exit_idx` stays at the entry bar, while `exit_price` is the last scanned close; the trade reports `holding_duration` 0 and `exit_time` equal to `entry_time` | four flat bars at 100, a bullish pattern ending at bar 0, default parameters: duration 0 and exit time 1, although the position was held to bar 3 | a holding-period exit dated at the last scanned bar (duration 2, exit time 3) | medium, not executed | Backtester.HoldingPeriodDurationLost | Backtester.Simulate |
| ml_service/src/models/backtester.py:222-235 | the guard only catches an empty result dictionary; a backtest with no trades has `overall_stats == {}`, so `overall_stats['total_trades']` raises `KeyError` | `backtest_pattern` on an empty pattern list, then `generate_performance_report` | report "no backtest results" when there are no trades | high, not executed | PatternBacktest.ReportOnEmptyBacktestFails | PatternBacktest.PerformanceReport |
| backend/src/models/Alert.js:117-133 | `shouldTrigger` calls four `this.check…Conditions` methods that the schema never defines (its only methods are `shouldTrigger` and `trigger`), so reaching any of them throws a TypeError | an alert with status "active", no expiry and type "pattern" | each alert type is judged by its own condition checker | medium, not executed | AlertModel.MissingCheckerThrows | AlertModel.ShouldTrigger |

## Observations

These behaviours are proved about the code as written. They are not treated as defects.

- Transformer patterns get types such as "bullish_reversal". These lie outside the pattern schema's type enum, and the backtester trades them short (`PatternDetector.TransformerTypesOutsideEnum`).
- `findActiveAlerts` drops an alert that expires exactly now, while `shouldTrigger` still lets it through (`AlertModel.ExpiryIsStrict`).
- Once the recent list holds ten patterns, a detection result no longer reaches it. Only `addNewPattern` refreshes a full list (`PatternSlice.DetectionFulfilledRecent`).
- `toggleChartOverlay` with the key of a group replaces the whole group by `false` (`UiSlice.ToggleTopLevel`).
