/** The `PatternDetector` of the machine-learning service: turning TA-Lib
    score arrays and transformer window verdicts into detection records,
    merging and ranking them, and the per-pattern analysis merge. The
    TA-Lib functions and the classifier are inputs. */
module PatternDetector {
  import opened Common
  import opened Ordering
  import opened Signals

  datatype Detection = Detection(
    patternName: string,
    confidence: real,
    startIndex: nat,
    endIndex: nat,
    patternType: string,
    detectionMethod: string)

  function Confidence(d: Detection): real {
    d.confidence
  }

  /** The candlestick functions scanned, with the number of bars each spans. */
  const TalibPatterns: seq<(string, nat)> := [
    ("DOJI", 1), ("HAMMER", 1), ("SHOOTING_STAR", 1), ("SPINNING_TOP", 1), ("MARUBOZU", 1),
    ("ENGULFING", 2), ("HARAMI", 2), ("PIERCING", 2), ("DARK_CLOUD_COVER", 2),
    ("MORNING_STAR", 3), ("EVENING_STAR", 3), ("THREE_WHITE_SOLDIERS", 3), ("THREE_BLACK_CROWS", 3),
    ("THREE_INSIDE_UP", 3), ("THREE_OUTSIDE_UP", 3),
    ("ABANDONED_BABY", 3), ("BREAKAWAY", 5), ("KICKING", 2), ("LADDER_BOTTOM", 5)
  ]

  // ---- TA-Lib post-processing ----

  /** A score in -100..100 counts when its magnitude reaches the threshold scaled to 100. */
  predicate Significant(v: int, threshold: real) {
    Abs(v) as real >= threshold * 100.0
  }

  function SignificantSel(threshold: real): int -> bool {
    v => Significant(v, threshold)
  }

  function TalibRecord(name: string, length: nat, vs: seq<int>, i: nat): Detection
    requires i < |vs|
  {
    Detection(name, Abs(vs[i]) as real / 100.0, Max(0, i - length + 1), i,
              if vs[i] > 0 then "bullish" else "bearish", "talib")
  }

  /** What a TA-Lib detection says about the score array it came from:
      the bar it ends at passed the threshold, its confidence is the
      score's magnitude over 100, its sign gives the direction, and it
      spans the pattern's length back from that bar. */
  predicate FromScore(d: Detection, name: string, length: nat, vs: seq<int>, threshold: real) {
    && d.endIndex < |vs|
    && Significant(vs[d.endIndex], threshold)
    && d.patternName == name
    && d.detectionMethod == "talib"
    && d.confidence == Abs(vs[d.endIndex]) as real / 100.0
    && (d.patternType == "bullish" <==> vs[d.endIndex] > 0)
    && (d.patternType == "bearish" <==> vs[d.endIndex] <= 0)
    && d.startIndex == Max(0, d.endIndex - length + 1)
  }

  lemma TalibRecordFacts(name: string, length: nat, vs: seq<int>, threshold: real, i: nat)
    requires i < |vs| && Significant(vs[i], threshold)
    ensures TalibRecord(name, length, vs, i).endIndex == i
    ensures FromScore(TalibRecord(name, length, vs, i), name, length, vs, threshold)
  {
    assert "bullish"[1] != "bearish"[1];
  }

  /** The detections of one pattern function's score array, by increasing bar index. */
  function ScanTalib(name: string, length: nat, vs: seq<int>, threshold: real): (r: seq<Detection>)
    ensures forall k :: 0 <= k < |r| ==> FromScore(r[k], name, length, vs, threshold)
    ensures forall k, l :: 0 <= k < l < |r| ==> r[k].endIndex < r[l].endIndex
    ensures forall i :: 0 <= i < |vs| && Significant(vs[i], threshold) ==>
              exists k :: 0 <= k < |r| && r[k].endIndex == i
  {
    var hits := Hits(vs, SignificantSel(threshold));
    var r := seq(|hits|, k requires 0 <= k < |hits| => TalibRecord(name, length, vs, hits[k]));
    forall k | 0 <= k < |r|
      ensures r[k].endIndex == hits[k] && FromScore(r[k], name, length, vs, threshold)
    {
      assert SignificantSel(threshold)(vs[hits[k]]);
      TalibRecordFacts(name, length, vs, threshold, hits[k]);
    }
    forall k, l | 0 <= k < l < |r| ensures r[k].endIndex < r[l].endIndex {
      assert r[k].endIndex == hits[k] && r[l].endIndex == hits[l];
    }
    forall i | 0 <= i < |vs| && Significant(vs[i], threshold)
      ensures exists k :: 0 <= k < |r| && r[k].endIndex == i
    {
      assert SignificantSel(threshold)(vs[i]);
      var k :| 0 <= k < |hits| && hits[k] == i;
    }
    r
  }

  /** Each TA-Lib detection is at least as confident as the threshold, is
      never neutral, and spans at most the pattern's length in bars. */
  lemma TalibDetectionFacts(name: string, length: nat, vs: seq<int>, threshold: real, d: Detection)
    requires length >= 1
    requires d in ScanTalib(name, length, vs, threshold)
    ensures d.confidence >= threshold
    ensures d.patternType == "bullish" || d.patternType == "bearish"
    ensures d.startIndex <= d.endIndex < |vs|
    ensures d.endIndex - d.startIndex + 1 <= length
  {
    var r := ScanTalib(name, length, vs, threshold);
    var k :| 0 <= k < |r| && r[k] == d;
    var v := vs[d.endIndex];
    assert Abs(v) as real >= threshold * 100.0;
    assert d.confidence == Abs(v) as real / 100.0;
  }

  /** `_detect_patterns_talib`: the detections of every table entry whose
      function returns; a function that raises (None) contributes nothing
      and the scan goes on. */
  function DetectTalib(table: seq<(string, nat)>, scores: string -> Option<seq<int>>, threshold: real): (r: seq<Detection>)
    ensures forall d | d in r ::
              exists j :: && 0 <= j < |table| && scores(table[j].0).Some?
                          && d in ScanTalib(table[j].0, table[j].1, scores(table[j].0).value, threshold)
    ensures forall j, d ::
              (&& 0 <= j < |table| && scores(table[j].0).Some?
               && d in ScanTalib(table[j].0, table[j].1, scores(table[j].0).value, threshold)) ==> d in r
  {
    if |table| == 0 then []
    else
      var head := match scores(table[0].0)
                  case None => []
                  case Some(vs) => ScanTalib(table[0].0, table[0].1, vs, threshold);
      var rest := DetectTalib(table[1..], scores, threshold);
      assert forall j :: 1 <= j < |table| ==> table[j] == table[1..][j - 1];
      head + rest
  }

  // ---- Transformer windows ----

  const WindowSize: nat := 10

  /** The classifier's labels, in output order. */
  const PatternLabels: seq<string> :=
    ["NO_PATTERN", "BULLISH_REVERSAL", "BEARISH_REVERSAL", "CONTINUATION", "INDECISION"]

  /** `_get_pattern_type`: the label of a prediction, or "UNKNOWN" past the table. */
  function GetPatternType(prediction: nat): (t: string)
    ensures prediction < |PatternLabels| ==> t == PatternLabels[prediction]
    ensures prediction >= |PatternLabels| ==> t == "UNKNOWN"
    ensures t != ""
  {
    if prediction < |PatternLabels| then PatternLabels[prediction] else "UNKNOWN"
  }

  /** The classifier's output on one window: its argmax class and that class's probability. */
  datatype Verdict = Verdict(prediction: nat, confidence: real)

  /** The classifier as a function of a window's first row: None where the
      model call (or the feature preparation before it) raises. */
  type Classifier = nat -> Option<Verdict>

  /** `range(n - window_size + 1)`: the number of full windows over `n` rows. */
  function WindowCount(n: nat): (c: nat)
    ensures c == Max(0, n - (WindowSize - 1))
    ensures c > 0 ==> c - 1 + WindowSize - 1 < n
  {
    if n >= WindowSize then n - WindowSize + 1 else 0
  }

  /** The windows classified before the loop is left by an exception: the
      first window whose classification raises, or all `count` of them. */
  function Completed(classify: Classifier, count: nat, w: nat := 0): (c: nat)
    requires w <= count
    decreases count - w
    ensures w <= c <= count
    ensures forall v :: w <= v < c ==> classify(v).Some?
    ensures c < count ==> classify(c).None?
  {
    if w == count || classify(w).None? then w else Completed(classify, count, w + 1)
  }

  /** A classifier that never raises classifies every window. */
  lemma CompletedTotal(classify: Classifier, count: nat)
    requires forall v :: 0 <= v < count ==> classify(v).Some?
    ensures Completed(classify, count) == count
  {
  }

  function ConfidentSel(threshold: real): Verdict -> bool {
    (v: Verdict) => v.confidence >= threshold
  }

  /** ASCII lower-casing, which is all `str.lower` does to the labels. */
  function LowerChar(c: char): char {
    if 'A' <= c <= 'Z' then (c as int + 32) as char else c
  }

  function Lower(s: string): (r: string)
    ensures |r| == |s|
    ensures forall i :: 0 <= i < |s| ==> r[i] == LowerChar(s[i])
  {
    seq(|s|, i requires 0 <= i < |s| => LowerChar(s[i]))
  }

  function WindowRecord(v: Verdict, w: nat): Detection {
    var name := GetPatternType(v.prediction);
    Detection("AI_PATTERN_" + name, v.confidence, w, w + WindowSize - 1,
              Lower(name), "transformer")
  }

  /** What a transformer detection says about the window it came from: the
      window is full and was classified before any exception, the
      classifier was confident enough on it, and the name and type are its
      label. */
  predicate FromWindow(d: Detection, n: nat, classify: Classifier, threshold: real) {
    && d.startIndex < Completed(classify, WindowCount(n))
    && d.endIndex == d.startIndex + WindowSize - 1 < n
    && classify(d.startIndex).Some?
    && d.confidence == classify(d.startIndex).value.confidence >= threshold
    && d.patternName == "AI_PATTERN_" + GetPatternType(classify(d.startIndex).value.prediction)
    && d.patternType == Lower(GetPatternType(classify(d.startIndex).value.prediction))
    && d.detectionMethod == "transformer"
  }

  /** The verdicts on the first `count` windows, none of which raised. */
  function Verdicts(classify: Classifier, count: nat): (vs: seq<Verdict>)
    requires forall w :: 0 <= w < count ==> classify(w).Some?
    ensures |vs| == count
    ensures forall w :: 0 <= w < count ==> classify(w) == Some(vs[w])
  {
    seq(count, w requires 0 <= w < count => classify(w).value)
  }

  /** The windows' detections with a loaded model: the confident windows
      among those classified before the first exception, in window order. */
  function ScanWindows(n: nat, classify: Classifier, threshold: real): (r: seq<Detection>)
    ensures forall k :: 0 <= k < |r| ==> FromWindow(r[k], n, classify, threshold)
    ensures forall k, l :: 0 <= k < l < |r| ==> r[k].startIndex < r[l].startIndex
    ensures forall w :: 0 <= w < Completed(classify, WindowCount(n)) && classify(w).value.confidence >= threshold ==>
              exists k :: 0 <= k < |r| && r[k].startIndex == w
  {
    var done := Completed(classify, WindowCount(n));
    var verdicts := Verdicts(classify, done);
    var hits := Hits(verdicts, ConfidentSel(threshold));
    var r := seq(|hits|, k requires 0 <= k < |hits| => WindowRecord(verdicts[hits[k]], hits[k]));
    forall k | 0 <= k < |r| ensures r[k].startIndex == hits[k] && FromWindow(r[k], n, classify, threshold) {
      assert ConfidentSel(threshold)(verdicts[hits[k]]);
      WindowRecordFacts(n, classify, threshold, hits[k]);
    }
    forall k, l | 0 <= k < l < |r| ensures r[k].startIndex < r[l].startIndex {
      assert r[k].startIndex == hits[k] && r[l].startIndex == hits[l];
    }
    forall w | 0 <= w < done && classify(w).value.confidence >= threshold
      ensures exists k :: 0 <= k < |r| && r[k].startIndex == w
    {
      assert ConfidentSel(threshold)(verdicts[w]);
      var k :| 0 <= k < |hits| && hits[k] == w;
    }
    r
  }

  /** `_detect_patterns_transformer`: a missing model yields no detections,
      and an exception ends the scan with the detections found so far. */
  function DetectTransformer(n: nat, model: Option<Classifier>, threshold: real): (r: seq<Detection>)
    ensures model.None? ==> r == []
    ensures model.Some? ==> forall k :: 0 <= k < |r| ==> FromWindow(r[k], n, model.value, threshold)
    ensures forall k, l :: 0 <= k < l < |r| ==> r[k].startIndex < r[l].startIndex
    ensures model.Some? ==> forall w ::
              0 <= w < Completed(model.value, WindowCount(n)) && model.value(w).value.confidence >= threshold ==>
              exists k :: 0 <= k < |r| && r[k].startIndex == w
  {
    match model
    case None => []
    case Some(classify) => ScanWindows(n, classify, threshold)
  }

  lemma WindowRecordFacts(n: nat, classify: Classifier, threshold: real, w: nat)
    requires w < Completed(classify, WindowCount(n))
    requires classify(w).value.confidence >= threshold
    ensures WindowRecord(classify(w).value, w).startIndex == w
    ensures FromWindow(WindowRecord(classify(w).value, w), n, classify, threshold)
  {
  }

  /** An exception on the first window (or while preparing the features)
      leaves the transformer pass empty. */
  lemma TransformerRaisingFirst(n: nat, classify: Classifier, threshold: real)
    requires classify(0).None?
    ensures DetectTransformer(n, Some(classify), threshold) == []
  {
    assert Completed(classify, WindowCount(n)) == 0;
  }

  /** The `if pattern_type:` guard never filters: even a confident
      "no pattern" verdict becomes a detection. */
  lemma ConfidentNoPatternIsReported(n: nat, classify: Classifier, threshold: real)
    requires n >= WindowSize
    requires classify(0) == Some(Verdict(0, 1.0)) && threshold <= 1.0
    ensures exists k :: 0 <= k < |DetectTransformer(n, Some(classify), threshold)|
              && DetectTransformer(n, Some(classify), threshold)[k].patternName == "AI_PATTERN_NO_PATTERN"
  {
    var model := Some(classify);
    var r := DetectTransformer(n, model, threshold);
    assert 0 < Completed(classify, WindowCount(n)) && model.value(0).value.confidence >= threshold;
    var k :| 0 <= k < |r| && r[k].startIndex == 0;
    assert FromWindow(r[k], n, classify, threshold);
    assert GetPatternType(classify(0).value.prediction) == "NO_PATTERN";
    assert r[k].patternName == "AI_PATTERN_" + "NO_PATTERN";
    NoPatternName();
  }

  lemma NoPatternName()
    ensures "AI_PATTERN_" + "NO_PATTERN" == "AI_PATTERN_NO_PATTERN"
  {
  }

  /** No label lower-cases to one of the three directions: the five labels
      are longer than seven letters and "unknown" starts with 'u'. */
  lemma LabelTypeOutsideEnum(prediction: nat)
    ensures var t := Lower(GetPatternType(prediction));
            t != "bullish" && t != "bearish" && t != "neutral"
  {
    var g := GetPatternType(prediction);
    var t := Lower(g);
    if prediction < |PatternLabels| {
      assert |g| != 7 by {
        assert prediction == 0 || prediction == 1 || prediction == 2 || prediction == 3 || prediction == 4;
      }
      assert |t| != 7;
    } else {
      assert t[0] == LowerChar('U') == 'u';
    }
  }

  /** A transformer detection's type is a lower-cased label such as
      "bullish_reversal", never one of "bullish", "bearish" or "neutral". */
  lemma TransformerTypesOutsideEnum(n: nat, model: Option<Classifier>, threshold: real)
    ensures forall d | d in DetectTransformer(n, model, threshold) ::
              d.patternType != "bullish" && d.patternType != "bearish" && d.patternType != "neutral"
  {
    var r := DetectTransformer(n, model, threshold);
    forall d | d in r
      ensures d.patternType != "bullish" && d.patternType != "bearish" && d.patternType != "neutral"
    {
      var k :| 0 <= k < |r| && r[k] == d;
      assert FromWindow(d, n, model.value, threshold);
      LabelTypeOutsideEnum(model.value(d.startIndex).value.prediction);
    }
  }

  // ---- Merge and rank ----

  /** `detect_patterns`: TA-Lib detections, then (when asked for and a model
      is loaded) the transformer's, ranked by descending confidence. */
  function DetectPatterns(n: nat, scores: string -> Option<seq<int>>, model: Option<Classifier>,
                          threshold: real, useMl: bool): (r: seq<Detection>)
    ensures multiset(r) == multiset(Collected(n, scores, model, threshold, useMl))
    ensures SortedDesc(r, Confidence)
  {
    SortDesc(Collected(n, scores, model, threshold, useMl), Confidence)
  }

  /** The detections `detect_patterns` collects before ranking them. */
  function Collected(n: nat, scores: string -> Option<seq<int>>, model: Option<Classifier>,
                     threshold: real, useMl: bool): (c: seq<Detection>)
    ensures !useMl || model.None? ==> c == DetectTalib(TalibPatterns, scores, threshold)
  {
    DetectTalib(TalibPatterns, scores, threshold)
      + (if useMl && model.Some? then DetectTransformer(n, model, threshold) else [])
  }

  /** Detections of equal confidence keep their collection order: TA-Lib
      table order first, then transformer windows. */
  lemma DetectPatternsStable(n: nat, scores: string -> Option<seq<int>>, model: Option<Classifier>,
                             threshold: real, useMl: bool, c: real)
    ensures Filter(DetectPatterns(n, scores, model, threshold, useMl), KeyIs(Confidence, c))
         == Filter(Collected(n, scores, model, threshold, useMl), KeyIs(Confidence, c))
  {
    SortDescStable(Collected(n, scores, model, threshold, useMl), Confidence, c);
  }

  /** Score arrays where every pattern function raised. */
  function NoScores(name: string): Option<seq<int>> {
    None
  }

  /** Every pattern function raising leaves the TA-Lib pass empty. */
  lemma {:induction false} DetectTalibNoScores(table: seq<(string, nat)>, threshold: real)
    ensures DetectTalib(table, NoScores, threshold) == []
  {
    if |table| > 0 {
      DetectTalibNoScores(table[1..], threshold);
    }
  }

  /** No scores and no model: nothing detected. */
  lemma DetectPatternsEmpty(n: nat, threshold: real, useMl: bool)
    ensures DetectPatterns(n, NoScores, None, threshold, useMl) == []
  {
    DetectTalibNoScores(TalibPatterns, threshold);
  }

  // ---- analyze_pattern ----

  /** What the model keeps of the analysis: the slice of rows analysed. The
      price and volume ratios over that slice are left out. */
  datatype Analysis = Analysis(firstRow: nat, lastRow: nat, patternDuration: nat)

  datatype Analyzed = Analyzed(pattern: Detection, analysis: Analysis)

  /** `analyze_pattern` over `n` rows: the rows `start..end` (clipped as a
      slice is), or an index error when the slice is empty. */
  function AnalyzePattern(d: Detection, n: nat): (r: Result<Analyzed, string>)
    ensures r.Success? <==> d.startIndex < n && d.startIndex <= d.endIndex
    ensures r.Success? ==>
              && r.value.pattern == d
              && r.value.analysis.firstRow == d.startIndex
              && r.value.analysis.lastRow == Min(d.endIndex, n - 1)
              && r.value.analysis.patternDuration == r.value.analysis.lastRow - d.startIndex + 1
    ensures r.Success? && d.endIndex < n ==> r.value.analysis.patternDuration == d.endIndex - d.startIndex + 1
  {
    var lo := Min(d.startIndex, n);
    var hi := Min(d.endIndex + 1, n);
    if hi <= lo then Failure("single positional indexer is out-of-bounds")
    else Success(Analyzed(d, Analysis(lo, hi - 1, hi - lo)))
  }
}
