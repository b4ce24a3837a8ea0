/** The `/detect/` endpoint of the machine-learning service: every non-zero
    TA-Lib score of the requested patterns becomes a response record. The
    TA-Lib functions are an input; one that raises turns the whole request
    into an HTTP 500 response. */
module DetectApi {
  import opened Common
  import opened Signals

  datatype PatternResponse = PatternResponse(
    patternName: string,
    confidence: real,
    startIndex: nat,
    endIndex: nat,
    patternType: string)

  datatype HttpError = HttpError(statusCode: nat, detail: string)

  /** The endpoint's pattern table, in scan order. */
  const TalibPatterns: seq<string> := [
    "DOJI", "HAMMER", "SHOOTING_STAR",
    "ENGULFING", "HARAMI", "TWEEZER_TOP",
    "MORNING_STAR", "EVENING_STAR", "THREE_WHITE_SOLDIERS", "THREE_BLACK_CROWS"
  ]

  /** `if request.patterns_to_detect and name not in ...: continue`: an
      absent or empty request list scans every pattern. */
  predicate Requested(name: string, toDetect: Option<seq<string>>) {
    toDetect.None? || |toDetect.value| == 0 || name in toDetect.value
  }

  function NonZero(v: int): bool {
    v != 0
  }

  function Record(name: string, vs: seq<int>, i: nat): PatternResponse
    requires i < |vs|
  {
    PatternResponse(name, Abs(vs[i]) as real / 100.0, Max(0, i - 2), i,
                    if vs[i] > 0 then "bullish" else "bearish")
  }

  /** What a response says about the score array it came from: the score
      at its bar is non-zero, its confidence is the score's magnitude over
      100, its sign gives the direction, and the window is the two bars
      before it and the bar itself. */
  predicate FromScore(d: PatternResponse, name: string, vs: seq<int>) {
    && d.endIndex < |vs| && vs[d.endIndex] != 0
    && d.patternName == name
    && d.confidence == Abs(vs[d.endIndex]) as real / 100.0
    && (d.patternType == "bullish" <==> vs[d.endIndex] > 0)
    && (d.patternType == "bearish" <==> vs[d.endIndex] < 0)
    && d.startIndex == Max(0, d.endIndex - 2)
  }

  lemma RecordFacts(name: string, vs: seq<int>, i: nat)
    requires i < |vs| && vs[i] != 0
    ensures Record(name, vs, i).endIndex == i
    ensures FromScore(Record(name, vs, i), name, vs)
  {
    assert "bullish"[1] != "bearish"[1];
  }

  /** The responses for one pattern's scores, by increasing bar index. */
  function ScanScores(name: string, vs: seq<int>): (r: seq<PatternResponse>)
    ensures forall k :: 0 <= k < |r| ==> FromScore(r[k], name, vs)
    ensures forall k, l :: 0 <= k < l < |r| ==> r[k].endIndex < r[l].endIndex
    ensures forall i :: 0 <= i < |vs| && vs[i] != 0 ==> exists k :: 0 <= k < |r| && r[k].endIndex == i
  {
    var hits := Hits(vs, NonZero);
    var r := seq(|hits|, k requires 0 <= k < |hits| => Record(name, vs, hits[k]));
    forall k | 0 <= k < |r| ensures r[k].endIndex == hits[k] && FromScore(r[k], name, vs) {
      assert NonZero(vs[hits[k]]);
      RecordFacts(name, vs, hits[k]);
    }
    forall k, l | 0 <= k < l < |r| ensures r[k].endIndex < r[l].endIndex {
      assert r[k].endIndex == hits[k] && r[l].endIndex == hits[l];
    }
    forall i | 0 <= i < |vs| && vs[i] != 0 ensures exists k :: 0 <= k < |r| && r[k].endIndex == i {
      assert NonZero(vs[i]);
      var k :| 0 <= k < |hits| && hits[k] == i;
    }
    r
  }

  /** Each response spans at most three bars ending at its own index. */
  lemma ResponseWindow(name: string, vs: seq<int>, d: PatternResponse)
    requires d in ScanScores(name, vs)
    ensures d.startIndex <= d.endIndex <= d.startIndex + 2
    ensures d.endIndex >= 2 ==> d.endIndex - d.startIndex == 2
    ensures 0.0 < d.confidence
  {
  }

  /** The scan over `names`: each requested pattern's responses in table
      order; the first pattern function that raises fails the request. */
  function ScanAll(names: seq<string>, toDetect: Option<seq<string>>,
                   scores: string -> Option<seq<int>>): (r: Result<seq<PatternResponse>, HttpError>)
    ensures r.Failure? <==> exists j :: 0 <= j < |names| && Requested(names[j], toDetect) && scores(names[j]).None?
    ensures r.Failure? ==> r.error.statusCode == 500
    ensures r.Success? ==> forall d | d in r.value ::
              && Requested(d.patternName, toDetect)
              && exists j :: 0 <= j < |names| && names[j] == d.patternName
                             && d in ScanScores(names[j], scores(names[j]).value)
    ensures r.Success? ==> forall j, d ::
              (&& 0 <= j < |names| && Requested(names[j], toDetect) && scores(names[j]).Some?
               && d in ScanScores(names[j], scores(names[j]).value)) ==> d in r.value
  {
    if |names| == 0 then Success([])
    else
      var rest := ScanAll(names[1..], toDetect, scores);
      assert forall j :: 1 <= j < |names| ==> names[j] == names[1..][j - 1];
      if !Requested(names[0], toDetect) then rest
      else match scores(names[0])
        case None => Failure(HttpError(500, "pattern function failed"))
        case Some(vs) =>
          match rest
          case Failure(e) => Failure(e)
          case Success(tail) => Success(ScanScores(names[0], vs) + tail)
  }

  /** `detect_patterns` of the endpoint over `n` submitted bars: with no
      bars the frame has no `open` column, and the lookup fails the request
      before any pattern is scanned. */
  function DetectPatterns(n: nat, toDetect: Option<seq<string>>, scores: string -> Option<seq<int>>)
    : (r: Result<seq<PatternResponse>, HttpError>)
    ensures r.Failure? ==> r.error.statusCode == 500
    ensures r.Failure? <==>
              || n == 0
              || exists j :: 0 <= j < |TalibPatterns| && Requested(TalibPatterns[j], toDetect)
                             && scores(TalibPatterns[j]).None?
    ensures r.Success? ==> forall d | d in r.value :: d.patternName in TalibPatterns
    ensures n > 0 && (toDetect == None || toDetect == Some([])) ==>
              (r.Failure? <==> exists name | name in TalibPatterns :: scores(name).None?)
  {
    if n == 0 then Failure(HttpError(500, "'open'"))
    else ScanAll(TalibPatterns, toDetect, scores)
  }

  /** Index of a pattern name in the table. */
  function Rank(names: seq<string>, name: string): nat
  {
    if |names| == 0 || names[0] == name then 0 else 1 + Rank(names[1..], name)
  }

  /** Responses grouped by pattern in the order of `names`, and by
      increasing bar index within a pattern. */
  predicate GroupedBy(names: seq<string>, r: seq<PatternResponse>) {
    forall k, l :: 0 <= k < l < |r| ==>
      || Rank(names, r[k].patternName) < Rank(names, r[l].patternName)
      || (r[k].patternName == r[l].patternName && r[k].endIndex < r[l].endIndex)
  }

  lemma ShiftGrouped(names: seq<string>, r: seq<PatternResponse>)
    requires |names| > 0
    requires forall d | d in r :: d.patternName != names[0]
    requires GroupedBy(names[1..], r)
    ensures GroupedBy(names, r)
  {
    forall k, l | 0 <= k < l < |r|
      ensures || Rank(names, r[k].patternName) < Rank(names, r[l].patternName)
              || (r[k].patternName == r[l].patternName && r[k].endIndex < r[l].endIndex)
    {
      assert r[k] in r && r[l] in r;
    }
  }

  lemma ConsGrouped(names: seq<string>, head: seq<PatternResponse>, tail: seq<PatternResponse>)
    requires |names| > 0
    requires forall k :: 0 <= k < |head| ==> head[k].patternName == names[0]
    requires forall k, l :: 0 <= k < l < |head| ==> head[k].endIndex < head[l].endIndex
    requires forall d | d in tail :: d.patternName != names[0]
    requires GroupedBy(names, tail)
    ensures GroupedBy(names, head + tail)
  {
    var r := head + tail;
    forall k, l | 0 <= k < l < |r|
      ensures || Rank(names, r[k].patternName) < Rank(names, r[l].patternName)
              || (r[k].patternName == r[l].patternName && r[k].endIndex < r[l].endIndex)
    {
      if l < |head| {
        assert r[k] == head[k] && r[l] == head[l];
      } else if k < |head| {
        assert r[k] == head[k] && r[l] == tail[l - |head|];
        assert r[l] in tail;
      } else {
        assert r[k] == tail[k - |head|] && r[l] == tail[l - |head|];
      }
    }
  }

  /** The responses come grouped by pattern in table order, and by
      increasing bar index within a pattern. */
  lemma {:induction false} ScanAllOrdered(names: seq<string>, toDetect: Option<seq<string>>,
                                          scores: string -> Option<seq<int>>)
    requires forall a, b :: 0 <= a < b < |names| ==> names[a] != names[b]
    requires ScanAll(names, toDetect, scores).Success?
    ensures GroupedBy(names, ScanAll(names, toDetect, scores).value)
  {
    if |names| > 0 {
      var rest := ScanAll(names[1..], toDetect, scores);
      assert forall a, b :: 0 <= a < b < |names[1..]| ==> names[1..][a] != names[1..][b];
      ScanAllOrdered(names[1..], toDetect, scores);
      var tail := rest.value;
      forall d | d in tail ensures d.patternName != names[0] {
        var j :| 0 <= j < |names[1..]| && names[1..][j] == d.patternName;
        assert names[j + 1] == d.patternName;
      }
      ShiftGrouped(names, tail);
      if Requested(names[0], toDetect) {
        var head := ScanScores(names[0], scores(names[0]).value);
        assert ScanAll(names, toDetect, scores).value == head + tail;
        ConsGrouped(names, head, tail);
      }
    }
  }
}
