/** The `pattern` slice of the dashboard store: its case reducers and the
    reducers of its request lifecycles, as functions from state to state.
    Toast notifications are left out. */
module PatternSlice {
  import opened Common
  import opened Documents

  /** The fields of a pattern document the reducers look at. */
  datatype PatternFields = PatternFields(patternName: string, patternType: string, confidence: real, status: string)

  type PatternRec = Doc<PatternFields>

  datatype Pagination = Pagination(totalPatterns: int, totalPages: int, currentPage: int, pageSize: int)

  datatype PatternStats = PatternStats(totalDetected: int, bullishCount: int, bearishCount: int,
                                       neutralCount: int, highConfidenceCount: int)

  datatype State = State(
    patterns: seq<PatternRec>,
    currentPattern: Option<PatternRec>,
    recentPatterns: seq<PatternRec>,
    loading: bool,
    detectionLoading: bool,
    error: Option<string>,
    paginationInfo: Pagination,
    patternStats: PatternStats)

  const RecentCapacity: nat := 10
  const HighConfidence: real := 0.8

  const InitialState: State := State([], None, [], false, false, None,
                                     Pagination(0, 0, 1, 10), PatternStats(0, 0, 0, 0, 0))

  /** The counters agree: every detection is bullish, bearish or neutral. */
  predicate StatsConsistent(st: PatternStats) {
    st.totalDetected == st.bullishCount + st.bearishCount + st.neutralCount
  }

  /** The store's invariant under its own reducers. */
  predicate Inv(s: State) {
    |s.recentPatterns| <= RecentCapacity && StatsConsistent(s.patternStats)
  }

  lemma InitialStateInv()
    ensures Inv(InitialState)
  {
  }

  // ---- case reducers ----

  /** `addNewPattern`: newest first in both lists, the recent list dropping
      its oldest entry past ten, and one more detection counted. */
  function AddNewPattern(s: State, p: PatternRec): (r: State)
    ensures r.patterns == [p] + s.patterns
    ensures |s.recentPatterns| < RecentCapacity ==> r.recentPatterns == [p] + s.recentPatterns
    ensures |s.recentPatterns| >= RecentCapacity ==>
              r.recentPatterns == [p] + s.recentPatterns[..|s.recentPatterns| - 1]
    ensures r.patternStats.totalDetected == s.patternStats.totalDetected + 1
    ensures r.patternStats.bullishCount == s.patternStats.bullishCount + (if p.body.patternType == "bullish" then 1 else 0)
    ensures r.patternStats.bearishCount == s.patternStats.bearishCount + (if p.body.patternType == "bearish" then 1 else 0)
    ensures r.patternStats.neutralCount == s.patternStats.neutralCount
              + (if p.body.patternType != "bullish" && p.body.patternType != "bearish" then 1 else 0)
    ensures r.patternStats.highConfidenceCount
              == s.patternStats.highConfidenceCount + (if p.body.confidence >= HighConfidence then 1 else 0)
    ensures r.(patterns := s.patterns, recentPatterns := s.recentPatterns, patternStats := s.patternStats) == s
  {
    var recent := [p] + s.recentPatterns;
    var recent' := if |recent| > RecentCapacity then recent[..|recent| - 1] else recent;
    var st := s.patternStats;
    var st1 := st.(totalDetected := st.totalDetected + 1);
    var st2 :=
      if p.body.patternType == "bullish" then st1.(bullishCount := st1.bullishCount + 1)
      else if p.body.patternType == "bearish" then st1.(bearishCount := st1.bearishCount + 1)
      else st1.(neutralCount := st1.neutralCount + 1);
    var st3 := if p.body.confidence >= HighConfidence then st2.(highConfidenceCount := st2.highConfidenceCount + 1) else st2;
    s.(patterns := [p] + s.patterns, recentPatterns := recent', patternStats := st3)
  }

  /** `addNewPattern` keeps the recent list within ten and the counters consistent. */
  lemma AddNewPatternInv(s: State, p: PatternRec)
    requires Inv(s)
    ensures Inv(AddNewPattern(s, p))
  {
  }

  /** `clearPatterns`: empties the list and the selection only. */
  function ClearPatterns(s: State): (r: State)
    ensures r.patterns == [] && r.currentPattern.None?
    ensures r.recentPatterns == s.recentPatterns && r.patternStats == s.patternStats
    ensures r.(patterns := s.patterns, currentPattern := s.currentPattern) == s
  {
    s.(patterns := [], currentPattern := None)
  }

  /** `setCurrentPage`: only the current page changes. */
  function SetCurrentPage(s: State, page: int): (r: State)
    ensures r.paginationInfo.currentPage == page
    ensures r.(paginationInfo := s.paginationInfo) == s
    ensures r.paginationInfo.(currentPage := s.paginationInfo.currentPage) == s.paginationInfo
  {
    s.(paginationInfo := s.paginationInfo.(currentPage := page))
  }

  // ---- request lifecycles ----

  /** The pending case of `fetchPatterns`, `fetchPatternById` and `updatePatternStatus`. */
  function Pending(s: State): (r: State)
    ensures r.loading && r.error.None?
    ensures r.(loading := s.loading, error := s.error) == s
  {
    s.(loading := true, error := None)
  }

  /** Their rejected case: the rejection message becomes the error. */
  function Rejected(s: State, message: string): (r: State)
    ensures !r.loading && r.error == Some(message)
    ensures r.(loading := s.loading, error := s.error) == s
  {
    s.(loading := false, error := Some(message))
  }

  /** A request that fails leaves the data as it was before the request. */
  lemma PendingThenRejected(s: State, message: string)
    ensures Rejected(Pending(s), message) == s.(loading := false, error := Some(message))
  {
  }

  /** What `GET /api/patterns` answers. */
  datatype FetchPayload = FetchPayload(patterns: seq<PatternRec>, totalPatterns: int, totalPages: int,
                                       currentPage: int, pageSize: int, stats: PatternStats)

  /** `fetchPatterns.fulfilled`: the page, its pagination and the server's counters replace the local ones. */
  function FetchPatternsFulfilled(s: State, d: FetchPayload): (r: State)
    ensures !r.loading
    ensures r.patterns == d.patterns && r.patternStats == d.stats
    ensures r.paginationInfo == Pagination(d.totalPatterns, d.totalPages, d.currentPage, d.pageSize)
    ensures r.recentPatterns == s.recentPatterns && r.error == s.error && r.currentPattern == s.currentPattern
    ensures r.(loading := s.loading, patterns := s.patterns, paginationInfo := s.paginationInfo,
               patternStats := s.patternStats) == s
  {
    s.(loading := false, patterns := d.patterns,
       paginationInfo := Pagination(d.totalPatterns, d.totalPages, d.currentPage, d.pageSize),
       patternStats := d.stats)
  }

  /** `fetchPatternById.fulfilled`: the fetched pattern becomes the current one. */
  function FetchPatternByIdFulfilled(s: State, p: PatternRec): (r: State)
    ensures !r.loading && r.currentPattern == Some(p)
    ensures r.(loading := s.loading, currentPattern := s.currentPattern) == s
  {
    s.(loading := false, currentPattern := Some(p))
  }

  /** `requestPatternDetection.pending`. */
  function DetectionPending(s: State): (r: State)
    ensures r.detectionLoading && r.error.None?
    ensures r.(detectionLoading := s.detectionLoading, error := s.error) == s
  {
    s.(detectionLoading := true, error := None)
  }

  /** `requestPatternDetection.rejected`. */
  function DetectionRejected(s: State, message: string): (r: State)
    ensures !r.detectionLoading && r.error == Some(message)
    ensures r.(detectionLoading := s.detectionLoading, error := s.error) == s
  {
    s.(detectionLoading := false, error := Some(message))
  }

  /** `requestPatternDetection.fulfilled` with `payload.patterns` (None when
      absent): new patterns go in front of the list, and fill the recent
      list only up to its free room. */
  function DetectionFulfilled(s: State, found: Option<seq<PatternRec>>): (r: State)
    ensures !r.detectionLoading
    ensures found.None? || found == Some([]) ==> r == s.(detectionLoading := false)
    ensures found.Some? && |found.value| > 0 ==>
              && r.patterns == found.value + s.patterns
              && r.recentPatterns == Take(SliceTo(found.value, RecentCapacity - |s.recentPatterns|) + s.recentPatterns,
                                          RecentCapacity)
    ensures r.(patterns := s.patterns, recentPatterns := s.recentPatterns, detectionLoading := s.detectionLoading) == s
  {
    match found
    case None => s.(detectionLoading := false)
    case Some(ps) =>
      if |ps| == 0 then s.(detectionLoading := false)
      else
        var recent := Take(SliceTo(ps, RecentCapacity - |s.recentPatterns|) + s.recentPatterns, RecentCapacity);
        s.(detectionLoading := false, patterns := ps + s.patterns, recentPatterns := recent)
  }

  /** With room for `k` more, the recent list gains the first `k` detections
      ahead of the ones it held, and never exceeds ten; a full list is left
      as it is, so fresh detections do not reach it. */
  lemma DetectionFulfilledRecent(s: State, ps: seq<PatternRec>)
    requires Inv(s) && |ps| > 0
    ensures var r := DetectionFulfilled(s, Some(ps));
            && Inv(r)
            && r.recentPatterns == Take(ps, RecentCapacity - |s.recentPatterns|) + s.recentPatterns
            && (|s.recentPatterns| == RecentCapacity ==> r.recentPatterns == s.recentPatterns)
  {
    var k := RecentCapacity - |s.recentPatterns|;
    var front := SliceTo(ps, k);
    assert front == Take(ps, k);
    assert |front + s.recentPatterns| <= RecentCapacity;
  }

  /** `updatePatternStatus.fulfilled`: the first pattern with the returned
      id is replaced, and so is the current pattern when its id matches. */
  function UpdateStatusFulfilled(s: State, p: PatternRec): (r: State)
    ensures !r.loading
    ensures r.patterns == ReplaceId(s.patterns, p)
    ensures r.currentPattern == Reselect(s.currentPattern, p)
    ensures r.(loading := s.loading, patterns := s.patterns, currentPattern := s.currentPattern) == s
  {
    s.(loading := false, patterns := ReplaceId(s.patterns, p), currentPattern := Reselect(s.currentPattern, p))
  }
}
