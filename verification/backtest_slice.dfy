/** The `backtest` slice of the dashboard store. Toast notifications are left out. */
module BacktestSlice {
  import opened Common
  import opened Documents

  /** The backtest fields the client shows; the reducers never look inside them. */
  datatype BacktestFields = BacktestFields(name: string, symbol: string, timeframe: string, status: string)

  type BacktestDoc = Doc<BacktestFields>

  datatype Pagination = Pagination(totalBacktests: int, totalPages: int, currentPage: int, pageSize: int)

  datatype State = State(
    backtests: seq<BacktestDoc>,
    currentBacktest: Option<BacktestDoc>,
    loading: bool,
    error: Option<string>,
    paginationInfo: Pagination)

  const InitialState: State := State([], None, false, None, Pagination(0, 0, 1, 10))

  /** `clearBacktests`: the list and the current backtest go, the pagination stays. */
  function ClearBacktests(s: State): (r: State)
    ensures r.backtests == [] && r.currentBacktest.None?
    ensures r.(backtests := s.backtests, currentBacktest := s.currentBacktest) == s
  {
    s.(backtests := [], currentBacktest := None)
  }

  /** `setCurrentPage`: only the current page changes. */
  function SetCurrentPage(s: State, page: int): (r: State)
    ensures r.paginationInfo.currentPage == page
    ensures r.(paginationInfo := s.paginationInfo) == s
    ensures r.paginationInfo.(currentPage := s.paginationInfo.currentPage) == s.paginationInfo
  {
    s.(paginationInfo := s.paginationInfo.(currentPage := page))
  }

  /** The pending case of every backtest request. */
  function Pending(s: State): (r: State)
    ensures r.loading && r.error.None?
    ensures r.(loading := s.loading, error := s.error) == s
  {
    s.(loading := true, error := None)
  }

  /** The rejected case of every backtest request. */
  function Rejected(s: State, message: string): (r: State)
    ensures !r.loading && r.error == Some(message)
    ensures r.(loading := s.loading, error := s.error) == s
  {
    s.(loading := false, error := Some(message))
  }

  /** A failed request changes nothing but the two flags. */
  lemma PendingThenRejected(s: State, message: string)
    ensures Rejected(Pending(s), message) == s.(loading := false, error := Some(message))
  {
  }

  /** What `GET /api/backtest` answers. */
  datatype FetchPayload = FetchPayload(backtests: seq<BacktestDoc>, totalBacktests: int, totalPages: int,
                                       currentPage: int, pageSize: int)

  /** `fetchBacktests.fulfilled`. */
  function FetchBacktestsFulfilled(s: State, d: FetchPayload): (r: State)
    ensures !r.loading && r.backtests == d.backtests
    ensures r.paginationInfo == Pagination(d.totalBacktests, d.totalPages, d.currentPage, d.pageSize)
    ensures r.error == s.error && r.currentBacktest == s.currentBacktest
  {
    s.(loading := false, backtests := d.backtests,
       paginationInfo := Pagination(d.totalBacktests, d.totalPages, d.currentPage, d.pageSize))
  }

  /** `fetchBacktestById.fulfilled`: the fetched backtest becomes the current one. */
  function FetchBacktestByIdFulfilled(s: State, b: BacktestDoc): (r: State)
    ensures !r.loading && r.currentBacktest == Some(b)
    ensures r.(loading := s.loading, currentBacktest := s.currentBacktest) == s
  {
    s.(loading := false, currentBacktest := Some(b))
  }

  /** `createBacktest.fulfilled`: the created backtest goes first. */
  function CreateBacktestFulfilled(s: State, b: BacktestDoc): (r: State)
    ensures !r.loading
    ensures |r.backtests| == |s.backtests| + 1 && r.backtests[0] == b && r.backtests[1..] == s.backtests
    ensures r.(loading := s.loading, backtests := s.backtests) == s
  {
    s.(loading := false, backtests := [b] + s.backtests)
  }

  /** `deleteBacktest.fulfilled` with the deleted id. */
  function DeleteBacktestFulfilled(s: State, id: string): (r: State)
    ensures !r.loading
    ensures r.backtests == RemoveId(s.backtests, id)
    ensures r.currentBacktest == Deselect(s.currentBacktest, id)
    ensures r.(loading := s.loading, backtests := s.backtests, currentBacktest := s.currentBacktest) == s
  {
    s.(loading := false, backtests := RemoveId(s.backtests, id), currentBacktest := Deselect(s.currentBacktest, id))
  }

  /** After a delete no listed backtest carries the id, and repeating it changes nothing. */
  lemma DeleteBacktestIdempotent(s: State, id: string)
    ensures forall b | b in DeleteBacktestFulfilled(s, id).backtests :: b.id != id
    ensures DeleteBacktestFulfilled(DeleteBacktestFulfilled(s, id), id) == DeleteBacktestFulfilled(s, id)
  {
    RemoveIdIdempotent(s.backtests, id);
  }
}
