/** The `alert` slice of the dashboard store. Toast notifications are left out. */
module AlertSlice {
  import opened Common
  import opened Documents

  /** The alert fields the client shows; the reducers never look inside them. */
  datatype AlertFields = AlertFields(name: string, symbol: string, alertType: string, status: string)

  type AlertDoc = Doc<AlertFields>

  /** One entry of the trigger history pushed by the server. */
  datatype TriggerEvent = TriggerEvent(alertId: string, triggeredAt: int, message: string)

  datatype Pagination = Pagination(totalAlerts: int, totalPages: int, currentPage: int, pageSize: int)

  datatype State = State(
    alerts: seq<AlertDoc>,
    loading: bool,
    error: Option<string>,
    triggerHistory: seq<TriggerEvent>,
    selectedAlert: Option<AlertDoc>,
    selectedAlertStats: Option<JsValue>,
    paginationInfo: Pagination)

  const InitialState: State := State([], false, None, [], None, None, Pagination(0, 0, 1, 10))

  // ---- case reducers ----

  /** `clearAlerts`: the list and the selection go, the history and the pagination stay. */
  function ClearAlerts(s: State): (r: State)
    ensures r.alerts == [] && r.selectedAlert.None? && r.selectedAlertStats.None?
    ensures r.triggerHistory == s.triggerHistory && r.paginationInfo == s.paginationInfo
    ensures r.loading == s.loading && r.error == s.error
  {
    s.(alerts := [], selectedAlert := None, selectedAlertStats := None)
  }

  /** `setSelectedAlert` (a null payload clears the selection). */
  function SetSelectedAlert(s: State, a: Option<AlertDoc>): (r: State)
    ensures r.selectedAlert == a
    ensures r.(selectedAlert := s.selectedAlert) == s
  {
    s.(selectedAlert := a)
  }

  /** `addTriggerHistory`: the newest event goes first. */
  function AddTriggerHistory(s: State, e: TriggerEvent): (r: State)
    ensures |r.triggerHistory| == |s.triggerHistory| + 1
    ensures r.triggerHistory[0] == e && r.triggerHistory[1..] == s.triggerHistory
    ensures r.(triggerHistory := s.triggerHistory) == s
  {
    s.(triggerHistory := [e] + s.triggerHistory)
  }

  /** `setCurrentPage`: only the current page changes. */
  function SetCurrentPage(s: State, page: int): (r: State)
    ensures r.paginationInfo.currentPage == page
    ensures r.(paginationInfo := s.paginationInfo) == s
    ensures r.paginationInfo.(currentPage := s.paginationInfo.currentPage) == s.paginationInfo
  {
    s.(paginationInfo := s.paginationInfo.(currentPage := page))
  }

  // ---- request lifecycles ----

  /** The pending case of every alert request. */
  function Pending(s: State): (r: State)
    ensures r.loading && r.error.None?
    ensures r.(loading := s.loading, error := s.error) == s
  {
    s.(loading := true, error := None)
  }

  /** The rejected case of every alert request. */
  function Rejected(s: State, message: string): (r: State)
    ensures !r.loading && r.error == Some(message)
    ensures r.(loading := s.loading, error := s.error) == s
  {
    s.(loading := false, error := Some(message))
  }

  /** A failed request changes nothing but the two flags. */
  lemma PendingThenRejected(s: State, message: string)
    ensures Rejected(Pending(s), message) == s.(loading := false, error := Some(message))
  {
  }

  /** What `GET /api/alerts` answers; `triggerHistory` may be missing. */
  datatype FetchPayload = FetchPayload(alerts: seq<AlertDoc>, triggerHistory: Option<seq<TriggerEvent>>,
                                       totalAlerts: int, totalPages: int, currentPage: int, pageSize: int)

  /** `fetchAlerts.fulfilled`. */
  function FetchAlertsFulfilled(s: State, d: FetchPayload): (r: State)
    ensures !r.loading && r.alerts == d.alerts
    ensures d.triggerHistory.Some? ==> r.triggerHistory == d.triggerHistory.value
    ensures d.triggerHistory.None? ==> r.triggerHistory == []
    ensures r.paginationInfo == Pagination(d.totalAlerts, d.totalPages, d.currentPage, d.pageSize)
    ensures r.error == s.error && r.selectedAlert == s.selectedAlert && r.selectedAlertStats == s.selectedAlertStats
  {
    s.(loading := false, alerts := d.alerts, triggerHistory := d.triggerHistory.GetOr([]),
       paginationInfo := Pagination(d.totalAlerts, d.totalPages, d.currentPage, d.pageSize))
  }

  /** `createAlert.fulfilled`: the created alert goes first. */
  function CreateAlertFulfilled(s: State, a: AlertDoc): (r: State)
    ensures !r.loading
    ensures |r.alerts| == |s.alerts| + 1 && r.alerts[0] == a && r.alerts[1..] == s.alerts
    ensures r.(loading := s.loading, alerts := s.alerts) == s
  {
    s.(loading := false, alerts := [a] + s.alerts)
  }

  /** `updateAlert.fulfilled`. */
  function UpdateAlertFulfilled(s: State, a: AlertDoc): (r: State)
    ensures !r.loading
    ensures r.alerts == ReplaceId(s.alerts, a)
    ensures r.selectedAlert == Reselect(s.selectedAlert, a)
    ensures r.(loading := s.loading, alerts := s.alerts, selectedAlert := s.selectedAlert) == s
  {
    s.(loading := false, alerts := ReplaceId(s.alerts, a), selectedAlert := Reselect(s.selectedAlert, a))
  }

  /** `deleteAlert.fulfilled` with the deleted id. */
  function DeleteAlertFulfilled(s: State, id: string): (r: State)
    ensures !r.loading
    ensures r.alerts == RemoveId(s.alerts, id)
    ensures r.selectedAlert == Deselect(s.selectedAlert, id)
    ensures r.(loading := s.loading, alerts := s.alerts, selectedAlert := s.selectedAlert) == s
  {
    s.(loading := false, alerts := RemoveId(s.alerts, id), selectedAlert := Deselect(s.selectedAlert, id))
  }

  /** Deleting an alert that was just created restores the list it was added to,
      when no other alert carried its id. */
  lemma CreateThenDelete(s: State, a: AlertDoc)
    requires forall d | d in s.alerts :: d.id != a.id
    ensures DeleteAlertFulfilled(CreateAlertFulfilled(s, a), a.id).alerts == s.alerts
  {
    RemoveIdAppend([a], s.alerts, a.id);
    RemoveIdAbsent(s.alerts, a.id);
  }

  /** `testAlert.fulfilled`: only the loading flag changes. */
  function TestAlertFulfilled(s: State): (r: State)
    ensures !r.loading
    ensures r.(loading := s.loading) == s
  {
    s.(loading := false)
  }
}
