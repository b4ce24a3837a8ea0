/** The `ui` slice of the dashboard store: display toggles, chart overlays,
    notifications and the modal. The clock readings of `addNotification`
    are parameters. */
module UiSlice {
  import opened Common

  /** A chart overlay entry: a switch, or a group of named switches. */
  datatype Overlay = Flag(on: bool) | Group(items: map<string, bool>)

  /** The TypeError JavaScript raises when `toggleChartOverlay` reaches
      through a missing or non-object category: reading the item of a
      missing category (no value given), writing it (a value given), or
      creating a property on a boolean. */
  datatype OverlayError =
    | CannotReadProperty(category: string, item: string)
    | CannotSetProperty(category: string, item: string)
    | CannotCreateProperty(category: string, item: string)

  datatype Notification = Notification(id: int, timestamp: string, read: bool, message: string, kind: string)

  /** The payload of `addNotification`; an absent field leaves the default in place. */
  datatype NotificationPayload = NotificationPayload(id: Option<int>, timestamp: Option<string>, read: Option<bool>,
                                                     message: string, kind: string)

  datatype Modal = Modal(isOpen: bool, kind: Option<string>, data: JsValue)

  datatype State = State(
    darkMode: bool,
    sidebarOpen: bool,
    chartType: string,
    chartOverlays: map<string, Overlay>,
    activePage: string,
    notifications: seq<Notification>,
    modal: Modal)

  const ClosedModal: Modal := Modal(false, None, Null)

  const InitialState: State := State(
    false, true, "candlestick",
    map["volume" := Flag(true),
        "movingAverages" := Group(map["sma20" := true, "ema50" := true, "sma200" := false]),
        "indicators" := Group(map["rsi" := false, "macd" := false]),
        "patterns" := Flag(true)],
    "dashboard", [], ClosedModal)

  // ---- toggles and setters ----

  function ToggleDarkMode(s: State): (r: State)
    ensures r.darkMode != s.darkMode
    ensures r.(darkMode := s.darkMode) == s
  {
    s.(darkMode := !s.darkMode)
  }

  function ToggleSidebar(s: State): (r: State)
    ensures r.sidebarOpen != s.sidebarOpen
    ensures r.(sidebarOpen := s.sidebarOpen) == s
  {
    s.(sidebarOpen := !s.sidebarOpen)
  }

  /** Each toggle undoes itself. */
  lemma TogglesInvolutive(s: State)
    ensures ToggleDarkMode(ToggleDarkMode(s)) == s
    ensures ToggleSidebar(ToggleSidebar(s)) == s
  {
  }

  function SetChartType(s: State, chartType: string): (r: State)
    ensures r.chartType == chartType
    ensures r.(chartType := s.chartType) == s
  {
    s.(chartType := chartType)
  }

  function SetActivePage(s: State, page: string): (r: State)
    ensures r.activePage == page
    ensures r.(activePage := s.activePage) == s
  {
    s.(activePage := page)
  }

  // ---- chart overlays ----

  /** The text of `s` before its first dot (all of `s` when it has none). */
  function UpToDot(s: string): (r: string)
    ensures '.' !in r && r <= s
    ensures |r| == |s| || s[|r|] == '.'
    ensures '.' in s ==> |r| < |s|
  {
    if |s| == 0 || s[0] == '.' then [] else [s[0]] + UpToDot(s[1..])
  }

  /** A dot-free prefix followed by a dot or by nothing is what `UpToDot` finds. */
  lemma {:induction false} UpToDotPrefix(c: string, rest: string)
    requires '.' !in c
    requires |rest| == 0 || rest[0] == '.'
    ensures UpToDot(c + rest) == c
  {
    if |c| == 0 {
      assert c + rest == rest;
    } else {
      assert (c + rest)[0] == c[0] && c[0] in c;
      assert (c + rest)[1..] == c[1..] + rest;
      UpToDotPrefix(c[1..], rest);
    }
  }

  /** `const [category, item] = key.split('.')` for a key holding a dot: the
      text before the first dot and the text up to the second dot, if any. */
  function SplitDot(key: string): (r: (string, string))
    requires '.' in key
    ensures '.' !in r.0 && '.' !in r.1
    ensures var n := |r.0| + 1 + |r.1|;
            && n <= |key| && key[..n] == r.0 + "." + r.1
            && (n == |key| || key[n] == '.')
  {
    var c := UpToDot(key);
    var rest := key[|c| + 1..];
    var item := UpToDot(rest);
    assert key[..|c| + 1 + |item|] == c + "." + item by {
      assert key[..|c|] == c;
      assert key[|c| + 1..|c| + 1 + |item|] == item;
    }
    (c, item)
  }

  /** Splitting a dotted pair of dot-free names gives the names back. */
  lemma SplitDotJoin(category: string, item: string)
    requires '.' !in category && '.' !in item
    ensures '.' in category + "." + item
    ensures SplitDot(category + "." + item) == (category, item)
  {
    var key := category + "." + item;
    assert key[|category|] == '.';
    UpToDotPrefix(category, "." + item);
    assert key == category + ("." + item);
    assert key[|category| + 1..] == item;
    UpToDotPrefix(item, []);
    assert item + [] == item;
  }

  /** JavaScript truthiness of an overlay entry: a group is an object, a missing entry is undefined. */
  predicate OverlayTruthy(o: Option<Overlay>) {
    match o
    case None => false
    case Some(Flag(b)) => b
    case Some(Group(_)) => true
  }

  function Lookup<K, V>(m: map<K, V>, k: K): (r: Option<V>)
    ensures r.Some? <==> k in m
    ensures r.Some? ==> r.value == m[k]
  {
    if k in m then Some(m[k]) else None
  }

  /** `value ?? !current`. */
  function NewSwitch(value: Option<bool>, currentTruthy: bool): (b: bool)
    ensures value.Some? ==> b == value.value
    ensures value.None? ==> b == !currentTruthy
  {
    value.GetOr(!currentTruthy)
  }

  /** `toggleChartOverlay({overlay: key, value})`, where a null or missing
      value is None. A dotted key addresses a switch inside a group and
      fails when the category is missing or is not a group. */
  function ToggleChartOverlay(s: State, key: string, value: Option<bool>): (r: Result<State, OverlayError>)
    ensures '.' !in key ==>
              && r.Success?
              && r.value == s.(chartOverlays :=
                   s.chartOverlays[key := Flag(NewSwitch(value, OverlayTruthy(Lookup(s.chartOverlays, key))))])
    ensures '.' in key ==>
              var (c, i) := SplitDot(key);
              && (r.Success? <==> c in s.chartOverlays && s.chartOverlays[c].Group?)
              && (r.Success? ==>
                    var items := s.chartOverlays[c].items;
                    r.value == s.(chartOverlays :=
                      s.chartOverlays[c := Group(items[i := NewSwitch(value, i in items && items[i])])]))
              && (c !in s.chartOverlays && value.None? ==> r == Failure(CannotReadProperty(c, i)))
              && (c !in s.chartOverlays && value.Some? ==> r == Failure(CannotSetProperty(c, i)))
              && (c in s.chartOverlays && s.chartOverlays[c].Flag? ==> r == Failure(CannotCreateProperty(c, i)))
  {
    if '.' in key then
      var (c, i) := SplitDot(key);
      var entry: Option<Overlay> := Lookup(s.chartOverlays, c);
      match entry
      case None => if value.Some? then Failure(CannotSetProperty(c, i)) else Failure(CannotReadProperty(c, i))
      case Some(Flag(_)) => Failure(CannotCreateProperty(c, i))
      case Some(Group(items)) =>
        var current := i in items && items[i];
        Success(s.(chartOverlays := s.chartOverlays[c := Group(items[i := NewSwitch(value, current)])]))
    else
      var current := OverlayTruthy(Lookup(s.chartOverlays, key));
      Success(s.(chartOverlays := s.chartOverlays[key := Flag(NewSwitch(value, current))]))
  }

  /** A dotted key naming a group sets that group's switch. */
  lemma ToggleGroupItem(s: State, category: string, item: string, value: Option<bool>)
    requires '.' !in category && '.' !in item
    requires category in s.chartOverlays && s.chartOverlays[category].Group?
    ensures var items := s.chartOverlays[category].items;
            ToggleChartOverlay(s, category + "." + item, value)
              == Success(s.(chartOverlays := s.chartOverlays[category :=
                   Group(items[item := NewSwitch(value, item in items && items[item])])]))
  {
    SplitDotJoin(category, item);
  }

  /** Toggling an existing switch twice without a value restores the state. */
  lemma ToggleChartOverlayTwice(s: State, category: string, item: string)
    requires '.' !in category && '.' !in item
    requires category in s.chartOverlays && s.chartOverlays[category].Group?
    requires item in s.chartOverlays[category].items
    ensures var once := ToggleChartOverlay(s, category + "." + item, None);
            once.Success? && ToggleChartOverlay(once.value, category + "." + item, None) == Success(s)
  {
    var key := category + "." + item;
    var items := s.chartOverlays[category].items;
    var once := s.(chartOverlays := s.chartOverlays[category := Group(items[item := !items[item]])]);
    assert ToggleChartOverlay(s, key, None) == Success(once) by {
      ToggleGroupItem(s, category, item, None);
    }
    assert ToggleChartOverlay(once, key, None) == Success(s) by {
      ToggleGroupItem(once, category, item, None);
      assert once.chartOverlays[category].items == items[item := !items[item]];
      UpdateTwice(items, item, !items[item], items[item]);
      UpdateSame(items, item);
      UpdateTwice(s.chartOverlays, category, Group(items[item := !items[item]]), Group(items));
      UpdateSame(s.chartOverlays, category);
    }
  }

  lemma UpdateSame<K, V>(m: map<K, V>, k: K)
    requires k in m
    ensures m[k := m[k]] == m
  {
  }

  lemma UpdateTwice<K, V>(m: map<K, V>, k: K, a: V, b: V)
    ensures m[k := a][k := b] == m[k := b]
  {
  }

  /** Setting a grouped switch to an explicit value twice is setting it once. */
  lemma SetChartOverlayTwice(s: State, category: string, item: string, value: bool)
    requires '.' !in category && '.' !in item
    requires category in s.chartOverlays && s.chartOverlays[category].Group?
    ensures var once := ToggleChartOverlay(s, category + "." + item, Some(value));
            once.Success? && ToggleChartOverlay(once.value, category + "." + item, Some(value)) == once
  {
    var key := category + "." + item;
    var items := s.chartOverlays[category].items;
    var set1 := s.(chartOverlays := s.chartOverlays[category := Group(items[item := value])]);
    assert ToggleChartOverlay(s, key, Some(value)) == Success(set1) by {
      ToggleGroupItem(s, category, item, Some(value));
    }
    assert ToggleChartOverlay(set1, key, Some(value)) == Success(set1) by {
      ToggleGroupItem(set1, category, item, Some(value));
      assert set1.chartOverlays[category].items == items[item := value];
      UpdateTwice(items, item, value, value);
      UpdateTwice(s.chartOverlays, category, Group(items[item := value]), Group(items[item := value]));
    }
  }

  /** A plain key naming a switch toggles back; naming a group replaces the
      whole group by a switch that is off. */
  lemma ToggleTopLevel(s: State, key: string)
    requires '.' !in key && key in s.chartOverlays
    ensures s.chartOverlays[key].Flag? ==>
              var once := ToggleChartOverlay(s, key, None).value;
              ToggleChartOverlay(once, key, None) == Success(s)
    ensures s.chartOverlays[key].Group? ==>
              ToggleChartOverlay(s, key, None).value.chartOverlays[key] == Flag(false)
  {
    if s.chartOverlays[key].Flag? {
      var b := s.chartOverlays[key].on;
      var once := s.(chartOverlays := s.chartOverlays[key := Flag(!b)]);
      assert ToggleChartOverlay(s, key, None).value == once;
      assert Lookup(once.chartOverlays, key) == Some(Flag(!b));
      assert once.chartOverlays[key := Flag(!!b)] == s.chartOverlays;
    }
  }

  // ---- notifications ----

  /** `{id: Date.now(), timestamp: new Date().toISOString(), read: false, ...payload}`. */
  function NewNotification(p: NotificationPayload, now: int, nowIso: string): (n: Notification)
    ensures n.id == p.id.GetOr(now) && n.timestamp == p.timestamp.GetOr(nowIso)
    ensures n.read <==> p.read == Some(true)
    ensures n.message == p.message && n.kind == p.kind
  {
    Notification(p.id.GetOr(now), p.timestamp.GetOr(nowIso), p.read.GetOr(false), p.message, p.kind)
  }

  /** `addNotification`: exactly one entry, at the end. */
  function AddNotification(s: State, p: NotificationPayload, now: int, nowIso: string): (r: State)
    ensures |r.notifications| == |s.notifications| + 1
    ensures r.notifications[..|s.notifications|] == s.notifications
    ensures r.notifications[|s.notifications|] == NewNotification(p, now, nowIso)
    ensures r.(notifications := s.notifications) == s
  {
    s.(notifications := s.notifications + [NewNotification(p, now, nowIso)])
  }

  function NotificationIdIs(id: int): Notification -> bool {
    (n: Notification) => n.id == id
  }

  /** `markNotificationAsRead(id)`. */
  function MarkNotificationAsRead(s: State, id: int): (r: State)
    ensures |r.notifications| == |s.notifications|
    ensures r.(notifications := s.notifications) == s
    ensures (forall j :: 0 <= j < |s.notifications| ==> s.notifications[j].id != id) ==> r == s
    ensures forall k :: 0 <= k < |s.notifications| && s.notifications[k].id == id
                        && (forall j :: 0 <= j < k ==> s.notifications[j].id != id) ==>
              r.notifications == s.notifications[k := s.notifications[k].(read := true)]
  {
    match FindIndex(s.notifications, NotificationIdIs(id))
    case None => s
    case Some(k) => s.(notifications := s.notifications[k := s.notifications[k].(read := true)])
  }

  /** Marking the same notification twice is marking it once. */
  lemma MarkNotificationAsReadIdempotent(s: State, id: int)
    ensures MarkNotificationAsRead(MarkNotificationAsRead(s, id), id) == MarkNotificationAsRead(s, id)
  {
    var ns := s.notifications;
    match FindIndex(ns, NotificationIdIs(id))
    case None =>
    case Some(k) =>
      var ns' := ns[k := ns[k].(read := true)];
      assert ns'[k].id == id;
      assert forall j :: 0 <= j < k ==> ns'[j].id != id by {
        forall j | 0 <= j < k ensures ns'[j].id != id { assert !NotificationIdIs(id)(ns[j]); }
      }
      assert ns'[k := ns'[k].(read := true)] == ns';
  }

  /** A fresh notification can be marked read by its id. */
  lemma AddThenMarkRead(s: State, p: NotificationPayload, now: int, nowIso: string)
    requires forall n | n in s.notifications :: n.id != p.id.GetOr(now)
    ensures var r := MarkNotificationAsRead(AddNotification(s, p, now, nowIso), p.id.GetOr(now));
            && |r.notifications| == |s.notifications| + 1
            && r.notifications[|s.notifications|].read
            && r.notifications[..|s.notifications|] == s.notifications
  {
    var a := AddNotification(s, p, now, nowIso);
    var k := |s.notifications|;
    assert a.notifications[k].id == p.id.GetOr(now);
    assert forall j :: 0 <= j < k ==> a.notifications[j].id != p.id.GetOr(now) by {
      forall j | 0 <= j < k ensures a.notifications[j].id != p.id.GetOr(now) {
        assert a.notifications[j] == s.notifications[j];
        assert s.notifications[j] in s.notifications;
      }
    }
  }

  function ClearNotifications(s: State): (r: State)
    ensures r.notifications == []
    ensures r.(notifications := s.notifications) == s
  {
    s.(notifications := [])
  }

  // ---- modal ----

  /** `openModal({type, data})`: a falsy data becomes null. */
  function OpenModal(s: State, kind: Option<string>, data: JsValue): (r: State)
    ensures r.modal.isOpen && r.modal.kind == kind
    ensures Truthy(data) ==> r.modal.data == data
    ensures !Truthy(data) ==> r.modal.data == Null
    ensures r.(modal := s.modal) == s
  {
    s.(modal := Modal(true, kind, if Truthy(data) then data else Null))
  }

  function CloseModal(s: State): (r: State)
    ensures !r.modal.isOpen && r.modal.kind.None? && r.modal.data == Null
    ensures r.(modal := s.modal) == s
  {
    s.(modal := ClosedModal)
  }

  /** Opening then closing a modal leaves the state as if it had been closed all along. */
  lemma OpenThenClose(s: State, kind: Option<string>, data: JsValue)
    ensures CloseModal(OpenModal(s, kind, data)) == CloseModal(s)
    ensures CloseModal(InitialState) == InitialState
  {
  }
}
