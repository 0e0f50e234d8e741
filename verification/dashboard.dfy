/** The dashboard client (public/app.js): how a worker card is classified and
    coloured, the summary counters, the search filter, and what one poll of
    `GET /api/workers` does to the client's copy of the records and which
    notifications it raises. */
module Dashboard {
  import opened Options
  import opened Js
  import opened JsMaps
  import opened Records

  // ---------------------------------------------------------------------
  // Sensor colouring
  // ---------------------------------------------------------------------

  datatype SensorClass = Plain | Warning | Danger

  /** `getSensorClass(value, warning, danger)`: nothing for a missing value,
      `danger` above the danger threshold, `warning` above the warning
      threshold only, nothing otherwise. A zero reading is compared like any
      number. */
  function ClassifySensor(value: Nullable<real>, warning: real, danger: real): (c: SensorClass)
    ensures c == Danger <==> value.Present? && value.value > danger
    ensures c == Warning <==> value.Present? && value.value <= danger && value.value > warning
    ensures !value.Present? ==> c == Plain
  {
    match value
    case Present(x) => if x > danger then Danger else if x > warning then Warning else Plain
    case _ => Plain
  }

  /** The thresholds the worker card uses. */
  const TemperatureWarning: real := 35.0
  const TemperatureDanger: real := 40.0
  const GasWarning: real := 200.0
  const GasDanger: real := 300.0

  // ---------------------------------------------------------------------
  // Worker tiers
  // ---------------------------------------------------------------------

  /** `worker.status === 'emergency' || worker.fallDetected`. */
  predicate InEmergency(w: WorkerRecord) {
    w.status == Some(Emergency) || w.fallDetected == Some(true)
  }

  /** `worker.alerts && worker.alerts.length > 0`. */
  predicate HasAlerts(w: WorkerRecord) {
    w.alerts.Some? && |w.alerts.value| > 0
  }

  datatype Tier = ActiveTier | WarningTier | EmergencyTier

  /** The three tiers the card, the status badge and its text all follow:
      emergency first, then any alert, then active. */
  function TierOf(w: WorkerRecord): Tier {
    if InEmergency(w) then EmergencyTier else if HasAlerts(w) then WarningTier else ActiveTier
  }

  /** `getCardClass`. */
  function CardClass(w: WorkerRecord): (c: string)
    ensures c == "emergency" <==> InEmergency(w)
    ensures c == "warning" <==> !InEmergency(w) && HasAlerts(w)
    ensures c == "" <==> !InEmergency(w) && !HasAlerts(w)
  {
    if InEmergency(w) then "emergency" else if HasAlerts(w) then "warning" else ""
  }

  /** `getStatusClass`. */
  function StatusClass(w: WorkerRecord): (c: string)
    ensures c == "status-emergency" <==> InEmergency(w)
    ensures c == "status-warning" <==> !InEmergency(w) && HasAlerts(w)
    ensures c == "status-active" <==> !InEmergency(w) && !HasAlerts(w)
  {
    if InEmergency(w) then "status-emergency" else if HasAlerts(w) then "status-warning" else "status-active"
  }

  /** The badge texts: "emergency", "warning" and "active" in Arabic. */
  const EmergencyText: string := "طوارئ"
  const WarningText: string := "تحذير"
  const ActiveText: string := "نشط"

  /** `getStatusText`. */
  function StatusText(w: WorkerRecord): (t: string)
    ensures t == EmergencyText <==> InEmergency(w)
    ensures t == WarningText <==> !InEmergency(w) && HasAlerts(w)
    ensures t == ActiveText <==> !InEmergency(w) && !HasAlerts(w)
  {
    if InEmergency(w) then EmergencyText else if HasAlerts(w) then WarningText else ActiveText
  }

  /** The card colour, the badge class and the badge text never disagree:
      each is a function of the tier. */
  lemma PresentationFollowsTier(w: WorkerRecord)
    ensures TierOf(w) == EmergencyTier <==> CardClass(w) == "emergency" && StatusClass(w) == "status-emergency" && StatusText(w) == EmergencyText
    ensures TierOf(w) == WarningTier <==> CardClass(w) == "warning" && StatusClass(w) == "status-warning" && StatusText(w) == WarningText
    ensures TierOf(w) == ActiveTier <==> CardClass(w) == "" && StatusClass(w) == "status-active" && StatusText(w) == ActiveText
  {
  }

  // ---------------------------------------------------------------------
  // Summary counters
  // ---------------------------------------------------------------------

  /** How many of `ws` satisfy `p`. */
  function CountWhere(ws: seq<WorkerRecord>, p: WorkerRecord -> bool): (n: nat)
    ensures n <= |ws|
  {
    if ws == [] then 0 else CountWhere(ws[..|ws| - 1], p) + (if p(ws[|ws| - 1]) then 1 else 0)
  }

  /** `w.alerts?.length || 0`. */
  function AlertCount(w: WorkerRecord): nat {
    if w.alerts.Some? then |w.alerts.value| else 0
  }

  /** The number of alerts listed across `ws`. */
  function AlertTotal(ws: seq<WorkerRecord>): nat {
    if ws == [] then 0 else AlertTotal(ws[..|ws| - 1]) + AlertCount(ws[|ws| - 1])
  }

  predicate FlaggedEmergency(w: WorkerRecord) {
    w.status == Some(Emergency)
  }

  predicate NotFlaggedEmergency(w: WorkerRecord) {
    w.status != Some(Emergency)
  }

  datatype Stats = Stats(total: nat, active: nat, emergencies: nat, alerts: nat)

  /** Two complementary conditions split a list. */
  lemma {:induction false} CountSplits(ws: seq<WorkerRecord>, p: WorkerRecord -> bool, q: WorkerRecord -> bool)
    requires forall i :: 0 <= i < |ws| ==> (q(ws[i]) <==> !p(ws[i]))
    ensures CountWhere(ws, p) + CountWhere(ws, q) == |ws|
    decreases |ws|
  {
    if ws != [] {
      var init := ws[..|ws| - 1];
      assert forall i :: 0 <= i < |init| ==> init[i] == ws[i];
      CountSplits(init, p, q);
    }
  }

  /** A weaker condition counts at least as many. */
  lemma {:induction false} CountGrows(ws: seq<WorkerRecord>, p: WorkerRecord -> bool, q: WorkerRecord -> bool)
    requires forall i :: 0 <= i < |ws| ==> (p(ws[i]) ==> q(ws[i]))
    ensures CountWhere(ws, p) <= CountWhere(ws, q)
    decreases |ws|
  {
    if ws != [] {
      var init := ws[..|ws| - 1];
      assert forall i :: 0 <= i < |init| ==> init[i] == ws[i];
      CountGrows(init, p, q);
    }
  }

  /** `updateStats`: the total, the workers whose status is not `emergency`,
      the workers in the emergency tier, and the alerts listed. Every worker
      is either active or flagged, and every flagged worker is counted among
      the emergencies. */
  method UpdateStats(workers: seq<WorkerRecord>) returns (stats: Stats)
    ensures stats.total == |workers|
    ensures stats.active == CountWhere(workers, NotFlaggedEmergency)
    ensures stats.emergencies == CountWhere(workers, InEmergency)
    ensures stats.alerts == AlertTotal(workers)
    ensures stats.active + CountWhere(workers, FlaggedEmergency) == stats.total
    ensures stats.emergencies >= CountWhere(workers, FlaggedEmergency)
    ensures stats.active + stats.emergencies >= stats.total
  {
    var active, emergencies, alerts := 0, 0, 0;
    for i := 0 to |workers|
      invariant active == CountWhere(workers[..i], NotFlaggedEmergency)
      invariant emergencies == CountWhere(workers[..i], InEmergency)
      invariant alerts == AlertTotal(workers[..i])
    {
      var w := workers[i];
      assert workers[..i + 1][..i] == workers[..i];
      if w.status != Some(Emergency) {
        active := active + 1;
      }
      if w.status == Some(Emergency) || w.fallDetected == Some(true) {
        emergencies := emergencies + 1;
      }
      alerts := alerts + (if w.alerts.Some? then |w.alerts.value| else 0);
    }
    assert workers[..|workers|] == workers;
    stats := Stats(|workers|, active, emergencies, alerts);
    CountSplits(workers, FlaggedEmergency, NotFlaggedEmergency);
    CountGrows(workers, FlaggedEmergency, InEmergency);
  }

  // ---------------------------------------------------------------------
  // Search
  // ---------------------------------------------------------------------

  /** What the search box holds once the input handler lower-cases it. */
  function SearchTerm(typed: string): string {
    ToLowerCase(typed)
  }

  /** The card's `data-worker-id`: the id as the card template writes it. */
  function CardId(w: WorkerRecord): string {
    ToString(w.workerId)
  }

  /** `filterWorkers`: a card stays shown when its lower-cased id contains
      the term, or the term is empty. */
  predicate Visible(w: WorkerRecord, term: string) {
    Includes(ToLowerCase(CardId(w)), term) || term == ""
  }

  /** The cards left shown, in display order. */
  function ShownCards(ws: seq<WorkerRecord>, term: string): (shown: seq<WorkerRecord>)
    ensures forall w :: w in shown ==> w in ws && Visible(w, term)
    ensures forall w :: w in ws && Visible(w, term) ==> w in shown
    ensures |shown| <= |ws|
  {
    if ws == [] then []
    else
      var rest := ShownCards(ws[..|ws| - 1], term);
      assert forall w :: w in ws <==> w in ws[..|ws| - 1] || w == ws[|ws| - 1];
      if Visible(ws[|ws| - 1], term) then rest + [ws[|ws| - 1]] else rest
  }

  /** Clearing the search shows every card. */
  lemma EmptySearchShowsAll(ws: seq<WorkerRecord>)
    ensures ShownCards(ws, "") == ws
  {
    if ws != [] {
      EmptySearchShowsAll(ws[..|ws| - 1]);
      assert ws[..|ws| - 1] + [ws[|ws| - 1]] == ws;
    }
  }

  /** Typing a worker's id, in any letter case, keeps that worker's card. */
  lemma TypingOwnIdShowsCard(w: WorkerRecord, typed: string)
    requires ToLowerCase(typed) == ToLowerCase(CardId(w))
    ensures Visible(w, SearchTerm(typed))
  {
    IncludesSelf(ToLowerCase(CardId(w)));
  }

  // ---------------------------------------------------------------------
  // Alert routing
  // ---------------------------------------------------------------------

  datatype ToastKind = ErrorToast | WarningToast

  /** What the page shows or raises. */
  datatype Signal =
    | AlertToast(kind: ToastKind, workerId: Value, message: AlertMessage)
    | BrowserNotification(workerId: Value, message: AlertMessage)
    | FallToast(workerId: Value)
    | EmergencyModal(worker: WorkerRecord)

  /** The toast a single alert gets. */
  function ToastKindFor(s: Severity): ToastKind {
    if s == Critical then ErrorToast else WarningToast
  }

  /** The signals for one alert: its toast, then a browser notification
      when it is critical and permission is granted. */
  function RouteAlert(workerId: Value, a: Alert, granted: bool): (out: seq<Signal>)
    ensures |out| > 0 && out[0] == AlertToast(ToastKindFor(a.severity), workerId, a.message)
    ensures |out| == 2 <==> a.severity == Critical && granted
    ensures |out| == 2 ==> out[1] == BrowserNotification(workerId, a.message)
    ensures |out| <= 2
  {
    [AlertToast(ToastKindFor(a.severity), workerId, a.message)]
      + (if a.severity == Critical && granted then [BrowserNotification(workerId, a.message)] else [])
  }

  /** `handleAlerts`: each alert routed in list order. */
  function HandleAlerts(workerId: Value, alerts: seq<Alert>, granted: bool): (out: seq<Signal>)
    ensures forall sig :: sig in out ==> (sig.AlertToast? || sig.BrowserNotification?) && sig.workerId == workerId
    ensures out == [] <==> alerts == []
    ensures (exists sig :: sig in out && sig.BrowserNotification?) ==> granted
  {
    if alerts == [] then []
    else
      var init := HandleAlerts(workerId, alerts[..|alerts| - 1], granted);
      var last := RouteAlert(workerId, alerts[|alerts| - 1], granted);
      assert forall sig :: sig in init + last <==> sig in init || sig in last;
      init + last
  }

  /** Every alert gets its toast: an error toast when critical, a warning
      toast otherwise. */
  lemma {:induction false} EveryAlertIsToasted(workerId: Value, alerts: seq<Alert>, granted: bool)
    ensures forall i :: 0 <= i < |alerts| ==>
      AlertToast(ToastKindFor(alerts[i].severity), workerId, alerts[i].message) in HandleAlerts(workerId, alerts, granted)
    decreases |alerts|
  {
    if alerts != [] {
      var init := alerts[..|alerts| - 1];
      EveryAlertIsToasted(workerId, init, granted);
      var out := HandleAlerts(workerId, alerts, granted);
      var last := RouteAlert(workerId, alerts[|alerts| - 1], granted);
      assert out == HandleAlerts(workerId, init, granted) + last;
      forall i | 0 <= i < |alerts|
        ensures AlertToast(ToastKindFor(alerts[i].severity), workerId, alerts[i].message) in out
      {
        if i < |init| {
          assert alerts[i] == init[i];
        } else {
          assert last[0] in out;
        }
      }
    }
  }

  /** A browser notification is raised for a message exactly when
      permission is granted and a critical alert carries that message. */
  lemma {:induction false} NotificationsAreCritical(workerId: Value, alerts: seq<Alert>, granted: bool, m: AlertMessage)
    ensures BrowserNotification(workerId, m) in HandleAlerts(workerId, alerts, granted) <==>
      granted && exists i :: 0 <= i < |alerts| && alerts[i].severity == Critical && alerts[i].message == m
    decreases |alerts|
  {
    if alerts != [] {
      var init := alerts[..|alerts| - 1];
      var a := alerts[|alerts| - 1];
      NotificationsAreCritical(workerId, init, granted, m);
      var last := RouteAlert(workerId, a, granted);
      assert HandleAlerts(workerId, alerts, granted) == HandleAlerts(workerId, init, granted) + last;
      assert BrowserNotification(workerId, m) in last <==> granted && a.severity == Critical && a.message == m;
      if granted && exists i :: 0 <= i < |alerts| && alerts[i].severity == Critical && alerts[i].message == m {
        var i :| 0 <= i < |alerts| && alerts[i].severity == Critical && alerts[i].message == m;
        if i < |init| {
          assert init[i] == alerts[i];
        }
      }
      if granted && exists i :: 0 <= i < |init| && init[i].severity == Critical && init[i].message == m {
        var i :| 0 <= i < |init| && init[i].severity == Critical && init[i].message == m;
        assert alerts[i] == init[i];
      }
    }
  }

  /** Only critical alerts can reach the browser's notification centre, and
      a warning-only list raises nothing but warning toasts. */
  lemma WarningsStayInPage(workerId: Value, alerts: seq<Alert>, granted: bool)
    requires forall i :: 0 <= i < |alerts| ==> alerts[i].severity == High
    ensures forall sig :: sig in HandleAlerts(workerId, alerts, granted) ==> sig.AlertToast? && sig.kind == WarningToast
  {
  }

  // ---------------------------------------------------------------------
  // Polling
  // ---------------------------------------------------------------------

  /** A browser notification for a message is raised for a polled worker
      exactly when its alerts are news, permission is granted, and a
      critical alert carries that message. */
  lemma NotificationsAreNews(before: Option<WorkerRecord>, w: WorkerRecord, granted: bool, m: AlertMessage)
    ensures BrowserNotification(w.workerId, m) in WorkerNotices(before, w, granted) <==>
      && AlertsAreNews(before, w) && granted
      && exists i :: 0 <= i < |w.alerts.value| && w.alerts.value[i].severity == Critical && w.alerts.value[i].message == m
  {
    if AlertsAreNews(before, w) {
      NotificationsAreCritical(w.workerId, w.alerts.value, granted, m);
    }
  }

  /** The client's copy of the records, keyed by each record's `workerId`,
      and the connection indicator. */
  datatype Client = Client(workers: JsMap<Key, WorkerRecord>, connected: bool)

  /** A poll either yields the parsed list or fails (a non-OK status, a
      network error or a body that is not JSON). */
  datatype PollResult = Fetched(records: seq<WorkerRecord>) | Failed

  /** Alert notifications fire for a worker with alerts that was unseen
      before the poll or whose alerts differ from what it had then. */
  predicate AlertsAreNews(before: Option<WorkerRecord>, w: WorkerRecord) {
    HasAlerts(w) && (before.None? || before.value.alerts != w.alerts)
  }

  /** The fall notification fires on a rising edge only. */
  predicate FallIsNews(before: Option<WorkerRecord>, w: WorkerRecord) {
    w.fallDetected == Some(true) && (before.None? || before.value.fallDetected != Some(true))
  }

  /** The signals one polled worker raises, given its record before the poll. */
  function WorkerNotices(before: Option<WorkerRecord>, w: WorkerRecord, granted: bool): (out: seq<Signal>)
    ensures (exists sig :: sig in out && sig.AlertToast?) <==> AlertsAreNews(before, w)
    ensures FallToast(w.workerId) in out <==> FallIsNews(before, w)
    ensures EmergencyModal(w) in out <==> FallIsNews(before, w)
    ensures AlertsAreNews(before, w) ==>
      forall i :: 0 <= i < |w.alerts.value| ==>
        AlertToast(ToastKindFor(w.alerts.value[i].severity), w.workerId, w.alerts.value[i].message) in out
    // browser notifications too are raised only on news, and only with permission
    ensures (exists sig :: sig in out && sig.BrowserNotification?) ==> AlertsAreNews(before, w) && granted
    // every signal is about this worker: its alert signals, its fall toast or its modal
    ensures forall sig :: sig in out ==>
      || ((sig.AlertToast? || sig.BrowserNotification?) && sig.workerId == w.workerId)
      || sig == FallToast(w.workerId) || sig == EmergencyModal(w)
    // `handleAlerts` runs before the fall check
    ensures out == (if AlertsAreNews(before, w) then HandleAlerts(w.workerId, w.alerts.value, granted) else [])
      + (if FallIsNews(before, w) then [FallToast(w.workerId), EmergencyModal(w)] else [])
  {
    var alertPart :=
      if AlertsAreNews(before, w) then
        EveryAlertIsToasted(w.workerId, w.alerts.value, granted);
        HandleAlerts(w.workerId, w.alerts.value, granted)
      else [];
    var fallPart := if FallIsNews(before, w) then [FallToast(w.workerId), EmergencyModal(w)] else [];
    assert forall sig :: sig in alertPart + fallPart <==> sig in alertPart || sig in fallPart;
    alertPart + fallPart
  }

  /** Storing each polled record under its `workerId`, in poll order. The
      map only grows, and keys already present keep their place. */
  function MergeRecords(m: JsMap<Key, WorkerRecord>, data: seq<WorkerRecord>): (r: JsMap<Key, WorkerRecord>)
    ensures r.entries.Keys == m.entries.Keys + (set w | w in data :: w.workerId)
    ensures m.order <= r.order
    ensures forall i :: 0 <= i < |data| ==> data[i].workerId in r.entries
  {
    if data == [] then m
    else
      var init := data[..|data| - 1];
      var last := data[|data| - 1];
      var before := MergeRecords(m, init);
      assert forall w :: w in data <==> w in init || w == last;
      Set(before, last.workerId, last)
  }

  /** A worker absent from the poll keeps its copy. */
  lemma {:induction false} MergeKeepsUnpolled(m: JsMap<Key, WorkerRecord>, data: seq<WorkerRecord>, k: Key)
    requires k in m.entries && forall i :: 0 <= i < |data| ==> data[i].workerId != k
    ensures MergeRecords(m, data).entries[k] == m.entries[k]
    decreases |data|
  {
    if data != [] {
      MergeKeepsUnpolled(m, data[..|data| - 1], k);
    }
  }

  /** One merge step: the last polled record is stored over the merge of
      the ones before it, and any other key keeps its value. */
  lemma MergeLastStep(m: JsMap<Key, WorkerRecord>, data: seq<WorkerRecord>, k: Key)
    requires data != []
    ensures k == data[|data| - 1].workerId ==> MergeRecords(m, data).entries[k] == data[|data| - 1]
    ensures k != data[|data| - 1].workerId && k in MergeRecords(m, data[..|data| - 1]).entries ==>
      MergeRecords(m, data).entries[k] == MergeRecords(m, data[..|data| - 1]).entries[k]
  {
  }

  /** Later records win: a polled record that no later record of the poll
      replaces is the worker's copy afterwards. */
  lemma {:induction false} MergeLastWins(m: JsMap<Key, WorkerRecord>, data: seq<WorkerRecord>, i: int)
    requires 0 <= i < |data|
    requires forall l :: i < l < |data| ==> data[l].workerId != data[i].workerId
    ensures MergeRecords(m, data).entries[data[i].workerId] == data[i]
    decreases |data|
  {
    var n := |data| - 1;
    MergeLastStep(m, data, data[i].workerId);
    if i < n {
      var init := data[..n];
      assert init[i] == data[i];
      MergeLastWins(m, init, i);
      assert data[n].workerId != data[i].workerId;
    }
  }

  /** `fetchWorkersData`: a failed poll only turns the indicator off; a
      successful one merges the records and turns it on. Notices are judged
      against the map as it was before the poll, one group per polled record
      in poll order. */
  function Poll(c: Client, result: PollResult, granted: bool): (r: (Client, seq<seq<Signal>>))
    ensures result.Failed? ==> r.0 == c.(connected := false) && r.1 == []
    ensures result.Fetched? ==>
      && r.0.connected
      && r.0.workers == MergeRecords(c.workers, result.records)
      && |r.1| == |result.records|
      && forall i :: 0 <= i < |result.records| ==>
        var w := result.records[i];
        && ((exists sig :: sig in r.1[i] && sig.AlertToast?) <==> AlertsAreNews(Get(c.workers, w.workerId), w))
        && (FallToast(w.workerId) in r.1[i] <==> FallIsNews(Get(c.workers, w.workerId), w))
    ensures result.Fetched? ==> forall i :: 0 <= i < |result.records| ==>
      r.1[i] == WorkerNotices(Get(c.workers, result.records[i].workerId), result.records[i], granted)
  {
    match result
    case Failed => (c.(connected := false), [])
    case Fetched(data) =>
      var notices := seq(|data|, i requires 0 <= i < |data| => WorkerNotices(Get(c.workers, data[i].workerId), data[i], granted));
      (Client(MergeRecords(c.workers, data), true), notices)
  }

  /** A record list without two different records for the same worker, as
      the server's listing always is. */
  predicate DistinctWorkers(data: seq<WorkerRecord>) {
    forall i, j :: 0 <= i < |data| && 0 <= j < |data| && data[i].workerId == data[j].workerId ==> data[i] == data[j]
  }

  /** After a poll of distinct workers, each polled worker's copy is the polled record. */
  lemma MergeStoresPolled(m: JsMap<Key, WorkerRecord>, data: seq<WorkerRecord>, i: int)
    requires DistinctWorkers(data) && 0 <= i < |data|
    ensures data[i].workerId in MergeRecords(m, data).entries
    ensures MergeRecords(m, data).entries[data[i].workerId] == data[i]
  {
    assert data[i] in data;
    var j := LastOf(data, i);
    MergeLastWins(m, data, j);
  }

  /** The index of the last record of `data` for the worker of `data[i]`. */
  function LastOf(data: seq<WorkerRecord>, i: int): (j: int)
    requires 0 <= i < |data|
    ensures i <= j < |data| && data[j].workerId == data[i].workerId
    ensures forall l :: j < l < |data| ==> data[l].workerId != data[i].workerId
    decreases |data| - i
  {
    if forall l :: i < l < |data| ==> data[l].workerId != data[i].workerId then i
    else
      var l :| i < l < |data| && data[l].workerId == data[i].workerId;
      LastOf(data, l)
  }

  /** Polling the same list twice raises nothing the second time: a
      notification fires once per change, not once per poll. */
  lemma RepeatedPollIsQuiet(c: Client, data: seq<WorkerRecord>, granted: bool)
    requires DistinctWorkers(data)
    ensures var once := Poll(c, Fetched(data), granted).0;
      forall i :: 0 <= i < |data| ==> Poll(once, Fetched(data), granted).1[i] == []
  {
    var once := Poll(c, Fetched(data), granted).0;
    forall i | 0 <= i < |data|
      ensures Poll(once, Fetched(data), granted).1[i] == []
    {
      MergeStoresPolled(c.workers, data, i);
      var before := Get(once.workers, data[i].workerId);
      assert before == Some(data[i]);
      assert !AlertsAreNews(before, data[i]) && !FallIsNews(before, data[i]);
    }
  }
}
