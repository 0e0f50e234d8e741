/** The request and socket handlers of server.js, each one atomic step from a
    state of three maps (`workersData`, `workersInfo`, `phoneConnections`)
    to a new state, a reply to the caller and the events emitted, in order,
    to the `dashboard` room or back to the sending socket. */
module Server {
  import opened Options
  import opened Js
  import opened JsMaps
  import opened Records
  import opened Normalizer
  import opened AlertEngine

  datatype State = State(
    workersData: JsMap<Key, WorkerRecord>,
    workersInfo: JsMap<Key, RegInfo>,
    phoneConnections: map<Key, SocketId>)

  /** The process right after start-up: no live records, no phone links, and
      the registry as loaded from disk. */
  function Boot(registry: JsMap<Key, RegInfo>): State {
    State(Empty(), registry, map[])
  }

  /** What a handler reads from outside the state: the clock (`new Date()`,
      `Date.now()`) and the platform's parser of date strings. */
  datatype Env = Env(now: Time, parseDate: string -> Option<Time>)

  /** A socket.io connection and its handshake query (`type`, `workerId`);
      a missing query parameter is the empty string. */
  datatype Connection = Connection(socketId: SocketId, queryType: string, queryWorkerId: string)

  /** `socket.handshake.query.type || 'dashboard'`. */
  function ClientType(c: Connection): string {
    if c.queryType == "" then "dashboard" else c.queryType
  }

  predicate IsDashboard(c: Connection) {
    ClientType(c) == "dashboard"
  }

  /** A phone connection: type `worker` with a non-empty `workerId`. Only such
      a socket gets the `worker-*` listeners. */
  predicate IsPhone(c: Connection) {
    ClientType(c) == "worker" && c.queryWorkerId != ""
  }

  function PhoneKey(c: Connection): Key {
    Str(c.queryWorkerId)
  }

  datatype Event =
    | SensorUpdate(record: WorkerRecord)
    | LocationUpdate(workerId: Key, latitude: Value, longitude: Value, accuracy: Value, timestamp: Value)
    | PhoneConnected(workerId: Key)
    | PhoneDisconnected(workerId: Key)
    | InitialData(records: seq<WorkerRecord>)
    | LocationReceived

  datatype Audience = DashboardRoom | SenderSocket

  /** `initial-data` and `location-received` go to the socket being served;
      every other event goes to the `dashboard` room. */
  function AudienceOf(e: Event): Audience {
    if e.InitialData? || e.LocationReceived? then SenderSocket else DashboardRoom
  }

  datatype Reply =
    | SensorAccepted(alerts: Option<seq<Alert>>)  // 200 {success, message, alerts}
    | Registered(worker: RegInfo)                 // 200 {success, message, worker}
    | WorkerFound(record: WorkerRecord)           // 200
    | WorkerList(records: seq<WorkerRecord>)      // 200
    | RegistrationList(entries: seq<RegInfo>)     // 200
    | BadRequest                                  // 400 {error}
    | NotFound                                    // 404 {error}
    | InternalError                               // 500: the handler threw and Express answered
    | NoReply                                     // a socket listener returns nothing
    | Raised                                      // a socket listener threw, ending the process (see Crash)

  datatype Step = Step(state: State, reply: Reply, events: seq<Event>)

  /** A socket listener that throws. socket.io runs listeners outside any
      catch, and server.js installs no `uncaughtException` handler, so Node
      ends the process: every live record, registry entry and phone link
      held in memory is gone, and nothing is emitted. */
  function Crash(): Step {
    Step(State(Empty(), Empty(), map[]), Raised, [])
  }

  /** `express.json()` hands a handler either an object or an array. */
  predicate IsJsonBody(v: Value) {
    v.Obj? || v.Arr?
  }

  // ---------------------------------------------------------------------
  // Field rules
  // ---------------------------------------------------------------------

  /** `v || null`. */
  function OrNull(v: Value): Value {
    Or(v, Null)
  }

  /** The stored value is the source when that is truthy, and null otherwise. */
  predicate CopiedOrNull(stored: Value, source: Value) {
    (Truthy(source) ==> stored == source) && (!Truthy(source) ==> stored == Null)
  }

  /** `x > 0 ? x : null`. */
  function PositiveOrNull(x: real): Nullable<real> {
    if x > 0.0 then Present(x) else Nil
  }

  /** `x !== 0 ? x : null`. */
  function NonZeroOrNull(x: real): Nullable<real> {
    if x != 0.0 then Present(x) else Nil
  }

  /** The previous record, or the empty object an unseen worker starts from. */
  function Base(prev: Option<WorkerRecord>, k: Key): WorkerRecord {
    prev.GetOr(Blank(k))
  }

  // ---------------------------------------------------------------------
  // POST /api/sensor-data
  // ---------------------------------------------------------------------

  /** `helmetLastUpdate`: the payload's timestamp when truthy, else now;
      `None` when `new Date(...)` is invalid, where `toISOString` throws. */
  function HelmetTimestamp(rd: Reading, env: Env): Option<Time> {
    if Truthy(rd.timestampRaw) then NewDate(rd.timestampRaw, env.parseDate) else Some(env.now)
  }

  /** The record the helmet path stores, spreading the previous one. */
  function HelmetRecord(prev: Option<WorkerRecord>, info: Option<RegInfo>, id: string, rd: Reading,
                        linked: bool, stamp: Time, now: Time): (r: WorkerRecord)
    // identity is read through from the registry, null when unregistered or falsy there
    ensures r.workerId == Str(id)
    ensures CopiedOrNull(r.name, InfoName(info)) && CopiedOrNull(r.phone, InfoPhone(info))
    ensures CopiedOrNull(r.emergencyPhone, InfoEmergencyPhone(info)) && CopiedOrNull(r.address, InfoAddress(info))
    ensures info.None? ==> r.name == Null && r.phone == Null && r.emergencyPhone == Null && r.address == Null
    // readings: non-positive climate values and exactly-zero axes mean "unknown"
    ensures r.temperature.Present? <==> rd.temperature > 0.0
    ensures r.humidity.Present? <==> rd.humidity > 0.0
    ensures r.gasLevel.Present? <==> rd.gasLevel > 0.0
    ensures r.temperature != Absent && r.humidity != Absent && r.gasLevel != Absent
    ensures r.temperature.Present? ==> r.temperature.value == rd.temperature
    ensures r.humidity.Present? ==> r.humidity.value == rd.humidity
    ensures r.gasLevel.Present? ==> r.gasLevel.value == rd.gasLevel
    ensures (r.accelX == Nil <==> rd.accelX == 0.0) && (r.accelX != Nil ==> r.accelX == Present(rd.accelX))
    ensures (r.accelY == Nil <==> rd.accelY == 0.0) && (r.accelY != Nil ==> r.accelY == Present(rd.accelY))
    ensures (r.accelZ == Nil <==> rd.accelZ == 0.0) && (r.accelZ != Nil ==> r.accelZ == Present(rd.accelZ))
    ensures r.fallDetected == Some(rd.fallDetected) && r.mpuStatus == Some(rd.mpuStatus)
    // location comes from the phone path: kept, with falsy values turned to null
    ensures CopiedOrNull(r.latitude, Base(prev, r.workerId).latitude)
    ensures CopiedOrNull(r.longitude, Base(prev, r.workerId).longitude)
    ensures CopiedOrNull(r.gpsAccuracy, Base(prev, r.workerId).gpsAccuracy)
    ensures CopiedOrNull(r.gpsSource, Base(prev, r.workerId).gpsSource)
    // connectivity
    ensures r.helmetConnected == Some(true) && r.helmetLastUpdate == Some(stamp)
    ensures r.phoneConnected == linked
    ensures r.phoneLastUpdate == Base(prev, r.workerId).phoneLastUpdate
    ensures r.phoneLastHeartbeat == Base(prev, r.workerId).phoneLastHeartbeat
    ensures r.lastUpdate == now
    // alerts and status are rebuilt from this reading alone
    ensures r.alerts == Some(Derive(rd.temperature, rd.gasLevel, rd.fallDetected).alerts)
    ensures r.status == Some(Derive(rd.temperature, rd.gasLevel, rd.fallDetected).status)
    ensures Coherent(r)
  {
    var base := Base(prev, Str(id));
    var verdict := Derive(rd.temperature, rd.gasLevel, rd.fallDetected);
    base.(
      workerId := Str(id),
      name := OrNull(InfoName(info)),
      phone := OrNull(InfoPhone(info)),
      emergencyPhone := OrNull(InfoEmergencyPhone(info)),
      address := OrNull(InfoAddress(info)),
      temperature := PositiveOrNull(rd.temperature),
      humidity := PositiveOrNull(rd.humidity),
      gasLevel := PositiveOrNull(rd.gasLevel),
      accelX := NonZeroOrNull(rd.accelX),
      accelY := NonZeroOrNull(rd.accelY),
      accelZ := NonZeroOrNull(rd.accelZ),
      fallDetected := Some(rd.fallDetected),
      mpuStatus := Some(rd.mpuStatus),
      helmetConnected := Some(true),
      helmetLastUpdate := Some(stamp),
      latitude := OrNull(base.latitude),
      longitude := OrNull(base.longitude),
      gpsAccuracy := OrNull(base.gpsAccuracy),
      gpsSource := OrNull(base.gpsSource),
      phoneConnected := linked,
      status := Some(verdict.status),
      lastUpdate := now,
      alerts := Some(verdict.alerts))
  }

  /** `alerts.length > 0 ? alerts : null`. */
  function AlertsOrNull(alerts: seq<Alert>): (r: Option<seq<Alert>>)
    ensures r.None? <==> |alerts| == 0
    ensures r.Some? ==> r.value == alerts
  {
    if |alerts| > 0 then Some(alerts) else None
  }

  /** `POST /api/sensor-data`. An invalid timestamp throws (before the
      identifier is even checked) and a missing identifier is a 400; neither
      changes anything. Otherwise the merged record for `String(id)` is
      stored, broadcast once, and its alerts returned (null when none). */
  function PostSensorData(s: State, body: Value, env: Env): (r: Step)
    requires IsJsonBody(body)
    ensures HelmetTimestamp(Normalize(body), env).None? ==> r == Step(s, InternalError, [])
    ensures HelmetTimestamp(Normalize(body), env).Some? && !Truthy(Normalize(body).workerId) ==> r == Step(s, BadRequest, [])
    ensures r.reply.SensorAccepted? <==> HelmetTimestamp(Normalize(body), env).Some? && Truthy(Normalize(body).workerId)
    ensures r.reply.SensorAccepted? || r.reply.BadRequest? || r.reply.InternalError?
    ensures r.reply.SensorAccepted? ==>
      var rd := Normalize(body);
      var k := rd.workerId;
      && k.Str? && k.s != ""
      && k in r.state.workersData.entries
      && var rec := r.state.workersData.entries[k];
      && rec == HelmetRecord(Get(s.workersData, k), Get(s.workersInfo, k), k.s, rd,
                             k in s.phoneConnections, HelmetTimestamp(rd, env).value, env.now)
      && r.state == s.(workersData := Set(s.workersData, k, rec))
      && r.events == [SensorUpdate(rec)]
      && r.reply.alerts == AlertsOrNull(rec.alerts.value)
  {
    var rd := Normalize(body);
    var stamp := HelmetTimestamp(rd, env);
    if stamp.None? then Step(s, InternalError, [])
    else if !Truthy(rd.workerId) then Step(s, BadRequest, [])
    else
      var k := rd.workerId;
      var rec := HelmetRecord(Get(s.workersData, k), Get(s.workersInfo, k), k.s, rd,
                              k in s.phoneConnections, stamp.value, env.now);
      Step(s.(workersData := Set(s.workersData, k, rec)), SensorAccepted(AlertsOrNull(rec.alerts.value)), [SensorUpdate(rec)])
  }

  // ---------------------------------------------------------------------
  // GET /api/workers, GET /api/worker/:workerId, GET /api/workers/info
  // ---------------------------------------------------------------------

  /** `GET /api/workers`: every record, in first-seen order; nothing changes. */
  function ListWorkers(s: State): (r: Step)
    ensures r.state == s && r.events == []
    ensures r.reply.WorkerList? && |r.reply.records| == |s.workersData.order|
    ensures forall i :: 0 <= i < |s.workersData.order| ==> r.reply.records[i] == s.workersData.entries[s.workersData.order[i]]
  {
    Step(s, WorkerList(Values(s.workersData)), [])
  }

  /** `GET /api/worker/:workerId`: the record stored under the path string, or 404. */
  function GetWorker(s: State, id: string): (r: Step)
    ensures r.state == s && r.events == []
    ensures Str(id) in s.workersData.entries ==> r.reply == WorkerFound(s.workersData.entries[Str(id)])
    ensures Str(id) !in s.workersData.entries ==> r.reply == NotFound
  {
    match Get(s.workersData, Str(id))
    case Some(rec) => Step(s, WorkerFound(rec), [])
    case None => Step(s, NotFound, [])
  }

  /** `GET /api/workers/info`: every registration, in first-registered order. */
  function ListRegistrations(s: State): (r: Step)
    ensures r.state == s && r.events == []
    ensures r.reply.RegistrationList? && |r.reply.entries| == |s.workersInfo.order|
    ensures forall i :: 0 <= i < |r.reply.entries| ==> r.reply.entries[i] == s.workersInfo.entries[s.workersInfo.order[i]]
  {
    Step(s, RegistrationList(Values(s.workersInfo)), [])
  }

  // ---------------------------------------------------------------------
  // POST /api/worker/register
  // ---------------------------------------------------------------------

  /** `POST /api/worker/register`. A falsy `workerId` or `name` is a 400 that
      changes nothing. Otherwise the registry entry for the raw `workerId` is
      overwritten (optional contact fields default to null) and no live
      record is touched: a record picks the identity up on its next merge. */
  function PostRegister(s: State, body: Value, env: Env): (r: Step)
    requires IsJsonBody(body)
    ensures !Truthy(Prop(body, "workerId")) || !Truthy(Prop(body, "name")) ==> r == Step(s, BadRequest, [])
    ensures r.reply.Registered? <==> Truthy(Prop(body, "workerId")) && Truthy(Prop(body, "name"))
    ensures r.reply.Registered? || r.reply.BadRequest?
    ensures r.reply.Registered? ==>
      && r.reply.worker.workerId == Prop(body, "workerId")
      && r.reply.worker.name == Prop(body, "name")
      && CopiedOrNull(r.reply.worker.phone, Prop(body, "phone"))
      && CopiedOrNull(r.reply.worker.emergencyPhone, Prop(body, "emergencyPhone"))
      && CopiedOrNull(r.reply.worker.address, Prop(body, "address"))
      && r.reply.worker.registeredAt == env.now
      && r.state == s.(workersInfo := Set(s.workersInfo, Prop(body, "workerId"), r.reply.worker))
      && r.events == []
  {
    var id := Prop(body, "workerId");
    var name := Prop(body, "name");
    if !Truthy(id) || !Truthy(name) then Step(s, BadRequest, [])
    else
      var info := RegInfo(id, name, OrNull(Prop(body, "phone")), OrNull(Prop(body, "emergencyPhone")),
                          OrNull(Prop(body, "address")), env.now);
      Step(s.(workersInfo := Set(s.workersInfo, id, info)), Registered(info), [])
  }

  // ---------------------------------------------------------------------
  // Socket connection
  // ---------------------------------------------------------------------

  /** `io.on('connection')`: a dashboard joins the room and is sent every
      record; a phone is linked under its `workerId` and announced to the
      dashboard; any other connection changes nothing. */
  function Connect(s: State, c: Connection): (r: Step)
    ensures IsDashboard(c) ==> r.state == s && r.events == [InitialData(Values(s.workersData))]
    ensures IsPhone(c) ==>
      && r.state == s.(phoneConnections := s.phoneConnections[PhoneKey(c) := c.socketId])
      && r.events == [PhoneConnected(PhoneKey(c))]
    ensures !IsDashboard(c) && !IsPhone(c) ==> r.state == s && r.events == []
    ensures r.state.workersData == s.workersData && r.state.workersInfo == s.workersInfo
  {
    if IsDashboard(c) then Step(s, NoReply, [InitialData(Values(s.workersData))])
    else if IsPhone(c) then
      Step(s.(phoneConnections := s.phoneConnections[PhoneKey(c) := c.socketId]), NoReply, [PhoneConnected(PhoneKey(c))])
    else Step(s, NoReply, [])
  }

  // ---------------------------------------------------------------------
  // worker-register
  // ---------------------------------------------------------------------

  /** `data` is destructured; `null` and `undefined` make that throw. */
  predicate Destructurable(data: Value) {
    !data.Undefined? && !data.Null?
  }

  /** The record `worker-register` stores: identity as sent, the phone marked
      connected, everything else (readings, location, alerts, status) kept. */
  function RegisterRecord(prev: Option<WorkerRecord>, data: Value, now: Time): (r: WorkerRecord)
    ensures r.workerId == Prop(data, "workerId")
    ensures r.name == Prop(data, "name") && r.phone == Prop(data, "phone")
    ensures r.emergencyPhone == Prop(data, "emergencyPhone") && r.address == Prop(data, "address")
    ensures r.phoneConnected && r.lastUpdate == now
    ensures var b := Base(prev, r.workerId);
      r == b.(workerId := r.workerId, name := r.name, phone := r.phone, emergencyPhone := r.emergencyPhone,
              address := r.address, phoneConnected := true, lastUpdate := now)
  {
    var k := Prop(data, "workerId");
    Base(prev, k).(
      workerId := k,
      name := Prop(data, "name"),
      phone := Prop(data, "phone"),
      emergencyPhone := Prop(data, "emergencyPhone"),
      address := Prop(data, "address"),
      phoneConnected := true,
      lastUpdate := now)
  }

  /** `worker-register`: the registry entry for `data.workerId` (not the
      connection's own id) is overwritten with the raw values, and the live
      record under that key takes them over, keeping its alerts and status.
      A message that cannot be destructured throws and ends the process. */
  function WorkerRegister(s: State, data: Value, env: Env): (r: Step)
    ensures !Destructurable(data) ==> r == Crash()
    ensures Destructurable(data) ==>
      var k := Prop(data, "workerId");
      var info := RegInfo(k, Prop(data, "name"), Prop(data, "phone"), Prop(data, "emergencyPhone"),
                          Prop(data, "address"), env.now);
      var rec := RegisterRecord(Get(s.workersData, k), data, env.now);
      && r.state == State(Set(s.workersData, k, rec), Set(s.workersInfo, k, info), s.phoneConnections)
      && r.events == [SensorUpdate(rec)]
      && r.reply == NoReply
  {
    if !Destructurable(data) then Crash()
    else
      var k := Prop(data, "workerId");
      var info := RegInfo(k, Prop(data, "name"), Prop(data, "phone"), Prop(data, "emergencyPhone"),
                          Prop(data, "address"), env.now);
      var rec := RegisterRecord(Get(s.workersData, k), data, env.now);
      Step(State(Set(s.workersData, k, rec), Set(s.workersInfo, k, info), s.phoneConnections), NoReply, [SensorUpdate(rec)])
  }

  // ---------------------------------------------------------------------
  // worker-location
  // ---------------------------------------------------------------------

  /** The record `worker-location` stores: position from the message,
      identity preferring the registry over the previous record, the phone
      marked connected, and the helmet side (readings, alerts, status) kept. */
  function LocationRecord(prev: Option<WorkerRecord>, info: Option<RegInfo>, k: Key, data: Value,
                          sent: Time, now: Time): (r: WorkerRecord)
    ensures r.workerId == k
    ensures Truthy(InfoName(info)) ==> r.name == InfoName(info)
    ensures !Truthy(InfoName(info)) ==> r.name == Base(prev, k).name
    ensures Truthy(InfoPhone(info)) ==> r.phone == InfoPhone(info)
    ensures !Truthy(InfoPhone(info)) ==> r.phone == Base(prev, k).phone
    ensures Truthy(InfoEmergencyPhone(info)) ==> r.emergencyPhone == InfoEmergencyPhone(info)
    ensures !Truthy(InfoEmergencyPhone(info)) ==> r.emergencyPhone == Base(prev, k).emergencyPhone
    ensures Truthy(InfoAddress(info)) ==> r.address == InfoAddress(info)
    ensures !Truthy(InfoAddress(info)) ==> r.address == Base(prev, k).address
    ensures r.latitude == Prop(data, "latitude") && r.longitude == Prop(data, "longitude")
    ensures r.gpsAccuracy == Prop(data, "accuracy")
    ensures Truthy(Prop(data, "source")) ==> r.gpsSource == Prop(data, "source")
    ensures !Truthy(Prop(data, "source")) ==> r.gpsSource == Str("phone-gps")
    ensures r.phoneConnected && r.phoneLastUpdate == Some(sent) && r.lastUpdate == now
    ensures var b := Base(prev, k);
      && r.temperature == b.temperature && r.humidity == b.humidity && r.gasLevel == b.gasLevel
      && r.accelX == b.accelX && r.accelY == b.accelY && r.accelZ == b.accelZ
      && r.fallDetected == b.fallDetected && r.mpuStatus == b.mpuStatus
      && r.helmetConnected == b.helmetConnected && r.helmetLastUpdate == b.helmetLastUpdate
      && r.phoneLastHeartbeat == b.phoneLastHeartbeat
      && r.status == b.status && r.alerts == b.alerts
  {
    var base := Base(prev, k);
    base.(
      workerId := k,
      name := Or(InfoName(info), base.name),
      phone := Or(InfoPhone(info), base.phone),
      emergencyPhone := Or(InfoEmergencyPhone(info), base.emergencyPhone),
      address := Or(InfoAddress(info), base.address),
      latitude := Prop(data, "latitude"),
      longitude := Prop(data, "longitude"),
      gpsAccuracy := Prop(data, "accuracy"),
      gpsSource := Or(Prop(data, "source"), Str("phone-gps")),
      phoneConnected := true,
      phoneLastUpdate := Some(sent),
      lastUpdate := now)
  }

  /** `worker-location`. A message that cannot be destructured, or whose
      `timestamp` is missing or not a valid date, throws and ends the process.
      Otherwise the merged record is stored and the dashboard gets a
      `location-update` then a `sensor-update`, and the phone an ack. */
  function WorkerLocation(s: State, c: Connection, data: Value, env: Env): (r: Step)
    requires IsPhone(c)
    ensures !Destructurable(data) || NewDate(Prop(data, "timestamp"), env.parseDate).None? ==> r == Crash()
    ensures Destructurable(data) && NewDate(Prop(data, "timestamp"), env.parseDate).Some? ==>
      var k := PhoneKey(c);
      var rec := LocationRecord(Get(s.workersData, k), Get(s.workersInfo, k), k, data,
                                NewDate(Prop(data, "timestamp"), env.parseDate).value, env.now);
      && r.state == s.(workersData := Set(s.workersData, k, rec))
      && r.events == [LocationUpdate(k, Prop(data, "latitude"), Prop(data, "longitude"), Prop(data, "accuracy"), Prop(data, "timestamp")),
                      SensorUpdate(rec),
                      LocationReceived]
      && r.reply == NoReply
  {
    if !Destructurable(data) then Crash()
    else
      match NewDate(Prop(data, "timestamp"), env.parseDate)
      case None => Crash()
      case Some(sent) =>
        var k := PhoneKey(c);
        var rec := LocationRecord(Get(s.workersData, k), Get(s.workersInfo, k), k, data, sent, env.now);
        Step(s.(workersData := Set(s.workersData, k, rec)), NoReply,
             [LocationUpdate(k, Prop(data, "latitude"), Prop(data, "longitude"), Prop(data, "accuracy"), Prop(data, "timestamp")),
              SensorUpdate(rec),
              LocationReceived])
  }

  // ---------------------------------------------------------------------
  // worker-heartbeat
  // ---------------------------------------------------------------------

  /** `worker-heartbeat`: re-links the phone to this socket and, only when a
      record already exists, marks it connected with the heartbeat time.
      It never creates a record and emits nothing. */
  function WorkerHeartbeat(s: State, c: Connection, env: Env): (r: Step)
    requires IsPhone(c)
    ensures r.state.phoneConnections == s.phoneConnections[PhoneKey(c) := c.socketId]
    ensures r.state.workersInfo == s.workersInfo
    ensures r.state.workersData.order == s.workersData.order
    ensures r.state.workersData.entries.Keys == s.workersData.entries.Keys
    ensures PhoneKey(c) in s.workersData.entries ==>
      r.state.workersData.entries == s.workersData.entries[PhoneKey(c) :=
        s.workersData.entries[PhoneKey(c)].(phoneConnected := true, phoneLastHeartbeat := Some(env.now))]
    ensures PhoneKey(c) !in s.workersData.entries ==> r.state.workersData == s.workersData
    ensures r.events == [] && r.reply == NoReply
  {
    var k := PhoneKey(c);
    var links := s.phoneConnections[k := c.socketId];
    match Get(s.workersData, k)
    case None => Step(s.(phoneConnections := links), NoReply, [])
    case Some(rec) =>
      var rec' := rec.(phoneConnected := true, phoneLastHeartbeat := Some(env.now));
      Step(State(Set(s.workersData, k, rec'), s.workersInfo, links), NoReply, [])
  }

  // ---------------------------------------------------------------------
  // worker-disconnect and disconnect
  // ---------------------------------------------------------------------

  /** The body shared by both disconnect paths: the phone link is removed,
      an existing record is marked disconnected and re-broadcast, and
      `phone-disconnected` is always announced. No record is created. */
  function DropPhone(s: State, k: Key): (r: Step)
    ensures r.state.phoneConnections == s.phoneConnections - {k}
    ensures r.state.workersInfo == s.workersInfo
    ensures r.state.workersData.order == s.workersData.order
    ensures r.state.workersData.entries.Keys == s.workersData.entries.Keys
    ensures k in s.workersData.entries ==>
      var rec := s.workersData.entries[k].(phoneConnected := false);
      && r.state.workersData.entries == s.workersData.entries[k := rec]
      && r.events == [SensorUpdate(rec), PhoneDisconnected(k)]
    ensures k !in s.workersData.entries ==>
      r.state.workersData == s.workersData && r.events == [PhoneDisconnected(k)]
    ensures r.reply == NoReply
  {
    var links := s.phoneConnections - {k};
    match Get(s.workersData, k)
    case None => Step(s.(phoneConnections := links), NoReply, [PhoneDisconnected(k)])
    case Some(rec) =>
      var rec' := rec.(phoneConnected := false);
      Step(State(Set(s.workersData, k, rec'), s.workersInfo, links), NoReply, [SensorUpdate(rec'), PhoneDisconnected(k)])
  }

  /** `worker-disconnect`, sent by the phone itself. */
  function WorkerDisconnect(s: State, c: Connection): (r: Step)
    requires IsPhone(c)
    ensures PhoneKey(c) !in r.state.phoneConnections
    ensures r.state.workersData.entries.Keys == s.workersData.entries.Keys
    ensures |r.events| > 0 && r.events[|r.events| - 1] == PhoneDisconnected(PhoneKey(c))
    ensures r == DropPhone(s, PhoneKey(c))
  {
    DropPhone(s, PhoneKey(c))
  }

  /** `disconnect`, raised by the transport for every socket: only a phone
      connection has anything to undo. */
  function TransportDisconnect(s: State, c: Connection): (r: Step)
    ensures !IsPhone(c) ==> r == Step(s, NoReply, [])
    ensures IsPhone(c) ==> r == DropPhone(s, PhoneKey(c))
  {
    if IsPhone(c) then DropPhone(s, PhoneKey(c)) else Step(s, NoReply, [])
  }
}
