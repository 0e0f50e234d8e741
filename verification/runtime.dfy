/** The server as one state machine: every HTTP request, socket message and
    sweep is an input, handled atomically (Node runs one handler at a time).
    This module states what holds across all of them. */
module Runtime {
  import opened Options
  import opened Js
  import opened JsMaps
  import opened Records
  import opened Normalizer
  import opened Server
  import opened Liveness

  datatype Input =
    | PostSensor(body: Value)                  // POST /api/sensor-data
    | PostRegistration(body: Value)            // POST /api/worker/register
    | GetOne(id: string)                       // GET /api/worker/:workerId
    | GetAll                                   // GET /api/workers
    | GetRegistry                              // GET /api/workers/info
    | Join(c: Connection)                      // connection
    | PhoneRegister(c: Connection, data: Value) // worker-register
    | PhoneLocation(c: Connection, data: Value) // worker-location
    | PhoneHeartbeat(c: Connection)            // worker-heartbeat
    | PhoneLeave(c: Connection)                // worker-disconnect
    | Closed(c: Connection)                    // disconnect
    | Tick                                     // the 30 s liveness sweep

  /** Routes an input to its handler. A body that is not a JSON object or
      array is turned away by the JSON parser with a 400 before any handler
      runs; a `worker-*` message on a socket that is not a phone connection
      has no listener and is ignored. */
  function Apply(s: State, i: Input, env: Env): Step {
    match i
    case PostSensor(body) => if IsJsonBody(body) then PostSensorData(s, body, env) else Step(s, BadRequest, [])
    case PostRegistration(body) => if IsJsonBody(body) then PostRegister(s, body, env) else Step(s, BadRequest, [])
    case GetOne(id) => GetWorker(s, id)
    case GetAll => ListWorkers(s)
    case GetRegistry => ListRegistrations(s)
    case Join(c) => Connect(s, c)
    case PhoneRegister(c, data) => if IsPhone(c) then WorkerRegister(s, data, env) else Step(s, NoReply, [])
    case PhoneLocation(c, data) => if IsPhone(c) then WorkerLocation(s, c, data, env) else Step(s, NoReply, [])
    case PhoneHeartbeat(c) => if IsPhone(c) then WorkerHeartbeat(s, c, env) else Step(s, NoReply, [])
    case PhoneLeave(c) => if IsPhone(c) then WorkerDisconnect(s, c) else Step(s, NoReply, [])
    case Closed(c) => TransportDisconnect(s, c)
    case Tick => Sweep(s, env.now)
  }

  /** A record as every handler leaves it: stored under its own `workerId`,
      status and alerts coherent, and `helmetConnected` never false. */
  predicate StoredRecord(k: Key, rec: WorkerRecord) {
    rec.workerId == k && Coherent(rec) && rec.helmetConnected != Some(false)
  }

  /** The store invariant. */
  predicate Consistent(s: State) {
    && (forall k :: k in s.workersData.entries ==> StoredRecord(k, s.workersData.entries[k]))
    && (forall k :: k in s.workersInfo.entries ==> s.workersInfo.entries[k].workerId == k)
  }

  /** The registry file is loaded by keying each entry by its own `workerId`,
      so a freshly started server is consistent. */
  lemma BootIsConsistent(registry: JsMap<Key, RegInfo>)
    requires forall k :: k in registry.entries ==> registry.entries[k].workerId == k
    ensures Consistent(Boot(registry))
  {
  }

  /** A record that only phone fields (or identity) touched is still stored
      consistently when its alerts, status, fall flag and helmet flag are
      those of a consistent record or of the empty object. */
  lemma BaseIsStored(s: State, k: Key)
    requires Consistent(s)
    ensures var b := Base(Get(s.workersData, k), k);
      Coherent(b) && b.helmetConnected != Some(false)
  {
  }

  /** Storing one record that is itself stored consistently, leaving the
      registry alone, keeps the store invariant. */
  lemma UpdateKeepsConsistency(s: State, t: State, k: Key, rec: WorkerRecord)
    requires Consistent(s) && StoredRecord(k, rec)
    requires t.workersData.entries == s.workersData.entries[k := rec] && t.workersInfo == s.workersInfo
    ensures Consistent(t)
  {
  }

  lemma HelmetPostKeepsConsistency(s: State, body: Value, env: Env)
    requires Consistent(s) && IsJsonBody(body)
    ensures Consistent(PostSensorData(s, body, env).state)
  {
    var r := PostSensorData(s, body, env);
    if r.reply.SensorAccepted? {
      var k := Normalize(body).workerId;
      UpdateKeepsConsistency(s, r.state, k, r.state.workersData.entries[k]);
    }
  }

  lemma RegistrationKeepsConsistency(s: State, body: Value, env: Env)
    requires Consistent(s) && IsJsonBody(body)
    ensures Consistent(PostRegister(s, body, env).state)
  {
  }

  lemma PhoneRegisterKeepsConsistency(s: State, data: Value, env: Env)
    requires Consistent(s)
    ensures Consistent(WorkerRegister(s, data, env).state)
  {
    if Destructurable(data) {
      var k := Prop(data, "workerId");
      BaseIsStored(s, k);
      var r := WorkerRegister(s, data, env);
      PhoneRegisterKeepsRegistryKeyed(s, data, env);
      assert StoredRecord(k, r.state.workersData.entries[k]);
      UpdateKeepsConsistency(s, r.state.(workersInfo := s.workersInfo), k, r.state.workersData.entries[k]);
    }
  }

  /** A socket registration files its registry entry under the `workerId` it carries. */
  lemma PhoneRegisterKeepsRegistryKeyed(s: State, data: Value, env: Env)
    requires Consistent(s)
    ensures var info := WorkerRegister(s, data, env).state.workersInfo;
      forall j :: j in info.entries ==> info.entries[j].workerId == j
  {
    if Destructurable(data) {
      var k := Prop(data, "workerId");
      var info := WorkerRegister(s, data, env).state.workersInfo;
      assert info.entries == s.workersInfo.entries[k := info.entries[k]];
    }
  }

  lemma LocationKeepsConsistency(s: State, c: Connection, data: Value, env: Env)
    requires Consistent(s) && IsPhone(c)
    ensures Consistent(WorkerLocation(s, c, data, env).state)
  {
    var r := WorkerLocation(s, c, data, env);
    if !r.reply.Raised? {
      var k := PhoneKey(c);
      BaseIsStored(s, k);
      UpdateKeepsConsistency(s, r.state, k, r.state.workersData.entries[k]);
    }
  }

  lemma HeartbeatKeepsConsistency(s: State, c: Connection, env: Env)
    requires Consistent(s) && IsPhone(c)
    ensures Consistent(WorkerHeartbeat(s, c, env).state)
  {
    var k := PhoneKey(c);
    var r := WorkerHeartbeat(s, c, env);
    if k in s.workersData.entries {
      assert StoredRecord(k, s.workersData.entries[k]);
      UpdateKeepsConsistency(s, r.state, k, r.state.workersData.entries[k]);
    }
  }

  lemma DropPhoneKeepsConsistency(s: State, k: Key)
    requires Consistent(s)
    ensures Consistent(DropPhone(s, k).state)
  {
    if k in s.workersData.entries {
      assert StoredRecord(k, s.workersData.entries[k]);
      UpdateKeepsConsistency(s, DropPhone(s, k).state, k, s.workersData.entries[k].(phoneConnected := false));
    }
  }

  lemma SweepKeepsConsistency(s: State, now: Time)
    requires Consistent(s)
    ensures Consistent(Sweep(s, now).state)
  {
    var r := Sweep(s, now);
    forall k | k in r.state.workersData.entries
      ensures StoredRecord(k, r.state.workersData.entries[k])
    {
      assert StoredRecord(k, s.workersData.entries[k]);
    }
  }

  /** Every step keeps the store consistent. */
  lemma ApplyPreservesConsistency(s: State, i: Input, env: Env)
    requires Consistent(s)
    ensures Consistent(Apply(s, i, env).state)
  {
    match i {
      case PostSensor(body) => PostSensorKeepsConsistency(s, body, env);
      case PostRegistration(body) => PostRegistrationKeepsConsistency(s, body, env);
      case PhoneRegister(c, data) => PhoneRegisterInputKeepsConsistency(s, c, data, env);
      case PhoneLocation(c, data) => PhoneLocationKeepsConsistency(s, c, data, env);
      case PhoneHeartbeat(c) => PhoneHeartbeatKeepsConsistency(s, c, env);
      case PhoneLeave(c) => PhoneLeaveKeepsConsistency(s, c, env);
      case Closed(c) => ClosedKeepsConsistency(s, c, env);
      case Tick => SweepKeepsConsistency(s, env.now);
      case GetOne(id) =>
      case GetAll =>
      case GetRegistry =>
      case Join(c) =>
    }
  }

  lemma PostSensorKeepsConsistency(s: State, body: Value, env: Env)
    requires Consistent(s)
    ensures Consistent(Apply(s, PostSensor(body), env).state)
  {
    if IsJsonBody(body) {
      HelmetPostKeepsConsistency(s, body, env);
    }
  }

  lemma PostRegistrationKeepsConsistency(s: State, body: Value, env: Env)
    requires Consistent(s)
    ensures Consistent(Apply(s, PostRegistration(body), env).state)
  {
    if IsJsonBody(body) {
      RegistrationKeepsConsistency(s, body, env);
    }
  }

  lemma PhoneRegisterInputKeepsConsistency(s: State, c: Connection, data: Value, env: Env)
    requires Consistent(s)
    ensures Consistent(Apply(s, PhoneRegister(c, data), env).state)
  {
    if IsPhone(c) {
      PhoneRegisterKeepsConsistency(s, data, env);
    }
  }

  lemma PhoneLocationKeepsConsistency(s: State, c: Connection, data: Value, env: Env)
    requires Consistent(s)
    ensures Consistent(Apply(s, PhoneLocation(c, data), env).state)
  {
    if IsPhone(c) {
      LocationKeepsConsistency(s, c, data, env);
    }
  }

  lemma PhoneHeartbeatKeepsConsistency(s: State, c: Connection, env: Env)
    requires Consistent(s)
    ensures Consistent(Apply(s, PhoneHeartbeat(c), env).state)
  {
    if IsPhone(c) {
      HeartbeatKeepsConsistency(s, c, env);
    }
  }

  lemma PhoneLeaveKeepsConsistency(s: State, c: Connection, env: Env)
    requires Consistent(s)
    ensures Consistent(Apply(s, PhoneLeave(c), env).state)
  {
    if IsPhone(c) {
      assert WorkerDisconnect(s, c) == DropPhone(s, PhoneKey(c));
      DropPhoneKeepsConsistency(s, PhoneKey(c));
    }
  }

  lemma ClosedKeepsConsistency(s: State, c: Connection, env: Env)
    requires Consistent(s)
    ensures Consistent(Apply(s, Closed(c), env).state)
  {
    if IsPhone(c) {
      DropPhoneKeepsConsistency(s, PhoneKey(c));
    }
  }

  /** A `sensor-update` that carries the record stored under its worker's id. */
  predicate Mirrored(r: Step, rec: WorkerRecord) {
    rec.workerId in r.state.workersData.entries && r.state.workersData.entries[rec.workerId] == rec
  }

  lemma SweepBroadcastsMatchStore(s: State, now: Time)
    requires Consistent(s)
    ensures forall rec :: SensorUpdate(rec) in Sweep(s, now).events ==> Mirrored(Sweep(s, now), rec)
  {
    var r := Sweep(s, now);
    forall rec | SensorUpdate(rec) in r.events
      ensures Mirrored(r, rec)
    {
      var k :| k in s.workersData.entries && Stale(s.workersData.entries[k], now) && rec == r.state.workersData.entries[k];
      assert StoredRecord(k, s.workersData.entries[k]);
    }
  }

  lemma DropPhoneBroadcastsMatchStore(s: State, k: Key)
    requires Consistent(s)
    ensures forall rec :: SensorUpdate(rec) in DropPhone(s, k).events ==> Mirrored(DropPhone(s, k), rec)
  {
    if k in s.workersData.entries {
      assert StoredRecord(k, s.workersData.entries[k]);
    }
  }

  lemma HelmetPostBroadcastMatchesStore(s: State, body: Value, env: Env)
    requires IsJsonBody(body)
    ensures forall rec :: SensorUpdate(rec) in PostSensorData(s, body, env).events ==> Mirrored(PostSensorData(s, body, env), rec)
  {
  }

  lemma PhoneRegisterBroadcastMatchesStore(s: State, data: Value, env: Env)
    ensures forall rec :: SensorUpdate(rec) in WorkerRegister(s, data, env).events ==> Mirrored(WorkerRegister(s, data, env), rec)
  {
  }

  lemma LocationBroadcastMatchesStore(s: State, c: Connection, data: Value, env: Env)
    requires IsPhone(c)
    ensures forall rec :: SensorUpdate(rec) in WorkerLocation(s, c, data, env).events ==> Mirrored(WorkerLocation(s, c, data, env), rec)
  {
  }

  /** Every `sensor-update` a step emits carries exactly the record that step
      leaves stored under that worker's id, so the dashboard's copy matches
      the server's. */
  lemma BroadcastsMatchStore(s: State, i: Input, env: Env)
    requires Consistent(s)
    ensures forall rec :: SensorUpdate(rec) in Apply(s, i, env).events ==> Mirrored(Apply(s, i, env), rec)
  {
    match i {
      case PostSensor(body) => PostSensorBroadcasts(s, body, env);
      case PostRegistration(body) =>
      case GetOne(id) =>
      case GetAll =>
      case GetRegistry =>
      case Join(c) =>
      case PhoneRegister(c, data) => PhoneRegisterBroadcasts(s, c, data, env);
      case PhoneLocation(c, data) => PhoneLocationBroadcasts(s, c, data, env);
      case PhoneHeartbeat(c) =>
      case PhoneLeave(c) => PhoneLeaveBroadcasts(s, c, env);
      case Closed(c) => ClosedBroadcasts(s, c, env);
      case Tick => SweepBroadcastsMatchStore(s, env.now);
    }
  }

  lemma PostSensorBroadcasts(s: State, body: Value, env: Env)
    ensures var r := Apply(s, PostSensor(body), env);
      forall rec :: SensorUpdate(rec) in r.events ==> Mirrored(r, rec)
  {
    if IsJsonBody(body) {
      HelmetPostBroadcastMatchesStore(s, body, env);
    }
  }

  lemma PhoneRegisterBroadcasts(s: State, c: Connection, data: Value, env: Env)
    ensures var r := Apply(s, PhoneRegister(c, data), env);
      forall rec :: SensorUpdate(rec) in r.events ==> Mirrored(r, rec)
  {
    if IsPhone(c) {
      PhoneRegisterBroadcastMatchesStore(s, data, env);
    }
  }

  lemma PhoneLocationBroadcasts(s: State, c: Connection, data: Value, env: Env)
    ensures var r := Apply(s, PhoneLocation(c, data), env);
      forall rec :: SensorUpdate(rec) in r.events ==> Mirrored(r, rec)
  {
    if IsPhone(c) {
      LocationBroadcastMatchesStore(s, c, data, env);
    }
  }

  lemma PhoneLeaveBroadcasts(s: State, c: Connection, env: Env)
    requires Consistent(s)
    ensures var r := Apply(s, PhoneLeave(c), env);
      forall rec :: SensorUpdate(rec) in r.events ==> Mirrored(r, rec)
  {
    if IsPhone(c) {
      assert WorkerDisconnect(s, c) == DropPhone(s, PhoneKey(c));
      DropPhoneBroadcastsMatchStore(s, PhoneKey(c));
    }
  }

  lemma ClosedBroadcasts(s: State, c: Connection, env: Env)
    requires Consistent(s)
    ensures var r := Apply(s, Closed(c), env);
      forall rec :: SensorUpdate(rec) in r.events ==> Mirrored(r, rec)
  {
    if IsPhone(c) {
      DropPhoneBroadcastsMatchStore(s, PhoneKey(c));
    }
  }

  /** The worker a non-sweep input can change, if any: the helmet id, the
      `workerId` a registration names, or the phone's own id. */
  function Target(i: Input): Option<Key> {
    match i
    case PostSensor(body) => Some(Normalize(body).workerId)
    case PhoneRegister(_, data) => Some(Prop(data, "workerId"))
    case PhoneLocation(c, _) => Some(PhoneKey(c))
    case PhoneHeartbeat(c) => Some(PhoneKey(c))
    case PhoneLeave(c) => Some(PhoneKey(c))
    case Closed(c) => Some(PhoneKey(c))
    case _ => None
  }

  /** `j`'s record is present in `t` exactly when it is in `s`, and is the same. */
  predicate Untouched(s: State, t: State, j: Key) {
    (j in t.workersData.entries <==> j in s.workersData.entries)
    && (j in t.workersData.entries ==> t.workersData.entries[j] == s.workersData.entries[j])
  }

  lemma HelmetPostIsolated(s: State, body: Value, env: Env, j: Key)
    requires IsJsonBody(body) && j != Normalize(body).workerId
    ensures Untouched(s, PostSensorData(s, body, env).state, j)
  {
  }

  lemma PhoneRegisterIsolated(s: State, data: Value, env: Env, j: Key)
    requires j != Prop(data, "workerId")
    ensures WorkerRegister(s, data, env).reply.Raised? || Untouched(s, WorkerRegister(s, data, env).state, j)
  {
  }

  lemma LocationIsolated(s: State, c: Connection, data: Value, env: Env, j: Key)
    requires IsPhone(c) && j != PhoneKey(c)
    ensures WorkerLocation(s, c, data, env).reply.Raised? || Untouched(s, WorkerLocation(s, c, data, env).state, j)
  {
  }

  lemma HeartbeatIsolated(s: State, c: Connection, env: Env, j: Key)
    requires IsPhone(c) && j != PhoneKey(c)
    ensures Untouched(s, WorkerHeartbeat(s, c, env).state, j)
  {
  }

  lemma DropPhoneIsolated(s: State, k: Key, j: Key)
    requires j != k
    ensures Untouched(s, DropPhone(s, k).state, j)
  {
  }

  /** Isolation across workers: outside the sweep, an input either ends
      the process (exactly the malformed socket messages do) or leaves every
      record other than its target's exactly as it was, and creates none. */
  lemma OnlyTargetChanges(s: State, i: Input, env: Env, j: Key)
    requires !i.Tick?
    requires Target(i) != Some(j)
    ensures Next(Running(s), i, env).Ended? <==> EndsProcess(i, env)
    ensures Next(Running(s), i, env).Running? ==>
      var data := Next(Running(s), i, env).state.workersData.entries;
      (j in data <==> j in s.workersData.entries) && (j in data ==> data[j] == s.workersData.entries[j])
  {
    EndsExactlyOnMalformedMessages(s, i, env);
    StepIsolates(s, i, env, j);
  }

  /** The step-level half of `OnlyTargetChanges`. */
  lemma StepIsolates(s: State, i: Input, env: Env, j: Key)
    requires !i.Tick?
    requires Target(i) != Some(j)
    ensures Apply(s, i, env).reply.Raised? || Untouched(s, Apply(s, i, env).state, j)
  {
    match i {
      case PostSensor(body) => PostSensorIsolates(s, body, env, j);
      case PostRegistration(body) =>
      case GetOne(id) =>
      case GetAll =>
      case GetRegistry =>
      case Join(c) =>
      case PhoneRegister(c, data) => PhoneRegisterIsolates(s, c, data, env, j);
      case PhoneLocation(c, data) => PhoneLocationIsolates(s, c, data, env, j);
      case PhoneHeartbeat(c) => PhoneHeartbeatIsolates(s, c, env, j);
      case PhoneLeave(c) => PhoneLeaveIsolates(s, c, env, j);
      case Closed(c) => ClosedIsolates(s, c, env, j);
    }
  }

  lemma PostSensorIsolates(s: State, body: Value, env: Env, j: Key)
    requires j != Normalize(body).workerId
    ensures Untouched(s, Apply(s, PostSensor(body), env).state, j)
  {
    if IsJsonBody(body) {
      HelmetPostIsolated(s, body, env, j);
    }
  }

  lemma PhoneRegisterIsolates(s: State, c: Connection, data: Value, env: Env, j: Key)
    requires j != Prop(data, "workerId")
    ensures var r := Apply(s, PhoneRegister(c, data), env);
      r.reply.Raised? || Untouched(s, r.state, j)
  {
    if IsPhone(c) {
      PhoneRegisterIsolated(s, data, env, j);
    }
  }

  lemma PhoneLocationIsolates(s: State, c: Connection, data: Value, env: Env, j: Key)
    requires j != PhoneKey(c)
    ensures var r := Apply(s, PhoneLocation(c, data), env);
      r.reply.Raised? || Untouched(s, r.state, j)
  {
    if IsPhone(c) {
      LocationIsolated(s, c, data, env, j);
    }
  }

  lemma PhoneHeartbeatIsolates(s: State, c: Connection, env: Env, j: Key)
    requires j != PhoneKey(c)
    ensures Untouched(s, Apply(s, PhoneHeartbeat(c), env).state, j)
  {
    if IsPhone(c) {
      HeartbeatIsolated(s, c, env, j);
    }
  }

  lemma PhoneLeaveIsolates(s: State, c: Connection, env: Env, j: Key)
    requires j != PhoneKey(c)
    ensures Untouched(s, Apply(s, PhoneLeave(c), env).state, j)
  {
    if IsPhone(c) {
      assert WorkerDisconnect(s, c) == DropPhone(s, PhoneKey(c));
      DropPhoneIsolated(s, PhoneKey(c), j);
    }
  }

  lemma ClosedIsolates(s: State, c: Connection, env: Env, j: Key)
    requires j != PhoneKey(c)
    ensures Untouched(s, Apply(s, Closed(c), env).state, j)
  {
    if IsPhone(c) {
      DropPhoneIsolated(s, PhoneKey(c), j);
    }
  }

  /** The server process: running with its state, or ended by a listener
      that threw. Whether anything restarts it is outside the model. */
  datatype Process = Running(state: State) | Ended

  /** The inputs on which a listener throws: a `worker-register` or
      `worker-location` message that cannot be destructured, and a
      `worker-location` whose `timestamp` is missing or invalid. */
  predicate EndsProcess(i: Input, env: Env) {
    match i
    case PhoneRegister(c, data) => IsPhone(c) && !Destructurable(data)
    case PhoneLocation(c, data) => IsPhone(c) && (!Destructurable(data) || NewDate(Prop(data, "timestamp"), env.parseDate).None?)
    case _ => false
  }

  /** One input delivered to the process; an ended process handles nothing. */
  function Next(p: Process, i: Input, env: Env): Process {
    match p
    case Ended => Ended
    case Running(s) =>
      var r := Apply(s, i, env);
      if r.reply.Raised? then Ended else Running(r.state)
  }

  /** A step raises exactly on the malformed socket messages. */
  lemma RaisesExactlyOnMalformedMessages(s: State, i: Input, env: Env)
    ensures Apply(s, i, env).reply.Raised? <==> EndsProcess(i, env)
  {
    match i {
      case PostSensor(body) =>
        if IsJsonBody(body) {
          var r := PostSensorData(s, body, env);
          assert r.reply.SensorAccepted? || r.reply.BadRequest? || r.reply.InternalError?;
        }
      case PostRegistration(body) =>
      case GetOne(id) =>
      case GetAll =>
      case GetRegistry =>
      case Join(c) =>
      case PhoneRegister(c, data) =>
      case PhoneLocation(c, data) =>
      case PhoneHeartbeat(c) =>
      case PhoneLeave(c) =>
        if IsPhone(c) {
          assert WorkerDisconnect(s, c) == DropPhone(s, PhoneKey(c));
        }
      case Closed(c) =>
      case Tick =>
    }
  }

  /** A running server ends exactly on a malformed socket message. */
  lemma EndsExactlyOnMalformedMessages(s: State, i: Input, env: Env)
    ensures Next(Running(s), i, env).Ended? <==> EndsProcess(i, env)
  {
    RaisesExactlyOnMalformedMessages(s, i, env);
  }

  /** A location message without a timestamp, such as
      `{latitude: 1, longitude: 2}`, ends the process, and every record is lost. */
  lemma LocationWithoutTimestampEndsProcess(s: State, c: Connection, env: Env)
    requires IsPhone(c)
    ensures Next(Running(s), PhoneLocation(c, Obj(map["latitude" := Num(1.0), "longitude" := Num(2.0)])), env) == Ended
  {
    var data := Obj(map["latitude" := Num(1.0), "longitude" := Num(2.0)]);
    assert Prop(data, "timestamp") == Undefined;
    EndsExactlyOnMalformedMessages(s, PhoneLocation(c, data), env);
  }

  /** The store invariant, for a process that is still running. */
  predicate Sound(p: Process) {
    p.Running? ==> Consistent(p.state)
  }

  /** Every input keeps a running process's store consistent. */
  lemma NextPreservesConsistency(p: Process, i: Input, env: Env)
    requires Sound(p)
    ensures Sound(Next(p, i, env))
  {
    if p.Running? {
      ApplyPreservesConsistency(p.state, i, env);
    }
  }

  /** Successive inputs, each with the clock reading it was handled at. */
  function Run(p: Process, trace: seq<(Input, Env)>): Process
    decreases |trace|
  {
    if trace == [] then p else Run(Next(p, trace[0].0, trace[0].1), trace[1..])
  }

  /** Once ended, the process stays ended whatever arrives. */
  lemma {:induction false} EndedIsFinal(trace: seq<(Input, Env)>)
    ensures Run(Ended, trace) == Ended
    decreases |trace|
  {
    if trace != [] {
      EndedIsFinal(trace[1..]);
    }
  }

  /** Consistency holds after any sequence of inputs, for as long as the
      process runs. */
  lemma {:induction false} RunPreservesConsistency(p: Process, trace: seq<(Input, Env)>)
    requires Sound(p)
    ensures Sound(Run(p, trace))
    decreases |trace|
  {
    if trace != [] {
      NextPreservesConsistency(p, trace[0].0, trace[0].1);
      RunPreservesConsistency(Next(p, trace[0].0, trace[0].1), trace[1..]);
    }
  }

  /** Reads never change anything or emit anything. */
  lemma ReadsArePure(s: State, i: Input, env: Env)
    requires i.GetOne? || i.GetAll? || i.GetRegistry?
    ensures Apply(s, i, env).state == s && Apply(s, i, env).events == []
  {
  }

  /** A dashboard that joins is sent exactly what `GET /api/workers` lists
      at that moment. */
  lemma JoinSnapshotIsListing(s: State, c: Connection, env: Env)
    requires IsDashboard(c)
    ensures Apply(s, Join(c), env).events == [InitialData(Apply(s, GetAll, env).reply.records)]
  {
  }
}
