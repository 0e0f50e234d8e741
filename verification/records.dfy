/** The entities the server keeps and the dashboard displays: the per-worker
    record in `workersData`, the registration entry in `workersInfo`, and the
    alerts derived from sensor readings. */
module Records {
  import opened Options
  import opened Js

  /** Milliseconds since the epoch. The server stores ISO-8601 strings; the
      conversion is exact at millisecond precision and is not modelled. */
  type Time = int

  /** A key of `workersData`, `workersInfo` and `phoneConnections`. JavaScript
      `Map` keys compare by SameValueZero, so a registration posted with the
      number 1 and a helmet post for the string "1" use different keys. */
  type Key = Value

  /** The socket.io connection id kept in `phoneConnections`. */
  type SocketId = string

  datatype Status = Active | Emergency

  datatype Severity = High | Critical

  datatype AlertKind = TemperatureAlert | GasAlert | FallAlert

  /** The alert text is Arabic prose; the model keeps what the text depends on. */
  datatype AlertMessage = HighTemperature(celsius: real) | DangerousGas(ppm: real) | FallMessage

  datatype Alert = Alert(kind: AlertKind, message: AlertMessage, severity: Severity)

  /** A record field that may be missing, explicitly `null` (`Nil`), or set. */
  datatype Nullable<T> = Absent | Nil | Present(value: T)

  /** The object stored in `workersData`. Fields that a record may lack are
      `Undefined`, `Absent` or `None`. Identity and location fields hold
      whatever value the registry or the phone supplied. `helmetConnected` is
      only ever absent or true. */
  datatype WorkerRecord = WorkerRecord(
    workerId: Key,
    name: Value,
    phone: Value,
    emergencyPhone: Value,
    address: Value,
    temperature: Nullable<real>,
    humidity: Nullable<real>,
    gasLevel: Nullable<real>,
    accelX: Nullable<real>,
    accelY: Nullable<real>,
    accelZ: Nullable<real>,
    fallDetected: Option<bool>,
    mpuStatus: Option<string>,
    helmetConnected: Option<bool>,
    helmetLastUpdate: Option<Time>,
    latitude: Value,
    longitude: Value,
    gpsAccuracy: Value,
    gpsSource: Value,
    phoneConnected: bool,
    phoneLastUpdate: Option<Time>,
    phoneLastHeartbeat: Option<Time>,
    status: Option<Status>,
    alerts: Option<seq<Alert>>,
    lastUpdate: Time)

  /** The object stored in `workersInfo`. */
  datatype RegInfo = RegInfo(
    workerId: Value,
    name: Value,
    phone: Value,
    emergencyPhone: Value,
    address: Value,
    registeredAt: Time)

  /** The empty object `{}` a merge spreads when the worker is unseen. Every
      merge overwrites `workerId`, `phoneConnected` and `lastUpdate`, so the
      values given to those here are never observed. */
  function Blank(k: Key): WorkerRecord {
    WorkerRecord(k, Undefined, Undefined, Undefined, Undefined,
      Absent, Absent, Absent, Absent, Absent, Absent,
      None, None, None, None,
      Undefined, Undefined, Undefined, Undefined,
      false, None, None, None, None, 0)
  }

  /** The registry field read as `(workersInfo.get(id) || {})[field]`. */
  function InfoName(info: Option<RegInfo>): Value {
    if info.Some? then info.value.name else Undefined
  }

  function InfoPhone(info: Option<RegInfo>): Value {
    if info.Some? then info.value.phone else Undefined
  }

  function InfoEmergencyPhone(info: Option<RegInfo>): Value {
    if info.Some? then info.value.emergencyPhone else Undefined
  }

  function InfoAddress(info: Option<RegInfo>): Value {
    if info.Some? then info.value.address else Undefined
  }

  predicate HasCritical(alerts: seq<Alert>) {
    exists i :: 0 <= i < |alerts| && alerts[i].severity == Critical
  }

  /** What every stored record satisfies: `status` and `alerts` are written
      together, the status is an emergency exactly when a critical alert is
      listed, and a detected fall always comes with an emergency. */
  predicate Coherent(r: WorkerRecord) {
    && (r.status.Some? <==> r.alerts.Some?)
    && (r.status == Some(Emergency) <==> r.alerts.Some? && HasCritical(r.alerts.value))
    && (r.fallDetected == Some(true) ==> r.status == Some(Emergency))
  }
}
