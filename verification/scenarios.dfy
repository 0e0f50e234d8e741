/** Whole-request properties of the helmet and registration paths: what a
    sender observes across one or two requests. */
module Scenarios {
  import opened Options
  import opened Js
  import opened JsMaps
  import opened Records
  import opened Normalizer
  import opened AlertEngine
  import opened Server

  /** A payload without any identifier alias is refused (a 400, or a 500 when
      its timestamp is also unparseable) and creates no record. */
  lemma MissingIdentifierCreatesNothing(s: State, body: Value, env: Env)
    requires IsJsonBody(body)
    requires forall i :: 0 <= i < |IdAliases| ==> !HasOwn(body, IdAliases[i])
    ensures PostSensorData(s, body, env).state == s
    ensures PostSensorData(s, body, env).events == []
    ensures PostSensorData(s, body, env).reply.BadRequest? || PostSensorData(s, body, env).reply.InternalError?
  {
    assert Normalize(body).workerId == Null;
  }

  /** Posting the same payload twice yields the same alerts, the same status
      and the same reply: the verdict depends on the reading alone. */
  lemma RepeatedPostSameVerdict(s: State, body: Value, env1: Env, env2: Env)
    requires IsJsonBody(body)
    requires PostSensorData(s, body, env1).reply.SensorAccepted?
    requires HelmetTimestamp(Normalize(body), env2).Some?
    ensures var r1 := PostSensorData(s, body, env1);
      var r2 := PostSensorData(r1.state, body, env2);
      var k := Normalize(body).workerId;
      && r2.reply == r1.reply
      && r2.state.workersData.entries[k].alerts == r1.state.workersData.entries[k].alerts
      && r2.state.workersData.entries[k].status == r1.state.workersData.entries[k].status
  {
  }

  /** A registration followed by a helmet post for the same id: the stored
      record shows the registered name. */
  lemma RegisteredNameReachesRecord(s: State, id: string, name: Value, body: Value, env1: Env, env2: Env)
    requires id != "" && Truthy(name)
    requires IsJsonBody(body) && Normalize(body).workerId == Str(id)
    requires HelmetTimestamp(Normalize(body), env2).Some?
    ensures var reg := Obj(map["workerId" := Str(id), "name" := name]);
      var s1 := PostRegister(s, reg, env1).state;
      var r := PostSensorData(s1, body, env2);
      && r.reply.SensorAccepted?
      && Str(id) in r.state.workersData.entries
      && r.state.workersData.entries[Str(id)].name == name
  {
    var reg := Obj(map["workerId" := Str(id), "name" := name]);
    assert Prop(reg, "workerId") == Str(id) && Prop(reg, "name") == name;
    var r1 := PostRegister(s, reg, env1);
    var s1 := r1.state;
    assert r1.reply.Registered?;
    var info := Get(s1.workersInfo, Str(id));
    assert info == Some(r1.reply.worker);
    assert InfoName(info) == name;
    var r := PostSensorData(s1, body, env2);
    assert r.reply.SensorAccepted?;
  }

  /** `{"workerId": "001"}` names worker "001" and carries no timestamp. */
  lemma AliBodyLookups(body: Value)
    requires body == Obj(map["workerId" := Str("001")])
    ensures PickFirst(body, IdAliases) == Str("001")
    ensures PickFirst(body, TimestampAliases) == Undefined
  {
    assert FirstPresent(body, IdAliases, 0);
  }

  /** Registering "001" as "Ali" and then posting a payload that names "001"
      (such as `{"workerId": "001"}`): the record's name is "Ali". */
  lemma AliScenario(s: State, body: Value, env1: Env, env2: Env)
    requires IsJsonBody(body)
    requires PickFirst(body, IdAliases) == Str("001") && PickFirst(body, TimestampAliases) == Undefined
    ensures var s1 := PostRegister(s, Obj(map["workerId" := Str("001"), "name" := Str("Ali")]), env1).state;
      var after := PostSensorData(s1, body, env2).state.workersData.entries;
      Str("001") in after && after[Str("001")].name == Str("Ali")
  {
    assert Normalize(body).workerId == Str("001");
    assert HelmetTimestamp(Normalize(body), env2) == Some(env2.now);
    RegisteredNameReachesRecord(s, "001", Str("Ali"), body, env1, env2);
  }

  /** The reply and stored record of a post whose normalized reading has
      the given id, temperature, gas level and fall flag and no timestamp. */
  lemma AcceptedPostOutcome(s: State, body: Value, env: Env, id: string, temperature: real, gasLevel: real, fall: bool)
    requires IsJsonBody(body) && id != ""
    requires Normalize(body).workerId == Str(id) && Normalize(body).timestampRaw == Undefined
    requires Normalize(body).temperature == temperature && Normalize(body).gasLevel == gasLevel
    requires Normalize(body).fallDetected == fall
    ensures var v := Derive(temperature, gasLevel, fall);
      var r := PostSensorData(s, body, env);
      && Str(id) in r.state.workersData.entries
      && r.reply == SensorAccepted(AlertsOrNull(v.alerts))
      && r.state.workersData.entries[Str(id)].status == Some(v.status)
      && r.state.workersData.entries[Str(id)].fallDetected == Some(fall)
  {
    assert HelmetTimestamp(Normalize(body), env) == Some(env.now);
  }

  /** `{"worker_id": "w1", "temp": 41}` answers through its second id alias
      and its second temperature alias, and carries no timestamp. */
  lemma HotBodyLookups(body: Value)
    requires body == Obj(map["worker_id" := Str("w1"), "temp" := Num(41.0)])
    ensures PickFirst(body, IdAliases) == Str("w1")
    ensures PickFirst(body, TemperatureAliases) == Num(41.0)
    ensures PickFirst(body, TimestampAliases) == Undefined
  {
    assert FirstPresent(body, IdAliases, 1);
    assert FirstPresent(body, TemperatureAliases, 1);
    assert forall i :: 0 <= i < |TimestampAliases| ==> !HasOwn(body, TimestampAliases[i]) by {
      assert !HasOwn(body, "timestamp") && !HasOwn(body, "time") && !HasOwn(body, "Time") && !HasOwn(body, "date");
    }
  }

  /** `{"worker_id": "w1", "temp": 41}` has no gas and no fall field. */
  lemma HotBodyDefaults(body: Value)
    requires body == Obj(map["worker_id" := Str("w1"), "temp" := Num(41.0)])
    ensures PickFirst(body, GasAliases) == Undefined
    ensures PickFirst(body, FallAliases) == Undefined
  {
    assert forall i :: 0 <= i < |GasAliases| ==> !HasOwn(body, GasAliases[i]) by {
      assert !HasOwn(body, "gasLevel") && !HasOwn(body, "gas") && !HasOwn(body, "Gas") && !HasOwn(body, "gas_level");
    }
    assert forall i :: 0 <= i < |FallAliases| ==> !HasOwn(body, FallAliases[i]) by {
      assert !HasOwn(body, "fallDetected") && !HasOwn(body, "fall") && !HasOwn(body, "fall_detected") && !HasOwn(body, "isFallen");
    }
  }

  /** A payload like `{"worker_id": "w1", "temp": 41}`: one
      `temperature`/`high` alert, and the worker stays active. */
  lemma HotScenario(s: State, body: Value, env: Env)
    requires IsJsonBody(body)
    requires PickFirst(body, IdAliases) == Str("w1") && PickFirst(body, TemperatureAliases) == Num(41.0)
    requires PickFirst(body, GasAliases) == Undefined && PickFirst(body, FallAliases) == Undefined
    requires PickFirst(body, TimestampAliases) == Undefined
    ensures var r := PostSensorData(s, body, env);
      && r.reply == SensorAccepted(Some([Alert(TemperatureAlert, HighTemperature(41.0), High)]))
      && Str("w1") in r.state.workersData.entries
      && r.state.workersData.entries[Str("w1")].status == Some(Active)
  {
    AcceptedPostOutcome(s, body, env, "w1", 41.0, 0.0, false);
    HotWorkerStaysActive();
  }

  /** `{"workerId": "w2", "gas_level": 350}` answers through the fourth gas
      alias, and carries no timestamp. */
  lemma GasBodyLookups(body: Value)
    requires body == Obj(map["workerId" := Str("w2"), "gas_level" := Num(350.0)])
    ensures PickFirst(body, IdAliases) == Str("w2")
    ensures PickFirst(body, GasAliases) == Num(350.0)
    ensures PickFirst(body, TimestampAliases) == Undefined
  {
    assert FirstPresent(body, IdAliases, 0);
    assert FirstPresent(body, GasAliases, 3);
    assert forall i :: 0 <= i < |TimestampAliases| ==> !HasOwn(body, TimestampAliases[i]) by {
      assert !HasOwn(body, "timestamp") && !HasOwn(body, "time") && !HasOwn(body, "Time") && !HasOwn(body, "date");
    }
  }

  /** `{"workerId": "w2", "gas_level": 350}` has no temperature and no fall field. */
  lemma GasBodyDefaults(body: Value)
    requires body == Obj(map["workerId" := Str("w2"), "gas_level" := Num(350.0)])
    ensures PickFirst(body, TemperatureAliases) == Undefined
    ensures PickFirst(body, FallAliases) == Undefined
  {
    assert forall i :: 0 <= i < |TemperatureAliases| ==> !HasOwn(body, TemperatureAliases[i]) by {
      assert !HasOwn(body, "temperature") && !HasOwn(body, "temp") && !HasOwn(body, "Temp") && !HasOwn(body, "bodyTemperature") && !HasOwn(body, "bodyTemp");
    }
    assert forall i :: 0 <= i < |FallAliases| ==> !HasOwn(body, FallAliases[i]) by {
      assert !HasOwn(body, "fallDetected") && !HasOwn(body, "fall") && !HasOwn(body, "fall_detected") && !HasOwn(body, "isFallen");
    }
  }

  /** A payload like `{"workerId": "w2", "gas_level": 350}`: a
      `gas`/`critical` alert and an emergency. */
  lemma GasScenario(s: State, body: Value, env: Env)
    requires IsJsonBody(body)
    requires PickFirst(body, IdAliases) == Str("w2") && PickFirst(body, TemperatureAliases) == Undefined
    requires PickFirst(body, GasAliases) == Num(350.0) && PickFirst(body, FallAliases) == Undefined
    requires PickFirst(body, TimestampAliases) == Undefined
    ensures var r := PostSensorData(s, body, env);
      && r.reply == SensorAccepted(Some([Alert(GasAlert, DangerousGas(350.0), Critical)]))
      && Str("w2") in r.state.workersData.entries
      && r.state.workersData.entries[Str("w2")].status == Some(Emergency)
  {
    AcceptedPostOutcome(s, body, env, "w2", 0.0, 350.0, false);
    DangerousGasIsEmergency(0.0);
  }

  /** `{"ID": "f1", "isFallen": 1}` answers through the last id alias and
      the last fall alias, and carries no timestamp. */
  lemma FallBodyLookups(body: Value)
    requires body == Obj(map["ID" := Str("f1"), "isFallen" := Num(1.0)])
    ensures PickFirst(body, IdAliases) == Str("f1")
    ensures PickFirst(body, FallAliases) == Num(1.0)
    ensures PickFirst(body, TimestampAliases) == Undefined
  {
    assert FirstPresent(body, IdAliases, 3);
    assert FirstPresent(body, FallAliases, 3);
    assert forall i :: 0 <= i < |TimestampAliases| ==> !HasOwn(body, TimestampAliases[i]) by {
      assert !HasOwn(body, "timestamp") && !HasOwn(body, "time") && !HasOwn(body, "Time") && !HasOwn(body, "date");
    }
  }

  /** `{"ID": "f1", "isFallen": 1}` has no temperature and no gas field. */
  lemma FallBodyDefaults(body: Value)
    requires body == Obj(map["ID" := Str("f1"), "isFallen" := Num(1.0)])
    ensures PickFirst(body, TemperatureAliases) == Undefined
    ensures PickFirst(body, GasAliases) == Undefined
  {
    assert forall i :: 0 <= i < |TemperatureAliases| ==> !HasOwn(body, TemperatureAliases[i]) by {
      assert !HasOwn(body, "temperature") && !HasOwn(body, "temp") && !HasOwn(body, "Temp") && !HasOwn(body, "bodyTemperature") && !HasOwn(body, "bodyTemp");
    }
    assert forall i :: 0 <= i < |GasAliases| ==> !HasOwn(body, GasAliases[i]) by {
      assert !HasOwn(body, "gasLevel") && !HasOwn(body, "gas") && !HasOwn(body, "Gas") && !HasOwn(body, "gas_level");
    }
  }

  /** A payload like `{"ID": "f1", "isFallen": 1}`: the numeric fall flag
      raises a `fall`/`critical` alert and an emergency. */
  lemma FallScenario(s: State, body: Value, env: Env)
    requires IsJsonBody(body)
    requires PickFirst(body, IdAliases) == Str("f1") && PickFirst(body, TemperatureAliases) == Undefined
    requires PickFirst(body, GasAliases) == Undefined && PickFirst(body, FallAliases) == Num(1.0)
    requires PickFirst(body, TimestampAliases) == Undefined
    ensures var r := PostSensorData(s, body, env);
      && r.reply == SensorAccepted(Some([Alert(FallAlert, FallMessage, Critical)]))
      && Str("f1") in r.state.workersData.entries
      && r.state.workersData.entries[Str("f1")].status == Some(Emergency)
      && r.state.workersData.entries[Str("f1")].fallDetected == Some(true)
  {
    assert FallFlag(Num(1.0));
    AcceptedPostOutcome(s, body, env, "f1", 0.0, 0.0, true);
    FallIsEmergency(0.0, 0.0);
  }

  /** A numeric identifier is stored under its decimal text: a helmet that
      sends `"id": 7` updates the record that `GET /api/worker/7` reads. */
  lemma NumericIdIsText(body: Value)
    requires PickFirst(body, IdAliases) == Num(7.0)
    ensures Normalize(body).workerId == Str("7")
  {
    NumberToStringOfInt(7);
  }
}
