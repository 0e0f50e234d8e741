/** The periodic phone-liveness sweep of server.js: every 30 seconds each
    record whose phone is marked connected and has sent a heartbeat is
    checked, and one whose last heartbeat is more than 60 seconds old is
    marked disconnected. The schedule is outside the model; a sweep is one
    step taking the current time. */
module Liveness {
  import opened Options
  import opened Js
  import opened JsMaps
  import opened Records
  import opened Normalizer
  import opened Server

  /** Milliseconds between two sweeps (the `setInterval` period). */
  const SweepPeriod: int := 30000

  /** Milliseconds of heartbeat silence after which a phone is dropped. */
  const HeartbeatTimeout: int := 60000

  /** The sweep's test: connected, a heartbeat on record, and strictly more
      than the timeout elapsed since it. */
  predicate Stale(rec: WorkerRecord, now: Time) {
    rec.phoneConnected && rec.phoneLastHeartbeat.Some? && now - rec.phoneLastHeartbeat.value > HeartbeatTimeout
  }

  /** What the sweep does to one record. */
  function Expire(now: Time, rec: WorkerRecord): WorkerRecord {
    if Stale(rec, now) then rec.(phoneConnected := false) else rec
  }

  /** The events of a sweep over the keys `order`, visited in that order:
      each stale record yields its updated record, then `phone-disconnected`. */
  function ExpiryEvents(order: seq<Key>, entries: map<Key, WorkerRecord>, now: Time): (es: seq<Event>)
    requires forall k :: k in order ==> k in entries
    ensures forall e :: e in es ==> e.SensorUpdate? || e.PhoneDisconnected?
  {
    if order == [] then []
    else
      var k := order[0];
      var rest := ExpiryEvents(order[1..], entries, now);
      if Stale(entries[k], now) then [SensorUpdate(Expire(now, entries[k])), PhoneDisconnected(k)] + rest
      else rest
  }

  /** `phone-disconnected` is announced for exactly the stale keys visited. */
  lemma {:induction false} ExpiryAnnouncesStale(order: seq<Key>, entries: map<Key, WorkerRecord>, now: Time, k: Key)
    requires forall j :: j in order ==> j in entries
    ensures PhoneDisconnected(k) in ExpiryEvents(order, entries, now) <==> k in order && Stale(entries[k], now)
  {
    if order != [] {
      ExpiryAnnouncesStale(order[1..], entries, now, k);
      assert k in order <==> k == order[0] || k in order[1..];
    }
  }

  /** Every `sensor-update` of a sweep carries a stale record, disconnected. */
  lemma {:induction false} ExpiryUpdatesAreStale(order: seq<Key>, entries: map<Key, WorkerRecord>, now: Time, rec: WorkerRecord)
    requires forall j :: j in order ==> j in entries
    requires SensorUpdate(rec) in ExpiryEvents(order, entries, now)
    ensures exists k :: k in order && Stale(entries[k], now) && rec == entries[k].(phoneConnected := false)
  {
    var k := order[0];
    var rest := ExpiryEvents(order[1..], entries, now);
    if Stale(entries[k], now) && rec == Expire(now, entries[k]) {
      assert k in order;
    } else {
      assert SensorUpdate(rec) in rest;
      ExpiryUpdatesAreStale(order[1..], entries, now, rec);
      var j :| j in order[1..] && Stale(entries[j], now) && rec == entries[j].(phoneConnected := false);
      assert j in order;
    }
  }

  /** Every stale key visited has its record broadcast, disconnected. */
  lemma {:induction false} ExpiryBroadcastsStale(order: seq<Key>, entries: map<Key, WorkerRecord>, now: Time, k: Key)
    requires forall j :: j in order ==> j in entries
    requires k in order && Stale(entries[k], now)
    ensures SensorUpdate(entries[k].(phoneConnected := false)) in ExpiryEvents(order, entries, now)
  {
    if order[0] != k {
      assert k in order[1..];
      ExpiryBroadcastsStale(order[1..], entries, now, k);
    }
  }

  /** One key's share of a sweep: its update and announcement when stale,
      nothing otherwise. */
  lemma ExpiryOfOneKey(k: Key, entries: map<Key, WorkerRecord>, now: Time)
    requires k in entries
    ensures Stale(entries[k], now) ==>
      ExpiryEvents([k], entries, now) == [SensorUpdate(entries[k].(phoneConnected := false)), PhoneDisconnected(k)]
    ensures !Stale(entries[k], now) ==> ExpiryEvents([k], entries, now) == []
  {
  }

  /** The sweep visits keys in insertion order: the events of earlier keys
      all come before those of later keys, so with `ExpiryOfOneKey` the
      events are each stale key's pair, once, in insertion order. */
  lemma {:induction false} ExpiryFollowsOrder(a: seq<Key>, b: seq<Key>, entries: map<Key, WorkerRecord>, now: Time)
    requires forall j :: j in a + b ==> j in entries
    ensures ExpiryEvents(a + b, entries, now) == ExpiryEvents(a, entries, now) + ExpiryEvents(b, entries, now)
    decreases |a|
  {
    if a != [] {
      assert (a + b)[0] == a[0];
      assert (a + b)[1..] == a[1..] + b;
      assert forall j :: j in a[1..] + b ==> j in a + b;
      ExpiryFollowsOrder(a[1..], b, entries, now);
    } else {
      assert a + b == b;
    }
  }

  /** A sweep over keys none of which is stale announces nothing. */
  lemma {:induction false} ExpiryQuietWhenFresh(order: seq<Key>, entries: map<Key, WorkerRecord>, now: Time)
    requires forall j :: j in order ==> j in entries
    requires forall j :: j in order ==> !Stale(entries[j], now)
    ensures ExpiryEvents(order, entries, now) == []
  {
    if order != [] {
      assert order[0] in order;
      ExpiryQuietWhenFresh(order[1..], entries, now);
    }
  }

  /** Every `sensor-update` is immediately followed by the
      `phone-disconnected` of the worker whose record it carries. */
  lemma {:induction false} ExpiryEventsPaired(order: seq<Key>, entries: map<Key, WorkerRecord>, now: Time, i: int)
    requires forall j :: j in order ==> j in entries
    requires 0 <= i < |ExpiryEvents(order, entries, now)| && ExpiryEvents(order, entries, now)[i].SensorUpdate?
    ensures var es := ExpiryEvents(order, entries, now);
      && i + 1 < |es| && es[i + 1].PhoneDisconnected? && es[i + 1].workerId in entries
      && es[i].record == entries[es[i + 1].workerId].(phoneConnected := false)
  {
    var es := ExpiryEvents(order, entries, now);
    var k := order[0];
    var rest := ExpiryEvents(order[1..], entries, now);
    if Stale(entries[k], now) {
      assert es == [SensorUpdate(Expire(now, entries[k])), PhoneDisconnected(k)] + rest;
      if i != 0 {
        assert i != 1;
        assert es[i] == rest[i - 2];
        ExpiryEventsPaired(order[1..], entries, now, i - 2);
        assert es[i + 1] == rest[i - 1];
      }
    } else {
      ExpiryEventsPaired(order[1..], entries, now, i);
    }
  }

  /** The four facts a sweep's contract rests on, for all keys and records. */
  lemma ExpiryEventsFacts(order: seq<Key>, entries: map<Key, WorkerRecord>, now: Time)
    requires forall j :: j in order ==> j in entries
    ensures forall k :: PhoneDisconnected(k) in ExpiryEvents(order, entries, now) <==> k in order && Stale(entries[k], now)
    ensures forall rec :: SensorUpdate(rec) in ExpiryEvents(order, entries, now) ==>
      exists k :: k in order && Stale(entries[k], now) && rec == entries[k].(phoneConnected := false)
    ensures forall k :: k in order && Stale(entries[k], now) ==>
      SensorUpdate(entries[k].(phoneConnected := false)) in ExpiryEvents(order, entries, now)
    ensures (forall j :: j in order ==> !Stale(entries[j], now)) ==> ExpiryEvents(order, entries, now) == []
  {
    forall k {
      ExpiryAnnouncesStale(order, entries, now, k);
    }
    forall k | k in order && Stale(entries[k], now) {
      ExpiryBroadcastsStale(order, entries, now, k);
    }
    forall rec | SensorUpdate(rec) in ExpiryEvents(order, entries, now) {
      ExpiryUpdatesAreStale(order, entries, now, rec);
    }
    if forall j :: j in order ==> !Stale(entries[j], now) {
      ExpiryQuietWhenFresh(order, entries, now);
    }
  }

  /** One sweep at time `now`. */
  function Sweep(s: State, now: Time): (r: Step)
    // only `phoneConnected` of stale records changes
    ensures r.state.workersInfo == s.workersInfo && r.state.phoneConnections == s.phoneConnections
    ensures r.state.workersData.order == s.workersData.order
    ensures r.state.workersData.entries.Keys == s.workersData.entries.Keys
    ensures forall k :: k in s.workersData.entries && Stale(s.workersData.entries[k], now) ==>
      k in r.state.workersData.entries && r.state.workersData.entries[k] == s.workersData.entries[k].(phoneConnected := false)
    ensures forall k :: k in s.workersData.entries && !Stale(s.workersData.entries[k], now) ==>
      k in r.state.workersData.entries && r.state.workersData.entries[k] == s.workersData.entries[k]
    // afterwards no record is stale at the same instant
    ensures forall k :: k in r.state.workersData.entries ==> !Stale(r.state.workersData.entries[k], now)
    // a `phone-disconnected` is announced for exactly the records flipped
    ensures forall k :: PhoneDisconnected(k) in r.events <==>
      k in s.workersData.entries && Stale(s.workersData.entries[k], now)
    // each flipped record is broadcast exactly as now stored, and nothing else is
    ensures forall k :: k in s.workersData.entries && Stale(s.workersData.entries[k], now) ==>
      k in r.state.workersData.entries && SensorUpdate(r.state.workersData.entries[k]) in r.events
    ensures forall rec :: SensorUpdate(rec) in r.events ==>
      exists k :: k in s.workersData.entries && Stale(s.workersData.entries[k], now) && k in r.state.workersData.entries && rec == r.state.workersData.entries[k]
    // a sweep that finds nothing stale is silent
    ensures (forall k :: k in s.workersData.entries ==> !Stale(s.workersData.entries[k], now)) ==> r.events == []
    ensures r.reply == NoReply
  {
    var data := MapEntries(s.workersData, (k, rec) => Expire(now, rec));
    ExpiryEventsFacts(s.workersData.order, s.workersData.entries, now);
    Step(s.(workersData := data), NoReply, ExpiryEvents(s.workersData.order, s.workersData.entries, now))
  }

  // ---------------------------------------------------------------------
  // Properties
  // ---------------------------------------------------------------------

  /** A second sweep at the same instant changes nothing and announces nothing. */
  lemma SweepIdempotent(s: State, now: Time)
    ensures Sweep(Sweep(s, now).state, now).state == Sweep(s, now).state
    ensures Sweep(Sweep(s, now).state, now).events == []
  {
    var s1 := Sweep(s, now).state;
    var r2 := Sweep(s1, now);
    assert r2.state.workersData.entries == s1.workersData.entries;
  }

  /** A heartbeat at `env.now` followed by silence: a sweep exactly 60 seconds
      later keeps the phone connected and announces nothing for it; one 61
      seconds later marks it disconnected and announces `phone-disconnected`. */
  lemma HeartbeatThenSilence(s: State, c: Connection, env: Env)
    requires IsPhone(c) && PhoneKey(c) in s.workersData.entries
    ensures var s1 := WorkerHeartbeat(s, c, env).state;
      var atLimit := Sweep(s1, env.now + 60000);
      var past := Sweep(s1, env.now + 61000);
      && atLimit.state.workersData.entries[PhoneKey(c)].phoneConnected
      && PhoneDisconnected(PhoneKey(c)) !in atLimit.events
      && !past.state.workersData.entries[PhoneKey(c)].phoneConnected
      && PhoneDisconnected(PhoneKey(c)) in past.events
  {
    var k := PhoneKey(c);
    var s1 := WorkerHeartbeat(s, c, env).state;
    assert s1.workersData.entries[k].phoneLastHeartbeat == Some(env.now);
    assert !Stale(s1.workersData.entries[k], env.now + 60000);
    assert Stale(s1.workersData.entries[k], env.now + 61000);
  }

  /** A phone that only ever reports its location has no heartbeat on record,
      so no sweep, however late, marks it disconnected. */
  lemma LocationOnlyPhoneNeverExpires(s: State, c: Connection, data: Value, env: Env, later: Time)
    requires IsPhone(c) && PhoneKey(c) !in s.workersData.entries
    requires Destructurable(data) && NewDate(Prop(data, "timestamp"), env.parseDate).Some?
    ensures var s1 := WorkerLocation(s, c, data, env).state;
      && s1.workersData.entries[PhoneKey(c)].phoneConnected
      && Sweep(s1, later).state.workersData.entries[PhoneKey(c)] == s1.workersData.entries[PhoneKey(c)]
  {
    var k := PhoneKey(c);
    var s1 := WorkerLocation(s, c, data, env).state;
    assert s1.workersData.entries[k].phoneLastHeartbeat == Blank(k).phoneLastHeartbeat;
  }

  /** The sweep marks a record disconnected but leaves its phone link in
      place, so the next accepted helmet post for that worker reports the
      phone connected again. */
  lemma HelmetPostAfterSweepRelinks(s: State, now: Time, body: Value, env: Env)
    requires IsJsonBody(body)
    requires Normalize(body).workerId in s.phoneConnections
    requires PostSensorData(Sweep(s, now).state, body, env).reply.SensorAccepted?
    ensures Normalize(body).workerId in Sweep(s, now).state.phoneConnections
    ensures PostSensorData(Sweep(s, now).state, body, env).state.workersData.entries[Normalize(body).workerId].phoneConnected
  {
  }
}
