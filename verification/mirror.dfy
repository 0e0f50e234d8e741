/** How the dashboard's view agrees with the server: a poll of a consistent
    server leaves the client holding the server's records, and the colours
    and tiers a card shows follow the alerts the server derived. */
module Mirror {
  import opened Options
  import opened Js
  import opened JsMaps
  import opened Records
  import opened Normalizer
  import opened AlertEngine
  import opened Server
  import opened Runtime
  import opened Dashboard

  /** The listing of a consistent server names each worker once: records
      sit under their own `workerId`, and the insertion order has no
      repeated key. */
  lemma ListingIsDistinct(s: State)
    requires Consistent(s)
    ensures DistinctWorkers(ListWorkers(s).reply.records)
  {
    var data := ListWorkers(s).reply.records;
    var order := s.workersData.order;
    forall i, j | 0 <= i < |data| && 0 <= j < |data| && data[i].workerId == data[j].workerId
      ensures data[i] == data[j]
    {
      assert order[i] in s.workersData.entries && order[j] in s.workersData.entries;
      assert StoredRecord(order[i], s.workersData.entries[order[i]]);
      assert StoredRecord(order[j], s.workersData.entries[order[j]]);
    }
  }

  /** After a successful poll of `GET /api/workers`, the client holds every
      worker the server holds, each with exactly the server's record, and
      is marked connected. */
  lemma PollMirrorsServer(s: State, c: Client, granted: bool)
    requires Consistent(s)
    ensures var after := Poll(c, Fetched(ListWorkers(s).reply.records), granted).0;
      && after.connected
      && forall k :: k in s.workersData.entries ==>
           k in after.workers.entries && after.workers.entries[k] == s.workersData.entries[k]
  {
    var data := ListWorkers(s).reply.records;
    var after := Poll(c, Fetched(data), granted).0;
    ListingIsDistinct(s);
    forall k | k in s.workersData.entries
      ensures k in after.workers.entries && after.workers.entries[k] == s.workersData.entries[k]
    {
      var i :| 0 <= i < |s.workersData.order| && s.workersData.order[i] == k;
      assert StoredRecord(k, s.workersData.entries[k]);
      MergeStoresPolled(c.workers, data, i);
    }
  }

  /** The card paints the temperature red exactly when the server raised a
      temperature alert for that reading, and the gas level red exactly when
      it raised a gas alert: the card's danger thresholds are the server's
      alert limits. */
  lemma DangerColourMatchesAlerts(prev: Option<WorkerRecord>, info: Option<RegInfo>, id: string, rd: Reading,
                                  linked: bool, stamp: Time, now: Time)
    ensures var r := HelmetRecord(prev, info, id, rd, linked, stamp, now);
      && (ClassifySensor(r.temperature, TemperatureWarning, TemperatureDanger) == Danger <==>
          exists i :: 0 <= i < |r.alerts.value| && r.alerts.value[i].kind == TemperatureAlert)
      && (ClassifySensor(r.gasLevel, GasWarning, GasDanger) == Danger <==>
          exists i :: 0 <= i < |r.alerts.value| && r.alerts.value[i].kind == GasAlert)
  {
    var r := HelmetRecord(prev, info, id, rd, linked, stamp, now);
    assert Fires(TemperatureAlert, rd.temperature, rd.gasLevel, rd.fallDetected) <==> rd.temperature > TemperatureLimit;
    assert Fires(GasAlert, rd.temperature, rd.gasLevel, rd.fallDetected) <==> rd.gasLevel > GasLimit;
  }

  /** On a record as the server stores it, the card is in the emergency
      tier exactly when the server's status is `emergency`, in the warning
      tier exactly when alerts are listed but the status is `active`, and
      active otherwise. */
  lemma TierOfStoredRecord(k: Key, rec: WorkerRecord)
    requires StoredRecord(k, rec)
    ensures TierOf(rec) == EmergencyTier <==> rec.status == Some(Emergency)
    ensures TierOf(rec) == WarningTier <==> HasAlerts(rec) && rec.status == Some(Active)
    ensures TierOf(rec) == ActiveTier <==> !HasAlerts(rec)
  {
    assert Coherent(rec);
    if TierOf(rec) == WarningTier {
      assert HasAlerts(rec) && !InEmergency(rec);
      assert rec.status.Some?;
      assert rec.status.value != Emergency;
      assert rec.status == Some(Active);
    }
    if HasAlerts(rec) && rec.status == Some(Active) {
      assert !InEmergency(rec);
      assert TierOf(rec) == WarningTier;
    }
  }

  /** A hot reading with no dangerous gas and no fall shows a warning card
      whose temperature is painted red. */
  lemma HotReadingIsWarningCard(prev: Option<WorkerRecord>, info: Option<RegInfo>, id: string, rd: Reading,
                                linked: bool, stamp: Time, now: Time)
    requires rd.temperature > TemperatureLimit && rd.gasLevel <= GasLimit && !rd.fallDetected
    ensures var r := HelmetRecord(prev, info, id, rd, linked, stamp, now);
      TierOf(r) == WarningTier && ClassifySensor(r.temperature, TemperatureWarning, TemperatureDanger) == Danger
  {
    var r := HelmetRecord(prev, info, id, rd, linked, stamp, now);
    assert Fires(TemperatureAlert, rd.temperature, rd.gasLevel, rd.fallDetected);
  }

  /** Over records a consistent server lists, the dashboard's emergency
      counter counts exactly the workers whose status is `emergency`, so
      the active and emergency counters add up to the total. */
  lemma CountersPartitionListing(s: State)
    requires Consistent(s)
    ensures var ws := ListWorkers(s).reply.records;
      CountWhere(ws, NotFlaggedEmergency) + CountWhere(ws, InEmergency) == |ws|
  {
    var ws := ListWorkers(s).reply.records;
    forall i | 0 <= i < |ws|
      ensures InEmergency(ws[i]) <==> FlaggedEmergency(ws[i])
    {
      var k := s.workersData.order[i];
      assert StoredRecord(k, s.workersData.entries[k]);
    }
    CountGrows(ws, InEmergency, FlaggedEmergency);
    CountGrows(ws, FlaggedEmergency, InEmergency);
    CountSplits(ws, FlaggedEmergency, NotFlaggedEmergency);
  }
}
