/** The threshold rules that turn one helmet reading into an alert list and an
    overall status (server.js, the block after the helmet merge). */
module AlertEngine {
  import opened Options
  import opened Records

  /** Degrees Celsius above which a temperature alert is raised. */
  const TemperatureLimit: real := 40.0

  /** Parts per million above which a gas alert is raised. */
  const GasLimit: real := 300.0

  datatype Verdict = Verdict(alerts: seq<Alert>, status: Status)

  /** The position of each rule in evaluation order. */
  function Rank(k: AlertKind): nat {
    match k
    case TemperatureAlert => 0
    case GasAlert => 1
    case FallAlert => 2
  }

  /** Whether the rule for `k` fires on a reading. */
  predicate Fires(k: AlertKind, temperature: real, gasLevel: real, fall: bool) {
    match k
    case TemperatureAlert => temperature > TemperatureLimit
    case GasAlert => gasLevel > GasLimit
    case FallAlert => fall
  }

  /** The alert a firing rule adds: temperature is `high`, gas and fall are `critical`. */
  function AlertFor(k: AlertKind, temperature: real, gasLevel: real): Alert {
    match k
    case TemperatureAlert => Alert(TemperatureAlert, HighTemperature(temperature), High)
    case GasAlert => Alert(GasAlert, DangerousGas(gasLevel), Critical)
    case FallAlert => Alert(FallAlert, FallMessage, Critical)
  }

  /** The alert a rule contributes: its alert when it fires, nothing otherwise. */
  function RuleOutput(k: AlertKind, temperature: real, gasLevel: real, fall: bool): seq<Alert> {
    if Fires(k, temperature, gasLevel, fall) then [AlertFor(k, temperature, gasLevel)] else []
  }

  /** The rules' outputs concatenated in evaluation order. */
  function RuleAlerts(temperature: real, gasLevel: real, fall: bool): seq<Alert> {
    RuleOutput(TemperatureAlert, temperature, gasLevel, fall)
      + RuleOutput(GasAlert, temperature, gasLevel, fall)
      + RuleOutput(FallAlert, temperature, gasLevel, fall)
  }

  /** Each listed alert is the alert of its own rule, and the rules appear in order. */
  lemma RuleAlertsShape(temperature: real, gasLevel: real, fall: bool)
    ensures var a := RuleAlerts(temperature, gasLevel, fall);
      && (forall i :: 0 <= i < |a| ==> a[i] == AlertFor(a[i].kind, temperature, gasLevel))
      && (forall i :: 0 <= i < |a| ==> Fires(a[i].kind, temperature, gasLevel, fall))
      && (forall i, j :: 0 <= i < j < |a| ==> Rank(a[i].kind) < Rank(a[j].kind))
  {
  }

  /** A rule is listed exactly when it fires. */
  lemma RuleAlertsCover(temperature: real, gasLevel: real, fall: bool, k: AlertKind)
    ensures var a := RuleAlerts(temperature, gasLevel, fall);
      Fires(k, temperature, gasLevel, fall) <==> exists i :: 0 <= i < |a| && a[i].kind == k
  {
    var t := RuleOutput(TemperatureAlert, temperature, gasLevel, fall);
    var g := RuleOutput(GasAlert, temperature, gasLevel, fall);
    var a := RuleAlerts(temperature, gasLevel, fall);
    RuleAlertsShape(temperature, gasLevel, fall);
    if Fires(k, temperature, gasLevel, fall) {
      if k == TemperatureAlert {
        assert a[0].kind == k;
      } else if k == GasAlert {
        assert a[|t|].kind == k;
      } else {
        assert a[|t| + |g|].kind == k;
      }
    }
  }

  /** A critical alert is listed exactly when the gas or the fall rule fires. */
  lemma RuleAlertsCritical(temperature: real, gasLevel: real, fall: bool)
    ensures HasCritical(RuleAlerts(temperature, gasLevel, fall)) <==> gasLevel > GasLimit || fall
  {
    var t := RuleOutput(TemperatureAlert, temperature, gasLevel, fall);
    var g := RuleOutput(GasAlert, temperature, gasLevel, fall);
    var a := RuleAlerts(temperature, gasLevel, fall);
    RuleAlertsShape(temperature, gasLevel, fall);
    if gasLevel > GasLimit {
      assert a[|t|].severity == Critical;
    } else if fall {
      assert a[|t| + |g|].severity == Critical;
    }
  }

  /** The alerts list is rebuilt from empty: one alert per firing rule, in
      rule order, and the status is an emergency exactly when a critical
      alert fired, i.e. on dangerous gas or a fall. A temperature alert alone
      leaves the worker active. */
  function Derive(temperature: real, gasLevel: real, fall: bool): (v: Verdict)
    ensures forall i, j :: 0 <= i < j < |v.alerts| ==> Rank(v.alerts[i].kind) < Rank(v.alerts[j].kind)
    ensures forall k :: Fires(k, temperature, gasLevel, fall) <==> exists i :: 0 <= i < |v.alerts| && v.alerts[i].kind == k
    ensures forall i :: 0 <= i < |v.alerts| ==> v.alerts[i] == AlertFor(v.alerts[i].kind, temperature, gasLevel)
    ensures v.status == Emergency <==> HasCritical(v.alerts)
    ensures v.status == Emergency <==> gasLevel > GasLimit || fall
  {
    RuleAlertsShape(temperature, gasLevel, fall);
    RuleAlertsCritical(temperature, gasLevel, fall);
    assert forall k :: Fires(k, temperature, gasLevel, fall) <==>
      exists i :: 0 <= i < |RuleAlerts(temperature, gasLevel, fall)| && RuleAlerts(temperature, gasLevel, fall)[i].kind == k by {
      forall k {
        RuleAlertsCover(temperature, gasLevel, fall, k);
      }
    }
    Verdict(RuleAlerts(temperature, gasLevel, fall), if gasLevel > GasLimit || fall then Emergency else Active)
  }

  /** Given 41 degrees and nothing else, exactly one `temperature`/`high`
      alert is raised and the worker stays active. */
  lemma HotWorkerStaysActive()
    ensures Derive(41.0, 0.0, false) == Verdict([Alert(TemperatureAlert, HighTemperature(41.0), High)], Active)
  {
  }

  /** A gas reading of 350 ppm raises a `gas`/`critical` alert and an emergency. */
  lemma DangerousGasIsEmergency(temperature: real)
    requires temperature <= TemperatureLimit
    ensures Derive(temperature, 350.0, false) == Verdict([Alert(GasAlert, DangerousGas(350.0), Critical)], Emergency)
  {
  }

  /** A fall alone raises one `fall`/`critical` alert and an emergency. */
  lemma FallIsEmergency(temperature: real, gasLevel: real)
    requires temperature <= TemperatureLimit && gasLevel <= GasLimit
    ensures Derive(temperature, gasLevel, true) == Verdict([Alert(FallAlert, FallMessage, Critical)], Emergency)
  {
  }
}
