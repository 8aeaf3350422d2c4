/** `ProcessAlertUseCase`: the consumer side of the pipeline.  A reading is
    looked up against its sensor, classified per dimension against the
    sensor's limits, and the resulting alerts are saved in order. */
module ProcessAlert {
  import opened Wrappers
  import opened Text
  import opened Limits
  import opened Alerts
  import opened Sensors
  import opened Ports

  const TemperatureCriticalThreshold: real := 5.0
  const HumidityCriticalThreshold: real := 10.0

  function Abs(x: real): real {
    if x < 0.0 then -x else x
  }

  /** `calculateSeverity`: CRITICAL when the value is at least the threshold
      away from the limit on either side, the threshold itself included. */
  function CalculateSeverity(value: real, limit: real, criticalThreshold: real): (s: AlertSeverity)
    ensures s == Critical <==> value - limit >= criticalThreshold || limit - value >= criticalThreshold
  {
    var difference := Abs(value - limit);
    if difference >= criticalThreshold then Critical else Warning
  }

  /** The human-readable text of an alert; `fmt` renders a number as
      JavaScript's template literals do.  Never blank. */
  function AlertMessage(t: AlertType, fmt: real -> string, value: real, limit: real, sensorName: string): (msg: string)
    ensures !IsBlank(msg)
  {
    var msg := match t
      case TemperatureHigh =>
        "Temperature " + fmt(value) + "°C exceeds maximum limit of " + fmt(limit) + "°C for sensor " + sensorName
      case TemperatureLow =>
        "Temperature " + fmt(value) + "°C below minimum limit of " + fmt(limit) + "°C for sensor " + sensorName
      case HumidityHigh =>
        "Humidity " + fmt(value) + "% exceeds maximum limit of " + fmt(limit) + "% for sensor " + sensorName
      case HumidityLow =>
        "Humidity " + fmt(value) + "% below minimum limit of " + fmt(limit) + "% for sensor " + sensorName;
    assert !IsWhitespace(msg[0]);
    msg
  }

  /** A breach found by one of the checks: its kind, its severity, and the
      reading value and bound the message quotes. */
  datatype Violation = Violation(alertType: AlertType, severity: AlertSeverity, value: real, limit: real)

  /** The temperature check: above the maximum, else below the minimum. */
  function TemperatureCheck(m: SensorDataMessage, l: SensorLimits): Option<Violation> {
    if m.temperature > l.maxTemperature then
      Some(Violation(TemperatureHigh,
        CalculateSeverity(m.temperature, l.maxTemperature, TemperatureCriticalThreshold),
        m.temperature, l.maxTemperature))
    else if m.temperature < l.minTemperature then
      Some(Violation(TemperatureLow,
        CalculateSeverity(l.minTemperature, m.temperature, TemperatureCriticalThreshold),
        m.temperature, l.minTemperature))
    else
      None
  }

  /** The humidity check, independent of the temperature check. */
  function HumidityCheck(m: SensorDataMessage, l: SensorLimits): Option<Violation> {
    if m.humidity > l.maxHumidity then
      Some(Violation(HumidityHigh,
        CalculateSeverity(m.humidity, l.maxHumidity, HumidityCriticalThreshold),
        m.humidity, l.maxHumidity))
    else if m.humidity < l.minHumidity then
      Some(Violation(HumidityLow,
        CalculateSeverity(l.minHumidity, m.humidity, HumidityCriticalThreshold),
        m.humidity, l.minHumidity))
    else
      None
  }

  /** The breaches of a reading, temperature first. */
  function Violations(m: SensorDataMessage, l: SensorLimits): seq<Violation> {
    AsSeq(TemperatureCheck(m, l)) + AsSeq(HumidityCheck(m, l))
  }

  /** The props of the alert raised for breach `v` of reading `m`. */
  function Candidate(m: SensorDataMessage, v: Violation, sensorName: string, fmt: real -> string): AlertProps {
    AlertProps(None, m.sensorId, v.alertType, v.severity, m.temperature, m.humidity,
               AlertMessage(v.alertType, fmt, v.value, v.limit, sensorName), None)
  }

  function TemperatureAlert(m: SensorDataMessage, l: SensorLimits, sensorName: string, fmt: real -> string): Option<AlertProps> {
    var v := TemperatureCheck(m, l);
    if v.Some? then Some(Candidate(m, v.value, sensorName, fmt)) else None
  }

  function HumidityAlert(m: SensorDataMessage, l: SensorLimits, sensorName: string, fmt: real -> string): Option<AlertProps> {
    var v := HumidityCheck(m, l);
    if v.Some? then Some(Candidate(m, v.value, sensorName, fmt)) else None
  }

  function AsSeq<T>(o: Option<T>): seq<T> {
    if o.Some? then [o.value] else []
  }

  /** The alerts a reading raises, temperature first.  There are at most two,
      none exactly when the reading is within all four (inclusive) limits, and
      every one carries the reading's sensor id, temperature and humidity. */
  function AlertCandidates(m: SensorDataMessage, l: SensorLimits, sensorName: string, fmt: real -> string)
    : (ps: seq<AlertProps>)
    ensures |ps| <= 2
    ensures ps == [] <==> l.IsTemperatureWithinLimits(m.temperature) && l.IsHumidityWithinLimits(m.humidity)
    ensures forall p :: p in ps ==>
      && p.sensorId == m.sensorId && p.temperature == m.temperature && p.humidity == m.humidity
      && p.id == None && p.createdAt == None && !IsBlank(p.message)
  {
    AsSeq(TemperatureAlert(m, l, sensorName, fmt)) + AsSeq(HumidityAlert(m, l, sensorName, fmt))
  }

  /** `new Alert(...)` for each candidate in turn; the first failure wins. */
  function BuildAlerts(ps: seq<AlertProps>, now: Timestamp): (r: Result<seq<Alert>>)
    ensures r.Ok? ==> |r.value| == |ps| && forall i :: 0 <= i < |ps| ==> NewAlert(ps[i], now) == Ok(r.value[i])
    ensures r.Err? ==> exists i :: 0 <= i < |ps| && NewAlert(ps[i], now) == Err(r.error)
    ensures (forall i :: 0 <= i < |ps| ==> NewAlert(ps[i], now).Ok?) ==> r.Ok?
  {
    if ps == [] then Ok([])
    else
      var first := NewAlert(ps[0], now);
      if first.Err? then Err(first.error)
      else
        var rest := BuildAlerts(ps[1..], now);
        if rest.Err? then rest
        else
          assert forall i :: 1 <= i < |ps| ==> ps[i] == ps[1..][i - 1];
          Ok([first.value] + rest.value)
  }

  /** The index of the first of `n` save attempts that fails, or `n` when none does. */
  function FirstFailure(failures: map<nat, string>, n: nat): (k: nat)
    ensures k <= n
    ensures k < n ==> k in failures
    ensures forall j :: 0 <= j < k ==> j !in failures
  {
    if n == 0 then 0
    else
      var k := FirstFailure(failures, n - 1);
      if k < n - 1 then k
      else if n - 1 in failures then n - 1
      else n
  }

  /** The save loop: alerts before the first failing save stay saved, later
      ones are not attempted, and that save's error is rethrown. */
  function PersistOutcome(stored: seq<Alert>, alerts: seq<Alert>, failures: map<nat, string>)
    : (seq<Alert>, Outcome)
  {
    var k := FirstFailure(failures, |alerts|);
    (stored + alerts[..k], if k < |alerts| then Fail(failures[k]) else Pass)
  }

  /** What processing a reading for an active sensor does to the store. */
  function Evaluate(stored: seq<Alert>, m: SensorDataMessage, l: SensorLimits, sensorName: string,
                    failures: map<nat, string>, fmt: real -> string, now: Timestamp)
    : (seq<Alert>, Outcome)
  {
    var built := BuildAlerts(AlertCandidates(m, l, sensorName, fmt), now);
    if built.Err? then (stored, Fail(built.error))
    else PersistOutcome(stored, built.value, failures)
  }

  /** Building alerts for a concatenation of candidates: the first part is
      built first, and the first failure wins. */
  lemma {:induction false} BuildAlertsAppend(ps: seq<AlertProps>, qs: seq<AlertProps>, now: Timestamp)
    ensures BuildAlerts(ps + qs, now) ==
      if BuildAlerts(ps, now).Err? then BuildAlerts(ps, now)
      else if BuildAlerts(qs, now).Err? then BuildAlerts(qs, now)
      else Ok(BuildAlerts(ps, now).value + BuildAlerts(qs, now).value)
  {
    if ps == [] {
      assert ps + qs == qs;
      assert BuildAlerts(ps, now) == Ok([]);
      if BuildAlerts(qs, now).Ok? {
        assert [] + BuildAlerts(qs, now).value == BuildAlerts(qs, now).value;
      }
    } else {
      var first := NewAlert(ps[0], now);
      assert (ps + qs)[0] == ps[0];
      assert (ps + qs)[1..] == ps[1..] + qs;
      BuildAlertsAppend(ps[1..], qs, now);
      if first.Ok? {
        var a, b := BuildAlerts(ps[1..], now), BuildAlerts(qs, now);
        if a.Ok? && b.Ok? {
          assert [first.value] + (a.value + b.value) == ([first.value] + a.value) + b.value;
        }
      }
    }
  }

  /** Building a single candidate is one `new Alert`. */
  lemma BuildOne(p: AlertProps, now: Timestamp)
    ensures BuildAlerts([p], now) ==
      if NewAlert(p, now).Err? then Err(NewAlert(p, now).error) else Ok([NewAlert(p, now).value])
  {
    assert [p][1..] == [];
    assert BuildAlerts([], now) == Ok([]);
    if NewAlert(p, now).Ok? {
      assert [NewAlert(p, now).value] + [] == [NewAlert(p, now).value];
    }
  }

  /** The temperature block of `execute`: at most one alert, pushed after a
      successful `new Alert`. */
  method CheckTemperature(m: SensorDataMessage, limits: SensorLimits, sensorName: string,
                          fmt: real -> string, now: Timestamp)
    returns (r: Result<seq<Alert>>)
    ensures r == BuildAlerts(AsSeq(TemperatureAlert(m, limits, sensorName, fmt)), now)
  {
    var alerts: seq<Alert> := [];
    if m.temperature > limits.maxTemperature {
      var props := Candidate(m, TemperatureCheck(m, limits).value, sensorName, fmt);
      assert AsSeq(TemperatureAlert(m, limits, sensorName, fmt)) == [props];
      BuildOne(props, now);
      var alert := NewAlert(props, now);
      if alert.Err? {
        return Err(alert.error);
      }
      alerts := alerts + [alert.value];
      assert alerts == [alert.value];
    } else if m.temperature < limits.minTemperature {
      var props := Candidate(m, TemperatureCheck(m, limits).value, sensorName, fmt);
      assert AsSeq(TemperatureAlert(m, limits, sensorName, fmt)) == [props];
      BuildOne(props, now);
      var alert := NewAlert(props, now);
      if alert.Err? {
        return Err(alert.error);
      }
      alerts := alerts + [alert.value];
      assert alerts == [alert.value];
    }
    r := Ok(alerts);
  }

  /** The humidity block of `execute`, the same shape as the temperature one. */
  method CheckHumidity(m: SensorDataMessage, limits: SensorLimits, sensorName: string,
                       fmt: real -> string, now: Timestamp)
    returns (r: Result<seq<Alert>>)
    ensures r == BuildAlerts(AsSeq(HumidityAlert(m, limits, sensorName, fmt)), now)
  {
    var alerts: seq<Alert> := [];
    if m.humidity > limits.maxHumidity {
      var props := Candidate(m, HumidityCheck(m, limits).value, sensorName, fmt);
      assert AsSeq(HumidityAlert(m, limits, sensorName, fmt)) == [props];
      BuildOne(props, now);
      var alert := NewAlert(props, now);
      if alert.Err? {
        return Err(alert.error);
      }
      alerts := alerts + [alert.value];
      assert alerts == [alert.value];
    } else if m.humidity < limits.minHumidity {
      var props := Candidate(m, HumidityCheck(m, limits).value, sensorName, fmt);
      assert AsSeq(HumidityAlert(m, limits, sensorName, fmt)) == [props];
      BuildOne(props, now);
      var alert := NewAlert(props, now);
      if alert.Err? {
        return Err(alert.error);
      }
      alerts := alerts + [alert.value];
      assert alerts == [alert.value];
    }
    r := Ok(alerts);
  }

  /** The save loop of `execute`: saves in order and stops at, and rethrows,
      the first failing save. */
  method SaveAll(alerts: seq<Alert>, store: AlertStore, saveFailures: map<nat, string>) returns (r: Outcome)
    modifies store
    ensures (store.alerts, r) == PersistOutcome(old(store.alerts), alerts, saveFailures)
  {
    var i := 0;
    while i < |alerts|
      invariant 0 <= i <= |alerts|
      invariant store.alerts == old(store.alerts) + alerts[..i]
      invariant forall j :: 0 <= j < i ==> j !in saveFailures
    {
      var failure := if i in saveFailures then Some(saveFailures[i]) else None;
      var saved := store.Save(alerts[i], failure);
      if saved.Fail? {
        assert FirstFailure(saveFailures, |alerts|) == i;
        return saved;
      }
      i := i + 1;
    }
    assert alerts[..i] == alerts;
    r := Pass;
  }

  /** `execute(sensorData)`.  `findById` looks the sensor up in `directory`,
      or throws `lookupFailure` when that is present; the k-th `save` of this
      call throws `saveFailures[k]` when that key is present. */
  method Execute(m: SensorDataMessage, directory: map<string, Sensor>, lookupFailure: Option<string>,
                 store: AlertStore, saveFailures: map<nat, string>, fmt: real -> string, now: Timestamp)
    returns (r: Outcome)
    modifies store
    ensures lookupFailure.Some? ==> r == Fail(lookupFailure.value) && store.alerts == old(store.alerts)
    ensures lookupFailure.None? && m.sensorId !in directory ==> r == Pass && store.alerts == old(store.alerts)
    ensures lookupFailure.None? && m.sensorId in directory && !directory[m.sensorId].isActive
            ==> r == Pass && store.alerts == old(store.alerts)
    ensures lookupFailure.None? && m.sensorId in directory && directory[m.sensorId].isActive
            ==> (store.alerts, r) == Evaluate(old(store.alerts), m, directory[m.sensorId].limits,
                                              directory[m.sensorId].name, saveFailures, fmt, now)
  {
    if lookupFailure.Some? {
      return Fail(lookupFailure.value);
    }
    if m.sensorId !in directory {
      return Pass;
    }
    var sensor := directory[m.sensorId];
    if !sensor.isActive {
      return Pass;
    }
    var limits := sensor.limits;
    BuildAlertsAppend(AsSeq(TemperatureAlert(m, limits, sensor.name, fmt)),
                      AsSeq(HumidityAlert(m, limits, sensor.name, fmt)), now);
    var temperatureAlerts := CheckTemperature(m, limits, sensor.name, fmt, now);
    if temperatureAlerts.Err? {
      return Fail(temperatureAlerts.error);
    }
    var humidityAlerts := CheckHumidity(m, limits, sensor.name, fmt, now);
    if humidityAlerts.Err? {
      return Fail(humidityAlerts.error);
    }
    var alerts := temperatureAlerts.value + humidityAlerts.value;
    r := SaveAll(alerts, store, saveFailures);
  }

  // ---------------------------------------------------------------------
  // Properties of the classification (the limit policy)

  predicate IsTemperatureType(t: AlertType) {
    t == TemperatureHigh || t == TemperatureLow
  }

  function CountOfType(vs: seq<Violation>, t: AlertType): nat {
    if vs == [] then 0
    else (if vs[0].alertType == t then 1 else 0) + CountOfType(vs[1..], t)
  }

  lemma {:induction false} CountOfTypeAppend(vs: seq<Violation>, ws: seq<Violation>, t: AlertType)
    ensures CountOfType(vs + ws, t) == CountOfType(vs, t) + CountOfType(ws, t)
  {
    if vs == [] {
      assert vs + ws == ws;
    } else {
      assert (vs + ws)[1..] == vs[1..] + ws;
      CountOfTypeAppend(vs[1..], ws, t);
    }
  }

  /** Each dimension yields exactly one alert of a kind when its value is past
      that bound, and none otherwise; a value equal to a bound yields none. */
  lemma Classification(m: SensorDataMessage, l: SensorLimits)
    requires l.Valid()
    ensures var vs := Violations(m, l);
      && CountOfType(vs, TemperatureHigh) == (if m.temperature > l.maxTemperature then 1 else 0)
      && CountOfType(vs, TemperatureLow) == (if m.temperature < l.minTemperature then 1 else 0)
      && CountOfType(vs, HumidityHigh) == (if m.humidity > l.maxHumidity then 1 else 0)
      && CountOfType(vs, HumidityLow) == (if m.humidity < l.minHumidity then 1 else 0)
  {
    var ts, hs := AsSeq(TemperatureCheck(m, l)), AsSeq(HumidityCheck(m, l));
    CountOfTypeAppend(ts, hs, TemperatureHigh);
    CountOfTypeAppend(ts, hs, TemperatureLow);
    CountOfTypeAppend(ts, hs, HumidityHigh);
    CountOfTypeAppend(ts, hs, HumidityLow);
  }

  /** A temperature alert always comes before a humidity alert. */
  lemma TemperatureBeforeHumidity(m: SensorDataMessage, l: SensorLimits)
    ensures var vs := Violations(m, l);
      forall i, j :: 0 <= i < j < |vs| ==> IsTemperatureType(vs[i].alertType) && !IsTemperatureType(vs[j].alertType)
  {
    var ts, hs := AsSeq(TemperatureCheck(m, l)), AsSeq(HumidityCheck(m, l));
    var vs := Violations(m, l);
    assert vs == ts + hs;
    if |vs| == 2 {
      assert |ts| == 1 && |hs| == 1;
      assert vs[0] == ts[0] && vs[1] == hs[0];
    }
  }

  /** The alerts raised for a reading are its breaches, one for one and in
      order, each with the kind and severity of its breach. */
  lemma CandidatesFollowViolations(m: SensorDataMessage, l: SensorLimits, sensorName: string, fmt: real -> string)
    ensures var ps, vs := AlertCandidates(m, l, sensorName, fmt), Violations(m, l);
      && |ps| == |vs|
      && forall i :: 0 <= i < |ps| ==> ps[i] == Candidate(m, vs[i], sensorName, fmt)
  {
    var vt, vh := TemperatureCheck(m, l), HumidityCheck(m, l);
    var ts, hs := AsSeq(TemperatureAlert(m, l, sensorName, fmt)), AsSeq(HumidityAlert(m, l, sensorName, fmt));
    assert AlertCandidates(m, l, sensorName, fmt) == ts + hs;
    assert Violations(m, l) == AsSeq(vt) + AsSeq(vh);
  }

  /** How far the reading is past the bound a breach reports. */
  function Excess(v: Violation, m: SensorDataMessage, l: SensorLimits): real {
    match v.alertType
    case TemperatureHigh => m.temperature - l.maxTemperature
    case TemperatureLow => l.minTemperature - m.temperature
    case HumidityHigh => m.humidity - l.maxHumidity
    case HumidityLow => l.minHumidity - m.humidity
  }

  function CriticalThreshold(t: AlertType): real {
    if IsTemperatureType(t) then TemperatureCriticalThreshold else HumidityCriticalThreshold
  }

  /** Every alert is for a strict breach, and it is CRITICAL exactly when the
      breach is at least the threshold of its dimension (5 degrees, 10 points). */
  lemma SeverityRule(m: SensorDataMessage, l: SensorLimits)
    ensures forall v :: v in Violations(m, l) ==>
      Excess(v, m, l) > 0.0 && (v.severity == Critical <==> Excess(v, m, l) >= CriticalThreshold(v.alertType))
  {
    var ts, hs := AsSeq(TemperatureCheck(m, l)), AsSeq(HumidityCheck(m, l));
    assert forall v :: v in ts ==>
      Excess(v, m, l) > 0.0 && (v.severity == Critical <==> Excess(v, m, l) >= TemperatureCriticalThreshold);
    assert forall v :: v in hs ==>
      Excess(v, m, l) > 0.0 && (v.severity == Critical <==> Excess(v, m, l) >= HumidityCriticalThreshold);
    assert Violations(m, l) == ts + hs;
  }

  function Kinds(vs: seq<Violation>): seq<(AlertType, AlertSeverity)> {
    seq(|vs|, i requires 0 <= i < |vs| => (vs[i].alertType, vs[i].severity))
  }

  /** Limits {18, 26, 40, 60}: 30/50 is a high-temperature warning, 35/50 is
      critical, and 30/70 adds a critical high-humidity alert (10 points over,
      the threshold counts). */
  lemma ReferenceScenarios(sensorId: string, now: Timestamp)
    ensures var l := SensorLimits(18.0, 26.0, 40.0, 60.0);
      && Kinds(Violations(SensorDataMessage(sensorId, 30.0, 50.0, now), l)) == [(TemperatureHigh, Warning)]
      && Kinds(Violations(SensorDataMessage(sensorId, 35.0, 50.0, now), l)) == [(TemperatureHigh, Critical)]
      && Kinds(Violations(SensorDataMessage(sensorId, 30.0, 70.0, now), l))
         == [(TemperatureHigh, Warning), (HumidityHigh, Critical)]
  {
  }

  // ---------------------------------------------------------------------
  // Properties of processing a reading for an active sensor

  /** A reading within all four limits causes no save and completes normally. */
  lemma WithinLimitsSavesNothing(stored: seq<Alert>, m: SensorDataMessage, l: SensorLimits, sensorName: string,
                                 failures: map<nat, string>, fmt: real -> string, now: Timestamp)
    requires l.IsTemperatureWithinLimits(m.temperature) && l.IsHumidityWithinLimits(m.humidity)
    ensures Evaluate(stored, m, l, sensorName, failures, fmt, now) == (stored, Pass)
  {
    assert AlertCandidates(m, l, sensorName, fmt) == [];
    assert stored + [] == stored;
  }

  /** With a sensor id and no failing save, every alert the reading raises is
      saved, in order, after what the store already held. */
  lemma ViolationsAreSavedInOrder(stored: seq<Alert>, m: SensorDataMessage, l: SensorLimits, sensorName: string,
                                  failures: map<nat, string>, fmt: real -> string, now: Timestamp)
    requires m.sensorId != ""
    requires forall j :: 0 <= j < 2 ==> j !in failures
    ensures var ps := AlertCandidates(m, l, sensorName, fmt);
      var (after, r) := Evaluate(stored, m, l, sensorName, failures, fmt, now);
      && r == Pass && |after| == |stored| + |ps| && after[..|stored|] == stored
      && forall i :: 0 <= i < |ps| ==> NewAlert(ps[i], now) == Ok(after[|stored| + i])
  {
    var ps := AlertCandidates(m, l, sensorName, fmt);
    var built := BuildAlerts(ps, now);
    assert built.Ok?;
    assert FirstFailure(failures, |built.value|) == |built.value|;
    assert built.value[..|built.value|] == built.value;
  }

  /** An empty sensor id makes the first `new Alert` throw, before any save. */
  lemma EmptySensorIdSavesNothing(stored: seq<Alert>, m: SensorDataMessage, l: SensorLimits, sensorName: string,
                                  failures: map<nat, string>, fmt: real -> string, now: Timestamp)
    requires m.sensorId == ""
    requires !(l.IsTemperatureWithinLimits(m.temperature) && l.IsHumidityWithinLimits(m.humidity))
    ensures Evaluate(stored, m, l, sensorName, failures, fmt, now) == (stored, Fail(SensorIdRequired))
  {
    var ps := AlertCandidates(m, l, sensorName, fmt);
    assert ps[0] in ps;
  }

  // ---------------------------------------------------------------------
  // Message settlement by the consumer

  datatype Delivery = Ack | NackRequeue

  /** The consumer acknowledges when `execute` returns normally and
      negatively acknowledges, with requeue, when it throws. */
  function Settle(r: Outcome): (d: Delivery)
    ensures d == Ack <==> r.Pass?
    ensures d == NackRequeue <==> r.Fail?
  {
    if r.Pass? then Ack else NackRequeue
  }

  /** A save failure after k successful saves gets the message requeued; a
      redelivery that then succeeds saves all alerts again, so the first k are
      stored twice. */
  lemma RedeliveryDuplicatesSavedPrefix(stored: seq<Alert>, alerts: seq<Alert>, failures: map<nat, string>)
    requires FirstFailure(failures, |alerts|) < |alerts|
    ensures var k := FirstFailure(failures, |alerts|);
      var (afterFailure, r) := PersistOutcome(stored, alerts, failures);
      && Settle(r) == NackRequeue
      && afterFailure == stored + alerts[..k]
      && PersistOutcome(afterFailure, alerts, map[]) == (stored + alerts[..k] + alerts, Pass)
  {
    assert FirstFailure(map[], |alerts|) == |alerts|;
    assert alerts[..|alerts|] == alerts;
  }
}
