/** `GetDashboardDataUseCase.execute`: a summary of every sensor, the ten
    most recent alerts labelled with their sensor's name, and counts. */
module Dashboard {
  import opened Wrappers
  import opened Alerts
  import opened Sensors
  import opened Ports

  /** `findRecent(10)` */
  const RecentAlertLimit: nat := 10
  const UnknownSensor := "Unknown Sensor"

  datatype SensorSummary = SensorSummary(id: Option<string>, name: string, location: string, isActive: bool)

  /** One alert as the dashboard shows it.  As with sensors, `alertData.id!`
      leaves an absent id absent, so the id stays optional. */
  datatype AlertResponseDto = AlertResponseDto(
    id: Option<string>,
    sensorId: string,
    sensorName: string,
    alertType: AlertType,
    severity: AlertSeverity,
    temperature: real,
    humidity: real,
    message: string,
    createdAt: Timestamp)

  datatype Statistics = Statistics(totalSensors: nat, activeSensors: nat, totalAlerts: nat)

  datatype DashboardData = DashboardData(
    sensors: seq<SensorSummary>,
    recentAlerts: seq<AlertResponseDto>,
    statistics: Statistics)

  /** The fields of `toJSON` a dashboard shows for a sensor. */
  function Summary(s: Sensor): (r: SensorSummary)
    reads s
    ensures r.id == s.id && r.name == s.name && r.location == s.location && r.isActive == s.isActive
  {
    var j := s.ToJSON();
    SensorSummary(j.id, j.name, j.location, j.isActive)
  }

  /** `sensors.map(...)` to summaries. */
  function Summaries(sensors: seq<Sensor>): (r: seq<SensorSummary>)
    reads sensors
    ensures |r| == |sensors|
    ensures forall i :: 0 <= i < |sensors| ==> r[i] == Summary(sensors[i])
  {
    if sensors == [] then [] else [Summary(sensors[0])] + Summaries(sensors[1..])
  }

  /** `sensors.find(s => s.getId() === sensorId)`, as a position: the first
      sensor with that id, or `|sensors|` when none has it. */
  function FindSensor(sensors: seq<Sensor>, sensorId: string): (k: nat)
    reads sensors
    ensures k <= |sensors|
    ensures k < |sensors| ==> sensors[k].id == Some(sensorId)
    ensures forall j :: 0 <= j < k ==> sensors[j].id != Some(sensorId)
  {
    if sensors == [] then 0
    else if sensors[0].id == Some(sensorId) then 0
    else 1 + FindSensor(sensors[1..], sensorId)
  }

  /** The name of the first sensor with the alert's sensor id, or
      "Unknown Sensor" when no sensor has it. */
  function SensorName(sensors: seq<Sensor>, sensorId: string): (name: string)
    reads sensors
    ensures (forall j :: 0 <= j < |sensors| ==> sensors[j].id != Some(sensorId)) ==> name == UnknownSensor
    ensures (exists j :: 0 <= j < |sensors| && sensors[j].id == Some(sensorId)) ==>
      exists k :: 0 <= k < |sensors| && sensors[k].id == Some(sensorId) && name == sensors[k].name
        && forall j :: 0 <= j < k ==> sensors[j].id != Some(sensorId)
  {
    var k := FindSensor(sensors, sensorId);
    if k < |sensors| then sensors[k].name else UnknownSensor
  }

  function AlertEntry(a: Alert, sensorName: string): AlertResponseDto {
    var j := a.ToJSON();
    AlertResponseDto(j.id, j.sensorId, sensorName, j.alertType, j.severity, j.temperature, j.humidity,
                     j.message, j.createdAt)
  }

  /** `recentAlerts.map(...)`, each alert labelled with its sensor's name. */
  function AlertEntries(alerts: seq<Alert>, sensors: seq<Sensor>): (r: seq<AlertResponseDto>)
    reads sensors
    ensures |r| == |alerts|
    ensures forall i :: 0 <= i < |alerts| ==> r[i] == AlertEntry(alerts[i], SensorName(sensors, alerts[i].sensorId))
  {
    if alerts == [] then []
    else
      var rest := AlertEntries(alerts[1..], sensors);
      assert forall i :: 1 <= i < |alerts| ==> alerts[i] == alerts[1..][i - 1];
      [AlertEntry(alerts[0], SensorName(sensors, alerts[0].sensorId))] + rest
  }

  /** `execute()`: `sensorsRead` is what `findAll()` returned or threw, and
      `alertsNewestFirst` the alert store's contents, newest first, or the
      error `findRecent` throws.  The sensor read's error is the one reported
      when both fail. */
  function Execute(sensorsRead: Result<seq<Sensor>>, alertsNewestFirst: Result<seq<Alert>>): (r: Result<DashboardData>)
    reads if sensorsRead.Ok? then sensorsRead.value else []
    ensures r.Err? <==> sensorsRead.Err? || alertsNewestFirst.Err?
    ensures sensorsRead.Err? ==> r == Err(sensorsRead.error)
    ensures sensorsRead.Ok? && alertsNewestFirst.Err? ==> r == Err(alertsNewestFirst.error)
    ensures r.Ok? ==> |r.value.sensors| == |sensorsRead.value|
    ensures r.Ok? ==> forall i :: 0 <= i < |sensorsRead.value| ==> r.value.sensors[i] == Summary(sensorsRead.value[i])
    ensures r.Ok? ==>
      var alerts := alertsNewestFirst.value;
      && |r.value.recentAlerts| == (if |alerts| < RecentAlertLimit then |alerts| else RecentAlertLimit)
      && forall i :: 0 <= i < |r.value.recentAlerts| ==>
           r.value.recentAlerts[i] == AlertEntry(alerts[i], SensorName(sensorsRead.value, alerts[i].sensorId))
    ensures r.Ok? ==>
      r.value.statistics == Statistics(|sensorsRead.value|, |ActiveSensors(sensorsRead.value)|, |r.value.recentAlerts|)
  {
    if sensorsRead.Err? then Err(sensorsRead.error)
    else if alertsNewestFirst.Err? then Err(alertsNewestFirst.error)
    else
      var sensors := sensorsRead.value;
      var recentAlerts := FindRecent(alertsNewestFirst.value, RecentAlertLimit);
      var activeSensors := ActiveSensors(sensors);
      Ok(DashboardData(
        Summaries(sensors),
        AlertEntries(recentAlerts, sensors),
        Statistics(|sensors|, |activeSensors|, |recentAlerts|)))
  }

  // ---------------------------------------------------------------------
  // Properties of the dashboard

  function CountActive(summaries: seq<SensorSummary>): nat {
    if summaries == [] then 0
    else (if summaries[0].isActive then 1 else 0) + CountActive(summaries[1..])
  }

  /** The active sensors are counted exactly as the summaries mark them. */
  lemma {:induction false} ActiveCountMatchesSummaries(sensors: seq<Sensor>)
    ensures CountActive(Summaries(sensors)) == |ActiveSensors(sensors)|
  {
    if sensors != [] {
      ActiveCountMatchesSummaries(sensors[1..]);
      assert Summaries(sensors)[1..] == Summaries(sensors[1..]);
    }
  }

  /** The statistics agree with the lists they describe: as many sensors as
      summaries, at most that many active, and between 0 and 10 alerts, the
      newest ones of the store in store order. */
  lemma StatisticsAgree(sensorsRead: Result<seq<Sensor>>, alertsNewestFirst: Result<seq<Alert>>)
    requires Execute(sensorsRead, alertsNewestFirst).Ok?
    ensures var d := Execute(sensorsRead, alertsNewestFirst).value;
      && d.statistics.totalSensors == |d.sensors|
      && d.statistics.activeSensors == CountActive(d.sensors) <= d.statistics.totalSensors
      && d.statistics.totalAlerts == |d.recentAlerts| <= RecentAlertLimit
      && d.statistics.totalAlerts == if |alertsNewestFirst.value| < RecentAlertLimit then |alertsNewestFirst.value|
                                    else RecentAlertLimit
  {
    ActiveCountMatchesSummaries(sensorsRead.value);
  }
}
