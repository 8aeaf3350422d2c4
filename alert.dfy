/** The `Alert` entity: an immutable record of one limit violation. */
module Alerts {
  import opened Wrappers
  import opened Text

  datatype AlertType = TemperatureHigh | TemperatureLow | HumidityHigh | HumidityLow

  datatype AlertSeverity = Warning | Critical

  const SensorIdRequired := "Sensor ID is required"
  const MessageRequired := "Alert message is required"

  /** The constructor's argument; `id` and `createdAt` are optional. */
  datatype AlertProps = AlertProps(
    id: Option<string>,
    sensorId: string,
    alertType: AlertType,
    severity: AlertSeverity,
    temperature: real,
    humidity: real,
    message: string,
    createdAt: Option<Timestamp>)

  /** The plain record `toJSON` returns. */
  datatype AlertJson = AlertJson(
    id: Option<string>,
    sensorId: string,
    alertType: AlertType,
    severity: AlertSeverity,
    temperature: real,
    humidity: real,
    message: string,
    createdAt: Timestamp)

  /** All fields are read-only, so an `Alert` is a value: no operation changes
      it after construction.  The fields are the getters. */
  datatype Alert = Alert(
    id: Option<string>,
    sensorId: string,
    alertType: AlertType,
    severity: AlertSeverity,
    temperature: real,
    humidity: real,
    message: string,
    createdAt: Timestamp)
  {
    ghost predicate Valid() {
      sensorId != "" && !IsBlank(message)
    }

    function ToJSON(): (j: AlertJson)
      ensures j.id == id && j.alertType == alertType && j.severity == severity && j.createdAt == createdAt
      ensures j.temperature == temperature && j.humidity == humidity
      ensures j.sensorId == sensorId && j.message == message
      ensures Valid() ==> j.sensorId != "" && !IsBlank(j.message)
    {
      AlertJson(id, sensorId, alertType, severity, temperature, humidity, message, createdAt)
    }
  }

  /** `new Alert(props)`: the sensor id is checked before the message; on
      success the getters and `toJSON` give back exactly the arguments, with
      `createdAt` defaulting to the current time. */
  function NewAlert(p: AlertProps, now: Timestamp): (r: Result<Alert>)
    ensures p.sensorId == "" ==> r == Err(SensorIdRequired)
    ensures p.sensorId != "" && IsBlank(p.message) ==> r == Err(MessageRequired)
    ensures r.Ok? <==> p.sensorId != "" && !IsBlank(p.message)
    ensures r.Ok? ==> r.value.Valid()
    ensures r.Ok? ==> r.value.ToJSON() == AlertJson(
      p.id, p.sensorId, p.alertType, p.severity, p.temperature, p.humidity, p.message,
      p.createdAt.GetOr(now))
  {
    var a := Alert(p.id, p.sensorId, p.alertType, p.severity, p.temperature, p.humidity,
                   p.message, p.createdAt.GetOr(now));
    if a.sensorId == "" then Err(SensorIdRequired)
    else if IsBlank(a.message) then Err(MessageRequired)
    else Ok(a)
  }
}
