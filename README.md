# Sensor monitoring pipeline — a verified Dafny model of its domain core

The system watches environmental sensors. A producer samples a temperature
and a humidity reading for every active sensor and publishes it to the
`sensor-data` queue. A consumer evaluates each reading against the limits of
its sensor and stores WARNING or CRITICAL alerts. An HTTP API registers
sensors, lists them and serves a dashboard. This project models the domain
layer and the use cases that orchestrate it:

- the value objects `SensorLimits`, `Temperature` and `Humidity`
  (`sensor_limits.dfy`, `temperature.dfy`, `humidity.dfy`), built by
  functions that return the constructor's error message or the value;
- the `Alert` entity, an immutable value (`alert.dfy`), and the `Sensor`
  entity, a class whose update methods change one field plus `updatedAt` or
  fail and change nothing (`sensor.dfy`);
- the blank-string test the entities share, `s.trim().length === 0`
  (`text.dfy`);
- the repositories and the queue, reduced to the state the use cases change:
  an alert store that `save` appends to, a sensor repository that records
  `save` calls, a queue that `publish` appends to (`ports.dfy`);
- alert evaluation, `ProcessAlertUseCase` (`process_alert.dfy`):
  classification of a reading, severity, and the save loop that aborts on the
  first failure; plus the consumer's ack / requeue decision;
- the reading producer, `CollectSensorDataUseCase`
  (`collect_sensor_data.dfy`): sampling, validation and the publish loop;
- registration, listing and the dashboard (`sensor_dto.dfy`,
  `register_sensor.dfy`, `get_sensors.dfy`, `dashboard.dfy`).

Modelling conventions:

- A JavaScript `number` is a `real`, so comparisons and `Math.abs` are
  exact.
- A `Date` is a `Timestamp` (an `int`). The current time is a `now`
  parameter.
- A thrown `Error` becomes `Err(message)` or `Fail(message)` carrying the
  source's message.
- A failing infrastructure call is decided by an oracle argument. Alert
  saves take a map from the save call's index (0 for the first alert of the
  reading) to the message it throws. Publishes take a map keyed by the
  sensor's position in the fetched list, not by the publish call's number, so
  a sensor whose sample is rejected consumes no publish but keeps its key.
  Whole-call reads and replies are a `Result` or `Option` argument: the
  sensor lookup in alert processing (`lookupFailure`), the registration save
  (`saveReply`), the producer's sensor read (`fetched`), the listing reads and
  the dashboard's two reads.
- The producer aborts the whole tick on the first failed publish, and later
  sensors of that tick are not published (`FailureStopsTheTick`).
- The loops the source writes (the save loop, the publish loop) are
  `while` loops in methods. Each method is proved equal to a reference
  function (`Evaluate`, `Collect`). The lemmas state what the source
  promises about those functions.

Each `execute` that loops is split into helper methods with their own
contracts, one per step of the source's body. For alert evaluation these are
`CheckTemperature`, `CheckHumidity` and `SaveAll`. For the producer they are
`PublishAll` and `CollectOne`. The order of the steps and their effects are
those of the single source method.

## Model

| member | source | states |
|---|---|---|
| Limits.NewSensorLimits | api-principal/sensor-service/src/domain/value-objects/SensorLimits.ts:14-29 | temperature order, then humidity order, then humidity range decide the error in that order (equality rejected, 0 and 100 accepted); success exactly when minT < maxT and 0 ≤ minH < maxH ≤ 100, and the getters then return the inputs |
| Limits.RebuildFromProps | api-principal/sensor-service/src/domain/value-objects/SensorLimits.ts:25-45 | limits rebuilt from their own getters are the same limits |
| Limits.SensorLimits.IsTemperatureWithinLimits | api-principal/sensor-service/src/domain/value-objects/SensorLimits.ts:47-49 | a temperature equal to either bound of valid limits is within them, one below the minimum or above the maximum is not |
| Limits.SensorLimits.IsHumidityWithinLimits | api-principal/sensor-service/src/domain/value-objects/SensorLimits.ts:51-53 | a humidity equal to either bound of valid limits is within them, one below the minimum or above the maximum is not |
| TemperatureValue.NewTemperature | api-principal/src/domain/value-objects/Temperature.ts:7-15 | below −273.15 and above 200 are rejected with their messages; the closed interval is accepted and `getValue` returns the argument |
| TemperatureValue.Temperature.IsAbove | api-principal/src/domain/value-objects/Temperature.ts:21-27 | strict: false at equality, and never true together with `isBelow` |
| TemperatureValue.Temperature.IsBelow | api-principal/src/domain/value-objects/Temperature.ts:25-27 | strict: false at equality |
| HumidityValue.NewHumidity | sensor-service/src/domain/value-objects/Humidity.ts:4-9 | fails exactly when the value is below 0 or above 100, with its message; otherwise `getValue` returns the argument |
| HumidityValue.Humidity.IsAbove | sensor-service/src/domain/value-objects/Humidity.ts:15-21 | strict: false at equality, and never true together with `isBelow` |
| HumidityValue.Humidity.IsBelow | sensor-service/src/domain/value-objects/Humidity.ts:19-21 | strict: false at equality |
| Text.TrimStart | notification-service/src/domain/entities/Alert.ts:52 | leading whitespace removed: a suffix starting with a non-whitespace character, everything dropped is whitespace |
| Text.TrimEnd | notification-service/src/domain/entities/Alert.ts:52 | trailing whitespace removed: a prefix ending with a non-whitespace character, everything dropped is whitespace |
| Text.TrimEmptyIffBlank | sensor-service/src/domain/entities/Sensor.ts:37-41 | `trim()` gives the empty string exactly when every character is whitespace, which is the `IsBlank` test the entities use |
| Alerts.NewAlert | notification-service/src/domain/entities/Alert.ts:35-55 | an empty sensor id fails first, then a blank message; success exactly otherwise, and `toJSON` returns the arguments with `createdAt` defaulting to now |
| Alerts.Alert.ToJSON | notification-service/src/domain/entities/Alert.ts:89-100 | the record carries the alert's fields unchanged, and a valid alert's record has a non-empty sensor id and a non-blank message |
| Sensors.ConstructionError | sensor-service/src/domain/entities/Sensor.ts:24-43 | a limits error wins over a blank name, which wins over a blank location; no error exactly when all three are valid |
| Sensors.Sensor.Create | sensor-service/src/domain/entities/Sensor.ts:24-43 | fails with that error; otherwise a fresh valid sensor whose `toJSON` is the arguments, active by default, with missing timestamps set to now |
| Sensors.Sensor.Activate | sensor-service/src/domain/entities/Sensor.ts:73-76 | active, `updatedAt` bumped; name, location and limits unchanged; the invariant kept |
| Sensors.Sensor.Deactivate | sensor-service/src/domain/entities/Sensor.ts:78-81 | inactive, `updatedAt` bumped; name, location and limits unchanged; the invariant kept |
| Sensors.Sensor.UpdateName | sensor-service/src/domain/entities/Sensor.ts:83-89 | a blank name fails and changes nothing; otherwise only name and `updatedAt` change |
| Sensors.Sensor.UpdateLocation | sensor-service/src/domain/entities/Sensor.ts:91-97 | a blank location fails and changes nothing; otherwise only location and `updatedAt` change |
| Sensors.Sensor.UpdateLimits | sensor-service/src/domain/entities/Sensor.ts:99-102 | invalid limits fail before any assignment; otherwise only limits (equal to the props) and `updatedAt` change |
| Sensors.RebuildFromJson | sensor-service/src/domain/entities/Sensor.ts:104-119 | the `toJSON` record of a valid sensor rebuilds a sensor without error |
| Sensors.Sensor.ToJSON | sensor-service/src/domain/entities/Sensor.ts:104-119 | the record carries every field of the sensor unchanged (id, name, location, flag, timestamps, limit getters); a valid sensor's record has a non-blank name and location and ordered limits within [0, 100] for humidity |
| Sensors.ActiveSensors | api-principal/src/application/use-cases/GetDashboardDataUseCase.ts:24 | holds only sensors of the list that are active, and every active sensor of the list |
| Sensors.ActiveSensorsIsFilter | api-principal/src/application/use-cases/GetDashboardDataUseCase.ts:24 | the active sensors are those at strictly increasing positions of the list, and those positions are exactly the active ones: `filter` keeps order and count |
| Ports.AlertStore.Save | notification-service/src/application/use-cases/ProcessAlertUseCase.ts:104 | appends the alert, or throws and stores nothing |
| Ports.SensorRepository.Save | api-principal/src/application/use-cases/RegisterSensorUseCase.ts:25 | records the sensor handed over and returns the repository's reply |
| Ports.MessageQueue.Publish | api-principal/sensor-service/src/application/use-cases/CollectSensorDataUseCase.ts:59 | enqueues the message on the named queue, or throws and enqueues nothing |
| Ports.FindRecent | api-principal/src/application/use-cases/GetDashboardDataUseCase.ts:21 | at most `limit` alerts, the newest first, and all of them when there are fewer |
| ProcessAlert.CalculateSeverity | notification-service/src/application/use-cases/ProcessAlertUseCase.ts:129-132 | CRITICAL exactly when the distance between value and limit reaches the threshold (equality counts) |
| ProcessAlert.AlertMessage | notification-service/src/application/use-cases/ProcessAlertUseCase.ts:52-97 | every generated message is non-blank, so it always passes the alert's message check |
| ProcessAlert.AlertCandidates | notification-service/src/application/use-cases/ProcessAlertUseCase.ts:40-100 | at most two alerts; none exactly when both values are within limits; each carries the reading's sensor id, temperature and humidity |
| ProcessAlert.BuildAlerts | notification-service/src/application/use-cases/ProcessAlertUseCase.ts:42-99 | each `new Alert` in turn: all built when all succeed, otherwise the error of one that fails |
| ProcessAlert.FirstFailure | notification-service/src/application/use-cases/ProcessAlertUseCase.ts:103-104 | the position of the first failing save, or the count when none fails |
| ProcessAlert.BuildAlertsAppend | notification-service/src/application/use-cases/ProcessAlertUseCase.ts:38-100 | building the temperature alerts then the humidity alerts is building them all at once, with the first error winning |
| ProcessAlert.CheckTemperature | notification-service/src/application/use-cases/ProcessAlertUseCase.ts:40-69 | builds the temperature alert the classification calls for, or returns its construction error |
| ProcessAlert.CheckHumidity | notification-service/src/application/use-cases/ProcessAlertUseCase.ts:71-100 | builds the humidity alert the classification calls for, or returns its construction error |
| ProcessAlert.SaveAll | notification-service/src/application/use-cases/ProcessAlertUseCase.ts:102-126 | saves in order; the alerts before the first failing save stay stored, later ones are not attempted, and that save's error is rethrown |
| ProcessAlert.Execute | notification-service/src/application/use-cases/ProcessAlertUseCase.ts:14-127 | a lookup error is rethrown; an unknown or inactive sensor returns normally with nothing stored; otherwise the store and outcome are those of `Evaluate` |
| ProcessAlert.Classification | notification-service/src/application/use-cases/ProcessAlertUseCase.ts:41-99 | the breaches of a reading hold exactly one of a kind when the value is past that bound and none otherwise; a value equal to a bound gives none |
| ProcessAlert.TemperatureBeforeHumidity | notification-service/src/application/use-cases/ProcessAlertUseCase.ts:40-104 | a temperature breach always precedes a humidity breach |
| ProcessAlert.CandidatesFollowViolations | notification-service/src/application/use-cases/ProcessAlertUseCase.ts:40-100 | the alerts raised are the breaches one for one, in order, each with its breach's type, severity and message |
| ProcessAlert.SeverityRule | notification-service/src/application/use-cases/ProcessAlertUseCase.ts:41-99 | every breach is strict, and CRITICAL exactly when it is at least 5 (temperature) or 10 (humidity) past the bound |
| ProcessAlert.ReferenceScenarios | notification-service/src/application/use-cases/ProcessAlertUseCase.ts:41-99 | with limits 18–26 °C and 40–60 %, readings 30/50, 35/50 and 30/70 give WARNING high temperature, CRITICAL high temperature, and WARNING high temperature then CRITICAL high humidity |
| ProcessAlert.WithinLimitsSavesNothing | notification-service/src/application/use-cases/ProcessAlertUseCase.ts:102-122 | a reading within all four limits saves nothing and returns normally |
| ProcessAlert.ViolationsAreSavedInOrder | notification-service/src/application/use-cases/ProcessAlertUseCase.ts:102-115 | with a sensor id and no failing save, every raised alert is stored, in order, after the existing contents |
| ProcessAlert.EmptySensorIdSavesNothing | notification-service/src/application/use-cases/ProcessAlertUseCase.ts:41-54 | an empty sensor id with a breach fails with "Sensor ID is required" before anything is saved |
| ProcessAlert.RedeliveryDuplicatesSavedPrefix | notification-service/src/infrastructure/rabbitmq/RabbitMQConsumer.ts:64-72 | a save failure requeues the message; a redelivery that succeeds stores every alert again, so those saved before the failure are stored twice |
| ProcessAlert.Settle | notification-service/src/infrastructure/rabbitmq/RabbitMQConsumer.ts:64-72 | a handler that returns is acknowledged, one that throws is requeued, and nothing else |
| CollectSensorData.Execute | api-principal/sensor-service/src/application/use-cases/CollectSensorDataUseCase.ts:15-72 | a sensor read error is rethrown with nothing published; otherwise the queue gains exactly the messages of `Collect` and the outcome is its outcome |
| CollectSensorData.PublishAll | api-principal/sensor-service/src/application/use-cases/CollectSensorDataUseCase.ts:28-67 | the loop publishes exactly what `Collect` says and stops with its error |
| CollectSensorData.CollectOne | api-principal/sensor-service/src/application/use-cases/CollectSensorDataUseCase.ts:29-66 | a rejected sample publishes nothing and goes on; a valid one is published with the sensor's id and the tick's time, or its publish error is returned |
| CollectSensorData.PublishedReadingsInRange | api-principal/sensor-service/src/application/use-cases/CollectSensorDataUseCase.ts:28-59 | with a sampler that stays in range and valid limits, each message carries its sensor's id and values inside that sensor's temperature and humidity sample ranges |
| CollectSensorData.HumidityRangeWithinBounds | api-principal/sensor-service/src/application/use-cases/CollectSensorDataUseCase.ts:37-40 | the humidity sample range lies within [0, 100] and contains the limits |
| CollectSensorData.OnlyTemperatureCanBeRejected | api-principal/sensor-service/src/application/use-cases/CollectSensorDataUseCase.ts:37-49 | given a sampler that stays in range and valid limits, a humidity sample always validates, so a sample is skipped exactly when its temperature is rejected |
| CollectSensorData.ModerateLimitsAlwaysPublishable | api-principal/sensor-service/src/application/use-cases/CollectSensorDataUseCase.ts:33-49 | limits 10 inside the physical bounds never give a rejected sample |
| CollectSensorData.SentFollowsSensorOrder | api-principal/sensor-service/src/application/use-cases/CollectSensorDataUseCase.ts:28-59 | every message carries a sensor's id and its valid sample, on `sensor-data`; messages follow sensor order with at most one per sensor |
| CollectSensorData.StopsAt | api-principal/sensor-service/src/application/use-cases/CollectSensorDataUseCase.ts:28-59 | the least position from i on whose publishable reading fails to publish, or the sensor count when there is none |
| CollectSensorData.FailureStopsTheTick | api-principal/sensor-service/src/application/use-cases/CollectSensorDataUseCase.ts:28-71 | the tick fails exactly when some publishable reading's publish throws; the first such error is rethrown, and only sensors before that one are published |
| CollectSensorData.PublishableBeforeStopIsSent | api-principal/sensor-service/src/application/use-cases/CollectSensorDataUseCase.ts:28-59 | a rejected sample skips only its own sensor: every sensor before the first failing publish whose reading is publishable has a message |
| CollectSensorData.PassMeansNoPublishFailed | api-principal/sensor-service/src/application/use-cases/CollectSensorDataUseCase.ts:28-71 | a tick ends normally exactly when no publishable reading's publish throws |
| CollectSensorData.EverySensorPublished | api-principal/sensor-service/src/application/use-cases/CollectSensorDataUseCase.ts:28-66 | with valid samples and no failing publish, each sensor gets exactly one message, in order |
| SensorDto.MapToResponseDto | api-principal/src/application/use-cases/RegisterSensorUseCase.ts:37-48 | the response record is field for field the sensor's `toJSON` (the same mapping is at GetSensorsUseCase.ts:43-54) |
| SensorDto.MapAll | api-principal/src/application/use-cases/GetSensorsUseCase.ts:21 | one record per sensor, in order, each the sensor's `toJSON` |
| SensorDto.ResponseRebuildsSensor | api-principal/src/application/use-cases/RegisterSensorUseCase.ts:37-48 | the record of a valid sensor rebuilds a sensor without error |
| RegisterSensor.Execute | api-principal/src/application/use-cases/RegisterSensorUseCase.ts:12-35 | an invalid request fails with the constructor's error and saves nothing; otherwise exactly one fresh, valid, active sensor with the request's fields is saved, and the answer is the returned sensor's record or the repository's error |
| GetSensors.Execute | api-principal/src/application/use-cases/GetSensorsUseCase.ts:13-26 | a read error is rethrown; otherwise one record per sensor, in order, each its `toJSON` |
| GetSensors.ExecuteActive | api-principal/src/application/use-cases/GetSensorsUseCase.ts:28-41 | a read error is rethrown; otherwise one record per active stored sensor, in the repository's order, each equal to that sensor's `toJSON` |
| Dashboard.Summary | api-principal/src/application/use-cases/GetDashboardDataUseCase.ts:28-34 | copies id, name, location and isActive of the sensor |
| Dashboard.Summaries | api-principal/src/application/use-cases/GetDashboardDataUseCase.ts:27-35 | one summary per sensor, same order |
| Dashboard.FindSensor | api-principal/src/application/use-cases/GetDashboardDataUseCase.ts:39 | the first sensor with the id, or none when no sensor has it |
| Dashboard.SensorName | api-principal/src/application/use-cases/GetDashboardDataUseCase.ts:39-40 | the name of the first sensor with the alert's sensor id, or "Unknown Sensor" when none has it |
| Dashboard.AlertEntries | api-principal/src/application/use-cases/GetDashboardDataUseCase.ts:36-53 | one entry per alert, same order, each labelled with its sensor's name |
| Dashboard.Execute | api-principal/src/application/use-cases/GetDashboardDataUseCase.ts:14-71 | either read error is rethrown (the sensor read's first); otherwise a summary per sensor, the `min(10, n)` newest alerts in order, and the three counts |
| Dashboard.ActiveCountMatchesSummaries | api-principal/src/application/use-cases/GetDashboardDataUseCase.ts:24-56 | the active count equals the number of summaries marked active |
| Dashboard.StatisticsAgree | api-principal/src/application/use-cases/GetDashboardDataUseCase.ts:54-58 | total sensors equals the summaries, active ≤ total, and total alerts equals the entries, at most 10 |

## Left out

- Logging: every `logger` call, and the log-only branches ("No active sensors found", "All readings within limits").
- Database and RabbitMQ adapters: SQL row mapping, connections, JSON (de)serialisation of messages. Repositories and the queue are the state classes of `ports.dfy`, and their failures are oracle arguments.
- The consumer's "3 attempts" comment: the code has no retry counter, so a message that keeps failing is requeued forever.
- Number formatting: `${value}` inside alert messages is a parameter `fmt`. The model proves the message non-blank for every formatting.
- `Temperature.toString` and `Humidity.toString` are not modelled. Nothing in the core uses them.
- `Math.random` and `toFixed(2)`: the sampler is a parameter `sample(call, lo, hi)`. `StaysInRange` states what `generateRandomValue` promises, and the lemmas assume it. Rounding can move a value whose range bounds have more than two decimals slightly outside `[lo, hi]`. The model does not capture that, nor a `NaN` from `parseFloat`.
- CollectSensorData.Execute: every message of a tick carries the same `now`, where the source reads the clock once per message.
- ProcessAlert.Execute: every alert built from one reading gets the same `now` as its `createdAt`, where the source reads the clock in each `new Alert`, so two alerts of one reading can differ by a few milliseconds.
- Sensors.Sensor.Create: a new sensor's default `createdAt` and `updatedAt` are the same `now`, where the source reads the clock once for each.
- CollectSensorData.Execute: `fetched` is the result of `findByActive(true)` as given. The model does not check that the sensors are active, since the loop never looks at that field.
- CollectSensorData.Execute: requires every fetched sensor to have an id. `sensorData.id!` is erased at run time, so the source would publish a message without a sensor id for such a sensor; `findByActive` never returns one, because its row mapping always sets `id: row.id` (api-principal/sensor-service/src/infrastructure/database/TinyboneSensorRepository.ts:41-49).
- `Promise.all` in the dashboard is two sequential reads. When both fail, the sensor read's error is reported. In the source the first to reject wins.
- Response records keep `id` optional: `id!` is erased at run time, so a sensor or alert without an id gives a record without one.
- Repository id assignment and persistence of timestamps are not modelled. Registration answers with whatever sensor `save` returns.
- The HTTP layer, the client UI and the service entry points (timers, signal handlers) are not part of this model.
