/** The infrastructure the use cases talk to, reduced to the state they
    change.  Each failing call is decided by an oracle argument (the error
    message it throws, if any) instead of a database or broker. */
module Ports {
  import opened Wrappers
  import opened Alerts
  import opened Sensors

  /** The queue every reading is published to. */
  const SensorDataQueue := "sensor-data"

  /** One reading on the wire between producer and consumer. */
  datatype SensorDataMessage = SensorDataMessage(
    sensorId: string,
    temperature: real,
    humidity: real,
    timestamp: Timestamp)

  datatype Envelope = Envelope(queue: string, message: SensorDataMessage)

  /** The alert repository as the evaluator sees it: an append-only list. */
  class AlertStore {
    var alerts: seq<Alert>

    constructor ()
      ensures alerts == []
    {
      alerts := [];
    }

    /** `save(alert)`: appends, or throws `failure` and stores nothing. */
    method Save(a: Alert, failure: Option<string>) returns (r: Outcome)
      modifies this
      ensures failure.Some? ==> r == Fail(failure.value) && alerts == old(alerts)
      ensures failure.None? ==> r == Pass && alerts == old(alerts) + [a]
    {
      if failure.Some? {
        return Fail(failure.value);
      }
      alerts := alerts + [a];
      r := Pass;
    }
  }

  /** The sensor repository as registration sees it: the sensors handed to
      `save`, and the reply (a persisted sensor, or an error) it gives back. */
  class SensorRepository {
    var saveCalls: seq<Sensor>

    constructor ()
      ensures saveCalls == []
    {
      saveCalls := [];
    }

    method Save(s: Sensor, reply: Result<Sensor>) returns (r: Result<Sensor>)
      modifies this
      ensures saveCalls == old(saveCalls) + [s] && r == reply
    {
      saveCalls := saveCalls + [s];
      r := reply;
    }
  }

  /** The broker as the producer sees it: what has been published so far. */
  class MessageQueue {
    var published: seq<Envelope>

    constructor ()
      ensures published == []
    {
      published := [];
    }

    /** `publish(queue, message)`: enqueues, or throws `failure` and enqueues nothing. */
    method Publish(queue: string, m: SensorDataMessage, failure: Option<string>) returns (r: Outcome)
      modifies this
      ensures failure.Some? ==> r == Fail(failure.value) && published == old(published)
      ensures failure.None? ==> r == Pass && published == old(published) + [Envelope(queue, m)]
    {
      if failure.Some? {
        return Fail(failure.value);
      }
      published := published + [Envelope(queue, m)];
      r := Pass;
    }
  }

  /** `findRecent(limit)` over the store's contents, newest first. */
  function FindRecent(newestFirst: seq<Alert>, limit: nat): (r: seq<Alert>)
    ensures |r| <= limit && |r| <= |newestFirst|
    ensures r == newestFirst[..|r|]
    ensures |r| < limit ==> r == newestFirst
  {
    if |newestFirst| <= limit then newestFirst else newestFirst[..limit]
  }
}
