/** The reading producer: one tick of `CollectSensorDataUseCase.execute`.
    For each active sensor it samples a temperature and a humidity in a range
    widened by a margin around the sensor's limits, drops a sample that is
    not physically valid, and publishes the rest to the `sensor-data` queue,
    stopping at the first publish that fails. */
module CollectSensorData {
  import opened Wrappers
  import opened Limits
  import opened TemperatureValue
  import opened HumidityValue
  import opened Sensors
  import opened Ports

  /** How far past each limit a sample may stray. */
  const SampleMargin: real := 10.0

  function Max(a: real, b: real): real { if a >= b then a else b }
  function Min(a: real, b: real): real { if a <= b then a else b }

  datatype Reading = Reading(temperature: real, humidity: real)

  /** [minTemperature - 10, maxTemperature + 10] */
  function TemperatureRange(l: SensorLimitsProps): (real, real) {
    (l.minTemperature - SampleMargin, l.maxTemperature + SampleMargin)
  }

  /** [max(0, minHumidity - 10), min(100, maxHumidity + 10)] */
  function HumidityRange(l: SensorLimitsProps): (real, real) {
    (Max(0.0, l.minHumidity - SampleMargin), Min(100.0, l.maxHumidity + SampleMargin))
  }

  /** The random source: `sample(k, lo, hi)` is the value the k-th call of
      `generateRandomValue(lo, hi)` returns.  Sensor i makes calls 2i
      (temperature) and 2i + 1 (humidity). */
  type Sampler = (nat, real, real) -> real

  /** What `generateRandomValue` promises: a value in [lo, hi]. */
  ghost predicate StaysInRange(sample: Sampler) {
    forall k: nat, lo: real, hi: real :: lo <= hi ==> lo <= sample(k, lo, hi) <= hi
  }

  function SampleFor(l: SensorLimitsProps, sample: Sampler, i: nat): Reading {
    var (tlo, thi) := TemperatureRange(l);
    var (hlo, hhi) := HumidityRange(l);
    Reading(sample(2 * i, tlo, thi), sample(2 * i + 1, hlo, hhi))
  }

  /** Both values lie in their physical ranges; `ValueObjectsAccept` shows
      this is exactly when `new Temperature` and `new Humidity` succeed. */
  predicate IsPublishable(r: Reading) {
    AbsoluteZero <= r.temperature <= MaxTemperature && MinHumidity <= r.humidity <= MaxHumidity
  }

  lemma ValueObjectsAccept(r: Reading)
    ensures IsPublishable(r) <==> NewTemperature(r.temperature).Ok? && NewHumidity(r.humidity).Ok?
  {
  }

  predicate HaveIds(js: seq<SensorJson>) {
    forall k :: 0 <= k < |js| ==> js[k].id.Some?
  }

  function EnvelopeFor(j: SensorJson, r: Reading, now: Timestamp): Envelope
    requires j.id.Some?
  {
    Envelope(SensorDataQueue, SensorDataMessage(j.id.value, r.temperature, r.humidity, now))
  }

  /** Whether sensor i's reading is published and that publish throws. */
  predicate PublishFails(j: SensorJson, i: nat, sample: Sampler, failures: map<nat, string>) {
    IsPublishable(SampleFor(j.limits, sample, i)) && i in failures
  }

  /** What sensor i's turn adds to the queue when its publish does not
      throw: its reading, unless a value object rejects it. */
  function Emitted(j: SensorJson, i: nat, sample: Sampler, now: Timestamp): seq<Envelope>
    requires j.id.Some?
  {
    var reading := SampleFor(j.limits, sample, i);
    if IsPublishable(reading) then [EnvelopeFor(j, reading, now)] else []
  }

  /** The messages the loop publishes from sensor i on, and how it ends. */
  function CollectFrom(js: seq<SensorJson>, i: nat, sample: Sampler, failures: map<nat, string>, now: Timestamp)
    : (seq<Envelope>, Outcome)
    requires HaveIds(js) && i <= |js|
    decreases |js| - i
  {
    if i == |js| then ([], Pass)
    else if PublishFails(js[i], i, sample, failures) then ([], Fail(failures[i]))
    else
      var (rest, o) := CollectFrom(js, i + 1, sample, failures, now);
      (Emitted(js[i], i, sample, now) + rest, o)
  }

  function Collect(js: seq<SensorJson>, sample: Sampler, failures: map<nat, string>, now: Timestamp)
    : (seq<Envelope>, Outcome)
    requires HaveIds(js)
  {
    CollectFrom(js, 0, sample, failures, now)
  }

  /** `sensor.toJSON()` of each fetched sensor. */
  function Snapshots(sensors: seq<Sensor>): (js: seq<SensorJson>)
    reads sensors
    ensures |js| == |sensors| && forall k :: 0 <= k < |js| ==> js[k] == sensors[k].ToJSON()
  {
    seq(|sensors|, k requires 0 <= k < |sensors| reads sensors => sensors[k].ToJSON())
  }

  /** `execute()`: `fetched` is what `findByActive(true)` returned (or threw),
      `publishFailures[i]` the error publishing sensor i's reading throws. */
  method Execute(fetched: Result<seq<Sensor>>, queue: MessageQueue, sample: Sampler,
                 publishFailures: map<nat, string>, now: Timestamp) returns (r: Outcome)
    requires fetched.Ok? ==> forall s :: s in fetched.value ==> s.id.Some?
    modifies queue
    ensures fetched.Err? ==> r == Fail(fetched.error) && queue.published == old(queue.published)
    ensures fetched.Ok? ==>
      HaveIds(Snapshots(fetched.value)) &&
      var (sent, o) := Collect(Snapshots(fetched.value), sample, publishFailures, now);
      queue.published == old(queue.published) + sent && r == o
  {
    if fetched.Err? {
      return Fail(fetched.error);
    }
    var sensors := fetched.value;
    ghost var js := Snapshots(sensors);
    assert HaveIds(js) by {
      forall k | 0 <= k < |js| ensures js[k].id.Some? {
        assert sensors[k] in sensors;
      }
    }
    if |sensors| == 0 {
      // "No active sensors found"
      return Pass;
    }
    r := PublishAll(sensors, js, queue, sample, publishFailures, now);
  }

  /** The `for` loop over the fetched sensors, aborted by the first publish
      that throws. */
  method PublishAll(sensors: seq<Sensor>, ghost js: seq<SensorJson>, queue: MessageQueue, sample: Sampler,
                    publishFailures: map<nat, string>, now: Timestamp) returns (r: Outcome)
    requires js == Snapshots(sensors) && HaveIds(js)
    modifies queue
    ensures queue.published == old(queue.published) + Collect(js, sample, publishFailures, now).0
    ensures r == Collect(js, sample, publishFailures, now).1
  {
    ghost var sent: seq<Envelope> := [];
    ghost var total := Collect(js, sample, publishFailures, now);
    assert sent + CollectFrom(js, 0, sample, publishFailures, now).0 == total.0;
    var i := 0;
    while i < |sensors|
      invariant 0 <= i <= |sensors|
      invariant queue.published == old(queue.published) + sent
      invariant total.0 == sent + CollectFrom(js, i, sample, publishFailures, now).0
      invariant total.1 == CollectFrom(js, i, sample, publishFailures, now).1
    {
      var published := CollectOne(sensors[i].ToJSON(), i, queue, sample, publishFailures, now);
      if published.Fail? {
        assert sent + [] == sent;
        return published;
      }
      ghost var emitted := Emitted(js[i], i, sample, now);
      ghost var rest := CollectFrom(js, i + 1, sample, publishFailures, now).0;
      assert sent + (emitted + rest) == (sent + emitted) + rest;
      sent := sent + emitted;
      i := i + 1;
    }
    r := Pass;
  }

  /** One iteration of the loop: sample sensor i, skip the sample if a value
      object rejects it, otherwise publish it. */
  method CollectOne(data: SensorJson, i: nat, queue: MessageQueue, sample: Sampler,
                    publishFailures: map<nat, string>, now: Timestamp) returns (r: Outcome)
    requires data.id.Some?
    modifies queue
    ensures r.Fail? <==> PublishFails(data, i, sample, publishFailures)
    ensures r.Fail? ==> r == Fail(publishFailures[i]) && queue.published == old(queue.published)
    ensures r.Pass? ==> queue.published == old(queue.published) + Emitted(data, i, sample, now)
  {
    var limits := data.limits;
    var temperature := sample(2 * i, limits.minTemperature - SampleMargin, limits.maxTemperature + SampleMargin);
    var humidity := sample(2 * i + 1, Max(0.0, limits.minHumidity - SampleMargin),
                           Min(100.0, limits.maxHumidity + SampleMargin));
    assert Reading(temperature, humidity) == SampleFor(data.limits, sample, i);
    var t := NewTemperature(temperature);
    var h := NewHumidity(humidity);
    ValueObjectsAccept(Reading(temperature, humidity));
    if t.Err? || h.Err? {
      // "Generated invalid sensor data": this sensor is skipped
      return Pass;
    }
    var message := SensorDataMessage(data.id.value, temperature, humidity, now);
    var failure := if i in publishFailures then Some(publishFailures[i]) else None;
    r := queue.Publish(SensorDataQueue, message, failure);
  }

  // ---------------------------------------------------------------------
  // The sample ranges

  /** The humidity range lies inside [0, 100], is never empty and contains
      the limits. */
  lemma HumidityRangeWithinBounds(l: SensorLimits)
    requires l.Valid()
    ensures var (lo, hi) := HumidityRange(l.ToProps());
      0.0 <= lo <= l.minHumidity < l.maxHumidity <= hi <= 100.0
  {
  }

  /** Given a sampler that keeps its promise, humidity samples always pass
      validation, so only the temperature sample can get a sensor skipped. */
  lemma OnlyTemperatureCanBeRejected(l: SensorLimits, sample: Sampler, i: nat)
    requires l.Valid() && StaysInRange(sample)
    ensures var r := SampleFor(l.ToProps(), sample, i);
      NewHumidity(r.humidity).Ok? && (IsPublishable(r) <==> NewTemperature(r.temperature).Ok?)
  {
    HumidityRangeWithinBounds(l);
    var (lo, hi) := HumidityRange(l.ToProps());
    assert lo <= sample(2 * i + 1, lo, hi) <= hi;
  }

  /** Limits at least the margin away from the physical bounds never produce
      a rejected sample. */
  lemma ModerateLimitsAlwaysPublishable(l: SensorLimits, sample: Sampler, i: nat)
    requires l.Valid() && StaysInRange(sample)
    requires AbsoluteZero + SampleMargin <= l.minTemperature && l.maxTemperature <= MaxTemperature - SampleMargin
    ensures IsPublishable(SampleFor(l.ToProps(), sample, i))
  {
    OnlyTemperatureCanBeRejected(l, sample, i);
    var (lo, hi) := TemperatureRange(l.ToProps());
    assert lo <= sample(2 * i, lo, hi) <= hi;
  }

  // ---------------------------------------------------------------------
  // What one tick publishes

  /** `sent` is the published readings of the sensors at positions `idx`:
      each once, in sensor order, each one publishable. */
  ghost predicate SentInOrder(sent: seq<Envelope>, js: seq<SensorJson>, sample: Sampler, now: Timestamp,
                              from: nat, idx: seq<nat>)
  {
    && HaveIds(js)
    && |idx| == |sent|
    && (forall p, q :: 0 <= p < q < |idx| ==> idx[p] < idx[q])
    && (forall p :: 0 <= p < |idx| ==> from <= idx[p] < |js|)
    && (forall p :: 0 <= p < |idx| ==>
          IsPublishable(SampleFor(js[idx[p]].limits, sample, idx[p]))
          && sent[p] == EnvelopeFor(js[idx[p]], SampleFor(js[idx[p]].limits, sample, idx[p]), now))
  }

  /** The positions of the sensors whose readings the loop publishes from
      sensor i on. */
  function SentIndices(js: seq<SensorJson>, i: nat, sample: Sampler, failures: map<nat, string>): seq<nat>
    requires i <= |js|
    decreases |js| - i
  {
    if i == |js| || PublishFails(js[i], i, sample, failures) then []
    else (if IsPublishable(SampleFor(js[i].limits, sample, i)) then [i] else [])
         + SentIndices(js, i + 1, sample, failures)
  }

  /** Prepending sensor i's message to messages of later sensors keeps them in order. */
  lemma SentInOrderCons(sent: seq<Envelope>, js: seq<SensorJson>, sample: Sampler, now: Timestamp,
                        i: nat, idx: seq<nat>)
    requires i < |js| && SentInOrder(sent, js, sample, now, i + 1, idx)
    requires IsPublishable(SampleFor(js[i].limits, sample, i))
    ensures SentInOrder([EnvelopeFor(js[i], SampleFor(js[i].limits, sample, i), now)] + sent,
                        js, sample, now, i, [i] + idx)
  {
    var sent' := [EnvelopeFor(js[i], SampleFor(js[i].limits, sample, i), now)] + sent;
    var idx' := [i] + idx;
    forall p | 0 < p < |idx'|
      ensures idx'[p] == idx[p - 1] && sent'[p] == sent[p - 1]
    {
    }
  }

  /** Messages of sensors from i + 1 on are messages of sensors from i on. */
  lemma SentInOrderFrom(sent: seq<Envelope>, js: seq<SensorJson>, sample: Sampler, now: Timestamp,
                        i: nat, idx: seq<nat>)
    requires SentInOrder(sent, js, sample, now, i + 1, idx)
    ensures SentInOrder(sent, js, sample, now, i, idx)
  {
  }

  /** Every published message carries a sensor's id, its valid sampled
      values and the tick's time, goes to `sensor-data`, and messages follow
      sensor order with at most one per sensor. */
  lemma {:induction false} SentFollowsSensorOrder(js: seq<SensorJson>, i: nat, sample: Sampler,
                                                  failures: map<nat, string>, now: Timestamp)
    requires HaveIds(js) && i <= |js|
    ensures SentInOrder(CollectFrom(js, i, sample, failures, now).0, js, sample, now, i,
                        SentIndices(js, i, sample, failures))
    decreases |js| - i
  {
    if i < |js| && !PublishFails(js[i], i, sample, failures) {
      SentFollowsSensorOrder(js, i + 1, sample, failures, now);
      var rest := CollectFrom(js, i + 1, sample, failures, now).0;
      var idx := SentIndices(js, i + 1, sample, failures);
      var r := SampleFor(js[i].limits, sample, i);
      if IsPublishable(r) {
        SentInOrderCons(rest, js, sample, now, i, idx);
        assert CollectFrom(js, i, sample, failures, now).0 == [EnvelopeFor(js[i], r, now)] + rest;
        assert SentIndices(js, i, sample, failures) == [i] + idx;
      } else {
        SentInOrderFrom(rest, js, sample, now, i, idx);
        assert CollectFrom(js, i, sample, failures, now).0 == rest;
        assert SentIndices(js, i, sample, failures) == idx;
      }
    }
  }

  /** The first sensor from i on whose reading is publishable and whose
      publish throws, or |js| when there is none. */
  function StopsAt(js: seq<SensorJson>, i: nat, sample: Sampler, failures: map<nat, string>): (k: nat)
    requires i <= |js|
    ensures i <= k <= |js|
    ensures k < |js| ==> PublishFails(js[k], k, sample, failures)
    ensures forall j :: i <= j < k ==> !PublishFails(js[j], j, sample, failures)
    decreases |js| - i
  {
    if i == |js| || PublishFails(js[i], i, sample, failures) then i
    else StopsAt(js, i + 1, sample, failures)
  }

  /** A tick ends in failure exactly when some sensor's reading was
      publishable and its publish failed; the first such error is the tick's,
      and only sensors before that one are published. */
  lemma {:induction false} FailureStopsTheTick(js: seq<SensorJson>, i: nat, sample: Sampler,
                                               failures: map<nat, string>, now: Timestamp)
    requires HaveIds(js) && i <= |js|
    ensures var (sent, o) := CollectFrom(js, i, sample, failures, now);
      var k := StopsAt(js, i, sample, failures);
      && (o.Fail? <==> k < |js|)
      && (o.Fail? ==> k in failures && o == Fail(failures[k]) && |sent| <= k - i)
      && (forall p :: 0 <= p < |SentIndices(js, i, sample, failures)| ==> SentIndices(js, i, sample, failures)[p] < k)
    decreases |js| - i
  {
    if i < |js| && !PublishFails(js[i], i, sample, failures) {
      FailureStopsTheTick(js, i + 1, sample, failures, now);
      var (rest, o) := CollectFrom(js, i + 1, sample, failures, now);
      assert CollectFrom(js, i, sample, failures, now)
          == (Emitted(js[i], i, sample, now) + rest, o);
      var idx := SentIndices(js, i + 1, sample, failures);
      assert SentIndices(js, i, sample, failures)
          == (if IsPublishable(SampleFor(js[i].limits, sample, i)) then [i] else []) + idx;
    }
  }

  /** A rejected sample skips only its own sensor: every sensor before the
      first failing publish whose reading is publishable is sent. */
  lemma {:induction false} PublishableBeforeStopIsSent(js: seq<SensorJson>, i: nat, sample: Sampler,
                                                       failures: map<nat, string>)
    requires i <= |js|
    ensures forall j :: i <= j < StopsAt(js, i, sample, failures) && IsPublishable(SampleFor(js[j].limits, sample, j))
                        ==> j in SentIndices(js, i, sample, failures)
    decreases |js| - i
  {
    if i < |js| && !PublishFails(js[i], i, sample, failures) {
      PublishableBeforeStopIsSent(js, i + 1, sample, failures);
      assert StopsAt(js, i, sample, failures) == StopsAt(js, i + 1, sample, failures);
      assert SentIndices(js, i, sample, failures)
          == (if IsPublishable(SampleFor(js[i].limits, sample, i)) then [i] else []) + SentIndices(js, i + 1, sample, failures);
    }
  }

  /** A tick that ends normally published every publishable reading. */
  lemma PassMeansNoPublishFailed(js: seq<SensorJson>, sample: Sampler, failures: map<nat, string>, now: Timestamp)
    requires HaveIds(js)
    ensures Collect(js, sample, failures, now).1.Pass? <==>
      forall k :: 0 <= k < |js| && IsPublishable(SampleFor(js[k].limits, sample, k)) ==> k !in failures
  {
    FailureStopsTheTick(js, 0, sample, failures, now);
  }

  /** Given a sampler that keeps its promise and valid limits, every message
      of a tick carries its sensor's id and values drawn from that sensor's
      sample ranges. */
  lemma PublishedReadingsInRange(js: seq<SensorJson>, sample: Sampler, failures: map<nat, string>, now: Timestamp)
    requires HaveIds(js) && StaysInRange(sample)
    requires forall k :: 0 <= k < |js| ==> SensorLimits(js[k].limits.minTemperature, js[k].limits.maxTemperature,
                                                         js[k].limits.minHumidity, js[k].limits.maxHumidity).Valid()
    ensures var sent, idx := Collect(js, sample, failures, now).0, SentIndices(js, 0, sample, failures);
      && |idx| == |sent|
      && forall p :: 0 <= p < |sent| ==>
           && idx[p] < |js|
           && sent[p].message.sensorId == js[idx[p]].id.value
           && TemperatureRange(js[idx[p]].limits).0 <= sent[p].message.temperature <= TemperatureRange(js[idx[p]].limits).1
           && HumidityRange(js[idx[p]].limits).0 <= sent[p].message.humidity <= HumidityRange(js[idx[p]].limits).1
  {
    SentFollowsSensorOrder(js, 0, sample, failures, now);
    var sent, idx := Collect(js, sample, failures, now).0, SentIndices(js, 0, sample, failures);
    forall p | 0 <= p < |sent|
      ensures TemperatureRange(js[idx[p]].limits).0 <= sent[p].message.temperature <= TemperatureRange(js[idx[p]].limits).1
      ensures HumidityRange(js[idx[p]].limits).0 <= sent[p].message.humidity <= HumidityRange(js[idx[p]].limits).1
    {
      var k := idx[p];
      var (tlo, thi) := TemperatureRange(js[k].limits);
      var (hlo, hhi) := HumidityRange(js[k].limits);
      assert tlo <= sample(2 * k, tlo, thi) <= thi;
      assert hlo <= sample(2 * k + 1, hlo, hhi) <= hhi;
    }
  }

  /** With every reading publishable and no publish failing, the loop sends
      for every sensor from i on. */
  lemma {:induction false} EveryPositionSent(js: seq<SensorJson>, i: nat, sample: Sampler, failures: map<nat, string>)
    requires i <= |js|
    requires forall k :: i <= k < |js| ==> IsPublishable(SampleFor(js[k].limits, sample, k)) && k !in failures
    ensures var idx := SentIndices(js, i, sample, failures);
      |idx| == |js| - i && forall p :: 0 <= p < |idx| ==> idx[p] == i + p
    decreases |js| - i
  {
    if i < |js| {
      EveryPositionSent(js, i + 1, sample, failures);
      assert SentIndices(js, i, sample, failures) == [i] + SentIndices(js, i + 1, sample, failures);
    }
  }

  /** When every sample is valid and no publish fails, each sensor gets
      exactly one message, in order. */
  lemma EverySensorPublished(js: seq<SensorJson>, sample: Sampler, failures: map<nat, string>, now: Timestamp)
    requires HaveIds(js)
    requires forall k :: 0 <= k < |js| ==> IsPublishable(SampleFor(js[k].limits, sample, k)) && k !in failures
    ensures var (sent, o) := Collect(js, sample, failures, now);
      && o == Pass && |sent| == |js|
      && forall p :: 0 <= p < |sent| ==> sent[p] == EnvelopeFor(js[p], SampleFor(js[p].limits, sample, p), now)
  {
    SentFollowsSensorOrder(js, 0, sample, failures, now);
    FailureStopsTheTick(js, 0, sample, failures, now);
    EveryPositionSent(js, 0, sample, failures);
  }
}
