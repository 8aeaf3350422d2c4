/** The `Sensor` entity: a mutable record whose update methods either change
    one field (plus `updatedAt`) or fail and change nothing. */
module Sensors {
  import opened Wrappers
  import opened Text
  import opened Limits

  const NameRequired := "Sensor name is required"
  const LocationRequired := "Sensor location is required"
  const NameCannotBeEmpty := "Sensor name cannot be empty"
  const LocationCannotBeEmpty := "Sensor location cannot be empty"

  /** The constructor's argument; `id`, `isActive` and the timestamps are optional. */
  datatype SensorProps = SensorProps(
    id: Option<string>,
    name: string,
    location: string,
    limits: SensorLimitsProps,
    isActive: Option<bool>,
    createdAt: Option<Timestamp>,
    updatedAt: Option<Timestamp>)

  /** The plain record `toJSON` returns. */
  datatype SensorJson = SensorJson(
    id: Option<string>,
    name: string,
    location: string,
    limits: SensorLimitsProps,
    isActive: bool,
    createdAt: Timestamp,
    updatedAt: Timestamp)

  /** The error `new Sensor(props)` throws, if any: the limits are built first
      (so their error wins), then the name is checked, then the location. */
  function ConstructionError(p: SensorProps): (r: Option<string>)
    ensures NewSensorLimits(p.limits).Err? ==> r == Some(NewSensorLimits(p.limits).error)
    ensures NewSensorLimits(p.limits).Ok? && IsBlank(p.name) ==> r == Some(NameRequired)
    ensures NewSensorLimits(p.limits).Ok? && !IsBlank(p.name) && IsBlank(p.location)
            ==> r == Some(LocationRequired)
    ensures r.None? <==> NewSensorLimits(p.limits).Ok? && !IsBlank(p.name) && !IsBlank(p.location)
  {
    var limits := NewSensorLimits(p.limits);
    if limits.Err? then Some(limits.error)
    else if IsBlank(p.name) then Some(NameRequired)
    else if IsBlank(p.location) then Some(LocationRequired)
    else None
  }

  class Sensor {
    const id: Option<string>
    var name: string
    var location: string
    var limits: SensorLimits
    var isActive: bool
    const createdAt: Timestamp
    var updatedAt: Timestamp

    /** The invariant every constructed sensor keeps: valid limits, and a
        name and location that are not blank. */
    ghost predicate Valid()
      reads this
    {
      limits.Valid() && !IsBlank(name) && !IsBlank(location)
    }

    function ToJSON(): (j: SensorJson)
      reads this
      ensures j.id == id && j.isActive == isActive && j.createdAt == createdAt && j.updatedAt == updatedAt
      ensures j.name == name && j.location == location
      ensures j.limits == limits.ToProps()
      ensures Valid() ==> !IsBlank(j.name) && !IsBlank(j.location)
      ensures Valid() ==> j.limits.minTemperature < j.limits.maxTemperature
      ensures Valid() ==> 0.0 <= j.limits.minHumidity < j.limits.maxHumidity <= 100.0
    {
      SensorJson(id, name, location, limits.ToProps(), isActive, createdAt, updatedAt)
    }

    /** Field-by-field initialisation, before validation. */
    constructor Init(id: Option<string>, name: string, location: string, limits: SensorLimits,
                     isActive: bool, createdAt: Timestamp, updatedAt: Timestamp)
      ensures this.id == id && this.name == name && this.location == location
      ensures this.limits == limits && this.isActive == isActive
      ensures this.createdAt == createdAt && this.updatedAt == updatedAt
    {
      this.id := id;
      this.name := name;
      this.location := location;
      this.limits := limits;
      this.isActive := isActive;
      this.createdAt := createdAt;
      this.updatedAt := updatedAt;
    }

    /** `new Sensor(props)`: fails with `ConstructionError(props)`; otherwise a
        fresh valid sensor whose fields are the arguments, active unless told
        otherwise, with missing timestamps set to `now`. */
    static method Create(p: SensorProps, now: Timestamp) returns (r: Result<Sensor>)
      ensures r.Err? <==> ConstructionError(p).Some?
      ensures r.Err? ==> r.error == ConstructionError(p).value
      ensures r.Ok? ==> fresh(r.value) && r.value.Valid()
      ensures r.Ok? ==> r.value.ToJSON() == SensorJson(
        p.id, p.name, p.location, p.limits, p.isActive.GetOr(true),
        p.createdAt.GetOr(now), p.updatedAt.GetOr(now))
    {
      var limits := NewSensorLimits(p.limits);
      if limits.Err? {
        return Err(limits.error);
      }
      var s := new Sensor.Init(p.id, p.name, p.location, limits.value, p.isActive.GetOr(true),
                               p.createdAt.GetOr(now), p.updatedAt.GetOr(now));
      if IsBlank(s.name) {
        return Err(NameRequired);
      }
      if IsBlank(s.location) {
        return Err(LocationRequired);
      }
      r := Ok(s);
    }

    method Activate(now: Timestamp)
      requires Valid()
      modifies this
      ensures Valid()
      ensures isActive && updatedAt == now
      ensures name == old(name) && location == old(location) && limits == old(limits)
    {
      isActive := true;
      updatedAt := now;
    }

    method Deactivate(now: Timestamp)
      requires Valid()
      modifies this
      ensures Valid()
      ensures !isActive && updatedAt == now
      ensures name == old(name) && location == old(location) && limits == old(limits)
    {
      isActive := false;
      updatedAt := now;
    }

    /** A blank name is refused and nothing changes; otherwise only the name
        and `updatedAt` change. */
    method UpdateName(newName: string, now: Timestamp) returns (r: Outcome)
      requires Valid()
      modifies this
      ensures Valid()
      ensures IsBlank(newName) ==> r == Fail(NameCannotBeEmpty) && unchanged(this)
      ensures !IsBlank(newName) ==> r == Pass && name == newName && updatedAt == now
      ensures !IsBlank(newName) ==> location == old(location) && limits == old(limits)
                                    && isActive == old(isActive)
    {
      if IsBlank(newName) {
        return Fail(NameCannotBeEmpty);
      }
      name := newName;
      updatedAt := now;
      r := Pass;
    }

    /** A blank location is refused and nothing changes; otherwise only the
        location and `updatedAt` change. */
    method UpdateLocation(newLocation: string, now: Timestamp) returns (r: Outcome)
      requires Valid()
      modifies this
      ensures Valid()
      ensures IsBlank(newLocation) ==> r == Fail(LocationCannotBeEmpty) && unchanged(this)
      ensures !IsBlank(newLocation) ==> r == Pass && location == newLocation && updatedAt == now
      ensures !IsBlank(newLocation) ==> name == old(name) && limits == old(limits)
                                        && isActive == old(isActive)
    {
      if IsBlank(newLocation) {
        return Fail(LocationCannotBeEmpty);
      }
      location := newLocation;
      updatedAt := now;
      r := Pass;
    }

    /** Invalid limits fail before any assignment, so nothing changes;
        otherwise only the limits and `updatedAt` change. */
    method UpdateLimits(p: SensorLimitsProps, now: Timestamp) returns (r: Outcome)
      requires Valid()
      modifies this
      ensures Valid()
      ensures NewSensorLimits(p).Err? ==> r == Fail(NewSensorLimits(p).error) && unchanged(this)
      ensures NewSensorLimits(p).Ok? ==> r == Pass && limits.ToProps() == p && updatedAt == now
      ensures NewSensorLimits(p).Ok? ==> name == old(name) && location == old(location)
                                         && isActive == old(isActive)
    {
      var built := NewSensorLimits(p);
      if built.Err? {
        return Fail(built.error);
      }
      limits := built.value;
      updatedAt := now;
      r := Pass;
    }
  }

  /** The props a repository rebuilds a sensor from: its own `toJSON` record. */
  function PropsOf(j: SensorJson): SensorProps {
    SensorProps(j.id, j.name, j.location, j.limits, Some(j.isActive), Some(j.createdAt), Some(j.updatedAt))
  }

  /** A valid sensor's `toJSON` record always rebuilds a sensor without error. */
  lemma RebuildFromJson(s: Sensor)
    requires s.Valid()
    ensures ConstructionError(PropsOf(s.ToJSON())) == None
  {
    RebuildFromProps(s.limits);
  }

  /** `findByActive(true)` over a list of sensors: the active ones, in order. */
  function ActiveSensors(sensors: seq<Sensor>): (r: seq<Sensor>)
    reads sensors
    ensures |r| <= |sensors|
    ensures forall s :: s in r ==> s in sensors && s.isActive
    ensures forall s :: s in sensors && s.isActive ==> s in r
  {
    if sensors == [] then []
    else
      var rest := ActiveSensors(sensors[1..]);
      if sensors[0].isActive then [sensors[0]] + rest else rest
  }

  /** The positions from i on of the active sensors, in increasing order. */
  function ActivePositions(sensors: seq<Sensor>, i: nat): seq<nat>
    requires i <= |sensors|
    reads sensors
    decreases |sensors| - i
  {
    if i == |sensors| then []
    else (if sensors[i].isActive then [i] else []) + ActivePositions(sensors, i + 1)
  }

  /** `r` is the sensors at positions `pos`, which increase and are exactly
      the positions from `from` on of the active sensors. */
  ghost predicate PicksActive(r: seq<Sensor>, sensors: seq<Sensor>, from: nat, pos: seq<nat>)
    reads sensors
  {
    && |pos| == |r|
    && (forall p :: 0 <= p < |pos| ==> from <= pos[p] < |sensors| && r[p] == sensors[pos[p]])
    && (forall p, q :: 0 <= p < q < |pos| ==> pos[p] < pos[q])
    && (forall k :: from <= k < |sensors| ==> (sensors[k].isActive <==> k in pos))
  }

  lemma PicksActiveStep(r: seq<Sensor>, sensors: seq<Sensor>, i: nat, pos: seq<nat>)
    requires i < |sensors| && PicksActive(r, sensors, i + 1, pos)
    ensures sensors[i].isActive ==> PicksActive([sensors[i]] + r, sensors, i, [i] + pos)
    ensures !sensors[i].isActive ==> PicksActive(r, sensors, i, pos)
  {
    if sensors[i].isActive {
      var r', pos' := [sensors[i]] + r, [i] + pos;
      forall p | 0 < p < |pos'|
        ensures pos'[p] == pos[p - 1] && r'[p] == r[p - 1]
      {
      }
    }
  }

  lemma {:induction false} ActiveSensorsFrom(sensors: seq<Sensor>, i: nat)
    requires i <= |sensors|
    ensures PicksActive(ActiveSensors(sensors[i..]), sensors, i, ActivePositions(sensors, i))
    decreases |sensors| - i
  {
    if i < |sensors| {
      ActiveSensorsFrom(sensors, i + 1);
      var r, pos := ActiveSensors(sensors[i + 1..]), ActivePositions(sensors, i + 1);
      PicksActiveStep(r, sensors, i, pos);
      assert sensors[i..][0] == sensors[i] && sensors[i..][1..] == sensors[i + 1..];
      if sensors[i].isActive {
        assert ActiveSensors(sensors[i..]) == [sensors[i]] + r;
        assert ActivePositions(sensors, i) == [i] + pos;
      } else {
        assert ActiveSensors(sensors[i..]) == r;
        assert ActivePositions(sensors, i) == pos;
      }
    }
  }

  /** `ActiveSensors` is the order-preserving filter: its elements are the
      sensors at strictly increasing positions, which are exactly the
      positions of the active sensors. */
  lemma ActiveSensorsIsFilter(sensors: seq<Sensor>)
    ensures var r, pos := ActiveSensors(sensors), ActivePositions(sensors, 0);
      && |pos| == |r|
      && (forall p :: 0 <= p < |pos| ==> pos[p] < |sensors| && r[p] == sensors[pos[p]])
      && (forall p, q :: 0 <= p < q < |pos| ==> pos[p] < pos[q])
      && (forall k :: 0 <= k < |sensors| ==> (sensors[k].isActive <==> k in pos))
  {
    ActiveSensorsFrom(sensors, 0);
    assert sensors[0..] == sensors;
  }
}
