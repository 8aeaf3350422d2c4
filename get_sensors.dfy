/** `GetSensorsUseCase`: list every sensor, or only the active ones, as
    response records. */
module GetSensors {
  import opened Wrappers
  import opened Sensors
  import opened SensorDto

  function Fetched(read: Result<seq<Sensor>>): seq<Sensor> {
    if read.Ok? then read.value else []
  }

  /** `execute()`: `fetched` is what `findAll()` returned or threw.  One
      record per sensor, in the repository's order; a read error is rethrown. */
  function Execute(fetched: Result<seq<Sensor>>): (r: Result<seq<SensorResponseDto>>)
    reads Fetched(fetched)
    ensures r.Err? <==> fetched.Err?
    ensures r.Err? ==> r.error == fetched.error
    ensures r.Ok? ==> |r.value| == |fetched.value|
    ensures r.Ok? ==> forall i :: 0 <= i < |r.value| ==> JsonOf(r.value[i]) == fetched.value[i].ToJSON()
  {
    if fetched.Err? then Err(fetched.error) else Ok(MapAll(fetched.value))
  }

  /** `executeActive()`: `stored` is what the repository holds, of which
      `findByActive(true)` returns the active sensors.  Every record is of an
      active sensor, and every active sensor has a record. */
  function ExecuteActive(stored: Result<seq<Sensor>>): (r: Result<seq<SensorResponseDto>>)
    reads Fetched(stored)
    ensures r.Err? <==> stored.Err?
    ensures r.Err? ==> r.error == stored.error
    ensures r.Ok? ==> |r.value| == |ActiveSensors(stored.value)|
    ensures r.Ok? ==> forall i :: 0 <= i < |r.value| ==> JsonOf(r.value[i]) == ActiveSensors(stored.value)[i].ToJSON()
    ensures r.Ok? ==> forall d :: d in r.value ==> d.isActive
    ensures r.Ok? ==> forall s :: s in stored.value && s.isActive ==> exists d :: d in r.value && JsonOf(d) == s.ToJSON()
  {
    if stored.Err? then Err(stored.error)
    else
      var active := ActiveSensors(stored.value);
      var ds := MapAll(active);
      assert forall s :: s in active ==> exists i :: 0 <= i < |active| && active[i] == s;
      Ok(ds)
  }
}
