/** The records the HTTP layer exchanges for sensors, and the one mapping
    from a `Sensor` to its response record that registration and listing
    share. */
module SensorDto {
  import opened Wrappers
  import opened Limits
  import opened Sensors

  /** The registration request body. */
  datatype RegisterSensorDto = RegisterSensorDto(name: string, location: string, limits: SensorLimitsProps)

  /** The response record.  Its `id` is declared a string, but `sensorData.id!`
      only silences the type checker: a sensor without an id gives a record
      without one, so the id stays optional here. */
  datatype SensorResponseDto = SensorResponseDto(
    id: Option<string>,
    name: string,
    location: string,
    limits: SensorLimitsProps,
    isActive: bool,
    createdAt: Timestamp,
    updatedAt: Timestamp)

  /** Reads a response record back as the `toJSON` record it was made from. */
  function JsonOf(d: SensorResponseDto): SensorJson {
    SensorJson(d.id, d.name, d.location, d.limits, d.isActive, d.createdAt, d.updatedAt)
  }

  /** `mapToResponseDTO(sensor)`: every field of `sensor.toJSON()`, unchanged. */
  function MapToResponseDto(s: Sensor): (d: SensorResponseDto)
    reads s
    ensures JsonOf(d) == s.ToJSON()
  {
    var j := s.ToJSON();
    SensorResponseDto(j.id, j.name, j.location, j.limits, j.isActive, j.createdAt, j.updatedAt)
  }

  /** `sensors.map(sensor => this.mapToResponseDTO(sensor))` */
  function MapAll(sensors: seq<Sensor>): (ds: seq<SensorResponseDto>)
    reads sensors
    ensures |ds| == |sensors|
    ensures forall i :: 0 <= i < |sensors| ==> JsonOf(ds[i]) == sensors[i].ToJSON()
  {
    if sensors == [] then []
    else [MapToResponseDto(sensors[0])] + MapAll(sensors[1..])
  }

  /** A response record of a valid sensor carries everything needed to build
      the sensor again: its limits, name and location pass every check. */
  lemma ResponseRebuildsSensor(s: Sensor)
    requires s.Valid()
    ensures ConstructionError(PropsOf(JsonOf(MapToResponseDto(s)))) == None
  {
    RebuildFromJson(s);
  }
}
