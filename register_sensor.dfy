/** `RegisterSensorUseCase.execute`: build an active sensor from the request,
    save it, and answer with the record of the sensor the repository returned. */
module RegisterSensor {
  import opened Wrappers
  import opened Sensors
  import opened Ports
  import opened SensorDto

  /** The constructor argument: the request's fields, active, no id and no
      timestamps yet. */
  function PropsFor(dto: RegisterSensorDto): SensorProps {
    SensorProps(None, dto.name, dto.location, dto.limits, Some(true), None, None)
  }

  /** `execute(dto)`: `saveReply` is what `save` returns or throws.  An
      invalid request fails before anything is saved; otherwise exactly one
      fresh, valid, active sensor with the request's fields is saved, and
      the answer describes the sensor `save` returned, or carries its error. */
  method Execute(dto: RegisterSensorDto, repo: SensorRepository, saveReply: Result<Sensor>, now: Timestamp)
    returns (r: Result<SensorResponseDto>)
    modifies repo
    ensures ConstructionError(PropsFor(dto)).Some? ==>
      r == Err(ConstructionError(PropsFor(dto)).value) && repo.saveCalls == old(repo.saveCalls)
    ensures ConstructionError(PropsFor(dto)).None? ==>
      && |repo.saveCalls| == |old(repo.saveCalls)| + 1
      && repo.saveCalls[..|old(repo.saveCalls)|] == old(repo.saveCalls)
      && fresh(repo.saveCalls[|old(repo.saveCalls)|])
      && repo.saveCalls[|old(repo.saveCalls)|].Valid()
      && repo.saveCalls[|old(repo.saveCalls)|].ToJSON()
         == SensorJson(None, dto.name, dto.location, dto.limits, true, now, now)
      && (saveReply.Err? ==> r == Err(saveReply.error))
      && (saveReply.Ok? ==> r.Ok? && JsonOf(r.value) == saveReply.value.ToJSON())
  {
    var created := Sensor.Create(PropsFor(dto), now);
    if created.Err? {
      return Err(created.error);
    }
    var saved := repo.Save(created.value, saveReply);
    if saved.Err? {
      return Err(saved.error);
    }
    r := Ok(MapToResponseDto(saved.value));
  }
}
