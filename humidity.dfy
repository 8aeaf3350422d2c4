/** The `Humidity` value object: a relative humidity percentage. */
module HumidityValue {
  import opened Wrappers

  const MinHumidity: real := 0.0
  const MaxHumidity: real := 100.0
  const OutOfRangeError := "Humidity must be between 0 and 100"

  datatype Humidity = Humidity(value: real)
  {
    ghost predicate Valid() {
      MinHumidity <= value <= MaxHumidity
    }

    function GetValue(): real {
      value
    }

    /** Strictly above: a value equal to the limit is not above it, and a
        value above a limit is never also below it. */
    function IsAbove(limit: real): (above: bool)
      ensures value == limit ==> !above
      ensures above ==> !IsBelow(limit)
    {
      value > limit
    }

    /** Strictly below: a value equal to the limit is not below it. */
    function IsBelow(limit: real): (below: bool)
      ensures value == limit ==> !below
    {
      value < limit
    }
  }

  /** `new Humidity(value)`: fails exactly outside [0, 100]; 0 and 100 are
      accepted and the value is kept unchanged. */
  function NewHumidity(v: real): (r: Result<Humidity>)
    ensures r.Err? <==> v < MinHumidity || v > MaxHumidity
    ensures r.Err? ==> r.error == OutOfRangeError
    ensures r.Ok? ==> r.value.Valid() && r.value.GetValue() == v
  {
    if v < MinHumidity || v > MaxHumidity then Err(OutOfRangeError)
    else Ok(Humidity(v))
  }
}
