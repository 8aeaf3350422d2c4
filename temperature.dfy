/** The `Temperature` value object: a reading in degrees Celsius within the
    physically meaningful range. */
module TemperatureValue {
  import opened Wrappers

  const AbsoluteZero: real := -273.15
  const MaxTemperature: real := 200.0
  const BelowAbsoluteZeroError := "Temperature cannot be below absolute zero"
  const AboveMaximumError := "Temperature exceeds maximum allowed value"

  datatype Temperature = Temperature(value: real)
  {
    ghost predicate Valid() {
      AbsoluteZero <= value <= MaxTemperature
    }

    function GetValue(): real {
      value
    }

    /** Strictly above: a value equal to the limit is not above it, and a
        value above a limit is never also below it. */
    function IsAbove(limit: real): (above: bool)
      ensures value == limit ==> !above
      ensures above ==> !IsBelow(limit)
    {
      value > limit
    }

    /** Strictly below: a value equal to the limit is not below it. */
    function IsBelow(limit: real): (below: bool)
      ensures value == limit ==> !below
    {
      value < limit
    }
  }

  /** `new Temperature(value)`: rejects values below absolute zero, then values
      above 200; both bounds themselves are accepted. */
  function NewTemperature(v: real): (r: Result<Temperature>)
    ensures v < AbsoluteZero ==> r == Err(BelowAbsoluteZeroError)
    ensures v > MaxTemperature ==> r == Err(AboveMaximumError)
    ensures AbsoluteZero <= v <= MaxTemperature ==> r.Ok? && r.value.GetValue() == v
    ensures r.Ok? ==> r.value.Valid()
  {
    if v < AbsoluteZero then Err(BelowAbsoluteZeroError)
    else if v > MaxTemperature then Err(AboveMaximumError)
    else Ok(Temperature(v))
  }
}
