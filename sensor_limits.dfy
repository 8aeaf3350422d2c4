/** The `SensorLimits` value object: a sensor's operating range for
    temperature and humidity, validated once on construction. */
module Limits {
  import opened Wrappers

  const TemperatureOrderError := "Min temperature must be less than max temperature"
  const HumidityOrderError := "Min humidity must be less than max humidity"
  const HumidityRangeError := "Humidity limits must be between 0 and 100"

  /** The untrusted record a `SensorLimits` is built from (and what `toJSON`
      and the DTOs carry). */
  datatype SensorLimitsProps = SensorLimitsProps(
    minTemperature: real,
    maxTemperature: real,
    minHumidity: real,
    maxHumidity: real)

  datatype SensorLimits = SensorLimits(
    minTemperature: real,
    maxTemperature: real,
    minHumidity: real,
    maxHumidity: real)
  {
    /** What every successfully constructed limits object satisfies. */
    ghost predicate Valid() {
      minTemperature < maxTemperature && 0.0 <= minHumidity < maxHumidity <= 100.0
    }

    /** The four getters, as the record `toJSON` nests under `limits`. */
    function ToProps(): SensorLimitsProps {
      SensorLimitsProps(minTemperature, maxTemperature, minHumidity, maxHumidity)
    }

    /** Both bounds are inclusive. */
    predicate IsTemperatureWithinLimits(temperature: real): (r: bool)
      ensures Valid() && (temperature == minTemperature || temperature == maxTemperature) ==> r
      ensures temperature < minTemperature || temperature > maxTemperature ==> !r
    {
      temperature >= minTemperature && temperature <= maxTemperature
    }

    /** Both bounds are inclusive. */
    predicate IsHumidityWithinLimits(humidity: real): (r: bool)
      ensures Valid() && (humidity == minHumidity || humidity == maxHumidity) ==> r
      ensures humidity < minHumidity || humidity > maxHumidity ==> !r
    {
      humidity >= minHumidity && humidity <= maxHumidity
    }
  }

  /** `new SensorLimits(props)`: three checks in a fixed order, the first that
      fails decides the error; on success the getters return the inputs. */
  function NewSensorLimits(p: SensorLimitsProps): (r: Result<SensorLimits>)
    ensures p.minTemperature >= p.maxTemperature ==> r == Err(TemperatureOrderError)
    ensures p.minTemperature < p.maxTemperature && p.minHumidity >= p.maxHumidity
            ==> r == Err(HumidityOrderError)
    ensures p.minTemperature < p.maxTemperature && p.minHumidity < p.maxHumidity
            && (p.minHumidity < 0.0 || p.maxHumidity > 100.0)
            ==> r == Err(HumidityRangeError)
    ensures r.Ok? <==> p.minTemperature < p.maxTemperature
                       && 0.0 <= p.minHumidity < p.maxHumidity <= 100.0
    ensures r.Ok? ==> r.value.Valid() && r.value.ToProps() == p
  {
    if p.minTemperature >= p.maxTemperature then
      Err(TemperatureOrderError)
    else if p.minHumidity >= p.maxHumidity then
      Err(HumidityOrderError)
    else if p.minHumidity < 0.0 || p.maxHumidity > 100.0 then
      Err(HumidityRangeError)
    else
      Ok(SensorLimits(p.minTemperature, p.maxTemperature, p.minHumidity, p.maxHumidity))
  }

  /** Rebuilding limits from their own getters (as a repository does when it
      reads a sensor back) gives the same limits. */
  lemma RebuildFromProps(l: SensorLimits)
    requires l.Valid()
    ensures NewSensorLimits(l.ToProps()) == Ok(l)
  {
  }
}
