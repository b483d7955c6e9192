/**
 * The four three-band environment classifiers. Each one splits the real line
 * into a band below a lower bound, a band above an upper bound and the closed
 * interval between them; both bounds belong to the middle band.
 */
module Bands {

  /** Where a measurement falls relative to a metric's comfortable interval. */
  datatype Band = Below | Within | Above

  /** Light: below 300 lux is "too_dark", above 1000 lux is "too_bright", otherwise "optimal". */
  function EvaluateLightQuality(illuminance: real): (b: Band)
    ensures b == Below <==> illuminance < 300.0
    ensures b == Above <==> illuminance > 1000.0
    ensures b == Within <==> 300.0 <= illuminance <= 1000.0
  {
    if illuminance < 300.0 then Below
    else if illuminance > 1000.0 then Above
    else Within
  }

  /** Noise: below 35 dB is "quiet", above 65 dB is "noisy", otherwise "moderate". */
  function EvaluateNoiseLevel(noiseLevel: real): (b: Band)
    ensures b == Below <==> noiseLevel < 35.0
    ensures b == Above <==> noiseLevel > 65.0
    ensures b == Within <==> 35.0 <= noiseLevel <= 65.0
  {
    if noiseLevel < 35.0 then Below
    else if noiseLevel > 65.0 then Above
    else Within
  }

  /** Temperature: below 20 degrees is "cold", above 26 degrees is "hot", otherwise "comfortable". */
  function EvaluateTemperature(temperature: real): (b: Band)
    ensures b == Below <==> temperature < 20.0
    ensures b == Above <==> temperature > 26.0
    ensures b == Within <==> 20.0 <= temperature <= 26.0
  {
    if temperature < 20.0 then Below
    else if temperature > 26.0 then Above
    else Within
  }

  /** Humidity: below 30 percent is "dry", above 60 percent is "humid", otherwise "comfortable". */
  function EvaluateHumidity(humidity: real): (b: Band)
    ensures b == Below <==> humidity < 30.0
    ensures b == Above <==> humidity > 60.0
    ensures b == Within <==> 30.0 <= humidity <= 60.0
  {
    if humidity < 30.0 then Below
    else if humidity > 60.0 then Above
    else Within
  }

  /** The labels the HTTP layer reports for each band. */
  function LightLabel(b: Band): string
  {
    match b
    case Below => "too_dark"
    case Within => "optimal"
    case Above => "too_bright"
  }

  function NoiseLabel(b: Band): string
  {
    match b
    case Below => "quiet"
    case Within => "moderate"
    case Above => "noisy"
  }

  function TemperatureLabel(b: Band): string
  {
    match b
    case Below => "cold"
    case Within => "comfortable"
    case Above => "hot"
  }

  function HumidityLabel(b: Band): string
  {
    match b
    case Below => "dry"
    case Within => "comfortable"
    case Above => "humid"
  }

  /** Each classifier reports its three bands under three distinct labels. */
  lemma LabelsDistinct(a: Band, b: Band)
    ensures LightLabel(a) == LightLabel(b) ==> a == b
    ensures NoiseLabel(a) == NoiseLabel(b) ==> a == b
    ensures TemperatureLabel(a) == TemperatureLabel(b) ==> a == b
    ensures HumidityLabel(a) == HumidityLabel(b) ==> a == b
  {
  }

  /** The label the analysis reports for each axis, in terms of the raw value. */
  lemma LabelsByThreshold(illuminance: real, noiseLevel: real, temperature: real, humidity: real)
    ensures LightLabel(EvaluateLightQuality(illuminance)) ==
      if illuminance < 300.0 then "too_dark" else if illuminance > 1000.0 then "too_bright" else "optimal"
    ensures NoiseLabel(EvaluateNoiseLevel(noiseLevel)) ==
      if noiseLevel < 35.0 then "quiet" else if noiseLevel > 65.0 then "noisy" else "moderate"
    ensures TemperatureLabel(EvaluateTemperature(temperature)) ==
      if temperature < 20.0 then "cold" else if temperature > 26.0 then "hot" else "comfortable"
    ensures HumidityLabel(EvaluateHumidity(humidity)) ==
      if humidity < 30.0 then "dry" else if humidity > 60.0 then "humid" else "comfortable"
  {
  }
}
