/** Extractors/CurrentConditionExtractor.swift: turns the current observation
    of a MapClick response, whose readings are all strings, into current
    conditions. The date must parse; the air temperature must parse; the
    wind chill is used as the feels-like temperature when it parses (it may
    hold text such as "NA") and the air temperature otherwise. */
module MapClickExtractor {
  import opened Wrappers
  import opened Foundation

  /** `MAPClickResponse.CurrentObservation`, reduced to the three readings
      the extractor uses. */
  datatype CurrentObservation = CurrentObservation(date: string, temp: string, windChill: string)

  /** `MAPClickResponse.ParseError` */
  datatype ParseError = ParseError(field: string)

  /** `CurrentConditionExtractorError` */
  datatype ExtractorError = DateParseError | TemperatureParseError

  /** `Temperature`, in the units of the response. */
  datatype Temperature = Temperature(actual: real, feelsLike: real)

  /** `CurrentConditions` */
  datatype CurrentConditions = CurrentConditions(date: Date, temperature: Temperature)

  /** A `Float(String)` conversion: the number a string spells, if any. */
  type FloatParser = string -> Option<real>

  /** `actual` */
  function Actual(observation: CurrentObservation, parseFloat: FloatParser): Result<real, ParseError>
  {
    match parseFloat(observation.temp)
    case Some(temperature) => Success(temperature)
    case None => Failure(ParseError("temp"))
  }

  /** `feelsLike` */
  function FeelsLike(observation: CurrentObservation, parseFloat: FloatParser): Result<real, ParseError>
  {
    match parseFloat(observation.windChill)
    case Some(windChill) => Success(windChill)
    case None => Actual(observation, parseFloat)
  }

  /** `temperature`: `actual` is evaluated before `feelsLike`. */
  function TemperatureOf(observation: CurrentObservation, parseFloat: FloatParser): (r: Result<Temperature, ParseError>)
    ensures r.Success? <==> parseFloat(observation.temp).Some?
    ensures r.Failure? ==> r.error == ParseError("temp")
    ensures r.Success? ==> r.value.actual == parseFloat(observation.temp).value
  {
    var actual :- Actual(observation, parseFloat);
    match FeelsLike(observation, parseFloat)
    case Success(feelsLike) => Success(Temperature(actual, feelsLike))
    case Failure(e) => Failure(e)
  }

  /** `extract(_:)` */
  function Extract(observation: CurrentObservation, parseDate: DateParser, parseFloat: FloatParser)
    : (r: Result<CurrentConditions, ExtractorError>)
    ensures r.Success? <==> parseDate(observation.date).Some? && parseFloat(observation.temp).Some?
    ensures parseDate(observation.date).None? ==> r == Failure(DateParseError)
    ensures r.Success? ==>
      r.value.date == parseDate(observation.date).value && r.value.temperature.actual == parseFloat(observation.temp).value
  {
    match parseDate(observation.date)
    case None => Failure(DateParseError)
    case Some(date) =>
      match TemperatureOf(observation, parseFloat)
      case Failure(_) => Failure(TemperatureParseError)
      case Success(temperature) => Success(CurrentConditions(date, temperature))
  }

  /** The temperature reading fails exactly when the air temperature does not
      parse, whatever the wind chill holds, and then names the `temp` field;
      a wind chill that parses is the feels-like temperature, and otherwise
      the temperature feels like the air temperature. */
  lemma TemperatureReading(observation: CurrentObservation, parseFloat: FloatParser)
    ensures TemperatureOf(observation, parseFloat).Success? <==> parseFloat(observation.temp).Some?
    ensures TemperatureOf(observation, parseFloat).Failure? ==>
      TemperatureOf(observation, parseFloat).error == ParseError("temp")
    ensures TemperatureOf(observation, parseFloat).Success? ==>
      && TemperatureOf(observation, parseFloat).value.actual == parseFloat(observation.temp).value
      && (parseFloat(observation.windChill).Some? ==>
            TemperatureOf(observation, parseFloat).value.feelsLike == parseFloat(observation.windChill).value)
      && (parseFloat(observation.windChill).None? ==>
            TemperatureOf(observation, parseFloat).value.feelsLike == TemperatureOf(observation, parseFloat).value.actual)
  {
  }

  /** The date is checked first; every temperature failure is reported as
      `temperatureParseError`; on success the conditions hold the date and
      the temperature read. */
  lemma ExtractOutcomes(observation: CurrentObservation, parseDate: DateParser, parseFloat: FloatParser)
    ensures Extract(observation, parseDate, parseFloat).Success? <==>
      parseDate(observation.date).Some? && parseFloat(observation.temp).Some?
    ensures parseDate(observation.date).None? ==> Extract(observation, parseDate, parseFloat) == Failure(DateParseError)
    ensures parseDate(observation.date).Some? && parseFloat(observation.temp).None? ==>
      Extract(observation, parseDate, parseFloat) == Failure(TemperatureParseError)
    ensures Extract(observation, parseDate, parseFloat).Success? ==>
      Extract(observation, parseDate, parseFloat).value
        == CurrentConditions(parseDate(observation.date).value, TemperatureOf(observation, parseFloat).value)
  {
    TemperatureReading(observation, parseFloat);
  }
}
