/** Fetchers/CurrentConditionExtractor.swift: an earlier revision of the
    observation fetch. It shares the station lookup and the observation
    request with the observations extractor, fetches the observation with
    `fetchJSON()`, and builds current conditions whose feels-like
    temperature is the wind chill, else the heat index, else the air
    temperature, each truncated to whole degrees Fahrenheit. */
module ConditionFetcher {
  import opened Wrappers
  import opened Errors
  import opened Json
  import opened Http
  import opened Foundation
  import JsonUtil
  import ApiRequestExtensions
  import ObservationsExtractor

  /** The `Temperature` this revision builds, in whole degrees Fahrenheit. */
  datatype Temperature = Temperature(actual: int, feelsLike: int)

  /** The `CurrentConditions` this revision builds. */
  datatype CurrentConditions = CurrentConditions(date: Date, temperature: Temperature, clouds: int)

  /** `extractValue(name:)`: the numeric `value` of the object at `name`,
      or nothing when either is missing. */
  function ExtractValue(o: JsonObject, name: string): (r: Option<real>)
    ensures r.Some? <==> name in o && o[name].Obj? && "value" in o[name].fields && o[name].fields["value"].Num?
    ensures r.Some? ==> r.value == o[name].fields["value"].n
  {
    NumericValue(o, name)
  }

  /** Whole degrees Fahrenheit of a Celsius reading, as `Int(...)` of the
      converted measurement. */
  function WholeFahrenheit(celsius: real): int
  {
    TruncateToInt(Fahrenheit(celsius))
  }

  /** `extractTemperature()`: the air temperature is required; the
      feels-like reading is chosen by the `if let` chain. */
  function ExtractTemperature(properties: JsonObject): (r: Result<Temperature, FetchError>)
    ensures r.Success? <==> ExtractValue(properties, "temperature").Some?
    ensures r.Failure? ==> r.error == ParseFailed("temperature")
  {
    match ExtractValue(properties, "temperature")
    case None => Failure(ParseFailed("temperature"))
    case Some(temperatureValue) =>
      var feelsLike :=
        match ExtractValue(properties, "windChill")
        case Some(windChillValue) => windChillValue
        case None =>
          match ExtractValue(properties, "heatIndex")
          case Some(heatIndex) => heatIndex
          case None => temperatureValue;
      Success(Temperature(WholeFahrenheit(temperatureValue), WholeFahrenheit(feelsLike)))
  }

  /** The first reading present in `readings`, in order of preference. */
  function FirstPresent(readings: seq<Option<real>>): (r: Option<real>)
    ensures r.Some? <==> exists i :: 0 <= i < |readings| && readings[i].Some?
    ensures r.Some? ==>
      exists i :: 0 <= i < |readings| && readings[i] == r && forall j :: 0 <= j < i ==> readings[j].None?
  {
    if |readings| == 0 then None
    else if readings[0].Some? then readings[0]
    else
      var r := FirstPresent(readings[1..]);
      assert forall i :: 1 <= i < |readings| ==> readings[i] == readings[1..][i - 1];
      if r.Some? then
        var i :| 0 <= i < |readings[1..]| && readings[1..][i] == r
          && forall j :: 0 <= j < i ==> readings[1..][j].None?;
        assert readings[i + 1] == r;
        r
      else r
  }

  /** The feels-like temperature is the first of wind chill, heat index and
      air temperature that the document gives; the actual temperature is the
      air temperature. */
  lemma FeelsLikePrecedence(properties: JsonObject)
    requires ExtractValue(properties, "temperature").Some?
    ensures var readings := [ExtractValue(properties, "windChill"), ExtractValue(properties, "heatIndex"),
                             ExtractValue(properties, "temperature")];
      && FirstPresent(readings).Some?
      && ExtractTemperature(properties) == Success(Temperature(
           WholeFahrenheit(ExtractValue(properties, "temperature").value),
           WholeFahrenheit(FirstPresent(readings).value)))
  {
    var readings := [ExtractValue(properties, "windChill"), ExtractValue(properties, "heatIndex"),
                     ExtractValue(properties, "temperature")];
    assert readings[1..] == [readings[1], readings[2]];
    assert readings[1..][1..] == [readings[2]];
  }

  /** Without a wind chill or heat index reading, the temperature feels like
      what it is; a wind chill reading wins over any heat index. */
  lemma FeelsLikeCases(properties: JsonObject)
    requires ExtractValue(properties, "temperature").Some?
    ensures ExtractValue(properties, "windChill").None? && ExtractValue(properties, "heatIndex").None? ==>
      ExtractTemperature(properties).value.feelsLike == ExtractTemperature(properties).value.actual
    ensures ExtractValue(properties, "windChill").Some? ==>
      ExtractTemperature(properties).value.feelsLike == WholeFahrenheit(ExtractValue(properties, "windChill").value)
  {
  }

  /** In exact arithmetic, an observation of 20.0 °C with a heat index of
      20.5 °C and no wind chill reads as 68 °F and feels like 68 °F: 68.9 is
      truncated, not rounded. The program converts in `Double`, where 20.0 °C
      can come out just below 68 and truncate to 67; that rounding is outside
      the model. */
  lemma HeatIndexScenario()
    ensures var properties := map["temperature" := Obj(map["value" := Num(20.0)]),
                                  "heatIndex" := Obj(map["value" := Num(20.5)])];
      ExtractTemperature(properties) == Success(Temperature(68, 68))
  {
    assert Fahrenheit(20.0) == 68.0;
    assert Fahrenheit(20.5) == 68.9;
  }

  /** The conditions at the end of `extract()`. */
  function ConditionsOf(json: JsonObject, iso8601: DateParser): (r: Result<CurrentConditions, FetchError>)
    ensures ObjectAt(json, "properties").None? ==> r == Failure(ParseFailed("properties"))
    ensures r.Success? ==> ObjectAt(json, "properties").Some? && r.value.clouds == 0
    ensures r.Success? ==>
      var properties := ObjectAt(json, "properties").value;
      && ExtractTemperature(properties) == Success(r.value.temperature)
      && JsonUtil.ExtractDate(properties, "timestamp", iso8601) == Success(r.value.date)
  {
    var propertyNode :- JsonUtil.ExtractJson(json, "properties");
    var temperature :- ExtractTemperature(propertyNode);
    var date :- JsonUtil.ExtractDate(propertyNode, "timestamp", iso8601);
    Success(CurrentConditions(date, temperature, 0))
  }

  /** The reads happen in order `properties`, temperature, `timestamp`, each
      failing with `parseFailed` naming its field; the conditions carry the
      temperature and the date read, and never any clouds. */
  lemma ConditionsFromTree(json: JsonObject, iso8601: DateParser)
    ensures ObjectAt(json, "properties").None? ==> ConditionsOf(json, iso8601) == Failure(ParseFailed("properties"))
    ensures ObjectAt(json, "properties").Some? ==>
      var properties := ObjectAt(json, "properties").value;
      && (ExtractValue(properties, "temperature").None? ==>
            ConditionsOf(json, iso8601) == Failure(ParseFailed("temperature")))
      && (ExtractValue(properties, "temperature").Some? ==>
            ConditionsOf(json, iso8601).Success? == JsonUtil.ExtractDate(properties, "timestamp", iso8601).Success?)
      && (ConditionsOf(json, iso8601).Failure? ==>
            ConditionsOf(json, iso8601).error in {ParseFailed("temperature"), ParseFailed("timestamp")})
      && (ConditionsOf(json, iso8601).Success? ==>
            && ConditionsOf(json, iso8601).value.temperature == ExtractTemperature(properties).value
            && ConditionsOf(json, iso8601).value.date == JsonUtil.ExtractDate(properties, "timestamp", iso8601).value)
    ensures ConditionsOf(json, iso8601).Success? ==> ConditionsOf(json, iso8601).value.clouds == 0
  {
  }

  /** `extract()`: the observation request of the observations extractor,
      then `fetchJSON()`. */
  function ExtractRun(stationUrl: string, script: seq<Reply>, isUrl: string -> bool, iso8601: DateParser)
    : Run<CurrentConditions>
  {
    var prepared := ObservationsExtractor.ObservationRequestRun(stationUrl, script, isUrl);
    match prepared.result
    case Failure(e) => Run(Failure(e), prepared.sent, prepared.rest)
    case Success(request) =>
      var fetched := ApiRequestExtensions.FetchJsonRun(request, prepared.rest);
      var sent := prepared.sent + fetched.sent;
      match fetched.result
      case Failure(e) => Run(Failure(e), sent, fetched.rest)
      case Success(json) => Run(FromFetch(ConditionsOf(json, iso8601)), sent, fetched.rest)
  }

  /** `extract()` */
  method Extract(session: Session, stationUrl: string, isUrl: string -> bool, iso8601: DateParser)
    returns (r: Result<CurrentConditions, Failure>)
    modifies session
    ensures var run := ExtractRun(stationUrl, old(session.script), isUrl, iso8601);
      r == run.result && session.sent == old(session.sent) + run.sent && session.script == run.rest
  {
    var request := ObservationsExtractor.ObservationRequest(session, stationUrl, isUrl);
    if request.Failure? {
      return Failure(request.error);
    }
    var json := ApiRequestExtensions.FetchJson(session, request.value);
    if json.Failure? {
      return Failure(json.error);
    }
    r := FromFetch(ConditionsOf(json.value, iso8601));
  }

  /** A successful extraction sent the listing request and then the request
      for the latest observation of the station found, and its conditions
      are those read from the second reply. */
  lemma SuccessfulExtract(stationUrl: string, script: seq<Reply>, isUrl: string -> bool, iso8601: DateParser)
    requires ExtractRun(stationUrl, script, isUrl, iso8601).result.Success?
    ensures var run := ExtractRun(stationUrl, script, isUrl, iso8601);
      var lookup := ObservationsExtractor.FetchStationIdentifierRun(stationUrl, script);
      && lookup.result.Success?
      && run.sent == [ApiRequestExtensions.StandardRequestValue(stationUrl),
                      ApiRequestExtensions.StandardRequestValue(ObservationsExtractor.ObservationUrl(lookup.result.value))]
      && var fetched := ApiRequestExtensions.FetchJsonRun(run.sent[1], lookup.rest);
      && fetched.result.Success?
      && run.result == FromFetch(ConditionsOf(fetched.result.value, iso8601))
  {
  }
}
