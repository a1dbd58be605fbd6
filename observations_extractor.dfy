/** Extractor/ObservationsExtractor.swift: the revision of the observation
    fetch that `NOAA.fetchWeather` uses. It looks up the station, fetches the
    latest observation and reads only its temperature, converted to
    Fahrenheit, and its timestamp. */
module ObservationsExtractor {
  import opened Wrappers
  import opened Errors
  import opened Json
  import opened Http
  import opened Foundation
  import ApiRequestExtensions
  import SessionExtension
  import NoaaApi

  /** The `Observation` this revision builds; `temperature` in Fahrenheit. */
  datatype Observation = Observation(temperature: real, timestamp: Date)

  // ---- Pure parts ----

  /** `fetchStationIdentifier()`, after the fetch. */
  function StationIdentifierOf(stationJson: JsonObject): (r: Result<string, FetchError>)
    ensures r == Failure(ParseFailed("features")) <==> !NoaaApi.IsFeatureList(stationJson)
    ensures r.Success? ==>
      && NoaaApi.IsFeatureList(stationJson) && stationJson["features"].items != []
      && NoaaApi.IdentifierOf(stationJson["features"].items[0]) == Some(r.value)
  {
    match ObjectsAt(stationJson, "features")
    case None => Failure(ParseFailed("features"))
    case Some(features) =>
      if |features| > 0 && ObjectAt(features[0], "properties").Some?
         && StringAt(ObjectAt(features[0], "properties").value, "stationIdentifier").Some?
      then Success(StringAt(ObjectAt(features[0], "properties").value, "stationIdentifier").value)
      else Failure(StationIdentifierNotFound)
  }

  /** The observation URL built in `observationRequest()`. */
  function ObservationUrl(stationIdentifier: string): string
  {
    "https://api.weather.gov/stations/" + stationIdentifier + "/observations/latest"
  }

  /** `temperature`: the node and its `value` are both required; the Celsius
      value is converted to Fahrenheit. */
  function TemperatureOf(properties: JsonObject): (r: Result<real, Failure>)
    ensures r.Success? <==> NumericValue(properties, "temperature").Some?
    ensures r.Success? ==> r.value == Fahrenheit(NumericValue(properties, "temperature").value)
  {
    var temperatureNode :- JsonOf(properties, "temperature");
    var temperatureCelsius :- FloatOf(temperatureNode, "value");
    Success(Fahrenheit(temperatureCelsius))
  }

  /** `timeStamp`, read with the `yyyy-MM-dd'T'HH:mm:ssZ` formatter `parse`. */
  function TimestampOf(properties: JsonObject, parse: DateParser): Result<Date, Failure>
  {
    var text :- StringOf(properties, "timestamp");
    match parse(text)
    case Some(date) => Success(date)
    case None => Failure(Extraction(ConvertType("timestamp")))
  }

  /** The extraction at the end of `extract()`. */
  function ObservationOf(json: JsonObject, parse: DateParser): (r: Result<Observation, Failure>)
    ensures ObjectAt(json, "properties").None? ==> r == Failure(Accessor("properties"))
    ensures r.Success? ==> ObjectAt(json, "properties").Some?
    ensures r.Success? ==>
      var properties := ObjectAt(json, "properties").value;
      && TemperatureOf(properties) == Success(r.value.temperature)
      && StringAt(properties, "timestamp").Some?
      && parse(StringAt(properties, "timestamp").value) == Some(r.value.timestamp)
  {
    var properties :- JsonOf(json, "properties");
    var temperature :- TemperatureOf(properties);
    var timestamp :- TimestampOf(properties, parse);
    Success(Observation(temperature, timestamp))
  }

  /** This revision's lookup behaves exactly as the one of NOAAAPI.swift. */
  lemma SameLookupAsApi(stationJson: JsonObject)
    ensures StationIdentifierOf(stationJson) == NoaaApi.StationIdentifier(stationJson)
  {
  }

  /** This revision builds the same observation URL as NOAAAPI.swift. */
  lemma SameUrlAsApi(stationIdentifier: string)
    ensures ObservationUrl(stationIdentifier) == NoaaApi.ObservationUrl(stationIdentifier)
    ensures NoaaApi.StationOfObservationUrl(ObservationUrl(stationIdentifier)) == Some(stationIdentifier)
  {
    NoaaApi.ObservationUrlRoundTrip(stationIdentifier);
  }

  /** The temperature is required at both levels, with no fallback: it
      succeeds exactly when the `temperature` node has a numeric `value`, and
      is then that value in Fahrenheit. */
  lemma TemperatureRequired(properties: JsonObject)
    ensures TemperatureOf(properties).Success? <==> NumericValue(properties, "temperature").Some?
    ensures TemperatureOf(properties).Success? ==>
      TemperatureOf(properties).value == Fahrenheit(NumericValue(properties, "temperature").value)
    ensures ObjectAt(properties, "temperature").None? ==> TemperatureOf(properties) == Failure(Accessor("temperature"))
    ensures ObjectAt(properties, "temperature").Some? && NumericValue(properties, "temperature").None? ==>
      TemperatureOf(properties) == Failure(Accessor("value"))
  {
  }

  /** The observation carries exactly the temperature and timestamp read;
      a missing `properties` object fails first, then the temperature, and an
      unparsable timestamp fails with `convertType("timestamp")`. */
  lemma ObservationFromTree(json: JsonObject, parse: DateParser)
    ensures ObjectAt(json, "properties").None? ==> ObservationOf(json, parse) == Failure(Accessor("properties"))
    ensures ObjectAt(json, "properties").Some? ==>
      var properties := ObjectAt(json, "properties").value;
      && (TemperatureOf(properties).Failure? ==> ObservationOf(json, parse) == Failure(TemperatureOf(properties).error))
      && (TemperatureOf(properties).Success? && StringAt(properties, "timestamp").Some?
          && parse(StringAt(properties, "timestamp").value).None? ==>
            ObservationOf(json, parse) == Failure(Extraction(ConvertType("timestamp"))))
      && (ObservationOf(json, parse).Success? ==>
            && NumericValue(properties, "temperature").Some?
            && ObservationOf(json, parse).value.temperature == Fahrenheit(NumericValue(properties, "temperature").value)
            && StringAt(properties, "timestamp").Some?
            && parse(StringAt(properties, "timestamp").value) == Some(ObservationOf(json, parse).value.timestamp))
  {
    if ObjectAt(json, "properties").Some? {
      TemperatureRequired(ObjectAt(json, "properties").value);
    }
  }

  // ---- The requests and the fetches ----

  /** `fetchStationIdentifier()`: the listing is fetched with `fetchJSON()`. */
  function FetchStationIdentifierRun(stationUrl: string, script: seq<Reply>): Run<string>
  {
    var fetched := ApiRequestExtensions.FetchJsonRun(ApiRequestExtensions.StandardRequestValue(stationUrl), script);
    match fetched.result
    case Failure(e) => Run(Failure(e), fetched.sent, fetched.rest)
    case Success(stationJson) => Run(FromFetch(StationIdentifierOf(stationJson)), fetched.sent, fetched.rest)
  }

  /** `observationRequest()`; `URL(string:)!` stops the process when `isUrl`
      rejects the URL built. */
  function ObservationRequestRun(stationUrl: string, script: seq<Reply>, isUrl: string -> bool): Run<RequestValue>
  {
    var lookup := FetchStationIdentifierRun(stationUrl, script);
    match lookup.result
    case Failure(e) => Run(Failure(e), lookup.sent, lookup.rest)
    case Success(stationIdentifier) =>
      var url := ObservationUrl(stationIdentifier);
      if isUrl(url) then Run(Success(ApiRequestExtensions.StandardRequestValue(url)), lookup.sent, lookup.rest)
      else Run(Failure(Trap("URL(string:) found nil")), lookup.sent, lookup.rest)
  }

  /** `extract()`. The observation is loaded with `URLSession.loadJSON(from:)`,
      modelled as `json(for:)`. */
  function ExtractRun(stationUrl: string, script: seq<Reply>, isUrl: string -> bool, parse: DateParser): Run<Observation>
  {
    var prepared := ObservationRequestRun(stationUrl, script, isUrl);
    match prepared.result
    case Failure(e) => Run(Failure(e), prepared.sent, prepared.rest)
    case Success(request) =>
      var fetched := SessionExtension.JsonForRun(request, prepared.rest);
      var sent := prepared.sent + fetched.sent;
      match fetched.result
      case Failure(e) => Run(Failure(e), sent, fetched.rest)
      case Success(json) => Run(ObservationOf(json, parse), sent, fetched.rest)
  }

  /** `fetchStationIdentifier()` */
  method FetchStationIdentifier(session: Session, stationUrl: string) returns (r: Result<string, Failure>)
    modifies session
    ensures var run := FetchStationIdentifierRun(stationUrl, old(session.script));
      r == run.result && session.sent == old(session.sent) + run.sent && session.script == run.rest
  {
    var stationRequest := ApiRequestExtensions.StandardRequest(stationUrl);
    var stationJson := ApiRequestExtensions.FetchJson(session, stationRequest);
    if stationJson.Failure? {
      return Failure(stationJson.error);
    }
    r := FromFetch(StationIdentifierOf(stationJson.value));
  }

  /** `observationRequest()` */
  method ObservationRequest(session: Session, stationUrl: string, isUrl: string -> bool)
    returns (r: Result<Request, Failure>)
    modifies session
    ensures var run := ObservationRequestRun(stationUrl, old(session.script), isUrl);
      && session.sent == old(session.sent) + run.sent && session.script == run.rest
      && r.Success? == run.result.Success?
      && (r.Success? ==> fresh(r.value) && r.value.Value() == run.result.value)
      && (r.Failure? ==> r.error == run.result.error)
  {
    var stationIdentifier := FetchStationIdentifier(session, stationUrl);
    if stationIdentifier.Failure? {
      return Failure(stationIdentifier.error);
    }
    var url := ObservationUrl(stationIdentifier.value);
    if !isUrl(url) {
      return Failure(Trap("URL(string:) found nil"));
    }
    var observationRequest := ApiRequestExtensions.StandardRequest(url);
    r := Success(observationRequest);
  }

  /** `extract()` */
  method Extract(session: Session, stationUrl: string, isUrl: string -> bool, parse: DateParser)
    returns (r: Result<Observation, Failure>)
    modifies session
    ensures var run := ExtractRun(stationUrl, old(session.script), isUrl, parse);
      r == run.result && session.sent == old(session.sent) + run.sent && session.script == run.rest
  {
    var request := ObservationRequest(session, stationUrl, isUrl);
    if request.Failure? {
      return Failure(request.error);
    }
    var json := SessionExtension.JsonFor(session, request.value);
    if json.Failure? {
      return Failure(json.error);
    }
    r := ObservationOf(json.value, parse);
  }

  /** The station lookup comes first and a failed lookup aborts the fetch:
      nothing but the listing request is sent. The observation request, when
      sent, is for the station the lookup found. */
  lemma LookupBeforeFetch(stationUrl: string, script: seq<Reply>, isUrl: string -> bool, parse: DateParser)
    ensures var run := ExtractRun(stationUrl, script, isUrl, parse);
      1 <= |run.sent| <= 2 && run.sent[0] == ApiRequestExtensions.StandardRequestValue(stationUrl)
    ensures var run := ExtractRun(stationUrl, script, isUrl, parse);
      var lookup := FetchStationIdentifierRun(stationUrl, script);
      lookup.result.Failure? ==> run.result == Failure(lookup.result.error) && |run.sent| == 1
    ensures var run := ExtractRun(stationUrl, script, isUrl, parse);
      var lookup := FetchStationIdentifierRun(stationUrl, script);
      |run.sent| == 2 ==>
        && lookup.result.Success?
        && run.sent[1] == ApiRequestExtensions.StandardRequestValue(ObservationUrl(lookup.result.value))
  {
  }

  /** A status code error reports the status of the reply to the last
      request sent: the listing's when the lookup failed, the observation's
      otherwise. A successful lookup consumed exactly one reply. */
  lemma StatusOfLastRequest(stationUrl: string, script: seq<Reply>, isUrl: string -> bool, parse: DateParser)
    ensures StatusFromLastReply(ExtractRun(stationUrl, script, isUrl, parse), script)
    ensures var lookup := FetchStationIdentifierRun(stationUrl, script);
      lookup.result.Success? ==> script != [] && lookup.rest == script[1..] && |lookup.sent| == 1
  {
    var listingRequest := ApiRequestExtensions.StandardRequestValue(stationUrl);
    ApiRequestExtensions.FetchJsonConsumesOneReply(listingRequest, script);
    var prepared := ObservationRequestRun(stationUrl, script, isUrl);
    if prepared.result.Success? {
      var fetched := SessionExtension.JsonForRun(prepared.result.value, prepared.rest);
      SessionExtension.JsonForConsumesOneReply(prepared.result.value, prepared.rest);
      var run := ExtractRun(stationUrl, script, isUrl, parse);
      if fetched.result.Failure? {
        StatusAfterPrefix(fetched, run, script, 1);
      }
    }
  }
}
