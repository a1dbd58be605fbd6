/** NOAAKit.swift and Request.swift: the public entry point. `fetchWeather`
    fetches the points document of a coordinate, checks the observation
    stations link it names, and hands that link to the observations
    extractor. */
module NoaaKit {
  import opened Wrappers
  import opened Errors
  import opened Json
  import opened Http
  import opened Foundation
  import opened Model
  import Extract
  import NoaaApi
  import ApiRequestExtensions
  import ObservationsExtractor

  /** `Weather`: what `fetchWeather` returns. */
  datatype Weather = Weather(observations: ObservationsExtractor.Observation)

  /** `pointsRequest` of Request.swift: the points URL for the coordinate,
      rendered by `describe`, as a standard GET request; `URL(string:)!` stops
      the process when `isUrl` rejects it. */
  function PointsRequestValue(coordinate: Coordinate, isUrl: string -> bool, describe: real -> string)
    : (r: Result<RequestValue, Failure>)
    ensures var url := NoaaApi.PointsUrl(describe(coordinate.latitude), describe(coordinate.longitude));
      && (isUrl(url) ==> r == Success(ApiRequestExtensions.StandardRequestValue(url)))
      && (!isUrl(url) ==> r.Failure? && r.error.Trap?)
  {
    var url := NoaaApi.PointsUrl(describe(coordinate.latitude), describe(coordinate.longitude));
    if isUrl(url) then Success(ApiRequestExtensions.StandardRequestValue(url))
    else Failure(Trap("URL(string:) found nil"))
  }

  /** `fetchPoints()`, after the fetch. */
  function PointsOf(json: JsonObject): (r: Result<NoaaUrls, FetchError>)
    ensures ObjectAt(json, "properties").None? ==> r == Failure(ParseFailed("properties"))
    ensures r.Success? <==>
      ObjectAt(json, "properties").Some? && StringAt(ObjectAt(json, "properties").value, "observationStations").Some?
    ensures r.Success? ==>
      r.value.observationStations == StringAt(ObjectAt(json, "properties").value, "observationStations").value
  {
    match ObjectAt(json, "properties")
    case None => Failure(ParseFailed("properties"))
    case Some(properties) =>
      match StringAt(properties, "observationStations")
      case Some(observationStations) => Success(NoaaUrls(observationStations))
      case None => Failure(ParseFailed("observationStations"))
  }

  /** The points document is read the same way here as by `noaaURLS` of
      Extract.swift: `properties` first, then `observationStations`. */
  lemma PointsAsExtracted(json: JsonObject)
    ensures PointsOf(json) == Extract.NoaaUrlsOf(json)
    ensures PointsOf(json).Success? <==>
      ObjectAt(json, "properties").Some? && StringAt(ObjectAt(json, "properties").value, "observationStations").Some?
  {
  }

  /** `fetchPoints()` */
  function FetchPointsRun(coordinate: Coordinate, script: seq<Reply>, isUrl: string -> bool, describe: real -> string)
    : Run<NoaaUrls>
  {
    match PointsRequestValue(coordinate, isUrl, describe)
    case Failure(e) => Run(Failure(e), [], script)
    case Success(request) =>
      var fetched := ApiRequestExtensions.FetchJsonRun(request, script);
      match fetched.result
      case Failure(e) => Run(Failure(e), fetched.sent, fetched.rest)
      case Success(json) => Run(FromFetch(PointsOf(json)), fetched.sent, fetched.rest)
  }

  /** `fetchWeather(atCoordinate:)`. `isUrl` stands for `URL(string:)`,
      `describe` for the rendering of a degree value in a string, and
      `parseTimestamp` for the observation's timestamp formatter. */
  function FetchWeatherRun(coordinate: Coordinate, script: seq<Reply>, isUrl: string -> bool,
                           describe: real -> string, parseTimestamp: DateParser): (r: Run<Weather>)
    ensures var points := FetchPointsRun(coordinate, script, isUrl, describe);
      points.result.Failure? ==> r == Run(Failure(points.result.error), points.sent, points.rest)
    ensures var points := FetchPointsRun(coordinate, script, isUrl, describe);
      r.result.Success? ==>
        && points.result.Success?
        && isUrl(points.result.value.observationStations)
        && var extracted := ObservationsExtractor.ExtractRun(points.result.value.observationStations, points.rest,
                                                             isUrl, parseTimestamp);
        && extracted.result == Success(r.result.value.observations)
        && r.sent == points.sent + extracted.sent
  {
    var points := FetchPointsRun(coordinate, script, isUrl, describe);
    match points.result
    case Failure(e) => Run(Failure(e), points.sent, points.rest)
    case Success(noaaUrls) =>
      if !isUrl(noaaUrls.observationStations) then
        Run(Failure(Fetch(ParseFailed("observationStations"))), points.sent, points.rest)
      else
        var extracted := ObservationsExtractor.ExtractRun(noaaUrls.observationStations, points.rest, isUrl, parseTimestamp);
        var sent := points.sent + extracted.sent;
        match extracted.result
        case Failure(e) => Run(Failure(e), sent, extracted.rest)
        case Success(observations) => Run(Success(Weather(observations)), sent, extracted.rest)
  }

  /** `pointsRequest` */
  method PointsRequest(coordinate: Coordinate, isUrl: string -> bool, describe: real -> string)
    returns (r: Result<Request, Failure>)
    ensures var expected := PointsRequestValue(coordinate, isUrl, describe);
      && r.Success? == expected.Success?
      && (r.Success? ==> fresh(r.value) && r.value.Value() == expected.value)
      && (r.Failure? ==> r.error == expected.error)
  {
    var url := NoaaApi.PointsUrl(describe(coordinate.latitude), describe(coordinate.longitude));
    if !isUrl(url) {
      return Failure(Trap("URL(string:) found nil"));
    }
    var request := new Request(url);
    request.httpMethod := "GET";
    ApiRequestExtensions.AddStandardHeaders(request);
    r := Success(request);
  }

  /** `fetchPoints()` */
  method FetchPoints(session: Session, coordinate: Coordinate, isUrl: string -> bool, describe: real -> string)
    returns (r: Result<NoaaUrls, Failure>)
    modifies session
    ensures var run := FetchPointsRun(coordinate, old(session.script), isUrl, describe);
      r == run.result && session.sent == old(session.sent) + run.sent && session.script == run.rest
  {
    var request := PointsRequest(coordinate, isUrl, describe);
    if request.Failure? {
      return Failure(request.error);
    }
    var json := ApiRequestExtensions.FetchJson(session, request.value);
    if json.Failure? {
      return Failure(json.error);
    }
    r := FromFetch(PointsOf(json.value));
  }

  /** `fetchWeather(atCoordinate:)` */
  method FetchWeather(session: Session, coordinate: Coordinate, isUrl: string -> bool,
                      describe: real -> string, parseTimestamp: DateParser)
    returns (r: Result<Weather, Failure>)
    modifies session
    ensures var run := FetchWeatherRun(coordinate, old(session.script), isUrl, describe, parseTimestamp);
      r == run.result && session.sent == old(session.sent) + run.sent && session.script == run.rest
  {
    ghost var points := FetchPointsRun(coordinate, session.script, isUrl, describe);
    var noaaUrls := FetchPoints(session, coordinate, isUrl, describe);
    if noaaUrls.Failure? {
      return Failure(noaaUrls.error);
    }
    if !isUrl(noaaUrls.value.observationStations) {
      return Failure(Fetch(ParseFailed("observationStations")));
    }
    ghost var extracted := ObservationsExtractor.ExtractRun(noaaUrls.value.observationStations, points.rest, isUrl, parseTimestamp);
    var observations := ObservationsExtractor.Extract(session, noaaUrls.value.observationStations, isUrl, parseTimestamp);
    assert observations == extracted.result && session.sent == old(session.sent) + points.sent + extracted.sent;
    if observations.Failure? {
      return Failure(observations.error);
    }
    r := Success(Weather(observations.value));
  }

  /** The points document is always fetched first, and a points document
      that fails (a bad status, no `properties`, no `observationStations`)
      ends the fetch with nothing else sent. */
  lemma PointsFirst(coordinate: Coordinate, script: seq<Reply>, isUrl: string -> bool,
                    describe: real -> string, parseTimestamp: DateParser)
    ensures var run := FetchWeatherRun(coordinate, script, isUrl, describe, parseTimestamp);
      var url := NoaaApi.PointsUrl(describe(coordinate.latitude), describe(coordinate.longitude));
      isUrl(url) ==> |run.sent| >= 1 && run.sent[0] == ApiRequestExtensions.StandardRequestValue(url)
    ensures var run := FetchWeatherRun(coordinate, script, isUrl, describe, parseTimestamp);
      var points := FetchPointsRun(coordinate, script, isUrl, describe);
      points.result.Failure? ==> run.result == Failure(points.result.error) && run.sent == points.sent && |run.sent| <= 1
  {
  }

  /** A points document whose stations link `URL(string:)` rejects fails
      with `parseFailed(field: "observationStations")` after the one points
      request. */
  lemma InvalidStationsLink(coordinate: Coordinate, script: seq<Reply>, isUrl: string -> bool,
                            describe: real -> string, parseTimestamp: DateParser)
    requires FetchPointsRun(coordinate, script, isUrl, describe).result.Success?
    requires !isUrl(FetchPointsRun(coordinate, script, isUrl, describe).result.value.observationStations)
    ensures var run := FetchWeatherRun(coordinate, script, isUrl, describe, parseTimestamp);
      run.result == Failure(Fetch(ParseFailed("observationStations"))) && |run.sent| == 1
  {
  }

  /** Once the points document and its stations link are good, whatever
      the observations extractor fails with is what `fetchWeather` fails
      with, unchanged, after the points request and the extractor's own. */
  lemma ExtractionErrorPropagates(coordinate: Coordinate, script: seq<Reply>, isUrl: string -> bool,
                                  describe: real -> string, parseTimestamp: DateParser)
    requires FetchPointsRun(coordinate, script, isUrl, describe).result.Success?
    requires isUrl(FetchPointsRun(coordinate, script, isUrl, describe).result.value.observationStations)
    ensures var points := FetchPointsRun(coordinate, script, isUrl, describe);
      var extracted := ObservationsExtractor.ExtractRun(points.result.value.observationStations, points.rest,
                                                        isUrl, parseTimestamp);
      var run := FetchWeatherRun(coordinate, script, isUrl, describe, parseTimestamp);
      && run.sent == points.sent + extracted.sent
      && (extracted.result.Failure? ==> run.result == Failure(extracted.result.error))
  {
  }

  /** On success, three requests went out in order: the points document,
      the stations listing named by it, and the latest observation of the
      first station; the weather wraps exactly the observation extracted. */
  lemma SuccessfulFetch(coordinate: Coordinate, script: seq<Reply>, isUrl: string -> bool,
                        describe: real -> string, parseTimestamp: DateParser)
    requires FetchWeatherRun(coordinate, script, isUrl, describe, parseTimestamp).result.Success?
    ensures var run := FetchWeatherRun(coordinate, script, isUrl, describe, parseTimestamp);
      var points := FetchPointsRun(coordinate, script, isUrl, describe);
      && points.result.Success?
      && var stationsUrl := points.result.value.observationStations;
      && isUrl(stationsUrl)
      && var extracted := ObservationsExtractor.ExtractRun(stationsUrl, points.rest, isUrl, parseTimestamp);
      && extracted.result.Success?
      && run.result.value == Weather(extracted.result.value)
      && |run.sent| == 3
      && run.sent[1] == ApiRequestExtensions.StandardRequestValue(stationsUrl)
      && run.sent[2].url == ObservationsExtractor.ObservationUrl(
           ObservationsExtractor.FetchStationIdentifierRun(stationsUrl, points.rest).result.value)
  {
    var points := FetchPointsRun(coordinate, script, isUrl, describe);
    var stationsUrl := points.result.value.observationStations;
    ObservationsExtractor.LookupBeforeFetch(stationsUrl, points.rest, isUrl, parseTimestamp);
  }

  /** A status code error always reports the status of the reply to the
      last request sent: a failing response ends the whole fetch. */
  lemma StatusOfLastRequest(coordinate: Coordinate, script: seq<Reply>, isUrl: string -> bool,
                            describe: real -> string, parseTimestamp: DateParser)
    ensures StatusFromLastReply(FetchWeatherRun(coordinate, script, isUrl, describe, parseTimestamp), script)
  {
    var points := FetchPointsRun(coordinate, script, isUrl, describe);
    var request := PointsRequestValue(coordinate, isUrl, describe);
    if request.Success? {
      ApiRequestExtensions.FetchJsonConsumesOneReply(request.value, script);
      if points.result.Success? && isUrl(points.result.value.observationStations) {
        var stationsUrl := points.result.value.observationStations;
        var extracted := ObservationsExtractor.ExtractRun(stationsUrl, points.rest, isUrl, parseTimestamp);
        ObservationsExtractor.StatusOfLastRequest(stationsUrl, points.rest, isUrl, parseTimestamp);
        if extracted.result.Failure? {
          StatusAfterPrefix(extracted, FetchWeatherRun(coordinate, script, isUrl, describe, parseTimestamp), script, 1);
        }
      }
    }
  }
}
