/** NOAAAPI/NOAAAPI.swift: the `NOAAAPI` revision of the pipeline, which
    fetches the JSON of an endpoint; for observations it first looks up the
    station in the station listing. */
module NoaaApi {
  import opened Wrappers
  import opened Errors
  import opened Json
  import opened Http
  import opened Model
  import RequestExtensions
  import SessionExtension

  /** `EndPoint` */
  datatype EndPoint = Observations(url: string) | Points(coordinate: Coordinate)

  const StationsPrefix := "https://api.weather.gov/stations/"
  const LatestSuffix := "/observations/latest"
  const PointsPrefix := "https://api.weather.gov/points/"

  // ---- Pure parts ----

  /** The `stationIdentifier` getter, after the fetch: the identifier of the
      first feature of a station listing. */
  function StationIdentifier(stationJson: JsonObject): (r: Result<string, FetchError>)
    ensures r == Failure(ParseFailed("features")) <==> !IsFeatureList(stationJson)
    ensures r.Success? ==>
      && IsFeatureList(stationJson) && stationJson["features"].items != []
      && IdentifierOf(stationJson["features"].items[0]) == Some(r.value)
  {
    match ObjectsAt(stationJson, "features")
    case None => Failure(ParseFailed("features"))
    case Some(features) =>
      if |features| == 0 then Failure(StationIdentifierNotFound)
      else
        match ObjectAt(features[0], "properties")
        case None => Failure(StationIdentifierNotFound)
        case Some(properties) =>
          match StringAt(properties, "stationIdentifier")
          case None => Failure(StationIdentifierNotFound)
          case Some(identifier) => Success(identifier)
  }

  /** The observation URL of a station. */
  function ObservationUrl(stationIdentifier: string): (r: string)
    ensures |r| == |StationsPrefix| + |stationIdentifier| + |LatestSuffix|
    ensures r[..|StationsPrefix|] == StationsPrefix
    ensures r[|StationsPrefix|..|r| - |LatestSuffix|] == stationIdentifier
    ensures r[|r| - |LatestSuffix|..] == LatestSuffix
  {
    StationsPrefix + stationIdentifier + LatestSuffix
  }

  /** The station an observation URL names, if it has the template's shape. */
  function StationOfObservationUrl(url: string): Option<string>
  {
    if |StationsPrefix| + |LatestSuffix| <= |url|
       && url[..|StationsPrefix|] == StationsPrefix
       && url[|url| - |LatestSuffix|..] == LatestSuffix
    then Some(url[|StationsPrefix|..|url| - |LatestSuffix|])
    else None
  }

  /** The points URL for a coordinate, from its rendered latitude and longitude. */
  function PointsUrl(latitude: string, longitude: string): (r: string)
    ensures |r| == |PointsPrefix| + |latitude| + 1 + |longitude|
    ensures r[..|PointsPrefix|] == PointsPrefix
    ensures r[|PointsPrefix|..|PointsPrefix| + |latitude|] == latitude
    ensures r[|PointsPrefix| + |latitude|] == ','
    ensures r[|PointsPrefix| + |latitude| + 1..] == longitude
  {
    PointsPrefix + latitude + "," + longitude
  }

  // ---- The lookup, read straight from the tree ----

  /** `features` holds an array whose every element is an object. */
  predicate IsFeatureList(stationJson: JsonObject)
  {
    "features" in stationJson && stationJson["features"].Arr?
    && forall i :: 0 <= i < |stationJson["features"].items| ==> stationJson["features"].items[i].Obj?
  }

  /** `properties.stationIdentifier` of a feature, when it is a string. */
  function IdentifierOf(feature: Json): Option<string>
  {
    if feature.Obj? && "properties" in feature.fields && feature.fields["properties"].Obj?
       && "stationIdentifier" in feature.fields["properties"].fields
       && feature.fields["properties"].fields["stationIdentifier"].Str?
    then Some(feature.fields["properties"].fields["stationIdentifier"].s)
    else None
  }

  /** A listing that is not an array of objects fails with
      `parseFailed("features")`; an empty one, or one whose first feature has
      no string `properties.stationIdentifier`, with
      `stationIdentifierNotFound`; otherwise the first feature's identifier is
      returned unchanged. */
  lemma StationLookup(stationJson: JsonObject)
    ensures !IsFeatureList(stationJson) ==> StationIdentifier(stationJson) == Failure(ParseFailed("features"))
    ensures IsFeatureList(stationJson) && stationJson["features"].items == [] ==>
      StationIdentifier(stationJson) == Failure(StationIdentifierNotFound)
    ensures IsFeatureList(stationJson) && stationJson["features"].items != [] ==>
      var first := IdentifierOf(stationJson["features"].items[0]);
      && (first.Some? ==> StationIdentifier(stationJson) == Success(first.value))
      && (first.None? ==> StationIdentifier(stationJson) == Failure(StationIdentifierNotFound))
  {
  }

  /** Only the first feature is consulted: two listings that agree on it give
      the same answer, whatever follows. */
  lemma LaterFeaturesIgnored(listing: JsonObject, other: JsonObject)
    requires IsFeatureList(listing) && IsFeatureList(other)
    requires listing["features"].items != [] && other["features"].items != []
    requires listing["features"].items[0] == other["features"].items[0]
    ensures StationIdentifier(listing) == StationIdentifier(other)
  {
    StationLookup(listing);
    StationLookup(other);
  }

  /** The observation URL embeds the identifier unchanged between the fixed
      prefix and suffix, so the identifier can be read back from it. */
  lemma ObservationUrlRoundTrip(stationIdentifier: string)
    ensures StationOfObservationUrl(ObservationUrl(stationIdentifier)) == Some(stationIdentifier)
  {
    var url := ObservationUrl(stationIdentifier);
    assert url[..|StationsPrefix|] == StationsPrefix;
    assert url[|url| - |LatestSuffix|..] == LatestSuffix;
    assert url[|StationsPrefix|..|url| - |LatestSuffix|] == stationIdentifier;
  }

  /** Different stations get different observation URLs. */
  lemma ObservationUrlInjective(a: string, b: string)
    requires ObservationUrl(a) == ObservationUrl(b)
    ensures a == b
  {
    ObservationUrlRoundTrip(a);
    ObservationUrlRoundTrip(b);
  }

  // ---- The requests and the fetches ----

  /** The `stationIdentifier` getter: fetch the listing with `json(for:)`,
      then look the station up. */
  function StationIdentifierRun(stationUrl: string, script: seq<Reply>): Run<string>
  {
    var fetched := SessionExtension.JsonForRun(RequestExtensions.NoaaRequestValue(stationUrl), script);
    match fetched.result
    case Failure(e) => Run(Failure(e), fetched.sent, fetched.rest)
    case Success(stationJson) => Run(FromFetch(StationIdentifier(stationJson)), fetched.sent, fetched.rest)
  }

  /** `observationRequest(observationStationURL:)`; `URL(string:)!` stops the
      process when `isUrl` rejects the URL built. */
  function ObservationRequestRun(stationUrl: string, script: seq<Reply>, isUrl: string -> bool): Run<RequestValue>
  {
    var lookup := StationIdentifierRun(stationUrl, script);
    match lookup.result
    case Failure(e) => Run(Failure(e), lookup.sent, lookup.rest)
    case Success(stationIdentifier) =>
      var url := ObservationUrl(stationIdentifier);
      if isUrl(url) then Run(Success(RequestExtensions.NoaaRequestValue(url)), lookup.sent, lookup.rest)
      else Run(Failure(Trap("URL(string:) found nil")), lookup.sent, lookup.rest)
  }

  /** `pointsRequest(at:)`, with `describe` rendering a coordinate in degrees. */
  function PointsRequestValue(coordinate: Coordinate, isUrl: string -> bool, describe: real -> string): Result<RequestValue, Failure>
  {
    var url := PointsUrl(describe(coordinate.latitude), describe(coordinate.longitude));
    if isUrl(url) then Success(RequestExtensions.NoaaRequestValue(url))
    else Failure(Trap("URL(string:) found nil"))
  }

  /** `json(from:)` */
  function JsonFromRun(endPoint: EndPoint, script: seq<Reply>, isUrl: string -> bool, describe: real -> string): Run<JsonObject>
  {
    match endPoint
    case Observations(url) =>
      var prepared := ObservationRequestRun(url, script, isUrl);
      (match prepared.result
       case Failure(e) => Run(Failure(e), prepared.sent, prepared.rest)
       case Success(request) =>
         var fetched := SessionExtension.JsonForRun(request, prepared.rest);
         Run(fetched.result, prepared.sent + fetched.sent, fetched.rest))
    case Points(coordinate) =>
      match PointsRequestValue(coordinate, isUrl, describe)
      case Failure(e) => Run(Failure(e), [], script)
      case Success(request) => SessionExtension.JsonForRun(request, script)
  }

  method FetchStationIdentifier(session: Session, stationUrl: string) returns (r: Result<string, Failure>)
    modifies session
    ensures var run := StationIdentifierRun(stationUrl, old(session.script));
      r == run.result && session.sent == old(session.sent) + run.sent && session.script == run.rest
  {
    var stationRequest := RequestExtensions.NoaaRequest(stationUrl);
    var stationJson := SessionExtension.JsonFor(session, stationRequest);
    if stationJson.Failure? {
      return Failure(stationJson.error);
    }
    r := FromFetch(StationIdentifier(stationJson.value));
  }

  /** `observationRequest(observationStationURL:)` */
  method ObservationRequest(session: Session, stationUrl: string, isUrl: string -> bool)
    returns (r: Result<Request, Failure>)
    modifies session
    ensures var run := ObservationRequestRun(stationUrl, old(session.script), isUrl);
      && session.sent == old(session.sent) + run.sent && session.script == run.rest
      && r.Success? == run.result.Success?
      && (r.Success? ==> fresh(r.value) && r.value.Value() == run.result.value)
      && (r.Failure? ==> r.error == run.result.error)
  {
    var stationIdentifier := FetchStationIdentifier(session, stationUrl);
    if stationIdentifier.Failure? {
      return Failure(stationIdentifier.error);
    }
    var url := ObservationUrl(stationIdentifier.value);
    if !isUrl(url) {
      return Failure(Trap("URL(string:) found nil"));
    }
    var request := RequestExtensions.NoaaRequest(url);
    r := Success(request);
  }

  /** `pointsRequest(at:)` */
  method PointsRequest(coordinate: Coordinate, isUrl: string -> bool, describe: real -> string)
    returns (r: Result<Request, Failure>)
    ensures var expected := PointsRequestValue(coordinate, isUrl, describe);
      && r.Success? == expected.Success?
      && (r.Success? ==> fresh(r.value) && r.value.Value() == expected.value)
      && (r.Failure? ==> r.error == expected.error)
  {
    var url := PointsUrl(describe(coordinate.latitude), describe(coordinate.longitude));
    if !isUrl(url) {
      return Failure(Trap("URL(string:) found nil"));
    }
    var request := RequestExtensions.NoaaRequest(url);
    r := Success(request);
  }

  /** `json(from:)` */
  method JsonFrom(session: Session, endPoint: EndPoint, isUrl: string -> bool, describe: real -> string)
    returns (r: Result<JsonObject, Failure>)
    modifies session
    ensures var run := JsonFromRun(endPoint, old(session.script), isUrl, describe);
      r == run.result && session.sent == old(session.sent) + run.sent && session.script == run.rest
  {
    match endPoint
    case Observations(url) =>
      var request := ObservationRequest(session, url, isUrl);
      if request.Failure? {
        return Failure(request.error);
      }
      r := SessionExtension.JsonFor(session, request.value);
    case Points(coordinate) =>
      var request := PointsRequest(coordinate, isUrl, describe);
      if request.Failure? {
        return Failure(request.error);
      }
      r := SessionExtension.JsonFor(session, request.value);
  }

  // ---- Order of the stages ----

  /** For observations the station listing is requested first; a failed
      lookup ends the call with its error and nothing else is sent; the only
      other request is for the observation URL of the station found. */
  lemma ObservationsLookUpFirst(url: string, script: seq<Reply>, isUrl: string -> bool, describe: real -> string)
    ensures var run := JsonFromRun(Observations(url), script, isUrl, describe);
      1 <= |run.sent| <= 2 && run.sent[0] == RequestExtensions.NoaaRequestValue(url)
    ensures var run := JsonFromRun(Observations(url), script, isUrl, describe);
      var lookup := StationIdentifierRun(url, script);
      lookup.result.Failure? ==> run.result == Failure(lookup.result.error) && |run.sent| == 1
    ensures var run := JsonFromRun(Observations(url), script, isUrl, describe);
      var lookup := StationIdentifierRun(url, script);
      |run.sent| == 2 ==>
        lookup.result.Success? && run.sent[1] == RequestExtensions.NoaaRequestValue(ObservationUrl(lookup.result.value))
  {
  }

  /** For points no station lookup happens: at most the one points request
      is sent. */
  lemma PointsSkipLookup(coordinate: Coordinate, script: seq<Reply>, isUrl: string -> bool, describe: real -> string)
    ensures var run := JsonFromRun(Points(coordinate), script, isUrl, describe);
      var url := PointsUrl(describe(coordinate.latitude), describe(coordinate.longitude));
      run.sent == if isUrl(url) then [RequestExtensions.NoaaRequestValue(url)] else []
  {
  }

  /** Every request sent, station listing, observation or points, is a GET
      with the standard headers: one built by `noaaRequest(url:)`. */
  lemma EveryRequestIsNoaaRequest(endPoint: EndPoint, script: seq<Reply>, isUrl: string -> bool, describe: real -> string)
    ensures var run := JsonFromRun(endPoint, script, isUrl, describe);
      forall i :: 0 <= i < |run.sent| ==> run.sent[i] == RequestExtensions.NoaaRequestValue(run.sent[i].url)
  {
  }
}
