# NOAAKit in Dafny

NOAAKit is a Swift client for the National Weather Service API. Given a
coordinate, it works in three steps:

1. It fetches the *points* document and reads its `observationStations` link.
2. It fetches the station listing and takes the first station's identifier.
3. It fetches that station's latest observation and reads the temperature
   and timestamp from it.

The repository carries several revisions of this pipeline side by side. This
model covers all of them:

- `NOAA.fetchWeather` with the `ObservationsExtractor`;
- the `NOAAAPI` endpoint client and its `Extract` parser;
- the older `Fetchers` current-condition extractor;
- the MapClick current-condition extractor.

It also covers what they share:

- the JSON field lookups;
- HTTP response validation;
- the standard request headers (`User-Agent: NOAAKit`, `Accept: application/json`);
- the cloud-amount code table.

## How the model is built

- **JSON.** A JSON document is a tagged tree (`Json.Json`). Swift's `as?` casts
  and the throwing dictionary accessors (`json`, `string`, `float`, `extract`,
  `jsonArray`) are small functions over that tree.
- **Requests.** `URLRequest` is a class (`Http.Request`) whose headers are a
  sequence that `AddValue` extends in place.
- **Transport.** `URLSession.shared` is the `Http.Session` class. It holds the
  replies the server will give, in order, and records every request it sends.
  An empty script of replies stands for a network error.
- **Pipelines.** Every fetch is a method that changes the session. Each method
  is proved against a pure function that returns a `Run`: the result, the
  requests sent in order, and the replies left. The lemmas about ordering,
  error propagation and contents are stated over those functions.
- **Failures.** The union `Errors.Failure` covers:
  - the thrown `FetchError` and `ExtractError` values;
  - an accessor failure (`Accessor(key)`);
  - a body that `JSONSerialization` rejects (`NotSerializable`);
  - a transport error;
  - a `Trap`, which is a `preconditionFailure` or a force-unwrap of `nil`
    that stops the process.
- **Foundation behaviour passed in.** Date formatters, `URL(string:)`, the
  textual rendering of a coordinate and `Float(String)` are passed in as
  function parameters. The model assumes nothing about them.
- **Numbers.** Temperatures are exact reals. Celsius becomes Fahrenheit as
  `c * 9 / 5 + 32`. `Int(Double)` truncates toward zero.

### Where the code and its documentation differ (the model follows the code)

- `json(for:)` says it throws `dataIsNotJSON` for a body that is not valid
  JSON. In the code, `JSONSerialization.jsonObject(with:options: [])` is
  called without `.fragmentsAllowed`, so it throws its own error
  (`NotSerializable` here) both for bytes that do not parse and for a
  document whose top level is a string, number, boolean or null.
  `dataIsNotJSON` is thrown only for a document whose top level is an array.
  The same holds for `fetchJSON()`, whose force cast stops the process only
  for a top-level array.
- The `Fetchers` extractor truncates the converted temperature. In the
  exact-real model, 20.0 °C with a heat index of 20.5 °C reads as 68 °F and
  feels like 68 °F: 68.9 truncates to 68 and is not rounded to 69
  (`ConditionFetcher.HeatIndexScenario`). The program converts in `Double`,
  where 20.0 °C can come out just below 68 °F and truncate to 67; this
  rounding is not modelled (see below).
- `PropertyField.required` marks `windDirection` and `windSpeed` as required.
  No code consults that table: wind readings always fall back to defaults
  (`Extract.WindFallbacks`). Only `PropertyField.Temperature.required` is
  applied.
- `Extract.observation(from:)` does no unit conversion for wind.

## Model

| member | source | states |
|---|---|---|
| Foundation.Fahrenheit | Sources/NOAAKit/Extractor/ObservationsExtractor.swift:49-52 | the Celsius-to-Fahrenheit conversion loses nothing: the Celsius reading is recovered from the result |
| Foundation.TruncateToInt | Sources/NOAAKit/Fetchers/CurrentConditionExtractor.swift:91-92 | `Int(Double)` keeps the integer part: for a non-negative x the result is the largest integer not above x; for a negative x it is the smallest integer not below x |
| Json.AsObjects | Sources/NOAAKit/Fetchers/CurrentConditionExtractor.swift:54 | `as? [JSON]` succeeds exactly when every element is an object, and keeps each object at its own position |
| JsonUtil.ExtractJson | Sources/NOAAKit/Util/JSON.swift:17-22 | succeeds exactly when the key holds an object, returns that object, and otherwise throws `parseFailed` naming the key |
| JsonUtil.ExtractDate | Sources/NOAAKit/Util/JSON.swift:24-32 | succeeds exactly when the key holds a string that the ISO 8601 formatter reads; returns that date; both a missing string and an unparsable one throw `parseFailed` naming the key |
| Http.HeaderValuesAppend | Sources/NOAAKit/Extensions/URLRequest+Extensions.swift:24-27 | adding headers keeps the earlier values of every field and appends the new ones after them |
| Http.Request.AddValue | Sources/NOAAKit/Extensions/URLRequest+Extensions.swift:25-26 | `addValue(_:forHTTPHeaderField:)` appends one header and leaves the URL and the method as they were |
| Http.Session.Data | Sources/NOAAKit/Extensions/URLSession+Extension.swift:20 | `data(for:)` records the request as sent and consumes exactly the next reply |
| RequestExtensions.AddStandardHeaders | Sources/NOAAKit/Extensions/URLRequest+Extensions.swift:24-27 | appends `User-Agent: NOAAKit` and then `Accept: application/json`, and changes nothing else |
| RequestExtensions.NoaaRequest | Sources/NOAAKit/Extensions/URLRequest+Extensions.swift:17-22 | a new GET request for exactly the given URL that carries just the two standard headers |
| RequestExtensions.StandardHeaderValues | Sources/NOAAKit/Extensions/URLRequest+Extensions.swift:24-27 | the standard headers name the client once, ask for JSON once, and set no other field |
| RequestExtensions.AddedHeadersOnly | Sources/NOAAKit/Extensions/URLRequest+Extensions.swift:24-27 | after the standard headers are added, every other field keeps exactly its values, and each standard field gains exactly one value |
| SessionExtension.IsValidWebResponse | Sources/NOAAKit/Extensions/URLSession+Extension.swift:34-44 | passes exactly for an HTTP response with status 200; a non-HTTP response throws `responseIsNotHTTP`; any other status throws `statusCode` carrying that status |
| SessionExtension.JsonFor | Sources/NOAAKit/Extensions/URLSession+Extension.swift:17-26 | sends the request once, consumes one reply, and returns what validating and then parsing that reply gives |
| SessionExtension.JsonForConsumesOneReply | Sources/NOAAKit/Extensions/URLSession+Extension.swift:17-26 | `json(for:)` sends one request, and a `statusCode` error carries the non-200 status of its reply |
| SessionExtension.ValidatedBeforeParsed | Sources/NOAAKit/Extensions/URLSession+Extension.swift:20-22 | the response is checked before the body is read: a non-HTTP or non-200 response fails the same way whatever its body |
| SessionExtension.JsonOfReply | Sources/NOAAKit/Extensions/URLSession+Extension.swift:17-26 | `json(for:)` on one reply succeeds exactly for an HTTP 200 response whose body is a JSON object, and returns that object; a transport error is rethrown; a non-200 status throws `statusCode` with that status |
| SessionExtension.SuccessfulResponse | Sources/NOAAKit/Extensions/URLSession+Extension.swift:22-25 | a 200 response returns its top-level object unchanged; a top-level array throws `dataIsNotJSON`; a top-level scalar is refused by the parser, whose error is rethrown |
| ApiRequestExtensions.DataOfReply | Sources/NOAAKit/NOAAAPI/URLRequest+Extensions.swift:17-25 | `fetchData()` returns the body exactly for an HTTP 200 response; a non-HTTP response stops the process; any other status throws `statusCode` with that status |
| ApiRequestExtensions.JsonOfData | Sources/NOAAKit/NOAAAPI/URLRequest+Extensions.swift:27-37 | `fetchJSON()` succeeds exactly when the body parses to an object and returns its fields; a top-level array stops the process at the force cast; a body the parser refuses rethrows the parser's error |
| ApiRequestExtensions.FetchData | Sources/NOAAKit/NOAAAPI/URLRequest+Extensions.swift:17-25 | sends the request once and returns what the next reply gives |
| ApiRequestExtensions.FetchJson | Sources/NOAAKit/NOAAAPI/URLRequest+Extensions.swift:27-37 | sends the request once, consumes one reply, and returns the parsed object or the failure |
| ApiRequestExtensions.FetchJsonConsumesOneReply | Sources/NOAAKit/NOAAAPI/URLRequest+Extensions.swift:17-37 | `fetchJSON()` consumes exactly one reply: a `statusCode` error carries that reply's non-200 status, and a success leaves the rest of the replies |
| ApiRequestExtensions.AddStandardHeaders | Sources/NOAAKit/NOAAAPI/URLRequest+Extensions.swift:39-42 | appends the two standard headers and leaves the URL and the method unchanged |
| ApiRequestExtensions.StandardRequest | Sources/NOAAKit/Extractor/ObservationsExtractor.swift:79-80 | `URLRequest(url:)` followed by `addStandardHeaders()` is a new GET for the URL with the two standard headers |
| ApiRequestExtensions.TrapsWhereJsonForThrows | Sources/NOAAKit/NOAAAPI/URLRequest+Extensions.swift:17-37 | on a good reply `fetchJSON()` agrees with `json(for:)`; where `json(for:)` throws `responseIsNotHTTP` or `dataIsNotJSON` (a top-level array), `fetchJSON()` stops the process |
| Clouds.RawValueInjective | Sources/NOAAKit/Observations/Model/CloudLayers.swift:13-28 | every cloud amount has a code from the table, and no two amounts share one |
| Clouds.RoundTrip | Sources/NOAAKit/Observations/Model/CloudLayers.swift:13-28 | `CloudAmount(rawValue: amount.rawValue)` gives the amount back |
| Clouds.FromRawValue | Sources/NOAAKit/Observations/Model/CloudLayers.swift:13-28 | `CloudAmount(rawValue:)` decodes a string exactly when it is one of the seven codes, and then to the amount whose code it is |
| Clouds.CaseSensitive | Sources/NOAAKit/Observations/Model/CloudLayers.swift:13-28 | decoding is exact: a different letter case, trailing space or partial code does not decode |
| Extract.ExtractTemperatureNamed | Sources/NOAAKit/NOAAAPI/Extract.swift:196-203 | succeeds exactly when the named node is an object, and then gives its numeric `value` or absent; a missing node throws the accessor error naming the field |
| Extract.ExtractTemperature | Sources/NOAAKit/NOAAAPI/Extract.swift:131-143 | a required temperature that succeeds always has a value, so the force unwraps at the construction never meet `nil` |
| Extract.TemperaturePolicy | Sources/NOAAKit/NOAAAPI/Extract.swift:131-143 | a missing temperature node always fails; a node without a numeric `value` throws `nilFound` naming the field when the field is required (temperature, dewpoint), and is absent otherwise |
| Extract.TimestampOf | Sources/NOAAKit/NOAAAPI/Extract.swift:41-53 | a missing `timestamp` string throws the accessor error; a present one succeeds exactly when the formatter reads it, gives that date, and otherwise throws `convertType("timestamp")` |
| Extract.WindOf | Sources/NOAAKit/NOAAAPI/Extract.swift:69-113 | the wind direction is the integral numeric `value` of `windDirection` or 0, the speed that of `windSpeed` or 0.0, and the gust that of `windGust` or absent |
| Extract.WindFallbacks | Sources/NOAAKit/NOAAAPI/Extract.swift:69-113 | wind never fails: a missing direction becomes 0, a missing speed 0.0 and a missing gust absent, each independently; a present reading is kept |
| Extract.CloudLayerOf | Sources/NOAAKit/NOAAAPI/Extract.swift:118-126 | one cloud node succeeds exactly when its `amount` is a string from the code table, and the layer's amount has that code; a missing amount throws the accessor error; an unknown code throws `enumElementNotFound("cloudLayers.amount", code)` |
| Extract.CloudLayersField | Sources/NOAAKit/NOAAAPI/Extract.swift:115-129 | a missing or non-object-array `cloudLayers` throws the accessor error; a success has one layer per node |
| Extract.CloudLayersOf | Sources/NOAAKit/NOAAAPI/Extract.swift:115-129 | the throwing map gives one layer per node, in order, exactly when every node succeeds; otherwise it gives the error of the first node that fails |
| Extract.CloudLayersFromTree | Sources/NOAAKit/NOAAAPI/Extract.swift:117-127 | cloud layers succeed exactly when every node's `amount` is a string from the code table, and each layer carries the decoded amount of the node at the same position |
| Extract.UnknownCloudAmount | Sources/NOAAKit/NOAAAPI/Extract.swift:121-126 | if the first failing node has an unknown amount code, the whole list throws `enumElementNotFound("cloudLayers.amount", code)` |
| Extract.UnknownCloudAmountFailsField | Sources/NOAAKit/NOAAAPI/Extract.swift:115-129 | any node whose amount is outside the code table fails the `cloudLayers` field |
| Extract.MissingProperties | Sources/NOAAKit/NOAAAPI/Extract.swift:26 | a document without a `properties` object fails before any field is read |
| Extract.UnparsableTimestamp | Sources/NOAAKit/NOAAAPI/Extract.swift:41-53 | an unparsable timestamp throws `convertType("timestamp")`; the timestamp is read first |
| Extract.TemperatureValueMissing | Sources/NOAAKit/NOAAAPI/Extract.swift:146-147 | a temperature node without a numeric `value` throws `nilFound("temperature")` once the timestamp has parsed |
| Extract.ObservationOf | Sources/NOAAKit/NOAAAPI/Extract.swift:23-158 | a document without a `properties` object throws the accessor error; a success holds the timestamp read from `properties` and its temperature's numeric `value` |
| Extract.ObservationReadsEveryField | Sources/NOAAKit/NOAAAPI/Extract.swift:146-156 | a successful extraction has read every throwing field successfully: the timestamp, the four temperatures, the description, the three integer readings and the cloud layers |
| Extract.ObservationParts | Sources/NOAAKit/NOAAAPI/Extract.swift:146-156 | a successful observation is assembled from a successful read of every throwing field, in the initializer's order, each value taken unchanged |
| Extract.MissingTemperatureNode | Sources/NOAAKit/NOAAAPI/Extract.swift:196-203 | a missing temperature node fails the whole extraction, even for an optional temperature |
| Extract.RequiredTemperatureMissing | Sources/NOAAKit/NOAAAPI/Extract.swift:138-140 | a required temperature without a numeric `value` fails the whole extraction |
| Extract.UnknownCloudAmountFailsObservation | Sources/NOAAKit/NOAAAPI/Extract.swift:156 | a cloud amount outside the code table fails the whole extraction: no partial observation is returned |
| Extract.ObservationContents | Sources/NOAAKit/NOAAAPI/Extract.swift:146-156 | a successful observation holds exactly what the document says, field by field: the parsed timestamp, the temperatures (absent optional ones stay absent), the description, the wind with its fallbacks, the pressure, visibility and humidity as their numeric values, and one cloud layer per node, in order, with the amount its code decodes to |
| Extract.ObservationScalars | Sources/NOAAKit/NOAAAPI/Extract.swift:146-152 | a successful observation's timestamp, temperatures, description and wind are what `properties` holds |
| Extract.ScalarsRead | Sources/NOAAKit/NOAAAPI/Extract.swift:146-152 | the timestamp, temperatures and description read from `properties` are its parsed `timestamp`, the numeric `value`s of the temperature nodes and the `textDescription` string |
| Extract.ObservationIntegers | Sources/NOAAKit/NOAAAPI/Extract.swift:153-155 | a successful observation's pressure, visibility and humidity are the numeric `value`s of their nodes |
| Extract.IntegersRead | Sources/NOAAKit/NOAAAPI/Extract.swift:153-155 | the three integer readings taken from `properties` equal the numeric `value`s of their nodes |
| Extract.IntValueRead | Sources/NOAAKit/NOAAAPI/Extract.swift:153-155 | an integer reading that succeeds is the numeric `value` of its node |
| Extract.ObservationCloudLayers | Sources/NOAAKit/NOAAAPI/Extract.swift:156 | a successful observation has one cloud layer per node, in order, each with the amount its node's code decodes to |
| Extract.CloudLayersRead | Sources/NOAAKit/NOAAAPI/Extract.swift:115-129 | cloud layers read successfully come from an array of object nodes, one per node, each holding the amount its `amount` code decodes to |
| Extract.CloudLayersDecoded | Sources/NOAAKit/NOAAAPI/Extract.swift:118-127 | after a successful map, every layer holds the decoded amount of the node at its position |
| Extract.CloudLayerDecoded | Sources/NOAAKit/NOAAAPI/Extract.swift:119-123 | a node that succeeds has a string `amount` that decodes to the layer's amount |
| Extract.NoaaUrlsOf | Sources/NOAAKit/NOAAAPI/Extract.swift:168-181 | returns the `observationStations` string of `properties`; a missing `properties` throws `parseFailed("properties")`; a missing link throws `parseFailed("observationStations")` |
| NoaaApi.StationIdentifier | Sources/NOAAKit/NOAAAPI/NOAAAPI.swift:57-68 | throws `parseFailed("features")` exactly when the listing is not an array of objects; a success is the string identifier of the first feature |
| NoaaApi.ObservationUrl | Sources/NOAAKit/NOAAAPI/NOAAAPI.swift:72 | the identifier sits unchanged between the fixed `https://api.weather.gov/stations/` prefix and `/observations/latest` suffix |
| NoaaApi.PointsUrl | Sources/NOAAKit/NOAAAPI/NOAAAPI.swift:85 | the points URL is the fixed prefix, then the latitude, one comma and the longitude as rendered |
| NoaaApi.StationLookup | Sources/NOAAKit/NOAAAPI/NOAAAPI.swift:57-68 | a listing that is not an array of objects throws `parseFailed("features")`; an empty one, or one whose first feature has no string identifier, throws `stationIdentifierNotFound`; otherwise it returns the first identifier unchanged |
| NoaaApi.LaterFeaturesIgnored | Sources/NOAAKit/NOAAAPI/NOAAAPI.swift:61 | only the first feature is consulted |
| NoaaApi.ObservationUrlRoundTrip | Sources/NOAAKit/NOAAAPI/NOAAAPI.swift:72 | the observation URL embeds the station identifier unchanged, so it can be read back |
| NoaaApi.ObservationUrlInjective | Sources/NOAAKit/NOAAAPI/NOAAAPI.swift:72 | different stations get different observation URLs |
| NoaaApi.FetchStationIdentifier | Sources/NOAAKit/NOAAAPI/NOAAAPI.swift:48-70 | sends one standard request for the listing and returns the lookup's result |
| NoaaApi.ObservationRequest | Sources/NOAAKit/NOAAAPI/NOAAAPI.swift:47-76 | returns a new standard request for the observation URL of the station found, or the lookup's failure, or a stop when the URL does not parse |
| NoaaApi.PointsRequest | Sources/NOAAKit/NOAAAPI/NOAAAPI.swift:84-89 | returns a new standard request for the points URL of the coordinate, or a stop when the URL does not parse; nothing is sent |
| NoaaApi.JsonFrom | Sources/NOAAKit/NOAAAPI/NOAAAPI.swift:26-39 | sends exactly the requests its specification lists and returns its result |
| NoaaApi.ObservationsLookUpFirst | Sources/NOAAKit/NOAAAPI/NOAAAPI.swift:28-33 | the listing is requested first; a failed lookup ends the call with its error after one request; the only other request is for the station found |
| NoaaApi.PointsSkipLookup | Sources/NOAAKit/NOAAAPI/NOAAAPI.swift:34-37 | for points, at most the one points request is sent |
| NoaaApi.EveryRequestIsNoaaRequest | Sources/NOAAKit/NOAAAPI/NOAAAPI.swift:54 | every request sent is a GET with the standard headers |
| ObservationsExtractor.StationIdentifierOf | Sources/NOAAKit/Extractor/ObservationsExtractor.swift:73-96 | throws `parseFailed("features")` exactly when the listing is not an array of objects; a success is the string identifier of the first feature |
| ObservationsExtractor.SameLookupAsApi | Sources/NOAAKit/Extractor/ObservationsExtractor.swift:73-96 | this station lookup gives the same answer as the `NOAAAPI` one for every listing |
| ObservationsExtractor.SameUrlAsApi | Sources/NOAAKit/Extractor/ObservationsExtractor.swift:30 | the observation URL is the same as the `NOAAAPI` one, and the identifier can be read back from it |
| ObservationsExtractor.TemperatureRequired | Sources/NOAAKit/Extractor/ObservationsExtractor.swift:45-54 | the temperature succeeds exactly when the node has a numeric `value`, and is then that value converted to Fahrenheit; the missing node and the missing value fail with their own keys |
| ObservationsExtractor.TemperatureOf | Sources/NOAAKit/Extractor/ObservationsExtractor.swift:45-54 | succeeds exactly when the `temperature` node has a numeric `value`, and is that value converted to Fahrenheit |
| ObservationsExtractor.ObservationOf | Sources/NOAAKit/Extractor/ObservationsExtractor.swift:43-70 | a document without `properties` throws the accessor error; a success holds the converted temperature and the date the formatter read from `timestamp` |
| ObservationsExtractor.ObservationFromTree | Sources/NOAAKit/Extractor/ObservationsExtractor.swift:43-70 | `properties` is required first, then the temperature; an unparsable timestamp throws `convertType("timestamp")`; a success holds the converted temperature and the parsed timestamp |
| ObservationsExtractor.FetchStationIdentifier | Sources/NOAAKit/Extractor/ObservationsExtractor.swift:73-96 | sends one standard request for the listing with `fetchJSON()` and returns the lookup's result |
| ObservationsExtractor.ObservationRequest | Sources/NOAAKit/Extractor/ObservationsExtractor.swift:28-35 | returns a new standard request for the observation URL of the station found, or the failure |
| ObservationsExtractor.Extract | Sources/NOAAKit/Extractor/ObservationsExtractor.swift:24-71 | sends exactly the requests its specification lists and returns the observation read from the second reply |
| ObservationsExtractor.LookupBeforeFetch | Sources/NOAAKit/Extractor/ObservationsExtractor.swift:37-39 | the listing is requested first; a failed lookup ends the extraction after one request; the second request is for the station found |
| ObservationsExtractor.StatusOfLastRequest | Sources/NOAAKit/Extractor/ObservationsExtractor.swift:37-39 | a `statusCode` error carries the non-200 status of the reply to the last request sent; a successful lookup consumed exactly one reply |
| NoaaKit.PointsRequestValue | Sources/NOAAKit/Request.swift:12-19 | a valid points URL gives a standard GET request for it; an invalid one stops the process |
| NoaaKit.PointsRequest | Sources/NOAAKit/Request.swift:12-19 | builds a new request equal to the points request value |
| NoaaKit.PointsOf | Sources/NOAAKit/NOAAKit.swift:86-99 | succeeds exactly when `properties.observationStations` is a string, and returns it; a missing `properties` throws `parseFailed("properties")` |
| NoaaKit.PointsAsExtracted | Sources/NOAAKit/NOAAKit.swift:86-99 | `fetchPoints` reads the document exactly as `Extract.noaaURLS` does: it succeeds exactly when `properties.observationStations` is a string |
| NoaaKit.FetchPoints | Sources/NOAAKit/NOAAKit.swift:87-99 | sends the one points request and returns the links read from the reply, or the failure |
| NoaaKit.FetchWeather | Sources/NOAAKit/NOAAKit.swift:65-83 | sends exactly the requests its specification lists and returns its result |
| NoaaKit.FetchWeatherRun | Sources/NOAAKit/NOAAKit.swift:65-83 | a failed points fetch ends `fetchWeather` with its own error and requests; a success needed the points fetch, a stations link that is a URL and a successful extraction, and wraps the observation extracted |
| NoaaKit.PointsFirst | Sources/NOAAKit/NOAAKit.swift:67 | the points document is requested first; a failed points fetch ends `fetchWeather` with its error and nothing more is sent |
| NoaaKit.InvalidStationsLink | Sources/NOAAKit/NOAAKit.swift:70-73 | a stations link that is not a URL throws `parseFailed("observationStations")` after the single points request |
| NoaaKit.ExtractionErrorPropagates | Sources/NOAAKit/NOAAKit.swift:78-82 | once the points fetch and the stations link pass, every request of the extraction follows the points request, and an extraction error is `fetchWeather`'s error unchanged |
| NoaaKit.SuccessfulFetch | Sources/NOAAKit/NOAAKit.swift:78-82 | a success sent three requests in order (points, the listing named by the points document, the first station's latest observation), and the weather wraps exactly the observation extracted |
| NoaaKit.StatusOfLastRequest | Sources/NOAAKit/NOAAKit.swift:65-83 | a `statusCode` error always carries the non-200 status of the reply to the last request sent |
| ConditionFetcher.ExtractValue | Sources/NOAAKit/Fetchers/CurrentConditionExtractor.swift:77 | a reading is present exactly when the node is an object with a numeric `value`, and is that number |
| ConditionFetcher.ExtractTemperature | Sources/NOAAKit/Fetchers/CurrentConditionExtractor.swift:71-93 | succeeds exactly when the air temperature is present; otherwise it throws `parseFailed("temperature")` |
| ConditionFetcher.FirstPresent | Sources/NOAAKit/Fetchers/CurrentConditionExtractor.swift:83-89 | the reference order of preference: the first reading present, and none only when no reading is present |
| ConditionFetcher.FeelsLikePrecedence | Sources/NOAAKit/Fetchers/CurrentConditionExtractor.swift:81-92 | the feels-like value is the first present of wind chill, heat index and air temperature; both values are whole Fahrenheit degrees |
| ConditionFetcher.FeelsLikeCases | Sources/NOAAKit/Fetchers/CurrentConditionExtractor.swift:83-89 | without wind chill and heat index, feels-like equals actual; a wind chill reading wins over any heat index |
| ConditionFetcher.HeatIndexScenario | Sources/NOAAKit/Fetchers/CurrentConditionExtractor.swift:91-92 | in exact arithmetic, 20.0 °C with a heat index of 20.5 °C reads as 68 °F and feels like 68 °F: the 68.9 °F heat index is truncated |
| ConditionFetcher.ConditionsOf | Sources/NOAAKit/Fetchers/CurrentConditionExtractor.swift:27-33 | a document without `properties` throws `parseFailed("properties")`; a success carries the temperature extracted, the date read from `timestamp`, and clouds 0 |
| ConditionFetcher.ConditionsFromTree | Sources/NOAAKit/Fetchers/CurrentConditionExtractor.swift:27-33 | `properties`, the temperature and the `timestamp` are read in that order, each failure naming its field; a success carries the temperature and date read, with clouds 0 |
| ConditionFetcher.Extract | Sources/NOAAKit/Fetchers/CurrentConditionExtractor.swift:22-34 | sends exactly the requests its specification lists and returns the conditions read from the second reply |
| ConditionFetcher.SuccessfulExtract | Sources/NOAAKit/Fetchers/CurrentConditionExtractor.swift:36-42 | a success sent the listing request and then the request for the station found, and its conditions come from the second reply |
| MapClickExtractor.TemperatureOf | Sources/NOAAKit/Extractors/CurrentConditionExtractor.swift:52-56 | succeeds exactly when `temp` parses, with that number as the actual temperature; otherwise it fails naming `temp` |
| MapClickExtractor.TemperatureReading | Sources/NOAAKit/Extractors/CurrentConditionExtractor.swift:52-76 | the temperature fails exactly when `temp` does not parse, whatever the wind chill holds, and then names `temp`; a wind chill that parses is the feels-like value, and otherwise feels-like equals actual |
| MapClickExtractor.Extract | Sources/NOAAKit/Extractors/CurrentConditionExtractor.swift:34-47 | succeeds exactly when the date and `temp` both parse; an unparsable date throws `dateParseError`; a success holds the parsed date and air temperature |
| MapClickExtractor.ExtractOutcomes | Sources/NOAAKit/Extractors/CurrentConditionExtractor.swift:34-47 | the date is checked first (`dateParseError`); any temperature failure becomes `temperatureParseError`; a success holds the parsed date and temperature |

## Left out

- Networking itself, concurrency (`async`/`await`), logging and `print` output are not modelled. The transport is a scripted sequence of replies, one per request.
- Floating-point arithmetic is not modelled: temperatures are exact reals. `Float`, `Double` and their rounding in the Celsius-to-Fahrenheit conversion are not captured, and neither is a trap in `Int(Double)`, which stops the process on NaN, on infinity and on any finite value outside `Int`'s 64-bit range. `Foundation.TruncateToInt` is unbounded.
- Date parsing (`ISO8601DateFormatter`, `DateFormatter` with `yyyy-MM-dd'T'HH:mm:ssZ`, `NOAADateFormatter`) is a parameter. Which strings parse is not modelled.
- `URL(string:)` is a predicate parameter. Which strings are URLs is not modelled.
- How a coordinate's latitude and longitude are rendered inside the points URL is a parameter.
- `Float(String)` in the MapClick extractor is a parameter.
- `JSONSerialization`: without `.fragmentsAllowed` a body is rejected unless it is a JSON document whose top level is an object or an array. Which bytes form such a document is not modelled.
- `URLSession.json(from:)` (used by `NOAAAPI.json(from:)`) and `URLSession.loadJSON(from:)` (used by `ObservationsExtractor`) are not part of this model. Both are modelled as `json(for:)`.
- `extractValue(name:)`, which the `Fetchers` extractor calls, is not part of this model. It is modelled as the optional numeric `value` of the named node, which never throws.
- The SpearFoundation accessors (`json`, `string`, `float`, `extract`, `jsonArray`) are not part of this model. They are modelled as failing with an accessor error naming the key. Reading an `Int` is modelled as needing an integral number.
- `Extract.ExtractIntAt`: the `Int` read from a JSON number is the number itself when it is integral. Truncation of a fractional number is not modelled.
- The `Fetchers` extractor's `observationRequest` and `fetchStationIdentifier` are the same as those of `ObservationsExtractor`. The model uses `ObservationsExtractor.ObservationRequest` for both.
- The `Fetchers` extractor builds `Temperature(actual:feelsLike:)` from `Int`s and `CurrentConditions` with a `clouds` argument. The model builds exactly these values, although the current `Temperature` and `CurrentConditions` types declare `Float` fields and no `clouds`.
- `MAPClickResponse.CurrentObservation` is reduced to the `date`, `temp` and `windChill` strings the extractor reads. Its other eighteen fields and its JSON decoding are not modelled.
- `MapClickService`, the sample apps, `TemperatureFormatter` and the `toStandard` conversions are outside the modelled core.
- The order of header fields in the request as sent is modelled as the order of `addValue` calls. Foundation's merging of repeated fields into one comma-separated value is not modelled.
- The `assertionFailure` of `Extract.observation(from:)` sits in the computed variable `temperature` (Extract.swift lines 29-39), which nothing reads. The initializer reads the temperature through `extractTemperature(.temperature)!`, which throws `nilFound("temperature")` with no assertion, in debug and release builds alike; the model does the same, and the unused variable is not modelled.
