/** The observation extractor of NOAAAPI/Extract.swift: it turns the latest
    observation document of a station into an `Observation`, field by field,
    under a required/optional policy, and reads the station-listing link out
    of a points document. */
module Extract {
  import opened Wrappers
  import opened Errors
  import opened Json
  import opened Foundation
  import Clouds
  import Model

  /** `PropertyField.Temperature`: the temperature-bearing nodes. */
  datatype TemperatureField = Temperature | WindChill | HeatIndex | Dewpoint {
    function RawValue(): string
    {
      match this
      case Temperature => "temperature"
      case WindChill => "windChill"
      case HeatIndex => "heatIndex"
      case Dewpoint => "dewpoint"
    }

    /** The policy table: a required temperature must be present. */
    predicate Required()
    {
      match this
      case Temperature => true
      case Dewpoint => true
      case _ => false
    }
  }

  /** `PropertyField`: the other nodes of an observation's `properties`. */
  datatype PropertyField =
    | Timestamp | TextDescription | WindDirection | WindSpeed | WindGust
    | BarometricPressure | Visibility | RelativeHumidity | CloudLayers
  {
    function RawValue(): string
    {
      match this
      case Timestamp => "timestamp"
      case TextDescription => "textDescription"
      case WindDirection => "windDirection"
      case WindSpeed => "windSpeed"
      case WindGust => "windGust"
      case BarometricPressure => "barometricPressure"
      case Visibility => "visibility"
      case RelativeHumidity => "relativeHumidity"
      case CloudLayers => "cloudLayers"
    }

    /** The table marks every field but `windGust` required. No extraction
        consults it (see `WindFallbacks`). */
    predicate Required()
    {
      match this
      case WindGust => false
      case _ => true
    }
  }

  /** `Wind` (Observations/Model/Wind.swift), in the units of the document. */
  datatype Wind = Wind(direction: int, speed: real, gust: Option<real>)

  /** `Observation` (Observations/Model/Observation.swift); temperatures are
      in degrees Celsius, as the document gives them. */
  datatype Observation = Observation(
    timestamp: Date,
    temperature: real,
    windChill: Option<real>,
    heatIndex: Option<real>,
    textDescription: string,
    dewPoint: real,
    wind: Wind,
    barometricPressure: int,
    visibility: int,
    relativeHumidity: Option<int>,
    cloudLayers: seq<Clouds.CloudLayer>)

  // ---- The JSON helpers of the file (`private extension JSON`) ----

  /** `extractTemperatureNamed`: the node must be there; its `value` may not be. */
  function ExtractTemperatureNamed(node: JsonObject, field: TemperatureField): (r: Result<Option<real>, Failure>)
    ensures r.Success? <==> ObjectAt(node, field.RawValue()).Some?
    ensures r.Failure? ==> r.error == Accessor(field.RawValue())
    ensures r.Success? ==> r.value == NumericValue(node, field.RawValue())
  {
    var temperatureNode :- JsonOf(node, field.RawValue());
    match FloatOf(temperatureNode, "value")
    case Success(value) => Success(Some(value))
    case Failure(_) => Success(None)
  }

  /** `extractValue` read as an `Int`: the `value` of the node `parentNode`. */
  function ExtractIntAt(node: JsonObject, parentNode: string): Result<int, Failure>
  {
    var fieldNode :- JsonOf(node, parentNode);
    IntOf(fieldNode, "value")
  }

  /** `extractValue` read as a `Float`. */
  function ExtractFloatAt(node: JsonObject, parentNode: string): Result<real, Failure>
  {
    var fieldNode :- JsonOf(node, parentNode);
    FloatOf(fieldNode, "value")
  }

  /** `extractIntValue` */
  function ExtractIntValue(node: JsonObject, field: PropertyField): Result<int, Failure>
  {
    ExtractIntAt(node, field.RawValue())
  }

  /** `extractFloatValue` */
  function ExtractFloatValue(node: JsonObject, field: PropertyField): Result<real, Failure>
  {
    ExtractFloatAt(node, field.RawValue())
  }

  /** `extractString` */
  function ExtractString(node: JsonObject, field: PropertyField): Result<string, Failure>
  {
    StringOf(node, field.RawValue())
  }

  // ---- The field getters of `Extract.observation` ----

  /** `extractTemperature`: applies the policy table. A required temperature
      that succeeds is always present, so the force unwraps of the source
      never find `nil`. */
  function ExtractTemperature(properties: JsonObject, field: TemperatureField): (r: Result<Option<real>, Failure>)
    ensures field.Required() && r.Success? ==> r.value.Some?
  {
    var value :- ExtractTemperatureNamed(properties, field);
    if value.Some? then Success(value)
    else if field.Required() then Failure(Extraction(NilFound(field.RawValue())))
    else Success(None)
  }

  /** `timeStamp`, read with the `yyyy-MM-dd'T'HH:mm:ssZ` formatter `parse`. */
  function TimestampOf(properties: JsonObject, parse: DateParser): (r: Result<Date, Failure>)
    ensures StringAt(properties, "timestamp").None? ==> r == Failure(Accessor("timestamp"))
    ensures StringAt(properties, "timestamp").Some? ==>
      var text := StringAt(properties, "timestamp").value;
      && (r.Success? <==> parse(text).Some?)
      && (r.Success? ==> parse(text) == Some(r.value))
      && (r.Failure? ==> r.error == Extraction(ConvertType("timestamp")))
  {
    var text :- StringOf(properties, PropertyField.Timestamp.RawValue());
    match parse(text)
    case Some(date) => Success(date)
    case None => Failure(Extraction(ConvertType("timestamp")))
  }

  /** `wind`: every failure falls back to a default. */
  function WindOf(properties: JsonObject): (r: Wind)
    ensures var direction := NumericValue(properties, "windDirection");
      r.direction == if direction.Some? && IsIntegral(direction.value) then direction.value.Floor else 0
    ensures var speed := NumericValue(properties, "windSpeed");
      r.speed == if speed.Some? then speed.value else 0.0
    ensures r.gust == NumericValue(properties, "windGust")
  {
    var direction := match ExtractIntValue(properties, WindDirection)
      case Success(d) => d
      case Failure(_) => 0;
    var speed := match ExtractFloatValue(properties, WindSpeed)
      case Success(s) => s
      case Failure(_) => 0.0;
    var gust := match ExtractFloatValue(properties, WindGust)
      case Success(g) => Some(g)
      case Failure(_) => None;
    Wind(direction, speed, gust)
  }

  /** One element of `cloudLayers`. */
  function CloudLayerOf(node: JsonObject): (r: Result<Clouds.CloudLayer, Failure>)
    ensures StringAt(node, "amount").None? ==> r == Failure(Accessor("amount"))
    ensures StringAt(node, "amount").Some? ==>
      var amount := StringAt(node, "amount").value;
      && (r.Success? <==> amount in Clouds.Codes)
      && (r.Success? ==> Clouds.RawValue(r.value.cloudAmount) == amount)
      && (r.Failure? ==> r.error == Extraction(EnumElementNotFound("cloudLayers.amount", amount)))
  {
    var amount :- StringOf(node, "amount");
    match Clouds.FromRawValue(amount)
    case Some(cloudAmount) => Success(Clouds.CloudLayer(cloudAmount))
    case None => Failure(Extraction(EnumElementNotFound("cloudLayers.amount", amount)))
  }

  /** The throwing `map` over the cloud nodes: one layer per node, in order,
      or the error of the first node that fails. */
  function CloudLayersOf(nodes: seq<JsonObject>): (r: Result<seq<Clouds.CloudLayer>, Failure>)
    ensures r.Success? <==> forall i :: 0 <= i < |nodes| ==> CloudLayerOf(nodes[i]).Success?
    ensures r.Success? ==> |r.value| == |nodes|
    ensures r.Success? ==> forall i :: 0 <= i < |nodes| ==> r.value[i] == CloudLayerOf(nodes[i]).value
    ensures r.Failure? ==> exists k :: 0 <= k < |nodes| && FirstFailure(nodes, k) && r.error == CloudLayerOf(nodes[k]).error
  {
    if nodes == [] then Success([])
    else
      var first :- CloudLayerOf(nodes[0]);
      var rest :- CloudLayersOf(nodes[1..]);
      Success([first] + rest)
  }

  /** Node `k` is the first cloud node that fails. */
  predicate FirstFailure(nodes: seq<JsonObject>, k: int)
  {
    0 <= k < |nodes| && CloudLayerOf(nodes[k]).Failure?
    && forall i :: 0 <= i < k ==> CloudLayerOf(nodes[i]).Success?
  }

  /** `cloudLayers` */
  function CloudLayersField(properties: JsonObject): (r: Result<seq<Clouds.CloudLayer>, Failure>)
    ensures ObjectsAt(properties, "cloudLayers").None? ==> r == Failure(Accessor("cloudLayers"))
    ensures r.Success? ==>
      ObjectsAt(properties, "cloudLayers").Some? && |r.value| == |ObjectsAt(properties, "cloudLayers").value|
  {
    var cloudNodes :- JsonArrayOf(properties, PropertyField.CloudLayers.RawValue());
    CloudLayersOf(cloudNodes)
  }

  /** `Extract.observation(from:)`. The fields are read in the order the
      initializer's arguments are evaluated, so the first failing field
      decides the error. */
  function ObservationOf(json: JsonObject, parse: DateParser): (r: Result<Observation, Failure>)
    ensures ObjectAt(json, "properties").None? ==> r == Failure(Accessor("properties"))
    ensures r.Success? ==> ObjectAt(json, "properties").Some?
    ensures r.Success? ==>
      var properties := ObjectAt(json, "properties").value;
      && TimestampOf(properties, parse) == Success(r.value.timestamp)
      && NumericValue(properties, "temperature") == Some(r.value.temperature)
  {
    var properties :- JsonOf(json, "properties");
    var timestamp :- TimestampOf(properties, parse);
    var temperature :- ExtractTemperature(properties, Temperature);
    var windChill :- ExtractTemperature(properties, WindChill);
    var heatIndex :- ExtractTemperature(properties, HeatIndex);
    var textDescription :- ExtractString(properties, TextDescription);
    var dewPoint :- ExtractTemperature(properties, Dewpoint);
    var wind := WindOf(properties);
    var barometricPressure :- ExtractIntValue(properties, BarometricPressure);
    var visibility :- ExtractIntValue(properties, Visibility);
    var relativeHumidity :- ExtractIntValue(properties, RelativeHumidity);
    var cloudLayers :- CloudLayersField(properties);
    Success(Observation(timestamp, temperature.value, windChill, heatIndex, textDescription,
                        dewPoint.value, wind, barometricPressure, visibility,
                        Some(relativeHumidity), cloudLayers))
  }

  /** `Extract.noaaURLS(from:)` */
  function NoaaUrlsOf(json: JsonObject): (r: Result<Model.NoaaUrls, FetchError>)
    ensures ObjectAt(json, "properties").None? ==> r == Failure(ParseFailed("properties"))
    ensures ObjectAt(json, "properties").Some? ==>
      var stations := StringAt(ObjectAt(json, "properties").value, "observationStations");
      && (stations.Some? ==> r == Success(Model.NoaaUrls(stations.value)))
      && (stations.None? ==> r == Failure(ParseFailed("observationStations")))
  {
    if "properties" in json && json["properties"].Obj? then
      var properties := json["properties"].fields;
      if "observationStations" in properties && properties["observationStations"].Str? then
        Success(Model.NoaaUrls(properties["observationStations"].s))
      else
        Failure(ParseFailed("observationStations"))
    else
      Failure(ParseFailed("properties"))
  }

  // ---- What the document must hold, read straight from the tree ----

  /** The required/optional policy for temperatures: a missing node always
      fails; a node without a numeric `value` fails with `nilFound` naming the
      field when the field is required and is absent otherwise. */
  lemma TemperaturePolicy(properties: JsonObject, field: TemperatureField)
    ensures ObjectAt(properties, field.RawValue()).None? ==>
      ExtractTemperature(properties, field) == Failure(Accessor(field.RawValue()))
    ensures NumericValue(properties, field.RawValue()).Some? ==>
      ExtractTemperature(properties, field) == Success(NumericValue(properties, field.RawValue()))
    ensures ObjectAt(properties, field.RawValue()).Some? && NumericValue(properties, field.RawValue()).None? ==>
      ExtractTemperature(properties, field) ==
        if field.Required() then Failure(Extraction(NilFound(field.RawValue()))) else Success(None)
  {
  }

  /** Wind never fails, and each of its fields falls back on its own: the
      direction to 0, the speed to 0.0, the gust to absent. This holds although
      the policy table marks direction and speed required. */
  lemma WindFallbacks(properties: JsonObject)
    ensures var direction := NumericValue(properties, "windDirection");
      WindOf(properties).direction ==
        if direction.Some? && IsIntegral(direction.value) then direction.value.Floor else 0
    ensures var speed := NumericValue(properties, "windSpeed");
      WindOf(properties).speed == if speed.Some? then speed.value else 0.0
    ensures WindOf(properties).gust == NumericValue(properties, "windGust")
    ensures WindDirection.Required() && WindSpeed.Required() && !WindGust.Required()
  {
  }

  /** Cloud layers succeed exactly when every node's `amount` is a string
      from the code table; each layer carries the decoded amount of the node
      at the same position. */
  lemma CloudLayersFromTree(nodes: seq<JsonObject>)
    ensures CloudLayersOf(nodes).Success? <==>
      forall i :: 0 <= i < |nodes| ==>
        StringAt(nodes[i], "amount").Some? && StringAt(nodes[i], "amount").value in Clouds.Codes
    ensures CloudLayersOf(nodes).Success? ==>
      forall i :: 0 <= i < |nodes| ==>
        Clouds.RawValue(CloudLayersOf(nodes).value[i].cloudAmount) == StringAt(nodes[i], "amount").value
  {
  }

  /** An unknown amount code fails the whole list with `enumElementNotFound`
      carrying that code, when it is the first node that fails. */
  lemma UnknownCloudAmount(nodes: seq<JsonObject>, k: int)
    requires 0 <= k < |nodes|
    requires forall i :: 0 <= i < k ==> CloudLayerOf(nodes[i]).Success?
    requires StringAt(nodes[k], "amount").Some?
    requires StringAt(nodes[k], "amount").value !in Clouds.Codes
    ensures CloudLayersOf(nodes) ==
      Failure(Extraction(EnumElementNotFound("cloudLayers.amount", StringAt(nodes[k], "amount").value)))
  {
    var r := CloudLayersOf(nodes);
    assert r.Failure?;
    var j :| 0 <= j < |nodes| && FirstFailure(nodes, j) && r.error == CloudLayerOf(nodes[j]).error;
    assert j == k;
  }

  /** No `properties` object: extraction fails before any field is read. */
  lemma MissingProperties(json: JsonObject, parse: DateParser)
    requires ObjectAt(json, "properties").None?
    ensures ObservationOf(json, parse) == Failure(Accessor("properties"))
  {
  }

  /** A timestamp that does not parse fails with `convertType("timestamp")`:
      it is the first field read. */
  lemma UnparsableTimestamp(json: JsonObject, parse: DateParser)
    requires ObjectAt(json, "properties").Some?
    requires StringAt(ObjectAt(json, "properties").value, "timestamp").Some?
    requires parse(StringAt(ObjectAt(json, "properties").value, "timestamp").value).None?
    ensures ObservationOf(json, parse) == Failure(Extraction(ConvertType("timestamp")))
  {
  }

  /** A `temperature` node without a numeric `value` fails with
      `nilFound(fieldName: "temperature")` once the timestamp has been read. */
  lemma TemperatureValueMissing(json: JsonObject, parse: DateParser)
    requires ObjectAt(json, "properties").Some?
    requires TimestampOf(ObjectAt(json, "properties").value, parse).Success?
    requires ObjectAt(ObjectAt(json, "properties").value, "temperature").Some?
    requires NumericValue(ObjectAt(json, "properties").value, "temperature").None?
    ensures ObservationOf(json, parse) == Failure(Extraction(NilFound("temperature")))
  {
  }

  /** A successful extraction is assembled from successful reads of every
      throwing field, each value taken unchanged. */
  lemma ObservationParts(json: JsonObject, parse: DateParser)
    requires ObservationOf(json, parse).Success?
    ensures ObjectAt(json, "properties").Some?
    ensures var properties := ObjectAt(json, "properties").value;
      && TimestampOf(properties, parse).Success?
      && ExtractTemperature(properties, Temperature).Success?
      && ExtractTemperature(properties, WindChill).Success?
      && ExtractTemperature(properties, HeatIndex).Success?
      && ExtractString(properties, TextDescription).Success?
      && ExtractTemperature(properties, Dewpoint).Success?
      && ExtractIntValue(properties, BarometricPressure).Success?
      && ExtractIntValue(properties, Visibility).Success?
      && ExtractIntValue(properties, RelativeHumidity).Success?
      && CloudLayersField(properties).Success?
      && ObservationOf(json, parse).value == Observation(
           TimestampOf(properties, parse).value,
           ExtractTemperature(properties, Temperature).value.value,
           ExtractTemperature(properties, WindChill).value,
           ExtractTemperature(properties, HeatIndex).value,
           ExtractString(properties, TextDescription).value,
           ExtractTemperature(properties, Dewpoint).value.value,
           WindOf(properties),
           ExtractIntValue(properties, BarometricPressure).value,
           ExtractIntValue(properties, Visibility).value,
           Some(ExtractIntValue(properties, RelativeHumidity).value),
           CloudLayersField(properties).value)
  {
  }

  /** A successful extraction has read every throwing field successfully. */
  lemma ObservationReadsEveryField(json: JsonObject, parse: DateParser)
    requires ObservationOf(json, parse).Success?
    ensures ObjectAt(json, "properties").Some?
    ensures forall field: TemperatureField ::
      ExtractTemperature(ObjectAt(json, "properties").value, field).Success?
    ensures var properties := ObjectAt(json, "properties").value;
      && TimestampOf(properties, parse).Success?
      && ExtractString(properties, TextDescription).Success?
      && ExtractIntValue(properties, BarometricPressure).Success?
      && ExtractIntValue(properties, Visibility).Success?
      && ExtractIntValue(properties, RelativeHumidity).Success?
      && CloudLayersField(properties).Success?
  {
    ObservationParts(json, parse);
    var properties := ObjectAt(json, "properties").value;
    forall field: TemperatureField
      ensures ExtractTemperature(properties, field).Success?
    {
      match field
      case Temperature =>
      case WindChill =>
      case HeatIndex =>
      case Dewpoint =>
    }
  }

  /** Whatever else the document holds, a missing temperature node fails the
      extraction, for optional temperatures too. */
  lemma MissingTemperatureNode(json: JsonObject, parse: DateParser, field: TemperatureField)
    requires ObjectAt(json, "properties").Some?
    requires ObjectAt(ObjectAt(json, "properties").value, field.RawValue()).None?
    ensures ObservationOf(json, parse).Failure?
  {
    if ObservationOf(json, parse).Success? {
      ObservationReadsEveryField(json, parse);
      TemperaturePolicy(ObjectAt(json, "properties").value, field);
    }
  }

  /** Whatever else the document holds, a required temperature without a
      numeric `value` fails the extraction. */
  lemma RequiredTemperatureMissing(json: JsonObject, parse: DateParser, field: TemperatureField)
    requires field.Required()
    requires ObjectAt(json, "properties").Some?
    requires NumericValue(ObjectAt(json, "properties").value, field.RawValue()).None?
    ensures ObservationOf(json, parse).Failure?
  {
    if ObservationOf(json, parse).Success? {
      ObservationReadsEveryField(json, parse);
      TemperaturePolicy(ObjectAt(json, "properties").value, field);
    }
  }

  /** A cloud amount outside the code table fails the `cloudLayers` field. */
  lemma UnknownCloudAmountFailsField(properties: JsonObject, k: int)
    requires ObjectsAt(properties, "cloudLayers").Some?
    requires 0 <= k < |ObjectsAt(properties, "cloudLayers").value|
    requires StringAt(ObjectsAt(properties, "cloudLayers").value[k], "amount").Some?
    requires StringAt(ObjectsAt(properties, "cloudLayers").value[k], "amount").value !in Clouds.Codes
    ensures CloudLayersField(properties).Failure?
  {
    var nodes := ObjectsAt(properties, "cloudLayers").value;
    var node := nodes[k];
    assert CloudLayerOf(node).Failure?;
    assert !(forall i :: 0 <= i < |nodes| ==> CloudLayerOf(nodes[i]).Success?);
    assert CloudLayersField(properties) == CloudLayersOf(nodes);
  }

  /** Whatever else the document holds, a cloud amount outside the code table
      fails the extraction: no partial observation is returned. */
  lemma UnknownCloudAmountFailsObservation(json: JsonObject, parse: DateParser, k: int)
    requires ObjectAt(json, "properties").Some?
    requires ObjectsAt(ObjectAt(json, "properties").value, "cloudLayers").Some?
    requires 0 <= k < |ObjectsAt(ObjectAt(json, "properties").value, "cloudLayers").value|
    requires StringAt(ObjectsAt(ObjectAt(json, "properties").value, "cloudLayers").value[k], "amount").Some?
    requires StringAt(ObjectsAt(ObjectAt(json, "properties").value, "cloudLayers").value[k], "amount").value
             !in Clouds.Codes
    ensures ObservationOf(json, parse).Failure?
  {
    UnknownCloudAmountFailsField(ObjectAt(json, "properties").value, k);
    if ObservationOf(json, parse).Success? {
      ObservationParts(json, parse);
    }
  }

  /** An integer field read successfully is the node's numeric `value`. */
  lemma IntValueRead(properties: JsonObject, field: PropertyField)
    requires ExtractIntValue(properties, field).Success?
    ensures NumericValue(properties, field.RawValue()) == Some(ExtractIntValue(properties, field).value as real)
  {
  }

  /** Cloud layers read successfully decode, position by position, the
      `amount` codes of the nodes. */
  lemma CloudLayersRead(properties: JsonObject)
    requires CloudLayersField(properties).Success?
    ensures ObjectsAt(properties, "cloudLayers").Some?
    ensures var nodes := ObjectsAt(properties, "cloudLayers").value;
      var layers := CloudLayersField(properties).value;
      && |layers| == |nodes|
      && forall k :: 0 <= k < |nodes| ==>
           StringAt(nodes[k], "amount").Some?
           && Clouds.FromRawValue(StringAt(nodes[k], "amount").value) == Some(layers[k].cloudAmount)
  {
    var nodes := ObjectsAt(properties, "cloudLayers").value;
    assert PropertyField.CloudLayers.RawValue() == "cloudLayers";
    assert JsonArrayOf(properties, "cloudLayers") == Success(nodes);
    var layers := CloudLayersOf(nodes);
    assert CloudLayersField(properties) == layers;
    CloudLayersDecoded(nodes);
  }

  /** A successful list of cloud layers decodes, position by position, the
      `amount` codes of the nodes. */
  lemma CloudLayersDecoded(nodes: seq<JsonObject>)
    requires CloudLayersOf(nodes).Success?
    ensures forall k :: 0 <= k < |nodes| ==>
      StringAt(nodes[k], "amount").Some?
      && Clouds.FromRawValue(StringAt(nodes[k], "amount").value) == Some(CloudLayersOf(nodes).value[k].cloudAmount)
  {
    var layers := CloudLayersOf(nodes).value;
    forall k | 0 <= k < |nodes|
      ensures StringAt(nodes[k], "amount").Some?
      ensures Clouds.FromRawValue(StringAt(nodes[k], "amount").value) == Some(layers[k].cloudAmount)
    {
      assert CloudLayerOf(nodes[k]).Success? && layers[k] == CloudLayerOf(nodes[k]).value;
      CloudLayerDecoded(nodes[k]);
    }
  }

  /** A cloud layer read successfully holds the amount its code decodes to. */
  lemma CloudLayerDecoded(node: JsonObject)
    requires CloudLayerOf(node).Success?
    ensures StringAt(node, "amount").Some?
    ensures Clouds.FromRawValue(StringAt(node, "amount").value) == Some(CloudLayerOf(node).value.cloudAmount)
  {
  }

  /** The temperatures, timestamp, description and wind of a successful
      extraction are those the document gives. */
  lemma ObservationScalars(json: JsonObject, parse: DateParser)
    requires ObservationOf(json, parse).Success?
    ensures ObjectAt(json, "properties").Some?
    ensures var properties := ObjectAt(json, "properties").value;
      var o := ObservationOf(json, parse).value;
      && StringAt(properties, "timestamp").Some?
      && parse(StringAt(properties, "timestamp").value) == Some(o.timestamp)
      && NumericValue(properties, "temperature") == Some(o.temperature)
      && NumericValue(properties, "dewpoint") == Some(o.dewPoint)
      && NumericValue(properties, "windChill") == o.windChill
      && NumericValue(properties, "heatIndex") == o.heatIndex
      && StringAt(properties, "textDescription") == Some(o.textDescription)
      && o.wind == WindOf(properties)
  {
    ObservationParts(json, parse);
    ScalarsRead(ObjectAt(json, "properties").value, parse, ObservationOf(json, parse).value);
  }

  /** The timestamp, temperatures, description and wind an observation took
      from `properties` are what the document holds there. */
  lemma ScalarsRead(properties: JsonObject, parse: DateParser, o: Observation)
    requires TimestampOf(properties, parse) == Success(o.timestamp)
    requires ExtractTemperature(properties, Temperature) == Success(Some(o.temperature))
    requires ExtractTemperature(properties, WindChill) == Success(o.windChill)
    requires ExtractTemperature(properties, HeatIndex) == Success(o.heatIndex)
    requires ExtractString(properties, TextDescription) == Success(o.textDescription)
    requires ExtractTemperature(properties, Dewpoint) == Success(Some(o.dewPoint))
    requires o.wind == WindOf(properties)
    ensures StringAt(properties, "timestamp").Some?
    ensures parse(StringAt(properties, "timestamp").value) == Some(o.timestamp)
    ensures NumericValue(properties, "temperature") == Some(o.temperature)
    ensures NumericValue(properties, "dewpoint") == Some(o.dewPoint)
    ensures NumericValue(properties, "windChill") == o.windChill
    ensures NumericValue(properties, "heatIndex") == o.heatIndex
    ensures StringAt(properties, "textDescription") == Some(o.textDescription)
  {
    TemperaturePolicy(properties, Temperature);
    TemperaturePolicy(properties, WindChill);
    TemperaturePolicy(properties, HeatIndex);
    TemperaturePolicy(properties, Dewpoint);
  }

  /** The integer readings of a successful extraction are the numeric
      `value`s the document gives. */
  lemma ObservationIntegers(json: JsonObject, parse: DateParser)
    requires ObservationOf(json, parse).Success?
    ensures ObjectAt(json, "properties").Some?
    ensures var properties := ObjectAt(json, "properties").value;
      var o := ObservationOf(json, parse).value;
      && NumericValue(properties, "barometricPressure") == Some(o.barometricPressure as real)
      && NumericValue(properties, "visibility") == Some(o.visibility as real)
      && o.relativeHumidity.Some?
      && NumericValue(properties, "relativeHumidity") == Some(o.relativeHumidity.value as real)
  {
    ObservationParts(json, parse);
    IntegersRead(ObjectAt(json, "properties").value, ObservationOf(json, parse).value);
  }

  /** The integer readings an observation took from `properties` are their
      numeric `value`s. */
  lemma IntegersRead(properties: JsonObject, o: Observation)
    requires ExtractIntValue(properties, BarometricPressure) == Success(o.barometricPressure)
    requires ExtractIntValue(properties, Visibility) == Success(o.visibility)
    requires ExtractIntValue(properties, RelativeHumidity).Success?
    requires o.relativeHumidity == Some(ExtractIntValue(properties, RelativeHumidity).value)
    ensures NumericValue(properties, "barometricPressure") == Some(o.barometricPressure as real)
    ensures NumericValue(properties, "visibility") == Some(o.visibility as real)
    ensures o.relativeHumidity.Some?
    ensures NumericValue(properties, "relativeHumidity") == Some(o.relativeHumidity.value as real)
  {
    IntValueRead(properties, BarometricPressure);
    IntValueRead(properties, Visibility);
    IntValueRead(properties, RelativeHumidity);
  }

  /** A successful extraction has one cloud layer per node, in order, each
      holding the amount its node's code decodes to. */
  lemma ObservationCloudLayers(json: JsonObject, parse: DateParser)
    requires ObservationOf(json, parse).Success?
    ensures ObjectAt(json, "properties").Some?
    ensures var properties := ObjectAt(json, "properties").value;
      var o := ObservationOf(json, parse).value;
      && ObjectsAt(properties, "cloudLayers").Some?
      && var nodes := ObjectsAt(properties, "cloudLayers").value;
      && |o.cloudLayers| == |nodes|
      && forall k :: 0 <= k < |nodes| ==>
           StringAt(nodes[k], "amount").Some?
           && Clouds.FromRawValue(StringAt(nodes[k], "amount").value) == Some(o.cloudLayers[k].cloudAmount)
  {
    ObservationParts(json, parse);
    var properties := ObjectAt(json, "properties").value;
    assert ObservationOf(json, parse).value.cloudLayers == CloudLayersField(properties).value;
    CloudLayersRead(properties);
  }

  /** A successful extraction holds exactly what the document says: the
      temperatures of the nodes' `value`s, absent optional temperatures where a
      node has no numeric `value`, the wind with its fallbacks, the integer
      readings, and one cloud layer per node, in order, decoding its code. */
  lemma ObservationContents(json: JsonObject, parse: DateParser)
    requires ObservationOf(json, parse).Success?
    ensures ObjectAt(json, "properties").Some?
    ensures var properties := ObjectAt(json, "properties").value;
      var o := ObservationOf(json, parse).value;
      && StringAt(properties, "timestamp").Some?
      && parse(StringAt(properties, "timestamp").value) == Some(o.timestamp)
      && NumericValue(properties, "temperature") == Some(o.temperature)
      && NumericValue(properties, "dewpoint") == Some(o.dewPoint)
      && NumericValue(properties, "windChill") == o.windChill
      && NumericValue(properties, "heatIndex") == o.heatIndex
      && StringAt(properties, "textDescription") == Some(o.textDescription)
      && o.wind == WindOf(properties)
      && NumericValue(properties, "barometricPressure") == Some(o.barometricPressure as real)
      && NumericValue(properties, "visibility") == Some(o.visibility as real)
      && o.relativeHumidity.Some?
      && NumericValue(properties, "relativeHumidity") == Some(o.relativeHumidity.value as real)
      && ObjectsAt(properties, "cloudLayers").Some?
      && var nodes := ObjectsAt(properties, "cloudLayers").value;
      && |o.cloudLayers| == |nodes|
      && forall k :: 0 <= k < |nodes| ==>
           StringAt(nodes[k], "amount").Some?
           && Clouds.FromRawValue(StringAt(nodes[k], "amount").value) == Some(o.cloudLayers[k].cloudAmount)
  {
    ObservationScalars(json, parse);
    ObservationIntegers(json, parse);
    ObservationCloudLayers(json, parse);
  }
}
