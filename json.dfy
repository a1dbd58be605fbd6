/** The untyped JSON tree NOAAKit navigates (`[String: Any]` in the source),
    as a tagged datatype, with
    - the Swift casts the core applies to a dictionary entry (`as? JSON`,
      `as? String`, `as? [JSON]`), which yield an optional, and
    - the SpearFoundation accessors (`json`, `string`, `float`, `jsonArray`,
      `extract`), which return the typed value or throw. Their source is not
      part of this model; they are modelled as "the value of that type stored
      at the key, or `Accessor(key)`". */
module Json {
  import opened Wrappers
  import opened Errors

  datatype Json =
    | Null
    | Bool(b: bool)
    | Num(n: real)
    | Str(s: string)
    | Arr(items: seq<Json>)
    | Obj(fields: map<string, Json>)

  /** A JSON object: the source's `JSON` type alias. */
  type JsonObject = map<string, Json>

  predicate IsIntegral(n: real)
  {
    n.Floor as real == n
  }

  // ---- Swift casts of a dictionary entry ----

  /** `o[key] as? JSON` */
  function ObjectAt(o: JsonObject, key: string): Option<JsonObject>
  {
    if key in o && o[key].Obj? then Some(o[key].fields) else None
  }

  /** `o[key] as? String` */
  function StringAt(o: JsonObject, key: string): Option<string>
  {
    if key in o && o[key].Str? then Some(o[key].s) else None
  }

  /** `o[key] as? Double` */
  function NumberAt(o: JsonObject, key: string): Option<real>
  {
    if key in o && o[key].Num? then Some(o[key].n) else None
  }

  /** The number stored as `value` in the object at `name`, if there is one:
      how the observation document gives a measurement. */
  function NumericValue(o: JsonObject, name: string): Option<real>
  {
    match ObjectAt(o, name)
    case Some(node) => NumberAt(node, "value")
    case None => None
  }

  /** `items as? [JSON]`: succeeds exactly when every element is an object,
      and then keeps every element in place. */
  function AsObjects(items: seq<Json>): (r: Option<seq<JsonObject>>)
    ensures r.Some? <==> forall i :: 0 <= i < |items| ==> items[i].Obj?
    ensures r.Some? ==> |r.value| == |items|
    ensures r.Some? ==> forall i :: 0 <= i < |items| ==> items[i] == Obj(r.value[i])
  {
    if items == [] then Some([])
    else match items[0]
      case Obj(first) =>
        (match AsObjects(items[1..])
           case Some(rest) => Some([first] + rest)
           case None => None)
      case _ => None
  }

  /** `o[key] as? [JSON]` */
  function ObjectsAt(o: JsonObject, key: string): Option<seq<JsonObject>>
  {
    if key in o && o[key].Arr? then AsObjects(o[key].items) else None
  }

  // ---- SpearFoundation accessors ----

  /** `o.json(key)` */
  function JsonOf(o: JsonObject, key: string): Result<JsonObject, Failure>
  {
    if key in o && o[key].Obj? then Success(o[key].fields) else Failure(Accessor(key))
  }

  /** `o.string(key)` */
  function StringOf(o: JsonObject, key: string): Result<string, Failure>
  {
    if key in o && o[key].Str? then Success(o[key].s) else Failure(Accessor(key))
  }

  /** `o.float(key)`, and `o.extract(key)` read as a floating-point number. */
  function FloatOf(o: JsonObject, key: string): Result<real, Failure>
  {
    if key in o && o[key].Num? then Success(o[key].n) else Failure(Accessor(key))
  }

  /** `o.extract(key)` read as an `Int`: a number with no fractional part. */
  function IntOf(o: JsonObject, key: string): Result<int, Failure>
  {
    if key in o && o[key].Num? && IsIntegral(o[key].n) then Success(o[key].n.Floor)
    else Failure(Accessor(key))
  }

  /** `o.jsonArray(key)` */
  function JsonArrayOf(o: JsonObject, key: string): Result<seq<JsonObject>, Failure>
  {
    match ObjectsAt(o, key)
    case Some(nodes) => Success(nodes)
    case None => Failure(Accessor(key))
  }
}
