/** The dictionary lookups of Util/JSON.swift: each returns the typed value
    at a key or throws `parseFailed` naming that key. */
module JsonUtil {
  import opened Wrappers
  import opened Errors
  import opened Json
  import opened Foundation

  /** `extractJSON(name:)` */
  function ExtractJson(o: JsonObject, name: string): (r: Result<JsonObject, FetchError>)
    ensures r.Success? <==> name in o && o[name].Obj?
    ensures r.Success? ==> o[name] == Obj(r.value)
    ensures r.Failure? ==> r.error == ParseFailed(name)
  {
    match ObjectAt(o, name)
    case Some(node) => Success(node)
    case None => Failure(ParseFailed(name))
  }

  /** `extractDate(name:)`, reading the string with an ISO 8601 formatter. */
  function ExtractDate(o: JsonObject, name: string, iso8601: DateParser): (r: Result<Date, FetchError>)
    ensures r.Success? <==> name in o && o[name].Str? && iso8601(o[name].s).Some?
    ensures r.Success? ==> r.value == iso8601(o[name].s).value
    ensures r.Failure? ==> r.error == ParseFailed(name)
  {
    match StringAt(o, name)
    case None => Failure(ParseFailed(name))
    case Some(text) =>
      match iso8601(text)
      case Some(date) => Success(date)
      case None => Failure(ParseFailed(name))
  }
}
