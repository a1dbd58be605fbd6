/** The error taxonomy of NOAAKit. `FetchError` is declared in NOAAKit.swift;
    `ExtractError` belongs to the SpearFoundation package, whose source is not
    part of this model, and holds the three cases the core throws. */
module Errors {
  import opened Wrappers

  datatype FetchError =
    | StatusCode(code: int)
    | ParseFailed(field: string)
    | Conversion
    | StationIdentifierNotFound
    | DataIsNotJSON
    | ResponseIsNotHTTP

  datatype ExtractError =
    | NilFound(fieldName: string)
    | ConvertType(fieldName: string)
    | EnumElementNotFound(fieldName: string, elementValue: string)

  /** Everything a stage of the pipeline can end with instead of a value. Swift
      `throws` is untyped, so one union carries the errors of every layer:
      - `Fetch`, `Extraction`: the two error enums above;
      - `Accessor(key)`: a SpearFoundation accessor (`json`, `string`, `float`,
        `jsonArray`, `extract`) found no value of the wanted type at `key`;
      - `NotSerializable`: `JSONSerialization` threw on a body that is not JSON;
      - `Transport`: `URLSession` threw (the network failed);
      - `Trap(reason)`: the process stops (`preconditionFailure`, a force
        unwrap of `nil`); it is not an error a caller can catch. */
  datatype Failure =
    | Fetch(fetch: FetchError)
    | Extraction(extraction: ExtractError)
    | Accessor(key: string)
    | NotSerializable
    | Transport
    | Trap(reason: string)

  /** A `FetchError` thrown where any error may be thrown. */
  function FromFetch<T>(r: Result<T, FetchError>): Result<T, Failure>
  {
    match r
    case Success(v) => Success(v)
    case Failure(e) => Failure(Fetch(e))
  }
}
