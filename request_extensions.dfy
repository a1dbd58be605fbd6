/** Extensions/URLRequest+Extensions.swift: the request every NOAA call is
    made with. */
module RequestExtensions {
  import opened Http

  /** The two headers every NOAA request carries, in the order they are added. */
  const StandardHeaders: seq<Header> :=
    [Header("User-Agent", "NOAAKit"), Header("Accept", "application/json")]

  /** The request `noaaRequest(url:)` builds, as the transport sees it. */
  function NoaaRequestValue(url: string): RequestValue
  {
    RequestValue(url, "GET", StandardHeaders)
  }

  /** `addStandardHeaders()`: appends the two standard headers, nothing else. */
  method AddStandardHeaders(request: Request)
    modifies request
    ensures request.headers == old(request.headers) + StandardHeaders
    ensures request.url == old(request.url) && request.httpMethod == old(request.httpMethod)
  {
    request.AddValue("NOAAKit", "User-Agent");
    request.AddValue("application/json", "Accept");
  }

  /** `noaaRequest(url:)`: a GET for exactly `url` with the standard headers. */
  method NoaaRequest(url: string) returns (request: Request)
    ensures fresh(request)
    ensures request.url == url && request.httpMethod == "GET" && request.headers == StandardHeaders
    ensures request.Value() == NoaaRequestValue(url)
  {
    request := new Request(url);
    request.httpMethod := "GET";
    AddStandardHeaders(request);
  }

  /** The standard headers name the client and ask for JSON, once each, and
      set no other field. */
  lemma StandardHeaderValues(field: string)
    ensures HeaderValues(StandardHeaders, "User-Agent") == ["NOAAKit"]
    ensures HeaderValues(StandardHeaders, "Accept") == ["application/json"]
    ensures field != "User-Agent" && field != "Accept" ==> HeaderValues(StandardHeaders, field) == []
  {
    var accept := StandardHeaders[1..];
    assert accept == [Header("Accept", "application/json")] && accept[1..] == [];
    assert HeaderValues(accept, field) == (if field == "Accept" then ["application/json"] else []);
  }

  /** After `addStandardHeaders()` every field keeps the values it had, a
      field other than the two standard ones gains none, and each standard
      field gains exactly its one value. */
  lemma AddedHeadersOnly(before: seq<Header>, field: string)
    ensures field != "User-Agent" && field != "Accept" ==>
      HeaderValues(before + StandardHeaders, field) == HeaderValues(before, field)
    ensures HeaderValues(before + StandardHeaders, "User-Agent") == HeaderValues(before, "User-Agent") + ["NOAAKit"]
    ensures HeaderValues(before + StandardHeaders, "Accept") == HeaderValues(before, "Accept") + ["application/json"]
  {
    StandardHeaderValues(field);
    HeaderValuesAppend(before, StandardHeaders, field);
    HeaderValuesAppend(before, StandardHeaders, "User-Agent");
    HeaderValuesAppend(before, StandardHeaders, "Accept");
  }
}
