/** NOAAAPI/URLRequest+Extensions.swift: a second revision of fetching JSON
    for a request. Unlike `json(for:)` it stops the process on a response
    that is not HTTP or a body that is not a JSON object. */
module ApiRequestExtensions {
  import opened Wrappers
  import opened Errors
  import opened Json
  import opened Http
  import SessionExtension

  const UserAgent := Header("User-Agent", "NOAAKit")
  const AcceptJson := Header("Accept", "application/json")

  /** What `fetchData()` makes of the reply to its request. */
  function DataOfReply(reply: Reply): (r: Result<Payload, Failure>)
    ensures r.Success? <==> reply.Received? && reply.response.Http? && reply.response.status == 200
    ensures r.Success? ==> r.value == reply.response.body
    ensures reply.Received? && reply.response.NotHttp? ==> r.Failure? && r.error.Trap?
    ensures reply.Received? && reply.response.Http? && reply.response.status != 200 ==>
      r == Failure(Fetch(StatusCode(reply.response.status)))
  {
    match reply
    case TransportFailure => Failure(Transport)
    case Received(NotHttp(_)) => Failure(Trap("Expected HTTPURLResponse"))
    case Received(Http(status, body)) =>
      if status == 200 then Success(body) else Failure(Fetch(StatusCode(status)))
  }

  /** What `fetchJSON()` makes of the body `fetchData()` returned. */
  function JsonOfData(body: Payload): (r: Result<JsonObject, Failure>)
    ensures r.Success? <==> body.ObjectBody?
    ensures r.Success? ==> r.value == body.fields
    ensures body.ArrayBody? ==> r.Failure? && r.error.Trap?
    ensures body.Rejected? ==> r == Failure(NotSerializable)
  {
    match body
    case Rejected => Failure(NotSerializable)
    case ObjectBody(json) => Success(json)
    case ArrayBody(_) => Failure(Trap("Data is not JSON"))
  }

  /** `fetchJSON()` as one step of a pipeline: one request, one reply. */
  function FetchJsonRun(request: RequestValue, script: seq<Reply>): Run<JsonObject>
  {
    var result := match DataOfReply(NextReply(script))
      case Success(body) => JsonOfData(body)
      case Failure(e) => Failure(e);
    Run(result, [request], AfterReply(script))
  }

  /** `fetchJSON()` consumes the one reply it is given: a status code error
      reports that reply's status, and a success leaves the rest of the script. */
  lemma FetchJsonConsumesOneReply(request: RequestValue, script: seq<Reply>)
    ensures StatusFromLastReply(FetchJsonRun(request, script), script)
    ensures FetchJsonRun(request, script).result.Success? ==>
      script != [] && FetchJsonRun(request, script).rest == script[1..]
      && FetchJsonRun(request, script).sent == [request]
  {
  }

  /** `fetchData()` */
  method FetchData(session: Session, request: Request) returns (r: Result<Payload, Failure>)
    modifies session
    ensures r == DataOfReply(NextReply(old(session.script)))
    ensures session.sent == old(session.sent) + [request.Value()]
    ensures session.script == AfterReply(old(session.script))
  {
    var reply := session.Data(request);
    match reply
    case TransportFailure =>
      r := Failure(Transport);
    case Received(response) =>
      if response.NotHttp? {
        r := Failure(Trap("Expected HTTPURLResponse"));
      } else if response.status != 200 {
        r := Failure(Fetch(StatusCode(response.status)));
      } else {
        r := Success(response.body);
      }
  }

  /** `fetchJSON()` */
  method FetchJson(session: Session, request: Request) returns (r: Result<JsonObject, Failure>)
    modifies session
    ensures var run := FetchJsonRun(request.Value(), old(session.script));
      r == run.result && session.sent == old(session.sent) + run.sent && session.script == run.rest
  {
    var data := FetchData(session, request);
    if data.Failure? {
      return Failure(data.error);
    }
    r := JsonOfData(data.value);
  }

  /** `addStandardHeaders()`: the same two headers, leaving the method and the
      URL as they were. */
  method AddStandardHeaders(request: Request)
    modifies request
    ensures request.headers == old(request.headers) + [UserAgent, AcceptJson]
    ensures request.url == old(request.url) && request.httpMethod == old(request.httpMethod)
  {
    request.AddValue("NOAAKit", "User-Agent");
    request.AddValue("application/json", "Accept");
  }

  /** `URLRequest(url:)` followed by `addStandardHeaders()`, as sent. */
  function StandardRequestValue(url: string): RequestValue
  {
    RequestValue(url, "GET", [UserAgent, AcceptJson])
  }

  /** `var request = URLRequest(url:)` then `request.addStandardHeaders()`. */
  method StandardRequest(url: string) returns (request: Request)
    ensures fresh(request) && request.Value() == StandardRequestValue(url)
  {
    request := new Request(url);
    AddStandardHeaders(request);
  }

  /** On a successful response the two revisions agree; where `json(for:)`
      throws `responseIsNotHTTP` or `dataIsNotJSON`, `fetchJSON()` stops the
      process instead. */
  lemma TrapsWhereJsonForThrows(reply: Reply)
    ensures SessionExtension.JsonOfReply(reply).Success? ==>
      FetchJsonRun(StandardRequestValue(""), [reply]).result == SessionExtension.JsonOfReply(reply)
    ensures SessionExtension.JsonOfReply(reply) == Failure(Fetch(ResponseIsNotHTTP)) ==>
      FetchJsonRun(StandardRequestValue(""), [reply]).result.Failure?
      && FetchJsonRun(StandardRequestValue(""), [reply]).result.error.Trap?
    ensures SessionExtension.JsonOfReply(reply) == Failure(Fetch(DataIsNotJSON)) ==>
      FetchJsonRun(StandardRequestValue(""), [reply]).result.Failure?
      && FetchJsonRun(StandardRequestValue(""), [reply]).result.error.Trap?
  {
  }
}
