/** Extensions/URLSession+Extension.swift: run a request, check that the
    response is a successful HTTP response, and only then read the body as a
    JSON object. */
module SessionExtension {
  import opened Wrappers
  import opened Errors
  import opened Json
  import opened Http

  /** `URLResponse.isValidWebResponse()` */
  function IsValidWebResponse(response: Response): (r: Outcome<FetchError>)
    ensures r.Pass? <==> response.Http? && response.status == 200
    ensures response.NotHttp? ==> r == Fail(ResponseIsNotHTTP)
    ensures response.Http? && response.status != 200 ==> r == Fail(StatusCode(response.status))
  {
    match response
    case NotHttp(_) => Fail(ResponseIsNotHTTP)
    case Http(status, _) => if status != 200 then Fail(StatusCode(status)) else Pass
  }

  /** What `json(for:)` makes of the reply to its request: validate first,
      then parse. */
  function JsonOfReply(reply: Reply): (r: Result<JsonObject, Failure>)
    ensures r.Success? <==>
      reply.Received? && reply.response.Http? && reply.response.status == 200 && reply.response.body.ObjectBody?
    ensures r.Success? ==> r.value == reply.response.body.fields
    ensures reply.TransportFailure? ==> r == Failure(Transport)
    ensures reply.Received? && reply.response.Http? && reply.response.status != 200 ==>
      r == Failure(Fetch(StatusCode(reply.response.status)))
  {
    match reply
    case TransportFailure => Failure(Transport)
    case Received(response) =>
      match IsValidWebResponse(response)
      case Fail(e) => Failure(Fetch(e))
      case Pass =>
        match response.body
        case Rejected => Failure(NotSerializable)
        case ObjectBody(json) => Success(json)
        case ArrayBody(_) => Failure(Fetch(DataIsNotJSON))
  }

  /** `json(for:)` as one step of a pipeline: one request, one reply. */
  function JsonForRun(request: RequestValue, script: seq<Reply>): Run<JsonObject>
  {
    Run(JsonOfReply(NextReply(script)), [request], AfterReply(script))
  }

  /** `json(for:)` consumes the one reply it is given: a status code error
      reports that reply's status. */
  lemma JsonForConsumesOneReply(request: RequestValue, script: seq<Reply>)
    ensures StatusFromLastReply(JsonForRun(request, script), script)
    ensures JsonForRun(request, script).sent == [request]
  {
  }

  /** `json(for:)` */
  method JsonFor(session: Session, request: Request) returns (r: Result<JsonObject, Failure>)
    modifies session
    ensures var run := JsonForRun(request.Value(), old(session.script));
      r == run.result && session.sent == old(session.sent) + run.sent && session.script == run.rest
  {
    var reply := session.Data(request);
    match reply
    case TransportFailure =>
      return Failure(Transport);
    case Received(response) =>
      var valid := IsValidWebResponse(response);
      if valid.Fail? {
        return Failure(Fetch(valid.error));
      }
      match response.body
      case Rejected =>
        r := Failure(NotSerializable);
      case ObjectBody(json) =>
        r := Success(json);
      case ArrayBody(_) =>
        r := Failure(Fetch(DataIsNotJSON));
  }

  /** The status is checked before the body is read: a response that is not
      HTTP, or has a status other than 200, fails the same way whatever its
      body, with the exact status code. */
  lemma ValidatedBeforeParsed(status: int, body: Payload, other: Payload)
    ensures JsonOfReply(Received(NotHttp(body))) == JsonOfReply(Received(NotHttp(other)))
                                                 == Failure(Fetch(ResponseIsNotHTTP))
    ensures status != 200 ==>
      JsonOfReply(Received(Http(status, body))) == JsonOfReply(Received(Http(status, other)))
                                                == Failure(Fetch(StatusCode(status)))
  {
  }

  /** A 200 response whose body holds the document `top` yields its
      top-level object unchanged; a top-level array fails with
      `dataIsNotJSON`; a top-level scalar is already refused by the parser,
      so its error is the parser's own and never `dataIsNotJSON`. */
  lemma SuccessfulResponse(top: Json)
    ensures top.Obj? ==> JsonOfReply(Received(Http(200, Deserialized(top)))) == Success(top.fields)
    ensures top.Arr? ==> JsonOfReply(Received(Http(200, Deserialized(top)))) == Failure(Fetch(DataIsNotJSON))
    ensures !top.Obj? && !top.Arr? ==> JsonOfReply(Received(Http(200, Deserialized(top)))) == Failure(NotSerializable)
  {
  }
}
