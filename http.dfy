/** The parts of Foundation's URL loading system the core touches: a
    `URLRequest` built up in place, the response a request gets, and the
    transport (`URLSession.shared.data(for:)`) as a capability whose replies
    are given in advance, in order, and which records every request it sends. */
module Http {
  import opened Wrappers
  import opened Errors
  import Json

  datatype Header = Header(field: string, value: string)

  /** The values a header field carries, in the order they were added. */
  function HeaderValues(headers: seq<Header>, field: string): seq<string>
  {
    if headers == [] then []
    else (if headers[0].field == field then [headers[0].value] else []) + HeaderValues(headers[1..], field)
  }

  /** Adding headers never changes the values of the fields already there;
      it appends the new values of each field after them. */
  lemma {:induction false} HeaderValuesAppend(before: seq<Header>, added: seq<Header>, field: string)
    ensures HeaderValues(before + added, field) == HeaderValues(before, field) + HeaderValues(added, field)
  {
    if before != [] {
      assert (before + added)[1..] == before[1..] + added;
      HeaderValuesAppend(before[1..], added, field);
    } else {
      assert before + added == added;
    }
  }

  /** A snapshot of a request: what the transport sends. */
  datatype RequestValue = RequestValue(url: string, httpMethod: string, headers: seq<Header>)

  /** `URLRequest`, a value the source changes in place through `var`s. */
  class Request {
    var url: string
    var httpMethod: string
    /** The header values added so far, in the order `addValue` added them. */
    var headers: seq<Header>

    /** `URLRequest(url:)`: Foundation's default method is GET. */
    constructor (url: string)
      ensures this.url == url && httpMethod == "GET" && headers == []
    {
      this.url := url;
      httpMethod := "GET";
      headers := [];
    }

    function Value(): RequestValue
      reads this
    {
      RequestValue(url, httpMethod, headers)
    }

    /** `addValue(_:forHTTPHeaderField:)` */
    method AddValue(value: string, field: string)
      modifies this
      ensures headers == old(headers) + [Header(field, value)]
      ensures url == old(url) && httpMethod == old(httpMethod)
    {
      headers := headers + [Header(field, value)];
    }
  }

  /** What `JSONSerialization.jsonObject(with:options: [])` makes of a body.
      Without `.fragmentsAllowed` it yields only a top-level object or array;
      on any other body, bytes that are not JSON as much as a JSON document
      whose top level is a scalar, it throws (`Rejected`). */
  datatype Payload = Rejected | ObjectBody(fields: Json.JsonObject) | ArrayBody(items: seq<Json.Json>)

  /** The payload of a body that holds the JSON document `top`. */
  function Deserialized(top: Json.Json): Payload
  {
    match top
    case Obj(fields) => ObjectBody(fields)
    case Arr(items) => ArrayBody(items)
    case _ => Rejected
  }

  /** `URLResponse`: only an `HTTPURLResponse` has a status code. */
  datatype Response = NotHttp(body: Payload) | Http(status: int, body: Payload)

  /** What `URLSession.data(for:)` gives back: a thrown transport error or a
      response with its body. */
  datatype Reply = TransportFailure | Received(response: Response)

  /** The reply the transport gives to the next request: the first one
      scripted; once the script is used up, the network fails. */
  function NextReply(script: seq<Reply>): Reply
  {
    if script == [] then TransportFailure else script[0]
  }

  function AfterReply(script: seq<Reply>): seq<Reply>
  {
    if script == [] then [] else script[1..]
  }

  /** One run of a pipeline stage against the transport: how it ended, the
      requests it sent, in order, and the replies still to come. */
  datatype Run<T> = Run(result: Result<T, Failure>, sent: seq<RequestValue>, rest: seq<Reply>)

  /** A run that failed with a status code sent at least one request, and the
      reply to the last request it sent carried that status, which is not 200. */
  predicate StatusFromLastReply<T>(run: Run<T>, script: seq<Reply>)
  {
    run.result.Failure? && run.result.error.Fetch? && run.result.error.fetch.StatusCode? ==>
      && 1 <= |run.sent| <= |script|
      && script[|run.sent| - 1].Received?
      && script[|run.sent| - 1].response.Http?
      && script[|run.sent| - 1].response.status == run.result.error.fetch.code != 200
  }

  /** A stage that runs after earlier requests consumed `n` replies keeps the
      property, counted from the start of the whole script. */
  lemma StatusAfterPrefix<T, U>(later: Run<T>, whole: Run<U>, script: seq<Reply>, n: nat)
    requires n <= |script|
    requires StatusFromLastReply(later, script[n..])
    requires whole.result.Failure? && later.result.Failure? && whole.result.error == later.result.error
    requires |whole.sent| == n + |later.sent|
    ensures StatusFromLastReply(whole, script)
  {
    if whole.result.error.Fetch? && whole.result.error.fetch.StatusCode? {
      assert script[n..][|later.sent| - 1] == script[|whole.sent| - 1];
    }
  }

  /** `URLSession.shared` */
  class Session {
    /** The replies the server will give, in order. */
    var script: seq<Reply>
    /** Every request executed so far, in order. */
    var sent: seq<RequestValue>

    constructor (script: seq<Reply>)
      ensures this.script == script && sent == []
    {
      this.script := script;
      sent := [];
    }

    /** `data(for:)` */
    method Data(request: Request) returns (reply: Reply)
      modifies this
      ensures sent == old(sent) + [request.Value()]
      ensures reply == NextReply(old(script)) && script == AfterReply(old(script))
    {
      sent := sent + [request.Value()];
      reply := NextReply(script);
      script := AfterReply(script);
    }
  }
}
