/** Requests, responses and the response gate. The HTTP library itself is
    abstract: a `Transport` answers one request with a status and a body. */
module Http {
  import opened Wrappers

  datatype Verb = Get | Post | Put | Delete

  /** A JSON value in a request body. The client only ever sends flat objects
      of strings; a credential that is not set serialises as `null`. */
  datatype Json = Str(s: string) | Null

  type JsonObject = map<string, Json>

  datatype Request = Request(verb: Verb, url: string, headers: map<string, string>, json: Option<JsonObject>)

  /** What the client reads of a reply: the status code and the body text. */
  datatype Response = Response(status: int, text: string)

  /** The error raised for a failing reply; it carries the whole reply. */
  datatype HttpError = HttpError(response: Response)

  /** The library's transport, answering one request. */
  type Transport = Request -> Response

  /** Replies with a status at or above this are failures. */
  const ErrorThreshold := 400

  predicate IsError(resp: Response) {
    resp.status >= ErrorThreshold
  }

  /** response_or_raise: a reply below 400 is handed back unchanged, a reply
      at 400 or above raises an error carrying that reply. */
  function ResponseOrRaise(resp: Response): (r: Result<Response, HttpError>)
    ensures r.Ok? <==> resp.status < 400
    ensures r.Ok? ==> r.value == resp
    ensures r.Err? ==> r.error.response == resp
  {
    if IsError(resp) then Err(HttpError(resp)) else Ok(resp)
  }

  /** The state a client object is left in by one of its operations, the
      requests the operation sent, and the error it raised, if any. */
  datatype Step<C> = Step(client: C, sent: seq<Request>, error: Option<HttpError>)

  /** The outcome of a constructor: the requests it sent, and either the new
      object or the error that aborted construction. */
  datatype Built<C, E> = Built(sent: seq<Request>, result: Result<C, E>)
}
