/** aq_api_session: an HTTP session bound to one API root. Its base URL is fixed
    when it is built; its header map is merged into every request it sends. */
module Sessions {
  import opened Wrappers
  import opened Http
  import Endpoint

  /** The header that carries the authentication token. */
  const TokenHeader := "X-Authentication-Token"

  datatype Session = Session(baseUrl: string, headers: map<string, string>)

  /** One request and what the response gate made of its reply. */
  datatype Exchange = Exchange(request: Request, result: Result<Response, HttpError>)

  /** The session's current token, if it has one. */
  function TokenOf(s: Session): Option<string> {
    if TokenHeader in s.headers then Some(s.headers[TokenHeader]) else None
  }

  /** `a` and `b` hold the same headers apart from the token header. */
  ghost predicate SameExceptToken(a: map<string, string>, b: map<string, string>) {
    forall k :: k != TokenHeader ==> (k in a <==> k in b) && (k in a ==> a[k] == b[k])
  }

  /** A new session: bound to the endpoint of host and path, which always has a
      scheme, and not yet carrying a token. */
  function NewSession(host: string, path: string): (s: Session)
    ensures s.baseUrl == Endpoint.CreateEndpoint(host, path)
    ensures Endpoint.HasScheme(s.baseUrl)
    ensures TokenOf(s).None?
  {
    Session(Endpoint.CreateEndpoint(host, path), map[])
  }

  /** get/post/put/delete: the request goes to base_url + url with the
      session's headers, and the reply passes the response gate. */
  function Call(s: Session, verb: Verb, url: string, json: Option<JsonObject>, transport: Transport): (x: Exchange)
    ensures x.request.verb == verb && x.request.json == json
    ensures x.request.url == s.baseUrl + url
    ensures x.request.headers == s.headers
    ensures x.result.Ok? <==> !IsError(transport(x.request))
    ensures x.result.Ok? ==> x.result.value == transport(x.request)
    ensures x.result.Err? ==> x.result.error.response == transport(x.request)
  {
    var request := Request(verb, s.baseUrl + url, s.headers, json);
    Exchange(request, ResponseOrRaise(transport(request)))
  }

  /** set_token: the token header now holds `token`; the base URL and every
      other header are unchanged. */
  function SetToken(s: Session, token: string): (s': Session)
    ensures s'.baseUrl == s.baseUrl
    ensures TokenOf(s') == Some(token)
    ensures SameExceptToken(s.headers, s'.headers)
  {
    Session(s.baseUrl, s.headers[TokenHeader := token])
  }

  /** A second set_token wins over the first. */
  lemma SetTokenLastWriteWins(s: Session, first: string, second: string)
    ensures SetToken(SetToken(s, first), second) == SetToken(s, second)
  {
  }

  /** Every verb of a session built from host and path targets the endpoint
      of host and `path + url`. */
  lemma CallTargetsEndpoint(host: string, path: string, verb: Verb, url: string, json: Option<JsonObject>, transport: Transport)
    ensures Call(NewSession(host, path), verb, url, json, transport).request.url
         == Endpoint.CreateEndpoint(host, path + url)
  {
  }

  /** Once set, the token is sent with every later request of the session. */
  lemma CallCarriesToken(s: Session, token: string, verb: Verb, url: string, json: Option<JsonObject>, transport: Transport)
    ensures var h := Call(SetToken(s, token), verb, url, json, transport).request.headers;
            TokenHeader in h && h[TokenHeader] == token
  {
  }
}
