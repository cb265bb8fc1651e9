/** The client of utils/api_auth: the deployment target is chosen by name, a
    fourth session addresses the samples API, and connecting is left to the
    caller. Credentials come from the process environment and may be unset. */
module ApiAuth {
  import opened Wrappers
  import opened Http
  import opened Sessions
  import opened Aquarius
  import Endpoint

  const TestHost := "https://bcmoe-test.aquaticinformatics.net"
  const SamplesHost := "https://bcenv-training.aqsamples.com"

  /** The root of the samples session used for its login during construction. */
  const SamplesLoginPath := "/"
  /** The root of the samples session the finished client keeps. */
  const SamplesPath := "/api/v1"

  /** The module-level samples token, which is the empty string. */
  const SamplesToken := ""

  /** The `user` and `passwd` environment variables; `None` when unset. */
  datatype Env = Env(user: Option<string>, passwd: Option<string>)

  datatype ClientError =
    | UnboundHost(hostType: string)   // no branch assigned `host`: the constructor fails
    | Raised(error: HttpError)        // the samples login reply failed the gate

  datatype Client = Client(publish: Session, acquisition: Session, provisioning: Session, samples: Session)

  /** The three AQUARIUS sessions carry `token`. */
  predicate Authenticated(c: Client, token: string) {
    && TokenOf(c.publish) == Some(token)
    && TokenOf(c.acquisition) == Some(token)
    && TokenOf(c.provisioning) == Some(token)
  }

  /** The three AQUARIUS sessions agree on the token: all lack it, or all carry the same one. */
  predicate InStep(c: Client) {
    TokenOf(c.publish) == TokenOf(c.acquisition) == TokenOf(c.provisioning)
  }

  /** The host a deployment target names, if it names one. */
  function SelectHost(hostType: string): (host: Option<string>)
    ensures host.Some? <==> hostType in {"test", "prod", "samples"}
    ensures host.Some? ==> Endpoint.HasScheme(host.value)
    ensures hostType == "test" ==> host == Some(TestHost)
    ensures hostType == "prod" ==> host == Some(ProdHost)
    ensures hostType == "samples" ==> host == Some(SamplesHost)
  {
    assert "https:" <= TestHost && "https:" <= ProdHost && "https:" <= SamplesHost;
    if hostType == "test" then Some(TestHost)
    else if hostType == "prod" then Some(ProdHost)
    else if hostType == "samples" then Some(SamplesHost)
    else None
  }

  function EnvJson(v: Option<string>): Json {
    match v
    case Some(s) => Str(s)
    case None => Null
  }

  /** The JSON body of the login POST. */
  function LoginBody(env: Env): JsonObject {
    map["Username" := EnvJson(env.user), "EncryptedPassword" := EnvJson(env.passwd)]
  }

  /** The JSON body of the samples login POST. */
  function SamplesLoginBody(): JsonObject {
    map["Authorization" := Str(SamplesToken)]
  }

  /** The four sessions every successful construction ends with. */
  function Constructed(host: string): Client {
    Client(NewSession(host, PublishPath),
           NewSession(host, AcquisitionPath),
           NewSession(host, ProvisioningPath),
           NewSession(host, SamplesPath))
  }

  /** connect_samples: one POST of the samples token to the session path of the
      given samples session. The reply text is read and thrown away. */
  function ConnectSamples(samples: Session, transport: Transport): (x: Exchange)
    ensures x.request == Request(Post, samples.baseUrl + SessionPath, samples.headers, Some(SamplesLoginBody()))
    ensures x.result.Ok? <==> !IsError(transport(x.request))
    ensures x.result.Err? ==> x.result.error.response == transport(x.request)
  {
    Call(samples, Post, SessionPath, Some(SamplesLoginBody()), transport)
  }

  /** The constructor. "test" and "prod" send nothing. "samples" first logs in
      on a samples session rooted at "/", then replaces that session by one
      rooted at "/api/v1", so the login leaves no trace in the client. Any other
      name leaves the host unbound and fails before a request is sent. */
  function NewClient(hostType: string, transport: Transport): (b: Built<Client, ClientError>)
    ensures SelectHost(hostType).None? <==> b.result == Err(UnboundHost(hostType))
    ensures hostType != "samples" ==> b.sent == []
    ensures hostType in {"test", "prod"} ==> b.result.Ok?
    ensures b.result.Err? && b.result.error.Raised? ==>
              hostType == "samples" && |b.sent| == 1 && b.result.error.error.response == transport(b.sent[0])
    ensures hostType == "samples" ==>
              b.sent == [Request(Post, SamplesHost + SamplesLoginPath + SessionPath, map[], Some(SamplesLoginBody()))]
              && (b.result.Ok? <==> !IsError(transport(b.sent[0])))
              && (b.result.Err? ==> b.result.error == Raised(HttpError(transport(b.sent[0]))))
    ensures b.result.Ok? ==>
              var host := SelectHost(hostType).value;
              var c := b.result.value;
              && c.publish.baseUrl == host + PublishPath
              && c.acquisition.baseUrl == host + AcquisitionPath
              && c.provisioning.baseUrl == host + ProvisioningPath
              && c.samples.baseUrl == host + SamplesPath
              && c.publish.headers == c.acquisition.headers == c.provisioning.headers == c.samples.headers == map[]
  {
    match SelectHost(hostType)
    case None => Built([], Err(UnboundHost(hostType)))
    case Some(host) =>
      if hostType == "samples" then
        var login := ConnectSamples(NewSession(host, SamplesLoginPath), transport);
        match login.result
        case Err(e) => Built([login.request], Err(Raised(e)))
        case Ok(_) => Built([login.request], Ok(Constructed(host)))
      else
        Built([], Ok(Constructed(host)))
  }

  /** connect: one login POST on the publish session. When the gate passes the
      reply, its body becomes the token of publish, acquisition and
      provisioning; the samples session is never touched; when the gate
      raises, no session has changed. */
  function Connect(c: Client, env: Env, transport: Transport): (st: Step<Client>)
    ensures |st.sent| == 1
    ensures st.sent[0] == Request(Post, c.publish.baseUrl + SessionPath, c.publish.headers, Some(LoginBody(env)))
    ensures st.error.None? <==> !IsError(transport(st.sent[0]))
    ensures st.client.samples == c.samples
    ensures st.error.None? ==>
              && Authenticated(st.client, transport(st.sent[0]).text)
              && st.client.publish.baseUrl == c.publish.baseUrl
              && st.client.acquisition.baseUrl == c.acquisition.baseUrl
              && st.client.provisioning.baseUrl == c.provisioning.baseUrl
              && SameExceptToken(c.publish.headers, st.client.publish.headers)
              && SameExceptToken(c.acquisition.headers, st.client.acquisition.headers)
              && SameExceptToken(c.provisioning.headers, st.client.provisioning.headers)
    ensures st.error.Some? ==> st.client == c && st.error.value.response == transport(st.sent[0])
  {
    var login := Call(c.publish, Post, SessionPath, Some(LoginBody(env)), transport);
    match login.result
    case Err(e) => Step(c, [login.request], Some(e))
    case Ok(reply) =>
      var token := reply.text;
      var c' := c.(publish := SetToken(c.publish, token),
                   acquisition := SetToken(c.acquisition, token),
                   provisioning := SetToken(c.provisioning, token));
      Step(c', [login.request], None)
  }

  /** disconnect: one DELETE of the session path on the publish session only;
      no local header is cleared. */
  function Disconnect(c: Client, transport: Transport): (st: Step<Client>)
    ensures st.sent == [Request(Delete, c.publish.baseUrl + SessionPath, c.publish.headers, None)]
    ensures st.client == c
    ensures st.error.None? <==> !IsError(transport(st.sent[0]))
    ensures st.error.Some? ==> st.error.value.response == transport(st.sent[0])
  {
    var logout := Call(c.publish, Delete, SessionPath, None, transport);
    Step(c, [logout.request], if logout.result.Err? then Some(logout.result.error) else None)
  }

  /** Constructing for "samples" posts its login, whatever the transport, to
      the samples host followed by "//session": the "/" root and the "/session"
      path are joined without removing a slash. */
  lemma SamplesLoginUrl(transport: Transport)
    ensures var b := NewClient("samples", transport);
            |b.sent| == 1 && b.sent[0].url == "https://bcenv-training.aqsamples.com//session"
  {
  }

  /** The samples login leaves no trace in the client: any two constructions
      for "samples" that succeed, whatever the login replies were, build the
      same client. */
  lemma SamplesLoginLeavesNoTrace(first: Transport, second: Transport)
    ensures var b1 := NewClient("samples", first);
            var b2 := NewClient("samples", second);
            b1.result.Ok? && b2.result.Ok? ==> b1.result.value == b2.result.value
  {
  }
}
