/** The snow-survey client of asws_dashboard/snowlib: three sessions on the
    production host, logged in as part of construction. */
module Snowlib {
  import opened Wrappers
  import opened Http
  import opened Sessions
  import opened Aquarius

  /** What login_from_json reads from the credentials file. */
  datatype Credentials = Credentials(username: string, password: string)

  datatype Client = Client(publish: Session, acquisition: Session, provisioning: Session)

  /** All three sessions carry `token`. */
  predicate Authenticated(c: Client, token: string) {
    && TokenOf(c.publish) == Some(token)
    && TokenOf(c.acquisition) == Some(token)
    && TokenOf(c.provisioning) == Some(token)
  }

  /** `c'` differs from `c` at most in the token header of each session. */
  ghost predicate OnlyTokensDiffer(c: Client, c': Client) {
    && c'.publish.baseUrl == c.publish.baseUrl
    && c'.acquisition.baseUrl == c.acquisition.baseUrl
    && c'.provisioning.baseUrl == c.provisioning.baseUrl
    && SameExceptToken(c.publish.headers, c'.publish.headers)
    && SameExceptToken(c.acquisition.headers, c'.acquisition.headers)
    && SameExceptToken(c.provisioning.headers, c'.provisioning.headers)
  }

  /** The JSON body of the login POST. */
  function LoginBody(creds: Credentials): JsonObject {
    map["Username" := Str(creds.username), "EncryptedPassword" := Str(creds.password)]
  }

  /** The sessions as the constructor creates them, before it connects. */
  function Unconnected(): Client {
    Client(NewSession(ProdHost, PublishPath),
           NewSession(ProdHost, AcquisitionPath),
           NewSession(ProdHost, ProvisioningPath))
  }

  /** connect: one login POST on the publish session. When the gate passes the
      reply, its body becomes the token of all three sessions; when it raises,
      no header has been touched. */
  function Connect(c: Client, creds: Credentials, transport: Transport): (st: Step<Client>)
    ensures |st.sent| == 1
    ensures st.sent[0] == Request(Post, c.publish.baseUrl + SessionPath, c.publish.headers, Some(LoginBody(creds)))
    ensures st.error.None? <==> !IsError(transport(st.sent[0]))
    ensures st.error.None? ==> Authenticated(st.client, transport(st.sent[0]).text) && OnlyTokensDiffer(c, st.client)
    ensures st.error.Some? ==> st.client == c && st.error.value.response == transport(st.sent[0])
  {
    var login := Call(c.publish, Post, SessionPath, Some(LoginBody(creds)), transport);
    match login.result
    case Err(e) => Step(c, [login.request], Some(e))
    case Ok(reply) =>
      var token := reply.text;
      var c' := Client(SetToken(c.publish, token), SetToken(c.acquisition, token), SetToken(c.provisioning, token));
      Step(c', [login.request], None)
  }

  /** disconnect: one DELETE of the session path on the publish session; the
      local headers, token included, are left as they were. */
  function Disconnect(c: Client, transport: Transport): (st: Step<Client>)
    ensures st.sent == [Request(Delete, c.publish.baseUrl + SessionPath, c.publish.headers, None)]
    ensures st.client == c
    ensures st.error.None? <==> !IsError(transport(st.sent[0]))
    ensures st.error.Some? ==> st.error.value.response == transport(st.sent[0])
  {
    var logout := Call(c.publish, Delete, SessionPath, None, transport);
    Step(c, [logout.request], if logout.result.Err? then Some(logout.result.error) else None)
  }

  /** The constructor: three sessions on the production host, then connect.
      A failing login aborts construction. */
  function NewClient(creds: Credentials, transport: Transport): (b: Built<Client, HttpError>)
    ensures b.sent == [Request(Post, ProdHost + PublishPath + SessionPath, map[], Some(LoginBody(creds)))]
    ensures b.result.Ok? <==> !IsError(transport(b.sent[0]))
    ensures b.result.Err? ==> b.result.error.response == transport(b.sent[0])
    ensures b.result.Ok? ==>
              && b.result.value.publish.baseUrl == ProdHost + PublishPath
              && b.result.value.acquisition.baseUrl == ProdHost + AcquisitionPath
              && b.result.value.provisioning.baseUrl == ProdHost + ProvisioningPath
              && b.result.value.publish.headers == map[TokenHeader := transport(b.sent[0]).text]
              && Authenticated(b.result.value, transport(b.sent[0]).text)
  {
    assert Endpoint.HasScheme(ProdHost) by { assert "https:" <= ProdHost; }
    var st := Connect(Unconnected(), creds, transport);
    Built(st.sent, if st.error.None? then Ok(st.client) else Err(st.error.value))
  }

  /** Connecting again re-runs the login: whatever the first connect did, a
      second one that passes leaves its own token in all three sessions, on
      the base URLs the client started with. */
  lemma ReconnectReplacesToken(c: Client, creds: Credentials, first: Transport, second: Transport)
    ensures var c1 := Connect(c, creds, first).client;
            var st := Connect(c1, creds, second);
            st.error.None? ==>
              && Authenticated(st.client, second(st.sent[0]).text)
              && st.client.publish.baseUrl == c.publish.baseUrl
              && st.client.acquisition.baseUrl == c.acquisition.baseUrl
              && st.client.provisioning.baseUrl == c.provisioning.baseUrl
  {
  }

  /** After disconnect the sessions still hold the token of the last login:
      the server-side session is deleted, the local copy is not. */
  lemma DisconnectKeepsStaleToken(c: Client, token: string, transport: Transport)
    requires Authenticated(c, token)
    ensures Authenticated(Disconnect(c, transport).client, token)
  {
  }

  /** The three sessions agree on the token: all lack it, or all carry the same one. */
  predicate InStep(c: Client) {
    TokenOf(c.publish) == TokenOf(c.acquisition) == TokenOf(c.provisioning)
  }

  /** The snow-survey client's lifecycle keeps its sessions in step: a
      constructed client shares one token, and connect and disconnect, passing
      or failing, preserve that from any state where the sessions agree. */
  lemma LifecycleKeepsSessionsInStep(c: Client, creds: Credentials, transport: Transport)
    ensures NewClient(creds, transport).result.Ok? ==> InStep(NewClient(creds, transport).result.value)
    ensures InStep(Unconnected())
    ensures InStep(c) ==> InStep(Connect(c, creds, transport).client)
    ensures InStep(c) ==> InStep(Disconnect(c, transport).client)
  {
  }

  /** A sequence of connects (true) and disconnects (false) on the client,
      stopping at the first call that raises, as an uncaught error stops the
      calling script. From agreeing sessions the result agrees, and no call
      moves a base URL. */
  function Lifecycle(c: Client, creds: Credentials, connects: seq<bool>, transport: Transport): (c': Client)
    ensures InStep(c) ==> InStep(c')
    ensures c'.publish.baseUrl == c.publish.baseUrl
    ensures c'.acquisition.baseUrl == c.acquisition.baseUrl
    ensures c'.provisioning.baseUrl == c.provisioning.baseUrl
    decreases |connects|
  {
    if connects == [] then c
    else
      var st := if connects[0] then Connect(c, creds, transport) else Disconnect(c, transport);
      if st.error.Some? then st.client
      else Lifecycle(st.client, creds, connects[1..], transport)
  }
}
