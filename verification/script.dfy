/** A calling script as a sequence of client operations against a remote
    service. Every failing reply raises and nothing in the client layer catches
    it, so the script stops at the first failure. */
module Script {
  import opened Wrappers
  import opened Http
  import opened Sessions
  import opened ApiAuth

  datatype Area = Publish | Acquisition | Provisioning | Samples

  datatype Op =
    | Connect
    | Disconnect
    | Call(area: Area, verb: Verb, url: string, json: Option<JsonObject>)

  /** The remote service. Its reply to the last request of a history may depend
      on every request sent before it. */
  type Server = seq<Request> -> Response

  datatype Trace = Trace(client: Client, sent: seq<Request>, error: Option<HttpError>)

  function SessionOf(c: Client, area: Area): Session {
    match area
    case Publish => c.publish
    case Acquisition => c.acquisition
    case Provisioning => c.provisioning
    case Samples => c.samples
  }

  /** The session an operation sends its request on. */
  function AreaOf(op: Op): Area {
    match op
    case Connect => Publish
    case Disconnect => Publish
    case Call(area, _, _, _) => area
  }

  /** The transport seen by the next request, given what was sent before. */
  function After(server: Server, history: seq<Request>): Transport {
    req => server(history + [req])
  }

  /** One operation on the client. */
  function Apply(c: Client, env: Env, op: Op, transport: Transport): (st: Step<Client>)
    ensures |st.sent| == 1
    ensures st.sent[0].url == SessionOf(c, AreaOf(op)).baseUrl + (if op.Call? then op.url else Aquarius.SessionPath)
    ensures st.sent[0].headers == SessionOf(c, AreaOf(op)).headers
    ensures st.error.None? <==> !IsError(transport(st.sent[0]))
    ensures st.error.Some? ==> st.error.value.response == transport(st.sent[0])
    ensures st.client.samples == c.samples
    ensures !op.Connect? ==> st.client == c
  {
    match op
    case Connect => ApiAuth.Connect(c, env, transport)
    case Disconnect => ApiAuth.Disconnect(c, transport)
    case Call(area, verb, url, json) =>
      var x := Sessions.Call(SessionOf(c, area), verb, url, json, transport);
      Step(c, [x.request], if x.result.Err? then Some(x.result.error) else None)
  }

  /** Runs `ops` in order after `history` has been sent, stopping at the first
      operation whose reply fails the gate. Each operation sends one request. */
  function Run(c: Client, env: Env, ops: seq<Op>, server: Server, history: seq<Request>): (t: Trace)
    ensures |t.sent| <= |ops|
    ensures t.error.None? ==> |t.sent| == |ops|
    ensures t.error.Some? ==> 0 < |t.sent| && t.error.value.response == server(history + t.sent) && IsError(server(history + t.sent))
    decreases |ops|
  {
    if ops == [] then
      Trace(c, [], None)
    else
      var st := Apply(c, env, ops[0], After(server, history));
      if st.error.Some? then
        Trace(st.client, st.sent, st.error)
      else
        var rest := Run(st.client, env, ops[1..], server, history + st.sent);
        assert history + st.sent + rest.sent == history + (st.sent + rest.sent);
        Trace(rest.client, st.sent + rest.sent, rest.error)
  }

  /** The reply to the i-th request of `sent`, given everything sent up to
      and including it. */
  function ReplyTo(server: Server, history: seq<Request>, sent: seq<Request>, i: nat): Response
    requires i < |sent|
  {
    server(history + sent[..i + 1])
  }

  /** Every reply to `sent` passed the gate except possibly the last, and the
      last failed exactly when `failed` holds. */
  predicate HaltsAtFirstFailure(server: Server, history: seq<Request>, sent: seq<Request>, failed: bool) {
    forall i :: 0 <= i < |sent| ==> (IsError(ReplyTo(server, history, sent, i)) <==> (failed && i == |sent| - 1))
  }

  /** A request whose reply passed, followed by a run that halts at its first failure. */
  lemma PrependPassing(server: Server, history: seq<Request>, req: Request, rest: seq<Request>, failed: bool)
    requires !IsError(server(history + [req]))
    requires failed ==> rest != []
    requires HaltsAtFirstFailure(server, history + [req], rest, failed)
    ensures HaltsAtFirstFailure(server, history, [req] + rest, failed)
  {
    var sent := [req] + rest;
    forall i | 0 <= i < |sent|
      ensures IsError(ReplyTo(server, history, sent, i)) <==> (failed && i == |sent| - 1)
    {
      if i == 0 {
        assert sent[..1] == [req];
      } else {
        assert sent[..i + 1] == [req] + rest[..i];
        assert history + ([req] + rest[..i]) == history + [req] + rest[..i];
        assert ReplyTo(server, history, sent, i) == ReplyTo(server, history + [req], rest, i - 1);
      }
    }
  }

  /** The run stops exactly at the first failing reply: every reply before the
      last one passed the gate, and the last one failed iff an error was raised. */
  lemma {:induction false} RunStopsAtFirstFailure(c: Client, env: Env, ops: seq<Op>, server: Server, history: seq<Request>)
    ensures var t := Run(c, env, ops, server, history);
            HaltsAtFirstFailure(server, history, t.sent, t.error.Some?)
    decreases |ops|
  {
    var t := Run(c, env, ops, server, history);
    if ops != [] {
      var st := Apply(c, env, ops[0], After(server, history));
      assert st.sent == [st.sent[0]];
      assert After(server, history)(st.sent[0]) == server(history + st.sent);
      if st.error.None? {
        var rest := Run(st.client, env, ops[1..], server, history + st.sent);
        RunStopsAtFirstFailure(st.client, env, ops[1..], server, history + st.sent);
        PrependPassing(server, history, st.sent[0], rest.sent, rest.error.Some?);
      } else {
        assert t.sent[..1] == st.sent;
      }
    }
  }

  /** However a run ends, the three AQUARIUS sessions still share one token
      state, and the samples session is the one the run started with. */
  lemma {:induction false} RunKeepsSessionsInStep(c: Client, env: Env, ops: seq<Op>, server: Server, history: seq<Request>)
    requires InStep(c)
    ensures InStep(Run(c, env, ops, server, history).client)
    ensures Run(c, env, ops, server, history).client.samples == c.samples
    decreases |ops|
  {
    if ops != [] {
      var st := Apply(c, env, ops[0], After(server, history));
      if st.error.None? {
        assert InStep(st.client);
        RunKeepsSessionsInStep(st.client, env, ops[1..], server, history + st.sent);
      }
    }
  }

  predicate NoConnect(ops: seq<Op>) {
    forall i :: 0 <= i < |ops| ==> !ops[i].Connect?
  }

  /** Every request of `sent` outside the samples area carries `token`; the
      i-th request was sent by the i-th operation. */
  predicate TokenOnRequests(ops: seq<Op>, sent: seq<Request>, token: string) {
    forall i :: 0 <= i < |sent| && i < |ops| && AreaOf(ops[i]) != Samples ==>
      TokenHeader in sent[i].headers && sent[i].headers[TokenHeader] == token
  }

  /** No request of `sent` in the samples area carries a token. */
  predicate NoTokenOnSamples(ops: seq<Op>, sent: seq<Request>) {
    forall i :: 0 <= i < |sent| && i < |ops| && AreaOf(ops[i]) == Samples ==> TokenHeader !in sent[i].headers
  }

  /** The token property carries over from the rest of a run to the run with
      its first operation and request in front. */
  lemma PrependTokenRequest(op: Op, ops: seq<Op>, req: Request, sent: seq<Request>, token: string)
    requires AreaOf(op) != Samples ==> TokenHeader in req.headers && req.headers[TokenHeader] == token
    requires TokenOnRequests(ops, sent, token)
    ensures TokenOnRequests([op] + ops, [req] + sent, token)
  {
    var ops', sent' := [op] + ops, [req] + sent;
    forall i | 1 <= i < |sent'| && i < |ops'|
      ensures sent'[i] == sent[i - 1] && ops'[i] == ops[i - 1]
    {
    }
  }

  /** Likewise for the absence of a token on samples requests. */
  lemma PrependSamplesRequest(op: Op, ops: seq<Op>, req: Request, sent: seq<Request>)
    requires AreaOf(op) == Samples ==> TokenHeader !in req.headers
    requires NoTokenOnSamples(ops, sent)
    ensures NoTokenOnSamples([op] + ops, [req] + sent)
  {
    var ops', sent' := [op] + ops, [req] + sent;
    forall i | 1 <= i < |sent'| && i < |ops'|
      ensures sent'[i] == sent[i - 1] && ops'[i] == ops[i - 1]
    {
    }
  }

  /** Once connected with `token`, and until the next connect, the client does
      not change and every request it sends outside the samples area carries
      `token`, disconnect's DELETE included. */
  lemma {:induction false} TokenOnEveryLaterRequest(c: Client, env: Env, ops: seq<Op>, server: Server, history: seq<Request>, token: string)
    requires Authenticated(c, token)
    requires NoConnect(ops)
    ensures var t := Run(c, env, ops, server, history);
            t.client == c && TokenOnRequests(ops, t.sent, token)
    decreases |ops|
  {
    var t := Run(c, env, ops, server, history);
    if ops != [] {
      var st := Apply(c, env, ops[0], After(server, history));
      assert st.sent == [st.sent[0]];
      assert ops == [ops[0]] + ops[1..];
      if st.error.None? {
        var rest := Run(c, env, ops[1..], server, history + st.sent);
        assert NoConnect(ops[1..]);
        TokenOnEveryLaterRequest(c, env, ops[1..], server, history + st.sent, token);
        assert t.sent == [st.sent[0]] + rest.sent;
        PrependTokenRequest(ops[0], ops[1..], st.sent[0], rest.sent, token);
      } else {
        PrependTokenRequest(ops[0], [], st.sent[0], [], token);
        assert [ops[0]] + [] == [ops[0]];
      }
    }
  }

  /** The samples session never carries a token: no operation writes one, so
      if it started without one, no samples request ever carries one. */
  lemma {:induction false} SamplesStayAnonymous(c: Client, env: Env, ops: seq<Op>, server: Server, history: seq<Request>)
    requires TokenOf(c.samples).None?
    ensures var t := Run(c, env, ops, server, history);
            NoTokenOnSamples(ops, t.sent)
    decreases |ops|
  {
    var t := Run(c, env, ops, server, history);
    if ops != [] {
      var st := Apply(c, env, ops[0], After(server, history));
      assert st.sent == [st.sent[0]];
      assert ops == [ops[0]] + ops[1..];
      if st.error.None? {
        var rest := Run(st.client, env, ops[1..], server, history + st.sent);
        SamplesStayAnonymous(st.client, env, ops[1..], server, history + st.sent);
        assert t.sent == [st.sent[0]] + rest.sent;
        PrependSamplesRequest(ops[0], ops[1..], st.sent[0], rest.sent);
      }
    }
  }

  /** The "test" target end to end. Construction sends nothing. Connect posts
      the credentials to the test host's publish root. If that login passes,
      disconnect sends one DELETE of the session path carrying the returned
      token, and the sessions keep that token. If it fails, the script stops
      there and no session has gained a header. */
  lemma TestTargetScenario(env: Env, server: Server)
    ensures var b := NewClient("test", After(server, []));
            && b.sent == []
            && b.result.Ok?
            && var t := Run(b.result.value, env, [Connect, Disconnect], server, []);
               var login := Request(Post, TestHost + Aquarius.PublishPath + Aquarius.SessionPath, map[], Some(LoginBody(env)));
               var token := server([login]).text;
               var logout := Request(Delete, TestHost + Aquarius.PublishPath + Aquarius.SessionPath, map[TokenHeader := token], None);
               && 0 < |t.sent|
               && t.sent[0] == login
               && (!IsError(server([login])) ==>
                     && t.sent == [login, logout]
                     && Authenticated(t.client, token)
                     && (t.error.None? <==> !IsError(server([login, logout]))))
               && (IsError(server([login])) ==>
                     && t.sent == [login]
                     && t.client == b.result.value
                     && t.error == Some(HttpError(server([login]))))
  {
    var b := NewClient("test", After(server, []));
    var c := b.result.value;
    var t := Run(c, env, [Connect, Disconnect], server, []);
    var st := Apply(c, env, Connect, After(server, []));
    assert [] + st.sent == st.sent;
    if st.error.None? {
      var c1 := st.client;
      assert [Connect, Disconnect][1..] == [Disconnect];
      var rest := Run(c1, env, [Disconnect], server, st.sent);
      var st2 := Apply(c1, env, Disconnect, After(server, st.sent));
      assert c1.publish.headers == c.publish.headers[TokenHeader := c1.publish.headers[TokenHeader]];
      var login := Request(Post, TestHost + Aquarius.PublishPath + Aquarius.SessionPath, map[], Some(LoginBody(env)));
      var logout := Request(Delete, TestHost + Aquarius.PublishPath + Aquarius.SessionPath, map[TokenHeader := server([login]).text], None);
      assert st.sent == [login] && st2.sent == [logout];
      assert [login] + [logout] == [login, logout];
      assert After(server, st.sent)(st2.sent[0]) == server([login] + [logout]);
      assert t.error == rest.error && rest.error == st2.error;
    }
  }

  /** A constructed client meets what the run lemmas start from: its three
      AQUARIUS sessions agree on the token and the samples session has none. */
  lemma NewClientStartsInStep(hostType: string, transport: Transport)
    ensures var b := NewClient(hostType, transport);
            b.result.Ok? ==> InStep(b.result.value) && TokenOf(b.result.value.samples).None?
  {
  }
}
