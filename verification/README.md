# Authenticated AQUARIUS session layer, modelled in Dafny

The repository drives a vendor hydrometric data service (AQUARIUS) through a
small REST wrapper. The wrapper appears twice, with small differences: once
in the snow-survey library and once in the utilities. This project models it:

- **Endpoint builder** (`create_endpoint`, module `Endpoint`). It joins a host
  and an API path. It writes `http://` in front of a host that does not start
  with `http:` or `https:`.
- **Response gate** (`response_or_raise`, module `Http`). A reply with status
  400 or above raises an error carrying the reply. Any other reply is handed
  back unchanged.
- **Session** (`aq_api_session`, module `Sessions`). A base URL fixed at
  construction and a header map. `get`/`post`/`put`/`delete` send to
  `base_url + url` with the session's headers, then apply the gate.
  `set_token` writes the `X-Authentication-Token` header.
- **Snow-survey client** (`aq_api_client` in the snowlib module, module
  `Snowlib`). It has three sessions on the production host and logs in while
  it is being constructed.
- **Utilities client** (`aq_api_client` in `utils/api_auth.py`, module
  `ApiAuth`). The host is chosen by target name: `test`, `prod` or `samples`.
  It has a fourth session for the samples API, and `samples` logs in to the
  samples API during construction.
- **Calling scripts** (module `Script`). A script is a sequence of client
  operations against a server. Every failing reply raises and nothing catches
  it, so the script stops at the first failure.

HTTP is an abstract oracle. A single operation gets a `Transport`, a function
from request to reply (status and body text). A script run gets a `Server`,
whose reply may depend on every request sent so far. Every operation is a
pure function. It returns the client's new state, the requests it sent, and
the error it raised, if any. A constructor returns the requests it sent and
either the new client or the error that aborted construction.

Notes on the code's behaviour:

- The scheme test is a case-sensitive check for the prefix `http:` or
  `https:` (asws_dashboard/snowlib/snowlib.py:48). So `http:x` is kept
  verbatim, and `HTTP://x` becomes `http://HTTP://x`.
- An unknown target name makes the constructor fail before any request is
  sent, because `host` is never assigned (utils/api_auth.py:108). This is
  `ClientError.UnboundHost`.
- The `samples` target posts its login to the host followed by `//session`,
  because the `/` root and the `/session` path are joined as they are. The
  reply text is thrown away. The `/` session is then replaced by one rooted
  at `/api/v1`, so the samples session never carries a token.
- Disconnect leaves the local token in place (a stale token after logout).
  The model keeps this behaviour.

## Model

| member | source | states |
|---|---|---|
| Endpoint.CreateEndpoint | asws_dashboard/snowlib/snowlib.py:43-52 | the endpoint always starts with a scheme and ends with the path; a host starting with `http:` or `https:` is kept verbatim (exactly host+path), any other host becomes exactly `http://`+host+path |
| Endpoint.EndpointAsHost | asws_dashboard/snowlib/snowlib.py:48-51 | an endpoint used again as a host gets no second scheme: the result is the original host's endpoint on the joined path |
| Endpoint.EndpointExtends | asws_dashboard/snowlib/snowlib.py:47-52 | appending a relative URL to an endpoint gives the endpoint of the joined path |
| Endpoint.DefaultSchemeIsImplicit | utils/api_auth.py:28-31 | a host without a scheme and the same host with `http://` written out give the same endpoint |
| Endpoint.EndpointPathInjective | utils/api_auth.py:23-32 | for one host, different paths give different endpoints |
| Http.ResponseOrRaise | asws_dashboard/snowlib/snowlib.py:55-63 | a reply passes, unchanged, if and only if its status is below 400; otherwise the error carries that reply |
| Sessions.NewSession | asws_dashboard/snowlib/snowlib.py:73-75 | the base URL is the endpoint of host and path, always has a scheme, and a new session has no token |
| Sessions.Call | asws_dashboard/snowlib/snowlib.py:77-103 | each verb sends exactly one request to base_url + url, with the session's headers and the given body; the call returns the reply unchanged if and only if it passes the gate, otherwise it raises with that reply |
| Sessions.SetToken | asws_dashboard/snowlib/snowlib.py:105-109 | after set_token(t) the token header is t; the base URL and every other header are unchanged, and no other header is added or removed |
| Sessions.SetTokenLastWriteWins | utils/api_auth.py:85-89 | a second set_token wins: two calls equal one call with the second token |
| Sessions.CallTargetsEndpoint | asws_dashboard/snowlib/snowlib.py:73-103 | every verb of a session built from host and path targets the endpoint of host and path+url |
| Sessions.CallCarriesToken | asws_dashboard/snowlib/snowlib.py:105-109 | after set_token(t), every later request of the session carries t in the token header |
| Snowlib.Connect | asws_dashboard/snowlib/snowlib.py:128-141 | one login POST of the credentials to publish's `/session`; if it passes, all three sessions carry the reply body as their token, and nothing else changes except the token header; if it fails, the error carries the reply and the client is unchanged |
| Snowlib.Disconnect | asws_dashboard/snowlib/snowlib.py:143-147 | exactly one DELETE of `/session`, on the publish session, with its headers; the client, local token included, is unchanged; it raises if and only if the reply fails the gate, and the error carries that reply |
| Snowlib.NewClient | asws_dashboard/snowlib/snowlib.py:117-126 | construction sends exactly the login POST to the production publish root with no headers; it succeeds if and only if the login passes, and then the three base URLs are the production host plus their API roots and all carry the token |
| Snowlib.ReconnectReplacesToken | asws_dashboard/snowlib/snowlib.py:128-141 | whatever the first connect did, a second connect that passes leaves its own token in all three sessions, on the base URLs the client started with |
| Snowlib.DisconnectKeepsStaleToken | asws_dashboard/snowlib/snowlib.py:143-147 | after disconnect the sessions still carry the token of the last login |
| Snowlib.LifecycleKeepsSessionsInStep | asws_dashboard/snowlib/snowlib.py:117-147 | the three sessions agree on the token (all absent or all the same): before connecting, after a successful construction, and after any connect or disconnect, passing or failing, from agreeing sessions |
| Snowlib.Lifecycle | asws_dashboard/snowlib/snowlib.py:128-147 | any sequence of connects and disconnects, stopped at the first raise, keeps agreeing sessions in agreement and never moves a base URL |
| ApiAuth.SelectHost | utils/api_auth.py:100-108 | `test`, `prod` and `samples` select their fixed hosts, each starting with `https:`; every other name selects no host |
| ApiAuth.ConnectSamples | utils/api_auth.py:113-114 | one POST of `{Authorization: ""}` to the samples session's `/session`, with its headers; it raises if and only if the reply fails the gate, and the error carries that reply |
| ApiAuth.NewClient | utils/api_auth.py:96-111 | construction fails with an unbound host if and only if the name is unknown, and then sends nothing; `test`/`prod` send nothing and always succeed; a raised error only comes from the `samples` login, and a failing `samples` login always raises exactly that reply; `samples` sends only the samples login to host+`//session`, and fails if and only if that reply fails; a built client has base URLs host+root for all four sessions, samples on `/api/v1`, and no headers |
| ApiAuth.Connect | utils/api_auth.py:116-127 | one login POST of the environment credentials (null when unset) on publish; on success publish, acquisition and provisioning carry the reply body, other headers and base URLs are unchanged; samples is never touched; on failure no session changes |
| ApiAuth.Disconnect | utils/api_auth.py:129-133 | exactly one DELETE of `/session` on publish only; no session changes |
| ApiAuth.SamplesLoginUrl | utils/api_auth.py:104-114 | for every transport, constructing for `samples` sends exactly one request, whose URL is the samples host followed by `//session` |
| ApiAuth.SamplesLoginLeavesNoTrace | utils/api_auth.py:104-111 | any two successful `samples` constructions build the same client, whatever their login replies were |
| Script.NewClientStartsInStep | utils/api_auth.py:100-111 | a constructed client's three AQUARIUS sessions agree on the token and its samples session has none, which is what the run lemmas start from |
| Script.Apply | utils/api_auth.py:57-133 | any client operation sends exactly one request, to the chosen session's base URL with that session's headers; it raises if and only if the reply fails the gate; only connect changes the client, and nothing changes the samples session |
| Script.Run | utils/DeleteAQTSReports.py:19-55 | a script of n operations sends at most n requests; it sends all n if no error was raised; an error is raised only for the reply to the last request sent, and that reply failed the gate |
| Script.RunStopsAtFirstFailure | utils/api_auth.py:35-43 | every reply in a run passed the gate except possibly the last one, and the last one failed if and only if the run raised |
| Script.RunKeepsSessionsInStep | utils/api_auth.py:116-127 | however a run ends, publish, acquisition and provisioning share one token state (all absent or all the same token), and the samples session is the one the run started with |
| Script.TokenOnEveryLaterRequest | utils/api_auth.py:85-89 | after a connect with token t and until the next connect, the client does not change, and every request outside the samples area (logout included) carries t |
| Script.SamplesStayAnonymous | utils/api_auth.py:104-127 | a samples session that starts without a token never sends one |
| Script.TestTargetScenario | utils/api_auth.py:100-133 | `test` target, connect then disconnect: construction sends nothing; the login goes to the test publish root; if it passes, logout is one DELETE carrying the returned token, and the sessions keep it; if it fails, the run stops with that reply and no header was added |

`create_endpoint`, `response_or_raise` and `aq_api_session` are identical in
both source files (asws_dashboard/snowlib/snowlib.py:43-109 and
utils/api_auth.py:23-89). They are defined once, and the rows above cite
whichever copy the property is stated from.

## Left out

- HTTP transport and `requests.Session` internals: a reply is an abstract
  oracle's (status, body text). Request keyword arguments other than the
  JSON body are not modelled.
- The library's default session headers (User-Agent, Accept, ...): a new
  session starts with an empty header map. None of them is the token header.
- Sessions.SetToken: header names are compared exactly, as a plain map. The
  library's session headers are case-insensitive, so a header such as
  `x-authentication-token` already present would be replaced by set_token
  there but kept beside the new one here. No operation of the client writes
  such a header. The library's refusal to send a header value containing a
  line break or leading whitespace is not modelled either: such a token is
  sent as it is.
- Http.ResponseOrRaise: every status at or above 400 is an error. What the
  library's `raise_for_status` does for unusual codes (600 and above) is not
  modelled.
- Credential loading: `login_from_json` reads a fixed file and ignores its
  argument, and the utilities read `user`/`passwd` from the environment when
  the module loads. Both are I/O. Credentials are parameters (`Credentials`,
  and `Env` with unset values).
- Reading the reply as JSON (`.json()`) and the dataframe filtering and
  deletion loop of the report-deletion script: glue over the client. Only
  its sequence of client calls is modelled, by `Script.Run`.
- The Dash/Plotly dashboard layout: no logic to state.
- Thread safety of the header map: the code is single-threaded.
- Exceptions other than a failing reply (connection errors, timeouts) come
  from the transport and are not modelled.
