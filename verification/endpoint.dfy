/** The endpoint builder: joins a host and an API path into one URL,
    supplying the unencrypted scheme when the host names none. */
module Endpoint {

  /** The scheme written in front of a host that has none. */
  const DefaultScheme := "http://"

  /** The source's test for "already has a root": a literal prefix check for
      `http:` or `https:` (case-sensitive, and without requiring the `//`). */
  predicate HasScheme(host: string) {
    "http:" <= host || "https:" <= host
  }

  /** create_endpoint: every endpoint is scheme-qualified and ends with the path;
      a scheme-qualified host is kept verbatim, any other host gets `http://`. */
  function CreateEndpoint(host: string, path: string): (endpoint: string)
    ensures HasScheme(endpoint)
    ensures |path| <= |endpoint| && endpoint[|endpoint| - |path|..] == path
    ensures HasScheme(host) ==> endpoint == host + path
    ensures !HasScheme(host) ==> endpoint == DefaultScheme + host + path
  {
    if HasScheme(host) then
      host + path
    else
      assert "http:" <= DefaultScheme + host + path by {
        assert (DefaultScheme + host + path)[..5] == "http:";
      }
      DefaultScheme + host + path
  }

  /** Feeding an endpoint back in as a host never adds a second scheme: the
      result is the endpoint of the original host on the joined path. */
  lemma EndpointAsHost(host: string, path: string, more: string)
    ensures CreateEndpoint(CreateEndpoint(host, path), more) == CreateEndpoint(host, path + more)
  {
  }

  /** Appending to an endpoint is the endpoint of the appended path. */
  lemma EndpointExtends(host: string, path: string, more: string)
    ensures CreateEndpoint(host, path) + more == CreateEndpoint(host, path + more)
  {
    if HasScheme(host) {
      assert host + path + more == host + (path + more);
    } else {
      assert DefaultScheme + host + path + more == DefaultScheme + host + (path + more);
    }
  }

  /** A host without a scheme and the same host written with `http://` give the
      same endpoint: the builder cannot tell them apart. */
  lemma DefaultSchemeIsImplicit(host: string, path: string)
    requires !HasScheme(host)
    ensures CreateEndpoint(host, path) == CreateEndpoint(DefaultScheme + host, path)
  {
  }

  /** For one host, different paths give different endpoints. */
  lemma EndpointPathInjective(host: string, p: string, q: string)
    requires CreateEndpoint(host, p) == CreateEndpoint(host, q)
    ensures p == q
  {
  }
}
