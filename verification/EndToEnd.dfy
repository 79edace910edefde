/**
 From rules to a mounted file: the protocol's wanted text is the rendering of what the
 compiler produces, so the proxy that settles routes as its rules say.
 */
module EndToEnd {
  import opened Wrappers
  import opened Names
  import opened Rules
  import opened Pools
  import opened Routes
  import opened Meaning
  import opened SideTable
  import opened Json
  import opened Cluster
  import opened Sync
  import opened Convergence
  import opened Runs

  /** Rendering a JSON value to text loses nothing. */
  ghost predicate Faithful(render: Json -> string) {
    forall i, j :: render(i) == render(j) ==> i == j
  }

  /** The outcome of configMapForProxy for the given rules and backends. */
  function Rendered(sha: Sha1, render: Json -> string, b: Backends, r: Rule): Result<string, string> {
    match ConfigFor(sha, b, r)
    case None => Failure("failed to create mcrouter config")
    case Some(config) => Success(render(EncodeConfig(config)))
  }

  /** A JSON value under this text routes get, set and add as the rules say. */
  ghost predicate RoutesAs(sha: Sha1, b: Backends, r: Rule, j: Json) {
    && j.JObject? && "route" in j.fields && Decode(j.fields["route"]).Some?
    && forall op, c | op != Delete ::
      Reach(Decode(j.fields["route"]).value, DecodePools(j), op, c, []) == Denote(r, Lookup(b), c, [])
  }

  lemma RenderedRoutes(sha: Sha1, render: Json -> string, b: Backends, r: Rule, text: string, j: Json)
    requires Faithful(render) && NamesAgree(sha, b, Services(r))
    requires Rendered(sha, render, b, r) == Success(text) && render(j) == text
    ensures RoutesAs(sha, b, r, j)
  {
    var config := ConfigFor(sha, b, r).value;
    assert j == EncodeConfig(config);
    ConfigRoundTrip(sha, b, r);
    forall op, c | op != Delete ensures Reach(config.route, config.pools, op, c, []) == Denote(r, Lookup(b), c, []) {
      ConfigMeaning(sha, b, r, config, op, c);
    }
  }

  /**
   From every reachable state in which the proxy's rules, services and endpoints have come to
   rest, four rounds end with a Deployment that mounts a ConfigMap whose text, read back,
   routes get, set and add to exactly the servers the rules stand for.
   */
  lemma SettledRoutesAsRules(
    sha: Sha1, render: Json -> string, b: Backends, r: Rule, jsons: set<string>, p: Key, text: string,
    trace: seq<State>, n: nat)
    requires Faithful(render) && NamesAgree(sha, b, Services(r)) && Rendered(sha, render, b, r) == Success(text)
    requires Rounds(sha, p, trace) && ReachableAsking(sha, trace[0], jsons) && 4 <= n < |trace|
    requires Visible(trace[0], p) && GateOpen(trace[0], p) && trace[0].proxies[p].wanted == Rendered(sha, render, b, r)
    requires text in jsons && Distinguishes(sha, p, jsons)
    ensures
      var k := ConfigMapKey(sha, p, text);
      && p in trace[n].proxies && k in trace[n].configMaps
      && (exists d :: OwnedDeployments(trace[n], p) == {d} && Mounts(trace[n].deployments[d].template, k.name))
      && forall j :: render(j) == trace[n].configMaps[k].data ==> RoutesAs(sha, b, r, j)
  {
    ReachableConverges(sha, jsons, p, text, trace, n);
    forall j | render(j) == text ensures RoutesAs(sha, b, r, j) {
      RenderedRoutes(sha, render, b, r, text, j);
    }
  }
}
