/** mcrouter routes and the translation of rules to routes (internal/controller/proxyconfigmap/config.go). */
module Routes {
  import opened Wrappers
  import opened Names
  import opened Rules
  import opened Pools

  /** Either a route object or a shorthand string. */
  datatype StringOrRoute = StringOrRoute(route: Option<Route>, text: string)

  datatype Route = Route(
    kind: string, fallback: Option<StringOrRoute>, policies: Option<Policies>, children: seq<StringOrRoute>)

  datatype Policies = Policies(
    onAdd: Option<StringOrRoute>, onSet: Option<StringOrRoute>,
    onDelete: Option<StringOrRoute>, onGet: Option<StringOrRoute>)

  const SELECTOR := "OperationSelectorRoute"
  const ALL_SYNC := "AllSyncRoute"
  const LATEST := "LatestRoute"
  const HASH := "HashRoute"
  const POOL := "PoolRoute"

  function Text(text: string): StringOrRoute { StringOrRoute(None, text) }

  function Object(route: Route): StringOrRoute { StringOrRoute(Some(route), "") }

  function Group(kind: string, children: seq<StringOrRoute>): StringOrRoute {
    Object(Route(kind, None, None, children))
  }

  /** Everything to `all`, except deletes, which go to `latest`. */
  function Replicate(all: StringOrRoute, latest: StringOrRoute): StringOrRoute {
    Object(Route(SELECTOR, Some(all), Some(Policies(None, None, Some(latest), None)), []))
  }

  /** routeForRule, without its side table. */
  function Compile(sha: Sha1, r: Rule): Result<StringOrRoute, string>
    decreases r, 1
  {
    if r.kind == REPLICATED then
      if r.service.Some? then
        var pool := PoolName(sha, r.service.value);
        Success(Replicate(Text(ALL_SYNC + "|Pool|" + pool), Text(LATEST + "|Pool|" + pool)))
      else
        match CompileAll(sha, r.children)
        case Failure(e) => Failure(e)
        case Success(children) => Success(Replicate(Group(ALL_SYNC, children), Group(LATEST, children)))
    else if r.kind == SHARDED then
      if r.service.Some? then Success(Text(POOL + "|" + PoolName(sha, r.service.value)))
      else
        match CompileAll(sha, r.children)
        case Failure(e) => Failure(e)
        case Success(children) => Success(Group(HASH, children))
    else Failure("unknown rule type: " + r.kind)
  }

  /** The children in order, or the first error. */
  function CompileAll(sha: Sha1, rs: seq<Rule>): (r: Result<seq<StringOrRoute>, string>)
    ensures r.Success? ==> |r.value| == |rs|
    decreases rs, 0
  {
    if rs == [] then Success([])
    else
      match Compile(sha, rs[0])
      case Failure(e) => Failure(e)
      case Success(first) =>
        match CompileAll(sha, rs[1..])
        case Failure(e) => Failure(e)
        case Success(rest) => Success([first] + rest)
  }

  lemma {:induction false} CompileAllAt(sha: Sha1, rs: seq<Rule>, i: nat)
    requires CompileAll(sha, rs).Success? && i < |rs|
    ensures Compile(sha, rs[i]) == Success(CompileAll(sha, rs).value[i])
  {
    if i > 0 {
      CompileAllAt(sha, rs[1..], i - 1);
    }
  }

  /** A rule compiles if and only if every kind that is read is known. */
  lemma {:induction false} CompilesIffValid(sha: Sha1, r: Rule)
    ensures Compile(sha, r).Success? <==> Valid(r)
    decreases r, 1
  {
    CompileAllIffValid(sha, r.children);
  }

  /** In other words: if and only if every rule that is read is "replicated" or "sharded". */
  lemma CompilesIffAllRead(sha: Sha1, r: Rule)
    ensures Compile(sha, r).Success? <==> AllRead(r)
  {
    CompilesIffValid(sha, r);
    ValidMeans(r);
  }

  lemma {:induction false} CompileAllIffValid(sha: Sha1, rs: seq<Rule>)
    ensures CompileAll(sha, rs).Success? <==> forall i :: 0 <= i < |rs| ==> Valid(rs[i])
    decreases rs, 0
  {
    if rs != [] {
      CompilesIffValid(sha, rs[0]);
      CompileAllIffValid(sha, rs[1..]);
      assert forall i :: 1 <= i < |rs| ==> rs[i] == rs[1..][i - 1];
    }
  }

  // ---- The side table of services ----

  /** Services recorded by the traversal, which stops at the first rule that fails. */
  function Visits(r: Rule): seq<ServiceSpec>
    decreases r, 1
  {
    if !Known(r.kind) then []
    else if r.service.Some? then [r.service.value]
    else VisitsOf(r.children)
  }

  function VisitsOf(rs: seq<Rule>): seq<ServiceSpec>
    decreases rs, 0
  {
    if rs == [] then []
    else if Valid(rs[0]) then Visits(rs[0]) + VisitsOf(rs[1..])
    else Visits(rs[0])
  }

  /** Writing services into the table in order: the last one under a name stays. */
  function Record(sha: Sha1, table: map<string, ServiceSpec>, visits: seq<ServiceSpec>): map<string, ServiceSpec> {
    if visits == [] then table
    else
      var last := visits[|visits| - 1];
      Record(sha, table, visits[..|visits| - 1])[PoolName(sha, last) := last]
  }

  lemma {:induction false} RecordMore(sha: Sha1, table: map<string, ServiceSpec>, a: seq<ServiceSpec>, b: seq<ServiceSpec>)
    ensures Record(sha, Record(sha, table, a), b) == Record(sha, table, a + b)
    decreases |b|
  {
    if b == [] {
      assert a + b == a;
    } else {
      var front := b[..|b| - 1];
      RecordMore(sha, table, a, front);
      assert (a + b)[..|a + b| - 1] == a + front;
    }
  }

  lemma {:induction false} VisitsWhenValid(r: Rule)
    requires Valid(r)
    ensures Visits(r) == Services(r)
    decreases r, 1
  {
    if r.service.None? {
      VisitsOfWhenValid(r.children);
    }
  }

  lemma {:induction false} VisitsOfWhenValid(rs: seq<Rule>)
    requires forall i :: 0 <= i < |rs| ==> Valid(rs[i])
    ensures VisitsOf(rs) == ServicesOf(rs)
    decreases rs, 0
  {
    if rs != [] {
      VisitsWhenValid(rs[0]);
      VisitsOfWhenValid(rs[1..]);
    }
  }

  /** A translated prefix in front of what the rest translates to. */
  function Prefixed(done: seq<StringOrRoute>, rest: Result<seq<StringOrRoute>, string>): Result<seq<StringOrRoute>, string> {
    match rest
    case Failure(e) => Failure(e)
    case Success(more) => Success(done + more)
  }

  /** The children before `i` are translated, and their services recorded. */
  ghost predicate Translated(
    sha: Sha1, rs: seq<Rule>, i: nat, done: seq<StringOrRoute>,
    before: map<string, ServiceSpec>, table: map<string, ServiceSpec>)
    requires i <= |rs|
  {
    && CompileAll(sha, rs) == Prefixed(done, CompileAll(sha, rs[i..]))
    && Record(sha, table, VisitsOf(rs[i..])) == Record(sha, before, VisitsOf(rs))
  }

  lemma StartTranslation(sha: Sha1, rs: seq<Rule>, table: map<string, ServiceSpec>)
    ensures Translated(sha, rs, 0, [], table, table)
  {
    assert rs[0..] == rs;
    if CompileAll(sha, rs).Success? {
      assert [] + CompileAll(sha, rs).value == CompileAll(sha, rs).value;
    }
  }

  /** One more child: the loop goes on after a success and is done after a failure. */
  lemma NextChild(
    sha: Sha1, rs: seq<Rule>, i: nat, done: seq<StringOrRoute>,
    before: map<string, ServiceSpec>, table: map<string, ServiceSpec>)
    requires i < |rs| && Translated(sha, rs, i, done, before, table)
    ensures
      var after := Record(sha, table, Visits(rs[i]));
      match Compile(sha, rs[i])
      case Failure(e) => CompileAll(sha, rs) == Failure(e) && after == Record(sha, before, VisitsOf(rs))
      case Success(child) => Translated(sha, rs, i + 1, done + [child], before, after)
  {
    assert rs[i..][0] == rs[i] && rs[i..][1..] == rs[i + 1..];
    CompilesIffValid(sha, rs[i]);
    if Compile(sha, rs[i]).Success? {
      var child := Compile(sha, rs[i]).value;
      RecordMore(sha, table, Visits(rs[i]), VisitsOf(rs[i + 1..]));
      if CompileAll(sha, rs[i + 1..]).Success? {
        var rest := CompileAll(sha, rs[i + 1..]).value;
        assert done + ([child] + rest) == (done + [child]) + rest;
      }
    }
  }

  lemma EndTranslation(
    sha: Sha1, rs: seq<Rule>, done: seq<StringOrRoute>, before: map<string, ServiceSpec>, table: map<string, ServiceSpec>)
    requires Translated(sha, rs, |rs|, done, before, table)
    ensures CompileAll(sha, rs) == Success(done) && table == Record(sha, before, VisitsOf(rs))
  {
    assert rs[|rs|..] == [] && done + [] == done;
  }

  /** The recursive traversal with its shared, mutable table. */
  class RouteBuilder {
    const sha: Sha1
    var services: map<string, ServiceSpec>

    constructor (sha: Sha1)
      ensures this.sha == sha && services == map[]
    {
      this.sha := sha;
      services := map[];
    }

    method RouteForRule(r: Rule) returns (route: Result<StringOrRoute, string>)
      modifies this
      ensures route == Compile(sha, r)
      ensures services == Record(sha, old(services), Visits(r))
      decreases r, 1
    {
      if r.kind == REPLICATED {
        if r.service.Some? {
          var pool := ComputeName(sha, "", [r.service.value.name, r.service.value.ns, PortText(r.service.value.port)]);
          services := services[pool := r.service.value];
          return Success(Replicate(Text(ALL_SYNC + "|Pool|" + pool), Text(LATEST + "|Pool|" + pool)));
        }
        var children := RoutesForChildren(r.children);
        if children.Failure? {
          return Failure(children.error);
        }
        return Success(Replicate(Group(ALL_SYNC, children.value), Group(LATEST, children.value)));
      } else if r.kind == SHARDED {
        if r.service.Some? {
          var pool := ComputeName(sha, "", [r.service.value.name, r.service.value.ns, PortText(r.service.value.port)]);
          services := services[pool := r.service.value];
          return Success(Text(POOL + "|" + pool));
        }
        var children := RoutesForChildren(r.children);
        if children.Failure? {
          return Failure(children.error);
        }
        return Success(Group(HASH, children.value));
      }
      return Failure("unknown rule type: " + r.kind);
    }

    /** The loop over the children that both kinds of rule share. */
    method RoutesForChildren(rs: seq<Rule>) returns (routes: Result<seq<StringOrRoute>, string>)
      modifies this
      ensures routes == CompileAll(sha, rs)
      ensures services == Record(sha, old(services), VisitsOf(rs))
      decreases rs, 0
    {
      var children := [];
      StartTranslation(sha, rs, services);
      for i := 0 to |rs|
        invariant Translated(sha, rs, i, children, old(services), services)
      {
        NextChild(sha, rs, i, children, old(services), services);
        var child := RouteForRule(rs[i]);
        if child.Failure? {
          return Failure(child.error);
        }
        children := children + [child.value];
      }
      EndTranslation(sha, rs, children, old(services), services);
      return Success(children);
    }
  }

  // ---- Whole configurations ----

  datatype Config = Config(pools: map<string, seq<string>>, route: StringOrRoute)

  function Table(sha: Sha1, r: Rule): map<string, ServiceSpec> { Record(sha, map[], Visits(r)) }

  /** What configForProxy produces, as a function of the rules and the backends alone. */
  function ConfigFor(sha: Sha1, b: Backends, r: Rule): Option<Config> {
    var table := Table(sha, r);
    match Compile(sha, r)
    case Failure(_) => None
    case Success(route) =>
      if forall name :: name in table ==> Resolve(b, table[name]).Some?
      then Some(Config(map name | name in table :: Resolve(b, table[name]).value, route))
      else None
  }

  /**
   configForProxy.  Go ranges over the services map in an arbitrary order, given here by
   `order`; the outcome is the same for every order.
   */
  method ConfigForProxy(sha: Sha1, b: Backends, r: Rule, order: seq<string>) returns (config: Result<Config, string>)
    requires Enumerates(order, Table(sha, r).Keys)
    ensures config.Success? ==> ConfigFor(sha, b, r) == Some(config.value)
    ensures config.Failure? ==> ConfigFor(sha, b, r) == None
  {
    var builder := new RouteBuilder(sha);
    var route := builder.RouteForRule(r);
    if route.Failure? {
      return Failure(route.error);
    }
    var services := builder.services;
    var pools: map<string, seq<string>> := map[];
    for i := 0 to |order|
      invariant ResolvedSo(b, services, order[..i], pools)
    {
      assert order[..i + 1] == order[..i] + [order[i]];
      var pool := PoolForService(b, services[order[i]]);
      if pool.Failure? {
        return Failure(pool.error);
      }
      pools := pools[order[i] := pool.value];
    }
    assert order[..|order|] == order;
    AllResolved(b, services, order, pools);
    config := Success(Config(pools, route.value));
  }

  /** The pools of the services under the given names. */
  ghost predicate ResolvedSo(
    b: Backends, services: map<string, ServiceSpec>, names: seq<string>, pools: map<string, seq<string>>)
  {
    && (forall name :: name in pools <==> name in names)
    && (forall name :: name in pools ==> name in services && Resolve(b, services[name]) == Some(pools[name]))
  }

  lemma AllResolved(
    b: Backends, services: map<string, ServiceSpec>, names: seq<string>, pools: map<string, seq<string>>)
    requires ResolvedSo(b, services, names, pools) && Enumerates(names, services.Keys)
    ensures forall name :: name in services ==> Resolve(b, services[name]).Some?
    ensures pools == map name | name in services :: Resolve(b, services[name]).value
  {
    assert forall name :: name in services <==> name in pools;
    forall name | name in services ensures Resolve(b, services[name]) == Some(pools[name]) {
      assert name in pools;
    }
  }
}
