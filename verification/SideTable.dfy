/**
 The strings of a compiled route and the table of services behind them: which pools a route
 names, which service stands behind each name, and when every service gets its own pool.
 */
module SideTable {
  import opened Wrappers
  import opened Names
  import opened Rules
  import opened Pools
  import opened Routes
  import opened Meaning

  // ---- All shorthand strings of the fully expanded route ----

  function Strings(r: StringOrRoute): seq<string>
    decreases r
  {
    if r.text != "" then [r.text]
    else
      match r.route
      case None => []
      case Some(route) =>
        OptStrings(route.fallback)
        + (match route.policies
           case None => []
           case Some(p) => OptStrings(p.onAdd) + OptStrings(p.onSet) + OptStrings(p.onDelete) + OptStrings(p.onGet))
        + StringsOf(route.children)
  }

  function OptStrings(r: Option<StringOrRoute>): seq<string>
    decreases r
  {
    match r case None => [] case Some(s) => Strings(s)
  }

  function StringsOf(rs: seq<StringOrRoute>): seq<string>
    decreases rs
  {
    if rs == [] then [] else Strings(rs[0]) + StringsOf(rs[1..])
  }

  lemma StringsOfReplicate(all: StringOrRoute, latest: StringOrRoute)
    ensures Strings(Replicate(all, latest)) == Strings(all) + Strings(latest)
  {
  }

  lemma StringsOfGroup(kind: string, children: seq<StringOrRoute>)
    ensures Strings(Group(kind, children)) == StringsOf(children)
  {
  }

  /** The strings of a compiled inner rule: its children's, twice over when replicated. */
  lemma StringsOfInner(sha: Sha1, r: Rule)
    requires Known(r.kind) && r.service.None? && CompileAll(sha, r.children).Success?
    ensures
      var below := StringsOf(CompileAll(sha, r.children).value);
      Strings(Compile(sha, r).value) == if r.kind == REPLICATED then below + below else below
  {
    var children := CompileAll(sha, r.children).value;
    StringsOfGroup(ALL_SYNC, children);
    StringsOfGroup(LATEST, children);
    StringsOfGroup(HASH, children);
    StringsOfReplicate(Group(ALL_SYNC, children), Group(LATEST, children));
  }

  lemma StringsOfLeaf(sha: Sha1, r: Rule)
    requires Known(r.kind) && r.service.Some?
    ensures
      var pool := PoolName(sha, r.service.value);
      Strings(Compile(sha, r).value) ==
        if r.kind == REPLICATED then [ALL_SYNC + "|Pool|" + pool, LATEST + "|Pool|" + pool] else [POOL + "|" + pool]
  {
    var pool := PoolName(sha, r.service.value);
    if r.kind == REPLICATED {
      StringsOfReplicate(Text(ALL_SYNC + "|Pool|" + pool), Text(LATEST + "|Pool|" + pool));
    }
  }

  // ---- Which pools a route names ----

  predicate Mentions(s: string, pool: string) { Parse(s).Some? && Parse(s).value.pool == pool }

  /** `pool` occurs somewhere in the strings. */
  predicate NamedIn(strings: seq<string>, pool: string) {
    exists i :: 0 <= i < |strings| && Mentions(strings[i], pool)
  }

  predicate NamedBy(sha: Sha1, services: seq<ServiceSpec>, pool: string) {
    exists i :: 0 <= i < |services| && PoolName(sha, services[i]) == pool
  }

  lemma NamedInMore(a: seq<string>, b: seq<string>, pool: string)
    ensures NamedIn(a + b, pool) <==> NamedIn(a, pool) || NamedIn(b, pool)
  {
    if NamedIn(a, pool) {
      var i :| 0 <= i < |a| && Mentions(a[i], pool);
      assert Mentions((a + b)[i], pool);
    }
    if NamedIn(b, pool) {
      var i :| 0 <= i < |b| && Mentions(b[i], pool);
      assert Mentions((a + b)[|a| + i], pool);
    }
  }

  lemma NamedByMore(sha: Sha1, a: seq<ServiceSpec>, b: seq<ServiceSpec>, pool: string)
    ensures NamedBy(sha, a + b, pool) <==> NamedBy(sha, a, pool) || NamedBy(sha, b, pool)
  {
    if NamedBy(sha, a, pool) {
      var i :| 0 <= i < |a| && PoolName(sha, a[i]) == pool;
      assert PoolName(sha, (a + b)[i]) == pool;
    }
    if NamedBy(sha, b, pool) {
      var i :| 0 <= i < |b| && PoolName(sha, b[i]) == pool;
      assert PoolName(sha, (a + b)[|a| + i]) == pool;
    }
  }

  lemma NamedByLeaf(sha: Sha1, r: Rule, pool: string)
    requires Known(r.kind) && r.service.Some?
    ensures NamedIn(Strings(Compile(sha, r).value), pool) <==> NamedBy(sha, Services(r), pool)
  {
    StringsOfLeaf(sha, r);
    CompiledStrings(sha, r.service.value);
    var strings := Strings(Compile(sha, r).value);
    assert forall i :: 0 <= i < |strings| ==>
      (Mentions(strings[i], pool) <==> PoolName(sha, r.service.value) == pool);
    if PoolName(sha, r.service.value) == pool {
      assert Mentions(strings[0], pool);
      assert PoolName(sha, Services(r)[0]) == pool;
    }
  }

  /** A compiled route names a pool exactly if a reachable service has that pool name. */
  lemma {:induction false} RouteNames(sha: Sha1, r: Rule, pool: string)
    requires Valid(r)
    ensures Compile(sha, r).Success?
    ensures NamedIn(Strings(Compile(sha, r).value), pool) <==> NamedBy(sha, Services(r), pool)
    decreases r, 1
  {
    CompilesIffValid(sha, r);
    if r.service.Some? {
      NamedByLeaf(sha, r, pool);
    } else {
      RoutesName(sha, r.children, pool);
      StringsOfInner(sha, r);
      var below := StringsOf(CompileAll(sha, r.children).value);
      NamedInMore(below, below, pool);
    }
  }

  lemma {:induction false} RoutesName(sha: Sha1, rs: seq<Rule>, pool: string)
    requires forall i :: 0 <= i < |rs| ==> Valid(rs[i])
    ensures CompileAll(sha, rs).Success?
    ensures NamedIn(StringsOf(CompileAll(sha, rs).value), pool) <==> NamedBy(sha, ServicesOf(rs), pool)
    decreases rs, 0
  {
    if rs != [] {
      RouteNames(sha, rs[0], pool);
      RoutesName(sha, rs[1..], pool);
      var children := CompileAll(sha, rs).value;
      assert children[1..] == CompileAll(sha, rs[1..]).value;
      NamedInMore(Strings(children[0]), StringsOf(children[1..]), pool);
      NamedByMore(sha, Services(rs[0]), ServicesOf(rs[1..]), pool);
    }
  }

  // ---- What the table holds ----

  /** `s` is the last of `services` under its own pool name. */
  predicate LastUnder(sha: Sha1, services: seq<ServiceSpec>, pool: string, s: ServiceSpec) {
    exists i | 0 <= i < |services| ::
      && services[i] == s && PoolName(sha, services[i]) == pool
      && forall j :: i < j < |services| ==> PoolName(sha, services[j]) != pool
  }

  lemma LastStays(sha: Sha1, services: seq<ServiceSpec>, more: ServiceSpec, pool: string, s: ServiceSpec)
    requires LastUnder(sha, services, pool, s) && PoolName(sha, more) != pool
    ensures LastUnder(sha, services + [more], pool, s)
  {
    var i :| 0 <= i < |services| && services[i] == s && PoolName(sha, services[i]) == pool
      && forall j :: i < j < |services| ==> PoolName(sha, services[j]) != pool;
    var all := services + [more];
    assert all[i] == s && forall j :: i < j < |all| ==> PoolName(sha, all[j]) != pool;
  }

  lemma NewIsLast(sha: Sha1, services: seq<ServiceSpec>, s: ServiceSpec)
    ensures LastUnder(sha, services + [s], PoolName(sha, s), s)
  {
    assert (services + [s])[|services|] == s;
  }

  /** Recording services changes exactly the names they have, each to the last service under it. */
  lemma {:induction false} RecordHolds(sha: Sha1, table: map<string, ServiceSpec>, visits: seq<ServiceSpec>, pool: string)
    ensures
      var after := Record(sha, table, visits);
      if NamedBy(sha, visits, pool)
      then pool in after && LastUnder(sha, visits, pool, after[pool])
      else (pool in after <==> pool in table) && (pool in table ==> after[pool] == table[pool])
    decreases |visits|
  {
    if visits != [] {
      var front, last := visits[..|visits| - 1], visits[|visits| - 1];
      RecordHolds(sha, table, front, pool);
      assert visits == front + [last];
      NamedByMore(sha, front, [last], pool);
      assert NamedBy(sha, [last], pool) <==> PoolName(sha, [last][0]) == pool;
      if PoolName(sha, last) == pool {
        NewIsLast(sha, front, last);
      } else if NamedBy(sha, front, pool) {
        LastStays(sha, front, last, pool, Record(sha, table, visits)[pool]);
      }
    }
  }

  /**
   The table after a successful translation, with no assumption about the digest: it keeps
   what it held, apart from the pools the route names, and each of those maps to the last
   service in traversal order under that name.
   */
  lemma TableMatchesRoute(sha: Sha1, table: map<string, ServiceSpec>, r: Rule, pool: string)
    requires Compile(sha, r).Success?
    ensures
      var after := Record(sha, table, Visits(r));
      if NamedIn(Strings(Compile(sha, r).value), pool)
      then pool in after && LastUnder(sha, Services(r), pool, after[pool])
      else (pool in after <==> pool in table) && (pool in table ==> after[pool] == table[pool])
  {
    CompilesIffValid(sha, r);
    VisitsWhenValid(r);
    RouteNames(sha, r, pool);
    RecordHolds(sha, table, Services(r), pool);
  }

  // ---- When there is a configuration, and what is in it ----

  /** Every service that the table keeps can be resolved. */
  ghost predicate KeptResolve(sha: Sha1, b: Backends, services: seq<ServiceSpec>) {
    forall pool, s | LastUnder(sha, services, pool, s) :: Resolvable(b, s)
  }

  lemma TableKeepsLast(sha: Sha1, r: Rule, pool: string)
    requires Valid(r)
    ensures pool in Table(sha, r) <==> NamedBy(sha, Services(r), pool)
    ensures pool in Table(sha, r) ==> LastUnder(sha, Services(r), pool, Table(sha, r)[pool])
    ensures forall s :: LastUnder(sha, Services(r), pool, s) ==> pool in Table(sha, r) && Table(sha, r)[pool] == s
  {
    VisitsWhenValid(r);
    RecordHolds(sha, map[], Services(r), pool);
    forall s | LastUnder(sha, Services(r), pool, s) ensures pool in Table(sha, r) && Table(sha, r)[pool] == s {
      LastIsOne(sha, Services(r), pool, s, Table(sha, r)[pool]);
    }
  }

  lemma LastIsOne(sha: Sha1, services: seq<ServiceSpec>, pool: string, s: ServiceSpec, t: ServiceSpec)
    requires LastUnder(sha, services, pool, s) && LastUnder(sha, services, pool, t)
    ensures s == t
  {
    var i :| 0 <= i < |services| && services[i] == s && PoolName(sha, services[i]) == pool
      && forall h :: i < h < |services| ==> PoolName(sha, services[h]) != pool;
    var j :| 0 <= j < |services| && services[j] == t && PoolName(sha, services[j]) == pool
      && forall h :: j < h < |services| ==> PoolName(sha, services[h]) != pool;
    assert !(i < j) && !(j < i);
  }

  /** A configuration is produced if and only if every type that is read is known and every kept service resolves. */
  lemma ConfigForIff(sha: Sha1, b: Backends, r: Rule)
    ensures ConfigFor(sha, b, r).Some? <==> Valid(r) && KeptResolve(sha, b, Services(r))
  {
    CompilesIffValid(sha, r);
    if Valid(r) {
      var table := Table(sha, r);
      forall name | name in table ensures LastUnder(sha, Services(r), name, table[name]) {
        TableKeepsLast(sha, r, name);
      }
      forall name | name in table ensures Resolve(b, table[name]).Some? <==> Resolvable(b, table[name]) {
        ResolveMeans(b, table[name]);
      }
      forall pool, s | LastUnder(sha, Services(r), pool, s) ensures pool in table && table[pool] == s {
        TableKeepsLast(sha, r, pool);
      }
    }
  }

  /** It holds the compiled route and one pool per name, with the servers of the last service under it. */
  lemma ConfigForHolds(sha: Sha1, b: Backends, r: Rule, pool: string)
    requires ConfigFor(sha, b, r).Some?
    ensures Compile(sha, r) == Success(ConfigFor(sha, b, r).value.route)
    ensures pool in ConfigFor(sha, b, r).value.pools <==> NamedBy(sha, Services(r), pool)
    ensures forall s | LastUnder(sha, Services(r), pool, s) ::
      pool in ConfigFor(sha, b, r).value.pools && Resolve(b, s) == Some(ConfigFor(sha, b, r).value.pools[pool])
  {
    CompilesIffValid(sha, r);
    TableKeepsLast(sha, r, pool);
  }

  // ---- When every service gets its own pool ----

  /** Services that share a pool name resolve alike. */
  ghost predicate NamesAgree(sha: Sha1, b: Backends, services: seq<ServiceSpec>) {
    forall i, j :: 0 <= i < |services| && 0 <= j < |services| && PoolName(sha, services[i]) == PoolName(sha, services[j])
      ==> Resolve(b, services[i]) == Resolve(b, services[j])
  }

  /** Every service of the rule finds, under its pool name, the servers it resolves to. */
  ghost predicate OwnPools(sha: Sha1, b: Backends, services: seq<ServiceSpec>, pools: map<string, seq<string>>) {
    forall i :: 0 <= i < |services| ==>
      PoolName(sha, services[i]) in pools && Resolve(b, services[i]) == Some(pools[PoolName(sha, services[i])])
  }

  /** The pool under a service's name belongs to the last service with that name. */
  lemma PoolOfLast(sha: Sha1, b: Backends, r: Rule, config: Config, i: nat)
    requires ConfigFor(sha, b, r) == Some(config) && i < |Services(r)|
    ensures
      var pool := PoolName(sha, Services(r)[i]);
      pool in config.pools
      && exists s :: LastUnder(sha, Services(r), pool, s) && Resolve(b, s) == Some(config.pools[pool])
  {
    CompilesIffValid(sha, r);
    VisitsWhenValid(r);
    var pool := PoolName(sha, Services(r)[i]);
    RecordHolds(sha, map[], Services(r), pool);
    assert LastUnder(sha, Services(r), pool, Table(sha, r)[pool]);
    assert Resolve(b, Table(sha, r)[pool]) == Some(config.pools[pool]);
  }

  /** Pool names may collide: each service gets its own servers if and only if colliding ones resolve alike. */
  lemma OwnPoolsIffNamesAgree(sha: Sha1, b: Backends, r: Rule, config: Config)
    requires ConfigFor(sha, b, r) == Some(config)
    ensures OwnPools(sha, b, Services(r), config.pools) <==> NamesAgree(sha, b, Services(r))
  {
    var services := Services(r);
    if NamesAgree(sha, b, services) {
      forall i | 0 <= i < |services|
        ensures PoolName(sha, services[i]) in config.pools
          && Resolve(b, services[i]) == Some(config.pools[PoolName(sha, services[i])])
      {
        PoolOfLast(sha, b, r, config, i);
        var s :| LastUnder(sha, services, PoolName(sha, services[i]), s)
          && Resolve(b, s) == Some(config.pools[PoolName(sha, services[i])]);
        var j :| 0 <= j < |services| && services[j] == s && PoolName(sha, services[j]) == PoolName(sha, services[i]);
      }
    }
  }

  /** The servers a service stands for; none if it cannot be resolved. */
  function Lookup(b: Backends): ServiceSpec -> seq<string> {
    (s: ServiceSpec) => match Resolve(b, s) case None => [] case Some(servers) => servers
  }

  lemma OwnPoolsSupply(sha: Sha1, b: Backends, services: seq<ServiceSpec>, pools: map<string, seq<string>>)
    requires OwnPools(sha, b, services, pools)
    ensures Supplies(sha, pools, services, Lookup(b))
  {
    forall s | s in services ensures PoolName(sha, s) in pools && pools[PoolName(sha, s)] == Lookup(b)(s) {
      var i :| 0 <= i < |services| && services[i] == s;
      assert Resolve(b, services[i]) == Some(pools[PoolName(sha, services[i])]);
    }
  }

  /** End to end: through a generated configuration, get, set and add reach what the rules stand for. */
  lemma ConfigMeaning(sha: Sha1, b: Backends, r: Rule, config: Config, op: Op, c: Choices)
    requires ConfigFor(sha, b, r) == Some(config) && NamesAgree(sha, b, Services(r)) && op != Delete
    ensures Reach(config.route, config.pools, op, c, []) == Denote(r, Lookup(b), c, [])
  {
    CompilesIffValid(sha, r);
    OwnPoolsIffNamesAgree(sha, b, r, config);
    OwnPoolsSupply(sha, b, Services(r), config.pools);
    MeaningPreserved(sha, r, config.pools, Lookup(b), op, c);
  }

  // ---- Names do collide ----

  /**
   Two services share a pool name under every digest if and only if their names, namespaces and
   ports concatenate alike.
   */
  lemma SharedPoolName(s: ServiceSpec, t: ServiceSpec)
    ensures (forall sha: Sha1 :: PoolName(sha, s) == PoolName(sha, t)) <==>
      s.name + s.ns + PortText(s.port) == t.name + t.ns + PortText(t.port)
  {
    var text, text' := s.name + s.ns + PortText(s.port), t.name + t.ns + PortText(t.port);
    if text == text' {
      forall sha: Sha1 ensures PoolName(sha, s) == PoolName(sha, t) {
        PoolNameIs(sha, s);
        PoolNameIs(sha, t);
      }
    }
    if forall sha: Sha1 :: PoolName(sha, s) == PoolName(sha, t) {
      var sha := Telling(text);
      assert PoolName(sha, s) == PoolName(sha, t);
      PoolNameIs(sha, s);
      PoolNameIs(sha, t);
      assert sha(text)[2..7][0] == sha(text)[2] && sha(text')[2..7][0] == sha(text')[2];
    }
  }

  /** Two services of one rule under one pool name: a set misses every server of the first. */
  lemma CollisionLosesServers(sha: Sha1, b: Backends, s: ServiceSpec, t: ServiceSpec, c: Choices)
    requires PoolName(sha, s) == PoolName(sha, t)
    requires Resolve(b, s).Some? && Resolve(b, t).Some?
    ensures
      var r := Rule(REPLICATED, None, [Rule(REPLICATED, Some(s), []), Rule(REPLICATED, Some(t), [])]);
      ConfigFor(sha, b, r).Some?
      && Reach(ConfigFor(sha, b, r).value.route, ConfigFor(sha, b, r).value.pools, Set, c, [])
         == (set x | x in Resolve(b, t).value)
      && Denote(r, Lookup(b), c, []) == (set x | x in Resolve(b, s).value) + (set x | x in Resolve(b, t).value)
  {
    var one, two := Rule(REPLICATED, Some(s), []), Rule(REPLICATED, Some(t), []);
    var r := Rule(REPLICATED, None, [one, two]);
    CompilesIffValid(sha, r);
    TwoServices(one, two);
    VisitsWhenValid(r);
    TableOfTwo(sha, s, t);
    var config := ConfigFor(sha, b, r).value;
    CompiledReach(sha, r, config.pools, Set, c, []);
    DenotePair(r, Pooled(sha, config.pools), c);
    DenotePair(r, Lookup(b), c);
  }

  lemma TwoServices(one: Rule, two: Rule)
    requires one.service.Some? && two.service.Some?
    ensures ServicesOf([one, two]) == [one.service.value, two.service.value]
  {
    assert [one, two][1..] == [two] && [two][1..] == [];
    assert ServicesOf([two]) == Services(two) + ServicesOf([]);
  }

  lemma TableOfTwo(sha: Sha1, s: ServiceSpec, t: ServiceSpec)
    requires PoolName(sha, s) == PoolName(sha, t)
    ensures Record(sha, map[], [s, t]) == map[PoolName(sha, t) := t]
  {
    assert [s, t][..1] == [s] && [s][..0] == [];
    assert Record(sha, map[], [s]) == map[PoolName(sha, s) := s];
  }

  lemma DenotePair(r: Rule, resolve: ServiceSpec -> seq<string>, c: Choices)
    requires r.kind == REPLICATED && r.service.None? && |r.children| == 2
    ensures Denote(r, resolve, c, []) == Denote(r.children[0], resolve, c, [0]) + Denote(r.children[1], resolve, c, [1])
  {
    assert [] + [0] == [0] && [] + [1] == [1];
    forall s | s in Denote(r.children[0], resolve, c, [0]) + Denote(r.children[1], resolve, c, [1])
      ensures s in Denote(r, resolve, c, [])
    {
      assert s in Denote(r.children[0], resolve, c, [] + [0]) || s in Denote(r.children[1], resolve, c, [] + [1]);
    }
  }

  /** One server behind port 11211. */
  function Single(ip: string): seq<Subset> { [Subset([ip], [EndpointPort("", 11211, "TCP")])] }

  lemma ResolveSingle(b: Backends, s: ServiceSpec, ip: string)
    requires s.port == IntPort(11211) && Key(s.ns, s.name) in b.services && Key(s.ns, s.name) in b.endpoints
    requires b.services[Key(s.ns, s.name)] == [ServicePort("", 11211, IntPort(11211))]
    requires b.endpoints[Key(s.ns, s.name)] == Single(ip)
    ensures Resolve(b, s) == Some([ip + ":" + Decimal(11211)])
  {
    var p := EndpointPort("", 11211, "TCP");
    assert Single(ip)[..0] == [] && [p][..0] == [];
    assert SubsetServers([ip], [p], IntPort(11211)) == SubsetServers([ip], [], IntPort(11211)) + PortServers([ip], p);
    assert Servers(Single(ip), IntPort(11211)) == Servers([], IntPort(11211)) + PortServers([ip], p) == PortServers([ip], p);
    assert PortServers([ip], p) == [Server(ip, p)];
  }

  /** Services bc/a and c/ab, for every digest: the translation then loses a server the rules stand for. */
  lemma CollisionExists(sha: Sha1, c: Choices) returns (b: Backends, r: Rule)
    ensures Compile(sha, r).Success? && ConfigFor(sha, b, r).Some?
    ensures
      Reach(ConfigFor(sha, b, r).value.route, ConfigFor(sha, b, r).value.pools, Set, c, []) < Denote(r, Lookup(b), c, [])
  {
    var s, t := ServiceSpec("a", "bc", IntPort(11211)), ServiceSpec("ab", "c", IntPort(11211));
    var ports := [ServicePort("", 11211, IntPort(11211))];
    b := Backends(
      map[Key("bc", "a") := ports, Key("c", "ab") := ports],
      map[Key("bc", "a") := Single("x"), Key("c", "ab") := Single("y")]);
    r := Rule(REPLICATED, None, [Rule(REPLICATED, Some(s), []), Rule(REPLICATED, Some(t), [])]);
    assert s.name + s.ns == t.name + t.ns;
    SharedPoolName(s, t);
    assert PoolName(sha, s) == PoolName(sha, t);
    ResolveSingle(b, s, "x");
    ResolveSingle(b, t, "y");
    CollisionLosesServers(sha, b, s, t, c);
    var x, y := "x" + ":" + Decimal(11211), "y" + ":" + Decimal(11211);
    assert x[0] != y[0];
    assert x in Denote(r, Lookup(b), c, []);
  }
}
