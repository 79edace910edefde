/**
 What rules mean and what routes do.  mcrouter is abstract: which member a key hashes to, and
 which member a LatestRoute settles on, are parameters, free at every node.
 */
module Meaning {
  import opened Wrappers
  import opened Names
  import opened Rules
  import opened Routes

  datatype Op = Get | Set | Add | Delete

  // ---- Shorthand strings ----

  /** A shorthand string read back: a route kind and the pool it uses. */
  datatype Shorthand = Shorthand(kind: string, pool: string)

  function Parse(s: string): Option<Shorthand> {
    var parts := Split(s, '|');
    if |parts| == 2 && parts[0] == POOL then Some(Shorthand(POOL, parts[1]))
    else if |parts| == 3 && parts[1] == "Pool" then Some(Shorthand(parts[0], parts[2]))
    else None
  }

  /** Shorthand strings parse back to their kind and pool. */
  lemma ParseBack(kind: string, pool: string)
    requires Lacks(kind, '|') && Lacks(pool, '|')
    ensures Parse(kind + "|Pool|" + pool) == Some(Shorthand(kind, pool))
    ensures Parse(POOL + "|" + pool) == Some(Shorthand(POOL, pool))
  {
    assert kind + "|Pool|" + pool == kind + "|" + ("Pool" + "|" + pool);
    SplitOne(pool, '|');
    SplitMore("Pool", pool, '|');
    SplitMore(kind, "Pool" + "|" + pool, '|');
    SplitMore(POOL, pool, '|');
  }

  lemma CompiledStrings(sha: Sha1, s: ServiceSpec)
    ensures Parse(ALL_SYNC + "|Pool|" + PoolName(sha, s)) == Some(Shorthand(ALL_SYNC, PoolName(sha, s)))
    ensures Parse(LATEST + "|Pool|" + PoolName(sha, s)) == Some(Shorthand(LATEST, PoolName(sha, s)))
    ensures Parse(POOL + "|" + PoolName(sha, s)) == Some(Shorthand(POOL, PoolName(sha, s)))
  {
    ParseBack(ALL_SYNC, PoolName(sha, s));
    ParseBack(LATEST, PoolName(sha, s));
  }

  // ---- Routes ----

  /**
   mcrouter's choices for one request, node by node: the member a key hashes to and the
   member a LatestRoute settles on.  A node is named by the child indices that lead to it,
   so no two nodes have to agree; an operation selector hands its own name on.
   */
  datatype Choices = Choices(hash: seq<int> -> int, latest: seq<int> -> int)

  function One<T>(xs: seq<T>, choice: int): Option<T> {
    if xs == [] then None else Some(xs[choice % |xs|])
  }

  function Opt<T>(x: Option<T>): set<T> {
    match x case None => {} case Some(v) => {v}
  }

  function PoolReach(kind: string, servers: seq<string>, c: Choices, path: seq<int>): set<string> {
    if kind == POOL then Opt(One(servers, c.hash(path)))
    else if kind == ALL_SYNC then set s | s in servers
    else if kind == LATEST then Opt(One(servers, c.latest(path)))
    else {}
  }

  /** The servers a request reaches through a route. */
  function Reach(r: StringOrRoute, pools: map<string, seq<string>>, op: Op, c: Choices, path: seq<int>): set<string>
    decreases r
  {
    if r.text != "" then
      match Parse(r.text)
      case None => {}
      case Some(ref) => if ref.pool in pools then PoolReach(ref.kind, pools[ref.pool], c, path) else {}
    else
      match r.route
      case None => {}
      case Some(route) =>
        if route.kind == SELECTOR then
          match route.policies
          case Some(p) =>
            var policy := match op case Get => p.onGet case Set => p.onSet case Add => p.onAdd case Delete => p.onDelete;
            if policy.Some? then Reach(policy.value, pools, op, c, path) else Fallback(route, pools, op, c, path)
          case None => Fallback(route, pools, op, c, path)
        else if route.kind == ALL_SYNC then
          set i, s | 0 <= i < |route.children| && s in Reach(route.children[i], pools, op, c, path + [i]) :: s
        else if route.kind == HASH && route.children != [] then
          var i := c.hash(path) % |route.children|;
          Reach(route.children[i], pools, op, c, path + [i])
        else if route.kind == LATEST && route.children != [] then
          var i := c.latest(path) % |route.children|;
          Reach(route.children[i], pools, op, c, path + [i])
        else {}
  }

  function Fallback(route: Route, pools: map<string, seq<string>>, op: Op, c: Choices, path: seq<int>): set<string>
    decreases route
  {
    match route.fallback
    case None => {}
    case Some(f) => Reach(f, pools, op, c, path)
  }

  // ---- Rules ----

  /** The servers a rule stands for: all of them when replicated, the hashed one when sharded. */
  function Denote(r: Rule, resolve: ServiceSpec -> seq<string>, c: Choices, path: seq<int>): set<string>
    decreases r
  {
    if r.kind == REPLICATED then
      if r.service.Some? then set s | s in resolve(r.service.value)
      else set i, s | 0 <= i < |r.children| && s in Denote(r.children[i], resolve, c, path + [i]) :: s
    else if r.kind == SHARDED then
      if r.service.Some? then Opt(One(resolve(r.service.value), c.hash(path)))
      else if r.children == [] then {}
      else
        var i := c.hash(path) % |r.children|;
        Denote(r.children[i], resolve, c, path + [i])
    else {}
  }

  /** What the code makes of a delete: one member when replicated, the hashed one when sharded. */
  function Erase(r: Rule, resolve: ServiceSpec -> seq<string>, c: Choices, path: seq<int>): set<string>
    decreases r
  {
    if !Known(r.kind) then {}
    else
      var choice := if r.kind == REPLICATED then c.latest(path) else c.hash(path);
      if r.service.Some? then Opt(One(resolve(r.service.value), choice))
      else if r.children == [] then {}
      else
        var i := choice % |r.children|;
        Erase(r.children[i], resolve, c, path + [i])
  }

  // ---- Compilation preserves meaning ----

  /** The pool under a service's name; none if it is missing. */
  function Pooled(sha: Sha1, pools: map<string, seq<string>>): ServiceSpec -> seq<string> {
    (s: ServiceSpec) => if PoolName(sha, s) in pools then pools[PoolName(sha, s)] else []
  }

  /** An operation selector sends deletes one way and everything else the other. */
  lemma ReachReplicate(
    all: StringOrRoute, latest: StringOrRoute, pools: map<string, seq<string>>, op: Op, c: Choices, path: seq<int>)
    ensures Reach(Replicate(all, latest), pools, op, c, path) ==
      if op == Delete then Reach(latest, pools, op, c, path) else Reach(all, pools, op, c, path)
  {
  }

  lemma ReachText(
    kind: string, pool: string, text: string, pools: map<string, seq<string>>, op: Op, c: Choices, path: seq<int>)
    requires text != "" && Parse(text) == Some(Shorthand(kind, pool))
    ensures Reach(Text(text), pools, op, c, path) ==
      PoolReach(kind, if pool in pools then pools[pool] else [], c, path)
  {
  }

  /** The route kind that a rule's node has for an operation. */
  function NodeKind(r: Rule, op: Op): string {
    if r.kind == SHARDED then (if r.service.Some? then POOL else HASH) else if op == Delete then LATEST else ALL_SYNC
  }

  /** What a compiled leaf reaches. */
  lemma ReachLeaf(sha: Sha1, r: Rule, pools: map<string, seq<string>>, op: Op, c: Choices, path: seq<int>)
    requires Known(r.kind) && r.service.Some?
    ensures Reach(Compile(sha, r).value, pools, op, c, path) ==
      PoolReach(NodeKind(r, op), Pooled(sha, pools)(r.service.value), c, path)
  {
    var pool := PoolName(sha, r.service.value);
    CompiledStrings(sha, r.service.value);
    if r.kind == REPLICATED {
      ReachText(ALL_SYNC, pool, ALL_SYNC + "|Pool|" + pool, pools, op, c, path);
      ReachText(LATEST, pool, LATEST + "|Pool|" + pool, pools, op, c, path);
      ReachReplicate(Text(ALL_SYNC + "|Pool|" + pool), Text(LATEST + "|Pool|" + pool), pools, op, c, path);
    } else {
      ReachText(POOL, pool, POOL + "|" + pool, pools, op, c, path);
    }
  }

  /** What a compiled inner rule reaches, in terms of its compiled children. */
  lemma ReachInner(sha: Sha1, r: Rule, pools: map<string, seq<string>>, op: Op, c: Choices, path: seq<int>)
    requires Known(r.kind) && r.service.None? && CompileAll(sha, r.children).Success?
    ensures Reach(Compile(sha, r).value, pools, op, c, path) ==
      Reach(Group(NodeKind(r, op), CompileAll(sha, r.children).value), pools, op, c, path)
  {
    var children := CompileAll(sha, r.children).value;
    ReachReplicate(Group(ALL_SYNC, children), Group(LATEST, children), pools, op, c, path);
  }

  /** What a rule means for an operation. */
  function MeaningFor(r: Rule, resolve: ServiceSpec -> seq<string>, op: Op, c: Choices, path: seq<int>): set<string> {
    if op == Delete then Erase(r, resolve, c, path) else Denote(r, resolve, c, path)
  }

  /**
   For every rule, operation, pools and choices: the compiled route reaches what the rule
   means, each service standing for the pool under its name.
   */
  lemma {:induction false} CompiledReach(
    sha: Sha1, r: Rule, pools: map<string, seq<string>>, op: Op, c: Choices, path: seq<int>)
    requires Valid(r)
    ensures Compile(sha, r).Success?
    ensures Reach(Compile(sha, r).value, pools, op, c, path) == MeaningFor(r, Pooled(sha, pools), op, c, path)
    decreases r
  {
    CompilesIffValid(sha, r);
    if r.service.Some? {
      ReachLeaf(sha, r, pools, op, c, path);
    } else {
      ReachInner(sha, r, pools, op, c, path);
      var children := CompileAll(sha, r.children).value;
      forall i | 0 <= i < |children|
        ensures Reach(children[i], pools, op, c, path + [i]) ==
          MeaningFor(r.children[i], Pooled(sha, pools), op, c, path + [i])
      {
        CompileAllAt(sha, r.children, i);
        CompiledReach(sha, r.children[i], pools, op, c, path + [i]);
      }
      if r.kind == REPLICATED && op != Delete {
        UnionOfChildren(r, children, pools, Pooled(sha, pools), op, c, path);
      }
    }
  }

  lemma UnionOfChildren(
    r: Rule, children: seq<StringOrRoute>, pools: map<string, seq<string>>, resolve: ServiceSpec -> seq<string>,
    op: Op, c: Choices, path: seq<int>)
    requires r.kind == REPLICATED && r.service.None? && |children| == |r.children|
    requires forall i :: 0 <= i < |children| ==>
      Reach(children[i], pools, op, c, path + [i]) == Denote(r.children[i], resolve, c, path + [i])
    ensures Reach(Group(ALL_SYNC, children), pools, op, c, path) == Denote(r, resolve, c, path)
  {
    forall s | s in Reach(Group(ALL_SYNC, children), pools, op, c, path) ensures s in Denote(r, resolve, c, path) {
      var i :| 0 <= i < |children| && s in Reach(children[i], pools, op, c, path + [i]);
      assert s in Denote(r.children[i], resolve, c, path + [i]);
    }
    forall s | s in Denote(r, resolve, c, path) ensures s in Reach(Group(ALL_SYNC, children), pools, op, c, path) {
      var i :| 0 <= i < |r.children| && s in Denote(r.children[i], resolve, c, path + [i]);
      assert s in Reach(children[i], pools, op, c, path + [i]);
    }
  }

  // ---- Services that find their own pools ----

  /** Every service of the rule finds its own servers under its pool name. */
  ghost predicate Supplies(
    sha: Sha1, pools: map<string, seq<string>>, services: seq<ServiceSpec>, resolve: ServiceSpec -> seq<string>)
  {
    forall s :: s in services ==> PoolName(sha, s) in pools && pools[PoolName(sha, s)] == resolve(s)
  }

  /** A rule's meaning depends on how its own services resolve, and on nothing else. */
  lemma {:induction false} MeaningFrame(
    r: Rule, resolve: ServiceSpec -> seq<string>, resolve': ServiceSpec -> seq<string>, c: Choices, path: seq<int>)
    requires forall s :: s in Services(r) ==> resolve(s) == resolve'(s)
    ensures Denote(r, resolve, c, path) == Denote(r, resolve', c, path)
    ensures Erase(r, resolve, c, path) == Erase(r, resolve', c, path)
    decreases r
  {
    if r.service.Some? {
      assert Services(r)[0] in Services(r);
    } else {
      forall i | 0 <= i < |r.children|
        ensures Denote(r.children[i], resolve, c, path + [i]) == Denote(r.children[i], resolve', c, path + [i])
        ensures Erase(r.children[i], resolve, c, path + [i]) == Erase(r.children[i], resolve', c, path + [i])
      {
        forall s | s in Services(r.children[i]) ensures s in Services(r) {
          ServicesOfChild(r.children, i, s);
        }
        MeaningFrame(r.children[i], resolve, resolve', c, path + [i]);
      }
    }
  }

  /** A get, set or add through the compiled route reaches exactly the servers the rule stands for. */
  lemma MeaningPreserved(
    sha: Sha1, r: Rule, pools: map<string, seq<string>>, resolve: ServiceSpec -> seq<string>, op: Op, c: Choices)
    requires Valid(r) && op != Delete && Supplies(sha, pools, Services(r), resolve)
    ensures Compile(sha, r).Success?
    ensures Reach(Compile(sha, r).value, pools, op, c, []) == Denote(r, resolve, c, [])
  {
    CompiledReach(sha, r, pools, op, c, []);
    MeaningFrame(r, Pooled(sha, pools), resolve, c, []);
  }
}
