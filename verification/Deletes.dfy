/**
 Deletes and gets through a compiled route.  The documentation replicates every write and
 serves a get from one child; the code sends deletes to one member and gets to all of them.
 */
module Deletes {
  import opened Wrappers
  import opened Names
  import opened Rules
  import opened Routes
  import opened Meaning

  type Resolver = ServiceSpec -> seq<string>

  predicate AtMostOne(s: set<string>) { forall x, y :: x in s && y in s ==> x == y }

  /** Every rule that is read has somewhere to go: a child, or a pool with a server. */
  predicate Populated(r: Rule, resolve: Resolver) {
    if r.service.Some? then resolve(r.service.value) != []
    else r.children != [] && forall i :: 0 <= i < |r.children| ==> Populated(r.children[i], resolve)
  }

  lemma ChildDenotes(r: Rule, resolve: Resolver, c: Choices, path: seq<int>, i: nat)
    requires r.kind == REPLICATED && r.service.None? && i < |r.children|
    ensures Denote(r.children[i], resolve, c, path + [i]) <= Denote(r, resolve, c, path)
  {
  }

  lemma {:induction false} EraseWithinDenote(r: Rule, resolve: Resolver, c: Choices, path: seq<int>)
    requires Valid(r)
    ensures Erase(r, resolve, c, path) <= Denote(r, resolve, c, path)
    ensures AtMostOne(Erase(r, resolve, c, path))
    ensures Populated(r, resolve) ==> Erase(r, resolve, c, path) != {}
    decreases r
  {
    if r.service.None? && r.children != [] {
      var i := (if r.kind == REPLICATED then c.latest(path) else c.hash(path)) % |r.children|;
      EraseWithinDenote(r.children[i], resolve, c, path + [i]);
      if r.kind == REPLICATED {
        ChildDenotes(r, resolve, c, path, i);
      }
    } else if r.service.Some? && resolve(r.service.value) != [] {
      var servers := resolve(r.service.value);
      var choice := if r.kind == REPLICATED then c.latest(path) else c.hash(path);
      assert Erase(r, resolve, c, path) == {servers[choice % |servers|]};
    }
  }

  /**
   For every rule and every choice at every node: a delete reaches only servers that a set
   reaches, at most one of them, and exactly one where every pool and group is populated.
   */
  lemma DeleteWithinSet(sha: Sha1, r: Rule, pools: map<string, seq<string>>, c: Choices)
    requires Valid(r)
    ensures Compile(sha, r).Success?
    ensures Reach(Compile(sha, r).value, pools, Delete, c, []) <= Reach(Compile(sha, r).value, pools, Set, c, [])
    ensures AtMostOne(Reach(Compile(sha, r).value, pools, Delete, c, []))
    ensures Populated(r, Pooled(sha, pools)) ==> Reach(Compile(sha, r).value, pools, Delete, c, []) != {}
  {
    CompiledReach(sha, r, pools, Delete, c, []);
    CompiledReach(sha, r, pools, Set, c, []);
    EraseWithinDenote(r, Pooled(sha, pools), c, []);
  }

  /** A get reaches every server that a set reaches. */
  lemma GetReachesAll(sha: Sha1, r: Rule, pools: map<string, seq<string>>, c: Choices)
    requires Valid(r)
    ensures Compile(sha, r).Success?
    ensures Reach(Compile(sha, r).value, pools, Get, c, []) == Reach(Compile(sha, r).value, pools, Set, c, [])
  {
    CompiledReach(sha, r, pools, Get, c, []);
    CompiledReach(sha, r, pools, Set, c, []);
  }

  // ---- Which rules have deletes that undo sets ----

  /** The servers that every request reaches, whatever the choices, if that is one fixed server or none. */
  function Sole(r: Rule, resolve: Resolver): Option<set<string>>
    decreases r, 1
  {
    if r.service.Some? then
      var servers := set s | s in resolve(r.service.value);
      if AtMostOne(servers) then Some(servers) else None
    else SoleOf(r.children, resolve)
  }

  /** The fixed server that all of the rules share. */
  function SoleOf(rs: seq<Rule>, resolve: Resolver): Option<set<string>>
    decreases rs, 0
  {
    if rs == [] then Some({})
    else if |rs| == 1 then Sole(rs[0], resolve)
    else if Sole(rs[0], resolve) == SoleOf(rs[1..], resolve) then Sole(rs[0], resolve)
    else None
  }

  /**
   Deletes undo sets.  Sharding decides alike for both; replication does so only over one
   distinct server, a single child, or children that all come down to the same fixed server.
   */
  predicate Covers(r: Rule, resolve: Resolver) {
    if r.kind == SHARDED then
      r.service.Some? || forall i :: 0 <= i < |r.children| ==> Covers(r.children[i], resolve)
    else if r.service.None? && |r.children| == 1 then Covers(r.children[0], resolve)
    else Sole(r, resolve).Some?
  }

  lemma {:induction false} SoleOfMeans(rs: seq<Rule>, resolve: Resolver, x: set<string>)
    requires rs != []
    ensures SoleOf(rs, resolve) == Some(x) <==> forall i :: 0 <= i < |rs| ==> Sole(rs[i], resolve) == Some(x)
  {
    if |rs| > 1 {
      SoleOfMeans(rs[1..], resolve, x);
      assert forall i :: 1 <= i < |rs| ==> rs[i] == rs[1..][i - 1];
    }
  }

  lemma OneDistinct(servers: seq<string>)
    requires servers != [] && AtMostOne(set s | s in servers)
    ensures forall i :: 0 <= i < |servers| ==> servers[i] == servers[0]
    ensures (set s | s in servers) == {servers[0]}
  {
    var distinct := set s | s in servers;
    forall i | 0 <= i < |servers| ensures servers[i] == servers[0] {
      assert servers[i] in distinct && servers[0] in distinct;
    }
  }

  /** A sole server is reached by sets and deletes under every choice. */
  lemma {:induction false} SoleIsReached(r: Rule, resolve: Resolver, c: Choices, path: seq<int>)
    requires Valid(r) && Sole(r, resolve).Some?
    ensures Denote(r, resolve, c, path) == Erase(r, resolve, c, path) == Sole(r, resolve).value
    decreases r
  {
    if r.service.Some? {
      var servers := resolve(r.service.value);
      if servers != [] {
        OneDistinct(servers);
      }
    } else if r.children != [] {
      var x := Sole(r, resolve).value;
      SoleOfMeans(r.children, resolve, x);
      forall i | 0 <= i < |r.children|
        ensures Denote(r.children[i], resolve, c, path + [i]) == Erase(r.children[i], resolve, c, path + [i]) == x
      {
        SoleIsReached(r.children[i], resolve, c, path + [i]);
      }
      if r.kind == REPLICATED {
        SameUnion(r, resolve, c, path, x);
      }
    }
  }

  lemma SameUnion(r: Rule, resolve: Resolver, c: Choices, path: seq<int>, x: set<string>)
    requires r.kind == REPLICATED && r.service.None? && r.children != []
    requires forall i :: 0 <= i < |r.children| ==> Denote(r.children[i], resolve, c, path + [i]) == x
    ensures Denote(r, resolve, c, path) == x
  {
    forall s | s in x ensures s in Denote(r, resolve, c, path) {
      assert s in Denote(r.children[0], resolve, c, path + [0]);
    }
  }

  lemma OnlyChild(r: Rule, resolve: Resolver, c: Choices, path: seq<int>)
    requires Known(r.kind) && r.service.None? && |r.children| == 1
    ensures Denote(r, resolve, c, path) == Denote(r.children[0], resolve, c, path + [0])
    ensures Erase(r, resolve, c, path) == Erase(r.children[0], resolve, c, path + [0])
  {
    if r.kind == REPLICATED {
      SameUnion(r, resolve, c, path, Denote(r.children[0], resolve, c, path + [0]));
    }
  }

  lemma {:induction false} CoveredAlways(r: Rule, resolve: Resolver, c: Choices, path: seq<int>)
    requires Valid(r) && Covers(r, resolve)
    ensures Erase(r, resolve, c, path) == Denote(r, resolve, c, path)
    decreases r
  {
    if r.kind == SHARDED {
      if r.service.None? && r.children != [] {
        var i := c.hash(path) % |r.children|;
        CoveredAlways(r.children[i], resolve, c, path + [i]);
      }
    } else if r.service.None? && |r.children| == 1 {
      OnlyChild(r, resolve, c, path);
      CoveredAlways(r.children[0], resolve, c, path + [0]);
    } else {
      SoleIsReached(r, resolve, c, path);
    }
  }

  // ---- Choices at different nodes are independent ----

  function WithHash(c: Choices, path: seq<int>, i: nat): Choices {
    c.(hash := q => if q == path then i else c.hash(q))
  }

  function WithLatest(c: Choices, path: seq<int>, i: nat): Choices {
    c.(latest := q => if q == path then i else c.latest(q))
  }

  /** The choices of `c` below `path`, and those of `d` everywhere else. */
  function Mixed(c: Choices, d: Choices, path: seq<int>): Choices {
    Choices(
      q => if Below(path, q) then c.hash(q) else d.hash(q),
      q => if Below(path, q) then c.latest(q) else d.latest(q))
  }

  predicate Below(path: seq<int>, q: seq<int>) { path <= q }

  ghost predicate AgreeBelow(c: Choices, d: Choices, path: seq<int>) {
    forall q :: Below(path, q) ==> c.hash(q) == d.hash(q) && c.latest(q) == d.latest(q)
  }

  lemma BelowChild(c: Choices, d: Choices, path: seq<int>, i: nat)
    requires AgreeBelow(c, d, path)
    ensures AgreeBelow(c, d, path + [i])
  {
    forall q | Below(path + [i], q) ensures Below(path, q) {
      assert path == (path + [i])[..|path|] == q[..|path|];
    }
  }

  /** What happens at a node depends on the choices made there and below. */
  lemma {:induction false} ChoiceFrame(r: Rule, resolve: Resolver, c: Choices, d: Choices, path: seq<int>)
    requires AgreeBelow(c, d, path)
    ensures Denote(r, resolve, c, path) == Denote(r, resolve, d, path)
    ensures Erase(r, resolve, c, path) == Erase(r, resolve, d, path)
    decreases r
  {
    forall i | 0 <= i < |r.children|
      ensures Denote(r.children[i], resolve, c, path + [i]) == Denote(r.children[i], resolve, d, path + [i])
      ensures Erase(r.children[i], resolve, c, path + [i]) == Erase(r.children[i], resolve, d, path + [i])
    {
      BelowChild(c, d, path, i);
      ChoiceFrame(r.children[i], resolve, c, d, path + [i]);
    }
  }

  /** Steering the choice at a node leaves its children as they were. */
  lemma SteerHash(r: Rule, resolve: Resolver, c: Choices, path: seq<int>, i: nat)
    requires r.kind == SHARDED && r.service.None? && i < |r.children|
    ensures Denote(r, resolve, WithHash(c, path, i), path) == Denote(r.children[i], resolve, c, path + [i])
    ensures Erase(r, resolve, WithHash(c, path, i), path) == Erase(r.children[i], resolve, c, path + [i])
  {
    var d := WithHash(c, path, i);
    assert d.hash(path) % |r.children| == i;
    ChoiceFrame(r.children[i], resolve, d, c, path + [i]);
  }

  lemma SteerLatest(r: Rule, resolve: Resolver, c: Choices, path: seq<int>, i: nat)
    requires r.kind == REPLICATED && r.service.None? && i < |r.children|
    ensures Denote(r, resolve, WithLatest(c, path, i), path) == Denote(r, resolve, c, path)
    ensures Erase(r, resolve, WithLatest(c, path, i), path) == Erase(r.children[i], resolve, c, path + [i])
  {
    var d := WithLatest(c, path, i);
    assert d.latest(path) % |r.children| == i;
    forall j | 0 <= j < |r.children|
      ensures Denote(r.children[j], resolve, d, path + [j]) == Denote(r.children[j], resolve, c, path + [j])
      ensures Erase(r.children[j], resolve, d, path + [j]) == Erase(r.children[j], resolve, c, path + [j])
    {
      ChoiceFrame(r.children[j], resolve, d, c, path + [j]);
    }
  }

  lemma MixedChild(r: Rule, resolve: Resolver, c: Choices, d: Choices, path: seq<int>, i: nat, j: nat)
    requires i < |r.children| && j < |r.children| && i != j
    ensures
      var m := Mixed(c, d, path + [i]);
      && Denote(r.children[i], resolve, m, path + [i]) == Denote(r.children[i], resolve, c, path + [i])
      && Erase(r.children[i], resolve, m, path + [i]) == Erase(r.children[i], resolve, c, path + [i])
      && Denote(r.children[j], resolve, m, path + [j]) == Denote(r.children[j], resolve, d, path + [j])
      && Erase(r.children[j], resolve, m, path + [j]) == Erase(r.children[j], resolve, d, path + [j])
  {
    var m := Mixed(c, d, path + [i]);
    ChoiceFrame(r.children[i], resolve, m, c, path + [i]);
    forall q | Below(path + [j], q) ensures !Below(path + [i], q) {
      assert q[|path|] == (path + [j])[|path|] == j;
      assert (path + [i])[|path|] == i;
    }
    ChoiceFrame(r.children[j], resolve, m, d, path + [j]);
  }

  // ---- The condition is exact ----

  ghost predicate AlwaysCovered(r: Rule, resolve: Resolver, path: seq<int>) {
    forall c: Choices :: Erase(r, resolve, c, path) == Denote(r, resolve, c, path)
  }

  ghost predicate AlwaysReaches(r: Rule, resolve: Resolver, path: seq<int>, x: set<string>) {
    forall c: Choices :: Erase(r, resolve, c, path) == x && Denote(r, resolve, c, path) == x
  }

  /** If sets and deletes always reach the same fixed server, it is the sole one. */
  lemma {:induction false} ReachedIsSole(r: Rule, resolve: Resolver, path: seq<int>, x: set<string>)
    requires Valid(r) && AlwaysReaches(r, resolve, path, x)
    ensures Sole(r, resolve) == Some(x)
    decreases r
  {
    var c := Choices(_ => 0, _ => 0);
    assert Erase(r, resolve, c, path) == x && Denote(r, resolve, c, path) == x;
    EraseWithinDenote(r, resolve, c, path);
    if r.service.Some? {
      LeafIsSole(r, resolve, path, x);
    } else if r.children != [] {
      forall i | 0 <= i < |r.children| ensures Sole(r.children[i], resolve) == Some(x) {
        ChildAlwaysReaches(r, resolve, path, x, i);
        ReachedIsSole(r.children[i], resolve, path + [i], x);
      }
      SoleOfMeans(r.children, resolve, x);
    }
  }

  lemma LeafIsSole(r: Rule, resolve: Resolver, path: seq<int>, x: set<string>)
    requires Known(r.kind) && r.service.Some? && AlwaysReaches(r, resolve, path, x) && AtMostOne(x)
    ensures Sole(r, resolve) == Some(x)
  {
    var servers := resolve(r.service.value);
    var c := Choices(_ => 0, _ => 0);
    forall i | 0 <= i < |servers| ensures {servers[i]} == x {
      var d := if r.kind == SHARDED then WithHash(c, path, i) else WithLatest(c, path, i);
      assert Erase(r, resolve, d, path) == {servers[i]};
    }
    if servers == [] {
      assert Erase(r, resolve, c, path) == (set s | s in servers) == {};
    } else {
      assert (set s | s in servers) == {servers[0]};
    }
  }

  lemma ChildAlwaysReaches(r: Rule, resolve: Resolver, path: seq<int>, x: set<string>, i: nat)
    requires Valid(r) && r.service.None? && i < |r.children| && AlwaysReaches(r, resolve, path, x)
    ensures AlwaysReaches(r.children[i], resolve, path + [i], x)
  {
    forall c: Choices
      ensures Erase(r.children[i], resolve, c, path + [i]) == x && Denote(r.children[i], resolve, c, path + [i]) == x
    {
      if r.kind == SHARDED {
        SteerHash(r, resolve, c, path, i);
        assert Erase(r, resolve, WithHash(c, path, i), path) == x;
      } else {
        SteerLatest(r, resolve, c, path, i);
        assert Erase(r, resolve, WithLatest(c, path, i), path) == x;
        assert Denote(r, resolve, c, path) == x;
        ChildDenotes(r, resolve, c, path, i);
        EraseWithinDenote(r.children[i], resolve, c, path + [i]);
      }
    }
  }

  /** Replication over two or more children undoes sets only if one fixed server is behind all of them. */
  lemma SiblingsAgree(r: Rule, resolve: Resolver, path: seq<int>, c0: Choices, i: nat)
    requires Valid(r) && r.kind == REPLICATED && r.service.None? && |r.children| >= 2 && i < |r.children|
    requires AlwaysCovered(r, resolve, path)
    ensures AlwaysReaches(r.children[i], resolve, path + [i], Denote(r, resolve, c0, path))
  {
    var x, j := Denote(r, resolve, c0, path), if i == 0 then 1 else 0;
    forall c: Choices
      ensures Erase(r.children[i], resolve, c, path + [i]) == x && Denote(r.children[i], resolve, c, path + [i]) == x
    {
      var m := Mixed(c, c0, path + [i]);
      MixedChild(r, resolve, c, c0, path, i, j);
      SteerLatest(r, resolve, c0, path, j);
      SteerLatest(r, resolve, m, path, j);
      SteerLatest(r, resolve, m, path, i);
      assert Erase(r, resolve, WithLatest(c0, path, j), path) == Denote(r, resolve, WithLatest(c0, path, j), path);
      assert Erase(r, resolve, WithLatest(m, path, j), path) == Denote(r, resolve, WithLatest(m, path, j), path);
      assert Erase(r, resolve, WithLatest(m, path, i), path) == Denote(r, resolve, WithLatest(m, path, i), path);
      ChildDenotes(r, resolve, m, path, i);
      EraseWithinDenote(r.children[i], resolve, c, path + [i]);
    }
  }

  lemma {:induction false} AlwaysMeansCovers(r: Rule, resolve: Resolver, path: seq<int>)
    requires Valid(r) && AlwaysCovered(r, resolve, path)
    ensures Covers(r, resolve)
    decreases r
  {
    var c0 := Choices(_ => 0, _ => 0);
    if r.kind == SHARDED && r.service.None? {
      forall i | 0 <= i < |r.children| ensures Covers(r.children[i], resolve) {
        forall c: Choices
          ensures Erase(r.children[i], resolve, c, path + [i]) == Denote(r.children[i], resolve, c, path + [i])
        {
          SteerHash(r, resolve, c, path, i);
          assert Erase(r, resolve, WithHash(c, path, i), path) == Denote(r, resolve, WithHash(c, path, i), path);
        }
        AlwaysMeansCovers(r.children[i], resolve, path + [i]);
      }
    } else if r.kind == REPLICATED && r.service.Some? {
      EraseWithinDenote(r, resolve, c0, path);
      assert Erase(r, resolve, c0, path) == Denote(r, resolve, c0, path);
    } else if r.kind == REPLICATED && |r.children| == 1 {
      forall c: Choices
        ensures Erase(r.children[0], resolve, c, path + [0]) == Denote(r.children[0], resolve, c, path + [0])
      {
        OnlyChild(r, resolve, c, path);
        assert Erase(r, resolve, c, path) == Denote(r, resolve, c, path);
      }
      AlwaysMeansCovers(r.children[0], resolve, path + [0]);
    } else if r.kind == REPLICATED && r.children != [] {
      var x := Denote(r, resolve, c0, path);
      forall i | 0 <= i < |r.children| ensures Sole(r.children[i], resolve) == Some(x) {
        SiblingsAgree(r, resolve, path, c0, i);
        ReachedIsSole(r.children[i], resolve, path + [i], x);
      }
      SoleOfMeans(r.children, resolve, x);
    }
  }

  ghost predicate DeletesUndoSets(route: StringOrRoute, pools: map<string, seq<string>>) {
    forall c: Choices :: Reach(route, pools, Delete, c, []) == Reach(route, pools, Set, c, [])
  }

  /**
   Deletes undo sets, whatever the choices, if and only if the rules and pools say so: a
   condition on the input of the translation alone.
   */
  lemma DeleteCoversSetIff(sha: Sha1, r: Rule, pools: map<string, seq<string>>)
    requires Valid(r)
    ensures Compile(sha, r).Success?
    ensures DeletesUndoSets(Compile(sha, r).value, pools) <==> Covers(r, Pooled(sha, pools))
  {
    CompilesIffValid(sha, r);
    var route, resolve := Compile(sha, r).value, Pooled(sha, pools);
    if Covers(r, resolve) {
      forall c: Choices ensures Reach(route, pools, Delete, c, []) == Reach(route, pools, Set, c, []) {
        CompiledReach(sha, r, pools, Delete, c, []);
        CompiledReach(sha, r, pools, Set, c, []);
        CoveredAlways(r, resolve, c, []);
      }
    }
    if DeletesUndoSets(route, pools) {
      forall c: Choices ensures Erase(r, resolve, c, []) == Denote(r, resolve, c, []) {
        CompiledReach(sha, r, pools, Delete, c, []);
        CompiledReach(sha, r, pools, Set, c, []);
        assert Reach(route, pools, Delete, c, []) == Reach(route, pools, Set, c, []);
      }
      AlwaysMeansCovers(r, resolve, []);
    }
  }

  /** A replicated service with two servers: whatever the choices, a delete leaves one of them stale. */
  lemma DeleteLeavesStale(sha: Sha1, s: ServiceSpec, a: string, b: string, c: Choices)
    requires a != b
    ensures
      var r := Rule(REPLICATED, Some(s), []);
      var pools := map[PoolName(sha, s) := [a, b]];
      Compile(sha, r).Success?
      && Reach(Compile(sha, r).value, pools, Delete, c, []) < Reach(Compile(sha, r).value, pools, Set, c, []) == {a, b}
  {
    var r, pools := Rule(REPLICATED, Some(s), []), map[PoolName(sha, s) := [a, b]];
    CompiledReach(sha, r, pools, Set, c, []);
    assert a in [a, b] && b in [a, b];
    DeleteWithinSet(sha, r, pools, c);
    assert a in Denote(r, Pooled(sha, pools), c, []) && b in Denote(r, Pooled(sha, pools), c, []);
  }

  // ---- Which rules have gets that one server serves ----

  /** Every server of every service that is read. */
  function May(r: Rule, resolve: Resolver): set<string> {
    if r.service.Some? then set s | s in resolve(r.service.value)
    else set i, s | 0 <= i < |r.children| && s in May(r.children[i], resolve) :: s
  }

  /** Any two servers from two different rules are the same. */
  predicate ShareOne(rs: seq<Rule>, resolve: Resolver) {
    forall i, j, s, t | 0 <= i < |rs| && 0 <= j < |rs| && i != j && s in May(rs[i], resolve) && t in May(rs[j], resolve) ::
      s == t
  }

  /**
   A request other than a delete reaches one server at most.  Sharding picks one; replication
   does so only over one distinct server, or where no two children lead to different servers.
   */
  predicate OneEach(r: Rule, resolve: Resolver) {
    if r.service.Some? then r.kind == SHARDED || AtMostOne(set s | s in resolve(r.service.value))
    else
      && (forall i :: 0 <= i < |r.children| ==> OneEach(r.children[i], resolve))
      && (r.kind == REPLICATED ==> ShareOne(r.children, resolve))
  }

  lemma {:induction false} DenoteWithinMay(r: Rule, resolve: Resolver, c: Choices, path: seq<int>)
    ensures Denote(r, resolve, c, path) <= May(r, resolve)
    decreases r
  {
    if r.service.None? {
      forall i | 0 <= i < |r.children|
        ensures Denote(r.children[i], resolve, c, path + [i]) <= May(r.children[i], resolve) <= May(r, resolve)
      {
        DenoteWithinMay(r.children[i], resolve, c, path + [i]);
      }
    }
  }

  /** Some choice leads to every server of every service that is read. */
  lemma {:induction false} MayIsReached(r: Rule, resolve: Resolver, path: seq<int>, s: string) returns (c: Choices)
    requires Valid(r) && s in May(r, resolve)
    ensures s in Denote(r, resolve, c, path)
    decreases r
  {
    c := Choices(_ => 0, _ => 0);
    if r.service.Some? {
      var servers := resolve(r.service.value);
      var k :| 0 <= k < |servers| && servers[k] == s;
      if r.kind == SHARDED {
        c := WithHash(c, path, k);
        assert Denote(r, resolve, c, path) == {servers[k]};
      }
    } else {
      var i :| 0 <= i < |r.children| && s in May(r.children[i], resolve);
      c := MayIsReached(r.children[i], resolve, path + [i], s);
      if r.kind == SHARDED {
        SteerHash(r, resolve, c, path, i);
        c := WithHash(c, path, i);
      } else {
        ChildDenotes(r, resolve, c, path, i);
      }
    }
  }

  lemma {:induction false} OneEachServes(r: Rule, resolve: Resolver, c: Choices, path: seq<int>)
    requires Valid(r) && OneEach(r, resolve)
    ensures AtMostOne(Denote(r, resolve, c, path))
    decreases r
  {
    if r.service.None? {
      forall i | 0 <= i < |r.children|
        ensures AtMostOne(Denote(r.children[i], resolve, c, path + [i]))
        ensures Denote(r.children[i], resolve, c, path + [i]) <= May(r.children[i], resolve)
      {
        OneEachServes(r.children[i], resolve, c, path + [i]);
        DenoteWithinMay(r.children[i], resolve, c, path + [i]);
      }
      if r.kind == REPLICATED {
        forall s, t | s in Denote(r, resolve, c, path) && t in Denote(r, resolve, c, path) ensures s == t {
          var i :| 0 <= i < |r.children| && s in Denote(r.children[i], resolve, c, path + [i]);
          var j :| 0 <= j < |r.children| && t in Denote(r.children[j], resolve, c, path + [j]);
          assert i != j ==> s in May(r.children[i], resolve) && t in May(r.children[j], resolve);
        }
      }
    }
  }

  ghost predicate AlwaysOne(r: Rule, resolve: Resolver, path: seq<int>) {
    forall c: Choices :: AtMostOne(Denote(r, resolve, c, path))
  }

  lemma ChildAlwaysOne(r: Rule, resolve: Resolver, path: seq<int>, i: nat)
    requires Valid(r) && r.service.None? && i < |r.children| && AlwaysOne(r, resolve, path)
    ensures AlwaysOne(r.children[i], resolve, path + [i])
  {
    forall c: Choices ensures AtMostOne(Denote(r.children[i], resolve, c, path + [i])) {
      if r.kind == SHARDED {
        SteerHash(r, resolve, c, path, i);
        assert AtMostOne(Denote(r, resolve, WithHash(c, path, i), path));
      } else {
        ChildDenotes(r, resolve, c, path, i);
        assert AtMostOne(Denote(r, resolve, c, path));
      }
    }
  }

  /** Choices below two children are independent, so one request can reach any server of each. */
  lemma ChildrenShareOne(r: Rule, resolve: Resolver, path: seq<int>)
    requires Valid(r) && r.kind == REPLICATED && r.service.None? && AlwaysOne(r, resolve, path)
    ensures ShareOne(r.children, resolve)
  {
    forall i, j, s, t |
      0 <= i < |r.children| && 0 <= j < |r.children| && i != j
      && s in May(r.children[i], resolve) && t in May(r.children[j], resolve)
      ensures s == t
    {
      var c := MayIsReached(r.children[i], resolve, path + [i], s);
      var d := MayIsReached(r.children[j], resolve, path + [j], t);
      var m := Mixed(c, d, path + [i]);
      MixedChild(r, resolve, c, d, path, i, j);
      ChildDenotes(r, resolve, m, path, i);
      ChildDenotes(r, resolve, m, path, j);
      assert AtMostOne(Denote(r, resolve, m, path));
    }
  }

  lemma {:induction false} AlwaysOneMeans(r: Rule, resolve: Resolver, path: seq<int>)
    requires Valid(r) && AlwaysOne(r, resolve, path)
    ensures OneEach(r, resolve)
    decreases r
  {
    if r.service.Some? {
      assert AtMostOne(Denote(r, resolve, Choices(_ => 0, _ => 0), path));
    } else {
      forall i | 0 <= i < |r.children| ensures OneEach(r.children[i], resolve) {
        ChildAlwaysOne(r, resolve, path, i);
        AlwaysOneMeans(r.children[i], resolve, path + [i]);
      }
      if r.kind == REPLICATED {
        ChildrenShareOne(r, resolve, path);
      }
    }
  }

  ghost predicate GetsServedByOne(route: StringOrRoute, pools: map<string, seq<string>>) {
    forall c: Choices :: AtMostOne(Reach(route, pools, Get, c, []))
  }

  /**
   A get is served by one server, as documented, whatever the choices, if and only if the rules
   and pools say so.
   */
  lemma GetServedByOneIff(sha: Sha1, r: Rule, pools: map<string, seq<string>>)
    requires Valid(r)
    ensures Compile(sha, r).Success?
    ensures GetsServedByOne(Compile(sha, r).value, pools) <==> OneEach(r, Pooled(sha, pools))
  {
    CompilesIffValid(sha, r);
    var route, resolve := Compile(sha, r).value, Pooled(sha, pools);
    if OneEach(r, resolve) {
      forall c: Choices ensures AtMostOne(Reach(route, pools, Get, c, [])) {
        CompiledReach(sha, r, pools, Get, c, []);
        OneEachServes(r, resolve, c, []);
      }
    }
    if GetsServedByOne(route, pools) {
      forall c: Choices ensures AtMostOne(Denote(r, resolve, c, [])) {
        CompiledReach(sha, r, pools, Get, c, []);
        assert AtMostOne(Reach(route, pools, Get, c, []));
      }
      AlwaysOneMeans(r, resolve, []);
    }
  }

  /** Where every pool and group is populated, gets are served by one exactly where deletes undo sets. */
  lemma OneEachIffCovers(r: Rule, resolve: Resolver)
    requires Valid(r) && Populated(r, resolve)
    ensures OneEach(r, resolve) <==> Covers(r, resolve)
  {
    if OneEach(r, resolve) {
      forall c: Choices ensures Erase(r, resolve, c, []) == Denote(r, resolve, c, []) {
        OneEachServes(r, resolve, c, []);
        EraseWithinDenote(r, resolve, c, []);
      }
      AlwaysMeansCovers(r, resolve, []);
    }
    if Covers(r, resolve) {
      forall c: Choices ensures AtMostOne(Denote(r, resolve, c, [])) {
        CoveredAlways(r, resolve, c, []);
        EraseWithinDenote(r, resolve, c, []);
      }
      AlwaysOneMeans(r, resolve, []);
    }
  }

  /** A replicated service with two servers: whatever the choices, a get goes to both. */
  lemma GetReachesTwo(sha: Sha1, s: ServiceSpec, a: string, b: string, c: Choices)
    requires a != b
    ensures
      var r := Rule(REPLICATED, Some(s), []);
      var pools := map[PoolName(sha, s) := [a, b]];
      Compile(sha, r).Success? && Reach(Compile(sha, r).value, pools, Get, c, []) == {a, b}
      && !AtMostOne(Reach(Compile(sha, r).value, pools, Get, c, []))
  {
    DeleteLeavesStale(sha, s, a, b, c);
    var r, pools := Rule(REPLICATED, Some(s), []), map[PoolName(sha, s) := [a, b]];
    GetReachesAll(sha, r, pools, c);
    assert a in Reach(Compile(sha, r).value, pools, Get, c, []) && b in Reach(Compile(sha, r).value, pools, Get, c, []);
  }
}
