/**
 The schedule configmap, deployment, configmap.  A new ConfigMap is released to the old
 ReplicaSet before the Deployment moves to it, then reused, and so on: the round order
 of the convergence theorem is needed.
 */
module Livelock {
  import opened Wrappers
  import opened Names
  import opened Cluster
  import opened Sync
  import opened Protocol
  import opened Ownership
  import opened Convergence
  import opened Runs

  ghost predicate PassWith(
    sha: Sha1, s: State, p: Key, l1: Listing, l2: Listing, l3: Listing, now: nat, s': State)
  {
    && Fresh(s, p, l1)
    && var s1 := SyncConfigMap(sha, s, p, l1).0;
    && Fresh(s1, p, l2)
    && var s2 := SyncDeployment(sha, s1, p, l2, now).0;
    && Fresh(s2, p, l3)
    && s' == SyncConfigMap(sha, s2, p, l3).0
  }

  ghost predicate IsPass(sha: Sha1, s: State, p: Key, s': State) {
    exists l1, l2, l3, now :: PassWith(sha, s, p, l1, l2, l3, now, s')
  }

  ghost predicate Passes(sha: Sha1, p: Key, trace: seq<State>) {
    Chain(PassOf(sha, p), trace)
  }

  ghost function PassOf(sha: Sha1, p: Key): (State, State) -> bool { (s, s') => IsPass(sha, s, p, s') }

  /** The wanted ConfigMap is held, but the Deployment is still on another one, rolled out long ago. */
  ghost predicate Caught(sha: Sha1, s: State, p: Key, json: string) {
    && Reachable(sha, s) && Quiet(s, p, json)
    && var v := ViewOf(s, p);
    && v.held == Some(ConfigMapKey(sha, p, json))
    && v.mounted.Some? && v.mounted != v.held && v.matched
  }

  lemma UniqueMatch(sha: Sha1, s: State, d: Uid, r: Uid, r': Uid)
    requires Placed(sha, s) && d in s.deployments && r in s.replicaSets && r' in s.replicaSets
    requires Matches(s.deployments[d], s.replicaSets[r]) && Matches(s.deployments[d], s.replicaSets[r'])
    ensures r == r'
  {
    var dep, rs, rs' := s.deployments[d], s.replicaSets[r], s.replicaSets[r'];
    assert DeploymentOk(sha, s.proxies, dep);
    assert ReplicaSetOk(sha, s.proxies, s.deployments, rs) && ReplicaSetOk(sha, s.proxies, s.deployments, rs');
    MatchMeans(sha, s.proxies, dep, s.deployments, rs);
    MatchMeans(sha, s.proxies, dep, s.deployments, rs');
    assert SameTemplate(rs, rs');
  }

  /** Owner references of the wanted ConfigMap after one pass. */
  function Bounced(owners: seq<OwnerRef>, r: Uid, u: Uid): seq<OwnerRef> {
    Released(owners, r, u) + [OwnerRef(u, true)]
  }

  lemma BouncedAgain(owners: seq<OwnerRef>, r: Uid, u: Uid)
    requires r != u
    ensures Bounced(Bounced(owners, r, u), r, u) == Bounced(owners, r, u)
  {
    var kept := Released(owners, r, u);
    ReleasedOwn(owners, r, u, r);
    AppendedOwners(kept, OwnerRef(u, true), r);
    assert forall o :: o in kept ==> o.uid != u;
    NothingToDrop(kept, u);
    assert (kept + [OwnerRef(u, true)])[..|kept|] == kept;
  }

  lemma NothingToDrop(owners: seq<OwnerRef>, u: Uid)
    requires forall o :: o in owners ==> o.uid != u
    ensures Without(owners, u) == owners
  {
    if owners != [] {
      var front := owners[..|owners| - 1];
      NothingToDrop(front, u);
      assert owners == front + [owners[|owners| - 1]];
    }
  }

  /** The state with the owner references of one ConfigMap replaced. */
  ghost function Refer(s: State, k: Key, owners: seq<OwnerRef>): State
    requires k in s.configMaps
  {
    s.(configMaps := WithOwners(s.configMaps, k, owners))
  }

  lemma SyncReleases(sha: Sha1, s: State, p: Key, l: Listing, k: Key, d: Uid, r: Uid)
    requires Fresh(s, p, l) && Visible(s, p) && GateOpen(s, p) && k in s.configMaps && d in s.deployments
    requires Controlled(s.configMaps, s.proxies[p].uid, l.configMaps) == [k] && l.owned == [d]
    requires NewReplicaSet(s.replicaSets, s.deployments[d], l.replicaSets) == Some(r)
    ensures SyncConfigMap(sha, s, p, l).0 == Refer(s, k, Released(s.configMaps[k].owners, r, s.proxies[p].uid))
  {
  }

  lemma FoundMatch(sha: Sha1, s: State, p: Key, l: Listing, d: Uid, r: Uid)
    requires Placed(sha, s) && Fresh(s, p, l) && d in s.deployments && s.deployments[d].ns == p.ns
    requires r in s.replicaSets && Matches(s.deployments[d], s.replicaSets[r])
    ensures NewReplicaSet(s.replicaSets, s.deployments[d], l.replicaSets) == Some(r)
  {
    ListedMatch(s, p, l, d);
    UniqueMatch(sha, s, d, r, NewReplicaSet(s.replicaSets, s.deployments[d], l.replicaSets).value);
  }

  /** The ReplicaSet of the Deployment's current template. */
  ghost predicate Current(s: State, p: Key, r: Uid) {
    && r in s.replicaSets && DeploymentOf(s, p).Some?
    && Matches(s.deployments[DeploymentOf(s, p).value], s.replicaSets[r])
  }

  /** The first configmap sync of a pass lets go of the wanted ConfigMap. */
  lemma LetGo(sha: Sha1, s: State, p: Key, json: string, l: Listing, r: Uid)
    requires Caught(sha, s, p, json) && Fresh(s, p, l) && Current(s, p, r)
    ensures
      var k := ConfigMapKey(sha, p, json);
      && k in s.configMaps
      && SyncConfigMap(sha, s, p, l).0 == Refer(s, k, Released(s.configMaps[k].owners, r, s.proxies[p].uid))
  {
    var k, d := ConfigMapKey(sha, p, json), DeploymentOf(s, p).value;
    ReachableInv(sha, s);
    ListedMine(sha, s, p, l);
    ListedOwned(sha, s, p, l);
    assert s.deployments[d].ns == p.ns by { assert DeploymentOk(sha, s.proxies, s.deployments[d]); }
    FoundMatch(sha, s, p, l, d, r);
    SyncReleases(sha, s, p, l, k, d, r);
  }

  /** The second one takes it back. */
  lemma TakeBack(sha: Sha1, s: State, p: Key, json: string, l: Listing)
    requires Reachable(sha, s) && Quiet(s, p, json) && Fresh(s, p, l) && ConfigMapKey(sha, p, json) in s.configMaps
    requires ViewOf(s, p).held == None
    requires ViewOf(s, p).mounted.Some? && ViewOf(s, p).mounted != Some(ConfigMapKey(sha, p, json))
    ensures
      var k := ConfigMapKey(sha, p, json);
      SyncConfigMap(sha, s, p, l).0 == Refer(s, k, s.configMaps[k].owners + [OwnerRef(s.proxies[p].uid, true)])
  {
    var k, d := ConfigMapKey(sha, p, json), DeploymentOf(s, p).value;
    ReachableInv(sha, s);
    ListedMine(sha, s, p, l);
    ListedOwned(sha, s, p, l);
    assert DeploymentOk(sha, s.proxies, s.deployments[d]);
    StandardMounts(s.deployments[d].template, k);
  }

  /** One configmap sync of a quiet proxy in a reachable state. */
  lemma ConfigMapMove(sha: Sha1, s: State, p: Key, json: string, l: Listing, s': State)
    requires Reachable(sha, s) && Quiet(s, p, json) && Fresh(s, p, l) && s' == SyncConfigMap(sha, s, p, l).0
    ensures Reachable(sha, s') && Quiet(s', p, json)
    ensures ViewOf(s', p) == AfterConfigMapSync(ViewOf(s, p), ConfigMapKey(sha, p, json))
  {
    ReachableInv(sha, s);
    SyncsKeepProxies(sha, s, p, l, 0);
    ReachableStep(sha, s, ConfigMapSync(p, l));
    ConfigMapSyncView(sha, s, p, json, l);
  }

  /** With nothing held, the deployment sync has nothing to do. */
  lemma IdleDeployment(sha: Sha1, s: State, p: Key, json: string, l: Listing, now: nat)
    requires Reachable(sha, s) && Quiet(s, p, json) && Fresh(s, p, l) && ViewOf(s, p).held == None
    ensures SyncDeployment(sha, s, p, l, now).0 == s
  {
    ReachableInv(sha, s);
    DeploymentSyncView(sha, s, p, json, l, now);
  }

  /** A pass is two configmap syncs: in between, the deployment sync finds nothing held. */
  lemma PassIsTwoSyncs(sha: Sha1, s: State, p: Key, json: string, s': State) returns (l1: Listing, l3: Listing)
    requires Caught(sha, s, p, json) && IsPass(sha, s, p, s')
    ensures Fresh(s, p, l1)
    ensures var s1 := SyncConfigMap(sha, s, p, l1).0;
      Fresh(s1, p, l3) && s' == SyncConfigMap(sha, s1, p, l3).0
  {
    var l2, now;
    l1, l2, l3, now :| PassWith(sha, s, p, l1, l2, l3, now, s');
    var s1 := SyncConfigMap(sha, s, p, l1).0;
    ConfigMapMove(sha, s, p, json, l1, s1);
    IdleDeployment(sha, s1, p, json, l2, now);
  }

  lemma PassKeepsCaught(sha: Sha1, s: State, p: Key, json: string, s': State)
    requires Caught(sha, s, p, json) && IsPass(sha, s, p, s')
    ensures Caught(sha, s', p, json) && ViewOf(s', p) == ViewOf(s, p)
  {
    var l1, l3 := PassIsTwoSyncs(sha, s, p, json, s');
    var s1 := SyncConfigMap(sha, s, p, l1).0;
    ConfigMapMove(sha, s, p, json, l1, s1);
    ConfigMapMove(sha, s1, p, json, l3, s');
  }

  ghost predicate BouncesTo(s: State, p: Key, k: Key, r: Uid, s': State) {
    && k in s.configMaps && p in s.proxies
    && s' == Refer(s, k, Bounced(s.configMaps[k].owners, r, s.proxies[p].uid))
  }

  /** A whole pass: only the owner references of the wanted ConfigMap bounce. */
  lemma PassBounces(sha: Sha1, s: State, p: Key, json: string, s': State, r: Uid)
    requires Caught(sha, s, p, json) && IsPass(sha, s, p, s') && Current(s, p, r)
    ensures BouncesTo(s, p, ConfigMapKey(sha, p, json), r, s')
  {
    var k, u := ConfigMapKey(sha, p, json), s.proxies[p].uid;
    var l1, l3 := PassIsTwoSyncs(sha, s, p, json, s');
    var s1 := SyncConfigMap(sha, s, p, l1).0;
    LetGo(sha, s, p, json, l1, r);
    ConfigMapMove(sha, s, p, json, l1, s1);
    TakeBack(sha, s1, p, json, l3);
    ReferTwice(s, k, Released(s.configMaps[k].owners, r, u), Bounced(s.configMaps[k].owners, r, u));
  }

  lemma ReferTwice(s: State, k: Key, a: seq<OwnerRef>, b: seq<OwnerRef>)
    requires k in s.configMaps
    ensures Refer(Refer(s, k, a), k, b) == Refer(s, k, b)
    ensures Refer(s, k, a).configMaps[k].owners == a
  {
  }

  lemma BouncesSettle(s: State, p: Key, k: Key, r: Uid, s': State, s'': State)
    requires BouncesTo(s, p, k, r, s') && BouncesTo(s', p, k, r, s'') && r != s.proxies[p].uid
    ensures s'' == s'
  {
    var owners, u := s.configMaps[k].owners, s.proxies[p].uid;
    BouncedAgain(owners, r, u);
    ReferTwice(s, k, Bounced(owners, r, u), Bounced(owners, r, u));
  }

  lemma CurrentStays(s: State, p: Key, r: Uid, k: Key, owners: seq<OwnerRef>)
    requires Current(s, p, r) && OneDeployment(s.deployments) && k in s.configMaps
    ensures Current(Refer(s, k, owners), p, r)
  {
    SameDeployments(s, Refer(s, k, owners), p);
  }

  /** A second pass reproduces the state the first one left, exactly. */
  lemma SecondPassRepeats(sha: Sha1, s: State, p: Key, json: string, s': State, s'': State)
    requires Caught(sha, s, p, json) && IsPass(sha, s, p, s') && IsPass(sha, s', p, s'')
    ensures s'' == s'
  {
    var k, d := ConfigMapKey(sha, p, json), DeploymentOf(s, p).value;
    var r :| r in s.replicaSets && Matches(s.deployments[d], s.replicaSets[r]);
    PassBounces(sha, s, p, json, s', r);
    PassKeepsCaught(sha, s, p, json, s');
    assert OneDeployment(s.deployments) && r != s.proxies[p].uid by { ReachableInv(sha, s); }
    CurrentStays(s, p, r, k, Bounced(s.configMaps[k].owners, r, s.proxies[p].uid));
    PassBounces(sha, s', p, json, s'', r);
    BouncesSettle(s, p, k, r, s', s'');
  }

  lemma {:induction false} AlwaysCaught(sha: Sha1, p: Key, json: string, trace: seq<State>, n: nat)
    requires Passes(sha, p, trace) && Caught(sha, trace[0], p, json) && n < |trace|
    ensures Caught(sha, trace[n], p, json) && ViewOf(trace[n], p) == ViewOf(trace[0], p)
  {
    if n > 0 {
      AlwaysCaught(sha, p, json, trace, n - 1);
      PassKeepsCaught(sha, trace[n - 1], p, json, trace[n]);
    }
  }

  lemma CaughtIsUnsettled(sha: Sha1, s: State, p: Key, json: string)
    requires Caught(sha, s, p, json)
    ensures !Settled(sha, s, p, json)
  {
    ReachableInv(sha, s);
    ControlledMeans(sha, s, p, ConfigMapKey(sha, p, json));
  }

  /** Forever: no number of passes settles the proxy, and every state after the first pass is the same. */
  lemma {:induction false} NeverSettles(sha: Sha1, p: Key, json: string, trace: seq<State>, n: nat)
    requires Passes(sha, p, trace) && Caught(sha, trace[0], p, json) && n < |trace|
    ensures !Settled(sha, trace[n], p, json)
    ensures n >= 1 ==> trace[n] == trace[1]
  {
    AlwaysCaught(sha, p, json, trace, n);
    CaughtIsUnsettled(sha, trace[n], p, json);
    if n >= 2 {
      NeverSettles(sha, p, json, trace, n - 1);
      SecondPassRepeats(sha, trace[0], p, json, trace[1], trace[n]);
    }
  }

  // ---- Such states are reachable ----

  lemma NewProxyView(sha: Sha1, p: Key, json: string) returns (s: State)
    ensures Reachable(sha, s) && Quiet(s, p, json) && ViewOf(s, p) == View(None, None, false)
  {
    assert IsRun(sha, Empty, []) && IsOrderly(sha, Empty, []) && After(sha, Empty, []) == Empty;
    assert Reachable(sha, Empty);
    var step := AddProxy(p, 1, 1, Success(json), "");
    ReachableStep(sha, Empty, step);
    s := Next(sha, Empty, step);
  }

  lemma Deployed(sha: Sha1, s: State, p: Key, json: string) returns (s': State)
    requires Reachable(sha, s) && Quiet(s, p, json) && ViewOf(s, p).held.Some?
    ensures Reachable(sha, s') && Quiet(s', p, json)
    ensures ViewOf(s', p).held == ViewOf(s', p).mounted == ViewOf(s, p).held
  {
    var l := FreshExists(sha, s, p);
    ReachableInv(sha, s);
    SyncsKeepProxies(sha, s, p, l, 0);
    ReachableStep(sha, s, DeploymentSync(p, l, 0));
    DeploymentSyncView(sha, s, p, json, l, 0);
    s' := SyncDeployment(sha, s, p, l, 0).0;
  }

  lemma RolledOut(sha: Sha1, s: State, p: Key, json: string) returns (s': State)
    requires Reachable(sha, s) && Quiet(s, p, json) && ViewOf(s, p).mounted.Some?
    ensures Reachable(sha, s') && Quiet(s', p, json)
    ensures ViewOf(s', p) == ViewOf(s, p).(matched := true)
  {
    ReachableInv(sha, s);
    RolledView(sha, s, p, "");
    s' := Rolled(sha, s, p, "");
    if !ViewOf(s, p).matched {
      ReachableStep(sha, s, CreateReplicaSet(DeploymentOf(s, p).value, ""));
    }
  }

  lemma ConfigMapSynced(sha: Sha1, s: State, p: Key, json: string) returns (s': State)
    requires Reachable(sha, s) && Quiet(s, p, json)
    ensures Reachable(sha, s') && Quiet(s', p, json)
    ensures ViewOf(s', p) == AfterConfigMapSync(ViewOf(s, p), ConfigMapKey(sha, p, json))
  {
    var l := FreshExists(sha, s, p);
    s' := SyncConfigMap(sha, s, p, l).0;
    ConfigMapMove(sha, s, p, json, l, s');
  }

  lemma Edited(sha: Sha1, s: State, p: Key, json: string, json': string) returns (s': State)
    requires Reachable(sha, s) && Quiet(s, p, json)
    ensures Reachable(sha, s') && Quiet(s', p, json') && ViewOf(s', p) == ViewOf(s, p)
  {
    var step := ChangeProxy(p, 2, 2, Success(json'), "");
    ReachableStep(sha, s, step);
    s' := Next(sha, s, step);
    assert OneHeld(s.proxies, s.configMaps) && OneDeployment(s.deployments) by { ReachableInv(sha, s); }
    EditedView(s, p, s'.proxies[p], s');
  }

  /** An edit changes nothing the view shows. */
  lemma EditedView(s: State, p: Key, proxy: Proxy, s': State)
    requires OneHeld(s.proxies, s.configMaps) && OneDeployment(s.deployments)
    requires p in s.proxies && proxy.uid == s.proxies[p].uid && s' == s.(proxies := s.proxies[p := proxy])
    ensures ViewOf(s', p) == ViewOf(s, p)
  {
    SameDeployments(s, s', p);
    forall k ensures Held(s'.proxies, s'.configMaps, k) == Held(s.proxies, s.configMaps, k) {
    }
    if HeldBy(s, p).Some? {
      UniqueHeld(s', p, HeldBy(s, p).value);
    }
  }

  /** For any two configurations with different names, an edit in mid-life leads into the trap. */
  lemma CaughtIsReachable(sha: Sha1, p: Key, json: string, json': string) returns (s: State)
    requires ConfigMapKey(sha, p, json) != ConfigMapKey(sha, p, json')
    ensures Caught(sha, s, p, json')
  {
    s := NewProxyView(sha, p, json);
    s := ConfigMapSynced(sha, s, p, json);
    s := Deployed(sha, s, p, json);
    s := RolledOut(sha, s, p, json);
    s := ConfigMapSynced(sha, s, p, json);
    s := Edited(sha, s, p, json, json');
    s := ConfigMapSynced(sha, s, p, json');
  }

  /** Four rounds are needed from some reachable state: one edit before the first Deployment is enough. */
  lemma FourRoundsNeeded(sha: Sha1, p: Key, json: string, json': string) returns (trace: seq<State>)
    requires ConfigMapKey(sha, p, json) != ConfigMapKey(sha, p, json')
    ensures |trace| == 4 && Rounds(sha, p, trace) && Reachable(sha, trace[0]) && Quiet(trace[0], p, json')
    ensures !Settled(sha, trace[3], p, json')
  {
    var s := OutdatedIsReachable(sha, p, json, json');
    trace := RoundsExist(sha, s, p, json', 3);
    OutdatedTakesLonger(sha, p, json, json', trace);
  }

  /** An edit between the first ConfigMap and the first Deployment. */
  lemma OutdatedIsReachable(sha: Sha1, p: Key, json: string, json': string) returns (s: State)
    ensures Reachable(sha, s) && Quiet(s, p, json')
    ensures ViewOf(s, p) == View(Some(ConfigMapKey(sha, p, json)), None, false)
  {
    s := NewProxyView(sha, p, json);
    s := ConfigMapSynced(sha, s, p, json);
    s := Edited(sha, s, p, json, json');
  }

  lemma OutdatedTakesLonger(sha: Sha1, p: Key, json: string, json': string, trace: seq<State>)
    requires Rounds(sha, p, trace) && |trace| > 3 && Reachable(sha, trace[0]) && Quiet(trace[0], p, json')
    requires ViewOf(trace[0], p) == View(Some(ConfigMapKey(sha, p, json)), None, false)
    requires ConfigMapKey(sha, p, json) != ConfigMapKey(sha, p, json')
    ensures !Settled(sha, trace[3], p, json')
  {
    ReachableInv(sha, trace[0]);
    ThreeRoundsAreNotEnough(sha, p, json', trace);
  }

  lemma PassExists(sha: Sha1, s: State, p: Key, json: string) returns (s': State)
    requires Caught(sha, s, p, json)
    ensures IsPass(sha, s, p, s')
  {
    var l1 := FreshExists(sha, s, p);
    var s1 := SyncConfigMap(sha, s, p, l1).0;
    ConfigMapMove(sha, s, p, json, l1, s1);
    var l2 := FreshExists(sha, s1, p);
    IdleDeployment(sha, s1, p, json, l2, 0);
    s' := SyncConfigMap(sha, s1, p, l2).0;
    assert PassWith(sha, s, p, l1, l2, l2, 0, s');
  }

  /** The cycle exists: from a trapped state there are passes without end. */
  lemma {:induction false} PassesExist(sha: Sha1, s: State, p: Key, json: string, n: nat) returns (trace: seq<State>)
    requires Caught(sha, s, p, json)
    ensures |trace| == n + 1 && trace[0] == s && Passes(sha, p, trace)
  {
    if n == 0 {
      trace := [s];
    } else {
      trace := PassesExist(sha, s, p, json, n - 1);
      AlwaysCaught(sha, p, json, trace, n - 1);
      var s' := PassExists(sha, trace[n - 1], p, json);
      ChainMore(PassOf(sha, p), trace, s');
      trace := trace + [s'];
    }
  }
}
