/**
 Convergence in a busy cluster: between the moves of a round other proxies come, change, sync
 and go, and the garbage collector and the ReplicaSets of old templates do what they like.
 */
module Bystanders {
  import opened Wrappers
  import opened Names
  import opened Cluster
  import opened Sync
  import opened Protocol
  import opened Ownership
  import opened Convergence
  import opened Runs
  import opened Livelock
  import opened Traps

  /** A step that is not about this proxy: neither its syncs, nor an edit, nor the rollout of its Deployment. */
  predicate Foreign(s: State, step: Step, p: Key) {
    match step
    case ConfigMapSync(q, _) => q != p
    case DeploymentSync(q, _, _) => q != p
    case AddProxy(q, _, _, _, _) => q != p
    case ChangeProxy(q, _, _, _, _) => q != p
    case DeleteProxy(q) => q != p
    case CreateReplicaSet(d, _) => d in s.deployments && DeploymentHome(s.deployments[d]) != p
    case _ => true
  }

  // ---- What a foreign step leaves alone ----

  ghost predicate SameHeldFor(s: State, s': State, p: Key) {
    forall k | ConfigMapHome(k) == p :: Held(s.proxies, s.configMaps, k) <==> Held(s'.proxies, s'.configMaps, k)
  }

  ghost predicate SameDeploymentsFor(ds: Deployments, ds': Deployments, p: Key) {
    && (forall d :: d in ds && DeploymentHome(ds[d]) == p ==> d in ds' && ds'[d] == ds[d])
    && (forall d :: d in ds' && DeploymentHome(ds'[d]) == p ==> d in ds && ds[d] == ds'[d])
  }

  ghost predicate SameMatchFor(ds: Deployments, rss: ReplicaSets, rss': ReplicaSets, p: Key) {
    forall d :: d in ds && DeploymentHome(ds[d]) == p ==> (HasMatch(rss, ds[d]) <==> HasMatch(rss', ds[d]))
  }

  ghost predicate Leaves(s: State, s': State, p: Key) {
    && p in s.proxies && p in s'.proxies && s'.proxies[p] == s.proxies[p]
    && SameHeldFor(s, s', p)
    && SameDeploymentsFor(s.deployments, s'.deployments, p)
    && SameMatchFor(s.deployments, s.replicaSets, s'.replicaSets, p)
  }

  lemma SameHeldBy(s: State, s': State, p: Key)
    requires OneHeld(s'.proxies, s'.configMaps) && SameHeldFor(s, s', p)
    ensures HeldBy(s', p) == HeldBy(s, p)
  {
    if HeldBy(s, p).Some? {
      UniqueHeld(s', p, HeldBy(s, p).value);
    }
  }

  lemma SameView(s: State, s': State, p: Key)
    requires OneHeld(s'.proxies, s'.configMaps) && OneDeployment(s'.deployments) && Leaves(s, s', p)
    ensures ViewOf(s', p) == ViewOf(s, p)
  {
    SameHeldBy(s, s', p);
    if DeploymentOf(s, p).Some? {
      UniqueDeployment(s', p, DeploymentOf(s, p).value);
    } else {
      assert !HasDeployment(s'.deployments, p);
    }
  }

  // ---- Syncs of another proxy ----

  ghost predicate TouchesOnly(cms: ConfigMaps, cms': ConfigMaps, q: Key) {
    forall k | ConfigMapHome(k) != q :: (k in cms <==> k in cms') && (k in cms ==> cms'[k] == cms[k])
  }

  lemma ConfigMapSyncTouchesAt(sha: Sha1, s: State, q: Key, l: Listing)
    requires Fresh(s, q, l) && Visible(s, q)
    requires forall k :: k in Controlled(s.configMaps, s.proxies[q].uid, l.configMaps) ==> ConfigMapHome(k) == q
    ensures
      var s' := SyncConfigMap(sha, s, q, l).0;
      TouchesOnly(s.configMaps, s'.configMaps, q) && s' == s.(configMaps := s'.configMaps)
  {
    var mine := Controlled(s.configMaps, s.proxies[q].uid, l.configMaps);
    if |mine| == 1 {
      assert mine[0] in mine;
    }
    if s.proxies[q].wanted.Success? {
      ConfigMapHomeOf(sha, q, s.proxies[q].wanted.value);
    }
  }

  /** A configmap sync touches only ConfigMaps made for its own proxy. */
  lemma ConfigMapSyncTouches(sha: Sha1, s: State, q: Key, l: Listing)
    requires Inv(sha, s) && Fresh(s, q, l)
    ensures
      var s' := SyncConfigMap(sha, s, q, l).0;
      TouchesOnly(s.configMaps, s'.configMaps, q) && s' == s.(configMaps := s'.configMaps)
  {
    if Visible(s, q) {
      AtMostOneControlled(sha, s, q, l);
      ConfigMapSyncTouchesAt(sha, s, q, l);
    }
  }

  lemma DeploymentSyncTouchesAt(sha: Sha1, s: State, q: Key, l: Listing, now: nat, p: Key, mine: seq<Key>)
    requires Fresh(s, q, l) && Visible(s, q) && GateOpen(s, q) && p != q && s.nextUid !in s.deployments
    requires mine == Controlled(s.configMaps, s.proxies[q].uid, l.configMaps) && |mine| <= 1 && |l.owned| <= 1
    requires forall d :: d in l.owned ==> DeploymentHome(s.deployments[d]) == q
    ensures
      var s' := SyncDeployment(sha, s, q, l, now).0;
      && SameDeploymentsFor(s.deployments, s'.deployments, p)
      && s'.proxies == s.proxies && s'.configMaps == s.configMaps && s'.replicaSets == s.replicaSets
  {
    DeploymentSyncCases(sha, s, q, l, now, mine);
    if mine != [] && l.owned == [] {
      LabelHomeOf(sha, q);
    } else if mine != [] {
      assert l.owned[0] in l.owned;
      MovedTouches(s, l.owned[0], mine, p);
    }
  }

  /** A deployment sync touches only its own proxy's Deployment. */
  lemma DeploymentSyncTouches(sha: Sha1, s: State, q: Key, l: Listing, now: nat, p: Key)
    requires Inv(sha, s) && Fresh(s, q, l) && p != q
    ensures
      var s' := SyncDeployment(sha, s, q, l, now).0;
      && SameDeploymentsFor(s.deployments, s'.deployments, p)
      && s'.proxies == s.proxies && s'.configMaps == s.configMaps && s'.replicaSets == s.replicaSets
  {
    if Visible(s, q) && GateOpen(s, q) {
      AtMostOneControlled(sha, s, q, l);
      AtMostOneOwned(sha, s, q, l);
      DeploymentSyncTouchesAt(sha, s, q, l, now, p, Controlled(s.configMaps, s.proxies[q].uid, l.configMaps));
    }
  }

  lemma MovedTouches(s: State, d: Uid, mine: seq<Key>, p: Key)
    requires d in s.deployments && DeploymentHome(s.deployments[d]) != p && |mine| == 1
    ensures SameDeploymentsFor(s.deployments, UpdateDeployment(s, d, mine).0.deployments, p)
  {
  }

  // ---- The cluster around it ----

  /** Only a ReplicaSet made for the proxy can match its Deployment. */
  lemma ForeignNeverMatches(sha: Sha1, ps: Proxies, ds: Deployments, d: Uid, rs: ReplicaSet, p: Key)
    requires d in ds && DeploymentOk(sha, ps, ds[d]) && DeploymentHome(ds[d]) == p
    requires ReplicaSetOk(sha, ps, ds, rs) && ReplicaSetHome(rs) != p
    ensures !Matches(ds[d], rs)
  {
    MatchMeans(sha, ps, ds[d], ds, rs);
  }

  lemma CreatedElsewhere(sha: Sha1, s: State, d: Uid, hash: string, p: Key)
    requires DeploymentsOk(sha, s.proxies, s.deployments) && s.nextUid !in s.replicaSets
    requires d in s.deployments && DeploymentHome(s.deployments[d]) != p
    ensures SameMatchFor(
      s.deployments, s.replicaSets, s.replicaSets[s.nextUid := ReplicaSetFor(d, s.deployments[d], hash)], p)
  {
    var rs := ReplicaSetFor(d, s.deployments[d], hash);
    var rss := s.replicaSets[s.nextUid := rs];
    assert DeploymentOk(sha, s.proxies, s.deployments[d]);
    NewReplicaSetOk(sha, s.proxies, s.deployments, d, hash);
    forall e | e in s.deployments && DeploymentHome(s.deployments[e]) == p
      ensures HasMatch(s.replicaSets, s.deployments[e]) <==> HasMatch(rss, s.deployments[e])
    {
      assert DeploymentOk(sha, s.proxies, s.deployments[e]);
      ForeignNeverMatches(sha, s.proxies, s.deployments, e, rs, p);
      if r :| r in s.replicaSets && Matches(s.deployments[e], s.replicaSets[r]) {
        assert Matches(s.deployments[e], rss[r]);
      }
    }
  }

  lemma RemovedMatch(sha: Sha1, ps: Proxies, ds: Deployments, rss: ReplicaSets, r: Uid, d: Uid)
    requires d in ds && r in rss && DeploymentOk(sha, ps, ds[d]) && ReplicaSetOk(sha, ps, ds, rss[r])
    requires Alive(ps, DeploymentHome(ds[d])) && (rss[r].deployment in ds ==> !Matches(ds[d], rss[r]))
    ensures HasMatch(rss, ds[d]) <==> HasMatch(rss - {r}, ds[d])
  {
    MatchMeans(sha, ps, ds[d], ds, rss[r]);
    if x :| x in rss && Matches(ds[d], rss[x]) {
      assert Matches(ds[d], (rss - {r})[x]);
    }
    if x :| x in rss - {r} && Matches(ds[d], (rss - {r})[x]) {
      assert Matches(ds[d], rss[x]);
    }
  }

  /** A ReplicaSet that goes did not match the Deployment of a live proxy. */
  lemma RemovedElsewhere(sha: Sha1, s: State, r: Uid, p: Key)
    requires DeploymentsOk(sha, s.proxies, s.deployments) && ReplicaSetsOk(sha, s.proxies, s.deployments, s.replicaSets)
    requires Visible(s, p) && (Enabled(s, DeleteReplicaSet(r)) || Enabled(s, CollectReplicaSet(r)))
    ensures SameMatchFor(s.deployments, s.replicaSets, s.replicaSets - {r}, p)
  {
    forall d | d in s.deployments && DeploymentHome(s.deployments[d]) == p
      ensures HasMatch(s.replicaSets, s.deployments[d]) <==> HasMatch(s.replicaSets - {r}, s.deployments[d])
    {
      RemovedMatch(sha, s.proxies, s.deployments, s.replicaSets, r, d);
    }
  }

  lemma CollectedElsewhere(sha: Sha1, s: State, d: Uid, p: Key)
    requires DeploymentsOk(sha, s.proxies, s.deployments)
    requires Visible(s, p) && d in s.deployments && AllDead(s, s.deployments[d].owners)
    ensures SameDeploymentsFor(s.deployments, s.deployments - {d}, p)
  {
    assert DeploymentOk(sha, s.proxies, s.deployments[d]);
    assert s.deployments[d].owners[0].uid == s.proxies[DeploymentHome(s.deployments[d])].uid;
  }

  lemma PrunedElsewhere(sha: Sha1, s: State, k: Key, p: Key)
    requires Visible(s, p) && Enabled(s, PruneOwners(k))
    ensures SameHeldFor(s, Next(sha, s, PruneOwners(k)), p)
  {
    var s' := Next(sha, s, PruneOwners(k));
    LiveOwnersOwn(s, s.configMaps[k].owners, s.proxies[p].uid);
    assert LiveUid(s, s.proxies[p].uid);
  }

  lemma CollectedMapElsewhere(sha: Sha1, s: State, k: Key, p: Key)
    requires Visible(s, p) && Enabled(s, CollectConfigMap(k))
    ensures SameHeldFor(s, Next(sha, s, CollectConfigMap(k)), p)
  {
    assert LiveUid(s, s.proxies[p].uid);
  }

  // ---- Every foreign step ----

  lemma SyncLeaves(sha: Sha1, s: State, step: Step, p: Key)
    requires Inv(sha, s) && Visible(s, p) && Enabled(s, step) && Foreign(s, step, p)
    requires step.ConfigMapSync? || step.DeploymentSync?
    ensures Leaves(s, Next(sha, s, step), p)
  {
    match step
    case ConfigMapSync(q, l) => ConfigMapSyncTouches(sha, s, q, l);
    case DeploymentSync(q, l, now) => DeploymentSyncTouches(sha, s, q, l, now, p);
  }

  lemma ReplicaSetStepLeaves(sha: Sha1, s: State, step: Step, p: Key)
    requires DeploymentsOk(sha, s.proxies, s.deployments) && ReplicaSetsOk(sha, s.proxies, s.deployments, s.replicaSets)
    requires s.nextUid !in s.replicaSets && Visible(s, p) && Enabled(s, step) && Foreign(s, step, p)
    requires step.CreateReplicaSet? || step.DeleteReplicaSet? || step.CollectReplicaSet?
    ensures Leaves(s, Next(sha, s, step), p)
  {
    match step
    case CreateReplicaSet(d, hash) => CreatedElsewhere(sha, s, d, hash, p);
    case DeleteReplicaSet(r) => RemovedElsewhere(sha, s, r, p);
    case CollectReplicaSet(r) => RemovedElsewhere(sha, s, r, p);
  }

  lemma ProxyStepLeaves(sha: Sha1, s: State, step: Step, p: Key)
    requires Visible(s, p) && Enabled(s, step) && Foreign(s, step, p)
    requires step.AddProxy? || step.ChangeProxy? || step.DeleteProxy?
    ensures Leaves(s, Next(sha, s, step), p)
  {
  }

  lemma CollectorLeaves(sha: Sha1, s: State, step: Step, p: Key)
    requires DeploymentsOk(sha, s.proxies, s.deployments) && Visible(s, p) && Enabled(s, step)
    requires step.CollectDeployment? || step.CollectConfigMap? || step.PruneOwners?
    ensures Leaves(s, Next(sha, s, step), p)
  {
    match step
    case CollectDeployment(d) => CollectedElsewhere(sha, s, d, p);
    case CollectConfigMap(k) => CollectedMapElsewhere(sha, s, k, p);
    case PruneOwners(k) => PrunedElsewhere(sha, s, k, p);
  }

  /** Steps of other proxies, of the collector and of old ReplicaSets leave a proxy's view alone. */
  lemma ForeignStepKeepsView(sha: Sha1, s: State, step: Step, p: Key)
    requires Reachable(sha, s) && Visible(s, p) && Enabled(s, step) && Orderly(s, step) && Foreign(s, step, p)
    ensures Reachable(sha, Next(sha, s, step))
    ensures p in Next(sha, s, step).proxies && Next(sha, s, step).proxies[p] == s.proxies[p]
    ensures ViewOf(Next(sha, s, step), p) == ViewOf(s, p)
  {
    var s' := Next(sha, s, step);
    ReachableStep(sha, s, step);
    assert Leaves(s, s', p) by {
      ReachableInv(sha, s);
      if step.ConfigMapSync? || step.DeploymentSync? {
        SyncLeaves(sha, s, step, p);
      } else if step.AddProxy? || step.ChangeProxy? || step.DeleteProxy? {
        ProxyStepLeaves(sha, s, step, p);
      } else if step.CreateReplicaSet? || step.DeleteReplicaSet? || step.CollectReplicaSet? {
        ReplicaSetStepLeaves(sha, s, step, p);
      } else {
        CollectorLeaves(sha, s, step, p);
      }
    }
    assert OneHeld(s'.proxies, s'.configMaps) && OneDeployment(s'.deployments) by { ReachableInv(sha, s'); }
    SameView(s, s', p);
  }

  // ---- Busy rounds ----

  /** A stretch of foreign steps. */
  ghost predicate Around(sha: Sha1, p: Key, jsons: set<string>, s: State, steps: seq<Step>, s': State)
    decreases |steps|
  {
    if steps == [] then s' == s
    else
      && Enabled(s, steps[0]) && Orderly(s, steps[0]) && Foreign(s, steps[0], p) && AsksOnly(steps[0], jsons)
      && Around(sha, p, jsons, Next(sha, s, steps[0]), steps[1..], s')
  }

  ghost predicate Meanwhile(sha: Sha1, p: Key, jsons: set<string>, s: State, s': State) {
    exists steps :: Around(sha, p, jsons, s, steps, s')
  }

  ghost predicate Lively(sha: Sha1, s: State, jsons: set<string>, p: Key, json: string) {
    ReachableAsking(sha, s, jsons) && Quiet(s, p, json)
  }

  lemma AskingIsReachable(sha: Sha1, s: State, jsons: set<string>)
    requires ReachableAsking(sha, s, jsons)
    ensures Reachable(sha, s)
  {
    var steps :| IsRun(sha, Empty, steps) && IsOrderly(sha, Empty, steps) && After(sha, Empty, steps) == s
      && forall i :: 0 <= i < |steps| ==> AsksOnly(steps[i], jsons);
  }

  lemma {:induction false} AroundKeepsView(
    sha: Sha1, p: Key, json: string, jsons: set<string>, s: State, steps: seq<Step>, s': State)
    requires Lively(sha, s, jsons, p, json) && Around(sha, p, jsons, s, steps, s')
    ensures Lively(sha, s', jsons, p, json) && ViewOf(s', p) == ViewOf(s, p)
    decreases |steps|
  {
    if steps != [] {
      AskingIsReachable(sha, s, jsons);
      ForeignStepKeepsView(sha, s, steps[0], p);
      AskingStep(sha, s, jsons, steps[0]);
      AroundKeepsView(sha, p, json, jsons, Next(sha, s, steps[0]), steps[1..], s');
    }
  }

  lemma MeanwhileKeepsView(sha: Sha1, p: Key, json: string, jsons: set<string>, s: State, s': State)
    requires Lively(sha, s, jsons, p, json) && Meanwhile(sha, p, jsons, s, s')
    ensures Lively(sha, s', jsons, p, json) && ViewOf(s', p) == ViewOf(s, p)
  {
    var steps :| Around(sha, p, jsons, s, steps, s');
    AroundKeepsView(sha, p, json, jsons, s, steps, s');
  }

  /** A round with foreign steps before each of its moves and after the last. */
  ghost predicate BusyRoundWith(
    sha: Sha1, p: Key, jsons: set<string>, s: State, a: State, l1: Listing, b: State, l2: Listing, now: nat, c: State,
    hash: string, s': State)
  {
    && Meanwhile(sha, p, jsons, s, a) && Fresh(a, p, l1)
    && Meanwhile(sha, p, jsons, SyncConfigMap(sha, a, p, l1).0, b) && Fresh(b, p, l2)
    && Meanwhile(sha, p, jsons, SyncDeployment(sha, b, p, l2, now).0, c)
    && Meanwhile(sha, p, jsons, Rolled(sha, c, p, hash), s')
  }

  ghost predicate IsBusyRound(sha: Sha1, p: Key, jsons: set<string>, s: State, s': State) {
    exists a, l1, b, l2, now, c, hash :: BusyRoundWith(sha, p, jsons, s, a, l1, b, l2, now, c, hash, s')
  }

  ghost function BusyRoundOf(sha: Sha1, p: Key, jsons: set<string>): (State, State) -> bool {
    (s, s') => IsBusyRound(sha, p, jsons, s, s')
  }

  /** The moves keep the state lively and act on the view as in a quiet round. */
  lemma ConfigMapTurn(sha: Sha1, p: Key, json: string, jsons: set<string>, s: State, l: Listing, s': State)
    requires Lively(sha, s, jsons, p, json) && Fresh(s, p, l) && s' == SyncConfigMap(sha, s, p, l).0
    ensures Lively(sha, s', jsons, p, json)
    ensures ViewOf(s', p) == AfterConfigMapSync(ViewOf(s, p), ConfigMapKey(sha, p, json))
  {
    AskingIsReachable(sha, s, jsons);
    ConfigMapMove(sha, s, p, json, l, s');
    AskingStep(sha, s, jsons, ConfigMapSync(p, l));
  }

  lemma DeploymentTurn(sha: Sha1, p: Key, json: string, jsons: set<string>, s: State, l: Listing, now: nat, s': State)
    requires Lively(sha, s, jsons, p, json) && Fresh(s, p, l) && s' == SyncDeployment(sha, s, p, l, now).0
    ensures Lively(sha, s', jsons, p, json)
    ensures ViewOf(s', p) == AfterDeploymentSync(ViewOf(s, p), ViewOf(s', p).matched)
  {
    AskingIsReachable(sha, s, jsons);
    DeploymentMove(sha, s, p, json, l, now, s');
    AskingStep(sha, s, jsons, DeploymentSync(p, l, now));
  }

  lemma RolloutTurn(sha: Sha1, p: Key, json: string, jsons: set<string>, s: State, hash: string, s': State)
    requires Lively(sha, s, jsons, p, json) && s' == Rolled(sha, s, p, hash)
    ensures Lively(sha, s', jsons, p, json)
    ensures ViewOf(s', p) == ViewOf(s, p).(matched := ViewOf(s, p).mounted.Some?)
  {
    AskingIsReachable(sha, s, jsons);
    RolloutMove(sha, s, p, json, hash, s');
    RolloutIsRun(sha, s, jsons, p, hash);
  }

  lemma FirstHalf(
    sha: Sha1, p: Key, json: string, jsons: set<string>, s: State, a: State, l: Listing, a': State, b: State)
    requires Lively(sha, s, jsons, p, json) && Meanwhile(sha, p, jsons, s, a) && Fresh(a, p, l)
    requires a' == SyncConfigMap(sha, a, p, l).0 && Meanwhile(sha, p, jsons, a', b)
    ensures Lively(sha, b, jsons, p, json)
    ensures ViewOf(b, p) == AfterConfigMapSync(ViewOf(s, p), ConfigMapKey(sha, p, json))
  {
    MeanwhileKeepsView(sha, p, json, jsons, s, a);
    ConfigMapTurn(sha, p, json, jsons, a, l, a');
    MeanwhileKeepsView(sha, p, json, jsons, a', b);
  }

  lemma SecondHalf(
    sha: Sha1, p: Key, json: string, jsons: set<string>, b: State, l: Listing, now: nat, b': State, c: State,
    hash: string, c': State, s': State)
    requires Lively(sha, b, jsons, p, json) && Fresh(b, p, l) && b' == SyncDeployment(sha, b, p, l, now).0
    requires Meanwhile(sha, p, jsons, b', c) && c' == Rolled(sha, c, p, hash) && Meanwhile(sha, p, jsons, c', s')
    ensures Lively(sha, s', jsons, p, json)
    ensures
      var v := ViewOf(b, p);
      var mounted := if v.held.Some? then v.held else v.mounted;
      ViewOf(s', p) == View(v.held, mounted, mounted.Some?)
  {
    DeploymentTurn(sha, p, json, jsons, b, l, now, b');
    MeanwhileKeepsView(sha, p, json, jsons, b', c);
    RolloutTurn(sha, p, json, jsons, c, hash, c');
    MeanwhileKeepsView(sha, p, json, jsons, c', s');
  }

  lemma BusyRoundSeen(sha: Sha1, p: Key, json: string, jsons: set<string>, s: State, s': State)
    requires Lively(sha, s, jsons, p, json) && IsBusyRound(sha, p, jsons, s, s')
    ensures Lively(sha, s', jsons, p, json)
    ensures ViewOf(s', p) == RoundView(ViewOf(s, p), ConfigMapKey(sha, p, json))
  {
    var a, l1, b, l2, now, c, hash :| BusyRoundWith(sha, p, jsons, s, a, l1, b, l2, now, c, hash, s');
    FirstHalf(sha, p, json, jsons, s, a, l1, SyncConfigMap(sha, a, p, l1).0, b);
    SecondHalf(sha, p, json, jsons, b, l2, now, SyncDeployment(sha, b, p, l2, now).0, c,
      hash, Rolled(sha, c, p, hash), s');
  }

  lemma {:induction false} BusyRoundsSeen(
    sha: Sha1, p: Key, json: string, jsons: set<string>, trace: seq<State>, n: nat)
    requires Chain(BusyRoundOf(sha, p, jsons), trace) && Lively(sha, trace[0], jsons, p, json) && n < |trace|
    ensures Lively(sha, trace[n], jsons, p, json)
    ensures ViewOf(trace[n], p) == ViewsAfter(ViewOf(trace[0], p), ConfigMapKey(sha, p, json), n)
  {
    if n > 0 {
      BusyRoundsSeen(sha, p, json, jsons, trace, n - 1);
      assert BusyRoundOf(sha, p, jsons)(trace[n - 1], trace[n]);
      BusyRoundSeen(sha, p, json, jsons, trace[n - 1], trace[n]);
    }
  }

  /**
   Convergence in a busy cluster: whatever happens in between that is not about the proxy, after
   four rounds it is settled on the wanted configuration, and it stays settled.
   */
  lemma BusyConverges(sha: Sha1, p: Key, json: string, jsons: set<string>, trace: seq<State>, n: nat)
    requires Chain(BusyRoundOf(sha, p, jsons), trace) && ReachableAsking(sha, trace[0], jsons)
    requires Quiet(trace[0], p, json) && 4 <= n < |trace|
    ensures Settled(sha, trace[n], p, json)
    ensures json in jsons && Distinguishes(sha, p, jsons) ==>
      trace[n].configMaps[ConfigMapKey(sha, p, json)].data == json
  {
    BusyRoundsSeen(sha, p, json, jsons, trace, n);
    AskingIsReachable(sha, trace[0], jsons);
    AskingIsReachable(sha, trace[n], jsons);
    assert ViewOk(ViewOf(trace[0], p)) by {
      ReachableInv(sha, trace[0]);
      ViewIsOk(sha, trace[0], p);
    }
    FourViews(ViewOf(trace[0], p), ConfigMapKey(sha, p, json), n);
    FinalIsSettled(sha, trace[n], p, json);
    if json in jsons && Distinguishes(sha, p, jsons) {
      FoundIsWanted(sha, trace[n], jsons, p, json);
    }
  }

  /** A quiet round is a busy one in which nothing else happens. */
  lemma QuietRoundIsBusy(sha: Sha1, p: Key, jsons: set<string>, s: State, s': State)
    requires IsRound(sha, s, p, s')
    ensures IsBusyRound(sha, p, jsons, s, s')
  {
    var l1, l2, now, hash :| RoundWith(sha, s, p, l1, l2, now, hash, s');
    var b := SyncConfigMap(sha, s, p, l1).0;
    var c := SyncDeployment(sha, b, p, l2, now).0;
    assert Around(sha, p, jsons, s, [], s) && Around(sha, p, jsons, b, [], b) && Around(sha, p, jsons, c, [], c);
    assert Around(sha, p, jsons, s', [], s');
    assert BusyRoundWith(sha, p, jsons, s, s, l1, b, l2, now, c, hash, s');
  }
}
