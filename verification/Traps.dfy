/**
 The schedule configmap, deployment, configmap with a rollout after each pass: from which
 states it settles, and from which it never does.
 */
module Traps {
  import opened Wrappers
  import opened Names
  import opened Cluster
  import opened Sync
  import opened Protocol
  import opened Ownership
  import opened Convergence
  import opened Runs
  import opened Livelock

  /** A pass, and then the ReplicaSet of the current template if it is missing. */
  ghost predicate IsRolledPass(sha: Sha1, s: State, p: Key, s': State) {
    exists m, hash :: IsPass(sha, s, p, m) && s' == Rolled(sha, m, p, hash)
  }

  ghost function RolledPassOf(sha: Sha1, p: Key): (State, State) -> bool { (s, s') => IsRolledPass(sha, s, p, s') }

  ghost predicate RolledPasses(sha: Sha1, p: Key, trace: seq<State>) { Chain(RolledPassOf(sha, p), trace) }

  /** A ConfigMap is held while something other than the wanted one is mounted, or about to be mounted first. */
  predicate Trapped(v: View, k: Key) {
    v.held.Some? && v.mounted != Some(k) && !(v.held == Some(k) && v.mounted.None?)
  }

  function Final(k: Key): View { View(None, Some(k), true) }

  /** Mounted and rolled out, but not yet released. */
  function Nearly(k: Key): View { View(Some(k), Some(k), true) }

  // ---- The three moves in reachable states ----

  /** A proxy's first Deployment finds no ReplicaSet waiting for it. */
  lemma FirstIsUnmatched(sha: Sha1, s: State, p: Key, k: Key, now: nat)
    requires Inv(sha, s) && Visible(s, p) && !HasDeployment(s.deployments, p) && ConfigMapHome(k) == p
    ensures !HasMatch(s.replicaSets, DeploymentForProxy(sha, s.proxies[p], p, k.name, now))
  {
    var dep := DeploymentForProxy(sha, s.proxies[p], p, k.name, now);
    LabelHomeOf(sha, p);
    assert DeploymentOk(sha, s.proxies, dep);
    forall r | r in s.replicaSets ensures !Matches(dep, s.replicaSets[r]) {
      var rs := s.replicaSets[r];
      assert ReplicaSetOk(sha, s.proxies, s.deployments, rs);
      MatchMeans(sha, s.proxies, dep, s.deployments, rs);
    }
  }

  /** Creating the first Deployment, seen through the view. */
  lemma FirstDeploymentMove(sha: Sha1, s: State, p: Key, json: string, l: Listing, now: nat)
    requires Inv(sha, s) && Quiet(s, p, json) && Fresh(s, p, l)
    requires ViewOf(s, p).held.Some? && ViewOf(s, p).mounted.None?
    ensures !ViewOf(SyncDeployment(sha, s, p, l, now).0, p).matched
  {
    var k := HeldBy(s, p).value;
    ListedMine(sha, s, p, l);
    ListedOwned(sha, s, p, l);
    DeploymentSyncCases(sha, s, p, l, now, [k]);
    var s' := CreateDeployment(sha, s, p, [k], now).0;
    FirstIsUnmatched(sha, s, p, k, now);
    FirstDeploymentOk(sha, s.proxies, s.deployments, s.nextUid, p, k, now);
    UniqueDeployment(s', p, s.nextUid);
  }

  lemma DeploymentMove(sha: Sha1, s: State, p: Key, json: string, l: Listing, now: nat, s': State)
    requires Reachable(sha, s) && Quiet(s, p, json) && Fresh(s, p, l) && s' == SyncDeployment(sha, s, p, l, now).0
    ensures Reachable(sha, s') && Quiet(s', p, json)
    ensures ViewOf(s', p) == AfterDeploymentSync(ViewOf(s, p), ViewOf(s', p).matched)
  {
    ReachableInv(sha, s);
    SyncsKeepProxies(sha, s, p, l, now);
    ReachableStep(sha, s, DeploymentSync(p, l, now));
    DeploymentSyncView(sha, s, p, json, l, now);
    if ViewOf(s, p).held.Some? && ViewOf(s, p).mounted.None? {
      FirstDeploymentMove(sha, s, p, json, l, now);
    }
  }

  lemma RolloutMove(sha: Sha1, s: State, p: Key, json: string, hash: string, s': State)
    requires Reachable(sha, s) && Quiet(s, p, json) && s' == Rolled(sha, s, p, hash)
    ensures Reachable(sha, s') && Quiet(s', p, json)
    ensures ViewOf(s', p) == ViewOf(s, p).(matched := ViewOf(s, p).mounted.Some?)
  {
    ReachableInv(sha, s);
    RolledView(sha, s, p, hash);
    if DeploymentOf(s, p).Some? && !HasMatch(s.replicaSets, s.deployments[DeploymentOf(s, p).value]) {
      ReachableStep(sha, s, CreateReplicaSet(DeploymentOf(s, p).value, hash));
    }
  }

  // ---- One pass with its rollout ----

  /** The view after a deployment sync; `found` says whether the new template finds an old ReplicaSet. */
  function AfterDeploymentSync(v: View, found: bool): View {
    if v.held.None? || v.held == v.mounted then v else View(v.held, v.held, v.mounted.Some? && found)
  }

  function PassView(v: View, k: Key, found: bool): View {
    var v' := AfterConfigMapSync(AfterDeploymentSync(AfterConfigMapSync(v, k), found), k);
    v'.(matched := v'.mounted.Some?)
  }

  /** The trap holds what it has caught; everything else is done after two passes. */
  lemma PassViewMeans(v: View, k: Key, found: bool)
    requires ViewOk(v)
    ensures Trapped(v, k) ==> Trapped(PassView(v, k, found), k)
    ensures !Trapped(v, k) ==> PassView(v, k, found) in {Final(k), Nearly(k)}
    ensures v in {Final(k), Nearly(k)} ==> PassView(v, k, found) == Final(k)
  {
  }

  lemma RolledPassSeen(sha: Sha1, s: State, p: Key, json: string, s': State) returns (found: bool)
    requires Reachable(sha, s) && Quiet(s, p, json) && IsRolledPass(sha, s, p, s')
    ensures Reachable(sha, s') && Quiet(s', p, json)
    ensures ViewOf(s', p) == PassView(ViewOf(s, p), ConfigMapKey(sha, p, json), found)
  {
    var m, hash :| IsPass(sha, s, p, m) && s' == Rolled(sha, m, p, hash);
    var l1, l2, l3, now :| PassWith(sha, s, p, l1, l2, l3, now, m);
    var s1 := SyncConfigMap(sha, s, p, l1).0;
    var s2 := SyncDeployment(sha, s1, p, l2, now).0;
    ConfigMapMove(sha, s, p, json, l1, s1);
    DeploymentMove(sha, s1, p, json, l2, now, s2);
    ConfigMapMove(sha, s2, p, json, l3, m);
    RolloutMove(sha, m, p, json, hash, s');
    found := ViewOf(s2, p).matched;
  }

  lemma RolledPassOutcome(sha: Sha1, s: State, p: Key, json: string, s': State)
    requires Reachable(sha, s) && Quiet(s, p, json) && IsRolledPass(sha, s, p, s')
    ensures Reachable(sha, s') && Quiet(s', p, json)
    ensures
      var k, v, v' := ConfigMapKey(sha, p, json), ViewOf(s, p), ViewOf(s', p);
      && (Trapped(v, k) ==> Trapped(v', k))
      && (!Trapped(v, k) ==> v' in {Final(k), Nearly(k)})
      && (v in {Final(k), Nearly(k)} ==> v' == Final(k))
  {
    var found := RolledPassSeen(sha, s, p, json, s');
    assert ViewOk(ViewOf(s, p)) by {
      ReachableInv(sha, s);
      ViewIsOk(sha, s, p);
    }
    PassViewMeans(ViewOf(s, p), ConfigMapKey(sha, p, json), found);
  }

  // ---- Any number of passes ----

  lemma {:induction false} AfterPasses(sha: Sha1, p: Key, json: string, trace: seq<State>, n: nat)
    requires RolledPasses(sha, p, trace) && Reachable(sha, trace[0]) && Quiet(trace[0], p, json) && n < |trace|
    ensures Reachable(sha, trace[n]) && Quiet(trace[n], p, json)
    ensures
      var k, v, v' := ConfigMapKey(sha, p, json), ViewOf(trace[0], p), ViewOf(trace[n], p);
      && (Trapped(v, k) ==> Trapped(v', k))
      && (!Trapped(v, k) && n >= 1 ==> v' in {Final(k), Nearly(k)})
      && (!Trapped(v, k) && n >= 2 ==> v' == Final(k))
  {
    if n > 0 {
      AfterPasses(sha, p, json, trace, n - 1);
      assert RolledPassOf(sha, p)(trace[n - 1], trace[n]);
      RolledPassOutcome(sha, trace[n - 1], p, json, trace[n]);
    }
  }

  lemma HeldIsUnsettled(sha: Sha1, s: State, p: Key, json: string)
    requires Reachable(sha, s) && p in s.proxies && HeldBy(s, p).Some?
    ensures !Settled(sha, s, p, json)
  {
    ReachableInv(sha, s);
    ControlledMeans(sha, s, p, HeldBy(s, p).value);
  }

  /**
   From every reachable quiet state: the schedule settles, and then within two passes, if and
   only if the state is not trapped; from a trapped one no number of passes settles it.
   */
  lemma SettlesIffNotTrapped(sha: Sha1, p: Key, json: string, trace: seq<State>, n: nat)
    requires RolledPasses(sha, p, trace) && Reachable(sha, trace[0]) && Quiet(trace[0], p, json) && n < |trace|
    ensures Trapped(ViewOf(trace[0], p), ConfigMapKey(sha, p, json)) ==> !Settled(sha, trace[n], p, json)
    ensures n >= 2 ==>
      (Settled(sha, trace[n], p, json) <==> !Trapped(ViewOf(trace[0], p), ConfigMapKey(sha, p, json)))
  {
    AfterPasses(sha, p, json, trace, n);
    if Trapped(ViewOf(trace[0], p), ConfigMapKey(sha, p, json)) {
      HeldIsUnsettled(sha, trace[n], p, json);
    } else if n >= 2 {
      FinalIsSettled(sha, trace[n], p, json);
    }
  }

  lemma FinalIsSettled(sha: Sha1, s: State, p: Key, json: string)
    requires Reachable(sha, s) && Quiet(s, p, json) && ViewOf(s, p) == Final(ConfigMapKey(sha, p, json))
    ensures Settled(sha, s, p, json)
  {
    ReachableInv(sha, s);
    FinalView(sha, s, p, json);
  }

  lemma RolledPassExists(sha: Sha1, s: State, p: Key, json: string) returns (s': State)
    requires Reachable(sha, s) && Quiet(s, p, json)
    ensures IsRolledPass(sha, s, p, s')
  {
    var l1 := FreshExists(sha, s, p);
    var s1 := SyncConfigMap(sha, s, p, l1).0;
    ConfigMapMove(sha, s, p, json, l1, s1);
    var l2 := FreshExists(sha, s1, p);
    var s2 := SyncDeployment(sha, s1, p, l2, 0).0;
    DeploymentMove(sha, s1, p, json, l2, 0, s2);
    var l3 := FreshExists(sha, s2, p);
    var m := SyncConfigMap(sha, s2, p, l3).0;
    assert PassWith(sha, s, p, l1, l2, l3, 0, m);
    s' := Rolled(sha, m, p, "");
    assert IsPass(sha, s, p, m);
  }

  /** The schedule can always go on. */
  lemma {:induction false} RolledPassesExist(sha: Sha1, s: State, p: Key, json: string, n: nat)
    returns (trace: seq<State>)
    requires Reachable(sha, s) && Quiet(s, p, json)
    ensures |trace| == n + 1 && trace[0] == s && RolledPasses(sha, p, trace)
  {
    if n == 0 {
      trace := [s];
    } else {
      trace := RolledPassesExist(sha, s, p, json, n - 1);
      AfterPasses(sha, p, json, trace, n - 1);
      var s' := RolledPassExists(sha, trace[n - 1], p, json);
      ChainMore(RolledPassOf(sha, p), trace, s');
      trace := trace + [s'];
    }
  }

  // ---- The comment on applyOwnerRefToCM ----

  /**
   The reference a release adds is to a ReplicaSet that mounts the ConfigMap, as the comment
   promises, if and only if the Deployment already mounts it.
   */
  lemma ReleaseMeetsCommentIff(s: State, k: Key, d: Uid, listed: seq<Uid>, r: Uid)
    requires d in s.deployments && forall x :: x in listed ==> x in s.replicaSets
    requires NewReplicaSet(s.replicaSets, s.deployments[d], listed) == Some(r)
    ensures Mounts(s.replicaSets[r].template, k.name) <==> Mounts(s.deployments[d].template, k.name)
  {
    assert Matches(s.deployments[d], s.replicaSets[r]);
  }

  /** The states of the cycle are trapped. */
  lemma CaughtIsTrapped(sha: Sha1, s: State, p: Key, json: string)
    requires Caught(sha, s, p, json)
    ensures Trapped(ViewOf(s, p), ConfigMapKey(sha, p, json))
  {
  }

  /** Trapped states are reachable: for any two configurations with different names, an edit leads there. */
  lemma TrappedIsReachable(sha: Sha1, p: Key, json: string, json': string) returns (s: State)
    requires ConfigMapKey(sha, p, json) != ConfigMapKey(sha, p, json')
    ensures Reachable(sha, s) && Quiet(s, p, json') && Trapped(ViewOf(s, p), ConfigMapKey(sha, p, json'))
  {
    s := CaughtIsReachable(sha, p, json, json');
    CaughtIsTrapped(sha, s, p, json');
  }
}
