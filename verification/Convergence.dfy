/**
 Liveness of the ownership protocol for one proxy: with the environment quiet,
 rounds of configmap sync, deployment sync and ReplicaSet creation settle within
 four rounds, while the order configmap, deployment, configmap can repeat forever.
 */
module Convergence {
  import opened Wrappers
  import opened Names
  import opened Cluster
  import opened Sync
  import opened Protocol
  import opened Ownership

  /** What decides the next move for a proxy: the ConfigMap it holds, the one mounted, and whether the rollout started. */
  datatype View = View(held: Option<Key>, mounted: Option<Key>, matched: bool)

  ghost function HeldBy(s: State, p: Key): (r: Option<Key>)
    ensures r.Some? ==> Held(s.proxies, s.configMaps, r.value) && ConfigMapHome(r.value) == p
    ensures r.None? ==> forall k :: Held(s.proxies, s.configMaps, k) ==> ConfigMapHome(k) != p
  {
    if k :| Held(s.proxies, s.configMaps, k) && ConfigMapHome(k) == p then Some(k) else None
  }

  ghost function DeploymentOf(s: State, p: Key): (r: Option<Uid>)
    ensures r.Some? ==> r.value in s.deployments && DeploymentHome(s.deployments[r.value]) == p
    ensures r.None? ==> !HasDeployment(s.deployments, p)
  {
    if d :| d in s.deployments && DeploymentHome(s.deployments[d]) == p then Some(d) else None
  }

  ghost function ViewOf(s: State, p: Key): View {
    match DeploymentOf(s, p)
    case None => View(HeldBy(s, p), None, false)
    case Some(d) => View(HeldBy(s, p), Some(DeploymentMount(s.deployments[d])), HasMatch(s.replicaSets, s.deployments[d]))
  }

  /** The proxy is there, its spec has been observed, and its configuration renders to `json`. */
  predicate Quiet(s: State, p: Key, json: string) {
    Visible(s, p) && GateOpen(s, p) && s.proxies[p].wanted == Success(json)
  }

  // ---- The moves, seen through the view ----

  function AfterConfigMapSync(v: View, k: Key): View {
    if v.held.Some? then
      if v.mounted.Some? && v.matched then v.(held := None) else v
    else if v.mounted == Some(k) then v
    else v.(held := Some(k))
  }

  lemma ListedMine(sha: Sha1, s: State, p: Key, l: Listing)
    requires Inv(sha, s) && p in s.proxies && Fresh(s, p, l)
    ensures Controlled(s.configMaps, s.proxies[p].uid, l.configMaps) ==
      match HeldBy(s, p) case None => [] case Some(k) => [k]
  {
    AtMostOneControlled(sha, s, p, l);
    var mine := Controlled(s.configMaps, s.proxies[p].uid, l.configMaps);
    if |mine| == 1 {
      assert mine[0] in mine;
    }
  }

  lemma ListedOwned(sha: Sha1, s: State, p: Key, l: Listing)
    requires Inv(sha, s) && p in s.proxies && Fresh(s, p, l)
    ensures l.owned == match DeploymentOf(s, p) case None => [] case Some(d) => [d]
  {
    AtMostOneOwned(sha, s, p, l);
    if |l.owned| == 1 {
      assert l.owned[0] in l.owned;
    }
  }

  /** Any listing finds a matching ReplicaSet exactly when there is one. */
  lemma ListedMatch(s: State, p: Key, l: Listing, d: Uid)
    requires Fresh(s, p, l) && d in s.deployments && s.deployments[d].ns == p.ns
    ensures NewReplicaSet(s.replicaSets, s.deployments[d], l.replicaSets).Some? <==>
      HasMatch(s.replicaSets, s.deployments[d])
  {
    if r :| r in s.replicaSets && Matches(s.deployments[d], s.replicaSets[r]) {
      assert r in ReplicaSetsIn(s, p.ns);
    }
  }

  lemma StandardMounts(t: Template, k: Key)
    requires t.volumes == StandardVolumes(MountOf(t))
    ensures Mounts(t, k.name) <==> MountOf(t) == k.name
  {
    assert t.volumes[0].configMap == Some(MountOf(t));
  }

  lemma UniqueHeld(s: State, p: Key, k: Key)
    requires OneHeld(s.proxies, s.configMaps) && Held(s.proxies, s.configMaps, k) && ConfigMapHome(k) == p
    ensures HeldBy(s, p) == Some(k)
  {
  }

  lemma UniqueDeployment(s: State, p: Key, d: Uid)
    requires OneDeployment(s.deployments) && d in s.deployments && DeploymentHome(s.deployments[d]) == p
    ensures DeploymentOf(s, p) == Some(d)
  {
    assert HasDeployment(s.deployments, p);
  }

  lemma SameHeld(s: State, s': State, p: Key)
    requires OneHeld(s.proxies, s.configMaps) && s'.proxies == s.proxies && s'.configMaps == s.configMaps
    ensures HeldBy(s', p) == HeldBy(s, p)
  {
  }

  lemma SameDeployments(s: State, s': State, p: Key)
    requires OneDeployment(s.deployments) && s'.deployments == s.deployments
    ensures DeploymentOf(s', p) == DeploymentOf(s, p)
  {
    if d :| d in s.deployments && DeploymentHome(s.deployments[d]) == p {
      UniqueDeployment(s, p, d);
      UniqueDeployment(s', p, d);
    }
  }

  lemma ReleaseDropsHold(s: State, p: Key, k: Key, l: Listing)
    requires p in s.proxies && Fresh(s, p, l) && Held(s.proxies, s.configMaps, k) && ConfigMapHome(k) == p
    requires l.owned != [] && NewReplicaSet(s.replicaSets, s.deployments[l.owned[0]], l.replicaSets).Some?
    ensures forall k' ::
      Held(s.proxies, Release(s, p, k, l).0.configMaps, k') <==> Held(s.proxies, s.configMaps, k') && k' != k
  {
    var r := NewReplicaSet(s.replicaSets, s.deployments[l.owned[0]], l.replicaSets).value;
    ReleasedOwn(s.configMaps[k].owners, r, s.proxies[p].uid, s.proxies[p].uid);
  }

  lemma ReleaseView(sha: Sha1, s: State, p: Key, k: Key, l: Listing)
    requires Inv(sha, s) && Visible(s, p) && Fresh(s, p, l) && HeldBy(s, p) == Some(k)
    ensures ViewOf(Release(s, p, k, l).0, p) == AfterConfigMapSync(ViewOf(s, p), k)
    ensures !(ViewOf(s, p).mounted.Some? && ViewOf(s, p).matched) ==> Release(s, p, k, l).0 == s
  {
    ListedOwned(sha, s, p, l);
    if DeploymentOf(s, p).Some? {
      var d := DeploymentOf(s, p).value;
      assert s.deployments[d].ns == p.ns by { assert DeploymentOk(sha, s.proxies, s.deployments[d]); }
      ListedMatch(s, p, l, d);
      ReleaseViewAt(s, p, k, l, d);
    }
  }

  lemma ReleaseViewAt(s: State, p: Key, k: Key, l: Listing, d: Uid)
    requires OneHeld(s.proxies, s.configMaps) && OneDeployment(s.deployments)
    requires Visible(s, p) && Fresh(s, p, l) && HeldBy(s, p) == Some(k) && DeploymentOf(s, p) == Some(d) && l.owned == [d]
    requires NewReplicaSet(s.replicaSets, s.deployments[d], l.replicaSets).Some? <==>
      HasMatch(s.replicaSets, s.deployments[d])
    ensures ViewOf(Release(s, p, k, l).0, p) == AfterConfigMapSync(ViewOf(s, p), k)
    ensures !ViewOf(s, p).matched ==> Release(s, p, k, l).0 == s
  {
    if HasMatch(s.replicaSets, s.deployments[d]) {
      MatchedReleaseView(s, p, k, l);
    }
  }

  lemma MatchedReleaseView(s: State, p: Key, k: Key, l: Listing)
    requires OneHeld(s.proxies, s.configMaps) && OneDeployment(s.deployments)
    requires Visible(s, p) && Fresh(s, p, l) && HeldBy(s, p) == Some(k)
    requires l.owned != [] && NewReplicaSet(s.replicaSets, s.deployments[l.owned[0]], l.replicaSets).Some?
    ensures ViewOf(Release(s, p, k, l).0, p) == ViewOf(s, p).(held := None)
  {
    SameDeployments(s, Release(s, p, k, l).0, p);
    ReleaseDropsHold(s, p, k, l);
  }

  lemma ReuseView(sha: Sha1, s: State, p: Key, k: Key, l: Listing)
    requires Inv(sha, s) && Visible(s, p) && Fresh(s, p, l) && HeldBy(s, p) == None
    requires k in s.configMaps && ConfigMapHome(k) == p
    ensures ViewOf(Reuse(s, p, k, l.owned).0, p) == AfterConfigMapSync(ViewOf(s, p), k)
    ensures ViewOf(s, p).mounted == Some(k) ==> Reuse(s, p, k, l.owned).0 == s
  {
    ListedOwned(sha, s, p, l);
    assert HasDeployment(s.deployments, p);
    var d := DeploymentOf(s, p).value;
    assert DeploymentOk(sha, s.proxies, s.deployments[d]);
    assert ConfigMapOk(sha, s.proxies, s.nextUid, k, s.configMaps[k]);
    StandardMounts(s.deployments[d].template, k);
    if !Mounts(s.deployments[d].template, k.name) {
      var s' := Reuse(s, p, k, l.owned).0;
      ReuseKeepsInv(sha, s, p, k, l);
      SameDeployments(s, s', p);
      AppendedOwners(s.configMaps[k].owners, OwnerRef(s.proxies[p].uid, true), s.proxies[p].uid);
      UniqueHeld(s', p, k);
    }
  }

  lemma CreateView(sha: Sha1, s: State, p: Key, json: string, s': State)
    requires Inv(sha, s) && Visible(s, p) && HeldBy(s, p) == None && ConfigMapKey(sha, p, json) !in s.configMaps
    requires s' == s.(configMaps :=
      s.configMaps[ConfigMapKey(sha, p, json) := ConfigMap(json, [OwnerRef(s.proxies[p].uid, true)])])
    ensures ViewOf(s', p) == AfterConfigMapSync(ViewOf(s, p), ConfigMapKey(sha, p, json))
  {
    var k := ConfigMapKey(sha, p, json);
    Created(sha, s, p, json);
    ConfigMapHomeOf(sha, p, json);
    SameDeployments(s, s', p);
    assert s'.configMaps[k].owners[0].uid == s.proxies[p].uid;
    UniqueHeld(s', p, k);
    if DeploymentOf(s, p).Some? {
      assert DeploymentServed(s.proxies, s.configMaps, s.replicaSets, s.deployments[DeploymentOf(s, p).value]);
    }
  }

  lemma ConfigMapSyncCases(sha: Sha1, s: State, p: Key, json: string, l: Listing)
    requires Quiet(s, p, json) && Fresh(s, p, l)
    requires Controlled(s.configMaps, s.proxies[p].uid, l.configMaps) ==
      match HeldBy(s, p) case None => [] case Some(k) => [k]
    ensures SyncConfigMap(sha, s, p, l).0 == ConfigMapMoved(sha, s, p, json, l)
  {
  }

  /** Which of the three moves a configmap sync makes. */
  ghost function ConfigMapMoved(sha: Sha1, s: State, p: Key, json: string, l: Listing): State
    requires Visible(s, p) && Fresh(s, p, l)
  {
    var k := ConfigMapKey(sha, p, json);
    if HeldBy(s, p).Some? then Release(s, p, HeldBy(s, p).value, l).0
    else if k in s.configMaps then Reuse(s, p, k, l.owned).0
    else s.(configMaps := s.configMaps[k := ConfigMap(json, [OwnerRef(s.proxies[p].uid, true)])])
  }

  lemma ConfigMapSyncMove(sha: Sha1, s: State, p: Key, json: string, l: Listing)
    requires Inv(sha, s) && Quiet(s, p, json) && Fresh(s, p, l)
    ensures SyncConfigMap(sha, s, p, l).0 == ConfigMapMoved(sha, s, p, json, l)
  {
    ListedMine(sha, s, p, l);
    ConfigMapSyncCases(sha, s, p, json, l);
  }

  /** What a configmap sync does to the view; a view that stays means a state that stays. */
  ghost predicate Moves(s: State, p: Key, k: Key, s': State) {
    && ViewOf(s', p) == AfterConfigMapSync(ViewOf(s, p), k)
    && (ViewOf(s', p) == ViewOf(s, p) ==> s' == s)
  }

  lemma FreeSyncView(sha: Sha1, s: State, p: Key, json: string, l: Listing)
    requires Inv(sha, s) && Quiet(s, p, json) && Fresh(s, p, l) && HeldBy(s, p).None?
    ensures
      var k := ConfigMapKey(sha, p, json);
      Moves(s, p, k, if k in s.configMaps then Reuse(s, p, k, l.owned).0
        else s.(configMaps := s.configMaps[k := ConfigMap(json, [OwnerRef(s.proxies[p].uid, true)])]))
  {
    var k := ConfigMapKey(sha, p, json);
    ConfigMapHomeOf(sha, p, json);
    if k in s.configMaps {
      ReuseView(sha, s, p, k, l);
    } else {
      CreateView(sha, s, p, json,
        s.(configMaps := s.configMaps[k := ConfigMap(json, [OwnerRef(s.proxies[p].uid, true)])]));
    }
  }

  lemma HeldSyncView(sha: Sha1, s: State, p: Key, k: Key, l: Listing)
    requires Inv(sha, s) && Visible(s, p) && Fresh(s, p, l) && HeldBy(s, p).Some?
    ensures Moves(s, p, k, Release(s, p, HeldBy(s, p).value, l).0)
  {
    ReleaseView(sha, s, p, HeldBy(s, p).value, l);
  }

  /** The configmap sync, seen through the view; nothing else about the state moves. */
  lemma ConfigMapSyncView(sha: Sha1, s: State, p: Key, json: string, l: Listing)
    requires Inv(sha, s) && Quiet(s, p, json) && Fresh(s, p, l)
    ensures Moves(s, p, ConfigMapKey(sha, p, json), SyncConfigMap(sha, s, p, l).0)
  {
    ConfigMapSyncMove(sha, s, p, json, l);
    if HeldBy(s, p).Some? {
      HeldSyncView(sha, s, p, ConfigMapKey(sha, p, json), l);
    } else {
      FreeSyncView(sha, s, p, json, l);
    }
  }

  /** The deployment sync, seen through the view: the Deployment follows the held ConfigMap. */
  lemma DeploymentSyncView(sha: Sha1, s: State, p: Key, json: string, l: Listing, now: nat)
    requires Inv(sha, s) && Quiet(s, p, json) && Fresh(s, p, l)
    ensures
      var s', v := SyncDeployment(sha, s, p, l, now).0, ViewOf(s, p);
      && ViewOf(s', p).held == v.held
      && ViewOf(s', p).mounted == (if v.held.Some? then v.held else v.mounted)
      && (v.held.None? || v.held == v.mounted ==> s' == s)
  {
    ListedMine(sha, s, p, l);
    ListedOwned(sha, s, p, l);
    if HeldBy(s, p).Some? {
      var k := HeldBy(s, p).value;
      var s' := SyncDeployment(sha, s, p, l, now).0;
      if DeploymentOf(s, p).None? {
        FirstDeploymentView(sha, s, p, k, now);
      } else {
        MovedDeploymentView(sha, s, DeploymentOf(s, p).value, p, k);
      }
    }
  }

  lemma FirstDeploymentView(sha: Sha1, s: State, p: Key, k: Key, now: nat)
    requires Inv(sha, s) && Visible(s, p) && DeploymentOf(s, p) == None && HeldBy(s, p) == Some(k)
    ensures
      var v := ViewOf(CreateDeployment(sha, s, p, [k], now).0, p);
      v.held == Some(k) && v.mounted == Some(k)
  {
    var s' := CreateDeployment(sha, s, p, [k], now).0;
    FirstDeployment(sha, s, p, k, now);
    FirstDeploymentOk(sha, s.proxies, s.deployments, s.nextUid, p, k, now);
    SameHeld(s, s', p);
    UniqueDeployment(s', p, s.nextUid);
  }

  lemma MovedDeploymentView(sha: Sha1, s: State, d: Uid, p: Key, k: Key)
    requires Inv(sha, s) && p in s.proxies && DeploymentOf(s, p) == Some(d) && HeldBy(s, p) == Some(k)
    ensures
      var s' := UpdateDeployment(s, d, [k]).0;
      && UpdateDeployment(s, d, [k]).1 == Finished
      && ViewOf(s', p).held == Some(k) && ViewOf(s', p).mounted == Some(k)
      && (DeploymentMount(s.deployments[d]) == k ==> s' == s)
  {
    var s' := UpdateDeployment(s, d, [k]).0;
    MovedDeployment(sha, s, d, k);
    assert DeploymentOk(sha, s.proxies, s.deployments[d]);
    SameHeld(s, s', p);
    MovedView(sha, s, s', d, p, k);
  }

  lemma MovedView(sha: Sha1, s: State, s': State, d: Uid, p: Key, k: Key)
    requires d in s.deployments && DeploymentOk(sha, s.proxies, s.deployments[d]) && k.ns == p.ns
    requires DeploymentHome(s.deployments[d]) == p && OneDeployment(s'.deployments)
    requires s' == s.(deployments := s.deployments[d := Moved(s.deployments[d], k.name)])
    ensures DeploymentOf(s', p) == Some(d) && DeploymentMount(s'.deployments[d]) == k
    ensures DeploymentMount(s.deployments[d]) == k ==> s' == s
  {
    UniqueDeployment(s', p, d);
    if DeploymentMount(s.deployments[d]) == k {
      assert Moved(s.deployments[d], k.name) == s.deployments[d];
      assert s'.deployments == s.deployments;
    }
  }

  // ---- Rounds ----

  /** The cluster creates the ReplicaSet of the proxy's Deployment, if it is missing. */
  ghost function Rolled(sha: Sha1, s: State, p: Key, hash: string): State {
    match DeploymentOf(s, p)
    case None => s
    case Some(d) =>
      if HasMatch(s.replicaSets, s.deployments[d]) then s else Next(sha, s, CreateReplicaSet(d, hash))
  }

  /** One round: configmap sync, deployment sync, rollout, whatever the listers and the server answer. */
  ghost predicate RoundWith(
    sha: Sha1, s: State, p: Key, l1: Listing, l2: Listing, now: nat, hash: string, s': State)
  {
    && Fresh(s, p, l1)
    && var s1 := SyncConfigMap(sha, s, p, l1).0;
    && Fresh(s1, p, l2)
    && s' == Rolled(sha, SyncDeployment(sha, s1, p, l2, now).0, p, hash)
  }

  ghost predicate IsRound(sha: Sha1, s: State, p: Key, s': State) {
    exists l1, l2, now, hash :: RoundWith(sha, s, p, l1, l2, now, hash, s')
  }

  /** States at the round boundaries of a quiet stretch. */
  ghost predicate Rounds(sha: Sha1, p: Key, trace: seq<State>) {
    Chain(RoundOf(sha, p), trace)
  }

  ghost function RoundOf(sha: Sha1, p: Key): (State, State) -> bool { (s, s') => IsRound(sha, s, p, s') }

  function RoundView(v: View, k: Key): View {
    var v1 := AfterConfigMapSync(v, k);
    var mounted := if v1.held.Some? then v1.held else v1.mounted;
    View(v1.held, mounted, mounted.Some?)
  }

  /** What the invariant says of a view: only a held ConfigMap is mounted before its ReplicaSet exists. */
  predicate ViewOk(v: View) {
    && (v.mounted.Some? && v.held != v.mounted ==> v.matched)
    && (v.mounted.None? ==> !v.matched)
  }

  lemma ViewIsOk(sha: Sha1, s: State, p: Key)
    requires Inv(sha, s) && Visible(s, p)
    ensures ViewOk(ViewOf(s, p))
  {
    if DeploymentOf(s, p).Some? {
      var dep := s.deployments[DeploymentOf(s, p).value];
      assert DeploymentServed(s.proxies, s.configMaps, s.replicaSets, dep);
      if Held(s.proxies, s.configMaps, DeploymentMount(dep)) {
        UniqueHeld(s, p, DeploymentMount(dep));
      }
    }
  }

  lemma RolledView(sha: Sha1, s: State, p: Key, hash: string)
    requires Inv(sha, s) && Visible(s, p)
    ensures Inv(sha, Rolled(sha, s, p, hash)) && Rolled(sha, s, p, hash).proxies == s.proxies
    ensures ViewOf(Rolled(sha, s, p, hash), p) == ViewOf(s, p).(matched := ViewOf(s, p).mounted.Some?)
    ensures ViewOf(s, p).matched ==> Rolled(sha, s, p, hash) == s
  {
    if DeploymentOf(s, p).Some? {
      var d := DeploymentOf(s, p).value;
      if !HasMatch(s.replicaSets, s.deployments[d]) {
        CreatedReplicaSet(sha, s, d, hash);
        RolloutView(sha, s, d, p, hash);
      }
    }
  }

  lemma RolloutView(sha: Sha1, s: State, d: Uid, p: Key, hash: string)
    requires Placed(sha, s) && DeploymentOf(s, p) == Some(d) && Enabled(s, CreateReplicaSet(d, hash))
    ensures ViewOf(Next(sha, s, CreateReplicaSet(d, hash)), p) ==
      View(HeldBy(s, p), Some(DeploymentMount(s.deployments[d])), true)
  {
    var s' := Next(sha, s, CreateReplicaSet(d, hash));
    SameHeld(s, s', p);
    SameDeployments(s, s', p);
    RolloutMatches(sha, s, d, hash);
  }

  lemma RolloutMatches(sha: Sha1, s: State, d: Uid, hash: string)
    requires DeploymentsOk(sha, s.proxies, s.deployments) && Enabled(s, CreateReplicaSet(d, hash))
    ensures HasMatch(Next(sha, s, CreateReplicaSet(d, hash)).replicaSets, s.deployments[d])
  {
    var dep := s.deployments[d];
    var rs := ReplicaSetFor(d, dep, hash);
    assert DeploymentOk(sha, s.proxies, dep);
    NewReplicaSetOk(sha, s.proxies, s.deployments, d, hash);
    MatchMeans(sha, s.proxies, dep, s.deployments, rs);
    assert Next(sha, s, CreateReplicaSet(d, hash)).replicaSets[s.nextUid] == rs;
  }

  lemma SyncsKeepProxies(sha: Sha1, s: State, p: Key, l: Listing, now: nat)
    requires Fresh(s, p, l)
    ensures SyncConfigMap(sha, s, p, l).0.proxies == s.proxies
    ensures SyncDeployment(sha, s, p, l, now).0.proxies == s.proxies
  {
  }

  /** The two syncs of a round, seen through the view. */
  lemma SyncsSeen(sha: Sha1, s: State, p: Key, json: string, l1: Listing, l2: Listing, now: nat, s1: State, s2: State)
    requires Inv(sha, s) && Quiet(s, p, json) && Fresh(s, p, l1) && s1 == SyncConfigMap(sha, s, p, l1).0
    requires Fresh(s1, p, l2) && s2 == SyncDeployment(sha, s1, p, l2, now).0
    ensures Inv(sha, s2) && Quiet(s2, p, json)
    ensures
      var k, v, v2 := ConfigMapKey(sha, p, json), ViewOf(s, p), ViewOf(s2, p);
      var v1 := AfterConfigMapSync(v, k);
      && v2.held == v1.held && v2.mounted == (if v1.held.Some? then v1.held else v1.mounted)
      && (v == View(None, Some(k), true) ==> s2 == s)
  {
    SyncsKeepProxies(sha, s, p, l1, now);
    ConfigMapSyncKeepsInv(sha, s, p, l1);
    ConfigMapSyncView(sha, s, p, json, l1);
    SyncsKeepProxies(sha, s1, p, l2, now);
    DeploymentSyncKeepsInv(sha, s1, p, l2, now);
    DeploymentSyncView(sha, s1, p, json, l2, now);
  }

  /** A whole round, seen through the view. */
  lemma RoundSeen(sha: Sha1, s: State, p: Key, json: string, s': State)
    requires Inv(sha, s) && Quiet(s, p, json) && IsRound(sha, s, p, s')
    ensures Inv(sha, s') && Quiet(s', p, json)
    ensures ViewOf(s', p) == RoundView(ViewOf(s, p), ConfigMapKey(sha, p, json))
    ensures ViewOf(s, p) == View(None, Some(ConfigMapKey(sha, p, json)), true) ==> s' == s
  {
    var l1, l2, now, hash :| RoundWith(sha, s, p, l1, l2, now, hash, s');
    var s1 := SyncConfigMap(sha, s, p, l1).0;
    var s2 := SyncDeployment(sha, s1, p, l2, now).0;
    SyncsSeen(sha, s, p, json, l1, l2, now, s1, s2);
    RolledView(sha, s2, p, hash);
  }

  function ViewsAfter(v: View, k: Key, n: nat): View {
    if n == 0 then v else RoundView(ViewsAfter(v, k, n - 1), k)
  }

  lemma FourViews(v: View, k: Key, n: nat)
    requires ViewOk(v) && n >= 4
    ensures ViewsAfter(v, k, n) == View(None, Some(k), true)
  {
    if n == 4 {
      assert ViewsAfter(v, k, 1) == RoundView(v, k);
      assert ViewsAfter(v, k, 3) == RoundView(RoundView(ViewsAfter(v, k, 1), k), k);
    } else {
      FourViews(v, k, n - 1);
    }
  }

  ghost predicate Steady(sha: Sha1, s: State, p: Key, json: string) { Inv(sha, s) && Quiet(s, p, json) }

  /** What a round does to the view, as a relation between states. */
  ghost predicate Turn(sha: Sha1, p: Key, json: string, s: State, s': State) {
    Steady(sha, s, p, json) ==>
      Steady(sha, s', p, json) && ViewOf(s', p) == RoundView(ViewOf(s, p), ConfigMapKey(sha, p, json))
  }

  lemma RoundsTurn(sha: Sha1, p: Key, json: string, trace: seq<State>, n: nat)
    requires Rounds(sha, p, trace) && n + 1 < |trace|
    ensures Turn(sha, p, json, trace[n], trace[n + 1])
  {
    if Steady(sha, trace[n], p, json) {
      RoundSeen(sha, trace[n], p, json, trace[n + 1]);
    }
  }

  lemma {:induction false} TurnsAddUp(sha: Sha1, p: Key, json: string, trace: seq<State>, n: nat)
    requires n < |trace| && Steady(sha, trace[0], p, json)
    requires forall i, j :: 0 <= i < j < |trace| && j == i + 1 ==> Turn(sha, p, json, trace[i], trace[j])
    ensures Steady(sha, trace[n], p, json)
    ensures ViewOf(trace[n], p) == ViewsAfter(ViewOf(trace[0], p), ConfigMapKey(sha, p, json), n)
  {
    if n > 0 {
      TurnsAddUp(sha, p, json, trace, n - 1);
      assert Turn(sha, p, json, trace[n - 1], trace[n]);
    }
  }

  lemma RoundsSeen(sha: Sha1, p: Key, json: string, trace: seq<State>, n: nat)
    requires Rounds(sha, p, trace) && Steady(sha, trace[0], p, json) && n < |trace|
    ensures Steady(sha, trace[n], p, json)
    ensures ViewOf(trace[n], p) == ViewsAfter(ViewOf(trace[0], p), ConfigMapKey(sha, p, json), n)
  {
    forall i, j | 0 <= i < j < |trace| && j == i + 1 ensures Turn(sha, p, json, trace[i], trace[j]) {
      RoundsTurn(sha, p, json, trace, i);
    }
    TurnsAddUp(sha, p, json, trace, n);
  }

  /**
   The proxy has one Deployment, it mounts the wanted ConfigMap, the ReplicaSet of
   that very template owns it, and the proxy controls no ConfigMap.
   */
  ghost predicate Settled(sha: Sha1, s: State, p: Key, json: string) {
    var k := ConfigMapKey(sha, p, json);
    && p in s.proxies
    && k in s.configMaps
    && ConfigMapKey(sha, p, s.configMaps[k].data) == k
    && (forall k' :: k' in s.configMaps ==> !IsControlledBy(s.configMaps[k'].owners, s.proxies[p].uid))
    && exists d, r {:trigger s.deployments[d], s.replicaSets[r]} ::
      && OwnedDeployments(s, p) == {d}
      && Mounts(s.deployments[d].template, k.name)
      && r in s.replicaSets
      && Matches(s.deployments[d], s.replicaSets[r])
      && IsOwnedBy(s.configMaps[k].owners, r)
  }

  /** The final view means settled. */
  lemma FinalView(sha: Sha1, s: State, p: Key, json: string)
    requires Inv(sha, s) && Visible(s, p)
    requires ViewOf(s, p) == View(None, Some(ConfigMapKey(sha, p, json)), true)
    ensures Settled(sha, s, p, json)
  {
    var k, d := ConfigMapKey(sha, p, json), DeploymentOf(s, p).value;
    var dep := s.deployments[d];
    var r :| r in s.replicaSets && Matches(dep, s.replicaSets[r]);
    assert DeploymentOk(sha, s.proxies, dep) && DeploymentServed(s.proxies, s.configMaps, s.replicaSets, dep);
    assert ReplicaSetOk(sha, s.proxies, s.deployments, s.replicaSets[r]);
    MatchMeans(sha, s.proxies, dep, s.deployments, s.replicaSets[r]);
    assert ReplicaSetServed(s.proxies, s.configMaps, s.deployments, r, s.replicaSets[r]);
    assert ConfigMapOk(sha, s.proxies, s.nextUid, k, s.configMaps[k]);
    StandardMounts(dep.template, k);
    NothingControlled(sha, s, p);
    OnlyOwned(sha, s, p, d);
  }

  lemma NothingControlled(sha: Sha1, s: State, p: Key)
    requires Inv(sha, s) && p in s.proxies && HeldBy(s, p) == None
    ensures forall k' :: k' in s.configMaps ==> !IsControlledBy(s.configMaps[k'].owners, s.proxies[p].uid)
  {
    forall k | k in s.configMaps ensures !IsControlledBy(s.configMaps[k].owners, s.proxies[p].uid) {
      ControlledMeans(sha, s, p, k);
    }
  }

  lemma OnlyOwned(sha: Sha1, s: State, p: Key, d: Uid)
    requires Inv(sha, s) && p in s.proxies && DeploymentOf(s, p) == Some(d)
    ensures OwnedDeployments(s, p) == {d}
  {
    forall d' | d' in s.deployments ensures d' in OwnedDeployments(s, p) <==> d' == d {
      OwnedMeans(sha, s, p, d');
      if DeploymentHome(s.deployments[d']) == p {
        UniqueDeployment(s, p, d');
      }
    }
  }

  /** From any state the protocol can reach, four quiet rounds settle the proxy, and it stays settled. */
  lemma Converges(sha: Sha1, p: Key, json: string, trace: seq<State>, n: nat)
    requires Rounds(sha, p, trace) && Steady(sha, trace[0], p, json) && 4 <= n < |trace|
    ensures Settled(sha, trace[n], p, json)
    ensures forall s :: IsRound(sha, trace[n], p, s) ==> s == trace[n]
  {
    var s' := trace[n];
    RoundsSeen(sha, p, json, trace, n);
    ViewIsOk(sha, trace[0], p);
    FourViews(ViewOf(trace[0], p), ConfigMapKey(sha, p, json), n);
    FinalView(sha, s', p, json);
    forall s | IsRound(sha, s', p, s) ensures s == s' {
      RoundSeen(sha, s', p, json, s);
    }
  }

  /** Four rounds can be needed: the first ConfigMap is out of date before the Deployment exists. */
  lemma ThreeRoundsAreNotEnough(sha: Sha1, p: Key, json: string, trace: seq<State>)
    requires Rounds(sha, p, trace) && Steady(sha, trace[0], p, json) && |trace| > 3
    requires DeploymentOf(trace[0], p) == None
    requires HeldBy(trace[0], p).Some? && HeldBy(trace[0], p) != Some(ConfigMapKey(sha, p, json))
    ensures !Settled(sha, trace[3], p, json)
  {
    var k, v, s := ConfigMapKey(sha, p, json), ViewOf(trace[0], p), trace[3];
    RoundsSeen(sha, p, json, trace, 3);
    assert ViewsAfter(v, k, 1) == RoundView(v, k);
    assert ViewsAfter(v, k, 3) == RoundView(RoundView(ViewsAfter(v, k, 1), k), k);
    ControlledMeans(sha, s, p, k);
  }
}
