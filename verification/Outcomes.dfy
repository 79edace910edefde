/**
 What the two syncs answer, and when: the outcome of each, for every state and every listing,
 in terms of what the cluster holds.
 */
module Outcomes {
  import opened Wrappers
  import opened Names
  import opened Cluster
  import opened Sync

  /** The proxy is there, and its generation has not been observed yet. */
  predicate Unobserved(s: State, p: Key) {
    p in s.proxies && s.proxies[p].alive && s.proxies[p].generation != s.proxies[p].observed
  }

  predicate Observed(s: State, p: Key) {
    p in s.proxies && s.proxies[p].alive && s.proxies[p].generation == s.proxies[p].observed
  }

  /** Behind a shut gate neither sync writes anything, and both come back later. */
  lemma GateShut(sha: Sha1, s: State, p: Key, l: Listing, now: nat)
    requires Fresh(s, p, l) && Unobserved(s, p)
    ensures SyncConfigMap(sha, s, p, l) == (s, Requeued)
    ensures SyncDeployment(sha, s, p, l, now) == (s, Requeued)
  {
  }

  /** A proxy that is gone is left alone. */
  lemma GoneIsLeftAlone(sha: Sha1, s: State, p: Key, l: Listing, now: nat)
    requires Fresh(s, p, l) && !(p in s.proxies && s.proxies[p].alive)
    ensures SyncConfigMap(sha, s, p, l) == (s, Finished)
    ensures SyncDeployment(sha, s, p, l, now) == (s, Finished)
  {
  }

  /** The ConfigMaps of the proxy's namespace that it controls. */
  function ControlledSet(s: State, p: Key): set<Key>
    requires p in s.proxies
  {
    set k | k in s.configMaps && k.ns == p.ns && ControllerOf(s.configMaps[k].owners) == Some(s.proxies[p].uid)
  }

  lemma NoDuplicatesSize(xs: seq<Key>, s: set<Key>)
    requires NoDuplicates(xs) && forall x :: x in xs <==> x in s
    ensures |xs| == |s|
  {
    if xs == [] {
      assert s == {};
    } else {
      var last, front := xs[|xs| - 1], xs[..|xs| - 1];
      assert xs == front + [last];
      NoDuplicatesSize(front, s - {last});
    }
  }

  lemma {:induction false} ControlledOnce(cms: map<Key, ConfigMap>, u: Uid, keys: seq<Key>)
    requires NoDuplicates(keys) && forall k :: k in keys ==> k in cms
    ensures NoDuplicates(Controlled(cms, u, keys))
  {
    if keys != [] {
      ControlledOnce(cms, u, keys[..|keys| - 1]);
    }
  }

  lemma ListedControlled(s: State, p: Key, l: Listing)
    requires Fresh(s, p, l) && p in s.proxies
    ensures
      var mine := Controlled(s.configMaps, s.proxies[p].uid, l.configMaps);
      (forall k :: k in mine <==> k in ControlledSet(s, p)) && |mine| == |ControlledSet(s, p)|
  {
    var mine := Controlled(s.configMaps, s.proxies[p].uid, l.configMaps);
    ControlledOnce(s.configMaps, s.proxies[p].uid, l.configMaps);
    forall k ensures k in mine <==> k in ControlledSet(s, p) {
      assert k in ControlledSet(s, p) ==> k in ConfigMapsIn(s, p.ns);
    }
    NoDuplicatesSize(mine, ControlledSet(s, p));
  }

  /** Nothing stands under the wanted name. */
  predicate NameIsFree(sha: Sha1, s: State, p: Key)
    requires p in s.proxies
  {
    s.proxies[p].wanted.Success? && ConfigMapKey(sha, p, s.proxies[p].wanted.value) !in s.configMaps
  }

  /**
   A configmap sync comes back later if it holds one ConfigMap or has just made one; it fails if
   it holds none and there is no configuration, or nothing to compare a found one with; it is
   finished otherwise.
   */
  lemma ConfigMapSyncAnswers(sha: Sha1, s: State, p: Key, l: Listing)
    requires Fresh(s, p, l) && Observed(s, p)
    ensures
      var outcome, held := SyncConfigMap(sha, s, p, l).1, |ControlledSet(s, p)|;
      && (outcome == Requeued <==> held == 1 || (held == 0 && NameIsFree(sha, s, p)))
      && (outcome.Failed? <==> held == 0 && !NameIsFree(sha, s, p) && (s.proxies[p].wanted.Failure? || l.owned == []))
      && (outcome.Failed? && s.proxies[p].wanted.Failure? ==> outcome.error == NoConfig(s.proxies[p].wanted.error))
      && (outcome.Failed? && s.proxies[p].wanted.Success? ==> outcome.error == NoDeployment)
  {
    ListedControlled(s, p, l);
  }

  /** A configmap sync writes ConfigMaps only; the ones that are there stay and keep their data. */
  lemma ConfigMapSyncWrites(sha: Sha1, s: State, p: Key, l: Listing, k: Key)
    requires Fresh(s, p, l)
    ensures
      var s' := SyncConfigMap(sha, s, p, l).0;
      && s' == s.(configMaps := s'.configMaps)
      && (k in s.configMaps ==> k in s'.configMaps && s'.configMaps[k].data == s.configMaps[k].data)
      && (k in s'.configMaps && k !in s.configMaps ==>
        && Observed(s, p) && |ControlledSet(s, p)| == 0 && s.proxies[p].wanted.Success?
        && k == ConfigMapKey(sha, p, s.proxies[p].wanted.value)
        && s'.configMaps[k] == ConfigMap(s.proxies[p].wanted.value, [OwnerRef(s.proxies[p].uid, true)]))
  {
    if p in s.proxies {
      ListedControlled(s, p, l);
    }
  }

  /**
   A found ConfigMap is left as it is exactly if some volume of the newest Deployment, whatever its
   name, has it as its source; otherwise the proxy becomes its last owner, as controller.
   */
  lemma ReuseTakesControlIff(s: State, p: Key, k: Key, owned: seq<Uid>)
    requires p in s.proxies && k in s.configMaps && owned != [] && forall d :: d in owned ==> d in s.deployments
    ensures
      var volumes := s.deployments[owned[0]].template.volumes;
      var mounted := exists i :: 0 <= i < |volumes| && volumes[i].configMap == Some(k.name);
      && Reuse(s, p, k, owned).1 == Finished
      && Reuse(s, p, k, owned).0 == s.(configMaps := Reuse(s, p, k, owned).0.configMaps)
      && Reuse(s, p, k, owned).0.configMaps == if mounted then s.configMaps else s.configMaps[k :=
        ConfigMap(s.configMaps[k].data, s.configMaps[k].owners + [OwnerRef(s.proxies[p].uid, true)])]
  {
  }

  /**
   After a release, references to the proxy are gone and the others stand in order, with the
   ReplicaSet's added last if it was missing.
   */
  lemma HandedOver(owners: seq<OwnerRef>, r: Uid, u: Uid)
    requires r != u
    ensures Released(owners, r, u) ==
      Without(owners, u) + (if exists i :: 0 <= i < |owners| && owners[i].uid == r then [] else [OwnerRef(r, false)])
  {
    WithoutMore(owners, [OwnerRef(r, false)], u);
    WithoutOne(OwnerRef(r, false), u);
  }

  lemma HandedOverTo(owners: seq<OwnerRef>, r: Uid, u: Uid)
    requires r != u
    ensures IsOwnedBy(Released(owners, r, u), r) && !IsOwnedBy(Released(owners, r, u), u)
  {
    HandedOver(owners, r, u);
    var kept, after := Without(owners, u), Released(owners, r, u);
    if i :| 0 <= i < |owners| && owners[i].uid == r {
      assert owners[i] in kept;
      var j :| 0 <= j < |kept| && kept[j] == owners[i];
      assert after[j].uid == r;
    } else {
      assert after[|after| - 1].uid == r;
    }
    assert forall i :: 0 <= i < |kept| ==> kept[i] in kept;
  }

  /** A release changes the owners of one ConfigMap, and nothing else; without a ReplicaSet it changes nothing. */
  lemma ReleaseHandsOver(s: State, p: Key, k: Key, l: Listing)
    requires p in s.proxies && k in s.configMaps
    requires forall d :: d in l.owned ==> d in s.deployments
    requires forall r :: r in l.replicaSets ==> r in s.replicaSets
    ensures Release(s, p, k, l).1 == Requeued
    ensures
      var found := if l.owned == [] then None
        else NewReplicaSet(s.replicaSets, s.deployments[l.owned[0]], l.replicaSets);
      if found.None? then Release(s, p, k, l).0 == s
      else Release(s, p, k, l).0 == s.(configMaps := s.configMaps[k :=
        ConfigMap(s.configMaps[k].data, Released(s.configMaps[k].owners, found.value, s.proxies[p].uid))])
  {
  }

  /** A deployment sync never comes back of itself behind an open gate; each error has its one cause. */
  lemma DeploymentSyncAnswers(sha: Sha1, s: State, p: Key, l: Listing, now: nat)
    requires Fresh(s, p, l) && Observed(s, p)
    ensures
      var outcome, held := SyncDeployment(sha, s, p, l, now).1, |ControlledSet(s, p)|;
      var crash := held == 1 && l.owned != []
        && exists i | 0 <= i < |s.deployments[l.owned[0]].template.volumes| ::
          s.deployments[l.owned[0]].template.volumes[i] == Volume("config", None);
      && outcome != Requeued
      && (outcome == Failed(MultipleConfigMaps) <==> held > 1)
      && (outcome == Failed(NoConfigMap) <==> held == 0 && l.owned == [])
      && (outcome == Failed(NilConfigVolume) <==> crash)
      && (outcome == Failed(MultipleDeployments) <==> held <= 1 && |l.owned| >= 2 && !crash)
  {
    ListedControlled(s, p, l);
    if l.owned != [] {
      assert l.owned[0] in OwnedDeployments(s, p);
      CrashMeans(s.deployments[l.owned[0]].template.volumes);
    }
  }

  /** An earlier error keeps a deployment sync from writing anything. */
  predicate Stopped(s: State, p: Key, owned: seq<Uid>)
    requires p in s.proxies && forall d :: d in owned ==> d in s.deployments
  {
    var held := |ControlledSet(s, p)|;
    || held > 1 || (held == 0 && owned == [])
    || (held == 1 && owned != [] && exists i | 0 <= i < |s.deployments[owned[0]].template.volumes| ::
        s.deployments[owned[0]].template.volumes[i] == Volume("config", None))
  }

  /** What is left of a Deployment that a sync has moved to a ConfigMap: all of it, but for its "config" volumes. */
  ghost predicate OnlyMoved(before: Deployment, after: Deployment, configMap: string) {
    && after == before.(template := before.template.(volumes := after.template.volumes))
    && |after.template.volumes| == |before.template.volumes|
    && forall i :: 0 <= i < |before.template.volumes| ==>
      after.template.volumes[i] == if before.template.volumes[i].name == "config"
        then Volume("config", Some(configMap)) else before.template.volumes[i]
  }

  lemma UpdateMoves(s: State, n: Uid, mine: seq<Key>, d: Uid)
    requires n in s.deployments && d in s.deployments && |mine| <= 1
    ensures
      var s1 := UpdateDeployment(s, n, mine).0;
      && d in s1.deployments && s1 == s.(deployments := s1.deployments)
      && if mine != [] && Remountable(s.deployments[n].template.volumes) && d == n
         then OnlyMoved(s.deployments[d], s1.deployments[d], mine[0].name)
         else s1.deployments[d] == s.deployments[d]
  {
  }

  /** A deployment sync writes Deployments only, and removes those after the second newest. */
  lemma DeploymentSyncRemoves(sha: Sha1, s: State, p: Key, l: Listing, now: nat, d: Uid)
    requires Fresh(s, p, l) && s.nextUid !in s.deployments && Observed(s, p) && d in s.deployments
    ensures
      var s' := SyncDeployment(sha, s, p, l, now).0;
      && s' == s.(deployments := s'.deployments, nextUid := s'.nextUid)
      && (d !in s'.deployments <==> !Stopped(s, p, l.owned) && |l.owned| > 2 && d in l.owned[2..])
  {
    ListedControlled(s, p, l);
    if l.owned != [] {
      assert l.owned[0] in OwnedDeployments(s, p);
      CrashMeans(s.deployments[l.owned[0]].template.volumes);
    }
  }

  /** Of those that stay, the newest moves to the one ConfigMap controlled, and the others are as they were. */
  lemma DeploymentSyncMoves(sha: Sha1, s: State, p: Key, l: Listing, now: nat, d: Uid)
    requires Fresh(s, p, l) && s.nextUid !in s.deployments && Observed(s, p) && d in s.deployments
    requires d in SyncDeployment(sha, s, p, l, now).0.deployments
    ensures
      var after := SyncDeployment(sha, s, p, l, now).0.deployments[d];
      if !Stopped(s, p, l.owned) && ControlledSet(s, p) != {} && l.owned != [] && d == l.owned[0]
      then exists k :: k in ControlledSet(s, p) && OnlyMoved(s.deployments[d], after, k.name)
      else after == s.deployments[d]
  {
    ListedControlled(s, p, l);
    var mine := Controlled(s.configMaps, s.proxies[p].uid, l.configMaps);
    if l.owned != [] && |mine| <= 1 {
      assert l.owned[0] in OwnedDeployments(s, p);
      CrashMeans(s.deployments[l.owned[0]].template.volumes);
      UpdateMoves(s, l.owned[0], mine, d);
      if |mine| == 1 {
        assert mine[0] in mine;
      }
    }
  }

  /** A Deployment it adds is the first one, made for the one ConfigMap controlled. */
  lemma DeploymentSyncAdds(sha: Sha1, s: State, p: Key, l: Listing, now: nat, d: Uid)
    requires Fresh(s, p, l) && Observed(s, p) && d !in s.deployments
    ensures
      var s' := SyncDeployment(sha, s, p, l, now).0;
      d in s'.deployments <==> d == s.nextUid && l.owned == [] && |ControlledSet(s, p)| == 1
    ensures
      var s' := SyncDeployment(sha, s, p, l, now).0;
      d in s'.deployments ==> exists k | k in ControlledSet(s, p) ::
        s'.deployments[d] == DeploymentForProxy(sha, s.proxies[p], p, k.name, now)
  {
    ListedControlled(s, p, l);
    var mine := Controlled(s.configMaps, s.proxies[p].uid, l.configMaps);
    if |mine| == 1 {
      assert mine[0] in mine;
    }
  }

  lemma CrashMeans(volumes: seq<Volume>)
    ensures !Remountable(volumes) <==> exists i | 0 <= i < |volumes| :: volumes[i] == Volume("config", None)
  {
    if !Remountable(volumes) {
      var i :| 0 <= i < |volumes| && volumes[i].name == CONFIG_VOLUME && volumes[i].configMap.None?;
      assert volumes[i] == Volume("config", None);
    }
  }

  /** A new Deployment mounts the ConfigMap, and it alone, as its "config" volume, beside the volume for statistics. */
  lemma NewDeploymentMounts(sha: Sha1, proxy: Proxy, p: Key, configMap: string, now: nat)
    ensures
      var dep := DeploymentForProxy(sha, proxy, p, configMap, now);
      && dep.template.volumes == [Volume("config", Some(configMap)), Volume("stats", None)]
      && (forall name :: Mounts(dep.template, name) <==> name == configMap)
      && IsControlledBy(dep.owners, proxy.uid) && |dep.owners| == 1 && dep.ns == p.ns
      && dep.selector == Selector(sha, p) && dep.template.labels == Selector(sha, p)
      && dep.template.container == proxy.container && dep.created == now
  {
    var dep := DeploymentForProxy(sha, proxy, p, configMap, now);
    assert dep.template.volumes[0].configMap == Some(configMap);
    assert dep.owners[0].controller;
  }
}
