/**
 Which leftovers endanger a mount.  From any state of an orderly run: a ReplicaSet of a deleted
 proxy that outlives the ConfigMap it mounts takes the next proxy's ConfigMap with it.
 */
module Orphans {
  import opened Wrappers
  import opened Names
  import opened Cluster
  import opened Sync
  import opened Protocol
  import opened Ownership
  import opened Runs
  import Livelock
  import Leftovers

  /** Some steps, orderly or not, lead from `s` to `s'`. */
  ghost predicate Follows(sha: Sha1, s: State, s': State) {
    exists steps :: IsRun(sha, s, steps) && After(sha, s, steps) == s'
  }

  lemma FollowsSelf(sha: Sha1, s: State)
    ensures Follows(sha, s, s)
  {
    assert IsRun(sha, s, []) && After(sha, s, []) == s;
  }

  lemma FollowsStep(sha: Sha1, s: State, m: State, step: Step, s': State)
    requires Follows(sha, s, m) && Enabled(m, step) && s' == Next(sha, m, step)
    ensures Follows(sha, s, s')
  {
    var steps :| IsRun(sha, s, steps) && After(sha, s, steps) == m;
    RunExtends(sha, s, steps, step);
  }

  // ---- The collector takes what it can ----

  /** A dead proxy's ReplicaSet, without a Deployment and without the ConfigMap it mounts. */
  ghost predicate Orphaned(sha: Sha1, s: State, p: Key, k: Key, r: Uid) {
    && Reachable(sha, s) && !Visible(s, p) && !HasDeployment(s.deployments, p) && k !in s.configMaps
    && r in s.replicaSets && ReplicaSetHome(s.replicaSets[r]) == p && ReplicaSetMount(s.replicaSets[r]) == k
  }

  lemma DeadUid(sha: Sha1, s: State, p: Key)
    requires Inv(sha, s) && p in s.proxies && !s.proxies[p].alive
    ensures !LiveUid(s, s.proxies[p].uid)
  {
  }

  lemma CollectedFirst(sha: Sha1, s: State, p: Key, k: Key, r: Uid) returns (m: State)
    requires Reachable(sha, s) && !Visible(s, p) && (k in s.configMaps ==> AllDead(s, s.configMaps[k].owners))
    requires r in s.replicaSets && ReplicaSetHome(s.replicaSets[r]) == p && ReplicaSetMount(s.replicaSets[r]) == k
    ensures Follows(sha, s, m) && Orphaned(sha, m, p, k, r) && m.replicaSets == s.replicaSets
  {
    m := s;
    FollowsSelf(sha, s);
    if k in m.configMaps {
      ReachableStep(sha, m, CollectConfigMap(k));
      FollowsStep(sha, s, m, CollectConfigMap(k), Next(sha, m, CollectConfigMap(k)));
      m := Next(sha, m, CollectConfigMap(k));
    }
    if HasDeployment(m.deployments, p) {
      m := DeploymentCollected(sha, s, m, p);
    }
  }

  lemma DeploymentCollected(sha: Sha1, s: State, m: State, p: Key) returns (m': State)
    requires Follows(sha, s, m) && Reachable(sha, m) && !Visible(m, p) && HasDeployment(m.deployments, p)
    ensures Follows(sha, s, m') && Reachable(sha, m') && !HasDeployment(m'.deployments, p)
    ensures m'.proxies == m.proxies && m'.configMaps == m.configMaps && m'.replicaSets == m.replicaSets
  {
    var d :| d in m.deployments && DeploymentHome(m.deployments[d]) == p;
    assert OneDeployment(m.deployments) && AllDead(m, m.deployments[d].owners) by {
      ReachableInv(sha, m);
      assert DeploymentOk(sha, m.proxies, m.deployments[d]);
      DeadUid(sha, m, p);
    }
    ReachableStep(sha, m, CollectDeployment(d));
    m' := Next(sha, m, CollectDeployment(d));
    FollowsStep(sha, s, m, CollectDeployment(d), m');
  }

  // ---- What the next proxy finds ----

  lemma ControllerIsOwner(owners: seq<OwnerRef>, u: Uid)
    requires IsControlledBy(owners, u)
    ensures exists i :: 0 <= i < |owners| && owners[i] == OwnerRef(u, true)
  {
    if owners[0].controller {
      assert owners[0] == OwnerRef(u, true);
    } else {
      ControllerIsOwner(owners[1..], u);
      var i :| 0 <= i < |owners[1..]| && owners[1..][i] == OwnerRef(u, true);
      assert owners[i + 1] == OwnerRef(u, true);
    }
  }

  /** A UID the server has not given out yet controls nothing. */
  lemma NewUidControlsNothing(sha: Sha1, s: State)
    requires Inv(sha, s)
    ensures forall k :: k in s.configMaps ==> !IsControlledBy(s.configMaps[k].owners, s.nextUid)
    ensures forall d :: d in s.deployments ==> !IsControlledBy(s.deployments[d].owners, s.nextUid)
  {
    forall k | k in s.configMaps ensures !IsControlledBy(s.configMaps[k].owners, s.nextUid) {
      assert ConfigMapOk(sha, s.proxies, s.nextUid, k, s.configMaps[k]);
      if IsControlledBy(s.configMaps[k].owners, s.nextUid) {
        ControllerIsOwner(s.configMaps[k].owners, s.nextUid);
      }
    }
    forall d | d in s.deployments ensures !IsControlledBy(s.deployments[d].owners, s.nextUid) {
      assert DeploymentOk(sha, s.proxies, s.deployments[d]);
    }
  }

  function NextProxy(s: State, json: string, container: string): Proxy {
    Proxy(s.nextUid, true, 1, 1, Success(json), container)
  }

  /** The Deployment the next proxy will have. */
  function NextDeployment(sha: Sha1, s: State, p: Key, json: string, r: Uid): Deployment
    requires r in s.replicaSets
  {
    DeploymentForProxy(
      sha, NextProxy(s, json, s.replicaSets[r].template.container), p, ConfigMapKey(sha, p, json).name, 0)
  }

  /** The orphan is the one ReplicaSet that matches it. */
  lemma OrphanMatches(sha: Sha1, s: State, p: Key, json: string, r: Uid, x: Uid)
    requires Inv(sha, s) && r in s.replicaSets && x in s.replicaSets && ReplicaSetHome(s.replicaSets[r]) == p
    requires ReplicaSetMount(s.replicaSets[r]) == ConfigMapKey(sha, p, json)
    ensures Matches(NextDeployment(sha, s, p, json, r), s.replicaSets[x]) <==> x == r
  {
    var dep := NextDeployment(sha, s, p, json, r);
    var twin := dep.(owners := [OwnerRef(s.proxies[p].uid, true)]);
    LabelHomeOf(sha, p);
    assert ReplicaSetOk(sha, s.proxies, s.deployments, s.replicaSets[r]);
    assert ReplicaSetOk(sha, s.proxies, s.deployments, s.replicaSets[x]);
    assert DeploymentOk(sha, s.proxies, twin);
    MatchMeans(sha, s.proxies, twin, s.deployments, s.replicaSets[r]);
    MatchMeans(sha, s.proxies, twin, s.deployments, s.replicaSets[x]);
    assert Matches(twin, s.replicaSets[x]) <==> Matches(dep, s.replicaSets[x]);
    if Matches(dep, s.replicaSets[x]) {
      assert SameTemplate(s.replicaSets[r], s.replicaSets[x]);
    }
  }

  lemma FoundOrphan(all: ReplicaSets, dep: Deployment, listed: seq<Uid>, r: Uid)
    requires (forall x :: x in listed ==> x in all) && r in listed
    requires forall x :: x in listed ==> (Matches(dep, all[x]) <==> x == r)
    ensures NewReplicaSet(all, dep, listed) == Some(r)
  {
  }

  lemma ControlledNothing(cms: ConfigMaps, u: Uid, keys: seq<Key>)
    requires forall k :: k in keys ==> k in cms && !IsControlledBy(cms[k].owners, u)
    ensures Controlled(cms, u, keys) == []
  {
    if keys != [] {
      ControlledNothing(cms, u, keys[..|keys| - 1]);
    }
  }

  lemma ControlledOnly(cms: ConfigMaps, u: Uid, keys: seq<Key>, k: Key)
    requires NoDuplicates(keys) && k in keys && forall x :: x in keys ==> x in cms
    requires forall x :: x in keys ==> (IsControlledBy(cms[x].owners, u) <==> x == k)
    ensures Controlled(cms, u, keys) == [k]
  {
    var mine := Controlled(cms, u, keys);
    NoDuplicatesKept(cms, u, keys);
    assert k in mine && forall i :: 0 <= i < |mine| ==> mine[i] in mine;
    if |mine| > 1 {
      TwoElements(mine);
    }
  }

  // ---- What the listers show ----

  lemma ListedWithout(s: State, p: Key) returns (l: Listing)
    requires p in s.proxies && forall d :: d in s.deployments ==> !IsControlledBy(s.deployments[d].owners, s.proxies[p].uid)
    ensures Fresh(s, p, l) && l.owned == []
  {
    var cms := Listed(ConfigMapsIn(s, p.ns));
    var rss := Listed(ReplicaSetsIn(s, p.ns));
    l := Listing(cms, [], rss);
    assert OwnedDeployments(s, p) == {};
  }

  lemma ListedWith(s: State, p: Key, d: Uid) returns (l: Listing)
    requires p in s.proxies && OwnedDeployments(s, p) == {d}
    ensures Fresh(s, p, l) && l.owned == [d]
  {
    var cms := Listed(ConfigMapsIn(s, p.ns));
    var rss := Listed(ReplicaSetsIn(s, p.ns));
    l := Listing(cms, [d], rss);
  }

  // ---- The run ----

  /** The state in which the next proxy is there, its ConfigMap controlled, its Deployment not yet made. */
  function Beginning(sha: Sha1, m: State, p: Key, json: string, r: Uid): State
    requires r in m.replicaSets
  {
    var s := Readded(m, p, NextProxy(m, json, m.replicaSets[r].template.container));
    s.(configMaps := s.configMaps[ConfigMapKey(sha, p, json) := ConfigMap(json, [OwnerRef(m.nextUid, true)])])
  }

  lemma Begins(sha: Sha1, s: State, m: State, p: Key, json: string, r: Uid)
    requires Follows(sha, s, m) && Orphaned(sha, m, p, ConfigMapKey(sha, p, json), r)
    ensures Follows(sha, s, Beginning(sha, m, p, json, r))
  {
    var container := m.replicaSets[r].template.container;
    var added := Readded(m, p, NextProxy(m, json, container));
    FollowsStep(sha, s, m, AddProxy(p, 1, 1, Success(json), container), added);
    assert (forall k :: k in m.configMaps ==> !IsControlledBy(m.configMaps[k].owners, m.nextUid))
      && (forall d :: d in m.deployments ==> !IsControlledBy(m.deployments[d].owners, m.nextUid))
    by {
      ReachableInv(sha, m);
      NewUidControlsNothing(sha, m);
    }
    var l := ListedWithout(added, p);
    ControlledNothing(added.configMaps, m.nextUid, l.configMaps);
    Creates(sha, s, added, p, json, l);
  }

  lemma Creates(sha: Sha1, s: State, m: State, p: Key, json: string, l: Listing)
    requires Follows(sha, s, m) && Fresh(m, p, l) && Visible(m, p) && GateOpen(m, p) && m.proxies[p].wanted == Success(json)
    requires Controlled(m.configMaps, m.proxies[p].uid, l.configMaps) == [] && ConfigMapKey(sha, p, json) !in m.configMaps
    ensures Follows(sha, s, m.(configMaps :=
      m.configMaps[ConfigMapKey(sha, p, json) := ConfigMap(json, [OwnerRef(m.proxies[p].uid, true)])]))
  {
    FollowsStep(sha, s, m, ConfigMapSync(p, l), m.(configMaps :=
      m.configMaps[ConfigMapKey(sha, p, json) := ConfigMap(json, [OwnerRef(m.proxies[p].uid, true)])]));
  }

  /** Among the ConfigMaps of the beginning, only the new one is controlled by the new proxy. */
  lemma OnlyNewControlled(sha: Sha1, m: State, p: Key, json: string, r: Uid, keys: seq<Key>)
    requires Orphaned(sha, m, p, ConfigMapKey(sha, p, json), r)
    requires Enumerates(keys, ConfigMapsIn(Beginning(sha, m, p, json, r), p.ns))
    ensures Controlled(Beginning(sha, m, p, json, r).configMaps, m.nextUid, keys) == [ConfigMapKey(sha, p, json)]
  {
    var cms, k := Beginning(sha, m, p, json, r).configMaps, ConfigMapKey(sha, p, json);
    assert forall x :: x in m.configMaps ==> !IsControlledBy(m.configMaps[x].owners, m.nextUid) by {
      ReachableInv(sha, m);
      NewUidControlsNothing(sha, m);
    }
    assert k in ConfigMapsIn(Beginning(sha, m, p, json, r), p.ns);
    ControlledOnly(cms, m.nextUid, keys, k);
  }

  function Middle(sha: Sha1, m: State, p: Key, json: string, r: Uid): State
    requires r in m.replicaSets
  {
    var s := Beginning(sha, m, p, json, r);
    s.(deployments := s.deployments[s.nextUid := NextDeployment(sha, m, p, json, r)], nextUid := s.nextUid + 1)
  }

  lemma Deploys(sha: Sha1, s: State, m: State, p: Key, json: string, r: Uid)
    requires Follows(sha, s, m) && Orphaned(sha, m, p, ConfigMapKey(sha, p, json), r)
    ensures Follows(sha, s, Middle(sha, m, p, json, r))
  {
    var b := Beginning(sha, m, p, json, r);
    Begins(sha, s, m, p, json, r);
    assert forall d :: d in m.deployments ==> !IsControlledBy(m.deployments[d].owners, m.nextUid) by {
      ReachableInv(sha, m);
      NewUidControlsNothing(sha, m);
    }
    var l := ListedWithout(b, p);
    OnlyNewControlled(sha, m, p, json, r, l.configMaps);
    FollowsStep(sha, s, b, DeploymentSync(p, l, 0), Middle(sha, m, p, json, r));
  }

  lemma OwnsNext(sha: Sha1, m: State, p: Key, json: string, r: Uid)
    requires Orphaned(sha, m, p, ConfigMapKey(sha, p, json), r)
    ensures OwnedDeployments(Middle(sha, m, p, json, r), p) == {m.nextUid + 1}
  {
    assert forall d :: d in m.deployments ==> !IsControlledBy(m.deployments[d].owners, m.nextUid) by {
      ReachableInv(sha, m);
      NewUidControlsNothing(sha, m);
    }
    assert NextDeployment(sha, m, p, json, r).owners[0].controller;
  }

  function Taken(sha: Sha1, m: State, p: Key, json: string, r: Uid): State
    requires r in m.replicaSets
  {
    var s := Middle(sha, m, p, json, r);
    s.(configMaps := s.configMaps[ConfigMapKey(sha, p, json) := ConfigMap(json, [OwnerRef(r, false)])])
  }

  lemma MiddleHolds(sha: Sha1, m: State, p: Key, json: string, r: Uid)
    requires r in m.replicaSets
    ensures
      var c, k := Middle(sha, m, p, json, r), ConfigMapKey(sha, p, json);
      && Visible(c, p) && GateOpen(c, p) && c.proxies[p].uid == m.nextUid
      && k in c.configMaps && c.configMaps[k] == ConfigMap(json, [OwnerRef(m.nextUid, true)])
      && c.configMaps == Beginning(sha, m, p, json, r).configMaps
      && m.nextUid + 1 in c.deployments && c.deployments[m.nextUid + 1] == NextDeployment(sha, m, p, json, r)
      && c.replicaSets == m.replicaSets
      && Taken(sha, m, p, json, r) ==
        c.(configMaps := c.configMaps[k := c.configMaps[k].(owners := [OwnerRef(r, false)])])
  {
  }

  lemma FindsOrphan(sha: Sha1, m: State, p: Key, json: string, r: Uid, listed: seq<Uid>)
    requires Orphaned(sha, m, p, ConfigMapKey(sha, p, json), r)
    requires Enumerates(listed, ReplicaSetsIn(Middle(sha, m, p, json, r), p.ns))
    ensures r != m.nextUid && NewReplicaSet(m.replicaSets, NextDeployment(sha, m, p, json, r), listed) == Some(r)
  {
    ReachableInv(sha, m);
    assert ReplicaSetOk(sha, m.proxies, m.deployments, m.replicaSets[r]);
    assert r in ReplicaSetsIn(Middle(sha, m, p, json, r), p.ns);
    forall x | x in listed ensures Matches(NextDeployment(sha, m, p, json, r), m.replicaSets[x]) <==> x == r {
      OrphanMatches(sha, m, p, json, r, x);
    }
    FoundOrphan(m.replicaSets, NextDeployment(sha, m, p, json, r), listed, r);
  }

  /** The release gives the new ConfigMap to the orphan. */
  lemma Takes(sha: Sha1, s: State, m: State, p: Key, json: string, r: Uid)
    requires Follows(sha, s, m) && Orphaned(sha, m, p, ConfigMapKey(sha, p, json), r)
    ensures Follows(sha, s, Taken(sha, m, p, json, r))
  {
    var c, k, d := Middle(sha, m, p, json, r), ConfigMapKey(sha, p, json), m.nextUid + 1;
    MiddleHolds(sha, m, p, json, r);
    Deploys(sha, s, m, p, json, r);
    OwnsNext(sha, m, p, json, r);
    var l := ListedWith(c, p, d);
    OnlyNewControlled(sha, m, p, json, r, l.configMaps);
    FindsOrphan(sha, m, p, json, r, l.replicaSets);
    Releases(sha, s, c, p, l, k, d, r);
  }

  lemma Releases(sha: Sha1, s: State, c: State, p: Key, l: Listing, k: Key, d: Uid, r: Uid)
    requires Follows(sha, s, c) && Fresh(c, p, l) && Visible(c, p) && GateOpen(c, p) && c.proxies[p].uid != r
    requires k in c.configMaps && c.configMaps[k].owners == [OwnerRef(c.proxies[p].uid, true)]
    requires d in c.deployments && l.owned == [d]
    requires Controlled(c.configMaps, c.proxies[p].uid, l.configMaps) == [k]
    requires NewReplicaSet(c.replicaSets, c.deployments[d], l.replicaSets) == Some(r)
    ensures Follows(sha, s, c.(configMaps := c.configMaps[k := c.configMaps[k].(owners := [OwnerRef(r, false)])]))
  {
    Livelock.SyncReleases(sha, c, p, l, k, d, r);
    Leftovers.ReleasedToOne(c.proxies[p].uid, r);
    FollowsStep(sha, s, c, ConfigMapSync(p, l),
      c.(configMaps := c.configMaps[k := c.configMaps[k].(owners := [OwnerRef(r, false)])]));
  }

  lemma OrphanIsAlone(sha: Sha1, m: State, p: Key, k: Key, r: Uid)
    requires Orphaned(sha, m, p, k, r)
    ensures m.replicaSets[r].deployment !in m.deployments && m.replicaSets[r].deployment < m.nextUid
    ensures r < m.nextUid && r !in m.deployments && forall q :: q in m.proxies ==> m.proxies[q].uid != r
  {
    ReachableInv(sha, m);
    assert ReplicaSetOk(sha, m.proxies, m.deployments, m.replicaSets[r]);
    if m.replicaSets[r].deployment in m.deployments {
      assert HasDeployment(m.deployments, p);
    }
  }

  /**
   From any state of an orderly run in which a deleted proxy's ReplicaSet has outlived the
   ConfigMap it mounts, or the owners of it: some continuation creates the proxy again, gives its
   ConfigMap to that ReplicaSet, and collects both while the new Deployment mounts it.
   */
  lemma OrphanTakesMount(sha: Sha1, s: State, p: Key, json: string, r: Uid) returns (s': State, d: Uid)
    requires Reachable(sha, s) && !Visible(s, p)
    requires r in s.replicaSets && ReplicaSetHome(s.replicaSets[r]) == p
    requires ReplicaSetMount(s.replicaSets[r]) == ConfigMapKey(sha, p, json)
    requires ConfigMapKey(sha, p, json) in s.configMaps ==> AllDead(s, s.configMaps[ConfigMapKey(sha, p, json)].owners)
    ensures Follows(sha, s, s') && Visible(s', p) && d in OwnedDeployments(s', p)
    ensures
      var k := ConfigMapKey(sha, p, json);
      Mounts(s'.deployments[d].template, k.name) && k !in s'.configMaps
  {
    var k := ConfigMapKey(sha, p, json);
    var m := CollectedFirst(sha, s, p, k, r);
    Takes(sha, s, m, p, json, r);
    OrphanIsAlone(sha, m, p, k, r);
    s' := BothCollected(sha, s, Taken(sha, m, p, json, r), k, r);
    d := m.nextUid + 1;
    StillMounting(sha, m, p, json, r, s');
  }

  lemma StillMounting(sha: Sha1, m: State, p: Key, json: string, r: Uid, s': State)
    requires Orphaned(sha, m, p, ConfigMapKey(sha, p, json), r)
    requires s'.proxies == Middle(sha, m, p, json, r).proxies && s'.deployments == Middle(sha, m, p, json, r).deployments
    ensures Visible(s', p) && m.nextUid + 1 in OwnedDeployments(s', p)
    ensures Mounts(s'.deployments[m.nextUid + 1].template, ConfigMapKey(sha, p, json).name)
  {
    OwnsNext(sha, m, p, json, r);
    assert OwnedDeployments(s', p) == OwnedDeployments(Middle(sha, m, p, json, r), p);
    assert NextDeployment(sha, m, p, json, r).template.volumes[0].configMap == Some(ConfigMapKey(sha, p, json).name);
  }

  lemma BothCollected(sha: Sha1, s: State, t: State, k: Key, r: Uid) returns (s': State)
    requires Follows(sha, s, t) && r in t.replicaSets && t.replicaSets[r].deployment !in t.deployments
    requires k in t.configMaps && t.configMaps[k].owners == [OwnerRef(r, false)]
    requires r !in t.deployments && forall q :: q in t.proxies ==> t.proxies[q].uid != r
    ensures Follows(sha, s, s') && s' == t.(replicaSets := t.replicaSets - {r}, configMaps := t.configMaps - {k})
  {
    var u := t.(replicaSets := t.replicaSets - {r});
    FollowsStep(sha, s, t, CollectReplicaSet(r), u);
    s' := u.(configMaps := u.configMaps - {k});
    FollowsStep(sha, s, u, CollectConfigMap(k), s');
  }
}
