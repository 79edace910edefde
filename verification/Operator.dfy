/**
 The sync handlers in the form they are written: loops over what the listers return and
 writes to the API server, one object at a time.  Each method is tied to the function of
 module Sync that the protocol theorems are about.
 */
module Operator {
  import opened Wrappers
  import opened Names
  import opened Cluster
  import opened Sync

  ghost predicate Descending(all: map<Uid, Deployment>, ds: seq<Uid>) {
    && (forall i :: 0 <= i < |ds| ==> ds[i] in all)
    && forall i, j :: 0 <= i < j < |ds| ==> all[ds[i]].created >= all[ds[j]].created
  }

  function Inserted(ds: seq<Uid>, i: nat, d: Uid): (r: seq<Uid>)
    requires i <= |ds|
    ensures |r| == |ds| + 1
    ensures forall j :: 0 <= j < |r| ==> r[j] == if j < i then ds[j] else if j == i then d else ds[j - 1]
  {
    ds[..i] + [d] + ds[i..]
  }

  lemma InsertedOnce(ds: seq<Uid>, i: nat, d: Uid)
    requires i <= |ds| && NoDuplicates(ds) && d !in ds
    ensures NoDuplicates(Inserted(ds, i, d))
    ensures forall x :: x in Inserted(ds, i, d) <==> x in ds || x == d
  {
    assert ds == ds[..i] + ds[i..];
  }

  lemma InsertedDescending(all: map<Uid, Deployment>, ds: seq<Uid>, i: nat, d: Uid)
    requires i <= |ds| && Descending(all, ds) && d in all
    requires i > 0 ==> all[ds[i - 1]].created >= all[d].created
    requires forall j :: i <= j < |ds| ==> all[ds[j]].created < all[d].created
    ensures Descending(all, Inserted(ds, i, d))
  {
    var r := Inserted(ds, i, d);
    forall a, b | 0 <= a < b < |r| ensures all[r[a]].created >= all[r[b]].created {
      if a < i && b == i && a < i - 1 {
        assert all[ds[a]].created >= all[ds[i - 1]].created;
      }
    }
  }

  /** The API server as the controllers see it; lists come in an order chosen by the caller. */
  class Api {
    const sha: Sha1
    var proxies: map<Key, Proxy>
    var configMaps: map<Key, ConfigMap>
    var deployments: map<Uid, Deployment>
    var replicaSets: map<Uid, ReplicaSet>
    var nextUid: Uid

    function Snapshot(): State
      reads this
    {
      State(proxies, configMaps, deployments, replicaSets, nextUid)
    }

    constructor (sha: Sha1)
      ensures this.sha == sha && Snapshot() == State(map[], map[], map[], map[], 0)
    {
      this.sha := sha;
      proxies, configMaps, deployments, replicaSets, nextUid := map[], map[], map[], map[], 0;
    }

    // ---- internal/controller/operator.go ----

    method GetConfigMapsForProxy(p: Key, list: seq<Key>) returns (result: seq<Key>)
      requires p in proxies && forall k :: k in list ==> k in configMaps
      ensures result == Controlled(configMaps, proxies[p].uid, list)
    {
      result := [];
      for i := 0 to |list|
        invariant forall k :: k in list[..i] ==> k in configMaps
        invariant result == Controlled(configMaps, proxies[p].uid, list[..i])
      {
        assert list[..i + 1][..i] == list[..i];
        if IsControlledBy(configMaps[list[i]].owners, proxies[p].uid) {
          result := result + [list[i]];
        }
      }
      assert list[..|list|] == list;
    }

    /** Filter by controller, then order by creation time, newest first. */
    method GetDeploymentsForProxy(p: Key, list: seq<Uid>) returns (owned: seq<Uid>)
      requires p in proxies && Enumerates(list, DeploymentsIn(Snapshot(), p.ns))
      ensures NewestFirst(Snapshot(), p, owned)
    {
      owned := [];
      for i := 0 to |list|
        invariant NoDuplicates(owned)
        invariant forall d :: d in owned <==> d in list[..i] && d in OwnedDeployments(Snapshot(), p)
        invariant Descending(deployments, owned)
      {
        assert list[i] in list;
        if IsControlledBy(deployments[list[i]].owners, proxies[p].uid) {
          assert list[i] !in list[..i];
          owned := InsertNewestFirst(owned, list[i]);
        }
      }
      forall d | d in OwnedDeployments(Snapshot(), p) ensures d in owned {
        assert d in list && list[..|list|] == list;
      }
    }

    method InsertNewestFirst(ds: seq<Uid>, d: Uid) returns (r: seq<Uid>)
      requires Descending(deployments, ds) && d in deployments && NoDuplicates(ds) && d !in ds
      ensures Descending(deployments, r) && NoDuplicates(r)
      ensures forall x :: x in r <==> x in ds || x == d
    {
      var i := |ds|;
      while i > 0 && deployments[ds[i - 1]].created < deployments[d].created
        invariant 0 <= i <= |ds|
        invariant forall j :: i <= j < |ds| ==> deployments[ds[j]].created < deployments[d].created
      {
        i := i - 1;
      }
      r := Inserted(ds, i, d);
      InsertedOnce(ds, i, d);
      InsertedDescending(deployments, ds, i, d);
    }

    /** At most one ConfigMap, or the "multiple configmaps" error. */
    method GetConfigMapForProxy(p: Key, list: seq<Key>) returns (r: Result<Option<Key>, Error>)
      requires p in proxies && forall k :: k in list ==> k in configMaps
      ensures
        var mine := Controlled(configMaps, proxies[p].uid, list);
        r == if |mine| > 1 then Failure(MultipleConfigMaps)
             else if mine == [] then Success(None)
             else Success(Some(mine[0]))
    {
      var mine := GetConfigMapsForProxy(p, list);
      if |mine| > 1 {
        return Failure(MultipleConfigMaps);
      }
      if |mine| == 0 {
        return Success(None);
      }
      return Success(Some(mine[0]));
    }

    // ---- internal/controller/proxyconfigmap/controller.go ----

    method GetNewReplicaSet(dep: Deployment, list: seq<Uid>) returns (r: Option<Uid>)
      requires forall r :: r in list ==> r in replicaSets
      ensures r == NewReplicaSet(replicaSets, dep, list)
    {
      var i := 0;
      while i < |list|
        invariant 0 <= i <= |list|
        invariant NewReplicaSet(replicaSets, dep, list) == NewReplicaSet(replicaSets, dep, list[i..])
      {
        assert list[i] in list && list[i..][0] == list[i] && list[i..][1..] == list[i + 1..];
        if Matches(dep, replicaSets[list[i]]) {
          return Some(list[i]);
        }
        i := i + 1;
      }
      return None;
    }

    /** Keep all references but those to the proxy. */
    method DropOwner(owners: seq<OwnerRef>, uid: Uid) returns (left: seq<OwnerRef>)
      ensures left == Without(owners, uid)
    {
      left := [];
      for i := 0 to |owners|
        invariant left == Without(owners[..i], uid)
      {
        assert owners[..i + 1][..i] == owners[..i];
        if owners[i].uid != uid {
          left := left + [owners[i]];
        }
      }
      assert owners[..|owners|] == owners;
    }

    method ApplyOwnerRefToCM(p: Key, k: Key, ghost l: Listing, owned: seq<Uid>, list: seq<Uid>)
      returns (outcome: Outcome)
      requires p in proxies && k in configMaps && l.owned == owned && l.replicaSets == list
      requires forall d :: d in owned ==> d in deployments
      requires forall r :: r in list ==> r in replicaSets
      modifies this`configMaps
      ensures (Snapshot(), outcome) == Release(old(Snapshot()), p, k, l)
    {
      if owned == [] {
        return Requeued;
      }
      var found := GetNewReplicaSet(deployments[owned[0]], list);
      if found.None? {
        return Requeued;
      }
      var owners := configMaps[k].owners;
      var already := FindOwner(owners, found.value);
      if !already {
        owners := owners + [OwnerRef(found.value, false)];
      }
      owners := DropOwner(owners, proxies[p].uid);
      configMaps := configMaps[k := configMaps[k].(owners := owners)];
      return Requeued;
    }

    method ReuseConfigMap(p: Key, k: Key, owned: seq<Uid>) returns (outcome: Outcome)
      requires p in proxies && k in configMaps && forall d :: d in owned ==> d in deployments
      modifies this`configMaps
      ensures (Snapshot(), outcome) == Reuse(old(Snapshot()), p, k, owned)
    {
      if owned == [] {
        return Failed(NoDeployment);
      }
      var volumes := deployments[owned[0]].template.volumes;
      var isLatest := false;
      for i := 0 to |volumes|
        invariant isLatest <==> exists j :: 0 <= j < i && volumes[j].configMap == Some(k.name)
      {
        if volumes[i].configMap == Some(k.name) {
          isLatest := true;
        }
      }
      if !isLatest {
        var owners := configMaps[k].owners + [OwnerRef(proxies[p].uid, true)];
        configMaps := configMaps[k := configMaps[k].(owners := owners)];
      }
      return Finished;
    }

    /** syncHandler of the configmap controller. */
    method SyncConfigMapHandler(p: Key, cms: seq<Key>, ds: seq<Uid>, rss: seq<Uid>)
      returns (outcome: Outcome, ghost l: Listing)
      requires Enumerates(cms, ConfigMapsIn(Snapshot(), p.ns))
      requires Enumerates(ds, DeploymentsIn(Snapshot(), p.ns))
      requires Enumerates(rss, ReplicaSetsIn(Snapshot(), p.ns))
      modifies this`configMaps
      ensures Fresh(old(Snapshot()), p, l)
      ensures (Snapshot(), outcome) == SyncConfigMap(sha, old(Snapshot()), p, l)
      ensures !(p in old(proxies) && old(proxies[p].alive)) ==> Snapshot() == old(Snapshot()) && outcome == Finished
      ensures p in old(proxies) && old(proxies[p].alive) && old(proxies[p].generation != proxies[p].observed) ==>
        Snapshot() == old(Snapshot()) && outcome == Requeued
    {
      l := Listing(cms, [], rss);
      if p !in proxies {
        return Finished, l;
      }
      var owned := GetDeploymentsForProxy(p, ds);
      l := Listing(cms, owned, rss);
      if !proxies[p].alive {
        return Finished, l;
      }
      if proxies[p].generation != proxies[p].observed {
        return Requeued, l;
      }
      var mine := GetConfigMapsForProxy(p, cms);
      if |mine| == 0 {
        match proxies[p].wanted {
          case Failure(message) =>
            outcome := Failed(NoConfig(message));
          case Success(json) =>
            var name := ComputeName(sha, p.name + CONFIG, [p.name, json]);
            var k := Key(p.ns, name);
            if k !in configMaps {
              configMaps := configMaps[k := ConfigMap(json, [OwnerRef(proxies[p].uid, true)])];
              outcome := Requeued;
            } else {
              outcome := ReuseConfigMap(p, k, owned);
            }
        }
      } else if |mine| == 1 {
        assert mine[0] in mine;
        outcome := ApplyOwnerRefToCM(p, mine[0], l, owned, rss);
      } else {
        outcome := Finished;
      }
    }

    // ---- internal/controller/proxydeployment/controller.go ----

    method RenameConfigVolumes(volumes: seq<Volume>, configMap: string) returns (r: Option<seq<Volume>>)
      ensures r == if Remountable(volumes) then Some(Remount(volumes, configMap)) else None
    {
      var out := [];
      for i := 0 to |volumes|
        invariant |out| == i
        invariant forall j :: 0 <= j < i && volumes[j].name == CONFIG_VOLUME ==> volumes[j].configMap.Some?
        invariant forall j :: 0 <= j < i ==> out[j] == Remount(volumes, configMap)[j]
      {
        var v := volumes[i];
        if v.name == CONFIG_VOLUME {
          if v.configMap.None? {
            return None;
          }
          v := v.(configMap := Some(configMap));
        }
        out := out + [v];
      }
      assert out == Remount(volumes, configMap);
      return Some(out);
    }

    method DeleteDeployments(list: seq<Uid>)
      modifies this`deployments
      ensures deployments == old(deployments) - (set d | d in list)
    {
      for i := 0 to |list|
        invariant deployments == old(deployments) - (set d | d in list[..i])
      {
        deployments := deployments - {list[i]};
        assert list[..i + 1] == list[..i] + [list[i]];
      }
      assert list[..|list|] == list;
    }

    method CreateOrUpdate(p: Key, cms: seq<Key>, owned: seq<Uid>, now: nat) returns (outcome: Outcome)
      requires p in proxies
      requires forall k :: k in cms ==> k in configMaps
      requires forall d :: d in owned ==> d in deployments
      modifies this`deployments, this`nextUid
      ensures
        var s := old(Snapshot());
        var mine := Controlled(s.configMaps, s.proxies[p].uid, cms);
        (Snapshot(), outcome) ==
          if |mine| > 1 then (s, Failed(MultipleConfigMaps))
          else if owned == [] then CreateDeployment(sha, s, p, mine, now)
          else UpdateDeployment(s, owned[0], mine)
    {
      var cm := GetConfigMapForProxy(p, cms);
      if cm.Failure? {
        return Failed(cm.error);
      }
      if owned == [] {
        if cm.value.None? {
          return Failed(NoConfigMap);
        }
        var dep := DeploymentForProxy(sha, proxies[p], p, cm.value.value.name, now);
        deployments := deployments[nextUid := dep];
        nextUid := nextUid + 1;
      } else if cm.value.Some? {
        var dep := deployments[owned[0]];
        var volumes := RenameConfigVolumes(dep.template.volumes, cm.value.value.name);
        if volumes.None? {
          return Failed(NilConfigVolume);
        }
        deployments := deployments[owned[0] := dep.(template := dep.template.(volumes := volumes.value))];
      }
      return Finished;
    }

    /** syncHandler of the deployment controller. */
    method SyncDeploymentHandler(p: Key, cms: seq<Key>, ds: seq<Uid>, ghost rss: seq<Uid>, now: nat)
      returns (outcome: Outcome, ghost l: Listing)
      requires Enumerates(cms, ConfigMapsIn(Snapshot(), p.ns))
      requires Enumerates(ds, DeploymentsIn(Snapshot(), p.ns))
      requires Enumerates(rss, ReplicaSetsIn(Snapshot(), p.ns))
      modifies this`deployments, this`nextUid
      ensures Fresh(old(Snapshot()), p, l)
      ensures (Snapshot(), outcome) == SyncDeployment(sha, old(Snapshot()), p, l, now)
      ensures !(p in old(proxies) && old(proxies[p].alive)) ==> Snapshot() == old(Snapshot()) && outcome == Finished
      ensures p in old(proxies) && old(proxies[p].alive) && old(proxies[p].generation != proxies[p].observed) ==>
        Snapshot() == old(Snapshot()) && outcome == Requeued
    {
      l := Listing(cms, [], rss);
      if p !in proxies {
        return Finished, l;
      }
      var owned := GetDeploymentsForProxy(p, ds);
      l := Listing(cms, owned, rss);
      if !proxies[p].alive {
        return Finished, l;
      }
      if proxies[p].generation != proxies[p].observed {
        return Requeued, l;
      }
      outcome := CreateOrUpdate(p, cms, owned, now);
      if outcome.Failed? {
        return outcome, l;
      }
      if |owned| > 0 {
        var dList := owned[1..];
        if |dList| > 0 {
          assert dList[1..] == owned[2..];
          DeleteDeployments(dList[1..]);
          outcome := Failed(MultipleDeployments);
        }
      }
    }
  }
}
