/** Every step of the ownership protocol keeps the invariant. */
module Ownership {
  import opened Names
  import opened Cluster
  import opened Sync
  import opened Protocol

  // ---- New owner references for one ConfigMap: reuse, release, pruning ----

  function WithOwners(cms: ConfigMaps, k: Key, owners: seq<OwnerRef>): ConfigMaps
    requires k in cms
  {
    cms[k := cms[k].(owners := owners)]
  }

  /** Control is gained only when the proxy holds nothing else. */
  ghost predicate SafeGain(ps: Proxies, cms: ConfigMaps, k: Key, owners: seq<OwnerRef>)
    requires ConfigMapHome(k) in ps
  {
    IsOwnedBy(owners, ps[ConfigMapHome(k)].uid) ==>
      forall k' :: Held(ps, cms, k') && ConfigMapHome(k') == ConfigMapHome(k) ==> k' == k
  }

  /** ReplicaSets that mount it keep their reference; without control, each of them must have one. */
  ghost predicate SafeForReplicaSet(ps: Proxies, cms: ConfigMaps, k: Key, owners: seq<OwnerRef>, r: Uid, rs: ReplicaSet)
    requires k in cms && ConfigMapHome(k) in ps
  {
    ReplicaSetMount(rs) == k && Alive(ps, ReplicaSetHome(rs))
    && (IsOwnedBy(cms[k].owners, r) || !IsOwnedBy(owners, ps[ConfigMapHome(k)].uid))
    ==> IsOwnedBy(owners, r)
  }

  /** On release, a Deployment that mounts it already has its ReplicaSet, and there is a Deployment. */
  ghost predicate SafeRelease(
    ps: Proxies, cms: ConfigMaps, rss: ReplicaSets, ds: Deployments, k: Key, owners: seq<OwnerRef>)
    requires k in cms && ConfigMapHome(k) in ps
  {
    Alive(ps, ConfigMapHome(k)) && Held(ps, cms, k) && !IsOwnedBy(owners, ps[ConfigMapHome(k)].uid) ==>
      && HasDeployment(ds, ConfigMapHome(k))
      && forall d :: d in ds && Alive(ps, DeploymentHome(ds[d])) && DeploymentMount(ds[d]) == k ==> HasMatch(rss, ds[d])
  }

  lemma OwnersChange(sha: Sha1, s: State, k: Key, owners: seq<OwnerRef>)
    requires Inv(sha, s) && k in s.configMaps && ConfigMapHome(k) in s.proxies
    requires WellOwned(owners, s.proxies[ConfigMapHome(k)].uid, s.nextUid)
    requires SafeGain(s.proxies, s.configMaps, k, owners)
    requires forall r :: r in s.replicaSets ==>
      SafeForReplicaSet(s.proxies, s.configMaps, k, owners, r, s.replicaSets[r])
    requires SafeRelease(s.proxies, s.configMaps, s.replicaSets, s.deployments, k, owners)
    ensures Inv(sha, s.(configMaps := WithOwners(s.configMaps, k, owners)))
  {
    OwnersChangeControl(sha, s.proxies, s.nextUid, s.configMaps, k, owners);
    OwnersChangeServed(s.proxies, s.configMaps, s.replicaSets, s.deployments, k, owners);
  }

  lemma OwnersChangeControl(sha: Sha1, ps: Proxies, next: Uid, cms: ConfigMaps, k: Key, owners: seq<OwnerRef>)
    requires ConfigMapsOk(sha, ps, next, cms) && OneHeld(ps, cms) && k in cms && ConfigMapHome(k) in ps
    requires WellOwned(owners, ps[ConfigMapHome(k)].uid, next) && SafeGain(ps, cms, k, owners)
    ensures ConfigMapsOk(sha, ps, next, WithOwners(cms, k, owners)) && OneHeld(ps, WithOwners(cms, k, owners))
  {
    assert forall k' :: k' != k ==> Held(ps, WithOwners(cms, k, owners), k') == Held(ps, cms, k');
  }

  lemma OwnersChangeServed(
    ps: Proxies, cms: ConfigMaps, rss: ReplicaSets, ds: Deployments, k: Key, owners: seq<OwnerRef>)
    requires k in cms && ConfigMapHome(k) in ps
    requires DeploymentsServed(ps, cms, rss, ds) && ReplicaSetsServed(ps, cms, rss, ds) && HeldUntilDeployed(ps, cms, ds)
    requires forall r :: r in rss ==> SafeForReplicaSet(ps, cms, k, owners, r, rss[r])
    requires SafeRelease(ps, cms, rss, ds, k, owners)
    ensures DeploymentsServed(ps, WithOwners(cms, k, owners), rss, ds)
    ensures ReplicaSetsServed(ps, WithOwners(cms, k, owners), rss, ds)
    ensures HeldUntilDeployed(ps, WithOwners(cms, k, owners), ds)
  {
    var cms' := WithOwners(cms, k, owners);
    assert forall k' :: k' != k ==> Held(ps, cms', k') == Held(ps, cms, k');
    forall r | r in rss ensures ReplicaSetServed(ps, cms', ds, r, rss[r]) {
      assert ReplicaSetServed(ps, cms, ds, r, rss[r]) && SafeForReplicaSet(ps, cms, k, owners, r, rss[r]);
    }
  }

  // ---- A new ConfigMap, held by a proxy that holds no other ----

  lemma Created(sha: Sha1, s: State, p: Key, json: string)
    requires Inv(sha, s) && p in s.proxies && ConfigMapKey(sha, p, json) !in s.configMaps
    requires forall k :: Held(s.proxies, s.configMaps, k) ==> ConfigMapHome(k) != p
    ensures Inv(sha, s.(configMaps :=
      s.configMaps[ConfigMapKey(sha, p, json) := ConfigMap(json, [OwnerRef(s.proxies[p].uid, true)])]))
  {
    var k, cm := ConfigMapKey(sha, p, json), ConfigMap(json, [OwnerRef(s.proxies[p].uid, true)]);
    ConfigMapHomeOf(sha, p, json);
    CreatedControl(sha, s.proxies, s.nextUid, s.configMaps, k, cm);
    CreatedServed(s.proxies, s.configMaps, s.replicaSets, s.deployments, k, cm);
  }

  lemma CreatedControl(sha: Sha1, ps: Proxies, next: Uid, cms: ConfigMaps, k: Key, cm: ConfigMap)
    requires ConfigMapsOk(sha, ps, next, cms) && OneHeld(ps, cms) && k !in cms && ConfigMapOk(sha, ps, next, k, cm)
    requires forall k' :: Held(ps, cms, k') ==> ConfigMapHome(k') != ConfigMapHome(k)
    ensures ConfigMapsOk(sha, ps, next, cms[k := cm]) && OneHeld(ps, cms[k := cm])
  {
    assert forall k' :: k' != k ==> Held(ps, cms[k := cm], k') == Held(ps, cms, k');
  }

  lemma CreatedServed(ps: Proxies, cms: ConfigMaps, rss: ReplicaSets, ds: Deployments, k: Key, cm: ConfigMap)
    requires k !in cms && ConfigMapHome(k) in ps && cm.owners == [OwnerRef(ps[ConfigMapHome(k)].uid, true)]
    requires DeploymentsServed(ps, cms, rss, ds) && ReplicaSetsServed(ps, cms, rss, ds) && HeldUntilDeployed(ps, cms, ds)
    ensures DeploymentsServed(ps, cms[k := cm], rss, ds)
    ensures ReplicaSetsServed(ps, cms[k := cm], rss, ds)
    ensures HeldUntilDeployed(ps, cms[k := cm], ds)
  {
    assert forall k' :: k' != k ==> Held(ps, cms[k := cm], k') == Held(ps, cms, k');
    assert cm.owners[0].uid == ps[ConfigMapHome(k)].uid;
  }

  // ---- Garbage collection of ConfigMaps ----

  /** A ConfigMap whose owners are all gone is mounted by nothing of a live proxy, nor held by one. */
  lemma DeadMeansUnused(sha: Sha1, s: State, k: Key)
    requires Inv(sha, s) && k in s.configMaps && AllDead(s, s.configMaps[k].owners)
    ensures Alive(s.proxies, ConfigMapHome(k)) ==> !Held(s.proxies, s.configMaps, k)
    ensures forall d :: d in s.deployments && Alive(s.proxies, DeploymentHome(s.deployments[d])) ==>
      DeploymentMount(s.deployments[d]) != k
    ensures forall r :: r in s.replicaSets && Alive(s.proxies, ReplicaSetHome(s.replicaSets[r])) ==>
      ReplicaSetMount(s.replicaSets[r]) != k
  {
    var owners := s.configMaps[k].owners;
    assert forall r :: r in s.replicaSets ==> !IsOwnedBy(owners, r);
    assert forall r :: r in s.replicaSets ==>
      ReplicaSetServed(s.proxies, s.configMaps, s.deployments, r, s.replicaSets[r]);
    forall d | d in s.deployments && Alive(s.proxies, DeploymentHome(s.deployments[d]))
      ensures DeploymentMount(s.deployments[d]) != k
    {
      var dep := s.deployments[d];
      if DeploymentMount(dep) == k {
        assert DeploymentServed(s.proxies, s.configMaps, s.replicaSets, dep);
        var r :| r in s.replicaSets && Matches(dep, s.replicaSets[r]);
        MatchMeans(sha, s.proxies, dep, s.deployments, s.replicaSets[r]);
      }
    }
  }

  /** A matching ReplicaSet belongs to the same proxy and mounts the same ConfigMap. */
  lemma MatchMeans(sha: Sha1, ps: Proxies, dep: Deployment, ds: Deployments, rs: ReplicaSet)
    requires DeploymentOk(sha, ps, dep) && ReplicaSetOk(sha, ps, ds, rs)
    ensures Matches(dep, rs) <==>
      && ReplicaSetHome(rs) == DeploymentHome(dep)
      && ReplicaSetMount(rs) == DeploymentMount(dep)
      && rs.template.container == dep.template.container
  {
    var h := DeploymentHome(dep);
    assert HASH_LABEL !in Selector(sha, h);
    assert Selector(sha, h) - {HASH_LABEL} == Selector(sha, h);
    if Matches(dep, rs) {
      SelectsHome(sha, h, rs.ns, rs.labels);
    }
    if ReplicaSetHome(rs) == h {
      forall key | key in Selector(sha, h) ensures key in rs.labels && rs.labels[key] == Selector(sha, h)[key] {
        assert key in rs.labels - {HASH_LABEL};
      }
    }
  }

  lemma Collected(sha: Sha1, s: State, k: Key)
    requires Inv(sha, s) && k in s.configMaps && AllDead(s, s.configMaps[k].owners)
    ensures Inv(sha, s.(configMaps := s.configMaps - {k}))
  {
    DeadMeansUnused(sha, s, k);
    CollectedControl(sha, s.proxies, s.nextUid, s.configMaps, k);
    CollectedServed(s.proxies, s.configMaps, s.replicaSets, s.deployments, k);
  }

  lemma CollectedControl(sha: Sha1, ps: Proxies, next: Uid, cms: ConfigMaps, k: Key)
    requires ConfigMapsOk(sha, ps, next, cms) && OneHeld(ps, cms)
    ensures ConfigMapsOk(sha, ps, next, cms - {k}) && OneHeld(ps, cms - {k})
  {
    assert forall k' :: Held(ps, cms - {k}, k') ==> Held(ps, cms, k');
  }

  lemma CollectedServed(ps: Proxies, cms: ConfigMaps, rss: ReplicaSets, ds: Deployments, k: Key)
    requires DeploymentsServed(ps, cms, rss, ds) && ReplicaSetsServed(ps, cms, rss, ds) && HeldUntilDeployed(ps, cms, ds)
    requires forall d :: d in ds && Alive(ps, DeploymentHome(ds[d])) ==> DeploymentMount(ds[d]) != k
    requires forall r :: r in rss && Alive(ps, ReplicaSetHome(rss[r])) ==> ReplicaSetMount(rss[r]) != k
    ensures DeploymentsServed(ps, cms - {k}, rss, ds)
    ensures ReplicaSetsServed(ps, cms - {k}, rss, ds)
    ensures HeldUntilDeployed(ps, cms - {k}, ds)
  {
    assert forall k' :: k' != k ==> Held(ps, cms - {k}, k') == Held(ps, cms, k');
    forall r | r in rss ensures ReplicaSetServed(ps, cms - {k}, ds, r, rss[r]) {
      assert ReplicaSetServed(ps, cms, ds, r, rss[r]);
    }
  }

  lemma LiveOwnersDistinct(s: State, owners: seq<OwnerRef>)
    requires forall i, j :: 0 <= i < j < |owners| ==> owners[i].uid != owners[j].uid
    ensures var r := LiveOwners(s, owners); forall i, j :: 0 <= i < j < |r| ==> r[i].uid != r[j].uid
  {
    if owners != [] {
      var last, front := owners[|owners| - 1], owners[..|owners| - 1];
      LiveOwnersDistinct(s, front);
      assert forall o :: o in LiveOwners(s, front) ==> o in front;
    }
  }

  /** Members of an owner list, as indices and as elements. */
  lemma OwnedByElement(owners: seq<OwnerRef>, u: Uid)
    ensures IsOwnedBy(owners, u) <==> exists o :: o in owners && o.uid == u
  {
    if o :| o in owners && o.uid == u {
      var i :| 0 <= i < |owners| && owners[i] == o;
    }
  }

  lemma LiveOwnersOwn(s: State, owners: seq<OwnerRef>, u: Uid)
    ensures IsOwnedBy(LiveOwners(s, owners), u) <==> IsOwnedBy(owners, u) && LiveUid(s, u)
  {
    OwnedByElement(owners, u);
    OwnedByElement(LiveOwners(s, owners), u);
  }

  lemma PrunedOwners(s: State, owners: seq<OwnerRef>, u: Uid, next: Uid)
    requires WellOwned(owners, u, next) && !AllDead(s, owners)
    ensures WellOwned(LiveOwners(s, owners), u, next)
  {
    var live := LiveOwners(s, owners);
    LiveOwnersDistinct(s, owners);
    assert live != [] by {
      var i :| 0 <= i < |owners| && LiveUid(s, owners[i].uid);
      assert owners[i] in live;
    }
    forall i | 0 <= i < |live| ensures (live[i].controller <==> live[i].uid == u) && live[i].uid < next {
      assert live[i] in owners;
    }
  }

  lemma Pruned(sha: Sha1, s: State, k: Key)
    requires Inv(sha, s) && k in s.configMaps && !AllDead(s, s.configMaps[k].owners)
    ensures Inv(sha, s.(configMaps := WithOwners(s.configMaps, k, LiveOwners(s, s.configMaps[k].owners))))
  {
    var owners, h := s.configMaps[k].owners, ConfigMapHome(k);
    var live := LiveOwners(s, owners);
    assert ConfigMapOk(sha, s.proxies, s.nextUid, k, s.configMaps[k]);
    PrunedOwners(s, owners, s.proxies[h].uid, s.nextUid);
    forall u ensures IsOwnedBy(live, u) <==> IsOwnedBy(owners, u) && LiveUid(s, u) { LiveOwnersOwn(s, owners, u); }
    assert Alive(s.proxies, h) ==> LiveUid(s, s.proxies[h].uid);
    forall r | r in s.replicaSets ensures SafeForReplicaSet(s.proxies, s.configMaps, k, live, r, s.replicaSets[r]) {
      assert ReplicaSetServed(s.proxies, s.configMaps, s.deployments, r, s.replicaSets[r]);
    }
    OwnersChange(sha, s, k, live);
  }

  // ---- The configmap sync ----

  lemma AppendedOwners(owners: seq<OwnerRef>, o: OwnerRef, v: Uid)
    ensures IsOwnedBy(owners + [o], v) <==> IsOwnedBy(owners, v) || v == o.uid
  {
    OwnedByElement(owners, v);
    OwnedByElement(owners + [o], v);
    assert o in owners + [o];
  }

  lemma WithoutOwn(owners: seq<OwnerRef>, u: Uid, v: Uid)
    ensures IsOwnedBy(Without(owners, u), v) <==> IsOwnedBy(owners, v) && v != u
  {
    OwnedByElement(owners, v);
    OwnedByElement(Without(owners, u), v);
  }

  lemma ReleasedOwn(owners: seq<OwnerRef>, r: Uid, u: Uid, v: Uid)
    ensures IsOwnedBy(Released(owners, r, u), v) <==> (IsOwnedBy(owners, v) || v == r) && v != u
  {
    AppendedOwners(owners, OwnerRef(r, false), v);
    WithoutOwn(if IsOwnedBy(owners, r) then owners else owners + [OwnerRef(r, false)], u, v);
  }

  lemma ReleasedOwners(owners: seq<OwnerRef>, r: Uid, u: Uid, next: Uid)
    requires WellOwned(owners, u, next) && r != u && r < next
    ensures WellOwned(Released(owners, r, u), u, next)
  {
    var full := if IsOwnedBy(owners, r) then owners else owners + [OwnerRef(r, false)];
    var left := Released(owners, r, u);
    WithoutDistinct(full, u);
    assert left == Without(full, u);
    forall i | 0 <= i < |left| ensures left[i] in full && left[i].uid != u { assert left[i] in left; }
    ReleasedOwn(owners, r, u, r);
  }

  lemma WithoutDistinct(owners: seq<OwnerRef>, u: Uid)
    requires forall i, j :: 0 <= i < j < |owners| ==> owners[i].uid != owners[j].uid
    ensures var r := Without(owners, u); forall i, j :: 0 <= i < j < |r| ==> r[i].uid != r[j].uid
  {
    if owners != [] {
      var front := owners[..|owners| - 1];
      WithoutDistinct(front, u);
      assert forall o :: o in Without(front, u) ==> o in front;
    }
  }

  /** Every live ReplicaSet that mounts the released ConfigMap is an owner afterwards. */
  lemma ReleaseSafe(sha: Sha1, s: State, k: Key, d: Uid, r: Uid, r': Uid)
    requires Inv(sha, s) && Held(s.proxies, s.configMaps, k)
    requires d in s.deployments && DeploymentHome(s.deployments[d]) == ConfigMapHome(k)
    requires r in s.replicaSets && Matches(s.deployments[d], s.replicaSets[r]) && r' in s.replicaSets
    requires Alive(s.proxies, ReplicaSetHome(s.replicaSets[r'])) && ReplicaSetMount(s.replicaSets[r']) == k
    ensures r' == r || IsOwnedBy(s.configMaps[k].owners, r')
  {
    var rs, rs', dep := s.replicaSets[r], s.replicaSets[r'], s.deployments[d];
    assert ReplicaSetServed(s.proxies, s.configMaps, s.deployments, r', rs');
    if !IsOwnedBy(s.configMaps[k].owners, r') {
      assert DeploymentOk(sha, s.proxies, dep);
      assert ReplicaSetOk(sha, s.proxies, s.deployments, rs) && ReplicaSetOk(sha, s.proxies, s.deployments, rs');
      assert rs'.deployment == d;
      MatchMeans(sha, s.proxies, dep, s.deployments, rs);
      assert SameTemplate(rs, rs');
    }
  }

  lemma ReleaseKeepsInv(sha: Sha1, s: State, p: Key, k: Key, l: Listing)
    requires Inv(sha, s) && Visible(s, p) && Fresh(s, p, l)
    requires Held(s.proxies, s.configMaps, k) && ConfigMapHome(k) == p
    ensures Inv(sha, Release(s, p, k, l).0)
  {
    AtMostOneOwned(sha, s, p, l);
    if l.owned != [] {
      var d := l.owned[0];
      var dep := s.deployments[d];
      var found := NewReplicaSet(s.replicaSets, dep, l.replicaSets);
      if found.Some? {
        var r, u := found.value, s.proxies[p].uid;
        var owners := Released(s.configMaps[k].owners, r, u);
        assert ConfigMapOk(sha, s.proxies, s.nextUid, k, s.configMaps[k]);
        ReleasedOwners(s.configMaps[k].owners, r, u, s.nextUid);
        forall v ensures IsOwnedBy(owners, v) <==> (IsOwnedBy(s.configMaps[k].owners, v) || v == r) && v != u {
          ReleasedOwn(s.configMaps[k].owners, r, u, v);
        }
        assert HasDeployment(s.deployments, p);
        assert HasMatch(s.replicaSets, dep);
        assert forall d' :: d' in s.deployments ==>
          DeploymentServed(s.proxies, s.configMaps, s.replicaSets, s.deployments[d']);
        forall r' | r' in s.replicaSets
          ensures SafeForReplicaSet(s.proxies, s.configMaps, k, owners, r', s.replicaSets[r'])
        {
          if Alive(s.proxies, ReplicaSetHome(s.replicaSets[r'])) && ReplicaSetMount(s.replicaSets[r']) == k {
            ReleaseSafe(sha, s, k, d, r, r');
          }
        }
        OwnersChange(sha, s, k, owners);
      }
    }
  }

  lemma ReusedOwners(owners: seq<OwnerRef>, u: Uid, next: Uid)
    requires WellOwned(owners, u, next) && !IsOwnedBy(owners, u) && u < next
    ensures WellOwned(owners + [OwnerRef(u, true)], u, next)
  {
  }

  lemma ReuseKeepsInv(sha: Sha1, s: State, p: Key, k: Key, l: Listing)
    requires Inv(sha, s) && Visible(s, p) && Fresh(s, p, l) && k in s.configMaps && ConfigMapHome(k) == p
    requires forall k' :: Held(s.proxies, s.configMaps, k') ==> ConfigMapHome(k') != p
    ensures Inv(sha, Reuse(s, p, k, l.owned).0)
  {
    if l.owned != [] && !Mounts(s.deployments[l.owned[0]].template, k.name) {
      var owners := s.configMaps[k].owners;
      var owners' := owners + [OwnerRef(s.proxies[p].uid, true)];
      assert ConfigMapOk(sha, s.proxies, s.nextUid, k, s.configMaps[k]);
      ReusedOwners(owners, s.proxies[p].uid, s.nextUid);
      forall v ensures IsOwnedBy(owners', v) <==> IsOwnedBy(owners, v) || v == s.proxies[p].uid {
        AppendedOwners(owners, OwnerRef(s.proxies[p].uid, true), v);
      }
      forall r | r in s.replicaSets
        ensures SafeForReplicaSet(s.proxies, s.configMaps, k, owners', r, s.replicaSets[r])
      {
        assert ReplicaSetServed(s.proxies, s.configMaps, s.deployments, r, s.replicaSets[r]);
      }
      OwnersChange(sha, s, k, owners');
    }
  }

  lemma ConfigMapSyncKeepsInv(sha: Sha1, s: State, p: Key, l: Listing)
    requires Inv(sha, s) && Fresh(s, p, l)
    ensures Inv(sha, SyncConfigMap(sha, s, p, l).0)
  {
    if Visible(s, p) && GateOpen(s, p) {
      AtMostOneControlled(sha, s, p, l);
      var mine := Controlled(s.configMaps, s.proxies[p].uid, l.configMaps);
      if mine == [] {
        assert forall k :: Held(s.proxies, s.configMaps, k) ==> ConfigMapHome(k) != p;
        if s.proxies[p].wanted.Success? {
          var json := s.proxies[p].wanted.value;
          var k := ConfigMapKey(sha, p, json);
          ConfigMapHomeOf(sha, p, json);
          if k in s.configMaps {
            ReuseKeepsInv(sha, s, p, k, l);
          } else {
            Created(sha, s, p, json);
          }
        }
      } else {
        assert mine[0] in mine;
        ReleaseKeepsInv(sha, s, p, mine[0], l);
      }
    }
  }

  // ---- The deployment sync ----

  /** The first Deployment of a proxy, mounting a ConfigMap the proxy holds. */
  lemma FirstDeployment(sha: Sha1, s: State, p: Key, k: Key, now: nat)
    requires Inv(sha, s) && Visible(s, p) && !HasDeployment(s.deployments, p)
    requires Held(s.proxies, s.configMaps, k) && ConfigMapHome(k) == p
    ensures Inv(sha, CreateDeployment(sha, s, p, [k], now).0)
  {
    var dep := DeploymentForProxy(sha, s.proxies[p], p, k.name, now);
    FirstDeploymentOk(sha, s.proxies, s.deployments, s.nextUid, p, k, now);
    GrownDeployments(sha, s.proxies, s.configMaps, s.replicaSets, s.deployments, s.nextUid, dep);
    FirstDeploymentPlaced(sha, s, p, k, now);
  }

  lemma FirstDeploymentPlaced(sha: Sha1, s: State, p: Key, k: Key, now: nat)
    requires Placed(sha, s) && Visible(s, p)
    requires
      var ds := s.deployments[s.nextUid := DeploymentForProxy(sha, s.proxies[p], p, k.name, now)];
      DeploymentsOk(sha, s.proxies, ds) && OneDeployment(ds) && ReplicaSetsOk(sha, s.proxies, ds, s.replicaSets)
    ensures Placed(sha, CreateDeployment(sha, s, p, [k], now).0)
  {
    NewUid(s.proxies, s.deployments, s.replicaSets, s.nextUid, DeploymentForProxy(sha, s.proxies[p], p, k.name, now));
    NextUidGrows(sha, s.proxies, s.nextUid, s.configMaps);
  }

  lemma NewUid(ps: Proxies, ds: Deployments, rss: ReplicaSets, next: Uid, dep: Deployment)
    requires UidsOk(ps, ds, rss, next)
    ensures UidsOk(ps, ds[next := dep], rss, next + 1)
    ensures next !in ds && next !in rss
  {
  }

  lemma NewReplicaSetUid(ps: Proxies, ds: Deployments, rss: ReplicaSets, next: Uid, rs: ReplicaSet)
    requires UidsOk(ps, ds, rss, next) && rs.deployment < next
    ensures UidsOk(ps, ds, rss[next := rs], next + 1)
    ensures next !in rss
  {
  }

  lemma FirstDeploymentOk(sha: Sha1, ps: Proxies, ds: Deployments, d: Uid, p: Key, k: Key, now: nat)
    requires DeploymentsOk(sha, ps, ds) && OneDeployment(ds) && !HasDeployment(ds, p) && d !in ds
    requires p in ps && ConfigMapHome(k) == p
    ensures var dep := DeploymentForProxy(sha, ps[p], p, k.name, now);
      && DeploymentMount(dep) == k && DeploymentHome(dep) == p
      && DeploymentsOk(sha, ps, ds[d := dep]) && OneDeployment(ds[d := dep])
  {
    LabelHomeOf(sha, p);
  }

  lemma NextUidGrows(sha: Sha1, ps: Proxies, next: Uid, cms: ConfigMaps)
    requires ConfigMapsOk(sha, ps, next, cms)
    ensures ConfigMapsOk(sha, ps, next + 1, cms)
  {
    forall k | k in cms ensures ConfigMapOk(sha, ps, next + 1, k, cms[k]) {
      assert ConfigMapOk(sha, ps, next, k, cms[k]);
    }
  }

  lemma GrownDeployments(
    sha: Sha1, ps: Proxies, cms: ConfigMaps, rss: ReplicaSets, ds: Deployments, d: Uid, dep: Deployment)
    requires d !in ds && DeploymentServed(ps, cms, rss, dep)
    requires ReplicaSetsOk(sha, ps, ds, rss) && forall r :: r in rss ==> rss[r].deployment != d
    requires DeploymentsServed(ps, cms, rss, ds) && ReplicaSetsServed(ps, cms, rss, ds) && HeldUntilDeployed(ps, cms, ds)
    ensures ReplicaSetsOk(sha, ps, ds[d := dep], rss)
    ensures DeploymentsServed(ps, cms, rss, ds[d := dep])
    ensures ReplicaSetsServed(ps, cms, rss, ds[d := dep])
    ensures HeldUntilDeployed(ps, cms, ds[d := dep])
  {
    var ds' := ds[d := dep];
    forall r | r in rss ensures ReplicaSetOk(sha, ps, ds', rss[r]) && ReplicaSetServed(ps, cms, ds', r, rss[r]) {
      assert ReplicaSetOk(sha, ps, ds, rss[r]) && ReplicaSetServed(ps, cms, ds, r, rss[r]);
    }
    forall p | HasDeployment(ds, p) ensures HasDeployment(ds', p) {
      var d' :| d' in ds && DeploymentHome(ds[d']) == p;
      assert DeploymentHome(ds'[d']) == p;
    }
  }

  function Moved(dep: Deployment, configMap: string): Deployment {
    dep.(template := dep.template.(volumes := StandardVolumes(configMap)))
  }

  lemma MovedOk(sha: Sha1, ps: Proxies, ds: Deployments, d: Uid, k: Key)
    requires DeploymentsOk(sha, ps, ds) && OneDeployment(ds) && d in ds && k.ns == ds[d].ns
    ensures DeploymentsOk(sha, ps, ds[d := Moved(ds[d], k.name)]) && OneDeployment(ds[d := Moved(ds[d], k.name)])
    ensures DeploymentMount(Moved(ds[d], k.name)) == k
    ensures Remountable(ds[d].template.volumes)
    ensures Remount(ds[d].template.volumes, k.name) == StandardVolumes(k.name)
  {
    assert DeploymentOk(sha, ps, ds[d]);
    assert |Remount(ds[d].template.volumes, k.name)| == 2;
    assert DeploymentHome(Moved(ds[d], k.name)) == DeploymentHome(ds[d]);
  }

  /** Pointing the Deployment at the ConfigMap the proxy holds. */
  lemma MovedDeployment(sha: Sha1, s: State, d: Uid, k: Key)
    requires Inv(sha, s) && d in s.deployments
    requires Held(s.proxies, s.configMaps, k) && ConfigMapHome(k) == DeploymentHome(s.deployments[d])
    ensures UpdateDeployment(s, d, [k]) ==
      (s.(deployments := s.deployments[d := Moved(s.deployments[d], k.name)]), Finished)
    ensures Inv(sha, UpdateDeployment(s, d, [k]).0)
  {
    assert DeploymentOk(sha, s.proxies, s.deployments[d]);
    MovedOk(sha, s.proxies, s.deployments, d, k);
    MovedServed(sha, s.proxies, s.configMaps, s.replicaSets, s.deployments, d, Moved(s.deployments[d], k.name), k);
  }

  lemma MovedServed(
    sha: Sha1, ps: Proxies, cms: ConfigMaps, rss: ReplicaSets, ds: Deployments, d: Uid, dep': Deployment, k: Key)
    requires d in ds && dep' == Moved(ds[d], k.name) && DeploymentMount(dep') == k
    requires Held(ps, cms, k) && ConfigMapHome(k) == DeploymentHome(ds[d]) && OneHeld(ps, cms)
    requires ReplicaSetsOk(sha, ps, ds, rss)
    requires DeploymentsServed(ps, cms, rss, ds) && ReplicaSetsServed(ps, cms, rss, ds) && HeldUntilDeployed(ps, cms, ds)
    ensures ReplicaSetsOk(sha, ps, ds[d := dep'], rss)
    ensures DeploymentsServed(ps, cms, rss, ds[d := dep'])
    ensures ReplicaSetsServed(ps, cms, rss, ds[d := dep'])
    ensures HeldUntilDeployed(ps, cms, ds[d := dep'])
  {
    var ds' := ds[d := dep'];
    forall r | r in rss ensures ReplicaSetOk(sha, ps, ds', rss[r]) && ReplicaSetServed(ps, cms, ds', r, rss[r]) {
      assert ReplicaSetOk(sha, ps, ds, rss[r]) && ReplicaSetServed(ps, cms, ds, r, rss[r]);
    }
    forall p | HasDeployment(ds, p) ensures HasDeployment(ds', p) {
      var d' :| d' in ds && DeploymentHome(ds[d']) == p;
      assert DeploymentHome(ds'[d']) == p;
    }
  }

  /** With at most one ConfigMap and one Deployment, a sync of an open gate creates, moves or does nothing. */
  lemma DeploymentSyncCases(sha: Sha1, s: State, p: Key, l: Listing, now: nat, mine: seq<Key>)
    requires Fresh(s, p, l) && Visible(s, p) && GateOpen(s, p) && |l.owned| <= 1 && |mine| <= 1
    requires mine == Controlled(s.configMaps, s.proxies[p].uid, l.configMaps)
    ensures SyncDeployment(sha, s, p, l, now).0 ==
      if mine == [] then s
      else if l.owned == [] then CreateDeployment(sha, s, p, mine, now).0
      else UpdateDeployment(s, l.owned[0], mine).0
  {
  }

  lemma DeploymentSyncKeepsInv(sha: Sha1, s: State, p: Key, l: Listing, now: nat)
    requires Inv(sha, s) && Fresh(s, p, l)
    ensures Inv(sha, SyncDeployment(sha, s, p, l, now).0)
  {
    if Visible(s, p) && GateOpen(s, p) {
      AtMostOneControlled(sha, s, p, l);
      AtMostOneOwned(sha, s, p, l);
      var mine := Controlled(s.configMaps, s.proxies[p].uid, l.configMaps);
      DeploymentSyncCases(sha, s, p, l, now, mine);
      if |mine| == 1 {
        assert mine == [mine[0]] && mine[0] in mine;
        if l.owned == [] {
          FirstDeployment(sha, s, p, mine[0], now);
        } else {
          assert l.owned[0] in l.owned;
          MovedDeployment(sha, s, l.owned[0], mine[0]);
        }
      }
    }
  }

  lemma CollectedDeployment(sha: Sha1, s: State, d: Uid)
    requires Inv(sha, s) && d in s.deployments && AllDead(s, s.deployments[d].owners)
    ensures Inv(sha, s.(deployments := s.deployments - {d}))
  {
    var ps, ds, h := s.proxies, s.deployments, DeploymentHome(s.deployments[d]);
    assert DeploymentOk(sha, ps, ds[d]);
    assert s.deployments[d].owners[0].uid == ps[h].uid;
    assert !Alive(ps, h);
    ShrunkDeployments(sha, ps, s.configMaps, s.replicaSets, ds, d);
  }

  lemma ShrunkDeployments(sha: Sha1, ps: Proxies, cms: ConfigMaps, rss: ReplicaSets, ds: Deployments, d: Uid)
    requires d in ds && !Alive(ps, DeploymentHome(ds[d]))
    requires ReplicaSetsOk(sha, ps, ds, rss)
    requires DeploymentsServed(ps, cms, rss, ds) && ReplicaSetsServed(ps, cms, rss, ds) && HeldUntilDeployed(ps, cms, ds)
    ensures ReplicaSetsOk(sha, ps, ds - {d}, rss)
    ensures DeploymentsServed(ps, cms, rss, ds - {d})
    ensures ReplicaSetsServed(ps, cms, rss, ds - {d})
    ensures HeldUntilDeployed(ps, cms, ds - {d})
  {
    var ds' := ds - {d};
    forall r | r in rss ensures ReplicaSetOk(sha, ps, ds', rss[r]) && ReplicaSetServed(ps, cms, ds', r, rss[r]) {
      assert ReplicaSetOk(sha, ps, ds, rss[r]) && ReplicaSetServed(ps, cms, ds, r, rss[r]);
    }
    forall p | Alive(ps, p) && HasDeployment(ds, p) ensures HasDeployment(ds', p) {
      var d' :| d' in ds && DeploymentHome(ds[d']) == p;
      assert DeploymentHome(ds'[d']) == p;
    }
  }

  // ---- ReplicaSets ----

  lemma CreatedReplicaSet(sha: Sha1, s: State, d: Uid, hash: string)
    requires Inv(sha, s) && Enabled(s, CreateReplicaSet(d, hash))
    ensures Inv(sha, Next(sha, s, CreateReplicaSet(d, hash)))
  {
    CreatedReplicaSetPlaced(sha, s, d, hash);
    CreatedReplicaSetSupplied(sha, s, d, hash);
  }

  lemma CreatedReplicaSetPlaced(sha: Sha1, s: State, d: Uid, hash: string)
    requires Placed(sha, s) && Enabled(s, CreateReplicaSet(d, hash))
    ensures Placed(sha, Next(sha, s, CreateReplicaSet(d, hash)))
  {
    var rs := ReplicaSetFor(d, s.deployments[d], hash);
    assert DeploymentOk(sha, s.proxies, s.deployments[d]);
    StillOneReplicaSet(sha, s.proxies, s.deployments, s.replicaSets, s.nextUid, d, hash);
    PlacedWith(sha, s, rs);
    assert Next(sha, s, CreateReplicaSet(d, hash)) ==
      s.(replicaSets := s.replicaSets[s.nextUid := rs], nextUid := s.nextUid + 1);
  }

  lemma PlacedWith(sha: Sha1, s: State, rs: ReplicaSet)
    requires Placed(sha, s) && rs.deployment < s.nextUid
    ensures Placed(sha, s.(replicaSets := s.replicaSets[s.nextUid := rs], nextUid := s.nextUid + 1)) <==>
      && ReplicaSetsOk(sha, s.proxies, s.deployments, s.replicaSets[s.nextUid := rs])
      && OneReplicaSet(s.replicaSets[s.nextUid := rs])
  {
    var s' := s.(replicaSets := s.replicaSets[s.nextUid := rs], nextUid := s.nextUid + 1);
    assert UidsOk(s'.proxies, s'.deployments, s'.replicaSets, s'.nextUid) by {
      NewReplicaSetUid(s.proxies, s.deployments, s.replicaSets, s.nextUid, rs);
    }
    NextUidGrows(sha, s.proxies, s.nextUid, s.configMaps);
  }

  lemma CreatedReplicaSetSupplied(sha: Sha1, s: State, d: Uid, hash: string)
    requires s.nextUid !in s.replicaSets && Supplied(s) && Enabled(s, CreateReplicaSet(d, hash))
    requires DeploymentsOk(sha, s.proxies, s.deployments)
    ensures Supplied(Next(sha, s, CreateReplicaSet(d, hash)))
  {
    var rss := s.replicaSets[s.nextUid := ReplicaSetFor(d, s.deployments[d], hash)];
    MoreReplicaSets(s.proxies, s.configMaps, s.replicaSets, rss, s.deployments);
    NewReplicaSetServed(sha, s.proxies, s.configMaps, s.deployments, s.replicaSets, s.nextUid, d, hash);
  }

  lemma StillOneReplicaSet(
    sha: Sha1, ps: Proxies, ds: Deployments, rss: ReplicaSets, r: Uid, d: Uid, hash: string)
    requires d in ds && DeploymentOk(sha, ps, ds[d]) && r !in rss
    requires ReplicaSetsOk(sha, ps, ds, rss) && OneReplicaSet(rss)
    requires forall r' :: r' in rss ==> !Matches(ds[d], rss[r'])
    ensures ReplicaSetsOk(sha, ps, ds, rss[r := ReplicaSetFor(d, ds[d], hash)])
    ensures OneReplicaSet(rss[r := ReplicaSetFor(d, ds[d], hash)])
  {
    var rs := ReplicaSetFor(d, ds[d], hash);
    NewReplicaSetOk(sha, ps, ds, d, hash);
    forall r' | r' in rss ensures !SameTemplate(rss[r'], rs) && !SameTemplate(rs, rss[r']) {
      assert ReplicaSetOk(sha, ps, ds, rss[r']);
      MatchMeans(sha, ps, ds[d], ds, rss[r']);
    }
  }

  lemma NewReplicaSetServed(
    sha: Sha1, ps: Proxies, cms: ConfigMaps, ds: Deployments, rss: ReplicaSets, r: Uid, d: Uid, hash: string)
    requires d in ds && DeploymentOk(sha, ps, ds[d]) && DeploymentServed(ps, cms, rss, ds[d])
    requires r !in rss && ReplicaSetsServed(ps, cms, rss, ds)
    requires forall r' :: r' in rss ==> !Matches(ds[d], rss[r'])
    ensures ReplicaSetsServed(ps, cms, rss[r := ReplicaSetFor(d, ds[d], hash)], ds)
  {
    NewReplicaSetOk(sha, ps, ds, d, hash);
    assert !HasMatch(rss, ds[d]);
  }

  lemma NewReplicaSetOk(sha: Sha1, ps: Proxies, ds: Deployments, d: Uid, hash: string)
    requires d in ds && DeploymentOk(sha, ps, ds[d])
    ensures ReplicaSetOk(sha, ps, ds, ReplicaSetFor(d, ds[d], hash))
    ensures ReplicaSetHome(ReplicaSetFor(d, ds[d], hash)) == DeploymentHome(ds[d])
    ensures ReplicaSetMount(ReplicaSetFor(d, ds[d], hash)) == DeploymentMount(ds[d])
  {
    var rs, h := ReplicaSetFor(d, ds[d], hash), DeploymentHome(ds[d]);
    LabelHomeOf(sha, h);
    assert rs.labels - {HASH_LABEL} == Selector(sha, h);
  }

  lemma MoreReplicaSets(ps: Proxies, cms: ConfigMaps, rss: ReplicaSets, rss': ReplicaSets, ds: Deployments)
    requires DeploymentsServed(ps, cms, rss, ds)
    requires forall r :: r in rss ==> r in rss' && rss'[r] == rss[r]
    ensures DeploymentsServed(ps, cms, rss', ds)
  {
    forall d | d in ds ensures DeploymentServed(ps, cms, rss', ds[d]) {
      assert DeploymentServed(ps, cms, rss, ds[d]);
      if HasMatch(rss, ds[d]) {
        var r :| r in rss && Matches(ds[d], rss[r]);
        assert Matches(ds[d], rss'[r]);
      }
    }
  }

  /** Removing a ReplicaSet that no Deployment matches, or whose Deployment is gone. */
  lemma RemovedReplicaSet(sha: Sha1, s: State, r: Uid)
    requires Inv(sha, s) && (Enabled(s, DeleteReplicaSet(r)) || Enabled(s, CollectReplicaSet(r)))
    ensures Inv(sha, s.(replicaSets := s.replicaSets - {r}))
  {
    assert s.replicaSets[r].deployment in s.deployments ==>
      forall d :: d in s.deployments ==> !Matches(s.deployments[d], s.replicaSets[r]);
    AllStillServed(sha, s.proxies, s.configMaps, s.deployments, s.replicaSets, r);
    FewerReplicaSets(sha, s.proxies, s.configMaps, s.deployments, s.replicaSets, r);
  }

  lemma AllStillServed(sha: Sha1, ps: Proxies, cms: ConfigMaps, ds: Deployments, rss: ReplicaSets, r: Uid)
    requires DeploymentsOk(sha, ps, ds) && ReplicaSetsOk(sha, ps, ds, rss) && DeploymentsServed(ps, cms, rss, ds)
    requires r in rss && (rss[r].deployment in ds ==> forall d :: d in ds ==> !Matches(ds[d], rss[r]))
    ensures DeploymentsServed(ps, cms, rss - {r}, ds)
  {
    forall d | d in ds ensures DeploymentServed(ps, cms, rss - {r}, ds[d]) {
      StillServed(sha, ps, cms, ds, rss, r, d);
    }
  }

  lemma StillServed(
    sha: Sha1, ps: Proxies, cms: ConfigMaps, ds: Deployments, rss: ReplicaSets, r: Uid, d: Uid)
    requires DeploymentsOk(sha, ps, ds) && ReplicaSetsOk(sha, ps, ds, rss) && DeploymentsServed(ps, cms, rss, ds)
    requires r in rss && d in ds && (rss[r].deployment in ds ==> !Matches(ds[d], rss[r]))
    ensures DeploymentServed(ps, cms, rss - {r}, ds[d])
  {
    assert DeploymentServed(ps, cms, rss, ds[d]);
    if Alive(ps, DeploymentHome(ds[d])) && HasMatch(rss, ds[d]) {
      var r' :| r' in rss && Matches(ds[d], rss[r']);
      assert DeploymentOk(sha, ps, ds[d]) && ReplicaSetOk(sha, ps, ds, rss[r']);
      MatchMeans(sha, ps, ds[d], ds, rss[r']);
      assert r' != r;
      assert Matches(ds[d], (rss - {r})[r']);
    }
  }

  lemma FewerReplicaSets(sha: Sha1, ps: Proxies, cms: ConfigMaps, ds: Deployments, rss: ReplicaSets, r: Uid)
    requires ReplicaSetsOk(sha, ps, ds, rss) && OneReplicaSet(rss) && ReplicaSetsServed(ps, cms, rss, ds)
    ensures ReplicaSetsOk(sha, ps, ds, rss - {r}) && OneReplicaSet(rss - {r}) && ReplicaSetsServed(ps, cms, rss - {r}, ds)
  {
  }

  // ---- Proxies ----

  /** A proxy of this name comes, or comes back. */
  function Readded(s: State, p: Key, proxy: Proxy): State {
    s.(proxies := s.proxies[p := proxy], nextUid := s.nextUid + 1)
  }

  lemma AddedProxy(sha: Sha1, s: State, p: Key, proxy: Proxy)
    requires Inv(sha, s) && Unused(s.configMaps, s.deployments, s.replicaSets, p) && proxy.uid == s.nextUid
    ensures Inv(sha, Readded(s, p, proxy))
  {
    var ps := s.proxies[p := proxy];
    NextUidGrows(sha, s.proxies, s.nextUid, s.configMaps);
    SameHomes(sha, s.proxies, ps, s.nextUid + 1, s.configMaps, s.deployments, s.replicaSets);
  }

  /** The proxies that objects belong to keep their UID, and none of them comes back to life. */
  lemma SameHomes(
    sha: Sha1, ps: Proxies, ps': Proxies, next: Uid, cms: ConfigMaps, ds: Deployments, rss: ReplicaSets)
    requires forall p | p in ps ::
      Unused(cms, ds, rss, p) || (p in ps' && ps'[p].uid == ps[p].uid && (ps'[p].alive ==> ps[p].alive))
    requires ConfigMapsOk(sha, ps, next, cms) && DeploymentsOk(sha, ps, ds) && ReplicaSetsOk(sha, ps, ds, rss)
    requires OneHeld(ps, cms)
    requires DeploymentsServed(ps, cms, rss, ds) && ReplicaSetsServed(ps, cms, rss, ds) && HeldUntilDeployed(ps, cms, ds)
    ensures ConfigMapsOk(sha, ps', next, cms) && DeploymentsOk(sha, ps', ds) && ReplicaSetsOk(sha, ps', ds, rss)
    ensures OneHeld(ps', cms)
    ensures DeploymentsServed(ps', cms, rss, ds) && ReplicaSetsServed(ps', cms, rss, ds)
    ensures HeldUntilDeployed(ps', cms, ds)
  {
    forall k | k in cms ensures ConfigMapOk(sha, ps', next, k, cms[k]) && Held(ps', cms, k) == Held(ps, cms, k) {
      assert ConfigMapOk(sha, ps, next, k, cms[k]);
    }
    assert OneHeld(ps', cms);
    forall d | d in ds ensures DeploymentOk(sha, ps', ds[d]) && DeploymentServed(ps', cms, rss, ds[d]) {
      assert DeploymentOk(sha, ps, ds[d]) && DeploymentServed(ps, cms, rss, ds[d]);
    }
    forall r | r in rss ensures ReplicaSetOk(sha, ps', ds, rss[r]) && ReplicaSetServed(ps', cms, ds, r, rss[r]) {
      assert ReplicaSetOk(sha, ps, ds, rss[r]) && ReplicaSetServed(ps, cms, ds, r, rss[r]);
    }
  }

  lemma ChangedProxy(sha: Sha1, s: State, p: Key, proxy: Proxy)
    requires Inv(sha, s) && Visible(s, p) && proxy.uid == s.proxies[p].uid
    ensures Inv(sha, s.(proxies := s.proxies[p := proxy]))
  {
    SameHomes(sha, s.proxies, s.proxies[p := proxy], s.nextUid, s.configMaps, s.deployments, s.replicaSets);
  }

  // ---- A name that is taken again ----

  /** Whatever is left of an earlier proxy of the name has no place under the new one. */
  lemma LeftoversBreakInv(sha: Sha1, s: State, p: Key, proxy: Proxy)
    requires Inv(sha, s) && !Visible(s, p) && proxy.uid == s.nextUid && proxy.alive
    requires Inv(sha, Readded(s, p, proxy))
    ensures Unused(s.configMaps, s.deployments, s.replicaSets, p)
  {
    var s' := Readded(s, p, proxy);
    forall d | d in s.deployments ensures DeploymentHome(s.deployments[d]) != p {
      assert DeploymentOk(sha, s.proxies, s.deployments[d]) && DeploymentOk(sha, s'.proxies, s.deployments[d]);
    }
    forall r | r in s.replicaSets ensures ReplicaSetHome(s.replicaSets[r]) != p {
      assert ReplicaSetOk(sha, s'.proxies, s'.deployments, s.replicaSets[r]);
    }
    forall k | k in s.configMaps ensures ConfigMapHome(k) != p {
      assert ConfigMapOk(sha, s.proxies, s.nextUid, k, s.configMaps[k]);
      assert ConfigMapHome(k) == p && !Held(s'.proxies, s'.configMaps, k) ==> HasDeployment(s'.deployments, p);
    }
  }

  /** The invariant survives the return of a name if and only if nothing made for it is left. */
  lemma ReaddKeepsInvIff(sha: Sha1, s: State, p: Key, proxy: Proxy)
    requires Inv(sha, s) && !Visible(s, p) && proxy.uid == s.nextUid && proxy.alive
    ensures Inv(sha, Readded(s, p, proxy)) <==> Unused(s.configMaps, s.deployments, s.replicaSets, p)
  {
    if Unused(s.configMaps, s.deployments, s.replicaSets, p) {
      AddedProxy(sha, s, p, proxy);
    } else if Inv(sha, Readded(s, p, proxy)) {
      LeftoversBreakInv(sha, s, p, proxy);
    }
  }

  // ---- Every step, every run ----

  /**
   Each step of the two controllers and of their environment keeps the invariant, except for
   one: taking a proxy name again keeps it if and only if nothing of the last holder is left.
   */
  lemma StepKeepsInv(sha: Sha1, s: State, step: Step)
    requires Inv(sha, s) && Enabled(s, step)
    ensures Inv(sha, Next(sha, s, step)) <==> Orderly(s, step)
  {
    match step
    case ConfigMapSync(p, l) => ConfigMapSyncKeepsInv(sha, s, p, l);
    case DeploymentSync(p, l, now) => DeploymentSyncKeepsInv(sha, s, p, l, now);
    case AddProxy(p, g, o, w, c) => ReaddKeepsInvIff(sha, s, p, Proxy(s.nextUid, true, g, o, w, c));
    case ChangeProxy(p, g, o, w, c) => ChangedProxy(sha, s, p, Proxy(s.proxies[p].uid, true, g, o, w, c));
    case DeleteProxy(p) => ChangedProxy(sha, s, p, s.proxies[p].(alive := false));
    case CreateReplicaSet(d, hash) => CreatedReplicaSet(sha, s, d, hash);
    case DeleteReplicaSet(r) => RemovedReplicaSet(sha, s, r);
    case CollectReplicaSet(r) => RemovedReplicaSet(sha, s, r);
    case CollectDeployment(d) => CollectedDeployment(sha, s, d);
    case CollectConfigMap(k) => Collected(sha, s, k);
    case PruneOwners(k) => Pruned(sha, s, k);
  }

  /** The invariant holds in every state of the run. */
  ghost predicate AlwaysInv(sha: Sha1, s: State, steps: seq<Step>)
    requires IsRun(sha, s, steps)
    decreases |steps|
  {
    Inv(sha, s) && (steps == [] || AlwaysInv(sha, Next(sha, s, steps[0]), steps[1..]))
  }

  /** Over every run, orderly or not: the invariant holds throughout if and only if the run is orderly. */
  lemma {:induction false} RunKeepsInv(sha: Sha1, s: State, steps: seq<Step>)
    requires Inv(sha, s) && IsRun(sha, s, steps)
    ensures AlwaysInv(sha, s, steps) <==> IsOrderly(sha, s, steps)
    ensures IsOrderly(sha, s, steps) ==> Inv(sha, After(sha, s, steps))
    decreases |steps|
  {
    if steps != [] {
      var s' := Next(sha, s, steps[0]);
      StepKeepsInv(sha, s, steps[0]);
      if Inv(sha, s') {
        RunKeepsInv(sha, s', steps[1..]);
      }
    }
  }
}
