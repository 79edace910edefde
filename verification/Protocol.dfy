/**
 The ownership protocol as a state machine: any interleaving of the two sync
 handlers with the rest of the cluster.
 */
module Protocol {
  import opened Wrappers
  import opened Names
  import opened Cluster
  import opened Sync

  datatype Step =
    | ConfigMapSync(p: Key, l: Listing)
    | DeploymentSync(p: Key, l: Listing, now: nat)
    | AddProxy(p: Key, generation: int, observed: int, wanted: Result<string, string>, container: string)
    /** Any change a proxy can see: a spec edit, the proxy controller, services or endpoints. */
    | ChangeProxy(p: Key, generation: int, observed: int, wanted: Result<string, string>, container: string)
    | DeleteProxy(p: Key)
    | CreateReplicaSet(d: Uid, hash: string)
    | DeleteReplicaSet(r: Uid)
    | CollectReplicaSet(r: Uid)
    | CollectDeployment(d: Uid)
    | CollectConfigMap(k: Key)
    /** The garbage collector drops references to dead owners while one is still alive. */
    | PruneOwners(k: Key)

  ghost predicate LiveUid(s: State, u: Uid) {
    || u in s.deployments
    || u in s.replicaSets
    || exists p :: p in s.proxies && s.proxies[p].alive && s.proxies[p].uid == u
  }

  ghost predicate AllDead(s: State, owners: seq<OwnerRef>) {
    forall i :: 0 <= i < |owners| ==> !LiveUid(s, owners[i].uid)
  }

  ghost function LiveOwners(s: State, owners: seq<OwnerRef>): (r: seq<OwnerRef>)
    ensures forall o :: o in r <==> o in owners && LiveUid(s, o.uid)
  {
    if owners == [] then []
    else
      var last := owners[|owners| - 1];
      var rest := LiveOwners(s, owners[..|owners| - 1]);
      if LiveUid(s, last.uid) then rest + [last] else rest
  }

  ghost predicate Enabled(s: State, step: Step) {
    match step
    case ConfigMapSync(p, l) => Fresh(s, p, l)
    case DeploymentSync(p, l, _) => Fresh(s, p, l)
    case AddProxy(p, _, _, _, _) => !Visible(s, p)
    case ChangeProxy(p, _, _, _, _) => Visible(s, p)
    case DeleteProxy(p) => Visible(s, p)
    case CreateReplicaSet(d, _) =>
      && d in s.deployments
      && forall r :: r in s.replicaSets ==> !Matches(s.deployments[d], s.replicaSets[r])
    case DeleteReplicaSet(r) =>
      && r in s.replicaSets
      && forall d :: d in s.deployments ==> !Matches(s.deployments[d], s.replicaSets[r])
    case CollectReplicaSet(r) => r in s.replicaSets && s.replicaSets[r].deployment !in s.deployments
    case CollectDeployment(d) => d in s.deployments && AllDead(s, s.deployments[d].owners)
    case CollectConfigMap(k) => k in s.configMaps && AllDead(s, s.configMaps[k].owners)
    case PruneOwners(k) => k in s.configMaps && !AllDead(s, s.configMaps[k].owners)
  }

  ghost function Next(sha: Sha1, s: State, step: Step): State
    requires Enabled(s, step)
  {
    match step
    case ConfigMapSync(p, l) => SyncConfigMap(sha, s, p, l).0
    case DeploymentSync(p, l, now) => SyncDeployment(sha, s, p, l, now).0
    case AddProxy(p, generation, observed, wanted, container) =>
      s.(proxies := s.proxies[p := Proxy(s.nextUid, true, generation, observed, wanted, container)],
         nextUid := s.nextUid + 1)
    case ChangeProxy(p, generation, observed, wanted, container) =>
      s.(proxies := s.proxies[p := Proxy(s.proxies[p].uid, true, generation, observed, wanted, container)])
    case DeleteProxy(p) => s.(proxies := s.proxies[p := s.proxies[p].(alive := false)])
    case CreateReplicaSet(d, hash) =>
      s.(replicaSets := s.replicaSets[s.nextUid := ReplicaSetFor(d, s.deployments[d], hash)], nextUid := s.nextUid + 1)
    case DeleteReplicaSet(r) => s.(replicaSets := s.replicaSets - {r})
    case CollectReplicaSet(r) => s.(replicaSets := s.replicaSets - {r})
    case CollectDeployment(d) => s.(deployments := s.deployments - {d})
    case CollectConfigMap(k) => s.(configMaps := s.configMaps - {k})
    case PruneOwners(k) =>
      var cm := s.configMaps[k];
      s.(configMaps := s.configMaps[k := cm.(owners := LiveOwners(s, cm.owners))])
  }

  function ReplicaSetFor(d: Uid, dep: Deployment, hash: string): ReplicaSet {
    var labels := dep.template.labels[HASH_LABEL := hash];
    ReplicaSet(dep.ns, d, labels, dep.template.(labels := labels))
  }

  const Empty := State(map[], map[], map[], map[], 0)

  /** Nothing made for a proxy of this name is left. */
  ghost predicate Unused(cms: map<Key, ConfigMap>, ds: map<Uid, Deployment>, rss: map<Uid, ReplicaSet>, p: Key) {
    && (forall k :: k in cms ==> ConfigMapHome(k) != p)
    && (forall d :: d in ds ==> DeploymentHome(ds[d]) != p)
    && (forall r :: r in rss ==> ReplicaSetHome(rss[r]) != p)
  }

  /** A proxy name is taken again only after the garbage collector is done with the last holder's objects. */
  ghost predicate Orderly(s: State, step: Step) {
    step.AddProxy? ==> Unused(s.configMaps, s.deployments, s.replicaSets, step.p)
  }

  /** Any interleaving at all. */
  ghost predicate IsRun(sha: Sha1, s: State, steps: seq<Step>)
    decreases |steps|
  {
    steps == [] || (Enabled(s, steps[0]) && IsRun(sha, Next(sha, s, steps[0]), steps[1..]))
  }

  ghost function After(sha: Sha1, s: State, steps: seq<Step>): State
    requires IsRun(sha, s, steps)
    decreases |steps|
  {
    if steps == [] then s else After(sha, Next(sha, s, steps[0]), steps[1..])
  }

  ghost predicate IsOrderly(sha: Sha1, s: State, steps: seq<Step>)
    requires IsRun(sha, s, steps)
    decreases |steps|
  {
    steps == [] || (Orderly(s, steps[0]) && IsOrderly(sha, Next(sha, s, steps[0]), steps[1..]))
  }

  // ---- The invariant ----

  function MountOf(t: Template): string {
    if |t.volumes| > 0 && t.volumes[0].configMap.Some? then t.volumes[0].configMap.value else ""
  }

  function DeploymentHome(dep: Deployment): Key { LabelHome(dep.ns, dep.selector) }

  function ReplicaSetHome(rs: ReplicaSet): Key { LabelHome(rs.ns, rs.labels) }

  function DeploymentMount(dep: Deployment): Key { Key(dep.ns, MountOf(dep.template)) }

  function ReplicaSetMount(rs: ReplicaSet): Key { Key(rs.ns, MountOf(rs.template)) }

  type Proxies = map<Key, Proxy>
  type ConfigMaps = map<Key, ConfigMap>
  type Deployments = map<Uid, Deployment>
  type ReplicaSets = map<Uid, ReplicaSet>

  predicate Alive(ps: Proxies, p: Key) { p in ps && ps[p].alive }

  ghost predicate UidsOk(ps: Proxies, ds: Deployments, rss: ReplicaSets, next: Uid) {
    && (forall p :: p in ps ==> ps[p].uid < next && ps[p].uid !in ds && ps[p].uid !in rss)
    && (forall p, q :: p in ps && q in ps && ps[p].uid == ps[q].uid ==> p == q)
    && (forall d :: d in ds ==> d < next && d !in rss)
    && (forall r :: r in rss ==> r < next && rss[r].deployment < next)
  }

  /** References made by the protocol: at least one, distinct, and only the home proxy's is a controller. */
  ghost predicate WellOwned(owners: seq<OwnerRef>, proxy: Uid, next: Uid) {
    && owners != []
    && (forall i :: 0 <= i < |owners| ==> (owners[i].controller <==> owners[i].uid == proxy) && owners[i].uid < next)
    && (forall i, j :: 0 <= i < j < |owners| ==> owners[i].uid != owners[j].uid)
  }

  /** A ConfigMap's name is the hash name of its data, for the proxy its name spells. */
  ghost predicate ConfigMapOk(sha: Sha1, ps: Proxies, next: Uid, k: Key, cm: ConfigMap) {
    && ConfigMapHome(k) in ps
    && k == ConfigMapKey(sha, ConfigMapHome(k), cm.data)
    && WellOwned(cm.owners, ps[ConfigMapHome(k)].uid, next)
  }

  ghost predicate ConfigMapsOk(sha: Sha1, ps: Proxies, next: Uid, cms: ConfigMaps) {
    forall k :: k in cms ==> ConfigMapOk(sha, ps, next, k, cms[k])
  }

  /** The proxy whose name the ConfigMap carries is among its owners. */
  ghost predicate Held(ps: Proxies, cms: ConfigMaps, k: Key) {
    k in cms && ConfigMapHome(k) in ps && IsOwnedBy(cms[k].owners, ps[ConfigMapHome(k)].uid)
  }

  ghost predicate OneHeld(ps: Proxies, cms: ConfigMaps) {
    forall k, k' :: Held(ps, cms, k) && Held(ps, cms, k') && ConfigMapHome(k) == ConfigMapHome(k') ==> k == k'
  }

  ghost predicate DeploymentOk(sha: Sha1, ps: Proxies, dep: Deployment) {
    var h := DeploymentHome(dep);
    && h in ps
    && dep.ns == h.ns
    && dep.owners == [OwnerRef(ps[h].uid, true)]
    && dep.selector == dep.template.labels == Selector(sha, h)
    && dep.template.volumes == StandardVolumes(MountOf(dep.template))
  }

  ghost predicate DeploymentsOk(sha: Sha1, ps: Proxies, ds: Deployments) {
    forall d :: d in ds ==> DeploymentOk(sha, ps, ds[d])
  }

  ghost predicate OneDeployment(ds: Deployments) {
    forall d, d' :: d in ds && d' in ds && DeploymentHome(ds[d]) == DeploymentHome(ds[d']) ==> d == d'
  }

  ghost predicate ReplicaSetOk(sha: Sha1, ps: Proxies, ds: Deployments, rs: ReplicaSet) {
    var h := ReplicaSetHome(rs);
    && h in ps
    && rs.ns == h.ns
    && rs.labels == rs.template.labels
    && rs.labels - {HASH_LABEL} == Selector(sha, h)
    && rs.template.volumes == StandardVolumes(MountOf(rs.template))
    && (Alive(ps, h) ==> rs.deployment in ds)
    && (rs.deployment in ds ==>
      && DeploymentHome(ds[rs.deployment]) == h
      && ds[rs.deployment].template.container == rs.template.container)
  }

  ghost predicate ReplicaSetsOk(sha: Sha1, ps: Proxies, ds: Deployments, rss: ReplicaSets) {
    forall r :: r in rss ==> ReplicaSetOk(sha, ps, ds, rss[r])
  }

  ghost predicate OneReplicaSet(rss: ReplicaSets) {
    forall r, r' :: r in rss && r' in rss && SameTemplate(rss[r], rss[r']) ==> r == r'
  }

  predicate SameTemplate(a: ReplicaSet, b: ReplicaSet) {
    ReplicaSetHome(a) == ReplicaSetHome(b) && EqualIgnoreHash(a.template, b.template)
  }

  ghost predicate HasMatch(rss: ReplicaSets, dep: Deployment) {
    exists r :: r in rss && Matches(dep, rss[r])
  }

  /** What the Deployment of a live proxy mounts is controlled by the proxy or has its ReplicaSet. */
  ghost predicate DeploymentServed(ps: Proxies, cms: ConfigMaps, rss: ReplicaSets, dep: Deployment) {
    var k := DeploymentMount(dep);
    Alive(ps, DeploymentHome(dep)) ==>
      k in cms && ConfigMapHome(k) == DeploymentHome(dep) && (Held(ps, cms, k) || HasMatch(rss, dep))
  }

  ghost predicate DeploymentsServed(ps: Proxies, cms: ConfigMaps, rss: ReplicaSets, ds: Deployments) {
    forall d :: d in ds ==> DeploymentServed(ps, cms, rss, ds[d])
  }

  /** A live ReplicaSet owns what it mounts, or the proxy controls it while the Deployment mounts it. */
  ghost predicate ReplicaSetServed(ps: Proxies, cms: ConfigMaps, ds: Deployments, r: Uid, rs: ReplicaSet) {
    var k := ReplicaSetMount(rs);
    Alive(ps, ReplicaSetHome(rs)) ==>
      && k in cms
      && ConfigMapHome(k) == ReplicaSetHome(rs)
      && (|| IsOwnedBy(cms[k].owners, r)
          || (Held(ps, cms, k) && rs.deployment in ds && DeploymentMount(ds[rs.deployment]) == k))
  }

  ghost predicate ReplicaSetsServed(ps: Proxies, cms: ConfigMaps, rss: ReplicaSets, ds: Deployments) {
    forall r :: r in rss ==> ReplicaSetServed(ps, cms, ds, r, rss[r])
  }

  ghost predicate HasDeployment(ds: Deployments, p: Key) {
    exists d :: d in ds && DeploymentHome(ds[d]) == p
  }

  /** Before a live proxy has its Deployment, it controls every ConfigMap made for it. */
  ghost predicate HeldUntilDeployed(ps: Proxies, cms: ConfigMaps, ds: Deployments) {
    forall k :: k in cms && Alive(ps, ConfigMapHome(k)) && !Held(ps, cms, k) ==> HasDeployment(ds, ConfigMapHome(k))
  }

  /** Every object is well formed, and at most one of each kind is current. */
  ghost predicate Placed(sha: Sha1, s: State) {
    && UidsOk(s.proxies, s.deployments, s.replicaSets, s.nextUid)
    && ConfigMapsOk(sha, s.proxies, s.nextUid, s.configMaps)
    && DeploymentsOk(sha, s.proxies, s.deployments)
    && ReplicaSetsOk(sha, s.proxies, s.deployments, s.replicaSets)
    && OneHeld(s.proxies, s.configMaps)
    && OneDeployment(s.deployments)
    && OneReplicaSet(s.replicaSets)
  }

  /** Everything mounted is there, and something that lives keeps it. */
  ghost predicate Supplied(s: State) {
    && DeploymentsServed(s.proxies, s.configMaps, s.replicaSets, s.deployments)
    && ReplicaSetsServed(s.proxies, s.configMaps, s.replicaSets, s.deployments)
    && HeldUntilDeployed(s.proxies, s.configMaps, s.deployments)
  }

  ghost predicate Inv(sha: Sha1, s: State) { Placed(sha, s) && Supplied(s) }

  // ---- What the listers return in a state that satisfies the invariant ----

  lemma ControllerIsFirstMarked(owners: seq<OwnerRef>, u: Uid)
    requires forall i :: 0 <= i < |owners| ==> owners[i].controller ==> owners[i].uid == u
    ensures ControllerOf(owners) == if OwnerRef(u, true) in owners then Some(u) else None
  {
    if owners != [] && !owners[0].controller {
      ControllerIsFirstMarked(owners[1..], u);
      assert owners == [owners[0]] + owners[1..];
    }
  }

  lemma ControlledMeans(sha: Sha1, s: State, p: Key, k: Key)
    requires UidsOk(s.proxies, s.deployments, s.replicaSets, s.nextUid)
    requires ConfigMapsOk(sha, s.proxies, s.nextUid, s.configMaps)
    requires p in s.proxies && k in s.configMaps
    ensures IsControlledBy(s.configMaps[k].owners, s.proxies[p].uid) <==>
      ConfigMapHome(k) == p && Held(s.proxies, s.configMaps, k)
  {
    assert ConfigMapOk(sha, s.proxies, s.nextUid, k, s.configMaps[k]);
    var owners, u := s.configMaps[k].owners, s.proxies[ConfigMapHome(k)].uid;
    ControllerIsFirstMarked(owners, u);
    if Held(s.proxies, s.configMaps, k) {
      var i :| 0 <= i < |owners| && owners[i].uid == u;
      assert owners[i] == OwnerRef(u, true);
    }
  }

  lemma OwnedMeans(sha: Sha1, s: State, p: Key, d: Uid)
    requires UidsOk(s.proxies, s.deployments, s.replicaSets, s.nextUid) && DeploymentsOk(sha, s.proxies, s.deployments)
    requires p in s.proxies && d in s.deployments
    ensures d in OwnedDeployments(s, p) <==> DeploymentHome(s.deployments[d]) == p
  {
    assert DeploymentOk(sha, s.proxies, s.deployments[d]);
    ControllerIsFirstMarked(s.deployments[d].owners, s.proxies[DeploymentHome(s.deployments[d])].uid);
  }

  lemma SelectsHome(sha: Sha1, p: Key, ns: string, labels: map<string, string>)
    requires Selects(Selector(sha, p), labels) && p.ns == ns
    ensures LabelHome(ns, labels) == p
  {
    LabelHomeOf(sha, p);
    assert PROXY_LABEL in Selector(sha, p);
  }

  lemma NoDuplicatesKept(cms: map<Key, ConfigMap>, u: Uid, keys: seq<Key>)
    requires NoDuplicates(keys) && forall k :: k in keys ==> k in cms
    ensures NoDuplicates(Controlled(cms, u, keys))
  {
    if keys != [] {
      var front := keys[..|keys| - 1];
      NoDuplicatesKept(cms, u, front);
    }
  }

  /** A proxy controls at most one ConfigMap, so the "more than one" branch is dead in every listing order. */
  lemma {:induction false} AtMostOneControlled(sha: Sha1, s: State, p: Key, l: Listing)
    requires Inv(sha, s) && p in s.proxies && Fresh(s, p, l)
    ensures |Controlled(s.configMaps, s.proxies[p].uid, l.configMaps)| <= 1
    ensures forall k :: k in Controlled(s.configMaps, s.proxies[p].uid, l.configMaps) <==>
      ConfigMapHome(k) == p && Held(s.proxies, s.configMaps, k)
  {
    var mine := Controlled(s.configMaps, s.proxies[p].uid, l.configMaps);
    forall k | k in s.configMaps
      ensures k in mine <==> ConfigMapHome(k) == p && Held(s.proxies, s.configMaps, k)
    {
      ControlledMeans(sha, s, p, k);
      if ConfigMapHome(k) == p {
        assert k in ConfigMapsIn(s, p.ns);
      }
    }
    NoDuplicatesKept(s.configMaps, s.proxies[p].uid, l.configMaps);
    if |mine| > 1 {
      TwoElements(mine);
    }
  }

  lemma AtMostOneOwned(sha: Sha1, s: State, p: Key, l: Listing)
    requires Inv(sha, s) && p in s.proxies && Fresh(s, p, l)
    ensures |l.owned| <= 1
    ensures forall d :: d in l.owned <==> d in s.deployments && DeploymentHome(s.deployments[d]) == p
  {
    forall d | d in s.deployments
      ensures d in l.owned <==> DeploymentHome(s.deployments[d]) == p
    {
      OwnedMeans(sha, s, p, d);
    }
    if |l.owned| > 1 {
      TwoElements(l.owned);
    }
  }
}
