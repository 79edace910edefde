/**
 The two sync handlers that share the ownership protocol, as functions of the
 cluster state: internal/controller/proxyconfigmap/controller.go and
 internal/controller/proxydeployment/controller.go.
 */
module Sync {
  import opened Wrappers
  import opened Names
  import opened Cluster

  datatype Error =
    | NoConfig(message: string)  // configForProxy failed
    | NoDeployment               // reuse without a Deployment
    | NoConfigMap                // nothing to mount in a new Deployment
    | MultipleConfigMaps
    | MultipleDeployments
    | NilConfigVolume            // nil dereference: a "config" volume without a ConfigMap source

  datatype Outcome = Finished | Requeued | Failed(error: Error)

  predicate Visible(s: State, p: Key) { p in s.proxies && s.proxies[p].alive }

  predicate GateOpen(s: State, p: Key)
    requires p in s.proxies
  {
    s.proxies[p].generation == s.proxies[p].observed
  }

  // ---- proxyconfigmap ----

  /** syncHandler of the configmap controller. */
  function SyncConfigMap(sha: Sha1, s: State, p: Key, l: Listing): (r: (State, Outcome))
    requires Fresh(s, p, l)
  {
    if !Visible(s, p) then (s, Finished)
    else if !GateOpen(s, p) then (s, Requeued)
    else
      var mine := Controlled(s.configMaps, s.proxies[p].uid, l.configMaps);
      if |mine| == 0 then
        match s.proxies[p].wanted
        case Failure(message) => (s, Failed(NoConfig(message)))
        case Success(json) =>
          var k := ConfigMapKey(sha, p, json);
          if k !in s.configMaps then
            (s.(configMaps := s.configMaps[k := ConfigMap(json, [OwnerRef(s.proxies[p].uid, true)])]), Requeued)
          else
            Reuse(s, p, k, l.owned)
      else if |mine| == 1 then Release(s, p, mine[0], l)
      else (s, Finished)
  }

  /** reuseConfigMap: take control again, unless the Deployment already mounts it. */
  function Reuse(s: State, p: Key, k: Key, owned: seq<Uid>): (r: (State, Outcome))
    requires p in s.proxies && k in s.configMaps
    requires forall d :: d in owned ==> d in s.deployments
  {
    if owned == [] then (s, Failed(NoDeployment))
    else if Mounts(s.deployments[owned[0]].template, k.name) then (s, Finished)
    else
      var cm := s.configMaps[k];
      (s.(configMaps := s.configMaps[k := cm.(owners := cm.owners + [OwnerRef(s.proxies[p].uid, true)])]), Finished)
  }

  /**
   applyOwnerRefToCM and the update after it.  As in the code, nothing checks that
   the ReplicaSet found mounts this ConfigMap.
   */
  function Release(s: State, p: Key, k: Key, l: Listing): (r: (State, Outcome))
    requires p in s.proxies && k in s.configMaps
    requires forall d :: d in l.owned ==> d in s.deployments
    requires forall r :: r in l.replicaSets ==> r in s.replicaSets
  {
    if l.owned == [] then (s, Requeued)
    else
      match NewReplicaSet(s.replicaSets, s.deployments[l.owned[0]], l.replicaSets)
      case None => (s, Requeued)
      case Some(r) =>
        var cm := s.configMaps[k];
        (s.(configMaps := s.configMaps[k := cm.(owners := Released(cm.owners, r, s.proxies[p].uid))]), Requeued)
  }

  function Released(owners: seq<OwnerRef>, replicaSet: Uid, proxy: Uid): seq<OwnerRef> {
    Without(if IsOwnedBy(owners, replicaSet) then owners else owners + [OwnerRef(replicaSet, false)], proxy)
  }

  // ---- proxydeployment ----

  const CONFIG_VOLUME := "config"

  /** syncHandler of the deployment controller; `now` is the creation timestamp the server would give. */
  function SyncDeployment(sha: Sha1, s: State, p: Key, l: Listing, now: nat): (r: (State, Outcome))
    requires Fresh(s, p, l)
  {
    if !Visible(s, p) then (s, Finished)
    else if !GateOpen(s, p) then (s, Requeued)
    else
      var mine := Controlled(s.configMaps, s.proxies[p].uid, l.configMaps);
      var (s1, outcome) :=
        if |mine| > 1 then (s, Failed(MultipleConfigMaps))
        else if l.owned == [] then CreateDeployment(sha, s, p, mine, now)
        else UpdateDeployment(s, l.owned[0], mine);
      if outcome.Failed? || |l.owned| < 2 then (s1, outcome)
      else
        // The tail of the list is cut a second time, so the second newest survives.
        (s1.(deployments := s1.deployments - (set d | d in l.owned[2..])), Failed(MultipleDeployments))
  }

  function CreateDeployment(sha: Sha1, s: State, p: Key, mine: seq<Key>, now: nat): (r: (State, Outcome))
    requires p in s.proxies && |mine| <= 1
  {
    if mine == [] then (s, Failed(NoConfigMap))
    else
      (s.(deployments := s.deployments[s.nextUid := DeploymentForProxy(sha, s.proxies[p], p, mine[0].name, now)],
          nextUid := s.nextUid + 1), Finished)
  }

  function DeploymentForProxy(sha: Sha1, proxy: Proxy, p: Key, configMap: string, now: nat): Deployment {
    Deployment(
      p.ns, [OwnerRef(proxy.uid, true)], now, Selector(sha, p),
      Template(Selector(sha, p), proxy.container, StandardVolumes(configMap)))
  }

  function StandardVolumes(configMap: string): seq<Volume> {
    [Volume(CONFIG_VOLUME, Some(configMap)), Volume("stats", None)]
  }

  function UpdateDeployment(s: State, d: Uid, mine: seq<Key>): (r: (State, Outcome))
    requires d in s.deployments && |mine| <= 1
  {
    if mine == [] then (s, Finished)
    else
      var dep := s.deployments[d];
      if !Remountable(dep.template.volumes) then (s, Failed(NilConfigVolume))
      else
        var template := dep.template.(volumes := Remount(dep.template.volumes, mine[0].name));
        (s.(deployments := s.deployments[d := dep.(template := template)]), Finished)
  }

  predicate Remountable(volumes: seq<Volume>) {
    forall i :: 0 <= i < |volumes| && volumes[i].name == CONFIG_VOLUME ==> volumes[i].configMap.Some?
  }

  /** Every volume called "config" now names the given ConfigMap. */
  function Remount(volumes: seq<Volume>, configMap: string): (r: seq<Volume>)
    ensures |r| == |volumes|
    ensures forall i :: 0 <= i < |r| ==>
      r[i] == if volumes[i].name == CONFIG_VOLUME then Volume(CONFIG_VOLUME, Some(configMap)) else volumes[i]
  {
    seq(|volumes|, i requires 0 <= i < |volumes| =>
      if volumes[i].name == CONFIG_VOLUME then Volume(CONFIG_VOLUME, Some(configMap)) else volumes[i])
  }
}
