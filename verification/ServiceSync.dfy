/** The Service of a proxy: internal/controller/proxyservice/controller.go. */
module ServiceSync {
  import opened Names
  import opened Rules
  import opened Pools
  import opened Defaults
  import opened Generation
  import opened Cluster
  import opened Protocol
  import opened Runs

  class Service {
    var selector: map<string, string>
    const owner: Uid
    const ports: seq<ServicePort>

    constructor (selector: map<string, string>, owner: Uid, ports: seq<ServicePort>)
      ensures this.selector == selector && this.owner == owner && this.ports == ports
    {
      this.selector, this.owner, this.ports := selector, owner, ports;
    }

    /** updateService: heal the selector, and say whether that changed anything. */
    method UpdateService(sha: Sha1, p: Key) returns (changed: bool)
      modifies this
      ensures selector == Selector(sha, p)
      ensures changed <==> old(selector) != selector
    {
      var desired := Selector(sha, p);
      changed := selector != desired;
      if changed {
        selector := desired;
      }
    }
  }

  datatype Done = Gone | Requeued | Created(service: Service) | Kept(changed: bool) | Panicked

  function ServiceKey(sha: Sha1, p: Key): Key { Key(p.ns, ServiceName(sha, p)) }

  /** A proxy's Service is in its namespace, under its name, "-memcached-" and digits 2 to 7 of the digest of the name. */
  lemma ServiceKeyIs(sha: Sha1, p: Key)
    ensures ServiceKey(sha, p) == Key(p.ns, p.name + "-memcached-" + sha(p.name)[2..7])
  {
    ServiceNameIs(sha, p);
  }

  class Controller {
    const sha: Sha1
    var proxies: map<Key, (Uid, Version)>
    var services: map<Key, Service>

    constructor (sha: Sha1)
      ensures this.sha == sha && proxies == map[] && services == map[]
    {
      this.sha := sha;
      proxies, services := map[], map[];
    }

    /** Different keys hold different objects. */
    ghost predicate Valid()
      reads this
    {
      forall k, k' :: k in services && k' in services && services[k] == services[k'] ==> k == k'
    }

    /**
     syncHandler.  Whatever was there before, an open gate leaves a Service with the proxy's
     selector under the proxy's service name, and touches no other Service.
     */
    method SyncHandler(p: Key) returns (done: Done)
      requires Valid()
      modifies this`services, services.Values
      ensures Valid()
      ensures done.Gone? <==> p !in proxies
      ensures done.Requeued? <==> p in proxies && ReadPort(proxies[p].1) == Waits
      ensures done.Panicked? <==>
        p in proxies && ReadPort(proxies[p].1) == NilDereference && ServiceKey(sha, p) !in old(services)
      ensures done.Created? || done.Kept? ==>
        && services.Keys == old(services.Keys) + {ServiceKey(sha, p)}
        && services[ServiceKey(sha, p)].selector == Selector(sha, p)
      ensures done.Created? ==>
        && ServiceKey(sha, p) !in old(services) && fresh(done.service) && services[ServiceKey(sha, p)] == done.service
        && done.service.owner == proxies[p].0
        && var port := ReadPort(proxies[p].1).port;
           done.service.ports == [ServicePort("mcrouter", port, IntPort(port))]
      ensures !done.Created? ==> services == old(services)
      ensures done.Kept? ==> (done.changed <==> old(services[ServiceKey(sha, p)].selector) != Selector(sha, p))
      ensures forall k :: k in old(services) && k != ServiceKey(sha, p) ==>
        k in services && services[k] == old(services)[k] && services[k].selector == old(services[k].selector)
      ensures !done.Created? && !done.Kept? ==>
        forall k :: k in services ==> services[k].selector == old(services[k].selector)
    {
      if p !in proxies {
        return Gone;
      }
      var v := proxies[p].1;
      if v.generation != v.observed {
        return Requeued;
      }
      var name := ComputeName(sha, p.name + "-memcached-", [p.name]);
      var k := Key(p.ns, name);
      if k !in services {
        if v.spec.mcrouter.port.None? {
          return Panicked;
        }
        var port := v.spec.mcrouter.port.value;
        var s := new Service(Selector(sha, p), proxies[p].0, [ServicePort("mcrouter", port, IntPort(port))]);
        services := services[k := s];
        return Created(s);
      }
      var changed := services[k].UpdateService(sha, p);
      return Kept(changed);
    }
  }

  /**
   In every reachable state, the selector of a proxy's Service selects the pods of that
   proxy's Deployment and ReplicaSets, and of no other proxy's in the namespace.
   */
  lemma SelectsOwnPods(sha: Sha1, s: State, p: Key, d: Uid)
    requires Reachable(sha, s) && p in s.proxies && d in s.deployments && s.deployments[d].ns == p.ns
    ensures Selects(Selector(sha, p), s.deployments[d].template.labels) <==> d in OwnedDeployments(s, p)
    ensures forall r :: r in s.replicaSets && s.replicaSets[r].deployment == d ==>
      (Selects(Selector(sha, p), s.replicaSets[r].labels) <==> d in OwnedDeployments(s, p))
  {
    ReachableInv(sha, s);
    OwnedMeans(sha, s, p, d);
    var dep := s.deployments[d];
    assert DeploymentOk(sha, s.proxies, dep);
    SelectsIff(sha, p, DeploymentHome(dep), dep.template.labels);
    forall r | r in s.replicaSets && s.replicaSets[r].deployment == d
      ensures Selects(Selector(sha, p), s.replicaSets[r].labels) <==> DeploymentHome(dep) == p
    {
      assert ReplicaSetOk(sha, s.proxies, s.deployments, s.replicaSets[r]);
      SelectsIff(sha, p, DeploymentHome(dep), s.replicaSets[r].labels);
    }
  }

  /** Labels made for `q` are selected by the selector of `p` exactly if they are the same proxy. */
  lemma SelectsIff(sha: Sha1, p: Key, q: Key, labels: map<string, string>)
    requires p.ns == q.ns && (labels == Selector(sha, q) || labels - {HASH_LABEL} == Selector(sha, q))
    ensures Selects(Selector(sha, p), labels) <==> p == q
  {
    assert forall key :: key in Selector(sha, q) ==> key in labels && labels[key] == Selector(sha, q)[key];
    if Selects(Selector(sha, p), labels) {
      SelectsHome(sha, p, p.ns, labels);
      assert Selects(Selector(sha, q), labels);
      SelectsHome(sha, q, q.ns, labels);
    }
  }
}
