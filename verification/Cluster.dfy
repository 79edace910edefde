/**
 The API objects the operator reads and writes, and the lookups of
 internal/controller/operator.go and internal/util/ownerref/ownerref.go.
 Deployments and ReplicaSets have server-generated names, so they are keyed by UID.
 */
module Cluster {
  import opened Wrappers
  import opened Names

  type Uid = nat

  datatype OwnerRef = OwnerRef(uid: Uid, controller: bool)

  datatype ConfigMap = ConfigMap(data: string, owners: seq<OwnerRef>)

  datatype Volume = Volume(name: string, configMap: Option<string>)

  datatype Template = Template(labels: map<string, string>, container: string, volumes: seq<Volume>)

  datatype Deployment = Deployment(
    ns: string, owners: seq<OwnerRef>, created: nat, selector: map<string, string>, template: Template)

  datatype ReplicaSet = ReplicaSet(ns: string, deployment: Uid, labels: map<string, string>, template: Template)

  /**
   What the sync handlers see of a MemcachedProxy.  `wanted` is the outcome of
   configForProxy for the current spec, services and endpoints; `container` is the
   mcrouter container of its spec.  A deleted proxy stays, `!alive`, until its name is
   taken again.
   */
  datatype Proxy = Proxy(
    uid: Uid, alive: bool, generation: int, observed: int, wanted: Result<string, string>, container: string)

  datatype State = State(
    proxies: map<Key, Proxy>,
    configMaps: map<Key, ConfigMap>,
    deployments: map<Uid, Deployment>,
    replicaSets: map<Uid, ReplicaSet>,
    nextUid: Uid)

  /** metav1.GetControllerOf: the first owner reference marked as controller. */
  function ControllerOf(owners: seq<OwnerRef>): Option<Uid> {
    if owners == [] then None
    else if owners[0].controller then Some(owners[0].uid)
    else ControllerOf(owners[1..])
  }

  /** It is the first marked reference, and there is none exactly if none is marked. */
  lemma {:induction false} ControllerIsFirst(owners: seq<OwnerRef>, u: Uid)
    ensures ControllerOf(owners) == Some(u) <==>
      exists i | 0 <= i < |owners| ::
        owners[i] == OwnerRef(u, true) && forall j :: 0 <= j < i ==> !owners[j].controller
    ensures ControllerOf(owners).None? <==> forall i :: 0 <= i < |owners| ==> !owners[i].controller
  {
    if owners != [] && !owners[0].controller {
      var rest := owners[1..];
      ControllerIsFirst(rest, u);
      assert forall i :: 1 <= i < |owners| ==> owners[i] == rest[i - 1];
      if i :| 0 <= i < |rest| && rest[i] == OwnerRef(u, true) && forall j :: 0 <= j < i ==> !rest[j].controller {
        assert owners[i + 1] == OwnerRef(u, true) && forall j :: 0 <= j < i + 1 ==> !owners[j].controller;
      }
      if i :| 0 <= i < |owners| && owners[i] == OwnerRef(u, true) && forall j :: 0 <= j < i ==> !owners[j].controller {
        assert rest[i - 1] == OwnerRef(u, true) && forall j :: 0 <= j < i - 1 ==> !rest[j].controller;
      }
    } else if owners != [] {
      assert owners[0].controller;
    }
  }

  predicate IsControlledBy(owners: seq<OwnerRef>, uid: Uid) { ControllerOf(owners) == Some(uid) }

  predicate IsOwnedBy(owners: seq<OwnerRef>, uid: Uid) {
    exists i :: 0 <= i < |owners| && owners[i].uid == uid
  }

  /** The search loop of ownerref.IsOwnedBy. */
  method FindOwner(owners: seq<OwnerRef>, uid: Uid) returns (found: bool)
    ensures found <==> IsOwnedBy(owners, uid)
  {
    for i := 0 to |owners|
      invariant forall j :: 0 <= j < i ==> owners[j].uid != uid
    {
      if owners[i].uid == uid {
        return true;
      }
    }
    return false;
  }

  /** The owner references left after dropping every reference to `uid`, in order. */
  function Without(owners: seq<OwnerRef>, uid: Uid): (r: seq<OwnerRef>)
    ensures forall o :: o in r <==> o in owners && o.uid != uid
  {
    if owners == [] then []
    else
      var last := owners[|owners| - 1];
      var rest := Without(owners[..|owners| - 1], uid);
      if last.uid != uid then rest + [last] else rest
  }

  /** Dropping works reference by reference and keeps the order. */
  lemma {:induction false} WithoutMore(a: seq<OwnerRef>, b: seq<OwnerRef>, uid: Uid)
    ensures Without(a + b, uid) == Without(a, uid) + Without(b, uid)
    decreases |b|
  {
    if b == [] {
      assert a + b == a;
    } else {
      var front := b[..|b| - 1];
      WithoutMore(a, front, uid);
      assert (a + b)[..|a + b| - 1] == a + front;
    }
  }

  lemma WithoutOne(o: OwnerRef, uid: Uid)
    ensures Without([o], uid) == if o.uid == uid then [] else [o]
  {
    assert [o][..0] == [];
    assert Without([], uid) == [];
  }

  /** A selector selects labels that carry all of its pairs. */
  predicate Selects(selector: map<string, string>, labels: map<string, string>) {
    forall key :: key in selector ==> key in labels && labels[key] == selector[key]
  }

  /** Template equality with the pod-template-hash label left out. */
  predicate EqualIgnoreHash(a: Template, b: Template) {
    && a.labels - {HASH_LABEL} == b.labels - {HASH_LABEL}
    && a.container == b.container
    && a.volumes == b.volumes
  }

  /** Templates that differ in labels alone are equal exactly if they agree on every label but the hash. */
  lemma EqualLabels(a: Template, b: Template)
    requires a.container == b.container && a.volumes == b.volumes
    ensures EqualIgnoreHash(a, b) <==> forall key | key != "pod-template-hash" ::
      (key in a.labels <==> key in b.labels) && (key in a.labels && key in b.labels ==> a.labels[key] == b.labels[key])
  {
    var x, y := a.labels - {"pod-template-hash"}, b.labels - {"pod-template-hash"};
    if forall key | key != "pod-template-hash" ::
      (key in a.labels <==> key in b.labels) && (key in a.labels && key in b.labels ==> a.labels[key] == b.labels[key])
    {
      assert forall key :: key in x <==> key in y;
      assert x == y;
    }
    if x == y {
      forall key | key != "pod-template-hash"
        ensures key in a.labels <==> key in b.labels
        ensures key in a.labels && key in b.labels ==> a.labels[key] == b.labels[key]
      {
        assert (key in x <==> key in a.labels) && (key in y <==> key in b.labels);
      }
    }
  }

  predicate Mounts(t: Template, configMap: string) {
    exists i :: 0 <= i < |t.volumes| && t.volumes[i].configMap == Some(configMap)
  }

  function ConfigMapsIn(s: State, ns: string): set<Key> {
    set k | k in s.configMaps && k.ns == ns
  }

  function DeploymentsIn(s: State, ns: string): set<Uid> {
    set d | d in s.deployments && s.deployments[d].ns == ns
  }

  function ReplicaSetsIn(s: State, ns: string): set<Uid> {
    set r | r in s.replicaSets && s.replicaSets[r].ns == ns
  }

  /** GetConfigMapsForProxy over a list of ConfigMap keys, keeping its order. */
  function Controlled(cms: map<Key, ConfigMap>, uid: Uid, keys: seq<Key>): (r: seq<Key>)
    requires forall k :: k in keys ==> k in cms
    ensures forall k :: k in r <==> k in keys && IsControlledBy(cms[k].owners, uid)
  {
    if keys == [] then []
    else
      var last := keys[|keys| - 1];
      var rest := Controlled(cms, uid, keys[..|keys| - 1]);
      if IsControlledBy(cms[last].owners, uid) then rest + [last] else rest
  }

  /** The Deployments GetDeploymentsForProxy keeps. */
  function OwnedDeployments(s: State, p: Key): set<Uid>
    requires p in s.proxies
  {
    set d | d in DeploymentsIn(s, p.ns) && IsControlledBy(s.deployments[d].owners, s.proxies[p].uid)
  }

  /** A newest-first order of the owned Deployments; equal timestamps may come in any order. */
  ghost predicate NewestFirst(s: State, p: Key, owned: seq<Uid>)
    requires p in s.proxies
  {
    && Enumerates(owned, OwnedDeployments(s, p))
    && forall i, j :: 0 <= i < j < |owned| ==> s.deployments[owned[i]].created >= s.deployments[owned[j]].created
  }

  /** What the listers hand to one sync of a proxy. */
  datatype Listing = Listing(configMaps: seq<Key>, owned: seq<Uid>, replicaSets: seq<Uid>)

  /** Fresh listers: everything in the namespace, each once, in an arbitrary order. */
  ghost predicate Fresh(s: State, p: Key, l: Listing) {
    && Enumerates(l.configMaps, ConfigMapsIn(s, p.ns))
    && Enumerates(l.replicaSets, ReplicaSetsIn(s, p.ns))
    && (p in s.proxies ==> NewestFirst(s, p, l.owned))
  }

  /** The Deployment selects the ReplicaSet, and their templates are equal. */
  predicate Matches(dep: Deployment, rs: ReplicaSet) {
    && rs.ns == dep.ns
    && Selects(dep.selector, rs.labels)
    && EqualIgnoreHash(rs.template, dep.template)
  }

  /** The first listed ReplicaSet that matches the Deployment. */
  function NewReplicaSet(all: map<Uid, ReplicaSet>, dep: Deployment, listed: seq<Uid>): (r: Option<Uid>)
    requires forall r :: r in listed ==> r in all
    ensures r.Some? ==> r.value in listed && Matches(dep, all[r.value])
    ensures r.None? ==> forall x :: x in listed ==> !Matches(dep, all[x])
  {
    if listed == [] then None
    else if Matches(dep, all[listed[0]]) then Some(listed[0])
    else NewReplicaSet(all, dep, listed[1..])
  }

  /** No ReplicaSet listed before the one found matches. */
  lemma {:induction false} FoundIsFirst(all: map<Uid, ReplicaSet>, dep: Deployment, listed: seq<Uid>, r: Uid)
    requires (forall x :: x in listed ==> x in all) && NewReplicaSet(all, dep, listed) == Some(r)
    ensures exists i | 0 <= i < |listed| :: listed[i] == r && forall j :: 0 <= j < i ==> !Matches(dep, all[listed[j]])
  {
    if Matches(dep, all[listed[0]]) {
      assert listed[0] == r;
    } else {
      var rest := listed[1..];
      FoundIsFirst(all, dep, rest, r);
      var i :| 0 <= i < |rest| && rest[i] == r && forall j :: 0 <= j < i ==> !Matches(dep, all[rest[j]]);
      assert listed[i + 1] == r;
      assert forall j :: 1 <= j < i + 1 ==> listed[j] == rest[j - 1];
    }
  }
}
