/**
 Two runs in which a proxy's name is taken again too early.  In the first the garbage
 collector removes a ConfigMap that the Deployment of a live proxy mounts; in the second a
 ConfigMap gets two controllers.
 */
module Leftovers {
  import opened Wrappers
  import opened Names
  import opened Cluster
  import opened Sync
  import opened Protocol
  import opened Runs
  import Livelock

  /** The end of any run, orderly or not. */
  ghost predicate Possible(sha: Sha1, s: State) {
    exists steps :: IsRun(sha, Empty, steps) && After(sha, Empty, steps) == s
  }

  lemma PossibleStep(sha: Sha1, s: State, step: Step, s': State)
    requires Possible(sha, s) && Enabled(s, step) && s' == Next(sha, s, step)
    ensures Possible(sha, s')
  {
    var steps :| IsRun(sha, Empty, steps) && After(sha, Empty, steps) == s;
    RunExtends(sha, Empty, steps, step);
  }

  // ---- A cluster with one proxy ----

  function Wants(u: Uid, json: string): Proxy { Proxy(u, true, 1, 1, Success(json), "") }

  function World(p: Key, proxy: Proxy, cms: ConfigMaps, ds: Deployments, rss: ReplicaSets, next: Uid): State {
    State(map[p := proxy], cms, ds, rss, next)
  }

  function Own(u: Uid, json: string): ConfigMap { ConfigMap(json, [OwnerRef(u, true)]) }

  function Mounting(sha: Sha1, p: Key, u: Uid, json: string): Deployment {
    DeploymentForProxy(sha, Wants(u, json), p, ConfigMapKey(sha, p, json).name, 0)
  }

  lemma NewProxy(sha: Sha1, s: State, p: Key, json: string)
    requires Possible(sha, s) && !Visible(s, p)
    ensures Possible(sha, s.(proxies := s.proxies[p := Wants(s.nextUid, json)], nextUid := s.nextUid + 1))
  {
    PossibleStep(sha, s, AddProxy(p, 1, 1, Success(json), ""),
      s.(proxies := s.proxies[p := Wants(s.nextUid, json)], nextUid := s.nextUid + 1));
  }

  /** A configmap sync with nothing controlled and nothing under the wanted name. */
  lemma Creates(sha: Sha1, p: Key, u: Uid, json: string, cms: ConfigMaps, rss: ReplicaSets, next: Uid, l: Listing)
    requires Possible(sha, World(p, Wants(u, json), cms, map[], rss, next))
    requires Fresh(World(p, Wants(u, json), cms, map[], rss, next), p, l)
    requires Controlled(cms, u, l.configMaps) == [] && ConfigMapKey(sha, p, json) !in cms
    ensures Possible(sha, World(p, Wants(u, json), cms[ConfigMapKey(sha, p, json) := Own(u, json)], map[], rss, next))
  {
    PossibleStep(sha, World(p, Wants(u, json), cms, map[], rss, next), ConfigMapSync(p, l),
      World(p, Wants(u, json), cms[ConfigMapKey(sha, p, json) := Own(u, json)], map[], rss, next));
  }

  /** A deployment sync with one ConfigMap controlled and no Deployment yet. */
  lemma Deploys(sha: Sha1, p: Key, u: Uid, json: string, cms: ConfigMaps, rss: ReplicaSets, next: Uid, l: Listing)
    requires Possible(sha, World(p, Wants(u, json), cms, map[], rss, next))
    requires Fresh(World(p, Wants(u, json), cms, map[], rss, next), p, l)
    requires Controlled(cms, u, l.configMaps) == [ConfigMapKey(sha, p, json)]
    ensures Possible(sha, World(p, Wants(u, json), cms, map[next := Mounting(sha, p, u, json)], rss, next + 1))
  {
    PossibleStep(sha, World(p, Wants(u, json), cms, map[], rss, next), DeploymentSync(p, l, 0),
      World(p, Wants(u, json), cms, map[next := Mounting(sha, p, u, json)], rss, next + 1));
  }

  lemma RollsOut(sha: Sha1, s: State, d: Uid)
    requires Possible(sha, s) && d in s.deployments
    requires forall r :: r in s.replicaSets ==> !Matches(s.deployments[d], s.replicaSets[r])
    ensures Possible(sha, s.(
      replicaSets := s.replicaSets[s.nextUid := ReplicaSetFor(d, s.deployments[d], "")], nextUid := s.nextUid + 1))
  {
    PossibleStep(sha, s, CreateReplicaSet(d, ""), s.(
      replicaSets := s.replicaSets[s.nextUid := ReplicaSetFor(d, s.deployments[d], "")], nextUid := s.nextUid + 1));
  }

  lemma DeletesProxy(sha: Sha1, s: State, p: Key)
    requires Possible(sha, s) && Visible(s, p)
    ensures Possible(sha, s.(proxies := s.proxies[p := s.proxies[p].(alive := false)]))
  {
    PossibleStep(sha, s, DeleteProxy(p), s.(proxies := s.proxies[p := s.proxies[p].(alive := false)]));
  }

  // ---- What the listers show ----

  lemma NothingListed(p: Key, proxy: Proxy, cms: ConfigMaps, rss: ReplicaSets, next: Uid, l: Listing)
    requires l.owned == []
    requires Enumerates(l.configMaps, ConfigMapsIn(World(p, proxy, cms, map[], rss, next), p.ns))
    requires Enumerates(l.replicaSets, ReplicaSetsIn(World(p, proxy, cms, map[], rss, next), p.ns))
    ensures Fresh(World(p, proxy, cms, map[], rss, next), p, l)
  {
    assert OwnedDeployments(World(p, proxy, cms, map[], rss, next), p) == {};
  }

  lemma OneListed(
    sha: Sha1, p: Key, u: Uid, json: string, json': string, cms: ConfigMaps, d: Uid, rss: ReplicaSets, next: Uid, l: Listing)
    requires l.owned == [d]
    requires
      var s := World(p, Wants(u, json), cms, map[d := Mounting(sha, p, u, json')], rss, next);
      Enumerates(l.configMaps, ConfigMapsIn(s, p.ns)) && Enumerates(l.replicaSets, ReplicaSetsIn(s, p.ns))
    ensures Fresh(World(p, Wants(u, json), cms, map[d := Mounting(sha, p, u, json')], rss, next), p, l)
  {
    var s := World(p, Wants(u, json), cms, map[d := Mounting(sha, p, u, json')], rss, next);
    assert s.deployments[d].owners[0].controller;
    assert OwnedDeployments(s, p) == {d};
  }

  lemma ControlledOne(cms: ConfigMaps, u: Uid, k: Key)
    requires k in cms
    ensures Controlled(cms, u, [k]) == if IsControlledBy(cms[k].owners, u) then [k] else []
  {
    assert [k][..0] == [];
  }

  /** The ReplicaSet of an equal template matches, whichever Deployment it was made for. */
  lemma EqualTemplatesMatch(sha: Sha1, p: Key, u: Uid, u': Uid, json: string, d: Uid, hash: string)
    ensures Matches(Mounting(sha, p, u, json), ReplicaSetFor(d, Mounting(sha, p, u', json), hash))
  {
    var dep, rs := Mounting(sha, p, u, json), ReplicaSetFor(d, Mounting(sha, p, u', json), hash);
    assert HASH_LABEL !in Selector(sha, p);
    assert rs.template.labels - {HASH_LABEL} == dep.template.labels - {HASH_LABEL};
  }

  lemma FoundOne(sha: Sha1, p: Key, u: Uid, u': Uid, json: string, d: Uid, r: Uid)
    ensures NewReplicaSet(
      map[r := ReplicaSetFor(d, Mounting(sha, p, u', json), "")], Mounting(sha, p, u, json), [r]) == Some(r)
  {
    EqualTemplatesMatch(sha, p, u, u', json, d, "");
  }

  lemma ReleasedToOne(u: Uid, r: Uid)
    requires u != r
    ensures Released([OwnerRef(u, true)], r, u) == [OwnerRef(r, false)]
  {
    var both := [OwnerRef(u, true), OwnerRef(r, false)];
    assert both[..1] == [OwnerRef(u, true)] && [OwnerRef(u, true)][..0] == [];
    assert Without([OwnerRef(u, true)], u) == [];
  }

  /**
   A configmap sync that lets go of the one ConfigMap controlled, to a ReplicaSet of an equal
   template that was made for Deployment `d'` of proxy `u'`.
   */
  lemma Releases(
    sha: Sha1, p: Key, u: Uid, json: string, cms: ConfigMaps, keys: seq<Key>, d: Uid, d': Uid, u': Uid, r: Uid, next: Uid)
    requires u != r && Enumerates(keys, ConfigMapsIn(State(map[], cms, map[], map[], 0), p.ns))
    requires
      var k := ConfigMapKey(sha, p, json);
      k in cms && cms[k] == Own(u, json) && Controlled(cms, u, keys) == [k]
    requires Possible(sha, World(p, Wants(u, json), cms, map[d := Mounting(sha, p, u, json)],
      map[r := ReplicaSetFor(d', Mounting(sha, p, u', json), "")], next))
    ensures Possible(sha, World(p, Wants(u, json),
      cms[ConfigMapKey(sha, p, json) := ConfigMap(json, [OwnerRef(r, false)])], map[d := Mounting(sha, p, u, json)],
      map[r := ReplicaSetFor(d', Mounting(sha, p, u', json), "")], next))
  {
    var k, dep := ConfigMapKey(sha, p, json), Mounting(sha, p, u, json);
    var rss := map[r := ReplicaSetFor(d', Mounting(sha, p, u', json), "")];
    var s, l := World(p, Wants(u, json), cms, map[d := dep], rss, next), Listing(keys, [d], [r]);
    assert ConfigMapsIn(s, p.ns) == ConfigMapsIn(State(map[], cms, map[], map[], 0), p.ns);
    OneListed(sha, p, u, json, json, cms, d, rss, next, l);
    FoundOne(sha, p, u, u', json, d', r);
    ReleasedToOne(u, r);
    var s' := World(p, Wants(u, json), cms[k := ConfigMap(json, [OwnerRef(r, false)])], map[d := dep], rss, next);
    Livelock.SyncReleases(sha, s, p, l, k, d, r);
    PossibleStep(sha, s, ConfigMapSync(p, l), s');
  }

  // ---- The first run ----

  /** Proxy, ConfigMap, Deployment and ReplicaSet; then all but the ReplicaSet go. */
  lemma OrphanedReplicaSet(sha: Sha1, p: Key, json: string)
    ensures Possible(sha, World(
      p, Wants(0, json).(alive := false), map[], map[], map[2 := ReplicaSetFor(1, Mounting(sha, p, 0, json), "")], 3))
  {
    var k, dep := ConfigMapKey(sha, p, json), Mounting(sha, p, 0, json);
    var cms, rss := map[k := Own(0, json)], map[2 := ReplicaSetFor(1, dep, "")];
    FirstRollout(sha, p, json);
    DeletesProxy(sha, World(p, Wants(0, json), cms, map[1 := dep], rss, 3), p);
    var dead := Wants(0, json).(alive := false);
    assert map[p := Wants(0, json)][p := dead] == map[p := dead];
    PossibleStep(sha, World(p, dead, cms, map[1 := dep], rss, 3), CollectDeployment(1), World(p, dead, cms, map[], rss, 3));
    PossibleStep(sha, World(p, dead, cms, map[], rss, 3), CollectConfigMap(k), World(p, dead, map[], map[], rss, 3));
  }

  lemma FirstRollout(sha: Sha1, p: Key, json: string)
    ensures Possible(sha, World(
      p, Wants(0, json), map[ConfigMapKey(sha, p, json) := Own(0, json)], map[1 := Mounting(sha, p, 0, json)],
      map[2 := ReplicaSetFor(1, Mounting(sha, p, 0, json), "")], 3))
  {
    var k, dep := ConfigMapKey(sha, p, json), Mounting(sha, p, 0, json);
    FirstConfigMap(sha, p, json);
    NothingListed(p, Wants(0, json), map[k := Own(0, json)], map[], 1, Listing([k], [], []));
    ControlledOne(map[k := Own(0, json)], 0, k);
    Deploys(sha, p, 0, json, map[k := Own(0, json)], map[], 1, Listing([k], [], []));
    RollsOut(sha, World(p, Wants(0, json), map[k := Own(0, json)], map[1 := dep], map[], 2), 1);
  }

  lemma FirstConfigMap(sha: Sha1, p: Key, json: string)
    ensures Possible(sha, World(
      p, Wants(0, json), map[ConfigMapKey(sha, p, json) := Own(0, json)], map[], map[], 1))
  {
    assert IsRun(sha, Empty, []) && After(sha, Empty, []) == Empty;
    NewProxy(sha, Empty, p, json);
    NothingListed(p, Wants(0, json), map[], map[], 1, Listing([], [], []));
    Creates(sha, p, 0, json, map[], map[], 1, Listing([], [], []));
  }

  lemma AloneOwned(sha: Sha1, p: Key, u: Uid, json: string)
    ensures
      var k := ConfigMapKey(sha, p, json);
      var cms := map[k := Own(u, json)];
      Controlled(cms, u, [k]) == [k] && Enumerates([k], ConfigMapsIn(State(map[], cms, map[], map[], 0), p.ns))
  {
    var k := ConfigMapKey(sha, p, json);
    ControlledOne(map[k := Own(u, json)], u, k);
  }

  /** The new proxy's ConfigMap is released to the old proxy's ReplicaSet, which the new Deployment happens to match. */
  lemma ReleasedToOrphan(sha: Sha1, p: Key, json: string)
    ensures Possible(sha, World(
      p, Wants(3, json), map[ConfigMapKey(sha, p, json) := ConfigMap(json, [OwnerRef(2, false)])],
      map[4 := Mounting(sha, p, 3, json)], map[2 := ReplicaSetFor(1, Mounting(sha, p, 0, json), "")], 5))
  {
    var k := ConfigMapKey(sha, p, json);
    var cms, after := map[k := Own(3, json)], map[k := ConfigMap(json, [OwnerRef(2, false)])];
    assert cms[k := ConfigMap(json, [OwnerRef(2, false)])] == after;
    AloneOwned(sha, p, 3, json);
    SecondDeployment(sha, p, json);
    Releases(sha, p, 3, json, cms, [k], 4, 1, 0, 2, 5);
  }

  /** The ReplicaSet's own Deployment is gone, so it is collected, and the ConfigMap after it. */
  lemma MountedIsCollected(sha: Sha1, p: Key, json: string) returns (s: State, d: Uid, k: Key)
    ensures Possible(sha, s) && Visible(s, p) && d in OwnedDeployments(s, p)
    ensures k.ns == p.ns && Mounts(s.deployments[d].template, k.name) && k !in s.configMaps
  {
    d, k := 4, ConfigMapKey(sha, p, json);
    var rs, dep := ReplicaSetFor(1, Mounting(sha, p, 0, json), ""), Mounting(sha, p, 3, json);
    var cms := map[k := ConfigMap(json, [OwnerRef(2, false)])];
    ReleasedToOrphan(sha, p, json);
    var world := World(p, Wants(3, json), cms, map[4 := dep], map[], 5);
    PossibleStep(sha, World(p, Wants(3, json), cms, map[4 := dep], map[2 := rs], 5), CollectReplicaSet(2), world);
    s := World(p, Wants(3, json), map[], map[4 := dep], map[], 5);
    PossibleStep(sha, world, CollectConfigMap(k), s);
    assert dep.owners[0].controller && dep.template.volumes[0].configMap == Some(k.name);
  }

  /** The name is taken again while the old ReplicaSet is still there. */
  lemma SecondDeployment(sha: Sha1, p: Key, json: string)
    ensures Possible(sha, World(
      p, Wants(3, json), map[ConfigMapKey(sha, p, json) := Own(3, json)], map[4 := Mounting(sha, p, 3, json)],
      map[2 := ReplicaSetFor(1, Mounting(sha, p, 0, json), "")], 5))
  {
    var k, rss := ConfigMapKey(sha, p, json), map[2 := ReplicaSetFor(1, Mounting(sha, p, 0, json), "")];
    OrphanedReplicaSet(sha, p, json);
    var before := World(p, Wants(0, json).(alive := false), map[], map[], rss, 3);
    NewProxy(sha, before, p, json);
    assert before.proxies[p := Wants(3, json)] == map[p := Wants(3, json)];
    NothingListed(p, Wants(3, json), map[], rss, 4, Listing([], [], [2]));
    Creates(sha, p, 3, json, map[], rss, 4, Listing([], [], [2]));
    var cms := map[k := Own(3, json)];
    assert map[][k := Own(3, json)] == cms;
    NothingListed(p, Wants(3, json), cms, rss, 4, Listing([k], [], [2]));
    ControlledOne(cms, 3, k);
    Deploys(sha, p, 3, json, cms, rss, 4, Listing([k], [], [2]));
  }

  // ---- The second run ----

  lemma ControlledTwo(cms: ConfigMaps, u: Uid, k: Key, k': Key)
    requires k in cms && k' in cms && !IsControlledBy(cms[k].owners, u)
    ensures Controlled(cms, u, [k, k']) == if IsControlledBy(cms[k'].owners, u) then [k'] else []
  {
    assert [k, k'][..1] == [k];
    ControlledOne(cms, u, k);
  }

  /** A new proxy under the old name, next to a ConfigMap that still names the old one as its controller. */
  lemma BesideLeftover(sha: Sha1, p: Key, json: string, json': string)
    requires ConfigMapKey(sha, p, json) != ConfigMapKey(sha, p, json')
    ensures Possible(sha, World(
      p, Wants(1, json'),
      map[ConfigMapKey(sha, p, json) := Own(0, json), ConfigMapKey(sha, p, json') := Own(1, json')], map[], map[], 2))
  {
    var k, k' := ConfigMapKey(sha, p, json), ConfigMapKey(sha, p, json');
    var cms := map[k := Own(0, json)];
    FirstConfigMap(sha, p, json);
    DeletesProxy(sha, World(p, Wants(0, json), cms, map[], map[], 1), p);
    var dead := Wants(0, json).(alive := false);
    assert map[p := Wants(0, json)][p := dead] == map[p := dead];
    NewProxy(sha, World(p, dead, cms, map[], map[], 1), p, json');
    assert map[p := dead][p := Wants(1, json')] == map[p := Wants(1, json')];
    NothingListed(p, Wants(1, json'), cms, map[], 2, Listing([k], [], []));
    ControlledOne(cms, 1, k);
    Creates(sha, p, 1, json', cms, map[], 2, Listing([k], [], []));
    assert cms[k' := Own(1, json')] == map[k := Own(0, json), k' := Own(1, json')];
  }

  lemma RolledBesideLeftover(sha: Sha1, p: Key, json: string, json': string)
    requires ConfigMapKey(sha, p, json) != ConfigMapKey(sha, p, json')
    ensures Possible(sha, World(
      p, Wants(1, json'),
      map[ConfigMapKey(sha, p, json) := Own(0, json), ConfigMapKey(sha, p, json') := Own(1, json')],
      map[2 := Mounting(sha, p, 1, json')], map[3 := ReplicaSetFor(2, Mounting(sha, p, 1, json'), "")], 4))
  {
    var k, k' := ConfigMapKey(sha, p, json), ConfigMapKey(sha, p, json');
    var cms := map[k := Own(0, json), k' := Own(1, json')];
    BesideLeftover(sha, p, json, json');
    NothingListed(p, Wants(1, json'), cms, map[], 2, Listing([k, k'], [], []));
    ControlledTwo(cms, 1, k, k');
    Deploys(sha, p, 1, json', cms, map[], 2, Listing([k, k'], [], []));
    RollsOut(sha, World(p, Wants(1, json'), cms, map[2 := Mounting(sha, p, 1, json')], map[], 3), 2);
  }

  lemma ReleasedBesideLeftover(sha: Sha1, p: Key, json: string, json': string)
    requires ConfigMapKey(sha, p, json) != ConfigMapKey(sha, p, json')
    ensures Possible(sha, World(
      p, Wants(1, json),
      map[ConfigMapKey(sha, p, json) := Own(0, json), ConfigMapKey(sha, p, json') := ConfigMap(json', [OwnerRef(3, false)])],
      map[2 := Mounting(sha, p, 1, json')], map[3 := ReplicaSetFor(2, Mounting(sha, p, 1, json'), "")], 4))
  {
    var k, k', dep := ConfigMapKey(sha, p, json), ConfigMapKey(sha, p, json'), Mounting(sha, p, 1, json');
    var cms, rss := map[k := Own(0, json), k' := Own(1, json')], map[3 := ReplicaSetFor(2, dep, "")];
    RolledBesideLeftover(sha, p, json, json');
    ControlledTwo(cms, 1, k, k');
    Releases(sha, p, 1, json', cms, [k, k'], 2, 2, 1, 3, 4);
    var after := map[k := Own(0, json), k' := ConfigMap(json', [OwnerRef(3, false)])];
    assert cms[k' := ConfigMap(json', [OwnerRef(3, false)])] == after;
    assert map[p := Wants(1, json')][p := Wants(1, json)] == map[p := Wants(1, json)];
    PossibleStep(sha, World(p, Wants(1, json'), after, map[2 := dep], rss, 4),
      ChangeProxy(p, 1, 1, Success(json), ""), World(p, Wants(1, json), after, map[2 := dep], rss, 4));
  }

  /** The configuration returns to an earlier one: reuse adds a second controller to the leftover. */
  lemma TwoControllers(sha: Sha1, p: Key, json: string, json': string) returns (s: State, k: Key)
    requires ConfigMapKey(sha, p, json) != ConfigMapKey(sha, p, json')
    ensures Possible(sha, s) && k in s.configMaps && Controllers(s.configMaps[k].owners) == 2
    ensures Visible(s, p) && !IsControlledBy(s.configMaps[k].owners, s.proxies[p].uid)
  {
    k := ConfigMapKey(sha, p, json);
    var k', dep := ConfigMapKey(sha, p, json'), Mounting(sha, p, 1, json');
    var cms := map[k := Own(0, json), k' := ConfigMap(json', [OwnerRef(3, false)])];
    var rss := map[3 := ReplicaSetFor(2, dep, "")];
    var before, l := World(p, Wants(1, json), cms, map[2 := dep], rss, 4), Listing([k, k'], [2], [3]);
    ReleasedBesideLeftover(sha, p, json, json');
    OneListed(sha, p, 1, json, json', cms, 2, rss, 4, l);
    ControlledTwo(cms, 1, k, k');
    assert !Mounts(dep.template, k.name);
    s := Reuse(before, p, k, [2]).0;
    Reuses(sha, before, p, l, json, s);
    ReuseAddsController(before, p, k, [2]);
    assert Controllers([OwnerRef(0, true)]) == Controllers([OwnerRef(0, true)][..0]) + 1;
  }

  lemma Reuses(sha: Sha1, s: State, p: Key, l: Listing, json: string, s': State)
    requires Possible(sha, s) && Fresh(s, p, l) && Visible(s, p) && GateOpen(s, p)
    requires s.proxies[p].wanted == Success(json) && ConfigMapKey(sha, p, json) in s.configMaps
    requires Controlled(s.configMaps, s.proxies[p].uid, l.configMaps) == []
    requires s' == Reuse(s, p, ConfigMapKey(sha, p, json), l.owned).0
    ensures Possible(sha, s')
  {
    PossibleStep(sha, s, ConfigMapSync(p, l), s');
  }
}
