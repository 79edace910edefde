/** What the protocol guarantees in every state it can reach, for any number of proxies. */
module Runs {
  import opened Wrappers
  import opened Names
  import opened Cluster
  import opened Sync
  import opened Protocol
  import opened Ownership
  import opened Convergence

  /** The end of an orderly run. */
  ghost predicate Reachable(sha: Sha1, s: State) {
    exists steps :: IsRun(sha, Empty, steps) && IsOrderly(sha, Empty, steps) && After(sha, Empty, steps) == s
  }

  lemma ReachableInv(sha: Sha1, s: State)
    requires Reachable(sha, s)
    ensures Inv(sha, s)
  {
    var steps :| IsRun(sha, Empty, steps) && IsOrderly(sha, Empty, steps) && After(sha, Empty, steps) == s;
    assert Inv(sha, Empty);
    RunKeepsInv(sha, Empty, steps);
  }

  lemma {:induction false} RunExtends(sha: Sha1, s: State, steps: seq<Step>, step: Step)
    requires IsRun(sha, s, steps) && Enabled(After(sha, s, steps), step)
    ensures IsRun(sha, s, steps + [step])
    ensures IsOrderly(sha, s, steps) && Orderly(After(sha, s, steps), step) ==> IsOrderly(sha, s, steps + [step])
    ensures After(sha, s, steps + [step]) == Next(sha, After(sha, s, steps), step)
    decreases |steps|
  {
    if steps == [] {
      assert [] + [step] == [step];
      assert IsRun(sha, Next(sha, s, step), []);
    } else {
      RunExtends(sha, Next(sha, s, steps[0]), steps[1..], step);
      assert (steps + [step])[1..] == steps[1..] + [step];
    }
  }

  lemma ReachableStep(sha: Sha1, s: State, step: Step)
    requires Reachable(sha, s) && Enabled(s, step) && Orderly(s, step)
    ensures Reachable(sha, Next(sha, s, step))
  {
    var steps :| IsRun(sha, Empty, steps) && IsOrderly(sha, Empty, steps) && After(sha, Empty, steps) == s;
    RunExtends(sha, Empty, steps, step);
  }

  // ---- Safety ----

  /** What the Deployment of a live proxy mounts exists, also before its first ReplicaSet does. */
  lemma DeploymentMountExists(sha: Sha1, s: State, p: Key, d: Uid, name: string)
    requires Reachable(sha, s) && Visible(s, p) && d in OwnedDeployments(s, p)
    requires Mounts(s.deployments[d].template, name)
    ensures Key(p.ns, name) in s.configMaps
  {
    ReachableInv(sha, s);
    OwnedMeans(sha, s, p, d);
    var dep := s.deployments[d];
    assert DeploymentOk(sha, s.proxies, dep) && DeploymentServed(s.proxies, s.configMaps, s.replicaSets, dep);
    StandardMounts(dep.template, Key(p.ns, name));
  }

  /**
   What a live ReplicaSet of a live proxy mounts exists, and the ReplicaSet is among its
   owners, or else the proxy controls it while the Deployment mounts it.
   */
  lemma MountsAreOwned(sha: Sha1, s: State, p: Key, d: Uid, r: Uid, name: string)
    requires Reachable(sha, s) && Visible(s, p) && d in OwnedDeployments(s, p)
    requires r in s.replicaSets && s.replicaSets[r].deployment == d && Mounts(s.replicaSets[r].template, name)
    ensures Key(p.ns, name) in s.configMaps
    ensures
      var owners := s.configMaps[Key(p.ns, name)].owners;
      || IsOwnedBy(owners, r)
      || (IsControlledBy(owners, s.proxies[p].uid) && Mounts(s.deployments[d].template, name))
  {
    ReachableInv(sha, s);
    OwnedMeans(sha, s, p, d);
    var dep, rs, k := s.deployments[d], s.replicaSets[r], Key(p.ns, name);
    assert DeploymentOk(sha, s.proxies, dep);
    StandardMounts(dep.template, k);
    ReplicaSetOfDeployment(sha, s, p, d, r);
    StandardMounts(rs.template, k);
    ControlledMeans(sha, s, p, k);
  }

  /** A ReplicaSet made for a live proxy's Deployment carries that proxy's labels. */
  lemma ReplicaSetOfDeployment(sha: Sha1, s: State, p: Key, d: Uid, r: Uid)
    requires Inv(sha, s) && Visible(s, p) && d in s.deployments && DeploymentHome(s.deployments[d]) == p
    requires r in s.replicaSets && s.replicaSets[r].deployment == d
    ensures ReplicaSetHome(s.replicaSets[r]) == p
    ensures s.replicaSets[r].template.volumes == StandardVolumes(MountOf(s.replicaSets[r].template))
    ensures ReplicaSetServed(s.proxies, s.configMaps, s.deployments, r, s.replicaSets[r])
  {
    assert ReplicaSetOk(sha, s.proxies, s.deployments, s.replicaSets[r]);
  }

  /** The garbage collector never takes a ConfigMap that a live proxy's Deployment or ReplicaSet mounts. */
  lemma CollectionIsSafe(sha: Sha1, s: State, k: Key, p: Key, d: Uid)
    requires Reachable(sha, s) && Enabled(s, CollectConfigMap(k))
    requires Visible(s, p) && d in OwnedDeployments(s, p) && k.ns == p.ns
    ensures !Mounts(s.deployments[d].template, k.name)
    ensures forall r :: r in s.replicaSets && s.replicaSets[r].deployment == d ==>
      !Mounts(s.replicaSets[r].template, k.name)
  {
    ReachableInv(sha, s);
    OwnedMeans(sha, s, p, d);
    DeadMeansUnused(sha, s, k);
    assert DeploymentOk(sha, s.proxies, s.deployments[d]);
    StandardMounts(s.deployments[d].template, k);
    forall r | r in s.replicaSets && s.replicaSets[r].deployment == d
      ensures !Mounts(s.replicaSets[r].template, k.name)
    {
      ReplicaSetOfDeployment(sha, s, p, d, r);
      StandardMounts(s.replicaSets[r].template, k);
      assert ReplicaSetMount(s.replicaSets[r]) != k;
    }
  }

  // ---- Ownership ----

  /** Number of owner references marked as controller. */
  function Controllers(owners: seq<OwnerRef>): nat {
    if owners == [] then 0
    else Controllers(owners[..|owners| - 1]) + if owners[|owners| - 1].controller then 1 else 0
  }

  lemma ControllersAtMostOne(owners: seq<OwnerRef>, u: Uid)
    requires forall i :: 0 <= i < |owners| ==> (owners[i].controller <==> owners[i].uid == u)
    requires forall i, j :: 0 <= i < j < |owners| ==> owners[i].uid != owners[j].uid
    ensures Controllers(owners) <= 1
    ensures Controllers(owners) == 0 ==> forall i :: 0 <= i < |owners| ==> !owners[i].controller
  {
    if owners != [] {
      var front := owners[..|owners| - 1];
      ControllersAtMostOne(front, u);
      if owners[|owners| - 1].controller && Controllers(front) != 0 {
        NoController(front);
      }
    }
  }

  lemma NoController(owners: seq<OwnerRef>)
    requires forall i :: 0 <= i < |owners| ==> !owners[i].controller
    ensures Controllers(owners) == 0
  {
  }

  /** Every ConfigMap has an owner, at most one controller, and no owner twice. */
  lemma ConfigMapOwners(sha: Sha1, s: State, k: Key)
    requires Reachable(sha, s) && k in s.configMaps
    ensures s.configMaps[k].owners != []
    ensures Controllers(s.configMaps[k].owners) <= 1
    ensures forall i, j | 0 <= i < j < |s.configMaps[k].owners| ::
      s.configMaps[k].owners[i].uid != s.configMaps[k].owners[j].uid
  {
    ReachableInv(sha, s);
    assert ConfigMapOk(sha, s.proxies, s.nextUid, k, s.configMaps[k]);
    ControllersAtMostOne(s.configMaps[k].owners, s.proxies[ConfigMapHome(k)].uid);
  }

  /**
   Reuse itself does not look at the references it finds: it adds one controller, so there is at
   most one afterwards exactly if there was none, as in every reachable state.
   */
  lemma ReuseAddsController(s: State, p: Key, k: Key, owned: seq<Uid>)
    requires p in s.proxies && k in s.configMaps && forall d :: d in owned ==> d in s.deployments
    requires owned != [] && !Mounts(s.deployments[owned[0]].template, k.name)
    ensures
      var before, after := s.configMaps[k].owners, Reuse(s, p, k, owned).0.configMaps[k].owners;
      Controllers(after) == Controllers(before) + 1
      && (Controllers(after) <= 1 <==> forall i :: 0 <= i < |before| ==> !before[i].controller)
  {
    var before, u := s.configMaps[k].owners, s.proxies[p].uid;
    assert (before + [OwnerRef(u, true)])[..|before|] == before;
    if Controllers(before) == 0 {
      ControllersNone(before);
    } else if forall i :: 0 <= i < |before| ==> !before[i].controller {
      NoController(before);
    }
  }

  lemma {:induction false} ControllersNone(owners: seq<OwnerRef>)
    requires Controllers(owners) == 0
    ensures forall i :: 0 <= i < |owners| ==> !owners[i].controller
  {
    if owners != [] {
      ControllersNone(owners[..|owners| - 1]);
    }
  }

  /** No two ConfigMaps are controlled by one proxy, and no two Deployments. */
  lemma OneOfEach(sha: Sha1, s: State, p: Key)
    requires Reachable(sha, s) && p in s.proxies
    ensures forall k, k' | k in s.configMaps && k' in s.configMaps ::
      (&& IsControlledBy(s.configMaps[k].owners, s.proxies[p].uid)
       && IsControlledBy(s.configMaps[k'].owners, s.proxies[p].uid)) ==> k == k'
    ensures forall d, d' :: d in OwnedDeployments(s, p) && d' in OwnedDeployments(s, p) ==> d == d'
  {
    ReachableInv(sha, s);
    forall k | k in s.configMaps && IsControlledBy(s.configMaps[k].owners, s.proxies[p].uid)
      ensures Held(s.proxies, s.configMaps, k) && ConfigMapHome(k) == p
    {
      ControlledMeans(sha, s, p, k);
    }
    forall d | d in OwnedDeployments(s, p) ensures DeploymentHome(s.deployments[d]) == p {
      OwnedMeans(sha, s, p, d);
    }
  }

  /** So the duplicate errors are dead, and no deployment sync dereferences a nil volume source. */
  lemma DeploymentSyncErrors(sha: Sha1, s: State, p: Key, l: Listing, now: nat)
    requires Reachable(sha, s) && Fresh(s, p, l)
    ensures SyncDeployment(sha, s, p, l, now).1 in {Finished, Requeued, Failed(NoConfigMap)}
  {
    ReachableInv(sha, s);
    if Visible(s, p) && GateOpen(s, p) {
      ListedMine(sha, s, p, l);
      ListedOwned(sha, s, p, l);
      if HeldBy(s, p).Some? && DeploymentOf(s, p).Some? {
        MovedDeployment(sha, s, DeploymentOf(s, p).value, HeldBy(s, p).value);
      }
    }
  }

  /** A ConfigMap the proxy let go of means its Deployment is there. */
  lemma LetGoMeansDeployed(sha: Sha1, s: State, p: Key, k: Key)
    requires Supplied(s) && Visible(s, p) && k in s.configMaps && ConfigMapHome(k) == p
    requires HeldBy(s, p) == None
    ensures DeploymentOf(s, p).Some?
  {
  }

  lemma ConfigMapSyncOutcome(sha: Sha1, s: State, p: Key, l: Listing)
    requires Fresh(s, p, l) && Visible(s, p)
    requires |Controlled(s.configMaps, s.proxies[p].uid, l.configMaps)| <= 1
    requires
      (&& Controlled(s.configMaps, s.proxies[p].uid, l.configMaps) == [] && s.proxies[p].wanted.Success?
       && ConfigMapKey(sha, p, s.proxies[p].wanted.value) in s.configMaps) ==> l.owned != []
    ensures !SyncConfigMap(sha, s, p, l).1.Failed? || SyncConfigMap(sha, s, p, l).1.error.NoConfig?
  {
  }

  /** The "more than one" branch of the configmap sync is dead, and reuse always finds a Deployment. */
  lemma ConfigMapSyncErrors(sha: Sha1, s: State, p: Key, l: Listing)
    requires Reachable(sha, s) && Fresh(s, p, l) && Visible(s, p)
    ensures |Controlled(s.configMaps, s.proxies[p].uid, l.configMaps)| <= 1
    ensures !SyncConfigMap(sha, s, p, l).1.Failed? || SyncConfigMap(sha, s, p, l).1.error.NoConfig?
  {
    ReachableInv(sha, s);
    ListedMine(sha, s, p, l);
    ListedOwned(sha, s, p, l);
    if HeldBy(s, p).None? && s.proxies[p].wanted.Success? {
      var k := ConfigMapKey(sha, p, s.proxies[p].wanted.value);
      ConfigMapHomeOf(sha, p, s.proxies[p].wanted.value);
      if k in s.configMaps {
        LetGoMeansDeployed(sha, s, p, k);
      }
    }
    ConfigMapSyncOutcome(sha, s, p, l);
  }

  // ---- Content addressing ----

  /** No step changes the data of a ConfigMap. */
  lemma StepKeepsData(sha: Sha1, s: State, step: Step, k: Key)
    requires Enabled(s, step) && k in s.configMaps && k in Next(sha, s, step).configMaps
    ensures Next(sha, s, step).configMaps[k].data == s.configMaps[k].data
  {
  }

  /** The ConfigMap is there in every state of the run. */
  ghost predicate Stays(sha: Sha1, s: State, steps: seq<Step>, k: Key)
    requires IsRun(sha, s, steps)
    decreases |steps|
  {
    k in s.configMaps && (steps == [] || Stays(sha, Next(sha, s, steps[0]), steps[1..], k))
  }

  /** Over every run, a ConfigMap keeps the data it was created with for as long as it exists. */
  lemma {:induction false} RunKeepsData(sha: Sha1, s: State, steps: seq<Step>, k: Key)
    requires IsRun(sha, s, steps) && Stays(sha, s, steps, k)
    ensures k in After(sha, s, steps).configMaps && After(sha, s, steps).configMaps[k].data == s.configMaps[k].data
    decreases |steps|
  {
    if steps != [] {
      StepKeepsData(sha, s, steps[0], k);
      RunKeepsData(sha, Next(sha, s, steps[0]), steps[1..], k);
    }
  }

  /** In every reachable state a ConfigMap's name is the hash name of its data, for a proxy that was once there. */
  lemma NameIsHashOfData(sha: Sha1, s: State, k: Key)
    requires Reachable(sha, s) && k in s.configMaps
    ensures ConfigMapHome(k) in s.proxies
    ensures
      var p := ConfigMapHome(k);
      k == Key(p.ns, p.name + "-config-" + sha(p.name + s.configMaps[k].data)[2..7])
  {
    ReachableInv(sha, s);
    ConfigMapNameIs(sha, ConfigMapHome(k), s.configMaps[k].data);
    assert ConfigMapOk(sha, s.proxies, s.nextUid, k, s.configMaps[k]);
  }

  /** All configurations that the steps of a run ever asked for lie in `jsons`. */
  predicate AsksOnly(step: Step, jsons: set<string>) {
    match step
    case AddProxy(_, _, _, Success(json), _) => json in jsons
    case ChangeProxy(_, _, _, Success(json), _) => json in jsons
    case _ => true
  }

  ghost predicate ReachableAsking(sha: Sha1, s: State, jsons: set<string>) {
    exists steps ::
      && IsRun(sha, Empty, steps) && IsOrderly(sha, Empty, steps) && After(sha, Empty, steps) == s
      && forall i :: 0 <= i < |steps| ==> AsksOnly(steps[i], jsons)
  }

  ghost predicate HoldsOnly(s: State, jsons: set<string>) {
    && (forall k :: k in s.configMaps ==> s.configMaps[k].data in jsons)
    && (forall p :: p in s.proxies && s.proxies[p].wanted.Success? ==> s.proxies[p].wanted.value in jsons)
  }

  lemma StepHoldsOnly(sha: Sha1, s: State, step: Step, jsons: set<string>)
    requires Enabled(s, step) && HoldsOnly(s, jsons) && AsksOnly(step, jsons)
    ensures HoldsOnly(Next(sha, s, step), jsons)
  {
  }

  lemma {:induction false} RunHoldsOnly(sha: Sha1, s: State, steps: seq<Step>, jsons: set<string>)
    requires IsRun(sha, s, steps) && HoldsOnly(s, jsons)
    requires forall i :: 0 <= i < |steps| ==> AsksOnly(steps[i], jsons)
    ensures HoldsOnly(After(sha, s, steps), jsons)
    decreases |steps|
  {
    if steps != [] {
      StepHoldsOnly(sha, s, steps[0], jsons);
      RunHoldsOnly(sha, Next(sha, s, steps[0]), steps[1..], jsons);
    }
  }

  /** No name collision among the configurations a run asked for. */
  ghost predicate Distinguishes(sha: Sha1, p: Key, jsons: set<string>) {
    forall a, b | a in jsons && b in jsons :: sha(p.name + a)[2..7] == sha(p.name + b)[2..7] ==> a == b
  }

  /**
   Content addressing: the ConfigMap found under the wanted name, new or reused after the
   cluster returned to an earlier state, holds the wanted configuration.
   */
  lemma FoundIsWanted(sha: Sha1, s: State, jsons: set<string>, p: Key, json: string)
    requires ReachableAsking(sha, s, jsons) && Distinguishes(sha, p, jsons) && json in jsons
    requires p in s.proxies && ConfigMapKey(sha, p, json) in s.configMaps
    ensures s.configMaps[ConfigMapKey(sha, p, json)].data == json
  {
    var steps :| IsRun(sha, Empty, steps) && IsOrderly(sha, Empty, steps) && After(sha, Empty, steps) == s
      && forall i :: 0 <= i < |steps| ==> AsksOnly(steps[i], jsons);
    RunHoldsOnly(sha, Empty, steps, jsons);
    assert Reachable(sha, s);
    ReachableInv(sha, s);
    var k := ConfigMapKey(sha, p, json);
    ConfigMapHomeOf(sha, p, json);
    assert ConfigMapOk(sha, s.proxies, s.nextUid, k, s.configMaps[k]);
    SameNameSameDigest(sha, p, json, s.configMaps[k].data);
  }

  lemma SameNameSameDigest(sha: Sha1, p: Key, a: string, b: string)
    requires ConfigMapKey(sha, p, a) == ConfigMapKey(sha, p, b)
    ensures sha(p.name + a)[2..7] == sha(p.name + b)[2..7]
  {
    ConfigMapNameIs(sha, p, a);
    ConfigMapNameIs(sha, p, b);
    var x, y := ConfigMapKey(sha, p, a).name, ConfigMapKey(sha, p, b).name;
    assert x[|x| - 5..] == sha(p.name + a)[2..7] && y[|y| - 5..] == sha(p.name + b)[2..7];
  }

  // ---- Liveness ----

  lemma AskingStep(sha: Sha1, s: State, jsons: set<string>, step: Step)
    requires ReachableAsking(sha, s, jsons) && Enabled(s, step) && Orderly(s, step) && AsksOnly(step, jsons)
    ensures ReachableAsking(sha, Next(sha, s, step), jsons)
  {
    var steps :| IsRun(sha, Empty, steps) && IsOrderly(sha, Empty, steps) && After(sha, Empty, steps) == s
      && forall i :: 0 <= i < |steps| ==> AsksOnly(steps[i], jsons);
    RunExtends(sha, Empty, steps, step);
    var more := steps + [step];
    assert forall i :: 0 <= i < |more| ==> AsksOnly(more[i], jsons);
  }

  /** A round is a piece of a run. */
  lemma RoundIsRun(sha: Sha1, s: State, jsons: set<string>, p: Key, s': State)
    requires ReachableAsking(sha, s, jsons) && IsRound(sha, s, p, s')
    ensures ReachableAsking(sha, s', jsons)
  {
    var l1, l2, now, hash :| RoundWith(sha, s, p, l1, l2, now, hash, s');
    var s1 := SyncConfigMap(sha, s, p, l1).0;
    AskingStep(sha, s, jsons, ConfigMapSync(p, l1));
    AskingStep(sha, s1, jsons, DeploymentSync(p, l2, now));
    RolloutIsRun(sha, SyncDeployment(sha, s1, p, l2, now).0, jsons, p, hash);
  }

  lemma RolloutIsRun(sha: Sha1, s: State, jsons: set<string>, p: Key, hash: string)
    requires ReachableAsking(sha, s, jsons)
    ensures ReachableAsking(sha, Rolled(sha, s, p, hash), jsons)
  {
    if DeploymentOf(s, p).Some? && !HasMatch(s.replicaSets, s.deployments[DeploymentOf(s, p).value]) {
      AskingStep(sha, s, jsons, CreateReplicaSet(DeploymentOf(s, p).value, hash));
    }
  }

  lemma {:induction false} RoundsAreRuns(sha: Sha1, jsons: set<string>, p: Key, trace: seq<State>, n: nat)
    requires Rounds(sha, p, trace) && ReachableAsking(sha, trace[0], jsons) && n < |trace|
    ensures ReachableAsking(sha, trace[n], jsons)
  {
    if n > 0 {
      RoundsAreRuns(sha, jsons, p, trace, n - 1);
      RoundIsRun(sha, trace[n - 1], jsons, p, trace[n]);
    }
  }

  /** From every reachable state, four quiet rounds end with the wanted configuration mounted for good. */
  lemma ReachableConverges(sha: Sha1, jsons: set<string>, p: Key, json: string, trace: seq<State>, n: nat)
    requires Rounds(sha, p, trace) && ReachableAsking(sha, trace[0], jsons) && Quiet(trace[0], p, json)
    requires 4 <= n < |trace|
    ensures Settled(sha, trace[n], p, json)
    ensures json in jsons && Distinguishes(sha, p, jsons) ==>
      trace[n].configMaps[ConfigMapKey(sha, p, json)].data == json
    ensures forall s :: IsRound(sha, trace[n], p, s) ==> s == trace[n]
  {
    assert Reachable(sha, trace[0]);
    ReachableInv(sha, trace[0]);
    Converges(sha, p, json, trace, n);
    RoundsAreRuns(sha, jsons, p, trace, n);
    if json in jsons && Distinguishes(sha, p, jsons) {
      FoundIsWanted(sha, trace[n], jsons, p, json);
    }
  }

  // ---- Rounds exist ----

  /** The listers can always answer, so rounds exist. */
  lemma FreshExists(sha: Sha1, s: State, p: Key) returns (l: Listing)
    requires Reachable(sha, s) && p in s.proxies
    ensures Fresh(s, p, l)
  {
    var cms := Listed(ConfigMapsIn(s, p.ns));
    var rss := Listed(ReplicaSetsIn(s, p.ns));
    var owned := Listed(OwnedDeployments(s, p));
    l := Listing(cms, owned, rss);
    OneOfEach(sha, s, p);
    forall i, j | 0 <= i < j < |owned| ensures s.deployments[owned[i]].created >= s.deployments[owned[j]].created {
      assert owned[i] in OwnedDeployments(s, p) && owned[j] in OwnedDeployments(s, p);
    }
  }

  /** A quiet proxy in a reachable state can always go one more round. */
  lemma RoundExists(sha: Sha1, s: State, p: Key, json: string) returns (s': State)
    requires Reachable(sha, s) && Quiet(s, p, json)
    ensures IsRound(sha, s, p, s')
  {
    var l1 := FreshExists(sha, s, p);
    var s1 := SyncConfigMap(sha, s, p, l1).0;
    SyncsKeepProxies(sha, s, p, l1, 0);
    ReachableStep(sha, s, ConfigMapSync(p, l1));
    var l2 := FreshExists(sha, s1, p);
    s' := Rolled(sha, SyncDeployment(sha, s1, p, l2, 0).0, p, "");
    assert RoundWith(sha, s, p, l1, l2, 0, "", s');
  }

  lemma RoundStaysReachable(sha: Sha1, s: State, p: Key, json: string, s': State)
    requires Reachable(sha, s) && Quiet(s, p, json) && IsRound(sha, s, p, s')
    ensures Reachable(sha, s') && Quiet(s', p, json)
  {
    ReachableInv(sha, s);
    RoundSeen(sha, s, p, json, s');
    var l1, l2, now, hash :| RoundWith(sha, s, p, l1, l2, now, hash, s');
    var s1 := SyncConfigMap(sha, s, p, l1).0;
    ReachableStep(sha, s, ConfigMapSync(p, l1));
    ReachableStep(sha, s1, DeploymentSync(p, l2, now));
    var s2 := SyncDeployment(sha, s1, p, l2, now).0;
    if DeploymentOf(s2, p).Some? && !HasMatch(s2.replicaSets, s2.deployments[DeploymentOf(s2, p).value]) {
      ReachableStep(sha, s2, CreateReplicaSet(DeploymentOf(s2, p).value, hash));
    }
  }

  /** From every reachable quiet state there are rounds of every number, so the convergence theorem is about something. */
  lemma {:induction false} RoundsExist(sha: Sha1, s: State, p: Key, json: string, n: nat) returns (trace: seq<State>)
    requires Reachable(sha, s) && Quiet(s, p, json)
    ensures |trace| == n + 1 && trace[0] == s && Rounds(sha, p, trace)
    ensures Reachable(sha, trace[n]) && Quiet(trace[n], p, json)
  {
    if n == 0 {
      trace := [s];
    } else {
      trace := RoundsExist(sha, s, p, json, n - 1);
      var s' := RoundExists(sha, trace[n - 1], p, json);
      RoundStaysReachable(sha, trace[n - 1], p, json, s');
      ChainMore(RoundOf(sha, p), trace, s');
      trace := trace + [s'];
    }
  }
}
