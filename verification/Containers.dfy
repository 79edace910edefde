/**
 What an edit of the mcrouter settings does to a running proxy: nothing.  updateDeployment
 (internal/controller/proxydeployment/controller.go) moves the volume and leaves the container.
 */
module Containers {
  import opened Wrappers
  import opened Names
  import opened Cluster
  import opened Sync
  import opened Protocol
  import opened Convergence
  import opened Runs
  import opened Livelock
  import opened Traps

  /** No step changes the container of a Deployment that stays. */
  lemma StepKeepsContainer(sha: Sha1, s: State, step: Step, d: Uid)
    requires Enabled(s, step) && s.nextUid !in s.deployments
    requires d in s.deployments && d in Next(sha, s, step).deployments
    ensures Next(sha, s, step).deployments[d].template.container == s.deployments[d].template.container
  {
  }

  /** The Deployment is there in every state of the run. */
  ghost predicate Remains(sha: Sha1, s: State, steps: seq<Step>, d: Uid)
    requires IsRun(sha, s, steps)
    decreases |steps|
  {
    d in s.deployments && (steps == [] || Remains(sha, Next(sha, s, steps[0]), steps[1..], d))
  }

  /** Over every orderly run, a Deployment keeps the container it was created with. */
  lemma {:induction false} RunKeepsContainer(sha: Sha1, s: State, steps: seq<Step>, d: Uid)
    requires Reachable(sha, s) && IsRun(sha, s, steps) && IsOrderly(sha, s, steps) && Remains(sha, s, steps, d)
    ensures d in After(sha, s, steps).deployments
    ensures After(sha, s, steps).deployments[d].template.container == s.deployments[d].template.container
    decreases |steps|
  {
    if steps != [] {
      assert s.nextUid !in s.deployments by { ReachableInv(sha, s); }
      StepKeepsContainer(sha, s, steps[0], d);
      ReachableStep(sha, s, steps[0]);
      RunKeepsContainer(sha, Next(sha, s, steps[0]), steps[1..], d);
    }
  }

  /** A sync that brings a Deployment into being gives it the container of the proxy's spec at that moment. */
  lemma CreatedContainer(sha: Sha1, s: State, p: Key, l: Listing, now: nat, d: Uid)
    requires Fresh(s, p, l) && d !in s.deployments && d in SyncDeployment(sha, s, p, l, now).0.deployments
    ensures p in s.proxies
    ensures SyncDeployment(sha, s, p, l, now).0.deployments[d].template.container == s.proxies[p].container
  {
  }

  /**
   However long a Deployment lives and whatever is edited, its container is the one the spec
   asks for if and only if the spec asks for the one it asked for at the creation.
   */
  lemma ContainerAgreesIff(sha: Sha1, s: State, p: Key, l: Listing, now: nat, d: Uid, steps: seq<Step>)
    requires Reachable(sha, s) && Fresh(s, p, l)
    requires d !in s.deployments && d in SyncDeployment(sha, s, p, l, now).0.deployments
    requires IsRun(sha, SyncDeployment(sha, s, p, l, now).0, steps)
    requires IsOrderly(sha, SyncDeployment(sha, s, p, l, now).0, steps)
    requires Remains(sha, SyncDeployment(sha, s, p, l, now).0, steps, d)
    ensures
      var end := After(sha, SyncDeployment(sha, s, p, l, now).0, steps);
      p in s.proxies && d in end.deployments
      && (p in end.proxies ==>
        (end.deployments[d].template.container == end.proxies[p].container
         <==> end.proxies[p].container == s.proxies[p].container))
  {
    CreatedContainer(sha, s, p, l, now, d);
    ReachableStep(sha, s, DeploymentSync(p, l, now));
    RunKeepsContainer(sha, SyncDeployment(sha, s, p, l, now).0, steps, d);
  }

  lemma SettledIsReachable(sha: Sha1, p: Key, json: string) returns (s: State)
    ensures Reachable(sha, s) && Quiet(s, p, json) && ViewOf(s, p) == Final(ConfigMapKey(sha, p, json))
  {
    s := NewProxyView(sha, p, json);
    s := ConfigMapSynced(sha, s, p, json);
    s := Deployed(sha, s, p, json);
    s := RolledOut(sha, s, p, json);
    s := ConfigMapSynced(sha, s, p, json);
  }

  lemma ContainerEdited(sha: Sha1, s: State, p: Key, json: string, container: string) returns (s': State)
    requires Reachable(sha, s) && Quiet(s, p, json)
    ensures Reachable(sha, s') && Quiet(s', p, json) && ViewOf(s', p) == ViewOf(s, p)
    ensures s'.deployments == s.deployments && s'.proxies[p].container == container
    ensures DeploymentOf(s', p) == DeploymentOf(s, p)
  {
    var step := ChangeProxy(p, 2, 2, Success(json), container);
    ReachableStep(sha, s, step);
    s' := Next(sha, s, step);
    assert OneHeld(s.proxies, s.configMaps) && OneDeployment(s.deployments) by { ReachableInv(sha, s); }
    EditedView(s, p, s'.proxies[p], s');
    SameDeployments(s, s', p);
  }

  lemma FinalStays(sha: Sha1, s: State, p: Key, json: string)
    requires Reachable(sha, s) && Quiet(s, p, json) && ViewOf(s, p) == Final(ConfigMapKey(sha, p, json))
    ensures forall s' :: IsRound(sha, s, p, s') ==> s' == s
  {
    ReachableInv(sha, s);
    forall s' | IsRound(sha, s, p, s') ensures s' == s {
      RoundSeen(sha, s, p, json, s');
    }
  }

  /** An edit of the settings after the rollout: the proxy is settled, for good, on the old container. */
  lemma StaleContainer(sha: Sha1, p: Key, json: string) returns (s: State, d: Uid)
    ensures Reachable(sha, s) && Settled(sha, s, p, json) && (forall s' :: IsRound(sha, s, p, s') ==> s' == s)
    ensures d in OwnedDeployments(s, p) && s.deployments[d].template.container != s.proxies[p].container
  {
    s := SettledIsReachable(sha, p, json);
    d := DeploymentOf(s, p).value;
    s := ContainerEdited(sha, s, p, json, s.deployments[d].template.container + "x");
    FinalIsSettled(sha, s, p, json);
    FinalStays(sha, s, p, json);
    assert d in OwnedDeployments(s, p) by {
      ReachableInv(sha, s);
      OwnedMeans(sha, s, p, d);
    }
  }
}
