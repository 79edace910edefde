/**
 Recovery from duplicate Deployments (internal/controller/operator.go and
 internal/controller/proxydeployment/controller.go), from any number of them.  The
 comment in the sync handler means to keep only the newest; the list it deletes has
 lost its head twice, so the two newest stay and the error never goes away.
 */
module Recovery {
  import opened Wrappers
  import opened Names
  import opened Cluster
  import opened Sync

  /** The sync gets past its earlier errors: gate open, at most one ConfigMap controlled, volumes in order. */
  ghost predicate Ready(s: State, p: Key) {
    && Visible(s, p) && GateOpen(s, p)
    && (forall k, k' | k in ConfigMapsIn(s, p.ns) && k' in ConfigMapsIn(s, p.ns) ::
      (&& IsControlledBy(s.configMaps[k].owners, s.proxies[p].uid)
       && IsControlledBy(s.configMaps[k'].owners, s.proxies[p].uid)) ==> k == k')
    && (forall d :: d in OwnedDeployments(s, p) ==> Remountable(s.deployments[d].template.volumes))
  }

  lemma AtMostOneListed(cms: map<Key, ConfigMap>, u: Uid, keys: seq<Key>)
    requires NoDuplicates(keys) && forall k :: k in keys ==> k in cms
    requires forall k, k' | k in keys && k' in keys ::
      IsControlledBy(cms[k].owners, u) && IsControlledBy(cms[k'].owners, u) ==> k == k'
    ensures |Controlled(cms, u, keys)| <= 1
  {
    if keys != [] {
      var last, front := keys[|keys| - 1], keys[..|keys| - 1];
      AtMostOneListed(cms, u, front);
      var mine := Controlled(cms, u, front);
      if mine != [] {
        assert mine[0] in mine;
      }
    }
  }

  /** The newest Deployments a sync keeps. */
  function Survivors(owned: seq<Uid>): set<Uid> {
    if |owned| <= 2 then set d | d in owned else set d | d in owned[..2]
  }

  /**
   One sync over n > 0 owned Deployments, newest first: the newest two stay, exactly the
   rest goes, and the sync fails if and only if there were at least two.
   */
  lemma SyncKeepsTwoNewest(sha: Sha1, s: State, p: Key, l: Listing, now: nat)
    requires Ready(s, p) && Fresh(s, p, l) && l.owned != []
    ensures OwnedDeployments(SyncDeployment(sha, s, p, l, now).0, p) == Survivors(l.owned)
    ensures SyncDeployment(sha, s, p, l, now).1 == if |l.owned| >= 2 then Failed(MultipleDeployments) else Finished
    ensures Ready(SyncDeployment(sha, s, p, l, now).0, p)
  {
    var mine := Controlled(s.configMaps, s.proxies[p].uid, l.configMaps);
    AtMostOneListed(s.configMaps, s.proxies[p].uid, l.configMaps);
    assert l.owned[0] in OwnedDeployments(s, p);
    var s1 := UpdateDeployment(s, l.owned[0], mine).0;
    UpdateKeepsOwned(s, p, l.owned[0], mine);
    if |l.owned| >= 2 {
      DropRest(s1, p, l.owned);
    }
  }

  lemma DropRest(s: State, p: Key, owned: seq<Uid>)
    requires Ready(s, p) && Enumerates(owned, OwnedDeployments(s, p)) && |owned| >= 2
    ensures
      var s' := s.(deployments := s.deployments - (set d | d in owned[2..]));
      Ready(s', p) && OwnedDeployments(s', p) == Survivors(owned)
  {
    SplitAtTwo(owned);
    var s' := s.(deployments := s.deployments - (set d | d in owned[2..]));
    assert OwnedDeployments(s', p) == OwnedDeployments(s, p) - (set d | d in owned[2..]);
  }

  lemma SplitAtTwo(owned: seq<Uid>)
    requires NoDuplicates(owned) && |owned| >= 2
    ensures forall d :: d in owned <==> d in owned[..2] || d in owned[2..]
    ensures forall d :: d in owned[..2] ==> d !in owned[2..]
  {
    assert owned == owned[..2] + owned[2..];
  }

  lemma UpdateKeepsOwned(s: State, p: Key, d: Uid, mine: seq<Key>)
    requires Ready(s, p) && d in OwnedDeployments(s, p) && |mine| <= 1
    ensures UpdateDeployment(s, d, mine).1 == Finished
    ensures OwnedDeployments(UpdateDeployment(s, d, mine).0, p) == OwnedDeployments(s, p)
    ensures Ready(UpdateDeployment(s, d, mine).0, p)
  {
  }

  /** The survivors are the newest: nothing that goes is newer than anything that stays. */
  lemma SurvivorsAreNewest(s: State, p: Key, l: Listing, kept: Uid, gone: Uid)
    requires p in s.proxies && Fresh(s, p, l)
    requires kept in Survivors(l.owned) && gone in OwnedDeployments(s, p) - Survivors(l.owned)
    ensures kept in s.deployments && gone in s.deployments
    ensures s.deployments[kept].created >= s.deployments[gone].created
  {
    var i :| 0 <= i < |l.owned| && l.owned[i] == kept && i < 2;
    var j :| 0 <= j < |l.owned| && l.owned[j] == gone;
    assert l.owned[i] in OwnedDeployments(s, p);
    assert forall h :: 0 <= h < |l.owned| && h < 2 ==> l.owned[h] in Survivors(l.owned);
  }

  ghost predicate IsSync(sha: Sha1, p: Key, s: State, l: Listing, now: nat, s': State) {
    Fresh(s, p, l) && s' == SyncDeployment(sha, s, p, l, now).0
  }

  /** States between successive syncs of the proxy. */
  ghost predicate Syncs(sha: Sha1, p: Key, trace: seq<State>, listings: seq<Listing>, now: nat) {
    && |trace| == |listings| + 1
    && forall i {:trigger listings[i]} :: 0 <= i < |listings| ==>
      IsSync(sha, p, trace[i], listings[i], now, trace[i + 1])
  }

  /** Left alone, n duplicates become min(n, 2) after one sync and stay so: one Deployment is left only if n is 1. */
  lemma {:induction false} TwoRemain(
    sha: Sha1, p: Key, trace: seq<State>, listings: seq<Listing>, now: nat, m: nat)
    requires Syncs(sha, p, trace, listings, now) && Ready(trace[0], p) && 1 <= m < |trace|
    requires |OwnedDeployments(trace[0], p)| >= 1
    ensures Ready(trace[m], p)
    ensures |OwnedDeployments(trace[m], p)| == if |OwnedDeployments(trace[0], p)| >= 2 then 2 else 1
    ensures p in trace[1].proxies && OwnedDeployments(trace[m], p) == OwnedDeployments(trace[1], p)
  {
    if m == 1 {
      assert IsSync(sha, p, trace[0], listings[0], now, trace[1]);
      FirstSync(sha, trace[0], p, listings[0], now);
    } else {
      TwoRemain(sha, p, trace, listings, now, m - 1);
      assert IsSync(sha, p, trace[m - 1], listings[m - 1], now, trace[m]);
      SmallStays(sha, trace[m - 1], p, listings[m - 1], now);
    }
  }

  lemma FirstSync(sha: Sha1, s: State, p: Key, l: Listing, now: nat)
    requires Ready(s, p) && Fresh(s, p, l) && |OwnedDeployments(s, p)| >= 1
    ensures
      var s' := SyncDeployment(sha, s, p, l, now).0;
      && Ready(s', p)
      && |OwnedDeployments(s', p)| == if |OwnedDeployments(s, p)| >= 2 then 2 else 1
  {
    ListedCount(l.owned, OwnedDeployments(s, p));
    SyncKeepsTwoNewest(sha, s, p, l, now);
    SurvivorCount(l.owned);
  }

  /** Two Deployments, or one, are left as they are. */
  lemma SmallStays(sha: Sha1, s: State, p: Key, l: Listing, now: nat)
    requires Ready(s, p) && Fresh(s, p, l) && 1 <= |OwnedDeployments(s, p)| <= 2
    ensures
      var s' := SyncDeployment(sha, s, p, l, now).0;
      Ready(s', p) && OwnedDeployments(s', p) == OwnedDeployments(s, p)
  {
    ListedCount(l.owned, OwnedDeployments(s, p));
    SyncKeepsTwoNewest(sha, s, p, l, now);
    assert Survivors(l.owned) == OwnedDeployments(s, p);
  }

  lemma ListedCount(xs: seq<Uid>, s: set<Uid>)
    requires Enumerates(xs, s)
    ensures |xs| == |s|
  {
    if xs == [] {
      assert s == {};
    } else {
      var last, front := xs[|xs| - 1], xs[..|xs| - 1];
      assert last in s;
      forall x | x in s - {last} ensures x in front {
        assert x in xs;
      }
      ListedCount(front, s - {last});
    }
  }

  lemma SurvivorCount(owned: seq<Uid>)
    requires NoDuplicates(owned) && owned != []
    ensures |Survivors(owned)| == if |owned| >= 2 then 2 else 1
  {
    if |owned| == 1 {
      assert Survivors(owned) == {owned[0]};
    } else {
      assert Survivors(owned) == {owned[0], owned[1]};
    }
  }

  /** As long as two remain, every sync reports the error. */
  lemma ErrorNeverClears(sha: Sha1, s: State, p: Key, l: Listing, now: nat)
    requires Ready(s, p) && Fresh(s, p, l) && |OwnedDeployments(s, p)| >= 1
    ensures SyncDeployment(sha, s, p, l, now).1 == Failed(MultipleDeployments) <==> |OwnedDeployments(s, p)| >= 2
    ensures SyncDeployment(sha, s, p, l, now).1 == Finished <==> |OwnedDeployments(s, p)| == 1
  {
    ListedCount(l.owned, OwnedDeployments(s, p));
    SyncKeepsTwoNewest(sha, s, p, l, now);
  }

  // ---- Such states exist ----

  /** A proxy whose UID is n, with n Deployments of its own, one after the other. */
  function Duplicates(sha: Sha1, p: Key, configMap: string, n: nat): State {
    var proxy := Proxy(n, true, 1, 1, Failure(""), "");
    State(
      map[p := proxy], map[], map d: nat | d < n :: DeploymentForProxy(sha, proxy, p, configMap, d), map[], n + 1)
  }

  lemma {:induction false} CountBelow(s: set<nat>, n: nat)
    requires forall d: nat :: d in s <==> d < n
    ensures |s| == n
  {
    if n > 0 {
      CountBelow(s - {n - 1}, n - 1);
    } else {
      assert s == {};
    }
  }

  /** For every n there is a state with n duplicates that the theorems above are about. */
  lemma DuplicatesExist(sha: Sha1, p: Key, configMap: string, n: nat)
    ensures Ready(Duplicates(sha, p, configMap, n), p)
    ensures |OwnedDeployments(Duplicates(sha, p, configMap, n), p)| == n
  {
    var s := Duplicates(sha, p, configMap, n);
    forall d: nat ensures d in OwnedDeployments(s, p) <==> d < n {
      if d < n {
        assert s.deployments[d].owners[0].controller;
      }
    }
    CountBelow(OwnedDeployments(s, p), n);
    forall d | d in OwnedDeployments(s, p) ensures Remountable(s.deployments[d].template.volumes) {
      assert s.deployments[d].template.volumes == StandardVolumes(configMap);
    }
  }
}
