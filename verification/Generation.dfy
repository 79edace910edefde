/**
 The generation gate.  A proxy's stored versions form a history; controllers may read any of
 them from a stale cache, but the API server accepts an update only of the latest version,
 and raises the generation exactly when the spec changes.
 */
module Generation {
  import opened Wrappers
  import opened Defaults

  datatype Act =
    /** A user writes a spec; the status stays as stored. */
    | Edit(spec: Spec)
    /** The proxy controller handles the version at position `read` of the history. */
    | ProxySync(read: nat)

  /** A proxy as the API server first stores it. */
  function Created(ns: string, spec: Spec): Version { Version(ns, 1, 0, spec) }

  function Latest(vs: seq<Version>): Version
    requires vs != []
  {
    vs[|vs| - 1]
  }

  /** What the API server keeps of an update. */
  function Stored(latest: Version, update: Version): Version {
    update.(generation := latest.generation + if update.spec == latest.spec then 0 else 1)
  }

  /** The controller writes only what differs; a write from a stale read is refused. */
  function Stepped(vs: seq<Version>, act: Act): (r: seq<Version>)
    requires vs != []
    ensures r != [] && vs <= r
  {
    match act
    case Edit(spec) => vs + [Stored(Latest(vs), Latest(vs).(spec := spec))]
    case ProxySync(read) =>
      if read == |vs| - 1 && Synced(vs[read]) != vs[read] then vs + [Stored(vs[read], Synced(vs[read]))] else vs
  }

  function Acts(vs: seq<Version>, acts: seq<Act>): (r: seq<Version>)
    requires vs != []
    ensures r != []
    decreases |acts|
  {
    if acts == [] then vs else Acts(Stepped(vs, acts[0]), acts[1..])
  }

  // ---- The gate ----

  ghost predicate Gated(v: Version) {
    && v.ns != ""
    && v.observed <= v.generation
    && (v.observed == v.generation ==> IsDefaulted(v.spec))
  }

  ghost predicate AllGated(vs: seq<Version>) { vs != [] && forall i :: 0 <= i < |vs| ==> Gated(vs[i]) }

  lemma SyncKeepsGate(v: Version)
    requires Gated(v)
    ensures Gated(Stored(v, Synced(v)))
  {
    FixedPointIff(v.spec, v.ns);
  }

  lemma ActKeepsGate(vs: seq<Version>, act: Act)
    requires AllGated(vs)
    ensures AllGated(Stepped(vs, act))
  {
    match act
    case Edit(_) =>
    case ProxySync(read) =>
      if read < |vs| {
        SyncKeepsGate(vs[read]);
      }
  }

  lemma {:induction false} ActsKeepGate(vs: seq<Version>, acts: seq<Act>)
    requires AllGated(vs)
    ensures AllGated(Acts(vs, acts))
    decreases |acts|
  {
    if acts != [] {
      ActKeepsGate(vs, acts[0]);
      ActsKeepGate(Stepped(vs, acts[0]), acts[1..]);
    }
  }

  /** A history that some edits and syncs lead to, in any order and with any stale reads. */
  ghost predicate IsHistory(vs: seq<Version>) {
    exists ns, spec, acts :: ns != "" && vs == Acts([Created(ns, spec)], acts)
  }

  lemma HistoryGated(vs: seq<Version>)
    requires IsHistory(vs)
    ensures AllGated(vs)
  {
    var ns, spec, acts :| ns != "" && vs == Acts([Created(ns, spec)], acts);
    ActsKeepGate([Created(ns, spec)], acts);
  }

  /**
   For every history and every version in it, however stale: the observed generation is at
   most the generation, and where they are equal the spec is a fixed point of defaulting.
   */
  lemma GateHolds(vs: seq<Version>, i: nat)
    requires IsHistory(vs) && i < |vs|
    ensures vs[i].observed <= vs[i].generation
    ensures vs[i].observed == vs[i].generation ==> DefaultSpec(vs[i].spec, vs[i].ns) == vs[i].spec
  {
    HistoryGated(vs);
    assert Gated(vs[i]);
    FixedPointIff(vs[i].spec, vs[i].ns);
  }

  // ---- What the gated controllers do with the port ----

  datatype PortUse = Waits | Uses(port: int) | NilDereference

  /** The deployment and service sync handlers: wait while the gate is shut, then read *Spec.McRouter.Port. */
  function ReadPort(v: Version): PortUse {
    if v.generation != v.observed then Waits
    else match v.spec.mcrouter.port case None => NilDereference case Some(port) => Uses(port)
  }

  /** They wait exactly while the generation is not observed, and read the port of the spec otherwise. */
  lemma ReadPortMeans(v: Version, port: int)
    ensures ReadPort(v) == Waits <==> v.observed != v.generation
    ensures ReadPort(v) == Uses(port) <==> v.observed == v.generation && v.spec.mcrouter.port == Some(port)
  {
  }

  /** No gated sync dereferences a nil port, in any run and on any cached version. */
  lemma NeverNil(vs: seq<Version>, i: nat)
    requires IsHistory(vs) && i < |vs|
    ensures ReadPort(vs[i]) != NilDereference
  {
    HistoryGated(vs);
    assert Gated(vs[i]);
  }

  // ---- The gate opens ----

  /** How many writes the proxy controller still has to make. */
  function Pending(v: Version): nat {
    if !IsDefaulted(v.spec) then 2 else if v.observed != v.generation then 1 else 0
  }

  /** A sync of the latest version writes exactly if writes are pending, and one fewer is pending afterwards. */
  lemma SyncMakesProgress(vs: seq<Version>)
    requires AllGated(vs)
    ensures Pending(Latest(vs)) == 0 <==> Stepped(vs, ProxySync(|vs| - 1)) == vs
    ensures Pending(Latest(vs)) > 0 ==>
      var after := Stepped(vs, ProxySync(|vs| - 1));
      && |after| == |vs| + 1
      && Pending(Latest(after)) == Pending(Latest(vs)) - 1
      && Latest(after).spec == DefaultSpec(Latest(vs).spec, Latest(vs).ns)
      && Latest(after).ns == Latest(vs).ns
  {
    FixedPointIff(Latest(vs).spec, Latest(vs).ns);
  }

  /** After any history two syncs of the latest version open the gate; one does, if and only if the spec was defaulted. */
  lemma TwoSyncsOpen(vs: seq<Version>, one: seq<Version>, two: seq<Version>)
    requires IsHistory(vs) && one == Stepped(vs, ProxySync(|vs| - 1)) && two == Stepped(one, ProxySync(|one| - 1))
    ensures Latest(one).observed == Latest(one).generation <==> IsDefaulted(Latest(vs).spec)
    ensures Latest(two).observed == Latest(two).generation
    ensures Latest(two).spec == DefaultSpec(Latest(vs).spec, Latest(vs).ns)
    ensures Stepped(two, ProxySync(|two| - 1)) == two
  {
    HistoryGated(vs);
    ActKeepsGate(vs, ProxySync(|vs| - 1));
    ActKeepsGate(one, ProxySync(|one| - 1));
    SyncMakesProgress(vs);
    SyncMakesProgress(one);
    SyncMakesProgress(two);
    assert Gated(Latest(vs)) && Gated(Latest(one));
    FixedPointIff(Latest(vs).spec, Latest(vs).ns);
    Idempotent(Latest(vs).spec, Latest(vs).ns);
  }

  ghost predicate OnlySyncs(acts: seq<Act>) { forall i :: 0 <= i < |acts| ==> acts[i].ProxySync? }

  /** However many syncs run and however stale their reads: between two edits the controller writes at most twice. */
  lemma {:induction false} WritesAtMostTwice(vs: seq<Version>, acts: seq<Act>)
    requires AllGated(vs) && OnlySyncs(acts)
    ensures |Acts(vs, acts)| <= |vs| + Pending(Latest(vs)) <= |vs| + 2
    decreases |acts|
  {
    if acts != [] {
      SyncMakesProgress(vs);
      ActKeepsGate(vs, acts[0]);
      WritesAtMostTwice(Stepped(vs, acts[0]), acts[1..]);
    }
  }
}
