/**
 The generation gate at work in the cluster: what the syncs see of a proxy is one of its stored
 versions, however stale, and nothing is written for a version whose spec is not fully defaulted.
 */
module Gate {
  import opened Names
  import opened Pools
  import opened Defaults
  import opened Generation
  import opened Json
  import opened EndToEnd
  import opened Cluster
  import opened Sync
  import opened Protocol
  import opened Convergence
  import opened Outcomes

  /** How a spec becomes text: its configuration and its mcrouter container. */
  datatype Rendering = Rendering(render: Json -> string, container: McRouter -> string)

  /** The cluster, and the version of each proxy that its caches show. */
  datatype World = World(cluster: State, shown: map<Key, Version>)

  datatype Move =
    /** Anything but the arrival of a proxy version. */
    | Cluster(step: Step)
    /** The caches show a version of the proxy, any one of its history, beside the given backends. */
    | Show(p: Key, version: Version, b: Backends)

  ghost predicate IsVersion(v: Version) { exists vs :: IsHistory(vs) && v in vs }

  function Arrival(sha: Sha1, t: Rendering, w: World, p: Key, v: Version, b: Backends): Step {
    var wanted, container := Rendered(sha, t.render, b, v.spec.rules), t.container(v.spec.mcrouter);
    if Visible(w.cluster, p) then ChangeProxy(p, v.generation, v.observed, wanted, container)
    else AddProxy(p, v.generation, v.observed, wanted, container)
  }

  ghost predicate CanMove(w: World, move: Move) {
    match move
    case Cluster(step) => Enabled(w.cluster, step) && !step.AddProxy? && !step.ChangeProxy?
    case Show(p, v, _) => IsVersion(v) && v.ns == p.ns
  }

  ghost function Moved(sha: Sha1, t: Rendering, w: World, move: Move): World
    requires CanMove(w, move)
  {
    match move
    case Cluster(step) => w.(cluster := Next(sha, w.cluster, step))
    case Show(p, v, b) => World(Next(sha, w.cluster, Arrival(sha, t, w, p, v, b)), w.shown[p := v])
  }

  ghost predicate CanRun(sha: Sha1, t: Rendering, w: World, moves: seq<Move>)
    decreases |moves|
  {
    moves == [] || (CanMove(w, moves[0]) && CanRun(sha, t, Moved(sha, t, w, moves[0]), moves[1..]))
  }

  ghost function Ran(sha: Sha1, t: Rendering, w: World, moves: seq<Move>): World
    requires CanRun(sha, t, w, moves)
    decreases |moves|
  {
    if moves == [] then w else Ran(sha, t, Moved(sha, t, w, moves[0]), moves[1..])
  }

  const Start := World(Empty, map[])

  // ---- What the syncs see ----

  /** Every live proxy looks like the version shown, which went through the gate's own bookkeeping. */
  ghost predicate Looks(w: World) {
    forall p :: p in w.cluster.proxies && w.cluster.proxies[p].alive ==>
      && p in w.shown && Gated(w.shown[p]) && w.shown[p].ns == p.ns
      && w.cluster.proxies[p].generation == w.shown[p].generation
      && w.cluster.proxies[p].observed == w.shown[p].observed
  }

  lemma VersionIsGated(v: Version)
    requires IsVersion(v)
    ensures Gated(v)
  {
    var vs :| IsHistory(vs) && v in vs;
    HistoryGated(vs);
  }

  lemma MoveKeepsLooks(sha: Sha1, t: Rendering, w: World, move: Move)
    requires Looks(w) && CanMove(w, move)
    ensures Looks(Moved(sha, t, w, move))
  {
    match move
    case Cluster(step) =>
      match step {
        case ConfigMapSync(p, l) => SyncsKeepProxies(sha, w.cluster, p, l, 0);
        case DeploymentSync(p, l, now) => SyncsKeepProxies(sha, w.cluster, p, l, now);
        case _ =>
      }
    case Show(p, v, b) => VersionIsGated(v);
  }

  lemma {:induction false} RunKeepsLooks(sha: Sha1, t: Rendering, w: World, moves: seq<Move>)
    requires Looks(w) && CanRun(sha, t, w, moves)
    ensures Looks(Ran(sha, t, w, moves))
    decreases |moves|
  {
    if moves != [] {
      MoveKeepsLooks(sha, t, w, moves[0]);
      RunKeepsLooks(sha, t, Moved(sha, t, w, moves[0]), moves[1..]);
    }
  }

  /**
   Over every run, with any stale caches: while the version shown of a live proxy is not a fixed
   point of defaulting, neither sync writes anything for it, and both come back later.
   */
  lemma UndefaultedWaits(sha: Sha1, t: Rendering, moves: seq<Move>, p: Key, l: Listing, now: nat)
    requires CanRun(sha, t, Start, moves)
    requires
      var w := Ran(sha, t, Start, moves);
      && Fresh(w.cluster, p, l) && p in w.cluster.proxies && w.cluster.proxies[p].alive
      && p in w.shown && DefaultSpec(w.shown[p].spec, p.ns) != w.shown[p].spec
    ensures
      var s := Ran(sha, t, Start, moves).cluster;
      SyncConfigMap(sha, s, p, l) == (s, Requeued) && SyncDeployment(sha, s, p, l, now) == (s, Requeued)
  {
    var w := Ran(sha, t, Start, moves);
    RunKeepsLooks(sha, t, Start, moves);
    FixedPointIff(w.shown[p].spec, p.ns);
    GateShut(sha, w.cluster, p, l, now);
  }

  /** Seen from the writes: whatever a sync writes, it writes for a spec with every default in place. */
  lemma WritesAreDefaulted(sha: Sha1, t: Rendering, moves: seq<Move>, p: Key, l: Listing, now: nat)
    requires CanRun(sha, t, Start, moves) && Fresh(Ran(sha, t, Start, moves).cluster, p, l)
    requires
      var s := Ran(sha, t, Start, moves).cluster;
      SyncConfigMap(sha, s, p, l).0 != s || SyncDeployment(sha, s, p, l, now).0 != s
    ensures
      var w := Ran(sha, t, Start, moves);
      p in w.shown && IsDefaulted(w.shown[p].spec) && w.shown[p].spec.mcrouter.port.Some?
  {
    var w := Ran(sha, t, Start, moves);
    RunKeepsLooks(sha, t, Start, moves);
    if !Visible(w.cluster, p) {
      GoneIsLeftAlone(sha, w.cluster, p, l, now);
    } else {
      FixedPointIff(w.shown[p].spec, p.ns);
      if DefaultSpec(w.shown[p].spec, p.ns) != w.shown[p].spec {
        UndefaultedWaits(sha, t, moves, p, l, now);
      }
    }
  }
}
