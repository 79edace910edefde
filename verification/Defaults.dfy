/** Defaulting as a function of values: the ApplyDefaults family of internal/apis/ianlewis.org/v1alpha1/types.go. */
module Defaults {
  import opened Wrappers
  import opened Names
  import opened Rules
  import opened Routes

  datatype Security = Security(nonRoot: Option<bool>, readOnlyRoot: Option<bool>)

  /** A list of resource quantities by name; a nil map is None. */
  type Quantities = Option<map<string, string>>

  datatype McRouter = McRouter(
    image: string, limits: Quantities, requests: Quantities, port: Option<int>, security: Option<Security>,
    statsRoot: string)

  datatype Spec = Spec(rules: Rule, mcrouter: McRouter)

  /** A MemcachedProxy as stored: one version of it. */
  datatype Version = Version(ns: string, generation: int, observed: int, spec: Spec)

  const IMAGE := "ianmlewis/mcrouter:v0.36.0-2"
  const PORT := 11211
  const STATS_ROOT := "/var/mcrouter/stats"
  const SECURITY := Security(Some(true), Some(true))

  function OrElse(s: string, default: string): string { if s == "" then default else s }

  function DefaultMcRouter(m: McRouter): McRouter {
    McRouter(
      OrElse(m.image, IMAGE),
      m.limits,
      m.requests,
      if m.port.None? then Some(PORT) else m.port,
      if m.security.None? then Some(SECURITY) else m.security,
      OrElse(m.statsRoot, STATS_ROOT))
  }

  function DefaultService(s: Option<ServiceSpec>, ns: string): Option<ServiceSpec> {
    match s case None => None case Some(v) => Some(v.(ns := OrElse(v.ns, ns)))
  }

  /** What defaulting does to a child: its own service and those below change, its kind does not. */
  function DefaultChild(r: Rule, ns: string): Rule
    decreases r, 1
  {
    Rule(r.kind, DefaultService(r.service, ns), DefaultChildren(r.children, ns))
  }

  function DefaultChildren(rs: seq<Rule>, ns: string): (r: seq<Rule>)
    ensures |r| == |rs|
    decreases rs, 0
  {
    if rs == [] then [] else DefaultChildren(rs[..|rs| - 1], ns) + [DefaultChild(rs[|rs| - 1], ns)]
  }

  /** At the root the kind is defaulted too. */
  function DefaultRule(r: Rule, ns: string): Rule { DefaultChild(r, ns).(kind := OrElse(r.kind, SHARDED)) }

  function DefaultSpec(s: Spec, ns: string): Spec { Spec(DefaultRule(s.rules, ns), DefaultMcRouter(s.mcrouter)) }

  /** What the proxy controller wants to store for a version it has read. */
  function Synced(v: Version): Version { v.(spec := DefaultSpec(v.spec, v.ns), observed := v.generation) }

  // ---- Rules by path ----

  /** The rule at the end of a path of child indices. */
  function At(r: Rule, path: seq<nat>): Option<Rule>
    decreases |path|
  {
    if path == [] then Some(r)
    else if path[0] < |r.children| then At(r.children[path[0]], path[1..])
    else None
  }

  lemma {:induction false} DefaultChildrenAt(rs: seq<Rule>, ns: string, i: nat)
    requires i < |rs|
    ensures DefaultChildren(rs, ns)[i] == DefaultChild(rs[i], ns)
  {
    if i < |rs| - 1 {
      DefaultChildrenAt(rs[..|rs| - 1], ns, i);
    }
  }

  lemma {:induction false} ChildAt(r: Rule, ns: string, path: seq<nat>)
    ensures At(DefaultChild(r, ns), path) == match At(r, path) case None => None case Some(x) => Some(DefaultChild(x, ns))
    decreases |path|
  {
    if path != [] && path[0] < |r.children| {
      DefaultChildrenAt(r.children, ns, path[0]);
      ChildAt(r.children[path[0]], ns, path[1..]);
    }
  }

  /**
   Defaulting rule by rule, at every depth: the same paths exist; a service gets the
   proxy's namespace exactly if it had none and keeps everything else; a kind changes
   only at the root, and only if it was empty.
   */
  lemma DefaultsByPath(r: Rule, ns: string, path: seq<nat>)
    ensures At(DefaultRule(r, ns), path).Some? <==> At(r, path).Some?
    ensures At(r, path).Some? ==>
      var before, after := At(r, path).value, At(DefaultRule(r, ns), path).value;
      && (after.service.Some? <==> before.service.Some?)
      && (before.service.Some? ==>
        && after.service.value.name == before.service.value.name
        && after.service.value.port == before.service.value.port
        && after.service.value.ns == if before.service.value.ns == "" then ns else before.service.value.ns)
      && |after.children| == |before.children|
      && after.kind == if path == [] && before.kind == "" then "sharded" else before.kind
  {
    ChildAt(r, ns, path);
  }

  /** The values that missing mcrouter settings get; settings that are there stay. */
  lemma DefaultValues(m: McRouter)
    ensures
      var d := DefaultMcRouter(m);
      && d.image == (if m.image == "" then "ianmlewis/mcrouter:v0.36.0-2" else m.image)
      && d.port == Some(if m.port.Some? then m.port.value else 11211)
      && d.statsRoot == (if m.statsRoot == "" then "/var/mcrouter/stats" else m.statsRoot)
      && d.security == Some(if m.security.Some? then m.security.value else Security(Some(true), Some(true)))
      && d.limits == m.limits && d.requests == m.requests
  {
  }

  // ---- Idempotence and fixed points ----

  /** Every service at every depth has a namespace, whether or not routes are made from it. */
  predicate Placed(r: Rule) {
    && (r.service.Some? ==> r.service.value.ns != "")
    && forall i :: 0 <= i < |r.children| ==> Placed(r.children[i])
  }

  predicate McRouterSet(m: McRouter) { m.image != "" && m.port.Some? && m.security.Some? && m.statsRoot != "" }

  predicate IsDefaulted(s: Spec) { McRouterSet(s.mcrouter) && s.rules.kind != "" && Placed(s.rules) }

  lemma {:induction false} ChildIsPlaced(r: Rule, ns: string)
    requires ns != ""
    ensures Placed(DefaultChild(r, ns))
    ensures DefaultChild(r, ns) == r <==> Placed(r)
    decreases r
  {
    var after := DefaultChild(r, ns);
    forall i | 0 <= i < |r.children|
      ensures Placed(after.children[i])
      ensures after.children[i] == r.children[i] <==> Placed(r.children[i])
    {
      DefaultChildrenAt(r.children, ns, i);
      ChildIsPlaced(r.children[i], ns);
    }
    assert after.children == r.children <==> forall i :: 0 <= i < |r.children| ==> Placed(r.children[i]);
  }

  lemma {:induction false} ChildIdempotent(r: Rule, ns: string)
    ensures DefaultChild(DefaultChild(r, ns), ns) == DefaultChild(r, ns)
    decreases r
  {
    var once := DefaultChild(r, ns);
    var twice := DefaultChild(once, ns);
    forall i | 0 <= i < |r.children| ensures twice.children[i] == once.children[i] {
      DefaultChildrenAt(r.children, ns, i);
      DefaultChildrenAt(once.children, ns, i);
      ChildIdempotent(r.children[i], ns);
    }
  }

  lemma Idempotent(s: Spec, ns: string)
    ensures DefaultSpec(DefaultSpec(s, ns), ns) == DefaultSpec(s, ns)
  {
    ChildIdempotent(s.rules, ns);
    var once := DefaultRule(s.rules, ns);
    assert DefaultChild(once, ns).children == DefaultChild(DefaultChild(s.rules, ns), ns).children;
    assert |SHARDED| > 0;
  }

  /** In a namespace, a spec is a fixed point exactly if nothing that defaulting fills is missing. */
  lemma FixedPointIff(s: Spec, ns: string)
    requires ns != ""
    ensures DefaultSpec(s, ns) == s <==> IsDefaulted(s)
    ensures IsDefaulted(DefaultSpec(s, ns))
  {
    ChildIsPlaced(s.rules, ns);
    var after := DefaultRule(s.rules, ns);
    assert after.children == DefaultChild(s.rules, ns).children && after.service == DefaultChild(s.rules, ns).service;
    assert Placed(after);
    assert s.rules.kind != "" ==> after == DefaultChild(s.rules, ns);
  }

  // ---- A child without a type ----

  lemma {:induction false} ValidityKept(r: Rule, ns: string)
    ensures Valid(DefaultChild(r, ns)) <==> Valid(r)
    decreases r
  {
    forall i | 0 <= i < |r.children| ensures Valid(DefaultChild(r, ns).children[i]) <==> Valid(r.children[i]) {
      DefaultChildrenAt(r.children, ns, i);
      ValidityKept(r.children[i], ns);
    }
  }

  /**
   The documented default type reaches only the root: a defaulted rule translates exactly if
   the root's type was known or empty and every child's type was written out.
   */
  lemma DefaultedCompilesIff(sha: Sha1, r: Rule, ns: string)
    ensures Compile(sha, DefaultRule(r, ns)).Success? <==>
      && (r.kind == "" || Known(r.kind))
      && (r.service.Some? || forall i :: 0 <= i < |r.children| ==> Valid(r.children[i]))
  {
    var after := DefaultRule(r, ns);
    CompilesIffValid(sha, after);
    forall i | 0 <= i < |r.children| ensures Valid(after.children[i]) <==> Valid(r.children[i]) {
      DefaultChildrenAt(r.children, ns, i);
      ValidityKept(r.children[i], ns);
    }
  }

  /** A sharded rule over one service whose own type is left out never translates. */
  lemma UntypedChildFails(sha: Sha1, s: ServiceSpec, ns: string)
    ensures Compile(sha, DefaultRule(Rule("", Some(s), []), ns)).Success?
    ensures Compile(sha, DefaultRule(Rule("", None, [Rule("", Some(s), [])]), ns)).Failure?
  {
    DefaultedCompilesIff(sha, Rule("", Some(s), []), ns);
    var r := Rule("", None, [Rule("", Some(s), [])]);
    DefaultedCompilesIff(sha, r, ns);
    assert !Valid(r.children[0]);
  }
}
