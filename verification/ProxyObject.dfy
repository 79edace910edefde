/**
 A MemcachedProxy on the heap: pointers, copies of pointers, DeepCopy
 (internal/apis/ianlewis.org/v1alpha1/zz_generated.deepcopy.go), ApplyDefaults (types.go)
 and the sync handler of internal/controller/proxy/controller.go.
 */
module ProxyObject {
  import opened Wrappers
  import opened Rules
  import opened Defaults

  class ServiceObject {
    var name: string
    var ns: string
    var port: Port

    constructor (name: string, ns: string, port: Port)
      ensures Value() == ServiceSpec(name, ns, port)
    {
      this.name, this.ns, this.port := name, ns, port;
    }

    function Value(): ServiceSpec
      reads this
    {
      ServiceSpec(name, ns, port)
    }

    method ApplyDefaults(proxyNs: string)
      modifies this
      ensures Value() == old(Value()).(ns := OrElse(old(Value()).ns, proxyNs))
    {
      if ns == "" {
        ns := proxyNs;
      }
    }
  }

  class IntObject {
    var value: int

    constructor (value: int)
      ensures this.value == value
    {
      this.value := value;
    }
  }

  class SecurityObject {
    var value: Security

    constructor (value: Security)
      ensures this.value == value
    {
      this.value := value;
    }
  }

  /** A Go map, which is a reference. */
  class MapObject {
    var value: map<string, string>

    constructor (value: map<string, string>)
      ensures this.value == value
    {
      this.value := value;
    }
  }

  /**
   A struct with a pointer and a slice in it; copying the struct copies the pointer and shares
   the slice's elements.  A nil slice is null.
   */
  datatype RuleSpec = RuleSpec(kind: string, service: ServiceObject?, children: array?<RuleSpec>)

  datatype McRouterSpec = McRouterSpec(
    image: string, limits: MapObject?, requests: MapObject?, port: IntObject?, security: SecurityObject?, statsRoot: string)

  // ---- Rules on the heap ----

  /** A picture of a rule and of everything below it, slice by slice. */
  datatype Tree = Tree(rule: RuleSpec, below: seq<Tree>)

  /** What some service objects and slices hold at some moment. */
  datatype Memory = Memory(services: map<ServiceObject, ServiceSpec>, slices: map<array<RuleSpec>, seq<RuleSpec>>)

  ghost predicate Stands(mem: Memory)
    reads mem.services.Keys, mem.slices.Keys
  {
    && (forall o :: o in mem.services ==> o.Value() == mem.services[o])
    && (forall a :: a in mem.slices ==> a[..] == mem.slices[a])
  }

  /** The picture is right, and every object and slice in it, at any depth, is part of the memory. */
  ghost predicate Shown(t: Tree, mem: Memory)
    decreases t, 1
  {
    && (t.rule.service != null ==> t.rule.service in mem.services)
    && (if t.rule.children == null then t.below == []
        else t.rule.children in mem.slices && Filling(mem.slices[t.rule.children], t.below))
    && ShownAll(t.below, mem)
  }

  ghost predicate ShownAll(ts: seq<Tree>, mem: Memory)
    decreases ts, 0
  {
    ts == [] || (ShownAll(ts[..|ts| - 1], mem) && Shown(ts[|ts| - 1], mem))
  }

  ghost predicate Filling(rules: seq<RuleSpec>, ts: seq<Tree>) {
    |rules| == |ts| && forall i :: 0 <= i < |ts| ==> rules[i] == ts[i].rule
  }

  /** The rule as a value, read from the memory. */
  ghost function RuleValue(t: Tree, mem: Memory): Rule
    requires Shown(t, mem)
    decreases t, 1
  {
    Rule(t.rule.kind, if t.rule.service == null then None else Some(mem.services[t.rule.service]), RuleValues(t.below, mem))
  }

  ghost function RuleValues(ts: seq<Tree>, mem: Memory): (vs: seq<Rule>)
    requires ShownAll(ts, mem)
    ensures |vs| == |ts|
    decreases ts, 0
  {
    if ts == [] then [] else RuleValues(ts[..|ts| - 1], mem) + [RuleValue(ts[|ts| - 1], mem)]
  }

  /** Nil slices in the same places: reflect.DeepEqual tells them from empty ones. */
  predicate SameNils(a: Tree, b: Tree)
    decreases a, 1
  {
    (a.rule.children == null <==> b.rule.children == null) && SameNilsAll(a.below, b.below)
  }

  predicate SameNilsAll(a: seq<Tree>, b: seq<Tree>)
    decreases a, 0
  {
    && |a| == |b|
    && (a == [] || (SameNilsAll(a[..|a| - 1], b[..|b| - 1]) && SameNils(a[|a| - 1], b[|b| - 1])))
  }

  lemma {:induction false} ChildShown(ts: seq<Tree>, i: nat, mem: Memory)
    requires i < |ts| && ShownAll(ts, mem)
    ensures Shown(ts[i], mem) && RuleValues(ts, mem)[i] == RuleValue(ts[i], mem)
  {
    if i < |ts| - 1 {
      ChildShown(ts[..|ts| - 1], i, mem);
    }
  }

  ghost predicate Grows(mem: Memory, more: Memory) {
    && (forall o :: o in mem.services ==> o in more.services && more.services[o] == mem.services[o])
    && (forall a :: a in mem.slices ==> a in more.slices && more.slices[a] == mem.slices[a])
  }

  /** A picture stays right, and its value the same, in a larger memory. */
  lemma {:induction false} ShownGrows(t: Tree, mem: Memory, more: Memory)
    requires Shown(t, mem) && Grows(mem, more)
    ensures Shown(t, more) && RuleValue(t, more) == RuleValue(t, mem)
    decreases t, 1
  {
    AllShownGrows(t.below, mem, more);
  }

  lemma {:induction false} AllShownGrows(ts: seq<Tree>, mem: Memory, more: Memory)
    requires ShownAll(ts, mem) && Grows(mem, more)
    ensures ShownAll(ts, more) && RuleValues(ts, more) == RuleValues(ts, mem)
    decreases ts, 0
  {
    if ts != [] {
      AllShownGrows(ts[..|ts| - 1], mem, more);
      ShownGrows(ts[|ts| - 1], mem, more);
    }
  }

  // ---- DeepCopy ----

  /** The same value in another memory, with nil slices in the same places. */
  ghost predicate IsCopy(t: Tree, mem: Memory, copy: Tree, made: Memory) {
    && Shown(t, mem) && Shown(copy, made)
    && RuleValue(copy, made) == RuleValue(t, mem)
    && SameNils(copy, t)
  }

  ghost predicate AreCopies(ts: seq<Tree>, mem: Memory, copies: seq<Tree>, made: Memory) {
    |copies| == |ts| && forall i :: 0 <= i < |ts| ==> IsCopy(ts[i], mem, copies[i], made)
  }

  lemma CopiesGrow(ts: seq<Tree>, mem: Memory, copies: seq<Tree>, made: Memory, more: Memory)
    requires AreCopies(ts, mem, copies, made) && Grows(made, more)
    ensures AreCopies(ts, mem, copies, more)
  {
    forall i | 0 <= i < |ts| ensures IsCopy(ts[i], mem, copies[i], more) {
      ShownGrows(copies[i], made, more);
    }
  }

  function Joined(a: Memory, b: Memory): Memory { Memory(a.services + b.services, a.slices + b.slices) }

  predicate Apart(a: Memory, b: Memory) { a.services.Keys !! b.services.Keys && a.slices.Keys !! b.slices.Keys }

  lemma OneMoreCopy(ts: seq<Tree>, i: nat, mem: Memory, copies: seq<Tree>, made: Memory, child: Tree, more: Memory)
    requires i < |ts| && AreCopies(ts[..i], mem, copies, made) && IsCopy(ts[i], mem, child, more) && Apart(made, more)
    ensures AreCopies(ts[..i + 1], mem, copies + [child], Joined(made, more))
  {
    CopiesGrow(ts[..i], mem, copies, made, Joined(made, more));
    ShownGrows(child, more, Joined(made, more));
    forall j | 0 <= j < i + 1 ensures IsCopy(ts[..i + 1][j], mem, (copies + [child])[j], Joined(made, more)) {
      assert j < i ==> ts[..i + 1][j] == ts[..i][j];
    }
  }

  /** Copies of all the children make a copy of what is below. */
  lemma {:induction false} CopiesTogether(ts: seq<Tree>, mem: Memory, copies: seq<Tree>, made: Memory)
    requires AreCopies(ts, mem, copies, made)
    ensures ShownAll(ts, mem) && ShownAll(copies, made) && RuleValues(copies, made) == RuleValues(ts, mem)
    ensures SameNilsAll(copies, ts)
    decreases |ts|
  {
    if ts != [] {
      var n := |ts| - 1;
      assert IsCopy(ts[n], mem, copies[n], made);
      CopiesTogether(ts[..n], mem, copies[..n], made);
    }
  }

  /** No object or slice of the memory existed before. */
  twostate predicate AllNew(new mem: Memory) { fresh(mem.services.Keys) && fresh(mem.slices.Keys) }

  /** RuleSpec.DeepCopyInto: new service objects and new slices all the way down, with the same contents. */
  method DeepCopyRule(r: RuleSpec, ghost t: Tree, ghost mem: Memory)
    returns (copy: RuleSpec, ghost picture: Tree, ghost made: Memory)
    requires t.rule == r && Shown(t, mem) && Stands(mem)
    ensures copy.kind == r.kind
    ensures if r.service == null then copy.service == null
      else copy.service != null && fresh(copy.service) && copy.service.Value() == r.service.Value()
    ensures if r.children == null then copy.children == null
      else copy.children != null && fresh(copy.children) && copy.children.Length == r.children.Length
    ensures picture.rule == copy && IsCopy(t, mem, picture, made)
    ensures AllNew(made) && Stands(made)
    decreases t, 3
  {
    var service: ServiceObject? := null;
    var slice: array?<RuleSpec> := null;
    ghost var below: seq<Tree> := [];
    made := Memory(map[], map[]);
    if r.children != null {
      slice, below, made := DeepCopySlice(r.children, t.below, mem);
      CopiesTogether(t.below, mem, below, made);
    }
    if r.service != null {
      service := new ServiceObject(r.service.name, r.service.ns, r.service.port);
      ghost var more := made.(services := made.services[service := mem.services[r.service]]);
      AllShownGrows(below, made, more);
      made := more;
    }
    copy := RuleSpec(r.kind, service, slice);
    picture := Tree(copy, below);
  }

  /** The slice is made first and then filled element by element. */
  method DeepCopySlice(rs: array<RuleSpec>, ghost ts: seq<Tree>, ghost mem: Memory)
    returns (slice: array<RuleSpec>, ghost copies: seq<Tree>, ghost made: Memory)
    requires rs in mem.slices && Filling(mem.slices[rs], ts) && ShownAll(ts, mem) && Stands(mem)
    ensures fresh(slice) && slice.Length == rs.Length
    ensures AreCopies(ts, mem, copies, made)
    ensures slice in made.slices && Filling(made.slices[slice], copies)
    ensures AllNew(made) && Stands(made)
    decreases ts, 2
  {
    slice := new RuleSpec[rs.Length](_ => RuleSpec("", null, null));
    copies, made := FillSlice(rs, slice, ts, mem);
    ghost var all := made.(slices := made.slices[slice := slice[..]]);
    CopiesGrow(ts, mem, copies, made, all);
    made := all;
  }

  method FillSlice(rs: array<RuleSpec>, slice: array<RuleSpec>, ghost ts: seq<Tree>, ghost mem: Memory)
    returns (ghost copies: seq<Tree>, ghost made: Memory)
    requires rs in mem.slices && Filling(mem.slices[rs], ts) && ShownAll(ts, mem) && Stands(mem)
    requires slice.Length == rs.Length && slice !in mem.slices
    modifies slice
    ensures AreCopies(ts, mem, copies, made) && Filling(slice[..], copies)
    ensures AllNew(made) && Stands(made)
    decreases ts, 1
  {
    copies, made := [], Memory(map[], map[]);
    for i := 0 to rs.Length
      invariant AreCopies(ts[..i], mem, copies, made)
      invariant fresh(made.services.Keys) && fresh(made.slices.Keys) && Stands(made)
      invariant |copies| == i && forall j :: 0 <= j < i ==> slice[j] == copies[j].rule
    {
      ghost var picture, more;
      picture, more := DeepCopyElement(rs, slice, i, ts, mem);
      OneMoreCopy(ts, i, mem, copies, made, picture, more);
      copies, made := copies + [picture], Joined(made, more);
    }
    assert ts[..|ts|] == ts;
  }

  /** One element: (*in)[i].DeepCopyInto(&(*out)[i]). */
  method DeepCopyElement(rs: array<RuleSpec>, slice: array<RuleSpec>, i: nat, ghost ts: seq<Tree>, ghost mem: Memory)
    returns (ghost picture: Tree, ghost made: Memory)
    requires rs in mem.slices && Filling(mem.slices[rs], ts) && ShownAll(ts, mem) && Stands(mem)
    requires i < rs.Length == slice.Length && slice !in mem.slices
    modifies slice
    ensures slice[i] == picture.rule && forall j :: 0 <= j < slice.Length && j != i ==> slice[j] == old(slice[j])
    ensures i < |ts| && IsCopy(ts[i], mem, picture, made)
    ensures AllNew(made) && Stands(made)
    decreases ts, 0
  {
    ChildShown(ts, i, mem);
    assert rs[i] == mem.slices[rs][i];
    var child;
    child, picture, made := DeepCopyRule(rs[i], ts[i], mem);
    slice[i] := child;
  }

  // ---- ApplyDefaults ----

  /** The service objects of a rule at every depth. */
  function Objects(t: Tree): set<ServiceObject>
    decreases t, 1
  {
    (if t.rule.service == null then {} else {t.rule.service}) + ObjectsOf(t.below)
  }

  function ObjectsOf(ts: seq<Tree>): set<ServiceObject>
    decreases ts, 0
  {
    if ts == [] then {} else ObjectsOf(ts[..|ts| - 1]) + Objects(ts[|ts| - 1])
  }

  lemma {:induction false} ObjectsOfChild(ts: seq<Tree>, i: nat)
    requires i < |ts|
    ensures Objects(ts[i]) <= ObjectsOf(ts)
  {
    if i < |ts| - 1 {
      ObjectsOfChild(ts[..|ts| - 1], i);
    }
  }

  /** The memory after the services in `objects` are defaulted; slices stay as they are. */
  ghost function Filled(mem: Memory, objects: set<ServiceObject>, ns: string): Memory {
    mem.(services := map o | o in mem.services ::
      if o in objects then mem.services[o].(ns := OrElse(mem.services[o].ns, ns)) else mem.services[o])
  }

  lemma FilledTwice(mem: Memory, a: set<ServiceObject>, b: set<ServiceObject>, ns: string)
    ensures Filled(Filled(mem, a, ns), b, ns) == Filled(mem, a + b, ns)
  {
  }

  /** In values: services are filled at every depth, kinds stay. */
  lemma {:induction false} FilledValue(t: Tree, mem: Memory, objects: set<ServiceObject>, ns: string)
    requires Shown(t, mem)
    ensures Shown(t, Filled(mem, objects, ns))
    ensures Objects(t) <= objects ==> RuleValue(t, Filled(mem, objects, ns)) == DefaultChild(RuleValue(t, mem), ns)
    decreases t, 1
  {
    FilledValues(t.below, mem, objects, ns);
  }

  lemma {:induction false} FilledValues(ts: seq<Tree>, mem: Memory, objects: set<ServiceObject>, ns: string)
    requires ShownAll(ts, mem)
    ensures ShownAll(ts, Filled(mem, objects, ns))
    ensures ObjectsOf(ts) <= objects ==>
      RuleValues(ts, Filled(mem, objects, ns)) == DefaultChildren(RuleValues(ts, mem), ns)
    decreases ts, 0
  {
    if ts != [] {
      var n := |ts| - 1;
      FilledValues(ts[..n], mem, objects, ns);
      FilledValue(ts[n], mem, objects, ns);
      var before := RuleValues(ts, mem);
      assert before[..n] == RuleValues(ts[..n], mem) && before[n] == RuleValue(ts[n], mem);
    }
  }

  lemma {:induction false} ObjectsInMemory(t: Tree, mem: Memory)
    requires Shown(t, mem)
    ensures Objects(t) <= mem.services.Keys
    decreases t, 1
  {
    AllObjectsInMemory(t.below, mem);
  }

  lemma {:induction false} AllObjectsInMemory(ts: seq<Tree>, mem: Memory)
    requires ShownAll(ts, mem)
    ensures ObjectsOf(ts) <= mem.services.Keys
    decreases ts, 0
  {
    if ts != [] {
      AllObjectsInMemory(ts[..|ts| - 1], mem);
      ObjectsInMemory(ts[|ts| - 1], mem);
    }
  }

  /**
   RuleSpec.ApplyDefaults.  The receiver goes in and comes out: the caller that holds the
   real field stores it; the loop over the children, which works on a copy, drops it.  The
   service behind the copied pointer is shared, so what happens to it stays.  No slice is
   written.
   */
  method ApplyRuleDefaults(r: RuleSpec, ns: string, ghost t: Tree, ghost mem: Memory) returns (receiver: RuleSpec)
    requires t.rule == r && Shown(t, mem) && Stands(mem)
    modifies Objects(t)
    ensures receiver == r.(kind := OrElse(r.kind, SHARDED))
    ensures Stands(Filled(mem, Objects(t), ns))
    decreases t, 1
  {
    receiver := r;
    if receiver.kind == "" {
      receiver := receiver.(kind := SHARDED);
    }
    ghost var done: set<ServiceObject> := {};
    if r.service != null {
      r.service.ApplyDefaults(ns);
      done := {r.service};
    }
    if r.children != null {
      FilledValues(t.below, mem, done, ns);
      ApplyChildDefaults(r.children, ns, t.below, Filled(mem, done, ns));
    }
    FilledTwice(mem, done, ObjectsOf(t.below), ns);
  }

  /** The loop over the children, each a copy whose service pointer is shared. */
  method ApplyChildDefaults(rs: array<RuleSpec>, ns: string, ghost ts: seq<Tree>, ghost mem: Memory)
    requires rs in mem.slices && Filling(mem.slices[rs], ts) && ShownAll(ts, mem) && Stands(mem)
    modifies ObjectsOf(ts)
    ensures Stands(Filled(mem, ObjectsOf(ts), ns))
    decreases ts, 0
  {
    ghost var done: set<ServiceObject> := {};
    for i := 0 to rs.Length
      invariant done == ObjectsOf(ts[..i])
      invariant Stands(Filled(mem, done, ns))
    {
      ObjectsOfChild(ts, i);
      ghost var now := Filled(mem, done, ns);
      assert rs[..] == now.slices[rs];
      FilledValues(ts, mem, done, ns);
      ChildShown(ts, i, now);
      var copy := rs[i];
      copy := ApplyRuleDefaults(copy, ns, ts[i], now);
      FilledTwice(mem, done, Objects(ts[i]), ns);
      done := done + Objects(ts[i]);
      assert ts[..i + 1][..i] == ts[..i];
    }
    assert ts[..|ts|] == ts;
  }

  /** The picture after the root's own type is defaulted. */
  function Rooted(t: Tree): Tree { t.(rule := t.rule.(kind := OrElse(t.rule.kind, SHARDED))) }

  lemma RootFilled(t: Tree, mem: Memory, ns: string)
    requires Shown(t, mem)
    ensures Shown(Rooted(t), Filled(mem, Objects(t), ns))
    ensures RuleValue(Rooted(t), Filled(mem, Objects(t), ns)) == DefaultRule(RuleValue(t, mem), ns)
  {
    FilledValue(t, mem, Objects(t), ns);
  }

  lemma NilsThroughRoot(t: Tree, copied: Tree)
    requires SameNils(copied, t)
    ensures SameNils(t, Rooted(copied))
  {
    NilsSymmetric(copied.below, t.below);
  }

  lemma {:induction false} NilsSymmetric(a: seq<Tree>, b: seq<Tree>)
    requires SameNilsAll(a, b)
    ensures SameNilsAll(b, a)
  {
    if a != [] {
      NilsSymmetric(a[..|a| - 1], b[..|b| - 1]);
      NilsSymmetric(a[|a| - 1].below, b[|b| - 1].below);
    }
  }

  // ---- Deep equality ----

  /** reflect.DeepEqual on rules: through pointers and slices, not of them. */
  method EqualRules(a: RuleSpec, b: RuleSpec, ghost ta: Tree, ghost tb: Tree, ghost ma: Memory, ghost mb: Memory)
    returns (equal: bool)
    requires ta.rule == a && Shown(ta, ma) && Stands(ma)
    requires tb.rule == b && Shown(tb, mb) && Stands(mb)
    ensures equal <==> RuleValue(ta, ma) == RuleValue(tb, mb) && SameNils(ta, tb)
    decreases ta, 1
  {
    if a.kind != b.kind || (a.service == null) != (b.service == null) || (a.children == null) != (b.children == null) {
      return false;
    }
    if a.service != null
      && (a.service.name != b.service.name || a.service.ns != b.service.ns || a.service.port != b.service.port) {
      return false;
    }
    if a.children == null {
      return true;
    }
    equal := EqualSlices(a.children, b.children, ta.below, tb.below, ma, mb);
  }

  method EqualSlices(
    a: array<RuleSpec>, b: array<RuleSpec>, ghost ta: seq<Tree>, ghost tb: seq<Tree>, ghost ma: Memory, ghost mb: Memory)
    returns (equal: bool)
    requires a in ma.slices && Filling(ma.slices[a], ta) && ShownAll(ta, ma) && Stands(ma)
    requires b in mb.slices && Filling(mb.slices[b], tb) && ShownAll(tb, mb) && Stands(mb)
    ensures equal <==> RuleValues(ta, ma) == RuleValues(tb, mb) && SameNilsAll(ta, tb)
    decreases ta, 0
  {
    assert a[..] == ma.slices[a] && b[..] == mb.slices[b];
    if a.Length != b.Length {
      return false;
    }
    NilsAt(ta, tb);
    for i := 0 to a.Length
      invariant forall j :: 0 <= j < i ==> RuleValues(ta, ma)[j] == RuleValues(tb, mb)[j] && SameNils(ta[j], tb[j])
    {
      ChildShown(ta, i, ma);
      ChildShown(tb, i, mb);
      var same := EqualRules(a[i], b[i], ta[i], tb[i], ma, mb);
      if !same {
        return false;
      }
    }
    return true;
  }

  lemma {:induction false} NilsAt(a: seq<Tree>, b: seq<Tree>)
    requires |a| == |b|
    ensures SameNilsAll(a, b) <==> forall i :: 0 <= i < |a| ==> SameNils(a[i], b[i])
  {
    if a != [] {
      NilsAt(a[..|a| - 1], b[..|b| - 1]);
    }
  }

  // ---- mcrouter settings ----

  /** No object of the settings existed before. */
  twostate predicate NewSettings(new m: McRouterSpec) {
    && (m.limits != null ==> fresh(m.limits)) && (m.requests != null ==> fresh(m.requests))
    && (m.port != null ==> fresh(m.port)) && (m.security != null ==> fresh(m.security))
  }

  /** Each object of the later settings is one of the earlier ones in the same place, or new. */
  twostate predicate KeptOrNew(m: McRouterSpec, new later: McRouterSpec) {
    && later.limits == m.limits && later.requests == m.requests
    && (later.port == m.port || fresh(later.port)) && (later.security == m.security || fresh(later.security))
  }

  function SettingsValue(m: McRouterSpec): McRouter
    reads m.limits, m.requests, m.port, m.security
  {
    McRouter(
      m.image, Entries(m.limits), Entries(m.requests), if m.port == null then None else Some(m.port.value),
      if m.security == null then None else Some(m.security.value), m.statsRoot)
  }

  function Entries(m: MapObject?): Quantities
    reads m
  {
    if m == null then None else Some(m.value)
  }

  method DeepCopyMap(m: MapObject?) returns (copy: MapObject?)
    ensures copy != null ==> fresh(copy)
    ensures Entries(copy) == Entries(m)
  {
    copy := null;
    if m != null {
      copy := new MapObject(m.value);
    }
  }

  /** McRouterSpec.DeepCopyInto. */
  method DeepCopySettings(m: McRouterSpec) returns (copy: McRouterSpec)
    ensures NewSettings(copy)
    ensures SettingsValue(copy) == SettingsValue(m)
  {
    copy := m;
    var limits := DeepCopyMap(m.limits);
    var requests := DeepCopyMap(m.requests);
    copy := copy.(limits := limits, requests := requests);
    if m.port != null {
      var port := new IntObject(m.port.value);
      copy := copy.(port := port);
    }
    if m.security != null {
      var security := new SecurityObject(m.security.value);
      copy := copy.(security := security);
    }
  }

  /** McRouterSpec.ApplyDefaults: missing objects are made, existing ones stay as they are. */
  method ApplySettingsDefaults(m: McRouterSpec) returns (receiver: McRouterSpec)
    ensures KeptOrNew(m, receiver)
    ensures SettingsValue(receiver) == DefaultMcRouter(SettingsValue(m))
  {
    receiver := m;
    if receiver.image == "" {
      receiver := receiver.(image := IMAGE);
    }
    if receiver.port == null {
      var port := new IntObject(PORT);
      receiver := receiver.(port := port);
    }
    if receiver.statsRoot == "" {
      receiver := receiver.(statsRoot := STATS_ROOT);
    }
    if receiver.security == null {
      var security := new SecurityObject(SECURITY);
      receiver := receiver.(security := security);
    }
  }

  method EqualSettings(a: McRouterSpec, b: McRouterSpec) returns (equal: bool)
    ensures equal <==> SettingsValue(a) == SettingsValue(b)
  {
    equal := a.image == b.image && a.statsRoot == b.statsRoot
      && Entries(a.limits) == Entries(b.limits) && Entries(a.requests) == Entries(b.requests)
      && (a.port == null) == (b.port == null) && (a.port != null ==> a.port.value == b.port.value)
      && (a.security == null) == (b.security == null)
      && (a.security != null ==> a.security.value == b.security.value);
  }

  // ---- The proxy ----

  class MemcachedProxy {
    const ns: string
    var generation: int
    var observed: int
    var rules: RuleSpec
    var mcrouter: McRouterSpec
    /** A picture of the rules, and what their service objects and slices hold, at every depth. */
    ghost var tree: Tree
    ghost var mem: Memory

    ghost predicate Valid()
      reads this, mem.services.Keys, mem.slices.Keys
    {
      tree.rule == rules && Shown(tree, mem) && Stands(mem)
    }

    constructor (
      ns: string, generation: int, observed: int, rules: RuleSpec, mcrouter: McRouterSpec,
      ghost tree: Tree, ghost mem: Memory)
      requires tree.rule == rules && Shown(tree, mem) && Stands(mem)
      ensures Valid()
      ensures this.ns == ns && this.generation == generation && this.observed == observed
      ensures this.rules == rules && this.mcrouter == mcrouter && this.tree == tree && this.mem == mem
    {
      this.ns, this.generation, this.observed, this.rules, this.mcrouter := ns, generation, observed, rules, mcrouter;
      this.tree, this.mem := tree, mem;
    }

    /**
     The mutable objects a valid proxy reaches, at any depth, are itself, the service objects
     and slices of `mem` and the objects of its settings.
     */
    ghost function Value(): Version
      reads this, mem.services.Keys, mem.slices.Keys
      reads mcrouter.limits, mcrouter.requests, mcrouter.port, mcrouter.security
      requires Valid()
    {
      Version(ns, generation, observed, Spec(RuleValue(tree, mem), SettingsValue(mcrouter)))
    }

    /** A copy with the same value that shares no object and no slice with the original at any depth. */
    method DeepCopy() returns (copy: MemcachedProxy)
      requires Valid()
      ensures fresh(copy) && AllNew(copy.mem) && NewSettings(copy.mcrouter)
      ensures copy.Valid() && copy.Value() == old(Value()) && SameNils(copy.tree, tree)
    {
      var newRules;
      ghost var picture, made;
      newRules, picture, made := DeepCopyRule(rules, tree, mem);
      var settings := DeepCopySettings(mcrouter);
      copy := new MemcachedProxy(ns, generation, observed, newRules, settings, picture, made);
    }

    method ApplyDefaults()
      requires Valid()
      modifies this`rules, this`mcrouter, this`tree, this`mem, mem.services.Keys
      ensures Valid()
      ensures Value() == old(Value()).(spec := DefaultSpec(old(Value()).spec, ns))
      ensures tree == Rooted(old(tree)) && mem == Filled(old(mem), Objects(old(tree)), ns)
      ensures KeptOrNew(old(mcrouter), mcrouter)
    {
      DefaultSettings();
      ghost var settings := SettingsValue(mcrouter);
      DefaultRules();
      assert SettingsValue(mcrouter) == settings;
    }

    method DefaultSettings()
      requires Valid()
      modifies this`mcrouter
      ensures Valid() && SettingsValue(mcrouter) == DefaultMcRouter(old(SettingsValue(mcrouter)))
      ensures KeptOrNew(old(mcrouter), mcrouter)
    {
      mcrouter := ApplySettingsDefaults(mcrouter);
    }

    method DefaultRules()
      requires Valid()
      modifies this`rules, this`tree, this`mem, mem.services.Keys
      ensures Valid()
      ensures RuleValue(tree, mem) == DefaultRule(old(RuleValue(tree, mem)), ns)
      ensures tree == Rooted(old(tree)) && mem == Filled(old(mem), Objects(old(tree)), ns)
    {
      RootFilled(tree, mem, ns);
      ObjectsInMemory(tree, mem);
      var receiver := ApplyRuleDefaults(rules, ns, tree, mem);
      rules, tree, mem := receiver, Rooted(tree), Filled(mem, Objects(tree), ns);
    }

    method UpdateStatus()
      requires Valid()
      modifies this`observed
      ensures Valid() && Value() == old(Value()).(observed := generation)
    {
      observed := generation;
    }

    /** reflect.DeepEqual on spec and status. */
    method SameSpecAndStatus(other: MemcachedProxy) returns (same: bool)
      requires Valid() && other.Valid()
      ensures same <==>
        && Value().spec == other.Value().spec && SameNils(tree, other.tree) && Value().observed == other.Value().observed
    {
      var sameRules := EqualRules(rules, other.rules, tree, other.tree, mem, other.mem);
      var sameSettings := EqualSettings(mcrouter, other.mcrouter);
      same := sameRules && sameSettings && observed == other.observed;
    }

    /** Defaults and status together. */
    method Refresh()
      requires Valid()
      modifies this, mem.services.Keys
      ensures Valid() && Value() == Synced(old(Value()))
      ensures tree == Rooted(old(tree)) && mem == Filled(old(mem), Objects(old(tree)), ns)
      ensures KeptOrNew(old(mcrouter), mcrouter)
    {
      ApplyDefaults();
      UpdateStatus();
    }

    /** The version the controller wants, built apart from the cached one. */
    method Wanted() returns (copy: MemcachedProxy)
      requires Valid()
      ensures fresh(copy) && AllNew(copy.mem) && NewSettings(copy.mcrouter)
      ensures copy.Valid() && copy.Value() == Synced(old(Value())) && SameNils(tree, copy.tree)
    {
      copy := DeepCopy();
      ghost var copied := copy.tree;
      copy.Refresh();
      NilsThroughRoot(tree, copied);
    }

    /**
     syncHandler of the proxy controller on the cached object: what it would send to the API
     server, if anything.  It modifies nothing the cache holds, so the comparison is
     between the version that was read and the version that is wanted.
     */
    method SyncHandler() returns (update: MemcachedProxy?)
      requires Valid()
      ensures update == null <==> Synced(Value()) == Value()
      ensures update == null <==> observed == generation && DefaultSpec(Value().spec, ns) == Value().spec
      ensures update != null ==> update.ns == ns && update.generation == generation && update.observed == generation
      ensures update != null ==>
        && fresh(update) && AllNew(update.mem) && NewSettings(update.mcrouter)
        && update.Valid() && update.Value() == Synced(Value())
    {
      update := Wanted();
      var same := SameSpecAndStatus(update);
      if same {
        update := null;
      }
    }
  }
}
