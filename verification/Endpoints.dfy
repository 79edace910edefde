/** Which proxies an Endpoints event wakes: internal/controller/proxyconfigmap/endpoints.go. */
module Endpoints {
  import opened Wrappers
  import opened Names
  import opened Rules
  import opened Pools
  import opened Routes

  datatype EndpointsObject = EndpointsObject(key: Key, version: string, subsets: seq<Subset>)

  /** What a delete handler may be given: the object, a tombstone around something, or anything else. */
  datatype Deleted = Live(ep: EndpointsObject) | Tombstone(inner: Deleted) | Alien

  // ---- Keys ----

  predicate NoSlash(s: string) { Lacks(s, '/') }

  /** Kubernetes namespaces and names are labels in the sense of section 2.1 of RFC 1123. */
  predicate ApiKey(k: Key) { k.ns != "" && NoSlash(k.ns) && NoSlash(k.name) }

  /** cache.MetaNamespaceKeyFunc. */
  function KeyText(k: Key): string { if k.ns == "" then k.name else k.ns + "/" + k.name }

  /** cache.SplitMetaNamespaceKey, the first thing every sync handler does with a key from the queue. */
  function SplitKey(text: string): Option<Key> {
    var parts := Split(text, '/');
    if |parts| == 1 then Some(Key("", parts[0]))
    else if |parts| == 2 then Some(Key(parts[0], parts[1]))
    else None
  }

  /** A queued key is taken apart into the object it was made for. */
  lemma SplitBack(k: Key)
    requires NoSlash(k.ns) && NoSlash(k.name)
    ensures SplitKey(KeyText(k)) == Some(k)
  {
    SplitOne(k.name, '/');
    if k.ns != "" {
      SplitMore(k.ns, k.name, '/');
      assert KeyText(k) == k.ns + ['/'] + k.name;
    }
  }

  /** A text with two or more slashes is no key. */
  lemma SplitFails(a: string, b: string, c: string)
    requires NoSlash(a) && NoSlash(b)
    ensures SplitKey(a + "/" + b + "/" + c) == None
  {
    SplitMore(b, c, '/');
    SplitMore(a, b + ['/'] + c, '/');
    assert a + "/" + b + "/" + c == a + ['/'] + (b + ['/'] + c);
  }

  /** The key under which serviceSpecsForRule files a service. */
  function Ref(s: ServiceSpec): string { s.ns + "/" + s.name }

  lemma {:induction false} SlashSplits(a: string, b: string, c: string, d: string)
    requires a + "/" + b == c + "/" + d && NoSlash(a) && NoSlash(b)
    ensures a == c && b == d
  {
    var s := a + "/" + b;
    assert s[|c|] == '/';
    assert forall i :: 0 <= i < |s| && i != |a| ==> s[i] != '/';
    assert a == s[..|a|] == c && b == s[|a| + 1..] == d;
  }

  // ---- The services of a rule, filed by reference ----

  /** Filing services in order: the last one under a reference stays. */
  function File(services: seq<ServiceSpec>): map<string, ServiceSpec> {
    if services == [] then map[]
    else
      var last := services[|services| - 1];
      File(services[..|services| - 1])[Ref(last) := last]
  }

  lemma {:induction false} FileMore(a: seq<ServiceSpec>, b: seq<ServiceSpec>)
    ensures File(a + b) == File(a) + File(b)
    decreases |b|
  {
    if b == [] {
      assert a + b == a;
    } else {
      assert (a + b)[..|a + b| - 1] == a + b[..|b| - 1];
      FileMore(a, b[..|b| - 1]);
    }
  }

  lemma {:induction false} FileHolds(services: seq<ServiceSpec>)
    ensures forall ref :: ref in File(services) ==> File(services)[ref] in services && Ref(File(services)[ref]) == ref
    ensures forall s :: s in services ==> Ref(s) in File(services)
  {
    if services != [] {
      var front, last := services[..|services| - 1], services[|services| - 1];
      FileHolds(front);
      assert services == front + [last];
    }
  }

  lemma {:induction false} ServicesOfMore(a: seq<Rule>, b: seq<Rule>)
    ensures ServicesOf(a + b) == ServicesOf(a) + ServicesOf(b)
  {
    if a == [] {
      assert a + b == b;
    } else {
      assert (a + b)[1..] == a[1..] + b;
      ServicesOfMore(a[1..], b);
    }
  }

  lemma ServicesOfOne(r: Rule)
    ensures ServicesOf([r]) == Services(r)
  {
    assert ServicesOf([r]) == Services(r) + ServicesOf([]);
  }

  /** serviceSpecsForRule.  Ranging over a map visits its keys in any order. */
  method ServiceSpecsForRule(r: Rule) returns (result: map<string, ServiceSpec>)
    ensures result == File(Services(r))
    decreases r
  {
    result := map[];
    if r.service.Some? {
      result := result[Ref(r.service.value) := r.service.value];
      assert Services(r)[..0] == [];
      return;
    }
    for i := 0 to |r.children|
      invariant result == File(ServicesOf(r.children[..i]))
    {
      var services := ServiceSpecsForRule(r.children[i]);
      result := Merge(result, services);
      FileMore(ServicesOf(r.children[..i]), Services(r.children[i]));
      ServicesOfMore(r.children[..i], [r.children[i]]);
      ServicesOfOne(r.children[i]);
      assert r.children[..i + 1] == r.children[..i] + [r.children[i]];
    }
    assert r.children[..|r.children|] == r.children;
  }

  lemma MergeStep(into: map<string, ServiceSpec>, from: map<string, ServiceSpec>, todo: set<string>, k: string)
    requires k in todo && k in from
    ensures into + (map x | x in from && x !in todo - {k} :: from[x])
      == (into + map x | x in from && x !in todo :: from[x])[k := from[k]]
  {
  }

  method Merge(into: map<string, ServiceSpec>, from: map<string, ServiceSpec>) returns (result: map<string, ServiceSpec>)
    ensures result == into + from
  {
    result := into;
    var todo := from.Keys;
    while todo != {}
      invariant todo <= from.Keys
      invariant result == into + map k | k in from && k !in todo :: from[k]
      decreases |todo|
    {
      var k :| k in todo;
      MergeStep(into, from, todo, k);
      result := result[k := from[k]];
      todo := todo - {k};
    }
    assert (map k | k in from && k !in todo :: from[k]) == from;
  }

  /** `services` holds the services filed for the rule. */
  ghost predicate ListsServices(services: seq<ServiceSpec>, r: Rule) {
    forall s :: s in services <==> s in File(Services(r)).Values
  }

  /** getProxyServiceSpecs: a slice as long as the map, filled in the order of the iteration. */
  method GetProxyServiceSpecs(r: Rule) returns (services: seq<ServiceSpec>)
    ensures |services| == |File(Services(r))|
    ensures ListsServices(services, r)
  {
    var filed := ServiceSpecsForRule(r);
    var slice := new ServiceSpec[|filed|];
    var todo, index := filed.Keys, 0;
    while todo != {}
      invariant todo <= filed.Keys && index + |todo| == |filed.Keys| == |filed|
      invariant forall i :: 0 <= i < index ==> slice[i] in filed.Values
      invariant forall k :: k in filed && k !in todo ==> exists i :: 0 <= i < index && slice[i] == filed[k]
      decreases |todo|
    {
      var k :| k in todo;
      ghost var before := slice[..index];
      slice[index] := filed[k];
      assert forall i :: 0 <= i < index ==> slice[i] == before[i];
      forall k' | k' in filed && k' !in todo - {k} ensures exists i :: 0 <= i < index + 1 && slice[i] == filed[k'] {
        if k' == k {
          assert slice[index] == filed[k'];
        } else {
          var i :| 0 <= i < index && before[i] == filed[k'];
          assert slice[i] == filed[k'];
        }
      }
      todo := todo - {k};
      index := index + 1;
    }
    services := slice[..];
    assert forall i :: 0 <= i < |services| ==> services[i] == slice[i];
  }

  // ---- Affected proxies ----

  /** A service of the rule has the namespace and name of the endpoints object. */
  predicate Refers(r: Rule, ep: Key) {
    exists i :: 0 <= i < |Services(r)| && Key(Services(r)[i].ns, Services(r)[i].name) == ep
  }

  /** The lister of one namespace, or of all namespaces when the name is empty. */
  predicate Watched(ns: string, k: Key) { ns == "" || k.ns == ns }

  /** Exactly the keys of watched proxies with a reachable service named like `ep`. */
  ghost function Affected(ns: string, proxies: map<Key, Rule>, ep: Key): set<string> {
    set k | k in proxies && Watched(ns, k) && Refers(proxies[k], ep) :: KeyText(k)
  }

  lemma KeyTextIsInjective(k: Key, k': Key)
    requires ApiKey(k) && ApiKey(k') && KeyText(k) == KeyText(k')
    ensures k == k'
  {
    SplitBack(k);
    SplitBack(k');
  }

  /** A proxy's key is among the affected ones if and only if that proxy itself refers to the object. */
  lemma AffectedIff(ns: string, proxies: map<Key, Rule>, ep: Key, k: Key)
    requires k in proxies && forall p :: p in proxies ==> ApiKey(p)
    ensures KeyText(k) in Affected(ns, proxies, ep) <==> Watched(ns, k) && Refers(proxies[k], ep)
  {
    if KeyText(k) in Affected(ns, proxies, ep) {
      var p :| p in proxies && Watched(ns, p) && Refers(proxies[p], ep) && KeyText(p) == KeyText(k);
      KeyTextIsInjective(p, k);
    }
  }

  /** The handlers find exactly the watched proxies with a service of the object's namespace and name. */
  ghost predicate Wakes(ns: string, proxies: map<Key, Rule>, ep: Key, keys: set<string>) {
    && (forall text :: text in keys ==> SplitKey(text).Some? && SplitKey(text).value in proxies)
    && forall k :: k in proxies ==>
      (KeyText(k) in keys <==>
        && (ns == "" || k.ns == ns)
        && exists i | 0 <= i < |Services(proxies[k])| ::
          Services(proxies[k])[i].ns == ep.ns && Services(proxies[k])[i].name == ep.name)
  }

  lemma AffectedWakes(ns: string, proxies: map<Key, Rule>, ep: Key)
    requires forall p :: p in proxies ==> ApiKey(p)
    ensures Wakes(ns, proxies, ep, Affected(ns, proxies, ep))
  {
    forall text | text in Affected(ns, proxies, ep) ensures SplitKey(text).Some? && SplitKey(text).value in proxies {
      var k :| k in proxies && Watched(ns, k) && Refers(proxies[k], ep) && KeyText(k) == text;
      SplitBack(k);
    }
    forall k | k in proxies
      ensures KeyText(k) in Affected(ns, proxies, ep) <==> Watched(ns, k) && Refers(proxies[k], ep)
    {
      AffectedIff(ns, proxies, ep, k);
    }
  }

  /** Filing by reference keeps a service named like `ep`, though it may drop others with the same name. */
  lemma FiledIffRefers(r: Rule, ep: Key, filed: seq<ServiceSpec>)
    requires NoSlash(ep.ns) && NoSlash(ep.name)
    requires ListsServices(filed, r)
    ensures (exists i :: 0 <= i < |filed| && Key(filed[i].ns, filed[i].name) == ep) <==> Refers(r, ep)
  {
    var file := File(Services(r));
    FileHolds(Services(r));
    if Refers(r, ep) {
      var i :| 0 <= i < |Services(r)| && Key(Services(r)[i].ns, Services(r)[i].name) == ep;
      var s := file[Ref(Services(r)[i])];
      SlashSplits(ep.ns, ep.name, s.ns, s.name);
      assert s in file.Values && s in filed;
      var j :| 0 <= j < |filed| && filed[j] == s;
    }
    if i :| 0 <= i < |filed| && Key(filed[i].ns, filed[i].name) == ep {
      assert filed[i] in filed;
      var j :| 0 <= j < |Services(r)| && Services(r)[j] == filed[i];
    }
  }

  /** The services of the given proxies, each list under the text of its proxy's key. */
  ghost predicate Collects(result: map<string, seq<ServiceSpec>>, proxies: map<Key, Rule>, keys: set<Key>)
    requires keys <= proxies.Keys
  {
    && (forall text :: text in result <==> exists k :: k in keys && KeyText(k) == text)
    && (forall k :: k in keys ==> ListsServices(result[KeyText(k)], proxies[k]))
  }

  lemma CollectsMore(
    result: map<string, seq<ServiceSpec>>, proxies: map<Key, Rule>, keys: set<Key>, p: Key, services: seq<ServiceSpec>)
    requires keys <= proxies.Keys && p in proxies && p !in keys && forall k :: k in proxies ==> ApiKey(k)
    requires Collects(result, proxies, keys) && ListsServices(services, proxies[p])
    ensures Collects(result[KeyText(p) := services], proxies, keys + {p})
  {
    forall k | k in keys ensures KeyText(k) != KeyText(p) {
      if KeyText(k) == KeyText(p) {
        KeyTextIsInjective(k, p);
      }
    }
  }

  lemma CollectedKeys(result: map<string, seq<ServiceSpec>>, proxies: map<Key, Rule>, keys: set<Key>)
    requires keys <= proxies.Keys && Collects(result, proxies, keys) && forall k :: k in proxies ==> ApiKey(k)
    ensures forall text :: text in result ==> SplitKey(text).Some? && SplitKey(text).value in proxies
    ensures forall k :: k in proxies ==> (KeyText(k) in result <==> k in keys)
  {
    forall text | text in result ensures SplitKey(text).Some? && SplitKey(text).value in keys {
      var k :| k in keys && KeyText(k) == text;
      SplitBack(k);
    }
    forall k | k in proxies ensures KeyText(k) in result <==> k in keys {
      SplitBack(k);
    }
  }

  lemma FoundIsAffected(
    ns: string, proxies: map<Key, Rule>, ep: Key, all: map<string, seq<ServiceSpec>>, keys: set<string>)
    requires NoSlash(ep.ns) && NoSlash(ep.name) && forall k :: k in proxies ==> ApiKey(k)
    requires Collects(all, proxies, set k | k in proxies && Watched(ns, k))
    requires keys == set key | key in all && Lists(all[key], ep)
    ensures keys == Affected(ns, proxies, ep)
  {
    forall k | k in proxies && Watched(ns, k) ensures Lists(all[KeyText(k)], ep) <==> Refers(proxies[k], ep) {
      FiledIffRefers(proxies[k], ep, all[KeyText(k)]);
    }
    forall key ensures key in keys <==> key in Affected(ns, proxies, ep) {
      if key in all {
        var k :| k in proxies && Watched(ns, k) && KeyText(k) == key;
        AffectedIff(ns, proxies, ep, k);
      }
    }
  }

  /** The controller: what its proxy lister holds, and the keys waiting in its queue. */
  class Controller {
    const ns: string
    var proxies: map<Key, Rule>
    var queue: set<string>

    constructor (ns: string, proxies: map<Key, Rule>)
      ensures this.ns == ns && this.proxies == proxies && queue == {}
    {
      this.ns, this.proxies, queue := ns, proxies, {};
    }

    method GetAllProxyServiceSpecs() returns (result: map<string, seq<ServiceSpec>>)
      requires forall k :: k in proxies ==> ApiKey(k)
      ensures Collects(result, proxies, set k | k in proxies && Watched(ns, k))
      ensures forall text :: text in result ==> SplitKey(text).Some? && SplitKey(text).value in proxies
      ensures forall k :: k in proxies ==> (KeyText(k) in result <==> (ns == "" || k.ns == ns))
    {
      result := map[];
      var lister := proxies;
      var todo := set k | k in lister && Watched(ns, k);
      ghost var done := {};
      while todo != {}
        invariant todo !! done && todo + done == set k | k in lister && Watched(ns, k)
        invariant Collects(result, lister, done)
        decreases |todo|
      {
        var p :| p in todo;
        var services := GetProxyServiceSpecs(lister[p]);
        CollectsMore(result, lister, done, p, services);
        result := result[KeyText(p) := services];
        todo, done := todo - {p}, done + {p};
      }
      CollectedKeys(result, proxies, set k | k in proxies && Watched(ns, k));
    }

    /** getAffectedProxies is exact. */
    method GetAffectedProxies(ep: Key) returns (keys: set<string>)
      requires forall k :: k in proxies ==> ApiKey(k)
      requires NoSlash(ep.ns) && NoSlash(ep.name)
      ensures keys == Affected(ns, proxies, ep)
      ensures Wakes(ns, proxies, ep, keys)
    {
      var all := GetAllProxyServiceSpecs();
      keys := FindKeys(all, ep);
      FoundIsAffected(ns, proxies, ep, all, keys);
      AffectedWakes(ns, proxies, ep);
    }

    /** addEndpoints. */
    method AddEndpoints(ep: EndpointsObject)
      requires forall k :: k in proxies ==> ApiKey(k)
      requires ApiKey(ep.key)
      modifies this`queue
      ensures queue == old(queue) + Woken(ns, proxies, Added(ep))
      ensures exists keys :: Wakes(ns, proxies, ep.key, keys) && queue == old(queue) + keys
    {
      var keys := GetAffectedProxies(ep.key);
      queue := queue + keys;
    }

    /** updateEndpoints. */
    method UpdateEndpoints(before: EndpointsObject, after: EndpointsObject)
      requires forall k :: k in proxies ==> ApiKey(k)
      requires ApiKey(after.key)
      modifies this`queue
      ensures queue == old(queue) + Woken(ns, proxies, Updated(before, after))
      ensures before.version == after.version || before.subsets == after.subsets ==> queue == old(queue)
      ensures before.version != after.version && before.subsets != after.subsets ==>
        exists keys :: Wakes(ns, proxies, after.key, keys) && queue == old(queue) + keys
    {
      AffectedWakes(ns, proxies, after.key);
      if before.version == after.version {
        return;
      }
      if before.subsets != after.subsets {
        AddEndpoints(after);
      }
    }

    /** deleteEndpoints: the object itself, or one level of tombstone around it. */
    method DeleteEndpoints(item: Deleted)
      requires forall k :: k in proxies ==> ApiKey(k)
      requires Final(item).Some? ==> ApiKey(Final(item).value.key)
      modifies this`queue
      ensures queue == old(queue) + Woken(ns, proxies, Removed(item))
      ensures item.Live? ==> exists keys :: Wakes(ns, proxies, item.ep.key, keys) && queue == old(queue) + keys
      ensures item.Tombstone? && item.inner.Live? ==>
        exists keys :: Wakes(ns, proxies, item.inner.ep.key, keys) && queue == old(queue) + keys
      ensures !item.Live? && !(item.Tombstone? && item.inner.Live?) ==> queue == old(queue)
    {
      if item.Live? {
        AddEndpoints(item.ep);
        return;
      }
      if !item.Tombstone? || !item.inner.Live? {
        return;
      }
      AddEndpoints(item.inner.ep);
    }
  }

  predicate Lists(services: seq<ServiceSpec>, ep: Key) {
    exists i :: 0 <= i < |services| && Key(services[i].ns, services[i].name) == ep
  }

  /** The loop over the proxies, in any order, and their services. */
  method FindKeys(all: map<string, seq<ServiceSpec>>, ep: Key) returns (keys: set<string>)
    ensures keys == set key | key in all && Lists(all[key], ep)
  {
    keys := {};
    var todo := all.Keys;
    while todo != {}
      invariant todo <= all.Keys
      invariant keys == set key | key in all && key !in todo && Lists(all[key], ep)
      decreases |todo|
    {
      var key :| key in todo;
      var found := Contains(all[key], ep);
      if found {
        keys := keys + {key};
      }
      todo := todo - {key};
    }
  }

  method Contains(services: seq<ServiceSpec>, ep: Key) returns (found: bool)
    ensures found <==> Lists(services, ep)
  {
    found := false;
    for i := 0 to |services|
      invariant found <==> Lists(services[..i], ep)
    {
      assert services[..i + 1] == services[..i] + [services[i]];
      if services[i].ns == ep.ns && services[i].name == ep.name {
        found := true;
        assert Key(services[..i + 1][i].ns, services[..i + 1][i].name) == ep;
      } else if found {
        var j :| 0 <= j < i && Key(services[..i][j].ns, services[..i][j].name) == ep;
        assert services[..i + 1][j] == services[..i][j];
      }
    }
    assert services[..|services|] == services;
  }

  // ---- Events ----

  datatype Event =
    | Added(ep: EndpointsObject)
    | Updated(before: EndpointsObject, after: EndpointsObject)
    | Removed(item: Deleted)

  function Final(item: Deleted): Option<EndpointsObject> {
    if item.Live? then Some(item.ep)
    else if item.Tombstone? && item.inner.Live? then Some(item.inner.ep)
    else None
  }

  /** The keys an event puts on the queue. */
  ghost function Woken(ns: string, proxies: map<Key, Rule>, e: Event): set<string> {
    match e
    case Added(ep) => Affected(ns, proxies, ep.key)
    case Updated(before, after) =>
      if before.version == after.version || before.subsets == after.subsets then {} else Affected(ns, proxies, after.key)
    case Removed(item) => if Final(item).Some? then Affected(ns, proxies, Final(item).value.key) else {}
  }

  /** An event as the informer reports it for a change from `b` to `b'`; Services stay as they are. */
  ghost predicate Reports(e: Event, b: Backends, b': Backends) {
    && b'.services == b.services
    && match e
       case Added(ep) => b'.endpoints == b.endpoints[ep.key := ep.subsets]
       case Updated(before, after) =>
         && before.key == after.key && after.key in b.endpoints && b.endpoints[after.key] == before.subsets
         && b'.endpoints == b.endpoints[after.key := after.subsets]
         && (before.version == after.version ==> before == after)
       case Removed(item) => Final(item).Some? && b'.endpoints == b.endpoints - {Final(item).value.key}
  }

  /** Two backends that differ at most at one endpoints object resolve every other service alike. */
  lemma ResolveElsewhere(b: Backends, b': Backends, ep: Key, s: ServiceSpec)
    requires b.services == b'.services && b.endpoints - {ep} == b'.endpoints - {ep} && Key(s.ns, s.name) != ep
    ensures Resolve(b, s) == Resolve(b', s)
  {
    var k := Key(s.ns, s.name);
    assert k in b.endpoints <==> k in b.endpoints - {ep};
    assert k in b'.endpoints <==> k in b'.endpoints - {ep};
    assert k in b.endpoints ==> b.endpoints[k] == (b.endpoints - {ep})[k] == b'.endpoints[k];
  }

  /** Soundness: an object no service refers to can change or go without changing the outcome. */
  lemma UnaffectedOutcome(sha: Sha1, b: Backends, b': Backends, r: Rule, ep: Key)
    requires b.services == b'.services && b.endpoints - {ep} == b'.endpoints - {ep} && !Refers(r, ep)
    ensures ConfigFor(sha, b, r) == ConfigFor(sha, b', r)
  {
    if Compile(sha, r).Success? {
      CompilesIffValid(sha, r);
      VisitsWhenValid(r);
      var table := Table(sha, r);
      forall name | name in table ensures Resolve(b, table[name]) == Resolve(b', table[name]) {
        RecordedIsVisited(sha, Services(r), name);
        var i :| 0 <= i < |Services(r)| && Services(r)[i] == table[name];
        ResolveElsewhere(b, b', ep, table[name]);
      }
      SameOutcome(sha, b, b', r);
    }
  }

  lemma SameOutcome(sha: Sha1, b: Backends, b': Backends, r: Rule)
    requires forall name :: name in Table(sha, r) ==> Resolve(b, Table(sha, r)[name]) == Resolve(b', Table(sha, r)[name])
    ensures ConfigFor(sha, b, r) == ConfigFor(sha, b', r)
  {
    SamePools(b, b', Table(sha, r));
  }

  lemma SamePools(b: Backends, b': Backends, table: map<string, ServiceSpec>)
    requires forall name :: name in table ==> Resolve(b, table[name]) == Resolve(b', table[name])
    ensures (forall name :: name in table ==> Resolve(b, table[name]).Some?) <==>
      (forall name :: name in table ==> Resolve(b', table[name]).Some?)
    ensures (forall name :: name in table ==> Resolve(b, table[name]).Some?) ==>
      (map name | name in table :: Resolve(b, table[name]).value) ==
      (map name | name in table :: Resolve(b', table[name]).value)
  {
  }

  lemma {:induction false} RecordedIsVisited(sha: Sha1, visits: seq<ServiceSpec>, name: string)
    requires name in Record(sha, map[], visits)
    ensures Record(sha, map[], visits)[name] in visits
  {
    var front := visits[..|visits| - 1];
    if name in Record(sha, map[], front) {
      RecordedIsVisited(sha, front, name);
    }
  }

  /** An event that leaves a watched proxy asleep leaves its configuration alone. */
  lemma AsleepMeansUnchanged(sha: Sha1, ns: string, proxies: map<Key, Rule>, k: Key, e: Event, b: Backends, b': Backends)
    requires k in proxies && Watched(ns, k) && Reports(e, b, b') && KeyText(k) !in Woken(ns, proxies, e)
    ensures ConfigFor(sha, b, proxies[k]) == ConfigFor(sha, b', proxies[k])
  {
    var ep := match e case Added(ep) => ep.key case Updated(_, after) => after.key case Removed(o) => Final(o).value.key;
    if b != b' {
      assert !Refers(proxies[k], ep);
      assert b.endpoints - {ep} == b'.endpoints - {ep};
      UnaffectedOutcome(sha, b, b', proxies[k], ep);
    }
  }

  /** Events one after the other, with the backends before and after each. */
  ghost predicate History(events: seq<Event>, bs: seq<Backends>) {
    |bs| == |events| + 1 && forall i :: 0 <= i < |events| ==> Reports(events[i], bs[i], bs[i + 1])
  }

  /** Over every history: a watched proxy that no event woke has the configuration it started with. */
  lemma {:induction false} NothingMissed(
    sha: Sha1, ns: string, proxies: map<Key, Rule>, k: Key, events: seq<Event>, bs: seq<Backends>)
    requires k in proxies && Watched(ns, k) && History(events, bs)
    requires forall i :: 0 <= i < |events| ==> KeyText(k) !in Woken(ns, proxies, events[i])
    ensures ConfigFor(sha, bs[0], proxies[k]) == ConfigFor(sha, bs[|events|], proxies[k])
    decreases |events|
  {
    if events != [] {
      var n := |events| - 1;
      NothingMissed(sha, ns, proxies, k, events[..n], bs[..n + 1]);
      AsleepMeansUnchanged(sha, ns, proxies, k, events[n], bs[n], bs[n + 1]);
    }
  }
}
