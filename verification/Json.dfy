/**
 The JSON value a configuration is rendered to (sections 3, 4 and 7 of RFC 8259), and its
 inverse.  Object members are unordered, so an object is a map.
 */
module Json {
  import opened Wrappers
  import opened Names
  import opened Rules
  import opened Pools
  import opened Routes

  datatype Json = JNull | JString(text: string) | JArray(items: seq<Json>) | JObject(fields: map<string, Json>)

  // ---- Encoding ----

  /** StringOrRoute.MarshalJSON: the string wins; a nil route is null. */
  function Encode(r: StringOrRoute): Json
    decreases r
  {
    if r.text != "" then JString(r.text)
    else match r.route case None => JNull case Some(route) => EncodeRoute(route)
  }

  /** A member that is left out when the pointer is nil. */
  function Member(name: string, value: Option<Json>): map<string, Json> {
    match value case None => map[] case Some(v) => map[name := v]
  }

  function EncodeOpt(r: Option<StringOrRoute>): Option<Json>
    decreases r
  {
    match r case None => None case Some(s) => Some(Encode(s))
  }

  function EncodeRoute(r: Route): Json
    decreases r
  {
    JObject(
      map["type" := JString(r.kind)]
      + Member("default_policy", EncodeOpt(r.fallback))
      + Member("operation_policies", match r.policies case None => None case Some(p) => Some(EncodePolicies(p)))
      + Member("children", if r.children == [] then None else Some(JArray(EncodeAll(r.children)))))
  }

  /** The get policy is rendered under the member name "empty". */
  function EncodePolicies(p: Policies): Json
    decreases p
  {
    JObject(
      Member("add", EncodeOpt(p.onAdd)) + Member("set", EncodeOpt(p.onSet))
      + Member("delete", EncodeOpt(p.onDelete)) + Member("empty", EncodeOpt(p.onGet)))
  }

  function EncodeAll(rs: seq<StringOrRoute>): (js: seq<Json>)
    ensures |js| == |rs|
    decreases rs
  {
    if rs == [] then [] else [Encode(rs[0])] + EncodeAll(rs[1..])
  }

  // ---- Decoding ----

  function Decode(j: Json): Option<StringOrRoute>
    decreases j
  {
    match j
    case JNull => Some(Text(""))
    case JString(text) => Some(Text(text))
    case JArray(_) => None
    case JObject(fields) =>
      if "type" !in fields || !fields["type"].JString? then None
      else
        var fallback := DecodeMember(j, "default_policy");
        var policies := if "operation_policies" !in fields then Some(None) else DecodePolicies(fields["operation_policies"]);
        var children :=
          if "children" !in fields then Some([])
          else if fields["children"].JArray? then DecodeAll(fields["children"].items)
          else None;
        if fallback.None? || policies.None? || children.None? then None
        else Some(Object(Route(fields["type"].text, fallback.value, policies.value, children.value)))
  }

  /** A missing member decodes to nil. */
  function DecodeMember(j: Json, name: string): Option<Option<StringOrRoute>>
    requires j.JObject?
    decreases j, 0
  {
    if name !in j.fields then Some(None)
    else match Decode(j.fields[name]) case None => None case Some(r) => Some(Some(r))
  }

  function DecodePolicies(j: Json): Option<Option<Policies>>
    decreases j
  {
    if !j.JObject? then None
    else
      var onAdd, onSet := DecodeMember(j, "add"), DecodeMember(j, "set");
      var onDelete, onGet := DecodeMember(j, "delete"), DecodeMember(j, "empty");
      if onAdd.None? || onSet.None? || onDelete.None? || onGet.None? then None
      else Some(Some(Policies(onAdd.value, onSet.value, onDelete.value, onGet.value)))
  }

  function DecodeAll(js: seq<Json>): Option<seq<StringOrRoute>>
    decreases js
  {
    if js == [] then Some([])
    else
      var first, rest := Decode(js[0]), DecodeAll(js[1..]);
      if first.None? || rest.None? then None else Some([first.value] + rest.value)
  }

  // ---- Round trip ----

  /** No node carries both a string and a route; the string would hide the route. */
  predicate Unambiguous(r: StringOrRoute)
    decreases r
  {
    if r.text != "" then r.route.None?
    else
      match r.route
      case None => true
      case Some(route) =>
        && UnambiguousOpt(route.fallback)
        && (match route.policies
            case None => true
            case Some(p) =>
              UnambiguousOpt(p.onAdd) && UnambiguousOpt(p.onSet) && UnambiguousOpt(p.onDelete) && UnambiguousOpt(p.onGet))
        && forall i :: 0 <= i < |route.children| ==> Unambiguous(route.children[i])
  }

  predicate UnambiguousOpt(r: Option<StringOrRoute>)
    decreases r
  {
    match r case None => true case Some(s) => Unambiguous(s)
  }

  /** Decoding undoes encoding if and only if no node of the route carries both forms. */
  lemma {:induction false} RoundTrip(r: StringOrRoute)
    ensures Decode(Encode(r)).Some?
    ensures Decode(Encode(r)) == Some(r) <==> Unambiguous(r)
    decreases r, 1
  {
    if r.text == "" && r.route.Some? {
      RoundTripRoute(r.route.value);
    }
  }

  /** The member of an object, if it is there. */
  function Find(j: Json, name: string): Option<Json>
    requires j.JObject?
  {
    if name in j.fields then Some(j.fields[name]) else None
  }

  lemma RouteMembers(r: Route)
    ensures
      var j := EncodeRoute(r);
      && Find(j, "type") == Some(JString(r.kind))
      && Find(j, "default_policy") == EncodeOpt(r.fallback)
      && Find(j, "operation_policies") == (match r.policies case None => None case Some(p) => Some(EncodePolicies(p)))
      && Find(j, "children") == if r.children == [] then None else Some(JArray(EncodeAll(r.children)))
  {
    assert |"type"| == 4 && |"default_policy"| == 14 && |"operation_policies"| == 18 && |"children"| == 8;
  }

  lemma PolicyMembers(p: Policies)
    ensures
      var j := EncodePolicies(p);
      && Find(j, "add") == EncodeOpt(p.onAdd) && Find(j, "set") == EncodeOpt(p.onSet)
      && Find(j, "delete") == EncodeOpt(p.onDelete) && Find(j, "empty") == EncodeOpt(p.onGet)
  {
    assert "add"[0] != "set"[0] && |"add"| == |"set"| == 3 && |"delete"| == 6 && |"empty"| == 5;
  }

  lemma MemberBack(j: Json, name: string, r: Option<StringOrRoute>)
    requires j.JObject? && Find(j, name) == EncodeOpt(r)
    ensures DecodeMember(j, name) == Redecoded(r)
  {
  }

  lemma {:induction false} RoundTripRoute(route: Route)
    ensures Decode(EncodeRoute(route)).Some?
    ensures Decode(EncodeRoute(route)) == Some(Object(route)) <==> Unambiguous(Object(route))
    decreases route, 3
  {
    RouteMembers(route);
    RoundTripOpt(route.fallback);
    MemberBack(EncodeRoute(route), "default_policy", route.fallback);
    if route.policies.Some? {
      RoundTripPolicies(route.policies.value);
    }
    RoundTripAll(route.children);
  }

  lemma {:induction false} RoundTripPolicies(p: Policies)
    ensures DecodePolicies(EncodePolicies(p)).Some? && DecodePolicies(EncodePolicies(p)).value.Some?
    ensures DecodePolicies(EncodePolicies(p)) == Some(Some(p)) <==>
      UnambiguousOpt(p.onAdd) && UnambiguousOpt(p.onSet) && UnambiguousOpt(p.onDelete) && UnambiguousOpt(p.onGet)
    decreases p, 0
  {
    var j := EncodePolicies(p);
    PolicyMembers(p);
    RoundTripOpt(p.onAdd);
    RoundTripOpt(p.onSet);
    RoundTripOpt(p.onDelete);
    RoundTripOpt(p.onGet);
    MemberBack(j, "add", p.onAdd);
    MemberBack(j, "set", p.onSet);
    MemberBack(j, "delete", p.onDelete);
    MemberBack(j, "empty", p.onGet);
  }

  function Redecoded(r: Option<StringOrRoute>): Option<Option<StringOrRoute>> {
    match r
    case None => Some(None)
    case Some(s) => match Decode(Encode(s)) case None => None case Some(t) => Some(Some(t))
  }

  lemma {:induction false} RoundTripOpt(r: Option<StringOrRoute>)
    ensures Redecoded(r).Some?
    ensures Redecoded(r) == Some(r) <==> UnambiguousOpt(r)
    decreases r, 2
  {
    if r.Some? {
      RoundTrip(r.value);
    }
  }

  lemma {:induction false} RoundTripAll(rs: seq<StringOrRoute>)
    ensures DecodeAll(EncodeAll(rs)).Some?
    ensures DecodeAll(EncodeAll(rs)) == Some(rs) <==> forall i :: 0 <= i < |rs| ==> Unambiguous(rs[i])
    decreases rs, 0
  {
    if rs != [] {
      RoundTrip(rs[0]);
      RoundTripAll(rs[1..]);
      var js := EncodeAll(rs);
      assert js[1..] == EncodeAll(rs[1..]);
      var first, rest := Decode(js[0]).value, DecodeAll(js[1..]).value;
      assert [first] + rest == rs <==> first == rs[0] && rest == rs[1..] by {
        assert ([first] + rest)[0] == first && ([first] + rest)[1..] == rest;
        assert rs == [rs[0]] + rs[1..];
      }
      assert forall i :: 1 <= i < |rs| ==> rs[i] == rs[1..][i - 1];
    }
  }

  /** Every node of a compiled route is either a string or an object, never both and never neither. */
  predicate ExactlyOneForm(r: StringOrRoute)
    decreases r
  {
    if r.text != "" then r.route.None?
    else
      match r.route
      case None => false
      case Some(route) =>
        && (route.fallback.Some? ==> ExactlyOneForm(route.fallback.value))
        && (match route.policies
            case None => true
            case Some(p) =>
              && (p.onAdd.Some? ==> ExactlyOneForm(p.onAdd.value)) && (p.onSet.Some? ==> ExactlyOneForm(p.onSet.value))
              && (p.onDelete.Some? ==> ExactlyOneForm(p.onDelete.value))
              && (p.onGet.Some? ==> ExactlyOneForm(p.onGet.value)))
        && forall i :: 0 <= i < |route.children| ==> ExactlyOneForm(route.children[i])
  }

  lemma {:induction false} ExactlyOneIsUnambiguous(r: StringOrRoute)
    requires ExactlyOneForm(r)
    ensures Unambiguous(r)
    decreases r
  {
    if r.text == "" {
      var route := r.route.value;
      if route.fallback.Some? {
        ExactlyOneIsUnambiguous(route.fallback.value);
      }
      if route.policies.Some? {
        var p := route.policies.value;
        if p.onAdd.Some? { ExactlyOneIsUnambiguous(p.onAdd.value); }
        if p.onSet.Some? { ExactlyOneIsUnambiguous(p.onSet.value); }
        if p.onDelete.Some? { ExactlyOneIsUnambiguous(p.onDelete.value); }
        if p.onGet.Some? { ExactlyOneIsUnambiguous(p.onGet.value); }
      }
      forall i | 0 <= i < |route.children| ensures Unambiguous(route.children[i]) {
        ExactlyOneIsUnambiguous(route.children[i]);
      }
    }
  }

  lemma {:induction false} CompiledForm(sha: Sha1, r: Rule)
    requires Compile(sha, r).Success?
    ensures ExactlyOneForm(Compile(sha, r).value)
    decreases r
  {
    if r.service.None? {
      var children := CompileAll(sha, r.children).value;
      forall i | 0 <= i < |children| ensures ExactlyOneForm(children[i]) {
        CompileAllAt(sha, r.children, i);
        CompiledForm(sha, r.children[i]);
      }
      assert ExactlyOneForm(Group(ALL_SYNC, children)) && ExactlyOneForm(Group(LATEST, children));
    }
  }

  /** Every compiled route survives rendering. */
  lemma CompiledRoundTrip(sha: Sha1, r: Rule)
    requires Compile(sha, r).Success?
    ensures Decode(Encode(Compile(sha, r).value)) == Some(Compile(sha, r).value)
  {
    CompiledForm(sha, r);
    ExactlyOneIsUnambiguous(Compile(sha, r).value);
    RoundTrip(Compile(sha, r).value);
  }

  // ---- The rendered rule, letter by letter ----

  /** A route object over child routes; no children, no member. */
  function Node(kind: string, children: seq<Json>): Json {
    if children == [] then JObject(map["type" := JString(kind)])
    else JObject(map["type" := JString(kind), "children" := JArray(children)])
  }

  function Chooser(all: Json, latest: Json): Json {
    JObject(map[
      "type" := JString("OperationSelectorRoute"), "default_policy" := all,
      "operation_policies" := JObject(map["delete" := latest])])
  }

  lemma EncodeNode(kind: string, children: seq<StringOrRoute>)
    ensures Encode(Group(kind, children)) == Node(kind, EncodeAll(children))
  {
    var route := Route(kind, None, None, children);
    RouteMembers(route);
    assert EncodeRoute(route).fields.Keys == if children == [] then {"type"} else {"type", "children"};
    assert EncodeRoute(route).fields == Node(kind, EncodeAll(children)).fields;
  }

  lemma EncodeText(text: string)
    requires text != ""
    ensures Encode(Text(text)) == JString(text)
  {
  }

  lemma EncodeChooser(all: StringOrRoute, latest: StringOrRoute)
    ensures Encode(Replicate(all, latest)) == Chooser(Encode(all), Encode(latest))
  {
    var p := Policies(None, None, Some(latest), None);
    assert EncodePolicies(p) == JObject(map["delete" := Encode(latest)]);
    var route := Route("OperationSelectorRoute", Some(all), Some(p), []);
    RouteMembers(route);
    assert EncodeRoute(route).fields.Keys == {"type", "default_policy", "operation_policies"};
    assert EncodeRoute(route).fields == Chooser(Encode(all), Encode(latest)).fields;
  }

  /** Children are rendered one by one, in order. */
  lemma {:induction false} EncodeAllAt(rs: seq<StringOrRoute>, i: nat)
    requires i < |rs|
    ensures EncodeAll(rs)[i] == Encode(rs[i])
  {
    if i > 0 {
      EncodeAllAt(rs[1..], i - 1);
    }
  }

  /** Each rule as the JSON value it renders to, over the rendered children. */
  lemma RenderedRule(sha: Sha1, r: Rule)
    requires Compile(sha, r).Success?
    ensures
      var j := Encode(Compile(sha, r).value);
      if r.service.Some? then
        var pool := PoolName(sha, r.service.value);
        j == if r.kind == "replicated"
             then Chooser(JString("AllSyncRoute|Pool|" + pool), JString("LatestRoute|Pool|" + pool))
             else JString("PoolRoute|" + pool)
      else
        var children := CompileAll(sha, r.children);
        children.Success?
        && j == if r.kind == "replicated"
                then Chooser(Node("AllSyncRoute", EncodeAll(children.value)), Node("LatestRoute", EncodeAll(children.value)))
                else Node("HashRoute", EncodeAll(children.value))
    ensures r.service.None? ==> forall i | 0 <= i < |r.children| ::
      Compile(sha, r.children[i]).Success?
      && EncodeAll(CompileAll(sha, r.children).value)[i] == Encode(Compile(sha, r.children[i]).value)
    ensures r.kind == "replicated" || r.kind == "sharded"
  {
    if r.service.Some? {
      var pool := PoolName(sha, r.service.value);
      assert ALL_SYNC + "|Pool|" == "AllSyncRoute|Pool|" && LATEST + "|Pool|" == "LatestRoute|Pool|";
      assert POOL + "|" == "PoolRoute|";
      EncodeText(ALL_SYNC + "|Pool|" + pool);
      EncodeText(LATEST + "|Pool|" + pool);
      EncodeText(POOL + "|" + pool);
      EncodeChooser(Text(ALL_SYNC + "|Pool|" + pool), Text(LATEST + "|Pool|" + pool));
    } else {
      var children := CompileAll(sha, r.children).value;
      EncodeNode(ALL_SYNC, children);
      EncodeNode(LATEST, children);
      EncodeNode(HASH, children);
      EncodeChooser(Group(ALL_SYNC, children), Group(LATEST, children));
      forall i | 0 <= i < |r.children|
        ensures Compile(sha, r.children[i]) == Success(children[i]) && EncodeAll(children)[i] == Encode(children[i])
      {
        CompileAllAt(sha, r.children, i);
        EncodeAllAt(children, i);
      }
    }
  }

  // ---- Whole configurations ----

  function EncodeStrings(ss: seq<string>): Json {
    JArray(seq(|ss|, i requires 0 <= i < |ss| => JString(ss[i])))
  }

  /** A pool without servers holds a nil slice, which renders as null. */
  function EncodePool(servers: seq<string>): Json {
    JObject(map["servers" := if servers == [] then JNull else EncodeStrings(servers)])
  }

  function EncodeConfig(config: Config): Json {
    JObject(
      map["route" := Encode(config.route)]
      + if config.pools == map[] then map[]
        else map["pools" := JObject(map name | name in config.pools :: EncodePool(config.pools[name]))])
  }

  function DecodePool(j: Json): seq<string> {
    if j.JObject? && "servers" in j.fields && j.fields["servers"].JArray? then
      var items := j.fields["servers"].items;
      seq(|items|, i requires 0 <= i < |items| => if items[i].JString? then items[i].text else "")
    else []
  }

  function DecodePools(j: Json): map<string, seq<string>> {
    if j.JObject? && "pools" in j.fields && j.fields["pools"].JObject?
    then map name | name in j.fields["pools"].fields :: DecodePool(j.fields["pools"].fields[name])
    else map[]
  }

  lemma PoolRoundTrip(servers: seq<string>)
    ensures DecodePool(EncodePool(servers)) == servers
  {
  }

  /** Two configurations render to the same JSON value only if they are the same: names address content. */
  lemma RenderingIsInjective(sha: Sha1, b: Backends, r: Rule, b': Backends, r': Rule)
    requires ConfigFor(sha, b, r).Some? && ConfigFor(sha, b', r').Some?
    ensures EncodeConfig(ConfigFor(sha, b, r).value) == EncodeConfig(ConfigFor(sha, b', r').value)
      <==> ConfigFor(sha, b, r) == ConfigFor(sha, b', r')
  {
    ConfigRoundTrip(sha, b, r);
    ConfigRoundTrip(sha, b', r');
  }

  /** A rendered configuration decodes to its pools and its route. */
  lemma ConfigRoundTrip(sha: Sha1, b: Backends, r: Rule)
    requires ConfigFor(sha, b, r).Some?
    ensures
      var config := ConfigFor(sha, b, r).value;
      var j := EncodeConfig(config);
      DecodePools(j) == config.pools && Decode(j.fields["route"]) == Some(config.route)
  {
    var config := ConfigFor(sha, b, r).value;
    CompiledRoundTrip(sha, r);
    PoolsRoundTrip(config);
  }

  lemma PoolsRoundTrip(config: Config)
    ensures DecodePools(EncodeConfig(config)) == config.pools
  {
    forall name | name in config.pools ensures DecodePool(EncodePool(config.pools[name])) == config.pools[name] {
      PoolRoundTrip(config.pools[name]);
    }
  }

  /** The members of a rendered configuration; pools are left out if there are none, and an empty pool is null. */
  lemma ConfigMembers(config: Config, pool: string)
    ensures
      var j := EncodeConfig(config);
      && j.JObject? && Find(j, "route") == Some(Encode(config.route))
      && (Find(j, "pools").Some? <==> config.pools != map[])
      && (pool in config.pools ==>
        Find(j, "pools").Some? && Find(j, "pools").value.JObject?
        && var servers := config.pools[pool];
           Find(Find(j, "pools").value, pool) == Some(JObject(map["servers" :=
             if servers == [] then JNull
             else JArray(seq(|servers|, i requires 0 <= i < |servers| => JString(servers[i])))])))
  {
    assert "route"[0] != "pools"[0];
  }
}
