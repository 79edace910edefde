/**
 Object names (internal/controller/names.go).  SHA-1 stays uninterpreted: every
 function takes the digest as a parameter, and nothing but the length of its
 hexadecimal text is ever used.
 */
module Names {

  predicate IsLowerHex(c: char) { '0' <= c <= '9' || 'a' <= c <= 'f' }

  /** hex.EncodeToString of twenty bytes; lower case already, so ToLower changes nothing. */
  type Digest = s: string | |s| == 40 && forall i :: 0 <= i < |s| ==> IsLowerHex(s[i])
    witness seq(40, _ => '0')

  type Sha1 = string -> Digest

  /** An object's place in the API: its namespace and its name. */
  datatype Key = Key(ns: string, name: string)

  /** What a hasher has been fed after writing all values: no separator in between. */
  function Fed(values: seq<string>): string {
    if values == [] then "" else Fed(values[..|values| - 1]) + values[|values| - 1]
  }

  function Suffix(sha: Sha1, values: seq<string>): (r: string)
    ensures |r| == 5 && forall i :: 0 <= i < 5 ==> IsLowerHex(r[i])
  {
    sha(Fed(values))[2..7]
  }

  function MakeName(sha: Sha1, prefix: string, values: seq<string>): string {
    prefix + Suffix(sha, values)
  }

  /** The loop of MakeName: feed the hasher value by value, then cut the digest. */
  method ComputeName(sha: Sha1, prefix: string, values: seq<string>) returns (name: string)
    ensures name == MakeName(sha, prefix, values)
  {
    var hasher := "";
    for i := 0 to |values|
      invariant hasher == Fed(values[..i])
    {
      assert values[..i + 1][..i] == values[..i];
      hasher := hasher + values[i];
    }
    assert values[..|values|] == values;
    name := prefix + sha(hasher)[2..7];
  }

  const CONFIG := "-config-"

  /** The ConfigMap name of a proxy for a rendered configuration. */
  function ConfigMapKey(sha: Sha1, p: Key, json: string): Key {
    Key(p.ns, MakeName(sha, p.name + CONFIG, [p.name, json]))
  }

  function ServiceName(sha: Sha1, p: Key): string {
    MakeName(sha, p.name + "-memcached-", [p.name])
  }

  const OPERATOR_LABEL := "memcached-operator"
  const PROXY_LABEL := "mcrouter"
  const HASH_LABEL := "pod-template-hash"

  /** Labels shared by the proxy's Service selector, Deployment selector and pod template. */
  function Selector(sha: Sha1, p: Key): map<string, string> {
    map[OPERATOR_LABEL := "true", PROXY_LABEL := MakeName(sha, p.name + "-", [p.ns, p.name])]
  }

  // ---- The names, letter by letter ----

  lemma FedOne(a: string)
    ensures Fed([a]) == a
  {
    assert Fed([a]) == Fed([]) + a;
  }

  lemma FedTwo(a: string, b: string)
    ensures Fed([a, b]) == a + b
  {
    FedOne(a);
    assert [a, b][..1] == [a];
  }

  lemma FedThree(a: string, b: string, c: string)
    ensures Fed([a, b, c]) == a + b + c
  {
    FedTwo(a, b);
    assert [a, b, c][..2] == [a, b];
  }

  /** A ConfigMap is named after the whole text it holds. */
  lemma ConfigMapNameIs(sha: Sha1, p: Key, json: string)
    ensures ConfigMapKey(sha, p, json) == Key(p.ns, p.name + "-config-" + sha(p.name + json)[2..7])
  {
    FedTwo(p.name, json);
  }

  lemma ServiceNameIs(sha: Sha1, p: Key)
    ensures ServiceName(sha, p) == p.name + "-memcached-" + sha(p.name)[2..7]
  {
    FedOne(p.name);
  }

  lemma SelectorIs(sha: Sha1, p: Key)
    ensures Selector(sha, p) ==
      map["memcached-operator" := "true", "mcrouter" := p.name + "-" + sha(p.ns + p.name)[2..7]]
  {
    FedTwo(p.ns, p.name);
  }

  /** A digest that tells one text from all others. */
  function Telling(text: string): Sha1 {
    (x: string) => if x == text then seq(40, _ => '0') else seq(40, _ => '1')
  }

  /** Two texts share a ConfigMap name under every digest only if they are the same text. */
  lemma ConfigMapNamesMeet(p: Key, a: string, b: string)
    ensures (forall sha: Sha1 :: ConfigMapKey(sha, p, a) == ConfigMapKey(sha, p, b)) <==> a == b
  {
    if forall sha: Sha1 :: ConfigMapKey(sha, p, a) == ConfigMapKey(sha, p, b) {
      var sha := Telling(p.name + a);
      assert ConfigMapKey(sha, p, a) == ConfigMapKey(sha, p, b);
      ConfigMapNameIs(sha, p, a);
      ConfigMapNameIs(sha, p, b);
      var name, name' := ConfigMapKey(sha, p, a).name, ConfigMapKey(sha, p, b).name;
      assert name[|p.name| + 8] == sha(p.name + a)[2] && name'[|p.name| + 8] == sha(p.name + b)[2];
      assert p.name + a == p.name + b;
      assert a == (p.name + a)[|p.name|..] && b == (p.name + b)[|p.name|..];
    }
  }

  /** The proxy a ConfigMap name was made for, read back from the name alone. */
  function ConfigMapHome(k: Key): Key {
    if |k.name| >= |CONFIG| + 5 then Key(k.ns, k.name[..|k.name| - |CONFIG| - 5]) else k
  }

  /** The proxy a selector was made for, read back from its labels alone. */
  function LabelHome(ns: string, labels: map<string, string>): Key {
    if PROXY_LABEL in labels && |labels[PROXY_LABEL]| >= 6
    then Key(ns, labels[PROXY_LABEL][..|labels[PROXY_LABEL]| - 6])
    else Key(ns, "")
  }

  /** Because the suffix has a fixed length, a ConfigMap name names its proxy, whatever the digest. */
  lemma ConfigMapHomeOf(sha: Sha1, p: Key, json: string)
    ensures ConfigMapHome(ConfigMapKey(sha, p, json)) == p
  {
    var name := ConfigMapKey(sha, p, json).name;
    assert name[..|name| - |CONFIG| - 5] == p.name;
  }

  /** Likewise for selectors: labels made for one proxy never select another proxy's objects. */
  lemma LabelHomeOf(sha: Sha1, p: Key)
    ensures LabelHome(p.ns, Selector(sha, p)) == p
  {
    var value := Selector(sha, p)[PROXY_LABEL];
    assert value[..|value| - 6] == p.name;
  }

  /** Two proxies of one namespace never share a ConfigMap name, a Service name or a selector. */
  lemma NamesAreInjective(sha: Sha1, p: Key, q: Key, json: string, json': string)
    requires p.ns == q.ns && p != q
    ensures ConfigMapKey(sha, p, json) != ConfigMapKey(sha, q, json')
    ensures ServiceName(sha, p) != ServiceName(sha, q)
    ensures Selector(sha, p) != Selector(sha, q)
  {
    ConfigMapHomeOf(sha, p, json);
    ConfigMapHomeOf(sha, q, json');
    LabelHomeOf(sha, p);
    LabelHomeOf(sha, q);
    var a, b := ServiceName(sha, p), ServiceName(sha, q);
    assert a[..|a| - 16] == p.name && b[..|b| - 16] == q.name;
  }
}
