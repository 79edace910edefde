/** Routing rules (internal/apis/ianlewis.org/v1alpha1/types.go) and the services they name. */
module Rules {
  import opened Wrappers
  import opened Names

  /** intstr.IntOrString. */
  datatype Port = IntPort(number: int) | NamedPort(name: string)

  datatype ServiceSpec = ServiceSpec(name: string, ns: string, port: Port)

  datatype Rule = Rule(kind: string, service: Option<ServiceSpec>, children: seq<Rule>)

  const REPLICATED := "replicated"
  const SHARDED := "sharded"

  function Digits(n: nat): string {
    var d := [('0' as int + n % 10) as char];
    if n < 10 then d else Digits(n / 10) + d
  }

  function Decimal(n: int): string {
    if n < 0 then "-" + Digits(-n) else Digits(n)
  }

  function PortText(p: Port): string {
    match p
    case IntPort(n) => Decimal(n)
    case NamedPort(name) => name
  }

  /** Three strings are hashed with nothing between them, so different services can share a name. */
  function PoolName(sha: Sha1, s: ServiceSpec): (r: string)
    ensures |r| == 5 && forall i :: 0 <= i < 5 ==> IsLowerHex(r[i])
  {
    MakeName(sha, "", [s.name, s.ns, PortText(s.port)])
  }

  /** A pool is named after service name, namespace and port, with nothing in between. */
  lemma PoolNameIs(sha: Sha1, s: ServiceSpec)
    ensures PoolName(sha, s) == sha(s.name + s.ns + PortText(s.port))[2..7]
    ensures s.port.IntPort? ==> PoolName(sha, s) == sha(s.name + s.ns + Decimal(s.port.number))[2..7]
    ensures s.port.NamedPort? ==> PoolName(sha, s) == sha(s.name + s.ns + s.port.name)[2..7]
  {
    FedThree(s.name, s.ns, PortText(s.port));
    assert "" + sha(s.name + s.ns + PortText(s.port))[2..7] == sha(s.name + s.ns + PortText(s.port))[2..7];
  }

  /** The number a text of decimal digits stands for. */
  function Number(s: string): int {
    if s == "" then 0 else 10 * Number(s[..|s| - 1]) + (s[|s| - 1] as int - '0' as int)
  }

  /** Decimal text reads back as the number, and has no superfluous zero in front. */
  lemma {:induction false} DigitsRead(n: nat)
    ensures Digits(n) != "" && Number(Digits(n)) == n
    ensures forall i :: 0 <= i < |Digits(n)| ==> '0' <= Digits(n)[i] <= '9'
    ensures n > 0 ==> Digits(n)[0] != '0'
  {
    if n >= 10 {
      DigitsRead(n / 10);
      assert Digits(n)[..|Digits(n)| - 1] == Digits(n / 10);
    } else {
      assert Digits(n)[..0] == "";
    }
  }

  lemma DecimalReads(n: int)
    ensures n >= 0 ==> Decimal(n) == Digits(n) && Number(Decimal(n)) == n
    ensures n < 0 ==> Decimal(n) == "-" + Digits(-n) && Number(Decimal(n)[1..]) == -n
  {
    DigitsRead(if n < 0 then -n else n);
  }

  predicate Known(kind: string) { kind == REPLICATED || kind == SHARDED }

  /** All kinds that routeForRule reads are known: a rule with a service hides its children. */
  predicate Valid(r: Rule) {
    Known(r.kind) && (r.service.Some? || forall i :: 0 <= i < |r.children| ==> Valid(r.children[i]))
  }

  /** The rule at the end of a path of child indices, if no rule on the way has a service. */
  function Read(r: Rule, path: seq<nat>): Option<Rule>
    decreases |path|
  {
    if path == [] then Some(r)
    else if r.service.None? && path[0] < |r.children| then Read(r.children[path[0]], path[1..])
    else None
  }

  ghost predicate AllRead(r: Rule) {
    forall path: seq<nat> :: Read(r, path).Some? ==> Read(r, path).value.kind in {"replicated", "sharded"}
  }

  /** Valid means: whatever rule is read, its type is "replicated" or "sharded". */
  lemma {:induction false} ValidMeans(r: Rule)
    ensures Valid(r) <==> AllRead(r)
    decreases r
  {
    assert Read(r, []) == Some(r);
    if r.service.None? {
      forall i | 0 <= i < |r.children| ensures Valid(r.children[i]) <==> AllRead(r.children[i]) {
        ValidMeans(r.children[i]);
      }
    }
    if Valid(r) {
      forall path: seq<nat> | Read(r, path).Some? ensures Read(r, path).value.kind in {"replicated", "sharded"} {
        if path != [] {
          assert AllRead(r.children[path[0]]);
        }
      }
    }
    if AllRead(r) && r.service.None? {
      forall i: nat | i < |r.children| ensures AllRead(r.children[i]) {
        forall path: seq<nat> | Read(r.children[i], path).Some?
          ensures Read(r.children[i], path).value.kind in {"replicated", "sharded"}
        {
          assert ([i] + path)[1..] == path;
          assert Read(r, [i] + path) == Read(r.children[i], path);
        }
      }
    }
  }

  /** Services in traversal order. */
  function Services(r: Rule): seq<ServiceSpec> {
    if r.service.Some? then [r.service.value] else ServicesOf(r.children)
  }

  function ServicesOf(rs: seq<Rule>): seq<ServiceSpec> {
    if rs == [] then [] else Services(rs[0]) + ServicesOf(rs[1..])
  }

  lemma ServicesOfChild(rs: seq<Rule>, i: nat, s: ServiceSpec)
    requires i < |rs| && s in Services(rs[i])
    ensures s in ServicesOf(rs)
  {
    if i > 0 {
      ServicesOfChild(rs[1..], i - 1, s);
    }
  }
}
