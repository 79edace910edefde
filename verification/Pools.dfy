/** Resolving a service to its servers: poolForService in internal/controller/proxyconfigmap/config.go. */
module Pools {
  import opened Wrappers
  import opened Names
  import opened Rules

  datatype ServicePort = ServicePort(name: string, port: int, target: Port)

  datatype EndpointPort = EndpointPort(name: string, port: int, protocol: string)

  datatype Subset = Subset(addresses: seq<string>, ports: seq<EndpointPort>)

  /** What the service and endpoints listers hold. */
  datatype Backends = Backends(services: map<Key, seq<ServicePort>>, endpoints: map<Key, seq<Subset>>)

  predicate PortSelected(p: ServicePort, wanted: Port) {
    match wanted
    case IntPort(n) => p.port == n
    case NamedPort(name) => p.name == name
  }

  predicate PortMatches(p: EndpointPort, target: Port) {
    match target
    case IntPort(n) => p.protocol == "TCP" && p.port == n
    case NamedPort(name) => p.protocol == "TCP" && p.name == name
  }

  /** The last service port that the spec selects. */
  function LastSelected(ports: seq<ServicePort>, wanted: Port): (r: Option<ServicePort>)
    ensures r.None? <==> forall i :: 0 <= i < |ports| ==> !PortSelected(ports[i], wanted)
    ensures r.Some? ==> exists i | 0 <= i < |ports| ::
      && ports[i] == r.value && PortSelected(ports[i], wanted)
      && forall j :: i < j < |ports| ==> !PortSelected(ports[j], wanted)
  {
    if ports == [] then None
    else if PortSelected(ports[|ports| - 1], wanted) then Some(ports[|ports| - 1])
    else LastSelected(ports[..|ports| - 1], wanted)
  }

  function Server(ip: string, p: EndpointPort): string { ip + ":" + Decimal(p.port) }

  /** One entry per address for one port. */
  function PortServers(addresses: seq<string>, p: EndpointPort): (r: seq<string>)
    ensures |r| == |addresses|
    ensures forall i :: 0 <= i < |r| ==> r[i] == Server(addresses[i], p)
  {
    seq(|addresses|, i requires 0 <= i < |addresses| => Server(addresses[i], p))
  }

  /** The matching ports of a subset, in order. */
  function SubsetServers(addresses: seq<string>, ports: seq<EndpointPort>, target: Port): seq<string> {
    if ports == [] then []
    else
      var last := ports[|ports| - 1];
      SubsetServers(addresses, ports[..|ports| - 1], target)
      + if PortMatches(last, target) then PortServers(addresses, last) else []
  }

  function Servers(subsets: seq<Subset>, target: Port): seq<string> {
    if subsets == [] then []
    else
      var last := subsets[|subsets| - 1];
      Servers(subsets[..|subsets| - 1], target) + SubsetServers(last.addresses, last.ports, target)
  }

  function Resolve(b: Backends, s: ServiceSpec): Option<seq<string>> {
    var k := Key(s.ns, s.name);
    if k !in b.services then None
    else
      match LastSelected(b.services[k], s.port)
      case None => None
      case Some(port) => if k in b.endpoints then Some(Servers(b.endpoints[k], port.target)) else None
  }

  // ---- What a pool is ----

  /** A port reference means this number or this name. */
  predicate Means(wanted: Port, number: int, name: string) { wanted == IntPort(number) || wanted == NamedPort(name) }

  /** The service port at `i` is the last one the spec refers to. */
  predicate Chosen(ports: seq<ServicePort>, wanted: Port, i: int) {
    && 0 <= i < |ports| && Means(wanted, ports[i].port, ports[i].name)
    && forall j :: i < j < |ports| ==> !Means(wanted, ports[j].port, ports[j].name)
  }

  /** Some subset lists this server: one of its addresses, with a TCP port that the target refers to. */
  ghost predicate Serves(subsets: seq<Subset>, target: Port, server: string) {
    exists i, j, a | 0 <= i < |subsets| && 0 <= j < |subsets[i].ports| && 0 <= a < |subsets[i].addresses| ::
      var p := subsets[i].ports[j];
      p.protocol == "TCP" && Means(target, p.port, p.name) && server == subsets[i].addresses[a] + ":" + Decimal(p.port)
  }

  /** A service resolves exactly if it, the port asked for and the endpoints exist. */
  ghost predicate Resolvable(b: Backends, s: ServiceSpec) {
    var k := Key(s.ns, s.name);
    k in b.services && k in b.endpoints && exists i :: Chosen(b.services[k], s.port, i)
  }

  lemma LastIsChosen(ports: seq<ServicePort>, wanted: Port)
    ensures LastSelected(ports, wanted).Some? <==> exists i :: Chosen(ports, wanted, i)
    ensures forall i :: Chosen(ports, wanted, i) ==> LastSelected(ports, wanted) == Some(ports[i])
  {
    assert forall i :: 0 <= i < |ports| ==>
      (PortSelected(ports[i], wanted) <==> Means(wanted, ports[i].port, ports[i].name));
    if LastSelected(ports, wanted).Some? {
      var i :| 0 <= i < |ports| && ports[i] == LastSelected(ports, wanted).value && PortSelected(ports[i], wanted)
        && forall j :: i < j < |ports| ==> !PortSelected(ports[j], wanted);
      assert Chosen(ports, wanted, i);
      forall h | Chosen(ports, wanted, h) ensures h == i {
        assert !(h < i) && !(i < h);
      }
    }
  }

  /** The servers behind the target of the port that was asked for, and a failure exactly if something is missing. */
  lemma ResolveMeans(b: Backends, s: ServiceSpec)
    ensures Resolve(b, s).Some? <==> Resolvable(b, s)
    ensures Resolvable(b, s) ==>
      forall i | Chosen(b.services[Key(s.ns, s.name)], s.port, i) ::
        Resolve(b, s) == Some(Servers(b.endpoints[Key(s.ns, s.name)], b.services[Key(s.ns, s.name)][i].target))
  {
    if Key(s.ns, s.name) in b.services {
      LastIsChosen(b.services[Key(s.ns, s.name)], s.port);
    }
  }

  lemma {:induction false} SubsetServersMean(
    addresses: seq<string>, ports: seq<EndpointPort>, target: Port, server: string)
    ensures server in SubsetServers(addresses, ports, target) <==>
      exists j, a | 0 <= j < |ports| && 0 <= a < |addresses| ::
        && ports[j].protocol == "TCP" && Means(target, ports[j].port, ports[j].name)
        && server == addresses[a] + ":" + Decimal(ports[j].port)
  {
    if ports != [] {
      var front, last := ports[..|ports| - 1], ports[|ports| - 1];
      SubsetServersMean(addresses, front, target, server);
      assert forall j :: 0 <= j < |front| ==> front[j] == ports[j];
      assert PortMatches(last, target) <==> last.protocol == "TCP" && Means(target, last.port, last.name);
      assert forall a :: 0 <= a < |addresses| ==> PortServers(addresses, last)[a] == addresses[a] + ":" + Decimal(last.port);
    }
  }

  /** A pool holds exactly the servers that some subset lists. */
  lemma {:induction false} ServersMean(subsets: seq<Subset>, target: Port, server: string)
    ensures server in Servers(subsets, target) <==> Serves(subsets, target, server)
  {
    if subsets != [] {
      var front, last := subsets[..|subsets| - 1], subsets[|subsets| - 1];
      ServersMean(front, target, server);
      SubsetServersMean(last.addresses, last.ports, target, server);
      assert forall i :: 0 <= i < |front| ==> front[i] == subsets[i];
    }
  }

  /** poolForService: three nested loops over subsets, ports and addresses. */
  method PoolForService(b: Backends, s: ServiceSpec) returns (r: Result<seq<string>, string>)
    ensures r.Success? <==> Resolvable(b, s)
    ensures r.Success? ==> forall i | Chosen(b.services[Key(s.ns, s.name)], s.port, i) ::
      r.value == Servers(b.endpoints[Key(s.ns, s.name)], b.services[Key(s.ns, s.name)][i].target)
    ensures r.Success? <==> Resolve(b, s).Some?
    ensures r.Success? ==> Resolve(b, s) == Some(r.value)
  {
    ResolveMeans(b, s);
    var k := Key(s.ns, s.name);
    if k !in b.services {
      return Failure("service not found");
    }
    var ports := b.services[k];
    var port: Option<ServicePort> := None;
    for i := 0 to |ports|
      invariant port == LastSelected(ports[..i], s.port)
    {
      assert ports[..i + 1][..i] == ports[..i];
      if PortSelected(ports[i], s.port) {
        port := Some(ports[i]);
      }
    }
    assert ports[..|ports|] == ports;
    if port.None? {
      return Failure("failed to find port " + PortText(s.port));
    }
    if k !in b.endpoints {
      return Failure("endpoints not found");
    }
    var subsets, target := b.endpoints[k], port.value.target;
    var servers := [];
    for i := 0 to |subsets|
      invariant servers == Servers(subsets[..i], target)
    {
      assert subsets[..i + 1][..i] == subsets[..i];
      servers := AppendSubset(servers, subsets[i], target);
    }
    assert subsets[..|subsets|] == subsets;
    r := Success(servers);
  }

  method AppendSubset(servers: seq<string>, subset: Subset, target: Port) returns (r: seq<string>)
    ensures r == servers + SubsetServers(subset.addresses, subset.ports, target)
  {
    r := servers;
    var ports := subset.ports;
    for j := 0 to |ports|
      invariant r == servers + SubsetServers(subset.addresses, ports[..j], target)
    {
      assert ports[..j + 1][..j] == ports[..j];
      if PortMatches(ports[j], target) {
        r := AppendAddresses(r, subset.addresses, ports[j]);
      }
    }
    assert ports[..|ports|] == ports;
  }

  method AppendAddresses(servers: seq<string>, addresses: seq<string>, p: EndpointPort) returns (r: seq<string>)
    ensures r == servers + PortServers(addresses, p)
  {
    r := servers;
    for i := 0 to |addresses|
      invariant r == servers + PortServers(addresses, p)[..i]
    {
      r := r + [Server(addresses[i], p)];
    }
  }

  // ---- What is in a pool, independently of the loops ----

  function CountMatching(ports: seq<EndpointPort>, target: Port): nat {
    if ports == [] then 0
    else CountMatching(ports[..|ports| - 1], target) + if PortMatches(ports[|ports| - 1], target) then 1 else 0
  }

  /** Matching ports times addresses, summed over the subsets. */
  function PoolSize(subsets: seq<Subset>, target: Port): nat {
    if subsets == [] then 0
    else
      var last := subsets[|subsets| - 1];
      PoolSize(subsets[..|subsets| - 1], target) + CountMatching(last.ports, target) * |last.addresses|
  }

  lemma {:induction false} SubsetServersCount(addresses: seq<string>, ports: seq<EndpointPort>, target: Port)
    ensures |SubsetServers(addresses, ports, target)| == CountMatching(ports, target) * |addresses|
  {
    if ports != [] {
      var front := ports[..|ports| - 1];
      SubsetServersCount(addresses, front, target);
      OneMore(CountMatching(front, target), |addresses|);
    }
  }

  lemma OneMore(n: nat, m: nat)
    ensures (n + 1) * m == n * m + m
  {
  }

  /** The length of a pool: matching ports times addresses, summed over the subsets. */
  lemma {:induction false} ServersCount(subsets: seq<Subset>, target: Port)
    ensures |Servers(subsets, target)| == PoolSize(subsets, target)
  {
    if subsets != [] {
      ServersCount(subsets[..|subsets| - 1], target);
      var last := subsets[|subsets| - 1];
      SubsetServersCount(last.addresses, last.ports, target);
    }
  }

  /** Entries that the ports before `j` contribute. */
  function PortOffset(addresses: seq<string>, ports: seq<EndpointPort>, target: Port, j: nat): nat
    requires j <= |ports|
  {
    CountMatching(ports[..j], target) * |addresses|
  }

  lemma {:induction false} SubsetServerAt(
    addresses: seq<string>, ports: seq<EndpointPort>, target: Port, j: nat, a: nat)
    requires j < |ports| && PortMatches(ports[j], target) && a < |addresses|
    ensures
      var at := PortOffset(addresses, ports, target, j) + a;
      at < |SubsetServers(addresses, ports, target)|
      && SubsetServers(addresses, ports, target)[at] == Server(addresses[a], ports[j])
  {
    var front := ports[..|ports| - 1];
    SubsetServersCount(addresses, front, target);
    if j == |ports| - 1 {
      assert ports[..j] == front;
    } else {
      SubsetServerAt(addresses, front, target, j, a);
      assert front[..j] == ports[..j];
    }
  }

  /** Where each server is: address `a` of matching port `j` of subset `i`, after all earlier ones. */
  lemma {:induction false} ServerAt(subsets: seq<Subset>, target: Port, i: nat, j: nat, a: nat)
    requires i < |subsets| && j < |subsets[i].ports| && PortMatches(subsets[i].ports[j], target)
    requires a < |subsets[i].addresses|
    ensures
      var at := PoolSize(subsets[..i], target) + PortOffset(subsets[i].addresses, subsets[i].ports, target, j) + a;
      at < |Servers(subsets, target)|
      && Servers(subsets, target)[at] == Server(subsets[i].addresses[a], subsets[i].ports[j])
  {
    var front, last := subsets[..|subsets| - 1], subsets[|subsets| - 1];
    assert Servers(subsets, target) == Servers(front, target) + SubsetServers(last.addresses, last.ports, target);
    if i == |subsets| - 1 {
      assert subsets[..i] == front;
      ServersCount(front, target);
      SubsetServerAt(last.addresses, last.ports, target, j, a);
    } else {
      assert front[i] == subsets[i] && front[..i] == subsets[..i];
      ServerAt(front, target, i, j, a);
    }
  }
}
