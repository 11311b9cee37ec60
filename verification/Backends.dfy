/** getNodeBackends (internal/controller/service_controller.go): the nodes that become members of
    the pools, all ready ones or, under the Local traffic policy, those hosting an endpoint. */
module Backends {
  import opened Common
  import opened CloudModel
  import opened Stacks
  import opened PoolSync

  datatype Condition = Condition(isReady: bool, isTrue: bool)
  datatype Address = Address(internal: bool, ip: string)

  /** `subnet` is the node's subnet label. */
  datatype Node = Node(name: string, conditions: seq<Condition>, addresses: seq<Address>, subnet: string)

  /** The node names of a subset's ready and not-ready addresses, as far as they have one. */
  datatype Subset = Subset(ready: seq<Option<string>>, notReady: seq<Option<string>>)

  // ---------------------------------------------------------------------------
  // What is meant
  // ---------------------------------------------------------------------------

  /** Condition `i` is the first one of type Ready. */
  predicate DecidesAt(conditions: seq<Condition>, i: int) {
    0 <= i < |conditions| && conditions[i].isReady && forall j :: 0 <= j < i ==> !conditions[j].isReady
  }

  /** Address `i` is the first internal one. */
  predicate InternalAt(addresses: seq<Address>, i: int) {
    0 <= i < |addresses| && addresses[i].internal && forall j :: 0 <= j < i ==> !addresses[j].internal
  }

  ghost predicate IsReady(n: Node) {
    exists i :: DecidesAt(n.conditions, i) && n.conditions[i].isTrue
  }

  /** The node is ready and `ip` is its first internal address. */
  ghost predicate ReachedAt(n: Node, ip: string) {
    IsReady(n) && exists i :: InternalAt(n.addresses, i) && n.addresses[i].ip == ip
  }

  /** Node `i` is the last one that is reached at this address. */
  ghost predicate LastAt(nodes: seq<Node>, ip: string, i: int) {
    0 <= i < |nodes| && ReachedAt(nodes[i], ip) && forall j :: i < j < |nodes| ==> !ReachedAt(nodes[j], ip)
  }

  // ---------------------------------------------------------------------------
  // What is computed
  // ---------------------------------------------------------------------------

  /** The first condition of type Ready decides. */
  function Ready(conditions: seq<Condition>): bool {
    if conditions == [] then false
    else if conditions[0].isReady then conditions[0].isTrue
    else Ready(conditions[1..])
  }

  function FirstInternal(addresses: seq<Address>): Option<string> {
    if addresses == [] then None
    else if addresses[0].internal then Some(addresses[0].ip)
    else FirstInternal(addresses[1..])
  }

  /** The address under which a ready node is reached. */
  function Ip(n: Node): Option<string> {
    if Ready(n.conditions) then FirstInternal(n.addresses) else None
  }

  function AllBackends(nodes: seq<Node>): seq<Backend> {
    if nodes == [] then []
    else
      var last := nodes[|nodes| - 1];
      AllBackends(nodes[..|nodes| - 1]) + if Ip(last).Some? then [Backend(Ip(last).value, last.subnet)] else []
  }

  /** nodeByIP: of ready nodes with the same address the last one counts. */
  function Owners(nodes: seq<Node>): map<string, Node> {
    if nodes == [] then map[]
    else
      var last := nodes[|nodes| - 1];
      var before := Owners(nodes[..|nodes| - 1]);
      if Ip(last).Some? then before[Ip(last).value := last] else before
  }

  predicate Names(name: Option<string>, host: string) {
    name == Some(host) && host != ""
  }

  /** A node hosts an endpoint, ready or not. */
  ghost predicate Hosts(subsets: seq<Subset>, host: string) {
    exists i, name :: 0 <= i < |subsets| && name in subsets[i].ready + subsets[i].notReady && Names(name, host)
  }

  function Hosting(all: seq<Backend>, owners: map<string, Node>, hosts: set<string>): seq<Backend> {
    if all == [] then []
    else
      var last := all[|all| - 1];
      Hosting(all[..|all| - 1], owners, hosts)
        + if last.ip in owners && owners[last.ip].name in hosts then [last] else []
  }

  /** A backend that hosts an endpoint: the last ready node with its address does. */
  ghost predicate HostsThere(nodes: seq<Node>, subsets: seq<Subset>, b: Backend) {
    exists i :: LastAt(nodes, b.ip, i) && Hosts(subsets, nodes[i].name)
  }

  lemma {:induction false} ReadyMeans(conditions: seq<Condition>)
    ensures Ready(conditions) <==> exists i :: DecidesAt(conditions, i) && conditions[i].isTrue
  {
    if conditions != [] && !conditions[0].isReady {
      var rest := conditions[1..];
      ReadyMeans(rest);
      if i :| DecidesAt(rest, i) && rest[i].isTrue {
        assert DecidesAt(conditions, i + 1);
      }
      if i :| DecidesAt(conditions, i) && conditions[i].isTrue {
        assert conditions[i] == rest[i - 1] && DecidesAt(rest, i - 1);
      }
    } else if conditions != [] {
      assert DecidesAt(conditions, 0);
    }
  }

  lemma {:induction false} FirstInternalMeans(addresses: seq<Address>)
    ensures FirstInternal(addresses).None? <==> forall i :: 0 <= i < |addresses| ==> !addresses[i].internal
    ensures forall i :: InternalAt(addresses, i) ==> FirstInternal(addresses) == Some(addresses[i].ip)
    ensures FirstInternal(addresses).Some? ==> exists i :: InternalAt(addresses, i)
  {
    if addresses != [] && !addresses[0].internal {
      var rest := addresses[1..];
      FirstInternalMeans(rest);
      forall i | InternalAt(addresses, i)
        ensures FirstInternal(addresses) == Some(addresses[i].ip)
      {
        assert addresses[i] == rest[i - 1] && InternalAt(rest, i - 1);
      }
      forall i | 0 < i < |addresses| && addresses[i].internal
        ensures FirstInternal(addresses).Some?
      {
        assert rest[i - 1].internal;
      }
      if i :| InternalAt(rest, i) {
        assert addresses[i + 1] == rest[i] && InternalAt(addresses, i + 1);
      }
    } else if addresses != [] {
      assert InternalAt(addresses, 0);
    }
  }

  /** A node has the address it is reached at, and no other. */
  lemma IpMeans(n: Node, ip: string)
    ensures ReachedAt(n, ip) <==> Ip(n) == Some(ip)
  {
    ReadyMeans(n.conditions);
    FirstInternalMeans(n.addresses);
  }

  // ---------------------------------------------------------------------------
  // The methods
  // ---------------------------------------------------------------------------

  /** The first condition of type Ready decides, wherever it stands. */
  method IsNodeReady(n: Node) returns (r: bool)
    ensures r <==> exists i :: 0 <= i < |n.conditions| && n.conditions[i].isReady && n.conditions[i].isTrue
                               && forall j :: 0 <= j < i ==> !n.conditions[j].isReady
    ensures r == Ready(n.conditions)
  {
    for i := 0 to |n.conditions|
      invariant forall j :: 0 <= j < i ==> !n.conditions[j].isReady
      invariant Ready(n.conditions) == Ready(n.conditions[i..])
    {
      if n.conditions[i].isReady {
        return n.conditions[i].isTrue;
      }
    }
    r := false;
  }

  /** The first internal address, if there is one. */
  method FindInternal(n: Node) returns (r: Option<string>)
    ensures r.None? <==> forall i :: 0 <= i < |n.addresses| ==> !n.addresses[i].internal
    ensures forall i :: InternalAt(n.addresses, i) ==> r == Some(n.addresses[i].ip)
    ensures r == FirstInternal(n.addresses)
  {
    FirstInternalMeans(n.addresses);
    for i := 0 to |n.addresses|
      invariant FirstInternal(n.addresses) == FirstInternal(n.addresses[i..])
    {
      if n.addresses[i].internal {
        return Some(n.addresses[i].ip);
      }
    }
    r := None;
  }

  method CollectBackends(nodes: seq<Node>) returns (all: seq<Backend>, owners: map<string, Node>)
    ensures all == AllBackends(nodes) && owners == Owners(nodes)
  {
    all, owners := [], map[];
    for i := 0 to |nodes|
      invariant all == AllBackends(nodes[..i]) && owners == Owners(nodes[..i])
    {
      assert nodes[..i + 1][..i] == nodes[..i];
      var ready := IsNodeReady(nodes[i]);
      if ready {
        var ip := FindInternal(nodes[i]);
        if ip.Some? {
          all := all + [Backend(ip.value, nodes[i].subnet)];
          owners := owners[ip.value := nodes[i]];
        }
      }
    }
    assert nodes[..|nodes|] == nodes;
  }

  method AddNames(names: seq<Option<string>>, before: set<string>) returns (hosts: set<string>)
    ensures forall h :: h in hosts <==> h in before || exists name :: name in names && Names(name, h)
  {
    hosts := before;
    for i := 0 to |names|
      invariant forall h :: h in hosts <==> h in before || exists name :: name in names[..i] && Names(name, h)
    {
      assert names[..i + 1] == names[..i] + [names[i]];
      ghost var was := hosts;
      if names[i].Some? && names[i].value != "" {
        hosts := hosts + {names[i].value};
      }
      forall h
        ensures h in hosts <==> h in before || exists name :: name in names[..i + 1] && Names(name, h)
      {
        assert h in hosts <==> h in was || Names(names[i], h);
      }
    }
    assert names[..|names|] == names;
  }

  /** localEndpointNodeSet. */
  method LocalEndpointNodeSet(subsets: seq<Subset>) returns (hosts: set<string>)
    ensures forall h :: h in hosts <==> Hosts(subsets, h)
    ensures "" !in hosts
  {
    hosts := {};
    for i := 0 to |subsets|
      invariant forall h :: h in hosts <==> Hosts(subsets[..i], h)
    {
      ghost var was := hosts;
      hosts := AddNames(subsets[i].ready, hosts);
      hosts := AddNames(subsets[i].notReady, hosts);
      forall h
        ensures h in hosts <==> Hosts(subsets[..i + 1], h)
      {
        OneMoreSubset(subsets, i, h);
      }
    }
    assert subsets[..|subsets|] == subsets;
  }

  lemma OneMoreSubset(subsets: seq<Subset>, i: nat, h: string)
    requires i < |subsets|
    ensures Hosts(subsets[..i + 1], h) <==>
      Hosts(subsets[..i], h) || (exists name :: name in subsets[i].ready && Names(name, h))
        || (exists name :: name in subsets[i].notReady && Names(name, h))
  {
    if Hosts(subsets[..i], h) {
      var j, name :| 0 <= j < i && name in subsets[..i][j].ready + subsets[..i][j].notReady && Names(name, h);
      assert subsets[..i + 1][j] == subsets[..i][j];
    }
    if name :| name in subsets[i].ready && Names(name, h) {
      assert name in subsets[..i + 1][i].ready + subsets[..i + 1][i].notReady;
    }
    if name :| name in subsets[i].notReady && Names(name, h) {
      assert name in subsets[..i + 1][i].ready + subsets[..i + 1][i].notReady;
    }
    if Hosts(subsets[..i + 1], h) {
      var j, name :| 0 <= j < i + 1 && name in subsets[..i + 1][j].ready + subsets[..i + 1][j].notReady
        && Names(name, h);
      if j < i {
        assert subsets[..i][j] == subsets[..i + 1][j];
      }
    }
  }

  method FilterHosting(all: seq<Backend>, owners: map<string, Node>, hosts: set<string>) returns (r: seq<Backend>)
    ensures r == Hosting(all, owners, hosts)
  {
    r := [];
    for i := 0 to |all|
      invariant r == Hosting(all[..i], owners, hosts)
    {
      assert all[..i + 1][..i] == all[..i];
      if all[i].ip in owners && owners[all[i].ip].name in hosts {
        r := r + [all[i]];
      }
    }
    assert all[..|all|] == all;
  }

  /** The nodes to send traffic to. `nodes` and `endpoints` are None if they cannot be read, which
      under the Local policy fails for either, else for the nodes alone. */
  method GetNodeBackends(nodes: Option<seq<Node>>, local: bool, endpoints: Option<seq<Subset>>)
      returns (r: Result<seq<Backend>>)
    ensures r.Err? <==> nodes.None? || (local && endpoints.None?)
    ensures r.Ok? && !local ==> r.value == AllBackends(nodes.value)
    ensures r.Ok? && local ==>
      && (forall b :: b in r.value <==> b in AllBackends(nodes.value) && HostsThere(nodes.value, endpoints.value, b))
      && (forall b :: b in r.value ==> multiset(r.value)[b] == multiset(AllBackends(nodes.value))[b])
  {
    if nodes.None? {
      return Err(Other);
    }
    var all, owners := CollectBackends(nodes.value);
    if !local {
      return Ok(all);
    }
    if endpoints.None? {
      return Err(Other);
    }
    var hosts := LocalEndpointNodeSet(endpoints.value);
    HostingExact(all, owners, hosts);
    forall b: Backend
      ensures b.ip in owners && owners[b.ip].name in hosts <==> HostsThere(nodes.value, endpoints.value, b)
    {
      HostsMeans(nodes.value, endpoints.value, hosts, b);
    }
    if hosts == {} {
      return Ok([]);
    }
    var hosting := FilterHosting(all, owners, hosts);
    r := Ok(hosting);
  }

  // ---------------------------------------------------------------------------
  // What they return
  // ---------------------------------------------------------------------------

  lemma {:induction false} HostingExact(all: seq<Backend>, owners: map<string, Node>, hosts: set<string>)
    ensures forall b :: b in Hosting(all, owners, hosts) <==> b in all && b.ip in owners && owners[b.ip].name in hosts
    ensures forall b :: b in Hosting(all, owners, hosts) ==>
      multiset(Hosting(all, owners, hosts))[b] == multiset(all)[b]
  {
    if all != [] {
      HostingExact(all[..|all| - 1], owners, hosts);
      assert all == all[..|all| - 1] + [all[|all| - 1]];
    }
  }

  /** The last node reached at an address is the one that counts. */
  lemma {:induction false} OwnersAreLast(nodes: seq<Node>, ip: string)
    ensures ip in Owners(nodes) <==> exists i :: LastAt(nodes, ip, i)
    ensures forall i :: LastAt(nodes, ip, i) ==> ip in Owners(nodes) && Owners(nodes)[ip] == nodes[i]
  {
    hide ReachedAt, Ip;
    if nodes != [] {
      var init, last := nodes[..|nodes| - 1], nodes[|nodes| - 1];
      OwnersAreLast(init, ip);
      IpMeans(last, ip);
      if ReachedAt(last, ip) {
        assert LastAt(nodes, ip, |nodes| - 1);
      } else {
        forall i
          ensures LastAt(nodes, ip, i) <==> LastAt(init, ip, i)
        {
          assert 0 <= i < |init| ==> init[i] == nodes[i];
        }
      }
    }
  }

  /** What is reached at an address has a last one. */
  lemma {:induction false} SomeLast(nodes: seq<Node>, ip: string, k: nat) returns (i: nat)
    requires k < |nodes| && ReachedAt(nodes[k], ip)
    ensures LastAt(nodes, ip, i)
    decreases |nodes| - k
  {
    hide ReachedAt;
    i := k;
    if j :| k < j < |nodes| && ReachedAt(nodes[j], ip) {
      i := SomeLast(nodes, ip, j);
    }
  }

  lemma HostsMeans(nodes: seq<Node>, subsets: seq<Subset>, hosts: set<string>, b: Backend)
    requires forall h :: h in hosts <==> Hosts(subsets, h)
    ensures b.ip in Owners(nodes) && Owners(nodes)[b.ip].name in hosts <==> HostsThere(nodes, subsets, b)
  {
    hide LastAt, Hosts, Owners;
    OwnersAreLast(nodes, b.ip);
  }

  /** Exactly the ready nodes with an internal address, each under its first one. */
  lemma {:induction false} AllExact(nodes: seq<Node>, b: Backend)
    ensures b in AllBackends(nodes) <==> exists n :: n in nodes && ReachedAt(n, b.ip) && n.subnet == b.virsubnet
  {
    hide ReachedAt, Ip;
    if nodes != [] {
      var init, last := nodes[..|nodes| - 1], nodes[|nodes| - 1];
      AllExact(init, b);
      IpMeans(last, b.ip);
      assert nodes == init + [last];
      if ReachedAt(last, b.ip) && last.subnet == b.virsubnet {
        assert last in nodes;
      }
      if n :| n in init && ReachedAt(n, b.ip) && n.subnet == b.virsubnet {
        assert n in nodes;
      }
    }
  }

  /** ... in the order of the nodes, and one node at most once. */
  lemma {:induction false} AllInOrder(before: seq<Node>, after: seq<Node>)
    ensures AllBackends(before + after) == AllBackends(before) + AllBackends(after)
    ensures |AllBackends(after)| <= |after|
  {
    hide Ip;
    if after == [] {
      assert before + after == before;
    } else {
      var init, last := after[..|after| - 1], after[|after| - 1];
      AllInOrder(before, init);
      assert (before + after)[..|before + after| - 1] == before + init;
    }
  }

  /** After a successful sync a pool made for a node port has as members exactly the first internal
      addresses of the ready nodes, under the Local policy of those hosting an endpoint; of nodes with
      one address the last one has to. */
  lemma MembersAreTheNodes(c: Cloud, p: Id, service: string, ports: seq<ServicePort>, nodes: seq<Node>, local: bool,
                           subsets: seq<Subset>, backends: seq<Backend>, at: Endpoint)
    requires Exact(c, p, service, ports, backends) && NodePortFor(service, ports, c.pools[p].name) != 0
    requires forall b :: b in backends <==> b in AllBackends(nodes) && (local ==> HostsThere(nodes, subsets, b))
    ensures at in Endpoints(c, p) <==>
      && at.port == NodePortFor(service, ports, c.pools[p].name)
      && exists i :: LastAt(nodes, at.address, i) && (local ==> Hosts(subsets, nodes[i].name))
  {
    hide ReachedAt, Hosts, AllBackends, NodePortFor;
    var port := NodePortFor(service, ports, c.pools[p].name);
    if at in Endpoints(c, p) {
      var b :| b in backends && at == Endpoint(b.ip, port);
      AllExact(nodes, b);
      var k :| 0 <= k < |nodes| && ReachedAt(nodes[k], b.ip);
      var i := SomeLast(nodes, b.ip, k);
    }
    if i :| at.port == port && LastAt(nodes, at.address, i) && (local ==> Hosts(subsets, nodes[i].name)) {
      var b := Backend(at.address, nodes[i].subnet);
      assert nodes[i] in nodes;
      AllExact(nodes, b);
      assert b in backends && at == Endpoint(b.ip, port);
    }
  }
}
