/** The cloud side of reconcileCreate (internal/controller/service_controller.go): the listener
    stacks of an ELB that has just been created. */
module Launch {
  import opened Common
  import opened CloudModel
  import opened Steps
  import opened CloudApi
  import opened Members
  import opened Stacks
  import opened PoolSync
  import opened Acl
  import opened Converge

  /** Every one of these ports is served by a complete stack with the nodes as members. */
  ghost predicate Launched(c: Cloud, e: Id, service: string, ports: seq<ServicePort>, backends: seq<Backend>) {
    forall i :: 0 <= i < |ports| ==> LaunchedAt(c, e, service, ports[i], backends)
  }

  ghost predicate LaunchedAt(c: Cloud, e: Id, service: string, sp: ServicePort, backends: seq<Backend>) {
    exists l :: Serves(c, e, l, service, sp.port, EndpointsFor(backends, sp.nodePort))
  }

  lemma NothingLaunched(c: Cloud, e: Id, service: string, ports: seq<ServicePort>, backends: seq<Backend>)
    ensures Launched(c, e, service, ports[..0], backends)
  {
  }

  /** One stack more serves its port, and those there were go on serving theirs. */
  lemma OneMoreLaunched(c: Cloud, e: Id, service: string, ports: seq<ServicePort>, i: nat, backends: seq<Backend>,
                        subnets: map<string, string>)
    requires WF(c) && i < |ports| && Launched(c, e, service, ports[..i], backends)
    ensures var c' := AddStack(c, e, service, ports[i].port, TargetsOf(backends, ports[i].nodePort, subnets));
      && Launched(c', e, service, ports[..i + 1], backends)
      && Ports(c', e) == Ports(c, e) + {ports[i].port}
      && c'.elbs == c.elbs
  {
    hide AddStack, Serves, WF, Ports, EndpointsFor, TargetsOf, Undisturbed;
    var targets := TargetsOf(backends, ports[i].nodePort, subnets);
    var c' := AddStack(c, e, service, ports[i].port, targets);
    AddStackServes(c, e, service, ports[i].port, targets);
    AddStackKeepsElbs(c, e, service, ports[i].port, targets);
    TargetsAreEndpoints(backends, ports[i].nodePort, subnets);
    var now := ports[..i + 1];
    forall j | 0 <= j < |now|
      ensures LaunchedAt(c', e, service, now[j], backends)
    {
      if j < i {
        assert ports[..i][j] == ports[j] && LaunchedAt(c, e, service, ports[..i][j], backends);
        StillLaunched(c, e, service, ports[i].port, targets, ports[j], backends);
      }
    }
  }

  lemma StillLaunched(c: Cloud, e: Id, service: string, port: int, targets: seq<Target>, sp: ServicePort,
                      backends: seq<Backend>)
    requires WF(c) && LaunchedAt(c, e, service, sp, backends)
    ensures LaunchedAt(AddStack(c, e, service, port, targets), e, service, sp, backends)
  {
    hide AddStack, Serves, WF, EndpointsFor, Undisturbed;
    var c' := AddStack(c, e, service, port, targets);
    var l :| Serves(c, e, l, service, sp.port, EndpointsFor(backends, sp.nodePort));
    ServesHere(c, e, l, service, sp.port, EndpointsFor(backends, sp.nodePort));
    AddStackDisturbsNobody(c, e, service, port, targets, l);
    ServesUndisturbed(c, c', e, l, service, sp.port, EndpointsFor(backends, sp.nodePort));
  }

  /** With stacks for all ports and no listener beside these, the ELB serves as asked. */
  lemma LaunchedServed(c: Cloud, e: Id, s: Spec, backends: seq<Backend>)
    requires WF(c) && DistinctPorts(s) && Launched(c, e, s.service, s.ports, backends) && Ports(c, e) == Wants(s)
    ensures Served(c, e, s, backends)
  {
    hide Serves, Complete, Exact;
    forall l | ListenerOn(c, l, e)
      ensures Complete(c, l, s.service)
      ensures forall p :: p in c.pools && c.pools[p].listener == l ==> Exact(c, p, s.service, s.ports, backends)
    {
      assert l in ListenersOf(c, e) && c.listeners[l].port in Ports(c, e);
      ServedAt(c, e, s, backends, l);
    }
  }

  lemma ServedAt(c: Cloud, e: Id, s: Spec, backends: seq<Backend>, l: Id)
    requires WF(c) && DistinctPorts(s) && Launched(c, e, s.service, s.ports, backends)
    requires ListenerOn(c, l, e) && c.listeners[l].port in Wants(s)
    ensures Complete(c, l, s.service)
    ensures forall p :: p in c.pools && c.pools[p].listener == l ==> Exact(c, p, s.service, s.ports, backends)
  {
    hide Serves, Complete;
    var n := c.listeners[l].port;
    PortMapKeys(s.ports);
    var i :| 0 <= i < |s.ports| && s.ports[i] == PortMap(s.ports)[n];
    assert LaunchedAt(c, e, s.service, s.ports[i], backends);
    var x :| Serves(c, e, x, s.service, n, EndpointsFor(backends, s.ports[i].nodePort));
    ServesHere(c, e, x, s.service, n, EndpointsFor(backends, s.ports[i].nodePort));
    assert x == l;
    ServesComplete(c, e, l, s.service, n, EndpointsFor(backends, s.ports[i].nodePort));
    NodePortOf(s, n);
  }

  /** What is created here is open. */
  lemma NewIsOpen(c: Cloud, c': Cloud, e: Id, want: set<int>)
    requires Progress(c, c', e, want) && ListenersOf(c, e) == {}
    ensures Open(c', e)
  {
    hide WF, PortGap, OnlyBelow;
    forall l | ListenerOn(c', l, e)
      ensures c'.listeners[l].acl.None?
    {
      assert l !in ListenersOf(c, e);
    }
  }

  lemma NoListenersNoPorts(c: Cloud, e: Id)
    ensures ListenersOf(c, e) == {} ==> Ports(c, e) == {}
  {
  }

  /** The ports of the ELB are the first `i`, and these differ. */
  ghost predicate FirstPorts(c: Cloud, e: Id, ports: seq<ServicePort>, i: nat)
    requires i <= |ports|
  {
    && Ports(c, e) == (set j | 0 <= j < i :: ports[j].port)
    && forall x, y | 0 <= x < y < i :: ports[x].port != ports[y].port
  }

  lemma NoFirst(c: Cloud, e: Id, ports: seq<ServicePort>)
    ensures Ports(c, e) == {} ==> FirstPorts(c, e, ports, 0)
  {
    hide Ports;
  }

  lemma OneMoreFirst(c: Cloud, c': Cloud, e: Id, ports: seq<ServicePort>, i: nat)
    requires i < |ports| && FirstPorts(c, e, ports, i) && ports[i].port !in Ports(c, e)
    requires Ports(c', e) == Ports(c, e) + {ports[i].port}
    ensures FirstPorts(c', e, ports, i + 1)
  {
    hide Ports;
  }

  /** The next one is still free, if it differs from those before. */
  lemma StillFree(c: Cloud, e: Id, s: Spec, i: nat)
    requires i < |s.ports| && FirstPorts(c, e, s.ports, i) && DistinctPorts(s)
    ensures s.ports[i].port !in Ports(c, e)
  {
    hide Ports;
  }

  lemma AllFirst(c: Cloud, e: Id, s: Spec)
    requires FirstPorts(c, e, s.ports, |s.ports|)
    ensures DistinctPorts(s) && Ports(c, e) == Wants(s)
  {
    PortMapKeys(s.ports);
    hide Ports, PortMap;
  }

  lemma IsWanted(s: Spec, i: nat)
    requires i < |s.ports|
    ensures s.ports[i].port in Wants(s)
  {
    PortMapKeys(s.ports);
  }

  /** The loop of reconcileCreate over the ports; a failure ends it. On an ELB without listeners it
      leaves every port served and every listener open. Without faults it gets there if and only if the
      port numbers differ: the second of two ports of one number is refused. Wherever it stops, every new
      member is a node in its subnet. */
  method CreateAllStacks(api: Api, e: Id, s: Spec, backends: seq<Backend>, subnets: map<string, string>)
    returns (r: Result<()>)
    requires api.Valid() && api.faults == 0
    modifies api
    ensures api.Valid() && Progress(old(api.c), api.c, e, Wants(s))
    ensures r.Ok? && ListenersOf(old(api.c), e) == {} ==>
      Open(api.c, e) && DistinctPorts(s) && Served(api.c, e, s, backends)
    ensures Staffed(old(api.c.members), api.c.members, backends, subnets)
    ensures r.Ok? ==> api.faults == 0
    ensures (r.Err? && e in old(api.c.elbs) && ListenersOf(old(api.c), e) == {} && DistinctPorts(s)
             && Usable(backends, subnets)) ==>
      api.faults == 1
  {
    hide Api.Valid, Progress, AddStack, Ports, Usable, WF, Launched, Served, Open, ListenersOf, Staffed, FirstPorts;
    hide DistinctPorts, Wants;
    ghost var before := api.c;
    StaffedHere(before.members, backends, subnets);
    var ports := s.ports;
    NoListenersNoPorts(before, e);
    api.Begin(SyncPorts(e, Wants(s)));
    NothingLaunched(before, e, s.service, ports, backends);
    NoFirst(before, e, ports);
    for i := 0 to |ports|
      invariant api.Valid() && api.purpose == SyncPorts(e, Wants(s)) && api.origin == before && api.faults == 0
      invariant Launched(api.c, e, s.service, ports[..i], backends)
      invariant e in before.elbs ==> e in api.c.elbs
      invariant Staffed(before.members, api.c.members, backends, subnets)
      invariant Ports(before, e) == {} ==> FirstPorts(api.c, e, ports, i)
    {
      api.Intact();
      ghost var c := api.c;
      IsWanted(s, i);
      OneMoreLaunched(api.c, e, s.service, ports, i, backends, subnets);
      if Ports(before, e) == {} && DistinctPorts(s) {
        StillFree(c, e, s, i);
      }
      r := CreateListenerStack(api, e, s.service, ports[i], backends, subnets);
      StaffedOn(before.members, c.members, api.c.members, backends, subnets);
      if r.Err? {
        CallsProgress(api, e, Wants(s));
        return;
      }
      if Ports(before, e) == {} {
        OneMoreFirst(c, api.c, e, ports, i);
      }
    }
    CallsProgress(api, e, Wants(s));
    assert ports[..|ports|] == ports;
    api.Intact();
    if ListenersOf(before, e) == {} {
      NewIsOpen(before, api.c, e, Wants(s));
      AllFirst(api.c, e, s);
      LaunchedServed(api.c, e, s, backends);
    }
    r := Ok(());
  }
}
