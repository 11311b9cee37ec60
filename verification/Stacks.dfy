/** Listener stacks (internal/controller/service_controller.go): a listener, its pool, the
    pool's health monitor and members for each Service port; and the diff of ports that adds
    missing stacks and removes unwanted ones. */
module Stacks {
  import opened Common
  import opened Naming
  import opened CloudModel
  import opened CloudApi
  import opened Steps
  import opened Members

  datatype ServicePort = ServicePort(port: int, nodePort: nat)

  /** A node as the load balancer sees it. */
  datatype Backend = Backend(ip: string, virsubnet: string)

  // ---------------------------------------------------------------------------
  // What is wanted
  // ---------------------------------------------------------------------------

  /** The Service ports by number; of two with the same number the later one counts. */
  function PortMap(ports: seq<ServicePort>): map<int, ServicePort> {
    if ports == [] then map[]
    else
      var last := ports[|ports| - 1];
      PortMap(ports[..|ports| - 1])[last.port := last]
  }

  lemma {:induction false} PortMapKeys(ports: seq<ServicePort>)
    ensures PortMap(ports).Keys == set sp | sp in ports :: sp.port
    ensures forall n :: n in PortMap(ports) ==> PortMap(ports)[n].port == n && PortMap(ports)[n] in ports
  {
    if ports != [] {
      var init, last := ports[..|ports| - 1], ports[|ports| - 1];
      PortMapKeys(init);
      assert ports == init + [last];
    }
  }

  /** Of Service ports with one number the last one counts. */
  lemma {:induction false} PortMapLast(ports: seq<ServicePort>, k: nat)
    requires k < |ports| && forall j :: k < j < |ports| ==> ports[j].port != ports[k].port
    ensures ports[k].port in PortMap(ports) && PortMap(ports)[ports[k].port] == ports[k]
  {
    var init := ports[..|ports| - 1];
    if k < |ports| - 1 {
      assert forall j :: 0 <= j < |init| ==> init[j] == ports[j];
      PortMapLast(init, k);
    }
  }

  /** The members a pool for `nodePort` should have, in the order of the backends. A node port
      of zero means none yet. */
  function TargetsOf(backends: seq<Backend>, nodePort: nat, subnets: map<string, string>): (ts: seq<Target>)
    ensures nodePort > 0 ==> |ts| == |backends|
  {
    if nodePort == 0 then []
    else
      seq(|backends|, i requires 0 <= i < |backends| =>
        var b := backends[i];
        Target(Endpoint(b.ip, nodePort), if b.virsubnet in subnets then subnets[b.virsubnet] else ""))
  }

  function EndpointsFor(backends: seq<Backend>, nodePort: nat): set<Endpoint> {
    if nodePort == 0 then {} else set b | b in backends :: Endpoint(b.ip, nodePort)
  }

  lemma TargetsAreEndpoints(backends: seq<Backend>, nodePort: nat, subnets: map<string, string>)
    ensures (set t | t in TargetsOf(backends, nodePort, subnets) :: t.at) == EndpointsFor(backends, nodePort)
  {
    if nodePort > 0 {
      var ts := TargetsOf(backends, nodePort, subnets);
      forall b | b in backends
        ensures exists t :: t in ts && t.at == Endpoint(b.ip, nodePort)
      {
        var i :| 0 <= i < |backends| && backends[i] == b;
        assert ts[i] in ts && ts[i].at == Endpoint(b.ip, nodePort);
      }
    }
  }

  /** Every node's subnet is known, and no two nodes have the same address. */
  ghost predicate Usable(backends: seq<Backend>, subnets: map<string, string>) {
    && (forall b :: b in backends ==> b.virsubnet in subnets)
    && (forall i, j | 0 <= i < j < |backends| :: backends[i].ip != backends[j].ip)
  }

  // ---------------------------------------------------------------------------
  // In which subnet a member is created
  // ---------------------------------------------------------------------------

  /** The member is one of the nodes, in the subnet this node is in. */
  ghost predicate Seated(m: Member, backends: seq<Backend>, subnets: map<string, string>) {
    exists b :: b in backends && b.ip == m.at.address && b.virsubnet in subnets && m.subnet == subnets[b.virsubnet]
  }

  /** Every member that is not as it was is one of the nodes, in this node's subnet. */
  ghost predicate Staffed(before: map<Id, Member>, after: map<Id, Member>, backends: seq<Backend>,
      subnets: map<string, string>)
  {
    forall m :: m in after && !(m in before && before[m] == after[m]) ==> Seated(after[m], backends, subnets)
  }

  /** Every member is as it was. */
  ghost predicate NoneNew(before: map<Id, Member>, after: map<Id, Member>) {
    forall m :: m in after ==> m in before && before[m] == after[m]
  }

  lemma StaffedOn(a: map<Id, Member>, b: map<Id, Member>, c: map<Id, Member>, backends: seq<Backend>,
                  subnets: map<string, string>)
    requires Staffed(a, b, backends, subnets) && Staffed(b, c, backends, subnets)
    ensures Staffed(a, c, backends, subnets)
  {
    hide Seated;
  }

  lemma NoneNewStaffed(a: map<Id, Member>, b: map<Id, Member>, c: map<Id, Member>, backends: seq<Backend>,
                       subnets: map<string, string>)
    requires Staffed(a, b, backends, subnets) && NoneNew(b, c)
    ensures Staffed(a, c, backends, subnets)
  {
    hide Seated;
  }

  lemma StaffedHere(a: map<Id, Member>, backends: seq<Backend>, subnets: map<string, string>)
    ensures Staffed(a, a, backends, subnets)
  {
  }

  /** One member more, for a node in its subnet. */
  lemma OneMoreStaffed(before: map<Id, Member>, c: Cloud, p: Id, b: Backend, nodePort: nat, backends: seq<Backend>,
                       subnets: map<string, string>)
    requires Staffed(before, c.members, backends, subnets) && b in backends && b.virsubnet in subnets
    ensures Staffed(before, AddMember(c, p, Endpoint(b.ip, nodePort), subnets[b.virsubnet]).members, backends, subnets)
  {
    assert Seated(Member(p, Endpoint(b.ip, nodePort), subnets[b.virsubnet]), backends, subnets);
  }

  /** Listeners, pools and monitors come without members. */
  lemma FrameHasNoMembers(c: Cloud, e: Id, port: int, l: Id, name: string, p: Id)
    ensures AddListener(c, e, port).members == AddPool(c, l, name).members == AddMonitor(c, p).members == c.members
  {
  }

  lemma DropHasNoMembers(c: Cloud, l: Id)
    ensures NoneNew(c.members, DropListener(c, l).members)
  {
  }

  // ---------------------------------------------------------------------------
  // What a complete stack is
  // ---------------------------------------------------------------------------

  function AddMembers(c: Cloud, p: Id, targets: seq<Target>): Cloud {
    if targets == [] then c
    else
      var last := targets[|targets| - 1];
      AddMember(AddMembers(c, p, targets[..|targets| - 1]), p, last.at, last.subnet)
  }

  function AddFrame(c: Cloud, e: Id, service: string, port: int): Cloud {
    AddMonitor(AddPool(AddListener(c, e, port), c.next, PoolName(service, port)), c.next + 1)
  }

  /** The cloud with a stack for one port added: the listener gets the first free identifier,
      the pool the second, the monitor the third, then come the members. */
  function AddStack(c: Cloud, e: Id, service: string, port: int, targets: seq<Target>): Cloud {
    AddMembers(AddFrame(c, e, service, port), c.next + 1, targets)
  }

  /** Pool `p` is the only one of listener `l`, was made for this port, is monitored, and has
      exactly these members. */
  ghost predicate ServesWith(c: Cloud, l: Id, p: Id, name: string, ats: set<Endpoint>) {
    && PoolsAt(c, l) == {p}
    && p in c.pools && c.pools[p].name == name
    && MonitorsOf(c, p) != {}
    && Endpoints(c, p) == ats
  }

  ghost predicate Serves(c: Cloud, e: Id, l: Id, service: string, port: int, ats: set<Endpoint>) {
    && ListenerOn(c, l, e)
    && c.listeners[l].port == port
    && exists p :: ServesWith(c, l, p, PoolName(service, port), ats)
  }

  /** `c'` has members of pool `p` more, and these endpoints in it. */
  ghost predicate Joined(c: Cloud, c': Cloud, p: Id, ats: set<Endpoint>) {
    && c' == c.(members := c'.members, next := c'.next)
    && Bounded(c')
    && (forall m :: m in c.members ==> m in c'.members && c'.members[m] == c.members[m])
    && (forall m :: m in c'.members && m !in c.members ==> m >= c.next && c'.members[m].pool == p)
    && Endpoints(c', p) == Endpoints(c, p) + ats
  }

  lemma OneMoreJoined(c: Cloud, c': Cloud, p: Id, ats: set<Endpoint>, at: Endpoint, subnet: string)
    requires Bounded(c) && c.next <= c'.next && Joined(c, c', p, ats)
    ensures Joined(c, AddMember(c', p, at, subnet), p, ats + {at})
  {
    EndpointsAfterAdd(c', p, at, subnet);
    hide Endpoints;
    UnionAssociates(Endpoints(c, p), ats, {at});
  }

  lemma {:induction false} AddMembersEffect(c: Cloud, p: Id, targets: seq<Target>)
    requires Bounded(c)
    ensures Joined(c, AddMembers(c, p, targets), p, set t | t in targets :: t.at)
    ensures AddMembers(c, p, targets).next == c.next + |targets|
  {
    if targets != [] {
      var init, last := targets[..|targets| - 1], targets[|targets| - 1];
      AddMembersEffect(c, p, init);
      OneMoreJoined(c, AddMembers(c, p, init), p, set t | t in init :: t.at, last.at, last.subnet);
      hide Joined;
      assert targets == init + [last];
      assert (set t | t in targets :: t.at) == (set t | t in init :: t.at) + {last.at};
    }
  }

  lemma FrameEffect(c: Cloud, e: Id, service: string, port: int)
    requires WF(c)
    ensures var c' := AddFrame(c, e, service, port);
      && c'.listeners == c.listeners[c.next := Listener(e, port, None)]
      && c'.pools == c.pools[c.next + 1 := Pool(c.next, PoolName(service, port))]
      && c'.monitors == c.monitors[c.next + 2 := c.next + 1]
      && c'.elbs == c.elbs && c'.members == c.members && c'.next == c.next + 3
      && Bounded(c') && Endpoints(c', c.next + 1) == {}
  {
    assert MembersOf(AddFrame(c, e, service, port), c.next + 1) == {};
  }

  lemma AddStackEffect(c: Cloud, e: Id, service: string, port: int, targets: seq<Target>)
    requires WF(c)
    ensures var c' := AddStack(c, e, service, port, targets);
      && c'.listeners == c.listeners[c.next := Listener(e, port, None)]
      && c'.pools == c.pools[c.next + 1 := Pool(c.next, PoolName(service, port))]
      && c'.monitors == c.monitors[c.next + 2 := c.next + 1]
      && c'.elbs == c.elbs
      && (forall m :: m in c.members ==> m in c'.members && c'.members[m] == c.members[m])
      && (forall m :: m in c'.members && m !in c.members ==> c'.members[m].pool == c.next + 1)
      && Endpoints(c', c.next + 1) == set t | t in targets :: t.at
  {
    hide AddFrame, AddMembers, Bounded, WF, Endpoints;
    FrameEffect(c, e, service, port);
    AddMembersEffect(AddFrame(c, e, service, port), c.next + 1, targets);
  }

  lemma NoMembers(c: Cloud, p: Id)
    ensures AddMembers(c, p, []) == c
  {
  }

  lemma PortsAfterAdd(c: Cloud, e: Id, port: int)
    requires Bounded(c)
    ensures Ports(AddListener(c, e, port), e) == Ports(c, e) + {port}
  {
    var c' := AddListener(c, e, port);
    assert ListenersOf(c', e) == ListenersOf(c, e) + {c.next};
    assert forall l :: l in ListenersOf(c, e) ==> c'.listeners[l] == c.listeners[l];
    assert c'.listeners[c.next].port == port;
  }

  lemma SameListenersSamePorts(c: Cloud, c': Cloud, e: Id)
    requires c'.listeners == c.listeners
    ensures Ports(c', e) == Ports(c, e)
  {
    assert ListenersOf(c', e) == ListenersOf(c, e);
  }

  lemma AddStackServes(c: Cloud, e: Id, service: string, port: int, targets: seq<Target>)
    requires WF(c)
    ensures var c' := AddStack(c, e, service, port, targets);
      && Serves(c', e, c.next, service, port, set t | t in targets :: t.at)
      && Ports(c', e) == Ports(c, e) + {port}
  {
    hide AddStack, Endpoints, Ports;
    var c' := AddStack(c, e, service, port, targets);
    AddStackEffect(c, e, service, port, targets);
    PortsAfterAdd(c, e, port);
    SameListenersSamePorts(AddListener(c, e, port), c', e);
    assert c.next + 2 in MonitorsOf(c', c.next + 1);
    assert PoolsAt(c', c.next) == {c.next + 1};
    hide MonitorsOf, PoolsAt;
    assert ServesWith(c', c.next, c.next + 1, PoolName(service, port), set t | t in targets :: t.at);
  }

  /** Listener `l` and everything below it are the same in both clouds. */
  ghost predicate Undisturbed(c: Cloud, c': Cloud, l: Id) {
    && l in c.listeners && l in c'.listeners && c'.listeners[l] == c.listeners[l]
    && PoolsAt(c', l) == PoolsAt(c, l)
    && forall p :: p in PoolsAt(c, l) ==>
         && c'.pools[p] == c.pools[p]
         && MonitorsOf(c', p) == MonitorsOf(c, p)
         && MembersOf(c', p) == MembersOf(c, p)
         && forall m :: m in MembersOf(c, p) ==> c'.members[m] == c.members[m]
  }

  lemma UndisturbedTransitive(a: Cloud, b: Cloud, c: Cloud, l: Id)
    requires Undisturbed(a, b, l) && Undisturbed(b, c, l)
    ensures Undisturbed(a, c, l)
  {
  }

  lemma ServesUndisturbed(c: Cloud, c': Cloud, e: Id, l: Id, service: string, port: int, ats: set<Endpoint>)
    requires Serves(c, e, l, service, port, ats) && Undisturbed(c, c', l)
    ensures Serves(c', e, l, service, port, ats)
  {
    var p :| ServesWith(c, l, p, PoolName(service, port), ats);
    assert ServesWith(c', l, p, PoolName(service, port), ats);
  }

  lemma AddStackDisturbsNobody(c: Cloud, e: Id, service: string, port: int, targets: seq<Target>, l: Id)
    requires WF(c) && l in c.listeners
    ensures Undisturbed(c, AddStack(c, e, service, port, targets), l)
  {
    hide AddStack, Endpoints;
    var c' := AddStack(c, e, service, port, targets);
    AddStackEffect(c, e, service, port, targets);
    assert PoolsAt(c', l) == PoolsAt(c, l);
    forall p | p in PoolsAt(c, l)
      ensures MonitorsOf(c', p) == MonitorsOf(c, p) && MembersOf(c', p) == MembersOf(c, p)
    {
    }
  }

  lemma DropListenerDisturbsNobody(c: Cloud, k: Id, l: Id)
    requires WF(c) && l in c.listeners && l != k
    ensures Undisturbed(c, DropListener(c, k), l)
  {
    hide Bounded, Distinct;
    var c' := DropListener(c, k);
    assert PoolsAt(c', l) == PoolsAt(c, l);
    forall p | p in PoolsAt(c, l)
      ensures MonitorsOf(c', p) == MonitorsOf(c, p) && MembersOf(c', p) == MembersOf(c, p)
    {
    }
  }

  lemma PortsAfterDrop(c: Cloud, e: Id, l: Id)
    requires Distinct(c) && ListenerOn(c, l, e)
    ensures Ports(DropListener(c, l), e) == Ports(c, e) - {c.listeners[l].port}
  {
    var c' := DropListener(c, l);
    assert ListenersOf(c', e) == ListenersOf(c, e) - {l};
    forall k | k in ListenersOf(c, e) && k != l
      ensures c.listeners[k].port != c.listeners[l].port && c.listeners[k].port in Ports(c', e)
    {
      assert k in ListenersOf(c', e) && c'.listeners[k] == c.listeners[k];
    }
    forall k | k in ListenersOf(c', e)
      ensures c'.listeners[k].port in Ports(c, e)
    {
      assert k in ListenersOf(c, e);
    }
  }

  // ---------------------------------------------------------------------------
  // One call of the port sync
  // ---------------------------------------------------------------------------

  function PortGap(c: Cloud, e: Id, want: set<int>): nat {
    |Ports(c, e) - want| + |want - Ports(c, e)|
  }

  /** Listeners for wanted ports stay, with everything that is below them; new listeners are open. */
  ghost predicate KeepsWanted(c: Cloud, c': Cloud, e: Id, want: set<int>) {
    && (forall l :: ListenerOn(c, l, e) && c.listeners[l].port in want
          ==> l in c'.listeners && c'.listeners[l] == c.listeners[l])
    && (forall l :: l in c'.listeners && l < c.next ==> l in c.listeners && c'.listeners[l] == c.listeners[l])
    && (forall l :: l in c'.listeners && l >= c.next ==> c'.listeners[l].acl.None?)
    && KeepsPools(c, c')
  }

  /** No pool changes, and it stays with its listener, as its monitors and members do with it. */
  ghost predicate KeepsPools(c: Cloud, c': Cloud) {
    && (forall p :: p in c'.pools && p < c.next ==> p in c.pools && c'.pools[p] == c.pools[p])
    && (forall p :: p in c.pools && c.pools[p].listener in c'.listeners ==> p in c'.pools && c'.pools[p] == c.pools[p])
    && (forall m :: m in c.monitors && c.monitors[m] in c'.pools ==>
       m in c'.monitors && c'.monitors[m] == c.monitors[m])
    && (forall m :: m in c.members && c.members[m].pool in c'.pools ==>
       m in c'.members && c'.members[m] == c.members[m])
  }

  /** Each call keeps the cloud intact, changes nothing outside the ELB, loses no listener for
      a wanted port; and each call that changes the listeners brings the ports nearer by one. */
  ghost predicate Progress(c: Cloud, c': Cloud, e: Id, want: set<int>) {
    && WF(c')
    && OnlyBelow(c, c', e)
    && KeepsWanted(c, c', e, want)
    && PortGap(c', e, want) <= PortGap(c, e, want)
    && (c'.listeners != c.listeners ==> PortGap(c', e, want) < PortGap(c, e, want))
  }

  lemma AddListenerKeepsWanted(c: Cloud, e: Id, port: int, want: set<int>)
    requires WF(c)
    ensures KeepsWanted(c, AddListener(c, e, port), e, want)
  {
  }

  lemma AddPoolKeepsWanted(c: Cloud, l: Id, name: string, e: Id, want: set<int>)
    requires WF(c)
    ensures KeepsWanted(c, AddPool(c, l, name), e, want)
  {
  }

  lemma AddMonitorKeepsWanted(c: Cloud, p: Id, e: Id, want: set<int>)
    requires WF(c)
    ensures KeepsWanted(c, AddMonitor(c, p), e, want)
  {
  }

  lemma AddMemberKeepsWanted(c: Cloud, p: Id, at: Endpoint, subnet: string, e: Id, want: set<int>)
    requires WF(c)
    ensures KeepsWanted(c, AddMember(c, p, at, subnet), e, want)
  {
  }

  lemma DropKeepsWanted(c: Cloud, e: Id, l: Id, want: set<int>)
    requires Bounded(c) && ListenerOn(c, l, e) && c.listeners[l].port !in want
    ensures KeepsWanted(c, DropListener(c, l), e, want)
  {
    var c' := DropListener(c, l);
    forall p | p in c.pools && c.pools[p].listener in c'.listeners
      ensures p in c'.pools
    {
      assert p !in PoolsAt(c, l);
    }
  }

  lemma ListenerProgress(c: Cloud, e: Id, port: int, want: set<int>)
    requires WF(c) && e in c.elbs && port in want && port !in Ports(c, e)
    ensures Progress(c, AddListener(c, e, port), e, want)
  {
    AddListenerKeepsWF(c, e, port);
    AddListenerBelow(c, e, port);
    AddListenerKeepsWanted(c, e, port, want);
    PortsAfterAdd(c, e, port);
    FewerMissing(Ports(c, e), want, port);
  }

  lemma PoolProgress(c: Cloud, e: Id, l: Id, name: string, want: set<int>)
    requires WF(c) && ListenerOn(c, l, e)
    ensures Progress(c, AddPool(c, l, name), e, want)
  {
    AddPoolKeepsWF(c, l, name);
    AddPoolBelow(c, l, name, e);
    AddPoolKeepsWanted(c, l, name, e, want);
    SameListenersSamePorts(c, AddPool(c, l, name), e);
  }

  lemma MonitorProgress(c: Cloud, e: Id, p: Id, want: set<int>)
    requires WF(c) && PoolOn(c, p, e)
    ensures Progress(c, AddMonitor(c, p), e, want)
  {
    AddMonitorKeepsWF(c, p);
    AddMonitorBelow(c, p, e);
    AddMonitorKeepsWanted(c, p, e, want);
    SameListenersSamePorts(c, AddMonitor(c, p), e);
  }

  lemma AddMemberBelow(c: Cloud, p: Id, at: Endpoint, subnet: string, e: Id)
    requires WF(c) && PoolOn(c, p, e)
    ensures OnlyBelow(c, AddMember(c, p, at, subnet), e)
  {
    MembersChangeBelow(c, AddMember(c, p, at, subnet), p, e);
  }

  lemma MemberProgress(c: Cloud, e: Id, p: Id, at: Endpoint, subnet: string, want: set<int>)
    requires WF(c) && PoolOn(c, p, e) && at !in Endpoints(c, p)
    ensures Progress(c, AddMember(c, p, at, subnet), e, want)
  {
    hide WF, OnlyBelow, KeepsWanted, Ports;
    AddMemberKeepsWF(c, p, at, subnet);
    AddMemberBelow(c, p, at, subnet, e);
    AddMemberKeepsWanted(c, p, at, subnet, e, want);
    SameListenersSamePorts(c, AddMember(c, p, at, subnet), e);
  }

  lemma DropProgress(c: Cloud, e: Id, l: Id, want: set<int>)
    requires WF(c) && ListenerOn(c, l, e) && c.listeners[l].port !in want
    ensures Progress(c, DropListener(c, l), e, want)
  {
    DropListenerKeepsWF(c, l);
    DropListenerBelow(c, l, e);
    DropKeepsWanted(c, e, l, want);
    PortsAfterDrop(c, e, l);
    assert c.listeners[l].port in Ports(c, e) by {
      assert l in ListenersOf(c, e);
    }
    FewerExtra(Ports(c, e), want, c.listeners[l].port);
  }

  lemma PortStepProgress(c: Cloud, c': Cloud, e: Id, want: set<int>)
    requires WF(c) && PortStep(c, c', e, want)
    ensures Progress(c, c', e, want)
  {
    hide Progress, WF, AddListener, AddPool, AddMonitor, CloudModel.AddMember, DropListener;
    if port :| port in want && port !in Ports(c, e) && e in c.elbs && c' == AddListener(c, e, port) {
      ListenerProgress(c, e, port, want);
    } else if l, name :| ListenerOn(c, l, e) && c' == AddPool(c, l, name) {
      PoolProgress(c, e, l, name, want);
    } else if p :| PoolOn(c, p, e) && c' == AddMonitor(c, p) {
      MonitorProgress(c, e, p, want);
    } else if p, at, subnet :| PoolOn(c, p, e) && at !in Endpoints(c, p) && c' == AddMember(c, p, at, subnet) {
      MemberProgress(c, e, p, at, subnet, want);
    } else {
      var l :| ListenerOn(c, l, e) && c.listeners[l].port !in want && c' == DropListener(c, l);
      DropProgress(c, e, l, want);
    }
  }

  lemma KeepsWantedTransitive(a: Cloud, b: Cloud, c: Cloud, e: Id, want: set<int>)
    requires Bounded(a) && Rooted(a) && a.next <= b.next
    requires KeepsWanted(a, b, e, want) && KeepsWanted(b, c, e, want)
    ensures KeepsWanted(a, c, e, want)
  {
    KeepsPoolsTransitive(a, b, c);
    hide KeepsPools;
  }

  lemma KeepsPoolsTransitive(a: Cloud, b: Cloud, c: Cloud)
    requires Bounded(a) && Rooted(a) && a.next <= b.next && KeepsPools(a, b) && KeepsPools(b, c)
    requires forall l :: l in c.listeners && l < b.next ==> l in b.listeners
    ensures KeepsPools(a, c)
  {
  }

  lemma ProgressTransitive(a: Cloud, b: Cloud, c: Cloud, e: Id, want: set<int>)
    requires WF(a) && Progress(a, b, e, want) && Progress(b, c, e, want)
    ensures Progress(a, c, e, want)
  {
    KeepsWantedTransitive(a, b, c, e, want);
  }

  /** So stopping the port sync anywhere loses no wanted port, and as every created or deleted
      listener brings the ports nearer, retries come to an end. */
  lemma {:induction false} PortRunProgress(points: seq<Cloud>, from: nat, e: Id, want: set<int>)
    requires from < |points| && Run(SyncPorts(e, want), points) && WF(points[from])
    ensures Progress(points[from], points[|points| - 1], e, want)
    decreases |points| - from
  {
    if from < |points| - 1 {
      assert Step(SyncPorts(e, want), points[from], points[from + 1]);
      PortStepProgress(points[from], points[from + 1], e, want);
      PortRunProgress(points, from + 1, e, want);
      ProgressTransitive(points[from], points[from + 1], points[|points| - 1], e, want);
    } else {
      assert KeepsWanted(points[from], points[from], e, want);
    }
  }

  lemma CallsProgress(api: Api, e: Id, want: set<int>)
    requires api.Valid() && api.purpose == SyncPorts(e, want)
    ensures Progress(api.origin, api.c, e, want)
  {
    PortRunProgress(api.Points(), 0, e, want);
  }

  lemma FrameSteps(c: Cloud, e: Id, service: string, port: int, want: set<int>)
    requires WF(c) && e in c.elbs && port in want && port !in Ports(c, e)
    ensures var c1 := AddListener(c, e, port);
      var c2 := AddPool(c1, c.next, PoolName(service, port));
      && PortStep(c, c1, e, want) && PortStep(c1, c2, e, want)
      && PortStep(c2, AddFrame(c, e, service, port), e, want)
      && AddMonitor(c2, c.next + 1) == AddFrame(c, e, service, port)
      && c1.next == c.next + 1 && c.next in c1.listeners && c.next + 1 in c2.pools
  {
    var c1 := AddListener(c, e, port);
    assert ListenerOn(c1, c.next, e);
    var c2 := AddPool(c1, c.next, PoolName(service, port));
    assert PoolOn(c2, c.next + 1, e);
  }

  lemma FrameReady(c: Cloud, e: Id, service: string, port: int)
    requires WF(c)
    ensures PoolOn(AddFrame(c, e, service, port), c.next + 1, e)
    ensures Endpoints(AddFrame(c, e, service, port), c.next + 1) == {}
  {
    assert MembersOf(AddFrame(c, e, service, port), c.next + 1) == {};
  }

  lemma StackIsFrameAndMembers(c: Cloud, e: Id, service: string, port: int, targets: seq<Target>)
    ensures AddStack(c, e, service, port, targets) == AddMembers(AddFrame(c, e, service, port), c.next + 1, targets)
    ensures targets == [] ==> AddStack(c, e, service, port, targets) == AddFrame(c, e, service, port)
  {
  }

  // ---------------------------------------------------------------------------
  // Creating a stack
  // ---------------------------------------------------------------------------

  /** Before the members `targets[..i]` of a new pool are followed by the next one. */
  lemma NextMember(before: Cloud, e: Id, p: Id, targets: seq<Target>, i: nat, want: set<int>)
    requires Bounded(before) && PoolOn(before, p, e) && Endpoints(before, p) == {} && i < |targets|
    ensures var c := AddMembers(before, p, targets[..i]);
      var t := targets[i];
      && PoolOn(c, p, e)
      && AddMember(c, p, t.at, t.subnet) == AddMembers(before, p, targets[..i + 1])
      && (t.at in Endpoints(c, p) ==> exists j :: 0 <= j < i && targets[j].at == t.at)
      && (t.at !in Endpoints(c, p) ==> PortStep(c, AddMember(c, p, t.at, t.subnet), e, want))
  {
    AddMembersEffect(before, p, targets[..i]);
    assert targets[..i + 1][..i] == targets[..i];
  }

  /** The members of a new pool, one call each; a node whose subnet is unknown stops the loop. */
  method AddAll(api: Api, e: Id, p: Id, backends: seq<Backend>, nodePort: nat, subnets: map<string, string>)
    returns (r: Result<()>)
    requires api.Valid() && api.purpose.SyncPorts? && api.purpose.elb == e
    requires PoolOn(api.c, p, e) && nodePort > 0 && Endpoints(api.c, p) == {}
    modifies api`c, api`trail, api`faults
    ensures api.Valid()
    ensures r.Ok? ==> api.faults == old(api.faults)
    ensures r.Ok? ==> api.c == AddMembers(old(api.c), p, TargetsOf(backends, nodePort, subnets))
    ensures Staffed(old(api.c.members), api.c.members, backends, subnets)
    ensures r.Err? && Usable(backends, subnets) ==> api.faults == old(api.faults) + 1
  {
    hide Endpoints, AddMembers, CloudModel.AddMember, Api.Valid, PortStep, PoolOn, Staffed;
    ghost var before := api.c;
    ghost var targets := TargetsOf(backends, nodePort, subnets);
    api.Intact();
    assert AddMembers(before, p, targets[..0]) == before by {
      NoMembers(before, p);
    }
    StaffedHere(before.members, backends, subnets);
    for i := 0 to |backends|
      invariant api.Valid() && api.faults == old(api.faults)
      invariant api.c == AddMembers(before, p, targets[..i])
      invariant Staffed(before.members, api.c.members, backends, subnets)
    {
      var b := backends[i];
      if b.virsubnet !in subnets {
        return Err(Other);
      }
      NextMember(before, e, p, targets, i, api.purpose.ports);
      OneMoreStaffed(before.members, api.c, p, b, nodePort, backends, subnets);
      var added := api.AddMember(p, Endpoint(b.ip, nodePort), subnets[b.virsubnet]);
      if added.Err? {
        return Err(added.error);
      }
    }
    assert targets[..|backends|] == targets;
    r := Ok(());
  }

  /** Listener, pool and health monitor, in that order. */
  method CreateFrame(api: Api, e: Id, service: string, port: int) returns (r: Result<Id>)
    requires api.Valid() && api.purpose.SyncPorts? && api.purpose.elb == e && port in api.purpose.ports
    modifies api`c, api`trail, api`faults
    ensures api.Valid()
    ensures r.Ok? ==> api.faults == old(api.faults) && e in old(api.c.elbs) && port !in Ports(old(api.c), e)
    ensures r.Ok? ==> r.value == old(api.c.next) && api.c == AddFrame(old(api.c), e, service, port)
    ensures api.c.members == old(api.c.members)
    ensures r.Err? && e in old(api.c.elbs) && port !in Ports(old(api.c), e) ==> api.faults == old(api.faults) + 1
  {
    hide AddListener, AddPool, AddMonitor, AddFrame, Api.Valid, PortStep, WF;
    ghost var c0, want := api.c, api.purpose.ports;
    api.Intact();
    if e in c0.elbs && port !in Ports(c0, e) {
      FrameSteps(c0, e, service, port, want);
    }
    FrameHasNoMembers(api.c, e, port, 0, "", 0);
    var l :- api.CreateListener(e, port);
    FrameHasNoMembers(api.c, e, port, l, PoolName(service, port), 0);
    var p :- api.CreatePool(l, PoolName(service, port));
    FrameHasNoMembers(api.c, e, port, l, "", p);
    var _ :- api.CreateHealthCheck(p);
    r := Ok(l);
  }

  /** Creates the whole stack for one port. On success the cloud has exactly that stack more;
      on failure only calls towards it were made. Wherever it stops, every new member is a node in the
      subnet this node is in. */
  method CreateListenerStack(api: Api, e: Id, service: string, sp: ServicePort, backends: seq<Backend>,
                             subnets: map<string, string>)
    returns (r: Result<()>)
    requires api.Valid() && api.purpose.SyncPorts? && api.purpose.elb == e && sp.port in api.purpose.ports
    modifies api`c, api`trail, api`faults
    ensures api.Valid()
    ensures r.Ok? ==> api.faults == old(api.faults) && e in old(api.c.elbs) && sp.port !in Ports(old(api.c), e)
    ensures r.Ok? ==> api.c == AddStack(old(api.c), e, service, sp.port, TargetsOf(backends, sp.nodePort, subnets))
    ensures Staffed(old(api.c.members), api.c.members, backends, subnets)
    ensures e in old(api.c.elbs) && sp.port !in Ports(old(api.c), e) && Usable(backends, subnets) ==>
      (r.Err? ==> api.faults == old(api.faults) + 1)
  {
    hide AddFrame, AddStack, AddMembers, Api.Valid, WF, Staffed;
    ghost var c0 := api.c;
    StaffedHere(c0.members, backends, subnets);
    api.Intact();
    var l :- CreateFrame(api, e, service, sp.port);
    FrameReady(c0, e, service, sp.port);
    StackIsFrameAndMembers(c0, e, service, sp.port, TargetsOf(backends, sp.nodePort, subnets));
    if sp.nodePort > 0 {
      r := AddAll(api, e, l + 1, backends, sp.nodePort, subnets);
    } else {
      r := Ok(());
    }
  }

  // ---------------------------------------------------------------------------
  // The diff of ports
  // ---------------------------------------------------------------------------

  /** `existing` finds the listener of ELB `e` for each of its ports. */
  ghost predicate FindsPorts(c: Cloud, e: Id, existing: map<int, Id>) {
    && existing.Keys == Ports(c, e)
    && forall n :: n in existing ==> ListenerOn(c, existing[n], e) && c.listeners[existing[n]].port == n
  }

  method DesiredPorts(ports: seq<ServicePort>) returns (m: map<int, ServicePort>)
    ensures m == PortMap(ports)
  {
    m := map[];
    for i := 0 to |ports|
      invariant m == PortMap(ports[..i])
    {
      assert ports[..i + 1][..i] == ports[..i];
      m := m[ports[i].port := ports[i]];
    }
    assert ports[..|ports|] == ports;
  }

  method ExistingPorts(listed: Listing<Listener>, ghost c: Cloud, ghost e: Id) returns (m: map<int, Id>)
    requires WF(c) && Orders(listed.ids, ListenersOf(c, e))
    requires listed.info == map l | l in ListenersOf(c, e) :: c.listeners[l]
    ensures FindsPorts(c, e, m)
  {
    m := map[];
    for i := 0 to |listed.ids|
      invariant forall j :: 0 <= j < i ==> c.listeners[listed.ids[j]].port in m
      invariant forall n :: n in m ==> ListenerOn(c, m[n], e) && c.listeners[m[n]].port == n
    {
      m := m[listed.info[listed.ids[i]].port := listed.ids[i]];
    }
    forall n | n in Ports(c, e)
      ensures n in m
    {
      var l :| l in ListenersOf(c, e) && c.listeners[l].port == n;
      var j :| 0 <= j < |listed.ids| && listed.ids[j] == l;
    }
    forall n | n in m
      ensures n in Ports(c, e)
    {
      assert m[n] in ListenersOf(c, e);
    }
  }

  /** Since `before`, exactly the stacks `made` were added, and nobody else was disturbed. */
  ghost predicate Built(before: Cloud, c: Cloud, e: Id, service: string, desired: map<int, ServicePort>,
                        backends: seq<Backend>, made: map<int, Id>)
  {
    && Ports(c, e) == Ports(before, e) + made.Keys
    && made.Keys <= desired.Keys
    && (forall n :: n in made ==> Serves(c, e, made[n], service, n, EndpointsFor(backends, desired[n].nodePort)))
    && (forall l :: l in before.listeners ==> Undisturbed(before, c, l))
  }

  lemma NothingBuilt(c: Cloud, e: Id, service: string, desired: map<int, ServicePort>, backends: seq<Backend>)
    ensures Built(c, c, e, service, desired, backends, map[])
  {
  }

  lemma OneMoreBuilt(before: Cloud, c: Cloud, e: Id, service: string, desired: map<int, ServicePort>,
                     backends: seq<Backend>, subnets: map<string, string>, made: map<int, Id>, n: int)
    requires Built(before, c, e, service, desired, backends, made) && WF(c) && n in desired && n !in made
    ensures Built(before, AddStack(c, e, service, n, TargetsOf(backends, desired[n].nodePort, subnets)), e, service,
                  desired, backends, made[n := c.next])
  {
    hide AddStack, Serves, Undisturbed, WF, EndpointsFor, TargetsOf, Ports;
    var targets := TargetsOf(backends, desired[n].nodePort, subnets);
    var c' := AddStack(c, e, service, n, targets);
    AddStackServes(c, e, service, n, targets);
    TargetsAreEndpoints(backends, desired[n].nodePort, subnets);
    forall l | l in before.listeners
      ensures Undisturbed(before, c', l)
    {
      DisturbedNobody(before, c, l);
      AddStackDisturbsNobody(c, e, service, n, targets, l);
      UndisturbedTransitive(before, c, c', l);
    }
    forall k | k in made
      ensures Serves(c', e, made[k], service, k, EndpointsFor(backends, desired[k].nodePort))
    {
      ServesHere(c, e, made[k], service, k, EndpointsFor(backends, desired[k].nodePort));
      AddStackDisturbsNobody(c, e, service, n, targets, made[k]);
      ServesUndisturbed(c, c', e, made[k], service, k, EndpointsFor(backends, desired[k].nodePort));
    }
  }

  lemma DisturbedNobody(c: Cloud, c': Cloud, l: Id)
    requires Undisturbed(c, c', l)
    ensures l in c.listeners && l in c'.listeners && c'.listeners[l] == c.listeners[l]
  {
  }

  lemma ServesHere(c: Cloud, e: Id, l: Id, service: string, port: int, ats: set<Endpoint>)
    requires Serves(c, e, l, service, port, ats)
    ensures ListenerOn(c, l, e) && c.listeners[l].port == port
  {
  }

  /** The additions, in any order. */
  method AddStacks(api: Api, e: Id, service: string, desired: map<int, ServicePort>, existing: map<int, Id>,
                   backends: seq<Backend>, subnets: map<string, string>)
    returns (r: Result<()>, ghost made: map<int, Id>)
    requires api.Valid() && api.purpose == SyncPorts(e, desired.Keys)
    requires FindsPorts(api.c, e, existing) && forall n :: n in desired ==> desired[n].port == n
    modifies api`c, api`trail, api`faults
    ensures api.Valid()
    ensures Built(old(api.c), api.c, e, service, desired, backends, made) || r.Err?
    ensures r.Ok? ==> made.Keys == desired.Keys - existing.Keys && api.faults == old(api.faults)
    ensures desired.Keys <= existing.Keys ==> r.Ok? && api.c == old(api.c) && api.trail == old(api.trail)
    ensures Staffed(old(api.c.members), api.c.members, backends, subnets)
    ensures r.Err? && e in old(api.c.elbs) && Usable(backends, subnets) ==> api.faults == old(api.faults) + 1
  {
    hide AddStack, Api.Valid, WF, Usable, Built, Staffed;
    ghost var before := api.c;
    made := map[];
    StaffedHere(before.members, backends, subnets);
    NothingBuilt(before, e, service, desired, backends);
    var todo := desired.Keys;
    while todo != {}
      invariant api.Valid() && api.faults == old(api.faults)
      invariant todo <= desired.Keys && made.Keys == desired.Keys - existing.Keys - todo
      invariant Built(before, api.c, e, service, desired, backends, made)
      invariant e in before.elbs ==> e in api.c.elbs
      invariant desired.Keys <= existing.Keys ==> api.c == before && api.trail == old(api.trail)
      invariant Staffed(before.members, api.c.members, backends, subnets)
      decreases todo
    {
      SomeInt(todo);
      var n :| n in todo;
      if n !in existing {
        api.Intact();
        ghost var c := api.c;
        StillMissing(before, c, e, service, desired, backends, made, n);
        OneMoreBuilt(before, c, e, service, desired, backends, subnets, made, n);
        AddStackKeepsElbs(c, e, service, n, TargetsOf(backends, desired[n].nodePort, subnets));
        var added := CreateListenerStack(api, e, service, desired[n], backends, subnets);
        StaffedOn(before.members, c.members, api.c.members, backends, subnets);
        if added.Err? {
          return added, made;
        }
        made := made[n := c.next];
      }
      todo := todo - {n};
    }
    r := Ok(());
  }

  lemma StillMissing(before: Cloud, c: Cloud, e: Id, service: string, desired: map<int, ServicePort>,
                     backends: seq<Backend>, made: map<int, Id>, n: int)
    requires Built(before, c, e, service, desired, backends, made) && n !in made && n !in Ports(before, e)
    ensures n !in Ports(c, e)
  {
  }

  lemma AddStackKeepsElbs(c: Cloud, e: Id, service: string, port: int, targets: seq<Target>)
    requires WF(c)
    ensures AddStack(c, e, service, port, targets).elbs == c.elbs
  {
    AddStackEffect(c, e, service, port, targets);
  }

  /** Since `before`, exactly the listeners for ports of `gone` were removed from ELB `e`, and
      nobody else was disturbed. */
  ghost predicate Removed(before: Cloud, c: Cloud, e: Id, gone: set<int>) {
    && Ports(c, e) == Ports(before, e) - gone
    && forall l :: l in before.listeners && !(ListenerOn(before, l, e) && before.listeners[l].port in gone)
         ==> Undisturbed(before, c, l)
  }

  lemma NothingRemoved(c: Cloud, e: Id)
    ensures Removed(c, c, e, {})
  {
  }

  lemma OneMoreRemoved(before: Cloud, c: Cloud, e: Id, gone: set<int>, l: Id)
    requires Removed(before, c, e, gone) && WF(before) && WF(c) && ListenerOn(before, l, e)
      && before.listeners[l].port !in gone
    ensures ListenerOn(c, l, e) && c.listeners[l] == before.listeners[l]
    ensures Undisturbed(before, c, l)
    ensures Removed(before, DropListener(c, l), e, gone + {before.listeners[l].port})
  {
    hide Undisturbed, DropListener;
    DisturbedNobody(before, c, l);
    PortsAfterDrop(c, e, l);
    var n := before.listeners[l].port;
    forall k | k in before.listeners && !(ListenerOn(before, k, e) && before.listeners[k].port in gone + {n})
      ensures Undisturbed(before, DropListener(c, l), k)
    {
      DisturbedNobody(before, c, k);
      DropListenerDisturbsNobody(c, l, k);
      UndisturbedTransitive(before, c, DropListener(c, l), k);
    }
  }

  /** Every listener for a port nobody wants is without pools: a cloud that does not cascade
      deletes no other. */
  ghost predicate Bare(c: Cloud, e: Id, want: set<int>) {
    forall l :: ListenerOn(c, l, e) && c.listeners[l].port !in want ==> PoolsAt(c, l) == {}
  }

  /** The removals, in any order. */
  method RemoveListeners(api: Api, e: Id, desired: map<int, ServicePort>, existing: map<int, Id>)
    returns (r: Result<()>)
    requires api.Valid() && api.purpose == SyncPorts(e, desired.Keys)
    requires existing.Keys - desired.Keys == Ports(api.c, e) - desired.Keys
    requires forall n :: n in existing && n !in desired ==>
      ListenerOn(api.c, existing[n], e) && api.c.listeners[existing[n]].port == n
    modifies api`c, api`trail, api`faults
    ensures api.Valid()
    ensures r.Ok? ==>
      Removed(old(api.c), api.c, e, Ports(old(api.c), e) - desired.Keys)
      && api.faults == old(api.faults)
    ensures existing.Keys <= desired.Keys ==> r.Ok? && api.c == old(api.c) && api.trail == old(api.trail)
    ensures NoneNew(old(api.c.members), api.c.members)
    ensures r.Err? && (api.cascade || Bare(old(api.c), e, desired.Keys)) ==> api.faults == old(api.faults) + 1
  {
    hide Api.Valid, WF, DropListener, Removed;
    ghost var before := api.c;
    NothingRemoved(before, e);
    api.Intact();
    var todo := existing.Keys;
    assert existing.Keys - desired.Keys - todo == {};
    while todo != {}
      invariant api.Valid() && api.faults == old(api.faults)
      invariant todo <= existing.Keys
      invariant Removed(before, api.c, e, existing.Keys - desired.Keys - todo)
      invariant existing.Keys <= desired.Keys ==> api.c == before && api.trail == old(api.trail)
      invariant NoneNew(before.members, api.c.members)
      decreases todo
    {
      SomeInt(todo);
      var n :| n in todo;
      ghost var gone := existing.Keys - desired.Keys - todo;
      if n !in desired {
        api.Intact();
        OneMoreRemoved(before, api.c, e, gone, existing[n]);
        assert existing.Keys - desired.Keys - (todo - {n}) == gone + {n};
        DropHasNoMembers(api.c, existing[n]);
        r := api.DeleteListener(existing[n]);
        if r.Err? {
          return;
        }
      } else {
        assert existing.Keys - desired.Keys - (todo - {n}) == gone;
      }
      todo := todo - {n};
    }
    assert existing.Keys - desired.Keys - todo == Ports(before, e) - desired.Keys;
    r := Ok(());
  }

  /** What the port sync leaves when it succeeds: the ports are the wanted ones, those that were
      missing have a complete stack, and the listeners that stayed are as they were. */
  ghost predicate Synced(before: Cloud, c: Cloud, e: Id, service: string, desired: map<int, ServicePort>,
                         backends: seq<Backend>, made: map<int, Id>)
  {
    && Ports(c, e) == desired.Keys
    && made.Keys == desired.Keys - Ports(before, e)
    && (forall n :: n in made ==> Serves(c, e, made[n], service, n, EndpointsFor(backends, desired[n].nodePort)))
    && (forall l :: l in before.listeners && !(ListenerOn(before, l, e) && before.listeners[l].port !in desired)
          ==> Undisturbed(before, c, l))
  }

  lemma BuiltThenRemoved(before: Cloud, mid: Cloud, c: Cloud, e: Id, service: string, desired: map<int, ServicePort>,
                         backends: seq<Backend>, made: map<int, Id>)
    requires Built(before, mid, e, service, desired, backends, made) && made.Keys == desired.Keys - Ports(before, e)
    requires Removed(mid, c, e, Ports(mid, e) - desired.Keys)
    ensures Synced(before, c, e, service, desired, backends, made)
  {
    hide Serves, Undisturbed;
    assert Ports(c, e) == desired.Keys;
    forall n | n in made
      ensures Serves(c, e, made[n], service, n, EndpointsFor(backends, desired[n].nodePort))
    {
      ServesHere(mid, e, made[n], service, n, EndpointsFor(backends, desired[n].nodePort));
      ServesUndisturbed(mid, c, e, made[n], service, n, EndpointsFor(backends, desired[n].nodePort));
    }
    forall l | l in before.listeners && !(ListenerOn(before, l, e) && before.listeners[l].port !in desired)
      ensures Undisturbed(before, c, l)
    {
      DisturbedNobody(before, mid, l);
      UndisturbedTransitive(before, mid, c, l);
    }
  }

  lemma StillFound(before: Cloud, mid: Cloud, e: Id, service: string, desired: map<int, ServicePort>,
                   backends: seq<Backend>, made: map<int, Id>, existing: map<int, Id>)
    requires WF(before) && WF(mid) && FindsPorts(before, e, existing)
      && Built(before, mid, e, service, desired, backends, made)
    ensures existing.Keys - desired.Keys == Ports(mid, e) - desired.Keys
    ensures forall n :: n in existing && n !in desired ==>
      ListenerOn(mid, existing[n], e) && mid.listeners[existing[n]].port == n
    ensures Bare(before, e, desired.Keys) ==> Bare(mid, e, desired.Keys)
  {
    hide Serves, WF, Ports;
    forall n | n in existing
      ensures ListenerOn(mid, existing[n], e) && mid.listeners[existing[n]].port == n
    {
      assert Undisturbed(before, mid, existing[n]);
    }
    if Bare(before, e, desired.Keys) {
      StillBare(before, mid, e, service, desired, backends, made, existing);
    }
  }

  /** What hangs on listeners for unwanted ports has not changed: these were all there before. */
  lemma StillBare(before: Cloud, mid: Cloud, e: Id, service: string, desired: map<int, ServicePort>,
                  backends: seq<Backend>, made: map<int, Id>, existing: map<int, Id>)
    requires WF(mid) && FindsPorts(before, e, existing) && Built(before, mid, e, service, desired, backends, made)
    requires Bare(before, e, desired.Keys)
    ensures Bare(mid, e, desired.Keys)
  {
    hide Serves;
    forall l | ListenerOn(mid, l, e) && mid.listeners[l].port !in desired
      ensures PoolsAt(mid, l) == {}
    {
      var n := mid.listeners[l].port;
      assert l in ListenersOf(mid, e) && n in Ports(mid, e);
      assert Undisturbed(before, mid, existing[n]);
      assert existing[n] == l;
    }
  }

  /** The port sync can only fail by a fault. */
  ghost predicate Doable(cascade: bool, c: Cloud, e: Id, want: set<int>, nodes: Option<seq<Backend>>,
      subnets: map<string, string>) {
    e in c.elbs && (nodes.Some? ==> Usable(nodes.value, subnets)) && (cascade || Bare(c, e, want))
  }

  /** Brings the listeners of ELB `e` to the Service ports. `nodes` is None when they cannot be
      read: then nothing is done, and nothing is reported. Wherever it stops, `Progress` was made, and
      every new member is a node in its subnet. */
  method SyncListenerStacks(api: Api, e: Id, service: string, ports: seq<ServicePort>, nodes: Option<seq<Backend>>,
                            subnets: map<string, string>)
    returns (r: Result<()>, ghost made: map<int, Id>)
    requires api.Valid()
    modifies api
    ensures api.Valid() && api.purpose == SyncPorts(e, PortMap(ports).Keys) && api.origin == old(api.c)
    ensures Progress(old(api.c), api.c, e, PortMap(ports).Keys)
    ensures nodes.None? || Ports(old(api.c), e) == PortMap(ports).Keys ==> api.trail == []
    ensures r.Ok? && nodes.Some? ==> Synced(old(api.c), api.c, e, service, PortMap(ports), nodes.value, made)
    ensures nodes.Some? ==> Staffed(old(api.c.members), api.c.members, nodes.value, subnets)
    ensures r.Ok? ==> api.faults == old(api.faults)
    ensures r.Err? && Doable(api.cascade, old(api.c), e, PortMap(ports).Keys, nodes, subnets) ==>
      api.faults == old(api.faults) + 1
  {
    hide Api.Valid, WF, FindsPorts, Built, Removed, Synced, Usable, Bare, Progress, Orders, Ports, Staffed, NoneNew;
    ghost var before := api.c;
    if nodes.Some? {
      StaffedHere(before.members, nodes.value, subnets);
    }
    made := map[];
    var desired := DesiredPorts(ports);
    PortMapKeys(ports);
    api.Begin(SyncPorts(e, desired.Keys));
    api.Intact();
    var listed := api.ListListeners(e);
    if listed.Err? {
      r := Err(listed.error);
    } else if nodes.None? {
      r := Ok(());
    } else {
      var existing := ExistingPorts(listed.value, before, e);
      PortsFound(before, e, existing);
      r, made := AddStacks(api, e, service, desired, existing, nodes.value, subnets);
      if r.Ok? {
        api.Intact();
        ghost var mid := api.c;
        StillFound(before, mid, e, service, desired, nodes.value, made, existing);
        r := RemoveListeners(api, e, desired, existing);
        NoneNewStaffed(before.members, mid.members, api.c.members, nodes.value, subnets);
        if r.Ok? {
          BuiltThenRemoved(before, mid, api.c, e, service, desired, nodes.value, made);
        }
      }
    }
    CallsProgress(api, e, desired.Keys);
  }

  lemma PortsFound(c: Cloud, e: Id, existing: map<int, Id>)
    requires FindsPorts(c, e, existing)
    ensures existing.Keys == Ports(c, e)
  {
  }
}
