/** The cloud side of reconcileUpdate (internal/controller/service_controller.go): listeners, pool
    members and access control of one ELB are brought to what the Service asks for. */
module Converge {
  import opened Common
  import opened Naming
  import opened CloudModel
  import opened CloudApi
  import opened Members
  import opened Stacks
  import opened PoolSync
  import opened Acl

  /** What a Service asks of its ELB; `ok` tells which source ranges parse. */
  datatype Spec = Spec(service: string, ports: seq<ServicePort>, aclName: string, ranges: seq<string>,
    ok: string -> bool)

  /** What a sync reads beside the Service: the nodes, if they can be read, and the subnets of the
      nodes as far as they are known. The two syncs of an update read it one after the other. */
  datatype Reading = Reading(nodes: Option<seq<Backend>>, subnets: map<string, string>)

  /** The member is a node of this reading, in the subnet the node is in. */
  ghost predicate Placed(m: Member, r: Reading) {
    r.nodes.Some? && Seated(m, r.nodes.value, r.subnets)
  }

  /** Every member that is not as it was is a node of one of two readings, in its subnet. */
  ghost predicate Manned(before: map<Id, Member>, after: map<Id, Member>, first: Reading, second: Reading) {
    forall m :: m in after && !(m in before && before[m] == after[m]) ==>
      Placed(after[m], first) || Placed(after[m], second)
  }

  lemma MannedOn(a: map<Id, Member>, b: map<Id, Member>, c: map<Id, Member>, first: Reading, second: Reading)
    requires Manned(a, b, first, second) && Manned(b, c, first, second)
    ensures Manned(a, c, first, second)
  {
    hide Placed;
  }

  lemma MannedHere(a: map<Id, Member>, first: Reading, second: Reading)
    ensures Manned(a, a, first, second)
  {
  }

  /** What one of the readings accounts for both do. */
  lemma MannedByEither(a: map<Id, Member>, b: map<Id, Member>, first: Reading, second: Reading)
    ensures Manned(a, b, first, first) || Manned(a, b, second, second) ==> Manned(a, b, first, second)
  {
    hide Placed;
  }

  lemma StaffedManned(a: map<Id, Member>, b: map<Id, Member>, r: Reading)
    requires if r.nodes.Some? then Staffed(a, b, r.nodes.value, r.subnets) else a == b
    ensures Manned(a, b, r, r)
  {
    hide Seated;
  }

  function Wants(s: Spec): set<int> {
    PortMap(s.ports).Keys
  }

  function Cidrs(s: Spec): seq<string> {
    Filter(s.ranges, s.ok)
  }

  ghost predicate DistinctPorts(s: Spec) {
    forall i, j | 0 <= i < j < |s.ports| :: s.ports[i].port != s.ports[j].port
  }

  /** Of Service ports with one number, for two protocols, the last one gets the listener and the first one
      has its members synced: it must not matter which. */
  ghost predicate Unambiguous(s: Spec) {
    forall n :: n in Wants(s) ==>
      NodePortFor(s.service, s.ports, PoolName(s.service, n)) == PortMap(s.ports)[n].nodePort
  }

  /** That is so if and only if they have the same node port. */
  lemma UnambiguousIff(s: Spec)
    ensures Unambiguous(s) <==>
      forall i, j :: FirstOf(s.ports, i) && LastOf(s.ports, j) && s.ports[i].port == s.ports[j].port ==>
        s.ports[i].nodePort == s.ports[j].nodePort
  {
    hide PoolName;
    PortMapKeys(s.ports);
    forall i, j | FirstOf(s.ports, i) && LastOf(s.ports, j) && s.ports[i].port == s.ports[j].port
      ensures NodePortFor(s.service, s.ports, PoolName(s.service, s.ports[i].port)) == s.ports[i].nodePort
      ensures s.ports[j].port in PortMap(s.ports) && PortMap(s.ports)[s.ports[j].port] == s.ports[j]
    {
      FirstIsMatched(s.service, s.ports, i);
      PortMapLast(s.ports, j);
    }
    forall n | n in Wants(s)
      ensures exists i, j :: FirstOf(s.ports, i) && LastOf(s.ports, j) && s.ports[i].port == s.ports[j].port == n
    {
      var k :| 0 <= k < |s.ports| && s.ports[k] == PortMap(s.ports)[n];
      var i, j := FirstAndLast(s.ports, k);
    }
  }

  lemma NodePortOf(s: Spec, n: int)
    requires DistinctPorts(s) && n in Wants(s)
    ensures NodePortFor(s.service, s.ports, PoolName(s.service, n)) == PortMap(s.ports)[n].nodePort
  {
    PortMapKeys(s.ports);
    var k :| 0 <= k < |s.ports| && s.ports[k] == PortMap(s.ports)[n];
    PoolMatchesItsPort(s.service, s.ports, k);
  }

  lemma UnambiguousAt(s: Spec, n: int)
    requires Unambiguous(s) && n in Wants(s)
    ensures NodePortFor(s.service, s.ports, PoolName(s.service, n)) == PortMap(s.ports)[n].nodePort
  {
  }

  /** In particular if the numbers differ. */
  lemma DistinctUnambiguous(s: Spec)
    requires DistinctPorts(s)
    ensures Unambiguous(s)
  {
    forall n | n in Wants(s)
      ensures NodePortFor(s.service, s.ports, PoolName(s.service, n)) == PortMap(s.ports)[n].nodePort
    {
      NodePortOf(s, n);
    }
  }

  // ---------------------------------------------------------------------------
  // What is to be reached
  // ---------------------------------------------------------------------------

  /** Listener `l` has its one pool, made for its port, and the pool is monitored. */
  ghost predicate Complete(c: Cloud, l: Id, service: string)
    requires l in c.listeners
  {
    exists p :: PoolFor(c, l, p, service)
  }

  ghost predicate PoolFor(c: Cloud, l: Id, p: Id, service: string)
    requires l in c.listeners
  {
    && PoolsAt(c, l) == {p}
    && p in c.pools && c.pools[p].name == PoolName(service, c.listeners[l].port)
    && MonitorsOf(c, p) != {}
  }

  /** The listeners for wanted ports are complete. */
  ghost predicate Stacked(c: Cloud, e: Id, s: Spec) {
    forall l :: ListenerOn(c, l, e) && c.listeners[l].port in Wants(s) ==> Complete(c, l, s.service)
  }

  /** The listeners are those for the Service ports, all complete, and every pool has exactly the
      nodes as members, at the port's node port. */
  ghost predicate Served(c: Cloud, e: Id, s: Spec, backends: seq<Backend>) {
    && Ports(c, e) == Wants(s)
    && Stacked(c, e, s)
    && forall p :: PoolOn(c, p, e) ==> Exact(c, p, s.service, s.ports, backends)
  }

  /** The access control is as asked for, given the recorded group. */
  ghost predicate Settled(c: Cloud, e: Id, name: string, cidrs: seq<string>, acl: Option<Id>) {
    match acl
    case None => cidrs == [] && Open(c, e)
    case Some(g) => cidrs != [] && Guarded(c, e, g, name, cidrs)
  }

  /** A listener that stays is bound to some group: one of a wanted port, or, if the ports are not
      synced because the nodes cannot be read, any. */
  ghost predicate Stale(c: Cloud, e: Id, s: Spec, nodes: Option<seq<Backend>>) {
    exists l :: StaleAt(c, e, s, nodes, l)
  }

  predicate StaleAt(c: Cloud, e: Id, s: Spec, nodes: Option<seq<Backend>>, l: Id) {
    ListenerOn(c, l, e) && c.listeners[l].acl.Some? && (nodes.None? || c.listeners[l].port in Wants(s))
  }

  /** When a sync ends with the access control settled: with source ranges, or with a recorded group
      to get rid of. Without both nothing is looked at, so a group enabled by a sync that died before
      it could record it stays enabled. */
  ghost predicate CanSettle(c: Cloud, e: Id, s: Spec, nodes: Option<seq<Backend>>, acl: Option<Id>) {
    Cidrs(s) != [] || acl.Some? || !Stale(c, e, s, nodes)
  }

  /** The member sync can read every pool on one page. */
  ghost predicate Readable(c: Cloud, e: Id) {
    forall p :: PoolOn(c, p, e) ==> Small(c, p)
  }

  /** Pools that a port sync with `first` has made do not get in the way of a member sync with
      `second`: the nodes are the same, or the members fit on one page. */
  predicate Suits(first: Option<seq<Backend>>, second: seq<Backend>) {
    first.Some? ==> first.value == second || |first.value| <= LIST_LIMIT
  }

  /** The same pool with the same members. */
  ghost predicate SamePool(c: Cloud, c': Cloud, p: Id) {
    && p in c.pools && p in c'.pools && c'.pools[p].name == c.pools[p].name
    && MembersOf(c', p) == MembersOf(c, p) && Endpoints(c', p) == Endpoints(c, p)
  }

  /** What a port sync leaves that a member sync does not follow: the ports are right, unless the
      nodes could not be read, no listener has become complete or incomplete, and the members of
      all pools are as they were. Of new pools they are the nodes. */
  ghost predicate PortsOnly(c: Cloud, c': Cloud, e: Id, s: Spec, nodes: Option<seq<Backend>>) {
    && Ports(c', e) == (if nodes.Some? then Wants(s) else Ports(c, e))
    && (Stacked(c', e, s) <==> Stacked(c, e, s))
    && (forall p :: PoolOn(c', p, e) && PoolOn(c, p, e) ==> SamePool(c, c', p))
    && (Unambiguous(s) ==> forall p :: PoolOn(c', p, e) && !PoolOn(c, p, e) ==>
          nodes.Some? && Exact(c', p, s.service, s.ports, nodes.value))
  }

  /** From `c` to `c'` ports and members were brought to what the Service asks for, as the second
      reading has it: exactly if no listener for a wanted port was incomplete, and the ports were
      right or the first reading succeeded. If the second failed, only the ports were. */
  ghost predicate Brought(c: Cloud, c': Cloud, e: Id, s: Spec, first: Option<seq<Backend>>,
      second: Option<seq<Backend>>)
  {
    && (second.Some? && Unambiguous(s) && Readable(c, e) && Suits(first, second.value) ==>
          (Served(c', e, s, second.value) <==> Stacked(c, e, s) && (first.Some? || Ports(c, e) == Wants(s))))
    && (second.None? ==> PortsOnly(c, c', e, s, first))
  }

  /** So if the second reading fails, a pool with wrong members stays wrong, although the update goes on
      to its end. */
  lemma WrongPoolStays(c: Cloud, c': Cloud, e: Id, s: Spec, first: Option<seq<Backend>>, p: Id, nodes: seq<Backend>)
    requires Brought(c, c', e, s, first, None) && PoolOn(c, p, e) && PoolOn(c', p, e)
    requires !Exact(c, p, s.service, s.ports, nodes)
    ensures !Served(c', e, s, nodes)
  {
    hide Stacked, Ports, PoolOn, Unambiguous, Readable, NodePortFor, EndpointsFor, MembersOf, Endpoints;
  }

  /** Every pool of the ELB that was made for a Service port has exactly the nodes as members. */
  ghost predicate AllExact(c: Cloud, e: Id, s: Spec, backends: seq<Backend>) {
    forall p :: PoolOn(c, p, e) ==> Exact(c, p, s.service, s.ports, backends)
  }

  /** Neither sync finds anything to do. */
  ghost predicate Resting(c: Cloud, e: Id, s: Spec, first: Option<seq<Backend>>, second: Option<seq<Backend>>) {
    && (first.Some? ==> Ports(c, e) == Wants(s))
    && (second.Some? ==> AllExact(c, e, s, second.value))
  }

  /** In particular when everything is served. */
  lemma ServedRests(c: Cloud, e: Id, s: Spec, first: Option<seq<Backend>>, second: seq<Backend>)
    requires Served(c, e, s, second)
    ensures Resting(c, e, s, first, Some(second))
  {
    hide Exact, Stacked;
  }

  // ---------------------------------------------------------------------------
  // The port sync on the way there
  // ---------------------------------------------------------------------------

  lemma UndisturbedComplete(c: Cloud, c': Cloud, l: Id, service: string)
    requires Undisturbed(c, c', l) && Complete(c, l, service)
    ensures Complete(c', l, service)
  {
    var p :| PoolFor(c, l, p, service);
    assert PoolFor(c', l, p, service);
  }

  lemma UndisturbedSymmetric(c: Cloud, c': Cloud, l: Id)
    requires Undisturbed(c, c', l)
    ensures Undisturbed(c', c, l)
  {
  }

  lemma ServesComplete(c: Cloud, e: Id, l: Id, service: string, port: int, ats: set<Endpoint>)
    requires Serves(c, e, l, service, port, ats)
    ensures Complete(c, l, service)
    ensures forall p :: p in c.pools && c.pools[p].listener == l ==>
      c.pools[p].name == PoolName(service, port) && Endpoints(c, p) == ats
  {
    var q :| ServesWith(c, l, q, PoolName(service, port), ats);
    assert PoolFor(c, l, q, service);
    forall p | p in c.pools && c.pools[p].listener == l
      ensures p == q
    {
      assert p in PoolsAt(c, l);
    }
  }

  /** Every listener left by a successful port sync was there before or was made by it. */
  lemma OldOrMade(before: Cloud, c: Cloud, e: Id, s: Spec, backends: seq<Backend>, made: map<int, Id>, l: Id)
    requires WF(c) && Synced(before, c, e, s.service, PortMap(s.ports), backends, made) && ListenerOn(c, l, e)
    requires Progress(before, c, e, Wants(s))
    ensures c.listeners[l].port in Wants(s)
    ensures (ListenerOn(before, l, e) && Undisturbed(before, c, l))
      || (c.listeners[l].port in made && made[c.listeners[l].port] == l)
  {
    hide Undisturbed, Serves;
    var n := c.listeners[l].port;
    assert l in ListenersOf(c, e);
    assert n in Ports(c, e);
    if n in made {
      ServesHere(c, e, made[n], s.service, n, EndpointsFor(backends, PortMap(s.ports)[n].nodePort));
      assert made[n] in ListenersOf(c, e);
    } else {
      var k :| k in ListenersOf(before, e) && before.listeners[k].port == n;
      DisturbedNobody(before, c, k);
    }
  }

  /** The port sync adds complete stacks but completes none: the listeners are complete after it
      exactly if they were before. */
  lemma SyncedStacked(before: Cloud, c: Cloud, e: Id, s: Spec, backends: seq<Backend>, made: map<int, Id>)
    requires WF(c) && Synced(before, c, e, s.service, PortMap(s.ports), backends, made)
    requires Progress(before, c, e, Wants(s))
    ensures Ports(c, e) == Wants(s) && (Stacked(c, e, s) <==> Stacked(before, e, s))
  {
    hide Undisturbed, Serves, Progress, Complete;
    forall l | ListenerOn(c, l, e) && Stacked(before, e, s)
      ensures Complete(c, l, s.service)
    {
      OldOrMade(before, c, e, s, backends, made, l);
      var n := c.listeners[l].port;
      if n in made && made[n] == l {
        ServesComplete(c, e, l, s.service, n, EndpointsFor(backends, PortMap(s.ports)[n].nodePort));
      } else {
        DisturbedNobody(before, c, l);
        UndisturbedComplete(before, c, l, s.service);
      }
    }
    forall l | ListenerOn(before, l, e) && before.listeners[l].port in Wants(s) && Stacked(c, e, s)
      ensures Complete(before, l, s.service)
    {
      DisturbedNobody(before, c, l);
      UndisturbedSymmetric(before, c, l);
      UndisturbedComplete(c, before, l, s.service);
    }
  }

  lemma UndisturbedPools(c: Cloud, c': Cloud, e: Id, l: Id, p: Id)
    requires Undisturbed(c, c', l) && PoolOn(c', p, e) && c'.pools[p].listener == l
    ensures PoolOn(c, p, e) && MembersOf(c', p) == MembersOf(c, p)
  {
    assert p in PoolsAt(c', l);
  }

  /** Every pool after a successful port sync can be read in one page or is exact already. */
  lemma SyncedPools(before: Cloud, c: Cloud, e: Id, s: Spec, backends: seq<Backend>, made: map<int, Id>, p: Id)
    requires WF(c) && Synced(before, c, e, s.service, PortMap(s.ports), backends, made)
    requires Progress(before, c, e, Wants(s)) && Unambiguous(s)
    requires (forall q :: PoolOn(before, q, e) ==> Small(before, q)) && PoolOn(c, p, e)
    ensures Small(c, p) || Exact(c, p, s.service, s.ports, backends)
  {
    hide Undisturbed, Serves, Progress, Synced;
    var l := c.pools[p].listener;
    OldOrMade(before, c, e, s, backends, made, l);
    var n := c.listeners[l].port;
    if n in made && made[n] == l {
      MadeServes(before, c, e, s, backends, made, n);
      ServesComplete(c, e, l, s.service, n, EndpointsFor(backends, PortMap(s.ports)[n].nodePort));
      UnambiguousAt(s, n);
    } else {
      UndisturbedPools(before, c, e, l, p);
    }
  }

  lemma MadeServes(before: Cloud, c: Cloud, e: Id, s: Spec, backends: seq<Backend>, made: map<int, Id>, n: int)
    requires Synced(before, c, e, s.service, PortMap(s.ports), backends, made) && n in made
    ensures n in PortMap(s.ports)
    ensures Serves(c, e, made[n], s.service, n, EndpointsFor(backends, PortMap(s.ports)[n].nodePort))
  {
  }

  // ---------------------------------------------------------------------------
  // What each part leaves to the others
  // ---------------------------------------------------------------------------

  /** Outside ELB `e` nothing changes but IP groups of this Service. */
  ghost predicate Aside(c: Cloud, c': Cloud, e: Id, acl: Option<Id>, name: string) {
    && Rest(c', e).(groups := map[]) == Rest(c, e).(groups := map[])
    && c.next <= c'.next
    && (forall g :: g in c.groups && !Own(c, g, acl, name) ==> g in c'.groups && c'.groups[g] == c.groups[g])
    && (forall g :: g in c'.groups && g !in c.groups ==> g >= c.next)
  }

  ghost predicate AclSafe(c: Cloud, e: Id, acl: Option<Id>) {
    NoDangling(c) && (acl.Some? ==> UsedOnlyBy(c, acl.value, e))
  }

  lemma ProgressSafe(c: Cloud, c': Cloud, e: Id, want: set<int>, acl: Option<Id>, name: string)
    requires Progress(c, c', e, want) && AclSafe(c, e, acl)
    ensures AclSafe(c', e, acl) && c'.groups == c.groups && Aside(c, c', e, acl, name)
  {
    assert Rest(c', e).groups == c'.groups;
    forall l | l in c'.listeners && c'.listeners[l].acl.Some?
      ensures l in c.listeners && c'.listeners[l] == c.listeners[l]
    {
      assert l < c.next;
    }
  }

  /** Listeners, their pools and their monitors are the same, but for the access control. */
  ghost predicate SameStacks(c: Cloud, c': Cloud) {
    && c'.listeners.Keys == c.listeners.Keys && c'.pools == c.pools && c'.monitors == c.monitors
    && forall l :: l in c.listeners ==> c'.listeners[l].(acl := c.listeners[l].acl) == c.listeners[l]
  }

  lemma SameStacksStacked(c: Cloud, c': Cloud, e: Id, s: Spec)
    requires SameStacks(c, c') && Stacked(c, e, s)
    ensures Stacked(c', e, s)
  {
    forall l | ListenerOn(c', l, e) && c'.listeners[l].port in Wants(s)
      ensures Complete(c', l, s.service)
    {
      assert ListenerOn(c, l, e);
      var p :| PoolFor(c, l, p, s.service);
      assert PoolFor(c', l, p, s.service);
    }
  }

  lemma TendedSafe(c: Cloud, c': Cloud, e: Id, s: Spec, backends: seq<Backend>, acl: Option<Id>)
    requires Tended(c, c', e, s.service, s.ports, backends) && AclSafe(c, e, acl)
    ensures AclSafe(c', e, acl) && c'.groups == c.groups && Aside(c, c', e, acl, s.aclName)
  {
    TendedBelow(c, c', e, s, backends);
  }

  lemma TendedStacks(c: Cloud, c': Cloud, e: Id, s: Spec, backends: seq<Backend>)
    requires Tended(c, c', e, s.service, s.ports, backends)
    ensures Ports(c', e) == Ports(c, e) && (Stacked(c', e, s) <==> Stacked(c, e, s))
  {
    SameListenersSamePorts(c, c', e);
    hide Stacked;
    if Stacked(c, e, s) {
      SameStacksStacked(c, c', e, s);
    }
    if Stacked(c', e, s) {
      SameStacksStacked(c', c, e, s);
    }
  }

  lemma TendedBelow(c: Cloud, c': Cloud, e: Id, s: Spec, backends: seq<Backend>)
    requires Tended(c, c', e, s.service, s.ports, backends)
    ensures OnlyBelow(c, c', e)
  {
    hide EndpointsFor, NodePortFor;
    assert PoolsOf(c', e) == PoolsOf(c, e);
    assert MonitorsBelow(c', e) == MonitorsBelow(c, e);
    assert c'.members - MembersBelow(c', e) == c.members - MembersBelow(c, e);
  }

  lemma AclAside(c: Cloud, c': Cloud, e: Id, acl: Option<Id>, name: string)
    requires AclWork(c, c', e, acl, name)
    ensures Aside(c, c', e, acl, name)
  {
    assert ListenersOf(c', e) == ListenersOf(c, e);
    assert PoolsOf(c', e) == PoolsOf(c, e);
    assert MonitorsBelow(c', e) == MonitorsBelow(c, e);
    assert MembersBelow(c', e) == MembersBelow(c, e);
    assert c'.listeners - ListenersOf(c', e) == c.listeners - ListenersOf(c, e);
  }

  /** Access control leaves ports, pools and members as they are. */
  lemma SameStacksAsBefore(c: Cloud, c': Cloud, e: Id, s: Spec)
    requires SameStacks(c, c') && c'.members == c.members
    ensures AsBefore(c, c', e, s)
  {
    assert ListenersOf(c', e) == ListenersOf(c, e);
    assert forall l :: l in ListenersOf(c, e) ==> c'.listeners[l].port == c.listeners[l].port;
    assert forall p :: MembersOf(c', p) == MembersOf(c, p);
    assert forall p :: Endpoints(c', p) == Endpoints(c, p);
    hide Stacked;
    if Stacked(c, e, s) {
      SameStacksStacked(c, c', e, s);
    }
    if Stacked(c', e, s) {
      SameStacksStacked(c', c, e, s);
    }
  }

  lemma AclAsBefore(c: Cloud, c': Cloud, e: Id, s: Spec, acl: Option<Id>)
    requires AclWork(c, c', e, acl, s.aclName)
    ensures AsBefore(c, c', e, s)
  {
    hide AsBefore;
    SameStacksAsBefore(c, c', e, s);
  }

  lemma AsideTransitive(a: Cloud, b: Cloud, c: Cloud, e: Id, acl: Option<Id>, name: string)
    requires Bounded(a) && Aside(a, b, e, acl, name) && b.groups == a.groups && Aside(b, c, e, acl, name)
    ensures Aside(a, c, e, acl, name)
  {
    hide Rest;
  }

  // ---------------------------------------------------------------------------
  // Without faults it succeeds
  // ---------------------------------------------------------------------------

  lemma FewBackends(backends: seq<Backend>, nodePort: nat)
    ensures |EndpointsFor(backends, nodePort)| <= |backends|
  {
    if backends != [] && nodePort != 0 {
      var last := backends[|backends| - 1];
      FewBackends(backends[..|backends| - 1], nodePort);
      assert backends == backends[..|backends| - 1] + [last];
      assert EndpointsFor(backends, nodePort) ==
        EndpointsFor(backends[..|backends| - 1], nodePort) + {Endpoint(last.ip, nodePort)};
    }
  }

  /** As many members as endpoints. */
  lemma {:induction false} OneEach(c: Cloud, p: Id, some: set<Id>)
    requires Distinct(c) && some <= MembersOf(c, p)
    ensures |set m | m in some :: c.members[m].at| == |some|
  {
    if some != {} {
      var m :| m in some;
      OneEach(c, p, some - {m});
      assert (set n | n in some :: c.members[n].at) == (set n | n in some - {m} :: c.members[n].at) + {c.members[m].at};
    }
  }

  lemma SyncedSmall(before: Cloud, c: Cloud, e: Id, s: Spec, backends: seq<Backend>, made: map<int, Id>, p: Id)
    requires WF(c) && Synced(before, c, e, s.service, PortMap(s.ports), backends, made)
    requires Progress(before, c, e, Wants(s)) && |backends| <= LIST_LIMIT
    requires (forall q :: PoolOn(before, q, e) ==> Small(before, q)) && PoolOn(c, p, e)
    ensures Small(c, p)
  {
    hide Undisturbed, Serves, Progress, Synced;
    var l := c.pools[p].listener;
    OldOrMade(before, c, e, s, backends, made, l);
    var n := c.listeners[l].port;
    if n in made && made[n] == l {
      MadeServes(before, c, e, s, backends, made, n);
      ServesComplete(c, e, l, s.service, n, EndpointsFor(backends, PortMap(s.ports)[n].nodePort));
      FewBackends(backends, PortMap(s.ports)[n].nodePort);
      OneEach(c, p, MembersOf(c, p));
    } else {
      UndisturbedPools(before, c, e, l, p);
    }
  }

  /** What the sync needs so that only a fault can fail it. */
  ghost predicate Feasible(cascade: bool, c: Cloud, e: Id, s: Spec, first: Reading, second: Reading, acl: Option<Id>) {
    && Doable(cascade, c, e, Wants(s), first.nodes, first.subnets)
    && Fits(c, e, first.nodes)
    && (second.nodes.Some? ==> SubnetsKnown(second.nodes.value, second.subnets))
    && (Cidrs(s) != [] ==> !RecordedDead(c, acl))
  }

  /** The member sync can read every pool on one page, before and after the port sync. */
  ghost predicate Fits(c: Cloud, e: Id, first: Option<seq<Backend>>) {
    Readable(c, e) && (first.Some? ==> |first.value| <= LIST_LIMIT)
  }

  // ---------------------------------------------------------------------------
  // The method
  // ---------------------------------------------------------------------------

  lemma SafeIsSound(c: Cloud, e: Id, acl: Option<Id>)
    requires AclSafe(c, e, acl)
    ensures NoDangling(c) && (acl.Some? ==> UsedOnlyBy(c, acl.value, e))
  {
  }

  lemma StayedAside(before: Cloud, mid: Cloud, c: Cloud, e: Id, s: Spec, backends: seq<Backend>, acl: Option<Id>)
    requires WF(before) && AclSafe(before, e, acl) && Progress(before, mid, e, Wants(s))
    requires Tended(mid, c, e, s.service, s.ports, backends)
    ensures AclSafe(c, e, acl) && Aside(before, c, e, acl, s.aclName) && c.groups == before.groups
  {
    hide AclSafe, Aside, Tended, Progress;
    ProgressSafe(before, mid, e, Wants(s), acl, s.aclName);
    TendedSafe(mid, c, e, s, backends, acl);
    AsideTransitive(before, mid, c, e, acl, s.aclName);
  }

  /** Every pool is exact or can be read. */
  ghost predicate Primed(c: Cloud, e: Id, s: Spec, backends: seq<Backend>) {
    forall p :: PoolOn(c, p, e) ==> Small(c, p) || Exact(c, p, s.service, s.ports, backends)
  }

  /** The port sync leaves everything ready for the member sync. */
  lemma SyncedPrimed(before: Cloud, mid: Cloud, e: Id, s: Spec, first: seq<Backend>, made: map<int, Id>,
      second: seq<Backend>)
    requires WF(mid) && Unambiguous(s) && Readable(before, e) && Suits(Some(first), second)
    requires Synced(before, mid, e, s.service, PortMap(s.ports), first, made) && Progress(before, mid, e, Wants(s))
    ensures Primed(mid, e, s, second)
  {
    hide Synced, Progress, Small, Exact, Stacked, Ports, WF, PoolOn;
    ReadableMeans(before, e);
    forall p | PoolOn(mid, p, e)
      ensures Small(mid, p) || Exact(mid, p, s.service, s.ports, second)
    {
      if first == second {
        SyncedPools(before, mid, e, s, first, made, p);
      } else {
        SyncedSmall(before, mid, e, s, first, made, p);
      }
    }
  }

  /** What it leaves if no member sync follows. */
  lemma SyncedPortsOnly(before: Cloud, mid: Cloud, e: Id, s: Spec, first: seq<Backend>, made: map<int, Id>)
    requires WF(before) && WF(mid) && Progress(before, mid, e, Wants(s))
    requires Synced(before, mid, e, s.service, PortMap(s.ports), first, made)
    ensures PortsOnly(before, mid, e, s, Some(first))
  {
    hide Synced, Progress, Exact, Stacked, Ports, WF, PoolOn, Unambiguous;
    SyncedStacked(before, mid, e, s, first, made);
    forall p | PoolOn(mid, p, e)
      ensures PoolOn(before, p, e) ==> SamePool(before, mid, p)
      ensures !PoolOn(before, p, e) && Unambiguous(s) ==> Exact(mid, p, s.service, s.ports, first)
    {
      OldOrNewPool(before, mid, e, s, first, made, p);
    }
  }

  lemma OldOrNewPool(before: Cloud, mid: Cloud, e: Id, s: Spec, first: seq<Backend>, made: map<int, Id>, p: Id)
    requires WF(before) && WF(mid) && Progress(before, mid, e, Wants(s)) && PoolOn(mid, p, e)
    requires Synced(before, mid, e, s.service, PortMap(s.ports), first, made)
    ensures PoolOn(before, p, e) ==> SamePool(before, mid, p)
    ensures !PoolOn(before, p, e) && Unambiguous(s) ==> Exact(mid, p, s.service, s.ports, first)
  {
    hide Undisturbed, Serves, Unambiguous, Progress, WF;
    var l := mid.pools[p].listener;
    OldOrMade(before, mid, e, s, first, made, l);
    var n := mid.listeners[l].port;
    if n in made && made[n] == l {
      MadeIsNew(before, mid, e, s, first, made, n, p);
      if Unambiguous(s) {
        MadeServes(before, mid, e, s, first, made, n);
        ServesComplete(mid, e, l, s.service, n, EndpointsFor(first, PortMap(s.ports)[n].nodePort));
        UnambiguousAt(s, n);
      }
    } else {
      UndisturbedPools(before, mid, e, l, p);
      UndisturbedMembers(before, mid, l, p);
    }
  }

  /** A pool of a listener that was made was not there before. */
  lemma MadeIsNew(before: Cloud, mid: Cloud, e: Id, s: Spec, first: seq<Backend>, made: map<int, Id>, n: int, p: Id)
    requires WF(before) && Progress(before, mid, e, Wants(s)) && PoolOn(mid, p, e)
    requires Synced(before, mid, e, s.service, PortMap(s.ports), first, made)
    requires n in made && made[n] == mid.pools[p].listener && mid.listeners[made[n]].port == n
    ensures !PoolOn(before, p, e)
  {
    hide Undisturbed, Serves, Progress, WF, Ports;
    KeptPool(before, mid, e, Wants(s), p);
  }

  lemma KeptPool(before: Cloud, mid: Cloud, e: Id, want: set<int>, p: Id)
    requires WF(before) && Progress(before, mid, e, want) && PoolOn(mid, p, e)
    ensures PoolOn(before, p, e) ==> mid.listeners[mid.pools[p].listener].port in Ports(before, e)
  {
    hide OnlyBelow, PortGap, Rooted, Distinct;
    if PoolOn(before, p, e) {
      assert before.pools[p].listener in ListenersOf(before, e);
    }
  }

  lemma UndisturbedMembers(c: Cloud, c': Cloud, l: Id, p: Id)
    requires Undisturbed(c, c', l) && p in c'.pools && c'.pools[p].listener == l
    ensures SamePool(c, c', p)
  {
    assert p in PoolsAt(c', l);
  }

  /** What the member sync of an ELB does to its pools if it succeeds. */
  ghost predicate Filled(mid: Cloud, c: Cloud, e: Id, s: Spec, backends: seq<Backend>) {
    forall p :: PoolOn(c, p, e) && (Small(mid, p) || Exact(mid, p, s.service, s.ports, backends)) ==>
      Exact(c, p, s.service, s.ports, backends)
  }

  lemma FilledBy(mid: Cloud, c: Cloud, e: Id, s: Spec, backends: seq<Backend>)
    requires forall p :: PoolOn(c, p, e) && (Small(mid, p) || Exact(mid, p, s.service, s.ports, backends)) ==>
      Exact(c, p, s.service, s.ports, backends)
    ensures Filled(mid, c, e, s, backends)
  {
  }

  lemma PrimedServed(mid: Cloud, c: Cloud, e: Id, s: Spec, backends: seq<Backend>)
    requires Primed(mid, e, s, backends) && Tended(mid, c, e, s.service, s.ports, backends)
    requires Filled(mid, c, e, s, backends)
    ensures Served(c, e, s, backends) <==> Ports(mid, e) == Wants(s) && Stacked(mid, e, s)
  {
    hide Tended, Small, Exact, Stacked, Ports, PoolOn;
    TendedStacks(mid, c, e, s, backends);
    forall p | PoolOn(c, p, e)
      ensures Exact(c, p, s.service, s.ports, backends)
    {
      SamePools(mid, c, e, p, s.service, s.ports, backends);
    }
  }

  /** The port sync closes no listener that stays, and opens none. */
  lemma SyncedOpen(before: Cloud, mid: Cloud, e: Id, s: Spec, backends: seq<Backend>, made: map<int, Id>)
    requires Synced(before, mid, e, s.service, PortMap(s.ports), backends, made) && Progress(before, mid, e, Wants(s))
    ensures Open(mid, e) <==> !Stale(before, e, s, Some(backends))
  {
    hide Undisturbed, Serves, PortGap, WF, OnlyBelow;
    forall l | StaleAt(before, e, s, Some(backends), l)
      ensures ListenerOn(mid, l, e) && mid.listeners[l].acl.Some?
    {
      assert l in mid.listeners && mid.listeners[l] == before.listeners[l];
    }
    forall l | ListenerOn(mid, l, e) && mid.listeners[l].acl.Some?
      ensures StaleAt(before, e, s, Some(backends), l)
    {
      assert l in ListenersOf(mid, e);
      assert mid.listeners[l].port in Ports(mid, e);
    }
  }

  lemma TendedOpen(mid: Cloud, c: Cloud, e: Id, s: Spec, backends: seq<Backend>)
    requires Tended(mid, c, e, s.service, s.ports, backends)
    ensures Open(c, e) <==> Open(mid, e)
  {
    hide EndpointsFor, NodePortFor;
  }

  lemma UnsyncedOpen(c: Cloud, e: Id, s: Spec)
    ensures Open(c, e) <==> !Stale(c, e, s, None)
  {
    forall l | ListenerOn(c, l, e) && c.listeners[l].acl.Some?
      ensures StaleAt(c, e, s, None, l)
    {
    }
  }

  lemma ReadableMeans(c: Cloud, e: Id)
    requires Readable(c, e)
    ensures forall p :: PoolOn(c, p, e) ==> Small(c, p)
  {
  }

  lemma FeasibleMeans(cascade: bool, c: Cloud, e: Id, s: Spec, first: Reading, second: Reading, acl: Option<Id>)
    requires Feasible(cascade, c, e, s, first, second, acl)
    ensures Doable(cascade, c, e, Wants(s), first.nodes, first.subnets) && Fits(c, e, first.nodes)
    ensures Cidrs(s) != [] ==> !RecordedDead(c, acl)
    ensures second.nodes.Some? ==> SubnetsKnown(second.nodes.value, second.subnets)
  {
  }

  lemma MidReadable(before: Cloud, mid: Cloud, e: Id, s: Spec, backends: seq<Backend>, made: map<int, Id>)
    requires WF(mid) && Readable(before, e) && |backends| <= LIST_LIMIT
    requires Synced(before, mid, e, s.service, PortMap(s.ports), backends, made) && Progress(before, mid, e, Wants(s))
    ensures Readable(mid, e)
  {
    hide Synced, Progress, Small, WF, PoolOn;
    forall p | PoolOn(mid, p, e)
      ensures Small(mid, p)
    {
      SyncedSmall(before, mid, e, s, backends, made, p);
    }
  }

  // ---------------------------------------------------------------------------
  // The two syncs, one after the other
  // ---------------------------------------------------------------------------

  /** What a port sync that succeeds has done. */
  ghost predicate PortsSynced(c: Cloud, c': Cloud, e: Id, s: Spec, first: Option<seq<Backend>>,
      second: Option<seq<Backend>>)
  {
    && PortsOnly(c, c', e, s, first)
    && (second.Some? && Unambiguous(s) && Readable(c, e) && Suits(first, second.value) ==>
          Primed(c', e, s, second.value))
    && (Open(c', e) <==> !Stale(c, e, s, first))
    && (Fits(c, e, first) ==> Readable(c', e))
  }

  /** What a member sync that succeeds has done. */
  ghost predicate MembersSynced(c: Cloud, c': Cloud, e: Id, s: Spec, second: Option<seq<Backend>>) {
    && (second.Some? && Primed(c, e, s, second.value) ==>
          (Served(c', e, s, second.value) <==> Ports(c, e) == Wants(s) && Stacked(c, e, s)))
    && (second.None? ==> AsBefore(c, c', e, s))
    && (Open(c', e) <==> Open(c, e))
  }

  /** What both have done. */
  ghost predicate BothSynced(c: Cloud, c': Cloud, e: Id, s: Spec, first: Option<seq<Backend>>,
      second: Option<seq<Backend>>)
  {
    Brought(c, c', e, s, first, second) && (Open(c', e) <==> !Stale(c, e, s, first))
  }

  /** The ports, the pools and their members are the same. */
  ghost predicate AsBefore(c: Cloud, c': Cloud, e: Id, s: Spec) {
    && Ports(c', e) == Ports(c, e)
    && (Stacked(c', e, s) <==> Stacked(c, e, s))
    && (forall p :: PoolOn(c', p, e) <==> PoolOn(c, p, e))
    && (forall p :: PoolOn(c, p, e) ==> SamePool(c, c', p))
  }

  lemma NothingBefore(c: Cloud, e: Id, s: Spec)
    ensures AsBefore(c, c, e, s)
  {
    hide Stacked, Ports;
  }

  /** So everything that is said of ports, pools and members is the same. */
  lemma AsBeforePools(c: Cloud, c': Cloud, e: Id, s: Spec)
    requires AsBefore(c, c', e, s)
    ensures Readable(c', e) <==> Readable(c, e)
    ensures forall b :: Served(c', e, s, b) <==> Served(c, e, s, b)
    ensures forall b :: Primed(c', e, s, b) <==> Primed(c, e, s, b)
    ensures forall b :: AllExact(c', e, s, b) <==> AllExact(c, e, s, b)
  {
    hide Stacked, Ports, PoolOn, MembersOf, Endpoints, NodePortFor, EndpointsFor;
    forall p, b | PoolOn(c, p, e)
      ensures Small(c', p) <==> Small(c, p)
      ensures Exact(c', p, s.service, s.ports, b) <==> Exact(c, p, s.service, s.ports, b)
    {
      assert PoolOn(c', p, e);
      PoolIsThere(c, p, e);
      PoolIsThere(c', p, e);
    }
    hide Small, Exact;
  }

  lemma PoolIsThere(c: Cloud, p: Id, e: Id)
    requires PoolOn(c, p, e)
    ensures p in c.pools
  {
  }

  lemma BroughtOn(a: Cloud, b: Cloud, c: Cloud, e: Id, s: Spec, first: Option<seq<Backend>>,
      second: Option<seq<Backend>>)
    requires Brought(a, b, e, s, first, second) && AsBefore(b, c, e, s)
    ensures Brought(a, c, e, s, first, second)
  {
    hide Stacked, Ports, PoolOn, Served, Exact, Unambiguous, Readable, AsBefore, PortsOnly;
    AsBeforePools(b, c, e, s);
    if second.None? {
      PortsOnlyOn(a, b, c, e, s, first);
    }
  }

  lemma PortsOnlyOn(a: Cloud, b: Cloud, c: Cloud, e: Id, s: Spec, first: Option<seq<Backend>>)
    requires PortsOnly(a, b, e, s, first) && AsBefore(b, c, e, s)
    ensures PortsOnly(a, c, e, s, first)
  {
    hide Stacked, Ports, PoolOn, MembersOf, Endpoints, NodePortFor, EndpointsFor, Unambiguous;
    forall p | PoolOn(c, p, e) && !PoolOn(a, p, e) && Unambiguous(s)
      ensures first.Some? && Exact(c, p, s.service, s.ports, first.value)
    {
      PoolIsThere(b, p, e);
      PoolIsThere(c, p, e);
    }
  }

  lemma BroughtSince(a: Cloud, b: Cloud, c: Cloud, e: Id, s: Spec, first: Option<seq<Backend>>,
      second: Option<seq<Backend>>)
    requires AsBefore(a, b, e, s) && Brought(b, c, e, s, first, second)
    ensures Brought(a, c, e, s, first, second)
  {
    AsBeforePools(a, b, e, s);
    hide Stacked, Ports, PoolOn, Served, Exact, Unambiguous, Readable, MembersOf, Endpoints;
  }

  lemma PortsSyncedOn(a: Cloud, b: Cloud, c: Cloud, e: Id, s: Spec, first: Option<seq<Backend>>,
      second: Option<seq<Backend>>)
    requires PortsSynced(a, b, e, s, first, second) && AsBefore(b, c, e, s) && (Open(c, e) <==> Open(b, e))
    ensures PortsSynced(a, c, e, s, first, second)
  {
    AsBeforePools(b, c, e, s);
    PortsOnlyOn(a, b, c, e, s, first);
    hide PortsOnly, AsBefore, Primed, Open, Stale, Readable, Unambiguous;
  }

  lemma MembersSyncedOn(a: Cloud, b: Cloud, c: Cloud, e: Id, s: Spec, second: Option<seq<Backend>>)
    requires MembersSynced(a, b, e, s, second) && AsBefore(b, c, e, s) && (Open(c, e) <==> Open(b, e))
    ensures MembersSynced(a, c, e, s, second)
  {
    AsBeforePools(b, c, e, s);
    hide Primed, Served, Open, Stacked, Ports, PoolOn, MembersOf, Endpoints;
  }

  lemma OneAfterOther(a: Cloud, b: Cloud, c: Cloud, e: Id, s: Spec, first: Option<seq<Backend>>,
      second: Option<seq<Backend>>)
    requires PortsSynced(a, b, e, s, first, second) && MembersSynced(b, c, e, s, second)
    ensures BothSynced(a, c, e, s, first, second)
  {
    hide Primed, Served, Stacked, Open, Stale, Readable, Unambiguous, Ports, PoolOn, Exact, SamePool, AsBefore;
    if second.None? {
      PortsOnlyOn(a, b, c, e, s, first);
    }
  }

  lemma SyncedPorts(c: Cloud, c': Cloud, e: Id, s: Spec, first: seq<Backend>, second: Option<seq<Backend>>,
      made: map<int, Id>)
    requires WF(c) && WF(c') && Progress(c, c', e, Wants(s))
    requires Synced(c, c', e, s.service, PortMap(s.ports), first, made)
    ensures PortsSynced(c, c', e, s, Some(first), second)
  {
    hide WF, Progress, Synced, Primed, Stacked, Open, Stale, Readable, Unambiguous, PortsOnly;
    SyncedPortsOnly(c, c', e, s, first, made);
    SyncedOpen(c, c', e, s, first, made);
    if second.Some? && Unambiguous(s) && Readable(c, e) && Suits(Some(first), second.value) {
      SyncedPrimed(c, c', e, s, first, made, second.value);
    }
    if Fits(c, e, Some(first)) {
      MidReadable(c, c', e, s, first, made);
    }
  }

  lemma UnsyncedPorts(c: Cloud, e: Id, s: Spec, second: Option<seq<Backend>>)
    ensures PortsSynced(c, c, e, s, None, second)
  {
    UnsyncedOpen(c, e, s);
    hide Stacked, Open, Stale, Unambiguous, Ports, Small, Exact;
  }

  lemma SyncedMembers(c: Cloud, c': Cloud, e: Id, s: Spec, second: seq<Backend>)
    requires Tended(c, c', e, s.service, s.ports, second) && Filled(c, c', e, s, second)
    ensures MembersSynced(c, c', e, s, Some(second))
  {
    hide Tended, Filled, Primed, Stacked, Served, Open, Ports;
    TendedOpen(c, c', e, s, second);
    if Primed(c, e, s, second) {
      PrimedServed(c, c', e, s, second);
    }
  }

  lemma UnsyncedMembers(c: Cloud, e: Id, s: Spec)
    ensures MembersSynced(c, c, e, s, None)
  {
    hide AsBefore, Open;
    NothingBefore(c, e, s);
  }

  lemma PortsReadable(c: Cloud, c': Cloud, e: Id, s: Spec, first: Option<seq<Backend>>, second: Option<seq<Backend>>)
    requires PortsSynced(c, c', e, s, first, second)
    ensures Fits(c, e, first) ==> Readable(c', e)
  {
    hide PortsOnly, Primed, Open, Stale, Unambiguous, Small, PoolOn;
  }

  /** The port sync, and what it means for the member sync after it. Wherever it stops, every new member
      is a node of its reading, in the node's subnet. */
  method SyncPortsBelow(api: Api, e: Id, s: Spec, first: Reading, ghost second: Option<seq<Backend>>)
    returns (r: Result<()>)
    requires api.Valid()
    modifies api
    ensures api.Valid() && Progress(old(api.c), api.c, e, Wants(s))
    ensures r.Ok? ==> PortsSynced(old(api.c), api.c, e, s, first.nodes, second) && api.faults == old(api.faults)
    ensures (first.nodes.Some? ==> Ports(old(api.c), e) == Wants(s)) ==> api.c == old(api.c)
    ensures Manned(old(api.c.members), api.c.members, first, first)
    ensures r.Err? && Doable(api.cascade, old(api.c), e, Wants(s), first.nodes, first.subnets) ==>
      api.faults == old(api.faults) + 1
  {
    hide Api.Valid, WF, Progress, Synced, PortsSynced, Doable, Ports, Staffed, Manned;
    ghost var before := api.c;
    ghost var made;
    api.Intact();
    r, made := SyncListenerStacks(api, e, s.service, s.ports, first.nodes, first.subnets);
    api.Intact();
    if first.nodes.Some? ==> Ports(before, e) == Wants(s) {
      api.NoCallNoChange();
    }
    StaffedManned(before.members, api.c.members, first);
    if first.nodes.None? {
      UnsyncedPorts(before, e, s, second);
    } else if r.Ok? {
      SyncedPorts(before, api.c, e, s, first.nodes.value, second, made);
    }
  }

  /** The member sync, and what it means for the whole. Wherever it stops, every new member is a node of its
      reading, in the node's subnet. */
  method SyncMembersBelow(api: Api, e: Id, s: Spec, second: Reading) returns (r: Result<()>)
    requires api.Valid()
    modifies api
    ensures api.Valid()
    ensures if second.nodes.Some? then Tended(old(api.c), api.c, e, s.service, s.ports, second.nodes.value)
      else api.c == old(api.c)
    ensures r.Ok? ==> MembersSynced(old(api.c), api.c, e, s, second.nodes) && api.faults == old(api.faults)
    ensures (second.nodes.Some? ==> AllExact(old(api.c), e, s, second.nodes.value)) ==> api.c == old(api.c)
    ensures Manned(old(api.c.members), api.c.members, second, second)
    ensures (r.Err? && Readable(old(api.c), e)
             && (second.nodes.Some? ==> SubnetsKnown(second.nodes.value, second.subnets))) ==>
      api.faults == old(api.faults) + 1
  {
    hide Api.Valid, WF, Tended, Exact, Small, SubnetsKnown, PoolOn, Filled, MembersSynced, Staffed, Manned;
    ghost var before := api.c;
    api.Intact();
    r := SyncAllPoolMembers(api, e, s.service, s.ports, second.nodes, second.subnets);
    StaffedManned(before.members, api.c.members, second);
    if second.nodes.None? {
      UnsyncedMembers(before, e, s);
    } else if r.Ok? {
      FilledBy(before, api.c, e, s, second.nodes.value);
      SyncedMembers(before, api.c, e, s, second.nodes.value);
    }
  }

  lemma RestingMeans(c: Cloud, e: Id, s: Spec, first: Option<seq<Backend>>, second: Option<seq<Backend>>)
    requires Resting(c, e, s, first, second)
    ensures first.Some? ==> Ports(c, e) == Wants(s)
    ensures second.Some? ==> AllExact(c, e, s, second.value)
  {
    hide AllExact, Ports, Wants;
  }

  /** Listeners, then members. */
  method SyncBelow(api: Api, e: Id, s: Spec, first: Reading, second: Reading, ghost acl: Option<Id>)
    returns (r: Result<()>)
    requires api.Valid() && AclSafe(api.c, e, acl)
    modifies api
    ensures api.Valid() && AclSafe(api.c, e, acl) && Aside(old(api.c), api.c, e, acl, s.aclName)
      && api.c.groups == old(api.c.groups)
    ensures r.Ok? ==> BothSynced(old(api.c), api.c, e, s, first.nodes, second.nodes)
    ensures Resting(old(api.c), e, s, first.nodes, second.nodes) ==> api.c == old(api.c)
    ensures Manned(old(api.c.members), api.c.members, first, second)
    ensures r.Ok? ==> api.faults == old(api.faults)
    ensures r.Err? && Feasible(api.cascade, old(api.c), e, s, first, second, acl) ==> api.faults == old(api.faults) + 1
  {
    hide Api.Valid, WF, Progress, AclSafe, Aside, Tended, Ports, Exact, Small, Doable, Feasible, SubnetsKnown, PoolOn;
    hide PortsSynced, MembersSynced, BothSynced, Manned, Resting, AllExact, Readable;
    ghost var before := api.c;
    api.Intact();
    if Resting(before, e, s, first.nodes, second.nodes) {
      RestingMeans(before, e, s, first.nodes, second.nodes);
    }
    if Feasible(api.cascade, before, e, s, first, second, acl) {
      FeasibleMeans(api.cascade, before, e, s, first, second, acl);
    }
    r := SyncPortsBelow(api, e, s, first, second.nodes);
    ProgressSafe(before, api.c, e, Wants(s), acl, s.aclName);
    MannedByEither(before.members, api.c.members, first, second);
    if r.Err? {
      return;
    }
    ghost var mid := api.c;
    PortsReadable(before, mid, e, s, first.nodes, second.nodes);
    api.Intact();
    r := SyncMembersBelow(api, e, s, second);
    MannedByEither(mid.members, api.c.members, first, second);
    MannedOn(before.members, mid.members, api.c.members, first, second);
    if second.nodes.Some? {
      StayedAside(before, mid, api.c, e, s, second.nodes.value, acl);
    }
    if r.Ok? {
      OneAfterOther(before, mid, api.c, e, s, first.nodes, second.nodes);
    }
  }

  lemma AclAfterSync(before: Cloud, mid: Cloud, c: Cloud, e: Id, s: Spec, acl: Option<Id>)
    requires WF(before) && Aside(before, mid, e, acl, s.aclName) && mid.groups == before.groups
    requires AclWork(mid, c, e, acl, s.aclName)
    ensures Aside(before, c, e, acl, s.aclName)
  {
    hide AclWork, Aside;
    AclAside(mid, c, e, acl, s.aclName);
    AsideTransitive(before, mid, c, e, acl, s.aclName);
  }

  lemma SameNamed(c: Cloud, c': Cloud, name: string)
    requires c'.groups == c.groups
    ensures OneNamed(c, name) ==> OneNamed(c', name)
  {
  }

  lemma AclMembers(c: Cloud, c': Cloud, e: Id, acl: Option<Id>, name: string)
    requires AclWork(c, c', e, acl, name)
    ensures c'.members == c.members
  {
  }

  /** Listeners, then members, then access control; the result is the group to record. Wherever it
      stops, every enabled group exists and nothing else of the cloud was touched. A success brings
      ports and members to exactly what the Service asks for, unless one of its listeners for a
      wanted port was incomplete: such a one stays so. If the nodes cannot be read the second time,
      the ports are brought there and the members stay as they were. It brings the access control
      there too, unless there are no source ranges, no group is recorded and a listener was bound
      all the same. Once everything is reached nothing changes any more; and without faults it is
      reached. Wherever it stops, every new member is a node in its subnet, and there is no second group of
      the Service's group name. */
  method SyncElb(api: Api, e: Id, s: Spec, first: Reading, second: Reading, acl: Option<Id>)
    returns (r: Result<Option<Id>>)
    requires api.Valid() && AclSafe(api.c, e, acl)
    modifies api
    ensures api.Valid() && NoDangling(api.c) && Aside(old(api.c), api.c, e, acl, s.aclName)
    ensures r.Ok? ==> Brought(old(api.c), api.c, e, s, first.nodes, second.nodes)
    ensures r.Ok? ==>
      (Settled(api.c, e, s.aclName, Cidrs(s), r.value) <==> CanSettle(old(api.c), e, s, first.nodes, acl))
    ensures (Resting(old(api.c), e, s, first.nodes, second.nodes)
             && Settled(old(api.c), e, s.aclName, Cidrs(s), acl)) ==>
      api.c == old(api.c)
    ensures Manned(old(api.c.members), api.c.members, first, second)
    ensures OneNamed(old(api.c), s.aclName) && RecordedAs(old(api.c), acl, s.aclName) ==> OneNamed(api.c, s.aclName)
    ensures r.Ok? ==> api.faults == old(api.faults)
    ensures r.Err? && Feasible(api.cascade, old(api.c), e, s, first, second, acl) ==> api.faults == old(api.faults) + 1
  {
    hide Api.Valid, WF, NoDangling, UsedOnlyBy, Aside, AclWork, Brought, Guarded, Open, Stale, Resting;
    hide Feasible, AsBefore, Manned, OneNamed, SomeNamed;
    ghost var before := api.c;
    api.Intact();
    SafeIsSound(before, e, acl);
    if Feasible(api.cascade, before, e, s, first, second, acl) {
      FeasibleMeans(api.cascade, before, e, s, first, second, acl);
    }
    var below := SyncBelow(api, e, s, first, second, acl);
    SafeIsSound(api.c, e, acl);
    SameNamed(before, api.c, s.aclName);
    if below.Err? {
      return Err(below.error);
    }
    ghost var mid := api.c;
    r := EnsureACL(api, e, acl, s.aclName, s.ranges, s.ok);
    AclAfterSync(before, mid, api.c, e, s, acl);
    AclAsBefore(mid, api.c, e, s, acl);
    AclMembers(mid, api.c, e, acl, s.aclName);
    BroughtOn(before, mid, api.c, e, s, first.nodes, second.nodes);
  }
}
