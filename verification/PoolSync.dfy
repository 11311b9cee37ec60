/** syncAllPoolMembers (internal/controller/service_controller.go): every pool of the ELB that was
    made for a Service port gets the nodes as members, at that port's node port. */
module PoolSync {
  import opened Common
  import opened Naming
  import opened CloudModel
  import opened CloudApi
  import opened Members
  import opened Stacks

  /** The node port of the first Service port whose pools carry this name, or 0. */
  function NodePortFor(service: string, ports: seq<ServicePort>, name: string): nat {
    if ports == [] then 0
    else if name == PoolName(service, ports[0].port) then ports[0].nodePort
    else NodePortFor(service, ports[1..], name)
  }

  /** What a pool name was printed from is found again: with distinct port numbers, a pool made
      for a port is matched to that port and no other. */
  lemma {:induction false} PoolMatchesItsPort(service: string, ports: seq<ServicePort>, k: nat)
    requires k < |ports| && forall i, j | 0 <= i < j < |ports| :: ports[i].port != ports[j].port
    ensures NodePortFor(service, ports, PoolName(service, ports[k].port)) == ports[k].nodePort
  {
    PoolNameInjective(service, ports[0].port, ports[k].port);
    if k > 0 {
      PoolMatchesItsPort(service, ports[1..], k - 1);
    }
  }

  /** ... and a pool made for any other port is left alone. */
  lemma {:induction false} StrayPoolUnmatched(service: string, ports: seq<ServicePort>, port: int)
    requires forall i :: 0 <= i < |ports| ==> ports[i].port != port
    ensures NodePortFor(service, ports, PoolName(service, port)) == 0
  {
    if ports != [] {
      PoolNameInjective(service, ports[0].port, port);
      StrayPoolUnmatched(service, ports[1..], port);
    }
  }

  /** Port `k` is the first one with its number. */
  predicate FirstOf(ports: seq<ServicePort>, k: int) {
    0 <= k < |ports| && forall j :: 0 <= j < k ==> ports[j].port != ports[k].port
  }

  /** ... or the last one. */
  predicate LastOf(ports: seq<ServicePort>, k: int) {
    0 <= k < |ports| && forall j :: k < j < |ports| ==> ports[j].port != ports[k].port
  }

  lemma {:induction false} FirstIsMatched(service: string, ports: seq<ServicePort>, k: nat)
    requires FirstOf(ports, k)
    ensures NodePortFor(service, ports, PoolName(service, ports[k].port)) == ports[k].nodePort
  {
    hide PoolName;
    PoolNameInjective(service, ports[0].port, ports[k].port);
    if k > 0 {
      var rest := ports[1..];
      assert rest[k - 1] == ports[k] && forall j :: 0 <= j < |rest| ==> rest[j] == ports[j + 1];
      FirstIsMatched(service, rest, k - 1);
    }
  }

  /** Every number has a first and a last port. */
  lemma FirstAndLast(ports: seq<ServicePort>, k: nat) returns (i: nat, j: nat)
    requires k < |ports|
    ensures FirstOf(ports, i) && LastOf(ports, j) && ports[i].port == ports[j].port == ports[k].port
  {
    i, j := 0, |ports| - 1;
    while ports[i].port != ports[k].port
      invariant i <= k && forall x :: 0 <= x < i ==> ports[x].port != ports[k].port
      decreases k - i
    {
      i := i + 1;
    }
    while ports[j].port != ports[k].port
      invariant k <= j < |ports| && forall x :: j < x < |ports| ==> ports[x].port != ports[k].port
      decreases j
    {
      j := j - 1;
    }
  }

  /** Port `k` is the first one whose pools carry this name. */
  predicate FirstNamed(service: string, ports: seq<ServicePort>, name: string, k: int) {
    0 <= k < |ports| && name == PoolName(service, ports[k].port)
    && forall j :: 0 <= j < k ==> name != PoolName(service, ports[j].port)
  }

  /** Of ports with one number the first one counts here, whereas the last one gets the listener. */
  method MatchPool(service: string, ports: seq<ServicePort>, name: string) returns (nodePort: nat)
    ensures nodePort == NodePortFor(service, ports, name)
    ensures (exists k :: FirstNamed(service, ports, name, k) && nodePort == ports[k].nodePort)
      || (nodePort == 0 && forall j :: 0 <= j < |ports| ==> name != PoolName(service, ports[j].port))
  {
    hide PoolName;
    nodePort := 0;
    for i := 0 to |ports|
      invariant forall j :: 0 <= j < i ==> name != PoolName(service, ports[j].port)
      invariant NodePortFor(service, ports, name) == NodePortFor(service, ports[i..], name)
    {
      if name == PoolName(service, ports[i].port) {
        assert FirstNamed(service, ports, name, i);
        return ports[i].nodePort;
      }
    }
  }

  /** The targets of a pool, each in its node's subnet; a node whose subnet is unknown fails the whole
      sync. */
  method BuildTargets(backends: seq<Backend>, nodePort: nat, subnets: map<string, string>)
      returns (r: Result<seq<Target>>)
    requires nodePort > 0
    ensures r.Ok? ==> r.value == TargetsOf(backends, nodePort, subnets)
    ensures r.Ok? <==> forall b :: b in backends ==> b.virsubnet in subnets
    ensures r.Ok? ==>
      |r.value| == |backends| && forall i :: 0 <= i < |backends| ==>
        && r.value[i].at == Endpoint(backends[i].ip, nodePort)
        && r.value[i].subnet == subnets[backends[i].virsubnet]
  {
    ghost var all := TargetsOf(backends, nodePort, subnets);
    var ts := [];
    for i := 0 to |backends|
      invariant ts == all[..i]
      invariant forall j :: 0 <= j < i ==> backends[j].virsubnet in subnets
    {
      var b := backends[i];
      if b.virsubnet !in subnets {
        return Err(Other);
      }
      ts := ts + [Target(Endpoint(b.ip, nodePort), subnets[b.virsubnet])];
    }
    assert all[..|backends|] == all;
    r := Ok(ts);
  }

  /** What the member sync of a pool with these targets creates are nodes in their subnets. */
  lemma KeepsStaffed(c: Cloud, c': Cloud, p: Id, targets: seq<Target>, backends: seq<Backend>,
                     subnets: map<string, string>)
    requires Keeps(c, c', p, Wanted(targets)) && |targets| == |backends|
    requires forall i :: 0 <= i < |backends| ==>
      && backends[i].virsubnet in subnets
      && targets[i].at.address == backends[i].ip && targets[i].subnet == subnets[backends[i].virsubnet]
    ensures Staffed(c.members, c'.members, backends, subnets)
  {
    WantedAreDesired(targets);
    hide Wanted;
    forall m | m in c'.members && m !in c.members
      ensures Seated(c'.members[m], backends, subnets)
    {
      var t := Target(c'.members[m].at, c'.members[m].subnet);
      assert t in targets;
      var i :| 0 <= i < |targets| && targets[i] == t;
      assert backends[i] in backends;
    }
  }

  // ---------------------------------------------------------------------------
  // What syncing one pool means for the others
  // ---------------------------------------------------------------------------

  /** Pool `p` has exactly the nodes as members, if it was made for a Service port. */
  ghost predicate Exact(c: Cloud, p: Id, service: string, ports: seq<ServicePort>, backends: seq<Backend>) {
    p in c.pools &&
    var nodePort := NodePortFor(service, ports, c.pools[p].name);
    nodePort != 0 ==> Endpoints(c, p) == EndpointsFor(backends, nodePort)
  }

  /** What the sync keeps wherever it stops: everything but members of matched pools of `e`; and
      of those pools every member that is wanted, with its identifier. New members are wanted. */
  ghost predicate Tended(c: Cloud, c': Cloud, e: Id, service: string, ports: seq<ServicePort>, backends: seq<Backend>) {
    && c' == c.(members := c'.members, next := c'.next)
    && c.next <= c'.next
    && (forall m :: m in c.members && Spared(c, m, e, service, ports, backends) ==>
       m in c'.members && c'.members[m] == c.members[m])
    && (forall m :: m in c'.members && m in c.members ==> c'.members[m] == c.members[m])
    && (forall m :: m in c'.members && m !in c.members ==>
       m >= c.next && Called(c, c'.members[m], e, service, ports, backends))
  }

  ghost predicate Called(c: Cloud, m: Member, e: Id, service: string, ports: seq<ServicePort>, backends: seq<Backend>) {
    && PoolOn(c, m.pool, e)
    && m.at in EndpointsFor(backends, NodePortFor(service, ports, c.pools[m.pool].name))
  }

  ghost predicate Spared(c: Cloud, m: Id, e: Id, service: string, ports: seq<ServicePort>, backends: seq<Backend>)
    requires m in c.members
  {
    var p := c.members[m].pool;
    || !PoolOn(c, p, e)
    || NodePortFor(service, ports, c.pools[p].name) == 0
    || c.members[m].at in EndpointsFor(backends, NodePortFor(service, ports, c.pools[p].name))
  }

  lemma TendedTransitive(a: Cloud, b: Cloud, c: Cloud, e: Id, service: string, ports: seq<ServicePort>,
      backends: seq<Backend>)
    requires Bounded(a) && Tended(a, b, e, service, ports, backends) && Tended(b, c, e, service, ports, backends)
    ensures Tended(a, c, e, service, ports, backends)
  {
    hide EndpointsFor;
    forall m | m in c.members && m !in a.members
      ensures m >= a.next && Called(a, c.members[m], e, service, ports, backends)
    {
      if m in b.members {
        assert Called(a, b.members[m], e, service, ports, backends);
      } else {
        assert Called(b, c.members[m], e, service, ports, backends);
      }
    }
    forall m | m in a.members && Spared(a, m, e, service, ports, backends)
      ensures m in c.members && c.members[m] == a.members[m]
    {
      assert Spared(b, m, e, service, ports, backends);
    }
  }

  /** Syncing pool `p` of the ELB tends the ELB, and leaves every other pool's members alone. */
  lemma KeepsTends(c: Cloud, c': Cloud, e: Id, p: Id, service: string, ports: seq<ServicePort>, backends: seq<Backend>,
                   want: map<Endpoint, string>)
    requires Keeps(c, c', p, want) && PoolOn(c, p, e)
    requires want.Keys == EndpointsFor(backends, NodePortFor(service, ports, c.pools[p].name))
    requires NodePortFor(service, ports, c.pools[p].name) != 0
    ensures Tended(c, c', e, service, ports, backends)
  {
  }

  lemma KeepsOthers(c: Cloud, c': Cloud, p: Id, want: map<Endpoint, string>, q: Id)
    requires Keeps(c, c', p, want) && q != p
    ensures MembersOf(c', q) == MembersOf(c, q) && Endpoints(c', q) == Endpoints(c, q)
  {
    assert MembersOf(c', q) == MembersOf(c, q);
    assert forall m :: m in MembersOf(c, q) ==> c'.members[m] == c.members[m];
  }

  lemma ExactElsewhere(c: Cloud, c': Cloud, p: Id, want: map<Endpoint, string>, q: Id,
                       service: string, ports: seq<ServicePort>, backends: seq<Backend>)
    requires Keeps(c, c', p, want) && q != p && Exact(c, q, service, ports, backends)
    ensures Exact(c', q, service, ports, backends)
  {
    KeepsOthers(c, c', p, want, q);
  }

  /** All members of the pool fit on the one page that is read. */
  predicate Small(c: Cloud, p: Id) {
    |MembersOf(c, p)| <= LIST_LIMIT
  }

  ghost predicate SubnetsKnown(backends: seq<Backend>, subnets: map<string, string>) {
    forall b :: b in backends ==> b.virsubnet in subnets
  }

  lemma Untouched(c: Cloud, e: Id, service: string, ports: seq<ServicePort>, backends: seq<Backend>)
    ensures Tended(c, c, e, service, ports, backends)
  {
  }

  lemma UnmatchedExact(c: Cloud, p: Id, service: string, ports: seq<ServicePort>, backends: seq<Backend>)
    requires p in c.pools
    ensures NodePortFor(service, ports, c.pools[p].name) == 0 ==> Exact(c, p, service, ports, backends)
  {
  }

  lemma SyncedExact(c: Cloud, c': Cloud, p: Id, want: map<Endpoint, string>, seen: set<Id>, service: string,
                    ports: seq<ServicePort>, backends: seq<Backend>)
    requires Keeps(c, c', p, want) && p in c.pools
    requires want.Keys == EndpointsFor(backends, NodePortFor(service, ports, c.pools[p].name))
    requires Endpoints(c', p) == want.Keys + Unlisted(c, p, seen) && seen == MembersOf(c, p)
    ensures Exact(c', p, service, ports, backends)
  {
    assert Unlisted(c, p, seen) == {};
  }

  lemma ExactIsNoGap(c: Cloud, p: Id, want: map<Endpoint, string>, service: string, ports: seq<ServicePort>,
      backends: seq<Backend>)
    requires Exact(c, p, service, ports, backends) && NodePortFor(service, ports, c.pools[p].name) != 0
    requires want.Keys == EndpointsFor(backends, NodePortFor(service, ports, c.pools[p].name))
    ensures Gap(c, p, want.Keys) == 0
  {
    assert Endpoints(c, p) - want.Keys == {} && want.Keys - Endpoints(c, p) == {};
  }

  /** One pool of the loop. */
  method SyncOne(api: Api, e: Id, p: Id, name: string, service: string, ports: seq<ServicePort>, backends: seq<Backend>,
                 subnets: map<string, string>)
    returns (r: Result<()>)
    requires api.Valid() && PoolOn(api.c, p, e) && api.c.pools[p].name == name
    modifies api
    ensures api.Valid() && Tended(old(api.c), api.c, e, service, ports, backends)
    ensures r.Ok? && Small(old(api.c), p) ==> Exact(api.c, p, service, ports, backends)
    ensures forall q :: q != p && Exact(old(api.c), q, service, ports, backends) ==>
      Exact(api.c, q, service, ports, backends)
    ensures forall q :: q != p ==> MembersOf(api.c, q) == MembersOf(old(api.c), q)
    ensures Exact(old(api.c), p, service, ports, backends) ==> api.c == old(api.c)
    ensures Staffed(old(api.c.members), api.c.members, backends, subnets)
    ensures r.Ok? ==> api.faults == old(api.faults)
    ensures r.Err? && Small(old(api.c), p) && SubnetsKnown(backends, subnets) ==> api.faults == old(api.faults) + 1
  {
    hide Api.Valid, Tended, Exact, MembersOf, EndpointsFor, TargetsOf, Wanted, Keeps, Gap, Unlisted, NodePortFor;
    hide FirstNamed, Staffed;
    ghost var before := api.c;
    StaffedHere(before.members, backends, subnets);
    Untouched(before, e, service, ports, backends);
    UnmatchedExact(before, p, service, ports, backends);
    var nodePort := MatchPool(service, ports, name);
    if nodePort == 0 {
      return Ok(());
    }
    var targets := BuildTargets(backends, nodePort, subnets);
    if targets.Err? {
      return Err(targets.error);
    }
    ghost var want := Wanted(targets.value);
    WantedAreDesired(targets.value);
    TargetsAreEndpoints(backends, nodePort, subnets);
    ghost var seen;
    r, seen := SyncMembers(api, p, targets.value);
    KeepsStaffed(before, api.c, p, targets.value, backends, subnets);
    KeepsTends(before, api.c, e, p, service, ports, backends, want);
    forall q | q != p
      ensures MembersOf(api.c, q) == MembersOf(before, q)
      ensures Exact(before, q, service, ports, backends) ==> Exact(api.c, q, service, ports, backends)
    {
      KeepsOthers(before, api.c, p, want, q);
      if Exact(before, q, service, ports, backends) {
        ExactElsewhere(before, api.c, p, want, q, service, ports, backends);
      }
    }
    if r.Ok? && Small(before, p) {
      SyncedExact(before, api.c, p, want, seen, service, ports, backends);
    }
    if Exact(before, p, service, ports, backends) {
      ExactIsNoGap(before, p, want, service, ports, backends);
      api.NoCallNoChange();
    }
  }

  /** Brings the members of every matched pool to the nodes. `nodes` is None when they cannot be
      read: then nothing is done, so that a failed read never empties a pool. Wherever it stops, every
      new member is a node in its subnet. */
  method SyncAllPoolMembers(api: Api, e: Id, service: string, ports: seq<ServicePort>, nodes: Option<seq<Backend>>,
                            subnets: map<string, string>)
    returns (r: Result<()>)
    requires api.Valid()
    modifies api
    ensures api.Valid()
    ensures nodes.None? ==> api.c == old(api.c)
    ensures nodes.Some? ==> Tended(old(api.c), api.c, e, service, ports, nodes.value)
    ensures nodes.Some? ==> Staffed(old(api.c.members), api.c.members, nodes.value, subnets)
    ensures r.Ok? && nodes.Some? ==>
      forall p :: PoolOn(api.c, p, e) && (Small(old(api.c), p) || Exact(old(api.c), p, service, ports, nodes.value)) ==>
        Exact(api.c, p, service, ports, nodes.value)
    ensures (nodes.Some?
      && (forall p :: PoolOn(old(api.c), p, e) ==> Exact(old(api.c), p, service, ports, nodes.value))) ==>
      api.c == old(api.c)
    ensures r.Ok? ==> api.faults == old(api.faults)
    ensures (r.Err? && (nodes.Some? ==> SubnetsKnown(nodes.value, subnets))
      && (forall p :: PoolOn(old(api.c), p, e) ==> Small(old(api.c), p))) ==>
      api.faults == old(api.faults) + 1
  {
    hide Api.Valid, Tended, Exact, MembersOf, PoolsOf, PoolOn, WF, Orders, SubnetsKnown, Staffed;
    ghost var before := api.c;
    if nodes.Some? {
      StaffedHere(before.members, nodes.value, subnets);
    }
    var listed := api.ListPools(e);
    if listed.Err? || nodes.None? {
      if nodes.Some? {
        Untouched(before, e, service, ports, nodes.value);
      }
      return if listed.Err? then Err(listed.error) else Ok(());
    }
    var backends := nodes.value;
    Untouched(before, e, service, ports, backends);
    api.Intact();
    var ids := listed.value.ids;
    PoolsListed(before, e, ids);
    for i := 0 to |ids|
      invariant api.Valid() && api.faults == old(api.faults)
      invariant Tended(before, api.c, e, service, ports, backends)
      invariant Staffed(before.members, api.c.members, backends, subnets)
      invariant forall j :: 0 <= j < i && Small(before, ids[j]) ==> Exact(api.c, ids[j], service, ports, backends)
      invariant forall j :: 0 <= j < |ids| && Exact(before, ids[j], service, ports, backends) ==>
        Exact(api.c, ids[j], service, ports, backends)
      invariant forall j :: i <= j < |ids| ==> MembersOf(api.c, ids[j]) == MembersOf(before, ids[j])
      invariant (forall j :: 0 <= j < |ids| ==> Exact(before, ids[j], service, ports, backends)) ==> api.c == before
    {
      ghost var c := api.c;
      SamePools(before, c, e, ids[i], service, ports, backends);
      r := SyncOne(api, e, ids[i], listed.value.info[ids[i]].name, service, ports, backends, subnets);
      TendedTransitive(before, c, api.c, e, service, ports, backends);
      StaffedOn(before.members, c.members, api.c.members, backends, subnets);
      if r.Err? {
        return;
      }
    }
    forall p | PoolOn(api.c, p, e) && (Small(before, p) || Exact(before, p, service, ports, backends))
      ensures Exact(api.c, p, service, ports, backends)
    {
      SamePools(before, api.c, e, p, service, ports, backends);
    }
    r := Ok(());
  }

  lemma PoolsListed(c: Cloud, e: Id, ids: seq<Id>)
    requires Orders(ids, PoolsOf(c, e))
    ensures forall i :: 0 <= i < |ids| ==> PoolOn(c, ids[i], e)
    ensures forall p :: PoolOn(c, p, e) ==> p in ids
    ensures forall i, j | 0 <= i < j < |ids| :: ids[i] != ids[j]
  {
    assert forall p :: PoolOn(c, p, e) <==> p in PoolsOf(c, e);
  }

  lemma SamePools(c: Cloud, c': Cloud, e: Id, p: Id, service: string, ports: seq<ServicePort>, backends: seq<Backend>)
    requires Tended(c, c', e, service, ports, backends)
    ensures c'.pools == c.pools && (PoolOn(c', p, e) <==> PoolOn(c, p, e))
  {
  }
}
