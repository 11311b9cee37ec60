/** What a reconciliation of internal/controller/service_controller.go is to reach, relative to the
    state it found below the ELB, and how its parts lead there. */
module Goals {
  import opened Common
  import opened Naming
  import opened CloudModel
  import opened Stacks
  import opened PoolSync
  import opened Acl
  import opened Converge
  import opened Trees
  import opened Protocol
  import opened Safety

  /** What a reconcile reads beside the Service and the binding: the ports; what a creation, or the
      first of the two syncs of an update, reads, and what the second reads; and whether no change
      of the bandwidth is due, or the cloud takes the one that is. */
  datatype Inputs = Inputs(ports: seq<ServicePort>, first: Reading, second: Reading, sized: bool)

  /** How a reconciliation ends: it went all the way; it only recorded an ELB again and is to be
      repeated at once; or it gave up and is to be repeated later. */
  datatype Outcome = Finished | Again | Later

  // ---------------------------------------------------------------------------
  // What a reconciliation is to reach
  // ---------------------------------------------------------------------------

  const ANY: string -> bool := x => true

  /** What a Service, as it was read, asks of its ELB. Its `cidrs` are the ranges that parse. */
  function Asked(k: Key, s: Svc, inputs: Inputs): Spec {
    Spec(k.name, inputs.ports, GroupName(k), s.cidrs, ANY)
  }

  lemma {:induction false} FilterAny(ranges: seq<string>)
    ensures Filter(ranges, ANY) == ranges
  {
    if ranges != [] {
      FilterAny(ranges[..|ranges| - 1]);
      assert ranges == ranges[..|ranges| - 1] + [ranges[|ranges| - 1]];
    }
  }

  /** Nodes were read, their subnets are known and their addresses and the port numbers distinct; and
      if nodes are read again, their subnets are known as well. */
  ghost predicate Able(k: Key, s: Svc, inputs: Inputs) {
    && inputs.first.nodes.Some? && Usable(inputs.first.nodes.value, inputs.first.subnets)
    && (inputs.second.nodes.Some? ==> SubnetsKnown(inputs.second.nodes.value, inputs.second.subnets))
    && DistinctPorts(Asked(k, s, inputs))
  }

  /** From `c` to `c'`, ELB `e` was brought to what the Service asks for: ports and members exactly
      if no listener for a wanted port was incomplete, access control exactly if it can be settled.
      `acl` was the recorded group and `g` is the one to record. */
  ghost predicate Provided(k: Key, c: Cloud, c': Cloud, s: Svc, inputs: Inputs, e: Id, acl: Option<Id>, g: Option<Id>) {
    var spec := Asked(k, s, inputs);
    && Holding(k, c', s, e)
    && Brought(c, c', e, spec, inputs.first.nodes, inputs.second.nodes)
    && (Settled(c', e, GroupName(k), s.cidrs, g) <==> CanSettle(c, e, spec, inputs.first.nodes, acl))
  }

  /** A new ELB serves as asked for, and its access control is settled. That is never so for a Service with
      two ports of one number. */
  ghost predicate Furnished(k: Key, c: Cloud, s: Svc, inputs: Inputs, e: Id, g: Option<Id>) {
    var spec := Asked(k, s, inputs);
    && Holding(k, c, s, e)
    && inputs.first.nodes.Some? && DistinctPorts(spec) && Served(c, e, spec, inputs.first.nodes.value)
    && Settled(c, e, GroupName(k), s.cidrs, g)
  }

  /** Neither sync would find anything to do, and the access control is settled with group `acl`. In
      particular when everything is as asked for. */
  ghost predicate RestsWith(k: Key, c: Cloud, e: Id, acl: Option<Id>, s: Svc, inputs: Inputs) {
    && Resting(c, e, Asked(k, s, inputs), inputs.first.nodes, inputs.second.nodes)
    && Settled(c, e, GroupName(k), s.cidrs, acl)
  }

  /** ... and what there is is recorded. */
  ghost predicate Rests(k: Key, c: Cloud, ob: Option<Binding>, s: Svc, inputs: Inputs) {
    RecordedElb(ob).Some? && RestsWith(k, c, RecordedElb(ob).value, RecordedAcl(ob), s, inputs)
  }

  /** Nothing stands in the way of an update: its pools can be read, the group to be updated exists,
      and no bandwidth change is refused. */
  ghost predicate ClearWith(c: Cloud, e: Id, acl: Option<Id>, s: Svc, inputs: Inputs) {
    Fits(c, e, inputs.first.nodes) && (s.cidrs != [] ==> !RecordedDead(c, acl)) && inputs.sized
  }

  ghost predicate Clear(c: Cloud, ob: Option<Binding>, s: Svc, inputs: Inputs) {
    RecordedElb(ob).Some? ==> ClearWith(c, RecordedElb(ob).value, RecordedAcl(ob), s, inputs)
  }

  function RecordedElb(ob: Option<Binding>): Option<Id> {
    if ob.Some? then ob.value.elb else None
  }

  function RecordedAcl(ob: Option<Binding>): Option<Id> {
    if ob.Some? then ob.value.acl else None
  }

  /** The groups with the key's name are the same. */
  ghost predicate GroupsStay(k: Key, c: Cloud, c': Cloud) {
    && (forall g :: Named(c, k, g) ==> g in c'.groups && c'.groups[g] == c.groups[g])
    && (forall g :: Named(c', k, g) ==> Named(c, k, g))
  }

  /** Neither anything below the ELB nor any group of the key has changed. */
  ghost predicate Unmoved(k: Key, c: Cloud, c': Cloud, e: Id) {
    TreeOf(c', e) == TreeOf(c, e) && GroupsStay(k, c, c')
  }

  lemma UnmovedOn(k: Key, a: Cloud, b: Cloud, c: Cloud, e: Id)
    requires Unmoved(k, a, b, e) && Unmoved(k, b, c, e)
    ensures Unmoved(k, a, c, e)
  {
    hide TreeOf, GroupName;
  }

  lemma GroupsStayOn(k: Key, a: Cloud, b: Cloud, c: Cloud)
    requires GroupsStay(k, a, b) && GroupsStay(k, b, c)
    ensures GroupsStay(k, a, c)
  {
    hide GroupName;
  }

  lemma AgreeUnmoved(k: Key, c: Cloud, c': Cloud, tags: set<string>, e: Id)
    requires Agree(k, c, c', tags) && Mine(c, e, tags)
    ensures Unmoved(k, c, c', e) && Mine(c', e, tags)
  {
    hide TreeOf, GroupName, NameTag;
  }

  /** Access control that is settled stays so while nothing of the key's own changes. */
  lemma UnmovedSettled(k: Key, c: Cloud, c': Cloud, e: Id, cidrs: seq<string>, acl: Option<Id>)
    requires Unmoved(k, c, c', e) && Settled(c, e, GroupName(k), cidrs, acl)
    ensures Settled(c', e, GroupName(k), cidrs, acl)
  {
    TreePorts(c, c', e);
    if acl.Some? {
      assert Named(c, k, acl.value);
      TreeGuarded(c, c', e, acl.value, GroupName(k), cidrs);
    }
  }

  /** What rests goes on resting while nothing of the key's own changes. */
  lemma RestsLater(k: Key, c: Cloud, c': Cloud, e: Id, acl: Option<Id>, s: Svc, inputs: Inputs)
    requires Unmoved(k, c, c', e)
    ensures RestsWith(k, c, e, acl, s, inputs) ==> RestsWith(k, c', e, acl, s, inputs)
  {
    if RestsWith(k, c, e, acl, s, inputs) {
      UnmovedSettled(k, c, c', e, s.cidrs, acl);
      StillResting(c, c', e, Asked(k, s, inputs), inputs);
    }
    hide Resting, Settled, TreeOf, GroupsStay, Asked;
  }

  lemma StillResting(c: Cloud, c': Cloud, e: Id, spec: Spec, inputs: Inputs)
    requires TreeOf(c', e) == TreeOf(c, e)
    ensures Resting(c, e, spec, inputs.first.nodes, inputs.second.nodes) ==>
      Resting(c', e, spec, inputs.first.nodes, inputs.second.nodes)
  {
    TreeAsBefore(c, c', e, spec);
    AsBeforePools(c, c', e, spec);
    hide TreeOf, Stacked, PoolOn, SamePool;
  }

  /** ... and what is clear stays clear. */
  lemma ClearLater(k: Key, c: Cloud, c': Cloud, e: Id, acl: Option<Id>, s: Svc, inputs: Inputs)
    requires Unmoved(k, c, c', e) && (acl.Some? && acl.value in c.groups ==> Named(c, k, acl.value))
    ensures ClearWith(c, e, acl, s, inputs) ==> ClearWith(c', e, acl, s, inputs)
  {
    TreeAsBefore(c, c', e, Asked(k, s, inputs));
    AsBeforePools(c, c', e, Asked(k, s, inputs));
    hide Readable, TreeOf, Asked, GroupName, AsBefore;
  }

  /** The key was in local state `l` with cloud `c`: its recorded ELB was brought to what the Service
      asks for, or, if none was recorded, a new one. */
  ghost predicate Reached(k: Key, c: Cloud, l: Local, c': Cloud, s: Svc, inputs: Inputs, e: Id, g: Option<Id>) {
    match RecordedElb(l.binding)
    case Some(x) => e == x && Provided(k, c, c', s, inputs, e, RecordedAcl(l.binding), g)
    case None => e >= c.next && RecordedAcl(l.binding).None? && Furnished(k, c', s, inputs, e, g)
  }

  /** What counts is the state below the ELB at the start. */
  lemma ProvidedSince(k: Key, a: Cloud, c: Cloud, c': Cloud, s: Svc, inputs: Inputs, e: Id, acl: Option<Id>,
      g: Option<Id>)
    requires Provided(k, c, c', s, inputs, e, acl, g) && TreeOf(c, e) == TreeOf(a, e)
    ensures Provided(k, a, c', s, inputs, e, acl, g)
  {
    var spec := Asked(k, s, inputs);
    TreePorts(a, c, e);
    TreePorts(c, a, e);
    TreeAsBefore(a, c, e, spec);
    BroughtSince(a, c, c', e, spec, inputs.first.nodes, inputs.second.nodes);
    hide TreeOf, Stale, Stacked, Brought, Settled, AsBefore, Holding, Asked;
  }

  // ---------------------------------------------------------------------------
  // The parts of an update
  // ---------------------------------------------------------------------------

  /** What was reached stays as long as nothing below the ELB changes. */
  lemma PortsSyncedLater(c: Cloud, b: Cloud, c': Cloud, e: Id, spec: Spec, inputs: Inputs)
    requires TreeOf(c', e) == TreeOf(b, e)
    ensures PortsSynced(c, b, e, spec, inputs.first.nodes, inputs.second.nodes) ==>
      PortsSynced(c, c', e, spec, inputs.first.nodes, inputs.second.nodes)
  {
    TreePorts(b, c', e);
    TreePorts(c', b, e);
    TreeAsBefore(b, c', e, spec);
    hide TreeOf, PortsSynced, AsBefore, Open, Stale;
    if PortsSynced(c, b, e, spec, inputs.first.nodes, inputs.second.nodes) {
      PortsSyncedOn(c, b, c', e, spec, inputs.first.nodes, inputs.second.nodes);
    }
  }

  lemma MembersSyncedLater(c: Cloud, b: Cloud, c': Cloud, e: Id, spec: Spec, inputs: Inputs)
    requires TreeOf(c', e) == TreeOf(b, e)
    ensures MembersSynced(c, b, e, spec, inputs.second.nodes) ==> MembersSynced(c, c', e, spec, inputs.second.nodes)
  {
    TreePorts(b, c', e);
    TreePorts(c', b, e);
    TreeAsBefore(b, c', e, spec);
    hide TreeOf, MembersSynced, AsBefore, Open, Stale;
    if MembersSynced(c, b, e, spec, inputs.second.nodes) {
      MembersSyncedOn(c, b, c', e, spec, inputs.second.nodes);
    }
  }

  /** Access control is settled at the end of ensureACL if there are source ranges, or a group was
      recorded, or all was open. */
  ghost predicate AclEnsured(k: Key, c: Cloud, c': Cloud, e: Id, cidrs: seq<string>, acl: Option<Id>, g: Option<Id>) {
    Settled(c', e, GroupName(k), cidrs, g) <==> cidrs != [] || acl.Some? || Open(c, e)
  }

  /** Ports, members, and then access control. */
  lemma AllProvided(k: Key, a: Cloud, b: Cloud, c: Cloud, s: Svc, inputs: Inputs, e: Id, acl: Option<Id>, g: Option<Id>,
      done: set<Id>, onto: Option<Id>)
    requires BothSynced(a, b, e, Asked(k, s, inputs), inputs.first.nodes, inputs.second.nodes)
    requires Toggled(b, c, e, done, onto) && AclEnsured(k, b, c, e, s.cidrs, acl, g) && Holding(k, c, s, e)
    ensures Provided(k, a, c, s, inputs, e, acl, g)
  {
    var spec := Asked(k, s, inputs);
    FilterAny(s.cidrs);
    hide Filter, Toggled, Brought, Stale, Open, Settled, Holding, AsBefore;
    ToggledAsBefore(b, c, e, done, onto, spec);
    BroughtOn(a, b, c, e, spec, inputs.first.nodes, inputs.second.nodes);
  }
}
