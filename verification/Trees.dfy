/** What is said of ports, pools, members and access control depends on what is below the ELB alone,
    and how binding and unbinding listeners changes it. */
module Trees {
  import opened Common
  import opened CloudModel
  import opened Stacks
  import opened PoolSync
  import opened Acl
  import opened Converge

  lemma TreePorts(c: Cloud, c': Cloud, e: Id)
    requires TreeOf(c', e) == TreeOf(c, e)
    ensures Ports(c', e) == Ports(c, e)
    ensures Open(c, e) ==> Open(c', e)
    ensures forall s: Spec, nodes: Option<seq<Backend>> :: Stale(c, e, s, nodes) ==> Stale(c', e, s, nodes)
  {
    SameTree(c, c', e);
    hide TreeOf;
    assert forall l :: ListenerOn(c', l, e) <==> l in ListenersOf(c', e);
    forall s: Spec, nodes: Option<seq<Backend>> | Stale(c, e, s, nodes)
      ensures Stale(c', e, s, nodes)
    {
      var l :| StaleAt(c, e, s, nodes, l);
      assert l in ListenersOf(c, e);
      assert StaleAt(c', e, s, nodes, l);
    }
  }

  lemma TreeStacked(c: Cloud, c': Cloud, e: Id, s: Spec)
    requires TreeOf(c', e) == TreeOf(c, e) && Stacked(c, e, s)
    ensures Stacked(c', e, s)
  {
    SameTree(c, c', e);
    hide TreeOf;
    forall l | ListenerOn(c', l, e) && c'.listeners[l].port in Wants(s)
      ensures Complete(c', l, s.service)
    {
      assert l in ListenersOf(c', e);
      var p :| PoolFor(c, l, p, s.service);
      assert p in PoolsAt(c, l) && p in PoolsOf(c, e);
      assert PoolFor(c', l, p, s.service);
    }
  }

  lemma TreeAsBefore(c: Cloud, c': Cloud, e: Id, s: Spec)
    requires TreeOf(c', e) == TreeOf(c, e)
    ensures AsBefore(c, c', e, s)
  {
    TreePorts(c, c', e);
    if Stacked(c, e, s) {
      TreeStacked(c, c', e, s);
    }
    if Stacked(c', e, s) {
      TreeStacked(c', c, e, s);
    }
    hide Stacked, Ports, Stale, Open;
    SameTree(c, c', e);
    hide TreeOf;
    forall p
      ensures PoolOn(c', p, e) <==> PoolOn(c, p, e)
      ensures PoolOn(c, p, e) ==> SamePool(c, c', p)
    {
      assert PoolOn(c', p, e) <==> p in PoolsOf(c', e);
      assert PoolOn(c, p, e) <==> p in PoolsOf(c, e);
    }
  }

  lemma TreeGuarded(c: Cloud, c': Cloud, e: Id, g: Id, name: string, cidrs: seq<string>)
    requires TreeOf(c', e) == TreeOf(c, e) && Guarded(c, e, g, name, cidrs) && g in c'.groups
      && c'.groups[g] == c.groups[g]
    ensures Guarded(c', e, g, name, cidrs)
  {
    SameTree(c, c', e);
    assert forall l :: ListenerOn(c', l, e) ==> l in ListenersOf(c', e);
  }

  // ---------------------------------------------------------------------------
  // Members, seen from below the ELB
  // ---------------------------------------------------------------------------

  /** From `c` to `c'`, every member below ELB `e` that is not as it was is a node of one of two
      readings, in the subnet this node is in. */
  ghost predicate Stationed(c: Cloud, c': Cloud, e: Id, first: Reading, second: Reading) {
    Manned(TreeOf(c, e).members, TreeOf(c', e).members, first, second)
  }

  lemma StationedOn(a: Cloud, b: Cloud, c: Cloud, e: Id, first: Reading, second: Reading)
    requires Stationed(a, b, e, first, second) && Stationed(b, c, e, first, second)
    ensures Stationed(a, c, e, first, second)
  {
    MannedOn(TreeOf(a, e).members, TreeOf(b, e).members, TreeOf(c, e).members, first, second);
    hide TreeOf, Manned;
  }

  lemma SameStationed(c: Cloud, c': Cloud, e: Id, first: Reading, second: Reading)
    requires TreeOf(c', e).members == TreeOf(c, e).members
    ensures Stationed(c, c', e, first, second)
  {
    MannedHere(TreeOf(c, e).members, first, second);
    hide TreeOf, Manned;
  }

  /** What counts is what hangs below the ELB. */
  lemma StationedTree(a: Cloud, b: Cloud, c: Cloud, d: Cloud, e: Id, first: Reading, second: Reading)
    requires Stationed(b, c, e, first, second) && TreeOf(b, e) == TreeOf(a, e) && TreeOf(d, e) == TreeOf(c, e)
    ensures Stationed(a, d, e, first, second)
  {
    hide TreeOf, Manned;
  }

  lemma StationedByEither(c: Cloud, c': Cloud, e: Id, first: Reading, second: Reading)
    ensures Stationed(c, c', e, first, first) || Stationed(c, c', e, second, second) ==>
      Stationed(c, c', e, first, second)
  {
    MannedByEither(TreeOf(c, e).members, TreeOf(c', e).members, first, second);
    hide TreeOf, Manned;
  }

  /** A member that has stayed has stayed below its ELB. */
  lemma StayedBelow(c: Cloud, c': Cloud, e: Id, m: Id)
    requires Rooted(c) && MemberOn(c', m, e) && m in c.members && c.members[m] == c'.members[m]
    requires forall p :: p in c'.pools && p in c.pools ==> c'.pools[p] == c.pools[p]
    requires forall l :: l in c'.listeners && l in c.listeners ==> c'.listeners[l].elb == c.listeners[l].elb
    ensures MemberOn(c, m, e)
  {
  }

  lemma MannedBelow(c: Cloud, c': Cloud, e: Id, first: Reading, second: Reading)
    requires Rooted(c) && Manned(c.members, c'.members, first, second)
    requires forall p :: p in c'.pools && p in c.pools ==> c'.pools[p] == c.pools[p]
    requires forall l :: l in c'.listeners && l in c.listeners ==> c'.listeners[l].elb == c.listeners[l].elb
    ensures Stationed(c, c', e, first, second)
  {
    hide Placed, PoolOn;
    forall m | MemberOn(c', m, e) && m in c.members && c.members[m] == c'.members[m]
      ensures MemberOn(c, m, e)
    {
      StayedBelow(c, c', e, m);
    }
  }

  lemma ProgressStationed(c: Cloud, c': Cloud, e: Id, want: set<int>, first: Reading, second: Reading)
    requires WF(c) && Progress(c, c', e, want) && Manned(c.members, c'.members, first, second)
    ensures Stationed(c, c', e, first, second)
  {
    hide Manned, Distinct, OnlyBelow, PortGap, Stationed;
    MannedBelow(c, c', e, first, second);
  }

  lemma TendedStationed(c: Cloud, c': Cloud, e: Id, s: Spec, backends: seq<Backend>, first: Reading, second: Reading)
    requires WF(c) && Tended(c, c', e, s.service, s.ports, backends) && Manned(c.members, c'.members, first, second)
    ensures Stationed(c, c', e, first, second)
  {
    hide Manned, Distinct, NodePortFor, EndpointsFor, Stationed;
    MannedBelow(c, c', e, first, second);
  }

  /** An ELB without listeners has no members. */
  lemma EmptyHasNoMembers(c: Cloud, e: Id)
    requires ListenersOf(c, e) == {}
    ensures TreeOf(c, e).members == map[]
  {
    forall m | m in c.members
      ensures !MemberOn(c, m, e)
    {
      assert MemberOn(c, m, e) ==> c.pools[c.members[m].pool].listener in ListenersOf(c, e);
    }
  }

  /** Nothing hangs below an ELB that has never been. */
  lemma NobodyHasNoMembers(c: Cloud, e: Id)
    requires WF(c) && e >= c.next
    ensures TreeOf(c, e).members == map[]
  {
    hide Distinct;
    assert ListenersOf(c, e) == {};
    EmptyHasNoMembers(c, e);
  }

  // ---------------------------------------------------------------------------
  // Binding and unbinding, seen from below the ELB
  // ---------------------------------------------------------------------------

  /** What is below the ELB differs from `before` by access control `acl` on the listeners `done`. */
  ghost predicate Toggled(before: Cloud, c: Cloud, e: Id, done: set<Id>, acl: Option<Id>) {
    done <= ListenersOf(before, e) && TreeOf(c, e) == TreeOf(SetAcls(before, done, acl), e)
  }

  lemma NothingToggled(before: Cloud, c: Cloud, e: Id, acl: Option<Id>)
    requires TreeOf(c, e) == TreeOf(before, e)
    ensures Toggled(before, c, e, {}, acl)
  {
    NothingSet(before, acl);
    hide TreeOf;
  }

  lemma SetAclTree(c: Cloud, e: Id, x: Id, acl: Option<Id>)
    requires x in ListenersOf(c, e)
    ensures x in TreeOf(c, e).listeners
    ensures TreeOf(SetAcl(c, x, acl), e) ==
      var t := TreeOf(c, e); t.(listeners := t.listeners[x := t.listeners[x].(acl := acl)])
  {
    var c' := SetAcl(c, x, acl);
    assert forall l :: ListenerOn(c', l, e) <==> ListenerOn(c, l, e);
    assert forall p :: PoolOn(c', p, e) <==> PoolOn(c, p, e);
  }

  lemma OneMoreToggled(before: Cloud, c: Cloud, c': Cloud, e: Id, done: set<Id>, x: Id, acl: Option<Id>)
    requires Toggled(before, c, e, done, acl) && x in ListenersOf(before, e) && x in c.listeners
    requires TreeOf(c', e) == TreeOf(SetAcl(c, x, acl), e)
    ensures Toggled(before, c', e, done + {x}, acl)
  {
    OneMoreSet(before, done, x, acl);
    SetAclsListeners(before, done, acl, e);
    SameTree(SetAcls(before, done, acl), c, e);
    SetAclTree(c, e, x, acl);
    SetAclTree(SetAcls(before, done, acl), e, x, acl);
    hide TreeOf, SetAcl, SetAcls, ListenersOf;
  }

  lemma SetAclsNodes(c: Cloud, e: Id, done: set<Id>, acl: Option<Id>)
    ensures var c' := SetAcls(c, done, acl);
      && (forall l :: ListenerOn(c', l, e) <==> ListenerOn(c, l, e))
      && (forall p :: PoolOn(c', p, e) <==> PoolOn(c, p, e))
      && (forall m :: MonitorOn(c', m, e) <==> MonitorOn(c, m, e))
      && (forall m :: MemberOn(c', m, e) <==> MemberOn(c, m, e))
  {
  }

  lemma SetAclsTree(c: Cloud, e: Id, done: set<Id>, acl: Option<Id>)
    ensures TreeOf(SetAcls(c, done, acl), e) ==
      var t := TreeOf(c, e);
      t.(listeners := map l | l in t.listeners :: if l in done then t.listeners[l].(acl := acl) else t.listeners[l])
  {
    SetAclsNodes(c, e, done, acl);
    hide PoolOn, MonitorOn, MemberOn;
  }

  /** Access control leaves the members as they are. */
  lemma ToggledMembers(before: Cloud, c: Cloud, e: Id, done: set<Id>, acl: Option<Id>)
    requires Toggled(before, c, e, done, acl)
    ensures TreeOf(c, e).members == TreeOf(before, e).members
  {
    SetAclsTree(before, e, done, acl);
    hide TreeOf, SetAcls, ListenersOf;
  }

  /** What counts is what was below the ELB before. */
  lemma ToggledSince(before: Cloud, mid: Cloud, c: Cloud, e: Id, done: set<Id>, acl: Option<Id>)
    requires TreeOf(mid, e) == TreeOf(before, e) && Toggled(mid, c, e, done, acl)
    ensures Toggled(before, c, e, done, acl)
  {
    SameTree(before, mid, e);
    SetAclsTree(before, e, done, acl);
    SetAclsTree(mid, e, done, acl);
    hide TreeOf, SetAcls, ListenersOf;
  }

  lemma SameToggled(before: Cloud, c: Cloud, c': Cloud, e: Id, done: set<Id>, acl: Option<Id>)
    requires Toggled(before, c, e, done, acl) && TreeOf(c', e) == TreeOf(c, e)
    ensures Toggled(before, c', e, done, acl)
  {
    hide TreeOf, SetAcls, ListenersOf;
  }

  lemma SetAclsListeners(c: Cloud, done: set<Id>, acl: Option<Id>, e: Id)
    ensures ListenersOf(SetAcls(c, done, acl), e) == ListenersOf(c, e)
  {
  }

  lemma ToggledAsBefore(before: Cloud, c: Cloud, e: Id, done: set<Id>, acl: Option<Id>, s: Spec)
    requires Toggled(before, c, e, done, acl)
    ensures AsBefore(before, c, e, s)
  {
    hide TreeOf, AsBefore;
    SameStacksAsBefore(before, SetAcls(before, done, acl), e, s);
    hide SetAcls;
    TreeAsBefore(SetAcls(before, done, acl), c, e, s);
    AsBeforeOn(before, SetAcls(before, done, acl), c, e, s);
  }

  lemma AsBeforeOn(a: Cloud, b: Cloud, c: Cloud, e: Id, s: Spec)
    requires AsBefore(a, b, e, s) && AsBefore(b, c, e, s)
    ensures AsBefore(a, c, e, s)
  {
    hide Stacked, Ports, PoolOn, MembersOf, Endpoints;
    forall p | PoolOn(a, p, e)
      ensures SamePool(a, c, p)
    {
      PoolIsThere(a, p, e);
      assert PoolOn(b, p, e) && PoolOn(c, p, e);
      PoolIsThere(c, p, e);
    }
  }

  lemma AllGuarded(before: Cloud, c: Cloud, e: Id, g: Id, name: string, cidrs: seq<string>)
    requires Toggled(before, c, e, ListenersOf(before, e), Some(g)) && g in c.groups
      && c.groups[g] == Group(name, cidrs)
    ensures Guarded(c, e, g, name, cidrs)
  {
    SetAclsListeners(before, ListenersOf(before, e), Some(g), e);
    SameTree(SetAcls(before, ListenersOf(before, e), Some(g)), c, e);
    hide TreeOf;
    assert forall l :: ListenerOn(c, l, e) ==> l in ListenersOf(c, e);
  }

  lemma AllOpen(before: Cloud, c: Cloud, e: Id)
    requires Toggled(before, c, e, ListenersOf(before, e), None)
    ensures Open(c, e)
  {
    SetAclsListeners(before, ListenersOf(before, e), None, e);
    SameTree(SetAcls(before, ListenersOf(before, e), None), c, e);
    hide TreeOf;
    assert forall l :: ListenerOn(c, l, e) ==> l in ListenersOf(c, e);
  }

  lemma GuardedUntoggled(before: Cloud, c: Cloud, e: Id, done: set<Id>, g: Id, name: string, cidrs: seq<string>)
    requires Toggled(before, c, e, done, Some(g)) && Guarded(before, e, g, name, cidrs)
    ensures TreeOf(c, e) == TreeOf(before, e)
  {
    GuardedStays(before, e, g, name, cidrs);
  }
}
