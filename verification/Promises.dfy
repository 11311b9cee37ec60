/** What the invariant of the protocol promises to whoever runs the controller, for a key whose own
    environment is disciplined, whatever befalls the others. */
module Promises {
  import opened Common
  import opened Naming
  import opened CloudModel
  import opened Steps
  import opened Members
  import opened Stacks
  import opened Protocol
  import opened Safety
  import opened Discipline

  // ---------------------------------------------------------------------------
  // Creation
  // ---------------------------------------------------------------------------

  /** While a Service exists, every live ELB created for it is the one a lookup by name returns,
      whatever else is live; there is at most one; and if its binding records an ELB, it is this. */
  lemma Recoverable(run: seq<World>, i: nat, k: Key, e: Id, r: Option<Id>)
    requires CalmRun(k, run) && i < |run| && k in run[i].locals
    requires var l := run[i].locals[k];
      l.svc.Some? && HasTag(run[i].cloud, e, Tag(l.svc.value.uid)) && Found(run[i].cloud, ElbName(k, l.svc.value), r)
    ensures r == Some(e)
    ensures var l := run[i].locals[k]; l.binding.Some? && l.binding.value.elb.Some? ==> l.binding.value.elb == Some(e)
  {
    var w := run[i];
    CalmRunsKeep(k, run, i);
    InvMeans(w, k);
    hide CalmRun, Tag, NameTag, ElbName, Orderly, WF, PcOk, SnapOk, Guards, OneGroup;
  }

  /** A Service never has two live ELBs. */
  lemma AtMostOnePerService(run: seq<World>, i: nat, k: Key, e: Id, f: Id)
    requires CalmRun(k, run) && i < |run| && k in run[i].locals && run[i].locals[k].svc.Some?
    requires HasTag(run[i].cloud, e, Tag(run[i].locals[k].svc.value.uid))
      && HasTag(run[i].cloud, f, Tag(run[i].locals[k].svc.value.uid))
    ensures e == f
  {
    CalmRunsKeep(k, run, i);
    InvMeans(run[i], k);
    hide CalmRun, Tag, NameTag, ElbName, Orderly, WF, PcOk, SnapOk, Guards, OneGroup, BindingOk;
  }

  /** As long as a Service is wanted, the ELB its binding records is live: the update path never
      works on a load balancer that has gone. */
  lemma RecordedIsLive(run: seq<World>, i: nat, k: Key)
    requires CalmRun(k, run) && i < |run| && k in run[i].locals
    requires var l := run[i].locals[k];
      l.svc.Some? && !l.svc.value.deleting && l.binding.Some? && l.binding.value.elb.Some?
    ensures var l := run[i].locals[k];
      HasTag(run[i].cloud, l.binding.value.elb.value, Tag(l.svc.value.uid)) && l.binding.value.uid == l.svc.value.uid
  {
    CalmRunsKeep(k, run, i);
    InvMeans(run[i], k);
    hide CalmRun, Tag, NameTag, ElbName, Orderly, WF, PcOk, SnapOk, Guards, OneGroup, SvcOk;
  }

  // ---------------------------------------------------------------------------
  // Deletion
  // ---------------------------------------------------------------------------

  /** A cleanup that comes to its end while it knows the Service leaves neither an ELB created for
      it nor a group with its name, whether they were recorded or found by name. */
  lemma CleanupIsComplete(run: seq<World>, i: nat, k: Key)
    requires CalmRun(k, run) && i < |run| && k in run[i].locals && run[i].locals[k].pc.Release?
      && run[i].locals[k].pc.os.Some?
    ensures NoElb(run[i].cloud, Tag(run[i].locals[k].pc.os.value.uid)) && NoGroup(run[i].cloud, k)
  {
    hide CalmRun, Inv, KInv, Tag, NoElb, NoGroup;
    CalmRunsKeep(k, run, i);
    InvMeans(run[i], k);
    AtRelease(k, run[i].cloud, run[i].locals[k]);
  }

  lemma AtRelease(k: Key, c: Cloud, l: Local)
    requires KInv(k, c, l) && l.pc.Release?
    ensures l.pc.os.Some? ==> NoElb(c, Tag(l.pc.os.value.uid)) && NoGroup(c, k)
    ensures l.pc.ob.Some? ==>
      var b := l.pc.ob.value;
      Dead(c, b) && (b.elb.Some? ==> NoElb(c, Tag(b.uid))) && (b.acl.Some? ==> NoGroup(c, k))
  {
    hide Tag, NameTag, GroupName, BindingOk, SnapOk, Guards, OneGroup, SvcOk;
  }

  /** Without the Service, the cleanup leaves an ELB created for it only if it was never recorded;
      a recorded ELB and a recorded group are gone. */
  lemma OrphanCleanup(run: seq<World>, i: nat, k: Key)
    requires CalmRun(k, run) && i < |run| && k in run[i].locals
    requires var pc := run[i].locals[k].pc; pc.Release? && pc.os.None? && pc.ob.Some?
    ensures var b := run[i].locals[k].pc.ob.value;
      Dead(run[i].cloud, b) && (b.elb.Some? ==> NoElb(run[i].cloud, Tag(b.uid)))
        && (b.acl.Some? ==> NoGroup(run[i].cloud, k))
  {
    hide CalmRun, Inv, KInv, Tag, NoElb, NoGroup, Dead;
    CalmRunsKeep(k, run, i);
    InvMeans(run[i], k);
    AtRelease(k, run[i].cloud, run[i].locals[k]);
  }

  // ---------------------------------------------------------------------------
  // Access control
  // ---------------------------------------------------------------------------

  /** At every point of every process: a group enabled on a listener of the Service's ELB, or of
      the recorded one, exists. */
  lemma NoDanglingAcl(run: seq<World>, i: nat, k: Key, x: Id)
    requires CalmRun(k, run) && i < |run| && k in run[i].locals
    requires x in run[i].cloud.listeners && run[i].cloud.listeners[x].acl.Some?
    requires Tracked(run[i].cloud, run[i].locals[k], run[i].cloud.listeners[x].elb)
    ensures run[i].cloud.listeners[x].acl.value in run[i].cloud.groups
    ensures run[i].cloud.groups[run[i].cloud.listeners[x].acl.value].name == GroupName(k)
  {
    CalmRunsKeep(k, run, i);
    InvMeans(run[i], k);
    hide CalmRun, Tag, NameTag, ElbName, GroupName, Orderly, WF, BindingOk, SnapOk, OneGroup, SvcOk, Snapshot;
    hide Tracked, PcOk;
  }

  /** The branches for a binding of another Service and for a missing finalizer are never taken:
      they are for state older versions or impolite environments leave behind. */
  lemma NeverMends(run: seq<World>, i: nat, k: Key)
    requires CalmRun(k, run) && i < |run| && k in run[i].locals
    ensures var pc := run[i].locals[k].pc; !pc.Rebind? && !pc.Mend? && !pc.Heal?
  {
    CalmRunsKeep(k, run, i);
    InvMeans(run[i], k);
    hide CalmRun, Tag, NameTag, ElbName, GroupName, Orderly, WF, BindingOk, SnapOk, OneGroup, SvcOk, Guards;
  }

  /** Places of a process that holds an ELB. */
  predicate HoldsElb(pc: PC) {
    pc.Bind? || pc.NewBinding? || pc.Record? || pc.Work? || AtAcl(pc)
  }

  /** What such a process holds is live and has the name its Service asks for. */
  lemma KnowsHolding(k: Key, c: Cloud, l: Local)
    requires KInv(k, c, l) && HoldsElb(l.pc)
    ensures Holding(k, c, l.pc.s, l.pc.e) && SnapOk(k, c, l) && Snapshot(l.pc) == Some(l.pc.s)
  {
    hide SvcOk, SnapOk, BindingOk, Guards, OneGroup, Sole, NoGroup, Holding;
  }

  // ---------------------------------------------------------------------------
  // The loops of the cloud modules are steps of the protocol
  // ---------------------------------------------------------------------------

  /** Everything the port sync may have done, wherever it stops. */
  lemma ProgressIsStep(c: Cloud, c': Cloud, e: Id, want: set<int>)
    requires Bounded(c) && Progress(c, c', e, want)
    ensures ChildStep(c, c', e)
  {
    hide WF, PortGap, Ports, PoolsOf, MonitorsBelow, MembersBelow;
    assert Rest(c, e).listeners == c.listeners - ListenersOf(c, e);
    assert Rest(c', e).listeners == c'.listeners - ListenersOf(c', e);
    assert Rest(c, e).groups == c.groups && Rest(c', e).groups == c'.groups;
    forall l | l in c'.listeners && c'.listeners[l].elb != e
      ensures l in c.listeners
    {
      assert l in Rest(c', e).listeners;
    }
    forall l | l in c.listeners && c.listeners[l].elb != e
      ensures l in c'.listeners
    {
      assert l in Rest(c, e).listeners;
    }
  }

  /** Every call of the port sync is a step of a working process. */
  lemma PortStepIsStep(c: Cloud, c': Cloud, e: Id, want: set<int>)
    requires WF(c) && PortStep(c, c', e, want)
    ensures ChildStep(c, c', e)
  {
    PortStepProgress(c, c', e, want);
    hide PortStep, Progress, ChildStep, Rooted, Distinct;
    ProgressIsStep(c, c', e, want);
  }

  /** So is every call of the member sync of a pool of the ELB. */
  lemma MemberStepIsStep(c: Cloud, c': Cloud, e: Id, p: Id, want: map<Endpoint, string>)
    requires WF(c) && PoolOn(c, p, e) && MemberStep(c, c', p, want)
    ensures ChildStep(c, c', e)
  {
    hide WF, OnlyBelow, MemberStep;
    MemberStepCloses(c, c', p, want);
    MembersChangeBelow(c, c', p, e);
  }
}
