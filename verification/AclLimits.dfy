/** Where access control ends: a recorded IP group that no longer exists stops every update, and a
    group enabled by a process that died before recording it is never disabled. */
module AclLimits {
  import opened Common
  import opened Naming
  import opened CloudModel
  import opened Steps
  import opened Protocol
  import opened Safety
  import opened Discipline
  import opened Continuations

  // ---------------------------------------------------------------------------
  // A recorded group that is gone
  // ---------------------------------------------------------------------------

  /** The Service is wanted and has source ranges. */
  predicate Ranged(l: Local) {
    l.svc.Some? && !l.svc.value.deleting && l.svc.value.cidrs != []
  }

  ghost predicate KeepsRanges(more: seq<World>, k: Key) {
    forall i :: 0 <= i < |more| ==> k in more[i].locals && Ranged(more[i].locals[k])
  }

  /** Places of an update that has written the ranges into a group. */
  predicate PastWriting(pc: PC) {
    pc.AclList? || pc.AclBind? || pc.AclRecord?
  }

  /** The binding records an ELB and group `g`. */
  predicate HasBoth(l: Local, g: Id) {
    l.binding.Some? && l.binding.value.elb.Some? && l.binding.value.acl == Some(g)
  }

  predicate BeforeWriting(pc: PC, g: Id) {
    match pc
    case Idle => true
    case Route(s) => s.cidrs != []
    case Update(s) => s.cidrs != []
    case Find(_) => true
    case Bind(_, _, restore) => restore
    case Record(_, _, restore) => restore
    case Work(s, _, acl) => s.cidrs != [] && acl == Some(g)
    case AclUpdate(_, _, x) => x == g
    case _ => false
  }

  ghost predicate Stuck(c: Cloud, l: Local, g: Id) {
    g !in c.groups && g < c.next && HasBoth(l, g) && Ranged(l) && BeforeWriting(l.pc, g)
  }

  lemma StuckFind(k: Key, c: Cloud, l: Local, l': Local, g: Id)
    requires Own(k, c, l, c, l') && Stuck(c, l, g) && l.pc.Find?
    ensures Stuck(c, l', g)
  {
    hide Guards, OneGroup, Tag, NameTag, ElbName, OnlyGroup, OnlyElb, UniqueNames, WF;
  }

  /** With the binding as it is, binding the found ELB leads on to recording it again. */
  lemma StuckBind(k: Key, c: Cloud, l: Local, l': Local, g: Id)
    requires Own(k, c, l, c, l') && Stuck(c, l, g) && (l.pc.Bind? || l.pc.Record?)
    ensures Stuck(c, l', g)
  {
    hide Guards, OneGroup, Tag, NameTag, ElbName, OnlyGroup, OnlyElb, Sound, SvcOk, Recorded, NoElb, Stable;
  }

  lemma StuckWork(k: Key, c: Cloud, l: Local, c': Cloud, l': Local, g: Id)
    requires Own(k, c, l, c', l') && Stuck(c, l, g) && (l.pc.Work? || l.pc.AclUpdate?)
    ensures Stuck(c', l', g)
  {
    hide KInv, Sound, Rest, WF;
  }

  lemma StuckStart(k: Key, c: Cloud, l: Local, l': Local, g: Id)
    requires Own(k, c, l, c, l') && Stuck(c, l, g) && (l.pc.Idle? || l.pc.Route? || l.pc.Update?)
    ensures Stuck(c, l', g)
  {
    hide Guards, OneGroup, Tag, NameTag, ElbName, OnlyGroup, OnlyElb, Sound, SvcOk, SnapOk, Recorded, NoElb, Stable;
    hide PcOk;
  }

  lemma StuckMoves(k: Key, c: Cloud, l: Local, c': Cloud, l': Local, g: Id)
    requires Own(k, c, l, c', l') && Stuck(c, l, g)
    ensures Stuck(c', l', g)
  {
    if l.pc.Work? || l.pc.AclUpdate? {
      StuckWork(k, c, l, c', l', g);
    } else {
      assert c' == c by {
        hide KInv, Sound, ElbName, Found, GroupName;
      }
      hide KInv, Sound, Moves;
      if l.pc.Find? {
        StuckFind(k, c, l, l', g);
      } else if l.pc.Bind? || l.pc.Record? {
        StuckBind(k, c, l, l', g);
      } else {
        StuckStart(k, c, l, l', g);
      }
    }
  }

  lemma StuckCalm(w: World, w': World, k: Key, g: Id)
    requires Inv(k, w) && Calm(k, w, w') && k in w.locals && Stuck(w.cloud, w.locals[k], g)
    requires k in w'.locals && Ranged(w'.locals[k])
    ensures Stuck(w'.cloud, w'.locals[k], g)
  {
    InvMeans(w, k);
    CalmIsSeen(w, w', k);
    hide Inv, Calm, Own, FreeToCreate, OnlyOwn, Polite, Stuck, Disturbs, Agree, Stops, KInv;
    var c, l, c', l' := w.cloud, w.locals[k], w'.cloud, w'.locals[k];
    if Own(k, c, l, c', l') && FreeToCreate(k, c, l) {
      StuckMoves(k, c, l, c', l', g);
    } else if l' == l && Agree(k, c, c', l.tags) {
      StuckElsewhere(k, c, c', l, g);
    } else {
      StuckDisturbed(w, k, l, l', g);
    }
  }

  lemma StuckElsewhere(k: Key, c: Cloud, c': Cloud, l: Local, g: Id)
    requires Agree(k, c, c', l.tags) && Stuck(c, l, g)
    ensures Stuck(c', l, g)
  {
  }

  lemma StuckDisturbed(w: World, k: Key, l: Local, l': Local, g: Id)
    requires KInv(k, w.cloud, l) && Stuck(w.cloud, l, g) && Ranged(l') && (Disturbs(w, k, l, l') || Stops(l, l'))
    ensures Stuck(w.cloud, l', g)
  {
    hide Tag, SvcOk, SnapOk, PcOk, Guards, OneGroup, Recorded, NoElb;
  }

  lemma {:induction false} StuckOn(w: World, more: seq<World>, k: Key, g: Id, i: nat)
    requires Inv(k, w) && CalmFrom(k, w, more) && KeepsRanges(more, k) && i < |more|
    requires k in w.locals && Stuck(w.cloud, w.locals[k], g)
    ensures k in more[i].locals && Stuck(more[i].cloud, more[i].locals[k], g)
  {
    hide Inv, Calm, Stuck, Ranged;
    if i > 0 {
      StuckOn(w, more, k, g, i - 1);
      InvOn(k, w, more, i - 1);
      StuckCalm(more[i - 1], more[i], k, g);
    }
  }

  lemma OneMoreRanged(w: World, more: seq<World>, k: Key, c': Cloud, l': Local) returns (longer: seq<World>)
    requires CalmFrom(k, w, more) && KeepsRanges(more, k) && CalmStep(k, Last(more), k, c', l') && Ranged(l')
    ensures CalmFrom(k, w, longer) && KeepsRanges(longer, k) && Last(longer) == World(c', Last(more).locals[k := l'])
  {
    longer := JustOneMore(w, more, k, c', l');
    hide CalmFrom, CalmStep;
  }

  /** An update starts. */
  lemma StartsWork(w: World, k: Key, g: Id) returns (more: seq<World>, l': Local)
    requires k in w.locals && Ranged(w.locals[k]) && w.locals[k].pc.Idle? && HasBoth(w.locals[k], g)
    requires w.locals[k].binding.value.finalizer
    ensures CalmFrom(k, w, more) && KeepsRanges(more, k) && Last(more) == w.(locals := w.locals[k := l'])
    ensures Ranged(l') && l'.pc.Work? && l'.pc.acl == Some(g) && l'.pc.s.cidrs != []
  {
    var c, l := w.cloud, w.locals[k];
    var s, e := l.svc.value.(lb := true, ours := true), l.binding.value.elb.value;
    var m := l.(svc := Some(s));
    NotYet(k, w);
    StartsRanged(w, k);
    assert ElbName(k, s) == ElbName(k, l.svc.value);
    hide CalmFrom, TearStep, ChildStep, Found, FoundGroup, GroupName, KeepsRanges, ElbName;
    more := [w];
    more := OneMoreRanged(w, more, k, c, m);
    more := OneMoreRanged(w, more, k, c, m.(pc := Route(s)));
    more := OneMoreRanged(w, more, k, c, m.(pc := Update(s)));
    l' := m.(pc := Work(s, e, Some(g)));
    more := OneMoreRanged(w, more, k, c, l');
  }

  /** An update of a group that exists gets past it. */
  lemma GetsPast(w: World, k: Key, g: Id) returns (more: seq<World>)
    requires k in w.locals && Ranged(w.locals[k]) && w.locals[k].pc.Idle? && HasBoth(w.locals[k], g)
    requires w.locals[k].binding.value.finalizer && g in w.cloud.groups
    ensures CalmFrom(k, w, more) && KeepsRanges(more, k) && PastWriting(Last(more).locals[k].pc)
  {
    var l;
    more, l := StartsWork(w, k, g);
    hide CalmFrom, TearStep, ChildStep, Found, FoundGroup, GroupName, KeepsRanges, SetGroup, ElbName, ListenersOf;
    var c, s, e := w.cloud, l.pc.s, l.pc.e;
    more := OneMoreRanged(w, more, k, c, l.(pc := AclUpdate(s, e, g)));
    more := OneMoreRanged(w, more, k, SetGroup(c, g, GroupName(k), s.cidrs), l.(pc := AclList(s, e, g)));
  }

  lemma StartsRanged(w: World, k: Key)
    requires k in w.locals && Ranged(w.locals[k])
    ensures KeepsRanges([w], k)
  {
  }

  lemma RangedBinding(k: Key, c: Cloud, l: Local, g: Id)
    requires KInv(k, c, l) && Ranged(l) && HasBoth(l, g)
    ensures g < c.next && l.binding.value.finalizer
  {
    hide SvcOk, SnapOk, PcOk, Guards, OneGroup, OnlyElb, OnlyGroup, Tag;
  }

  /** As long as a Service with a recorded ELB and a recorded group keeps source ranges, no update of
      it gets past writing them, in any disciplined continuation, if and only if the group is gone. */
  lemma StuckIffGone(run: seq<World>, k: Key, g: Id)
    requires CalmRun(k, run) && k in Last(run).locals
    requires var l := Last(run).locals[k]; Ranged(l) && l.pc.Idle? && HasBoth(l, g)
    ensures (forall more ::
              CalmFrom(k, Last(run), more) && KeepsRanges(more, k) ==> !PastWriting(Last(more).locals[k].pc))
       <==> g !in Last(run).cloud.groups
  {
    var w := Last(run);
    CalmRunsKeep(k, run, |run| - 1);
    InvMeans(w, k);
    hide CalmRun, Inv, Calm, KInv, KeepsRanges, Sound, Orderly, CalmFrom;
    RangedBinding(k, w.cloud, w.locals[k], g);
    if g in w.cloud.groups {
      var more := GetsPast(w, k, g);
      assert CalmFrom(k, w, more) && KeepsRanges(more, k);
    } else {
      forall more | CalmFrom(k, w, more) && KeepsRanges(more, k)
        ensures !PastWriting(Last(more).locals[k].pc)
      {
        StuckAtEnd(w, more, k, g);
      }
    }
  }

  lemma StuckAtEnd(w: World, more: seq<World>, k: Key, g: Id)
    requires Inv(k, w) && CalmFrom(k, w, more) && KeepsRanges(more, k)
    requires k in w.locals && Stuck(w.cloud, w.locals[k], g)
    ensures k in Last(more).locals && !PastWriting(Last(more).locals[k].pc)
  {
    hide Inv, Calm, KeepsRanges, Stuck;
    StuckOn(w, more, k, g, |more| - 1);
    NotPast(Last(more).cloud, Last(more).locals[k], g);
  }

  lemma NotPast(c: Cloud, l: Local, g: Id)
    requires Stuck(c, l, g)
    ensures !PastWriting(l.pc)
  {
  }

  // ---------------------------------------------------------------------------
  // How a recorded group comes to be gone
  // ---------------------------------------------------------------------------

  const OPEN_LISTENER := Listener(0, 80, None)

  /** Everything of a Service whose ELB 0 is recorded together with this group. */
  function Recording(s: Svc, acl: Option<Id>): Local {
    Local(Some(s), Some(Binding(s.uid, true, false, Some(0), acl)), Idle, {Tag(s.uid)})
  }

  /** The run that has written the ranges into a new group, enabled it nowhere as there are no
      listeners, and recorded it. */
  lemma GroupRecorded(k: Key, s: Svc) returns (run: seq<World>)
    requires Ordered(s) && s.cidrs != []
    ensures CalmRun(k, run)
    ensures Last(run) == World(AddGroup(AddElb(EMPTY, ElbName(k, s)), GroupName(k), s.cidrs),
      map[k := Recording(s, Some(1))])
  {
    hide ElbName, GroupName, Tag, CalmRun, ChildStep, TearStep;
    var c, l := AddElb(EMPTY, ElbName(k, s)), Recording(s, None);
    var c' := AddGroup(c, GroupName(k), s.cidrs);
    run := Equipped(k, s);
    run := Extends(run, k, c, l.(pc := Work(s, 0, None)), c, l.(pc := AclFind(s, 0)));
    assert FoundGroup(c, GroupName(k), None);
    run := Extends(run, k, c, l.(pc := AclFind(s, 0)), c, l.(pc := AclCreate(s, 0)));
    run := Extends(run, k, c, l.(pc := AclCreate(s, 0)), c', l.(pc := AclList(s, 0, 1)));
    assert ListenersOf(c', 0) == {};
    run := GroupBound(run, k, s, c', l);
  }

  lemma GroupBound(past: seq<World>, k: Key, s: Svc, c: Cloud, l: Local) returns (run: seq<World>)
    requires CalmRun(k, past) && Last(past) == World(c, map[k := l.(pc := AclList(s, 0, 1))])
    requires l == Recording(s, None) && ListenersOf(c, 0) == {}
    ensures CalmRun(k, run) && Last(run) == World(c, map[k := Recording(s, Some(1))])
  {
    hide CalmRun, Moves, ListenersOf;
    var start, listed, last := l.(pc := AclList(s, 0, 1)), l.(pc := AclBind(s, 0, 1, {})),
      l.(pc := AclRecord(s, 0, Some(1)));
    ListMoves(k, c, start);
    LoopEnds(k, c, listed);
    RecordMoves(k, c, s, l);
    run := Goes(past, k, c, start, c, listed);
    run := Goes(run, k, c, listed, c, last);
    run := Goes(run, k, c, last, c, Recording(s, Some(1)));
  }

  lemma RecordMoves(k: Key, c: Cloud, s: Svc, l: Local)
    requires l == Recording(s, None)
    ensures Moves(k, c, l.(pc := AclRecord(s, 0, Some(1))), c, Recording(s, Some(1)))
  {
    hide Tag;
  }

  /** The owner drops the ranges, and an update starts. */
  lemma RangesDropped(past: seq<World>, k: Key, s: Svc, t: Svc, acl: Option<Id>, c: Cloud) returns (run: seq<World>)
    requires Ordered(s) && t == s.(cidrs := [])
    requires CalmRun(k, past) && Last(past) == World(c, map[k := Recording(s, acl)])
    ensures CalmRun(k, run)
    ensures Last(run) == World(c, map[k := Recording(s, acl).(svc := Some(t), pc := Work(t, 0, acl))])
  {
    var l := Recording(s, acl);
    var m := l.(svc := Some(t));
    assert ElbName(k, s) == ElbName(k, t);
    UpdateMoves(k, t, c, m, acl);
    hide CalmRun, Moves, Tag, ElbName;
    run := Extends(past, k, c, l, c, m);
    run := Goes(run, k, c, m, c, m.(pc := Route(t)));
    run := Goes(run, k, c, m.(pc := Route(t)), c, m.(pc := Update(t)));
    run := Goes(run, k, c, m.(pc := Update(t)), c, m.(pc := Work(t, 0, acl)));
  }

  lemma UpdateMoves(k: Key, t: Svc, c: Cloud, m: Local, acl: Option<Id>)
    requires Ordered(t) && m.svc == Some(t) && m.pc.Idle?
      && m.binding == Some(Binding(t.uid, true, false, Some(0), acl))
    ensures Moves(k, c, m, c, m.(pc := Route(t)))
    ensures Moves(k, c, m.(pc := Route(t)), c, m.(pc := Update(t)))
    ensures Moves(k, c, m.(pc := Update(t)), c, m.(pc := Work(t, 0, acl)))
  {
  }

  /** The update that follows deletes the group, but cannot record that. */
  lemma Undone(past: seq<World>, k: Key, t: Svc, c: Cloud, m: Local) returns (run: seq<World>)
    requires m.pc.Idle? && t.cidrs == [] && ListenersOf(c, 0) == {}
    requires CalmRun(k, past) && Last(past) == World(c, map[k := m.(pc := Work(t, 0, Some(1)))])
    ensures CalmRun(k, run) && Last(run) == World(DropGroup(c, 1), map[k := m])
  {
    hide CalmRun, Moves, ListenersOf, DropGroup;
    var start, listed, looped := m.(pc := AclUnlist(t, 0, 1)), m.(pc := AclUnbind(t, 0, 1, {})),
      m.(pc := AclDrop(t, 0, 1));
    var c', last := DropGroup(c, 1), m.(pc := AclRecord(t, 0, None));
    UndoMoves(k, t, c, m);
    ListMoves(k, c, start);
    LoopEnds(k, c, listed);
    run := Goes(past, k, c, m.(pc := Work(t, 0, Some(1))), c, start);
    run := Goes(run, k, c, start, c, listed);
    run := Goes(run, k, c, listed, c, looped);
    run := Goes(run, k, c, looped, c', last);
    run := Goes(run, k, c', last, c', m);
  }

  /** The other steps on that way; the last patch fails. */
  lemma UndoMoves(k: Key, t: Svc, c: Cloud, m: Local)
    requires m.pc.Idle? && t.cidrs == []
    ensures Moves(k, c, m.(pc := Work(t, 0, Some(1))), c, m.(pc := AclUnlist(t, 0, 1)))
    ensures Moves(k, c, m.(pc := AclDrop(t, 0, 1)), DropGroup(c, 1), m.(pc := AclRecord(t, 0, None)))
    ensures Moves(k, DropGroup(c, 1), m.(pc := AclRecord(t, 0, None)), DropGroup(c, 1), m)
  {
    hide ChildStep, DropGroup;
  }

  /** A disciplined run into that trap: the ranges are dropped and the group is deleted with them,
      which cannot be recorded, and the ranges come back. From then on no update gets past it. */
  lemma RecordedGroupDies(k: Key, s: Svc) returns (run: seq<World>)
    requires Ordered(s) && s.cidrs != []
    ensures CalmRun(k, run) && Last(run).locals == map[k := Recording(s, Some(1))]
    ensures forall more ::
      CalmFrom(k, Last(run), more) && KeepsRanges(more, k) ==> !PastWriting(Last(more).locals[k].pc)
  {
    var t := s.(cidrs := []);
    var c := AddGroup(AddElb(EMPTY, ElbName(k, s)), GroupName(k), s.cidrs);
    run := GroupRecorded(k, s);
    assert ListenersOf(c, 0) == {};
    run := RangesDropped(run, k, s, t, Some(1), c);
    run := Undone(run, k, t, c, Recording(s, Some(1)).(svc := Some(t)));
    assert ElbName(k, s) == ElbName(k, t);
    hide CalmRun, ElbName, GroupName, Tag, ListenersOf, ChildStep, TearStep, CalmFrom, KeepsRanges;
    var l := Recording(s, Some(1));
    run := Extends(run, k, DropGroup(c, 1), l.(svc := Some(t)), DropGroup(c, 1), l);
    StuckIffGone(run, k, 1);
  }

  // ---------------------------------------------------------------------------
  // A group that was enabled but not recorded
  // ---------------------------------------------------------------------------

  /** The run in which the one listener has been bound to the group, and the process then dies. */
  lemma GroupEnabled(k: Key, s: Svc) returns (run: seq<World>, c: Cloud)
    requires Ordered(s) && s.cidrs != []
    ensures CalmRun(k, run) && Last(run) == World(c, map[k := Recording(s, None)])
    ensures c.listeners == map[1 := OPEN_LISTENER.(acl := Some(2))] && c.elbs == map[0 := ElbName(k, s)]
    ensures c.groups == map[2 := Group(GroupName(k), s.cidrs)]
  {
    hide ElbName, GroupName, Tag, CalmRun, Moves, FoundGroup, ChildStep;
    var c0, l := AddElb(EMPTY, ElbName(k, s)), Recording(s, None);
    var c1 := AddListener(c0, 0, 80);
    var c2 := AddGroup(c1, GroupName(k), s.cidrs);
    NoGroupYet(c1, k);
    ListenerAdded(k, s);
    EnableMoves(k, s, c0, c1, l);
    c := SetAcl(c2, 1, Some(2));
    run := Equipped(k, s);
    run := Goes(run, k, c0, l.(pc := Work(s, 0, None)), c1, l.(pc := Work(s, 0, None)));
    run := Goes(run, k, c1, l.(pc := Work(s, 0, None)), c1, l.(pc := AclFind(s, 0)));
    run := Goes(run, k, c1, l.(pc := AclFind(s, 0)), c1, l.(pc := AclCreate(s, 0)));
    run := Goes(run, k, c1, l.(pc := AclCreate(s, 0)), c2, l.(pc := AclList(s, 0, 2)));
    assert ListenersOf(c2, 0) == {1};
    run := OneBound(run, k, s, c2, l);
  }

  lemma NoGroupYet(c: Cloud, k: Key)
    requires c.groups == map[]
    ensures FoundGroup(c, GroupName(k), None)
  {
  }

  lemma EnableMoves(k: Key, s: Svc, c: Cloud, c': Cloud, l: Local)
    requires s.cidrs != [] && ChildStep(c, c', 0) && FoundGroup(c', GroupName(k), None)
    ensures Moves(k, c, l.(pc := Work(s, 0, None)), c', l.(pc := Work(s, 0, None)))
    ensures Moves(k, c', l.(pc := Work(s, 0, None)), c', l.(pc := AclFind(s, 0)))
    ensures Moves(k, c', l.(pc := AclFind(s, 0)), c', l.(pc := AclCreate(s, 0)))
    ensures var c2 := AddGroup(c', GroupName(k), s.cidrs);
      Moves(k, c', l.(pc := AclCreate(s, 0)), c2, l.(pc := AclList(s, 0, c'.next)))
  {
    hide ChildStep, FoundGroup, GroupName;
  }

  lemma ListenerAdded(k: Key, s: Svc)
    ensures var c := AddElb(EMPTY, ElbName(k, s)); ChildStep(c, AddListener(c, 0, 80), 0)
  {
    hide ElbName;
    var c := AddElb(EMPTY, ElbName(k, s));
    assert Ports(c, 0) == {};
    AddListenerKeepsWF(c, 0, 80);
    AddListenerBelow(c, 0, 80);
    hide WF, Rest;
  }

  lemma OneBound(past: seq<World>, k: Key, s: Svc, c: Cloud, l: Local) returns (run: seq<World>)
    requires CalmRun(k, past) && Last(past) == World(c, map[k := l.(pc := AclList(s, 0, 2))]) && l.pc.Idle?
    requires ListenersOf(c, 0) == {1} && 1 in c.listeners && 2 in c.groups
    ensures CalmRun(k, run) && Last(run) == World(SetAcl(c, 1, Some(2)), map[k := l])
  {
    hide CalmRun, Moves, ListenersOf, SetAcl;
    var c', start := SetAcl(c, 1, Some(2)), l.(pc := AclList(s, 0, 2));
    var listed, bound := l.(pc := AclBind(s, 0, 2, {1})), l.(pc := AclBind(s, 0, 2, {}));
    ListMoves(k, c, start);
    BindsOne(k, c, listed, 1);
    assert {1} - {1} == {};
    run := Goes(past, k, c, start, c, listed);
    run := Goes(run, k, c, listed, c', bound);
    run := Extends(run, k, c', bound, c', l);
  }

  /** A disciplined run in which the process dies between enabling the group and recording it, the
      owner drops the ranges, and the next update runs to its end: no ranges, no group recorded, and
      a listener that goes on admitting only the old ranges. Converge.CanSettle is the exact
      condition under which an update ends so. */
  lemma GroupStaysEnabled(k: Key, s: Svc) returns (run: seq<World>)
    requires Ordered(s) && s.cidrs != []
    ensures CalmRun(k, run)
    ensures Last(run).locals == map[k := Recording(s.(cidrs := []), None)]
    ensures ListenerOn(Last(run).cloud, 1, 0) && Last(run).cloud.listeners[1].acl == Some(2)
  {
    var t := s.(cidrs := []);
    var c;
    run, c := GroupEnabled(k, s);
    hide CalmRun, ElbName, GroupName, Tag, ChildStep, TearStep;
    run := RangesDropped(run, k, s, t, None, c);
    var m := Recording(s, None).(svc := Some(t));
    run := Extends(run, k, c, m.(pc := Work(t, 0, None)), c, m.(pc := AclRecord(t, 0, None)));
    run := Extends(run, k, c, m.(pc := AclRecord(t, 0, None)), c, m);
  }
}
