/** ELBs that nobody knows of any more: when one is lost, and a run in which it happens. */
module Leaks {
  import opened Common
  import opened Naming
  import opened CloudModel
  import opened Steps
  import opened Teardown
  import opened Protocol
  import opened Safety
  import opened Discipline
  import opened Promises
  import opened Continuations

  /** The binding a cleanup has read. */
  function Read(pc: PC): Option<Binding> {
    match pc
    case CleanFind(_, ob) => ob
    case Tear(_, ob, _) => ob
    case GroupFind(_, ob) => ob
    case GroupDrop(_, ob, _) => ob
    case Release(_, ob) => ob
    case _ => None
  }

  predicate Names(ob: Option<Binding>, e: Id) {
    ob.Some? && ob.value.elb == Some(e)
  }

  /** ELB `e` is live, its Service is gone for good, and neither the binding nor a process has it. */
  ghost predicate Forgotten(c: Cloud, l: Local, e: Id, tag: string) {
    && HasTag(c, e, tag) && tag in l.tags
    && (l.svc.Some? ==> Tag(l.svc.value.uid) != tag)
    && (Snapshot(l.pc).Some? ==> Tag(Snapshot(l.pc).value.uid) != tag)
    && !Names(l.binding, e) && !Names(Read(l.pc), e)
  }

  /** What is forgotten stays so whatever the key's process does. */
  lemma ForgottenMoves(k: Key, c: Cloud, l: Local, c': Cloud, l': Local, e: Id, tag: string)
    requires Own(k, c, l, c', l') && FreeToCreate(k, c, l) && Forgotten(c, l, e, tag)
    ensures Forgotten(c', l', e, tag)
  {
    SnapshotMoves(k, c, l, c', l');
    ForgottenStays(k, c, l, c', l', e, tag);
    ForgottenBinding(k, c, l, c', l', e, tag);
    ForgottenRead(k, c, l, c', l', e);
    hide Moves, KInv, Sound, Snapshot, HasTag, Tag, Names, Read, FreeToCreate;
  }

  lemma ForgottenStays(k: Key, c: Cloud, l: Local, c': Cloud, l': Local, e: Id, tag: string)
    requires Own(k, c, l, c', l') && Forgotten(c, l, e, tag)
    ensures HasTag(c', e, tag)
  {
    hide Moves, Tag, NameTag, SvcOk, SnapOk, BindingOk, Guards, OneGroup, ElbName, TearStep, Shrinks;
    if l.pc.Tear? {
      TearsOrStays(k, c, l, c', l');
      if c' != c {
        assert l.pc.e != e by {
          hide ObOk, OnlyElb, UniqueNames, WF;
        }
        TearShrinks(c, c', l.pc.e);
        StaysShrunk(c, c', l.pc.e, e, tag);
      }
    } else {
      hide KInv;
      ElbsMove(k, c, l, c', l');
      if !l.pc.Create? {
        ElbsStay(k, c, l, c', l');
      } else {
        hide UniqueNames;
      }
    }
  }

  lemma StaysShrunk(c: Cloud, c': Cloud, gone: Id, e: Id, tag: string)
    requires Shrinks(c, c', gone) && gone != e && HasTag(c, e, tag)
    ensures HasTag(c', e, tag)
  {
    hide NameTag;
  }

  /** The only call that records an ELB records the one the process holds. */
  lemma RecordsHeld(k: Key, c: Cloud, l: Local, c': Cloud, l': Local, e: Id)
    requires Moves(k, c, l, c', l') && !Names(l.binding, e) && Names(l'.binding, e)
    ensures l.pc.Record? && l.pc.e == e
  {
    hide ElbName, GroupName, TearStep, ChildStep, Found, FoundGroup, ListenersOf, AfterElb, CleanStart;
    hide Bound, Updated, Routed, AclStart, BindFailed;
  }

  lemma ForgottenBinding(k: Key, c: Cloud, l: Local, c': Cloud, l': Local, e: Id, tag: string)
    requires Own(k, c, l, c', l') && Forgotten(c, l, e, tag)
    ensures !Names(l'.binding, e)
  {
    hide Moves, KInv, Sound, Tag, NameTag, ElbName, Snapshot;
    if Names(l'.binding, e) {
      RecordsHeld(k, c, l, c', l', e);
      HeldAtRecord(k, c, l);
    }
  }

  lemma HeldAtRecord(k: Key, c: Cloud, l: Local)
    requires KInv(k, c, l) && Sound(c) && l.pc.Record?
    ensures HasTag(c, l.pc.e, Tag(l.pc.s.uid)) && Snapshot(l.pc) == Some(l.pc.s)
  {
    hide KInv, Sound, HasTag, Tag;
    KnowsHolding(k, c, l);
    HeldTag(k, c, l, l.pc.s, l.pc.e);
  }

  lemma ForgottenRead(k: Key, c: Cloud, l: Local, c': Cloud, l': Local, e: Id)
    requires Moves(k, c, l, c', l') && !Names(l.binding, e) && !Names(Read(l.pc), e)
    ensures !Names(Read(l'.pc), e)
  {
    hide ElbName, GroupName, TearStep, ChildStep, Found, FoundGroup, ListenersOf, WF, AddElb, AddGroup, SetGroup;
    hide SetAcl, DropGroup;
  }

  lemma ForgottenDisturbed(w: World, k: Key, l: Local, l': Local, e: Id, tag: string)
    requires k in w.locals && w.locals[k] == l && Forgotten(w.cloud, l, e, tag)
      && (Disturbs(w, k, l, l') || Stops(l, l'))
    ensures Forgotten(w.cloud, l', e, tag)
  {
    hide Tag, NameTag;
  }

  lemma ForgottenElsewhere(k: Key, c: Cloud, c': Cloud, l: Local, e: Id, tag: string)
    requires Agree(k, c, c', l.tags) && Forgotten(c, l, e, tag)
    ensures Forgotten(c', l, e, tag)
  {
    AgreeTags(k, c, c', l.tags, tag);
    hide Agree, Tag, Snapshot, Read, NameTag;
  }

  lemma ForgottenCalm(w: World, w': World, k: Key, e: Id, tag: string)
    requires Inv(k, w) && Calm(k, w, w') && k in w.locals && Forgotten(w.cloud, w.locals[k], e, tag)
    ensures k in w'.locals && Forgotten(w'.cloud, w'.locals[k], e, tag)
  {
    CalmIsSeen(w, w', k);
    hide Inv, Calm, Forgotten, Own, FreeToCreate, OnlyOwn, Agree, Disturbs, Polite, Stops;
    var c, l, c', l' := w.cloud, w.locals[k], w'.cloud, w'.locals[k];
    if Own(k, c, l, c', l') && FreeToCreate(k, c, l) {
      ForgottenMoves(k, c, l, c', l', e, tag);
    } else if l' == l && Agree(k, c, c', l.tags) {
      ForgottenElsewhere(k, c, c', l, e, tag);
    } else {
      ForgottenDisturbed(w, k, l, l', e, tag);
    }
  }

  lemma {:induction false} ForgottenOn(w: World, more: seq<World>, k: Key, e: Id, tag: string, i: nat)
    requires Inv(k, w) && CalmFrom(k, w, more) && i < |more| && k in w.locals && Forgotten(w.cloud, w.locals[k], e, tag)
    ensures k in more[i].locals && Forgotten(more[i].cloud, more[i].locals[k], e, tag)
  {
    hide Inv, Calm, Forgotten;
    if i > 0 {
      ForgottenOn(w, more, k, e, tag, i - 1);
      InvOn(k, w, more, i - 1);
      ForgottenCalm(more[i - 1], more[i], k, e, tag);
    }
  }

  /** A teardown can always come to its end. */
  lemma {:induction false} TearsAway(w: World, more: seq<World>, k: Key, e: Id) returns (longer: seq<World>)
    requires CalmFrom(k, w, more) && k in Last(more).locals
    requires Last(more).locals[k].pc.Tear? && Last(more).locals[k].pc.e == e
    ensures CalmFrom(k, w, longer) && e !in Last(longer).cloud.elbs
    decreases Remaining(Last(more).cloud, e)
  {
    var v := Last(more);
    if e !in v.cloud.elbs {
      longer := more;
    } else {
      var c' := NextTorn(v.cloud, e);
      TearStepShrinks(v.cloud, c', e, false);
      hide TearStep, CalmFrom, Remaining, Without;
      TearIsCalm(v, k, c');
      longer := OneMore(w, more, k, c', v.locals[k]);
      longer := TearsAway(w, longer, k, e);
    }
  }

  lemma TearIsCalm(v: World, k: Key, c': Cloud)
    requires k in v.locals && v.locals[k].pc.Tear? && TearStep(v.cloud, c', v.locals[k].pc.e, false)
    ensures CalmStep(k, v, k, c', v.locals[k])
  {
    hide TearStep;
  }

  lemma NextTorn(c: Cloud, e: Id) returns (c': Cloud)
    requires e in c.elbs
    ensures TearStep(c, c', e, false)
  {
    if ListenersOf(c, e) == {} {
      c' := DropElb(c, e);
    } else {
      var l :| l in ListenersOf(c, e);
      if PoolsAt(c, l) == {} {
        c' := DropListener(c, l);
        assert ListenerOn(c, l, e);
      } else {
        var p :| p in PoolsAt(c, l);
        c' := DropPool(c, p);
        assert PoolOn(c, p, e);
      }
    }
  }

  /** The recorded ELB of a Service that is gone can be removed. */
  lemma RecordedIsRemoved(w: World, k: Key, e: Id) returns (more: seq<World>)
    requires Inv(k, w) && k in w.locals && w.locals[k].svc.None? && w.locals[k].pc.Idle?
    requires e in w.cloud.elbs && Names(w.locals[k].binding, e)
    ensures CalmFrom(k, w, more) && e !in Last(more).cloud.elbs
  {
    hide Inv, KInv, Sound, TearStep, Calm, Moves, CalmFrom;
    InvMeans(w, k);
    var c, l := w.cloud, w.locals[k];
    NotYet(k, w);
    LiveHasFinalizer(k, c, l, e);
    OrphanMoves(k, c, l, e);
    more := [w];
    more := OneMore(w, more, k, c, l.(pc := Orphan));
    more := OneMore(w, more, k, c, l.(pc := Tear(None, l.binding, e)));
    more := TearsAway(w, more, k, e);
  }

  lemma LiveHasFinalizer(k: Key, c: Cloud, l: Local, e: Id)
    requires KInv(k, c, l) && Names(l.binding, e) && e in c.elbs
    ensures l.binding.value.finalizer
  {
    hide SvcOk, SnapOk, PcOk, Guards, OneGroup, Tag, Recorded;
  }

  lemma OrphanMoves(k: Key, c: Cloud, l: Local, e: Id)
    requires l.svc.None? && l.pc.Idle? && Names(l.binding, e) && l.binding.value.finalizer
    ensures Moves(k, c, l, c, l.(pc := Orphan))
    ensures Moves(k, c, l.(pc := Orphan), c, l.(pc := Tear(None, l.binding, e)))
  {
  }

  /** Once a Service has gone and no process works on its key, a live ELB that was created for it
      outlives every disciplined continuation, new Services of that name included, if and only if
      the binding does not record it. */
  lemma LeaksIffUnrecorded(run: seq<World>, k: Key, e: Id)
    requires CalmRun(k, run) && k in Last(run).locals
    requires var l := Last(run).locals[k];
      l.svc.None? && l.pc.Idle? && e in Last(run).cloud.elbs && NameTag(Last(run).cloud.elbs[e]) in l.tags
    ensures (forall more :: CalmFrom(k, Last(run), more) ==> e in Last(more).cloud.elbs)
       <==> !Names(Last(run).locals[k].binding, e)
  {
    var w := Last(run);
    CalmRunsKeep(k, run, |run| - 1);
    hide CalmRun, Inv, Calm;
    if Names(w.locals[k].binding, e) {
      var more := RecordedIsRemoved(w, k, e);
      assert CalmFrom(k, w, more);
    } else {
      var tag := NameTag(w.cloud.elbs[e]);
      forall more | CalmFrom(k, w, more)
        ensures e in Last(more).cloud.elbs
      {
        ForgottenOn(w, more, k, e, tag, |more| - 1);
      }
    }
  }

  /** If the process dies between creating the ELB and recording it, and the Service vanishes before
      the next attempt, the ELB stays for ever. */
  lemma UnrecordedElbLeaks(k: Key, s: Svc) returns (run: seq<World>)
    requires Ordered(s)
    ensures CalmRun(k, run) && HasTag(Last(run).cloud, 0, Tag(s.uid))
    ensures forall more :: CalmFrom(k, Last(run), more) ==> 0 in Last(more).cloud.elbs
  {
    TagOfName(k, s);
    hide ElbName, Tag, CalmRun, NameTag, CalmFrom;
    var l := Local(Some(s), None, Idle, {Tag(s.uid)});
    var c := AddElb(EMPTY, ElbName(k, s));
    run := Created(k, s);
    run := Extends(run, k, c, l.(pc := Bind(s, 0, false)), c, l);
    run := Extends(run, k, c, l, c, l.(svc := None));
    LeaksIffUnrecorded(run, k, 0);
  }
}
