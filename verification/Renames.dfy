/** What changing the name annotation of a Service can do: when there still is at most one ELB of
    the Service afterwards, and a run that ends with two. */
module Renames {
  import opened Common
  import opened Naming
  import opened CloudModel
  import opened Steps
  import opened Protocol
  import opened Safety
  import opened Discipline
  import opened Promises
  import opened Continuations

  /** The owner changes the name annotation, and with it the ELB name. */
  predicate Renamed(k: Key, l: Local, l': Local) {
    Edited(l, l') && ElbName(k, l'.svc.value) != ElbName(k, l.svc.value)
  }

  /** When that does no harm: the Service is on its way out already, or it has no ELB and no process
      is about to give it one. */
  ghost predicate MayRename(c: Cloud, l: Local) {
    l.svc.Some? ==> l.svc.value.deleting || (NoElb(c, Tag(l.svc.value.uid)) && !Working(l.pc))
  }

  ghost predicate OneTagged(c: Cloud, tag: string) {
    forall e, f | HasTag(c, e, tag) && HasTag(c, f, tag) :: e == f
  }

  lemma StableIsOne(k: Key, c: Cloud, s: Svc)
    requires Stable(k, c, s) && UniqueNames(c)
    ensures OneTagged(c, Tag(s.uid))
  {
    hide Tag, NameTag, ElbName;
  }

  // While the Service is being deleted

  /** No ELB is going to be created under this tag but by the process that is about to, and that one
      knows that there is none. */
  ghost predicate Sealed(k: Key, c: Cloud, l: Local, tag: string) {
    && tag in l.tags && OneTagged(c, tag)
    && (l.svc.Some? && Tag(l.svc.value.uid) == tag ==> l.svc.value.deleting)
    && (Working(l.pc) && Snapshot(l.pc).Some? && Tag(Snapshot(l.pc).value.uid) == tag ==>
          Stable(k, c, Snapshot(l.pc).value) && (l.pc.Create? ==> NoElb(c, tag)))
  }

  /** Only fewer ELBs. */
  ghost predicate Fewer(c: Cloud, c': Cloud) {
    forall e :: e in c'.elbs ==> e in c.elbs && c'.elbs[e] == c.elbs[e]
  }

  /** The ELBs with this tag are among those there were, or there is one now and was none. */
  lemma OneTaggedOn(c: Cloud, c': Cloud, tag: string)
    requires OneTagged(c, tag)
    requires (forall e :: HasTag(c', e, tag) ==> HasTag(c, e, tag))
      || (NoElb(c, tag) && forall e :: HasTag(c', e, tag) ==> e == c.next)
    ensures OneTagged(c', tag)
  {
    hide NameTag, HasTag, NoElb;
  }

  lemma FewerTagged(c: Cloud, c': Cloud, tag: string)
    requires Fewer(c, c')
    ensures forall e :: HasTag(c', e, tag) ==> HasTag(c, e, tag)
  {
    hide NameTag;
  }

  lemma FewerSealed(k: Key, c: Cloud, l: Local, c': Cloud, l': Local, tag: string)
    requires Sealed(k, c, l, tag) && Fewer(c, c') && l'.svc == l.svc && l'.tags == l.tags
    requires Working(l'.pc) ==> Working(l.pc) && Snapshot(l'.pc) == Snapshot(l.pc) && !l'.pc.Create?
    ensures Sealed(k, c', l', tag)
  {
    FewerTagged(c, c', tag);
    OneTaggedOn(c, c', tag);
    hide Tag, NameTag, ElbName, Working, Snapshot, OneTagged;
  }

  lemma WorksOn(k: Key, c: Cloud, l: Local, c': Cloud, l': Local)
    requires Moves(k, c, l, c', l') && !l.pc.Idle? && !l.pc.Find?
    ensures Working(l'.pc) ==> Working(l.pc) && Snapshot(l'.pc) == Snapshot(l.pc) && !l'.pc.Create?
  {
    hide ElbName, GroupName, WF, TearStep, ChildStep, Found, FoundGroup, ListenersOf, AddElb, AddGroup, SetGroup;
    hide SetAcl;
    hide Healed, WithElb, WithAcl, DropFinalizer, DeleteBinding, DropGroup;
  }

  lemma SealedCreate(k: Key, c: Cloud, l: Local, s: Svc, tag: string)
    requires Sealed(k, c, l, tag) && l.pc == Create(s) && |s.uid| >= 10 && c.next !in c.elbs
    ensures Sealed(k, AddElb(c, ElbName(k, s)), l.(pc := Bind(s, c.next, false)), tag)
  {
    TagOfName(k, s);
    AddedTagged(c, ElbName(k, s), tag);
    OneTaggedOn(c, AddElb(c, ElbName(k, s)), tag);
    hide Tag, NameTag, ElbName, OneTagged;
  }

  lemma AddedTagged(c: Cloud, name: string, tag: string)
    requires c.next !in c.elbs
    ensures NameTag(name) != tag ==> forall e :: HasTag(AddElb(c, name), e, tag) ==> HasTag(c, e, tag)
    ensures NoElb(c, tag) ==> forall e :: HasTag(AddElb(c, name), e, tag) ==> e == c.next
  {
    hide NameTag;
  }

  lemma SealedFind(k: Key, c: Cloud, l: Local, l': Local, s: Svc, r: Option<Id>, tag: string)
    requires Sealed(k, c, l, tag) && l.pc == Find(s) && |s.uid| >= 10 && Found(c, ElbName(k, s), r)
    requires l' == l.(pc := ElbFound(s, r))
    ensures Sealed(k, c, l', tag)
  {
    hide Tag, NameTag, ElbName;
  }

  lemma SealedStart(k: Key, c: Cloud, l: Local, tag: string)
    requires Sealed(k, c, l, tag)
    ensures Sealed(k, c, l.(pc := Start(l.svc)), tag)
  {
    hide Tag, NameTag, ElbName, Stable;
  }

  lemma SealedMoves(k: Key, c: Cloud, l: Local, c': Cloud, l': Local, tag: string)
    requires Sealed(k, c, l, tag) && Moves(k, c, l, c', l') && (forall e :: e in c.elbs ==> e < c.next)
    requires Registered(l, Snapshot(l.pc))
    ensures Sealed(k, c', l', tag)
  {
    SnapshotMoves(k, c, l, c', l');
    ElbsMove(k, c, l, c', l');
    hide Sealed, ElbName, Tag;
    if l.pc.Idle? {
      SealedStart(k, c, l, tag);
    } else if l.pc.Find? {
      var r :| Found(c, ElbName(k, l.pc.s), r) && l' == l.(pc := ElbFound(l.pc.s, r));
      SealedFind(k, c, l, l', l.pc.s, r, tag);
    } else if l.pc.Create? {
      SealedCreate(k, c, l, l.pc.s, tag);
    } else {
      hide Moves;
      WorksOn(k, c, l, c', l');
      FewerSealed(k, c, l, c', l', tag);
    }
  }

  lemma SealedDisturbed(w: World, k: Key, l: Local, l': Local, tag: string)
    requires k in w.locals && w.locals[k] == l && Sealed(k, w.cloud, l, tag) && (Disturbs(w, k, l, l') || Stops(l, l'))
    ensures Sealed(k, w.cloud, l', tag)
  {
    hide Tag, NameTag, ElbName, Stable, OneTagged;
  }

  /** A step of another key. */
  lemma SealedElsewhere(k: Key, c: Cloud, m: Local, j: Key, l: Local, c': Cloud, tag: string)
    requires Sealed(k, c, m, tag) && ElbsGrowBy(j, c, l, c') && m.tags !! l.tags && Registered(l, Snapshot(l.pc))
    requires c.next !in c.elbs
    ensures Sealed(k, c', m, tag)
  {
    if l.pc.Create? {
      TagOfName(j, l.pc.s);
      AddedTagged(c, ElbName(j, l.pc.s), tag);
    } else {
      FewerTagged(c, c', tag);
    }
    OneTaggedOn(c, c', tag);
    hide OneTagged, Tag, NameTag, ElbName, Working;
  }

  lemma OrderlyFor(w: World, j: Key, k: Key)
    requires Orderly(w) && j in w.locals && k in w.locals
    ensures (forall e :: e in w.cloud.elbs ==> e < w.cloud.next) && Registered(w.locals[k], Snapshot(w.locals[k].pc))
    ensures j != k ==> w.locals[j].tags !! w.locals[k].tags
  {
  }

  lemma SealedNext(w: World, w': World, k: Key, tag: string)
    requires Orderly(w) && Next(w, w') && k in w.locals && Sealed(k, w.cloud, w.locals[k], tag)
    ensures Orderly(w') && k in w'.locals && Sealed(k, w'.cloud, w'.locals[k], tag)
  {
    OrderlyNext(w, w');
    hide Orderly, Sealed, Moves, Disturbs, Stops, Registered;
    if n :| n !in w.locals && w' == w.(locals := w.locals[n := NOTHING]) {
    } else {
      var j, c', l' :| StepsAt(w, j, c', l') && w' == World(c', w.locals[j := l']);
      var l := w.locals[j];
      OrderlyFor(w, j, k);
      OrderlyFor(w, k, j);
      if Moves(j, w.cloud, l, c', l') {
        if j == k {
          SealedMoves(k, w.cloud, l, c', l', tag);
        } else {
          ElbsMove(j, w.cloud, l, c', l');
          SealedElsewhere(k, w.cloud, w.locals[k], j, l, c', tag);
        }
      } else if j == k {
        SealedDisturbed(w, k, l, l', tag);
      }
    }
  }

  lemma {:induction false} SealedOn(w: World, more: seq<World>, k: Key, tag: string, i: nat)
    requires Orderly(w) && CalmFrom(k, w, more) && i < |more| && k in w.locals && Sealed(k, w.cloud, w.locals[k], tag)
    ensures Orderly(more[i]) && k in more[i].locals && Sealed(k, more[i].cloud, more[i].locals[k], tag)
  {
    hide Orderly, Calm, Sealed, Next;
    if i > 0 {
      SealedOn(w, more, k, tag, i - 1);
      CalmIsNext(k, more[i - 1], more[i]);
      SealedNext(more[i - 1], more[i], k, tag);
    }
  }

  /** ... it may be renamed at any point of any process. */
  lemma DeletingIsSealed(k: Key, c: Cloud, l: Local, l': Local)
    requires KInv(k, c, l) && Sound(c) && Renamed(k, l, l') && l.svc.value.deleting
    ensures Sealed(k, c, l', Tag(l.svc.value.uid))
  {
    StableIsOne(k, c, l.svc.value);
    hide NameTag, ElbName, BindingOk, Guards, OneGroup, Sound, OneTagged, Tag, Working;
    if l.pc.Create? {
      assert PcOk(k, c, l);
    }
    hide PcOk;
  }

  // While the Service has no ELB

  lemma OneTagOwn(k: Key, c: Cloud, l: Local, c': Cloud, l': Local, tag: string)
    requires Own(k, c, l, c', l') && OneTagged(c, tag)
    ensures OneTagged(c', tag)
  {
    ElbsMove(k, c, l, c', l');
    assert c.next !in c.elbs;
    if l.pc.Create? {
      assert |l.pc.s.uid| >= 10 && NoElb(c, Tag(l.pc.s.uid));
      TagOfName(k, l.pc.s);
      AddedTagged(c, ElbName(k, l.pc.s), tag);
    } else {
      FewerTagged(c, c', tag);
    }
    hide Own, OneTagged, Tag, NameTag, ElbName, HasTag, NoElb;
    OneTaggedOn(c, c', tag);
  }

  lemma OneTagElsewhere(k: Key, c: Cloud, c': Cloud, tags: set<string>, tag: string)
    requires Agree(k, c, c', tags) && tag in tags && OneTagged(c, tag)
    ensures OneTagged(c', tag)
  {
    AgreeTags(k, c, c', tags, tag);
    OneTaggedOn(c, c', tag);
  }

  lemma OneTagCalm(w: World, w': World, k: Key, tag: string)
    requires Inv(k, w) && Calm(k, w, w') && k in w.locals && tag in w.locals[k].tags && OneTagged(w.cloud, tag)
    ensures k in w'.locals && tag in w'.locals[k].tags && OneTagged(w'.cloud, tag)
  {
    hide Inv, Calm, Own, FreeToCreate, OnlyOwn, Agree, Polite, OneTagged, Tag;
    CalmIsSeen(w, w', k);
    var c, l, c', l' := w.cloud, w.locals[k], w'.cloud, w'.locals[k];
    if Own(k, c, l, c', l') && FreeToCreate(k, c, l) {
      OneTagOwn(k, c, l, c', l', tag);
      OwnTags(k, c, l, c', l');
    } else if l' == l && Agree(k, c, c', l.tags) {
      OneTagElsewhere(k, c, c', l.tags, tag);
    }
  }

  lemma OwnTags(k: Key, c: Cloud, l: Local, c': Cloud, l': Local)
    requires Own(k, c, l, c', l')
    ensures l'.tags == l.tags
  {
    SnapshotMoves(k, c, l, c', l');
  }

  lemma {:induction false} OneTagOn(w: World, more: seq<World>, k: Key, tag: string, i: nat)
    requires Inv(k, w) && CalmFrom(k, w, more) && i < |more| && k in w.locals && tag in w.locals[k].tags
      && OneTagged(w.cloud, tag)
    ensures k in more[i].locals && tag in more[i].locals[k].tags && OneTagged(more[i].cloud, tag)
  {
    hide Inv, Calm, OneTagged;
    if i > 0 {
      OneTagOn(w, more, k, tag, i - 1);
      InvOn(k, w, more, i - 1);
      OneTagCalm(more[i - 1], more[i], k, tag);
    }
  }

  /** No cleanup works on a Service that is wanted. */
  lemma WantedIsIdle(k: Key, c: Cloud, l: Local)
    requires KInv(k, c, l) && l.svc.Some? && !l.svc.value.deleting && !Working(l.pc)
    ensures l.pc.Idle?
  {
    hide SvcOk, SnapOk, BindingOk, Guards, OneGroup, NoElb, NoGroup, Sole, Recorded, TearOk, ElbGone, GroupGone;
  }

  lemma RenamedKeeps(k: Key, c: Cloud, l: Local, l': Local)
    requires KInv(k, c, l) && Renamed(k, l, l') && NoElb(c, Tag(l.svc.value.uid)) && l.pc.Idle?
    ensures KInv(k, c, l')
  {
    hide Tag, NameTag, ElbName, OneGroup, Recorded, OnlyElb, NoGroup, OnlyGroup;
  }

  lemma RenamedInv(w: World, k: Key, l': Local)
    requires Inv(k, w) && k in w.locals && Renamed(k, w.locals[k], l')
    requires !w.locals[k].svc.value.deleting && MayRename(w.cloud, w.locals[k])
    ensures Inv(k, w.(locals := w.locals[k := l']))
  {
    InvMeans(w, k);
    hide Inv, KInv, Orderly, NoElb, Tag, ElbName;
    WantedIsIdle(k, w.cloud, w.locals[k]);
    RenamedKeeps(k, w.cloud, w.locals[k], l');
    OrderlyDisturbed(w, k, l');
    InvInPlace(k, w, k, l');
  }

  /** Once a rename is harmless, there is at most one ELB of the Service for ever. */
  lemma RenamedSafely(w: World, k: Key, l': Local, more: seq<World>)
    requires Inv(k, w) && k in w.locals && Renamed(k, w.locals[k], l') && MayRename(w.cloud, w.locals[k])
    requires CalmFrom(k, w.(locals := w.locals[k := l']), more)
    ensures OneTagged(Last(more).cloud, Tag(w.locals[k].svc.value.uid))
  {
    var w', tag := w.(locals := w.locals[k := l']), Tag(w.locals[k].svc.value.uid);
    InvMeans(w, k);
    if w.locals[k].svc.value.deleting {
      hide Inv, KInv, Orderly, CalmFrom, Sealed, Renamed, MayRename;
      DeletingIsSealed(k, w.cloud, w.locals[k], l');
      assert Disturbs(w, k, w.locals[k], l') by {
        assert Renamed(k, w.locals[k], l') && Edited(w.locals[k], l');
      }
      OrderlyDisturbed(w, k, l');
      SealedOn(w', more, k, tag, |more| - 1);
      SealedIsOne(k, Last(more).cloud, Last(more).locals[k], tag);
    } else {
      RenamedInv(w, k, l');
      assert tag in l'.tags && OneTagged(w.cloud, tag) by {
        hide PcOk, BindingOk, SnapOk, Guards, OneGroup, Orderly, CalmFrom;
        StableIsOne(k, w.cloud, w.locals[k].svc.value);
      }
      hide Inv, KInv, CalmFrom;
      OneTagOn(w', more, k, tag, |more| - 1);
    }
  }

  lemma SealedIsOne(k: Key, c: Cloud, l: Local, tag: string)
    requires Sealed(k, c, l, tag)
    ensures OneTagged(c, tag)
  {
  }

  // Otherwise

  /** A Service with an ELB, none of its present name, can get another one. */
  lemma GetsAnother(w: World, more: seq<World>, k: Key, e: Id) returns (longer: seq<World>)
    requires CalmFrom(k, w, more) && k in Last(more).locals
    requires var v := Last(more); var l := v.locals[k];
      && l.svc.Some? && !l.svc.value.deleting && |l.svc.value.uid| >= 10
      && HasTag(v.cloud, e, Tag(l.svc.value.uid)) && Found(v.cloud, ElbName(k, l.svc.value), None)
      && v.cloud.next !in v.cloud.elbs
    ensures CalmFrom(k, w, longer) && !OneTagged(Last(longer).cloud, Tag(Last(more).locals[k].svc.value.uid))
  {
    var c, l := Last(more).cloud, Last(more).locals[k];
    var s := l.svc.value.(lb := true, ours := true);
    var m := l.(svc := Some(s), pc := Idle);
    SameName(k, s, l.svc.value);
    hide ElbName, Tag, NameTag, CalmFrom, TearStep, ChildStep, Found;
    longer := OneMore(w, more, k, c, l.(pc := Idle));
    longer := OneMore(w, longer, k, c, m);
    longer := OneMore(w, longer, k, c, m.(pc := Route(s)));
    longer := GetsOne(w, longer, k, s);
    TwoNow(k, c, s, e);
  }

  lemma SameName(k: Key, s: Svc, t: Svc)
    requires s.uid == t.uid && s.params == t.params
    ensures ElbName(k, s) == ElbName(k, t)
  {
  }

  lemma TwoNow(k: Key, c: Cloud, s: Svc, e: Id)
    requires |s.uid| >= 10 && HasTag(c, e, Tag(s.uid)) && c.next !in c.elbs
    ensures !OneTagged(AddElb(c, ElbName(k, s)), Tag(s.uid))
  {
    TagOfName(k, s);
    hide Tag, NameTag, ElbName;
    var c' := AddElb(c, ElbName(k, s));
    assert HasTag(c', e, Tag(s.uid)) && HasTag(c', c.next, Tag(s.uid));
  }

  /** A process at work on a Service without an ELB gives it one, of the name it knows. */
  lemma GetsOne(w: World, more: seq<World>, k: Key, s: Svc) returns (longer: seq<World>)
    requires CalmFrom(k, w, more) && k in Last(more).locals
    requires var l := Last(more).locals[k];
      && (l.pc == Route(s) || l.pc == Update(s) || l.pc == Find(s) || l.pc == Create(s))
      && (l.pc.Update? && l.binding.Some? ==> l.binding.value.elb.None?)
      && Found(Last(more).cloud, ElbName(k, s), None)
    ensures CalmFrom(k, w, longer)
    ensures var v := Last(more);
      Last(longer) == World(AddElb(v.cloud, ElbName(k, s)),
        v.locals[k := v.locals[k].(pc := Bind(s, v.cloud.next, false))])
  {
    var c, l := Last(more).cloud, Last(more).locals[k];
    hide ElbName, Tag, NameTag, CalmFrom, TearStep, ChildStep;
    longer := more;
    if l.pc == Route(s) || l.pc == Update(s) {
      longer := OneMore(w, longer, k, c, l.(pc := Find(s)));
    }
    if !l.pc.Create? {
      longer := OneMore(w, longer, k, c, l.(pc := Create(s)));
    }
    longer := OneMore(w, longer, k, AddElb(c, ElbName(k, s)), l.(pc := Bind(s, c.next, false)));
  }

  /** What the invariant says of a process at work on a Service that has no ELB. */
  lemma WorkingWithout(k: Key, c: Cloud, l: Local)
    requires KInv(k, c, l) && Sound(c) && l.svc.Some? && Working(l.pc) && NoElb(c, Tag(l.svc.value.uid))
    ensures var s := l.pc.s;
      && Snapshot(l.pc) == Some(s)
      && (l.pc == Route(s) || l.pc == Update(s) || l.pc == Find(s) || l.pc == Create(s))
      && s.uid == l.svc.value.uid && |s.uid| >= 10 && ElbName(k, s) == ElbName(k, l.svc.value)
      && Found(c, ElbName(k, s), None)
      && (l.binding.Some? ==> l.binding.value.elb.None?)
  {
    var s := l.pc.s;
    TagOfName(k, s);
    if HoldsElb(l.pc) {
      HeldIsTagged(k, c, l);
    }
    hide Guards, OneGroup, ElbName, Tag, NameTag, OnlyElb, OnlyGroup, NoGroup, Sole, Stable, Sound, Named, ListenersOf;
  }

  lemma HeldIsTagged(k: Key, c: Cloud, l: Local)
    requires KInv(k, c, l) && HoldsElb(l.pc) && |l.pc.s.uid| >= 10
    ensures !NoElb(c, Tag(l.pc.s.uid))
  {
    KnowsHolding(k, c, l);
    NameHasTag(k, c, l.pc.s, l.pc.e);
    hide KInv, NameTag, Tag, ElbName;
  }

  /** The ELBs of a Service carry its old name, so none carries the new one. */
  lemma NewNameIsFree(k: Key, c: Cloud, s: Svc, t: Svc)
    requires Stable(k, c, s) && s.uid == t.uid && ElbName(k, t) != ElbName(k, s)
    ensures Found(c, ElbName(k, t), None)
  {
    TagOfName(k, t);
    hide ElbName, Tag, NameTag;
  }

  lemma CreatedStable(k: Key, c: Cloud, s: Svc)
    requires NoElb(c, Tag(s.uid)) && |s.uid| >= 10 && c.next !in c.elbs
    ensures var c' := AddElb(c, ElbName(k, s)); Stable(k, c', s) && HasTag(c', c.next, Tag(s.uid))
  {
    TagOfName(k, s);
    hide ElbName, Tag, NameTag;
  }

  /** A rename that is not harmless can lead to a second ELB. */
  lemma RenamedTwice(w: World, k: Key, l': Local) returns (more: seq<World>)
    requires Inv(k, w) && k in w.locals && Renamed(k, w.locals[k], l') && !MayRename(w.cloud, w.locals[k])
    ensures CalmFrom(k, w.(locals := w.locals[k := l']), more)
    ensures !OneTagged(Last(more).cloud, Tag(w.locals[k].svc.value.uid))
  {
    var c, l := w.cloud, w.locals[k];
    var w', s, t := w.(locals := w.locals[k := l']), l.svc.value, l'.svc.value;
    InvMeans(w, k);
    assert Stable(k, c, s) && c.next !in c.elbs && c.next + 1 !in c.elbs by {
      hide SnapOk, BindingOk, PcOk, Guards, OneGroup, Inv;
    }
    hide Inv, Sound, Orderly, ElbName, Tag;
    NotYet(k, w');
    more := [w'];
    if NoElb(c, Tag(s.uid)) {
      WorkingWithout(k, c, l);
      hide KInv, CalmFrom, NoElb, Found;
      var u := l.pc.s;
      more := GetsOne(w', more, k, u);
      CreatedStable(k, c, u);
      NewNameIsFree(k, AddElb(c, ElbName(k, u)), u, t);
      more := GetsAnother(w', more, k, c.next);
    } else {
      var e :| e in c.elbs && NameTag(c.elbs[e]) == Tag(s.uid);
      hide KInv, CalmFrom, NoElb, Found, NameTag;
      assert HasTag(c, e, Tag(s.uid));
      NewNameIsFree(k, c, s, t);
      more := GetsAnother(w', more, k, e);
    }
  }

  /** After a change of the name annotation there is at most one ELB of the Service in every
      disciplined continuation, if and only if the Service is being deleted already, or it has no
      ELB and no process is at work on it. That the ELB is recorded does not help: a process that
      cannot read the binding goes on to create. */
  lemma RenameIsSafeIff(run: seq<World>, k: Key, l': Local)
    requires CalmRun(k, run) && k in Last(run).locals && Renamed(k, Last(run).locals[k], l')
    ensures var w := Last(run); var w' := w.(locals := w.locals[k := l']);
      (forall more :: CalmFrom(k, w', more) ==> OneTagged(Last(more).cloud, Tag(l'.svc.value.uid)))
      <==> MayRename(w.cloud, w.locals[k])
  {
    var w := Last(run);
    var w' := w.(locals := w.locals[k := l']);
    CalmRunsKeep(k, run, |run| - 1);
    hide CalmRun, Inv, OneTagged, MayRename;
    if MayRename(w.cloud, w.locals[k]) {
      forall more | CalmFrom(k, w', more)
        ensures OneTagged(Last(more).cloud, Tag(l'.svc.value.uid))
      {
        RenamedSafely(w, k, l', more);
      }
    } else {
      var more := RenamedTwice(w, k, l');
      assert CalmFrom(k, w', more);
    }
  }

  /** In particular, a Service that is wanted and has its ELB recorded is not safe to rename. */
  lemma RecordingDoesNotHelp(run: seq<World>, k: Key, l': Local)
    requires CalmRun(k, run) && k in Last(run).locals && Renamed(k, Last(run).locals[k], l')
    requires var l := Last(run).locals[k];
      !l.svc.value.deleting && l.binding.Some? && l.binding.value.elb.Some?
    ensures var w' := Last(run).(locals := Last(run).locals[k := l']);
      exists more :: CalmFrom(k, w', more) && !OneTagged(Last(more).cloud, Tag(l'.svc.value.uid))
  {
    RecordedIsLive(run, |run| - 1, k);
    RenameIsSafeIff(run, k, l');
    hide CalmRun, CalmFrom, OneTagged, Tag, NameTag, ElbName;
  }

  const SHOP := Key("web", "shop")
  const ORDERED := Svc("0123456789", map[], [], true, true, false)
  const RENAMED := ORDERED.(params := map[NAME_ANNOTATION := "x"])

  lemma NamesOfShop()
    ensures ElbName(SHOP, ORDERED) != ElbName(SHOP, RENAMED)
  {
    var uid := ORDERED.uid;
    assert UidSuffix(uid) == uid;
    assert ByteLen(uid) <= 40;
    assert Truncate("x", 64 - ByteLen(uid) - 1) == "x";
    assert ElbName(SHOP, RENAMED) == "x" + "-" + uid;
    assert Truncate("web", 8) == "web" && Truncate("shop", 8) == "shop";
    assert ElbName(SHOP, ORDERED) == Truncate("k8s-" + "web" + "-" + "shop" + "-" + uid, 64);
    assert |ElbName(SHOP, ORDERED)| == 23;
    assert |ElbName(SHOP, RENAMED)| == 12;
  }

  /** A concrete case: the ELB is created, its owner renames the Service before it is recorded, and a
      second one is created. */
  lemma RenamingDoubles() returns (run: seq<World>, renamed: Local, more: seq<World>)
    ensures CalmRun(SHOP, run) && SHOP in Last(run).locals && Renamed(SHOP, Last(run).locals[SHOP], renamed)
    ensures CalmFrom(SHOP, Last(run).(locals := Last(run).locals[SHOP := renamed]), more)
    ensures !OneTagged(Last(more).cloud, Tag(ORDERED.uid))
  {
    NamesOfShop();
    hide ElbName, Tag, NameTag, CalmFrom, OneTagged, Inv, Calm;
    run := Created(SHOP, ORDERED);
    var l := Last(run).locals[SHOP];
    renamed := l.(svc := Some(RENAMED));
    CalmRunsKeep(SHOP, run, |run| - 1);
    more := RenamedTwice(Last(run), SHOP, renamed);
  }
}
