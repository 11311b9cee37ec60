/** What reusing a Service name while the binding of its predecessor is still there can do. */
module Reuse {
  import opened Common
  import opened Naming
  import opened CloudModel
  import opened Steps
  import opened Protocol
  import opened Safety
  import opened Discipline
  import opened Promises
  import opened Continuations

  /** The process of key `k` does its next call, or stops. */
  ghost predicate OwnStep(w: World, k: Key, w': World) {
    && k in w.locals && k in w'.locals && w'.locals == w.locals[k := w'.locals[k]]
    && (|| Moves(k, w.cloud, w.locals[k], w'.cloud, w'.locals[k])
        || (w'.cloud == w.cloud && Stops(w.locals[k], w'.locals[k])))
  }

  /** Nobody but the process of key `k` does anything. */
  ghost predicate Undisturbed(w: World, k: Key, more: seq<World>) {
    && |more| > 0 && more[0] == w
    && forall i, j | 0 <= i && j == i + 1 && j < |more| :: OwnStep(more[i], k, more[j])
  }

  /** The process maintains an ELB that is not the Service's own. */
  predicate Strays(w: World, k: Key) {
    k in w.locals && w.locals[k].pc.Work? && !HasTag(w.cloud, w.locals[k].pc.e, Tag(w.locals[k].pc.s.uid))
  }

  // ---------------------------------------------------------------------------
  // Without a recorded ELB
  // ---------------------------------------------------------------------------

  /** Whatever the process holds and whatever is recorded is the Service's own ELB. */
  ghost predicate Loyal(k: Key, c: Cloud, l: Local, s: Svc) {
    && l.svc == Some(s) && !Closing(l.pc) && (Snapshot(l.pc).Some? ==> Snapshot(l.pc) == Some(s))
    && (l.binding.Some? && l.binding.value.elb.Some? ==> HasTag(c, l.binding.value.elb.value, Tag(s.uid)))
    && (Keeps(l.pc) ==> HasTag(c, l.pc.e, Tag(s.uid)))
    && c.next !in c.elbs
  }

  predicate Keeps(pc: PC) {
    HoldsElb(pc) || pc.Heal? || pc.Rebind? || pc.Mend?
  }

  lemma LoyalFind(k: Key, c: Cloud, l: Local, c': Cloud, l': Local, s: Svc)
    requires Loyal(k, c, l, s) && Ordered(s) && Moves(k, c, l, c', l') && l.pc.Find?
    ensures Loyal(k, c', l', s)
  {
    hide ElbName, Tag, NameTag;
    TagOfName(k, s);
  }

  lemma LoyalCreate(k: Key, c: Cloud, l: Local, c': Cloud, l': Local, s: Svc)
    requires Loyal(k, c, l, s) && Ordered(s) && Moves(k, c, l, c', l') && l.pc.Create? && c'.next !in c'.elbs
    ensures Loyal(k, c', l', s)
  {
    hide ElbName, Tag, NameTag;
    TagOfName(k, s);
  }

  // The places of a process, one group after the other.
  lemma LoyalStart(k: Key, c: Cloud, l: Local, c': Cloud, l': Local, s: Svc)
    requires Loyal(k, c, l, s) && Moves(k, c, l, c', l') && Ordered(s)
    requires l.pc.Idle? || l.pc.Route? || l.pc.Update?
    ensures Loyal(k, c', l', s)
  {
    hide ElbName, Tag, NameTag;
  }

  lemma LoyalBinding(k: Key, c: Cloud, l: Local, c': Cloud, l': Local, s: Svc)
    requires Loyal(k, c, l, s) && Moves(k, c, l, c', l')
    requires l.pc.Heal? || l.pc.Bind? || l.pc.Rebind? || l.pc.NewBinding? || l.pc.Mend? || l.pc.Record?
    ensures Loyal(k, c', l', s)
  {
    hide ElbName, Tag, NameTag;
  }

  /** A process at work goes on with the same ELB, or ends, and records no other. */
  lemma WorkGoesOn(k: Key, c: Cloud, l: Local, c': Cloud, l': Local)
    requires Moves(k, c, l, c', l') && (l.pc.Work? || AtAcl(l.pc))
    ensures l'.svc == l.svc
    ensures l'.pc.Idle? || ((l'.pc.Work? || AtAcl(l'.pc)) && l'.pc.s == l.pc.s && l'.pc.e == l.pc.e)
    ensures l'.binding.Some? ==> l.binding.Some? && l'.binding.value.elb == l.binding.value.elb
  {
    hide ElbName, GroupName, ChildStep, TearStep, SetAcl, AddGroup, SetGroup, DropGroup, ListenersOf, FoundGroup, Found;
  }

  lemma LoyalWork(k: Key, c: Cloud, l: Local, c': Cloud, l': Local, s: Svc)
    requires Loyal(k, c, l, s) && Moves(k, c, l, c', l') && c'.elbs == c.elbs && c'.next !in c'.elbs
    requires l.pc.Work? || AtAcl(l.pc)
    ensures Loyal(k, c', l', s)
  {
    WorkGoesOn(k, c, l, c', l');
    hide Moves, Tag, NameTag;
  }

  lemma NotClosing(k: Key, c: Cloud, l: Local, s: Svc)
    requires Loyal(k, c, l, s)
    ensures !Closing(l.pc)
  {
  }

  lemma LoyalMoves(k: Key, c: Cloud, l: Local, c': Cloud, l': Local, s: Svc)
    requires Loyal(k, c, l, s) && Ordered(s) && Moves(k, c, l, c', l') && c'.next !in c'.elbs
    ensures Loyal(k, c', l', s)
  {
    hide Loyal, Moves;
    if l.pc.Find? {
      LoyalFind(k, c, l, c', l', s);
    } else if l.pc.Create? {
      LoyalCreate(k, c, l, c', l', s);
    } else if l.pc.Idle? || l.pc.Route? || l.pc.Update? {
      LoyalStart(k, c, l, c', l', s);
    } else if l.pc.Heal? || l.pc.Bind? || l.pc.Rebind? || l.pc.NewBinding? || l.pc.Mend? || l.pc.Record? {
      LoyalBinding(k, c, l, c', l', s);
    } else {
      assert !Closing(l.pc) by {
        NotClosing(k, c, l, s);
      }
      ElbsStay(k, c, l, c', l');
      LoyalWork(k, c, l, c', l', s);
    }
  }

  // While the process still works for the old Service

  /** Places from which nothing will be recorded but a group. */
  predicate PastRecording(l: Local) {
    Closing(l.pc) || l.pc.Work? || AtAcl(l.pc) || (l.pc.Record? && l.binding.None?)
  }

  /** No ELB is recorded, and none will be for the old Service, whose ELB the process may hold. */
  ghost predicate Fading(c: Cloud, l: Local, s: Svc) {
    && l.svc == Some(s) && PastRecording(l) && (l.binding.Some? ==> l.binding.value.elb.None?)
    && (!Closing(l.pc) ==> HasTag(c, l.pc.e, Tag(l.pc.s.uid)))
    && c.next !in c.elbs
  }

  lemma FadingCloses(k: Key, c: Cloud, l: Local, c': Cloud, l': Local, s: Svc)
    requires Fading(c, l, s) && Moves(k, c, l, c', l') && Closing(l.pc) && c'.next !in c'.elbs
    ensures Fading(c', l', s) || Loyal(k, c', l', s)
  {
    hide ElbName, GroupName, Tag, NameTag, TearStep, DropGroup, Found, FoundGroup;
  }

  lemma FadingWorks(k: Key, c: Cloud, l: Local, c': Cloud, l': Local, s: Svc)
    requires Fading(c, l, s) && Moves(k, c, l, c', l') && !Closing(l.pc) && c'.elbs == c.elbs && c'.next !in c'.elbs
    ensures Fading(c', l', s) || Loyal(k, c', l', s)
  {
    if l.pc.Record? {
      hide ElbName, Tag, NameTag, TearStep, ChildStep;
    } else {
      WorkGoesOn(k, c, l, c', l');
      hide Moves, Tag, NameTag;
    }
  }

  lemma FadingMoves(k: Key, c: Cloud, l: Local, c': Cloud, l': Local, s: Svc)
    requires Fading(c, l, s) && Moves(k, c, l, c', l') && c'.next !in c'.elbs
    ensures Fading(c', l', s) || Loyal(k, c', l', s)
  {
    hide Fading, Moves, Loyal;
    if Closing(l.pc) {
      FadingCloses(k, c, l, c', l', s);
    } else {
      assert !l.pc.Create? && !l.pc.Tear? by {
        NeitherCreates(c, l, s);
      }
      ElbsStay(k, c, l, c', l');
      FadingWorks(k, c, l, c', l', s);
    }
  }

  lemma NeitherCreates(c: Cloud, l: Local, s: Svc)
    requires Fading(c, l, s)
    ensures !l.pc.Create?
  {
  }

  lemma FadingStops(k: Key, c: Cloud, l: Local, l': Local, s: Svc)
    requires (Fading(c, l, s) || Loyal(k, c, l, s)) && Stops(l, l')
    ensures Loyal(k, c, l', s)
  {
  }

  // In all its runs

  lemma OwnIsNext(w: World, k: Key, w': World)
    requires OwnStep(w, k, w')
    ensures Next(w, w')
  {
    hide Moves, Disturbs;
    assert StepsAt(w, k, w'.cloud, w'.locals[k]);
    assert w' == World(w'.cloud, w.locals[k := w'.locals[k]]);
  }

  lemma NextIsFresh(w: World)
    requires Orderly(w)
    ensures w.cloud.next !in w.cloud.elbs
  {
    hide UniqueNames, FreeToCreate, Registered;
  }

  ghost predicate Safely(w: World, k: Key, s: Svc) {
    Orderly(w) && k in w.locals && (Fading(w.cloud, w.locals[k], s) || Loyal(k, w.cloud, w.locals[k], s))
  }

  lemma SafeStep(w: World, k: Key, w': World, s: Svc)
    requires Safely(w, k, s) && Ordered(s) && OwnStep(w, k, w')
    ensures Safely(w', k, s)
  {
    hide Orderly, Next, Moves, Fading, Loyal, Stops;
    OwnIsNext(w, k, w');
    OrderlyNext(w, w');
    NextIsFresh(w');
    var c, l, c', l' := w.cloud, w.locals[k], w'.cloud, w'.locals[k];
    if Moves(k, c, l, c', l') {
      if Loyal(k, c, l, s) {
        LoyalMoves(k, c, l, c', l', s);
      } else {
        FadingMoves(k, c, l, c', l', s);
      }
    } else {
      FadingStops(k, c, l, l', s);
    }
  }

  lemma {:induction false} StaysSafe(w: World, k: Key, s: Svc, more: seq<World>, i: nat)
    requires Safely(w, k, s) && Ordered(s) && Undisturbed(w, k, more) && i < |more|
    ensures Safely(more[i], k, s)
  {
    if i > 0 {
      hide Safely, OwnStep;
      StaysSafe(w, k, s, more, i - 1);
      assert OwnStep(more[i - 1], k, more[i]);
      SafeStep(more[i - 1], k, more[i], s);
    }
  }

  /** So it never strays. */
  lemma NeverStrays(w: World, k: Key, s: Svc, more: seq<World>)
    requires Safely(w, k, s) && Ordered(s) && Undisturbed(w, k, more)
    ensures !Strays(Last(more), k)
  {
    hide Orderly, OwnStep, Tag, NameTag;
    StaysSafe(w, k, s, more, |more| - 1);
  }

  // ---------------------------------------------------------------------------
  // With one, or one still to be recorded
  // ---------------------------------------------------------------------------

  lemma Further(w: World, k: Key, more: seq<World>, c': Cloud, l': Local) returns (longer: seq<World>)
    requires Undisturbed(w, k, more) && k in Last(more).locals
    requires Moves(k, Last(more).cloud, Last(more).locals[k], c', l')
      || (c' == Last(more).cloud && Stops(Last(more).locals[k], l'))
    ensures Undisturbed(w, k, longer)
    ensures Last(longer) == World(c', Last(more).locals[k := l'])
  {
    hide Moves, Stops;
    var w' := World(c', Last(more).locals[k := l']);
    assert OwnStep(Last(more), k, w');
    longer := more + [w'];
    forall i, j | 0 <= i && j == i + 1 && j < |longer|
      ensures OwnStep(longer[i], k, longer[j])
    {
      if j < |more| {
        assert OwnStep(more[i], k, more[j]);
      }
    }
  }

  /** Wherever the process stands: the new Service is taken to the recorded ELB. */
  lemma Adopts(w: World, k: Key, start: seq<World>, s: Svc) returns (more: seq<World>)
    requires Undisturbed(w, k, start) && k in Last(start).locals && Ordered(s)
    requires var l := Last(start).locals[k];
      && l.svc == Some(s) && l.binding.Some? && l.binding.value.elb.Some?
      && !HasTag(Last(start).cloud, l.binding.value.elb.value, Tag(s.uid))
    ensures Undisturbed(w, k, more) && Strays(Last(more), k)
  {
    hide OwnStep, TearStep, ChildStep;
    var c, l := Last(start).cloud, Last(start).locals[k].(pc := Idle);
    var b := l.binding.value;
    var e := b.elb.value;
    more := Further(w, k, start, c, l);
    more := Further(w, k, more, c, l.(pc := Route(s)));
    more := Further(w, k, more, c, l.(pc := Update(s)));
    if !b.finalizer {
      more := Further(w, k, more, c, l.(pc := Heal(s, e, b.acl)));
    }
    more := Further(w, k, more, c, l.(pc := Work(s, e, b.acl)));
  }

  /** The process can still record an ELB for the Service it works for. */
  predicate MayRecord(l: Local) {
    || l.pc.Route? || l.pc.Update? || l.pc.Find? || l.pc.Create? || l.pc.Bind? || l.pc.NewBinding?
    || (l.pc.Record? && l.binding.Some?)
  }

  /** What the invariant says of it. */
  ghost predicate OnItsWay(c: Cloud, l: Local) {
    && MayRecord(l) && |l.pc.s.uid| >= 10 && c.next !in c.elbs
    && (l.binding.Some? ==> l.binding.value.uid == l.pc.s.uid && l.binding.value.finalizer && l.binding.value.elb.None?)
    && (l.pc.Bind? || l.pc.NewBinding? || l.pc.Record? ==> HasTag(c, l.pc.e, Tag(l.pc.s.uid)))
    && (l.pc.NewBinding? ==> l.binding.None?)
  }

  /** The lookup finds an ELB of the old Service's name or leads to its creation. */
  lemma LooksUp(k: Key, c: Cloud, l: Local) returns (l': Local)
    requires l.pc.Find? && OnItsWay(c, l)
    ensures Moves(k, c, l, c, l') && OnItsWay(c, l') && l' == l.(pc := l'.pc) && l'.pc.s == l.pc.s
    ensures l'.pc.Bind? || l'.pc.Create?
  {
    hide ElbName, Tag, NameTag;
    var s := l.pc.s;
    TagOfName(k, s);
    if e :| e in c.elbs && c.elbs[e] == ElbName(k, s) {
      assert Found(c, ElbName(k, s), Some(e));
      l' := l.(pc := Bind(s, e, true));
    } else {
      assert Found(c, ElbName(k, s), None);
      l' := l.(pc := Create(s));
    }
  }

  lemma Creates(k: Key, c: Cloud, l: Local)
    requires l.pc.Create? && OnItsWay(c, l)
    ensures var c', l' := AddElb(c, ElbName(k, l.pc.s)), l.(pc := Bind(l.pc.s, c.next, false));
      Moves(k, c, l, c', l') && (c'.next !in c'.elbs ==> OnItsWay(c', l'))
  {
    hide ElbName, Tag, NameTag;
    TagOfName(k, l.pc.s);
  }

  lemma Starts(k: Key, c: Cloud, l: Local)
    requires (l.pc.Route? || l.pc.Update?) && OnItsWay(c, l)
    ensures Moves(k, c, l, c, l.(pc := Find(l.pc.s))) && OnItsWay(c, l.(pc := Find(l.pc.s)))
  {
  }

  /** It gets as far as holding an ELB. */
  lemma GetsElb(w: World, k: Key, start: seq<World>) returns (more: seq<World>)
    requires Undisturbed(w, k, start) && k in Last(start).locals && Bounded(Last(start).cloud)
    requires OnItsWay(Last(start).cloud, Last(start).locals[k])
    ensures Undisturbed(w, k, more) && k in Last(more).locals
    ensures var l, l' := Last(start).locals[k], Last(more).locals[k];
      && OnItsWay(Last(more).cloud, l') && l'.svc == l.svc && l'.pc.s == l.pc.s
      && (l'.pc.Bind? || l'.pc.NewBinding? || l'.pc.Record?)
  {
    var c, l := Last(start).cloud, Last(start).locals[k];
    assert (AddElb(c, ElbName(k, l.pc.s))).next !in AddElb(c, ElbName(k, l.pc.s)).elbs;
    HasMayRecord(c, l);
    hide OwnStep, OnItsWay, Moves, AddElb, Bounded;
    more := start;
    if l.pc.Route? || l.pc.Update? {
      Starts(k, c, l);
      l := l.(pc := Find(l.pc.s));
      more := Further(w, k, more, c, l);
    }
    if l.pc.Find? {
      l := LooksUp(k, c, l);
      more := Further(w, k, more, c, l);
    }
    if l.pc.Create? {
      Creates(k, c, l);
      more := Further(w, k, more, AddElb(c, ElbName(k, l.pc.s)), l.(pc := Bind(l.pc.s, c.next, false)));
    }
  }

  lemma HasMayRecord(c: Cloud, l: Local)
    requires OnItsWay(c, l)
    ensures MayRecord(l)
  {
  }

  /** ensureBinding, once its binding was read. */
  lemma Binds(k: Key, c: Cloud, l: Local) returns (l': Local)
    requires OnItsWay(c, l) && l.pc.Bind?
    ensures Moves(k, c, l, c, l') && OnItsWay(c, l') && l'.svc == l.svc && l'.pc.s == l.pc.s
    ensures l'.pc.NewBinding? || l'.pc.Record?
  {
    hide Tag, NameTag, TearStep, ChildStep;
    l' := l.(pc := Bound(l.pc.s, l.pc.e, l.pc.restore, l.binding));
  }

  lemma BindsNew(k: Key, c: Cloud, l: Local) returns (l': Local)
    requires OnItsWay(c, l) && l.pc.NewBinding?
    ensures Moves(k, c, l, c, l') && OnItsWay(c, l') && l'.pc.Record? && l'.svc == l.svc && l'.pc.s == l.pc.s
  {
    hide Tag, NameTag, TearStep, ChildStep;
    var s, e := l.pc.s, l.pc.e;
    l' := l.(binding := Some(Binding(s.uid, true, false, None, None)), pc := Record(s, e, l.pc.restore));
  }

  lemma Enters(k: Key, c: Cloud, l: Local) returns (l': Local)
    requires OnItsWay(c, l) && l.pc.Record?
    ensures Moves(k, c, l, c, l') && l'.svc == l.svc && l'.binding.Some? && l'.binding.value.elb.Some?
    ensures HasTag(c, l'.binding.value.elb.value, Tag(l.pc.s.uid))
  {
    hide Tag, NameTag, TearStep, ChildStep;
    l' := l.(binding := WithElb(l.binding, l.pc.e), pc := AfterRecord(l.pc.s, l.pc.e, l.pc.restore));
  }

  /** ... and of recording it. */
  lemma RecordsIt(w: World, k: Key, start: seq<World>) returns (more: seq<World>)
    requires Undisturbed(w, k, start) && k in Last(start).locals
    requires var l := Last(start).locals[k];
      OnItsWay(Last(start).cloud, l) && (l.pc.Bind? || l.pc.NewBinding? || l.pc.Record?)
    ensures Undisturbed(w, k, more) && k in Last(more).locals
    ensures var l, l' := Last(start).locals[k], Last(more).locals[k];
      && l'.svc == l.svc && l'.binding.Some? && l'.binding.value.elb.Some?
      && HasTag(Last(more).cloud, l'.binding.value.elb.value, Tag(l.pc.s.uid))
  {
    hide OwnStep, OnItsWay, Moves, HasTag;
    var c, l := Last(start).cloud, Last(start).locals[k];
    more := start;
    if l.pc.Bind? {
      l := Binds(k, c, l);
      more := Further(w, k, more, c, l);
    }
    if l.pc.NewBinding? {
      l := BindsNew(k, c, l);
      more := Further(w, k, more, c, l);
    }
    l := Enters(k, c, l);
    more := Further(w, k, more, c, l);
  }

  // ---------------------------------------------------------------------------
  // Exactly when
  // ---------------------------------------------------------------------------

  /** An ELB is recorded, or the process at work for the old Service can still record one. */
  predicate Inherits(l: Local) {
    (l.binding.Some? && l.binding.value.elb.Some?) || MayRecord(l)
  }

  lemma NotItsOwn(w: World, k: Key, l': Local)
    requires Inv(k, w) && k in w.locals && Appears(w, k, w.locals[k], l')
    ensures var l := w.locals[k];
      l.binding.Some? && l.binding.value.elb.Some? ==>
        !HasTag(w.cloud, l.binding.value.elb.value, Tag(l'.svc.value.uid))
    ensures Snapshot(w.locals[k].pc).Some? ==> Tag(Snapshot(w.locals[k].pc).value.uid) != Tag(l'.svc.value.uid)
  {
    InvMeans(w, k);
    hide Stable, PcOk, Guards, OneGroup, ElbName, Snapshot;
  }

  lemma AppearsOnItsWay(k: Key, c: Cloud, l: Local, l': Local)
    requires KInv(k, c, l) && Sound(c) && MayRecord(l) && l' == l.(svc := l'.svc, tags := l'.tags)
    requires l.binding.Some? ==> l.binding.value.elb.None?
    ensures OnItsWay(c, l') && Snapshot(l.pc) == Some(l'.pc.s)
  {
    hide Guards, OneGroup, ElbName, Tag, NameTag;
    if l.pc.Bind? || l.pc.NewBinding? || l.pc.Record? {
      HeldTag(k, c, l, l.pc.s, l.pc.e);
    }
  }

  lemma AppearsSafely(w: World, k: Key, l': Local)
    requires Inv(k, w) && k in w.locals && Appears(w, k, w.locals[k], l') && !Inherits(w.locals[k])
    ensures Safely(w.(locals := w.locals[k := l']), k, l'.svc.value)
  {
    InvMeans(w, k);
    NextIsFresh(w);
    var w' := w.(locals := w.locals[k := l']);
    assert StepsAt(w, k, w.cloud, l') && Next(w, w');
    OrderlyNext(w, w');
    hide Orderly, Next, Inv;
    PlaceFades(k, w.cloud, w.locals[k], l');
  }

  lemma PlaceFades(k: Key, c: Cloud, l: Local, l': Local)
    requires KInv(k, c, l) && c.next !in c.elbs && !Inherits(l)
    requires l'.svc.Some? && l' == l.(svc := l'.svc, tags := l'.tags)
    ensures Fading(c, l', l'.svc.value) || Loyal(k, c, l', l'.svc.value)
  {
    hide Guards, OneGroup, ElbName, Tag, NameTag;
    if l.pc.Work? || AtAcl(l.pc) || l.pc.Record? {
      HeldTag(k, c, l, l.pc.s, l.pc.e);
    }
  }

  /** A Service of another UID appears, wherever the process of its key stands. That process can come
      to maintain an ELB that is not the Service's own, with nobody else doing anything, if and only
      if the binding that is there records an ELB or the process can still record one for the old
      Service: the recorded ELB is taken without comparing UIDs. */
  lemma ReuseStraysIff(run: seq<World>, k: Key, l': Local)
    requires CalmRun(k, run) && k in Last(run).locals
    requires Appears(Last(run), k, Last(run).locals[k], l') && Ordered(l'.svc.value)
    ensures var w := Last(run); var w' := w.(locals := w.locals[k := l']);
      (exists more :: Undisturbed(w', k, more) && Strays(Last(more), k)) <==> Inherits(w.locals[k])
  {
    var w := Last(run);
    var w', s := w.(locals := w.locals[k := l']), l'.svc.value;
    CalmRunsKeep(k, run, |run| - 1);
    hide CalmRun, Inv, Safely, Undisturbed, Strays, MayRecord;
    if Inherits(w.locals[k]) {
      var more := InheritsStrays(w, k, l');
      assert Undisturbed(w', k, more) && Strays(Last(more), k);
    } else {
      AppearsSafely(w, k, l');
      forall more | Undisturbed(w', k, more)
        ensures !Strays(Last(more), k)
      {
        NeverStrays(w', k, s, more);
      }
    }
  }

  lemma SoundBounds(c: Cloud)
    requires Sound(c)
    ensures Bounded(c)
  {
  }

  lemma InheritsStrays(w: World, k: Key, l': Local) returns (more: seq<World>)
    requires Inv(k, w) && k in w.locals && Appears(w, k, w.locals[k], l') && Ordered(l'.svc.value)
    requires Inherits(w.locals[k])
    ensures Undisturbed(w.(locals := w.locals[k := l']), k, more) && Strays(Last(more), k)
  {
    var l := w.locals[k];
    var w', s := w.(locals := w.locals[k := l']), l'.svc.value;
    InvMeans(w, k);
    NotItsOwn(w, k, l');
    SoundBounds(w.cloud);
    hide Inv, KInv, Sound, Orderly, OwnStep, Strays, OnItsWay, NameTag, Tag, MayRecord, Bounded;
    more := [w'];
    if l.binding.None? || l.binding.value.elb.None? {
      AppearsOnItsWay(k, w.cloud, l, l');
      more := GetsElb(w', k, more);
      more := RecordsIt(w', k, more);
    }
    more := Adopts(w', k, more, s);
  }

  /** A concrete case: a Service with an ELB vanishes and one of the same name appears before the
      cleanup has run. */
  lemma ReuseStrays(k: Key, s: Svc, t: Svc) returns (run: seq<World>, l': Local, more: seq<World>)
    requires Ordered(s) && Ordered(t) && Tag(s.uid) != Tag(t.uid)
    ensures CalmRun(k, run) && k in Last(run).locals && Appears(Last(run), k, Last(run).locals[k], l')
    ensures l'.svc == Some(t)
    ensures Undisturbed(Last(run).(locals := Last(run).locals[k := l']), k, more) && Strays(Last(more), k)
  {
    var c := AddElb(EMPTY, ElbName(k, s));
    var b := Binding(s.uid, true, false, Some(0), None);
    var l := Local(Some(s), Some(b), Work(s, 0, None), {Tag(s.uid)});
    run := Equipped(k, s);
    run := Extends(run, k, c, l, c, l.(pc := Idle));
    run := Extends(run, k, c, l.(pc := Idle), c, l.(svc := None, pc := Idle));
    l' := Local(Some(t), Some(b), Idle, {Tag(s.uid), Tag(t.uid)});
    TagOfName(k, s);
    var w' := Last(run).(locals := Last(run).locals[k := l']);
    more := Adopts(w', k, [w'], t);
  }
}
