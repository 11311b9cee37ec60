/** Finalizer safety. It needs of the environment only that the Service's name is reused no sooner
    than the old binding has gone, even if a process still works for the old Service: it holds
    however Services are renamed, whatever IP group names collide and whatever befalls other keys. */
module Finalizers {
  import opened Common
  import opened CloudModel
  import opened Steps
  import opened Protocol
  import opened Safety
  import opened Discipline

  // ---------------------------------------------------------------------------
  // Runs in which only the reuse of one Service name is disciplined
  // ---------------------------------------------------------------------------

  /** A Service appears only when the binding of its predecessor has gone. */
  predicate Succeeds(l: Local, l': Local) {
    l.svc.None? && l'.svc.Some? ==> l.binding.None?
  }

  /** A step at key `j`; only key `k` waits for its old binding to go. */
  ghost predicate PatientStep(k: Key, w: World, j: Key, c': Cloud, l': Local) {
    j in w.locals &&
    var l := w.locals[j];
    || Moves(j, w.cloud, l, c', l')
    || (c' == w.cloud && Stops(l, l'))
    || (c' == w.cloud && Disturbs(w, j, l, l') && (j == k ==> Succeeds(l, l')))
  }

  ghost predicate Patiently(k: Key, w: World, w': World) {
    || (exists n :: n !in w.locals && w' == w.(locals := w.locals[n := NOTHING]))
    || (exists j, c', l' :: PatientStep(k, w, j, c', l') && w' == World(c', w.locals[j := l']))
  }

  ghost predicate PatientRun(k: Key, run: seq<World>) {
    && |run| > 0 && run[0] == START
    && forall i, j | 0 <= i && j == i + 1 && j < |run| :: Patiently(k, run[i], run[j])
  }

  /** Every disciplined run is one of these. */
  lemma CalmRunIsPatient(k: Key, run: seq<World>)
    requires CalmRun(k, run)
    ensures PatientRun(k, run)
  {
    hide Calm, Patiently;
    forall i, j | 0 <= i && j == i + 1 && j < |run|
      ensures Patiently(k, run[i], run[j])
    {
      CalmIsPatient(k, run[i], run[j]);
    }
  }

  lemma CalmIsPatient(k: Key, w: World, w': World)
    requires Calm(k, w, w')
    ensures Patiently(k, w, w')
  {
    hide Moves, Disturbs, ElbName;
    if n :| Newcomer(k, w, n) && w' == w.(locals := w.locals[n := NOTHING]) {
    } else {
      var j, c', l' :| CalmStep(k, w, j, c', l') && w' == World(c', w.locals[j := l']);
      assert PatientStep(k, w, j, c', l');
    }
  }

  // ---------------------------------------------------------------------------
  // The invariant
  // ---------------------------------------------------------------------------

  /** What a binding records has existed. */
  predicate Dated(c: Cloud, b: Binding) {
    (b.elb.Some? ==> b.elb.value < c.next) && (b.acl.Some? ==> b.acl.value < c.next)
  }

  /** The binding a cleanup has read and the one there is, if any, record the same. */
  predicate SameRecord(l: Local, ob: Option<Binding>) {
    ob.Some? && l.binding.Some? ==> l.binding.value.elb == ob.value.elb && l.binding.value.acl == ob.value.acl
  }

  /** The Service is on its way out, or there is no binding that could belong to a new one. */
  predicate Parted(l: Local) {
    Shut(l) || l.binding.None?
  }

  predicate CleansUp(c: Cloud, l: Local, ob: Option<Binding>) {
    Parted(l) && SameRecord(l, ob) && (ob.Some? ==> Dated(c, ob.value))
  }

  predicate ElbDead(c: Cloud, ob: Option<Binding>) {
    ob.Some? && ob.value.elb.Some? ==> ob.value.elb.value !in c.elbs
  }

  predicate PlaceOk(c: Cloud, l: Local) {
    match l.pc
    case Idle => true
    case Route(_) => true
    case Update(_) => true
    case Find(_) => true
    case Create(_) => true
    case Heal(_, e, acl) => e < c.next && (acl.Some? ==> acl.value < c.next)
    case Bind(_, e, _) => e < c.next
    case Rebind(_, e, _) => e < c.next
    case NewBinding(_, e, _) => e < c.next
    case Mend(_, e, _) => e < c.next
    case Record(_, e, _) => e < c.next
    case Work(_, e, acl) => e < c.next && (acl.Some? ==> acl.value < c.next)
    case AclFind(_, _) => true
    case AclCreate(_, _) => true
    case AclUpdate(_, _, g) => g < c.next
    case AclList(_, _, g) => g < c.next
    case AclBind(_, _, g, _) => g < c.next
    case AclUnlist(_, _, _) => true
    case AclUnbind(_, _, _, _) => true
    case AclDrop(_, _, _) => true
    case AclRecord(_, _, acl) => acl.Some? ==> acl.value < c.next
    case Orphan => Parted(l)
    case Deleting(_) => Parted(l)
    case CleanFind(_, ob) => CleansUp(c, l, ob) && (ob.Some? ==> ob.value.elb.None?)
    case Tear(_, ob, e) => CleansUp(c, l, ob) && (ob.Some? && ob.value.elb.Some? ==> ob.value.elb.value == e)
    case GroupFind(_, ob) => CleansUp(c, l, ob) && ElbDead(c, ob) && (ob.Some? ==> ob.value.acl.None?)
    case GroupDrop(_, ob, g) =>
      CleansUp(c, l, ob) && ElbDead(c, ob) && (ob.Some? && ob.value.acl.Some? ==> ob.value.acl.value == g)
    case Release(_, ob) => CleansUp(c, l, ob) && (ob.Some? ==> Dead(c, ob.value))
  }

  /** A binding without the finalizer records nothing live, and nobody will record anything in it. */
  predicate Covered(c: Cloud, l: Local) {
    l.binding.Some? ==>
      && Dated(c, l.binding.value)
      && (!l.binding.value.finalizer ==> Dead(c, l.binding.value) && Shut(l) && !Working(l.pc))
  }

  ghost predicate FInv(c: Cloud, l: Local) {
    && Covered(c, l)
    && PlaceOk(c, l)
    && (forall e :: e in c.elbs ==> e < c.next)
    && (forall g :: g in c.groups ==> g < c.next)
  }

  /** Nothing comes back to life. */
  ghost predicate NoRevival(c: Cloud, c': Cloud) {
    && c.next <= c'.next
    && (forall e :: e in c'.elbs && e < c.next ==> e in c.elbs)
    && (forall g :: g in c'.groups && g < c.next ==> g in c.groups)
    && (forall e :: e in c'.elbs && e >= c.next ==> e < c'.next)
    && (forall g :: g in c'.groups && g >= c.next ==> g < c'.next)
  }

  lemma OthersKeep(c: Cloud, c': Cloud, m: Local)
    requires FInv(c, m) && NoRevival(c, c')
    ensures FInv(c', m)
  {
  }

  // ---------------------------------------------------------------------------
  // Every step keeps it
  // ---------------------------------------------------------------------------

  lemma ShrinksRevivesNone(c: Cloud, c': Cloud, e: Id)
    requires Shrinks(c, c', e) && (forall x :: x in c.elbs ==> x < c.next) && forall g :: g in c.groups ==> g < c.next
    ensures NoRevival(c, c')
  {
  }

  /** New groups get new identifiers. */
  lemma GroupsMove(k: Key, c: Cloud, l: Local, c': Cloud, l': Local)
    requires Moves(k, c, l, c', l') && !l.pc.Tear?
    ensures forall g :: g in c'.groups ==> g in c.groups || (g == c.next && c'.next == c.next + 1)
  {
    hide Moves, CloudStep;
    MovesCloud(k, c, l, c', l');
    StepGroups(k, c, l.pc, c');
  }

  lemma StepGroups(k: Key, c: Cloud, pc: PC, c': Cloud)
    requires CloudStep(k, c, pc, c') && !pc.Tear?
    ensures forall g :: g in c'.groups ==> g in c.groups || (g == c.next && c'.next == c.next + 1)
  {
    hide ElbName, GroupName, WF, Rest, TearStep;
  }

  lemma MovesReviveNone(k: Key, c: Cloud, l: Local, c': Cloud, l': Local)
    requires Moves(k, c, l, c', l')
    requires (forall x :: x in c.elbs ==> x < c.next) && forall g :: g in c.groups ==> g < c.next
    ensures NoRevival(c, c')
  {
    hide Moves, Shrinks, TearStep, ElbName;
    if l.pc.Tear? {
      TearsOrStays(k, c, l, c', l');
      if c' != c {
        TearShrinks(c, c', l.pc.e);
        ShrinksRevivesNone(c, c', l.pc.e);
      }
    } else {
      ElbsMove(k, c, l, c', l');
      GroupsMove(k, c, l, c', l');
    }
  }

  /** What a cleanup is going to work on. */
  lemma AfterElbOk(c: Cloud, l: Local, os: Option<Svc>, ob: Option<Binding>)
    requires CleansUp(c, l, ob) && ElbDead(c, ob)
    ensures PlaceOk(c, l.(pc := AfterElb(os, ob))) && Closing(AfterElb(os, ob)) && !AfterElb(os, ob).Tear?
  {
  }

  lemma CleanStartOk(c: Cloud, l: Local, os: Option<Svc>, ob: Option<Binding>)
    requires CleansUp(c, l, ob)
    ensures PlaceOk(c, l.(pc := CleanStart(os, ob))) && Closing(CleanStart(os, ob))
  {
    if ob.None? || ob.value.elb.None? {
      AfterElbOk(c, l, os, ob);
    }
    hide AfterElb;
  }

  lemma StartOk(c: Cloud, l: Local, os: Option<Svc>, ob: Option<Binding>)
    requires Parted(l) && (ob == None || ob == l.binding) && (l.binding.Some? ==> Dated(c, l.binding.value))
    ensures PlaceOk(c, l.(pc := CleanStart(os, ob))) && Closing(CleanStart(os, ob))
  {
    CleanStartOk(c, l, os, ob);
  }

  /** A process that goes on in its cleanup, or ends, without touching the binding. */
  lemma SameCover(c: Cloud, l: Local, c': Cloud, l': Local)
    requires Covered(c, l) && NoRevival(c, c') && l' == l.(pc := l'.pc) && !Working(l'.pc)
    ensures Covered(c', l')
  {
  }

  /** Where a cleanup starts. */
  lemma OpeningKeeps(k: Key, c: Cloud, l: Local, c': Cloud, l': Local)
    requires FInv(c, l) && Moves(k, c, l, c', l') && (l.pc.Orphan? || l.pc.Deleting?)
    ensures Covered(c', l') && PlaceOk(c', l')
  {
    assert l.binding.Some? ==> Dated(c, l.binding.value);
    if l.pc.Orphan? {
      StartOk(c, l, None, l.binding);
    } else {
      StartOk(c, l, Some(l.pc.s), None);
      StartOk(c, l, Some(l.pc.s), l.binding);
    }
    assert l' == l.(pc := l'.pc) && c' == c && !Working(l'.pc) && PlaceOk(c', l') by {
      hide CleanStart, Covered, Dated;
    }
    hide Moves, CleanStart, Covered, PlaceOk, NoRevival;
    NothingRevives(c);
    SameCover(c, l, c', l');
  }

  lemma NothingRevives(c: Cloud)
    requires (forall x :: x in c.elbs ==> x < c.next) && forall g :: g in c.groups ==> g < c.next
    ensures NoRevival(c, c)
  {
  }

  /** The places of a cleanup. */
  lemma ClosingKeeps(k: Key, c: Cloud, l: Local, c': Cloud, l': Local)
    requires FInv(c, l) && Moves(k, c, l, c', l') && NoRevival(c, c')
    requires l.pc.CleanFind? || l.pc.Tear? || l.pc.GroupFind? || l.pc.GroupDrop?
    ensures Covered(c', l') && PlaceOk(c', l')
  {
    hide ElbName, GroupName, TearStep, Found, FoundGroup, AfterElb, Covered;
    if l.pc.CleanFind? {
      AfterElbOk(c, l, Some(l.pc.s), l.pc.ob);
    } else if l.pc.Tear? && l.pc.e !in c.elbs {
      AfterElbOk(c, l, l.pc.os, l.pc.ob);
    }
    SameCover(c, l, c', l');
  }

  lemma ReleaseKeeps(k: Key, c: Cloud, l: Local, c': Cloud, l': Local)
    requires FInv(c, l) && Moves(k, c, l, c', l') && l.pc.Release?
    ensures Covered(c', l') && PlaceOk(c', l')
  {
    hide ElbName, GroupName, TearStep, Found, FoundGroup;
  }

  /** The places of an update's access control. */
  lemma AclKeeps(k: Key, c: Cloud, l: Local, c': Cloud, l': Local)
    requires FInv(c, l) && Moves(k, c, l, c', l') && AtAcl(l.pc) && NoRevival(c, c')
    ensures Covered(c', l') && PlaceOk(c', l')
  {
    hide ElbName, GroupName, WF, ListenersOf, SetAcl, SetGroup, DropGroup;
  }

  lemma WorkingKeeps(k: Key, c: Cloud, l: Local, c': Cloud, l': Local)
    requires FInv(c, l) && Moves(k, c, l, c', l') && !Closing(l.pc) && !AtAcl(l.pc) && NoRevival(c, c')
    ensures Covered(c', l') && PlaceOk(c', l')
  {
    hide ElbName, GroupName, ChildStep, TearStep;
  }

  lemma MovesKeep(k: Key, c: Cloud, l: Local, c': Cloud, l': Local)
    requires FInv(c, l) && Moves(k, c, l, c', l')
    ensures FInv(c', l') && NoRevival(c, c')
  {
    MovesReviveNone(k, c, l, c', l');
    hide Moves, Covered, PlaceOk;
    if l.pc.Release? {
      ReleaseKeeps(k, c, l, c', l');
    } else if l.pc.Orphan? || l.pc.Deleting? {
      OpeningKeeps(k, c, l, c', l');
    } else if Closing(l.pc) {
      ClosingKeeps(k, c, l, c', l');
    } else if AtAcl(l.pc) {
      AclKeeps(k, c, l, c', l');
    } else {
      WorkingKeeps(k, c, l, c', l');
    }
  }

  lemma DisturbedKeep(w: World, k: Key, l: Local, l': Local)
    requires FInv(w.cloud, l) && ((Disturbs(w, k, l, l') && Succeeds(l, l')) || Stops(l, l'))
    ensures FInv(w.cloud, l')
  {
    hide Tag;
  }

  ghost predicate AllCovered(k: Key, w: World) {
    && (k in w.locals ==> FInv(w.cloud, w.locals[k]))
    && (forall e :: e in w.cloud.elbs ==> e < w.cloud.next)
    && (forall g :: g in w.cloud.groups ==> g < w.cloud.next)
  }

  /** Of another key matters only that it revives nothing. */
  lemma ElsewhereKeeps(k: Key, w: World, j: Key, c': Cloud, l': Local)
    requires AllCovered(k, w) && j in w.locals && j != k && Moves(j, w.cloud, w.locals[j], c', l')
    ensures AllCovered(k, World(c', w.locals[j := l']))
  {
    hide Moves, Covered, PlaceOk;
    MovesReviveNone(j, w.cloud, w.locals[j], c', l');
    if k in w.locals {
      OthersKeep(w.cloud, c', w.locals[k]);
    }
  }

  lemma PatientlyKeeps(k: Key, w: World, w': World)
    requires AllCovered(k, w) && Patiently(k, w, w')
    ensures AllCovered(k, w')
  {
    hide Moves, FInv, Disturbs, Stops;
    if n :| n !in w.locals && w' == w.(locals := w.locals[n := NOTHING]) {
      NothingKept(w.cloud);
    } else {
      var j, c', l' :| PatientStep(k, w, j, c', l') && w' == World(c', w.locals[j := l']);
      if Moves(j, w.cloud, w.locals[j], c', l') {
        if j == k {
          MovesKeep(k, w.cloud, w.locals[k], c', l');
        } else {
          ElsewhereKeeps(k, w, j, c', l');
        }
      } else if j == k {
        DisturbedKeep(w, k, w.locals[k], l');
      }
    }
  }

  lemma NothingKept(c: Cloud)
    requires (forall e :: e in c.elbs ==> e < c.next) && forall g :: g in c.groups ==> g < c.next
    ensures FInv(c, NOTHING)
  {
  }

  lemma {:induction false} PatientRunsKeep(k: Key, run: seq<World>, i: nat)
    requires PatientRun(k, run) && i < |run|
    ensures AllCovered(k, run[i])
  {
    if i > 0 {
      hide AllCovered, Patiently;
      PatientRunsKeep(k, run, i - 1);
      PatientlyKeeps(k, run[i - 1], run[i]);
    }
  }

  // ---------------------------------------------------------------------------
  // What it promises
  // ---------------------------------------------------------------------------

  /** A binding whose recorded ELB or recorded group is live carries the finalizer. */
  lemma FinalizerGuards(run: seq<World>, i: nat, k: Key)
    requires PatientRun(k, run) && i < |run| && k in run[i].locals && run[i].locals[k].binding.Some?
    ensures !Dead(run[i].cloud, run[i].locals[k].binding.value) ==> run[i].locals[k].binding.value.finalizer
  {
    PatientRunsKeep(k, run, i);
    hide PatientRun, Dead, PlaceOk;
  }

  /** So a binding vanishes, whoever deletes it, only when nothing it records is live any more. */
  lemma BindingGoesLast(run: seq<World>, i: nat, k: Key)
    requires PatientRun(k, run) && i + 1 < |run|
    requires k in run[i].locals && run[i].locals[k].binding.Some?
    requires k in run[i + 1].locals && run[i + 1].locals[k].binding.None?
    ensures Dead(run[i + 1].cloud, run[i].locals[k].binding.value)
  {
    PatientRunsKeep(k, run, i);
    assert Patiently(k, run[i], run[i + 1]);
    hide PatientRun, FInv, Dead;
    BindingGone(run[i], run[i + 1], k);
  }

  lemma BindingGone(w: World, w': World, k: Key)
    requires Patiently(k, w, w') && k in w.locals && FInv(w.cloud, w.locals[k])
    requires w.locals[k].binding.Some? && k in w'.locals && w'.locals[k].binding.None?
    ensures Dead(w'.cloud, w.locals[k].binding.value)
  {
    hide Moves, FInv, Disturbs, Succeeds, Dead;
    if n :| n !in w.locals && w' == w.(locals := w.locals[n := NOTHING]) {
      assert false;
    } else {
      var j, c', l' :| PatientStep(k, w, j, c', l') && w' == World(c', w.locals[j := l']);
      assert j == k && w'.locals[k] == l';
      if Moves(k, w.cloud, w.locals[k], c', l') {
        RemovedDead(k, w.cloud, w.locals[k], c', l');
      } else {
        assert !Stops(w.locals[k], l');
        DeletedDead(w, k, w.locals[k], l');
      }
    }
  }

  lemma DeletedDead(w: World, k: Key, l: Local, l': Local)
    requires Disturbs(w, k, l, l') && FInv(w.cloud, l) && l.binding.Some? && l'.binding.None?
    ensures Dead(w.cloud, l.binding.value)
  {
    hide Tag, PlaceOk;
  }

  lemma RemovedDead(k: Key, c: Cloud, l: Local, c': Cloud, l': Local)
    requires Moves(k, c, l, c', l') && FInv(c, l) && l.binding.Some? && l'.binding.None?
    ensures Dead(c', l.binding.value)
  {
    hide ElbName, GroupName, TearStep, ChildStep, Found, FoundGroup, ListenersOf;
  }
}
