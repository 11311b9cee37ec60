/** Runs that are disciplined for one key, and that its invariant holds in all of them. Nothing is
    asked of the other keys but that they do not print its IP group name: their Services may be
    renamed, their names reused at any time, and their group names collide with one another. */
module Discipline {
  import opened Common
  import opened Naming
  import opened CloudModel
  import opened Steps
  import opened Protocol
  import opened Safety
  import opened Neighbours

  // ---------------------------------------------------------------------------
  // Disciplined runs
  // ---------------------------------------------------------------------------

  /** A step at key `j`; only key `k` has a polite environment. */
  ghost predicate CalmStep(k: Key, w: World, j: Key, c': Cloud, l': Local) {
    j in w.locals &&
    var l := w.locals[j];
    || Moves(j, w.cloud, l, c', l')
    || (c' == w.cloud && Stops(l, l'))
    || (c' == w.cloud && Disturbs(w, j, l, l') && (j == k ==> Polite(k, l, l')))
  }

  /** A key comes up that is `k` itself or prints another group name. */
  ghost predicate Newcomer(k: Key, w: World, n: Key) {
    n !in w.locals && (n != k ==> GroupName(n) != GroupName(k))
  }

  ghost predicate Calm(k: Key, w: World, w': World) {
    || (exists n :: Newcomer(k, w, n) && w' == w.(locals := w.locals[n := NOTHING]))
    || (exists j, c', l' :: CalmStep(k, w, j, c', l') && w' == World(c', w.locals[j := l']))
  }

  /** A run that is disciplined for key `k`. */
  ghost predicate CalmRun(k: Key, run: seq<World>) {
    && |run| > 0 && run[0] == START
    && forall i, j | 0 <= i && j == i + 1 && j < |run| :: Calm(k, run[i], run[j])
  }

  /** A disciplined run is a run. */
  lemma CalmRunIsRun(k: Key, run: seq<World>)
    requires CalmRun(k, run)
    ensures Reachable(run)
  {
    forall i, j | 0 <= i && j == i + 1 && j < |run|
      ensures Next(run[i], run[j])
    {
      CalmIsNext(k, run[i], run[j]);
    }
  }

  lemma CalmIsNext(k: Key, w: World, w': World)
    requires Calm(k, w, w')
    ensures Next(w, w')
  {
    hide Moves, Disturbs, Polite;
    if n :| Newcomer(k, w, n) && w' == w.(locals := w.locals[n := NOTHING]) {
    } else {
      var j, c', l' :| CalmStep(k, w, j, c', l') && w' == World(c', w.locals[j := l']);
      assert StepsAt(w, j, c', l');
    }
  }

  // ---------------------------------------------------------------------------
  // The invariant of key `k` and of all that surrounds it
  // ---------------------------------------------------------------------------

  /** Every live ELB was created for a Service of some key. */
  ghost predicate AtHome(w: World, e: Id) {
    e in w.cloud.elbs && exists k :: k in w.locals && NameTag(w.cloud.elbs[e]) in w.locals[k].tags
  }

  /** Every live group carries the name of some key. */
  ghost predicate GroupAtHome(w: World, g: Id) {
    g in w.cloud.groups && exists k :: k in w.locals && w.cloud.groups[g].name == GroupName(k)
  }

  /** The other keys print other group names and know of nothing that is not their own. */
  ghost predicate Apart(k: Key, w: World) {
    forall j :: j in w.locals && j != k ==> GroupName(j) != GroupName(k) && Harmless(j, w.cloud, w.locals[j])
  }

  ghost predicate Inv(k: Key, w: World) {
    && Orderly(w)
    && WF(w.cloud)
    && (forall e :: e in w.cloud.elbs ==> AtHome(w, e))
    && (forall g :: g in w.cloud.groups ==> GroupAtHome(w, g))
    && Apart(k, w)
    && (k in w.locals ==> KInv(k, w.cloud, w.locals[k]))
  }

  lemma FreshTag(k: Key, w: World, l: Local, l': Local)
    requires Inv(k, w) && Appears(w, k, l, l')
    ensures NoElb(w.cloud, Tag(l'.svc.value.uid))
  {
    hide Orderly, WF, KInv, Tag, NameTag, GroupName, Apart;
    forall e | e in w.cloud.elbs
      ensures NameTag(w.cloud.elbs[e]) != Tag(l'.svc.value.uid)
    {
      assert AtHome(w, e);
    }
  }

  lemma DisturbedKeeps(w: World, k: Key, l': Local)
    requires Inv(k, w) && k in w.locals && Disturbs(w, k, w.locals[k], l') && Polite(k, w.locals[k], l')
    ensures KInv(k, w.cloud, l') && w.locals[k].tags <= l'.tags
  {
    var c, l := w.cloud, w.locals[k];
    if Appears(w, k, l, l') {
      FreshTag(k, w, l, l');
      hide Inv;
      AppearsKeeps(k, c, l, l');
    } else {
      hide KInv, Polite;
      if Edited(l, l') {
        EditedKeeps(k, c, l, l');
      } else if BindingDeleted(l, l') {
        BindingDeletedKeeps(k, c, l, l');
      } else {
        FadesKeeps(k, c, l, l');
      }
    }
  }

  lemma HomesGrow(w: World, k: Key, c': Cloud, l': Local, e: Id)
    requires k in w.locals && w.locals[k].tags <= l'.tags && e in c'.elbs
    requires (AtHome(w, e) && c'.elbs[e] == w.cloud.elbs[e]) || NameTag(c'.elbs[e]) in l'.tags
    ensures AtHome(World(c', w.locals[k := l']), e)
  {
    hide NameTag;
    var w' := World(c', w.locals[k := l']);
    if NameTag(c'.elbs[e]) in l'.tags {
      assert k in w'.locals && NameTag(w'.cloud.elbs[e]) in w'.locals[k].tags;
    } else {
      var j :| j in w.locals && NameTag(w.cloud.elbs[e]) in w.locals[j].tags;
      assert j in w'.locals && NameTag(w'.cloud.elbs[e]) in w'.locals[j].tags;
    }
  }

  lemma GroupHomesGrow(w: World, k: Key, c': Cloud, l': Local, g: Id)
    requires g in c'.groups
    requires (GroupAtHome(w, g) && c'.groups[g] == w.cloud.groups[g]) || c'.groups[g].name == GroupName(k)
    ensures GroupAtHome(World(c', w.locals[k := l']), g)
  {
    hide GroupName;
    var w' := World(c', w.locals[k := l']);
    if c'.groups[g].name == GroupName(k) {
      assert k in w'.locals && w'.cloud.groups[g].name == GroupName(k);
    } else {
      var j :| j in w.locals && w.cloud.groups[g].name == GroupName(j);
      assert j in w'.locals && w'.cloud.groups[g].name == GroupName(j);
    }
  }

  /** Every step of every process leaves alone what is not its key's. */
  lemma AnyOwn(k: Key, w: World, j: Key, c': Cloud, l': Local)
    requires Inv(k, w) && j in w.locals && Moves(j, w.cloud, w.locals[j], c', l')
    ensures WF(c') && OnlyOwn(j, w.cloud, c', w.locals[j].tags) && l'.tags == w.locals[j].tags
    ensures if j == k then KInv(k, c', l') else Harmless(j, c', l')
  {
    hide Moves, KInv, Orderly, WF, AtHome, GroupAtHome, GroupName, UniqueNames, FreeToCreate, Harmless, OnlyOwn;
    var c, l := w.cloud, w.locals[j];
    OrderlyMeans(w, j);
    SnapshotMoves(j, c, l, c', l');
    if j == k {
      OwnKeeps(k, c, l, c', l');
    } else {
      HarmlessOwn(j, c, l, c', l');
      HarmlessMoves(j, c, l, c', l');
    }
  }

  /** What a step at key `j` leaves of the others. */
  lemma ApartStays(k: Key, w: World, j: Key, c': Cloud, l': Local)
    requires Orderly(w) && WF(w.cloud) && Apart(k, w) && j in w.locals && WF(c')
    requires OnlyOwn(j, w.cloud, c', w.locals[j].tags) && (j != k ==> Harmless(j, c', l'))
    ensures Apart(k, World(c', w.locals[j := l']))
  {
    hide Orderly, WF, OnlyOwn, Harmless, GroupName;
    forall i | i in w.locals && i != k && i != j
      ensures Harmless(i, c', w.locals[i])
    {
      OrderlyApart(w, i, j);
      HarmlessStays(i, w.cloud, w.locals[i], j, c', w.locals[j].tags);
    }
  }

  lemma InvMoves(k: Key, w: World, j: Key, c': Cloud, l': Local)
    requires Inv(k, w) && j in w.locals && Moves(j, w.cloud, w.locals[j], c', l')
    ensures Inv(k, World(c', w.locals[j := l']))
  {
    hide Moves, KInv, Orderly, WF, AtHome, GroupAtHome, GroupName, UniqueNames, FreeToCreate, Apart, Harmless;
    hide Registered;
    var c, w' := w.cloud, World(c', w.locals[j := l']);
    OrderlyMoves(w, j, c', l');
    AnyOwn(k, w, j, c', l');
    ApartStays(k, w, j, c', l');
    if j != k && k in w.locals {
      ElsewhereAgrees(k, w, j, c');
      SoundNow(w);
      AgreeKeeps(k, c, c', w.locals[k]);
    }
    forall e | e in c'.elbs
      ensures AtHome(w', e)
    {
      HomesGrow(w, j, c', l', e);
    }
    forall g | g in c'.groups
      ensures GroupAtHome(w', g)
    {
      GroupHomesGrow(w, j, c', l', g);
    }
  }

  lemma SoundNow(w: World)
    requires Orderly(w) && WF(w.cloud)
    ensures Sound(w.cloud)
  {
    hide WF;
  }

  /** A step that leaves alone what is not key `j`'s does not touch what is key `k`'s. */
  lemma ElsewhereAgrees(k: Key, w: World, j: Key, c': Cloud)
    requires Orderly(w) && Apart(k, w) && j in w.locals && k in w.locals && j != k
    requires OnlyOwn(j, w.cloud, c', w.locals[j].tags)
    ensures Agree(k, w.cloud, c', w.locals[k].tags)
  {
    hide Orderly, OnlyOwn, Agree, Harmless, GroupName;
    OrderlyApart(w, k, j);
    OwnAgrees(k, j, w.cloud, c', w.locals[k].tags, w.locals[j].tags);
  }

  lemma OrderlyMeans(w: World, k: Key)
    requires Orderly(w) && k in w.locals
    ensures UniqueNames(w.cloud) && FreeToCreate(k, w.cloud, w.locals[k])
    ensures Registered(w.locals[k], Snapshot(w.locals[k].pc))
  {
  }

  lemma OrderlyApart(w: World, j: Key, k: Key)
    requires Orderly(w) && j in w.locals && k in w.locals && j != k
    ensures w.locals[j].tags !! w.locals[k].tags
  {
  }

  lemma InvInPlace(k: Key, w: World, j: Key, l': Local)
    requires Inv(k, w) && j in w.locals && w.locals[j].tags <= l'.tags
    requires if j == k then KInv(k, w.cloud, l') else Harmless(j, w.cloud, l')
    requires Orderly(w.(locals := w.locals[j := l']))
    ensures Inv(k, w.(locals := w.locals[j := l']))
  {
    hide KInv, Orderly, WF, AtHome, GroupAtHome, GroupName, Harmless;
    forall e | e in w.cloud.elbs
      ensures AtHome(w.(locals := w.locals[j := l']), e)
    {
      HomesGrow(w, j, w.cloud, l', e);
    }
    forall g | g in w.cloud.groups
      ensures GroupAtHome(w.(locals := w.locals[j := l']), g)
    {
      GroupHomesGrow(w, j, w.cloud, l', g);
    }
  }

  /** A new key leaves every ELB and group at home. */
  lemma NewcomerHomes(w: World, n: Key)
    requires n !in w.locals && (forall e :: e in w.cloud.elbs ==> AtHome(w, e))
    requires forall g :: g in w.cloud.groups ==> GroupAtHome(w, g)
    ensures var w' := w.(locals := w.locals[n := NOTHING]);
      (forall e :: e in w.cloud.elbs ==> AtHome(w', e)) && forall g :: g in w.cloud.groups ==> GroupAtHome(w', g)
  {
    hide GroupName, NameTag;
    var c, w' := w.cloud, w.(locals := w.locals[n := NOTHING]);
    forall g | g in c.groups
      ensures GroupAtHome(w', g)
    {
      assert GroupAtHome(w, g);
      var j :| j in w.locals && c.groups[g].name == GroupName(j);
      assert j in w'.locals;
    }
    forall e | e in c.elbs
      ensures AtHome(w', e)
    {
      assert AtHome(w, e);
      var j :| j in w.locals && NameTag(c.elbs[e]) in w.locals[j].tags;
      assert j in w'.locals && NameTag(w'.cloud.elbs[e]) in w'.locals[j].tags;
    }
  }

  /** When key `k` comes up, there is no group of its name. */
  lemma NoGroupYet(k: Key, w: World)
    requires Inv(k, w) && k !in w.locals
    ensures NoGroup(w.cloud, k)
  {
    hide Orderly, WF, KInv, GroupName, Harmless, AtHome;
    forall g | g in w.cloud.groups
      ensures w.cloud.groups[g].name != GroupName(k)
    {
      assert GroupAtHome(w, g);
    }
  }

  lemma InvNewcomer(k: Key, w: World, n: Key)
    requires Inv(k, w) && Newcomer(k, w, n)
    ensures Inv(k, w.(locals := w.locals[n := NOTHING]))
  {
    hide Orderly, WF, KInv, AtHome, GroupAtHome, GroupName, NoGroup, Harmless;
    OrderlyNewcomer(w, n);
    NewcomerHomes(w, n);
    NothingHarmless(n, w.cloud);
    if n == k {
      NoGroupYet(k, w);
      NothingKeeps(k, w.cloud);
    }
  }

  lemma NothingKeeps(k: Key, c: Cloud)
    requires NoGroup(c, k)
    ensures KInv(k, c, NOTHING)
  {
    hide GroupName;
  }

  /** Disturbances and stops, at whatever key. */
  lemma InvDisturbed(k: Key, w: World, j: Key, l': Local)
    requires Inv(k, w) && j in w.locals
    requires Stops(w.locals[j], l') || (Disturbs(w, j, w.locals[j], l') && (j == k ==> Polite(k, w.locals[j], l')))
    ensures Inv(k, w.(locals := w.locals[j := l']))
  {
    var l := w.locals[j];
    InvParts(k, w, j);
    if Stops(l, l') {
      OrderlyStops(w, j, l');
    } else {
      OrderlyDisturbed(w, j, l');
    }
    hide Inv, Disturbs, Polite, Orderly, KInv, Harmless, Stops;
    if j != k {
      HarmlessDisturbed(w, j, l, l');
    } else if Stops(l, l') {
      StopsKeep(k, w.cloud, l, l');
      StopsTags(l, l');
    } else {
      DisturbedKeeps(w, k, l');
    }
    InvInPlace(k, w, j, l');
  }

  lemma StopsTags(l: Local, l': Local)
    requires Stops(l, l')
    ensures l.tags <= l'.tags
  {
  }

  lemma InvParts(k: Key, w: World, j: Key)
    requires Inv(k, w) && j in w.locals
    ensures Orderly(w) && Sound(w.cloud)
    ensures if j == k then KInv(k, w.cloud, w.locals[k]) else Harmless(j, w.cloud, w.locals[j])
  {
    hide KInv, Harmless, AtHome, GroupAtHome, GroupName, WF, FreeToCreate, Registered;
  }

  lemma InvApart(k: Key, w: World)
    requires Inv(k, w)
    ensures Apart(k, w)
  {
    hide KInv, Orderly, WF, AtHome, GroupAtHome, Apart;
  }

  lemma InvCalm(k: Key, w: World, w': World)
    requires Inv(k, w) && Calm(k, w, w')
    ensures Inv(k, w')
  {
    hide Inv, Moves, Disturbs, Polite, Stops;
    if n :| Newcomer(k, w, n) && w' == w.(locals := w.locals[n := NOTHING]) {
      InvNewcomer(k, w, n);
    } else {
      var j, c', l' :| CalmStep(k, w, j, c', l') && w' == World(c', w.locals[j := l']);
      if Moves(j, w.cloud, w.locals[j], c', l') {
        InvMoves(k, w, j, c', l');
      } else {
        InvDisturbed(k, w, j, l');
      }
    }
  }

  lemma InvMeans(w: World, k: Key)
    requires Inv(k, w) && k in w.locals
    ensures Orderly(w) && Sound(w.cloud) && KInv(k, w.cloud, w.locals[k])
  {
    InvParts(k, w, k);
  }

  lemma {:induction false} CalmRunsKeep(k: Key, run: seq<World>, i: nat)
    requires CalmRun(k, run) && i < |run|
    ensures Inv(k, run[i])
  {
    if i > 0 {
      hide Inv, Calm;
      CalmRunsKeep(k, run, i - 1);
      InvCalm(k, run[i - 1], run[i]);
    }
  }
}
