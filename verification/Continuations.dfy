/** How the system can go on from a state, and how one key sees each of its steps. */
module Continuations {
  import opened Common
  import opened Naming
  import opened CloudModel
  import opened Steps
  import opened Protocol
  import opened Safety
  import opened Discipline

  /** `more` is a continuation from world `w` that is disciplined for key `k`. */
  ghost predicate CalmFrom(k: Key, w: World, more: seq<World>) {
    && |more| > 0 && more[0] == w
    && forall i, j | 0 <= i && j == i + 1 && j < |more| :: Calm(k, more[i], more[j])
  }

  function Last(run: seq<World>): World
    requires |run| > 0
  {
    run[|run| - 1]
  }

  lemma NotYet(k: Key, w: World)
    ensures CalmFrom(k, w, [w])
  {
  }

  lemma OneMore(w: World, more: seq<World>, k: Key, c': Cloud, l': Local) returns (longer: seq<World>)
    requires CalmFrom(k, w, more) && CalmStep(k, Last(more), k, c', l')
    ensures CalmFrom(k, w, longer) && Last(longer) == World(c', Last(more).locals[k := l'])
  {
    longer := JustOneMore(w, more, k, c', l');
  }

  lemma JustOneMore(w: World, more: seq<World>, k: Key, c': Cloud, l': Local) returns (longer: seq<World>)
    requires CalmFrom(k, w, more) && CalmStep(k, Last(more), k, c', l')
    ensures CalmFrom(k, w, longer) && longer == more + [World(c', Last(more).locals[k := l'])]
  {
    hide Moves, Disturbs, Polite;
    var w' := World(c', Last(more).locals[k := l']);
    assert Calm(k, Last(more), w');
    longer := more + [w'];
    forall i, j | 0 <= i && j == i + 1 && j < |longer|
      ensures Calm(k, longer[i], longer[j])
    {
      if j < |more| {
        assert Calm(k, more[i], more[j]);
      }
    }
  }

  /** A disciplined run is a continuation from the start. */
  lemma RunIsFrom(k: Key, run: seq<World>)
    requires CalmRun(k, run)
    ensures CalmFrom(k, START, run)
  {
    hide Calm;
  }

  lemma FromIsRun(k: Key, run: seq<World>)
    requires CalmFrom(k, START, run)
    ensures CalmRun(k, run)
  {
    hide Calm;
  }

  lemma {:induction false} InvOn(k: Key, w: World, more: seq<World>, i: nat)
    requires Inv(k, w) && CalmFrom(k, w, more) && i < |more|
    ensures Inv(k, more[i])
  {
    if i > 0 {
      hide Inv, Calm;
      InvOn(k, w, more, i - 1);
      InvCalm(k, more[i - 1], more[i]);
    }
  }

  /** A step of the whole system as key `k` sees it: its own process moves, its Service or binding is
      disturbed, or it sees nothing of its own change. */
  ghost predicate Seen(w: World, w': World, k: Key) {
    k in w.locals && k in w'.locals &&
    var c, l, c', l' := w.cloud, w.locals[k], w'.cloud, w'.locals[k];
    || (Own(k, c, l, c', l') && FreeToCreate(k, c, l) && OnlyOwn(k, c, c', l.tags))
    || (c' == c && Stops(l, l'))
    || (c' == c && Disturbs(w, k, l, l') && Polite(k, l, l'))
    || (l' == l && Agree(k, c, c', l.tags))
  }

  lemma CalmIsSeen(w: World, w': World, k: Key)
    requires Inv(k, w) && Calm(k, w, w') && k in w.locals
    ensures Seen(w, w', k)
  {
    hide Moves, Disturbs, Polite, Inv, KInv, Agree, OnlyOwn, FreeToCreate, Orderly, Sound, UniqueNames, Apart, Stops;
    InvMeans(w, k);
    SameAgrees(k, w.cloud, w.locals[k].tags);
    if n :| Newcomer(k, w, n) && w' == w.(locals := w.locals[n := NOTHING]) {
    } else {
      var j, c', l' :| CalmStep(k, w, j, c', l') && w' == World(c', w.locals[j := l']);
      if Moves(j, w.cloud, w.locals[j], c', l') {
        AnyOwn(k, w, j, c', l');
        OrderlyMeans(w, k);
        if j != k {
          InvApart(k, w);
          ElsewhereAgrees(k, w, j, c');
        }
      }
    }
  }

  // ---------------------------------------------------------------------------
  // Runs of a single key
  // ---------------------------------------------------------------------------

  /** A disciplined run that ends in a world of one key can go on with any such step of that key. */
  lemma Extends(run: seq<World>, k: Key, c: Cloud, l: Local, c': Cloud, l': Local) returns (longer: seq<World>)
    requires CalmRun(k, run) && Last(run) == World(c, map[k := l]) && CalmStep(k, World(c, map[k := l]), k, c', l')
    ensures CalmRun(k, longer) && Last(longer) == World(c', map[k := l'])
  {
    hide Moves, Disturbs, Polite, Calm;
    RunIsFrom(k, run);
    longer := OneMore(START, run, k, c', l');
    FromIsRun(k, longer);
    assert map[k := l][k := l'] == map[k := l'];
  }

  /** ... in particular with any step of its process. */
  lemma Goes(run: seq<World>, k: Key, c: Cloud, l: Local, c': Cloud, l': Local) returns (longer: seq<World>)
    requires CalmRun(k, run) && Last(run) == World(c, map[k := l]) && Moves(k, c, l, c', l')
    ensures CalmRun(k, longer) && Last(longer) == World(c', map[k := l'])
  {
    hide Moves, Disturbs, Polite, CalmRun;
    longer := Extends(run, k, c, l, c', l');
  }

  lemma ListMoves(k: Key, c: Cloud, l: Local)
    ensures l.pc.AclList? ==> Moves(k, c, l, c, l.(pc := AclBind(l.pc.s, l.pc.e, l.pc.g, ListenersOf(c, l.pc.e))))
    ensures l.pc.AclUnlist? ==> Moves(k, c, l, c, l.(pc := AclUnbind(l.pc.s, l.pc.e, l.pc.g, ListenersOf(c, l.pc.e))))
  {
    hide ListenersOf;
  }

  lemma LoopEnds(k: Key, c: Cloud, l: Local)
    ensures l.pc.AclBind? && l.pc.left == {} ==> Moves(k, c, l, c, l.(pc := AclRecord(l.pc.s, l.pc.e, Some(l.pc.g))))
    ensures l.pc.AclUnbind? && l.pc.left == {} ==> Moves(k, c, l, c, l.(pc := AclDrop(l.pc.s, l.pc.e, l.pc.g)))
  {
    hide SetAcl;
  }

  lemma BindsOne(k: Key, c: Cloud, l: Local, x: Id)
    requires l.pc.AclBind? && x in l.pc.left && x in c.listeners && l.pc.g in c.groups
    ensures Moves(k, c, l, SetAcl(c, x, Some(l.pc.g)), l.(pc := AclBind(l.pc.s, l.pc.e, l.pc.g, l.pc.left - {x})))
  {
    hide SetAcl;
  }

  lemma FirstKey(k: Key) returns (run: seq<World>)
    ensures CalmRun(k, run) && Last(run) == World(EMPTY, map[k := NOTHING])
  {
    var w := World(EMPTY, map[k := NOTHING]);
    assert START.locals[k := NOTHING] == w.locals;
    assert Newcomer(k, START, k) && Calm(k, START, w);
    run := [START, w];
  }

  /** A Service as its owner has ordered it. */
  predicate Ordered(s: Svc) {
    |s.uid| >= 10 && s.lb && s.ours && !s.deleting
  }

  /** The run in which the process has just created the Service's ELB. */
  lemma Created(k: Key, s: Svc) returns (run: seq<World>)
    requires Ordered(s)
    ensures CalmRun(k, run)
    ensures Last(run) ==
      World(AddElb(EMPTY, ElbName(k, s)), map[k := Local(Some(s), None, Bind(s, 0, false), {Tag(s.uid)})])
  {
    hide ElbName, Tag, AddElb, CalmRun;
    var l := Local(Some(s), None, Idle, {Tag(s.uid)});
    var c := AddElb(EMPTY, ElbName(k, s));
    run := FirstKey(k);
    run := Extends(run, k, EMPTY, NOTHING, EMPTY, l);
    run := Extends(run, k, EMPTY, l, EMPTY, l.(pc := Route(s)));
    run := Extends(run, k, EMPTY, l.(pc := Route(s)), EMPTY, l.(pc := Find(s)));
    assert Found(EMPTY, ElbName(k, s), None);
    run := Extends(run, k, EMPTY, l.(pc := Find(s)), EMPTY, l.(pc := Create(s)));
    run := Extends(run, k, EMPTY, l.(pc := Create(s)), c, l.(pc := Bind(s, 0, false)));
  }

  /** The run in which it has also bound and recorded it. */
  lemma Equipped(k: Key, s: Svc) returns (run: seq<World>)
    requires Ordered(s)
    ensures CalmRun(k, run)
    ensures Last(run) == World(AddElb(EMPTY, ElbName(k, s)),
      map[k := Local(Some(s), Some(Binding(s.uid, true, false, Some(0), None)), Work(s, 0, None), {Tag(s.uid)})])
  {
    hide ElbName, Tag, AddElb, CalmRun, ChildStep, TearStep;
    var l := Local(Some(s), None, Bind(s, 0, false), {Tag(s.uid)});
    var c := AddElb(EMPTY, ElbName(k, s));
    var b := Binding(s.uid, true, false, None, None);
    run := Created(k, s);
    run := Extends(run, k, c, l, c, l.(pc := NewBinding(s, 0, false)));
    run := Extends(run, k, c, l.(pc := NewBinding(s, 0, false)), c, l.(binding := Some(b), pc := Record(s, 0, false)));
    run := Extends(run, k, c, l.(binding := Some(b), pc := Record(s, 0, false)), c,
                   l.(binding := Some(b.(elb := Some(0))), pc := Work(s, 0, None)));
  }
}
