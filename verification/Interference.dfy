/** What a process can rely on while everybody else works on: the rest of the system between two
    of its calls, in a run of the protocol that is disciplined for its key. */
module Interference {
  import opened Common
  import opened Naming
  import opened CloudModel
  import opened Protocol
  import opened Safety
  import opened Discipline

  /** A step that is not one of the process of key `k`. */
  ghost predicate OtherStep(w: World, j: Key, c': Cloud, l': Local, k: Key) {
    && CalmStep(k, w, j, c', l')
    && (j == k ==> c' == w.cloud && Disturbs(w, k, w.locals[k], l') && Polite(k, w.locals[k], l'))
  }

  ghost predicate Elsewhere(w: World, w': World, k: Key) {
    || (exists n :: Newcomer(k, w, n) && n != k && w' == w.(locals := w.locals[n := NOTHING]))
    || (exists j, c', l' :: OtherStep(w, j, c', l', k) && w' == World(c', w.locals[j := l']))
  }

  ghost predicate Meanwhile(k: Key, run: seq<World>) {
    |run| > 0 && forall i, j | 0 <= i && j == i + 1 && j < |run| :: Elsewhere(run[i], run[j], k)
  }

  /** What others can do to a binding: mark it for deletion, and, if it has no finalizer, remove it. */
  predicate BindingStays(ob: Option<Binding>, ob': Option<Binding>) {
    && (ob'.Some? ==> ob.Some? && ob'.value == ob.value.(deleting := ob'.value.deleting))
    && (ob.Some? && ob.value.finalizer ==> ob'.Some?)
  }

  /** What the process of `k` can rely on while others work: its place, its binding, and everything
      that is its own in the cloud. */
  ghost predicate LeftAlone(k: Key, w: World, w': World) {
    && k in w.locals && k in w'.locals
    && w'.locals[k].pc == w.locals[k].pc
    && w.locals[k].tags <= w'.locals[k].tags
    && BindingStays(w.locals[k].binding, w'.locals[k].binding)
    && Agree(k, w.cloud, w'.cloud, w.locals[k].tags)
  }

  lemma ElsewhereIsCalm(w: World, w': World, k: Key)
    requires Elsewhere(w, w', k)
    ensures Calm(k, w, w')
  {
    hide Moves, Disturbs, Polite;
    if n :| Newcomer(k, w, n) && n != k && w' == w.(locals := w.locals[n := NOTHING]) {
    } else {
      var j, c', l' :| OtherStep(w, j, c', l', k) && w' == World(c', w.locals[j := l']);
      assert CalmStep(k, w, j, c', l');
    }
  }

  lemma ElsewhereSpares(w: World, w': World, k: Key)
    requires Inv(k, w) && Elsewhere(w, w', k) && k in w.locals
    ensures LeftAlone(k, w, w')
  {
    hide Moves, Disturbs, Polite, Agree, Inv, Orderly, KInv, OnlyOwn, Apart;
    SameAgrees(k, w.cloud, w.locals[k].tags);
    if n :| Newcomer(k, w, n) && n != k && w' == w.(locals := w.locals[n := NOTHING]) {
    } else {
      var j, c', l' :| OtherStep(w, j, c', l', k) && w' == World(c', w.locals[j := l']);
      if j == k {
        DisturbedStays(w, k, w.locals[k], l');
      } else if Moves(j, w.cloud, w.locals[j], c', l') {
        AnyOwn(k, w, j, c', l');
        InvMeans(w, k);
        InvApart(k, w);
        ElsewhereAgrees(k, w, j, c');
      }
    }
  }

  lemma DisturbedStays(w: World, k: Key, l: Local, l': Local)
    requires Disturbs(w, k, l, l')
    ensures l'.pc == l.pc && l.tags <= l'.tags && BindingStays(l.binding, l'.binding)
  {
  }

  lemma AgreeTransitive(k: Key, a: Cloud, b: Cloud, c: Cloud, tags: set<string>, more: set<string>)
    requires Agree(k, a, b, tags) && Agree(k, b, c, more) && tags <= more
    ensures Agree(k, a, c, tags)
  {
    hide NameTag, GroupName;
  }

  lemma {:induction false} MeanwhileSpares(k: Key, run: seq<World>, n: nat)
    requires Meanwhile(k, run) && n < |run| && Inv(k, run[0]) && k in run[0].locals
    ensures Inv(k, run[n]) && LeftAlone(k, run[0], run[n])
  {
    hide Inv, Elsewhere, Agree;
    if n == 0 {
      SameAgrees(k, run[0].cloud, run[0].locals[k].tags);
    } else {
      MeanwhileSpares(k, run, n - 1);
      assert Elsewhere(run[n - 1], run[n], k);
      ElsewhereSpares(run[n - 1], run[n], k);
      ElsewhereIsCalm(run[n - 1], run[n], k);
      InvCalm(k, run[n - 1], run[n]);
      AgreeTransitive(k, run[0].cloud, run[n - 1].cloud, run[n].cloud, run[0].locals[k].tags,
        run[n - 1].locals[k].tags);
    }
  }

  lemma MeanwhileRuns(k: Key, past: seq<World>, run: seq<World>)
    requires CalmRun(k, past) && Meanwhile(k, run) && past[|past| - 1] == run[0]
    ensures CalmRun(k, past + run[1..])
  {
    hide Calm, Elsewhere;
    var all := past + run[1..];
    forall i, j | 0 <= i && j == i + 1 && j < |all|
      ensures Calm(k, all[i], all[j])
    {
      if j < |past| {
        assert Calm(k, past[i], past[j]);
      } else {
        var n := j - |past|;
        assert all[j] == run[n + 1] && all[i] == run[n];
        assert Elsewhere(run[n], run[n + 1], k);
        ElsewhereIsCalm(run[n], run[n + 1], k);
      }
    }
  }

  ghost predicate Leads(k: Key, run: seq<World>, w: World, w': World) {
    Meanwhile(k, run) && run[0] == w && run[|run| - 1] == w'
  }

  ghost predicate Reaches(k: Key, w: World, w': World) {
    exists run :: Leads(k, run, w, w')
  }

  /** `others` is some behaviour of everybody but the process of key `k`, disciplined for that key. */
  ghost predicate Honest(k: Key, others: (nat, World) -> World) {
    forall t, w :: Reaches(k, w, others(t, w))
  }

  lemma LeadsOn(k: Key, past: seq<World>, w: World, w': World) returns (longer: seq<World>)
    requires CalmRun(k, past) && past[|past| - 1] == w && k in w.locals && Reaches(k, w, w')
    ensures CalmRun(k, longer) && longer[|longer| - 1] == w' && LeftAlone(k, w, w') && past <= longer
  {
    CalmRunsKeep(k, past, |past| - 1);
    hide CalmRun, Meanwhile, LeftAlone, Inv;
    var run :| Leads(k, run, w, w');
    RunsAreNotEmpty(k, run);
    MeanwhileSpares(k, run, |run| - 1);
    MeanwhileRuns(k, past, run);
    longer := past + run[1..];
  }

  lemma RunsAreNotEmpty(k: Key, run: seq<World>)
    requires Meanwhile(k, run)
    ensures |run| > 0
  {
  }

  lemma OneMoreStep(past: seq<World>, k: Key, c': Cloud, l': Local)
    requires CalmRun(k, past) && CalmStep(k, past[|past| - 1], k, c', l')
    ensures CalmRun(k, past + [World(c', past[|past| - 1].locals[k := l'])])
  {
    hide Moves, Disturbs, Polite;
    var w := past[|past| - 1];
    var w' := World(c', w.locals[k := l']);
    assert Calm(k, w, w');
    var longer := past + [w'];
    forall i, j | 0 <= i && j == i + 1 && j < |longer|
      ensures Calm(k, longer[i], longer[j])
    {
      if j < |past| {
        assert Calm(k, past[i], past[j]);
      }
    }
  }

  lemma HonestNow(k: Key, others: (nat, World) -> World, t: nat, w: World)
    requires Honest(k, others)
    ensures Reaches(k, w, others(t, w))
  {
  }
}
