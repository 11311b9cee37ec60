/** Where the promises of the LoadBalancerConfig protocol end: ELBs that outlive their config, and
    configs that print the same name. */
module LbcLimits {
  import opened Common
  import opened LbcProtocol

  // ---------------------------------------------------------------------------
  // Continuations
  // ---------------------------------------------------------------------------

  ghost predicate From(w: World, more: seq<World>) {
    && |more| > 0 && more[0] == w
    && forall i, j | 0 <= i && j == i + 1 && j < |more| :: Next(more[i], more[j])
  }

  function Last(run: seq<World>): World
    requires |run| > 0
  {
    run[|run| - 1]
  }

  lemma OneMore(w: World, more: seq<World>, k: Key, c': Cloud, l': Local) returns (longer: seq<World>)
    requires From(w, more) && StepsAt(Last(more), k, c', l')
    ensures From(w, longer) && longer == more + [World(c', Last(more).locals[k := l'])]
  {
    hide Moves, Disturbs;
    var w' := World(c', Last(more).locals[k := l']);
    assert Next(Last(more), w');
    longer := more + [w'];
    forall i, j | 0 <= i && j == i + 1 && j < |longer|
      ensures Next(longer[i], longer[j])
    {
      if j < |more| {
        assert Next(more[i], more[j]);
      }
    }
  }

  lemma {:induction false} InvOn(w: World, more: seq<World>, i: nat)
    requires Inv(w) && From(w, more) && i < |more|
    ensures Inv(more[i])
  {
    if i > 0 {
      hide Inv, Next;
      InvOn(w, more, i - 1);
      InvNext(more[i - 1], more[i]);
    }
  }

  // ---------------------------------------------------------------------------
  // ELBs that outlive their config
  // ---------------------------------------------------------------------------

  /** The config is gone or going. */
  predicate Going(l: Local) {
    l.lbc.Some? ==> l.lbc.value.deleting
  }

  /** It is not ordered again, and nobody else prints its name. */
  ghost predicate Closes(more: seq<World>, k: Key) {
    forall i :: 0 <= i < |more| ==> ClosesAt(more[i], k)
  }

  ghost predicate ClosesAt(w: World, k: Key) {
    k in w.locals && Going(w.locals[k]) && Alone(w, k)
  }

  predicate Records(l: Local, e: Id) {
    l.lbc.Some? && ElbId(l.lbc.value) == Some(e)
  }

  /** ELB `e` is live and no deletion will look for it. */
  predicate Lost(k: Key, c: Cloud, l: Local, e: Id) {
    && Live(k, c, e) && Going(l)
    && (l.lbc.Some? ==> ElbId(l.lbc.value).None?)
    && (l.pc.Idle? || l.pc.Release?)
  }

  lemma LostStays(k: Key, c: Cloud, l: Local, c': Cloud, l': Local, e: Id)
    requires Lost(k, c, l, e) && Happens(k, c, l, c', l') && Going(l') && e < c.next
    ensures Lost(k, c', l', e)
  {
    hide ElbName;
  }

  lemma LostNext(w: World, w': World, k: Key, e: Id)
    requires Inv(w) && Next(w, w') && ClosesAt(w, k) && ClosesAt(w', k) && Lost(k, w.cloud, w.locals[k], e)
    ensures Lost(k, w'.cloud, w'.locals[k], e)
  {
    hide KInv, SoleInv, Moves, Disturbs, ElbName, Happens, OnlyNamed, Going, Found;
    if n :| n !in w.locals && w' == w.(locals := w.locals[n := NOTHING]) {
    } else {
      var j, c', l' :| StepsAt(w, j, c', l') && w' == World(c', w.locals[j := l']);
      StepHappens(w, j, c', l');
      OwnKeeps(j, w.cloud, w.locals[j], c', l');
      if j == k {
        LostStays(k, w.cloud, w.locals[k], c', l', e);
      } else {
        LiveElsewhere(k, j, w.cloud, c', e);
      }
    }
  }

  lemma LiveElsewhere(k: Key, j: Key, c: Cloud, c': Cloud, e: Id)
    requires Live(k, c, e) && OnlyNamed(c, c', ElbName(j)) && ElbName(j) != ElbName(k)
    ensures Live(k, c', e)
  {
    hide ElbName;
  }

  lemma {:induction false} LostOn(w: World, more: seq<World>, k: Key, e: Id, i: nat)
    requires Inv(w) && From(w, more) && Closes(more, k) && i < |more| && k in w.locals
      && Lost(k, w.cloud, w.locals[k], e)
    ensures k in more[i].locals && Lost(k, more[i].cloud, more[i].locals[k], e)
  {
    hide Inv, Next, Lost, ClosesAt;
    if i > 0 {
      LostOn(w, more, k, e, i - 1);
      InvOn(w, more, i - 1);
      assert ClosesAt(more[i - 1], k) && ClosesAt(more[i], k);
      LostNext(more[i - 1], more[i], k, e);
      ClosesThere(more[i], k);
    }
  }

  lemma ClosesThere(w: World, k: Key)
    requires ClosesAt(w, k)
    ensures k in w.locals
  {
  }

  lemma OneMoreClosing(w: World, more: seq<World>, k: Key, c': Cloud, l': Local) returns (longer: seq<World>)
    requires From(w, more) && Closes(more, k) && StepsAt(Last(more), k, c', l') && Going(l')
    ensures From(w, longer) && Closes(longer, k) && Last(longer) == World(c', Last(more).locals[k := l'])
  {
    longer := OneMore(w, more, k, c', l');
    hide From, StepsAt, ElbName;
    assert ClosesAt(Last(more), k);
    assert Alone(Last(longer), k);
  }

  /** A recorded ELB can be deleted, once its listeners are gone. */
  lemma RecordedIsRemoved(w: World, k: Key, e: Id) returns (more: seq<World>)
    requires Inv(w) && ClosesAt(w, k) && w.locals[k].pc.Idle? && Live(k, w.cloud, e) && Records(w.locals[k], e)
    ensures From(w, more) && Closes(more, k) && e !in Last(more).cloud.elbs
  {
    var c, l := w.cloud, w.locals[k];
    assert l.lbc.value.finalizer by {
      hide SoleInv;
    }
    var free := c.(busy := {});
    more := [w];
    hide Inv, From, Alone, ElbName, Closes, Found, Patch;
    assert Closes(more, k) by {
      ClosesFirst(w, k);
    }
    more := OneMoreClosing(w, more, k, c, l.(pc := Tear(e)));
    more := OneMoreClosing(w, more, k, free, l.(pc := Tear(e)));
    more := OneMoreClosing(w, more, k, free.(elbs := c.elbs - {e}), l.(pc := Release(l.lbc.value)));
  }

  lemma ClosesFirst(w: World, k: Key)
    requires ClosesAt(w, k)
    ensures Closes([w], k)
  {
  }

  /** While a config is being deleted, and after it has gone, an ELB of its name outlives every
      continuation in which the config is not ordered again, if and only if its ID is not recorded:
      deletion has no lookup by name. */
  lemma LeaksIffUnrecorded(run: seq<World>, k: Key, e: Id)
    requires Reachable(run) && ClosesAt(Last(run), k)
    requires Last(run).locals[k].pc.Idle? && Live(k, Last(run).cloud, e)
    ensures (forall more :: From(Last(run), more) && Closes(more, k) ==> e in Last(more).cloud.elbs)
       <==> !Records(Last(run).locals[k], e)
  {
    var w := Last(run);
    RunsKeep(run, |run| - 1);
    if Records(w.locals[k], e) {
      hide Inv, Reachable, ClosesAt;
      var more := RecordedIsRemoved(w, k, e);
      assert From(w, more) && Closes(more, k);
    } else {
      assert Lost(k, w.cloud, w.locals[k], e) by {
        assert SoleInv(k, w.cloud, w.locals[k]);
        hide ElbName, KInv;
      }
      hide Inv, Reachable, ClosesAt, Lost;
      forall more | From(w, more) && Closes(more, k)
        ensures e in Last(more).cloud.elbs
      {
        LostOn(w, more, k, e, |more| - 1);
        LostIsLive(k, Last(more).cloud, Last(more).locals[k], e);
      }
    }
  }

  lemma LostIsLive(k: Key, c: Cloud, l: Local, e: Id)
    requires Lost(k, c, l, e)
    ensures e in c.elbs
  {
  }

  // ---------------------------------------------------------------------------
  // Concrete runs
  // ---------------------------------------------------------------------------

  const PLAIN := Lbc(false, None, false, true, false, false, false)
  const HELD := PLAIN.(finalizer := true)

  lemma Comes(run: seq<World>, k: Key) returns (longer: seq<World>)
    requires Reachable(run) && k !in Last(run).locals
    ensures Reachable(longer) && Last(longer) == Last(run).(locals := Last(run).locals[k := NOTHING])
  {
    var w, w' := Last(run), Last(run).(locals := Last(run).locals[k := NOTHING]);
    assert Next(w, w');
    longer := run + [w'];
    forall i, j | 0 <= i && j == i + 1 && j < |longer|
      ensures Next(longer[i], longer[j])
    {
      if j < |run| {
        assert Next(run[i], run[j]);
      }
    }
  }

  lemma Steps(run: seq<World>, k: Key, c': Cloud, l': Local) returns (longer: seq<World>)
    requires Reachable(run) && StepsAt(Last(run), k, c', l')
    ensures Reachable(longer) && Last(longer) == World(c', Last(run).locals[k := l'])
  {
    hide Next, StepsAt;
    assert From(START, run);
    longer := OneMore(START, run, k, c', l');
  }

  /** A config is ordered and its process gets to where it creates the ELB. */
  lemma GetsToCreate(run: seq<World>, k: Key) returns (longer: seq<World>)
    requires Reachable(run) && k in Last(run).locals && Last(run).locals[k] == NOTHING
    requires Found(Last(run).cloud, ElbName(k), None)
    ensures Reachable(longer)
    ensures Last(longer) == Last(run).(locals := Last(run).locals[k := Local(Some(HELD), Create)])
  {
    var c := Last(run).cloud;
    hide Reachable, ElbName, Found;
    longer := Steps(run, k, c, Local(Some(PLAIN), Idle));
    longer := Steps(longer, k, c, Local(Some(PLAIN), AddFinalizer));
    longer := Steps(longer, k, c, Local(Some(HELD), Idle));
    longer := Steps(longer, k, c, Local(Some(HELD), Find));
    assert FoundPC(None) == Create;
    longer := Steps(longer, k, c, Local(Some(HELD), Create));
  }

  function Born(k: Key, c: Cloud): Cloud {
    c.(elbs := c.elbs[c.next := ElbName(k)], next := c.next + 1)
  }

  /** A concrete case of a leak: the process dies between creating the ELB and recording it, and the
      config is deleted. The ELB stays unless the config is ordered again. */
  lemma UnrecordedElbLeaks(k: Key) returns (run: seq<World>)
    ensures Reachable(run) && ClosesAt(Last(run), k) && Live(k, Last(run).cloud, 0)
    ensures forall more :: From(Last(run), more) && Closes(more, k) ==> 0 in Last(more).cloud.elbs
  {
    hide ElbName, From, Closes;
    var c := Born(k, START.cloud);
    run := [START];
    run := Comes(run, k);
    run := GetsToCreate(run, k);
    hide Reachable;
    run := Steps(run, k, c, Local(Some(HELD), Record(0)));
    run := Steps(run, k, c, Local(Some(HELD), Idle));
    run := Steps(run, k, c, Local(Some(HELD.(deleting := true)), Idle));
    LeaksIffUnrecorded(run, k, 0);
  }

  // ---------------------------------------------------------------------------
  // Configs that print the same name
  // ---------------------------------------------------------------------------

  ghost predicate OnePerName(c: Cloud) {
    forall e, f | e in c.elbs && f in c.elbs && c.elbs[e] == c.elbs[f] :: e == f
  }

  /** Both look before either creates. */
  lemma CollisionDoubles(j: Key, k: Key) returns (run: seq<World>)
    requires j != k && ElbName(j) == ElbName(k)
    ensures Reachable(run) && Last(run).locals.Keys == {j, k} && !OnePerName(Last(run).cloud)
  {
    hide ElbName;
    run := [START];
    run := Comes(run, j);
    run := Comes(run, k);
    run := GetsToCreate(run, j);
    run := GetsToCreate(run, k);
    hide Reachable;
    var c := Born(j, START.cloud);
    run := Steps(run, j, c, Local(Some(HELD), Record(0)));
    run := Steps(run, k, Born(k, c), Local(Some(HELD), Record(1)));
    assert 0 in Last(run).cloud.elbs && 1 in Last(run).cloud.elbs;
  }

  /** Two configs alone in the cluster never get two live ELBs of one name, if and only if they print
      different names. */
  lemma OnePerNameIffApart(j: Key, k: Key)
    requires j != k
    ensures (forall run :: Reachable(run) && Last(run).locals.Keys <= {j, k} ==> OnePerName(Last(run).cloud))
       <==> ElbName(j) != ElbName(k)
  {
    hide ElbName;
    if ElbName(j) == ElbName(k) {
      var run := CollisionDoubles(j, k);
      assert Reachable(run) && Last(run).locals.Keys <= {j, k};
    } else {
      forall run | Reachable(run) && Last(run).locals.Keys <= {j, k}
        ensures OnePerName(Last(run).cloud)
      {
        var c := Last(run).cloud;
        forall e, f | e in c.elbs && f in c.elbs && c.elbs[e] == c.elbs[f]
          ensures e == f
        {
          AtMostOnePerName(run, |run| - 1, e, f);
        }
      }
    }
  }
}
