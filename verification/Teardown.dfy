/** deleteELBStack (internal/controller/service_controller.go): everything below an ELB is deleted,
    children first, and then the ELB. */
module Teardown {
  import opened Common
  import opened CloudModel
  import opened Steps
  import opened CloudApi

  /** How many resources the ELB still accounts for, itself included. */
  function Remaining(c: Cloud, e: Id): nat {
    |MonitorsBelow(c, e)| + |MembersBelow(c, e)| + |PoolsOf(c, e)| + |ListenersOf(c, e)| + if e in c.elbs then 1 else 0
  }

  // ---------------------------------------------------------------------------
  // One call of the teardown
  // ---------------------------------------------------------------------------

  /** The sets below `e` in `c'` are those in `c` less one element in all. */
  lemma MonitorTears(c: Cloud, m: Id, e: Id)
    requires MonitorOn(c, m, e)
    ensures var c' := DropMonitor(c, m); Without(c', e) == Without(c, e) && Remaining(c', e) + 1 == Remaining(c, e)
  {
    var c' := DropMonitor(c, m);
    assert PoolsOf(c', e) == PoolsOf(c, e) && MembersBelow(c', e) == MembersBelow(c, e);
    assert ListenersOf(c', e) == ListenersOf(c, e);
    assert MonitorsBelow(c', e) == MonitorsBelow(c, e) - {m};
    assert c'.monitors - MonitorsBelow(c', e) == c.monitors - MonitorsBelow(c, e);
  }

  lemma MemberTears(c: Cloud, m: Id, e: Id)
    requires MemberOn(c, m, e)
    ensures var c' := DropMember(c, m); Without(c', e) == Without(c, e) && Remaining(c', e) + 1 == Remaining(c, e)
  {
    var c' := DropMember(c, m);
    assert PoolsOf(c', e) == PoolsOf(c, e) && MonitorsBelow(c', e) == MonitorsBelow(c, e);
    assert ListenersOf(c', e) == ListenersOf(c, e);
    assert MembersBelow(c', e) == MembersBelow(c, e) - {m};
    assert c'.members - MembersBelow(c', e) == c.members - MembersBelow(c, e);
  }

  lemma Smaller<T>(a: set<T>, b: set<T>)
    requires a <= b
    ensures |a| <= |b|
  {
    if a != {} {
      var x :| x in a;
      Smaller(a - {x}, b - {x});
    }
  }

  lemma SetsAfterDropPool(c: Cloud, p: Id, e: Id)
    requires PoolOn(c, p, e)
    ensures var c' := DropPool(c, p);
      && ListenersOf(c', e) == ListenersOf(c, e)
      && PoolsOf(c', e) == PoolsOf(c, e) - {p}
      && MonitorsBelow(c', e) == MonitorsBelow(c, e) - MonitorsOf(c, p)
      && MembersBelow(c', e) == MembersBelow(c, e) - MembersOf(c, p)
  {
  }

  lemma PoolTears(c: Cloud, p: Id, e: Id)
    requires PoolOn(c, p, e)
    ensures var c' := DropPool(c, p);
      && Without(c', e) == Without(c, e)
      && Remaining(c', e) < Remaining(c, e)
      && (Childless(c, p) ==> Remaining(c', e) + 1 == Remaining(c, e))
  {
    var c' := DropPool(c, p);
    SetsAfterDropPool(c, p, e);
    DropPoolBelow(c, p, e);
    assert c'.next == c.next;
    PoolTearsOne(c, p, e);
  }

  lemma PoolTearsOne(c: Cloud, p: Id, e: Id)
    requires PoolOn(c, p, e)
    ensures var c' := DropPool(c, p);
      && Remaining(c', e) < Remaining(c, e)
      && (Childless(c, p) ==> Remaining(c', e) + 1 == Remaining(c, e))
  {
    SetsAfterDropPool(c, p, e);
    hide DropPool, MonitorsBelow, MembersBelow, MonitorsOf, MembersOf, ListenersOf;
    var c' := DropPool(c, p);
    Smaller(MonitorsBelow(c', e), MonitorsBelow(c, e));
    Smaller(MembersBelow(c', e), MembersBelow(c, e));
    assert p in PoolsOf(c, e);
    hide PoolsOf;
  }

  lemma SetsAfterDropListener(c: Cloud, l: Id, e: Id)
    requires ListenerOn(c, l, e) && PoolsAt(c, l) == {}
    ensures var c' := DropListener(c, l);
      && c'.pools == c.pools && c'.monitors == c.monitors && c'.members == c.members
      && ListenersOf(c', e) == ListenersOf(c, e) - {l}
      && PoolsOf(c', e) == PoolsOf(c, e)
      && MonitorsBelow(c', e) == MonitorsBelow(c, e)
      && MembersBelow(c', e) == MembersBelow(c, e)
  {
    var c' := DropListener(c, l);
    assert c'.pools == c.pools && c'.monitors == c.monitors && c'.members == c.members;
    forall p | p in c.pools
      ensures PoolOn(c', p, e) <==> PoolOn(c, p, e)
    {
      assert p !in PoolsAt(c, l);
    }
  }

  lemma ListenerTears(c: Cloud, l: Id, e: Id)
    requires ListenerOn(c, l, e) && PoolsAt(c, l) == {}
    ensures var c' := DropListener(c, l); Without(c', e) == Without(c, e) && Remaining(c', e) + 1 == Remaining(c, e)
  {
    hide PoolsOf, MonitorsBelow, MembersBelow, PoolsAt;
    SetsAfterDropListener(c, l, e);
    var c' := DropListener(c, l);
    assert l in ListenersOf(c, e);
    assert c'.listeners - ListenersOf(c', e) == c.listeners - ListenersOf(c, e);
  }

  lemma ElbTears(c: Cloud, e: Id)
    requires e in c.elbs && ListenersOf(c, e) == {}
    ensures var c' := DropElb(c, e); Without(c', e) == Without(c, e) && Remaining(c', e) + 1 == Remaining(c, e)
  {
    var c' := DropElb(c, e);
    assert ListenersOf(c', e) == ListenersOf(c, e) && PoolsOf(c', e) == PoolsOf(c, e);
    assert MonitorsBelow(c', e) == MonitorsBelow(c, e) && MembersBelow(c', e) == MembersBelow(c, e);
    assert c'.elbs - {e} == c.elbs - {e};
  }

  lemma TearStepShrinks(c: Cloud, c': Cloud, e: Id, strict: bool)
    requires TearStep(c, c', e, strict)
    ensures Without(c', e) == Without(c, e) && Remaining(c', e) < Remaining(c, e)
    ensures strict ==> Remaining(c', e) + 1 == Remaining(c, e)
  {
    hide Without, Remaining, DropMonitor, DropMember, DropPool, DropListener, DropElb, Childless;
    if m :| MonitorOn(c, m, e) && c' == DropMonitor(c, m) {
      MonitorTears(c, m, e);
    } else if m :| MemberOn(c, m, e) && c' == DropMember(c, m) {
      MemberTears(c, m, e);
    } else if p :| PoolOn(c, p, e) && (strict ==> Childless(c, p)) && c' == DropPool(c, p) {
      PoolTears(c, p, e);
    } else if l :| ListenerOn(c, l, e) && PoolsAt(c, l) == {} && c' == DropListener(c, l) {
      ListenerTears(c, l, e);
    } else {
      ElbTears(c, e);
    }
  }

  /** From any state that any prefix of these calls leaves, the rest of the cloud is what it was,
      and the number of calls is bounded by what remained: restarts come to an end. */
  lemma {:induction false} TearRunShrinks(points: seq<Cloud>, from: nat, e: Id, strict: bool)
    requires from < |points| && Run(TearDown(e, strict), points)
    ensures var c := points[|points| - 1];
      && Without(c, e) == Without(points[from], e)
      && Remaining(c, e) + (|points| - 1 - from) <= Remaining(points[from], e)
      && (strict ==> Remaining(c, e) + (|points| - 1 - from) == Remaining(points[from], e))
    decreases |points| - from
  {
    hide Without, Remaining, TearStep;
    if from < |points| - 1 {
      assert Step(TearDown(e, strict), points[from], points[from + 1]);
      TearStepShrinks(points[from], points[from + 1], e, strict);
      TearRunShrinks(points, from + 1, e, strict);
    }
  }

  /** Nothing hangs below an ELB that does not exist. */
  lemma NothingLeft(c: Cloud, e: Id)
    requires WF(c) && e !in c.elbs
    ensures Without(c, e) == c && Remaining(c, e) == 0
  {
    NothingBelow(c, e);
    hide WF, ListenersOf, PoolsOf, MonitorsBelow, MembersBelow;
    assert c.elbs - {e} == c.elbs;
  }

  lemma NothingBelow(c: Cloud, e: Id)
    requires WF(c) && e !in c.elbs
    ensures ListenersOf(c, e) == {} && PoolsOf(c, e) == {} && MonitorsBelow(c, e) == {} && MembersBelow(c, e) == {}
  {
  }

  // ---------------------------------------------------------------------------
  // The methods
  // ---------------------------------------------------------------------------

  /** Pool `p` without the monitors and members given. */
  function Stripped(c: Cloud, monitors: set<Id>, members: set<Id>): Cloud {
    c.(monitors := c.monitors - monitors, members := c.members - members)
  }

  lemma NothingStripped(c: Cloud)
    ensures Stripped(c, {}, {}) == c
  {
  }

  lemma OneMonitorStripped(c: Cloud, e: Id, p: Id, done: set<Id>, m: Id, strict: bool)
    requires PoolOn(c, p, e) && m in MonitorsOf(c, p) && m !in done
    ensures DropMonitor(Stripped(c, done, {}), m) == Stripped(c, done + {m}, {})
    ensures m in Stripped(c, done, {}).monitors
    ensures TearStep(Stripped(c, done, {}), DropMonitor(Stripped(c, done, {}), m), e, strict)
  {
    assert MonitorOn(Stripped(c, done, {}), m, e);
    MinusTwice(c.monitors, done, {m});
  }

  lemma OneMemberStripped(c: Cloud, e: Id, p: Id, monitors: set<Id>, done: set<Id>, m: Id, strict: bool)
    requires PoolOn(c, p, e) && m in MembersOf(c, p) && m !in done
    ensures DropMember(Stripped(c, monitors, done), m) == Stripped(c, monitors, done + {m})
    ensures m in MembersOf(Stripped(c, monitors, done), p)
    ensures TearStep(Stripped(c, monitors, done), DropMember(Stripped(c, monitors, done), m), e, strict)
  {
    assert MemberOn(Stripped(c, monitors, done), m, e);
    MinusTwice(c.members, done, {m});
  }

  /** Deletes the monitors of pool `p`, found in the list of all monitors. */
  method ClearMonitors(api: Api, e: Id, p: Id) returns (r: Result<()>)
    requires api.Valid() && api.purpose.TearDown? && api.purpose.gone == e && PoolOn(api.c, p, e)
    modifies api`c, api`trail, api`faults
    ensures api.Valid()
    ensures r.Ok? ==> api.c == Stripped(old(api.c), MonitorsOf(old(api.c), p), {}) && api.faults == old(api.faults)
    ensures r.Err? ==> r.error == Other && api.faults == old(api.faults) + 1
  {
    hide Api.Valid, Stripped, TearStep;
    ghost var before := api.c;
    NothingStripped(before);
    var listed := api.ListHealthChecks();
    if listed.Err? {
      return Err(listed.error);
    }
    var ids := listed.value.ids;
    ghost var done: set<Id> := {};
    for i := 0 to |ids|
      invariant api.Valid() && api.faults == old(api.faults)
      invariant done == set j | 0 <= j < i && before.monitors[ids[j]] == p :: ids[j]
      invariant api.c == Stripped(before, done, {})
    {
      if listed.value.info[ids[i]] == p {
        OneMonitorStripped(before, e, p, done, ids[i], api.purpose.strict);
        r := api.DeleteHealthCheck(ids[i]);
        if r.Err? {
          return;
        }
        done := done + {ids[i]};
      }
    }
    assert done == MonitorsOf(before, p);
    r := Ok(());
  }

  /** Deletes the members of pool `p` that are listed. */
  method ClearMembers(api: Api, e: Id, p: Id, ghost before: Cloud, ghost monitors: set<Id>)
    returns (r: Result<()>, ghost done: set<Id>)
    requires api.Valid() && api.purpose.TearDown? && api.purpose.gone == e
    requires PoolOn(before, p, e) && api.c == Stripped(before, monitors, {})
    modifies api`c, api`trail, api`faults
    ensures api.Valid()
    ensures done <= MembersOf(before, p)
    ensures r.Ok? ==> api.c == Stripped(before, monitors, done) && api.faults == old(api.faults)
    ensures r.Ok? && |MembersOf(before, p)| <= LIST_LIMIT ==> done == MembersOf(before, p)
    ensures r.Err? ==> r.error == Other && api.faults == old(api.faults) + 1
  {
    hide Api.Valid, Stripped, TearStep;
    SameMembers(before, monitors, p);
    done := {};
    var listed := api.ListMembers(p);
    if listed.Err? {
      return Err(listed.error), done;
    }
    var ids := listed.value.ids;
    for i := 0 to |ids|
      invariant api.Valid() && api.faults == old(api.faults)
      invariant done == set j | 0 <= j < i :: ids[j]
      invariant done <= MembersOf(before, p)
      invariant api.c == Stripped(before, monitors, done)
    {
      OneMemberStripped(before, e, p, monitors, done, ids[i], api.purpose.strict);
      r := api.DeleteMember(p, ids[i]);
      if r.Err? {
        return;
      }
      done := done + {ids[i]};
    }
    r := Ok(());
  }

  lemma SameMembers(c: Cloud, monitors: set<Id>, p: Id)
    ensures MembersOf(Stripped(c, monitors, {}), p) == MembersOf(c, p)
  {
    assert Stripped(c, monitors, {}).members == c.members;
  }

  lemma StrippedPoolGoes(c: Cloud, e: Id, p: Id, members: set<Id>, strict: bool)
    requires PoolOn(c, p, e) && members <= MembersOf(c, p)
    ensures var c' := Stripped(c, MonitorsOf(c, p), members);
      && p in c'.pools
      && DropPool(c', p) == DropPool(c, p)
      && MonitorsOf(c', p) == {}
      && (members == MembersOf(c, p) ==> MembersOf(c', p) == {})
      && (members == MembersOf(c, p) || !strict ==> TearStep(c', DropPool(c', p), e, strict))
  {
    var c' := Stripped(c, MonitorsOf(c, p), members);
    assert PoolOn(c', p, e) && MonitorsOf(c', p) == {};
    assert MembersOf(c', p) == MembersOf(c, p) - members;
    assert DropPool(c', p).members == DropPool(c, p).members;
  }

  /** Empties pool `p` and deletes it. */
  method ClearPool(api: Api, e: Id, p: Id) returns (r: Result<()>)
    requires api.Valid() && api.purpose.TearDown? && api.purpose.gone == e && PoolOn(api.c, p, e)
    requires api.purpose.strict ==> |MembersOf(api.c, p)| <= LIST_LIMIT
    modifies api`c, api`trail, api`faults
    ensures api.Valid()
    ensures r.Ok? ==> api.c == DropPool(old(api.c), p) && api.faults == old(api.faults)
    ensures r.Err? ==> r.error == Other
    ensures r.Err? && (api.cascade || api.purpose.strict) ==> api.faults == old(api.faults) + 1
  {
    hide Api.Valid, Stripped, TearStep, DropPool, MonitorsOf, MembersOf;
    ghost var before := api.c;
    r := ClearMonitors(api, e, p);
    if r.Err? {
      return;
    }
    ghost var done;
    r, done := ClearMembers(api, e, p, before, MonitorsOf(before, p));
    if r.Err? {
      return;
    }
    StrippedPoolGoes(before, e, p, done, api.purpose.strict);
    r := api.DeletePool(p);
  }

  /** Every pool of the ELB fits on one page of its member list. */
  ghost predicate AllSmall(c: Cloud, e: Id) {
    forall p :: p in PoolsOf(c, e) ==> |MembersOf(c, p)| <= LIST_LIMIT
  }

  lemma PoolGone(c: Cloud, e: Id, p: Id)
    requires p in PoolsOf(c, e)
    ensures var c' := DropPool(c, p);
      && c'.elbs == c.elbs
      && PoolsOf(c', e) == PoolsOf(c, e) - {p}
      && (AllSmall(c, e) ==> AllSmall(c', e))
  {
    var c' := DropPool(c, p);
    SetsAfterDropPool(c, p, e);
    forall q | q in PoolsOf(c', e)
      ensures MembersOf(c', q) == MembersOf(c, q)
    {
    }
  }

  method ClearPools(api: Api, e: Id) returns (r: Result<()>)
    requires api.Valid() && api.purpose.TearDown? && api.purpose.gone == e
    requires api.purpose.strict ==> AllSmall(api.c, e)
    modifies api`c, api`trail, api`faults
    ensures api.Valid()
    ensures r.Ok? ==> PoolsOf(api.c, e) == {} && api.c.elbs == old(api.c.elbs) && api.faults == old(api.faults)
    ensures r.Err? ==> r.error == Other
    ensures r.Err? && (api.cascade || api.purpose.strict) ==> api.faults == old(api.faults) + 1
  {
    hide Api.Valid, TearStep, DropPool, MembersOf, AllSmall;
    var listed := api.ListPools(e);
    if listed.Err? {
      return Err(listed.error);
    }
    var ids := listed.value.ids;
    for i := 0 to |ids|
      invariant api.Valid() && api.faults == old(api.faults)
      invariant PoolsOf(api.c, e) == set j | i <= j < |ids| :: ids[j]
      invariant api.purpose.strict ==> AllSmall(api.c, e)
      invariant api.c.elbs == old(api.c.elbs)
    {
      assert ids[i] in PoolsOf(api.c, e);
      PoolGone(api.c, e, ids[i]);
      PoolIsSmall(api.c, e, ids[i]);
      r := ClearPool(api, e, ids[i]);
      if r.Err? {
        return;
      }
    }
    r := Ok(());
  }

  lemma PoolIsSmall(c: Cloud, e: Id, p: Id)
    requires p in PoolsOf(c, e)
    ensures PoolOn(c, p, e)
    ensures AllSmall(c, e) ==> |MembersOf(c, p)| <= LIST_LIMIT
  {
  }

  lemma ListenerGone(c: Cloud, e: Id, l: Id, strict: bool)
    requires l in ListenersOf(c, e) && PoolsOf(c, e) == {}
    ensures var c' := DropListener(c, l);
      && c'.elbs == c.elbs
      && ListenersOf(c', e) == ListenersOf(c, e) - {l}
      && PoolsOf(c', e) == {}
      && PoolsAt(c, l) == {}
      && TearStep(c, c', e, strict)
  {
    var c' := DropListener(c, l);
    assert ListenersOf(c', e) == ListenersOf(c, e) - {l};
    forall p | p in c.pools
      ensures c.pools[p].listener != l
    {
      assert p !in PoolsOf(c, e);
    }
    forall p | p in c'.pools
      ensures !PoolOn(c', p, e)
    {
      assert p !in PoolsOf(c, e);
    }
    assert ListenerOn(c, l, e);
  }

  method ClearListeners(api: Api, e: Id) returns (r: Result<()>)
    requires api.Valid() && api.purpose.TearDown? && api.purpose.gone == e && PoolsOf(api.c, e) == {}
    modifies api`c, api`trail, api`faults
    ensures api.Valid()
    ensures r.Ok? ==> ListenersOf(api.c, e) == {} && api.c.elbs == old(api.c.elbs) && api.faults == old(api.faults)
    ensures r.Err? ==> r.error == Other && api.faults == old(api.faults) + 1
  {
    hide Api.Valid, TearStep, DropListener, PoolsOf, PoolsAt;
    var listed := api.ListListeners(e);
    if listed.Err? {
      return Err(listed.error);
    }
    var ids := listed.value.ids;
    for i := 0 to |ids|
      invariant api.Valid() && api.faults == old(api.faults)
      invariant ListenersOf(api.c, e) == set j | i <= j < |ids| :: ids[j]
      invariant PoolsOf(api.c, e) == {}
      invariant api.c.elbs == old(api.c.elbs)
    {
      assert ids[i] in ListenersOf(api.c, e);
      ListenerGone(api.c, e, ids[i], api.purpose.strict);
      r := api.DeleteListener(ids[i]);
      if r.Err? {
        return;
      }
    }
    r := Ok(());
  }

  lemma CallsTear(api: Api, e: Id, strict: bool)
    requires api.Valid() && api.purpose == TearDown(e, strict)
    ensures Without(api.c, e) == Without(api.origin, e)
    ensures Remaining(api.c, e) + |api.trail| <= Remaining(api.origin, e)
    ensures strict ==> Remaining(api.c, e) + |api.trail| == Remaining(api.origin, e)
  {
    TearRunShrinks(api.Points(), 0, e, strict);
  }

  lemma LastStep(c: Cloud, e: Id, strict: bool)
    requires WF(c) && ListenersOf(c, e) == {} && e in c.elbs
    ensures TearStep(c, DropElb(c, e), e, strict) && e !in DropElb(c, e).elbs
  {
  }

  /** Deletes ELB `e` with everything below it, children first, whether or not the cloud cascades.
      Wherever it stops, nothing outside `e` was touched and what remains has shrunk by one per
      call; on success exactly `e` and what hung below it is gone. NotFound means it was gone. */
  method DeleteELBStack(api: Api, e: Id) returns (r: Result<()>)
    requires api.Valid()
    modifies api
    ensures api.Valid() && api.purpose == TearDown(e, AllSmall(old(api.c), e)) && api.origin == old(api.c)
    ensures Without(api.c, e) == Without(old(api.c), e)
    ensures Remaining(api.c, e) + |api.trail| <= Remaining(old(api.c), e)
    ensures AllSmall(old(api.c), e) ==> Remaining(api.c, e) + |api.trail| == Remaining(old(api.c), e)
    ensures r.Ok? ==> api.c == Without(old(api.c), e) && e in old(api.c.elbs) && api.faults == old(api.faults)
    ensures r.Err? && r.error == NotFound ==>
      e !in old(api.c.elbs) && api.c == old(api.c) && api.faults == old(api.faults)
    ensures r.Err? && r.error == Other && (api.cascade || AllSmall(old(api.c), e)) ==> api.faults == old(api.faults) + 1
  {
    hide Api.Valid, TearStep, Without, Remaining, AllSmall, DropElb, WF, PoolsOf, ListenersOf;
    ghost var before, strict := api.c, AllSmall(api.c, e);
    api.Begin(TearDown(e, strict));
    api.Intact();
    r := ClearPools(api, e);
    if r.Ok? {
      r := ClearListeners(api, e);
      if r.Ok? {
        api.Intact();
        if e in api.c.elbs {
          LastStep(api.c, e, strict);
        }
        r := api.DeleteELB(e);
      }
    }
    CallsTear(api, e, strict);
    api.Intact();
    if e !in api.c.elbs {
      NothingLeft(api.c, e);
    }
    if e !in before.elbs {
      NothingLeft(before, e);
      api.NoCallNoChange();
    }
  }
}
