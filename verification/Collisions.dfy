/** What happens if two keys print the same IP group name: the cleanup of one deletes the group that
    guards the ELB of the other. */
module Collisions {
  import opened Common
  import opened Naming
  import opened CloudModel
  import opened Steps
  import opened Protocol
  import opened Safety
  import opened Discipline
  import opened Promises
  import opened Continuations
  import opened AclLimits

  /** A step that is disciplined for key `j` but for the group names of the others. */
  ghost predicate Mannerly(j: Key, w: World, w': World) {
    || (exists k :: k !in w.locals && w' == w.(locals := w.locals[k := NOTHING]))
    || (exists i, c', l' :: CalmStep(j, w, i, c', l') && w' == World(c', w.locals[i := l']))
  }

  ghost predicate MannerlyRun(j: Key, run: seq<World>) {
    && |run| > 0 && run[0] == START
    && forall a, b | 0 <= a && b == a + 1 && b < |run| :: Mannerly(j, run[a], run[b])
  }

  ghost predicate Among(run: seq<World>, keys: set<Key>) {
    forall w :: w in run ==> w.locals.Keys <= keys
  }

  /** A listener of an ELB of key `j` is bound to a group that does not exist. */
  ghost predicate Dangles(w: World, j: Key) {
    j in w.locals && exists x :: DanglesAt(w, j, x)
  }

  predicate DanglesAt(w: World, j: Key, x: Id)
    requires j in w.locals
  {
    && x in w.cloud.listeners && w.cloud.listeners[x].acl.Some?
    && Tracked(w.cloud, w.locals[j], w.cloud.listeners[x].elb)
    && w.cloud.listeners[x].acl.value !in w.cloud.groups
  }

  // ---------------------------------------------------------------------------
  // Without a collision
  // ---------------------------------------------------------------------------

  lemma CalmWithoutCollision(run: seq<World>, j: Key, k: Key)
    requires MannerlyRun(j, run) && Among(run, {j, k}) && GroupName(j) != GroupName(k)
    ensures CalmRun(j, run)
  {
    hide GroupName;
    forall a, b | 0 <= a && b == a + 1 && b < |run|
      ensures Calm(j, run[a], run[b])
    {
      assert Mannerly(j, run[a], run[b]) && run[a] in run && run[b] in run;
      CalmStepWithoutCollision(run[a], run[b], j, k);
    }
  }

  lemma CalmStepWithoutCollision(w: World, w': World, j: Key, k: Key)
    requires Mannerly(j, w, w') && w.locals.Keys <= {j, k} && w'.locals.Keys <= {j, k} && GroupName(j) != GroupName(k)
    ensures Calm(j, w, w')
  {
    hide GroupName, CalmStep;
    if n :| n !in w.locals && w' == w.(locals := w.locals[n := NOTHING]) {
      assert n in w'.locals;
      assert Newcomer(j, w, n);
    }
  }

  lemma NothingDangles(run: seq<World>, j: Key)
    requires CalmRun(j, run)
    ensures !Dangles(Last(run), j)
  {
    hide CalmRun, Tracked, GroupName;
    assert |run| > 0 by {
      RunIsFrom(j, run);
    }
    if Dangles(Last(run), j) {
      var x :| DanglesAt(Last(run), j, x);
      NoDanglingAcl(run, |run| - 1, j, x);
    }
  }

  // ---------------------------------------------------------------------------
  // With one
  // ---------------------------------------------------------------------------

  lemma MannerlyOn(j: Key, run: seq<World>, keys: set<Key>, w': World)
    requires MannerlyRun(j, run) && Among(run, keys) && Mannerly(j, Last(run), w') && w'.locals.Keys <= keys
    ensures MannerlyRun(j, run + [w']) && Among(run + [w'], keys)
  {
    hide Mannerly;
    var longer := run + [w'];
    forall a, b | 0 <= a && b == a + 1 && b < |longer|
      ensures Mannerly(j, longer[a], longer[b])
    {
      if b < |run| {
        assert Mannerly(j, run[a], run[b]);
      }
    }
  }

  lemma CalmIsMannerly(j: Key, run: seq<World>)
    requires CalmRun(j, run)
    ensures MannerlyRun(j, run)
  {
    forall a, b | 0 <= a && b == a + 1 && b < |run|
      ensures Mannerly(j, run[a], run[b])
    {
      assert Calm(j, run[a], run[b]);
      hide CalmStep;
    }
  }

  /** The steps of key `k` beside key `j`. */
  lemma Second(run: seq<World>, j: Key, m: Local, k: Key, c: Cloud, l: Local, c': Cloud, l': Local)
      returns (longer: seq<World>)
    requires j != k && MannerlyRun(j, run) && Among(run, {j, k}) && Last(run) == World(c, map[j := m, k := l])
    requires CalmStep(j, World(c, map[j := m, k := l]), k, c', l')
    ensures MannerlyRun(j, longer) && Among(longer, {j, k}) && Last(longer) == World(c', map[j := m, k := l'])
  {
    hide CalmStep;
    var w, w' := World(c, map[j := m, k := l]), World(c', map[j := m, k := l']);
    assert w.locals[k := l'] == w'.locals;
    assert Mannerly(j, w, w');
    MannerlyOn(j, run, {j, k}, w');
    longer := run + [w'];
  }

  /** Key `k` comes up beside key `j`. */
  lemma ComesUp(run: seq<World>, j: Key, m: Local, k: Key, c: Cloud) returns (longer: seq<World>)
    requires j != k && CalmRun(j, run) && Among(run, {j}) && Last(run) == World(c, map[j := m])
    ensures MannerlyRun(j, longer) && Among(longer, {j, k}) && Last(longer) == World(c, map[j := m, k := NOTHING])
  {
    var w, w' := World(c, map[j := m]), World(c, map[j := m, k := NOTHING]);
    assert w.locals[k := NOTHING] == w'.locals && w' == w.(locals := w.locals[k := NOTHING]) && k !in w.locals;
    assert Mannerly(j, w, w');
    hide Calm, Mannerly;
    CalmIsMannerly(j, run);
    MannerlyOn(j, run, {j, k}, w');
    longer := run + [w'];
  }

  /** A step only adds keys. */
  lemma KeysGrow(j: Key, w: World, w': World)
    requires Calm(j, w, w')
    ensures w.locals.Keys <= w'.locals.Keys
  {
    hide CalmStep;
    if k :| Newcomer(j, w, k) && w' == w.(locals := w.locals[k := NOTHING]) {
    }
  }

  lemma {:induction false} EndsAmong(j: Key, run: seq<World>, keys: set<Key>, i: nat)
    requires CalmRun(j, run) && i < |run| && Last(run).locals.Keys <= keys
    ensures run[i].locals.Keys <= keys
    decreases |run| - i
  {
    hide Calm;
    if i + 1 < |run| {
      EndsAmong(j, run, keys, i + 1);
      assert Calm(j, run[i], run[i + 1]);
      KeysGrow(j, run[i], run[i + 1]);
    }
  }

  const FIRST := Svc("0123456789", map[], ["10.0.0.0/8"], true, true, false)
  const SECOND := Svc("abcdefghij", map[], [], true, true, false)

  lemma FirstIsNotSecond(j: Key, k: Key)
    ensures Tag(FIRST.uid) != Tag(SECOND.uid) && ElbName(j, FIRST) != ElbName(k, SECOND)
  {
    assert Tag(FIRST.uid) == "0123456789" && Tag(SECOND.uid) == "abcdefghij";
    assert Tag(FIRST.uid)[0] != Tag(SECOND.uid)[0];
    NamesDiffer(j, FIRST, k, SECOND);
  }

  /** The cleanup of key `k`, which has never had anything, up to the deletion of the group. */
  lemma CleansUpTheOther(past: seq<World>, j: Key, m: Local, k: Key, c: Cloud) returns (run: seq<World>)
    requires j != k && m.tags == {Tag(FIRST.uid)} && c.elbs == map[0 := ElbName(j, FIRST)]
    requires MannerlyRun(j, past) && Among(past, {j, k}) && Last(past) == World(c, map[j := m, k := NOTHING])
    requires 2 in c.groups && c.groups[2].name == GroupName(k)
    ensures MannerlyRun(j, run) && Among(run, {j, k})
    ensures Last(run).cloud == DropGroup(c, 2) && Last(run).locals.Keys == {j, k} && Last(run).locals[j] == m
  {
    FirstIsNotSecond(j, k);
    var t := SECOND.(deleting := true);
    var l := Local(Some(SECOND), None, Idle, {Tag(SECOND.uid)});
    var d := l.(svc := Some(t));
    SameElbName(k, t);
    assert Found(c, ElbName(k, t), None) && FoundGroup(c, GroupName(k), Some(2));
    hide ElbName, Tag, GroupName, MannerlyRun, Among, DropGroup, Moves, Found, FoundGroup;
    run := Second(past, j, m, k, c, NOTHING, c, l);
    run := Second(run, j, m, k, c, l, c, d);
    run := DropsTheGroup(run, j, m, k, c, d, t);
  }

  lemma DropsTheGroup(past: seq<World>, j: Key, m: Local, k: Key, c: Cloud, d: Local, t: Svc) returns (run: seq<World>)
    requires j != k && MannerlyRun(j, past) && Among(past, {j, k}) && Last(past) == World(c, map[j := m, k := d])
    requires d.svc == Some(t) && d.binding.None? && d.pc.Idle? && t.lb && t.deleting
    requires Found(c, ElbName(k, t), None) && FoundGroup(c, GroupName(k), Some(2))
    ensures MannerlyRun(j, run) && Among(run, {j, k})
    ensures Last(run).cloud == DropGroup(c, 2) && Last(run).locals.Keys == {j, k} && Last(run).locals[j] == m
  {
    hide ElbName, GroupName, MannerlyRun, Among, DropGroup, Moves, Found, FoundGroup, Disturbs, Polite;
    CleanupMoves(k, c, d, t);
    DropMoves(k, c, d, t);
    run := Second(past, j, m, k, c, d, c, d.(pc := Deleting(t)));
    run := Second(run, j, m, k, c, d.(pc := Deleting(t)), c, d.(pc := CleanFind(t, None)));
    run := Second(run, j, m, k, c, d.(pc := CleanFind(t, None)), c, d.(pc := GroupFind(t, None)));
    run := Second(run, j, m, k, c, d.(pc := GroupFind(t, None)), c, d.(pc := GroupDrop(Some(t), None, 2)));
    run := Second(run, j, m, k, c, d.(pc := GroupDrop(Some(t), None, 2)), DropGroup(c, 2),
      d.(pc := Release(Some(t), None)));
  }

  lemma CleanupMoves(k: Key, c: Cloud, d: Local, t: Svc)
    requires d.svc == Some(t) && d.binding.None? && d.pc.Idle? && t.lb && t.deleting
    requires Found(c, ElbName(k, t), None)
    ensures Moves(k, c, d, c, d.(pc := Deleting(t)))
    ensures Moves(k, c, d.(pc := Deleting(t)), c, d.(pc := CleanFind(t, None)))
    ensures Moves(k, c, d.(pc := CleanFind(t, None)), c, d.(pc := GroupFind(t, None)))
  {
    hide ElbName, Found;
    assert CleanStart(Some(t), None) == CleanFind(t, None);
    assert CleanFound(t, None, None) == GroupFind(t, None);
  }

  lemma DropMoves(k: Key, c: Cloud, d: Local, t: Svc)
    requires FoundGroup(c, GroupName(k), Some(2))
    ensures Moves(k, c, d.(pc := GroupFind(t, None)), c, d.(pc := GroupDrop(Some(t), None, 2)))
    ensures Moves(k, c, d.(pc := GroupDrop(Some(t), None, 2)), DropGroup(c, 2), d.(pc := Release(Some(t), None)))
  {
    hide GroupName, FoundGroup, DropGroup;
    assert GroupFound(t, None, Some(2)) == GroupDrop(Some(t), None, 2);
  }

  lemma SameElbName(k: Key, t: Svc)
    requires t == SECOND.(deleting := true)
    ensures ElbName(k, t) == ElbName(k, SECOND)
  {
  }

  lemma CollisionDangles(j: Key, k: Key) returns (run: seq<World>)
    requires j != k && GroupName(j) == GroupName(k)
    ensures MannerlyRun(j, run) && Among(run, {j, k}) && Dangles(Last(run), j)
  {
    hide ElbName, GroupName, Mannerly, Tag, Calm;
    var m := Recording(FIRST, None);
    var c;
    run, c := GroupEnabled(j, FIRST);
    OnlyFirst(run, j);
    run := ComesUp(run, j, m, k, c);
    run := CleansUpTheOther(run, j, m, k, c);
    assert DanglesAt(Last(run), j, 1);
  }

  lemma OnlyFirst(run: seq<World>, j: Key)
    requires CalmRun(j, run) && Last(run).locals.Keys == {j}
    ensures Among(run, {j})
  {
    forall w | w in run
      ensures w.locals.Keys <= {j}
    {
      var i :| 0 <= i < |run| && run[i] == w;
      EndsAmong(j, run, {j}, i);
    }
  }

  /** Two keys can come to a listener bound to a group that is gone, in a run that is disciplined
      for the first of them otherwise, if and only if they print the same group name. */
  lemma DanglesIffCollides(j: Key, k: Key)
    requires j != k
    ensures (exists run :: MannerlyRun(j, run) && Among(run, {j, k}) && Dangles(Last(run), j)) <==>
      GroupName(j) == GroupName(k)
  {
    hide Mannerly, Among, Dangles, GroupName;
    if GroupName(j) == GroupName(k) {
      var run := CollisionDangles(j, k);
      assert MannerlyRun(j, run) && Among(run, {j, k}) && Dangles(Last(run), j);
    } else {
      forall run | MannerlyRun(j, run) && Among(run, {j, k})
        ensures !Dangles(Last(run), j)
      {
        CalmWithoutCollision(run, j, k);
        NothingDangles(run, j);
      }
    }
  }
}
