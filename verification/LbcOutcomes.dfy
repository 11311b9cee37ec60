/** Whom the LoadBalancerConfig reconciler works for: it leaves alone the configs that are none of its
    business, provides all others with an ELB, and lets those go that are being deleted. */
module LbcOutcomes {
  import opened Common
  import opened LbcProtocol
  import opened LbcLimits

  // ---------------------------------------------------------------------------
  // Configs that are left alone
  // ---------------------------------------------------------------------------

  /** A parameter template for Services, or a config to be skipped that has no network parameters. */
  predicate Alien(l: Lbc) {
    l.template || (l.skipped && !l.detected)
  }

  /** The config is like that whenever it exists. */
  ghost predicate AlwaysAlien(run: seq<World>, k: Key) {
    forall i :: 0 <= i < |run| ==> AlienAt(run[i], k)
  }

  predicate AlienAt(w: World, k: Key) {
    k in w.locals && w.locals[k].lbc.Some? ==> Alien(w.locals[k].lbc.value)
  }

  /** The process rests, and the config is as its users have left it. */
  predicate Untouched(l: Local) {
    l.pc.Idle?
    && (l.lbc.Some? ==> !l.lbc.value.finalizer && !l.lbc.value.deleting && l.lbc.value.elb.None?)
  }

  /** ... and nobody has created an ELB of its name. */
  ghost predicate LeftAlone(w: World, k: Key) {
    && (k in w.locals ==> Untouched(w.locals[k]))
    && (Alone(w, k) ==> forall e :: !Live(k, w.cloud, e))
  }

  lemma OwnLeaves(k: Key, c: Cloud, l: Local, c': Cloud, l': Local)
    requires Untouched(l) && (l.lbc.Some? ==> Alien(l.lbc.value)) && Happens(k, c, l, c', l')
    ensures Untouched(l') && c'.elbs == c.elbs
  {
  }

  lemma NewcomerLeaves(w: World, n: Key, k: Key)
    requires Inv(w) && LeftAlone(w, k) && n !in w.locals
    ensures LeftAlone(w.(locals := w.locals[n := NOTHING]), k)
  {
    hide ElbName, KInv, SoleInv;
    var w' := w.(locals := w.locals[n := NOTHING]);
    if Alone(w', k) {
      assert Alone(w, k);
    }
  }

  lemma OtherLeaves(w: World, j: Key, c': Cloud, l': Local, k: Key)
    requires Inv(w) && LeftAlone(w, k) && j in w.locals && j != k && Happens(j, w.cloud, w.locals[j], c', l')
    ensures LeftAlone(World(c', w.locals[j := l']), k)
  {
    hide ElbName, KInv, SoleInv, Happens;
    OwnKeeps(j, w.cloud, w.locals[j], c', l');
    var w' := World(c', w.locals[j := l']);
    if Alone(w', k) {
      assert j in w'.locals;
      assert Alone(w, k);
      forall e
        ensures !Live(k, c', e)
      {
        assert !Live(k, w.cloud, e);
      }
    }
  }

  lemma NextLeaves(w: World, w': World, k: Key)
    requires Inv(w) && Next(w, w') && LeftAlone(w, k) && AlienAt(w, k)
    ensures LeftAlone(w', k)
  {
    hide ElbName, Inv, Happens, LeftAlone, Moves, Disturbs;
    if n :| n !in w.locals && w' == w.(locals := w.locals[n := NOTHING]) {
      NewcomerLeaves(w, n, k);
    } else {
      var j, c', l' :| StepsAt(w, j, c', l') && w' == World(c', w.locals[j := l']);
      StepHappens(w, j, c', l');
      if j == k {
        OwnStepLeaves(w, k, c', l');
      } else {
        OtherLeaves(w, j, c', l', k);
      }
    }
  }

  lemma OwnStepLeaves(w: World, k: Key, c': Cloud, l': Local)
    requires LeftAlone(w, k) && AlienAt(w, k) && k in w.locals && Happens(k, w.cloud, w.locals[k], c', l')
    ensures LeftAlone(World(c', w.locals[k := l']), k)
  {
    hide ElbName, Happens, Alien;
    OwnLeaves(k, w.cloud, w.locals[k], c', l');
    var w' := World(c', w.locals[k := l']);
    if Alone(w', k) {
      assert Alone(w, k);
      forall e
        ensures !Live(k, c', e)
      {
        assert !Live(k, w.cloud, e);
      }
    }
  }

  /** In every run, a config that is a template, or skipped without network parameters, in every state
      in which it exists, never gets the finalizer or an ELB ID, its process never does anything, and
      there is never an ELB of its name, if nobody else prints that name. */
  lemma {:induction false} AliensAreLeftAlone(run: seq<World>, i: nat, k: Key)
    requires Reachable(run) && AlwaysAlien(run, k) && i < |run|
    ensures k in run[i].locals ==> run[i].locals[k].pc.Idle?
    ensures k in run[i].locals && run[i].locals[k].lbc.Some? ==>
      !run[i].locals[k].lbc.value.finalizer && run[i].locals[k].lbc.value.elb.None?
    ensures Alone(run[i], k) ==> forall e :: !Live(k, run[i].cloud, e)
    ensures LeftAlone(run[i], k)
  {
    if i > 0 {
      hide Inv, Next, LeftAlone, Alone, Live;
      AliensAreLeftAlone(run, i - 1, k);
      RunsKeep(run, i - 1);
      assert AlienAt(run[i - 1], k);
      NextLeaves(run[i - 1], run[i], k);
      LeftAloneMeans(run[i], k);
    }
  }

  lemma LeftAloneMeans(w: World, k: Key)
    requires LeftAlone(w, k)
    ensures k in w.locals ==> Untouched(w.locals[k])
    ensures Alone(w, k) ==> forall e :: !Live(k, w.cloud, e)
  {
    hide ElbName;
  }

  // ---------------------------------------------------------------------------
  // All others
  // ---------------------------------------------------------------------------

  /** The world with another cloud and another state of one key. */
  function With(w: World, k: Key, c: Cloud, l: Local): World {
    World(c, w.locals[k := l])
  }

  lemma FromHere(w: World)
    ensures From(w, [w]) && Last([w]) == w
  {
  }

  lemma Goes(w: World, more: seq<World>, k: Key, c': Cloud, l': Local) returns (longer: seq<World>)
    requires From(w, more) && StepsAt(Last(more), k, c', l')
    ensures From(w, longer) && Last(longer) == With(Last(more), k, c', l')
  {
    longer := OneMore(w, more, k, c', l');
  }

  /** The config is to be provided with an ELB and does not have one. */
  predicate Due(l: Lbc) {
    !Alien(l) && !l.deleting && l.elb.None?
  }

  /** First it gets its network parameters and the finalizer. */
  lemma GetsReady(w: World, k: Key, l: Lbc) returns (more: seq<World>, l': Lbc)
    requires k in w.locals && w.locals[k] == Local(Some(l), Idle) && Due(l)
    ensures From(w, more) && Last(more) == With(w, k, w.cloud, Local(Some(l'), Idle))
    ensures Due(l') && l'.detected && l'.finalizer
  {
    hide From;
    var c := w.cloud;
    FromHere(w);
    more, l' := [w], l;
    if !l.detected {
      l' := l.(detected := true, ready := false, finalizer := true);
      more := Goes(w, more, k, c, Local(Some(l), Detect));
      more := Goes(w, more, k, c, Local(Some(l'), Idle));
    } else if !l.finalizer {
      l' := l.(finalizer := true);
      more := Goes(w, more, k, c, Local(Some(l), AddFinalizer));
      more := Goes(w, more, k, c, Local(Some(l'), Idle));
    }
  }

  /** Then an ELB of its name is found and recorded, or one is created and recorded. */
  lemma GetsElb(w: World, k: Key, l: Lbc, before: World, run: seq<World>) returns (more: seq<World>, e: Id)
    requires From(before, run) && Last(run) == w
    requires k in w.locals && w.locals[k] == Local(Some(l), Idle) && Due(l) && l.detected && l.finalizer
    requires forall x :: x in w.cloud.elbs ==> x < w.cloud.next
    ensures var l' := Local(Some(l.(elb := Some(Some(e)))), Idle);
      var c' := if Live(k, w.cloud, e) then w.cloud else Born(k, w.cloud);
      From(before, more) && Last(more) == With(w, k, c', l') && Live(k, c', e)
    ensures !Live(k, w.cloud, e) ==> forall x :: !Live(k, w.cloud, x)
  {
    hide From, ElbName;
    var c := w.cloud;
    more := Goes(before, run, k, c, Local(Some(l), Find));
    if x :| Live(k, c, x) {
      e := x;
      assert Found(c, ElbName(k), Some(e)) && FoundPC(Some(e)) == Record(e);
    } else {
      e := c.next;
      assert Found(c, ElbName(k), None) by {
        assert forall x :: x in c.elbs && c.elbs[x] == ElbName(k) ==> Live(k, c, x);
      }
      assert FoundPC(None) == Create;
      more := Goes(before, more, k, c, Local(Some(l), Create));
      c := Born(k, c);
    }
    more := Goes(before, more, k, c, Local(Some(l), Record(e)));
    more := Goes(before, more, k, c, Local(Some(l.(elb := Some(Some(e)))), Idle));
  }

  /** Any other config that is ordered and not deleted comes, from wherever its process rests, to the
      finalizer and a recorded live ELB of its name by calls of this process alone: an ELB of the name
      that is there is recorded, else one is created. */
  lemma OthersAreProvided(w: World, k: Key) returns (more: seq<World>, l: Lbc, e: Id)
    requires Inv(w) && k in w.locals && w.locals[k].pc.Idle?
    requires w.locals[k].lbc.Some? && Due(w.locals[k].lbc.value)
    ensures l.finalizer && l.elb == Some(Some(e))
    ensures var c' := if Live(k, w.cloud, e) then w.cloud else Born(k, w.cloud);
      From(w, more) && Last(more) == With(w, k, c', Local(Some(l), Idle)) && Live(k, c', e)
    ensures !Live(k, w.cloud, e) ==> forall x :: !Live(k, w.cloud, x)
  {
    Bounded(w);
    var ready;
    more, ready := GetsReady(w, k, w.locals[k].lbc.value);
    hide From, ElbName, Inv, Live, Born, Due;
    more, e := GetsElb(Last(more), k, ready, w, more);
    l := ready.(elb := Some(Some(e)));
  }

  lemma Bounded(w: World)
    requires Inv(w)
    ensures forall e :: e in w.cloud.elbs ==> e < w.cloud.next
  {
    hide KInv, SoleInv, ElbName;
  }

  /** A config that is being deleted goes, and its recorded ELB with it, once that has no listeners, by
      calls of its own process alone. */
  lemma DeletedOnesGo(w: World, k: Key) returns (more: seq<World>)
    requires Inv(w) && k in w.locals && w.locals[k].pc.Idle?
    requires w.locals[k].lbc.Some? && w.locals[k].lbc.value.deleting && w.locals[k].lbc.value.finalizer
    requires forall e :: Records(w.locals[k], e) ==> e !in w.cloud.busy
    ensures From(w, more) && Last(more) == With(w, k, Last(more).cloud, NOTHING)
    ensures forall e :: e in Last(more).cloud.elbs <==> e in w.cloud.elbs && !Records(w.locals[k], e)
  {
    hide From, ElbName, Inv;
    FromHere(w);
    var c, l := w.cloud, w.locals[k].lbc.value;
    more := [w];
    if ElbId(l).Some? {
      var e := ElbId(l).value;
      assert Records(w.locals[k], e);
      more := Goes(w, more, k, c, Local(Some(l), Tear(e)));
      c := if e in c.elbs then c.(elbs := c.elbs - {e}) else c;
    }
    more := Goes(w, more, k, c, Local(Some(l), Release(l)));
    more := Goes(w, more, k, c, NOTHING);
  }
}
