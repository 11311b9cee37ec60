/** The legacy LoadBalancerConfig reconciler (internal/controller/loadbalancerconfig_controller.go)
    as a second, smaller state machine: one process per LoadBalancerConfig, interrupted anywhere. */
module LbcProtocol {
  import opened Common
  import Naming

  type Id = nat

  datatype Key = Key(namespace: string, name: string)

  const PREFIX := "huawei-elb.io/"
  const ELB_ID_KEY := "huawei-elb.io/elb-id"

  /** A LoadBalancerConfig. `template`: spec.annotations has a key under PREFIX other than the ELB
      ID; `elb`: the ELB ID key, absent, empty, or an ID; `skipped`: autocreate, foreign, still
      unconfigured or too young; `detected`: the network parameters are in metadata.annotations. */
  datatype Lbc = Lbc(template: bool, elb: Option<Option<Id>>, skipped: bool, detected: bool, ready: bool,
    finalizer: bool, deleting: bool)

  datatype PC =
    | Idle
    | Detect
    | AddFinalizer
    | Find
    | Create
    | Record(e: Id)
    | Verify(e: Id)
    | Tear(e: Id)
    | Release(l: Lbc)

  datatype Local = Local(lbc: Option<Lbc>, pc: PC)

  /** `busy` are ELBs with listeners, which the cloud does not delete. */
  datatype Cloud = Cloud(elbs: map<Id, string>, busy: set<Id>, next: Id)

  datatype World = World(cloud: Cloud, locals: map<Key, Local>)

  /** elbNameForLBC. */
  function ElbName(k: Key): (name: string)
    ensures |name| <= 64
  {
    Naming.Truncate("elb-" + k.namespace + "-" + k.name, 64)
  }

  lemma NameByExample()
    ensures ElbName(Key("db", "main")) == "elb-db-main"
  {
  }

  /** What every name from this namespace starts with, as far as it is not cut. */
  function Head(namespace: string): string {
    Naming.Truncate("elb-" + namespace + "-", 64)
  }

  lemma HeadOfName(k: Key)
    ensures Head(k.namespace) <= ElbName(k)
  {
    var p := "elb-" + k.namespace + "-";
    assert "elb-" + k.namespace + "-" + k.name == p + k.name;
    assert p <= p + k.name;
  }

  lemma PrefixesCompare(a: string, b: string, whole: string)
    requires a <= whole && b <= whole
    ensures a <= b || b <= a
  {
    if |a| <= |b| {
      assert a == whole[..|a|] == b[..|a|];
    } else {
      assert b == whole[..|b|] == a[..|b|];
    }
  }

  /** Configs of two namespaces can print the same ELB name, if and only if what their names start
      with, cut at 64 characters, is for one a prefix of that for the other. */
  lemma ElbNamesCollideIff(ns1: string, ns2: string)
    ensures (exists n1, n2 :: n1 != "" && n2 != "" && ElbName(Key(ns1, n1)) == ElbName(Key(ns2, n2)))
       <==> Head(ns1) <= Head(ns2) || Head(ns2) <= Head(ns1)
  {
    if n1, n2 :| n1 != "" && n2 != "" && ElbName(Key(ns1, n1)) == ElbName(Key(ns2, n2)) {
      HeadOfName(Key(ns1, n1));
      HeadOfName(Key(ns2, n2));
      PrefixesCompare(Head(ns1), Head(ns2), ElbName(Key(ns1, n1)));
    }
    if Head(ns1) <= Head(ns2) {
      HeadCollides(ns1, ns2);
    } else if Head(ns2) <= Head(ns1) {
      HeadCollides(ns2, ns1);
    }
  }

  lemma HeadCollides(ns1: string, ns2: string)
    requires Head(ns1) <= Head(ns2)
    ensures exists n1, n2 :: n1 != "" && n2 != "" && ElbName(Key(ns1, n1)) == ElbName(Key(ns2, n2))
    ensures exists n1, n2 :: n1 != "" && n2 != "" && ElbName(Key(ns2, n1)) == ElbName(Key(ns1, n2))
  {
    var p1, p2 := "elb-" + ns1 + "-", "elb-" + ns2 + "-";
    var n1 := if |p1| >= 64 then "x" else if |p2| >= 64 then p2[|p1|..64] else p2[|p1|..] + "x";
    assert "elb-" + ns1 + "-" + n1 == p1 + n1 && "elb-" + ns2 + "-" + "x" == p2 + "x";
    if |p1| >= 64 {
      assert (p1 + n1)[..64] == p1[..64] == p2[..64] == (p2 + "x")[..64];
    } else if |p2| >= 64 {
      assert p1 + n1 == p2[..64] == (p2 + "x")[..64];
    } else {
      assert p1 + n1 == p2 + "x";
    }
    assert ElbName(Key(ns1, n1)) == ElbName(Key(ns2, "x"));
  }

  // ---------------------------------------------------------------------------
  // The process
  // ---------------------------------------------------------------------------

  /** hasPlan2Annotations: some key under PREFIX. The key of the ELB ID is one itself. */
  predicate IsTemplate(l: Lbc) {
    l.template || l.elb.Some?
  }

  lemma ElbIdKeyIsPrefixed()
    ensures PREFIX <= ELB_ID_KEY
  {
    assert ELB_ID_KEY[..|PREFIX|] == PREFIX;
  }

  function ElbId(l: Lbc): Option<Id> {
    if l.elb.Some? then l.elb.value else None
  }

  /** Where Reconcile goes with the config it has read. */
  function Start(l: Lbc): PC {
    if l.deleting then
      if !l.finalizer then Idle
      else if ElbId(l).Some? then Tear(ElbId(l).value)
      else Release(l)
    else if IsTemplate(l) then Idle
    else if !l.detected then
      if l.skipped then Idle else Detect
    else if !l.finalizer then AddFinalizer
    else
      match ElbId(l)
      case None => Find
      case Some(e) => Verify(e)
  }

  predicate Found(c: Cloud, name: string, r: Option<Id>) {
    match r
    case None => forall e :: e in c.elbs ==> c.elbs[e] != name
    case Some(e) => e in c.elbs && c.elbs[e] == name
  }

  function FoundPC(r: Option<Id>): PC {
    if r.Some? then Record(r.value) else Create
  }

  /** What is left of a config without its finalizer. */
  function Freed(l: Lbc): Option<Lbc> {
    if l.deleting then None else Some(l.(finalizer := false))
  }

  /** A patch of the config, if it still exists, that may fail; either way the process ends. */
  predicate Patch(l: Local, l': Local, lbc': Option<Lbc>) {
    l' == Local(l.lbc, Idle) || (l.lbc.Some? && l' == Local(lbc', Idle))
  }

  ghost predicate Moves(k: Key, c: Cloud, l: Local, c': Cloud, l': Local) {
    match l.pc
    case Idle => c' == c && l.lbc.Some? && l' == l.(pc := Start(l.lbc.value))
    case Detect =>
      c' == c && Patch(l, l',
        if l.lbc.Some? then Some(l.lbc.value.(detected := true, ready := false, finalizer := true)) else None)
    case AddFinalizer =>
      c' == c && Patch(l, l', if l.lbc.Some? then Some(l.lbc.value.(finalizer := true)) else None)
    case Find =>
      c' == c && exists r :: Found(c, ElbName(k), r) && l' == l.(pc := FoundPC(r))
    case Create =>
      c' == c.(elbs := c.elbs[c.next := ElbName(k)], next := c.next + 1) && l' == l.(pc := Record(c.next))
    case Record(e) =>
      c' == c && Patch(l, l', if l.lbc.Some? then Some(l.lbc.value.(elb := Some(Some(e)))) else None)
    case Verify(e) =>
      && c' == c
      && if e in c.elbs then Patch(l, l', if l.lbc.Some? then Some(l.lbc.value.(ready := true)) else None)
         else Patch(l, l', if l.lbc.Some? then Some(l.lbc.value.(elb := Some(None))) else None)
    case Tear(e) =>
      if e in c.elbs then
        e !in c.busy && c' == c.(elbs := c.elbs - {e}) && l.lbc.Some? && l' == l.(pc := Release(l.lbc.value))
      else
        c' == c && l.lbc.Some? && l' == l.(pc := Release(l.lbc.value))
    case Release(_) =>
      c' == c && Patch(l, l', if l.lbc.Some? then Freed(l.lbc.value) else None)
  }

  predicate Stops(l: Local, l': Local) {
    l' == l.(pc := Idle)
  }

  /** Users create configs without an ELB ID, edit everything else, and delete them; the cloud
      controller adds and removes listeners. */
  predicate Disturbs(c: Cloud, l: Local, c': Cloud, l': Local) {
    || (c' == c && l.lbc.None? && l.pc.Idle? && l'.lbc.Some? && l'.pc.Idle?
        && l'.lbc.value.elb.None? && !l'.lbc.value.finalizer && !l'.lbc.value.ready && !l'.lbc.value.deleting)
    || (c' == c && l.lbc.Some? && l'.lbc.Some? && l'.pc == l.pc
        && l'.lbc.value == l.lbc.value.(template := l'.lbc.value.template, skipped := l'.lbc.value.skipped,
             detected := l'.lbc.value.detected))
    || (c' == c && l.lbc.Some?
       && l' == l.(lbc := if l.lbc.value.finalizer then Some(l.lbc.value.(deleting := true)) else None))
    || (c' == c.(busy := c'.busy) && l' == l)
  }

  ghost predicate StepsAt(w: World, k: Key, c': Cloud, l': Local) {
    k in w.locals &&
    (|| Moves(k, w.cloud, w.locals[k], c', l')
     || (c' == w.cloud && Stops(w.locals[k], l'))
     || Disturbs(w.cloud, w.locals[k], c', l'))
  }

  ghost predicate Next(w: World, w': World) {
    || (exists k :: k !in w.locals && w' == w.(locals := w.locals[k := NOTHING]))
    || (exists k, c', l' :: StepsAt(w, k, c', l') && w' == World(c', w.locals[k := l']))
  }

  const NOTHING := Local(None, Idle)

  const START := World(Cloud(map[], {}, 0), map[])

  ghost predicate Reachable(run: seq<World>) {
    && |run| > 0 && run[0] == START
    && forall i, j | 0 <= i && j == i + 1 && j < |run| :: Next(run[i], run[j])
  }

  // ---------------------------------------------------------------------------
  // The invariant
  // ---------------------------------------------------------------------------

  predicate Live(k: Key, c: Cloud, e: Id) {
    e in c.elbs && c.elbs[e] == ElbName(k)
  }

  /** The finalizer is on. */
  predicate Held(l: Local) {
    l.lbc.Some? && l.lbc.value.finalizer
  }

  /** What every process knows, whatever names others print. */
  ghost predicate PcOk(k: Key, c: Cloud, l: Local) {
    match l.pc
    case Idle => true
    case Detect => true
    case AddFinalizer => true
    case Find => Held(l) && l.lbc.value.elb.None?
    case Create => Held(l) && l.lbc.value.elb.None?
    case Record(e) => Held(l) && l.lbc.value.elb.None? && e < c.next && (e in c.elbs ==> Live(k, c, e))
    case Verify(_) => false
    case Tear(e) => Held(l) && l.lbc.value.deleting && ElbId(l.lbc.value) == Some(e)
    case Release(r) =>
      Held(l) && l.lbc.value.deleting && l.lbc.value.elb == r.elb && (ElbId(r).Some? ==> ElbId(r).value !in c.elbs)
  }

  ghost predicate KInv(k: Key, c: Cloud, l: Local) {
    && PcOk(k, c, l)
    && (l.lbc.Some? && ElbId(l.lbc.value).Some? ==>
          var e := ElbId(l.lbc.value).value;
          e < c.next && (e in c.elbs ==> Live(k, c, e) && l.lbc.value.finalizer))
    && (l.lbc.Some? ==> !l.lbc.value.ready)
  }

  /** What it knows besides if nobody else prints its name: its ELB is the only one of that name. */
  ghost predicate SoleInv(k: Key, c: Cloud, l: Local) {
    && (forall e, f | Live(k, c, e) && Live(k, c, f) :: e == f)
    && (l.pc.Create? ==> Found(c, ElbName(k), None))
    && (l.pc.Record? ==> Live(k, c, l.pc.e))
    && (l.lbc.Some? && ElbId(l.lbc.value).Some? ==> forall e :: Live(k, c, e) ==> e == ElbId(l.lbc.value).value)
  }

  /** No other key prints the name of `k`. */
  ghost predicate Alone(w: World, k: Key) {
    forall j :: j in w.locals && j != k ==> ElbName(j) != ElbName(k)
  }

  /** A live ELB has the name some key prints. */
  ghost predicate AtHome(w: World, e: Id) {
    e in w.cloud.elbs && exists k :: k in w.locals && w.cloud.elbs[e] == ElbName(k)
  }

  ghost predicate Inv(w: World) {
    && (forall e :: e in w.cloud.elbs ==> e < w.cloud.next)
    && (forall e :: e in w.cloud.elbs ==> AtHome(w, e))
    && (forall k :: k in w.locals ==> KInv(k, w.cloud, w.locals[k]))
    && (forall k :: k in w.locals && Alone(w, k) ==> SoleInv(k, w.cloud, w.locals[k]))
  }

  /** Only ELBs of this name change. */
  ghost predicate OnlyNamed(c: Cloud, c': Cloud, name: string) {
    && c.next <= c'.next
    && (forall e :: e in c.elbs && c.elbs[e] != name ==> e in c'.elbs && c'.elbs[e] == c.elbs[e])
    && (forall e :: e in c'.elbs ==>
          (e in c.elbs && c'.elbs[e] == c.elbs[e]) || (e == c.next && c'.next == c.next + 1 && c'.elbs[e] == name))
  }

  ghost predicate Happens(k: Key, c: Cloud, l: Local, c': Cloud, l': Local) {
    Moves(k, c, l, c', l') || (c' == c && Stops(l, l')) || Disturbs(c, l, c', l')
  }

  lemma OwnKeeps(k: Key, c: Cloud, l: Local, c': Cloud, l': Local)
    requires KInv(k, c, l) && (forall e :: e in c.elbs ==> e < c.next) && Happens(k, c, l, c', l')
    ensures KInv(k, c', l') && OnlyNamed(c, c', ElbName(k))
  {
    hide ElbName;
  }

  lemma SoleKeeps(k: Key, c: Cloud, l: Local, c': Cloud, l': Local)
    requires KInv(k, c, l) && (forall e :: e in c.elbs ==> e < c.next) && Happens(k, c, l, c', l')
    requires SoleInv(k, c, l)
    ensures SoleInv(k, c', l')
  {
    hide ElbName;
    if l.pc.Create? {
      assert forall e :: Live(k, c', e) ==> Live(k, c, e) || e == c.next;
    } else {
      assert forall e :: Live(k, c', e) ==> Live(k, c, e);
    }
  }

  lemma OthersKeep(j: Key, k: Key, c: Cloud, c': Cloud, m: Local)
    requires KInv(j, c, m) && OnlyNamed(c, c', ElbName(k))
    ensures KInv(j, c', m)
  {
    hide ElbName;
  }

  lemma OthersKeepSole(j: Key, k: Key, c: Cloud, c': Cloud, m: Local)
    requires SoleInv(j, c, m) && OnlyNamed(c, c', ElbName(k)) && ElbName(j) != ElbName(k)
    ensures SoleInv(j, c', m)
  {
    hide ElbName;
    assert forall e :: Live(j, c', e) <==> Live(j, c, e);
  }

  lemma InvNext(w: World, w': World)
    requires Inv(w) && Next(w, w')
    ensures Inv(w')
  {
    hide KInv, SoleInv, Moves, Disturbs, ElbName, OnlyNamed, Happens;
    if k :| k !in w.locals && w' == w.(locals := w.locals[k := NOTHING]) {
      InvNewcomer(w, k);
    } else {
      var k, c', l' :| StepsAt(w, k, c', l') && w' == World(c', w.locals[k := l']);
      assert Happens(k, w.cloud, w.locals[k], c', l') by {
        StepHappens(w, k, c', l');
      }
      InvStep(w, k, c', l');
    }
  }

  lemma StepHappens(w: World, k: Key, c': Cloud, l': Local)
    requires StepsAt(w, k, c', l')
    ensures Happens(k, w.cloud, w.locals[k], c', l')
  {
    hide Moves, Disturbs;
  }

  lemma InvNewcomer(w: World, k: Key)
    requires Inv(w) && k !in w.locals
    ensures Inv(w.(locals := w.locals[k := NOTHING]))
  {
    hide ElbName;
    var w' := w.(locals := w.locals[k := NOTHING]);
    forall e | e in w.cloud.elbs
      ensures AtHome(w', e)
      ensures Alone(w', k) ==> w.cloud.elbs[e] != ElbName(k)
    {
      var j :| j in w.locals && w.cloud.elbs[e] == ElbName(j);
      assert j in w'.locals;
    }
    forall j | j in w.locals && Alone(w', j)
      ensures Alone(w, j)
    {
      assert forall i :: i in w.locals ==> i in w'.locals;
    }
    hide KInv, SoleInv;
    NobodyKeeps(k, w.cloud);
  }

  lemma NobodyKeeps(k: Key, c: Cloud)
    ensures KInv(k, c, NOTHING)
    ensures (forall e :: e in c.elbs ==> c.elbs[e] != ElbName(k)) ==> SoleInv(k, c, NOTHING)
  {
    hide ElbName;
  }

  lemma InvStep(w: World, k: Key, c': Cloud, l': Local)
    requires Inv(w) && k in w.locals && Happens(k, w.cloud, w.locals[k], c', l')
    ensures Inv(World(c', w.locals[k := l']))
  {
    hide KInv, SoleInv, Happens, ElbName;
    var w' := World(c', w.locals[k := l']);
    OwnKeeps(k, w.cloud, w.locals[k], c', l');
    forall j | j in w.locals && j != k
      ensures KInv(j, c', w.locals[j])
    {
      OthersKeep(j, k, w.cloud, c', w.locals[j]);
    }
    forall j | j in w.locals && Alone(w', j)
      ensures SoleInv(j, c', w'.locals[j])
    {
      assert Alone(w, j);
      if j == k {
        SoleKeeps(k, w.cloud, w.locals[k], c', l');
      } else {
        OthersKeepSole(j, k, w.cloud, c', w.locals[j]);
      }
    }
    forall e | e in c'.elbs
      ensures AtHome(w', e) && e < c'.next
    {
      if e in w.cloud.elbs && c'.elbs[e] == w.cloud.elbs[e] {
        var j :| j in w.locals && w.cloud.elbs[e] == ElbName(j);
        assert j in w'.locals;
      }
    }
  }

  lemma {:induction false} RunsKeep(run: seq<World>, i: nat)
    requires Reachable(run) && i < |run|
    ensures Inv(run[i])
  {
    if i > 0 {
      hide Inv, Next;
      RunsKeep(run, i - 1);
      InvNext(run[i - 1], run[i]);
    }
  }

  // ---------------------------------------------------------------------------
  // What it promises
  // ---------------------------------------------------------------------------

  /** At most one live ELB carries a name that only one config prints. */
  lemma AtMostOnePerName(run: seq<World>, i: nat, e: Id, f: Id)
    requires Reachable(run) && i < |run|
    requires e in run[i].cloud.elbs && f in run[i].cloud.elbs && run[i].cloud.elbs[e] == run[i].cloud.elbs[f]
    requires forall j, k | j in run[i].locals && k in run[i].locals
      && ElbName(j) == run[i].cloud.elbs[e] == ElbName(k) :: j == k
    ensures e == f
  {
    RunsKeep(run, i);
    var w := run[i];
    hide Reachable, KInv, ElbName;
    assert AtHome(w, e);
    var k :| k in w.locals && w.cloud.elbs[e] == ElbName(k);
    assert Alone(w, k);
    assert Live(k, w.cloud, e) && Live(k, w.cloud, f);
  }

  /** An ELB is created only while the config carries the finalizer. */
  lemma CreatesUnderFinalizer(run: seq<World>, i: nat, k: Key)
    requires Reachable(run) && i < |run| && k in run[i].locals && run[i].locals[k].pc.Create?
    ensures Held(run[i].locals[k])
  {
    RunsKeep(run, i);
  }

  /** The finalizer stays until the recorded ELB is gone. */
  lemma FinalizerGuards(run: seq<World>, i: nat, k: Key)
    requires Reachable(run) && i < |run| && k in run[i].locals && run[i].locals[k].lbc.Some?
    ensures var l := run[i].locals[k].lbc.value; ElbId(l).Some? && ElbId(l).value in run[i].cloud.elbs ==> l.finalizer
  {
    RunsKeep(run, i);
  }

  /** No config ever becomes ready: the branch that would verify the ELB is never reached, because
      the recorded ELB ID makes the config look like a parameter template. */
  lemma NeverReady(run: seq<World>, i: nat, k: Key)
    requires Reachable(run) && i < |run| && k in run[i].locals
    ensures !run[i].locals[k].pc.Verify?
    ensures run[i].locals[k].lbc.Some? ==> !run[i].locals[k].lbc.value.ready
  {
    RunsKeep(run, i);
  }

  /** When the finalizer is about to go and an ELB was recorded, none of the config's name is live. */
  lemma ReleaseIsClean(run: seq<World>, i: nat, k: Key, e: Id)
    requires Reachable(run) && i < |run| && k in run[i].locals && Alone(run[i], k)
    requires run[i].locals[k].pc.Release? && ElbId(run[i].locals[k].pc.l).Some?
    ensures !Live(k, run[i].cloud, e)
  {
    RunsKeep(run, i);
    hide ElbName;
  }
}
