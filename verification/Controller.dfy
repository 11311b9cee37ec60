/** The reconcile methods of internal/controller/service_controller.go, call by call. Between any
    two calls the rest of the system moves on. Every method keeps the history a run of the
    protocol that is disciplined for its key, so that all of the protocol's promises to that key hold
    at every point of every method, whatever befalls the others. */
module Controller {
  import opened Common
  import opened Naming
  import opened CloudModel
  import opened Steps
  import opened CloudApi
  import opened Stacks
  import opened PoolSync
  import opened Acl
  import opened Teardown
  import opened Converge
  import opened Trees
  import opened Launch
  import opened Protocol
  import opened Safety
  import opened Discipline
  import opened Promises
  import opened Interference
  import opened Goals

  /** Where the code goes on although its call fails: at the reading of the binding by the routing and by
      a deletion, at the recording of the ELB, and wherever an ELB that was found is recorded again. */
  predicate Tolerant(pc: PC) {
    || pc.Route? || pc.Deleting? || pc.Record? || pc.Mend? || pc.Heal?
    || (pc.Bind? && pc.restore) || (pc.Rebind? && pc.restore) || (pc.NewBinding? && pc.restore)
  }

  /** The process of one Service key. */
  class Process {
    const k: Key
    /** Whether the cloud deletes children along with a listener or pool. */
    const cascade: bool
    const others: (nat, World) -> World
    var w: World
    var now: nat
    ghost var past: seq<World>
    /** How many calls of this process failed for no reason of its own: those that stop it, and those it
        goes on without. */
    ghost var faults: nat
    ghost var slips: nat

    ghost predicate Valid()
      reads this
    {
      CalmRun(k, past) && |past| > 0 && past[|past| - 1] == w && k in w.locals && Honest(k, others)
    }

    function Here(): Local
      reads this
      requires k in w.locals
    {
      w.locals[k]
    }

    constructor (k: Key, cascade: bool, others: (nat, World) -> World, w: World, ghost past: seq<World>)
      requires CalmRun(k, past) && past[|past| - 1] == w && k in w.locals && Honest(k, others)
      ensures Valid() && this.k == k && this.cascade == cascade && this.w == w && this.past == past
    {
      this.k := k;
      this.cascade := cascade;
      this.others := others;
      this.w := w;
      this.now := 0;
      this.past := past;
      this.faults := 0;
      this.slips := 0;
    }

    // -------------------------------------------------------------------------
    // What the invariant tells the process
    // -------------------------------------------------------------------------

    lemma Knows()
      requires Valid()
      ensures Inv(k, w) && KInv(k, w.cloud, Here()) && Sound(w.cloud)
    {
      CalmRunsKeep(k, past, |past| - 1);
      InvMeans(w, k);
    }

    /** The process never finds a binding that is not its Service's or lacks the finalizer. */
    lemma NeverStale(v: World)
      requires Valid() && v in past && k in v.locals
      ensures !v.locals[k].pc.Rebind? && !v.locals[k].pc.Mend?
    {
      var i :| 0 <= i < |past| && past[i] == v;
      NeverMends(past, i, k);
    }

    /** The ELB the process holds is the Service's, and its own. */
    lemma KnowsHeld()
      requires Valid() && HoldsElb(Here().pc)
      ensures Holding(k, w.cloud, Here().pc.s, Here().pc.e) && Mine(w.cloud, Here().pc.e, Here().tags) && WF(w.cloud)
      ensures SnapOk(k, w.cloud, Here()) && Snapshot(Here().pc) == Some(Here().pc.s)
    {
      Knows();
      KnowsHolding(k, w.cloud, Here());
      hide KInv, Inv, CalmRun, Honest, WF;
      HeldTag(k, w.cloud, Here(), Here().pc.s, Here().pc.e);
    }

    /** As long as the Service is wanted, or a process works on it, a binding has the finalizer and
        the ELB it records is live and the key's own. */
    lemma KnowsRecorded()
      requires Valid() && Alive(Here()) && Here().binding.Some?
      ensures BindingFacts(k, w.cloud, Here())
      ensures Here().binding.value.finalizer
      ensures Here().binding.value.elb.Some? ==> Mine(w.cloud, Here().binding.value.elb.value, Here().tags)
      ensures var acl := Here().binding.value.acl;
        acl.Some? && acl.value in w.cloud.groups ==> Named(w.cloud, k, acl.value)
    {
      Knows();
      hide SvcOk, SnapOk, PcOk, Guards, OneGroup, Inv, CalmRun, Honest, Sound, Tag, NameTag, NoElb, OnlyGroup, Named;
    }

    lemma KnowsAlive()
      requires Valid() && Alive(Here())
      ensures BindingFacts(k, w.cloud, Here()) && WF(w.cloud)
    {
      Knows();
      hide KInv, Inv, CalmRun, Honest, WF;
      if Here().binding.Some? {
        KnowsRecorded();
      }
    }

    lemma KnowsListeners()
      requires Valid()
      ensures Here().pc.AclBind? ==> Here().pc.g in w.cloud.groups && Here().pc.left <= w.cloud.listeners.Keys
      ensures Here().pc.AclUnbind? ==> Here().pc.left <= w.cloud.listeners.Keys
    {
      Knows();
      hide Inv, KInv, Sound, CalmRun, Honest;
      LoopKnows(k, w.cloud, Here());
    }

    // -------------------------------------------------------------------------
    // One call, and what others do after it
    // -------------------------------------------------------------------------

    /** Since the process left cloud `c` and local state `l`, only others have worked. */
    ghost predicate Since(c: Cloud, l: Local)
      requires k in w.locals
      reads this
    {
      l.tags <= Here().tags && Agree(k, c, w.cloud, l.tags) && BindingStays(l.binding, Here().binding)
    }

    method Go(c': Cloud, l': Local)
      requires Valid() && (Moves(k, w.cloud, Here(), c', l') || (c' == w.cloud && Stops(Here(), l')))
      modifies this
      ensures Valid() && Here().pc == l'.pc && Since(c', l')
      ensures old(past) + [World(c', old(w.locals)[k := l'])] <= past
      ensures Failed(false) && Onward()
    {
      hide CalmRun, Moves, Stops, Agree, Honest;
      OneMoreStep(past, k, c', l');
      w := World(c', w.locals[k := l']);
      past := past + [w];
      var w' := others(now, w);
      HonestNow(k, others, now, w);
      past := LeadsOn(k, past, w, w');
      w := w';
      now := now + 1;
    }

    /** The process may go to `pc'` without any other change. */
    ghost predicate May(pc': PC)
      reads this
      requires k in w.locals
    {
      pc' == Idle || Moves(k, w.cloud, Here(), w.cloud, Here().(pc := pc'))
    }

    /** It may go there with binding `b'`. */
    ghost predicate MayBind(b': Option<Binding>, pc': PC)
      reads this
      requires k in w.locals
    {
      Moves(k, w.cloud, Here(), w.cloud, Here().(binding := b', pc := pc'))
    }

    /** The process has changed nothing of its own. */
    twostate predicate Kept()
      requires k in old(w.locals) && k in w.locals
      reads this
    {
      Since(old(w.cloud), old(Here()))
    }

    /** It has changed nothing of its own in the cloud. */
    twostate predicate KeptCloud()
      requires k in old(w.locals) && k in w.locals
      reads this
    {
      old(Here().tags) <= Here().tags && Agree(k, old(w.cloud), w.cloud, old(Here().tags))
    }

    twostate predicate Failed(f: bool)
      reads this
    {
      faults == old(faults) + (if f then 1 else 0) && slips == old(slips)
    }

    /** No call has failed, not even one that the process can go on without. */
    twostate predicate Flawless()
      reads this
    {
      faults == old(faults) && slips == old(slips)
    }

    /** What never goes back. */
    twostate predicate Onward()
      reads this
    {
      old(past) <= past && old(faults) <= faults && old(slips) <= slips
    }

    ghost method Count(fault: bool)
      requires Valid()
      modifies this`faults
      ensures Valid() && Failed(fault)
    {
      if fault {
        faults := faults + 1;
      }
    }

    /** A failed call is a fault, unless the code goes on without it. */
    twostate predicate Counted(at: PC, f: bool)
      reads this
    {
      && faults == old(faults) + (if f && !Tolerant(at) then 1 else 0)
      && slips == old(slips) + (if f && Tolerant(at) then 1 else 0)
    }

    ghost method CountAt(at: PC, fault: bool)
      requires Valid()
      modifies this`faults, this`slips
      ensures Valid() && Counted(at, fault)
    {
      if fault {
        if Tolerant(at) {
          slips := slips + 1;
        } else {
          faults := faults + 1;
        }
      }
    }

    method To(pc': PC)
      requires Valid() && May(pc')
      modifies this
      ensures Valid() && Here().pc == pc' && Kept() && KeptCloud() && Failed(false) && Onward()
    {
      hide CalmRun, Moves, Agree, Honest;
      Go(w.cloud, Here().(pc := pc'));
    }

    // -------------------------------------------------------------------------
    // Calls that read; `next` tells where the code goes on with the result, `failed` without one
    // -------------------------------------------------------------------------

    method GetService() returns (r: Result<Option<Svc>>)
      requires Valid() && Here().pc.Idle?
      modifies this
      ensures Valid() && Kept() && KeptCloud() && Here().pc == if r.Ok? then Start(r.value) else Idle
      ensures r.Ok? ==> r.value == old(Here().svc)
      ensures Failed(r.Err?) && Onward()
    {
      hide CalmRun, Agree, Honest;
      var fault: bool := *;
      r := if fault then Err(Other) else Ok(Here().svc);
      To(if fault then Idle else Start(Here().svc));
      Count(fault);
    }

    method GetBinding(next: Option<Binding> -> PC, failed: PC) returns (r: Result<Option<Binding>>)
      requires Valid() && May(failed) && May(next(Here().binding))
      modifies this
      ensures Valid() && Kept() && KeptCloud() && Here().pc == if r.Ok? then next(r.value) else failed
      ensures r.Ok? ==> r.value == old(Here().binding)
      ensures Counted(old(Here().pc), r.Err?) && Onward()
    {
      hide CalmRun, Moves, Agree, Honest;
      ghost var at := Here().pc;
      var fault: bool := *;
      r := if fault then Err(Other) else Ok(Here().binding);
      To(if r.Ok? then next(r.value) else failed);
      CountAt(at, fault);
    }

    method FindELBByName(name: string, next: Option<Id> -> PC, failed: PC) returns (r: Result<Option<Id>>)
      requires Valid() && May(failed) && forall x :: Found(w.cloud, name, x) ==> May(next(x))
      modifies this
      ensures Valid() && Kept() && KeptCloud() && Here().pc == if r.Ok? then next(r.value) else failed
      ensures r.Ok? ==> Found(old(w.cloud), name, r.value)
      ensures Failed(r.Err?) && Onward()
    {
      hide CalmRun, Moves, Agree, Honest, May;
      var fault: bool := *;
      if fault {
        r := Err(Other);
      } else {
        var named := set e | e in w.cloud.elbs && w.cloud.elbs[e] == name;
        if named == {} {
          assert forall e :: e in w.cloud.elbs && w.cloud.elbs[e] == name ==> e in named;
          r := Ok(None);
        } else {
          var e :| e in named;
          r := Ok(Some(e));
        }
      }
      To(if r.Ok? then next(r.value) else failed);
      Count(r.Err?);
    }

    method FindIPGroupByName(name: string, next: Option<Id> -> PC, failed: PC) returns (r: Result<Option<Id>>)
      requires Valid() && May(failed) && forall x :: FoundGroup(w.cloud, name, x) ==> May(next(x))
      modifies this
      ensures Valid() && Kept() && KeptCloud() && Here().pc == if r.Ok? then next(r.value) else failed
      ensures r.Ok? ==> FoundGroup(old(w.cloud), name, r.value)
      ensures Failed(r.Err?) && Onward()
    {
      hide CalmRun, Moves, Agree, Honest, May;
      var fault: bool := *;
      if fault {
        r := Err(Other);
      } else {
        var named := set g | g in w.cloud.groups && w.cloud.groups[g].name == name;
        if named == {} {
          assert forall g :: g in w.cloud.groups && w.cloud.groups[g].name == name ==> g in named;
          r := Ok(None);
        } else {
          var g :| g in named;
          r := Ok(Some(g));
        }
      }
      To(if r.Ok? then next(r.value) else failed);
      Count(r.Err?);
    }

    // -------------------------------------------------------------------------
    // Calls that write the binding
    // -------------------------------------------------------------------------

    /** The binding after a patch that succeeded or not, and after what others do to it. */
    twostate predicate Patched(patch: Binding -> Option<Binding>, ok: bool)
      requires k in old(w.locals) && k in w.locals
      reads this
    {
      if ok then old(Here().binding).Some? && BindingStays(patch(old(Here().binding).value), Here().binding)
      else BindingStays(old(Here().binding), Here().binding)
    }

    /** Reads the current binding of the key and writes it back patched, in one go. */
    method PatchBinding(patch: Binding -> Option<Binding>, done: PC, failed: PC) returns (r: Result<()>)
      requires Valid() && May(failed)
      requires Here().binding.Some? ==> MayBind(patch(Here().binding.value), done)
      modifies this
      ensures Valid() && KeptCloud() && Here().pc == if r.Ok? then done else failed
      ensures Patched(patch, r.Ok?) && (r.Err? && r.error == NotFound ==> old(Here().binding).None?)
      ensures Counted(old(Here().pc), r.Err? && r.error == Other) && Onward()
    {
      hide CalmRun, Moves, Agree, Honest, May;
      ghost var at := Here().pc;
      var fault: bool := *;
      if fault {
        To(failed);
        r := Err(Other);
      } else if Here().binding.None? {
        To(failed);
        r := Err(NotFound);
      } else {
        Go(w.cloud, Here().(binding := patch(Here().binding.value), pc := done));
        r := Ok(());
      }
      CountAt(at, fault);
    }

    method CreateBinding(s: Svc, e: Id, restore: bool) returns (r: Result<()>)
      requires Valid() && Here().pc == NewBinding(s, e, restore)
      modifies this
      ensures Valid() && KeptCloud()
      ensures Here().pc == if r.Ok? then Record(s, e, restore) else BindFailed(s, e, restore)
      ensures r.Ok? ==> Here().binding.Some?
      ensures Onward() && (old(Here().binding.None?) ==> Counted(old(Here().pc), r.Err?))
      ensures restore ==> faults == old(faults)
    {
      hide CalmRun, Agree, Honest;
      ghost var at := Here().pc;
      var fault: bool := *;
      if fault || Here().binding.Some? {
        To(BindFailed(s, e, restore));
        r := Err(Other);
      } else {
        Go(w.cloud, Here().(binding := Some(Binding(s.uid, true, false, None, None)), pc := Record(s, e, restore)));
        r := Ok(());
      }
      CountAt(at, fault);
    }

    // -------------------------------------------------------------------------
    // The binding
    // -------------------------------------------------------------------------

    /** The part of ensureBinding after the binding was read, or a stale one was deleted. */
    method CompleteBinding(s: Svc, e: Id, restore: bool, ob: Option<Binding>) returns (r: Result<()>)
      requires Valid() && Here().pc == Bound(s, e, restore, ob) && (ob.Some? ==> ob.value.uid == s.uid)
      modifies this
      ensures Valid() && KeptCloud()
      ensures Here().pc == if r.Ok? then Record(s, e, restore) else BindFailed(s, e, restore)
      ensures r.Ok? && (ob.Some? ==> old(Here().binding).Some?) ==> Here().binding.Some?
      ensures Onward()
      ensures if restore then faults == old(faults)
        else faults == old(faults) && (ob.None? ==> old(Here().binding.None?)) ==> r.Ok?
      ensures Flawless() && (ob.None? ==> old(Here().binding.None?)) ==> r.Ok?
    {
      hide CalmRun, Agree, Honest;
      SameAgrees(k, w.cloud, Here().tags);
      ghost var start, n := w, |past| - 1;
      if ob.None? {
        r := CreateBinding(s, e, restore);
      } else {
        if !ob.value.finalizer {
          var _ := PatchBinding(b => Healed(Some(b)), Record(s, e, restore), Record(s, e, restore));
        }
        r := Ok(());
        assert past[n] == start;
        NeverStale(start);
      }
    }

    /** Where the calls on the binding may lead. */
    lemma BindingMoves()
      requires k in w.locals
      ensures var pc := Here().pc;
        && (pc.Bind? ==> May(BindFailed(pc.s, pc.e, pc.restore)) && May(Bound(pc.s, pc.e, pc.restore, Here().binding)))
        && (pc.Rebind? ==> May(BindFailed(pc.s, pc.e, pc.restore)))
        && (pc.Rebind? && Here().binding.Some? ==>
              MayBind(DeleteBinding(Here().binding.value), NewBinding(pc.s, pc.e, pc.restore)))
    {
      hide BindFailed, Bound, DeleteBinding;
    }

    /** Reads the binding and deletes it if it is another Service's: what is returned is this
        Service's or none. */
    method ReadBinding(s: Svc, e: Id, restore: bool) returns (r: Result<Option<Binding>>)
      requires Valid() && Here().pc == Bind(s, e, restore)
      modifies this
      ensures Valid() && KeptCloud()
      ensures Here().pc == if r.Ok? then Bound(s, e, restore, r.value) else BindFailed(s, e, restore)
      ensures r.Ok? && r.value.Some? ==> r.value.value.uid == s.uid && Here().binding.Some?
      ensures Onward()
      ensures restore ==> faults == old(faults)
      ensures Flawless() || (!restore && faults == old(faults)) ==> r.Ok? && (r.value.None? ==> Here().binding.None?)
    {
      hide CalmRun, Agree, Honest, DeleteBinding, Moves, May, MayBind, BindFailed;
      ghost var c0, t0 := w.cloud, Here().tags;
      BindingMoves();
      r := GetBinding(ob => Bound(s, e, restore, ob), BindFailed(s, e, restore));
      ghost var read, c1, t1 := w, w.cloud, Here().tags;
      if r.Ok? && r.value.Some? && r.value.value.uid != s.uid {
        BindingMoves();
        var deleted := PatchBinding(b => DeleteBinding(b), NewBinding(s, e, restore), BindFailed(s, e, restore));
        r := if deleted.Ok? then Ok(None) else Err(deleted.error);
        AgreeTransitive(k, c0, c1, w.cloud, t0, t1);
      }
      NeverStale(read);
    }

    /** Makes sure that the key has a binding of this Service, with the finalizer. If no call fails it
        succeeds. */
    method EnsureBinding(s: Svc, e: Id, restore: bool) returns (r: Result<()>)
      requires Valid() && Here().pc == Bind(s, e, restore)
      modifies this
      ensures Valid() && KeptCloud()
      ensures Here().pc == if r.Ok? then Record(s, e, restore) else BindFailed(s, e, restore)
      ensures r.Ok? ==> Here().binding.Some?
      ensures Onward() && (restore ==> faults == old(faults))
      ensures Flawless() || (!restore && faults == old(faults)) ==> r.Ok?
    {
      hide CalmRun, Agree, Honest, Moves;
      ghost var c0, t0 := w.cloud, Here().tags;
      var binding := ReadBinding(s, e, restore);
      if binding.Err? {
        r := Err(binding.error);
      } else {
        ghost var c1, t1 := w.cloud, Here().tags;
        r := CompleteBinding(s, e, restore, binding.value);
        AgreeTransitive(k, c0, c1, w.cloud, t0, t1);
      }
    }

    // -------------------------------------------------------------------------
    // Calls on the ELB the process holds
    // -------------------------------------------------------------------------

    /** One call that changes no ELB. What it left below the ELB, and of the key's groups, is there
        when the process goes on. */
    method Act(c': Cloud, pc': PC)
      requires Valid() && HoldsElb(Here().pc) && c'.elbs == w.cloud.elbs
      requires (pc' == Idle && c' == w.cloud) || Moves(k, w.cloud, Here(), c', Here().(pc := pc'))
      modifies this
      ensures Valid() && Here().pc == pc' && Unmoved(k, c', w.cloud, old(Here().pc.e))
      ensures BindingStays(old(Here().binding), Here().binding)
      ensures Failed(false) && Onward()
    {
      hide CalmRun, Moves, Agree, Honest, Unmoved, NameTag, Holding, SnapOk, WF;
      KnowsHeld();
      ghost var l := Here();
      Go(c', Here().(pc := pc'));
      AgreeUnmoved(k, c', w.cloud, l.tags, l.pc.e);
    }

    /** What is known of the binding, over two calls. */
    lemma BindingOn(a: Option<Binding>, b: Option<Binding>, c: Option<Binding>)
      requires BindingStays(a, b) && BindingStays(b, c)
      ensures BindingStays(a, c)
    {
    }

    /** The calls of a sync below the ELB, which left cloud `c'`; unless they all succeeded the process
        gives up. */
    method Proceed(s: Svc, e: Id, acl: Option<Id>, c': Cloud, ok: bool)
      requires Valid() && Here().pc == Work(s, e, acl) && ChildStep(w.cloud, c', e)
      modifies this
      ensures Valid() && Here().pc == if ok then Work(s, e, acl) else Idle
      ensures Unmoved(k, c', w.cloud, e) && BindingStays(old(Here().binding), Here().binding)
      ensures Failed(false) && Onward()
    {
      hide CalmRun, Honest, ChildStep, TearStep, Found, FoundGroup, ListenersOf, BindingStays, Unmoved;
      ghost var b0 := Here().binding;
      ChildGroups(k, w.cloud, c', e);
      Act(c', Work(s, e, acl));
      if !ok {
        ghost var c1, b1 := w.cloud, Here().binding;
        Act(w.cloud, Idle);
        UnmovedOn(k, c', c1, w.cloud, e);
        BindingOn(b0, b1, Here().binding);
      }
    }

    /** syncListenerStacks on the recorded ELB. Wherever it stops, members have come only for nodes of its
        reading, each in its node's subnet; so it is for all methods up to Reconcile. */
    method SyncListeners(s: Svc, e: Id, acl: Option<Id>, inputs: Inputs) returns (r: Result<()>)
      requires Valid() && Here().pc == Work(s, e, acl)
      modifies this
      ensures Valid() && Here().pc == if r.Ok? then Work(s, e, acl) else Idle
      ensures GroupsStay(k, old(w.cloud), w.cloud) && BindingStays(old(Here().binding), Here().binding)
      ensures r.Ok? ==>
        PortsSynced(old(w.cloud), w.cloud, e, Asked(k, s, inputs), inputs.first.nodes, inputs.second.nodes)
      ensures (inputs.first.nodes.Some? ==> Ports(old(w.cloud), e) == Wants(Asked(k, s, inputs))) ==>
        TreeOf(w.cloud, e) == TreeOf(old(w.cloud), e)
      ensures cascade && (inputs.first.nodes.Some? ==> Usable(inputs.first.nodes.value, inputs.first.subnets)) ==>
        Failed(r.Err?)
      ensures Stationed(old(w.cloud), w.cloud, e, inputs.first, inputs.first)
      ensures Onward()
    {
      hide CalmRun, Honest, WF, Progress, Api.Valid, ChildStep, Synced, Ports, Usable, Bare, TearStep, Found;
      hide FoundGroup;
      hide TreeOf, PortsSynced, BindingStays, GroupsStay, NameTag, SnapOk, Since, Manned;
      KnowsHeld();
      SoundIsBounded(w.cloud);
      var spec := Asked(k, s, inputs);
      ghost var before := w.cloud;
      var api := new Api(w.cloud, cascade);
      r := SyncPortsBelow(api, e, spec, inputs.first, inputs.second.nodes);
      var mid := api.c;
      ProgressIsStep(before, mid, e, Wants(spec));
      ProgressStationed(before, mid, e, Wants(spec), inputs.first, inputs.first);
      ChildGroups(k, before, mid, e);
      Proceed(s, e, acl, mid, r.Ok?);
      PortsSyncedLater(before, mid, w.cloud, e, spec, inputs);
      GroupsStayOn(k, before, mid, w.cloud);
      Count(api.faults > 0);
    }

    /** syncAllPoolMembers on the recorded ELB, which reads the nodes again. */
    method SyncMembersOfPools(s: Svc, e: Id, acl: Option<Id>, inputs: Inputs) returns (r: Result<()>)
      requires Valid() && Here().pc == Work(s, e, acl)
      modifies this
      ensures Valid() && Here().pc == if r.Ok? then Work(s, e, acl) else Idle
      ensures GroupsStay(k, old(w.cloud), w.cloud) && BindingStays(old(Here().binding), Here().binding)
      ensures r.Ok? ==> MembersSynced(old(w.cloud), w.cloud, e, Asked(k, s, inputs), inputs.second.nodes)
      ensures (inputs.second.nodes.Some? ==>
                 AllExact(old(w.cloud), e, Asked(k, s, inputs), inputs.second.nodes.value)) ==>
        TreeOf(w.cloud, e) == TreeOf(old(w.cloud), e)
      ensures (Readable(old(w.cloud), e) && (inputs.second.nodes.Some? ==>
                 SubnetsKnown(inputs.second.nodes.value, inputs.second.subnets))) ==>
        Failed(r.Err?)
      ensures Stationed(old(w.cloud), w.cloud, e, inputs.second, inputs.second)
      ensures Onward()
    {
      hide CalmRun, Honest, WF, Tended, Api.Valid, ChildStep, SubnetsKnown, TearStep, Found, FoundGroup, Readable;
      hide TreeOf, MembersSynced, BindingStays, GroupsStay, NameTag, SnapOk, Since, Manned, Stationed, AllExact, Asked;
      KnowsHeld();
      ghost var before := w.cloud;
      var spec := Asked(k, s, inputs);
      var api := new Api(w.cloud, cascade);
      r := SyncMembersBelow(api, e, spec, inputs.second);
      api.Intact();
      var mid := api.c;
      MemberSyncIs(before, mid, e, spec, inputs.second);
      ChildGroups(k, before, mid, e);
      Proceed(s, e, acl, mid, r.Ok?);
      StationedTree(before, before, mid, w.cloud, e, inputs.second, inputs.second);
      MembersSyncedLater(before, mid, w.cloud, e, spec, inputs);
      GroupsStayOn(k, before, mid, w.cloud);
      Count(api.faults > 0);
    }

    // -------------------------------------------------------------------------
    // Access control
    // -------------------------------------------------------------------------

    /** Where the loops over the listeners begin and end. */
    lemma LoopMoves()
      requires k in w.locals
      ensures var pc := Here().pc;
        && (pc.AclList? ==> May(AclBind(pc.s, pc.e, pc.g, ListenersOf(w.cloud, pc.e))))
        && (pc.AclBind? && pc.left == {} ==> May(AclRecord(pc.s, pc.e, Some(pc.g))))
        && (pc.AclUnlist? ==> May(AclUnbind(pc.s, pc.e, pc.g, ListenersOf(w.cloud, pc.e))))
        && (pc.AclUnbind? && pc.left == {} ==> May(AclDrop(pc.s, pc.e, pc.g)))
    {
      hide SetAcl, ListenersOf, TearStep, ChildStep, Found, FoundGroup;
    }

    /** updateListenerACL with group `g`, or, where the process unbinds, with none. */
    method SetOne(s: Svc, e: Id, g: Id, acl: Option<Id>, todo: set<Id>, x: Id) returns (r: Result<()>)
      requires Valid() && Here().pc == InLoop(s, e, g, acl, todo) && x in todo && acl in {None, Some(g)}
      modifies this
      ensures Valid() && Here().pc == if r.Ok? then InLoop(s, e, g, acl, todo - {x}) else Idle
      ensures x in old(w.cloud.listeners)
      ensures TreeOf(w.cloud, e) == TreeOf(if r.Ok? then SetAcl(old(w.cloud), x, acl) else old(w.cloud), e)
      ensures GroupsStay(k, old(w.cloud), w.cloud) && BindingStays(old(Here().binding), Here().binding)
      ensures Failed(r.Err?) && Onward()
    {
      hide CalmRun, Honest, SetAcl, KInv, ListenersOf, TreeOf, BindingStays, Moves, GroupsStay, Inv, SnapOk, Mine,
        Snapshot, NameTag;
      KnowsListeners();
      SetMoves(s, e, g, acl, todo, x);
      GroupsStayHere(k, w.cloud);
      SetAclGroups(k, w.cloud, x, acl);
      var fault: bool := *;
      if fault {
        Act(w.cloud, Idle);
        r := Err(Other);
      } else {
        ghost var before, mid := w.cloud, SetAcl(w.cloud, x, acl);
        Act(SetAcl(w.cloud, x, acl), InLoop(s, e, g, acl, todo - {x}));
        GroupsStayOn(k, before, mid, w.cloud);
        r := Ok(());
      }
      Count(fault);
    }

    /** The loop over the listeners. `done` are those it got to. */
    method SetEach(s: Svc, e: Id, g: Id, acl: Option<Id>, listeners: set<Id>)
        returns (r: Result<()>, ghost done: set<Id>)
      requires Valid() && Here().pc == InLoop(s, e, g, acl, listeners) && acl in {None, Some(g)}
      requires listeners == ListenersOf(w.cloud, e)
      modifies this
      ensures Valid() && Here().pc == if r.Ok? then InLoop(s, e, g, acl, {}) else Idle
      ensures Toggled(old(w.cloud), w.cloud, e, done, acl) && (r.Ok? ==> done == listeners)
      ensures GroupsStay(k, old(w.cloud), w.cloud) && BindingStays(old(Here().binding), Here().binding)
      ensures Failed(r.Err?) && Onward()
    {
      hide CalmRun, Honest, KInv, TreeOf, Toggled, GroupsStay, BindingStays, ListenersOf, InLoop, SetAcl;
      ghost var before, b0 := w.cloud, Here().binding;
      NothingToggled(before, before, e, acl);
      GroupsStayHere(k, before);
      BindingHere(b0);
      var todo := listeners;
      done := {};
      while todo != {}
        invariant Valid() && Here().pc == InLoop(s, e, g, acl, todo)
        invariant done == listeners - todo && todo <= listeners && Toggled(before, w.cloud, e, done, acl)
        invariant GroupsStay(k, before, w.cloud) && BindingStays(b0, Here().binding)
        invariant Failed(false) && Onward()
        decreases todo
      {
        ghost var c, b := w.cloud, Here().binding;
        var x :| x in todo;
        r := SetOne(s, e, g, acl, todo, x);
        GroupsStayOn(k, before, c, w.cloud);
        BindingOn(b0, b, Here().binding);
        if r.Err? {
          SameToggled(before, c, w.cloud, e, done, acl);
          return;
        }
        OneMoreToggled(before, c, w.cloud, e, done, x, acl);
        todo, done := todo - {x}, done + {x};
      }
      r := Ok(());
    }

    /** Lists the listeners of the ELB. */
    method ListForAcl(s: Svc, e: Id, g: Id, acl: Option<Id>) returns (listeners: set<Id>)
      requires Valid() && Here().pc == BeforeLoop(s, e, g, acl) && acl in {None, Some(g)}
      modifies this
      ensures Valid() && Here().pc == InLoop(s, e, g, acl, listeners)
      ensures listeners == ListenersOf(w.cloud, e) == ListenersOf(old(w.cloud), e)
      ensures Unmoved(k, old(w.cloud), w.cloud, e) && BindingStays(old(Here().binding), Here().binding)
      ensures Failed(false) && Onward()
    {
      hide CalmRun, Honest, KInv, ListenersOf, TreeOf, GroupsStay, BindingStays, May, Moves;
      LoopMoves();
      ghost var before := w.cloud;
      listeners := ListenersOf(w.cloud, e);
      MayMeans(InLoop(s, e, g, acl, listeners));
      Act(w.cloud, InLoop(s, e, g, acl, listeners));
      SameTree(before, w.cloud, e);
    }

    lemma LoopEnds(s: Svc, e: Id, g: Id, acl: Option<Id>)
      requires k in w.locals && Here().pc == InLoop(s, e, g, acl, {}) && acl in {None, Some(g)}
      ensures HoldsElb(Here().pc) && Here().pc.e == e
      ensures Moves(k, w.cloud, Here(), w.cloud, Here().(pc := AfterLoop(s, e, g, acl)))
    {
      LoopMoves();
      hide Moves, ListenersOf;
    }

    /** Sets the access control of every listener of the ELB. */
    method SetAll(s: Svc, e: Id, g: Id, acl: Option<Id>) returns (r: Result<()>, ghost done: set<Id>)
      requires Valid() && Here().pc == BeforeLoop(s, e, g, acl) && acl in {None, Some(g)}
      modifies this
      ensures Valid() && Here().pc == if r.Ok? then AfterLoop(s, e, g, acl) else Idle
      ensures Toggled(old(w.cloud), w.cloud, e, done, acl) && (r.Ok? ==> done == ListenersOf(old(w.cloud), e))
      ensures GroupsStay(k, old(w.cloud), w.cloud) && BindingStays(old(Here().binding), Here().binding)
      ensures Failed(r.Err?) && Onward()
    {
      hide CalmRun, Honest, KInv, Moves, May, ListenersOf, TreeOf, Toggled, GroupsStay, BindingStays, BeforeLoop;
      hide InLoop, AfterLoop;
      ghost var before, b0 := w.cloud, Here().binding;
      var listeners := ListForAcl(s, e, g, acl);
      ghost var c1, b1 := w.cloud, Here().binding;
      r, done := SetEach(s, e, g, acl, listeners);
      ToggledSince(before, c1, w.cloud, e, done, acl);
      GroupsStayOn(k, before, c1, w.cloud);
      BindingOn(b0, b1, Here().binding);
      if r.Ok? {
        ghost var c2, b2 := w.cloud, Here().binding;
        LoopEnds(s, e, g, acl);
        Act(w.cloud, AfterLoop(s, e, g, acl));
        SameToggled(before, c2, w.cloud, e, done, acl);
        GroupsStayOn(k, before, c2, w.cloud);
        BindingOn(b0, b2, Here().binding);
      }
    }

    /** bindACLToAllListeners. */
    method BindACL(s: Svc, e: Id, g: Id) returns (r: Result<()>, ghost done: set<Id>)
      requires Valid() && Here().pc == AclList(s, e, g)
      modifies this
      ensures Valid() && Here().pc == if r.Ok? then AclRecord(s, e, Some(g)) else Idle
      ensures Toggled(old(w.cloud), w.cloud, e, done, Some(g)) && (r.Ok? ==> done == ListenersOf(old(w.cloud), e))
      ensures GroupsStay(k, old(w.cloud), w.cloud) && BindingStays(old(Here().binding), Here().binding)
      ensures Failed(r.Err?) && Onward()
    {
      hide CalmRun, Honest, Toggled, GroupsStay, BindingStays;
      r, done := SetAll(s, e, g, Some(g));
    }

    /** unbindACLFromAllListeners. */
    method UnbindACL(s: Svc, e: Id, g: Id) returns (r: Result<()>, ghost done: set<Id>)
      requires Valid() && Here().pc == AclUnlist(s, e, g)
      modifies this
      ensures Valid() && Here().pc == if r.Ok? then AclDrop(s, e, g) else Idle
      ensures Toggled(old(w.cloud), w.cloud, e, done, None) && (r.Ok? ==> done == ListenersOf(old(w.cloud), e))
      ensures BindingStays(old(Here().binding), Here().binding)
      ensures Failed(r.Err?) && Onward()
    {
      hide CalmRun, Honest, Toggled, GroupsStay, BindingStays;
      r, done := SetAll(s, e, g, None);
    }

    lemma MayMeans(pc': PC)
      requires k in w.locals && May(pc')
      ensures pc' == Idle || Moves(k, w.cloud, Here(), w.cloud, Here().(pc := pc'))
    {
    }

    lemma SetMoves(s: Svc, e: Id, g: Id, acl: Option<Id>, todo: set<Id>, x: Id)
      requires k in w.locals && Here().pc == InLoop(s, e, g, acl, todo) && x in todo && acl in {None, Some(g)}
      requires x in w.cloud.listeners && (acl.Some? ==> g in w.cloud.groups)
      ensures var c' := SetAcl(w.cloud, x, acl);
        c'.elbs == w.cloud.elbs && Moves(k, w.cloud, Here(), c', Here().(pc := InLoop(s, e, g, acl, todo - {x})))
    {
      hide ListenersOf, TearStep, ChildStep, Found, FoundGroup;
    }

    /** Updates the given group, or creates one. */
    method WriteGroup(s: Svc, e: Id, g: Option<Id>) returns (r: Result<Id>)
      requires Valid() && Here().pc == if g.Some? then AclUpdate(s, e, g.value) else AclCreate(s, e)
      modifies this
      ensures Valid() && Here().pc == if r.Ok? then AclList(s, e, r.value) else Idle
      ensures TreeOf(w.cloud, e) == TreeOf(old(w.cloud), e) && BindingStays(old(Here().binding), Here().binding)
      ensures r.Ok? ==> GroupIs(k, w.cloud, r.value, s.cidrs) && (g.Some? ==> r.value == g.value)
      ensures r.Err? || (g.Some? && GroupIs(k, old(w.cloud), g.value, s.cidrs)) ==> GroupsStay(k, old(w.cloud), w.cloud)
      ensures Failed(r.Err?) || (r.Err? && faults == old(faults) && RecordedDead(old(w.cloud), g))
      ensures Onward()
    {
      hide CalmRun, Honest, GroupName, TreeOf, GroupsStay, BindingStays, SetGroup, AddGroup, GroupIs;
      ghost var before := w.cloud;
      GroupWritten(k, w.cloud, e, g, s.cidrs);
      var fault: bool := *;
      if fault || (g.Some? && g.value !in w.cloud.groups) {
        Act(w.cloud, Idle);
        r := Err(Other);
      } else {
        var id := if g.Some? then g.value else w.cloud.next;
        var mid := Written(k, w.cloud, g, s.cidrs);
        WriteMoves(s, e, g);
        Act(mid, AclList(s, e, id));
        GroupStaysPut(k, mid, w.cloud, id, s.cidrs);
        if g.Some? && GroupIs(k, before, g.value, s.cidrs) {
          GroupsStayOn(k, before, mid, w.cloud);
        }
        r := Ok(id);
      }
      Count(fault);
    }

    lemma WriteMoves(s: Svc, e: Id, g: Option<Id>)
      requires k in w.locals && Here().pc == if g.Some? then AclUpdate(s, e, g.value) else AclCreate(s, e)
      requires g.Some? ==> g.value in w.cloud.groups
      ensures var id := if g.Some? then g.value else w.cloud.next;
        Moves(k, w.cloud, Here(), Written(k, w.cloud, g, s.cidrs), Here().(pc := AclList(s, e, id)))
    {
      hide GroupName;
    }

    /** The lookup of a group that is not recorded. */
    method FindOwnGroup(s: Svc, e: Id) returns (r: Result<Option<Id>>)
      requires Valid() && Here().pc == AclFind(s, e)
      modifies this
      ensures Valid() && Here().pc == if r.Ok? then AclFound(s, e, r.value) else Idle
      ensures TreeOf(w.cloud, e) == TreeOf(old(w.cloud), e) && BindingStays(old(Here().binding), Here().binding)
      ensures r.Ok? && r.value.Some? ==> r.value.value in w.cloud.groups
      ensures r.Ok? ==> FoundGroup(old(w.cloud), GroupName(k), r.value)
      ensures Failed(r.Err?) && Onward()
    {
      hide CalmRun, Agree, Honest, GroupName, TreeOf, GroupsStay, BindingStays, Holding, SnapOk, Mine, Snapshot, WF;
      ghost var l, c := Here(), w.cloud;
      KnowsHeld();
      r := FindIPGroupByName(GroupName(k), x => AclFound(s, e, x), Idle);
      AgreeUnmoved(k, c, w.cloud, l.tags, e);
      if r.Ok? {
        FoundStays(k, c, w.cloud, l.tags, r.value);
      }
    }

    /** The group that is to hold the ranges: recorded, found by name, or new. */
    method PutGroup(s: Svc, e: Id, acl: Option<Id>) returns (r: Result<Id>)
      requires Valid() && s.cidrs != [] && Here().pc == AclStart(s, e, acl)
      modifies this
      ensures Valid() && Here().pc == if r.Ok? then AclList(s, e, r.value) else Idle
      ensures TreeOf(w.cloud, e) == TreeOf(old(w.cloud), e) && BindingStays(old(Here().binding), Here().binding)
      ensures r.Ok? ==> GroupIs(k, w.cloud, r.value, s.cidrs) && (acl.Some? ==> r.value == acl.value)
      ensures r.Ok? && acl.None? ==> Reuses(k, old(w.cloud), r.value)
      ensures acl.Some? && GroupIs(k, old(w.cloud), acl.value, s.cidrs) ==> GroupsStay(k, old(w.cloud), w.cloud)
      ensures Failed(r.Err?) || (r.Err? && faults == old(faults) && RecordedDead(old(w.cloud), acl))
      ensures Onward()
    {
      hide CalmRun, Agree, Honest, GroupName, TreeOf, GroupsStay, BindingStays, GroupIs, Moves, May, Reuses, FoundGroup;
      ghost var before := w.cloud;
      if acl.Some? {
        r := WriteGroup(s, e, acl);
      } else {
        ghost var b0 := Here().binding;
        var found := FindOwnGroup(s, e);
        if found.Err? {
          return Err(found.error);
        }
        ghost var b1 := Here().binding;
        r := WriteGroup(s, e, found.value);
        BindingOn(b0, b1, Here().binding);
        FoundReuses(k, before, found.value);
      }
    }

    /** The branch with source ranges. */
    method GuardELB(s: Svc, e: Id, acl: Option<Id>)
        returns (r: Result<Option<Id>>, ghost done: set<Id>, ghost on: Option<Id>)
      requires Valid() && s.cidrs != [] && Here().pc == AclStart(s, e, acl)
      modifies this
      ensures Valid() && Here().pc == if r.Ok? then AclRecord(s, e, r.value) else Idle
      ensures Toggled(old(w.cloud), w.cloud, e, done, on) && BindingStays(old(Here().binding), Here().binding)
      ensures r.Ok? ==> r.value.Some? && Guarded(w.cloud, e, r.value.value, GroupName(k), s.cidrs)
      ensures r.Ok? && acl.None? ==> Reuses(k, old(w.cloud), r.value.value)
      ensures acl.Some? && Guarded(old(w.cloud), e, acl.value, GroupName(k), s.cidrs) ==>
        Unmoved(k, old(w.cloud), w.cloud, e)
      ensures Failed(r.Err?) || (r.Err? && faults == old(faults) && RecordedDead(old(w.cloud), acl))
      ensures Onward()
    {
      hide CalmRun, Agree, Honest, Moves, AclStart, Toggled, TreeOf, GroupsStay, BindingStays, GroupName, ListenersOf;
      hide GroupIs, Guarded, Reuses;
      ghost var before, b0 := w.cloud, Here().binding;
      var put := PutGroup(s, e, acl);
      ghost var c1, b1 := w.cloud, Here().binding;
      on := if put.Ok? then Some(put.value) else None;
      NothingToggled(before, c1, e, on);
      GuardedIs(k, before, e, acl, s.cidrs);
      if put.Err? {
        return Err(put.error), {}, None;
      }
      var bound;
      bound, done := BindACL(s, e, put.value);
      ToggledSince(before, c1, w.cloud, e, done, on);
      BindingOn(b0, b1, Here().binding);
      GroupStaysPut(k, c1, w.cloud, put.value, s.cidrs);
      if bound.Ok? {
        SameTree(before, c1, e);
        IsGroup(k, w.cloud, put.value, s.cidrs);
        AllGuarded(before, w.cloud, e, put.value, GroupName(k), s.cidrs);
      }
      if acl.Some? && Guarded(before, e, acl.value, GroupName(k), s.cidrs) {
        GuardedUntoggled(before, w.cloud, e, done, put.value, GroupName(k), s.cidrs);
        GroupsStayOn(k, before, c1, w.cloud);
      }
      r := if bound.Ok? then Ok(Some(put.value)) else Err(bound.error);
    }

    lemma DropMoves(s: Svc, e: Id, g: Id)
      requires k in w.locals && Here().pc == AclDrop(s, e, g)
      ensures Moves(k, w.cloud, Here(), DropGroup(w.cloud, g), Here().(pc := AclRecord(s, e, None)))
    {
    }

    /** DeleteIPGroup of an update; a group that is not there counts as deleted. */
    method DropRecorded(s: Svc, e: Id, g: Id) returns (r: Result<()>)
      requires Valid() && Here().pc == AclDrop(s, e, g)
      modifies this
      ensures Valid() && Here().pc == if r.Ok? then AclRecord(s, e, None) else Idle
      ensures TreeOf(w.cloud, e) == TreeOf(old(w.cloud), e) && BindingStays(old(Here().binding), Here().binding)
      ensures Failed(r.Err?) && Onward()
    {
      hide CalmRun, Agree, Honest, DropGroup, TreeOf, GroupsStay, BindingStays, Moves;
      GroupDropped(w.cloud, e, g);
      var fault: bool := *;
      if fault {
        Act(w.cloud, Idle);
        r := Err(Other);
      } else {
        DropMoves(s, e, g);
        Act(DropGroup(w.cloud, g), AclRecord(s, e, None));
        r := Ok(());
      }
      Count(fault);
    }

    /** The branch without source ranges and with a recorded group. */
    method OpenELB(s: Svc, e: Id, g: Id) returns (r: Result<()>, ghost done: set<Id>)
      requires Valid() && Here().pc == AclUnlist(s, e, g)
      modifies this
      ensures Valid() && Here().pc == if r.Ok? then AclRecord(s, e, None) else Idle
      ensures Toggled(old(w.cloud), w.cloud, e, done, None) && BindingStays(old(Here().binding), Here().binding)
      ensures r.Ok? ==> Open(w.cloud, e)
      ensures Failed(r.Err?) && Onward()
    {
      hide CalmRun, Agree, Honest, DropGroup, Toggled, TreeOf, GroupsStay, BindingStays, ListenersOf, Open, Moves, May;
      hide KInv, Inv;
      ghost var before, b0 := w.cloud, Here().binding;
      r, done := UnbindACL(s, e, g);
      if r.Ok? {
        ghost var c1, b1 := w.cloud, Here().binding;
        r := DropRecorded(s, e, g);
        SameToggled(before, c1, w.cloud, e, done, None);
        BindingOn(b0, b1, Here().binding);
        AllOpen(before, w.cloud, e);
      }
    }

    /** ensureACL, with everybody else at work between its calls. Only a fault or a recorded group
        that no longer exists can fail it. What is settled it leaves as it is. */
    method EnsureACL(s: Svc, e: Id, acl: Option<Id>)
        returns (r: Result<Option<Id>>, ghost done: set<Id>, ghost on: Option<Id>)
      requires Valid() && Here().pc == Work(s, e, acl)
      modifies this
      ensures Valid() && Here().pc == if r.Ok? then AclRecord(s, e, r.value) else Idle
      ensures Toggled(old(w.cloud), w.cloud, e, done, on) && BindingStays(old(Here().binding), Here().binding)
      ensures r.Ok? ==> (r.value.Some? <==> s.cidrs != [])
      ensures r.Ok? && r.value.Some? && acl.None? ==> Reuses(k, old(w.cloud), r.value.value)
      ensures r.Ok? ==> AclEnsured(k, old(w.cloud), w.cloud, e, s.cidrs, acl, r.value)
      ensures Settled(old(w.cloud), e, GroupName(k), s.cidrs, acl) ==> Unmoved(k, old(w.cloud), w.cloud, e)
      ensures Failed(r.Err?) || (r.Err? && faults == old(faults) && s.cidrs != [] && RecordedDead(old(w.cloud), acl))
      ensures Onward()
    {
      hide CalmRun, Honest, TearStep, ChildStep, Found, FoundGroup, ListenersOf, RecordedDead, Sole, Toggled, TreeOf;
      hide GroupsStay;
      hide BindingStays, Guarded, Open, Moves, GroupName, Settled, Reuses;
      ghost var before, b0 := w.cloud, Here().binding;
      StartsAcl(s, e, acl);
      Act(w.cloud, AclStart(s, e, acl));
      ghost var c1, b1 := w.cloud, Here().binding;
      RecordedStays(k, before, c1, e, acl);
      NothingToggled(before, c1, e, None);
      if Settled(before, e, GroupName(k), s.cidrs, acl) {
        UnmovedSettled(k, before, c1, e, s.cidrs, acl);
      }
      TreePorts(before, c1, e);
      TreePorts(c1, before, e);
      if s.cidrs != [] {
        r, done, on := GuardELB(s, e, acl);
        ToggledSince(before, c1, w.cloud, e, done, on);
        BindingOn(b0, b1, Here().binding);
      } else if acl.None? {
        r, done, on := Ok(None), {}, None;
      } else {
        var opened_;
        opened_, done := OpenELB(s, e, acl.value);
        on := None;
        ToggledSince(before, c1, w.cloud, e, done, on);
        BindingOn(b0, b1, Here().binding);
        r := if opened_.Ok? then Ok(None) else Err(opened_.error);
      }
      SettledMeans(k, before, c1, e, s.cidrs, acl);
      if Settled(before, e, GroupName(k), s.cidrs, acl) && s.cidrs != [] {
        UnmovedOn(k, before, c1, w.cloud, e);
      }
      if r.Ok? {
        if r.value.Some? {
          ReusesSince(k, before, c1, r.value.value);
        }
        EnsuredSo(k, before, c1, w.cloud, e, s.cidrs, acl, r.value);
      }
    }

    lemma StartsAcl(s: Svc, e: Id, acl: Option<Id>)
      requires Valid() && Here().pc == Work(s, e, acl)
      ensures Moves(k, w.cloud, Here(), w.cloud, Here().(pc := AclStart(s, e, acl)))
      ensures acl.Some? ==> Sole(k, w.cloud, acl.value)
    {
      Knows();
      hide SvcOk, SnapOk, Guards, OneGroup, Inv, CalmRun, Honest, Sound, NoElb, ChildStep;
    }

    // -------------------------------------------------------------------------
    // Creation
    // -------------------------------------------------------------------------

    method CreateELB(s: Svc) returns (r: Result<Id>)
      requires Valid() && Here().pc == Create(s)
      modifies this
      ensures Valid() && Here().pc == if r.Ok? then Bind(s, r.value, false) else Idle
      ensures r.Ok? ==> ListenersOf(w.cloud, r.value) == {} && r.value >= old(w.cloud.next)
      ensures old(w.cloud.next) <= w.cloud.next
      ensures Failed(r.Err?) && Onward()
    {
      hide CalmRun, Agree, Honest, ElbName, KInv, Inv, Sound, ListenersOf, TearStep, ChildStep, Found, FoundGroup, Mine;
      Knows();
      ghost var l, c := Here(), AddElb(w.cloud, ElbName(k, s));
      NewIsEmpty(k, w.cloud, l, s);
      var fault: bool := *;
      if fault {
        ghost var before := w.cloud;
        To(Idle);
        AgreeNext(k, before, w.cloud, l.tags);
        r := Err(Other);
      } else {
        r := Ok(w.cloud.next);
        Go(AddElb(w.cloud, ElbName(k, s)), Here().(pc := Bind(s, w.cloud.next, false)));
        MineListeners(k, c, w.cloud, l.tags, r.value);
        AgreeNext(k, c, w.cloud, l.tags);
      }
      Count(fault);
    }

    /** What a process about to record its new ELB finds as binding. */
    lemma KnowsNew(s: Svc, e: Id)
      requires Valid() && Here().pc == Record(s, e, false)
      ensures Here().binding.Some? && Here().binding.value.finalizer && Here().binding.value.acl.None?
    {
      Knows();
      hide Inv, KInv, Sound, CalmRun, Honest;
      RecordKnows(k, w.cloud, Here());
    }

    lemma RecordingMoves(s: Svc, e: Id)
      requires k in w.locals && Here().pc == Record(s, e, false)
      ensures May(Work(s, e, None))
      ensures Here().binding.Some? ==> MayBind(WithElb(Some(Here().binding.value), e), Work(s, e, None))
    {
    }

    /** Binding and recording of a new ELB. A failure to record it is no fault: it does not stop the
        creation. */
    method BindNew(s: Svc, e: Id) returns (r: Result<()>)
      requires Valid() && Here().pc == Bind(s, e, false)
      modifies this
      ensures Valid() && Here().pc == if r.Ok? then Work(s, e, None) else Idle
      ensures TreeOf(w.cloud, e) == TreeOf(old(w.cloud), e)
      ensures Onward()
      ensures faults == old(faults) ==> r.Ok?
      ensures Flawless() ==> Records(Here().binding, e, None)
    {
      hide CalmRun, Agree, Honest, Moves, May, MayBind, WF, ListenersOf, Holding, TreeOf, GroupsStay, SnapOk, Mine;
      hide Snapshot;
      KnowsHeld();
      ghost var l, c := Here(), w.cloud;
      r := EnsureBinding(s, e, false);
      AgreeUnmoved(k, c, w.cloud, l.tags, e);
      if r.Ok? {
        KnowsHeld();
        KnowsNew(s, e);
        RecordingMoves(s, e);
        l, c := Here(), w.cloud;
        var _ := PatchBinding(b => WithElb(Some(b), e), Work(s, e, None), Work(s, e, None));
        AgreeUnmoved(k, c, w.cloud, l.tags, e);
      }
    }

    /** Creates the ELB and sees to its binding; `active` tells whether it became active in time. The ELB
        is `e`, and nothing is below it, even if it fails later on. */
    method CreateAndBind(s: Svc, active: bool) returns (r: Result<Id>, ghost e: Id)
      requires Valid() && Here().pc == Create(s)
      modifies this
      ensures Valid() && Here().pc == if r.Ok? then Work(s, e, None) else Idle
      ensures e >= old(w.cloud.next) && ListenersOf(w.cloud, e) == {}
      ensures r.Ok? ==> active && r.value == e
      ensures Onward()
      ensures active && faults == old(faults) ==> r.Ok?
      ensures active && Flawless() ==> Records(Here().binding, e, None)
    {
      hide CalmRun, Agree, Honest, Moves, ListenersOf, TreeOf, GroupsStay;
      r := CreateELB(s);
      KnowsNext();
      e := if r.Ok? then r.value else w.cloud.next;
      ghost var c := w.cloud;
      if r.Err? {
        return;
      }
      if active {
        var bound := BindNew(s, r.value);
        r := if bound.Ok? then r else Err(bound.error);
      } else {
        Act(w.cloud, Idle);
        r := Err(Other);
      }
      SameTree(c, w.cloud, e);
    }

    /** No ELB has the next identifier. */
    lemma KnowsNext()
      requires Valid()
      ensures WF(w.cloud) && ListenersOf(w.cloud, w.cloud.next) == {}
    {
      Knows();
      NobodyListens(w.cloud);
      hide KInv, Inv, CalmRun, Honest, WF, ListenersOf;
    }

    /** The listener stacks of a new ELB. Without faults, and with usable inputs, all are made. Wherever it
        stops, every member of the ELB is a node in the subnet this node is in. */
    method CreateStacks(s: Svc, e: Id, inputs: Inputs) returns (r: Result<()>)
      requires Valid() && Here().pc == Work(s, e, None) && inputs.first.nodes.Some?
      modifies this
      ensures Valid() && Here().pc == if r.Ok? then Work(s, e, None) else Idle
      ensures r.Ok? && ListenersOf(old(w.cloud), e) == {} ==>
        Open(w.cloud, e) && DistinctPorts(Asked(k, s, inputs))
        && Served(w.cloud, e, Asked(k, s, inputs), inputs.first.nodes.value)
      ensures Able(k, s, inputs) && ListenersOf(old(w.cloud), e) == {} ==> Failed(r.Err?)
      ensures BindingStays(old(Here().binding), Here().binding)
      ensures Stationed(old(w.cloud), w.cloud, e, inputs.first, inputs.first)
      ensures Onward()
    {
      hide CalmRun, Honest, WF, Progress, Api.Valid, ChildStep, TearStep, Usable, ListenersOf, Found, FoundGroup;
      hide DistinctPorts, AsBefore, Primed, AllExact, Readable;
      hide TreeOf, Open, Served, SnapOk, NameTag, GroupsStay, BindingStays, Manned, Staffed;
      ghost var before := w.cloud;
      KnowsHeld();
      SoundIsBounded(w.cloud);
      var spec := Asked(k, s, inputs);
      var api := new Api(w.cloud, cascade);
      r := CreateAllStacks(api, e, spec, inputs.first.nodes.value, inputs.first.subnets);
      var mid := api.c;
      ProgressIsStep(w.cloud, mid, e, Wants(spec));
      StaffedManned(before.members, mid.members, inputs.first);
      ProgressStationed(before, mid, e, Wants(spec), inputs.first, inputs.first);
      Proceed(s, e, None, mid, r.Ok?);
      TreePorts(mid, w.cloud, e);
      TreeAsBefore(mid, w.cloud, e, spec);
      AsBeforePools(mid, w.cloud, e, spec);
      Count(api.faults > 0);
    }

    // -------------------------------------------------------------------------
    // Recording
    // -------------------------------------------------------------------------

    /** A process that holds an ELB leaves it in the cloud when it records something last. */
    method RecordLast(s: Svc, e: Id, patch: Binding -> Option<Binding>) returns (r: Result<()>)
      requires Valid() && (Here().pc == Record(s, e, true) || Here().pc.AclRecord?) && Here().pc.s == s
        && Here().pc.e == e
      requires Here().binding.Some? ==> MayBind(patch(Here().binding.value), Idle)
      modifies this
      ensures Valid() && Here().pc.Idle? && Holding(k, w.cloud, s, e) && KeptCloud()
        && Unmoved(k, old(w.cloud), w.cloud, e)
      ensures old(Here().pc).AclRecord? && old(Here().pc).acl.Some? ==> Named(w.cloud, k, old(Here().pc).acl.value)
      ensures Patched(patch, r.Ok?) && (r.Err? && r.error == NotFound ==> old(Here().binding).None?)
      ensures Counted(old(Here().pc), r.Err? && r.error == Other) && Onward()
    {
      hide CalmRun, Agree, Honest, Moves, ElbName, Holding, Named, SnapOk, Sound, TreeOf, GroupsStay, NameTag, Sole;
      hide MayBind;
      hide BindingStays, KInv, Inv, WF;
      ghost var l, c := Here(), w.cloud;
      Knows();
      KnowsHeld();
      if l.pc.AclRecord? {
        KnowsGroup();
      }
      r := PatchBinding(patch, Idle, Idle);
      AgreeHolding(k, c, w.cloud, l, s, e);
      AgreeUnmoved(k, c, w.cloud, l.tags, e);
      if l.pc.AclRecord? && l.pc.acl.Some? {
        SoleStays(k, c, w.cloud, l.tags, l.pc.acl.value);
      }
    }

    lemma KnowsGroup()
      requires Valid() && Here().pc.AclRecord?
      ensures Here().binding.Some?
      ensures Here().pc.acl.Some? ==> Sole(k, w.cloud, Here().pc.acl.value) && Here().pc.acl.value in w.cloud.groups
    {
      Knows();
      hide Inv, KInv, Sound, CalmRun, Honest;
      AclRecordKnows(k, w.cloud, Here());
    }

    // -------------------------------------------------------------------------
    // reconcileCreate and reconcileUpdate
    // -------------------------------------------------------------------------

    /** ensureACL and the recording of its result; `recorded` tells whether the latter succeeded. */
    method RecordACL(s: Svc, e: Id, acl: Option<Id>)
      returns (r: Result<Option<Id>>, recorded: bool, ghost done: set<Id>, ghost on: Option<Id>)
      requires Valid() && Here().pc == Work(s, e, acl)
      modifies this
      ensures Valid() && Here().pc.Idle?
      ensures Toggled(old(w.cloud), w.cloud, e, done, on)
      ensures r.Ok? ==> Holding(k, w.cloud, s, e) && AclEnsured(k, old(w.cloud), w.cloud, e, s.cidrs, acl, r.value)
      ensures r.Ok? ==> (r.value.Some? ==> Named(w.cloud, k, r.value.value)) && (r.value.Some? <==> s.cidrs != [])
      ensures Settled(old(w.cloud), e, GroupName(k), s.cidrs, acl) ==> Unmoved(k, old(w.cloud), w.cloud, e)
      ensures recorded ==> r.Ok? && BindingStays(WithAcl(old(Here().binding), r.value), Here().binding)
      ensures r.Ok? || faults > old(faults) || (s.cidrs != [] && RecordedDead(old(w.cloud), acl))
      ensures r.Ok? && faults == old(faults) ==> recorded
      ensures Onward()
    {
      hide CalmRun, Agree, Honest, Holding, Named, RecordedDead, Toggled, TreeOf, GroupsStay, Settled, AclEnsured, Open;
      hide GroupName, TearStep, ChildStep, Found, FoundGroup, ListenersOf;
      ghost var before, b0 := w.cloud, Here().binding;
      recorded := false;
      r, done, on := EnsureACL(s, e, acl);
      if r.Err? {
        return;
      }
      ghost var c1 := w.cloud;
      var g := r.value;
      KnowsGroup();
      var patched := RecordLast(s, e, b => WithAcl(Some(b), g));
      SameToggled(before, c1, w.cloud, e, done, on);
      EnsuredOn(k, before, c1, w.cloud, e, s.cidrs, acl, g);
      if Settled(before, e, GroupName(k), s.cidrs, acl) {
        UnmovedOn(k, before, c1, w.cloud, e);
      }
      recorded := patched.Ok?;
    }

    /** An ELB of the Service's name was found: its ID is recorded in the binding again. */
    method Restore(s: Svc, e: Id)
      requires Valid() && Here().pc == Bind(s, e, true)
      modifies this
      ensures Valid() && Here().pc.Idle? && Holding(k, w.cloud, s, e) && KeptCloud()
      ensures faults == old(faults) && (Flawless() ==> RecordedElb(Here().binding) == Some(e))
      ensures Onward()
    {
      hide CalmRun, Agree, Honest, Holding, Named, TearStep, ChildStep, ElbName, Unmoved, NoElb, Tag, Mine;
      ghost var c0, t0 := w.cloud, Here().tags;
      var _ := EnsureBinding(s, e, true);
      ghost var c1, t1 := w.cloud, Here().tags;
      if Here().binding.Some? {
        KnowsRecorded();
      }
      var _ := RecordLast(s, e, b => WithElb(Some(b), e));
      AgreeTransitive(k, c0, c1, w.cloud, t0, t1);
    }

    /** Stacks and access control of a new ELB. A failure to record the group does not count. */
    method Equip(s: Svc, e: Id, inputs: Inputs) returns (done: bool, ghost g: Option<Id>)
      requires Valid() && Here().pc == Work(s, e, None)
      modifies this
      ensures Valid() && Here().pc.Idle?
      ensures done && ListenersOf(old(w.cloud), e) == {} ==> Furnished(k, w.cloud, s, inputs, e, g)
      ensures Able(k, s, inputs) && ListenersOf(old(w.cloud), e) == {} && faults == old(faults) ==> done
      ensures done && Flawless() && Records(old(Here().binding), e, None) ==> Records(Here().binding, e, g)
      ensures Stationed(old(w.cloud), w.cloud, e, inputs.first, inputs.first)
      ensures Onward()
    {
      hide CalmRun, Agree, Honest, Holding, Named, Served, Settled, Usable, DistinctPorts, ListenersOf, TearStep;
      hide ChildStep;
      hide Toggled, Open, GroupsStay, GroupName, Asked, TreeOf, Stationed;
      ghost var before := w.cloud;
      done, g := false, None;
      if inputs.first.nodes.None? {
        Act(w.cloud, Idle);
        SameStationed(before, w.cloud, e, inputs.first, inputs.first);
        return;
      }
      var stacks := CreateStacks(s, e, inputs);
      if stacks.Err? {
        return;
      }
      ghost var c1 := w.cloud;
      var ensured, recorded;
      ghost var those, on;
      ensured, recorded, those, on := RecordACL(s, e, None);
      ToggledMembers(c1, w.cloud, e, those, on);
      SameStationed(c1, w.cloud, e, inputs.first, inputs.first);
      StationedOn(before, c1, w.cloud, e, inputs.first, inputs.first);
      ToggledAsBefore(c1, w.cloud, e, those, on, Asked(k, s, inputs));
      AsBeforePools(c1, w.cloud, e, Asked(k, s, inputs));
      done := ensured.Ok?;
      g := if done then ensured.value else None;
    }

    /** At the lookup of the ELB: a recorded one is found. */
    lemma FindsRecorded(s: Svc, x: Option<Id>)
      requires Valid() && Here().pc == Find(s) && Found(w.cloud, ElbName(k, s), x)
      ensures RecordedElb(Here().binding).Some? ==> x.Some?
      ensures x.Some? ==> Holding(k, w.cloud, s, x.value) && Mine(w.cloud, x.value, Here().tags)
    {
      Knows();
      if x.Some? {
        HeldTag(k, w.cloud, Here(), s, x.value);
      }
      hide SvcOk, Guards, OneGroup, Inv, CalmRun, Honest, Tag, NameTag, ElbName, OnlyElb, OnlyGroup, Named, WF;
      hide UniqueNames;
    }

    /** Where the ELB is created nothing is recorded. */
    lemma KnowsUnrecorded()
      requires Valid() && Here().pc.Create?
      ensures RecordedElb(Here().binding).None? && RecordedAcl(Here().binding).None? && WF(w.cloud)
    {
      Knows();
      hide SvcOk, Guards, OneGroup, Inv, CalmRun, Honest, Tag, NameTag, ElbName, OnlyElb, OnlyGroup, Named, WF;
      hide UniqueNames;
    }

    /** Creation, stacks and access control. */
    method CreateAfresh(s: Svc, inputs: Inputs, active: bool) returns (done: bool, ghost e: Id, ghost g: Option<Id>)
      requires Valid() && Here().pc == Create(s)
      modifies this
      ensures Valid() && Here().pc.Idle?
      ensures done ==> Furnished(k, w.cloud, s, inputs, e, g)
      ensures done && Flawless() ==> Records(Here().binding, e, g)
      ensures active && Able(k, s, inputs) && faults == old(faults) ==> done
      ensures e >= old(w.cloud.next)
      ensures Stationed(old(w.cloud), w.cloud, e, inputs.first, inputs.first)
      ensures Onward()
    {
      hide CalmRun, Honest, Holding, ListenersOf, Able, Served, Settled, DistinctPorts, GroupName, Provided, TreeOf;
      hide Manned, WF;
      KnowsUnrecorded();
      ghost var before := w.cloud;
      done, g := false, None;
      var created;
      created, e := CreateAndBind(s, active);
      NobodyHasNoMembers(before, e);
      EmptyHasNoMembers(w.cloud, e);
      SameStationed(before, w.cloud, e, inputs.first, inputs.first);
      if created.Ok? {
        done, g := Equip(s, created.value, inputs);
      }
    }

    lemma LookupMoves(s: Svc)
      requires k in w.locals && Here().pc == Find(s)
      ensures May(Idle) && forall x :: Found(w.cloud, ElbName(k, s), x) ==> May(ElbFound(s, x))
    {
      hide ElbName, Found;
    }

    /** If the process has changed nothing, there is nothing to be said of an ELB that does not exist. */
    lemma NobodyStationed(c: Cloud, tags: set<string>, inputs: Inputs) returns (e: Id)
      requires Valid() && WF(c) && Agree(k, c, w.cloud, tags)
      ensures Stationed(c, w.cloud, e, inputs.first, inputs.first) && e >= c.next
    {
      e := w.cloud.next;
      KnowsNext();
      AgreeNext(k, c, w.cloud, tags);
      NewStationed(c, w.cloud, w.cloud, e, inputs);
      hide CalmRun, Agree, Honest, WF, Manned;
      SameStationed(w.cloud, w.cloud, e, inputs.first, inputs.first);
    }

    /** A Service without an ELB gets one. `networkKnown` tells whether the network detection
        succeeded. If it finishes, the new ELB serves as asked for; if it found an ELB of the
        Service's name, which it always does if one is recorded, it only records it. Without faults,
        with the network known, the ELB active in time and usable inputs, it gets there. Wherever it
        stops, `e` is the ELB it has found or created, if it came that far. */
    method ReconcileCreate(s: Svc, inputs: Inputs, networkKnown: bool, active: bool)
      returns (r: Outcome, ghost e: Id, ghost g: Option<Id>)
      requires Valid() && Here().pc == Find(s)
      modifies this
      ensures Valid() && Here().pc.Idle?
      ensures r.Finished? ==> Furnished(k, w.cloud, s, inputs, e, g)
      ensures r.Finished? ==> RecordedElb(old(Here().binding)).None? && RecordedAcl(old(Here().binding)).None?
      ensures r.Finished? && Flawless() ==> Records(Here().binding, e, g)
      ensures r.Again? ==>
        Holding(k, w.cloud, s, e)
        && (Flawless() ==> RecordedElb(Here().binding) == Some(e))
      ensures r.Again? || RecordedElb(old(Here().binding)).Some? ==> KeptCloud()
      ensures networkKnown && active && Able(k, s, inputs) && faults == old(faults) ==> !r.Later?
      ensures Stationed(old(w.cloud), w.cloud, e, inputs.first, inputs.first)
      ensures if r.Again? then Holding(k, old(w.cloud), s, e) else e >= old(w.cloud.next)
      ensures Onward()
    {
      hide CalmRun, Agree, Honest, ElbName, ChildStep, TearStep, Holding, Named, WF, FoundGroup, ListenersOf, Able;
      hide Served, Settled, DistinctPorts, GroupName, Provided, Found, KInv, Inv, Moves, May, Manned, TreeOf, Mine;
      hide Stationed;
      r, g := Later, None;
      LookupMoves(s);
      ghost var c0, l0 := w.cloud, Here();
      Knows();
      if !networkKnown {
        To(Idle);
        e := NobodyStationed(c0, l0.tags, inputs);
        return;
      }
      if l0.binding.Some? {
        KnowsRecorded();
      }
      forall x | Found(w.cloud, ElbName(k, s), x)
        ensures RecordedElb(Here().binding).Some? ==> x.Some?
        ensures x.Some? ==> Holding(k, w.cloud, s, x.value) && Mine(w.cloud, x.value, Here().tags)
      {
        FindsRecorded(s, x);
      }
      var existing := FindELBByName(ElbName(k, s), x => ElbFound(s, x), Idle);
      if existing.Err? {
        e := NobodyStationed(c0, l0.tags, inputs);
        return;
      }
      ghost var c1, l1 := w.cloud, Here();
      if existing.value.Some? {
        Restore(s, existing.value.value);
        AgreeTransitive(k, c0, c1, w.cloud, l0.tags, l1.tags);
        AgreeUnmoved(k, c0, w.cloud, l0.tags, existing.value.value);
        SameStationed(c0, w.cloud, existing.value.value, inputs.first, inputs.first);
        return Again, existing.value.value, None;
      }
      KnowsUnrecorded();
      AgreeNext(k, c0, c1, l0.tags);
      var done;
      done, e, g := CreateAfresh(s, inputs, active);
      NewStationed(c0, c1, w.cloud, e, inputs);
      if done {
        r := Finished;
      }
    }

    /** Ports, then members. Where both have nothing to do, all stays as it is. */
    method SyncStacks(s: Svc, e: Id, acl: Option<Id>, inputs: Inputs) returns (r: Result<()>)
      requires Valid() && Here().pc == Work(s, e, acl)
      modifies this
      ensures Valid() && Here().pc == if r.Ok? then Work(s, e, acl) else Idle
      ensures GroupsStay(k, old(w.cloud), w.cloud) && BindingStays(old(Here().binding), Here().binding)
      ensures r.Ok? ==>
        BothSynced(old(w.cloud), w.cloud, e, Asked(k, s, inputs), inputs.first.nodes, inputs.second.nodes)
      ensures Resting(old(w.cloud), e, Asked(k, s, inputs), inputs.first.nodes, inputs.second.nodes) ==>
        TreeOf(w.cloud, e) == TreeOf(old(w.cloud), e)
      ensures cascade && Able(k, s, inputs) && Fits(old(w.cloud), e, inputs.first.nodes) ==> Failed(r.Err?)
      ensures Stationed(old(w.cloud), w.cloud, e, inputs.first, inputs.second)
      ensures Onward()
    {
      hide CalmRun, Honest, PortsSynced, MembersSynced, BothSynced, TreeOf, GroupsStay, BindingStays, Asked;
      hide Ports, AllExact, Readable, Stationed;
      ghost var before, b0, spec := w.cloud, Here().binding, Asked(k, s, inputs);
      r := SyncListeners(s, e, acl, inputs);
      StationedByEither(before, w.cloud, e, inputs.first, inputs.second);
      if r.Err? {
        return;
      }
      ghost var mid, b1 := w.cloud, Here().binding;
      FitsLater(before, mid, e, spec, inputs);
      if TreeOf(mid, e) == TreeOf(before, e) {
        StillResting(before, mid, e, spec, inputs);
      }
      r := SyncMembersOfPools(s, e, acl, inputs);
      StationedByEither(mid, w.cloud, e, inputs.first, inputs.second);
      StationedOn(before, mid, w.cloud, e, inputs.first, inputs.second);
      GroupsStayOn(k, before, mid, w.cloud);
      BindingOn(b0, b1, Here().binding);
      if r.Ok? {
        OneAfterOther(before, mid, w.cloud, e, spec, inputs.first.nodes, inputs.second.nodes);
      }
    }

    /** UpdateELB, if a change of the bandwidth is due; the cloud may refuse it for good. */
    method Resize(s: Svc, e: Id, acl: Option<Id>, inputs: Inputs) returns (r: Result<()>)
      requires Valid() && Here().pc == Work(s, e, acl)
      modifies this
      ensures Valid() && Here().pc == if r.Ok? then Work(s, e, acl) else Idle
      ensures Unmoved(k, old(w.cloud), w.cloud, e) && BindingStays(old(Here().binding), Here().binding)
      ensures (r.Ok? ==> inputs.sized) && (inputs.sized ==> Failed(r.Err?))
      ensures Onward()
    {
      hide CalmRun, Honest, WF, ChildStep, BindingStays, Unmoved, Moves, SnapOk, Mine, Holding;
      KnowsHeld();
      NothingIsStep(w.cloud, e);
      var fault: bool := *;
      r := if fault || !inputs.sized then Err(Other) else Ok(());
      Proceed(s, e, acl, w.cloud, r.Ok?);
      Count(fault);
    }

    /** The work of an update up to access control. */
    method Prepare(s: Svc, e: Id, acl: Option<Id>, inputs: Inputs) returns (r: Result<()>)
      requires Valid() && Here().pc == Work(s, e, acl)
      modifies this
      ensures Valid() && Here().pc == if r.Ok? then Work(s, e, acl) else Idle
      ensures GroupsStay(k, old(w.cloud), w.cloud) && BindingStays(old(Here().binding), Here().binding)
      ensures r.Ok? ==> inputs.sized
      ensures r.Ok? ==>
        BothSynced(old(w.cloud), w.cloud, e, Asked(k, s, inputs), inputs.first.nodes, inputs.second.nodes)
      ensures Resting(old(w.cloud), e, Asked(k, s, inputs), inputs.first.nodes, inputs.second.nodes) ==>
        TreeOf(w.cloud, e) == TreeOf(old(w.cloud), e)
      ensures cascade && Able(k, s, inputs) && Fits(old(w.cloud), e, inputs.first.nodes) && inputs.sized ==>
        Failed(r.Err?)
      ensures Stationed(old(w.cloud), w.cloud, e, inputs.first, inputs.second)
      ensures Onward()
    {
      hide CalmRun, Honest, BothSynced, TreeOf, GroupsStay, BindingStays, Resting, Asked, Able, Fits, Stationed;
      ghost var before, b0, spec := w.cloud, Here().binding, Asked(k, s, inputs);
      r := SyncStacks(s, e, acl, inputs);
      if r.Err? {
        return;
      }
      ghost var mid, b1 := w.cloud, Here().binding;
      r := Resize(s, e, acl, inputs);
      SameStationed(mid, w.cloud, e, inputs.first, inputs.second);
      StationedOn(before, mid, w.cloud, e, inputs.first, inputs.second);
      BothSyncedLater(before, mid, w.cloud, e, spec, inputs);
      GroupsStayOn(k, before, mid, w.cloud);
      BindingOn(b0, b1, Here().binding);
    }

    /** The work of an update on its ELB. If it says `done`, the ELB was brought to what is asked and
        the result recorded. What rests already stays as it is. */
    method Maintain(s: Svc, e: Id, acl: Option<Id>, inputs: Inputs) returns (done: bool, ghost g: Option<Id>)
      requires Valid() && Here().pc == Work(s, e, acl)
      modifies this
      ensures Valid() && Here().pc.Idle?
      ensures done ==> inputs.sized && Provided(k, old(w.cloud), w.cloud, s, inputs, e, acl, g)
      ensures done ==> BindingStays(WithAcl(old(Here().binding), g), Here().binding)
      ensures RestsWith(k, old(w.cloud), e, acl, s, inputs) ==> Unmoved(k, old(w.cloud), w.cloud, e)
      ensures cascade && Able(k, s, inputs) && ClearWith(old(w.cloud), e, acl, s, inputs) && faults == old(faults) ==>
        done
      ensures Stationed(old(w.cloud), w.cloud, e, inputs.first, inputs.second)
      ensures Onward()
    {
      hide CalmRun, Honest, BothSynced, TreeOf, GroupsStay, BindingStays, Resting, Asked, Able, Fits, Settled, Toggled;
      hide Holding;
      hide AclEnsured, Provided, GroupName, Named, Stationed;
      ghost var before, b0 := w.cloud, Here().binding;
      KnowsRecordedGroup(s, e, acl);
      done, g := false, None;
      var prepared := Prepare(s, e, acl, inputs);
      ghost var mid, b1 := w.cloud, Here().binding;
      DeadLater(k, before, mid, acl);
      if RestsWith(k, before, e, acl, s, inputs) {
        UnmovedSettled(k, before, mid, e, s.cidrs, acl);
      }
      if prepared.Ok? {
        var ensured;
        ghost var those, on;
        ensured, done, those, on := RecordACL(s, e, acl);
        ToggledMembers(mid, w.cloud, e, those, on);
        SameStationed(mid, w.cloud, e, inputs.first, inputs.second);
        StationedOn(before, mid, w.cloud, e, inputs.first, inputs.second);
        if ensured.Ok? {
          g := ensured.value;
          AllProvided(k, before, mid, w.cloud, s, inputs, e, acl, g, those, on);
        }
        if done {
          PatchedOn(b0, b1, g, Here().binding);
        }
        if RestsWith(k, before, e, acl, s, inputs) {
          UnmovedOn(k, before, mid, w.cloud, e);
        }
      }
    }

    lemma KnowsRecordedGroup(s: Svc, e: Id, acl: Option<Id>)
      requires Valid() && Here().pc == Work(s, e, acl)
      ensures acl.Some? ==> Sole(k, w.cloud, acl.value)
    {
      StartsAcl(s, e, acl);
    }

    /** An update once the binding `b` was read: the finalizer is put back if it is missing. */
    method Resume(s: Svc, b: Binding, inputs: Inputs) returns (done: bool, ghost g: Option<Id>)
      requires Valid() && b.elb.Some? && Here().pc == Updated(s, Some(b))
      requires Mine(w.cloud, b.elb.value, Here().tags) && BindingStays(Some(b), Here().binding)
      requires b.acl.Some? && b.acl.value in w.cloud.groups ==> Named(w.cloud, k, b.acl.value)
      modifies this
      ensures Valid() && Here().pc.Idle?
      ensures done ==> inputs.sized && Provided(k, old(w.cloud), w.cloud, s, inputs, b.elb.value, b.acl, g)
      ensures done && b.finalizer ==> Records(Here().binding, b.elb.value, g)
      ensures Rests(k, old(w.cloud), Some(b), s, inputs) ==> Unmoved(k, old(w.cloud), w.cloud, b.elb.value)
      ensures cascade && Able(k, s, inputs) && Clear(old(w.cloud), Some(b), s, inputs) && faults == old(faults) ==> done
      ensures Stationed(old(w.cloud), w.cloud, b.elb.value, inputs.first, inputs.second)
      ensures Onward()
    {
      hide CalmRun, Agree, Honest, ChildStep, Holding, Able, Healed, TreeOf, GroupsStay, Served, Settled, Provided;
      hide Mine;
      hide RestsWith, ClearWith, Named, Readable, RecordedDead, Asked, GroupName, Stationed;
      var e, acl := b.elb.value, b.acl;
      ghost var c0, l0 := w.cloud, Here();
      if !b.finalizer {
        var _ := PatchBinding(x => Healed(Some(x)), Work(s, e, acl), Work(s, e, acl));
      } else {
        SameAgrees(k, w.cloud, Here().tags);
      }
      ghost var c1 := w.cloud;
      AgreeUnmoved(k, c0, c1, l0.tags, e);
      RestsLater(k, c0, c1, e, acl, s, inputs);
      ClearLater(k, c0, c1, e, acl, s, inputs);
      done, g := Maintain(s, e, acl, inputs);
      SameStationed(c0, c1, e, inputs.first, inputs.second);
      StationedOn(c0, c1, w.cloud, e, inputs.first, inputs.second);
      if done {
        ProvidedSince(k, c0, c1, w.cloud, s, inputs, e, acl, g);
      }
      if Rests(k, c0, Some(b), s, inputs) {
        UnmovedOn(k, c0, c1, w.cloud, e);
      }
    }

    /** The Service a process works on is one of the key's. */
    lemma KnowsTag(s: Svc)
      requires Valid() && Snapshot(Here().pc) == Some(s)
      ensures |s.uid| >= 10 && Tag(s.uid) in Here().tags
    {
      Knows();
      hide SvcOk, PcOk, BindingOk, Guards, OneGroup, Inv, CalmRun, Honest, Sound, ElbName, Tag;
    }

    lemma UpdateMoves(s: Svc)
      requires k in w.locals && Here().pc == Update(s)
      ensures May(Idle) && May(Updated(s, Here().binding))
    {
    }

    /** The recorded ELB is brought to what the Service asks for; if none is recorded one is
        created. What rests already stays as it is. Without faults it gets there, unless a pool is
        too large to be read or the recorded group that is to be updated is gone. */
    method ReconcileUpdate(s: Svc, inputs: Inputs, networkKnown: bool, active: bool)
      returns (r: Outcome, ghost e: Id, ghost g: Option<Id>)
      requires Valid() && Here().pc == Update(s)
      modifies this
      ensures Valid() && Here().pc.Idle?
      ensures r.Finished? ==> Reached(k, old(w.cloud), old(Here()), w.cloud, s, inputs, e, g)
      ensures r.Finished? && Flawless() ==> Records(Here().binding, e, g)
      ensures r.Again? ==>
        Holding(k, w.cloud, s, e)
        && (Flawless() ==> RecordedElb(Here().binding) == Some(e))
      ensures r.Again? ==> RecordedElb(old(Here().binding)).None?
      ensures Rests(k, old(w.cloud), old(Here().binding), s, inputs) ==>
        Unmoved(k, old(w.cloud), w.cloud, RecordedElb(old(Here().binding)).value)
      ensures (cascade && networkKnown && active && Able(k, s, inputs)
               && Clear(old(w.cloud), old(Here().binding), s, inputs) && faults == old(faults)) ==>
        !r.Later?
      ensures Stationed(old(w.cloud), w.cloud, e, inputs.first, inputs.second)
      ensures RecordedElb(old(Here().binding)) == Some(e) || Holding(k, old(w.cloud), s, e) || e >= old(w.cloud.next)
      ensures RecordedElb(old(Here().binding)).Some? ==>
        Stationed(old(w.cloud), w.cloud, RecordedElb(old(Here().binding)).value, inputs.first, inputs.second)
      ensures Onward()
    {
      hide CalmRun, Agree, Honest, ChildStep, TearStep, Found, FoundGroup, Holding, Able, TreeOf, GroupsStay, Provided;
      hide RestsWith, ClearWith, GroupName, NameTag, WF, KInv, Inv, Named, Furnished, Moves, May, Mine, Stationed;
      UpdateMoves(s);
      ghost var c0, l0 := w.cloud, Here();
      KnowsTag(s);
      hide Tag, Snapshot;
      r, g := Later, None;
      KnowsAlive();
      var got := GetBinding(ob => Updated(s, ob), Idle);
      ghost var c1, l1 := w.cloud, Here();
      Steady(k, c0, l0, c1, l1, s, inputs);
      AgreeNext(k, c0, c1, l0.tags);
      if RecordedElb(l0.binding).Some? {
        SameStationed(c0, c1, RecordedElb(l0.binding).value, inputs.first, inputs.second);
      }
      if got.Err? {
        e := NobodyStationed(c0, l0.tags, inputs);
        StationedByEither(c0, w.cloud, e, inputs.first, inputs.second);
        return;
      }
      KnowsAlive();
      if got.value.None? || got.value.value.elb.None? {
        r, e, g := ReconcileCreate(s, inputs, networkKnown, active);
        StationedByEither(c1, w.cloud, e, inputs.first, inputs.second);
        SinceStart(k, c0, l0, c1, w.cloud, s, e, inputs);
      } else {
        var done;
        done, g := Resume(s, got.value.value, inputs);
        e := got.value.value.elb.value;
        StationedOn(c0, c1, w.cloud, e, inputs.first, inputs.second);
        if done {
          r := Finished;
        }
        if Rests(k, c0, l0.binding, s, inputs) {
          UnmovedOn(k, c0, c1, w.cloud, e);
        }
      }
      if r.Finished? {
        Carried(k, c0, l0, c1, l1, w.cloud, s, inputs, e, g);
      }
    }
    // -------------------------------------------------------------------------
    // Cleanup
    // -------------------------------------------------------------------------

    /** What a process knows that is to remove an ELB: it is the key's own, if it is live. */
    lemma KnowsTorn()
      requires Valid() && Here().pc.Tear?
      ensures WF(w.cloud) && Here().pc.e < w.cloud.next
      ensures Here().pc.e in w.cloud.elbs ==> Mine(w.cloud, Here().pc.e, Here().tags)
    {
      Knows();
      hide SvcOk, SnapOk, BindingOk, Guards, OneGroup, Inv, CalmRun, Honest, WF, UniqueNames, OnlyElb, ObOk, NameTag;
      hide Tag;
    }

    /** A list call: nothing changes but by others. */
    method Pause()
      requires Valid()
      modifies this
      ensures Valid() && Here().pc == old(Here().pc) && Kept() && Failed(false) && Onward()
    {
      hide CalmRun, Agree, Honest;
      var w' := others(now, w);
      HonestNow(k, others, now, w);
      past := LeadsOn(k, past, w, w');
      w := w';
      now := now + 1;
    }

    /** After a list call everything below the ELB is as listed. */
    method PauseTearing(e: Id)
      requires Valid() && Here().pc.Tear? && Here().pc.e == e
      modifies this
      ensures Valid() && Here().pc == old(Here().pc) && Failed(false)
      ensures StillTearing(old(w.cloud), w.cloud, e)
    {
      hide CalmRun, Agree, Honest, TreeOf, Mine, WF;
      ghost var c, l := w.cloud, Here();
      KnowsTorn();
      Pause();
      KnowsTorn();
      TearsOn(k, c, w.cloud, l.tags, e);
    }

    /** A call that removes something below the ELB, or the ELB. */
    method Remove(c': Cloud, e: Id)
      requires Valid() && Here().pc.Tear? && Here().pc.e == e && TearStep(w.cloud, c', e, false)
      modifies this
      ensures Valid() && Here().pc == old(Here().pc) && Failed(false)
      ensures StillTearing(c', w.cloud, e)
    {
      hide CalmRun, Agree, Honest, TreeOf, Mine, WF, TearStep;
      ghost var c, l := w.cloud, Here();
      KnowsTorn();
      TearsMine(c, c', e, l.tags);
      TearMoves(c');
      Go(c', Here());
      KnowsTorn();
      TearsOn(k, c', w.cloud, l.tags, e);
    }

    lemma TearMoves(c': Cloud)
      requires k in w.locals && Here().pc.Tear? && TearStep(w.cloud, c', Here().pc.e, false)
      ensures Moves(k, w.cloud, Here(), c', Here())
    {
      hide TearStep;
    }

    /** Deletes the monitors of a pool, found in the list of all monitors. */
    method RemoveMonitors(e: Id, p: Id) returns (r: Result<()>)
      requires Valid() && Here().pc.Tear? && Here().pc.e == e && p in PoolsOf(w.cloud, e)
      modifies this
      ensures Valid() && Here().pc == old(Here().pc) && PoolsOf(w.cloud, e) == PoolsOf(old(w.cloud), e)
      ensures r.Ok? ==> MonitorsOf(w.cloud, p) == {}
      ensures r.Err? ==> r.error == Other
      ensures Failed(r.Err?)
    {
      hide CalmRun, Honest, TreeOf, WF, TearStep, DropMonitor, PoolsOf, MonitorsOf, Moves;
      var fault: bool := *;
      if fault {
        Count(true);
        return Err(Other);
      }
      var todo := MonitorsOf(w.cloud, p);
      PauseTearing(e);
      while todo != {}
        invariant Valid() && Here().pc == old(Here().pc) && Failed(false)
        invariant PoolsOf(w.cloud, e) == PoolsOf(old(w.cloud), e) && MonitorsOf(w.cloud, p) == todo
        invariant p in PoolsOf(w.cloud, e)
        decreases todo
      {
        fault := *;
        if fault {
          Count(true);
          return Err(Other);
        }
        var m :| m in todo;
        MonitorGoes(w.cloud, e, p, m);
        Remove(DropMonitor(w.cloud, m), e);
        todo := todo - {m};
      }
      r := Ok(());
    }

    method RemoveMember(e: Id, p: Id, m: Id) returns (r: Result<()>)
      requires Valid() && Here().pc.Tear? && Here().pc.e == e && p in PoolsOf(w.cloud, e) && m in MembersOf(w.cloud, p)
      modifies this
      ensures Valid() && Here().pc == old(Here().pc) && PoolsOf(w.cloud, e) == PoolsOf(old(w.cloud), e)
      ensures MonitorsOf(w.cloud, p) == MonitorsOf(old(w.cloud), p)
      ensures r.Ok? ==> MembersOf(w.cloud, p) == MembersOf(old(w.cloud), p) - {m}
      ensures r.Err? ==> r.error == Other
      ensures Failed(r.Err?)
    {
      hide CalmRun, Honest, TreeOf, WF, TearStep, DropMember, PoolsOf, MonitorsOf, MembersOf, Moves;
      var fault: bool := *;
      if fault {
        Count(true);
        return Err(Other);
      }
      MemberGoes(w.cloud, e, p, m);
      Remove(DropMember(w.cloud, m), e);
      r := Ok(());
    }

    /** One page of the members of a pool. */
    method ListPage(p: Id) returns (r: Result<set<Id>>)
      requires Valid() && Here().pc.Tear?
      modifies this
      ensures Valid() && w == old(w) && Failed(r.Err?)
      ensures r.Ok? ==> r.value <= MembersOf(w.cloud, p)
      ensures r.Ok? && |MembersOf(w.cloud, p)| <= LIST_LIMIT ==> r.value == MembersOf(w.cloud, p)
      ensures r.Err? ==> r.error == Other
    {
      hide CalmRun, Honest, WF, MembersOf, Api.Valid, TearStep;
      KnowsTorn();
      var api := new Api(w.cloud, cascade);
      var listed := api.ListMembers(p);
      if listed.Err? {
        Count(true);
        return Err(Other);
      }
      r := Ok(listed.value.info.Keys);
    }

    /** Deletes the members of a pool that are on the one page that is read. */
    method RemoveMembers(e: Id, p: Id) returns (r: Result<()>)
      requires Valid() && Here().pc.Tear? && Here().pc.e == e && p in PoolsOf(w.cloud, e)
      modifies this
      ensures Valid() && Here().pc == old(Here().pc) && PoolsOf(w.cloud, e) == PoolsOf(old(w.cloud), e)
      ensures MonitorsOf(w.cloud, p) == MonitorsOf(old(w.cloud), p)
      ensures r.Ok? && |MembersOf(old(w.cloud), p)| <= LIST_LIMIT ==> MembersOf(w.cloud, p) == {}
      ensures r.Err? ==> r.error == Other
      ensures Failed(r.Err?)
    {
      hide CalmRun, Honest, TreeOf, WF, TearStep, DropMember, PoolsOf, MonitorsOf, MembersOf, Moves;
      var page := ListPage(p);
      if page.Err? {
        return Err(Other);
      }
      var todo := page.value;
      ghost var small := |MembersOf(w.cloud, p)| <= LIST_LIMIT;
      PauseTearing(e);
      while todo != {}
        invariant Valid() && Here().pc == old(Here().pc) && Failed(false)
        invariant PoolsOf(w.cloud, e) == PoolsOf(old(w.cloud), e)
          && MonitorsOf(w.cloud, p) == MonitorsOf(old(w.cloud), p)
        invariant p in PoolsOf(w.cloud, e) && todo <= MembersOf(w.cloud, p) && (small ==> MembersOf(w.cloud, p) == todo)
        decreases todo
      {
        var m :| m in todo;
        r := RemoveMember(e, p, m);
        if r.Err? {
          return;
        }
        todo := todo - {m};
      }
      r := Ok(());
    }

    /** Empties a pool and deletes it. A cloud that does not cascade refuses if something is left in it. */
    method RemovePool(e: Id, p: Id) returns (r: Result<()>)
      requires Valid() && Here().pc.Tear? && Here().pc.e == e && p in PoolsOf(w.cloud, e)
      modifies this
      ensures Valid() && Here().pc == old(Here().pc)
      ensures r.Ok? ==> PoolsOf(w.cloud, e) == PoolsOf(old(w.cloud), e) - {p}
      ensures r.Err? ==> r.error == Other
      ensures cascade ==> Failed(r.Err?)
    {
      hide CalmRun, Honest, TreeOf, WF, TearStep, DropPool, PoolsOf, MonitorsOf, MembersOf, Moves;
      r := RemoveMonitors(e, p);
      if r.Err? {
        return;
      }
      r := RemoveMembers(e, p);
      if r.Err? {
        return;
      }
      var fault: bool := *;
      if fault || (!cascade && !Childless(w.cloud, p)) {
        Count(fault);
        return Err(Other);
      }
      PoolGoes(w.cloud, e, p);
      Remove(DropPool(w.cloud, p), e);
    }

    method RemovePools(e: Id) returns (r: Result<()>)
      requires Valid() && Here().pc.Tear? && Here().pc.e == e
      modifies this
      ensures Valid() && Here().pc == old(Here().pc)
      ensures r.Ok? ==> PoolsOf(w.cloud, e) == {}
      ensures r.Err? ==> r.error == Other
      ensures cascade ==> Failed(r.Err?)
    {
      hide CalmRun, Honest, TreeOf, WF, TearStep, PoolsOf, Moves;
      var fault: bool := *;
      if fault {
        Count(true);
        return Err(Other);
      }
      var todo := PoolsOf(w.cloud, e);
      PauseTearing(e);
      while todo != {}
        invariant Valid() && Here().pc == old(Here().pc) && (cascade ==> Failed(false))
        invariant PoolsOf(w.cloud, e) == todo
        decreases todo
      {
        var p :| p in todo;
        r := RemovePool(e, p);
        if r.Err? {
          return;
        }
        todo := todo - {p};
      }
      r := Ok(());
    }

    method RemoveListeners(e: Id) returns (r: Result<()>)
      requires Valid() && Here().pc.Tear? && Here().pc.e == e && PoolsOf(w.cloud, e) == {}
      modifies this
      ensures Valid() && Here().pc == old(Here().pc)
      ensures r.Ok? ==> ListenersOf(w.cloud, e) == {}
      ensures r.Err? ==> r.error == Other
      ensures Failed(r.Err?)
    {
      hide CalmRun, Honest, TreeOf, WF, TearStep, PoolsOf, ListenersOf, DropListener, Moves;
      var fault: bool := *;
      if fault {
        Count(true);
        return Err(Other);
      }
      var todo := ListenersOf(w.cloud, e);
      PauseTearing(e);
      while todo != {}
        invariant Valid() && Here().pc == old(Here().pc) && Failed(false)
        invariant PoolsOf(w.cloud, e) == {} && ListenersOf(w.cloud, e) == todo
        decreases todo
      {
        fault := *;
        if fault {
          Count(true);
          return Err(Other);
        }
        var l :| l in todo;
        KnowsTorn();
        ListenerGone(w.cloud, e, l, false);
        Remove(DropListener(w.cloud, l), e);
        todo := todo - {l};
      }
      r := Ok(());
    }

    /** deleteELBStack, with everybody else at work between its calls. Unless it fails otherwise the
        ELB is gone, and on a cloud that cascades only a fault makes it fail otherwise. */
    method TearDown(os: Option<Svc>, ob: Option<Binding>, e: Id) returns (r: Result<()>)
      requires Valid() && Here().pc == Tear(os, ob, e)
      modifies this
      ensures Valid() && Here().pc == Tear(os, ob, e)
      ensures r.Ok? || r.error == NotFound ==> e !in w.cloud.elbs
      ensures cascade ==> Failed(r.Err? && r.error != NotFound)
    {
      hide CalmRun, Honest, TreeOf, WF, TearStep, PoolsOf, ListenersOf, Moves, DropElb;
      r := RemovePools(e);
      if r.Err? {
        return;
      }
      r := RemoveListeners(e);
      if r.Err? {
        return;
      }
      var fault: bool := *;
      if fault {
        Count(true);
        return Err(Other);
      }
      if e !in w.cloud.elbs {
        return Err(NotFound);
      }
      KnowsTorn();
      LastStep(w.cloud, e, false);
      Remove(DropElb(w.cloud, e), e);
    }

    /** The teardown as part of a cleanup: that the ELB was gone already counts as success. */
    method DeleteStack(os: Option<Svc>, ob: Option<Binding>, e: Id) returns (r: Result<()>)
      requires Valid() && Here().pc == Tear(os, ob, e)
      modifies this
      ensures Valid() && Here().pc == if r.Ok? then AfterElb(os, ob) else Idle
      ensures cascade ==> Failed(r.Err?)
    {
      hide CalmRun, Agree, Honest, AfterElb, TearStep, Kept;
      r := TearDown(os, ob, e);
      if r.Ok? || r.error == NotFound {
        r := Ok(());
        To(AfterElb(os, ob));
      } else {
        To(Idle);
      }
    }

    /** The group to delete: the recorded one, or else one found by the Service's group name. */
    method FindGroup(os: Option<Svc>, ob: Option<Binding>) returns (r: Result<Option<Id>>)
      requires Valid() && Here().pc == AfterElb(os, ob)
      modifies this
      ensures Valid()
      ensures Here().pc == if r.Err? then Idle else if r.value.Some? then GroupDrop(os, ob, r.value.value)
        else Release(os, ob)
      ensures Failed(r.Err?)
    {
      hide CalmRun, Agree, Honest, GroupName, DropGroup, FoundGroup, Kept, TearStep, ChildStep;
      if ob.Some? && ob.value.acl.Some? {
        r := Ok(ob.value.acl);
      } else if os.Some? {
        r := FindIPGroupByName(GroupName(k), x => GroupFound(os.value, ob, x), Idle);
      } else {
        r := Ok(None);
      }
    }

    method DeleteIPGroup(os: Option<Svc>, ob: Option<Binding>, g: Id) returns (r: Result<()>)
      requires Valid() && Here().pc == GroupDrop(os, ob, g)
      modifies this
      ensures Valid() && Here().pc == if r.Ok? then Release(os, ob) else Idle
      ensures Failed(r.Err?)
    {
      hide CalmRun, Agree, Honest, GroupName, DropGroup, FoundGroup, Kept, TearStep, ChildStep;
      var fault: bool := *;
      if fault {
        To(Idle);
        r := Err(Other);
      } else {
        Go(DropGroup(w.cloud, g), Here().(pc := Release(os, ob)));
        r := Ok(());
      }
      Count(fault);
    }

    method DeleteGroup(os: Option<Svc>, ob: Option<Binding>) returns (r: Result<()>)
      requires Valid() && Here().pc == AfterElb(os, ob)
      modifies this
      ensures Valid() && Here().pc == if r.Ok? then Release(os, ob) else Idle
      ensures Failed(r.Err?)
    {
      hide CalmRun, Agree, Honest, AfterElb;
      var found := FindGroup(os, ob);
      if found.Err? {
        return Err(found.error);
      }
      r := Ok(());
      if found.value.Some? {
        r := DeleteIPGroup(os, ob, found.value.value);
      }
    }

    /** The ELB to delete: the recorded one, or else one found by the Service's ELB name. */
    method FindElb(os: Option<Svc>, ob: Option<Binding>) returns (r: Result<Option<Id>>)
      requires Valid() && Here().pc == CleanStart(os, ob)
      modifies this
      ensures Valid()
      ensures Here().pc == if r.Err? then Idle else if r.value.Some? then Tear(os, ob, r.value.value)
        else AfterElb(os, ob)
      ensures Failed(r.Err?)
    {
      hide CalmRun, Agree, Honest, ElbName, AfterElb, ChildStep, TearStep, Found, FoundGroup, Kept, ListenersOf;
      if ob.Some? && ob.value.elb.Some? {
        r := Ok(ob.value.elb);
      } else if os.Some? {
        r := FindELBByName(ElbName(k, os.value), x => CleanFound(os.value, ob, x), Idle);
      } else {
        r := Ok(None);
      }
    }

    /** cleanupBindingResources. If it says `done`, then, with the Service at hand, no ELB created
        for it and no group of its name is left; and nothing that the binding recorded is live. On a
        cloud that cascades only a fault can keep it from getting there. */
    method CleanupBindingResources(os: Option<Svc>, ob: Option<Binding>) returns (done: bool)
      requires Valid() && Here().pc == CleanStart(os, ob)
      modifies this
      ensures Valid() && Here().pc.Idle?
      ensures done && os.Some? ==> NoElb(w.cloud, Tag(os.value.uid)) && NoGroup(w.cloud, k)
      ensures done && ob.Some? ==> Dead(w.cloud, ob.value)
      ensures done && ob.Some? && ob.value.finalizer ==> Released(Here().binding)
      ensures cascade ==> Failed(!done)
    {
      hide CalmRun, Agree, Honest, Moves, Tag, NoElb, NoGroup, Dead, AfterElb, CleanStart;
      var e := FindElb(os, ob);
      if e.Err? {
        return false;
      }
      if e.value.Some? {
        var gone := DeleteStack(os, ob, e.value.value);
        if gone.Err? {
          return false;
        }
      }
      var dropped := DeleteGroup(os, ob);
      if dropped.Err? {
        return false;
      }
      done := RemoveFinalizer(os, ob);
    }

    lemma ReleaseMoves(os: Option<Svc>, ob: Option<Binding>)
      requires k in w.locals && Here().pc == Release(os, ob)
      ensures ob.Some? && ob.value.finalizer && Here().binding.Some? ==>
        var b' := DropFinalizer(Here().binding.value);
        Moves(k, w.cloud, Here(), w.cloud, Here().(binding := b', pc := Idle)) && Released(b')
    {
    }

    /** The end of a cleanup: the binding may go. */
    method RemoveFinalizer(os: Option<Svc>, ob: Option<Binding>) returns (done: bool)
      requires Valid() && Here().pc == Release(os, ob)
      modifies this
      ensures Valid() && Here().pc.Idle?
      ensures done && os.Some? ==> NoElb(w.cloud, Tag(os.value.uid)) && NoGroup(w.cloud, k)
      ensures done && ob.Some? ==> Dead(w.cloud, ob.value)
      ensures done && ob.Some? && ob.value.finalizer ==> Released(Here().binding)
      ensures cascade ==> Failed(!done)
    {
      hide CalmRun, Agree, Honest, Tag, NoElb, NoGroup, Dead, Moves, DropFinalizer, KInv, Inv, Sound;
      ghost var l, c := Here(), w.cloud;
      Knows();
      ReleaseMoves(os, ob);
      var fault: bool := *;
      if ob.Some? && ob.value.finalizer {
        if fault {
          To(Idle);
          Count(true);
          return false;
        }
        if Here().binding.Some? {
          Go(w.cloud, Here().(binding := DropFinalizer(Here().binding.value), pc := Idle));
        } else {
          To(Idle);
        }
      } else {
        To(Idle);
      }
      CleanStays(k, c, w.cloud, l);
      done := true;
    }

    /** reconcileDelete: a binding that cannot be read is taken to be absent; that keeps it from nothing
        but releasing the binding. */
    method ReconcileDelete(s: Svc) returns (done: bool)
      requires Valid() && Here().pc == Deleting(s)
      modifies this
      ensures Valid() && Here().pc.Idle?
      ensures done ==> NoElb(w.cloud, Tag(s.uid)) && NoGroup(w.cloud, k)
      ensures cascade && faults == old(faults) ==> done
      ensures done && cascade && Flawless() && !Released(old(Here().binding)) ==> Released(Here().binding)
    {
      hide CalmRun, Agree, Honest, Tag, NoElb, NoGroup, Dead, CleanStart;
      var got := GetBinding(ob => CleanStart(Some(s), ob), CleanStart(Some(s), None));
      done := CleanupBindingResources(Some(s), if got.Ok? then got.value else None);
    }

    /** reconcileOrphanedBinding: the Service is gone. If it says `done`, nothing that binding `ob`
        recorded is live any more; this was the binding before the Service was found to be gone. */
    method ReconcileOrphanedBinding(ghost ob: Option<Binding>) returns (done: bool)
      requires Valid() && Here().pc == Orphan && BindingStays(ob, Here().binding)
      requires ob.Some? && !ob.value.finalizer ==>
        Dead(w.cloud, ob.value) && Recorded(k, w.cloud, ob.value) && Tag(ob.value.uid) in Here().tags
      modifies this
      ensures Valid() && Here().pc.Idle?
      ensures done && ob.Some? ==> Dead(w.cloud, ob.value)
      ensures done ==> Released(Here().binding)
      ensures cascade && faults == old(faults) ==> done
    {
      hide CalmRun, Agree, Honest, Tag, NoElb, NoGroup, Dead, CleanStart, Recorded;
      ghost var c0, l0 := w.cloud, Here();
      var got := GetBinding(x => Orphaned(x), Idle);
      if ob.Some? && !ob.value.finalizer {
        DeadStays(k, c0, w.cloud, l0.tags, ob.value);
      }
      if got.Err? {
        return false;
      }
      if got.value.None? || !got.value.value.finalizer {
        return true;
      }
      done := CleanupBindingResources(None, got.value);
      if done {
        SameDead(ob, got.value, w.cloud);
      }
    }

    /** A binding without the finalizer records nothing that is live. */
    lemma KnowsReleased()
      requires Valid() && Here().binding.Some? && !Here().binding.value.finalizer
      ensures Dead(w.cloud, Here().binding.value) && Recorded(k, w.cloud, Here().binding.value)
      ensures Tag(Here().binding.value.uid) in Here().tags
    {
      Knows();
      hide SvcOk, SnapOk, PcOk, Guards, OneGroup, Inv, CalmRun, Honest, Sound, Tag, NameTag, NoElb, OnlyElb;
      hide OnlyGroup, Named;
    }

    // -------------------------------------------------------------------------
    // Reconcile
    // -------------------------------------------------------------------------

    lemma KnowsSvc()
      requires Valid() && Here().svc.Some?
      ensures |Here().svc.value.uid| >= 10 && Tag(Here().svc.value.uid) in Here().tags
    {
      Knows();
      hide SnapOk, PcOk, BindingOk, Guards, OneGroup, Inv, CalmRun, Honest, Sound, ElbName, Tag;
    }

    /** What a process finds that is about to start. */
    lemma KnowsIdle()
      requires Valid() && Here().pc.Idle?
      ensures WF(w.cloud)
      ensures Wanted(Here().svc) ==>
        BindingFacts(k, w.cloud, Here()) && |Here().svc.value.uid| >= 10 && Tag(Here().svc.value.uid) in Here().tags
      ensures Here().binding.Some? && !Here().binding.value.finalizer ==>
        var b := Here().binding.value; Dead(w.cloud, b) && Recorded(k, w.cloud, b) && Tag(b.uid) in Here().tags
    {
      Knows();
      hide KInv, Inv, CalmRun, Honest, WF, BindingFacts, Dead, Recorded, Tag;
      if Wanted(Here().svc) {
        KnowsAlive();
        KnowsSvc();
      }
      if Here().binding.Some? && !Here().binding.value.finalizer {
        KnowsReleased();
      }
    }

    lemma RouteMoves(s: Svc)
      requires k in w.locals && Here().pc == Route(s)
      ensures May(Find(s)) && May(Routed(s, Here().binding))
    {
    }

    /** Reconcile from the routing on: update if the binding records an ELB, else, or if it cannot be
        read, create. */
    method Provide(s: Svc, inputs: Inputs, networkKnown: bool, active: bool)
      returns (r: Outcome, ghost e: Id, ghost g: Option<Id>)
      requires Valid() && Here().pc == Route(s)
      modifies this
      ensures Valid() && Here().pc.Idle?
      ensures r.Finished? ==> Reached(k, old(w.cloud), old(Here()), w.cloud, s, inputs, e, g)
      ensures r.Finished? && Flawless() ==> Records(Here().binding, e, g)
      ensures r.Again? ==> Holding(k, w.cloud, s, e)
      ensures r.Again? && Flawless() ==>
        RecordedElb(old(Here().binding)).None? && RecordedElb(Here().binding) == Some(e)
      ensures Rests(k, old(w.cloud), old(Here().binding), s, inputs) ==>
        Unmoved(k, old(w.cloud), w.cloud, RecordedElb(old(Here().binding)).value)
      ensures (cascade && networkKnown && active && Able(k, s, inputs)
               && Clear(old(w.cloud), old(Here().binding), s, inputs) && faults == old(faults)) ==>
        !r.Later?
      ensures Stationed(old(w.cloud), w.cloud, e, inputs.first, inputs.second)
      ensures RecordedElb(old(Here().binding)) == Some(e) || Holding(k, old(w.cloud), s, e) || e >= old(w.cloud.next)
      ensures RecordedElb(old(Here().binding)).Some? ==>
        Stationed(old(w.cloud), w.cloud, RecordedElb(old(Here().binding)).value, inputs.first, inputs.second)
      ensures Onward()
    {
      hide CalmRun, Agree, Honest, Holding, Able, Provided, RestsWith, ClearWith, TreeOf, GroupsStay, WF, Mine, Named;
      hide KInv, Inv, Moves, May, Unmoved, Reached, Furnished, Clear, BindingFacts, Tag, Stationed;
      ghost var c0, l0 := w.cloud, Here();
      KnowsTag(s);
      hide Snapshot;
      KnowsAlive();
      RouteMoves(s);
      var binding := GetBinding(ob => Routed(s, ob), Find(s));
      ghost var c1, l1 := w.cloud, Here();
      Steady(k, c0, l0, c1, l1, s, inputs);
      AgreeNext(k, c0, c1, l0.tags);
      KnowsAlive();
      if binding.Ok? && binding.value.Some? && binding.value.value.elb.Some? {
        r, e, g := ReconcileUpdate(s, inputs, networkKnown, active);
        SinceStart(k, c0, l0, c1, w.cloud, s, e, inputs);
        SinceStart(k, c0, l0, c1, w.cloud, s, RecordedElb(l0.binding).value, inputs);
        if Rests(k, c0, l0.binding, s, inputs) {
          UnmovedOn(k, c0, c1, w.cloud, RecordedElb(l0.binding).value);
        }
      } else {
        r, e, g := ReconcileCreate(s, inputs, networkKnown, active);
        StationedByEither(c1, w.cloud, e, inputs.first, inputs.second);
        SinceStart(k, c0, l0, c1, w.cloud, s, e, inputs);
        if RecordedElb(l0.binding).Some? {
          RecordedUnmoved(k, c1, l1, w.cloud);
          UnmovedOn(k, c0, c1, w.cloud, RecordedElb(l0.binding).value);
          UnmovedStationed(k, c0, w.cloud, RecordedElb(l0.binding).value, inputs);
        }
        if r.Finished? {
          FreshReached(k, c1, l1, w.cloud, s, inputs, e, g);
        }
      }
      if r.Finished? {
        Carried(k, c0, l0, c1, l1, w.cloud, s, inputs, e, g);
      }
    }

    /** One reconciliation of the key, from reading the Service to its end. If it finishes: a Service
        to be provided for has its ELB, recorded or new, as it asks for; of one being deleted
        nothing is left; and without a Service nothing that a binding recorded is. A Service that is
        none of the controller's business is not touched, nor is anything changed once all is as
        asked for and recorded. Without faults it finishes, or it records the ELB it has found so
        that the next one does, with the exceptions of reconcileUpdate. */
    method Reconcile(inputs: Inputs, networkKnown: bool, active: bool)
      returns (r: Outcome, ghost e: Id, ghost g: Option<Id>)
      requires Valid() && Here().pc.Idle?
      modifies this
      ensures Valid() && Here().pc.Idle?
      ensures r.Finished? && Wanted(old(Here().svc)) ==>
        && Reached(k, old(w.cloud), old(Here()), w.cloud, old(Here().svc).value, inputs, e, g)
        && (Flawless() ==> Records(Here().binding, e, g))
      ensures r.Again? ==> Wanted(old(Here().svc)) && Holding(k, w.cloud, old(Here().svc).value, e)
      ensures r.Again? && Flawless() ==>
        RecordedElb(old(Here().binding)).None? && RecordedElb(Here().binding) == Some(e)
      ensures Wanted(old(Here().svc)) && Rests(k, old(w.cloud), old(Here().binding), old(Here().svc).value, inputs) ==>
        Unmoved(k, old(w.cloud), w.cloud, RecordedElb(old(Here().binding)).value)
      ensures (Wanted(old(Here().svc)) && cascade && networkKnown && active && Able(k, old(Here().svc).value, inputs)
               && Clear(old(w.cloud), old(Here().binding), old(Here().svc).value, inputs) && faults == old(faults)) ==>
        !r.Later?
      ensures Wanted(old(Here().svc)) ==> Stationed(old(w.cloud), w.cloud, e, inputs.first, inputs.second)
      ensures Wanted(old(Here().svc)) && RecordedElb(old(Here().binding)).Some? ==>
        Stationed(old(w.cloud), w.cloud, RecordedElb(old(Here().binding)).value, inputs.first, inputs.second)
      ensures r.Finished? && Doomed(old(Here().svc)) ==>
        NoElb(w.cloud, Tag(old(Here().svc).value.uid)) && NoGroup(w.cloud, k)
      ensures r.Finished? && old(Here().svc).None? && old(Here().binding).Some? ==>
        Dead(w.cloud, old(Here().binding).value)
      ensures r.Finished? && old(Here().svc).None? ==> Released(Here().binding)
      ensures (r.Finished? && Doomed(old(Here().svc)) && cascade && Flawless()
               && !Released(old(Here().binding))) ==>
        Released(Here().binding)
      ensures cascade && faults == old(faults) && (Doomed(old(Here().svc)) || old(Here().svc).None?) ==> r.Finished?
      ensures old(Here().svc).Some? && !Wanted(old(Here().svc)) && !Doomed(old(Here().svc)) ==> Kept()
    {
      hide CalmRun, Agree, Honest, Holding, NoElb, NoGroup, Tag, Able, Reached, RestsWith, ClearWith, Unmoved, Dead;
      hide Recorded;
      hide BindingFacts, WF, KInv, Inv, Records, Stationed;
      r, e, g := Later, 0, None;
      ghost var c0, l0 := w.cloud, Here();
      KnowsIdle();
      var got := GetService();
      ghost var c1, l1 := w.cloud, Here();
      if Wanted(l0.svc) {
        var s := l0.svc.value;
        Steady(k, c0, l0, c1, l1, s, inputs);
        AgreeNext(k, c0, c1, l0.tags);
        if RecordedElb(l0.binding).Some? {
          UnmovedStationed(k, c0, c1, RecordedElb(l0.binding).value, inputs);
        }
      }
      if got.Err? {
        if Wanted(l0.svc) {
          e := NobodyStationed(c0, l0.tags, inputs);
          StationedByEither(c0, w.cloud, e, inputs.first, inputs.second);
        }
        return;
      }
      if got.value.None? {
        if l0.binding.Some? && !l0.binding.value.finalizer {
          DeadStays(k, c0, c1, l0.tags, l0.binding.value);
        }
        var gone := ReconcileOrphanedBinding(l0.binding);
        return if gone then Finished else Later, 0, None;
      }
      var s := got.value.value;
      if !s.lb {
        return Finished, 0, None;
      }
      if s.deleting {
        var gone := ReconcileDelete(s);
        return if gone then Finished else Later, 0, None;
      }
      if !s.ours {
        return Finished, 0, None;
      }
      KnowsAlive();
      r, e, g := Provide(s, inputs, networkKnown, active);
      SinceStart(k, c0, l0, c1, w.cloud, s, e, inputs);
      if RecordedElb(l0.binding).Some? {
        SinceStart(k, c0, l0, c1, w.cloud, s, RecordedElb(l0.binding).value, inputs);
      }
      if r.Finished? {
        Carried(k, c0, l0, c1, l1, w.cloud, s, inputs, e, g);
      }
      if RecordedElb(l0.binding).Some? && Rests(k, c0, l0.binding, s, inputs) {
        UnmovedOn(k, c0, c1, w.cloud, RecordedElb(l0.binding).value);
      }
    }
  }

  // What the invariant knows at single places

  lemma LoopKnows(k: Key, c: Cloud, l: Local)
    requires KInv(k, c, l)
    ensures l.pc.AclBind? ==> l.pc.g in c.groups && l.pc.left <= c.listeners.Keys
    ensures l.pc.AclUnbind? ==> l.pc.left <= c.listeners.Keys
  {
    hide SvcOk, SnapOk, BindingOk, Guards, OneGroup;
  }

  lemma RecordKnows(k: Key, c: Cloud, l: Local)
    requires KInv(k, c, l) && l.pc.Record? && !l.pc.restore
    ensures l.binding.Some? && l.binding.value.finalizer && l.binding.value.acl.None?
  {
    hide SvcOk, SnapOk, Guards, OneGroup, Recorded, Dead, NoElb;
  }

  lemma AclRecordKnows(k: Key, c: Cloud, l: Local)
    requires KInv(k, c, l) && l.pc.AclRecord?
    ensures l.binding.Some?
    ensures l.pc.acl.Some? ==> Sole(k, c, l.pc.acl.value) && l.pc.acl.value in c.groups
  {
    hide SvcOk, SnapOk, BindingOk, Guards, OneGroup, Sole;
  }

  lemma SoundIsBounded(c: Cloud)
    requires WF(c)
    ensures Bounded(c)
  {
  }

  lemma ChildGroups(k: Key, c: Cloud, c': Cloud, e: Id)
    requires c' == c || ChildStep(c, c', e)
    ensures c'.elbs == c.elbs && GroupsStay(k, c, c')
  {
    hide WF, GroupName, Rest;
  }

  lemma NothingIsStep(c: Cloud, e: Id)
    requires WF(c)
    ensures ChildStep(c, c, e)
  {
    hide WF;
  }

  lemma TendedIsStep(c: Cloud, c': Cloud, e: Id, spec: Spec, backends: seq<Backend>)
    requires WF(c') && Tended(c, c', e, spec.service, spec.ports, backends)
    ensures ChildStep(c, c', e)
  {
    TendedBelow(c, c', e, spec, backends);
    TendedKeeps(c, c', e, spec, backends);
    hide WF, Tended, OnlyBelow;
  }

  /** What the member sync of a process has done below its ELB. */
  lemma MemberSyncIs(c: Cloud, c': Cloud, e: Id, spec: Spec, second: Reading)
    requires WF(c) && WF(c') && Manned(c.members, c'.members, second, second)
    requires if second.nodes.Some? then Tended(c, c', e, spec.service, spec.ports, second.nodes.value) else c' == c
    ensures ChildStep(c, c', e) && Stationed(c, c', e, second, second)
  {
    hide WF, Tended, Manned, Stationed, ChildStep, TreeOf;
    if second.nodes.Some? {
      TendedStationed(c, c', e, spec, second.nodes.value, second, second);
      TendedIsStep(c, c', e, spec, second.nodes.value);
    } else {
      NothingIsStep(c, e);
      SameStationed(c, c', e, second, second);
    }
  }

  lemma TendedKeeps(c: Cloud, c': Cloud, e: Id, spec: Spec, backends: seq<Backend>)
    requires Tended(c, c', e, spec.service, spec.ports, backends)
    ensures c'.listeners == c.listeners && c'.groups == c.groups
  {
    hide NodePortFor, EndpointsFor;
  }

  /** Where a process stands that binds group `g` to listeners, or unbinds it. */
  function InLoop(s: Svc, e: Id, g: Id, acl: Option<Id>, todo: set<Id>): PC {
    if acl.Some? then AclBind(s, e, g, todo) else AclUnbind(s, e, g, todo)
  }

  function BeforeLoop(s: Svc, e: Id, g: Id, acl: Option<Id>): PC {
    if acl.Some? then AclList(s, e, g) else AclUnlist(s, e, g)
  }

  function AfterLoop(s: Svc, e: Id, g: Id, acl: Option<Id>): PC {
    if acl.Some? then AclRecord(s, e, acl) else AclDrop(s, e, g)
  }

  lemma SetAclGroups(k: Key, c: Cloud, x: Id, acl: Option<Id>)
    requires x in c.listeners
    ensures GroupsStay(k, c, SetAcl(c, x, acl))
  {
    hide GroupName;
  }

  lemma GroupsStayHere(k: Key, c: Cloud)
    ensures GroupsStay(k, c, c)
  {
    hide GroupName;
  }

  lemma BindingHere(b: Option<Binding>)
    ensures BindingStays(b, b)
  {
  }

  /** If the key had a group, `g` is one of those it had. */
  ghost predicate Reuses(k: Key, c: Cloud, g: Id) {
    (exists x :: Named(c, k, x)) ==> Named(c, k, g)
  }

  lemma FoundReuses(k: Key, c: Cloud, g: Option<Id>)
    requires FoundGroup(c, GroupName(k), g)
    ensures if g.Some? then Named(c, k, g.value) else forall x :: !Named(c, k, x)
    ensures forall x: Id :: g == None || g == Some(x) ==> Reuses(k, c, x)
  {
    hide GroupName;
  }

  lemma ReusesSince(k: Key, a: Cloud, b: Cloud, g: Id)
    requires GroupsStay(k, a, b)
    ensures Reuses(k, b, g) ==> Reuses(k, a, g)
  {
    hide GroupName;
    if x :| Named(a, k, x) {
      assert Named(b, k, x);
    }
  }

  /** Group `g` is the key's and holds exactly these ranges. */
  predicate GroupIs(k: Key, c: Cloud, g: Id, cidrs: seq<string>) {
    g in c.groups && c.groups[g] == Group(GroupName(k), cidrs)
  }

  lemma IsGroup(k: Key, c: Cloud, g: Id, cidrs: seq<string>)
    requires GroupIs(k, c, g, cidrs)
    ensures g in c.groups && c.groups[g] == Group(GroupName(k), cidrs)
  {
  }

  lemma GuardedIs(k: Key, c: Cloud, e: Id, acl: Option<Id>, cidrs: seq<string>)
    ensures acl.Some? && Guarded(c, e, acl.value, GroupName(k), cidrs) ==> GroupIs(k, c, acl.value, cidrs)
  {
    hide GroupName;
  }

  lemma GroupStaysPut(k: Key, c: Cloud, c': Cloud, g: Id, cidrs: seq<string>)
    requires GroupIs(k, c, g, cidrs) && GroupsStay(k, c, c')
    ensures GroupIs(k, c', g, cidrs)
  {
    assert Named(c, k, g);
    hide GroupName;
  }

  /** The cloud once the ranges are written into group `g`, or into a new one. */
  function Written(k: Key, c: Cloud, g: Option<Id>, cidrs: seq<string>): Cloud {
    if g.Some? then SetGroup(c, g.value, GroupName(k), cidrs) else AddGroup(c, GroupName(k), cidrs)
  }

  lemma GroupWritten(k: Key, c: Cloud, e: Id, g: Option<Id>, cidrs: seq<string>)
    ensures var c' := Written(k, c, g, cidrs);
      && c'.elbs == c.elbs && TreeOf(c', e) == TreeOf(c, e)
      && GroupIs(k, c', if g.Some? then g.value else c.next, cidrs)
      && (g.Some? && GroupIs(k, c, g.value, cidrs) ==> GroupsStay(k, c, c'))
  {
    TreeFrame(c, Written(k, c, g, cidrs), e);
    hide GroupName, TreeOf;
  }

  lemma GroupDropped(c: Cloud, e: Id, g: Id)
    ensures DropGroup(c, g).elbs == c.elbs && TreeOf(DropGroup(c, g), e) == TreeOf(c, e)
  {
    TreeFrame(c, DropGroup(c, g), e);
    hide TreeOf;
  }

  /** A group found by the key's name stays. */
  lemma FoundStays(k: Key, c: Cloud, c': Cloud, tags: set<string>, g: Option<Id>)
    requires Agree(k, c, c', tags) && FoundGroup(c, GroupName(k), g)
    ensures g.Some? ==> g.value in c'.groups
  {
    hide GroupName, NameTag, TreeOf;
    if g.Some? {
      assert Named(c, k, g.value);
    }
  }

  /** A recorded group that is gone has been gone before. */
  lemma RecordedStays(k: Key, c: Cloud, c': Cloud, e: Id, acl: Option<Id>)
    requires Unmoved(k, c, c', e) && (acl.Some? ==> Sole(k, c, acl.value))
    ensures RecordedDead(c', acl) ==> RecordedDead(c, acl)
  {
    hide GroupName, TreeOf;
    if acl.Some? && acl.value in c.groups {
      assert Named(c, k, acl.value);
    }
  }

  /** With ranges, what is settled is guarded by the recorded group. */
  lemma SettledMeans(k: Key, c: Cloud, c': Cloud, e: Id, cidrs: seq<string>, acl: Option<Id>)
    requires Settled(c, e, GroupName(k), cidrs, acl) ==> Settled(c', e, GroupName(k), cidrs, acl)
    ensures Settled(c, e, GroupName(k), cidrs, acl) ==> (acl.Some? <==> cidrs != [])
    ensures Settled(c, e, GroupName(k), cidrs, acl) && acl.Some? ==> Guarded(c', e, acl.value, GroupName(k), cidrs)
  {
    hide GroupName, Guarded, Open;
  }

  lemma EnsuredSo(k: Key, before: Cloud, c1: Cloud, c: Cloud, e: Id, cidrs: seq<string>, acl: Option<Id>, g: Option<Id>)
    requires g.Some? <==> cidrs != []
    requires Open(c1, e) <==> Open(before, e)
    requires g.Some? ==> Guarded(c, e, g.value, GroupName(k), cidrs)
    requires g.None? ==> if acl.Some? then Open(c, e) else c == c1
    ensures AclEnsured(k, before, c, e, cidrs, acl, g)
  {
    hide Open, Guarded;
  }

  /** What is known of a new ELB since it came is known since any earlier moment. */
  lemma NewStationed(a: Cloud, b: Cloud, c: Cloud, e: Id, inputs: Inputs)
    requires WF(a) && WF(b) && a.next <= b.next <= e
    ensures Stationed(b, c, e, inputs.first, inputs.first) ==> Stationed(a, c, e, inputs.first, inputs.first)
  {
    hide WF, Manned;
    NobodyHasNoMembers(a, e);
    NobodyHasNoMembers(b, e);
    hide TreeOf;
  }

  lemma RecordedUnmoved(k: Key, c: Cloud, l: Local, c': Cloud)
    requires BindingFacts(k, c, l) && Agree(k, c, c', l.tags) && RecordedElb(l.binding).Some?
    ensures Unmoved(k, c, c', RecordedElb(l.binding).value)
  {
    AgreeUnmoved(k, c, c', l.tags, RecordedElb(l.binding).value);
    hide Unmoved, Agree;
  }

  lemma FreshReached(k: Key, c: Cloud, l: Local, c': Cloud, s: Svc, inputs: Inputs, e: Id, g: Option<Id>)
    requires RecordedElb(l.binding).None? && RecordedAcl(l.binding).None?
    requires Furnished(k, c', s, inputs, e, g) && e >= c.next
    ensures Reached(k, c, l, c', s, inputs, e, g)
  {
    hide Furnished;
  }

  lemma UnmovedStationed(k: Key, a: Cloud, b: Cloud, e: Id, inputs: Inputs)
    requires Unmoved(k, a, b, e)
    ensures Stationed(a, b, e, inputs.first, inputs.second)
  {
    SameStationed(a, b, e, inputs.first, inputs.second);
    hide TreeOf, Manned, GroupsStay;
  }

  /** What is known since a process has read its recorded ELB, has found one of its Service, or has created
      one, is known since any earlier moment at which it worked on this Service. */
  lemma SinceStart(k: Key, a: Cloud, l: Local, b: Cloud, c: Cloud, s: Svc, e: Id, inputs: Inputs)
    requires WF(a) && WF(b) && |s.uid| >= 10 && Tag(s.uid) in l.tags && Agree(k, a, b, l.tags)
    requires Unmoved(k, a, b, e) || Holding(k, b, s, e) || e >= b.next
    ensures Stationed(b, c, e, inputs.first, inputs.second) ==> Stationed(a, c, e, inputs.first, inputs.second)
    ensures Holding(k, b, s, e) ==> Holding(k, a, s, e)
  {
    hide WF, Manned;
    AgreeNext(k, a, b, l.tags);
    if Holding(k, b, s, e) {
      NameHasTag(k, b, s, e);
      assert Mine(b, e, l.tags);
      hide NameTag, Tag;
      AgreeUnmoved(k, a, b, l.tags, e);
    } else if e >= b.next {
      NobodyHasNoMembers(a, e);
      NobodyHasNoMembers(b, e);
    }
    hide TreeOf, GroupsStay;
  }

  lemma NobodyListens(c: Cloud)
    requires Sound(c)
    ensures ListenersOf(c, c.next) == {}
  {
  }

  lemma NewIsEmpty(k: Key, c: Cloud, l: Local, s: Svc)
    requires KInv(k, c, l) && Sound(c) && l.pc == Create(s)
    ensures var c' := AddElb(c, ElbName(k, s)); ListenersOf(c', c.next) == {} && Mine(c', c.next, l.tags)
  {
    TagOfName(k, s);
    hide ElbName, Tag, NameTag, BindingOk, Guards, OneGroup, SvcOk;
  }

  lemma MineListeners(k: Key, c: Cloud, c': Cloud, tags: set<string>, e: Id)
    requires Agree(k, c, c', tags) && Mine(c, e, tags)
    ensures ListenersOf(c', e) == ListenersOf(c, e) && Mine(c', e, tags)
  {
    hide NameTag, GroupName, TreeOf;
  }

  lemma SoleStays(k: Key, c: Cloud, c': Cloud, tags: set<string>, g: Id)
    requires Agree(k, c, c', tags) && Sole(k, c, g) && g in c.groups
    ensures Named(c', k, g)
  {
    hide GroupName, NameTag, TreeOf;
  }

  /** The binding records this ELB and this group, and has the finalizer. */
  predicate Records(ob: Option<Binding>, e: Id, acl: Option<Id>) {
    ob.Some? && ob.value.finalizer && ob.value.elb == Some(e) && ob.value.acl == acl
  }

  lemma AgreeNext(k: Key, c: Cloud, c': Cloud, tags: set<string>)
    requires Agree(k, c, c', tags)
    ensures c.next <= c'.next
  {
  }

  lemma EnsuredOn(k: Key, before: Cloud, c: Cloud, c': Cloud, e: Id, cidrs: seq<string>, acl: Option<Id>, g: Option<Id>)
    requires AclEnsured(k, before, c, e, cidrs, acl, g) && Unmoved(k, c, c', e)
    requires g.Some? ==> Named(c, k, g.value) || Named(c', k, g.value)
    ensures AclEnsured(k, before, c', e, cidrs, acl, g)
  {
    TreePorts(c, c', e);
    TreePorts(c', c, e);
    hide TreeOf, GroupName, Open, Guarded;
    if g.Some? {
      assert Named(c, k, g.value) && Named(c', k, g.value) && c'.groups[g.value] == c.groups[g.value];
      SameGuarded(k, c, c', e, g.value, cidrs);
    }
  }

  lemma SameGuarded(k: Key, c: Cloud, c': Cloud, e: Id, g: Id, cidrs: seq<string>)
    requires TreeOf(c', e) == TreeOf(c, e) && g in c.groups && g in c'.groups && c'.groups[g] == c.groups[g]
    ensures Guarded(c', e, g, GroupName(k), cidrs) <==> Guarded(c, e, g, GroupName(k), cidrs)
  {
    hide Guarded, TreeOf, GroupName;
    if Guarded(c, e, g, GroupName(k), cidrs) {
      TreeGuarded(c, c', e, g, GroupName(k), cidrs);
    }
    if Guarded(c', e, g, GroupName(k), cidrs) {
      TreeGuarded(c', c, e, g, GroupName(k), cidrs);
    }
  }

  lemma FitsLater(c: Cloud, c': Cloud, e: Id, spec: Spec, inputs: Inputs)
    requires PortsSynced(c, c', e, spec, inputs.first.nodes, inputs.second.nodes)
    ensures Fits(c, e, inputs.first.nodes) ==> Readable(c', e)
  {
    hide Readable, Primed, PortsOnly, Open, Stale, DistinctPorts;
  }

  lemma BothSyncedLater(c: Cloud, b: Cloud, c': Cloud, e: Id, spec: Spec, inputs: Inputs)
    requires TreeOf(c', e) == TreeOf(b, e) && BothSynced(c, b, e, spec, inputs.first.nodes, inputs.second.nodes)
    ensures BothSynced(c, c', e, spec, inputs.first.nodes, inputs.second.nodes)
  {
    TreePorts(b, c', e);
    TreePorts(c', b, e);
    TreeAsBefore(b, c', e, spec);
    BroughtOn(c, b, c', e, spec, inputs.first.nodes, inputs.second.nodes);
    hide TreeOf, Brought, AsBefore, Open, Stale;
  }

  /** The group that is gone was gone before. */
  lemma DeadLater(k: Key, c: Cloud, c': Cloud, acl: Option<Id>)
    requires GroupsStay(k, c, c') && (acl.Some? ==> Sole(k, c, acl.value))
    ensures RecordedDead(c', acl) ==> RecordedDead(c, acl)
  {
    hide GroupName;
    if acl.Some? && acl.value in c.groups {
      assert Named(c, k, acl.value);
    }
  }

  lemma PatchedOn(a: Option<Binding>, b: Option<Binding>, acl: Option<Id>, c: Option<Binding>)
    requires BindingStays(a, b) && BindingStays(WithAcl(b, acl), c)
    ensures BindingStays(WithAcl(a, acl), c)
  {
  }

  /** While only others work, an alive key keeps its binding, and what hangs below its ELB. */
  lemma Steady(k: Key, c: Cloud, l: Local, c': Cloud, l': Local, s: Svc, inputs: Inputs)
    requires BindingFacts(k, c, l) && Agree(k, c, c', l.tags) && BindingStays(l.binding, l'.binding)
    ensures RecordedElb(l'.binding) == RecordedElb(l.binding) && RecordedAcl(l'.binding) == RecordedAcl(l.binding)
    ensures RecordedElb(l.binding).Some? ==> Unmoved(k, c, c', RecordedElb(l.binding).value)
    ensures Rests(k, c, l.binding, s, inputs) ==> Rests(k, c', l'.binding, s, inputs)
    ensures Clear(c, l.binding, s, inputs) ==> Clear(c', l'.binding, s, inputs)
  {
    hide RestsWith, ClearWith, Unmoved, Agree, Mine, Named;
    if RecordedElb(l.binding).Some? {
      var e := RecordedElb(l.binding).value;
      AgreeUnmoved(k, c, c', l.tags, e);
      RestsLater(k, c, c', e, RecordedAcl(l.binding), s, inputs);
      ClearLater(k, c, c', e, RecordedAcl(l.binding), s, inputs);
    }
  }

  /** What KnowsRecorded knows. */
  ghost predicate BindingFacts(k: Key, c: Cloud, l: Local) {
    l.binding.Some? ==>
      var b := l.binding.value;
      && b.finalizer
      && (b.elb.Some? ==> Mine(c, b.elb.value, l.tags))
      && (b.acl.Some? && b.acl.value in c.groups ==> Named(c, k, b.acl.value))
  }

  lemma Carried(k: Key, a: Cloud, l: Local, c: Cloud, l': Local, c': Cloud, s: Svc, inputs: Inputs, e: Id,
      g: Option<Id>)
    requires Reached(k, c, l', c', s, inputs, e, g) && a.next <= c.next
    requires RecordedElb(l'.binding) == RecordedElb(l.binding) && RecordedAcl(l'.binding) == RecordedAcl(l.binding)
    requires RecordedElb(l.binding).Some? ==> Unmoved(k, a, c, RecordedElb(l.binding).value)
    ensures Reached(k, a, l, c', s, inputs, e, g)
  {
    hide Provided, Furnished, GroupsStay, TreeOf;
    if RecordedElb(l.binding).Some? {
      ProvidedSince(k, a, c, c', s, inputs, e, RecordedAcl(l.binding), g);
    }
  }

  /** What is dead stays dead. */
  lemma DeadStays(k: Key, c: Cloud, c': Cloud, tags: set<string>, b: Binding)
    requires Agree(k, c, c', tags) && Recorded(k, c, b) && Tag(b.uid) in tags && Dead(c, b)
    ensures Dead(c', b) && Recorded(k, c', b)
  {
    AgreeRecorded(k, c, c', tags, b);
  }

  lemma SameDead(a: Option<Binding>, b: Option<Binding>, c: Cloud)
    requires BindingStays(a, b) && a.Some? && b.Some? && Dead(c, b.value)
    ensures Dead(c, a.value)
  {
  }

  /** The binding may go, or has gone. */
  predicate Released(ob: Option<Binding>) {
    ob.Some? ==> !ob.value.finalizer
  }

  predicate Wanted(os: Option<Svc>) {
    os.Some? && os.value.lb && !os.value.deleting && os.value.ours
  }

  predicate Doomed(os: Option<Svc>) {
    os.Some? && os.value.lb && os.value.deleting
  }

  /** A finished cleanup stays finished. */
  lemma CleanStays(k: Key, c: Cloud, c': Cloud, l: Local)
    requires KInv(k, c, l) && l.pc.Release? && Agree(k, c, c', l.tags)
    ensures l.pc.os.Some? ==> NoElb(c', Tag(l.pc.os.value.uid)) && NoGroup(c', k)
    ensures l.pc.ob.Some? ==> Dead(c', l.pc.ob.value)
  {
    AtRelease(k, c, l);
    AgreeGroups(k, c, c', l.tags);
    if l.pc.os.Some? {
      AgreeTags(k, c, c', l.tags, Tag(l.pc.os.value.uid));
    }
    if l.pc.ob.Some? {
      AgreeRecorded(k, c, c', l.tags, l.pc.ob.value);
    }
    hide Agree, Tag, NoElb, NoGroup, Dead, Recorded, BindingOk, Guards, OneGroup, SvcOk, Stable, NameTag, OnlyElb;
    hide HasTag;
  }

  // ---------------------------------------------------------------------------
  // Teardown
  // ---------------------------------------------------------------------------

  /** What hangs below ELB `e` is as it was; if the ELB was gone it still is. */
  ghost predicate StillTearing(c: Cloud, c': Cloud, e: Id) {
    && (e in c'.elbs <==> e in c.elbs)
    && PoolsOf(c', e) == PoolsOf(c, e) && ListenersOf(c', e) == ListenersOf(c, e)
    && forall p :: p in PoolsOf(c, e) ==> MonitorsOf(c', p) == MonitorsOf(c, p) && MembersOf(c', p) == MembersOf(c, p)
  }

  lemma TearsOn(k: Key, c: Cloud, c': Cloud, tags: set<string>, e: Id)
    requires Agree(k, c, c', tags) && WF(c) && WF(c') && e < c.next && (e in c.elbs ==> Mine(c, e, tags))
    ensures StillTearing(c, c', e)
  {
    if e in c.elbs {
      SameTree(c, c', e);
      assert e in c'.elbs;
    } else {
      NothingBelow(c, e);
      assert e !in c'.elbs;
      NothingBelow(c', e);
    }
    hide TreeOf, NameTag, GroupName, WF, PoolsOf, ListenersOf, MonitorsOf, MembersOf;
  }

  lemma TearsMine(c: Cloud, c': Cloud, e: Id, tags: set<string>)
    requires TearStep(c, c', e, false) && WF(c) && (e in c.elbs ==> Mine(c, e, tags)) && e < c.next
    ensures WF(c') && e < c'.next && (e in c'.elbs ==> Mine(c', e, tags))
  {
    hide TearStep, NameTag, WF;
    TearKeepsWF(c, c', e);
    TearShrinks(c, c', e);
  }

  lemma MonitorGoes(c: Cloud, e: Id, p: Id, m: Id)
    requires p in PoolsOf(c, e) && m in MonitorsOf(c, p)
    ensures var c' := DropMonitor(c, m);
      && TearStep(c, c', e, false)
      && PoolsOf(c', e) == PoolsOf(c, e) && MonitorsOf(c', p) == MonitorsOf(c, p) - {m}
  {
    assert MonitorOn(c, m, e);
    assert PoolsOf(DropMonitor(c, m), e) == PoolsOf(c, e);
  }

  lemma MemberGoes(c: Cloud, e: Id, p: Id, m: Id)
    requires p in PoolsOf(c, e) && m in MembersOf(c, p)
    ensures var c' := DropMember(c, m);
      && TearStep(c, c', e, false)
      && PoolsOf(c', e) == PoolsOf(c, e) && MonitorsOf(c', p) == MonitorsOf(c, p)
      && MembersOf(c', p) == MembersOf(c, p) - {m}
  {
    assert MemberOn(c, m, e);
    assert PoolsOf(DropMember(c, m), e) == PoolsOf(c, e);
  }

  lemma PoolGoes(c: Cloud, e: Id, p: Id)
    requires p in PoolsOf(c, e)
    ensures var c' := DropPool(c, p); TearStep(c, c', e, false) && PoolsOf(c', e) == PoolsOf(c, e) - {p}
  {
    assert PoolOn(c, p, e);
    SetsAfterDropPool(c, p, e);
  }
}
