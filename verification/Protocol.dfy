/** The reconcile protocol of internal/controller/service_controller.go as a state machine: one
    process per Service key, each step one call to the cloud or to the API server, any number of
    keys interleaved, every process free to stop between any two calls. */
module Protocol {
  import opened Common
  import opened Naming
  import opened CloudModel
  import opened Steps

  datatype Key = Key(namespace: string, name: string)

  /** `cidrs` are the source ranges that parse; `lb` and `ours` tell whether the Service is of type
      LoadBalancer and passes the checks for foreign and legacy load balancers. */
  datatype Svc = Svc(uid: string, params: map<string, string>, cidrs: seq<string>, lb: bool, ours: bool, deleting: bool)

  /** An ELBBinding: whose it is, whether it carries the cleanup finalizer, whether it is being
      deleted, and what its status records. */
  datatype Binding = Binding(uid: string, finalizer: bool, deleting: bool, elb: Option<Id>, acl: Option<Id>)

  /** Where the process of a key stands, with its local variables: `s` is the Service as it was
      read, `os` and `ob` the Service and binding a cleanup works on, if they were there. */
  datatype PC =
    | Idle
    | Route(s: Svc)
    | Update(s: Svc)
    | Heal(s: Svc, e: Id, acl: Option<Id>)
    | Find(s: Svc)
    | Create(s: Svc)
    | Bind(s: Svc, e: Id, restore: bool)
    | Rebind(s: Svc, e: Id, restore: bool)
    | NewBinding(s: Svc, e: Id, restore: bool)
    | Mend(s: Svc, e: Id, restore: bool)
    | Record(s: Svc, e: Id, restore: bool)
    | Work(s: Svc, e: Id, acl: Option<Id>)
    | AclFind(s: Svc, e: Id)
    | AclCreate(s: Svc, e: Id)
    | AclUpdate(s: Svc, e: Id, g: Id)
    | AclList(s: Svc, e: Id, g: Id)
    | AclBind(s: Svc, e: Id, g: Id, left: set<Id>)
    | AclUnlist(s: Svc, e: Id, g: Id)
    | AclUnbind(s: Svc, e: Id, g: Id, left: set<Id>)
    | AclDrop(s: Svc, e: Id, g: Id)
    | AclRecord(s: Svc, e: Id, acl: Option<Id>)
    | Orphan
    | Deleting(s: Svc)
    | CleanFind(s: Svc, ob: Option<Binding>)
    | Tear(os: Option<Svc>, ob: Option<Binding>, e: Id)
    | GroupFind(s: Svc, ob: Option<Binding>)
    | GroupDrop(os: Option<Svc>, ob: Option<Binding>, g: Id)
    | Release(os: Option<Svc>, ob: Option<Binding>)

  /** Everything of one key. `tags` are the UID prefixes Services of this key ever had. */
  datatype Local = Local(svc: Option<Svc>, binding: Option<Binding>, pc: PC, tags: set<string>)

  datatype World = World(cloud: Cloud, locals: map<Key, Local>)

  function ElbName(k: Key, s: Svc): string {
    BuildELBName(s.params, k.namespace, k.name, s.uid)
  }

  function GroupName(k: Key): string {
    AclName(k.namespace, k.name)
  }

  // ---------------------------------------------------------------------------
  // The steps of a process
  // ---------------------------------------------------------------------------

  /** What a lookup by name may return: any ELB of that name, or none if there is none. */
  predicate Found(c: Cloud, name: string, r: Option<Id>) {
    match r
    case None => forall e :: e in c.elbs ==> c.elbs[e] != name
    case Some(e) => e in c.elbs && c.elbs[e] == name
  }

  predicate FoundGroup(c: Cloud, name: string, r: Option<Id>) {
    match r
    case None => forall g :: g in c.groups ==> c.groups[g].name != name
    case Some(g) => g in c.groups && c.groups[g].name == name
  }

  /** A change below ELB `e` by the syncs of listeners and members: nothing else changes, nor a
      listener's access control; new listeners are open. */
  ghost predicate ChildStep(c: Cloud, c': Cloud, e: Id) {
    && WF(c')
    && OnlyBelow(c, c', e)
    && c'.groups == c.groups
    && (forall l :: l in c.listeners && c.listeners[l].elb != e ==>
       l in c'.listeners && c'.listeners[l] == c.listeners[l])
    && (forall l :: l in c'.listeners ==>
          if l in c.listeners then c'.listeners[l] == c.listeners[l]
            else c'.listeners[l].elb == e && c'.listeners[l].acl.None?)
  }

  /** Where an ensureBinding that failed leaves the process: only a restore goes on. */
  function BindFailed(s: Svc, e: Id, restore: bool): PC {
    if restore then Record(s, e, true) else Idle
  }

  function AfterRecord(s: Svc, e: Id, restore: bool): PC {
    if restore then Idle else Work(s, e, None)
  }

  /** Where reading the Service leads: gone, being deleted, or to be provided for. */
  function Start(os: Option<Svc>): PC {
    match os
    case None => Orphan
    case Some(s) => if s.lb && s.deleting then Deleting(s) else if s.lb && s.ours then Route(s) else Idle
  }

  function Routed(s: Svc, ob: Option<Binding>): PC {
    if ob.Some? && ob.value.elb.Some? then Update(s) else Find(s)
  }

  function Updated(s: Svc, ob: Option<Binding>): PC {
    if ob.Some? && ob.value.elb.Some? then
      var e, acl := ob.value.elb.value, ob.value.acl;
      if ob.value.finalizer then Work(s, e, acl) else Heal(s, e, acl)
    else
      Find(s)
  }

  /** Where ensureBinding goes once it has read the binding. */
  function Bound(s: Svc, e: Id, restore: bool, ob: Option<Binding>): PC {
    match ob
    case None => NewBinding(s, e, restore)
    case Some(b) =>
      if b.uid != s.uid then Rebind(s, e, restore)
      else if b.finalizer then Record(s, e, restore)
      else Mend(s, e, restore)
  }

  function ElbFound(s: Svc, e: Option<Id>): PC {
    if e.Some? then Bind(s, e.value, true) else Create(s)
  }

  function AclFound(s: Svc, e: Id, g: Option<Id>): PC {
    if g.Some? then AclUpdate(s, e, g.value) else AclCreate(s, e)
  }

  function CleanFound(s: Svc, ob: Option<Binding>, e: Option<Id>): PC {
    if e.Some? then Tear(Some(s), ob, e.value) else AfterElb(Some(s), ob)
  }

  function GroupFound(s: Svc, ob: Option<Binding>, g: Option<Id>): PC {
    if g.Some? then GroupDrop(Some(s), ob, g.value) else Release(Some(s), ob)
  }

  function AclStart(s: Svc, e: Id, acl: Option<Id>): PC {
    if s.cidrs == [] then
      if acl.Some? then AclUnlist(s, e, acl.value) else AclRecord(s, e, None)
    else
      if acl.Some? then AclUpdate(s, e, acl.value) else AclFind(s, e)
  }

  function CleanStart(os: Option<Svc>, ob: Option<Binding>): PC {
    if ob.Some? && ob.value.elb.Some? then Tear(os, ob, ob.value.elb.value)
    else if os.Some? then CleanFind(os.value, ob)
    else AfterElb(os, ob)
  }

  function AfterElb(os: Option<Svc>, ob: Option<Binding>): PC {
    if ob.Some? && ob.value.acl.Some? then GroupDrop(os, ob, ob.value.acl.value)
    else if os.Some? then GroupFind(os.value, ob)
    else Release(os, ob)
  }

  function Orphaned(ob: Option<Binding>): PC {
    if ob.Some? && ob.value.finalizer then CleanStart(None, ob) else Idle
  }

  /** The API server keeps a deleted object as long as it has a finalizer. */
  function DeleteBinding(b: Binding): Option<Binding> {
    if b.finalizer then Some(b.(deleting := true)) else None
  }

  function DropFinalizer(b: Binding): Option<Binding> {
    if b.deleting then None else Some(b.(finalizer := false))
  }

  /** The binding of the key after a patch, if there is one to patch. */
  function Healed(ob: Option<Binding>): Option<Binding> {
    if ob.Some? && !ob.value.deleting then Some(ob.value.(finalizer := true)) else ob
  }

  function WithElb(ob: Option<Binding>, e: Id): Option<Binding> {
    if ob.Some? then Some(ob.value.(elb := Some(e))) else None
  }

  function WithAcl(ob: Option<Binding>, acl: Option<Id>): Option<Binding> {
    if ob.Some? then Some(ob.value.(acl := acl)) else None
  }

  /** A step of the process of key `k` other than giving up. */
  ghost predicate Moves(k: Key, c: Cloud, l: Local, c': Cloud, l': Local) {
    match l.pc
    case Idle =>
      c' == c && l' == l.(pc := Start(l.svc))
    case Route(s) =>
      c' == c && (l' == l.(pc := Find(s)) || l' == l.(pc := Routed(s, l.binding)))
    case Update(s) =>
      c' == c && l' == l.(pc := Updated(s, l.binding))
    case Heal(s, e, acl) =>
      c' == c && l'.binding in {l.binding, Healed(l.binding)} && l' == l.(binding := l'.binding, pc := Work(s, e, acl))
    case Find(s) =>
      c' == c && exists r :: Found(c, ElbName(k, s), r) && l' == l.(pc := ElbFound(s, r))
    case Create(s) =>
      c' == AddElb(c, ElbName(k, s)) && l' == l.(pc := Bind(s, c.next, false))
    case Bind(s, e, restore) =>
      c' == c && (l' == l.(pc := BindFailed(s, e, restore)) || l' == l.(pc := Bound(s, e, restore, l.binding)))
    case Rebind(s, e, restore) =>
      && c' == c
      && (|| l' == l.(pc := BindFailed(s, e, restore))
          || (l.binding.Some? && l' == l.(binding := DeleteBinding(l.binding.value), pc := NewBinding(s, e, restore))))
    case NewBinding(s, e, restore) =>
      && c' == c
      && (|| l' == l.(pc := BindFailed(s, e, restore))
          || (l.binding.None?
             && l' == l.(binding := Some(Binding(s.uid, true, false, None, None)), pc := Record(s, e, restore))))
    case Mend(s, e, restore) =>
      c' == c && l'.binding in {l.binding, Healed(l.binding)}
        && l' == l.(binding := l'.binding, pc := Record(s, e, restore))
    case Record(s, e, restore) =>
      && c' == c && l'.binding in {l.binding, WithElb(l.binding, e)}
      && l' == l.(binding := l'.binding, pc := AfterRecord(s, e, restore))
    case Work(s, e, acl) =>
      (ChildStep(c, c', e) && l' == l) || (c' == c && l' == l.(pc := AclStart(s, e, acl)))
    case AclFind(s, e) =>
      c' == c && exists r :: FoundGroup(c, GroupName(k), r) && l' == l.(pc := AclFound(s, e, r))
    case AclCreate(s, e) =>
      c' == AddGroup(c, GroupName(k), s.cidrs) && l' == l.(pc := AclList(s, e, c.next))
    case AclUpdate(s, e, g) =>
      g in c.groups && c' == SetGroup(c, g, GroupName(k), s.cidrs) && l' == l.(pc := AclList(s, e, g))
    case AclList(s, e, g) =>
      c' == c && l' == l.(pc := AclBind(s, e, g, ListenersOf(c, e)))
    case AclBind(s, e, g, left) =>
      || (left == {} && c' == c && l' == l.(pc := AclRecord(s, e, Some(g))))
      || (exists x ::
         x in left && x in c.listeners && g in c.groups && c' == SetAcl(c, x, Some(g))
         && l' == l.(pc := AclBind(s, e, g, left - {x})))
    case AclUnlist(s, e, g) =>
      c' == c && l' == l.(pc := AclUnbind(s, e, g, ListenersOf(c, e)))
    case AclUnbind(s, e, g, left) =>
      || (left == {} && c' == c && l' == l.(pc := AclDrop(s, e, g)))
      || (exists x ::
         x in left && x in c.listeners && c' == SetAcl(c, x, None)
         && l' == l.(pc := AclUnbind(s, e, g, left - {x})))
    case AclDrop(s, e, g) =>
      c' == DropGroup(c, g) && l' == l.(pc := AclRecord(s, e, None))
    case AclRecord(s, e, acl) =>
      c' == c && l'.binding in {l.binding, WithAcl(l.binding, acl)} && l' == l.(binding := l'.binding, pc := Idle)
    case Orphan =>
      c' == c && l' == l.(pc := Orphaned(l.binding))
    case Deleting(s) =>
      c' == c && exists ob :: (ob == None || ob == l.binding) && l' == l.(pc := CleanStart(Some(s), ob))
    case CleanFind(s, ob) =>
      c' == c && exists r :: Found(c, ElbName(k, s), r) && l' == l.(pc := CleanFound(s, ob, r))
    case Tear(os, ob, e) =>
      || (TearStep(c, c', e, false) && l' == l)
      || (e !in c.elbs && c' == c && l' == l.(pc := AfterElb(os, ob)))
    case GroupFind(s, ob) =>
      c' == c && exists r :: FoundGroup(c, GroupName(k), r) && l' == l.(pc := GroupFound(s, ob, r))
    case GroupDrop(os, ob, g) =>
      c' == DropGroup(c, g) && l' == l.(pc := Release(os, ob))
    case Release(os, ob) =>
      && c' == c
      && l' == if ob.Some? && ob.value.finalizer && l.binding.Some?
         then l.(binding := DropFinalizer(l.binding.value), pc := Idle) else l.(pc := Idle)
  }

  /** A call failed and the process gave up, or it died: nothing but its place is lost. */
  predicate Stops(l: Local, l': Local) {
    l' == l.(pc := Idle)
  }

  // ---------------------------------------------------------------------------
  // What others do to a key
  // ---------------------------------------------------------------------------

  /** The ten runes of a UID that end up in an ELB name. */
  function Tag(uid: string): string {
    UidSuffix(uid)
  }

  /** A Service appears, with a UID whose prefix nobody had before. */
  predicate Appears(w: World, k: Key, l: Local, l': Local) {
    && l.svc.None? && l'.svc.Some?
    && var s := l'.svc.value;
    && |s.uid| >= 10 && !s.deleting
    && (forall j :: j in w.locals ==> Tag(s.uid) !in w.locals[j].tags)
    && l' == l.(svc := Some(s), tags := l.tags + {Tag(s.uid)})
  }

  /** Its owner, or whoever overwrites its metadata, edits it. */
  predicate Edited(l: Local, l': Local) {
    && l.svc.Some? && l'.svc.Some?
    && l'.svc.value.uid == l.svc.value.uid && l'.svc.value.deleting == l.svc.value.deleting
    && l' == l.(svc := l'.svc)
  }

  predicate MarkedDeleted(l: Local, l': Local) {
    l.svc.Some? && l' == l.(svc := Some(l.svc.value.(deleting := true)))
  }

  predicate Vanishes(l: Local, l': Local) {
    l.svc.Some? && l' == l.(svc := None)
  }

  /** Garbage collection, or a user, deletes the binding. */
  predicate BindingDeleted(l: Local, l': Local) {
    l.binding.Some? && l' == l.(binding := DeleteBinding(l.binding.value))
  }

  predicate Disturbs(w: World, k: Key, l: Local, l': Local) {
    Appears(w, k, l, l') || Edited(l, l') || MarkedDeleted(l, l') || Vanishes(l, l') || BindingDeleted(l, l')
  }

  const NOTHING := Local(None, None, Idle, {})

  ghost predicate StepsAt(w: World, k: Key, c': Cloud, l': Local) {
    k in w.locals &&
    var l := w.locals[k];
    || Moves(k, w.cloud, l, c', l')
    || (c' == w.cloud && Stops(l, l'))
    || (c' == w.cloud && Disturbs(w, k, l, l'))
  }

  /** One step of the whole system. A key not heard of before may come up at any time. */
  ghost predicate Next(w: World, w': World) {
    || (exists k :: k !in w.locals && w' == w.(locals := w.locals[k := NOTHING]))
    || (exists k, c', l' :: StepsAt(w, k, c', l') && w' == World(c', w.locals[k := l']))
  }

  const START := World(EMPTY, map[])

  ghost predicate Reachable(run: seq<World>) {
    && |run| > 0 && run[0] == START
    && forall i, j | 0 <= i && j == i + 1 && j < |run| :: Next(run[i], run[j])
  }

  // ---------------------------------------------------------------------------
  // At most one ELB carries a name, in every run
  // ---------------------------------------------------------------------------

  function Snapshot(pc: PC): Option<Svc> {
    match pc
    case Idle => None
    case Orphan => None
    case Tear(os, _, _) => os
    case GroupDrop(os, _, _) => os
    case Release(os, _) => os
    case _ => Some(pc.s)
  }

  predicate Registered(l: Local, os: Option<Svc>) {
    os.Some? ==> |os.value.uid| >= 10 && Tag(os.value.uid) in l.tags
  }

  ghost predicate UniqueNames(c: Cloud) {
    forall e, f | e in c.elbs && f in c.elbs && c.elbs[e] == c.elbs[f] :: e == f
  }

  /** A process about to create knows that the name is free. */
  predicate FreeToCreate(k: Key, c: Cloud, l: Local) {
    l.pc.Create? ==> Found(c, ElbName(k, l.pc.s), None)
  }

  ghost predicate Orderly(w: World) {
    && UniqueNames(w.cloud)
    && (forall e :: e in w.cloud.elbs ==> e < w.cloud.next)
    && (forall k :: k in w.locals ==>
       Registered(w.locals[k], w.locals[k].svc) && Registered(w.locals[k], Snapshot(w.locals[k].pc)))
    && (forall j, k | j in w.locals && k in w.locals && j != k :: w.locals[j].tags !! w.locals[k].tags)
    && (forall k :: k in w.locals ==> FreeToCreate(k, w.cloud, w.locals[k]))
  }

  /** What a teardown of `e` leaves of ELBs and listeners is as it was, and other ELBs and their
      listeners stay. */
  ghost predicate Shrinks(c: Cloud, c': Cloud, e: Id) {
    && c'.next == c.next && c'.groups == c.groups
    && (forall x :: x in c'.elbs ==> x in c.elbs && c'.elbs[x] == c.elbs[x])
    && (forall x :: x in c.elbs && x != e ==> x in c'.elbs)
    && (forall x :: x in c'.listeners ==> x in c.listeners && c'.listeners[x] == c.listeners[x])
    && (forall x :: x in c.listeners && c.listeners[x].elb != e ==> x in c'.listeners)
  }

  lemma TearShrinks(c: Cloud, c': Cloud, e: Id)
    requires TearStep(c, c', e, false)
    ensures Shrinks(c, c', e)
  {
    hide DropMonitor, DropMember, DropPool, DropListener, DropElb, Shrinks, PoolOn;
    if m :| MonitorOn(c, m, e) && c' == DropMonitor(c, m) {
      ChildrenShrink(c, m, e);
    } else if m :| MemberOn(c, m, e) && c' == DropMember(c, m) {
      ChildrenShrink(c, m, e);
    } else if p :| PoolOn(c, p, e) && c' == DropPool(c, p) {
      ChildrenShrink(c, p, e);
    } else if l :| ListenerOn(c, l, e) && PoolsAt(c, l) == {} && c' == DropListener(c, l) {
      ListenerShrinks(c, l, e);
    } else {
      ElbShrinks(c, e);
    }
  }

  lemma ChildrenShrink(c: Cloud, x: Id, e: Id)
    ensures Shrinks(c, DropMonitor(c, x), e) && Shrinks(c, DropMember(c, x), e) && Shrinks(c, DropPool(c, x), e)
  {
  }

  lemma ListenerShrinks(c: Cloud, l: Id, e: Id)
    requires ListenerOn(c, l, e)
    ensures Shrinks(c, DropListener(c, l), e)
  {
  }

  lemma ElbShrinks(c: Cloud, e: Id)
    ensures Shrinks(c, DropElb(c, e), e)
  {
  }

  /** What a step of a process does to the cloud. */
  ghost predicate CloudStep(k: Key, c: Cloud, pc: PC, c': Cloud) {
    match pc
    case Create(s) => c' == AddElb(c, ElbName(k, s))
    case Work(_, e, _) => c' == c || ChildStep(c, c', e)
    case AclCreate(s, _) => c' == AddGroup(c, GroupName(k), s.cidrs)
    case AclUpdate(s, _, g) => g in c.groups && c' == SetGroup(c, g, GroupName(k), s.cidrs)
    case AclBind(_, _, g, left) => c' == c || exists x :: x in left && x in c.listeners && c' == SetAcl(c, x, Some(g))
    case AclUnbind(_, _, _, left) => c' == c || exists x :: x in left && x in c.listeners && c' == SetAcl(c, x, None)
    case AclDrop(_, _, g) => c' == DropGroup(c, g)
    case Tear(_, _, e) => c' == c || TearStep(c, c', e, false)
    case GroupDrop(_, _, g) => c' == DropGroup(c, g)
    case _ => c' == c
  }

  lemma MovesCloud(k: Key, c: Cloud, l: Local, c': Cloud, l': Local)
    requires Moves(k, c, l, c', l')
    ensures CloudStep(k, c, l.pc, c')
  {
    hide ElbName, GroupName, TearStep, ChildStep, Found, FoundGroup, ListenersOf, AddElb, AddGroup, SetGroup, DropGroup;
    hide SetAcl;
  }

  lemma ElbsStay(k: Key, c: Cloud, l: Local, c': Cloud, l': Local)
    requires Moves(k, c, l, c', l') && !l.pc.Create? && !l.pc.Tear?
    ensures c.next <= c'.next && c'.elbs == c.elbs
  {
    hide Moves, CloudStep;
    MovesCloud(k, c, l, c', l');
    StepKeepsElbs(k, c, l.pc, c');
  }

  lemma StepKeepsElbs(k: Key, c: Cloud, pc: PC, c': Cloud)
    requires CloudStep(k, c, pc, c') && !pc.Create? && !pc.Tear?
    ensures c.next <= c'.next && c'.elbs == c.elbs
  {
    hide GroupName, ElbName, WF, Rest, TearStep;
  }

  lemma TearsOrStays(k: Key, c: Cloud, l: Local, c': Cloud, l': Local)
    requires Moves(k, c, l, c', l') && l.pc.Tear?
    ensures c' == c || TearStep(c, c', l.pc.e, false)
  {
    hide TearStep, AfterElb;
  }

  /** ELBs come only from a creation, and identifiers are never reused. */
  lemma ElbsMove(k: Key, c: Cloud, l: Local, c': Cloud, l': Local)
    requires Moves(k, c, l, c', l')
    ensures ElbsGrowBy(k, c, l, c')
  {
    if l.pc.Create? {
      hide ElbName, AddElb;
    } else {
      hide Moves, TearStep;
      if l.pc.Tear? {
        TearsOrStays(k, c, l, c', l');
        if c' != c {
          TearShrinks(c, c', l.pc.e);
        }
      } else {
        ElbsStay(k, c, l, c', l');
      }
    }
  }

  /** A process comes to create only after a lookup that found the name free. */
  lemma CreatesOnlyIfFree(k: Key, c: Cloud, l: Local, c': Cloud, l': Local)
    requires Moves(k, c, l, c', l')
    ensures l'.pc.Create? ==> c' == c && Found(c, ElbName(k, l'.pc.s), None)
    ensures FreeToCreate(k, c', l')
  {
    hide ElbName, GroupName, WF, TearStep, Found, FoundGroup, ListenersOf, ChildStep, AddGroup, SetGroup, SetAcl;
    hide AddElb;
  }

  /** A process works on the Service it has read, or on none. */
  lemma SnapshotMoves(k: Key, c: Cloud, l: Local, c': Cloud, l': Local)
    requires Moves(k, c, l, c', l')
    ensures l'.svc == l.svc && l'.tags == l.tags
    ensures Snapshot(l'.pc) in {None, Snapshot(l.pc), l.svc}
  {
    hide ElbName, GroupName, WF, TearStep, ChildStep, Found, FoundGroup, ListenersOf;
    hide AddElb, AddGroup, SetGroup, SetAcl, DropGroup, Healed, WithElb, WithAcl, DropFinalizer, DeleteBinding;
  }

  lemma NamesDiffer(j: Key, s: Svc, k: Key, t: Svc)
    requires |s.uid| >= 10 && |t.uid| >= 10 && Tag(s.uid) != Tag(t.uid)
    ensures ElbName(j, s) != ElbName(k, t)
  {
    if ElbName(j, s) == ElbName(k, t) {
      ELBNamesShareUid(s.params, j.namespace, j.name, s.uid, t.params, k.namespace, k.name, t.uid);
    }
  }

  /** What one step does to the ELBs. */
  ghost predicate ElbsGrowBy(k: Key, c: Cloud, l: Local, c': Cloud) {
    && c.next <= c'.next
    && if l.pc.Create? then c' == AddElb(c, ElbName(k, l.pc.s))
       else forall e :: e in c'.elbs ==> e in c.elbs && c'.elbs[e] == c.elbs[e]
  }

  lemma StillFree(j: Key, m: Local, k: Key, c: Cloud, l: Local, c': Cloud)
    requires FreeToCreate(j, c, m) && ElbsGrowBy(k, c, l, c')
    requires Registered(m, Snapshot(m.pc)) && Registered(l, Snapshot(l.pc)) && m.tags !! l.tags
    ensures FreeToCreate(j, c', m)
  {
    hide ElbName, Tag;
    if m.pc.Create? && l.pc.Create? {
      NamesDiffer(j, m.pc.s, k, l.pc.s);
    }
  }

  lemma OrderlyMoves(w: World, k: Key, c': Cloud, l': Local)
    requires Orderly(w) && k in w.locals && Moves(k, w.cloud, w.locals[k], c', l')
    ensures Orderly(World(c', w.locals[k := l']))
  {
    hide Moves, ElbName, Tag, Snapshot, AddElb, FreeToCreate, Registered, UniqueNames, ElbsGrowBy;
    var c, l := w.cloud, w.locals[k];
    ElbsMove(k, c, l, c', l');
    SnapshotMoves(k, c, l, c', l');
    CreatesOnlyIfFree(k, c, l, c', l');
    NamesStayUnique(k, c, l, c');
    forall j | j in w.locals && j != k
      ensures FreeToCreate(j, c', w.locals[j])
    {
      StillFree(j, w.locals[j], k, c, l, c');
    }
    RegisteredOn(l, l');
  }

  lemma RegisteredOn(l: Local, l': Local)
    requires Registered(l, l.svc) && Registered(l, Snapshot(l.pc)) && l'.svc == l.svc && l'.tags == l.tags
    requires Snapshot(l'.pc) in {None, Snapshot(l.pc), l.svc}
    ensures Registered(l', l'.svc) && Registered(l', Snapshot(l'.pc))
  {
    hide Snapshot, Tag;
  }

  lemma NamesStayUnique(k: Key, c: Cloud, l: Local, c': Cloud)
    requires UniqueNames(c) && FreeToCreate(k, c, l) && forall e :: e in c.elbs ==> e < c.next
    requires ElbsGrowBy(k, c, l, c')
    ensures UniqueNames(c') && forall e :: e in c'.elbs ==> e < c'.next
  {
  }

  lemma OrderlyDisturbed(w: World, k: Key, l': Local)
    requires Orderly(w) && k in w.locals && Disturbs(w, k, w.locals[k], l')
    ensures Orderly(w.(locals := w.locals[k := l']))
  {
    hide ElbName, Tag, UniqueNames, FreeToCreate, Registered;
    var l := w.locals[k];
    DisturbedRegistered(w, k, l, l');
    assert FreeToCreate(k, w.cloud, l');
  }

  lemma DisturbedRegistered(w: World, k: Key, l: Local, l': Local)
    requires Disturbs(w, k, l, l') && Registered(l, l.svc) && Registered(l, Snapshot(l.pc))
      && FreeToCreate(k, w.cloud, l)
    ensures Registered(l', l'.svc) && Registered(l', Snapshot(l'.pc)) && FreeToCreate(k, w.cloud, l')
    ensures l'.tags == l.tags || (Appears(w, k, l, l') && l'.tags == l.tags + {Tag(l'.svc.value.uid)})
  {
    hide ElbName, Tag, Snapshot;
  }

  lemma OrderlyNext(w: World, w': World)
    requires Orderly(w) && Next(w, w')
    ensures Orderly(w')
  {
    hide Orderly, Moves, Disturbs;
    if k :| k !in w.locals && w' == w.(locals := w.locals[k := NOTHING]) {
      OrderlyNewcomer(w, k);
    } else {
      var k, c', l' :| StepsAt(w, k, c', l') && w' == World(c', w.locals[k := l']);
      if Moves(k, w.cloud, w.locals[k], c', l') {
        OrderlyMoves(w, k, c', l');
      } else if Disturbs(w, k, w.locals[k], l') && c' == w.cloud {
        OrderlyDisturbed(w, k, l');
      } else {
        OrderlyStops(w, k, l');
      }
    }
  }

  lemma OrderlyNewcomer(w: World, k: Key)
    requires Orderly(w) && k !in w.locals
    ensures Orderly(w.(locals := w.locals[k := NOTHING]))
  {
  }

  lemma OrderlyStops(w: World, k: Key, l': Local)
    requires Orderly(w) && k in w.locals && Stops(w.locals[k], l')
    ensures Orderly(w.(locals := w.locals[k := l']))
  {
  }

  lemma {:induction false} RunsAreOrderly(run: seq<World>, i: nat)
    requires Reachable(run) && i < |run|
    ensures Orderly(run[i])
  {
    if i > 0 {
      RunsAreOrderly(run, i - 1);
      OrderlyNext(run[i - 1], run[i]);
    }
  }

  /** In every state of every run, whatever fails, dies, is edited, renamed, or reuses a Service
      name: at most one live ELB carries any given name. */
  lemma AtMostOnePerName(run: seq<World>, i: nat, e: Id, f: Id)
    requires Reachable(run) && i < |run|
    requires e in run[i].cloud.elbs && f in run[i].cloud.elbs && run[i].cloud.elbs[e] == run[i].cloud.elbs[f]
    ensures e == f
  {
    RunsAreOrderly(run, i);
  }
}
