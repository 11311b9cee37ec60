/** What holds of one key in every state, as long as its Service keeps its name annotation, its name
    is reused only after the old binding has gone and nothing works on it, and no other key prints
    its IP group name: the invariant, and that every step of the key's own process, every polite
    disturbance, and every step elsewhere that leaves the key's own alone, keeps it. */
module Safety {
  import opened Common
  import opened Naming
  import opened CloudModel
  import opened Steps
  import opened Teardown
  import opened Protocol

  // ---------------------------------------------------------------------------
  // Discipline
  // ---------------------------------------------------------------------------

  /** A Service name is reused only after its old binding has gone and nothing works on it. */
  predicate Patient(l: Local, l': Local) {
    l.svc.None? && l'.svc.Some? ==> l.binding.None? && l.pc.Idle?
  }

  /** The disturbances a disciplined environment allows itself. */
  ghost predicate Polite(k: Key, l: Local, l': Local) {
    && Patient(l, l')
    && (l.svc.Some? && l'.svc.Some? ==> ElbName(k, l'.svc.value) == ElbName(k, l.svc.value))
  }

  // ---------------------------------------------------------------------------
  // The invariant of one key
  // ---------------------------------------------------------------------------

  predicate HasTag(c: Cloud, e: Id, tag: string) {
    e in c.elbs && NameTag(c.elbs[e]) == tag
  }

  ghost predicate NoElb(c: Cloud, tag: string) {
    forall e :: e in c.elbs ==> NameTag(c.elbs[e]) != tag
  }

  ghost predicate OnlyElb(c: Cloud, tag: string, e: Id) {
    forall x :: x in c.elbs && NameTag(c.elbs[x]) == tag ==> x == e
  }

  predicate Named(c: Cloud, k: Key, g: Id) {
    g in c.groups && c.groups[g].name == GroupName(k)
  }

  ghost predicate NoGroup(c: Cloud, k: Key) {
    forall g :: g in c.groups ==> c.groups[g].name != GroupName(k)
  }

  ghost predicate OnlyGroup(c: Cloud, k: Key, g: Id) {
    forall x :: x in c.groups && c.groups[x].name == GroupName(k) ==> x == g
  }

  ghost predicate OneGroup(c: Cloud, k: Key) {
    forall g, h | g in c.groups && h in c.groups && c.groups[g].name == GroupName(k)
      && c.groups[h].name == GroupName(k) :: g == h
  }

  /** Every live ELB ever created for the Service carries the name it has now. */
  ghost predicate Stable(k: Key, c: Cloud, s: Svc) {
    && |s.uid| >= 10
    && forall e :: e in c.elbs && NameTag(c.elbs[e]) == Tag(s.uid) ==> c.elbs[e] == ElbName(k, s)
  }

  ghost predicate SvcOk(k: Key, c: Cloud, l: Local) {
    l.svc.Some? ==> Tag(l.svc.value.uid) in l.tags && Stable(k, c, l.svc.value)
  }

  /** The Service a process works on is the present one, or that one has vanished. */
  ghost predicate SnapOk(k: Key, c: Cloud, l: Local) {
    Snapshot(l.pc).Some? ==>
      var s := Snapshot(l.pc).value;
      && Tag(s.uid) in l.tags && Stable(k, c, s)
      && (l.binding.Some? ==> l.binding.value.uid == s.uid)
      && (l.svc.Some? ==> l.svc.value.uid == s.uid && ElbName(k, l.svc.value) == ElbName(k, s))
  }

  /** A process on its way to create or to update. */
  predicate Working(pc: PC) {
    !pc.Idle? && !Closing(pc)
  }

  predicate Closing(pc: PC) {
    pc.Orphan? || pc.Deleting? || pc.CleanFind? || pc.Tear? || pc.GroupFind? || pc.GroupDrop? || pc.Release?
  }

  /** The access control of an update, or of a creation. */
  predicate AtAcl(pc: PC) {
    || pc.AclFind? || pc.AclCreate? || pc.AclUpdate? || pc.AclList? || pc.AclBind? || pc.AclUnlist? || pc.AclUnbind?
    || pc.AclDrop? || pc.AclRecord?
  }

  predicate Shut(l: Local) {
    l.svc.Some? ==> l.svc.value.deleting
  }

  /** The Service is wanted, or a process still takes it to be. */
  predicate Alive(l: Local) {
    !Shut(l) || Working(l.pc)
  }

  /** What a binding records is the only ELB with its Service's tag and the only group with the
      key's name, live or dead. */
  ghost predicate Recorded(k: Key, c: Cloud, b: Binding) {
    && (b.elb.Some? ==>
          var e := b.elb.value;
          e < c.next && OnlyElb(c, Tag(b.uid), e) && (e in c.elbs ==> HasTag(c, e, Tag(b.uid))))
    && (b.acl.Some? ==>
          var g := b.acl.value;
          g < c.next && OnlyGroup(c, k, g) && (g in c.groups ==> Named(c, k, g)))
  }

  /** Nothing the binding records is live. */
  predicate Dead(c: Cloud, b: Binding) {
    && (b.elb.Some? ==> b.elb.value !in c.elbs)
    && (b.acl.Some? ==> b.acl.value !in c.groups)
  }

  ghost predicate BindingOk(k: Key, c: Cloud, l: Local) {
    l.binding.Some? ==>
      var b := l.binding.value;
      && Tag(b.uid) in l.tags
      && (l.svc.Some? ==> l.svc.value.uid == b.uid)
      && Recorded(k, c, b)
      && (!b.finalizer ==> Dead(c, b) && !Alive(l))
      && (Alive(l) && b.elb.Some? ==> b.elb.value in c.elbs)
      && (Alive(l) && b.acl.Some? ==> !NoElb(c, Tag(b.uid)))
  }

  /** The ELBs whose listeners are watched over: those of the present Service, of the Service a
      process works on, and the recorded one. */
  predicate Tracked(c: Cloud, l: Local, e: Id) {
    e in c.elbs &&
    (|| (l.svc.Some? && NameTag(c.elbs[e]) == Tag(l.svc.value.uid))
     || (Snapshot(l.pc).Some? && NameTag(c.elbs[e]) == Tag(Snapshot(l.pc).value.uid))
     || (l.binding.Some? && l.binding.value.elb == Some(e)))
  }

  /** No dangling access control: a group enabled on a listener of such an ELB exists, and is the
      key's own. */
  ghost predicate Guards(k: Key, c: Cloud, l: Local) {
    forall x :: x in c.listeners && c.listeners[x].acl.Some? && Tracked(c, l, c.listeners[x].elb) ==>
      Named(c, k, c.listeners[x].acl.value)
  }

  predicate Holding(k: Key, c: Cloud, s: Svc, e: Id) {
    e in c.elbs && c.elbs[e] == ElbName(k, s)
  }

  ghost predicate Opened(c: Cloud, e: Id, but: set<Id>) {
    forall x :: x in ListenersOf(c, e) && x !in but ==> c.listeners[x].acl.None?
  }

  /** The binding a cleanup has read is the one there is, if there still is one. */
  ghost predicate ObOk(k: Key, c: Cloud, l: Local, os: Option<Svc>, ob: Option<Binding>) {
    && Shut(l) && (os.None? ==> l.svc.None?)
    && (ob.Some? ==>
          var b := ob.value;
          && Tag(b.uid) in l.tags
          && Recorded(k, c, b)
          && (os.Some? ==> os.value.uid == b.uid)
          && (l.binding.Some? ==>
             l.binding.value.uid == b.uid && l.binding.value.elb == b.elb && l.binding.value.acl == b.acl))
  }

  function TagOf(os: Option<Svc>, ob: Option<Binding>): string {
    if os.Some? then Tag(os.value.uid) else if ob.Some? then Tag(ob.value.uid) else ""
  }

  /** `e` is the one ELB the cleanup has to delete. */
  ghost predicate TearOk(c: Cloud, l: Local, os: Option<Svc>, ob: Option<Binding>, e: Id) {
    && (os.Some? || (ob.Some? && ob.value.elb.Some?))
    && e < c.next && TagOf(os, ob) in l.tags
    && OnlyElb(c, TagOf(os, ob), e)
    && (e in c.elbs ==> HasTag(c, e, TagOf(os, ob)))
    && (ob.Some? && ob.value.elb.Some? ==> ob.value.elb.value == e)
  }

  ghost predicate ElbGone(c: Cloud, l: Local, os: Option<Svc>, ob: Option<Binding>) {
    && (os.Some? ==> NoElb(c, Tag(os.value.uid)))
    && (ob.Some? && ob.value.elb.Some? ==> ob.value.elb.value !in c.elbs)
    && (l.binding.Some? && l.binding.value.elb.Some? ==> l.binding.value.elb.value !in c.elbs)
  }

  ghost predicate GroupGone(k: Key, c: Cloud, os: Option<Svc>, ob: Option<Binding>) {
    && (os.Some? ==> NoGroup(c, k))
    && (ob.Some? && ob.value.acl.Some? ==> ob.value.acl.value !in c.groups)
  }

  ghost predicate Sole(k: Key, c: Cloud, g: Id) {
    g < c.next && OnlyGroup(c, k, g) && (g in c.groups ==> Named(c, k, g))
  }

  predicate AclIn(l: Local, acls: set<Option<Id>>) {
    l.binding.Some? && l.binding.value.acl in acls
  }

  /** What a process knows at each of its places. Three of them are never reached: an existing
      binding is always the Service's own and always carries the finalizer. */
  ghost predicate PcOk(k: Key, c: Cloud, l: Local) {
    match l.pc
    case Idle => true
    case Route(_) => true
    case Update(_) => true
    case Heal(_, _, _) => false
    case Find(_) => true
    case Create(s) => NoElb(c, Tag(s.uid)) && (l.binding.Some? ==> l.binding.value.acl.None?)
    case Bind(s, e, restore) => Holding(k, c, s, e) && (!restore && l.binding.Some? ==> l.binding.value.acl.None?)
    case Rebind(_, _, _) => false
    case NewBinding(s, e, _) => Holding(k, c, s, e) && l.binding.None?
    case Mend(_, _, _) => false
    case Record(s, e, restore) => Holding(k, c, s, e) && (!restore ==> AclIn(l, {None}))
    case Work(s, e, acl) => Holding(k, c, s, e) && AclIn(l, {acl})
    case AclFind(s, e) => Holding(k, c, s, e) && AclIn(l, {None})
    case AclCreate(s, e) => Holding(k, c, s, e) && AclIn(l, {None}) && NoGroup(c, k)
    case AclUpdate(s, e, g) => Holding(k, c, s, e) && AclIn(l, {None, Some(g)}) && Sole(k, c, g)
    case AclList(s, e, g) => Holding(k, c, s, e) && AclIn(l, {None, Some(g)}) && Sole(k, c, g) && g in c.groups
    case AclBind(s, e, g, left) =>
      Holding(k, c, s, e) && AclIn(l, {None, Some(g)}) && Sole(k, c, g) && g in c.groups && left <= ListenersOf(c, e)
    case AclUnlist(s, e, g) => Holding(k, c, s, e) && AclIn(l, {Some(g)})
    case AclUnbind(s, e, g, left) => Holding(k, c, s, e) && AclIn(l, {Some(g)}) && left <= ListenersOf(c, e)
      && Opened(c, e, left)
    case AclDrop(s, e, g) => Holding(k, c, s, e) && AclIn(l, {Some(g)}) && Opened(c, e, {})
    case AclRecord(s, e, acl) => Holding(k, c, s, e) && l.binding.Some?
      && (acl.Some? ==> Sole(k, c, acl.value) && acl.value in c.groups)
    case Orphan => l.svc.None?
    case Deleting(s) => Shut(l)
    case CleanFind(s, ob) => ObOk(k, c, l, Some(s), ob) && (ob.Some? ==> ob.value.elb.None?)
    case Tear(os, ob, e) => ObOk(k, c, l, os, ob) && TearOk(c, l, os, ob, e)
    case GroupFind(s, ob) => ObOk(k, c, l, Some(s), ob) && ElbGone(c, l, Some(s), ob)
      && (ob.Some? ==> ob.value.acl.None?)
    case GroupDrop(os, ob, g) =>
      && ObOk(k, c, l, os, ob) && ElbGone(c, l, os, ob) && Sole(k, c, g)
      && (ob.Some? && ob.value.acl.Some? ==> ob.value.acl.value == g)
    case Release(os, ob) => ObOk(k, c, l, os, ob) && ElbGone(c, l, os, ob) && GroupGone(k, c, os, ob)
  }

  ghost predicate KInv(k: Key, c: Cloud, l: Local) {
    && SvcOk(k, c, l)
    && SnapOk(k, c, l)
    && BindingOk(k, c, l)
    && PcOk(k, c, l)
    && Guards(k, c, l)
    && OneGroup(c, k)
  }

  ghost predicate Sound(c: Cloud) {
    WF(c) && UniqueNames(c)
  }

  // ---------------------------------------------------------------------------
  // Steps of the key's own process that leave the cloud alone
  // ---------------------------------------------------------------------------

  ghost predicate Own(k: Key, c: Cloud, l: Local, c': Cloud, l': Local) {
    Sound(c) && KInv(k, c, l) && Moves(k, c, l, c', l')
  }

  lemma NameHasTag(k: Key, c: Cloud, s: Svc, e: Id)
    requires Holding(k, c, s, e) && |s.uid| >= 10
    ensures HasTag(c, e, Tag(s.uid))
  {
    ELBNameTag(s.params, k.namespace, k.name, s.uid);
  }

  /** A lookup by name finds what carries the tag. */
  lemma FoundByTag(k: Key, c: Cloud, s: Svc, r: Option<Id>)
    requires Sound(c) && Stable(k, c, s) && Found(c, ElbName(k, s), r)
    ensures r.None? ==> NoElb(c, Tag(s.uid))
    ensures r.Some? ==> Holding(k, c, s, r.value) && HasTag(c, r.value, Tag(s.uid)) && OnlyElb(c, Tag(s.uid), r.value)
  {
    if r.Some? {
      NameHasTag(k, c, s, r.value);
    }
  }

  lemma HoldingOnly(k: Key, c: Cloud, s: Svc, e: Id)
    requires Sound(c) && Stable(k, c, s) && Holding(k, c, s, e)
    ensures e < c.next && HasTag(c, e, Tag(s.uid)) && OnlyElb(c, Tag(s.uid), e) && !NoElb(c, Tag(s.uid))
  {
    NameHasTag(k, c, s, e);
  }

  lemma StartsKeep(k: Key, c: Cloud, l: Local, l': Local)
    requires Own(k, c, l, c, l') && (l.pc.Idle? || l.pc.Route? || l.pc.Update? || l.pc.Heal?)
    ensures KInv(k, c, l')
  {
    hide Sound, NoElb, ElbName, Tag, OneGroup, NameTag;
  }

  lemma FindKeeps(k: Key, c: Cloud, l: Local, l': Local)
    requires Own(k, c, l, c, l') && l.pc.Find?
    ensures KInv(k, c, l')
  {
    var s := l.pc.s;
    var r :| Found(c, ElbName(k, s), r) && l' == l.(pc := ElbFound(s, r));
    FoundByTag(k, c, s, r);
    hide Stable, Sound, ElbName, Tag, OneGroup;
  }

  lemma BindKeeps(k: Key, c: Cloud, l: Local, l': Local)
    requires Own(k, c, l, c, l') && (l.pc.Bind? || l.pc.Rebind? || l.pc.NewBinding? || l.pc.Mend?)
    ensures KInv(k, c, l')
  {
    hide Stable, Sound, NoElb, ElbName, Tag, HasTag, OneGroup, NameTag;
  }

  lemma RecordKeeps(k: Key, c: Cloud, l: Local, l': Local)
    requires Own(k, c, l, c, l') && l.pc.Record?
    ensures KInv(k, c, l')
  {
    hide Stable, Sound, ElbName, Tag, OneGroup, NameTag, NoElb, HasTag, OnlyElb, OnlyGroup, Named;
    HoldingOnly(k, c, l.pc.s, l.pc.e);
  }

  lemma AclRecordKeeps(k: Key, c: Cloud, l: Local, l': Local)
    requires Own(k, c, l, c, l') && l.pc.AclRecord?
    ensures KInv(k, c, l')
  {
    HoldingOnly(k, c, l.pc.s, l.pc.e);
    hide Stable, Sound, ElbName, Tag, OneGroup, NameTag, NoElb, HasTag, OnlyElb;
  }

  /** A step to another place with the same knowledge of the Service. */
  lemma KeepPlace(k: Key, c: Cloud, l: Local, l': Local)
    requires KInv(k, c, l) && PcOk(k, c, l') && l' == l.(pc := l'.pc)
    requires Snapshot(l'.pc) in {None, Snapshot(l.pc)} && (Working(l'.pc) ==> Working(l.pc))
    ensures KInv(k, c, l')
  {
    hide PcOk, Stable, Recorded, OneGroup, Tag, NameTag, ElbName, NoElb, Named, Snapshot;
  }

  lemma AclStartKeeps(k: Key, c: Cloud, l: Local, l': Local)
    requires Own(k, c, l, c, l') && l.pc.Work? && l'.pc != l.pc
    ensures KInv(k, c, l')
  {
    hide Stable, ElbName, Tag, NameTag, NoElb, HasTag, OnlyElb, ChildStep, Guards, Holding, Sound, OneGroup;
    hide OnlyGroup, Named;
    KeepPlace(k, c, l, l');
  }

  lemma AclFindKeeps(k: Key, c: Cloud, l: Local, l': Local)
    requires Own(k, c, l, c, l') && l.pc.AclFind?
    ensures KInv(k, c, l')
  {
    hide Stable, ElbName, GroupName, Tag, NameTag, NoElb, HasTag, OnlyElb, Guards, Holding, BindingOk, SvcOk, SnapOk;
    var r :| FoundGroup(c, GroupName(k), r) && l' == l.(pc := AclFound(l.pc.s, l.pc.e, r));
    assert PcOk(k, c, l');
    hide PcOk, KInv;
    KeepPlace(k, c, l, l');
  }

  /** Listing the listeners, and the end of the loop over them. */
  lemma AclLoopKeeps(k: Key, c: Cloud, l: Local, l': Local)
    requires Own(k, c, l, c, l')
    requires l.pc.AclList? || l.pc.AclUnlist? || (l.pc.AclBind? && l'.pc.AclRecord?)
      || (l.pc.AclUnbind? && l'.pc.AclDrop?)
    ensures KInv(k, c, l')
  {
    hide Stable, ElbName, GroupName, Tag, NameTag, NoElb, HasTag, OnlyElb, Guards, Holding, BindingOk, SvcOk, SnapOk;
    hide Sole, OneGroup, SetAcl, Sound;
    KeepPlace(k, c, l, l');
  }

  lemma AfterElbOk(k: Key, c: Cloud, l: Local, os: Option<Svc>, ob: Option<Binding>)
    requires ObOk(k, c, l, os, ob) && ElbGone(c, l, os, ob)
    ensures PcOk(k, c, l.(pc := AfterElb(os, ob))) && Snapshot(AfterElb(os, ob)) == os && Closing(AfterElb(os, ob))
  {
  }

  lemma NoElbIsGone(k: Key, c: Cloud, l: Local, s: Svc, ob: Option<Binding>)
    requires SnapOk(k, c, l) && BindingOk(k, c, l) && Snapshot(l.pc) == Some(s)
    requires ObOk(k, c, l, Some(s), ob) && NoElb(c, Tag(s.uid))
    ensures ElbGone(c, l, Some(s), ob)
  {
    hide Tag, NameTag, Stable;
  }

  lemma CleanStartOk(k: Key, c: Cloud, l: Local, os: Option<Svc>, ob: Option<Binding>)
    requires ObOk(k, c, l, os, ob) && (os.Some? ==> Tag(os.value.uid) in l.tags)
    requires os.None? ==> l.binding == ob
    ensures PcOk(k, c, l.(pc := CleanStart(os, ob))) && Snapshot(CleanStart(os, ob)) == os
      && Closing(CleanStart(os, ob))
  {
    hide Tag, NameTag;
    if ob.Some? && ob.value.elb.Some? {
    } else if os.Some? {
    } else {
      AfterElbOk(k, c, l, os, ob);
    }
  }

  lemma CloseKeeps(k: Key, c: Cloud, l: Local, l': Local)
    requires Own(k, c, l, c, l') && (l.pc.Orphan? || l.pc.Deleting?)
    ensures KInv(k, c, l')
  {
    hide Tag, NameTag, Stable, ElbName, Recorded, OneGroup, Guards, CleanStart, Sound;
    if l.pc.Orphan? {
      if l.binding.Some? && l.binding.value.finalizer {
        CleanStartOk(k, c, l, None, l.binding);
      }
    } else {
      var s := l.pc.s;
      var ob :| (ob == None || ob == l.binding) && l' == l.(pc := CleanStart(Some(s), ob));
      CleanStartOk(k, c, l, Some(s), ob);
    }
    KeepPlace(k, c, l, l');
  }

  lemma CleanFindKeeps(k: Key, c: Cloud, l: Local, l': Local)
    requires Own(k, c, l, c, l') && l.pc.CleanFind?
    ensures KInv(k, c, l')
  {
    hide Stable, ElbName, Tag, NameTag, Recorded, NoElb, Found, AfterElb, OneGroup, Guards, Sound, OnlyElb, HasTag;
    var s, ob := l.pc.s, l.pc.ob;
    var r :| Found(c, ElbName(k, s), r) && l' == l.(pc := CleanFound(s, ob, r));
    FoundByTag(k, c, s, r);
    if r.None? {
      NoElbIsGone(k, c, l, s, ob);
      AfterElbOk(k, c, l, Some(s), ob);
    } else {
      HoldingOnly(k, c, s, r.value);
    }
    KeepPlace(k, c, l, l');
  }

  lemma TornKeeps(k: Key, c: Cloud, l: Local, l': Local)
    requires Own(k, c, l, c, l') && l.pc.Tear? && !l'.pc.Tear?
    ensures KInv(k, c, l')
  {
    var os, ob, e := l.pc.os, l.pc.ob, l.pc.e;
    assert ElbGone(c, l, os, ob) by {
      hide Tag, NameTag, Stable, AfterElb, TearStep;
    }
    hide Tag, NameTag, Stable, ElbName, TearStep, Sound, OneGroup, Guards, Recorded;
    AfterElbOk(k, c, l, os, ob);
    KeepPlace(k, c, l, l');
  }

  lemma GroupFindKeeps(k: Key, c: Cloud, l: Local, l': Local)
    requires Own(k, c, l, c, l') && l.pc.GroupFind?
    ensures KInv(k, c, l')
  {
    hide Stable, ElbName, GroupName, Tag, NameTag, NoElb, HasTag, OnlyElb, Guards, BindingOk, SvcOk, SnapOk, Recorded;
    var s, ob := l.pc.s, l.pc.ob;
    var r :| FoundGroup(c, GroupName(k), r) && l' == l.(pc := GroupFound(s, ob, r));
    assert PcOk(k, c, l');
    hide PcOk, KInv;
    KeepPlace(k, c, l, l');
  }

  lemma ReleaseKeeps(k: Key, c: Cloud, l: Local, l': Local)
    requires Own(k, c, l, c, l') && l.pc.Release?
    ensures KInv(k, c, l')
  {
    hide Stable, ElbName, GroupName, Tag, NameTag, NoElb, HasTag, OnlyElb, Sound, OneGroup;
  }

  lemma StopsKeep(k: Key, c: Cloud, l: Local, l': Local)
    requires KInv(k, c, l) && Stops(l, l')
    ensures KInv(k, c, l')
  {
    KeepPlace(k, c, l, l');
  }

  // ---------------------------------------------------------------------------
  // Steps of the key's own process that change the cloud
  // ---------------------------------------------------------------------------

  predicate Foreign(c: Cloud, e: Id, tags: set<string>) {
    e in c.elbs && NameTag(c.elbs[e]) !in tags
  }

  /** From `c` to `c'` nothing changed but ELBs with these tags, what hangs below them, and groups
      with the name of key `k`. */
  ghost predicate OnlyOwn(k: Key, c: Cloud, c': Cloud, tags: set<string>) {
    && c.next <= c'.next
    && (forall e :: Foreign(c, e, tags) ==> e in c'.elbs && c'.elbs[e] == c.elbs[e])
    && (forall e :: e in c'.elbs ==>
       (e in c.elbs && c'.elbs[e] == c.elbs[e]) || (e >= c.next && NameTag(c'.elbs[e]) in tags))
    && (forall x :: x in c.listeners && Foreign(c, c.listeners[x].elb, tags) ==>
       x in c'.listeners && c'.listeners[x] == c.listeners[x])
    && (forall x :: x in c'.listeners && Foreign(c', c'.listeners[x].elb, tags) ==>
       x in c.listeners && c'.listeners[x] == c.listeners[x])
    && (forall e :: Foreign(c, e, tags) ==> TreeOf(c', e) == TreeOf(c, e))
    && (forall g :: g in c.groups && c.groups[g].name != GroupName(k) ==> g in c'.groups && c'.groups[g] == c.groups[g])
    && (forall g :: g in c'.groups && c'.groups[g].name != GroupName(k) ==>
       g in c.groups && c'.groups[g] == c.groups[g])
    && (forall g :: g in c'.groups && g !in c.groups ==> g >= c.next)
  }

  /** The parts of the invariant that do not look at listeners. */
  lemma SameOwners(k: Key, c: Cloud, c': Cloud, l: Local)
    requires c'.elbs == c.elbs && c'.groups == c.groups && c.next <= c'.next
    requires SvcOk(k, c, l) && SnapOk(k, c, l) && BindingOk(k, c, l) && OneGroup(c, k)
    ensures SvcOk(k, c', l) && SnapOk(k, c', l) && BindingOk(k, c', l) && OneGroup(c', k)
  {
    hide ElbName, GroupName, Tag, NameTag, Snapshot;
  }

  lemma HeldTag(k: Key, c: Cloud, l: Local, s: Svc, e: Id)
    requires SnapOk(k, c, l) && Snapshot(l.pc) == Some(s) && Holding(k, c, s, e)
    ensures HasTag(c, e, Tag(s.uid)) && Tag(s.uid) in l.tags && !Foreign(c, e, l.tags)
  {
    NameHasTag(k, c, s, e);
  }

  /** Only listeners of ELB `e` and what is below them change. */
  ghost predicate ListenersOnly(c: Cloud, c': Cloud, e: Id) {
    && c'.elbs == c.elbs && c'.groups == c.groups && c.next <= c'.next
    && TreesStay(c, c', e)
    && (forall x :: x in c.listeners && c.listeners[x].elb != e ==>
       x in c'.listeners && c'.listeners[x] == c.listeners[x])
    && (forall x :: x in c'.listeners && c'.listeners[x].elb != e ==>
       x in c.listeners && c'.listeners[x] == c.listeners[x])
  }

  lemma ListenersOnlyOwn(k: Key, c: Cloud, c': Cloud, e: Id, tags: set<string>)
    requires ListenersOnly(c, c', e) && !Foreign(c, e, tags)
    ensures OnlyOwn(k, c, c', tags)
  {
    hide NameTag, GroupName, TreeOf;
  }

  lemma ChildListeners(c: Cloud, c': Cloud, e: Id)
    requires ChildStep(c, c', e)
    ensures ListenersOnly(c, c', e)
  {
    RestTrees(c, c', e);
    hide TreeOf, Rest, WF, TreesStay;
  }

  lemma ChildGuards(k: Key, c: Cloud, l: Local, c': Cloud, e: Id)
    requires ChildStep(c, c', e) && Guards(k, c, l)
    ensures Guards(k, c', l)
  {
    hide WF, NameTag, GroupName, Tag, Snapshot;
  }

  lemma ChildKeeps(k: Key, c: Cloud, l: Local, c': Cloud)
    requires Sound(c) && KInv(k, c, l) && l.pc.Work? && ChildStep(c, c', l.pc.e)
    ensures Sound(c') && KInv(k, c', l) && OnlyOwn(k, c, c', l.tags)
  {
    ChildGuards(k, c, l, c', l.pc.e);
    ChildListeners(c, c', l.pc.e);
    hide Guards, SvcOk, SnapOk, BindingOk, OneGroup, OnlyOwn, ListenersOnly, ElbName, GroupName, Tag, NameTag, WF;
    HeldTag(k, c, l, l.pc.s, l.pc.e);
    SameOwners(k, c, c', l);
    ListenersOnlyOwn(k, c, c', l.pc.e, l.tags);
  }

  lemma SetAclListeners(c: Cloud, x: Id, acl: Option<Id>)
    requires x in c.listeners
    ensures ListenersOnly(c, SetAcl(c, x, acl), c.listeners[x].elb)
    ensures forall e :: ListenersOf(SetAcl(c, x, acl), e) == ListenersOf(c, e)
  {
    SetAclTrees(c, x, acl);
    hide TreeOf, TreesStay;
    forall e
      ensures ListenersOf(SetAcl(c, x, acl), e) == ListenersOf(c, e)
    {
      assert forall y :: y in ListenersOf(SetAcl(c, x, acl), e) <==> y in ListenersOf(c, e);
    }
  }

  lemma SetAclOwn(k: Key, c: Cloud, l: Local, x: Id, acl: Option<Id>)
    requires Sound(c) && SnapOk(k, c, l) && Snapshot(l.pc).Some? && x in c.listeners
    requires Holding(k, c, Snapshot(l.pc).value, c.listeners[x].elb)
    ensures Sound(SetAcl(c, x, acl)) && OnlyOwn(k, c, SetAcl(c, x, acl), l.tags)
  {
    hide SnapOk, ElbName, GroupName, Tag, NameTag, Snapshot, WF, ListenersOnly, OnlyOwn, ListenersOf;
    HeldTag(k, c, l, Snapshot(l.pc).value, c.listeners[x].elb);
    SetAclKeepsWF(c, x, acl);
    SetAclListeners(c, x, acl);
    ListenersOnlyOwn(k, c, SetAcl(c, x, acl), c.listeners[x].elb, l.tags);
  }

  lemma SetAclGuards(k: Key, c: Cloud, l: Local, x: Id, acl: Option<Id>, l': Local)
    requires Guards(k, c, l) && x in c.listeners && (acl.Some? ==> Named(c, k, acl.value))
    requires l' == l.(pc := l'.pc) && Snapshot(l'.pc) == Snapshot(l.pc)
    ensures Guards(k, SetAcl(c, x, acl), l')
  {
    hide NameTag, GroupName, Tag, Snapshot;
  }

  lemma SoleNamed(k: Key, c: Cloud, g: Id)
    requires Sole(k, c, g) && g in c.groups
    ensures Named(c, k, g)
  {
  }

  lemma SetAclElb(k: Key, c: Cloud, s: Svc, e: Id, left: set<Id>, x: Id, acl: Option<Id>)
    requires Holding(k, c, s, e) && left <= ListenersOf(c, e) && x in left
    ensures c.listeners[x].elb == e
    ensures var c' := SetAcl(c, x, acl);
      && Holding(k, c', s, e)
      && left - {x} <= ListenersOf(c', e)
      && (acl.None? && Opened(c, e, left) ==> Opened(c', e, left - {x}))
      && c'.groups == c.groups && c'.elbs == c.elbs && c'.next == c.next
      && forall g :: Sole(k, c, g) ==> Sole(k, c', g)
  {
    SetAclListeners(c, x, acl);
    hide ElbName, NameTag;
  }

  lemma BindListenerKeeps(k: Key, c: Cloud, l: Local, c': Cloud, l': Local)
    requires Own(k, c, l, c', l') && l.pc.AclBind? && l'.pc.AclBind?
    ensures Sound(c') && KInv(k, c', l') && OnlyOwn(k, c, c', l.tags)
  {
    hide SvcOk, SnapOk, BindingOk, OneGroup, ElbName, GroupName, Tag, NameTag, WF, Sound, Guards, SetAcl, ListenersOf;
    hide Holding, OnlyOwn, Named;
    var s, e, g, left := l.pc.s, l.pc.e, l.pc.g, l.pc.left;
    var x :| x in left && x in c.listeners && g in c.groups && c' == SetAcl(c, x, Some(g))
      && l' == l.(pc := AclBind(s, e, g, left - {x}));
    SetAclElb(k, c, s, e, left, x, Some(g));
    SetAclOwn(k, c, l, x, Some(g));
    SoleNamed(k, c, g);
    SetAclGuards(k, c, l, x, Some(g), l');
    SameOwners(k, c, c', l);
    SamePlace(k, c', l, l');
  }

  /** A loop that goes on. */
  lemma SamePlace(k: Key, c: Cloud, l: Local, l': Local)
    requires SvcOk(k, c, l) && SnapOk(k, c, l) && BindingOk(k, c, l) && l' == l.(pc := l'.pc)
    requires Snapshot(l'.pc) == Snapshot(l.pc) && Working(l'.pc) == Working(l.pc)
    ensures SvcOk(k, c, l') && SnapOk(k, c, l') && BindingOk(k, c, l')
  {
    hide Stable, Recorded, Tag, ElbName, NoElb;
  }

  lemma UnbindListenerKeeps(k: Key, c: Cloud, l: Local, c': Cloud, l': Local)
    requires Own(k, c, l, c', l') && l.pc.AclUnbind? && l'.pc.AclUnbind?
    ensures Sound(c') && KInv(k, c', l') && OnlyOwn(k, c, c', l.tags)
  {
    hide SvcOk, SnapOk, BindingOk, OneGroup, ElbName, GroupName, Tag, NameTag, WF, Sound, Guards, SetAcl, ListenersOf;
    hide Holding, OnlyOwn, Opened;
    var s, e, g, left := l.pc.s, l.pc.e, l.pc.g, l.pc.left;
    var x :| x in left && x in c.listeners && c' == SetAcl(c, x, None)
      && l' == l.(pc := AclUnbind(s, e, g, left - {x}));
    SetAclElb(k, c, s, e, left, x, None);
    SetAclOwn(k, c, l, x, None);
    SetAclGuards(k, c, l, x, None, l');
    SameOwners(k, c, c', l);
    SamePlace(k, c', l, l');
  }

  // ELBs

  /** The new ELB is the only one with its Service's tag, and has the Service's name. */
  lemma AfterCreate(k: Key, c: Cloud, s: Svc)
    requires Sound(c) && FreeToCreate(k, c, Local(None, None, Create(s), {})) && NoElb(c, Tag(s.uid)) && |s.uid| >= 10
    ensures var c' := AddElb(c, ElbName(k, s));
      && Sound(c')
      && Holding(k, c', s, c.next) && HasTag(c', c.next, Tag(s.uid))
      && (forall e :: e in c'.elbs && e != c.next ==> e in c.elbs && c'.elbs[e] == c.elbs[e])
      && c'.elbs.Keys == c.elbs.Keys + {c.next}
      && c.next !in c.elbs
      && forall x :: x in c.listeners ==> c.listeners[x].elb != c.next
  {
    ELBNameTag(s.params, k.namespace, k.name, s.uid);
    AddElbKeepsWF(c, ElbName(k, s));
    hide ElbName, Tag, NameTag;
  }

  lemma CreateOwn(k: Key, c: Cloud, name: string, tags: set<string>)
    requires Sound(c) && NameTag(name) in tags
    ensures OnlyOwn(k, c, AddElb(c, name), tags)
  {
    SameTrees(c, AddElb(c, name));
    hide NameTag, GroupName, TreeOf;
  }

  /** No listener, pool, monitor or member changes. */
  lemma SameTrees(c: Cloud, c': Cloud)
    requires c'.listeners == c.listeners && c'.pools == c.pools && c'.monitors == c.monitors && c'.members == c.members
    ensures forall e :: TreeOf(c', e) == TreeOf(c, e)
  {
    forall e
      ensures TreeOf(c', e) == TreeOf(c, e)
    {
      TreeFrame(c, c', e);
    }
  }

  lemma CreateSvc(k: Key, c: Cloud, l: Local, s: Svc, c': Cloud)
    requires SvcOk(k, c, l) && SnapOk(k, c, l) && Snapshot(l.pc) == Some(s)
    requires Holding(k, c', s, c.next)
    requires forall e :: e in c'.elbs && e != c.next ==> e in c.elbs && c'.elbs[e] == c.elbs[e]
    ensures SvcOk(k, c', l) && SnapOk(k, c', l)
  {
    hide ElbName, Tag, NameTag, Snapshot;
  }

  lemma CreateBinding(k: Key, c: Cloud, l: Local, c': Cloud, l': Local)
    requires Own(k, c, l, c', l') && l.pc.Create?
    ensures BindingOk(k, c', l')
  {
    hide ElbName, Tag, NameTag, GroupName, SvcOk, OneGroup, Guards, Sound, Stable;
    if l.binding.Some? {
      assert l.binding.value.elb.None?;
    }
  }

  lemma CreateGuards(k: Key, c: Cloud, l: Local, c': Cloud, l': Local)
    requires Guards(k, c, l) && c' == c.(elbs := c'.elbs, next := c'.next)
    requires forall e :: e in c'.elbs && e != c.next ==> e in c.elbs && c'.elbs[e] == c.elbs[e]
    requires forall x :: x in c.listeners ==> c.listeners[x].elb != c.next
    requires l' == l.(pc := l'.pc) && Snapshot(l'.pc) == Snapshot(l.pc)
    ensures Guards(k, c', l')
  {
    hide ElbName, Tag, NameTag, Snapshot, GroupName;
  }

  lemma CreateKeeps(k: Key, c: Cloud, l: Local, c': Cloud, l': Local)
    requires Own(k, c, l, c', l') && l.pc.Create? && FreeToCreate(k, c, l)
    ensures Sound(c') && KInv(k, c', l') && OnlyOwn(k, c, c', l.tags)
  {
    hide ElbName, GroupName, Tag, NameTag, Sound, SvcOk, BindingOk, Guards, NoElb, OnlyOwn, OneGroup, HasTag;
    var s := l.pc.s;
    AfterCreate(k, c, s);
    TagOfName(k, s);
    CreateOwn(k, c, ElbName(k, s), l.tags);
    CreateSvc(k, c, l, s, c');
    SnapLater(k, c', l, l');
    CreateBinding(k, c, l, c', l');
    CreateGuards(k, c, l, c', l');
    SameGroups(k, c, c');
  }

  lemma TagOfName(k: Key, s: Svc)
    requires |s.uid| >= 10
    ensures NameTag(ElbName(k, s)) == Tag(s.uid)
  {
    ELBNameTag(s.params, k.namespace, k.name, s.uid);
  }

  lemma SnapLater(k: Key, c: Cloud, l: Local, l': Local)
    requires SvcOk(k, c, l) && SnapOk(k, c, l) && l' == l.(pc := l'.pc) && Snapshot(l'.pc) == Snapshot(l.pc)
    ensures SvcOk(k, c, l') && SnapOk(k, c, l')
  {
    hide ElbName, Tag, Stable, Snapshot;
  }

  lemma SameGroups(k: Key, c: Cloud, c': Cloud)
    requires OneGroup(c, k) && c'.groups == c.groups
    ensures OneGroup(c', k)
  {
  }

  // IP groups

  /** Only groups with the key's name change. */
  ghost predicate GroupsOnly(k: Key, c: Cloud, c': Cloud) {
    && c' == c.(groups := c'.groups, next := c'.next)
    && c.next <= c'.next
    && (forall g :: g in c.groups && c.groups[g].name != GroupName(k) ==> g in c'.groups && c'.groups[g] == c.groups[g])
    && (forall g :: g in c'.groups && c'.groups[g].name != GroupName(k) ==>
       g in c.groups && c'.groups[g] == c.groups[g])
    && (forall g :: g in c'.groups && g !in c.groups ==> g >= c.next)
  }

  lemma GroupsOnlyOwn(k: Key, c: Cloud, c': Cloud, tags: set<string>)
    requires GroupsOnly(k, c, c') && Sound(c)
    ensures OnlyOwn(k, c, c', tags) && UniqueNames(c')
  {
    SameTrees(c, c');
    hide NameTag, GroupName, TreeOf;
  }

  lemma GroupsSvc(k: Key, c: Cloud, l: Local, c': Cloud)
    requires GroupsOnly(k, c, c') && SvcOk(k, c, l) && SnapOk(k, c, l)
    ensures SvcOk(k, c', l) && SnapOk(k, c', l)
  {
    hide NameTag, GroupName, Tag, ElbName, Snapshot;
  }

  lemma AfterDrop(k: Key, c: Cloud, g: Id)
    requires Sole(k, c, g) && Sound(c)
    ensures GroupsOnly(k, c, DropGroup(c, g)) && NoGroup(DropGroup(c, g), k) && OneGroup(DropGroup(c, g), k)
      && Sound(DropGroup(c, g))
  {
    DropGroupKeepsWF(c, g);
    GroupsAfterDrop(k, c, g);
    hide GroupName, WF, GroupsOnly, NoGroup, OneGroup;
  }

  lemma GroupsAfterDrop(k: Key, c: Cloud, g: Id)
    requires Sole(k, c, g)
    ensures GroupsOnly(k, c, DropGroup(c, g)) && NoGroup(DropGroup(c, g), k) && OneGroup(DropGroup(c, g), k)
  {
    hide GroupName;
  }

  /** A binding survives that its group goes. */
  lemma DropBinding(k: Key, c: Cloud, l: Local, g: Id)
    requires BindingOk(k, c, l) && Sole(k, c, g)
    ensures BindingOk(k, DropGroup(c, g), l)
  {
    hide NameTag, GroupName, Tag;
  }

  lemma DropGuards(k: Key, c: Cloud, l: Local, g: Id)
    requires Guards(k, c, l)
    requires forall x :: x in c.listeners && Tracked(c, l, c.listeners[x].elb) ==> c.listeners[x].acl != Some(g)
    ensures Guards(k, DropGroup(c, g), l)
  {
    hide NameTag, GroupName, Tag, Snapshot;
  }

  /** While a process holds an ELB, no other ELB is tracked. */
  lemma TrackedHeld(k: Key, c: Cloud, l: Local, s: Svc, e: Id)
    requires Sound(c) && SnapOk(k, c, l) && BindingOk(k, c, l) && Snapshot(l.pc) == Some(s) && Holding(k, c, s, e)
    ensures forall x :: Tracked(c, l, x) ==> x == e
  {
    HoldingOnly(k, c, s, e);
    hide NameTag, Tag, Snapshot, ElbName;
  }

  /** Once a cleanup has deleted the ELB, none is tracked. */
  lemma TrackedGone(k: Key, c: Cloud, l: Local, os: Option<Svc>, ob: Option<Binding>)
    requires SnapOk(k, c, l) && Snapshot(l.pc) == os && ObOk(k, c, l, os, ob) && ElbGone(c, l, os, ob)
    ensures forall x :: !Tracked(c, l, x)
  {
    hide NameTag, Tag, Snapshot, ElbName, Recorded;
  }

  lemma GuardsLater(k: Key, c: Cloud, l: Local, l': Local)
    requires Guards(k, c, l) && l' == l.(pc := l'.pc) && Snapshot(l'.pc) == Snapshot(l.pc)
    ensures Guards(k, c, l')
  {
    hide Tag, NameTag, Snapshot, GroupName;
  }

  lemma RecordedSole(k: Key, c: Cloud, l: Local, g: Id)
    requires BindingOk(k, c, l) && AclIn(l, {Some(g)})
    ensures Sole(k, c, g)
  {
    hide GroupName;
  }

  lemma AclDropKeeps(k: Key, c: Cloud, l: Local, c': Cloud, l': Local)
    requires Own(k, c, l, c', l') && l.pc.AclDrop?
    ensures Sound(c') && KInv(k, c', l') && OnlyOwn(k, c, c', l.tags)
  {
    hide ElbName, GroupName, Tag, NameTag, Sound, SvcOk, SnapOk, BindingOk, Guards, OnlyOwn, OneGroup, NoGroup, Sole;
    hide GroupsOnly, Tracked;
    var s, e, g := l.pc.s, l.pc.e, l.pc.g;
    RecordedSole(k, c, l, g);
    AfterDrop(k, c, g);
    GroupsOnlyOwn(k, c, c', l.tags);
    GroupsSvc(k, c, l, c');
    DropBinding(k, c, l, g);
    TrackedHeld(k, c, l, s, e);
    DropGuards(k, c, l, g);
    SamePlace(k, c', l, l');
    GuardsLater(k, c', l, l');
  }

  lemma GroupDropPlace(k: Key, c: Cloud, l: Local, os: Option<Svc>, ob: Option<Binding>, g: Id)
    requires ObOk(k, c, l, os, ob) && ElbGone(c, l, os, ob) && Sole(k, c, g)
    requires ob.Some? && ob.value.acl.Some? ==> ob.value.acl.value == g
    ensures var c' := DropGroup(c, g); ObOk(k, c', l, os, ob) && ElbGone(c', l, os, ob) && GroupGone(k, c', os, ob)
  {
    hide Tag, NameTag, GroupName;
  }

  lemma GroupDropKeeps(k: Key, c: Cloud, l: Local, c': Cloud, l': Local)
    requires Own(k, c, l, c', l') && l.pc.GroupDrop?
    ensures Sound(c') && KInv(k, c', l') && OnlyOwn(k, c, c', l.tags)
  {
    hide ElbName, GroupName, Tag, NameTag, Sound, SvcOk, SnapOk, BindingOk, Guards, OnlyOwn, OneGroup, NoGroup, Sole;
    hide GroupsOnly, Tracked, DropGroup;
    hide GroupGone, Recorded, NoElb;
    var os, ob, g := l.pc.os, l.pc.ob, l.pc.g;
    AfterDrop(k, c, g);
    GroupsOnlyOwn(k, c, c', l.tags);
    GroupsSvc(k, c, l, c');
    DropBinding(k, c, l, g);
    TrackedGone(k, c, l, os, ob);
    DropGuards(k, c, l, g);
    GroupDropPlace(k, c, l, os, ob, g);
    SamePlace(k, c', l, l');
    GuardsLater(k, c', l, l');
  }

  lemma AfterAdd(k: Key, c: Cloud, cidrs: seq<string>)
    requires NoGroup(c, k) && Sound(c)
    ensures var c' := AddGroup(c, GroupName(k), cidrs);
      GroupsOnly(k, c, c') && Sole(k, c', c.next) && c.next in c'.groups && OneGroup(c', k) && Sound(c')
  {
    AddGroupKeepsWF(c, GroupName(k), cidrs);
    assert c.next !in c.groups;
    hide WF;
    GroupsAfterAdd(k, c, cidrs);
    hide GroupName, GroupsOnly, Sole, OneGroup, NoGroup;
  }

  lemma GroupsAfterAdd(k: Key, c: Cloud, cidrs: seq<string>)
    requires NoGroup(c, k) && c.next !in c.groups
    ensures var c' := AddGroup(c, GroupName(k), cidrs);
      GroupsOnly(k, c, c') && Sole(k, c', c.next) && c.next in c'.groups && OneGroup(c', k)
  {
    hide GroupName;
  }

  lemma AfterSet(k: Key, c: Cloud, g: Id, cidrs: seq<string>)
    requires Sole(k, c, g) && g in c.groups && Sound(c)
    ensures var c' := SetGroup(c, g, GroupName(k), cidrs);
      GroupsOnly(k, c, c') && Sole(k, c', g) && g in c'.groups && OneGroup(c', k) && Sound(c')
  {
    SetGroupKeepsWF(c, g, GroupName(k), cidrs);
    hide GroupName;
  }

  /** The key's group `g` is there now; it is the recorded one, or none is recorded. */
  lemma PutBinding(k: Key, c: Cloud, l: Local, c': Cloud, g: Id)
    requires BindingOk(k, c, l) && GroupsOnly(k, c, c') && AclIn(l, {None, Some(g)}) && Sole(k, c', g) && Working(l.pc)
    ensures BindingOk(k, c', l)
  {
    hide NameTag, GroupName, Tag;
  }

  lemma PutGuards(k: Key, c: Cloud, l: Local, c': Cloud)
    requires Guards(k, c, l) && GroupsOnly(k, c, c') && forall g :: g in c.groups ==> g in c'.groups
    ensures Guards(k, c', l)
  {
    hide NameTag, GroupName, Tag, Snapshot;
  }

  lemma AclCreateKeeps(k: Key, c: Cloud, l: Local, c': Cloud, l': Local)
    requires Own(k, c, l, c', l') && l.pc.AclCreate?
    ensures Sound(c') && KInv(k, c', l') && OnlyOwn(k, c, c', l.tags)
  {
    hide ElbName, GroupName, Tag, NameTag, Sound, SvcOk, SnapOk, BindingOk, Guards, OnlyOwn, OneGroup, NoGroup, Sole;
    hide GroupsOnly, Tracked;
    AfterAdd(k, c, l.pc.s.cidrs);
    GroupsOnlyOwn(k, c, c', l.tags);
    GroupsSvc(k, c, l, c');
    PutBinding(k, c, l, c', c.next);
    PutGuards(k, c, l, c');
    SamePlace(k, c', l, l');
    GuardsLater(k, c', l, l');
  }

  lemma AclUpdateKeeps(k: Key, c: Cloud, l: Local, c': Cloud, l': Local)
    requires Own(k, c, l, c', l') && l.pc.AclUpdate?
    ensures Sound(c') && KInv(k, c', l') && OnlyOwn(k, c, c', l.tags)
  {
    hide ElbName, GroupName, Tag, NameTag, Sound, SvcOk, SnapOk, BindingOk, Guards, OnlyOwn, OneGroup, NoGroup, Sole;
    hide GroupsOnly, Tracked;
    var g := l.pc.g;
    AfterSet(k, c, g, l.pc.s.cidrs);
    GroupsOnlyOwn(k, c, c', l.tags);
    GroupsSvc(k, c, l, c');
    PutBinding(k, c, l, c', g);
    PutGuards(k, c, l, c');
    SamePlace(k, c', l, l');
    GuardsLater(k, c', l, l');
  }

  // Teardown

  lemma TearKeepsWF(c: Cloud, c': Cloud, e: Id)
    requires WF(c) && TearStep(c, c', e, false)
    ensures WF(c')
  {
    hide WF;
    if m :| MonitorOn(c, m, e) && c' == DropMonitor(c, m) {
      DropMonitorKeepsWF(c, m);
    } else if m :| MemberOn(c, m, e) && c' == DropMember(c, m) {
      DropMemberKeepsWF(c, m);
    } else if p :| PoolOn(c, p, e) && c' == DropPool(c, p) {
      DropPoolKeepsWF(c, p);
    } else if x :| ListenerOn(c, x, e) && PoolsAt(c, x) == {} && c' == DropListener(c, x) {
      DropListenerKeepsWF(c, x);
    } else {
      DropElbKeepsWF(c, e);
    }
  }

  /** Teardown touches nothing but the ELB and what is below it. */
  lemma ShrinkOwn(k: Key, c: Cloud, c': Cloud, e: Id, tags: set<string>)
    requires Shrinks(c, c', e) && TreesStay(c, c', e) && !Foreign(c, e, tags)
    ensures OnlyOwn(k, c, c', tags)
  {
    hide NameTag, GroupName, TreeOf;
  }

  lemma TearTrees(c: Cloud, c': Cloud, e: Id)
    requires TearStep(c, c', e, false)
    ensures TreesStay(c, c', e)
  {
    hide TearStep, TreeOf, Without, Remaining;
    TearStepShrinks(c, c', e, false);
    RestTrees(c, c', e);
  }

  lemma ShrinkSvc(k: Key, c: Cloud, l: Local, c': Cloud, e: Id)
    requires Shrinks(c, c', e) && SvcOk(k, c, l) && SnapOk(k, c, l) && OneGroup(c, k) && UniqueNames(c)
    ensures SvcOk(k, c', l) && SnapOk(k, c', l) && OneGroup(c', k) && UniqueNames(c')
  {
    hide NameTag, GroupName, Tag, ElbName, Snapshot;
  }

  lemma ShrinkGuards(k: Key, c: Cloud, l: Local, c': Cloud, e: Id)
    requires Shrinks(c, c', e) && Guards(k, c, l)
    ensures Guards(k, c', l)
  {
    hide NameTag, GroupName, Tag, Snapshot;
  }

  lemma ShrinkBinding(k: Key, c: Cloud, l: Local, c': Cloud, e: Id)
    requires Shrinks(c, c', e) && BindingOk(k, c, l) && !Alive(l)
    ensures BindingOk(k, c', l)
  {
    hide NameTag, GroupName, Tag;
  }

  lemma ShrinkPlace(k: Key, c: Cloud, l: Local, c': Cloud, e: Id)
    requires Shrinks(c, c', e) && l.pc.Tear? && PcOk(k, c, l)
    ensures PcOk(k, c', l) && !Alive(l) && (l.pc.e in c.elbs ==> NameTag(c.elbs[l.pc.e]) in l.tags)
  {
    hide GroupName, Tag;
  }

  lemma TearKeeps(k: Key, c: Cloud, l: Local, c': Cloud)
    requires Sound(c) && KInv(k, c, l) && l.pc.Tear? && TearStep(c, c', l.pc.e, false)
    ensures Sound(c') && KInv(k, c', l) && OnlyOwn(k, c, c', l.tags)
  {
    hide ElbName, GroupName, Tag, NameTag, SvcOk, SnapOk, BindingOk, Guards, OnlyOwn, OneGroup, TearStep, Shrinks;
    hide PcOk, Alive, UniqueNames, WF, TreesStay;
    TearShrinks(c, c', l.pc.e);
    TearKeepsWF(c, c', l.pc.e);
    ShrinkSvc(k, c, l, c', l.pc.e);
    ShrinkGuards(k, c, l, c', l.pc.e);
    ShrinkPlace(k, c, l, c', l.pc.e);
    ShrinkBinding(k, c, l, c', l.pc.e);
    TearTrees(c, c', l.pc.e);
    ShrinkOwn(k, c, c', l.pc.e, l.tags);
  }

  // ---------------------------------------------------------------------------
  // Any step of the key's own process
  // ---------------------------------------------------------------------------

  lemma NothingForeign(k: Key, c: Cloud, tags: set<string>)
    ensures OnlyOwn(k, c, c, tags)
  {
  }

  /** Places whose steps leave the cloud alone. */
  predicate Quiet(pc: PC, pc': PC) {
    match pc
    case Create(_) => false
    case Work(_, _, _) => pc' != pc
    case AclCreate(_, _) => false
    case AclUpdate(_, _, _) => false
    case AclBind(_, _, _, _) => !pc'.AclBind?
    case AclUnbind(_, _, _, _) => !pc'.AclUnbind?
    case AclDrop(_, _, _) => false
    case Tear(_, _, _) => !pc'.Tear?
    case GroupDrop(_, _, _) => false
    case _ => true
  }

  lemma QuietKeeps(k: Key, c: Cloud, l: Local, c': Cloud, l': Local)
    requires Own(k, c, l, c', l') && Quiet(l.pc, l'.pc)
    ensures c' == c && KInv(k, c, l')
  {
    QuietIsQuiet(k, c, l, c', l');
    hide Moves, KInv, Sound;
    match l.pc
    case Idle => StartsKeep(k, c, l, l');
    case Route(_) => StartsKeep(k, c, l, l');
    case Update(_) => StartsKeep(k, c, l, l');
    case Heal(_, _, _) => StartsKeep(k, c, l, l');
    case Find(_) => FindKeeps(k, c, l, l');
    case Bind(_, _, _) => BindKeeps(k, c, l, l');
    case Rebind(_, _, _) => BindKeeps(k, c, l, l');
    case NewBinding(_, _, _) => BindKeeps(k, c, l, l');
    case Mend(_, _, _) => BindKeeps(k, c, l, l');
    case Record(_, _, _) => RecordKeeps(k, c, l, l');
    case Work(_, _, _) => AclStartKeeps(k, c, l, l');
    case AclFind(_, _) => AclFindKeeps(k, c, l, l');
    case AclList(_, _, _) => AclLoopKeeps(k, c, l, l');
    case AclBind(_, _, _, _) => AclLoopKeeps(k, c, l, l');
    case AclUnlist(_, _, _) => AclLoopKeeps(k, c, l, l');
    case AclUnbind(_, _, _, _) => AclLoopKeeps(k, c, l, l');
    case AclRecord(_, _, _) => AclRecordKeeps(k, c, l, l');
    case Orphan => CloseKeeps(k, c, l, l');
    case Deleting(_) => CloseKeeps(k, c, l, l');
    case CleanFind(_, _) => CleanFindKeeps(k, c, l, l');
    case Tear(_, _, _) => TornKeeps(k, c, l, l');
    case GroupFind(_, _) => GroupFindKeeps(k, c, l, l');
    case Release(_, _) => ReleaseKeeps(k, c, l, l');
  }

  lemma QuietIsQuiet(k: Key, c: Cloud, l: Local, c': Cloud, l': Local)
    requires Moves(k, c, l, c', l') && Quiet(l.pc, l'.pc)
    ensures c' == c
    ensures l.pc.AclBind? ==> l'.pc.AclRecord?
    ensures l.pc.AclUnbind? ==> l'.pc.AclDrop?
  {
    hide ElbName, GroupName, TearStep, Found, FoundGroup, ChildStep, SetAcl, ListenersOf, AfterElb, CleanStart;
    hide AclStart;
  }

  lemma LoudKeeps(k: Key, c: Cloud, l: Local, c': Cloud, l': Local)
    requires Own(k, c, l, c', l') && !Quiet(l.pc, l'.pc) && FreeToCreate(k, c, l)
    ensures Sound(c') && KInv(k, c', l') && OnlyOwn(k, c, c', l.tags)
  {
    hide KInv, Sound, OnlyOwn;
    match l.pc
    case Create(_) => CreateKeeps(k, c, l, c', l');
    case Work(_, _, _) => LoudLoops(k, c, l, c', l'); ChildKeeps(k, c, l, c');
    case AclCreate(_, _) => AclCreateKeeps(k, c, l, c', l');
    case AclUpdate(_, _, _) => AclUpdateKeeps(k, c, l, c', l');
    case AclBind(_, _, _, _) => BindListenerKeeps(k, c, l, c', l');
    case AclUnbind(_, _, _, _) => UnbindListenerKeeps(k, c, l, c', l');
    case AclDrop(_, _, _) => AclDropKeeps(k, c, l, c', l');
    case Tear(_, _, _) => LoudLoops(k, c, l, c', l'); TearKeeps(k, c, l, c');
    case GroupDrop(_, _, _) => GroupDropKeeps(k, c, l, c', l');
  }

  lemma LoudLoops(k: Key, c: Cloud, l: Local, c': Cloud, l': Local)
    requires Moves(k, c, l, c', l') && !Quiet(l.pc, l'.pc)
    ensures l.pc.Work? ==> l' == l && ChildStep(c, c', l.pc.e)
    ensures l.pc.Tear? ==> l' == l && TearStep(c, c', l.pc.e, false)
  {
    hide TearStep, ChildStep;
  }

  lemma OwnKeeps(k: Key, c: Cloud, l: Local, c': Cloud, l': Local)
    requires Own(k, c, l, c', l') && FreeToCreate(k, c, l)
    ensures Sound(c') && KInv(k, c', l') && OnlyOwn(k, c, c', l.tags)
  {
    if Quiet(l.pc, l'.pc) {
      QuietKeeps(k, c, l, c', l');
      NothingForeign(k, c, l.tags);
    } else {
      LoudKeeps(k, c, l, c', l');
    }
  }

  // ---------------------------------------------------------------------------
  // Other keys do not notice
  // ---------------------------------------------------------------------------

  predicate Mine(c: Cloud, e: Id, tags: set<string>) {
    e in c.elbs && NameTag(c.elbs[e]) in tags
  }

  /** Nothing key `j` with these tags looks at differs. */
  ghost predicate Agree(j: Key, c: Cloud, c': Cloud, tags: set<string>) {
    && c.next <= c'.next
    && (forall e :: Mine(c, e, tags) ==> e in c'.elbs && c'.elbs[e] == c.elbs[e])
    && (forall e :: Mine(c', e, tags) ==> e in c.elbs && c'.elbs[e] == c.elbs[e])
    && (forall e :: e in c'.elbs && e < c.next ==> e in c.elbs && c'.elbs[e] == c.elbs[e])
    && (forall e :: Mine(c, e, tags) ==> TreeOf(c', e) == TreeOf(c, e))
    && (forall g :: Named(c, j, g) ==> g in c'.groups && c'.groups[g] == c.groups[g])
    && (forall g :: Named(c', j, g) ==> Named(c, j, g))
    && (forall g :: g in c'.groups && g < c.next ==> g in c.groups)
    && (forall x :: x in c.listeners && Mine(c, c.listeners[x].elb, tags) ==>
       x in c'.listeners && c'.listeners[x] == c.listeners[x])
    && (forall x :: x in c'.listeners && Mine(c', c'.listeners[x].elb, tags) ==>
       x in c.listeners && c'.listeners[x] == c.listeners[x])
  }

  lemma SameAgrees(j: Key, c: Cloud, tags: set<string>)
    ensures Agree(j, c, c, tags)
  {
    hide NameTag, GroupName, TreeOf;
  }

  lemma OwnAgrees(j: Key, k: Key, c: Cloud, c': Cloud, tags: set<string>, others: set<string>)
    requires OnlyOwn(k, c, c', others) && tags !! others && GroupName(j) != GroupName(k)
    ensures Agree(j, c, c', tags)
  {
    hide NameTag, GroupName, TreeOf;
  }

  lemma AgreeTags(j: Key, c: Cloud, c': Cloud, tags: set<string>, tag: string)
    requires Agree(j, c, c', tags) && tag in tags
    ensures NoElb(c', tag) <==> NoElb(c, tag)
    ensures forall e :: OnlyElb(c, tag, e) ==> OnlyElb(c', tag, e)
    ensures forall e :: HasTag(c, e, tag) <==> HasTag(c', e, tag)
    ensures forall e :: HasTag(c, e, tag) ==> c'.elbs[e] == c.elbs[e]
    ensures forall s: Svc :: Tag(s.uid) == tag && Stable(j, c, s) ==> Stable(j, c', s)
  {
    hide NameTag, GroupName, Tag, ElbName;
    forall e | e in c.elbs && NameTag(c.elbs[e]) == tag
      ensures e in c'.elbs && c'.elbs[e] == c.elbs[e]
    {
      assert Mine(c, e, tags);
    }
    forall e | e in c'.elbs && NameTag(c'.elbs[e]) == tag
      ensures e in c.elbs && c'.elbs[e] == c.elbs[e]
    {
      assert Mine(c', e, tags);
    }
  }

  lemma AgreeGroups(j: Key, c: Cloud, c': Cloud, tags: set<string>)
    requires Agree(j, c, c', tags)
    ensures NoGroup(c, j) ==> NoGroup(c', j)
    ensures OneGroup(c, j) ==> OneGroup(c', j)
    ensures forall g :: OnlyGroup(c, j, g) ==> OnlyGroup(c', j, g)
    ensures forall g :: Sole(j, c, g) ==> Sole(j, c', g) && (g in c.groups ==> g in c'.groups)
  {
    hide NameTag, GroupName;
    assert forall g :: Named(c', j, g) <==> g in c'.groups && c'.groups[g].name == GroupName(j);
    assert forall g :: Named(c, j, g) <==> g in c.groups && c.groups[g].name == GroupName(j);
  }

  lemma AgreeRecorded(j: Key, c: Cloud, c': Cloud, tags: set<string>, b: Binding)
    requires Agree(j, c, c', tags) && Recorded(j, c, b) && Tag(b.uid) in tags
    ensures Recorded(j, c', b) && (Dead(c, b) ==> Dead(c', b))
    ensures b.elb.Some? ==> (b.elb.value in c'.elbs <==> b.elb.value in c.elbs)
    ensures b.acl.Some? ==> (b.acl.value in c'.groups <==> b.acl.value in c.groups)
  {
    AgreeTags(j, c, c', tags, Tag(b.uid));
    AgreeGroups(j, c, c', tags);
    hide NameTag, GroupName, Tag, NoElb, OnlyElb, NoGroup, OnlyGroup, Stable;
  }

  lemma AgreeOwners(j: Key, c: Cloud, c': Cloud, m: Local)
    requires Agree(j, c, c', m.tags) && SvcOk(j, c, m) && SnapOk(j, c, m) && BindingOk(j, c, m)
    ensures SvcOk(j, c', m) && SnapOk(j, c', m) && BindingOk(j, c', m)
  {
    hide Agree, Stable, Recorded, Tag, NameTag, Snapshot, NoElb, Dead, ElbName;
    if m.svc.Some? {
      AgreeTags(j, c, c', m.tags, Tag(m.svc.value.uid));
    }
    if Snapshot(m.pc).Some? {
      AgreeTags(j, c, c', m.tags, Tag(Snapshot(m.pc).value.uid));
    }
    if m.binding.Some? {
      AgreeTags(j, c, c', m.tags, Tag(m.binding.value.uid));
      AgreeRecorded(j, c, c', m.tags, m.binding.value);
    }
  }

  /** A tracked ELB is one with a tag of the key. */
  lemma TrackedMine(j: Key, c: Cloud, m: Local, e: Id)
    requires SvcOk(j, c, m) && SnapOk(j, c, m) && BindingOk(j, c, m) && Tracked(c, m, e)
    ensures Mine(c, e, m.tags)
  {
    hide NameTag, Tag, Snapshot, Stable;
  }

  lemma AgreeGuards(j: Key, c: Cloud, c': Cloud, m: Local)
    requires Agree(j, c, c', m.tags) && SvcOk(j, c', m) && SnapOk(j, c', m) && BindingOk(j, c', m) && Guards(j, c, m)
    ensures Guards(j, c', m)
  {
    hide NameTag, Tag, Snapshot, SvcOk, SnapOk, BindingOk, GroupName;
    forall x | x in c'.listeners && c'.listeners[x].acl.Some? && Tracked(c', m, c'.listeners[x].elb)
      ensures Named(c', j, c'.listeners[x].acl.value)
    {
      TrackedMine(j, c', m, c'.listeners[x].elb);
      assert Tracked(c, m, c.listeners[x].elb);
    }
  }

  lemma AgreeHolding(j: Key, c: Cloud, c': Cloud, m: Local, s: Svc, e: Id)
    requires Agree(j, c, c', m.tags) && Sound(c) && SnapOk(j, c, m) && Snapshot(m.pc) == Some(s) && Holding(j, c, s, e)
    ensures Holding(j, c', s, e) && ListenersOf(c', e) == ListenersOf(c, e)
    ensures forall x :: x in ListenersOf(c, e) ==> c'.listeners[x] == c.listeners[x]
  {
    HeldTag(j, c, m, s, e);
    assert Mine(c, e, m.tags) && Mine(c', e, m.tags);
    hide NameTag, Tag, Snapshot, ElbName, Mine;
  }

  lemma AgreeClosing(j: Key, c: Cloud, c': Cloud, m: Local, os: Option<Svc>, ob: Option<Binding>)
    requires Agree(j, c, c', m.tags) && SnapOk(j, c, m) && BindingOk(j, c, m) && Snapshot(m.pc) == os
      && ObOk(j, c, m, os, ob)
    ensures ObOk(j, c', m, os, ob)
    ensures ElbGone(c, m, os, ob) ==> ElbGone(c', m, os, ob)
    ensures GroupGone(j, c, os, ob) ==> GroupGone(j, c', os, ob)
    ensures forall e :: TearOk(c, m, os, ob, e) ==> TearOk(c', m, os, ob, e)
  {
    hide Tag, NameTag, NoElb, NoGroup, Recorded, Stable, OnlyElb, Named, Snapshot;
    AgreeGroups(j, c, c', m.tags);
    if os.Some? {
      AgreeTags(j, c, c', m.tags, Tag(os.value.uid));
    }
    if ob.Some? {
      AgreeTags(j, c, c', m.tags, Tag(ob.value.uid));
      AgreeRecorded(j, c, c', m.tags, ob.value);
    }
    if m.binding.Some? {
      AgreeRecorded(j, c, c', m.tags, m.binding.value);
    }
  }

  lemma AgreePlace(j: Key, c: Cloud, c': Cloud, m: Local)
    requires Agree(j, c, c', m.tags) && Sound(c) && KInv(j, c, m)
    ensures PcOk(j, c', m)
  {
    hide Agree, SvcOk, SnapOk, BindingOk, Guards, OneGroup, Holding, NoElb, NoGroup, Sole, ElbGone, GroupGone, TearOk;
    hide ObOk, Tag, Sound, ListenersOf;
    AgreeGroups(j, c, c', m.tags);
    match m.pc
    case Idle =>
    case Route(_) =>
    case Update(_) =>
    case Find(_) =>
    case Create(s) => SnapTag(j, c, m, s); AgreeTags(j, c, c', m.tags, Tag(s.uid));
    case Bind(s, e, _) => AgreeHolding(j, c, c', m, s, e);
    case NewBinding(s, e, _) => AgreeHolding(j, c, c', m, s, e);
    case Record(s, e, _) => AgreeHolding(j, c, c', m, s, e);
    case Work(s, e, _) => AgreeHolding(j, c, c', m, s, e);
    case AclFind(s, e) => AgreeHolding(j, c, c', m, s, e);
    case AclCreate(s, e) => AgreeHolding(j, c, c', m, s, e);
    case AclUpdate(s, e, g) => AgreeHolding(j, c, c', m, s, e);
    case AclList(s, e, g) => AgreeHolding(j, c, c', m, s, e);
    case AclBind(s, e, g, _) => AgreeHolding(j, c, c', m, s, e);
    case AclUnlist(s, e, g) => AgreeHolding(j, c, c', m, s, e);
    case AclUnbind(s, e, g, _) => AgreeHolding(j, c, c', m, s, e);
    case AclDrop(s, e, g) => AgreeHolding(j, c, c', m, s, e);
    case AclRecord(s, e, acl) => AgreeHolding(j, c, c', m, s, e);
    case Orphan =>
    case Deleting(_) =>
    case CleanFind(s, ob) => AgreeClosing(j, c, c', m, Some(s), ob);
    case Tear(os, ob, e) => AgreeClosing(j, c, c', m, os, ob);
    case GroupFind(s, ob) => AgreeClosing(j, c, c', m, Some(s), ob);
    case GroupDrop(os, ob, g) => AgreeClosing(j, c, c', m, os, ob);
    case Release(os, ob) => AgreeClosing(j, c, c', m, os, ob);
  }

  lemma SnapTag(j: Key, c: Cloud, m: Local, s: Svc)
    requires SnapOk(j, c, m) && Snapshot(m.pc) == Some(s)
    ensures Tag(s.uid) in m.tags
  {
    hide Tag, Snapshot, Stable;
  }

  lemma AgreeKeeps(j: Key, c: Cloud, c': Cloud, m: Local)
    requires Agree(j, c, c', m.tags) && Sound(c) && KInv(j, c, m)
    ensures KInv(j, c', m)
  {
    hide Agree, SvcOk, SnapOk, BindingOk, Guards, OneGroup, PcOk, Sound;
    AgreeOwners(j, c, c', m);
    AgreeGuards(j, c, c', m);
    AgreeGroups(j, c, c', m.tags);
    AgreePlace(j, c, c', m);
  }

  // ---------------------------------------------------------------------------
  // Disturbances
  // ---------------------------------------------------------------------------

  lemma AppearsKeeps(k: Key, c: Cloud, l: Local, l': Local)
    requires KInv(k, c, l) && l.svc.None? && l.binding.None? && l.pc.Idle? && l'.svc.Some?
    requires |l'.svc.value.uid| >= 10 && NoElb(c, Tag(l'.svc.value.uid))
    requires l' == l.(svc := l'.svc, tags := l.tags + {Tag(l'.svc.value.uid)})
    ensures KInv(k, c, l')
  {
    hide Tag, NameTag, ElbName, GroupName, OneGroup;
  }

  lemma EditedKeeps(k: Key, c: Cloud, l: Local, l': Local)
    requires KInv(k, c, l) && Edited(l, l') && Polite(k, l, l')
    ensures KInv(k, c, l')
  {
    hide Tag, NameTag, ElbName, GroupName, OneGroup, Recorded, NoElb, OnlyElb, NoGroup, OnlyGroup, Snapshot, Opened;
  }

  lemma FadesKeeps(k: Key, c: Cloud, l: Local, l': Local)
    requires KInv(k, c, l) && (MarkedDeleted(l, l') || Vanishes(l, l'))
    ensures KInv(k, c, l')
  {
    hide Tag, NameTag, GroupName, OneGroup, Recorded, NoElb, OnlyElb, NoGroup, OnlyGroup, Snapshot, Opened;
  }

  lemma BindingDeletedKeeps(k: Key, c: Cloud, l: Local, l': Local)
    requires KInv(k, c, l) && BindingDeleted(l, l')
    ensures KInv(k, c, l')
  {
    hide Tag, NameTag, ElbName, GroupName, OneGroup, NoElb, OnlyElb, NoGroup, OnlyGroup, Snapshot, Opened;
  }
}
