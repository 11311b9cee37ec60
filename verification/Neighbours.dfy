/** Why a key has nothing to fear from the others, however impolite their environment is: whatever
    a process knows of the cloud is dead or its own key's, so its calls change nothing else. */
module Neighbours {
  import opened Common
  import opened Naming
  import opened CloudModel
  import opened Steps
  import opened Protocol
  import opened Safety

  /** ELB `e` is dead, or has one of the key's tags. */
  predicate ElbOwn(c: Cloud, e: Id, tags: set<string>) {
    e < c.next && (e in c.elbs ==> NameTag(c.elbs[e]) in tags)
  }

  /** Group `g` is dead, or has the key's group name. */
  predicate GroupOwn(j: Key, c: Cloud, g: Id) {
    g < c.next && (g in c.groups ==> c.groups[g].name == GroupName(j))
  }

  predicate AclOwn(j: Key, c: Cloud, acl: Option<Id>) {
    acl.Some? ==> GroupOwn(j, c, acl.value)
  }

  predicate BindingOwn(j: Key, c: Cloud, ob: Option<Binding>, tags: set<string>) {
    ob.Some? ==> (ob.value.elb.Some? ==> ElbOwn(c, ob.value.elb.value, tags)) && AclOwn(j, c, ob.value.acl)
  }

  ghost predicate PlaceOwn(j: Key, c: Cloud, pc: PC, tags: set<string>) {
    match pc
    case Idle => true
    case Route(_) => true
    case Update(_) => true
    case Heal(_, e, acl) => ElbOwn(c, e, tags) && AclOwn(j, c, acl)
    case Find(_) => true
    case Create(_) => true
    case Bind(_, e, _) => ElbOwn(c, e, tags)
    case Rebind(_, e, _) => ElbOwn(c, e, tags)
    case NewBinding(_, e, _) => ElbOwn(c, e, tags)
    case Mend(_, e, _) => ElbOwn(c, e, tags)
    case Record(_, e, _) => ElbOwn(c, e, tags)
    case Work(_, e, acl) => ElbOwn(c, e, tags) && AclOwn(j, c, acl)
    case AclFind(_, e) => ElbOwn(c, e, tags)
    case AclCreate(_, e) => ElbOwn(c, e, tags)
    case AclUpdate(_, e, g) => ElbOwn(c, e, tags) && GroupOwn(j, c, g)
    case AclList(_, e, g) => ElbOwn(c, e, tags) && GroupOwn(j, c, g)
    case AclBind(_, e, g, left) => ElbOwn(c, e, tags) && GroupOwn(j, c, g) && left <= ListenersOf(c, e)
    case AclUnlist(_, e, g) => ElbOwn(c, e, tags) && GroupOwn(j, c, g)
    case AclUnbind(_, e, g, left) => ElbOwn(c, e, tags) && GroupOwn(j, c, g) && left <= ListenersOf(c, e)
    case AclDrop(_, e, g) => ElbOwn(c, e, tags) && GroupOwn(j, c, g)
    case AclRecord(_, e, acl) => ElbOwn(c, e, tags) && AclOwn(j, c, acl)
    case Orphan => true
    case Deleting(_) => true
    case CleanFind(_, ob) => BindingOwn(j, c, ob, tags)
    case Tear(_, ob, e) => BindingOwn(j, c, ob, tags) && ElbOwn(c, e, tags)
    case GroupFind(_, ob) => BindingOwn(j, c, ob, tags)
    case GroupDrop(_, ob, g) => BindingOwn(j, c, ob, tags) && GroupOwn(j, c, g)
    case Release(_, ob) => BindingOwn(j, c, ob, tags)
  }

  /** All that key `j` knows of the cloud is dead or its own. */
  ghost predicate Harmless(j: Key, c: Cloud, l: Local) {
    BindingOwn(j, c, l.binding, l.tags) && PlaceOwn(j, c, l.pc, l.tags)
  }

  // ---------------------------------------------------------------------------
  // What such a process does to the cloud
  // ---------------------------------------------------------------------------

  /** Every call of it leaves alone what is not its key's. */
  lemma HarmlessOwn(j: Key, c: Cloud, l: Local, c': Cloud, l': Local)
    requires Sound(c) && Harmless(j, c, l) && Registered(l, Snapshot(l.pc)) && Moves(j, c, l, c', l')
    ensures WF(c') && OnlyOwn(j, c, c', l.tags)
  {
    hide Moves, Sound, WF, OnlyOwn, CloudStep, Registered, Harmless, PlaceOwn;
    MovesCloud(j, c, l, c', l');
    HarmlessPlace(j, c, l);
    SoundIsWF(c);
    match l.pc
    case Create(_) => CreateIsOwn(j, c, l, c');
    case Work(_, _, _) => WorkIsOwn(j, c, l.pc, c', l.tags);
    case AclCreate(_, _) => GroupIsOwn(j, c, l.pc, c', l.tags);
    case AclUpdate(_, _, _) => GroupIsOwn(j, c, l.pc, c', l.tags);
    case AclBind(_, _, _, _) => LoopIsOwn(j, c, l.pc, c', l.tags);
    case AclUnbind(_, _, _, _) => LoopIsOwn(j, c, l.pc, c', l.tags);
    case AclDrop(_, _, _) => GroupIsOwn(j, c, l.pc, c', l.tags);
    case Tear(_, _, _) => TearIsOwn(j, c, l.pc, c', l.tags);
    case GroupDrop(_, _, _) => GroupIsOwn(j, c, l.pc, c', l.tags);
    case _ => NothingIsOwn(j, c, l.pc, c', l.tags);
  }

  lemma HarmlessPlace(j: Key, c: Cloud, l: Local)
    requires Harmless(j, c, l)
    ensures PlaceOwn(j, c, l.pc, l.tags) && BindingOwn(j, c, l.binding, l.tags)
  {
    hide PlaceOwn, BindingOwn;
  }

  lemma SoundIsWF(c: Cloud)
    requires Sound(c)
    ensures WF(c)
  {
    hide WF;
  }

  lemma CreateIsOwn(j: Key, c: Cloud, l: Local, c': Cloud)
    requires Sound(c) && l.pc.Create? && Registered(l, Snapshot(l.pc)) && CloudStep(j, c, l.pc, c')
    ensures WF(c') && OnlyOwn(j, c, c', l.tags)
  {
    hide OnlyOwn, ElbName, Tag, NameTag;
    TagOfName(j, l.pc.s);
    CreateOwn(j, c, ElbName(j, l.pc.s), l.tags);
    SoundIsWF(c);
    hide WF, Sound;
    AddElbKeepsWF(c, ElbName(j, l.pc.s));
  }

  lemma WorkIsOwn(j: Key, c: Cloud, pc: PC, c': Cloud, tags: set<string>)
    requires WF(c) && pc.Work? && PlaceOwn(j, c, pc, tags) && CloudStep(j, c, pc, c')
    ensures WF(c') && OnlyOwn(j, c, c', tags)
  {
    NothingForeign(j, c, tags);
    hide OnlyOwn, WF, NameTag, GroupName, ListenersOnly, Rest;
    if c' != c {
      ChildListeners(c, c', pc.e);
      ListenersOnlyOwn(j, c, c', pc.e, tags);
    }
  }

  lemma LoopIsOwn(j: Key, c: Cloud, pc: PC, c': Cloud, tags: set<string>)
    requires WF(c) && (pc.AclBind? || pc.AclUnbind?) && PlaceOwn(j, c, pc, tags) && CloudStep(j, c, pc, c')
    ensures WF(c') && OnlyOwn(j, c, c', tags)
  {
    NothingForeign(j, c, tags);
    hide OnlyOwn, WF, NameTag, GroupName, ListenersOnly, SetAcl, TreeOf;
    if c' != c {
      var acl := if pc.AclBind? then Some(pc.g) else None;
      var x :| x in pc.left && x in c.listeners && c' == SetAcl(c, x, acl);
      assert x in ListenersOf(c, pc.e);
      SetAclKeepsWF(c, x, acl);
      SetAclListeners(c, x, acl);
      ListenersOnlyOwn(j, c, c', pc.e, tags);
    }
  }

  lemma GroupIsOwn(j: Key, c: Cloud, pc: PC, c': Cloud, tags: set<string>)
    requires Sound(c) && (pc.AclCreate? || pc.AclUpdate? || pc.AclDrop? || pc.GroupDrop?)
    requires PlaceOwn(j, c, pc, tags) && CloudStep(j, c, pc, c')
    ensures WF(c') && OnlyOwn(j, c, c', tags)
  {
    SoundIsWF(c);
    NextIsNew(c);
    GroupCalls(j, c, pc, c', tags);
    hide WF, Sound, GroupsOnly, OnlyOwn, GroupOwn, CloudStep, PlaceOwn, GroupName;
    if pc.AclCreate? {
      AddGroupKeepsWF(c, GroupName(j), pc.s.cidrs);
      NewGroup(j, c, pc.s.cidrs);
    } else {
      OwnGroup(j, c, pc.g, if pc.AclUpdate? then pc.s.cidrs else []);
      if pc.AclUpdate? {
        SetGroupKeepsWF(c, pc.g, GroupName(j), pc.s.cidrs);
      } else {
        DropGroupKeepsWF(c, pc.g);
      }
    }
    GroupsOnlyOwn(j, c, c', tags);
  }

  lemma GroupCalls(j: Key, c: Cloud, pc: PC, c': Cloud, tags: set<string>)
    requires PlaceOwn(j, c, pc, tags) && CloudStep(j, c, pc, c')
    ensures pc.AclCreate? ==> c' == AddGroup(c, GroupName(j), pc.s.cidrs)
    ensures pc.AclUpdate? || pc.AclDrop? || pc.GroupDrop? ==> GroupOwn(j, c, pc.g)
    ensures pc.AclUpdate? ==> pc.g in c.groups && c' == SetGroup(c, pc.g, GroupName(j), pc.s.cidrs)
    ensures pc.AclDrop? || pc.GroupDrop? ==> c' == DropGroup(c, pc.g)
  {
    hide GroupName, AddGroup, SetGroup, DropGroup, GroupOwn, ElbOwn, BindingOwn, TearStep, ChildStep, SetAcl;
    hide ElbName, ListenersOf, AddElb;
  }

  lemma NewGroup(j: Key, c: Cloud, cidrs: seq<string>)
    requires c.next !in c.groups
    ensures GroupsOnly(j, c, AddGroup(c, GroupName(j), cidrs))
  {
    hide GroupName;
  }

  lemma OwnGroup(j: Key, c: Cloud, g: Id, cidrs: seq<string>)
    requires GroupOwn(j, c, g)
    ensures GroupsOnly(j, c, DropGroup(c, g))
    ensures g in c.groups ==> GroupsOnly(j, c, SetGroup(c, g, GroupName(j), cidrs))
  {
    hide GroupName;
  }

  lemma NextIsNew(c: Cloud)
    requires WF(c)
    ensures c.next !in c.groups && c.next !in c.elbs
  {
  }

  lemma TearIsOwn(j: Key, c: Cloud, pc: PC, c': Cloud, tags: set<string>)
    requires WF(c) && pc.Tear? && PlaceOwn(j, c, pc, tags) && CloudStep(j, c, pc, c')
    ensures WF(c') && OnlyOwn(j, c, c', tags)
  {
    NothingForeign(j, c, tags);
    hide OnlyOwn, WF, NameTag, GroupName, TearStep, Shrinks, TreesStay;
    if c' != c {
      TearShrinks(c, c', pc.e);
      TearKeepsWF(c, c', pc.e);
      TearTrees(c, c', pc.e);
      ShrinkOwn(j, c, c', pc.e, tags);
    }
  }

  lemma NothingIsOwn(j: Key, c: Cloud, pc: PC, c': Cloud, tags: set<string>)
    requires WF(c) && CloudStep(j, c, pc, c')
    requires !pc.Create? && !pc.Work? && !pc.AclCreate? && !pc.AclUpdate? && !pc.AclBind? && !pc.AclUnbind?
    requires !pc.AclDrop? && !pc.Tear? && !pc.GroupDrop?
    ensures WF(c') && OnlyOwn(j, c, c', tags)
  {
    hide WF, OnlyOwn;
    NothingForeign(j, c, tags);
  }

  // ---------------------------------------------------------------------------
  // It stays so
  // ---------------------------------------------------------------------------

  /** What was own before the step still is. */
  ghost predicate OwnKept(j: Key, c: Cloud, c': Cloud, tags: set<string>) {
    && (forall e :: ElbOwn(c, e, tags) ==> ElbOwn(c', e, tags))
    && (forall g :: GroupOwn(j, c, g) ==> GroupOwn(j, c', g))
    && (forall acl :: AclOwn(j, c, acl) ==> AclOwn(j, c', acl))
    && (forall ob :: BindingOwn(j, c, ob, tags) ==> BindingOwn(j, c', ob, tags))
  }

  /** ... whoever makes it, as long as it leaves alone what is not its own. */
  lemma OwnStays(j: Key, c: Cloud, i: Key, c': Cloud, others: set<string>, tags: set<string>)
    requires OnlyOwn(i, c, c', others)
    ensures OwnKept(j, c, c', tags)
  {
    hide NameTag, GroupName, TreeOf;
  }

  /** A step of another key. */
  lemma HarmlessStays(j: Key, c: Cloud, m: Local, i: Key, c': Cloud, others: set<string>)
    requires Harmless(j, c, m) && OnlyOwn(i, c, c', others) && m.tags !! others && WF(c) && WF(c')
    ensures Harmless(j, c', m)
  {
    hide ElbOwn, GroupOwn, AclOwn, BindingOwn, OnlyOwn, WF, ListenersOf;
    OwnStays(j, c, i, c', others, m.tags);
    if m.pc.AclBind? || m.pc.AclUnbind? {
      ListenersStay(c, i, c', m.pc.e, m.tags, others);
    }
  }

  lemma ListenersStay(c: Cloud, i: Key, c': Cloud, e: Id, tags: set<string>, others: set<string>)
    requires ElbOwn(c, e, tags) && OnlyOwn(i, c, c', others) && tags !! others && WF(c)
    ensures ListenersOf(c, e) <= ListenersOf(c', e)
  {
    hide NameTag, GroupName, TreeOf;
    if e in c.elbs {
      assert Foreign(c, e, others);
    } else {
      assert ListenersOf(c, e) == {};
    }
  }

  /** Its own step. */
  lemma HarmlessMoves(j: Key, c: Cloud, l: Local, c': Cloud, l': Local)
    requires Sound(c) && Harmless(j, c, l) && Registered(l, Snapshot(l.pc)) && Moves(j, c, l, c', l')
    ensures Harmless(j, c', l') && l'.tags == l.tags
  {
    hide Harmless, Moves, Sound, OnlyOwn, Registered, CloudStep;
    HarmlessOwn(j, c, l, c', l');
    SnapshotMoves(j, c, l, c', l');
    OwnStays(j, c, j, c', l.tags, l.tags);
    hide ElbOwn, GroupOwn, AclOwn, BindingOwn;
    if l.pc.Find? || l.pc.CleanFind? {
      LookupHarmless(j, c, l, c', l');
    } else if l.pc.AclFind? || l.pc.GroupFind? {
      GroupLookupHarmless(j, c, l, c', l');
    } else if l.pc.Create? || l.pc.AclCreate? {
      NewHarmless(j, c, l, c', l');
    } else if l.pc.AclList? || l.pc.AclBind? || l.pc.AclUnlist? || l.pc.AclUnbind? {
      LoopHarmless(j, c, l, c', l');
    } else if l.pc.Tear? || l.pc.GroupDrop? || l.pc.Release? || l.pc.Orphan? || l.pc.Deleting? {
      ClosingHarmless(j, c, l, c', l');
    } else if l.pc.Work? || l.pc.AclUpdate? || l.pc.AclDrop? || l.pc.AclRecord? {
      WorkHarmless(j, c, l, c', l');
    } else {
      StartHarmless(j, c, l, c', l');
    }
  }

  lemma LookupHarmless(j: Key, c: Cloud, l: Local, c': Cloud, l': Local)
    requires Sound(c) && Harmless(j, c, l) && Registered(l, Snapshot(l.pc)) && Moves(j, c, l, c', l')
    requires l.pc.Find? || l.pc.CleanFind?
    ensures Harmless(j, c', l')
  {
    hide NameTag, GroupName, Tag, ElbName, GroupOwn;
    TagOfName(j, l.pc.s);
  }

  lemma GroupLookupHarmless(j: Key, c: Cloud, l: Local, c': Cloud, l': Local)
    requires Sound(c) && Harmless(j, c, l) && Moves(j, c, l, c', l')
    requires l.pc.AclFind? || l.pc.GroupFind?
    ensures Harmless(j, c', l')
  {
    hide NameTag, GroupName, Tag, ElbName, ElbOwn;
  }

  lemma NewHarmless(j: Key, c: Cloud, l: Local, c': Cloud, l': Local)
    requires Sound(c) && Harmless(j, c, l) && Registered(l, Snapshot(l.pc)) && Moves(j, c, l, c', l')
    requires l.pc.Create? || l.pc.AclCreate?
    requires OwnKept(j, c, c', l.tags)
    ensures Harmless(j, c', l')
  {
    hide NameTag, GroupName, Tag, ElbName;
    TagOfName(j, l.pc.s);
  }

  lemma LoopHarmless(j: Key, c: Cloud, l: Local, c': Cloud, l': Local)
    requires Harmless(j, c, l) && Moves(j, c, l, c', l') && OwnKept(j, c, c', l.tags)
    requires l.pc.AclList? || l.pc.AclBind? || l.pc.AclUnlist? || l.pc.AclUnbind?
    ensures Harmless(j, c', l')
  {
    hide ElbOwn, GroupOwn, BindingOwn, SetAcl, ListenersOf;
    if l.pc.AclBind? || l.pc.AclUnbind? {
      LoopListeners(j, c, l, c', l');
    }
  }

  lemma LoopListeners(j: Key, c: Cloud, l: Local, c': Cloud, l': Local)
    requires Moves(j, c, l, c', l') && (l.pc.AclBind? || l.pc.AclUnbind?)
    ensures forall e :: ListenersOf(c', e) == ListenersOf(c, e)
  {
    hide SetAcl, ListenersOf;
    if c' != c {
      var acl := if l.pc.AclBind? then Some(l.pc.g) else None;
      var x :| x in l.pc.left && x in c.listeners && c' == SetAcl(c, x, acl);
      SetAclListeners(c, x, acl);
    }
  }

  lemma ClosingHarmless(j: Key, c: Cloud, l: Local, c': Cloud, l': Local)
    requires Harmless(j, c, l) && Moves(j, c, l, c', l') && OwnKept(j, c, c', l.tags)
    requires l.pc.Tear? || l.pc.GroupDrop? || l.pc.Release? || l.pc.Orphan? || l.pc.Deleting?
    ensures Harmless(j, c', l')
  {
    hide ElbOwn, GroupOwn, TearStep, DropGroup;
  }

  lemma WorkHarmless(j: Key, c: Cloud, l: Local, c': Cloud, l': Local)
    requires Harmless(j, c, l) && Moves(j, c, l, c', l') && OwnKept(j, c, c', l.tags)
    requires l.pc.Work? || l.pc.AclUpdate? || l.pc.AclDrop? || l.pc.AclRecord?
    ensures Harmless(j, c', l')
  {
    hide ElbOwn, GroupOwn, ChildStep, DropGroup, SetGroup;
  }

  lemma StartHarmless(j: Key, c: Cloud, l: Local, c': Cloud, l': Local)
    requires Harmless(j, c, l) && Moves(j, c, l, c', l')
    requires l.pc.Idle? || l.pc.Route? || l.pc.Update? || l.pc.Heal? || l.pc.Bind? || l.pc.Rebind? || l.pc.NewBinding?
      || l.pc.Mend? || l.pc.Record?
    ensures Harmless(j, c', l')
  {
    hide ElbOwn, GroupOwn;
  }

  /** What others do to its Service and its binding. */
  lemma HarmlessDisturbed(w: World, j: Key, l: Local, l': Local)
    requires Harmless(j, w.cloud, l) && (Disturbs(w, j, l, l') || Stops(l, l'))
    ensures Harmless(j, w.cloud, l') && l.tags <= l'.tags
  {
    hide NameTag, GroupName, Tag, ListenersOf;
  }

  lemma NothingHarmless(j: Key, c: Cloud)
    ensures Harmless(j, c, NOTHING)
  {
  }
}
