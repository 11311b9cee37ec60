/** The part of the Huawei cloud the controller works on, as a value: load balancers, the
    tree of listeners, pools, health monitors and members below each of them, and IP groups. */
module CloudModel {
  import opened Common

  type Id = nat

  /** `acl` is the IP group enabled on the listener, if any. */
  datatype Listener = Listener(elb: Id, port: int, acl: Option<Id>)
  datatype Pool = Pool(listener: Id, name: string)
  datatype Endpoint = Endpoint(address: string, port: int)
  datatype Member = Member(pool: Id, at: Endpoint, subnet: string)
  datatype Group = Group(name: string, cidrs: seq<string>)

  /** `elbs` maps an ELB to its name and `monitors` a health monitor to its pool. Identifiers
      are given out in order, `next` being the first one never used. */
  datatype Cloud = Cloud(
    elbs: map<Id, string>,
    listeners: map<Id, Listener>,
    pools: map<Id, Pool>,
    monitors: map<Id, Id>,
    members: map<Id, Member>,
    groups: map<Id, Group>,
    next: Id)

  const EMPTY := Cloud(map[], map[], map[], map[], map[], map[], 0)

  // ---------------------------------------------------------------------------
  // Who hangs below whom
  // ---------------------------------------------------------------------------

  predicate ListenerOn(c: Cloud, l: Id, e: Id) {
    l in c.listeners && c.listeners[l].elb == e
  }

  predicate PoolOn(c: Cloud, p: Id, e: Id) {
    p in c.pools && ListenerOn(c, c.pools[p].listener, e)
  }

  predicate MonitorOn(c: Cloud, m: Id, e: Id) {
    m in c.monitors && PoolOn(c, c.monitors[m], e)
  }

  predicate MemberOn(c: Cloud, m: Id, e: Id) {
    m in c.members && PoolOn(c, c.members[m].pool, e)
  }

  function ListenersOf(c: Cloud, e: Id): set<Id> {
    set l | l in c.listeners && c.listeners[l].elb == e
  }

  function PoolsOf(c: Cloud, e: Id): set<Id> {
    set p | p in c.pools && PoolOn(c, p, e)
  }

  function MonitorsBelow(c: Cloud, e: Id): set<Id> {
    set m | m in c.monitors && MonitorOn(c, m, e)
  }

  function MembersBelow(c: Cloud, e: Id): set<Id> {
    set m | m in c.members && MemberOn(c, m, e)
  }

  function PoolsAt(c: Cloud, l: Id): set<Id> {
    set p | p in c.pools && c.pools[p].listener == l
  }

  function MonitorsOf(c: Cloud, p: Id): set<Id> {
    set m | m in c.monitors && c.monitors[m] == p
  }

  function MembersOf(c: Cloud, p: Id): set<Id> {
    set m | m in c.members && c.members[m].pool == p
  }

  function Ports(c: Cloud, e: Id): set<int> {
    set l | l in ListenersOf(c, e) :: c.listeners[l].port
  }

  function Endpoints(c: Cloud, p: Id): set<Endpoint> {
    set m | m in MembersOf(c, p) :: c.members[m].at
  }

  // ---------------------------------------------------------------------------
  // Integrity
  // ---------------------------------------------------------------------------

  ghost predicate Bounded(c: Cloud) {
    && (forall e :: e in c.elbs ==> e < c.next)
    && (forall l :: l in c.listeners ==> l < c.next)
    && (forall p :: p in c.pools ==> p < c.next)
    && (forall m :: m in c.monitors ==> m < c.next)
    && (forall m :: m in c.members ==> m < c.next)
    && (forall g :: g in c.groups ==> g < c.next)
  }

  /** No resource outlives its parent. */
  ghost predicate Rooted(c: Cloud) {
    && (forall l :: l in c.listeners ==> c.listeners[l].elb in c.elbs)
    && (forall p :: p in c.pools ==> c.pools[p].listener in c.listeners)
    && (forall m :: m in c.monitors ==> c.monitors[m] in c.pools)
    && (forall m :: m in c.members ==> c.members[m].pool in c.pools)
  }

  /** A port is served once per ELB, an endpoint once per pool. */
  ghost predicate Distinct(c: Cloud) {
    && (forall k, l | k in c.listeners && l in c.listeners && k != l && c.listeners[k].elb == c.listeners[l].elb ::
          c.listeners[k].port != c.listeners[l].port)
    && (forall m, n | m in c.members && n in c.members && m != n && c.members[m].pool == c.members[n].pool ::
          c.members[m].at != c.members[n].at)
  }

  ghost predicate WF(c: Cloud) {
    Bounded(c) && Rooted(c) && Distinct(c)
  }

  /** Every IP group enabled on a listener exists. */
  ghost predicate NoDangling(c: Cloud) {
    forall l :: l in c.listeners && c.listeners[l].acl.Some? ==> c.listeners[l].acl.value in c.groups
  }

  // ---------------------------------------------------------------------------
  // What a successful call does
  // ---------------------------------------------------------------------------

  function AddElb(c: Cloud, name: string): Cloud {
    c.(elbs := c.elbs[c.next := name], next := c.next + 1)
  }

  function AddListener(c: Cloud, e: Id, port: int): Cloud {
    c.(listeners := c.listeners[c.next := Listener(e, port, None)], next := c.next + 1)
  }

  function AddPool(c: Cloud, l: Id, name: string): Cloud {
    c.(pools := c.pools[c.next := Pool(l, name)], next := c.next + 1)
  }

  function AddMonitor(c: Cloud, p: Id): Cloud {
    c.(monitors := c.monitors[c.next := p], next := c.next + 1)
  }

  function AddMember(c: Cloud, p: Id, at: Endpoint, subnet: string): Cloud {
    c.(members := c.members[c.next := Member(p, at, subnet)], next := c.next + 1)
  }

  function AddGroup(c: Cloud, name: string, cidrs: seq<string>): Cloud {
    c.(groups := c.groups[c.next := Group(name, cidrs)], next := c.next + 1)
  }

  function SetGroup(c: Cloud, g: Id, name: string, cidrs: seq<string>): Cloud {
    c.(groups := c.groups[g := Group(name, cidrs)])
  }

  function DropGroup(c: Cloud, g: Id): Cloud {
    c.(groups := c.groups - {g})
  }

  /** Enables a group on a listener, or none. */
  function SetAcl(c: Cloud, l: Id, acl: Option<Id>): Cloud
    requires l in c.listeners
  {
    c.(listeners := c.listeners[l := c.listeners[l].(acl := acl)])
  }

  function DropMember(c: Cloud, m: Id): Cloud {
    c.(members := c.members - {m})
  }

  function DropMonitor(c: Cloud, m: Id): Cloud {
    c.(monitors := c.monitors - {m})
  }

  /** A pool goes with its monitors and members. */
  function DropPool(c: Cloud, p: Id): Cloud {
    c.(pools := c.pools - {p},
       monitors := c.monitors - MonitorsOf(c, p),
       members := c.members - MembersOf(c, p))
  }

  /** A listener goes with everything below it. */
  function DropListener(c: Cloud, l: Id): Cloud {
    c.(listeners := c.listeners - {l},
       pools := c.pools - PoolsAt(c, l),
       monitors := map m | m in c.monitors && c.monitors[m] !in PoolsAt(c, l) :: c.monitors[m],
       members := map m | m in c.members && c.members[m].pool !in PoolsAt(c, l) :: c.members[m])
  }

  function DropElb(c: Cloud, e: Id): Cloud {
    c.(elbs := c.elbs - {e})
  }

  /** The cloud without ELB `e` and everything below it. */
  function Without(c: Cloud, e: Id): Cloud {
    c.(elbs := c.elbs - {e},
       listeners := c.listeners - ListenersOf(c, e),
       pools := c.pools - PoolsOf(c, e),
       monitors := c.monitors - MonitorsBelow(c, e),
       members := c.members - MembersBelow(c, e))
  }

  /** What does not hang below ELB `e`: two clouds with the same Rest differ only there. */
  function Rest(c: Cloud, e: Id): Cloud {
    Without(c, e).(next := 0)
  }

  /** `c'` comes from `c` by changes below ELB `e` alone. */
  ghost predicate OnlyBelow(c: Cloud, c': Cloud, e: Id) {
    && Rest(c', e) == Rest(c, e)
    && c'.elbs == c.elbs
    && c.next <= c'.next
  }

  /** Everything below one ELB. */
  datatype Tree = Tree(
    listeners: map<Id, Listener>,
    pools: map<Id, Pool>,
    monitors: map<Id, Id>,
    members: map<Id, Member>)

  function TreeOf(c: Cloud, e: Id): Tree {
    Tree(
      map l | l in c.listeners && ListenerOn(c, l, e) :: c.listeners[l],
      map p | p in c.pools && PoolOn(c, p, e) :: c.pools[p],
      map m | m in c.monitors && MonitorOn(c, m, e) :: c.monitors[m],
      map m | m in c.members && MemberOn(c, m, e) :: c.members[m])
  }

  /** What equal trees mean for everything that hangs below the ELB. */
  lemma SameTree(c: Cloud, c': Cloud, e: Id)
    requires TreeOf(c', e) == TreeOf(c, e)
    ensures ListenersOf(c', e) == ListenersOf(c, e) && PoolsOf(c', e) == PoolsOf(c, e)
    ensures forall l :: l in ListenersOf(c, e) ==> c'.listeners[l] == c.listeners[l] && PoolsAt(c', l) == PoolsAt(c, l)
    ensures forall p :: p in PoolsOf(c, e) ==> c'.pools[p] == c.pools[p] && SameBelow(c, c', p)
  {
    var t, t' := TreeOf(c, e), TreeOf(c', e);
    forall l
      ensures l in ListenersOf(c', e) <==> l in ListenersOf(c, e)
      ensures l in ListenersOf(c, e) ==> c'.listeners[l] == c.listeners[l]
    {
      assert l in t.listeners <==> l in t'.listeners;
    }
    forall p
      ensures p in PoolsOf(c', e) <==> p in PoolsOf(c, e)
      ensures p in PoolsOf(c, e) ==> c'.pools[p] == c.pools[p] && SameBelow(c, c', p)
    {
      assert p in t.pools <==> p in t'.pools;
      if p in PoolsOf(c, e) {
        SameTreeSamePool(c, c', e, p);
      }
    }
    forall l | l in ListenersOf(c, e)
      ensures PoolsAt(c', l) == PoolsAt(c, l)
    {
      assert forall p :: p in PoolsAt(c', l) <==> p in PoolsOf(c', e) && c'.pools[p].listener == l;
      assert forall p :: p in PoolsAt(c, l) <==> p in PoolsOf(c, e) && c.pools[p].listener == l;
    }
  }

  /** Pool `p` has the same monitors and members. */
  ghost predicate SameBelow(c: Cloud, c': Cloud, p: Id) {
    && MonitorsOf(c', p) == MonitorsOf(c, p)
    && MembersOf(c', p) == MembersOf(c, p)
    && forall m :: m in MembersOf(c, p) ==> c'.members[m] == c.members[m]
  }

  lemma SameTreeSamePool(c: Cloud, c': Cloud, e: Id, p: Id)
    requires TreeOf(c', e) == TreeOf(c, e) && PoolOn(c, p, e) && PoolOn(c', p, e)
    ensures SameBelow(c, c', p)
  {
    var t, t' := TreeOf(c, e), TreeOf(c', e);
    forall m
      ensures m in MonitorsOf(c', p) <==> m in MonitorsOf(c, p)
    {
      assert m in t.monitors <==> m in t'.monitors;
      assert m in t.monitors ==> t.monitors[m] == t'.monitors[m];
    }
    forall m
      ensures m in MembersOf(c', p) <==> m in MembersOf(c, p)
      ensures m in MembersOf(c, p) ==> c'.members[m] == c.members[m]
    {
      assert m in t.members <==> m in t'.members;
      assert m in t.members ==> t.members[m] == t'.members[m];
    }
  }

  // ---------------------------------------------------------------------------
  // Every call keeps the integrity of the cloud
  // ---------------------------------------------------------------------------

  lemma AddElbKeepsWF(c: Cloud, name: string)
    requires WF(c)
    ensures WF(AddElb(c, name))
  {
  }

  lemma AddListenerKeepsWF(c: Cloud, e: Id, port: int)
    requires WF(c) && e in c.elbs && port !in Ports(c, e)
    ensures WF(AddListener(c, e, port))
  {
    forall l | l in c.listeners && c.listeners[l].elb == e
      ensures c.listeners[l].port != port
    {
      assert l in ListenersOf(c, e);
    }
  }

  lemma AddMemberKeepsWF(c: Cloud, p: Id, at: Endpoint, subnet: string)
    requires WF(c) && p in c.pools && at !in Endpoints(c, p)
    ensures WF(AddMember(c, p, at, subnet))
  {
    forall m | m in c.members && c.members[m].pool == p
      ensures c.members[m].at != at
    {
      assert m in MembersOf(c, p);
    }
  }

  lemma DropPoolKeepsWF(c: Cloud, p: Id)
    requires WF(c)
    ensures WF(DropPool(c, p))
  {
    var c' := DropPool(c, p);
    assert Rooted(c') by {
      forall m | m in c'.monitors
        ensures c'.monitors[m] in c'.pools
      {
        assert m !in MonitorsOf(c, p);
      }
      forall m | m in c'.members
        ensures c'.members[m].pool in c'.pools
      {
        assert m !in MembersOf(c, p);
      }
    }
  }

  lemma DropListenerKeepsWF(c: Cloud, l: Id)
    requires WF(c)
    ensures WF(DropListener(c, l))
  {
    var c' := DropListener(c, l);
    assert Rooted(c') by {
      forall p | p in c'.pools
        ensures c'.pools[p].listener in c'.listeners
      {
        assert p !in PoolsAt(c, l);
      }
    }
  }

  lemma AddPoolKeepsWF(c: Cloud, l: Id, name: string)
    requires WF(c) && l in c.listeners
    ensures WF(AddPool(c, l, name))
  {
  }

  lemma AddMonitorKeepsWF(c: Cloud, p: Id)
    requires WF(c) && p in c.pools
    ensures WF(AddMonitor(c, p))
  {
  }

  lemma DropMemberKeepsWF(c: Cloud, m: Id)
    requires WF(c)
    ensures WF(DropMember(c, m))
  {
  }

  lemma DropMonitorKeepsWF(c: Cloud, m: Id)
    requires WF(c)
    ensures WF(DropMonitor(c, m))
  {
  }

  lemma AddGroupKeepsWF(c: Cloud, name: string, cidrs: seq<string>)
    requires WF(c)
    ensures WF(AddGroup(c, name, cidrs))
  {
  }

  lemma SetGroupKeepsWF(c: Cloud, g: Id, name: string, cidrs: seq<string>)
    requires WF(c) && g in c.groups
    ensures WF(SetGroup(c, g, name, cidrs))
  {
  }

  lemma DropGroupKeepsWF(c: Cloud, g: Id)
    requires WF(c)
    ensures WF(DropGroup(c, g))
  {
  }

  lemma SetAclKeepsWF(c: Cloud, l: Id, acl: Option<Id>)
    requires WF(c) && l in c.listeners
    ensures WF(SetAcl(c, l, acl))
  {
  }

  lemma DropElbKeepsWF(c: Cloud, e: Id)
    requires WF(c) && ListenersOf(c, e) == {}
    ensures WF(DropElb(c, e))
  {
    forall l | l in c.listeners
      ensures c.listeners[l].elb != e
    {
      assert l !in ListenersOf(c, e);
    }
  }

  // ---------------------------------------------------------------------------
  // Calls below an ELB touch nothing else
  // ---------------------------------------------------------------------------

  lemma AddListenerSets(c: Cloud, e: Id, port: int)
    requires WF(c)
    ensures var c' := AddListener(c, e, port);
      && ListenersOf(c', e) == ListenersOf(c, e) + {c.next} && c.next !in c.listeners
      && PoolsOf(c', e) == PoolsOf(c, e)
      && MonitorsBelow(c', e) == MonitorsBelow(c, e)
      && MembersBelow(c', e) == MembersBelow(c, e)
  {
    var c' := AddListener(c, e, port);
    assert forall p :: p in c.pools ==> (PoolOn(c', p, e) <==> PoolOn(c, p, e));
  }

  lemma AddListenerBelow(c: Cloud, e: Id, port: int)
    requires WF(c)
    ensures OnlyBelow(c, AddListener(c, e, port), e)
  {
    hide WF, ListenersOf, PoolsOf, MonitorsBelow, MembersBelow;
    AddListenerSets(c, e, port);
    var c' := AddListener(c, e, port);
    assert c'.listeners - ListenersOf(c', e) == c.listeners - ListenersOf(c, e);
  }

  lemma AddPoolBelow(c: Cloud, l: Id, name: string, e: Id)
    requires WF(c) && ListenerOn(c, l, e)
    ensures OnlyBelow(c, AddPool(c, l, name), e)
  {
    var c' := AddPool(c, l, name);
    assert ListenersOf(c', e) == ListenersOf(c, e);
    assert PoolsOf(c', e) == PoolsOf(c, e) + {c.next};
    assert MonitorsBelow(c', e) == MonitorsBelow(c, e);
    assert MembersBelow(c', e) == MembersBelow(c, e);
    assert c'.pools - PoolsOf(c', e) == c.pools - PoolsOf(c, e);
  }

  lemma AddMonitorBelow(c: Cloud, p: Id, e: Id)
    requires WF(c) && PoolOn(c, p, e)
    ensures OnlyBelow(c, AddMonitor(c, p), e)
  {
    var c' := AddMonitor(c, p);
    assert PoolsOf(c', e) == PoolsOf(c, e);
    assert MonitorsBelow(c', e) == MonitorsBelow(c, e) + {c.next};
    assert MembersBelow(c', e) == MembersBelow(c, e);
    assert c'.monitors - MonitorsBelow(c', e) == c.monitors - MonitorsBelow(c, e);
  }

  /** Members of a pool below `e` may change in any way. */
  lemma MembersChangeBelow(c: Cloud, c': Cloud, p: Id, e: Id)
    requires PoolOn(c, p, e) && c' == c.(members := c'.members, next := c'.next) && c.next <= c'.next
    requires forall m :: m in c.members && c.members[m].pool != p ==> m in c'.members && c'.members[m] == c.members[m]
    requires forall m :: m in c'.members && c'.members[m].pool != p ==> m in c.members && c.members[m] == c'.members[m]
    ensures OnlyBelow(c, c', e)
  {
    assert PoolsOf(c', e) == PoolsOf(c, e);
    assert MonitorsBelow(c', e) == MonitorsBelow(c, e);
    assert c'.members - MembersBelow(c', e) == c.members - MembersBelow(c, e);
  }

  lemma DropPoolBelow(c: Cloud, p: Id, e: Id)
    requires PoolOn(c, p, e)
    ensures OnlyBelow(c, DropPool(c, p), e)
  {
    var c' := DropPool(c, p);
    assert PoolsOf(c', e) == PoolsOf(c, e) - {p};
    assert c'.pools - PoolsOf(c', e) == c.pools - PoolsOf(c, e);
    assert c'.monitors - MonitorsBelow(c', e) == c.monitors - MonitorsBelow(c, e);
    assert c'.members - MembersBelow(c', e) == c.members - MembersBelow(c, e);
  }

  lemma DropListenerSets(c: Cloud, l: Id, e: Id)
    requires Rooted(c) && ListenerOn(c, l, e)
    ensures var c' := DropListener(c, l);
      && (forall x :: x in ListenersOf(c', e) <==> x in ListenersOf(c, e) && x != l)
      && (forall p :: p in PoolsOf(c', e) <==> p in PoolsOf(c, e) && p !in PoolsAt(c, l))
      && (forall m :: m in MonitorsBelow(c', e) <==> m in MonitorsBelow(c, e) && c.monitors[m] !in PoolsAt(c, l))
      && (forall m :: m in MembersBelow(c', e) <==> m in MembersBelow(c, e) && c.members[m].pool !in PoolsAt(c, l))
      && (forall p :: p in PoolsAt(c, l) ==> p in PoolsOf(c, e))
      && (forall m :: m in c.monitors && c.monitors[m] in PoolsAt(c, l) ==> m in MonitorsBelow(c, e))
      && (forall m :: m in c.members && c.members[m].pool in PoolsAt(c, l) ==> m in MembersBelow(c, e))
  {
  }

  lemma DropListenerBelow(c: Cloud, l: Id, e: Id)
    requires Rooted(c) && ListenerOn(c, l, e)
    ensures OnlyBelow(c, DropListener(c, l), e)
  {
    assert l in ListenersOf(c, e);
    hide Rooted, ListenersOf, PoolsOf, MonitorsBelow, MembersBelow, PoolsAt;
    DropListenerSets(c, l, e);
    var c' := DropListener(c, l);
    assert c'.listeners - ListenersOf(c', e) == c.listeners - ListenersOf(c, e);
    assert c'.pools - PoolsOf(c', e) == c.pools - PoolsOf(c, e);
    assert c'.monitors - MonitorsBelow(c', e) == c.monitors - MonitorsBelow(c, e);
    assert c'.members - MembersBelow(c', e) == c.members - MembersBelow(c, e);
  }

  // ---------------------------------------------------------------------------
  // ... and nothing below another ELB
  // ---------------------------------------------------------------------------

  /** Listeners of other ELBs, their pools, and what is below these, are the same. */
  ghost predicate TreesStay(c: Cloud, c': Cloud, e: Id) {
    forall f :: f != e ==> TreeOf(c', f) == TreeOf(c, f)
  }

  /** Clouds that differ only below ELB `e`, or in `e` itself. */
  lemma RestTrees(c: Cloud, c': Cloud, e: Id)
    requires Rest(c', e) == Rest(c, e)
    ensures TreesStay(c, c', e)
  {
    hide TreeOf, Rest;
    forall f | f != e
      ensures TreeOf(c', f) == TreeOf(c, f)
    {
      RestTree(c, e, f);
      RestTree(c', e, f);
    }
  }

  /** The rest of the cloud has the trees of all other ELBs. */
  lemma RestTree(c: Cloud, e: Id, f: Id)
    requires f != e
    ensures TreeOf(Rest(c, e), f) == TreeOf(c, f)
  {
    hide Rest, ListenerOn, PoolOn, MonitorOn, MemberOn;
    RestNodes(c, e, f);
  }

  lemma RestNodes(c: Cloud, e: Id, f: Id)
    requires f != e
    ensures var r := Rest(c, e);
      && (forall l :: ListenerOn(r, l, f) <==> ListenerOn(c, l, f))
      && (forall l :: ListenerOn(c, l, f) ==> l in c.listeners && l in r.listeners && r.listeners[l] == c.listeners[l])
      && (forall p :: PoolOn(r, p, f) <==> PoolOn(c, p, f))
      && (forall p :: PoolOn(c, p, f) ==> p in c.pools && p in r.pools && r.pools[p] == c.pools[p])
      && (forall m :: MonitorOn(r, m, f) <==> MonitorOn(c, m, f))
      && (forall m :: MonitorOn(c, m, f) ==> m in c.monitors && m in r.monitors && r.monitors[m] == c.monitors[m])
      && (forall m :: MemberOn(r, m, f) <==> MemberOn(c, m, f))
      && (forall m :: MemberOn(c, m, f) ==> m in c.members && m in r.members && r.members[m] == c.members[m])
  {
  }

  lemma TreeFrame(c: Cloud, c': Cloud, e: Id)
    requires c'.listeners == c.listeners && c'.pools == c.pools && c'.monitors == c.monitors && c'.members == c.members
    ensures TreeOf(c', e) == TreeOf(c, e)
  {
    assert forall p :: PoolOn(c', p, e) <==> PoolOn(c, p, e);
  }

  lemma SetAclTrees(c: Cloud, x: Id, acl: Option<Id>)
    requires x in c.listeners
    ensures TreesStay(c, SetAcl(c, x, acl), c.listeners[x].elb)
  {
    var c', e := SetAcl(c, x, acl), c.listeners[x].elb;
    forall f | f != e
      ensures TreeOf(c', f) == TreeOf(c, f)
    {
      assert forall l :: ListenerOn(c', l, f) <==> ListenerOn(c, l, f);
      assert forall p :: PoolOn(c', p, f) <==> PoolOn(c, p, f);
    }
  }
}
