/** The calls of internal/huaweicloud against a cloud that may refuse any of them. A refused
    call changes nothing; `trail` keeps every state the cloud went through, so that a claim
    about all states of the trail is a claim about every point where the process may die. */
module CloudApi {
  import opened Common
  import opened CloudModel
  import opened Steps
  import Paging

  const LIST_LIMIT := 2000

  /** The entries of a list call, in the server's order. */
  datatype Listing<T> = Listing(ids: seq<Id>, info: map<Id, T>)

  /** `s` holds the elements of `ids`, each once. */
  ghost predicate Orders(s: seq<Id>, ids: set<Id>) {
    && (forall i :: 0 <= i < |s| ==> s[i] in ids)
    && (forall x :: x in ids ==> x in s)
    && Paging.NoRepeats(s)
  }

  /** Some order of a set: the server's own, which the controller cannot rely on. */
  method Arrange(ids: set<Id>) returns (s: seq<Id>)
    ensures Orders(s, ids)
    ensures |s| == |ids|
  {
    s := [];
    var rest := ids;
    while rest != {}
      invariant rest <= ids
      invariant Orders(s, ids - rest)
      invariant |s| + |rest| == |ids|
      decreases |rest|
    {
      var x :| x in rest;
      s := s + [x];
      rest := rest - {x};
    }
    assert ids - rest == ids;
  }

  class Api {
    /** Whether the cloud deletes the children of a listener or pool along with it. If not,
        it refuses to delete one that still has children. */
    const cascade: bool
    var c: Cloud
    /** What the calls since `origin` were made for. */
    ghost var purpose: Purpose
    ghost var origin: Cloud
    /** The states from `origin` on, oldest first, up to but without `c`. */
    ghost var trail: seq<Cloud>
    /** How many calls failed without a reason in the cloud's state. */
    ghost var faults: nat

    ghost predicate Valid()
      reads this
    {
      WF(c) && WF(origin) && Points()[0] == origin && Run(purpose, Points())
    }

    /** Every state the cloud was in since `origin`, the present one last. */
    ghost function Points(): (s: seq<Cloud>)
      reads this
      ensures |s| == |trail| + 1 && s[|trail|] == c
    {
      trail + [c]
    }

    constructor (c: Cloud, cascade: bool)
      requires WF(c)
      ensures Valid() && this.c == c && this.cascade == cascade && trail == [] && faults == 0
    {
      this.c := c;
      this.cascade := cascade;
      this.purpose := Anything;
      this.origin := c;
      this.trail := [];
      this.faults := 0;
    }

    /** From here on calls are made for `why`. */
    ghost method Begin(why: Purpose)
      requires Valid()
      modifies this`purpose, this`origin, this`trail
      ensures Valid() && purpose == why && origin == c && trail == []
    {
      purpose := why;
      origin := c;
      trail := [];
    }

    lemma Intact()
      requires Valid()
      ensures WF(c)
    {
    }

    lemma NoCallNoChange()
      requires Valid() && trail == []
      ensures c == origin
    {
    }

    /** The record after a call that turned the cloud into `c'`. */
    lemma Records(c': Cloud)
      requires Valid() && Step(purpose, c, c')
      ensures Run(purpose, (trail + [c]) + [c']) && ((trail + [c]) + [c'])[0] == origin
    {
      RunExtends(purpose, trail, c, c');
    }

    /** One successful call more. */
    twostate predicate Counted()
      reads this
    {
      trail == old(trail) + [old(c)] && faults == old(faults)
    }

    /** The call failed and changed nothing: by a fault, or because `reason` held. */
    twostate predicate Refused(reason: bool)
      reads this
    {
      trail == old(trail) && (faults == old(faults) + 1 || (reason && faults == old(faults)))
    }

    /** A read: `ok` unless a fault got in the way. */
    twostate predicate Looked(ok: bool)
      reads this
    {
      c == old(c) && trail == old(trail) && faults == old(faults) + if ok then 0 else 1
    }

    // -------------------------------------------------------------------------
    // Reads
    // -------------------------------------------------------------------------

    method ListListeners(e: Id) returns (r: Result<Listing<Listener>>)
      requires Valid()
      modifies this`faults
      ensures Valid() && Looked(r.Ok?)
      ensures r.Ok? ==> Orders(r.value.ids, ListenersOf(c, e))
      ensures r.Ok? ==> r.value.info == map l | l in ListenersOf(c, e) :: c.listeners[l]
      ensures r.Err? ==> r.error == Other
    {
      var all := Arrange(ListenersOf(c, e));
      var ids, _ := Paging.ListAll(all, LIST_LIMIT);
      if ids.Err? {
        faults := faults + 1;
        return Err(Other);
      }
      r := Ok(Listing(ids.value, map l | l in ListenersOf(c, e) :: c.listeners[l]));
    }

    method ListPools(e: Id) returns (r: Result<Listing<Pool>>)
      requires Valid()
      modifies this`faults
      ensures Valid() && Looked(r.Ok?)
      ensures r.Ok? ==> Orders(r.value.ids, PoolsOf(c, e))
      ensures r.Ok? ==> r.value.info == map p | p in PoolsOf(c, e) :: c.pools[p]
      ensures r.Err? ==> r.error == Other
    {
      var all := Arrange(PoolsOf(c, e));
      var ids, _ := Paging.ListAll(all, LIST_LIMIT);
      if ids.Err? {
        faults := faults + 1;
        return Err(Other);
      }
      r := Ok(Listing(ids.value, map p | p in PoolsOf(c, e) :: c.pools[p]));
    }

    /** Lists the monitors of the whole project: the API has no filter by pool. */
    method ListHealthChecks() returns (r: Result<Listing<Id>>)
      requires Valid()
      modifies this`faults
      ensures Valid() && Looked(r.Ok?)
      ensures r.Ok? ==> Orders(r.value.ids, c.monitors.Keys) && r.value.info == c.monitors
      ensures r.Err? ==> r.error == Other
    {
      var all := Arrange(c.monitors.Keys);
      var ids, _ := Paging.ListAll(all, LIST_LIMIT);
      if ids.Err? {
        faults := faults + 1;
        return Err(Other);
      }
      r := Ok(Listing(ids.value, c.monitors));
    }

    /** One page only: of a larger pool the rest stays unseen. */
    method ListMembers(p: Id) returns (r: Result<Listing<Member>>)
      requires Valid()
      modifies this`faults
      ensures Valid() && Looked(r.Ok?)
      ensures r.Ok? ==> r.value.info.Keys <= MembersOf(c, p) && Orders(r.value.ids, r.value.info.Keys)
      ensures r.Ok? ==> forall m :: m in r.value.info ==> r.value.info[m] == c.members[m]
      ensures r.Ok? && |MembersOf(c, p)| <= LIST_LIMIT ==> r.value.info.Keys == MembersOf(c, p)
      ensures r.Err? ==> r.error == Other
    {
      var fault: bool := *;
      if fault {
        faults := faults + 1;
        return Err(Other);
      }
      var all := Arrange(MembersOf(c, p));
      var page := if |all| <= LIST_LIMIT then all else all[..LIST_LIMIT];
      var seen := set m | m in page;
      r := Ok(Listing(page, map m | m in seen :: c.members[m]));
    }

    /** The first group carrying the name. */
    method FindIPGroupByName(name: string) returns (r: Result<Option<Id>>)
      requires Valid()
      modifies this`faults
      ensures Valid() && Looked(r.Ok?)
      ensures r.Ok? && r.value.Some? ==> r.value.value in c.groups && c.groups[r.value.value].name == name
      ensures r.Ok? && r.value.None? ==> forall g :: g in c.groups ==> c.groups[g].name != name
      ensures r.Err? ==> r.error == Other
    {
      var fault: bool := *;
      if fault {
        faults := faults + 1;
        return Err(Other);
      }
      var named := set g | g in c.groups && c.groups[g].name == name;
      if named == {} {
        assert forall g :: g in c.groups && c.groups[g].name == name ==> g in named;
        return Ok(None);
      }
      var g :| g in named;
      r := Ok(Some(g));
    }

    // -------------------------------------------------------------------------
    // Writes
    // -------------------------------------------------------------------------

    method CreateListener(e: Id, port: int) returns (r: Result<Id>)
      requires Valid()
      requires e in c.elbs && port !in Ports(c, e) ==> Step(purpose, c, AddListener(c, e, port))
      modifies this`c, this`trail, this`faults
      ensures Valid()
      ensures r.Ok? ==> r.value == old(c.next) && e in old(c.elbs) && port !in Ports(old(c), e)
      ensures r.Ok? ==> c == AddListener(old(c), e, port) && Counted()
      ensures r.Err? ==> c == old(c) && Refused(e !in old(c.elbs) || port in Ports(old(c), e))
    {
      hide WF, AddListener;
      var fault: bool := *;
      if fault {
        faults := faults + 1;
        return Err(Other);
      }
      if e !in c.elbs {
        return Err(NotFound);
      }
      if port in Ports(c, e) {
        return Err(Other);
      }
      AddListenerKeepsWF(c, e, port);
      r := Ok(c.next);
      Records(AddListener(c, e, port));
      trail := trail + [c];
      c := AddListener(c, e, port);
    }

    method CreatePool(l: Id, name: string) returns (r: Result<Id>)
      requires Valid()
      requires l in c.listeners ==> Step(purpose, c, AddPool(c, l, name))
      modifies this`c, this`trail, this`faults
      ensures Valid()
      ensures r.Ok? ==> r.value == old(c.next) && l in old(c.listeners)
      ensures r.Ok? ==> c == AddPool(old(c), l, name) && Counted()
      ensures r.Err? ==> c == old(c) && Refused(l !in old(c.listeners))
    {
      hide WF, CloudModel.AddPool;
      var fault: bool := *;
      if fault {
        faults := faults + 1;
        return Err(Other);
      }
      if l !in c.listeners {
        return Err(NotFound);
      }
      r := Ok(c.next);
      AddPoolKeepsWF(c, l, name);
      Records(AddPool(c, l, name));
      trail := trail + [c];
      c := AddPool(c, l, name);
    }

    method CreateHealthCheck(p: Id) returns (r: Result<Id>)
      requires Valid()
      requires p in c.pools ==> Step(purpose, c, AddMonitor(c, p))
      modifies this`c, this`trail, this`faults
      ensures Valid()
      ensures r.Ok? ==> r.value == old(c.next) && p in old(c.pools)
      ensures r.Ok? ==> c == AddMonitor(old(c), p) && Counted()
      ensures r.Err? ==> c == old(c) && Refused(p !in old(c.pools))
    {
      hide WF, CloudModel.AddMonitor;
      var fault: bool := *;
      if fault {
        faults := faults + 1;
        return Err(Other);
      }
      if p !in c.pools {
        return Err(NotFound);
      }
      r := Ok(c.next);
      AddMonitorKeepsWF(c, p);
      Records(AddMonitor(c, p));
      trail := trail + [c];
      c := AddMonitor(c, p);
    }

    method AddMember(p: Id, at: Endpoint, subnet: string) returns (r: Result<Id>)
      requires Valid()
      requires p in c.pools && at !in Endpoints(c, p) ==> Step(purpose, c, CloudModel.AddMember(c, p, at, subnet))
      modifies this`c, this`trail, this`faults
      ensures Valid()
      ensures r.Ok? ==> r.value == old(c.next) && p in old(c.pools) && at !in Endpoints(old(c), p)
      ensures r.Ok? ==> c == CloudModel.AddMember(old(c), p, at, subnet) && Counted()
      ensures r.Err? ==> c == old(c) && Refused(p !in old(c.pools) || at in Endpoints(old(c), p))
    {
      hide WF, CloudModel.AddMember;
      var fault: bool := *;
      if fault {
        faults := faults + 1;
        return Err(Other);
      }
      if p !in c.pools {
        return Err(NotFound);
      }
      if at in Endpoints(c, p) {
        return Err(Other);
      }
      AddMemberKeepsWF(c, p, at, subnet);
      r := Ok(c.next);
      Records(CloudModel.AddMember(c, p, at, subnet));
      trail := trail + [c];
      c := CloudModel.AddMember(c, p, at, subnet);
    }

    method DeleteMember(p: Id, m: Id) returns (r: Result<()>)
      requires Valid()
      requires m in MembersOf(c, p) ==> Step(purpose, c, DropMember(c, m))
      modifies this`c, this`trail, this`faults
      ensures Valid()
      ensures r.Ok? ==> m in MembersOf(old(c), p) && c == DropMember(old(c), m) && Counted()
      ensures r.Err? ==> c == old(c) && Refused(m !in MembersOf(old(c), p))
      ensures r.Err? && r.error == NotFound ==> m !in MembersOf(c, p) && faults == old(faults)
    {
      hide WF, DropMember;
      var fault: bool := *;
      if fault {
        faults := faults + 1;
        return Err(Other);
      }
      if m !in MembersOf(c, p) {
        return Err(NotFound);
      }
      DropMemberKeepsWF(c, m);
      Records(DropMember(c, m));
      trail := trail + [c];
      c := DropMember(c, m);
      r := Ok(());
    }

    method DeleteHealthCheck(m: Id) returns (r: Result<()>)
      requires Valid()
      requires m in c.monitors ==> Step(purpose, c, DropMonitor(c, m))
      modifies this`c, this`trail, this`faults
      ensures Valid()
      ensures r.Ok? ==> m in old(c.monitors) && c == DropMonitor(old(c), m) && Counted()
      ensures r.Err? ==> c == old(c) && Refused(m !in old(c.monitors))
      ensures r.Err? && r.error == NotFound ==> m !in c.monitors && faults == old(faults)
    {
      hide WF, DropMonitor;
      var fault: bool := *;
      if fault {
        faults := faults + 1;
        return Err(Other);
      }
      if m !in c.monitors {
        return Err(NotFound);
      }
      DropMonitorKeepsWF(c, m);
      Records(DropMonitor(c, m));
      trail := trail + [c];
      c := DropMonitor(c, m);
      r := Ok(());
    }

    method DeletePool(p: Id) returns (r: Result<()>)
      requires Valid()
      requires p in c.pools ==> Step(purpose, c, DropPool(c, p))
      modifies this`c, this`trail, this`faults
      ensures Valid()
      ensures r.Ok? ==> p in old(c.pools) && c == DropPool(old(c), p) && Counted()
      ensures r.Ok? && !cascade ==> MonitorsOf(old(c), p) == {} && MembersOf(old(c), p) == {}
      ensures r.Err? ==>
        c == old(c)
        && Refused(p !in old(c.pools) || (!cascade && (MonitorsOf(c, p) != {} || MembersOf(c, p) != {})))
      ensures r.Err? && r.error == NotFound ==> p !in c.pools && faults == old(faults)
    {
      hide WF, DropPool;
      var fault: bool := *;
      if fault {
        faults := faults + 1;
        return Err(Other);
      }
      if p !in c.pools {
        return Err(NotFound);
      }
      if !cascade && (MonitorsOf(c, p) != {} || MembersOf(c, p) != {}) {
        return Err(Other);
      }
      DropPoolKeepsWF(c, p);
      Records(DropPool(c, p));
      trail := trail + [c];
      c := DropPool(c, p);
      r := Ok(());
    }

    method DeleteListener(l: Id) returns (r: Result<()>)
      requires Valid()
      requires l in c.listeners ==> Step(purpose, c, DropListener(c, l))
      modifies this`c, this`trail, this`faults
      ensures Valid()
      ensures r.Ok? ==> l in old(c.listeners) && c == DropListener(old(c), l) && Counted()
      ensures r.Ok? && !cascade ==> PoolsAt(old(c), l) == {}
      ensures r.Err? ==> c == old(c) && Refused(l !in old(c.listeners) || (!cascade && PoolsAt(c, l) != {}))
      ensures r.Err? && r.error == NotFound ==> l !in c.listeners && faults == old(faults)
    {
      hide WF, DropListener;
      var fault: bool := *;
      if fault {
        faults := faults + 1;
        return Err(Other);
      }
      if l !in c.listeners {
        return Err(NotFound);
      }
      if !cascade && PoolsAt(c, l) != {} {
        return Err(Other);
      }
      DropListenerKeepsWF(c, l);
      Records(DropListener(c, l));
      trail := trail + [c];
      c := DropListener(c, l);
      r := Ok(());
    }

    /** An ELB with listeners is not deleted, whatever `cascade` says. */
    method DeleteELB(e: Id) returns (r: Result<()>)
      requires Valid()
      requires e in c.elbs && ListenersOf(c, e) == {} ==> Step(purpose, c, DropElb(c, e))
      modifies this`c, this`trail, this`faults
      ensures Valid()
      ensures r.Ok? ==> e in old(c.elbs) && ListenersOf(old(c), e) == {} && c == DropElb(old(c), e) && Counted()
      ensures r.Err? ==> c == old(c) && Refused(e !in old(c.elbs) || ListenersOf(c, e) != {})
      ensures r.Err? && r.error == NotFound ==> e !in c.elbs && faults == old(faults)
      ensures r.Err? && r.error == Other && ListenersOf(c, e) == {} ==> faults == old(faults) + 1
    {
      hide WF, DropElb;
      var fault: bool := *;
      if fault {
        faults := faults + 1;
        return Err(Other);
      }
      if e !in c.elbs {
        return Err(NotFound);
      }
      if ListenersOf(c, e) != {} {
        return Err(Other);
      }
      Records(DropElb(c, e));
      DropElbKeepsWF(c, e);
      trail := trail + [c];
      c := DropElb(c, e);
      r := Ok(());
    }

    /** Enables group `acl` on the listener, or disables its access control. */
    method UpdateListenerACL(l: Id, acl: Option<Id>) returns (r: Result<()>)
      requires Valid()
      requires l in c.listeners && (acl.None? || acl.value in c.groups) ==> Step(purpose, c, SetAcl(c, l, acl))
      modifies this`c, this`trail, this`faults
      ensures Valid()
      ensures r.Ok? ==> l in old(c.listeners) && (acl.Some? ==> acl.value in old(c.groups))
      ensures r.Ok? ==> c == SetAcl(old(c), l, acl) && Counted()
      ensures r.Err? ==> c == old(c) && Refused(l !in old(c.listeners) || (acl.Some? && acl.value !in old(c.groups)))
    {
      hide WF, SetAcl;
      var fault: bool := *;
      if fault {
        faults := faults + 1;
        return Err(Other);
      }
      if l !in c.listeners || (acl.Some? && acl.value !in c.groups) {
        return Err(NotFound);
      }
      Records(SetAcl(c, l, acl));
      SetAclKeepsWF(c, l, acl);
      trail := trail + [c];
      c := SetAcl(c, l, acl);
      r := Ok(());
    }

    method CreateIPGroup(name: string, cidrs: seq<string>) returns (r: Result<Id>)
      requires Valid()
      requires Step(purpose, c, AddGroup(c, name, cidrs))
      modifies this`c, this`trail, this`faults
      ensures Valid()
      ensures r.Ok? ==> r.value == old(c.next)
      ensures r.Ok? ==> c == AddGroup(old(c), name, cidrs) && Counted()
      ensures r.Err? ==> c == old(c) && Refused(false)
    {
      hide WF, AddGroup;
      var fault: bool := *;
      if fault {
        faults := faults + 1;
        return Err(Other);
      }
      r := Ok(c.next);
      AddGroupKeepsWF(c, name, cidrs);
      Records(AddGroup(c, name, cidrs));
      trail := trail + [c];
      c := AddGroup(c, name, cidrs);
    }

    method UpdateIPGroup(g: Id, name: string, cidrs: seq<string>) returns (r: Result<()>)
      requires Valid()
      requires g in c.groups ==> Step(purpose, c, SetGroup(c, g, name, cidrs))
      modifies this`c, this`trail, this`faults
      ensures Valid()
      ensures r.Ok? ==> g in old(c.groups) && c == SetGroup(old(c), g, name, cidrs) && Counted()
      ensures r.Err? ==> c == old(c) && Refused(g !in old(c.groups))
    {
      hide WF, SetGroup;
      var fault: bool := *;
      if fault {
        faults := faults + 1;
        return Err(Other);
      }
      if g !in c.groups {
        return Err(NotFound);
      }
      SetGroupKeepsWF(c, g, name, cidrs);
      Records(SetGroup(c, g, name, cidrs));
      trail := trail + [c];
      c := SetGroup(c, g, name, cidrs);
      r := Ok(());
    }

    /** The cloud does not check whether a listener still uses the group. */
    method DeleteIPGroup(g: Id) returns (r: Result<()>)
      requires Valid()
      requires g in c.groups ==> Step(purpose, c, DropGroup(c, g))
      modifies this`c, this`trail, this`faults
      ensures Valid()
      ensures r.Ok? ==> g in old(c.groups) && c == DropGroup(old(c), g) && Counted()
      ensures r.Err? ==> c == old(c) && Refused(g !in old(c.groups))
      ensures r.Err? && r.error == NotFound ==> g !in c.groups && faults == old(faults)
      ensures r.Err? && r.error == Other ==> faults == old(faults) + 1
    {
      hide WF, DropGroup;
      var fault: bool := *;
      if fault {
        faults := faults + 1;
        return Err(Other);
      }
      if g !in c.groups {
        return Err(NotFound);
      }
      DropGroupKeepsWF(c, g);
      Records(DropGroup(c, g));
      trail := trail + [c];
      c := DropGroup(c, g);
      r := Ok(());
    }
  }
}
