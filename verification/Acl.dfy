/** ensureACL (internal/controller/service_controller.go): the IP group that holds a Service's
    source ranges, and its use by the listeners of the Service's ELB. */
module Acl {
  import opened Common
  import opened CloudModel
  import opened Steps
  import opened CloudApi

  // ---------------------------------------------------------------------------
  // Source ranges
  // ---------------------------------------------------------------------------

  function Filter(ranges: seq<string>, ok: string -> bool): seq<string> {
    if ranges == [] then []
    else
      var last := ranges[|ranges| - 1];
      Filter(ranges[..|ranges| - 1], ok) + if ok(last) then [last] else []
  }

  /** Exactly the valid ranges survive. */
  lemma {:induction false} FilterExact(ranges: seq<string>, ok: string -> bool)
    ensures forall x :: x in Filter(ranges, ok) <==> x in ranges && ok(x)
  {
    if ranges != [] {
      var init, last := ranges[..|ranges| - 1], ranges[|ranges| - 1];
      FilterExact(init, ok);
      assert ranges == init + [last];
    }
  }

  /** ... in their order, and each no more often than it was given. */
  lemma {:induction false} FilterInOrder(before: seq<string>, after: seq<string>, ok: string -> bool)
    ensures Filter(before + after, ok) == Filter(before, ok) + Filter(after, ok)
    ensures |Filter(after, ok)| <= |after|
  {
    if after == [] {
      assert before + after == before;
    } else {
      var init, last := after[..|after| - 1], after[|after| - 1];
      var kept := if ok(last) then [last] else [];
      FilterInOrder(before, init, ok);
      assert (before + after)[..|before + after| - 1] == before + init;
      assert (before + after)[|before + after| - 1] == last;
      Associates(Filter(before, ok), Filter(init, ok), kept);
    }
  }

  lemma Associates(a: seq<string>, b: seq<string>, c: seq<string>)
    ensures (a + b) + c == a + (b + c)
  {
  }

  /** CIDR parsing is a parameter. */
  method FilterValidCIDRs(ranges: seq<string>, ok: string -> bool) returns (valid: seq<string>)
    ensures valid == Filter(ranges, ok)
  {
    valid := [];
    for i := 0 to |ranges|
      invariant valid == Filter(ranges[..i], ok)
    {
      assert ranges[..i + 1][..i] == ranges[..i];
      if ok(ranges[i]) {
        valid := valid + [ranges[i]];
      }
    }
    assert ranges[..|ranges|] == ranges;
  }

  // ---------------------------------------------------------------------------
  // Enabling a group on listeners
  // ---------------------------------------------------------------------------

  /** The cloud with `acl` set on the listeners `done`. */
  function SetAcls(c: Cloud, done: set<Id>, acl: Option<Id>): Cloud {
    c.(listeners := map l | l in c.listeners :: if l in done then c.listeners[l].(acl := acl) else c.listeners[l])
  }

  lemma NothingSet(c: Cloud, acl: Option<Id>)
    ensures SetAcls(c, {}, acl) == c
  {
  }

  lemma OneMoreSet(c: Cloud, done: set<Id>, l: Id, acl: Option<Id>)
    requires l in c.listeners
    ensures l in SetAcls(c, done, acl).listeners
    ensures SetAcl(SetAcls(c, done, acl), l, acl) == SetAcls(c, done + {l}, acl)
  {
    assert SetAcl(SetAcls(c, done, acl), l, acl).listeners == SetAcls(c, done + {l}, acl).listeners;
  }

  lemma SetAclsNoDangling(c: Cloud, done: set<Id>, acl: Option<Id>)
    requires NoDangling(c) && (acl.Some? ==> acl.value in c.groups)
    ensures NoDangling(SetAcls(c, done, acl))
  {
  }

  /** bindACLToAllListeners and unbindACLFromAllListeners. */
  method BindAll(api: Api, e: Id, acl: Option<Id>) returns (r: Result<()>, ghost done: set<Id>)
    requires api.Valid() && api.purpose == Anything
    modifies api`c, api`trail, api`faults
    ensures api.Valid()
    ensures done <= ListenersOf(old(api.c), e) && api.c == SetAcls(old(api.c), done, acl)
    ensures r.Ok? ==> done == ListenersOf(old(api.c), e) && api.faults == old(api.faults)
    ensures r.Err? && (acl.None? || acl.value in old(api.c.groups)) ==> api.faults == old(api.faults) + 1
    ensures acl.Some? && acl.value !in old(api.c.groups) ==> done == {}
  {
    hide Api.Valid, SetAcls, SetAcl;
    ghost var before := api.c;
    done := {};
    NothingSet(before, acl);
    var listed := api.ListListeners(e);
    if listed.Err? {
      return Err(listed.error), done;
    }
    var ids := listed.value.ids;
    for i := 0 to |ids|
      invariant api.Valid() && api.faults == old(api.faults)
      invariant done == set j | 0 <= j < i :: ids[j]
      invariant api.c == SetAcls(before, done, acl)
      invariant acl.Some? && acl.value !in before.groups ==> done == {}
    {
      OneMoreSet(before, done, ids[i], acl);
      SetKeepsGroups(before, done, acl);
      r := api.UpdateListenerACL(ids[i], acl);
      if r.Err? {
        return;
      }
      done := done + {ids[i]};
    }
    r := Ok(());
  }

  lemma SetKeepsGroups(c: Cloud, done: set<Id>, acl: Option<Id>)
    ensures SetAcls(c, done, acl).groups == c.groups
  {
  }

  // ---------------------------------------------------------------------------
  // ensureACL
  // ---------------------------------------------------------------------------

  /** Group `g` is enabled on listeners of ELB `e` alone. */
  ghost predicate UsedOnlyBy(c: Cloud, g: Id, e: Id) {
    forall l :: l in c.listeners && c.listeners[l].acl == Some(g) ==> c.listeners[l].elb == e
  }

  /** The groups ensureACL may touch: the recorded one, or those with the Service's group name. */
  predicate Own(c: Cloud, g: Id, existing: Option<Id>, name: string) {
    existing == Some(g) || (g in c.groups && c.groups[g].name == name)
  }

  /** What ensureACL leaves alone wherever it stops. */
  ghost predicate AclWork(c: Cloud, c': Cloud, e: Id, existing: Option<Id>, name: string) {
    && c' == c.(listeners := c'.listeners, groups := c'.groups, next := c'.next)
    && c.next <= c'.next
    && c'.listeners.Keys == c.listeners.Keys
    && (forall l :: l in c.listeners ==> c'.listeners[l] == c.listeners[l].(acl := c'.listeners[l].acl))
    && (forall l :: l in c.listeners && !ListenerOn(c, l, e) ==> c'.listeners[l] == c.listeners[l])
    && (forall g :: g in c.groups && !Own(c, g, existing, name) ==> g in c'.groups && c'.groups[g] == c.groups[g])
    && (forall g :: g in c'.groups && g !in c.groups ==> g >= c.next && Own(c', g, existing, name))
  }

  /** Some group has this name. */
  ghost predicate SomeNamed(c: Cloud, name: string) {
    exists g :: g in c.groups && c.groups[g].name == name
  }

  /** No two groups have this name. */
  ghost predicate OneNamed(c: Cloud, name: string) {
    forall g, h | g in c.groups && h in c.groups && c.groups[g].name == name == c.groups[h].name :: g == h
  }

  /** The recorded group, if it exists, has this name. */
  predicate RecordedAs(c: Cloud, existing: Option<Id>, name: string) {
    existing.Some? && existing.value in c.groups ==> c.groups[existing.value].name == name
  }

  /** Updating a group of the name gives no second one. */
  lemma SetGroupOne(c: Cloud, g: Id, name: string, cidrs: seq<string>)
    requires g in c.groups && c.groups[g].name == name && OneNamed(c, name)
    ensures OneNamed(SetGroup(c, g, name, cidrs), name)
  {
  }

  /** Creating one gives no second one only if there was none. */
  lemma AddGroupOne(c: Cloud, name: string, cidrs: seq<string>)
    requires !SomeNamed(c, name)
    ensures OneNamed(AddGroup(c, name, cidrs), name)
  {
    assert forall g :: g in c.groups ==> c.groups[g].name != name;
  }

  lemma SetAclsOne(c: Cloud, done: set<Id>, acl: Option<Id>, name: string)
    requires OneNamed(c, name)
    ensures OneNamed(SetAcls(c, done, acl), name)
  {
  }

  lemma DropGroupOne(c: Cloud, g: Id, name: string)
    requires OneNamed(c, name)
    ensures OneNamed(DropGroup(c, g), name)
  {
  }

  /** Every listener of the ELB is bound to group `g`, which holds exactly these ranges. */
  ghost predicate Guarded(c: Cloud, e: Id, g: Id, name: string, cidrs: seq<string>) {
    && g in c.groups && c.groups[g] == Group(name, cidrs)
    && forall l :: ListenerOn(c, l, e) ==> c.listeners[l].acl == Some(g)
  }

  ghost predicate Open(c: Cloud, e: Id) {
    forall l :: ListenerOn(c, l, e) ==> c.listeners[l].acl.None?
  }

  lemma SetAclsWork(c: Cloud, c1: Cloud, e: Id, existing: Option<Id>, name: string, done: set<Id>, acl: Option<Id>)
    requires AclWork(c, c1, e, existing, name) && done <= ListenersOf(c1, e)
    ensures AclWork(c, SetAcls(c1, done, acl), e, existing, name)
    ensures acl.None? && done == ListenersOf(c1, e) ==> Open(SetAcls(c1, done, acl), e)
    ensures (acl.Some? && done == ListenersOf(c1, e) && acl.value in c1.groups && c1.groups[acl.value].name == name) ==>
      Guarded(SetAcls(c1, done, acl), e, acl.value, name, c1.groups[acl.value].cidrs)
  {
  }

  /** Unbinding first is what makes the deletion safe. */
  lemma DropGroupSafe(c: Cloud, c1: Cloud, e: Id, g: Id, name: string)
    requires AclWork(c, c1, e, Some(g), name) && NoDangling(c1) && UsedOnlyBy(c, g, e) && Open(c1, e)
    ensures NoDangling(DropGroup(c1, g)) && AclWork(c, DropGroup(c1, g), e, Some(g), name)
    ensures Open(DropGroup(c1, g), e)
  {
  }

  lemma SetGroupWork(c: Cloud, e: Id, g: Id, existing: Option<Id>, name: string, cidrs: seq<string>)
    requires NoDangling(c) && g in c.groups && Own(c, g, existing, name)
    ensures AclWork(c, SetGroup(c, g, name, cidrs), e, existing, name) && NoDangling(SetGroup(c, g, name, cidrs))
    ensures g in SetGroup(c, g, name, cidrs).groups && SetGroup(c, g, name, cidrs).groups[g] == Group(name, cidrs)
  {
  }

  lemma AddGroupWork(c: Cloud, e: Id, existing: Option<Id>, name: string, cidrs: seq<string>)
    requires WF(c) && NoDangling(c)
    ensures AclWork(c, AddGroup(c, name, cidrs), e, existing, name) && NoDangling(AddGroup(c, name, cidrs))
    ensures c.next in AddGroup(c, name, cidrs).groups && AddGroup(c, name, cidrs).groups[c.next] == Group(name, cidrs)
  {
  }

  lemma GuardedStays(c: Cloud, e: Id, g: Id, name: string, cidrs: seq<string>)
    requires Guarded(c, e, g, name, cidrs)
    ensures SetGroup(c, g, name, cidrs) == c
    ensures forall done :: done <= ListenersOf(c, e) ==> SetAcls(c, done, Some(g)) == c
  {
    forall done | done <= ListenersOf(c, e)
      ensures SetAcls(c, done, Some(g)) == c
    {
      assert SetAcls(c, done, Some(g)).listeners == c.listeners;
    }
  }

  lemma NoAclWork(c: Cloud, e: Id, existing: Option<Id>, name: string)
    ensures AclWork(c, c, e, existing, name)
  {
  }

  /** The branch without valid ranges and with a recorded group. */
  method RemoveACL(api: Api, e: Id, g: Id, name: string) returns (r: Result<()>)
    requires api.Valid() && api.purpose == Anything
    requires NoDangling(api.c) && UsedOnlyBy(api.c, g, e)
    modifies api`c, api`trail, api`faults
    ensures api.Valid() && NoDangling(api.c) && AclWork(old(api.c), api.c, e, Some(g), name)
    ensures r.Ok? ==> Open(api.c, e) && g !in api.c.groups && api.faults == old(api.faults)
    ensures r.Err? ==> api.faults == old(api.faults) + 1
    ensures OneNamed(old(api.c), name) ==> OneNamed(api.c, name)
  {
    hide Api.Valid, SetAcls, AclWork, NoDangling, Open, UsedOnlyBy, OneNamed;
    ghost var before := api.c;
    NoAclWork(before, e, Some(g), name);
    ghost var done;
    r, done := BindAll(api, e, None);
    SetAclsWork(before, before, e, Some(g), name, done, None);
    SetAclsNoDangling(before, done, None);
    if OneNamed(before, name) {
      SetAclsOne(before, done, None, name);
    }
    if r.Err? {
      return;
    }
    ghost var mid := api.c;
    DropGroupSafe(before, mid, e, g, name);
    if OneNamed(before, name) {
      DropGroupOne(mid, g, name);
    }
    r := api.DeleteIPGroup(g);
    if r.Err? && r.error == NotFound {
      r := Ok(());
    }
  }

  /** Brings the access control of ELB `e` to the Service's source ranges and returns the group to
      record. `existing` is the recorded group; without one a group of the name is used if there is
      one. Wherever it stops, every enabled group exists, and there is no second group of the name. */
  method EnsureACL(api: Api, e: Id, existing: Option<Id>, name: string, ranges: seq<string>, ok: string -> bool)
    returns (r: Result<Option<Id>>)
    requires api.Valid() && NoDangling(api.c)
    requires existing.Some? ==> UsedOnlyBy(api.c, existing.value, e)
    modifies api
    ensures api.Valid() && NoDangling(api.c) && AclWork(old(api.c), api.c, e, existing, name)
    ensures r.Ok? && Filter(ranges, ok) != [] ==>
      r.value.Some? && Guarded(api.c, e, r.value.value, name, Filter(ranges, ok))
    ensures r.Ok? && Filter(ranges, ok) != [] && existing.Some? ==> r.value == existing
    ensures r.Ok? && Filter(ranges, ok) != [] && existing.None? && SomeNamed(old(api.c), name) ==>
      r.value.value in old(api.c.groups) && old(api.c.groups)[r.value.value].name == name
    ensures OneNamed(old(api.c), name) && RecordedAs(old(api.c), existing, name) ==> OneNamed(api.c, name)
    ensures r.Ok? && Filter(ranges, ok) == [] ==> r.value == None
    ensures r.Ok? && Filter(ranges, ok) == [] && existing.Some? ==> Open(api.c, e) && existing.value !in api.c.groups
    ensures Filter(ranges, ok) == [] && existing.None? ==> r.Ok? && api.c == old(api.c)
    ensures (existing.Some? && Guarded(old(api.c), e, existing.value, name, Filter(ranges, ok))
      && Filter(ranges, ok) != []) ==>
      api.c == old(api.c)
    ensures RecordedDead(old(api.c), existing) && Filter(ranges, ok) != [] ==> r.Err? && api.c == old(api.c)
    ensures r.Ok? ==> api.faults == old(api.faults)
    ensures r.Err? && !(RecordedDead(old(api.c), existing) && Filter(ranges, ok) != []) ==>
      api.faults == old(api.faults) + 1
  {
    hide Api.Valid, SetAcls, AclWork, NoDangling, Open, UsedOnlyBy, Guarded, Filter, SetGroup, AddGroup;
    hide OneNamed, SomeNamed;
    ghost var before := api.c;
    NoAclWork(before, e, existing, name);
    api.Begin(Anything);
    var cidrs := FilterValidCIDRs(ranges, ok);
    if cidrs == [] {
      if existing.None? {
        return Ok(None);
      }
      var gone := RemoveACL(api, e, existing.value, name);
      return if gone.Ok? then Ok(None) else Err(gone.error);
    }
    var put := PutGroup(api, e, existing, name, cidrs);
    if put.Err? {
      return Err(put.error);
    }
    ghost var mid := api.c;
    if existing.Some? && Guarded(before, e, existing.value, name, cidrs) {
      GuardedStays(before, e, existing.value, name, cidrs);
    }
    var bound, done := BindAll(api, e, Some(put.value));
    SetAclsWork(before, mid, e, existing, name, done, Some(put.value));
    SetAclsNoDangling(mid, done, Some(put.value));
    if OneNamed(mid, name) {
      SetAclsOne(mid, done, Some(put.value), name);
    }
    r := if bound.Ok? then Ok(Some(put.value)) else Err(bound.error);
  }

  /** The recorded group no longer exists: then no retry ever gets past updating it. */
  ghost predicate RecordedDead(c: Cloud, existing: Option<Id>) {
    existing.Some? && existing.value !in c.groups
  }

  /** The group that is to hold the ranges: the recorded one, else one found by name, else a new one. So
      a second group of the name is never created. */
  method PutGroup(api: Api, e: Id, existing: Option<Id>, name: string, cidrs: seq<string>) returns (r: Result<Id>)
    requires api.Valid() && NoDangling(api.c) && api.purpose == Anything
    modifies api`c, api`trail, api`faults
    ensures api.Valid() && NoDangling(api.c) && AclWork(old(api.c), api.c, e, existing, name)
    ensures r.Ok? ==> r.value in api.c.groups && api.c.groups[r.value] == Group(name, cidrs)
    ensures r.Ok? && existing.Some? ==> r.value == existing.value
    ensures r.Ok? ==> api.faults == old(api.faults) && !RecordedDead(old(api.c), existing)
    ensures r.Err? ==> api.c == old(api.c)
    ensures existing.Some? && Guarded(old(api.c), e, existing.value, name, cidrs) ==> api.c == old(api.c)
    ensures r.Err? && !RecordedDead(old(api.c), existing) ==> api.faults == old(api.faults) + 1
    ensures r.Ok? && existing.None? && SomeNamed(old(api.c), name) ==>
      r.value in old(api.c.groups) && old(api.c.groups)[r.value].name == name
    ensures OneNamed(old(api.c), name) && RecordedAs(old(api.c), existing, name) ==> OneNamed(api.c, name)
  {
    hide Api.Valid, AclWork, NoDangling, SetGroup, AddGroup, WF, Guarded, OneNamed;
    ghost var before := api.c;
    NoAclWork(before, e, existing, name);
    if existing.Some? && Guarded(before, e, existing.value, name, cidrs) {
      GuardedStays(before, e, existing.value, name, cidrs);
    }
    var g := existing;
    if g.None? {
      var found := api.FindIPGroupByName(name);
      if found.Err? {
        return Err(found.error);
      }
      g := found.value;
    }
    if g.Some? {
      if g.value in before.groups {
        SetGroupWork(before, e, g.value, existing, name, cidrs);
        if OneNamed(before, name) && before.groups[g.value].name == name {
          SetGroupOne(before, g.value, name, cidrs);
        }
      }
      var updated := api.UpdateIPGroup(g.value, name, cidrs);
      r := if updated.Ok? then Ok(g.value) else Err(updated.error);
    } else {
      api.Intact();
      AddGroupWork(before, e, existing, name, cidrs);
      AddGroupOne(before, name, cidrs);
      r := api.CreateIPGroup(name, cidrs);
    }
  }
}
