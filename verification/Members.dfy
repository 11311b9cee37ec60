/** SyncMembers (internal/huaweicloud/member.go): the diff between a pool's members and the
    desired targets, carried out one call at a time. */
module Members {
  import opened Common
  import opened Naming
  import opened CloudModel
  import opened Steps
  import opened CloudApi

  datatype Target = Target(at: Endpoint, subnet: string)

  function Key(at: Endpoint): string {
    MemberKey(at.address, at.port)
  }

  /** The targets by endpoint; of two with the same endpoint the later one counts. */
  function Wanted(desired: seq<Target>): map<Endpoint, string> {
    if desired == [] then map[]
    else
      var last := desired[|desired| - 1];
      Wanted(desired[..|desired| - 1])[last.at := last.subnet]
  }

  lemma {:induction false} WantedAreDesired(desired: seq<Target>)
    ensures Wanted(desired).Keys == set t | t in desired :: t.at
    ensures forall at :: at in Wanted(desired) ==> Target(at, Wanted(desired)[at]) in desired
  {
    if desired != [] {
      var init, last := desired[..|desired| - 1], desired[|desired| - 1];
      WantedAreDesired(init);
      assert desired == init + [last];
    }
  }

  /** Of targets with one endpoint the last one counts. */
  lemma {:induction false} WantedIsLast(desired: seq<Target>, k: nat)
    requires k < |desired| && forall j :: k < j < |desired| ==> desired[j].at != desired[k].at
    ensures desired[k].at in Wanted(desired) && Wanted(desired)[desired[k].at] == desired[k].subnet
  {
    var init := desired[..|desired| - 1];
    if k < |desired| - 1 {
      assert forall j :: 0 <= j < |init| ==> init[j] == desired[j];
      WantedIsLast(init, k);
    }
  }

  // ---------------------------------------------------------------------------
  // One call of the sync
  // ---------------------------------------------------------------------------

  /** How far the pool is from what is wanted. */
  function Gap(c: Cloud, p: Id, want: set<Endpoint>): nat {
    |Endpoints(c, p) - want| + |want - Endpoints(c, p)|
  }

  /** What calls keep: everything but members of this pool, and its wanted members with their
      identifiers. What they bring is wanted, with the wanted subnet. */
  ghost predicate Keeps(c: Cloud, c': Cloud, p: Id, want: map<Endpoint, string>) {
    && c' == c.(members := c'.members, next := c'.next)
    && c.next <= c'.next
    && (forall m :: m in c.members && (c.members[m].pool != p || c.members[m].at in want)
          ==> m in c'.members && c'.members[m] == c.members[m])
    && (forall m :: m in c'.members && m in c.members ==> c'.members[m] == c.members[m])
    && (forall m :: m in c'.members && m !in c.members ==>
          m >= c.next && c'.members[m].pool == p && c'.members[m].at in want
            && c'.members[m].subnet == want[c'.members[m].at])
  }

  lemma FewerExtra<T>(a: set<T>, want: set<T>, x: T)
    requires x in a && x !in want
    ensures |(a - {x}) - want| + 1 == |a - want| && want - (a - {x}) == want - a
  {
    assert (a - {x}) - want == (a - want) - {x};
  }

  lemma FewerMissing<T>(a: set<T>, want: set<T>, x: T)
    requires x !in a && x in want
    ensures |want - (a + {x})| + 1 == |want - a| && (a + {x}) - want == a - want
  {
    assert want - (a + {x}) == (want - a) - {x};
  }

  lemma EndpointsAfterDrop(c: Cloud, p: Id, m: Id)
    requires Distinct(c) && m in MembersOf(c, p)
    ensures Endpoints(DropMember(c, m), p) == Endpoints(c, p) - {c.members[m].at}
  {
    var c' := DropMember(c, m);
    assert MembersOf(c', p) == MembersOf(c, p) - {m};
    forall n | n in MembersOf(c, p) && n != m
      ensures c.members[n].at != c.members[m].at && c.members[n].at in Endpoints(c', p)
    {
      assert n in MembersOf(c', p) && c'.members[n] == c.members[n];
    }
    forall n | n in MembersOf(c', p)
      ensures c'.members[n].at in Endpoints(c, p)
    {
      assert n in MembersOf(c, p);
    }
  }

  lemma EndpointsAfterAdd(c: Cloud, p: Id, at: Endpoint, subnet: string)
    requires Bounded(c)
    ensures Endpoints(AddMember(c, p, at, subnet), p) == Endpoints(c, p) + {at}
  {
    var c' := AddMember(c, p, at, subnet);
    assert MembersOf(c', p) == MembersOf(c, p) + {c.next};
    assert forall m :: m in MembersOf(c, p) ==> c'.members[m] == c.members[m];
    assert c'.members[c.next].at == at;
  }

  lemma DropMemberCloses(c: Cloud, p: Id, m: Id, want: map<Endpoint, string>)
    requires Distinct(c) && m in MembersOf(c, p) && c.members[m].at !in want
    ensures Keeps(c, DropMember(c, m), p, want)
    ensures Gap(DropMember(c, m), p, want.Keys) + 1 == Gap(c, p, want.Keys)
  {
    EndpointsAfterDrop(c, p, m);
    FewerExtra(Endpoints(c, p), want.Keys, c.members[m].at);
  }

  lemma AddTargetCloses(c: Cloud, p: Id, at: Endpoint, want: map<Endpoint, string>)
    requires Bounded(c) && at !in Endpoints(c, p) && at in want
    ensures Keeps(c, AddMember(c, p, at, want[at]), p, want)
    ensures Gap(AddMember(c, p, at, want[at]), p, want.Keys) + 1 == Gap(c, p, want.Keys)
  {
    EndpointsAfterAdd(c, p, at, want[at]);
    FewerMissing(Endpoints(c, p), want.Keys, at);
  }

  /** Each call keeps the cloud intact, changes nothing but members of this pool, never loses
      a wanted member (nor its identifier), and brings the pool nearer by exactly one. */
  lemma MemberStepCloses(c: Cloud, c': Cloud, p: Id, want: map<Endpoint, string>)
    requires WF(c) && p in c.pools && MemberStep(c, c', p, want)
    ensures WF(c') && Keeps(c, c', p, want)
    ensures Gap(c', p, want.Keys) + 1 == Gap(c, p, want.Keys)
  {
    if m :| m in MembersOf(c, p) && c.members[m].at !in want && c' == DropMember(c, m) {
      DropMemberKeepsWF(c, m);
      DropMemberCloses(c, p, m, want);
    } else {
      var at :| at in want && at !in Endpoints(c, p) && c' == AddMember(c, p, at, want[at]);
      AddMemberKeepsWF(c, p, at, want[at]);
      AddTargetCloses(c, p, at, want);
    }
  }

  lemma KeepsTransitive(a: Cloud, b: Cloud, c: Cloud, p: Id, want: map<Endpoint, string>)
    requires Bounded(a) && Keeps(a, b, p, want) && Keeps(b, c, p, want)
    ensures Keeps(a, c, p, want)
  {
  }

  /** So stopping anywhere loses nothing, the number of calls made is the distance covered,
      and as distances are natural numbers, retries come to an end. */
  lemma {:induction false} MemberRunCloses(points: seq<Cloud>, from: nat, p: Id, want: map<Endpoint, string>)
    requires from < |points| && Run(SyncPool(p, want), points)
    requires WF(points[from]) && p in points[from].pools
    ensures var c := points[|points| - 1];
      && WF(c) && Keeps(points[from], c, p, want)
      && Gap(c, p, want.Keys) + (|points| - 1 - from) == Gap(points[from], p, want.Keys)
    decreases |points| - from
  {
    if from < |points| - 1 {
      assert Step(SyncPool(p, want), points[from], points[from + 1]);
      MemberStepCloses(points[from], points[from + 1], p, want);
      MemberRunCloses(points, from + 1, p, want);
      KeepsTransitive(points[from], points[from + 1], points[|points| - 1], p, want);
    }
  }

  // ---------------------------------------------------------------------------
  // The method
  // ---------------------------------------------------------------------------

  lemma KeyInjective(a: Endpoint, b: Endpoint)
    ensures Key(a) == Key(b) <==> a == b
  {
    MemberKeyInjective(a.address, a.port, b.address, b.port);
  }

  /** `m` is `want` with printed keys. */
  ghost predicate Prints(m: map<string, Target>, want: map<Endpoint, string>) {
    && (forall at :: at in want ==> Key(at) in m && m[Key(at)] == Target(at, want[at]))
    && (forall k :: k in m ==> Key(m[k].at) == k && m[k].at in want)
  }

  lemma PrintedKey(m: map<string, Target>, want: map<Endpoint, string>, at: Endpoint)
    requires Prints(m, want)
    ensures Key(at) in m <==> at in want
  {
    if Key(at) in m {
      KeyInjective(m[Key(at)].at, at);
    }
  }

  /** `m` finds each of the listed members `seen` by its printed key, and nothing else. */
  ghost predicate Finds(m: map<string, Id>, seen: map<Id, Member>) {
    && (forall x :: x in seen ==> Key(seen[x].at) in m && m[Key(seen[x].at)] == x)
    && (forall k :: k in m ==> m[k] in seen && Key(seen[m[k]].at) == k)
  }

  /** desiredMap: a later target replaces an earlier one with the same key. */
  method DesiredMap(desired: seq<Target>) returns (m: map<string, Target>)
    ensures Prints(m, Wanted(desired))
  {
    m := map[];
    for i := 0 to |desired|
      invariant Prints(m, Wanted(desired[..i]))
    {
      var d := desired[i];
      ghost var want, want' := Wanted(desired[..i]), Wanted(desired[..i + 1]);
      assert want' == want[d.at := d.subnet] by {
        assert desired[..i + 1][..i] == desired[..i];
      }
      ghost var was := m;
      m := m[Key(d.at) := d];
      forall at | at in want'
        ensures Key(at) in m && m[Key(at)] == Target(at, want'[at])
      {
        KeyInjective(at, d.at);
      }
      assert forall k :: k in m ==> k == Key(d.at) || k in was;
    }
    assert desired[..|desired|] == desired;
  }

  /** `m` finds this member by its printed key. */
  predicate FindsOne(m: map<string, Id>, seen: map<Id, Member>, x: Id) {
    x in seen && Key(seen[x].at) in m && m[Key(seen[x].at)] == x
  }

  lemma FindsOneMore(m: map<string, Id>, seen: map<Id, Member>, x: Id, y: Id)
    requires FindsOne(m, seen, x) && y in seen && seen[x].at != seen[y].at
    ensures FindsOne(m[Key(seen[y].at) := y], seen, x)
  {
    KeyInjective(seen[x].at, seen[y].at);
  }

  /** currentMap: no two listed members share a key, so nothing is overwritten. */
  method CurrentMap(listed: Listing<Member>) returns (m: map<string, Id>)
    requires Orders(listed.ids, listed.info.Keys)
    requires forall x, y | x in listed.info && y in listed.info && x != y :: listed.info[x].at != listed.info[y].at
    ensures Finds(m, listed.info)
  {
    hide Key;
    m := map[];
    for i := 0 to |listed.ids|
      invariant forall j | 0 <= j < i :: FindsOne(m, listed.info, listed.ids[j])
      invariant forall k :: k in m ==> m[k] in listed.info && Key(listed.info[m[k]].at) == k
    {
      var x := listed.ids[i];
      forall j | 0 <= j < i
        ensures FindsOne(m[Key(listed.info[x].at) := x], listed.info, listed.ids[j])
      {
        FindsOneMore(m, listed.info, listed.ids[j], x);
      }
      m := m[Key(listed.info[x].at) := x];
    }
    forall x | x in listed.info
      ensures FindsOne(m, listed.info, x)
    {
      var i :| 0 <= i < |listed.ids| && listed.ids[i] == x;
    }
  }

  /** The listed members nobody wants whose key is no longer to do. */
  function Gone(seen: map<Id, Member>, want: set<Endpoint>, todo: set<string>): set<Id> {
    set x | x in seen && seen[x].at !in want && Key(seen[x].at) !in todo
  }

  function WithoutMembers(c: Cloud, ids: set<Id>): Cloud {
    c.(members := c.members - ids)
  }

  lemma DropOneMore(c: Cloud, ids: set<Id>, m: Id)
    ensures DropMember(WithoutMembers(c, ids), m) == WithoutMembers(c, ids + {m})
    ensures m in c.members && m !in ids ==>
      var c' := WithoutMembers(c, ids);
      m in MembersOf(c', c.members[m].pool) && c'.members[m] == c.members[m]
  {
    MinusTwice(c.members, ids, {m});
  }

  lemma GoneGrows(current: map<string, Id>, seen: map<Id, Member>, want: set<Endpoint>, todo: set<string>, key: string)
    requires Finds(current, seen) && key in current && key in todo
    ensures current[key] !in Gone(seen, want, todo)
    ensures Gone(seen, want, todo - {key}) ==
      if seen[current[key]].at in want then Gone(seen, want, todo) else Gone(seen, want, todo) + {current[key]}
  {
  }

  /** What a round finds and leaves. */
  lemma RoundOfRemovals(c: Cloud, p: Id, current: map<string, Id>, seen: map<Id, Member>, want: set<Endpoint>,
                        todo: set<string>, key: string)
    requires Finds(current, seen) && key in current && key in todo
    requires seen.Keys <= MembersOf(c, p) && forall x :: x in seen ==> seen[x] == c.members[x]
    ensures current[key] in seen
    ensures var c' := WithoutMembers(c, Gone(seen, want, todo));
      && current[key] in MembersOf(c', p) && seen[current[key]] == c'.members[current[key]]
      && WithoutMembers(c, Gone(seen, want, todo - {key})) ==
           if seen[current[key]].at in want then c' else DropMember(c', current[key])
  {
    GoneGrows(current, seen, want, todo, key);
    DropOneMore(c, Gone(seen, want, todo), current[key]);
    hide Gone;
  }

  /** One round of the removals: drops the listed member with this key unless it is wanted. */
  method RemoveIfStale(api: Api, p: Id, key: string, current: map<string, Id>, desired: map<string, Target>,
                       ghost seen: map<Id, Member>, ghost want: map<Endpoint, string>)
    returns (r: Result<()>)
    requires api.Valid()
    requires api.purpose == SyncPool(p, want)
    requires Finds(current, seen) && Prints(desired, want) && key in current
    requires current[key] in MembersOf(api.c, p) && seen[current[key]] == api.c.members[current[key]]
    modifies api`c, api`trail, api`faults
    ensures api.Valid()
    ensures r.Ok? ==> api.faults == old(api.faults)
    ensures r.Ok? && seen[current[key]].at in want ==> api.c == old(api.c)
    ensures r.Ok? && seen[current[key]].at !in want ==> api.c == DropMember(old(api.c), current[key])
    ensures r.Err? ==> api.c == old(api.c) && api.faults == old(api.faults) + 1
  {
    PrintedKey(desired, want, seen[current[key]].at);
    if key in desired {
      return Ok(());
    }
    r := api.DeleteMember(p, current[key]);
  }

  /** The removals: of the listed members, those not wanted go. */
  method RemoveStale(api: Api, p: Id, current: map<string, Id>, desired: map<string, Target>,
                     ghost seen: map<Id, Member>, ghost want: map<Endpoint, string>)
    returns (r: Result<()>)
    requires api.Valid()
    requires api.purpose == SyncPool(p, want)
    requires Finds(current, seen) && Prints(desired, want)
    requires seen.Keys <= MembersOf(api.c, p) && forall x :: x in seen ==> seen[x] == api.c.members[x]
    modifies api`c, api`trail, api`faults
    ensures api.Valid()
    ensures r.Ok? ==> api.faults == old(api.faults)
    ensures r.Ok? ==> api.c == WithoutMembers(old(api.c), Gone(seen, want.Keys, {}))
    ensures r.Err? ==> api.faults == old(api.faults) + 1
  {
    assert Gone(seen, want.Keys, current.Keys) == {};
    assert api.c == WithoutMembers(api.c, {});
    hide Api.Valid, Gone, Prints, Finds, WithoutMembers, DropMember, MembersOf;
    ghost var before := api.c;
    var todo := current.Keys;
    while todo != {}
      invariant api.Valid() && api.faults == old(api.faults)
      invariant todo <= current.Keys
      invariant api.c == WithoutMembers(before, Gone(seen, want.Keys, todo))
      decreases todo
    {
      var key :| key in todo;
      RoundOfRemovals(before, p, current, seen, want.Keys, todo, key);
      var _ :- RemoveIfStale(api, p, key, current, desired, seen, want);
      todo := todo - {key};
    }
    r := Ok(());
  }

  /** The wanted endpoints not listed whose key is no longer to do. */
  function Come(current: set<string>, want: set<Endpoint>, todo: set<string>): set<Endpoint> {
    set at | at in want && Key(at) !in current && Key(at) !in todo
  }

  lemma ComeGrows(current: set<string>, want: map<Endpoint, string>, todo: set<string>, key: string, at: Endpoint)
    requires at in want && Key(at) == key && key in todo
    ensures at !in Come(current, want.Keys, todo)
    ensures Come(current, want.Keys, todo - {key}) ==
      if key in current then Come(current, want.Keys, todo) else Come(current, want.Keys, todo) + {at}
  {
    forall other | other in want && Key(other) == key
      ensures other == at
    {
      KeyInjective(other, at);
    }
  }

  lemma EndpointsCome(before: Cloud, was: Cloud, p: Id, current: set<string>, want: map<Endpoint, string>,
                      todo: set<string>, at: Endpoint)
    requires Bounded(was) && at in want && Key(at) in todo && Key(at) !in current
    requires Endpoints(was, p) == Endpoints(before, p) + Come(current, want.Keys, todo)
    ensures Endpoints(AddMember(was, p, at, want[at]), p) ==
      Endpoints(before, p) + Come(current, want.Keys, todo - {Key(at)})
  {
    ComeGrows(current, want, todo, Key(at), at);
    EndpointsAfterAdd(was, p, at, want[at]);
    UnionAssociates(Endpoints(before, p), Come(current, want.Keys, todo), {at});
  }

  /** A wanted endpoint is in the pool without having been listed. */
  ghost predicate Clash(c: Cloud, p: Id, current: set<string>, want: set<Endpoint>) {
    exists at :: at in want && at in Endpoints(c, p) && Key(at) !in current
  }

  /** The additions: of the wanted endpoints, those not listed come. */
  method AddMissing(api: Api, p: Id, current: map<string, Id>, desired: map<string, Target>,
      ghost want: map<Endpoint, string>)
    returns (r: Result<()>)
    requires api.Valid() && p in api.c.pools
    requires api.purpose == SyncPool(p, want) && Prints(desired, want)
    modifies api`c, api`trail, api`faults
    ensures api.Valid()
    ensures r.Ok? ==> api.faults == old(api.faults)
    ensures r.Ok? ==> Endpoints(api.c, p) == Endpoints(old(api.c), p) + Come(current.Keys, want.Keys, {})
    ensures r.Err? ==> old(api.faults) <= api.faults <= old(api.faults) + 1
    ensures r.Err? && api.faults == old(api.faults) ==> Clash(old(api.c), p, current.Keys, want.Keys)
  {
    assert Come(current.Keys, want.Keys, desired.Keys) == {};
    hide Api.Valid, Endpoints, Come;
    ghost var before := api.c;
    var todo := desired.Keys;
    while todo != {}
      invariant api.Valid() && api.faults == old(api.faults)
      invariant todo <= desired.Keys
      invariant api.c.pools == before.pools
      invariant Endpoints(api.c, p) == Endpoints(before, p) + Come(current.Keys, want.Keys, todo)
      decreases todo
    {
      var key :| key in todo;
      var d := desired[key];
      ComeGrows(current.Keys, want, todo, key, d.at);
      if key !in current {
        EndpointsCome(before, api.c, p, current.Keys, want, todo, d.at);
        var added := api.AddMember(p, d.at, d.subnet);
        if added.Err? {
          return Err(added.error);
        }
      }
      todo := todo - {key};
    }
    r := Ok(());
  }

  /** The endpoints of members of `p` that were not listed. */
  function Unlisted(c: Cloud, p: Id, seen: set<Id>): set<Endpoint> {
    set m | m in MembersOf(c, p) - seen :: c.members[m].at
  }

  lemma EndpointsInTheEnd(before: Cloud, p: Id, current: map<string, Id>, seen: map<Id, Member>,
      want: map<Endpoint, string>)
    requires Finds(current, seen)
    requires seen.Keys <= MembersOf(before, p) && forall x :: x in seen ==> seen[x] == before.members[x]
    ensures Endpoints(WithoutMembers(before, Gone(seen, want.Keys, {})), p) + Come(current.Keys, want.Keys, {})
         == want.Keys + Unlisted(before, p, seen.Keys)
    ensures seen.Keys == MembersOf(before, p) ==>
      !Clash(WithoutMembers(before, Gone(seen, want.Keys, {})), p, current.Keys, want.Keys)
  {
    var gone := Gone(seen, want.Keys, {});
    var mid := WithoutMembers(before, gone);
    var left := Endpoints(mid, p);
    forall at | at in left
      ensures at in want || at in Unlisted(before, p, seen.Keys)
    {
      var m :| m in MembersOf(mid, p) && mid.members[m].at == at;
      assert m in MembersOf(before, p) && m !in gone;
    }
    forall at | at in left && seen.Keys == MembersOf(before, p)
      ensures Key(at) in current
    {
      var m :| m in MembersOf(mid, p) && mid.members[m].at == at;
      assert m in MembersOf(before, p) && seen[m].at == at;
    }
    forall at | at in want && at !in Come(current.Keys, want.Keys, {})
      ensures at in left
    {
      var x := current[Key(at)];
      KeyInjective(seen[x].at, at);
      assert x in MembersOf(mid, p) && mid.members[x].at == at;
    }
    forall at | at in Unlisted(before, p, seen.Keys)
      ensures at in left
    {
      var m :| m in MembersOf(before, p) - seen.Keys && before.members[m].at == at;
      assert m in MembersOf(mid, p) && mid.members[m].at == at;
    }
  }

  /** Removals, then additions. */
  method ApplyDiff(api: Api, p: Id, current: map<string, Id>, targets: map<string, Target>,
                   ghost info: map<Id, Member>, ghost want: map<Endpoint, string>)
    returns (r: Result<()>)
    requires api.Valid() && p in api.c.pools
    requires api.purpose == SyncPool(p, want)
    requires Finds(current, info) && Prints(targets, want)
    requires info.Keys <= MembersOf(api.c, p) && forall x :: x in info ==> info[x] == api.c.members[x]
    modifies api`c, api`trail, api`faults
    ensures api.Valid()
    ensures r.Ok? ==> Endpoints(api.c, p) == want.Keys + Unlisted(old(api.c), p, info.Keys)
    ensures r.Ok? ==> api.faults == old(api.faults)
    ensures r.Err? && info.Keys == MembersOf(old(api.c), p) ==> api.faults == old(api.faults) + 1
  {
    ghost var before := api.c;
    r := RemoveStale(api, p, current, targets, info, want);
    if r.Ok? {
      EndpointsInTheEnd(before, p, current, info, want);
      assert info.Keys == MembersOf(before, p) ==> !Clash(api.c, p, current.Keys, want.Keys);
      r := AddMissing(api, p, current, targets, want);
    }
  }

  lemma ListedDiffer(api: Api, p: Id, info: map<Id, Member>)
    requires api.Valid() && info.Keys <= MembersOf(api.c, p) && forall m :: m in info ==> info[m] == api.c.members[m]
    ensures forall x, y | x in info && y in info && x != y :: info[x].at != info[y].at
  {
  }

  lemma CallsClose(api: Api, p: Id, want: map<Endpoint, string>)
    requires api.Valid() && api.purpose == SyncPool(p, want) && p in api.origin.pools
    ensures Keeps(api.origin, api.c, p, want)
    ensures Gap(api.c, p, want.Keys) + |api.trail| == Gap(api.origin, p, want.Keys)
  {
    MemberRunCloses(api.Points(), 0, p, want);
  }

  /** Brings the members of pool `p` to the desired targets. Wherever it stops, only calls
      towards the target were made. On success the listed members are exactly the wanted ones;
      of a pool too large for one page the unlisted ones remain. Without faults it succeeds. */
  method SyncMembers(api: Api, p: Id, desired: seq<Target>) returns (r: Result<()>, ghost seen: set<Id>)
    requires api.Valid() && p in api.c.pools
    modifies api
    ensures api.Valid() && api.purpose == SyncPool(p, Wanted(desired)) && api.origin == old(api.c)
    ensures Keeps(old(api.c), api.c, p, Wanted(desired))
    ensures Gap(api.c, p, Wanted(desired).Keys) + |api.trail| == Gap(old(api.c), p, Wanted(desired).Keys)
    ensures seen <= MembersOf(old(api.c), p)
    ensures r.Ok? && |MembersOf(old(api.c), p)| <= LIST_LIMIT ==> seen == MembersOf(old(api.c), p)
    ensures r.Ok? ==> Endpoints(api.c, p) == Wanted(desired).Keys + Unlisted(old(api.c), p, seen)
    ensures r.Ok? ==> api.faults == old(api.faults)
    ensures r.Err? && |MembersOf(old(api.c), p)| <= LIST_LIMIT ==> api.faults == old(api.faults) + 1
  {
    hide Api.Valid, WF, Keeps, Gap, Endpoints, Unlisted, Prints, Finds, Wanted, Orders;
    ghost var want := Wanted(desired);
    api.Begin(SyncPool(p, want));
    seen := {};
    var listed := api.ListMembers(p);
    if listed.Ok? {
      seen := listed.value.info.Keys;
      ListedDiffer(api, p, listed.value.info);
      var current := CurrentMap(listed.value);
      var targets := DesiredMap(desired);
      r := ApplyDiff(api, p, current, targets, listed.value.info, want);
    } else {
      r := Err(listed.error);
    }
    CallsClose(api, p, want);
  }
}
