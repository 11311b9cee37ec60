/** NetworkDetector (internal/huaweicloud/detector.go): a cache with a time to live in front of an
    API whose answers change over time. */
module Detector {
  import opened Common

  const TTL := 3600

  /** A cluster node as far as the detector looks; an absent subnet label reads as "". */
  datatype Node = Node(subnet: string, zone: Option<string>, machine: string)

  /** VPC, subnet and availability zones, and the known subnets by their virsubnet. */
  datatype Detected = Detected(vpc: string, subnet: string, zones: set<string>, subnets: map<string, string>)

  datatype Answer = Answer(vpc: string, subnet: string, zones: set<string>)

  /** What the API would answer at each moment; None where it would fail. */
  datatype Api = Api(
    nodes: int -> Option<seq<Node>>,
    subnet: (int, string) -> Option<string>,
    vpc: (int, string) -> Option<string>)

  function ZonesOf(nodes: seq<Node>): set<string> {
    set n | n in nodes && n.zone.Some? :: n.zone.value
  }

  function SubnetsOf(nodes: seq<Node>): set<string> {
    set n | n in nodes && n.subnet != "" :: n.subnet
  }

  /** When each part of an answer was asked for. */
  datatype Times = Times(nodes: int, subnet: int, vpc: int)

  /** The answer is made of what the API said at these times: the zones of all nodes, and subnet
      and VPC of the first node. */
  ghost predicate Attested(api: Api, a: Answer, t: Times) {
    && t.nodes <= t.subnet && t.nodes <= t.vpc
    && api.nodes(t.nodes).Some?
    && var nodes := api.nodes(t.nodes).value;
    && |nodes| > 0 && nodes[0].subnet != "" && nodes[0].machine != ""
    && a.zones == ZonesOf(nodes) && a.zones != {}
    && api.subnet(t.subnet, nodes[0].subnet) == Some(a.subnet)
    && api.vpc(t.vpc, nodes[0].machine) == Some(a.vpc)
  }

  /** At this moment the API answers every question, and the nodes it lists are labelled: some with a
      zone, the first one with all the rest. */
  ghost predicate AnswersAt(api: Api, t: int) {
    && api.nodes(t).Some?
    && var nodes := api.nodes(t).value;
    && |nodes| > 0 && nodes[0].subnet != "" && nodes[0].machine != ""
    && (exists i :: 0 <= i < |nodes| && nodes[i].zone.Some?)
    && (forall v :: api.subnet(t, v).Some?)
    && (forall m :: api.vpc(t, m).Some?)
  }

  ghost predicate Answers(api: Api, from: int, to: int) {
    forall t :: from <= t <= to ==> AnswersAt(api, t)
  }

  /** Whose zones, subnet and VPC an answer holds: the zones are those of all nodes. */
  lemma AnswerMeans(api: Api, a: Answer, t: Times)
    requires Attested(api, a, t)
    ensures api.nodes(t.nodes).Some? && api.nodes(t.nodes).value != []
    ensures var nodes := api.nodes(t.nodes).value;
      && (forall z :: z in a.zones <==> exists i :: 0 <= i < |nodes| && nodes[i].zone == Some(z))
      && Some(a.subnet) == api.subnet(t.subnet, nodes[0].subnet)
      && Some(a.vpc) == api.vpc(t.vpc, nodes[0].machine)
  {
    var nodes := api.nodes(t.nodes).value;
    forall z
      ensures z in a.zones <==> exists i :: 0 <= i < |nodes| && nodes[i].zone == Some(z)
    {
      if z in a.zones {
        var n :| n in nodes && n.zone == Some(z);
      }
    }
  }

  /** The subnets of these nodes are known, and no others. */
  ghost predicate Covers(subnets: map<string, string>, nodes: seq<Node>) {
    forall v :: v in subnets <==> v != "" && exists i :: 0 <= i < |nodes| && nodes[i].subnet == v
  }

  lemma Unanswered(api: Api, from: int, to: int, t: int)
    requires from <= t <= to && !AnswersAt(api, t)
    ensures !Answers(api, from, to)
  {
  }

  lemma Unlabelled(nodes: seq<Node>, zones: set<string>)
    requires forall z :: z in zones <==> exists i :: 0 <= i < |nodes| && nodes[i].zone == Some(z)
    ensures zones == {} ==> forall i :: 0 <= i < |nodes| ==> nodes[i].zone.None?
  {
    forall i | 0 <= i < |nodes| && nodes[i].zone.Some?
      ensures nodes[i].zone.value in zones
    {
    }
  }

  class NetworkDetector {
    const api: Api
    /** The clock, which moves on with every call to the API. */
    var now: int
    var detected: Option<Detected>
    var detectedAt: int
    /** When the cached values were asked for. */
    ghost var times: Times
    ghost var askedAt: map<string, int>

    /** Every cached value is an answer of the API: of the last detection, which lasted from
        `times.nodes` to `detectedAt`, or of a later call. */
    ghost predicate Valid()
      reads this
    {
      detected.Some? ==>
        && times.nodes <= detectedAt <= now && times.subnet <= detectedAt && times.vpc <= detectedAt
        && Attested(api, Answer(detected.value.vpc, detected.value.subnet, detected.value.zones), times)
        && askedAt.Keys == detected.value.subnets.Keys
        && forall v :: v in askedAt ==>
           Asked(v, askedAt[v], detected.value.subnets[v]) && times.nodes <= askedAt[v] <= now
    }

    ghost predicate Asked(v: string, t: int, id: string)
      reads this
    {
      api.subnet(t, v) == Some(id)
    }

    /** The cache may be used. */
    predicate Live()
      reads this
    {
      detected.Some? && now - detectedAt < TTL
    }

    function Cached(): Answer
      requires detected.Some?
      reads this
    {
      Answer(detected.value.vpc, detected.value.subnet, detected.value.zones)
    }

    constructor (api: Api, now: int)
      ensures Valid() && this.api == api && this.now == now && detected.None?
    {
      this.api := api;
      this.now := now;
      this.detected := None;
      this.detectedAt := 0;
      this.times := Times(0, 0, 0);
      this.askedAt := map[];
    }

    /** Time passes. */
    method Wait()
      requires Valid()
      modifies this`now
      ensures Valid() && old(now) <= now
    {
      var d: int := *;
      if d > 0 {
        now := now + d;
      }
    }

    method AskSubnet(v: string) returns (r: Result<string>, ghost t: int)
      requires Valid()
      modifies this`now
      ensures Valid() && old(now) == t <= now
      ensures r.Ok? ==> Asked(v, t, r.value)
      ensures r.Ok? <==> api.subnet(t, v).Some?
    {
      t := now;
      var a := api.subnet(now, v);
      r := if a.Some? then Ok(a.value) else Err(Other);
      Wait();
    }

    /** Neutron subnets of all virsubnets in a set, in any order. */
    method AskAll(vs: set<string>) returns (r: Result<map<string, string>>, ghost asked: map<string, int>)
      requires Valid()
      modifies this`now
      ensures Valid() && old(now) <= now
      ensures r.Ok? ==> r.value.Keys == asked.Keys == vs
      ensures r.Ok? ==> forall v :: v in asked ==> Asked(v, asked[v], r.value[v]) && old(now) <= asked[v] <= now
      ensures r.Err? ==> exists v, x :: v in vs && old(now) <= x <= now && api.subnet(x, v).None?
    {
      var m: map<string, string> := map[];
      asked := map[];
      var todo := vs;
      while todo != {}
        invariant Valid() && old(now) <= now
        invariant todo <= vs && m.Keys == asked.Keys == vs - todo
        invariant forall v :: v in asked ==> Asked(v, asked[v], m[v]) && old(now) <= asked[v] <= now
        decreases todo
      {
        var v :| v in todo;
        var id, t := AskSubnet(v);
        if id.Err? {
          return Err(id.error), asked;
        }
        m := m[v := id.value];
        asked := asked[v := t];
        todo := todo - {v};
      }
      r := Ok(m);
    }

    /** The calls of a detection, up to where the result would be cached. */
    method Gather() returns (r: Result<Detected>, ghost t: Times, ghost asked: map<string, int>)
      requires Valid()
      modifies this`now
      ensures Valid() && old(now) <= now
      ensures r.Ok? ==> Attested(api, Answer(r.value.vpc, r.value.subnet, r.value.zones), t)
      ensures r.Ok? ==> old(now) <= t.nodes <= now && t.subnet <= now && t.vpc <= now
      ensures r.Ok? ==> asked.Keys == r.value.subnets.Keys
      ensures r.Ok? ==> forall v :: v in asked ==> Asked(v, asked[v], r.value.subnets[v]) && t.nodes <= asked[v] <= now
      ensures r.Ok? ==> api.nodes(t.nodes).Some? && Covers(r.value.subnets, api.nodes(t.nodes).value)
      ensures Answers(api, old(now), now) ==> r.Ok?
    {
      hide Answers, ZonesOf, SubnetsOf;
      t, asked := Times(now, now, now), map[];
      ghost var from := now;
      var listed := api.nodes(now);
      Wait();
      if listed.None? || |listed.value| == 0 {
        Unanswered(api, from, now, from);
        return Err(Other), t, asked;
      }
      var nodes := listed.value;
      var virsubnets, zones := Labels(nodes);
      var subnets;
      subnets, asked := AskAll(virsubnets);
      if subnets.Err? {
        ghost var v, x :| v in virsubnets && from <= x <= now && api.subnet(x, v).None?;
        Unanswered(api, from, now, x);
        return Err(subnets.error), t, asked;
      }
      if nodes[0].subnet == "" || zones == {} || nodes[0].machine == "" {
        Unlabelled(nodes, zones);
        Unanswered(api, from, now, from);
        return Err(Other), t, asked;
      }
      assert nodes[0].subnet in virsubnets;
      t := Times(t.nodes, asked[nodes[0].subnet], now);
      var vpc := api.vpc(now, nodes[0].machine);
      Wait();
      if vpc.None? {
        Unanswered(api, from, now, t.vpc);
        return Err(Other), t, asked;
      }
      r := Ok(Detected(vpc.value, subnets.value[nodes[0].subnet], zones, subnets.value));
    }

    /** VPC, subnet and zones. A live cache answers, at once and without any call, whatever the API
        would say. Otherwise everything is asked for anew; if the API answers, it succeeds, and the
        answer is cached. Everything it returns was answered by the API less than one TTL, and the
        time its detection took, ago; a failure leaves the cache as it was. */
    method Detect() returns (r: Result<Answer>)
      requires Valid()
      modifies this
      ensures Valid() && old(now) <= now
      ensures old(detected.Some? && now - detectedAt < TTL) ==> r == Ok(old(Cached())) && unchanged(this)
      ensures !old(detected.Some? && now - detectedAt < TTL) && r.Ok? ==>
        && detected.Some? && detectedAt == now && old(now) <= times.nodes && api.nodes(times.nodes).Some?
        && Covers(detected.value.subnets, api.nodes(times.nodes).value)
      ensures Answers(api, old(now), now) ==> r.Ok?
      ensures r.Ok? ==> detected.Some? && r.value == Cached() && Live()
      ensures r.Ok? ==> Attested(api, r.value, times) && times.subnet <= now && times.vpc <= now
      ensures r.Ok? ==> now - times.nodes < TTL + (detectedAt - times.nodes)
      ensures r.Err? ==>
        detected == old(detected) && detectedAt == old(detectedAt) && times == old(times)
        && askedAt == old(askedAt)
    {
      hide Attested, Answers, Covers;
      if !Live() {
        var got, t, asked := Gather();
        if got.Err? {
          return Err(got.error);
        }
        detected, detectedAt, times, askedAt := Some(got.value), now, t, asked;
      }
      r := Ok(Answer(detected.value.vpc, detected.value.subnet, detected.value.zones));
    }

    /** The subnet of this virsubnet is in a live cache. */
    predicate Knows(v: string)
      reads this
    {
      detected.Some? && now - detectedAt < TTL && v in detected.value.subnets
    }

    /** The Neutron subnet of a virsubnet: from the cache while it lives, without any call, else from
        the API; what was asked for is in the map afterwards, if there is one. An answer that is not
        fresh was given during or after the last successful detection, which ended less than one TTL
        ago: nothing written into an expired cache is ever read. */
    method GetNeutronSubnet(v: string) returns (r: Result<string>, ghost t: int)
      requires Valid()
      modifies this
      ensures Valid() && old(now) <= now
      ensures old(Knows(v)) ==> r == Ok(old(detected).value.subnets[v]) && unchanged(this)
      ensures !old(Knows(v)) ==> t == old(now) && (r.Ok? <==> api.subnet(t, v).Some?)
      ensures r.Ok? && old(detected.Some?) ==>
        detected == Some(old(detected).value.(subnets := old(detected).value.subnets[v := r.value]))
      ensures r.Ok? ==> Asked(v, t, r.value) && t <= now
      ensures r.Ok? ==> old(now) <= t || (old(Live()) && times.nodes <= t && now - detectedAt < TTL)
      ensures r.Err? ==> detected == old(detected)
      ensures detectedAt == old(detectedAt) && times == old(times) && (detected.Some? <==> old(detected.Some?))
    {
      if Live() && v in detected.value.subnets {
        assert detected.value.subnets == detected.value.subnets[v := detected.value.subnets[v]];
        return Ok(detected.value.subnets[v]), askedAt[v];
      }
      r, t := AskSubnet(v);
      if r.Ok? && detected.Some? {
        detected := Some(detected.value.(subnets := detected.value.subnets[v := r.value]));
        askedAt := askedAt[v := t];
      }
    }
  }

  /** The loops over the node labels. */
  method Labels(nodes: seq<Node>) returns (subnets: set<string>, zones: set<string>)
    ensures subnets == SubnetsOf(nodes) && zones == ZonesOf(nodes)
    ensures forall v :: v in subnets <==> v != "" && exists i :: 0 <= i < |nodes| && nodes[i].subnet == v
    ensures forall z :: z in zones <==> exists i :: 0 <= i < |nodes| && nodes[i].zone == Some(z)
  {
    subnets, zones := {}, {};
    for i := 0 to |nodes|
      invariant subnets == SubnetsOf(nodes[..i]) && zones == ZonesOf(nodes[..i])
    {
      assert nodes[..i + 1] == nodes[..i] + [nodes[i]];
      if nodes[i].subnet != "" {
        subnets := subnets + {nodes[i].subnet};
      }
      if nodes[i].zone.Some? {
        zones := zones + {nodes[i].zone.value};
      }
    }
    assert nodes[..|nodes|] == nodes;
  }
}
