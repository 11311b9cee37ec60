/** Load balancer parameters: bandwidth sizes (internal/huaweicloud/params.go), and the snapshot of
    the parameters last applied (internal/controller/service_controller.go). */
module Params {
  import opened Common
  import opened Naming

  type Params = map<string, string>

  const PREFIX := "huawei-elb.io/"
  const SIZE := "huawei-elb.io/bandwidth-size"
  const CHARGE_MODE := "huawei-elb.io/bandwidth-charge-mode"
  const LAST_KNOWN := "huawei-elb.io/last-known-params"
  const SOURCE_RANGES := "source-ranges"

  const DEFAULT_SIZE := 10
  const MAX_SIZE := 2000

  /** Go's m[k]: the empty string if the key is missing. */
  function Get(m: Params, k: string): string {
    if k in m then m[k] else ""
  }

  // ---------------------------------------------------------------------------
  // Bandwidth
  // ---------------------------------------------------------------------------

  predicate AllDigits(s: string) {
    s != "" && forall i :: 0 <= i < |s| ==> IsDigit(s[i])
  }

  /** strconv.ParseInt in base 10, for a type of so many values either side of zero. */
  function ParseInt(s: string, half: int): Option<int> {
    if s == "" then None
    else
      var signed := s[0] == '-' || s[0] == '+';
      var digits := if signed then s[1..] else s;
      if !AllDigits(digits) then None
      else
        var n: int := if s[0] == '-' then -(Value(digits) as int) else Value(digits) as int;
        if -half <= n < half then Some(n) else None
  }

  const HALF_32 := 0x8000_0000
  const HALF_64 := 0x8000_0000_0000_0000

  /** int32(n): wrap-around. */
  function ToInt32(n: int): (r: int)
    ensures -HALF_32 <= r < HALF_32
    ensures (r - n) % 0x1_0000_0000 == 0
  {
    var m := n % 0x1_0000_0000;
    if m >= 0x8000_0000 then m - 0x1_0000_0000 else m
  }

  /** What a printed number parses to: itself, if it is in the range of the type, else nothing. */
  lemma ParsesBack(n: int, half: int)
    ensures ParseInt(Decimal(n), half) == if -half <= n < half then Some(n) else None
  {
    SignIsFirst(n);
    if n < 0 {
      ValueOfDecimal(-n);
      assert Decimal(n)[1..] == DecimalNat(-n);
    } else {
      ValueOfDecimal(n);
      assert IsDigit(DecimalNat(n)[0]);
    }
  }

  /** The size a new ELB gets: always within what the cloud accepts, and what was asked for if
      that is acceptable; 10 if nothing was asked for. */
  function ResolveBandwidthSize(p: Params): (size: int)
    ensures 1 <= size <= 2000
    ensures forall n :: 1 <= n <= 2000 && ParseInt(Get(p, SIZE), HALF_32) == Some(n) ==> size == n
    ensures SIZE !in p ==> size == 10
  {
    var n := ParseInt(Get(p, SIZE), HALF_32);
    if n.None? || n.value <= 0 then DEFAULT_SIZE
    else if n.value > MAX_SIZE then MAX_SIZE
    else n.value
  }

  /** Asked for any number: too large a one gets 2000, unless it is no number of 32 bits. */
  lemma ResolvesPrinted(p: Params, n: int)
    requires Get(p, SIZE) == Decimal(n)
    ensures ResolveBandwidthSize(p) == if n < 1 || n >= HALF_32 then 10 else if n <= 2000 then n else 2000
  {
    ParsesBack(n, HALF_32);
  }

  /** What an update sends: 0 and "" mean nothing. */
  datatype UpdateOption = UpdateOption(size: int, chargeMode: string)

  function BuildUpdateOption(current: Params, lastKnown: Params): UpdateOption {
    var n := ParseInt(Get(current, SIZE), HALF_64);
    UpdateOption(
      if Get(current, SIZE) != Get(lastKnown, SIZE) && n.Some? && n.value > 0 then ToInt32(n.value) else 0,
      if Get(current, CHARGE_MODE) != Get(lastKnown, CHARGE_MODE) then Get(current, CHARGE_MODE) else "")
  }

  lemma NarrowParse(s: string)
    ensures ParseInt(s, HALF_64).None? ==> ParseInt(s, HALF_32).None?
    ensures ParseInt(s, HALF_64).Some? ==>
      ParseInt(s, HALF_32) == if -HALF_32 <= ParseInt(s, HALF_64).value < HALF_32 then ParseInt(s, HALF_64) else None
  {
  }

  /** The update path does not clamp as the create path does: of a changed, positive size `n` it
      sends what creation would have chosen exactly if `n` is at most 2000, or so large that it
      wraps around to the default. */
  lemma UpdateMatchesCreate(current: Params, lastKnown: Params, n: int)
    requires Get(current, SIZE) != Get(lastKnown, SIZE)
    requires ParseInt(Get(current, SIZE), HALF_64) == Some(n) && n > 0
    ensures BuildUpdateOption(current, lastKnown).size == ResolveBandwidthSize(current) <==>
      n <= MAX_SIZE || (n >= HALF_32 && n % 0x1_0000_0000 == DEFAULT_SIZE)
  {
    NarrowParse(Get(current, SIZE));
  }

  /** The charge mode after an update is the one now asked for, if the ELB had the one last known; only
      taking the annotation away has no effect. */
  lemma ChargeModeFollows(current: Params, lastKnown: Params)
    ensures var sent := BuildUpdateOption(current, lastKnown).chargeMode;
      var reached := if sent == "" then Get(lastKnown, CHARGE_MODE) else sent;
      reached == Get(current, CHARGE_MODE) <==> Get(current, CHARGE_MODE) != "" || Get(lastKnown, CHARGE_MODE) == ""
  {
  }

  // ---------------------------------------------------------------------------
  // Comparing parameters
  // ---------------------------------------------------------------------------

  predicate ParamsEqual(a: Params, b: Params) {
    |a| == |b| && forall k :: k in a ==> Get(b, k) == a[k]
  }

  method CompareParams(a: Params, b: Params) returns (r: bool)
    ensures r == ParamsEqual(a, b)
  {
    if |a| != |b| {
      return false;
    }
    var todo := a.Keys;
    while todo != {}
      invariant todo <= a.Keys
      invariant forall k :: k in a && k !in todo ==> Get(b, k) == a[k]
      decreases todo
    {
      var k :| k in todo;
      if Get(b, k) != a[k] {
        return false;
      }
      todo := todo - {k};
    }
    r := true;
  }

  predicate NoEmptyValues(a: Params) {
    forall k :: k in a ==> a[k] != ""
  }

  lemma SameSizeSubset<T>(a: set<T>, b: set<T>)
    requires a <= b && |a| == |b|
    ensures a == b
  {
    assert b == a + (b - a);
    assert |b - a| == 0;
  }

  lemma EqualIfNoEmpty(a: Params, b: Params)
    requires NoEmptyValues(a)
    ensures ParamsEqual(a, b) <==> a == b
  {
    if ParamsEqual(a, b) {
      assert a.Keys <= b.Keys;
      assert |a.Keys| == |a| && |b.Keys| == |b|;
      SameSizeSubset(a.Keys, b.Keys);
    }
  }

  /** A size that has not changed is not sent, and where the comparison finds no difference there would
      be nothing to send: skipping the call misses no change. */
  lemma EqualSendNothing(current: Params, lastKnown: Params)
    ensures Get(current, SIZE) == Get(lastKnown, SIZE) ==> BuildUpdateOption(current, lastKnown).size == 0
    ensures ParamsEqual(current, lastKnown) ==> BuildUpdateOption(current, lastKnown) == UpdateOption(0, "")
  {
    if ParamsEqual(current, lastKnown) {
      assert SIZE in current ==> Get(lastKnown, SIZE) == current[SIZE];
      assert CHARGE_MODE in current ==> Get(lastKnown, CHARGE_MODE) == current[CHARGE_MODE];
    }
  }

  /** No finite set holds every string. */
  lemma FreshKey(keys: set<string>) returns (k: string)
    ensures k !in keys
  {
    k := "";
    var rest := keys;
    while rest != {}
      invariant rest <= keys
      invariant forall s :: s in keys && s !in rest ==> |s| < |k|
      decreases rest
    {
      var s :| s in rest;
      if |s| >= |k| {
        k := s + "x";
      }
      rest := rest - {s};
    }
  }

  /** The comparison is equality of maps exactly if the first one has no empty values. */
  lemma ComparesExactly(a: Params)
    ensures NoEmptyValues(a) <==> forall b :: ParamsEqual(a, b) ==> a == b
  {
    if NoEmptyValues(a) {
      forall b | ParamsEqual(a, b)
        ensures a == b
      {
        EqualIfNoEmpty(a, b);
      }
    } else {
      var k :| k in a && a[k] == "";
      var j := FreshKey(a.Keys);
      var b := (a - {k})[j := "x"];
      assert b.Keys == a.Keys - {k} + {j};
      assert |a.Keys| == |a| && |b.Keys| == |b|;
      assert ParamsEqual(a, b) && j in b && j !in a;
    }
  }

  // ---------------------------------------------------------------------------
  // The snapshot
  // ---------------------------------------------------------------------------

  /** getLBCParams: the annotations under the controller's prefix, without its own snapshot. */
  function LBCParams(annotations: Params): Params {
    map k | k in annotations && PREFIX <= k && k != LAST_KNOWN :: annotations[k]
  }

  method GetLBCParams(annotations: Params) returns (p: Params)
    ensures p == LBCParams(annotations)
    ensures forall k :: k in p <==> k in annotations && PREFIX <= k && k != LAST_KNOWN
    ensures forall k :: k in p ==> p[k] == annotations[k]
  {
    p := map[];
    var todo := annotations.Keys;
    while todo != {}
      invariant todo <= annotations.Keys
      invariant p == map k | k in annotations && k !in todo && PREFIX <= k && k != LAST_KNOWN :: annotations[k]
      decreases todo
    {
      var k :| k in todo;
      if PREFIX <= k && k != LAST_KNOWN {
        p := p[k := annotations[k]];
      }
      todo := todo - {k};
    }
  }

  /** buildCompositeParams; `ranges` is the JSON text of the source ranges. */
  method BuildCompositeParams(p: Params, ranges: string) returns (composite: Params)
    ensures composite == p[SOURCE_RANGES := ranges]
  {
    composite := map[];
    var todo := p.Keys;
    while todo != {}
      invariant todo <= p.Keys
      invariant composite == map k | k in p && k !in todo :: p[k]
      decreases todo
    {
      var k :| k in todo;
      composite := composite[k := p[k]];
      todo := todo - {k};
    }
    assert composite == p;
    composite := composite[SOURCE_RANGES := ranges];
  }

  /** The snapshot without the source ranges is the parameters it was taken of; so an unchanged
      Service never causes a second bandwidth call. */
  lemma SnapshotRoundTrip(annotations: Params, ranges: string)
    ensures LBCParams(annotations)[SOURCE_RANGES := ranges] - {SOURCE_RANGES} == LBCParams(annotations)
    ensures ParamsEqual(LBCParams(annotations), LBCParams(annotations)[SOURCE_RANGES := ranges] - {SOURCE_RANGES})
  {
    var p := LBCParams(annotations);
    assert SOURCE_RANGES[0] != PREFIX[0];
    assert SOURCE_RANGES !in p;
    assert p[SOURCE_RANGES := ranges] - {SOURCE_RANGES} == p;
  }
}
