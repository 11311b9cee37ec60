/** Names the controller derives from Kubernetes objects: ELB names, pool names and member
    keys. Strings are sequences of runes; where the source measures bytes, so does the model. */
module Naming {
  import opened Common

  const NAME_ANNOTATION := "huawei-elb.io/name"

  // ---------------------------------------------------------------------------
  // Decimal printing (the %d of fmt.Sprintf)
  // ---------------------------------------------------------------------------

  predicate IsDigit(c: char) {
    '0' <= c <= '9'
  }

  function Digit(d: nat): (c: char)
    requires d < 10
    ensures IsDigit(c) && DigitValue(c) == d
  {
    ('0' as int + d) as char
  }

  function DigitValue(c: char): (d: nat)
    requires IsDigit(c)
    ensures d < 10
  {
    c as int - '0' as int
  }

  function DecimalNat(n: nat): (s: string)
    ensures |s| > 0
    ensures forall i :: 0 <= i < |s| ==> IsDigit(s[i])
  {
    if n < 10 then [Digit(n)] else DecimalNat(n / 10) + [Digit(n % 10)]
  }

  function Decimal(n: int): string {
    if n < 0 then "-" + DecimalNat(-n) else DecimalNat(n)
  }

  /** The value of a digit string. */
  function Value(s: string): nat
    requires forall i :: 0 <= i < |s| ==> IsDigit(s[i])
  {
    if s == "" then 0 else 10 * Value(s[..|s| - 1]) + DigitValue(s[|s| - 1])
  }

  /** Printing in decimal can be undone. */
  lemma {:induction false} ValueOfDecimal(n: nat)
    ensures Value(DecimalNat(n)) == n
  {
    if n >= 10 {
      var s := DecimalNat(n);
      assert s[..|s| - 1] == DecimalNat(n / 10);
      ValueOfDecimal(n / 10);
    } else {
      assert DecimalNat(n)[..0] == "";
    }
  }

  lemma SignIsFirst(n: int)
    ensures Decimal(n) != "" && ((Decimal(n)[0] == '-') <==> n < 0)
  {
    if n >= 0 {
      assert IsDigit(DecimalNat(n)[0]);
    }
  }

  lemma DecimalInjective(m: int, n: int)
    requires Decimal(m) == Decimal(n)
    ensures m == n
  {
    SignIsFirst(m);
    SignIsFirst(n);
    if m < 0 {
      assert DecimalNat(-m) == Decimal(m)[1..] == Decimal(n)[1..] == DecimalNat(-n);
      ValueOfDecimal(-m);
      ValueOfDecimal(-n);
    } else {
      ValueOfDecimal(m);
      ValueOfDecimal(n);
    }
  }

  lemma DecimalHasNoColon(n: int)
    ensures ':' !in Decimal(n)
  {
  }

  // ---------------------------------------------------------------------------
  // Member keys and pool names
  // ---------------------------------------------------------------------------

  function MemberKey(address: string, port: int): string {
    address + ":" + Decimal(port)
  }

  /** In address ":" port the last colon is the one that was put there. */
  lemma LastColon(a: string, d: string)
    requires ':' !in d
    ensures (a + ":" + d)[|a|] == ':'
    ensures forall i :: |a| < i < |a + ":" + d| ==> (a + ":" + d)[i] != ':'
  {
  }

  lemma SameSplit(a1: string, d1: string, a2: string, d2: string)
    requires ':' !in d1 && ':' !in d2
    requires a1 + ":" + d1 == a2 + ":" + d2
    ensures a1 == a2 && d1 == d2
  {
    LastColon(a1, d1);
    LastColon(a2, d2);
    assert |a1| == |a2|;
    var s := a1 + ":" + d1;
    assert a1 == s[..|a1|] == a2;
    assert d1 == s[|a1| + 1..] == d2;
  }

  /** Two members share a key exactly when they share address and port, whatever characters
      (colons of an IPv6 address included) the address holds. */
  lemma MemberKeyInjective(address1: string, port1: int, address2: string, port2: int)
    ensures MemberKey(address1, port1) == MemberKey(address2, port2)
       <==> address1 == address2 && port1 == port2
  {
    if MemberKey(address1, port1) == MemberKey(address2, port2) {
      DecimalHasNoColon(port1);
      DecimalHasNoColon(port2);
      SameSplit(address1, Decimal(port1), address2, Decimal(port2));
      DecimalInjective(port1, port2);
    }
  }

  function PoolName(service: string, port: int): string {
    "pool-" + service + "-" + Decimal(port)
  }

  /** Within one Service a pool name determines the port it was made for. */
  lemma PoolNameInjective(service: string, port1: int, port2: int)
    ensures PoolName(service, port1) == PoolName(service, port2) <==> port1 == port2
  {
    if PoolName(service, port1) == PoolName(service, port2) {
      var prefix := "pool-" + service + "-";
      assert PoolName(service, port1) == prefix + Decimal(port1);
      assert PoolName(service, port2) == prefix + Decimal(port2);
      assert Decimal(port1) == PoolName(service, port1)[|prefix|..];
      assert Decimal(port2) == PoolName(service, port2)[|prefix|..];
      DecimalInjective(port1, port2);
    }
  }

  /** The name of the IP group holding a Service's source ranges. */
  function AclName(namespace: string, name: string): string {
    "acl-" + namespace + "-" + name
  }

  /** Group names identify the Service inside one namespace ... */
  lemma AclNameInjectiveInNamespace(namespace: string, name1: string, name2: string)
    ensures AclName(namespace, name1) == AclName(namespace, name2) <==> name1 == name2
  {
    var prefix := "acl-" + namespace + "-";
    assert AclName(namespace, name1) == prefix + name1;
    assert AclName(namespace, name2) == prefix + name2;
    assert AclName(namespace, name1)[|prefix|..] == name1;
    assert AclName(namespace, name2)[|prefix|..] == name2;
  }

  /** ... but not across namespaces: the dash that joins the parts may also occur in them. */
  lemma AclNamesCollide()
    ensures AclName("a-b", "c") == AclName("a", "b-c")
  {
    assert AclName("a-b", "c") == "acl-a-b-c";
    assert AclName("a", "b-c") == "acl-a-b-c";
  }

  lemma PrefixOfSame(p1: string, n1: string, p2: string, n2: string)
    requires p1 + n1 == p2 + n2 && |p1| <= |p2|
    ensures p1 <= p2
  {
    assert p1 == (p1 + n1)[..|p1|] == (p2 + n2)[..|p1|] == p2[..|p1|];
  }

  lemma AclNameSplit(namespace: string, name: string)
    ensures AclName(namespace, name) == "acl-" + ((namespace + "-") + name)
  {
    assert AclName(namespace, name)[4..] == (namespace + "-") + name;
  }

  /** Two namespaces have names, one in each, with the same group name, if and only if one of the
      namespaces, with a dash after it, is a prefix of the other, with a dash after it. */
  lemma AclNamesCollideIff(ns1: string, ns2: string)
    ensures (exists n1, n2 :: n1 != "" && n2 != "" && AclName(ns1, n1) == AclName(ns2, n2))
       <==> ns1 + "-" <= ns2 + "-" || ns2 + "-" <= ns1 + "-"
  {
    var p1, p2 := ns1 + "-", ns2 + "-";
    if n1, n2 :| n1 != "" && n2 != "" && AclName(ns1, n1) == AclName(ns2, n2) {
      AclNameSplit(ns1, n1);
      AclNameSplit(ns2, n2);
      assert p1 + n1 == AclName(ns1, n1)[4..] == AclName(ns2, n2)[4..] == p2 + n2;
      if |p1| <= |p2| {
        PrefixOfSame(p1, n1, p2, n2);
      } else {
        PrefixOfSame(p2, n2, p1, n1);
      }
    }
    if p1 <= p2 {
      PrefixCollides(ns1, ns2);
    } else if p2 <= p1 {
      PrefixCollides(ns2, ns1);
    }
  }

  lemma PrefixCollides(ns1: string, ns2: string)
    requires ns1 + "-" <= ns2 + "-"
    ensures exists n1, n2 :: n1 != "" && n2 != "" && AclName(ns1, n1) == AclName(ns2, n2)
    ensures exists n1, n2 :: n1 != "" && n2 != "" && AclName(ns2, n1) == AclName(ns1, n2)
  {
    var p1, p2 := ns1 + "-", ns2 + "-";
    var n1, n2 := p2[|p1|..] + "x", "x";
    AclNameSplit(ns1, n1);
    AclNameSplit(ns2, n2);
    assert p1 + n1 == p2 + n2;
    assert AclName(ns1, n1) == AclName(ns2, n2);
  }

  // ---------------------------------------------------------------------------
  // ELB names
  // ---------------------------------------------------------------------------

  /** Bytes a rune takes in UTF-8. */
  function RuneBytes(c: char): (n: nat)
    ensures 1 <= n <= 4
  {
    var p := c as int;
    if p < 0x80 then 1 else if p < 0x800 then 2 else if p < 0x1_0000 then 3 else 4
  }

  /** Go's len of a string: its bytes. */
  function ByteLen(s: string): (n: nat)
    ensures |s| <= n <= 4 * |s|
  {
    if s == "" then 0 else ByteLen(s[..|s| - 1]) + RuneBytes(s[|s| - 1])
  }

  /** As many bytes as runes exactly if all are ASCII. */
  lemma {:induction false} BytesOfRunes(s: string)
    ensures ByteLen(s) == |s| <==> forall i :: 0 <= i < |s| ==> s[i] as int < 0x80
  {
    if s != "" {
      var init := s[..|s| - 1];
      BytesOfRunes(init);
      assert forall i :: 0 <= i < |init| ==> init[i] == s[i];
    }
  }

  /** truncateStr and shortStr: at most `max` runes of `s`. */
  function Truncate(s: string, max: nat): (r: string)
    ensures |r| <= max && r <= s
    ensures |s| <= max ==> r == s
    ensures |s| > max ==> |r| == max
  {
    if |s| <= max then s else s[..max]
  }

  function UidSuffix(uid: string): string {
    Truncate(uid, 10)
  }

  function BuildELBName(params: map<string, string>, namespace: string, name: string, uid: string): string {
    var suffix := UidSuffix(uid);
    if NAME_ANNOTATION in params && params[NAME_ANNOTATION] != "" then
      Truncate(params[NAME_ANNOTATION], 64 - ByteLen(suffix) - 1) + "-" + suffix
    else
      Truncate("k8s-" + Truncate(namespace, 8) + "-" + Truncate(name, 8) + "-" + suffix, 64)
  }

  /** Every ELB name fits the cloud's limit of 64 characters and ends in the UID's prefix, so
      the truncation never cuts the part that makes the name unique. (That the custom form
      never truncates to a negative length is the type of Truncate's second argument.) */
  lemma ELBNameBounded(params: map<string, string>, namespace: string, name: string, uid: string)
    ensures var n := BuildELBName(params, namespace, name, uid);
      var suffix := "-" + UidSuffix(uid);
      |suffix| <= |n| <= 64 && n[|n| - |suffix|..] == suffix
  {
    var suffix := UidSuffix(uid);
    if NAME_ANNOTATION in params && params[NAME_ANNOTATION] != "" {
      var head := Truncate(params[NAME_ANNOTATION], 64 - ByteLen(suffix) - 1);
      var n := BuildELBName(params, namespace, name, uid);
      assert n == head + ("-" + suffix);
    } else {
      var head := "k8s-" + Truncate(namespace, 8) + "-" + Truncate(name, 8);
      var full := "k8s-" + Truncate(namespace, 8) + "-" + Truncate(name, 8) + "-" + suffix;
      assert full == head + ("-" + suffix);
      assert |full| <= 64;
    }
  }

  /** What comes before that. By default the first runes of namespace and name, in this order; with an
      annotation that one, cut as far as the bytes of the UID's prefix require. */
  lemma ELBNameShows(params: map<string, string>, namespace: string, name: string, uid: string)
    ensures var n := BuildELBName(params, namespace, name, uid);
      var custom := if NAME_ANNOTATION in params then params[NAME_ANNOTATION] else "";
      var head := n[..|n| - |UidSuffix(uid)| - 1];
      && (custom == "" ==> head == "k8s-" + Truncate(namespace, 8) + "-" + Truncate(name, 8))
      && (custom != "" ==>
            head <= custom && (head == custom || |head| + 1 + ByteLen(UidSuffix(uid)) == 64))
  {
    var suffix := UidSuffix(uid);
    var n := BuildELBName(params, namespace, name, uid);
    if NAME_ANNOTATION in params && params[NAME_ANNOTATION] != "" {
      var head := Truncate(params[NAME_ANNOTATION], 64 - ByteLen(suffix) - 1);
      assert n == head + ("-" + suffix) && n[..|head|] == head;
    } else {
      var head := "k8s-" + Truncate(namespace, 8) + "-" + Truncate(name, 8);
      var full := "k8s-" + Truncate(namespace, 8) + "-" + Truncate(name, 8) + "-" + suffix;
      assert full == head + ("-" + suffix) && |full| <= 64;
      assert n == full && n[..|head|] == head;
    }
  }

  /** The other names of a Service. */
  lemma NamesByExample()
    ensures PoolName("shop", 80) == "pool-shop-80" && MemberKey("10.0.0.1", 80) == "10.0.0.1:80"
    ensures AclName("ns", "shop") == "acl-ns-shop"
  {
    assert Decimal(80) == "80" by {
      assert DecimalNat(8) == "8";
    }
    hide Decimal;
  }

  /** The last ten characters of a name: for a UID of at least ten runes, its prefix. */
  function NameTag(name: string): string {
    if |name| <= 10 then name else name[|name| - 10..]
  }

  lemma ELBNameTag(params: map<string, string>, namespace: string, name: string, uid: string)
    requires |uid| >= 10
    ensures NameTag(BuildELBName(params, namespace, name, uid)) == uid[..10]
  {
    ELBNameBounded(params, namespace, name, uid);
    var n := BuildELBName(params, namespace, name, uid);
    var suffix := "-" + UidSuffix(uid);
    assert |suffix| == 11;
    assert n[|n| - 10..] == n[|n| - 11..][1..] == suffix[1..];
  }

  /** Equal ELB names come from equal UID prefixes, across default and custom forms and
      whatever the other inputs are. */
  lemma ELBNamesShareUid(
    params1: map<string, string>, namespace1: string, name1: string, uid1: string,
    params2: map<string, string>, namespace2: string, name2: string, uid2: string)
    requires |uid1| >= 10 && |uid2| >= 10
    requires BuildELBName(params1, namespace1, name1, uid1) == BuildELBName(params2, namespace2, name2, uid2)
    ensures uid1[..10] == uid2[..10]
  {
    ELBNameTag(params1, namespace1, name1, uid1);
    ELBNameTag(params2, namespace2, name2, uid2);
  }

  /** Below ten runes the promise fails: the dash of a longer custom name can be read as part
      of the other name's UID. */
  lemma ShortUidsCollide()
    ensures BuildELBName(map[NAME_ANNOTATION := "x-y"], "ns", "svc", "z")
         == BuildELBName(map[NAME_ANNOTATION := "x"], "ns", "svc", "y-z")
  {
    assert Truncate("x-y", 64 - ByteLen("z") - 1) == "x-y";
    assert ByteLen("y-z") <= 12;
    assert Truncate("x", 64 - ByteLen("y-z") - 1) == "x";
    assert "x-y" + "-" + "z" == "x" + "-" + "y-z";
  }
}
