/** The name of the ACL that marks traffic of one L4 protocol to or from one
    L4 port (`HwDscpMarkingTest::getDscpAclName`), and the parser that reads
    the protocol, direction and port back out of such a name. */
module DscpAclName {
  import opened NetTypes
  import opened Decimal

  const ACL_NAME_PREFIX: string := "dscp-mark-for-proto-"
  const PROTO_SEPARATOR: string := "-L4-"
  const PORT_SEPARATOR: string := "-port-"

  /** The logical policy an ACL name identifies. */
  datatype AclKey = AclKey(proto: IpProto, direction: string, port: uint32)

  /** `getDscpAclName(proto, direction, port)`: the prefix, the protocol
      number in decimal, "-L4-", the direction, "-port-" and the port in
      decimal. */
  function AclName(proto: IpProto, direction: string, port: uint32): (name: string)
    ensures |name| > |ACL_NAME_PREFIX| && name[..|ACL_NAME_PREFIX|] == ACL_NAME_PREFIX
  {
    ACL_NAME_PREFIX + Render(proto) + PROTO_SEPARATOR + direction + PORT_SEPARATOR + Render(port)
  }

  /** Splits `s` before its first '-' (or at its end when it has none). */
  function SplitAtDash(s: string): (r: (string, string))
    ensures r.0 + r.1 == s
    ensures '-' !in r.0
    ensures r.1 == [] || r.1[0] == '-'
  {
    if s == [] then ([], [])
    else if s[0] == '-' then ([], s)
    else
      var (head, tail) := SplitAtDash(s[1..]);
      ([s[0]] + head, tail)
  }

  lemma {:induction false} SplitAtDashOf(a: string, b: string)
    requires '-' !in a
    requires b == [] || b[0] == '-'
    ensures SplitAtDash(a + b) == (a, b)
    decreases |a|
  {
    if a != [] {
      assert a[0] in a;
      assert (a + b)[0] == a[0] != '-';
      SplitAtDashOf(a[1..], b);
      assert (a + b)[1..] == a[1..] + b;
      assert [a[0]] + a[1..] == a;
    } else {
      assert a + b == b;
    }
  }

  /** Splits `s` after its last '-' (or at its start when it has none). */
  function SplitAtLastDash(s: string): (r: (string, string))
    ensures r.0 + r.1 == s
    ensures '-' !in r.1
    ensures r.0 == [] || r.0[|r.0| - 1] == '-'
  {
    if s == [] then ([], [])
    else if s[|s| - 1] == '-' then (s, [])
    else
      var (init, last) := SplitAtLastDash(s[..|s| - 1]);
      (init, last + [s[|s| - 1]])
  }

  lemma {:induction false} SplitAtLastDashOf(a: string, b: string)
    requires a == [] || a[|a| - 1] == '-'
    requires '-' !in b
    ensures SplitAtLastDash(a + b) == (a, b)
    decreases |b|
  {
    if b == [] {
      assert a + b == a;
    } else {
      var c := b[|b| - 1];
      assert c in b;
      assert (a + b)[|a + b| - 1] == c != '-';
      assert (a + b)[..|a + b| - 1] == a + b[..|b| - 1];
      SplitAtLastDashOf(a, b[..|b| - 1]);
      assert b[..|b| - 1] + [c] == b;
    }
  }

  /** The rest of `s` after `prefix`, when `s` starts with it. */
  function StripPrefix(s: string, prefix: string): (r: Option<string>)
    ensures r.Some? <==> |prefix| <= |s| && s[..|prefix|] == prefix
    ensures r.Some? ==> s == prefix + r.value
  {
    if |prefix| <= |s| && s[..|prefix|] == prefix then Some(s[|prefix|..]) else None
  }

  lemma StripPrefixOf(prefix: string, rest: string)
    ensures StripPrefix(prefix + rest, prefix) == Some(rest)
  {
    assert (prefix + rest)[..|prefix|] == prefix;
    assert (prefix + rest)[|prefix|..] == rest;
  }

  /** The part of `s` before `suffix`, when `s` ends with it. */
  function StripSuffix(s: string, suffix: string): (r: Option<string>)
    ensures r.Some? <==> |suffix| <= |s| && s[|s| - |suffix|..] == suffix
    ensures r.Some? ==> s == r.value + suffix
  {
    if |suffix| <= |s| && s[|s| - |suffix|..] == suffix then Some(s[..|s| - |suffix|]) else None
  }

  lemma StripSuffixOf(init: string, suffix: string)
    ensures StripSuffix(init + suffix, suffix) == Some(init)
  {
    assert (init + suffix)[|init|..] == suffix;
    assert (init + suffix)[..|init|] == init;
  }

  /** The policy named by the three fields of a name, when the numbers are
      in the ranges of their C++ types. */
  function ParseFields(protoText: string, direction: string, portText: string): (r: Option<AclKey>)
    ensures r.Some? ==> r.value.direction == direction
    ensures r.Some? ==> Parse(protoText) == Some(r.value.proto as nat)
    ensures r.Some? ==> Parse(portText) == Some(r.value.port as nat)
  {
    match (Parse(protoText), Parse(portText))
    case (Some(proto), Some(port)) =>
      if proto < 0x100 && port < 0x1_0000_0000 then Some(AclKey(proto, direction, port)) else None
    case _ => None
  }

  /** Reads an ACL name back into the policy it names; `None` for any text
      that `AclName` cannot produce. The protocol is the text before the
      first '-' after the prefix and the port the text after the last '-'
      (neither decimal rendering contains one); the direction is everything
      between "-L4-" and the final "-port-", so it may contain '-' itself. */
  function ParseAclName(name: string): (r: Option<AclKey>)
    ensures r.Some? ==> |ACL_NAME_PREFIX| <= |name| && name[..|ACL_NAME_PREFIX|] == ACL_NAME_PREFIX
  {
    match StripPrefix(name, ACL_NAME_PREFIX)
    case None => None
    case Some(rest) =>
      var (protoText, afterProto) := SplitAtDash(rest);
      match StripPrefix(afterProto, PROTO_SEPARATOR)
      case None => None
      case Some(afterSeparator) => ParseDirectionAndPort(protoText, afterSeparator)
  }

  /** The second half of `ParseAclName`: `text` is what follows "-L4-". */
  function ParseDirectionAndPort(protoText: string, text: string): (r: Option<AclKey>)
    ensures r.Some? ==> Parse(protoText) == Some(r.value.proto as nat)
  {
    var (beforePort, portText) := SplitAtLastDash(text);
    match StripSuffix(beforePort, PORT_SEPARATOR)
    case None => None
    case Some(direction) => ParseFields(protoText, direction, portText)
  }

  lemma NoDashInRender(n: nat)
    ensures '-' !in Render(n)
  {
  }

  lemma ParseOfDirectionAndPort(proto: IpProto, direction: string, port: uint32)
    ensures ParseDirectionAndPort(Render(proto), direction + PORT_SEPARATOR + Render(port))
            == Some(AclKey(proto, direction, port))
  {
    var beforePort := direction + PORT_SEPARATOR;
    assert beforePort[|beforePort| - 1] == '-';
    NoDashInRender(port);
    SplitAtLastDashOf(beforePort, Render(port));
    StripSuffixOf(direction, PORT_SEPARATOR);
    ParseRender(proto);
    ParseRender(port);
  }

  /** Every name parses back to exactly the protocol, direction and port it
      was built from, whatever the direction. */
  lemma ParseOfAclName(proto: IpProto, direction: string, port: uint32)
    ensures ParseAclName(AclName(proto, direction, port)) == Some(AclKey(proto, direction, port))
  {
    var protoText := Render(proto);
    var afterSeparator := direction + PORT_SEPARATOR + Render(port);
    var afterProto := PROTO_SEPARATOR + afterSeparator;
    var rest := protoText + afterProto;
    assert AclName(proto, direction, port) == ACL_NAME_PREFIX + rest;
    StripPrefixOf(ACL_NAME_PREFIX, rest);
    NoDashInRender(proto);
    SplitAtDashOf(protoText, afterProto);
    StripPrefixOf(PROTO_SEPARATOR, afterSeparator);
    ParseOfDirectionAndPort(proto, direction, port);
  }

  /** Every name the parser accepts is the name of the policy it returns. */
  lemma AclNameOfParse(name: string)
    requires ParseAclName(name).Some?
    ensures var k := ParseAclName(name).value; AclName(k.proto, k.direction, k.port) == name
  {
    var rest := StripPrefix(name, ACL_NAME_PREFIX).value;
    var (protoText, afterProto) := SplitAtDash(rest);
    var afterSeparator := StripPrefix(afterProto, PROTO_SEPARATOR).value;
    assert ParseAclName(name) == ParseDirectionAndPort(protoText, afterSeparator);
    var (beforePort, portText) := SplitAtLastDash(afterSeparator);
    var direction := StripSuffix(beforePort, PORT_SEPARATOR).value;
    var k := ParseFields(protoText, direction, portText).value;
    assert ParseAclName(name) == Some(k);
    RenderParse(protoText);
    RenderParse(portText);
    assert Render(k.proto) == protoText && Render(k.port) == portText;
    calc {
      name;
      ACL_NAME_PREFIX + rest;
      ACL_NAME_PREFIX + protoText + afterProto;
      ACL_NAME_PREFIX + protoText + PROTO_SEPARATOR + afterSeparator;
      ACL_NAME_PREFIX + protoText + PROTO_SEPARATOR + beforePort + portText;
      ACL_NAME_PREFIX + protoText + PROTO_SEPARATOR + direction + PORT_SEPARATOR + portText;
    }
  }

  /** Two policies share a name only when they are the same policy. */
  lemma AclNameInjective(p1: IpProto, d1: string, port1: uint32, p2: IpProto, d2: string, port2: uint32)
    ensures AclName(p1, d1, port1) == AclName(p2, d2, port2) <==> (p1, d1, port1) == (p2, d2, port2)
  {
    ParseOfAclName(p1, d1, port1);
    ParseOfAclName(p2, d2, port2);
  }

  /** The name of the rule for UDP traffic to L4 port 443. */
  lemma AclNameUdp443()
    ensures AclName(IP_PROTO_UDP, "dst", 443) == "dscp-mark-for-proto-17-L4-dst-port-443"
  {
  }
}
