# DSCP marking test: ACL names and injected packets

This project models the deterministic part of the FBOSS hardware test
`HwDscpMarkingTest` (`fboss/agent/hw/test/dataplane_tests/HwDscpMarkingTests.cpp`).
The test checks that the switch marks traffic to and from chosen L4 ports
with a DSCP value and queues it on the right QoS queue. The test's own code
does four things, and those are what the model covers:

- **ACL naming.** `getDscpAclName` names the marking ACL for a
  (protocol, direction, L4 port) triple. `DscpAclName.AclName` models it.
  `DscpAclName.ParseAclName` is its inverse. Two names are equal exactly
  when their triples are, for every direction.
- **Packet descriptors.** `sendPacket` builds a UDP or TCP packet.
  `DscpPackets.BuildPacket` models this:
  - an absent L4 port defaults to 8000 (source) or 8001 (destination);
  - `dscp << 2` goes into the traffic-class byte;
  - the TTL is 255;
  - the IPv6 addresses are fixed;
  - the source MAC is the interface MAC plus one (see "Left out" for what
    this reading of `get(intfMac.u64NBO() + 1)` assumes).

  `sendPacket` then sends the packet out of ECMP member `kEcmpWidth` (the
  front-panel path) or through the switched CPU path
  (`DscpPackets.DispatchFor`).
- **Fan-out.** `sendAllPackets` sends two packets for each port, in order.
  The first has only that source port and the second only that destination
  port. `DscpPackets.FanOut` specifies the sequence. The method
  `HwDscpMarkingTest.SendAllPackets` appends it to the fixture's log of sent
  packets.
- **Capability gate.** `verifyDscpMarking` returns at once when the switch
  lacks L3 QoS. Past the gate its body is still empty, so it sends nothing
  in either case.

Modules:
- `NetTypes`: optional values, fixed-width integers, IP protocol numbers,
  IPv6 addresses.
- `Decimal`: decimal rendering of unsigned integers and its parser.
- `DscpAclName`: the ACL name and its parser.
- `DscpPackets`: packet descriptors, the dispatch choice and the fan-out.
- `DscpMarkingTest`: the fixture class, whose send log is a field that its
  methods extend.

Sending is recorded rather than performed. Each hardware send becomes a
(packet descriptor, dispatch) entry in the `sent` log. The packet builders
`makeUDPTxPacket` and `makeTCPTxPacket` are represented by the record of
the arguments they receive.

The ACL name prefix is the code's own, `dscp-mark-for-proto-`.

## Model

| member | source | states |
|---|---|---|
| `DscpAclName.AclName` | fboss/agent/hw/test/dataplane_tests/HwDscpMarkingTests.cpp:48-57 | The name always starts with the fixed prefix `dscp-mark-for-proto-`. The body is the concatenation prefix, decimal protocol, `-L4-`, direction, `-port-`, decimal port. |
| `DscpAclName.AclNameUdp443` | fboss/agent/hw/test/dataplane_tests/HwDscpMarkingTests.cpp:50-56 | The rule for UDP (protocol 17), direction `dst`, port 443 is named exactly `dscp-mark-for-proto-17-L4-dst-port-443`. |
| `DscpAclName.ParseOfAclName` | fboss/agent/hw/test/dataplane_tests/HwDscpMarkingTests.cpp:50-56 | For every protocol, direction and port, parsing a name recovers exactly the triple it was built from. This holds even when the direction contains '-'. |
| `DscpAclName.AclNameOfParse` | fboss/agent/hw/test/dataplane_tests/HwDscpMarkingTests.cpp:50-56 | Every text the parser accepts is exactly the ACL name of the triple it returns, so no other text is taken for a rule name. |
| `DscpAclName.AclNameInjective` | fboss/agent/hw/test/dataplane_tests/HwDscpMarkingTests.cpp:50-56 | For all directions, two names are equal if and only if their (protocol, direction, port) triples are equal. No two policies collide on a name. |
| `DscpAclName.SplitAtDash` | fboss/agent/hw/test/dataplane_tests/HwDscpMarkingTests.cpp:53-55 | Splitting before the first '-' gives a dash-free head and a tail that is empty or starts with '-', and the two concatenate to the input. This is how the decimal protocol is separated from the `-L4-` that follows it. |
| `DscpAclName.SplitAtLastDash` | fboss/agent/hw/test/dataplane_tests/HwDscpMarkingTests.cpp:55-56 | Splitting after the last '-' gives a tail with no '-' and a head that is empty or ends in '-', and the two concatenate to the input. This is how the decimal port after `-port-` is separated from a direction that may itself contain '-'. |
| `DscpAclName.SplitAtLastDashOf` | fboss/agent/hw/test/dataplane_tests/HwDscpMarkingTests.cpp:55-56 | A head ending in '-' followed by a dash-free field splits exactly into that head and that field. |
| `DscpAclName.SplitAtDashOf` | fboss/agent/hw/test/dataplane_tests/HwDscpMarkingTests.cpp:53-55 | A dash-free field followed by a delimiter is split off exactly. |
| `Decimal.Render` | fboss/agent/hw/test/dataplane_tests/HwDscpMarkingTests.cpp:52-56 | The decimal text of a protocol number or port is non-empty and all digits. It has no leading zero except for 0 itself, and it is one digit long exactly when the number is below 10. |
| `Decimal.Parse` | fboss/agent/hw/test/dataplane_tests/HwDscpMarkingTests.cpp:52-56 | A number is read back exactly from canonical decimal text: non-empty, all digits, no leading zero. |
| `Decimal.ValueOfRender` | fboss/agent/hw/test/dataplane_tests/HwDscpMarkingTests.cpp:52-56 | The digits rendered for n denote n. |
| `Decimal.RenderOfValue` | fboss/agent/hw/test/dataplane_tests/HwDscpMarkingTests.cpp:52-56 | Canonical digit text is the rendering of the number it denotes. |
| `Decimal.ValueLeadingNonZero` | fboss/agent/hw/test/dataplane_tests/HwDscpMarkingTests.cpp:52-56 | Digit text that does not start with '0' denotes at least 1, and at least 10 when it has two or more digits. |
| `Decimal.ParseRender` | fboss/agent/hw/test/dataplane_tests/HwDscpMarkingTests.cpp:52-56 | Parsing a rendered number gives that number back. |
| `Decimal.RenderParse` | fboss/agent/hw/test/dataplane_tests/HwDscpMarkingTests.cpp:52-56 | Rendering a parsed number gives the parsed text back. |
| `Decimal.RenderInjective` | fboss/agent/hw/test/dataplane_tests/HwDscpMarkingTests.cpp:52-56 | Two numbers have equal decimal renderings if and only if they are equal. |
| `NetTypes.Option.GetOr` | fboss/agent/hw/test/dataplane_tests/HwDscpMarkingTests.cpp:100-101 | `has_value() ? value() : default` gives the supplied value when one is present (including 0) and the default otherwise. |
| `DscpPackets.TosFromDscp` | fboss/agent/hw/test/dataplane_tests/HwDscpMarkingTests.cpp:102 | For `dscp << 2`, the two ECN bits are zero, shifting right by two returns the DSCP value, and the result fits in a byte exactly when the DSCP value is below 64. |
| `DscpPackets.BuildPacket` | fboss/agent/hw/test/dataplane_tests/HwDscpMarkingTests.cpp:86-120 | The packet is UDP exactly for IP_PROTO_UDP and TCP otherwise; only those two protocols are accepted, and any other is a `CHECK` failure. It carries the given VLAN, destination MAC = interface MAC and source MAC = interface MAC + 1. The source and destination IPs are the fixed `…::3` and `…::4`, and the TTL is 255. A supplied L4 port is used unchanged; an absent source port becomes 8000 and an absent destination port 8001. The traffic-class byte has DSCP above zero ECN bits. |
| `DscpPackets.UdpTcpDifferOnlyInProtocol` | fboss/agent/hw/test/dataplane_tests/HwDscpMarkingTests.cpp:92-117 | The UDP and TCP packets built from the same arguments are identical except for the protocol. |
| `DscpPackets.DispatchFor` | fboss/agent/hw/test/dataplane_tests/HwDscpMarkingTests.cpp:125-135 | Dispatch is front-panel exactly when `frontPanel` is set, and then uses the port of ECMP member 1 (`kEcmpWidth`). Otherwise the packet is switched. |
| `DscpPackets.NarrowToUint16` | fboss/agent/hw/test/dataplane_tests/HwDscpMarkingTests.cpp:64-77 | The `uint32_t` port passed as `std::optional<uint16_t>` keeps its value modulo 2^16, and keeps its exact value when below 65536. |
| `DscpPackets.SentBy` | fboss/agent/hw/test/dataplane_tests/HwDscpMarkingTests.cpp:81-133 | Defines the (packet, dispatch) pair one `sendPacket` call sends. Its L4 ports are the supplied ones or the defaults 8000/8001, its TOS is 4·dscp, and it is switched exactly when `frontPanel` is false. |
| `DscpPackets.FanOut` | fboss/agent/hw/test/dataplane_tests/HwDscpMarkingTests.cpp:60-79 | Defines the sequence of sends `sendAllPackets` emits. It has exactly 2·|ports| entries, and every entry uses the same dispatch path. |
| `DscpPackets.FanOutAt` | fboss/agent/hw/test/dataplane_tests/HwDscpMarkingTests.cpp:65-78 | For n ports, `sendAllPackets` emits exactly 2n sends, in port order. Send 2i is the source-port-only packet for port i and send 2i+1 is the destination-port-only packet for port i. |
| `DscpPackets.FanOutFields` | fboss/agent/hw/test/dataplane_tests/HwDscpMarkingTests.cpp:65-78 | Send 2i has L4 source = ports[i] mod 2^16 and destination 8001. Send 2i+1 has source 8000 and destination = ports[i] mod 2^16. Both have TOS = 4·dscp, the requested protocol and the same dispatch path, and they differ only in their L4 ports. |
| `DscpMarkingTest.HwDscpMarkingTest.constructor` | fboss/agent/hw/test/dataplane_tests/HwDscpMarkingTests.cpp:23-27 | The fixture starts with its capability, interface and ECMP members fixed and nothing sent. |
| `DscpMarkingTest.HwDscpMarkingTest.VerifyDscpMarking` | fboss/agent/hw/test/dataplane_tests/HwDscpMarkingTests.cpp:34-40 | The gate passes exactly when L3 QoS is supported. Since the method modifies nothing, no packet is sent either way. |
| `DscpMarkingTest.HwDscpMarkingTest.SendPacket` | fboss/agent/hw/test/dataplane_tests/HwDscpMarkingTests.cpp:81-133 | The log grows by exactly one entry: the packet `BuildPacket` describes, with the dispatch `DispatchFor` chooses. |
| `DscpMarkingTest.HwDscpMarkingTest.SendAllPackets` | fboss/agent/hw/test/dataplane_tests/HwDscpMarkingTests.cpp:60-79 | The log grows by exactly the `FanOut` sequence for the ports, which is 2·|ports| entries. |

## Left out

- Hardware I/O is not modelled. `sendPacketOutOfPortSync` and `sendPacketSwitchedSync` appear only as a `Dispatch` value in the send log. The bytes that `makeUDPTxPacket` and `makeTCPTxPacket` build are not part of this model.
- The fixture plumbing is not modelled: `initialConfig`, `onePortPerVlanConfig`, the `HwLinkStateDependentTest` base class and its link-state wait. The constructor takes as parameters the VLAN, the interface MAC (`getInterfaceMac`), the L3 QoS capability (`isSupported`) and the ECMP member ports (`EcmpSetupAnyNPorts6`, which is not part of this model).
- `kIcpDscp` is left out. It reads `kOlympicQueueToDscp`, which is not part of this model.
- The marking and queue verification after the capability gate is not modelled. The source leaves it as a TODO, so there is no observed queue, rule installation or rule-conflict handling to model.
- DSCP TOS narrowing: `DscpPackets.TosFromDscp` gives the full value `dscp * 4`. How the packet builder narrows that value into its traffic-class byte is not modelled, because the builder's signature is not part of this model. The byte-layout facts are stated for DSCP values below 64.
- `DscpPackets.BuildPacket` takes `MacAddressGenerator().get(intfMac.u64NBO() + 1)` to mean the interface MAC plus one. The byte order of `u64NBO`, the conversion done by `get`, and any overflow past 48 bits are not modelled, because `MacAddressGenerator` and folly's `MacAddress` are not part of this model.
- `DscpPackets.DispatchFor` requires at least two ECMP members on the front-panel path. What `ecmpPortDescriptorAt` does with an index out of range is not part of this model.
- The numeric values of `IP_PROTO` come from a header that is not part of this model. The model uses the IANA numbers, TCP = 6 and UDP = 17.
- `fboss/platform/data_corral_service/darwin/DarwinRackmonModule.h` is not modelled. It only declares `refresh`, `init` and `getName` for a device module, with no bodies.
