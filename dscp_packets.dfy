/** The packets the DSCP marking test injects: how `sendPacket` fills in a
    packet descriptor, how it picks the dispatch path, and the sequence of
    (packet, dispatch) pairs that `sendAllPackets` emits for a list of L4
    ports. The byte-level packet builders are not part of this model; a
    packet is the record of the fields handed to them. */
module DscpPackets {
  import opened NetTypes

  /** L4 port used when the caller supplies no source port. */
  const DEFAULT_L4_SRC_PORT: uint16 := 8000
  /** L4 port used when the caller supplies no destination port. */
  const DEFAULT_L4_DST_PORT: uint16 := 8001
  /** Hop limit of every injected packet. */
  const PACKET_TTL: uint8 := 255
  /** 2620:0:1cfe:face:b00c::3 */
  const PACKET_SRC_IP: Ipv6Address := [0x2620, 0, 0x1cfe, 0xface, 0xb00c, 0, 0, 3]
  /** 2620:0:1cfe:face:b00c::4 */
  const PACKET_DST_IP: Ipv6Address := [0x2620, 0, 0x1cfe, 0xface, 0xb00c, 0, 0, 4]
  /** Index of the ECMP member whose port front-panel packets leave by. */
  const K_ECMP_WIDTH: nat := 1

  /** Which of the two packet builders made the packet. */
  datatype L4Protocol = Udp | Tcp

  /** The arguments handed to `makeUDPTxPacket` / `makeTCPTxPacket`. */
  datatype PacketDesc = PacketDesc(
    l4: L4Protocol,
    vlan: VlanId,
    srcMac: MacAddress,
    dstMac: MacAddress,
    srcIp: Ipv6Address,
    dstIp: Ipv6Address,
    l4SrcPort: uint16,
    l4DstPort: uint16,
    tos: nat,
    ttl: uint8)

  /** How a packet is sent: out of a given front-panel port (which is in MAC
      loopback, so the packet comes straight back in), or switched from the CPU. */
  datatype Dispatch = FrontPanel(port: PortId) | Switched

  /** The only protocols `sendPacket` can build a packet for; any other
      value stops the program (`CHECK(false)`). */
  predicate IsSendableProto(proto: IpProto) {
    proto == IP_PROTO_UDP || proto == IP_PROTO_TCP
  }

  /** `dscp << 2` on the `uint8_t` DSCP value (promoted to `int`, so no
      bit is lost): the DSCP value moved above the two ECN bits of the
      traffic-class byte. For every 6-bit DSCP value the result fits in a
      byte, its two ECN bits are zero and shifting it back right by two
      gives the DSCP value again. */
  function TosFromDscp(dscp: uint8): (tos: nat)
    ensures tos % 4 == 0
    ensures tos / 4 == dscp
    ensures dscp < 64 <==> tos < 0x100
  {
    dscp * 4
  }

  /** The descriptor-building half of `sendPacket`. */
  function BuildPacket(dscp: uint8, proto: IpProto, vlan: VlanId, intfMac: MacAddress,
                       l4SrcPort: Option<uint16>, l4DstPort: Option<uint16>): (p: PacketDesc)
    requires IsSendableProto(proto)
    ensures p.l4 == Udp <==> proto == IP_PROTO_UDP
    ensures p.vlan == vlan
    ensures p.srcMac == intfMac + 1 && p.dstMac == intfMac
    ensures p.srcIp == PACKET_SRC_IP && p.dstIp == PACKET_DST_IP
    ensures p.ttl == 255
    ensures l4SrcPort.Some? ==> p.l4SrcPort == l4SrcPort.value
    ensures l4SrcPort.None? ==> p.l4SrcPort == 8000
    ensures l4DstPort.Some? ==> p.l4DstPort == l4DstPort.value
    ensures l4DstPort.None? ==> p.l4DstPort == 8001
    ensures p.tos / 4 == dscp && p.tos % 4 == 0
  {
    var l4 := if proto == IP_PROTO_UDP then Udp else Tcp;
    PacketDesc(l4, vlan, intfMac + 1, intfMac, PACKET_SRC_IP, PACKET_DST_IP,
               l4SrcPort.GetOr(DEFAULT_L4_SRC_PORT), l4DstPort.GetOr(DEFAULT_L4_DST_PORT),
               TosFromDscp(dscp), PACKET_TTL)
  }

  /** A UDP packet and a TCP packet built from the same arguments differ in
      their protocol and nowhere else. */
  lemma UdpTcpDifferOnlyInProtocol(dscp: uint8, vlan: VlanId, intfMac: MacAddress,
                                   l4SrcPort: Option<uint16>, l4DstPort: Option<uint16>)
    ensures var udp := BuildPacket(dscp, IP_PROTO_UDP, vlan, intfMac, l4SrcPort, l4DstPort);
            var tcp := BuildPacket(dscp, IP_PROTO_TCP, vlan, intfMac, l4SrcPort, l4DstPort);
            udp.l4 == Udp && tcp.l4 == Tcp && udp.(l4 := Tcp) == tcp
  {
  }

  /** The dispatch half of `sendPacket`: front-panel packets leave by the
      ECMP member at index `K_ECMP_WIDTH`, the others are switched. */
  function DispatchFor(frontPanel: bool, ecmpPorts: seq<PortId>): (d: Dispatch)
    requires frontPanel ==> K_ECMP_WIDTH < |ecmpPorts|
    ensures d.FrontPanel? <==> frontPanel
    ensures d.FrontPanel? ==> d.port == ecmpPorts[1]
  {
    if frontPanel then FrontPanel(ecmpPorts[K_ECMP_WIDTH]) else Switched
  }

  /** What one call of `sendPacket` sends, and by which path. */
  function SentBy(dscp: uint8, frontPanel: bool, proto: IpProto, vlan: VlanId,
                  intfMac: MacAddress, ecmpPorts: seq<PortId>,
                  l4SrcPort: Option<uint16>, l4DstPort: Option<uint16>): (sent: (PacketDesc, Dispatch))
    requires IsSendableProto(proto)
    requires frontPanel ==> K_ECMP_WIDTH < |ecmpPorts|
    ensures sent.0.l4SrcPort == l4SrcPort.GetOr(DEFAULT_L4_SRC_PORT)
    ensures sent.0.l4DstPort == l4DstPort.GetOr(DEFAULT_L4_DST_PORT)
    ensures sent.0.tos == dscp * 4
    ensures sent.1 == Switched <==> !frontPanel
  {
    (BuildPacket(dscp, proto, vlan, intfMac, l4SrcPort, l4DstPort), DispatchFor(frontPanel, ecmpPorts))
  }

  /** The implicit conversion of a `uint32_t` port into a `std::optional<uint16_t>`
      argument: the low 16 bits are kept. */
  function NarrowToUint16(port: uint32): (p: uint16)
    ensures (port - p) % 0x1_0000 == 0
    ensures port < 0x1_0000 ==> p == port
  {
    port % 0x1_0000
  }

  /** Everything `sendAllPackets` sends, in order: for each port, a packet
      with only that source port, then one with only that destination port. */
  function FanOut(dscp: uint8, frontPanel: bool, proto: IpProto, vlan: VlanId,
                  intfMac: MacAddress, ecmpPorts: seq<PortId>, ports: seq<uint32>): (out: seq<(PacketDesc, Dispatch)>)
    requires IsSendableProto(proto)
    requires frontPanel ==> K_ECMP_WIDTH < |ecmpPorts|
    ensures |out| == 2 * |ports|
    ensures forall k :: 0 <= k < |out| ==> out[k].1 == DispatchFor(frontPanel, ecmpPorts)
    decreases |ports|
  {
    if ports == [] then []
    else
      var port := NarrowToUint16(ports[|ports| - 1]);
      FanOut(dscp, frontPanel, proto, vlan, intfMac, ecmpPorts, ports[..|ports| - 1])
      + [SentBy(dscp, frontPanel, proto, vlan, intfMac, ecmpPorts, Some(port), None),
         SentBy(dscp, frontPanel, proto, vlan, intfMac, ecmpPorts, None, Some(port))]
  }

  /** `sendAllPackets` sends two packets per port, in the order of the
      ports: entry 2i carries port i as its source port, entry 2i+1 as its
      destination port. */
  lemma {:induction false} FanOutAt(dscp: uint8, frontPanel: bool, proto: IpProto, vlan: VlanId,
                                    intfMac: MacAddress, ecmpPorts: seq<PortId>, ports: seq<uint32>)
    requires IsSendableProto(proto)
    requires frontPanel ==> K_ECMP_WIDTH < |ecmpPorts|
    ensures var out := FanOut(dscp, frontPanel, proto, vlan, intfMac, ecmpPorts, ports);
            && |out| == 2 * |ports|
            && forall i :: 0 <= i < |ports| ==>
                 && out[2 * i] == SentBy(dscp, frontPanel, proto, vlan, intfMac, ecmpPorts,
                                         Some(NarrowToUint16(ports[i])), None)
                 && out[2 * i + 1] == SentBy(dscp, frontPanel, proto, vlan, intfMac, ecmpPorts,
                                             None, Some(NarrowToUint16(ports[i])))
    decreases |ports|
  {
    if ports != [] {
      var init := ports[..|ports| - 1];
      FanOutAt(dscp, frontPanel, proto, vlan, intfMac, ecmpPorts, init);
      assert forall i :: 0 <= i < |init| ==> init[i] == ports[i];
    }
  }

  /** The fields of every packet `sendAllPackets` sends: source-port-only
      packets carry the port (low 16 bits) and the default destination 8001,
      destination-port-only packets the default source 8000 and the port;
      all share the marking, addresses, TTL and dispatch path. */
  lemma FanOutFields(dscp: uint8, frontPanel: bool, proto: IpProto, vlan: VlanId,
                     intfMac: MacAddress, ecmpPorts: seq<PortId>, ports: seq<uint32>, i: nat)
    requires IsSendableProto(proto)
    requires frontPanel ==> K_ECMP_WIDTH < |ecmpPorts|
    requires i < |ports|
    ensures |FanOut(dscp, frontPanel, proto, vlan, intfMac, ecmpPorts, ports)| == 2 * |ports|
    ensures var out := FanOut(dscp, frontPanel, proto, vlan, intfMac, ecmpPorts, ports);
            var (srcOnly, d1) := out[2 * i];
            var (dstOnly, d2) := out[2 * i + 1];
            && srcOnly.l4SrcPort == ports[i] % 0x1_0000 && srcOnly.l4DstPort == 8001
            && dstOnly.l4SrcPort == 8000 && dstOnly.l4DstPort == ports[i] % 0x1_0000
            && srcOnly.tos == dstOnly.tos == dscp * 4
            && srcOnly.(l4SrcPort := 8000, l4DstPort := 0) == dstOnly.(l4DstPort := 0)
            && (srcOnly.l4 == Udp <==> proto == IP_PROTO_UDP)
            && d1 == d2 == (if frontPanel then FrontPanel(ecmpPorts[1]) else Switched)
  {
    FanOutAt(dscp, frontPanel, proto, vlan, intfMac, ecmpPorts, ports);
  }
}
