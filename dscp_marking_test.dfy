/** The `HwDscpMarkingTest` fixture as far as its own code goes: the
    capability gate of `verifyDscpMarking` and the two send helpers, with
    every hardware send recorded in a log of (packet, dispatch) pairs. */
module DscpMarkingTest {
  import opened NetTypes
  import opened DscpPackets

  class HwDscpMarkingTest {
    /** `isSupported(HwAsic::Feature::L3_QOS)` on the switch under test. */
    const l3QosSupported: bool
    /** The VLAN of the first VLAN port of the initial configuration. */
    const vlan: VlanId
    /** The MAC address of that VLAN's interface. */
    const intfMac: MacAddress
    /** The ports of the ECMP members that `helper_` resolves, in member order. */
    const ecmpPorts: seq<PortId>
    /** Every packet sent so far, with the path it was sent by, oldest first. */
    var sent: seq<(PacketDesc, Dispatch)>

    /** `SetUp`: the fixture starts with nothing sent. */
    constructor (l3QosSupported: bool, vlan: VlanId, intfMac: MacAddress, ecmpPorts: seq<PortId>)
      ensures this.l3QosSupported == l3QosSupported && this.vlan == vlan
      ensures this.intfMac == intfMac && this.ecmpPorts == ecmpPorts
      ensures sent == []
    {
      this.l3QosSupported := l3QosSupported;
      this.vlan := vlan;
      this.intfMac := intfMac;
      this.ecmpPorts := ecmpPorts;
      sent := [];
    }

    /** `verifyDscpMarking`: stops at once when the switch has no L3 QoS;
        past the gate nothing is done yet, so no call sends a packet. The
        result says whether the gate let the test through. */
    method VerifyDscpMarking(frontPanel: bool) returns (passedGate: bool)
      ensures passedGate <==> l3QosSupported
    {
      if !l3QosSupported {
        return false;
      }
      return true;
    }

    /** `sendPacket`: builds one packet and sends it by the chosen path. */
    method SendPacket(dscp: uint8, frontPanel: bool, proto: IpProto,
                      l4SrcPort: Option<uint16>, l4DstPort: Option<uint16>)
      requires IsSendableProto(proto)
      requires frontPanel ==> K_ECMP_WIDTH < |ecmpPorts|
      modifies this`sent
      ensures sent == old(sent) + [SentBy(dscp, frontPanel, proto, vlan, intfMac, ecmpPorts, l4SrcPort, l4DstPort)]
    {
      var txPacket: PacketDesc;
      if proto == IP_PROTO_UDP {
        txPacket := BuildPacket(dscp, IP_PROTO_UDP, vlan, intfMac, l4SrcPort, l4DstPort);
      } else {
        txPacket := BuildPacket(dscp, IP_PROTO_TCP, vlan, intfMac, l4SrcPort, l4DstPort);
      }
      if frontPanel {
        var outPort := ecmpPorts[K_ECMP_WIDTH];
        sent := sent + [(txPacket, FrontPanel(outPort))];
      } else {
        sent := sent + [(txPacket, Switched)];
      }
    }

    /** `sendAllPackets`: for each port in turn, a source-port-only packet
        and then a destination-port-only packet. */
    method SendAllPackets(dscp: uint8, frontPanel: bool, proto: IpProto, ports: seq<uint32>)
      requires IsSendableProto(proto)
      requires frontPanel ==> K_ECMP_WIDTH < |ecmpPorts|
      modifies this`sent
      ensures sent == old(sent) + FanOut(dscp, frontPanel, proto, vlan, intfMac, ecmpPorts, ports)
      ensures |sent| == |old(sent)| + 2 * |ports|
    {
      for i := 0 to |ports|
        invariant sent == old(sent) + FanOut(dscp, frontPanel, proto, vlan, intfMac, ecmpPorts, ports[..i])
        invariant |sent| == |old(sent)| + 2 * i
      {
        var port := ports[i];
        SendPacket(dscp, frontPanel, proto, Some(NarrowToUint16(port)), None);
        SendPacket(dscp, frontPanel, proto, None, Some(NarrowToUint16(port)));
        assert ports[..i + 1][..i] == ports[..i];
      }
      assert ports[..|ports|] == ports;
    }
  }
}
