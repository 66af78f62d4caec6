/** Value types shared by the DSCP marking test model: optional values,
    the fixed-width unsigned integers of the C++ signatures, IP protocol
    numbers and IPv6 addresses. */
module NetTypes {

  /** `std::optional<T>`: a value that is present or absent. */
  datatype Option<+T> = None | Some(value: T) {
    /** `opt.has_value() ? opt.value() : default` */
    function GetOr(default: T): (r: T)
      ensures Some? ==> r == value
      ensures None? ==> r == default
    {
      match this
      case Some(v) => v
      case None => default
    }
  }

  type uint8 = x: int | 0 <= x < 0x100
  type uint16 = x: int | 0 <= x < 0x1_0000
  type uint32 = x: int | 0 <= x < 0x1_0000_0000

  /** `IP_PROTO`, an 8-bit enumeration of IP protocol numbers. */
  type IpProto = uint8

  /** The protocol numbers IANA assigns to TCP and UDP. */
  const IP_PROTO_TCP: IpProto := 6
  const IP_PROTO_UDP: IpProto := 17

  /** An IPv6 address as its eight 16-bit groups, most significant first. */
  type Ipv6Address = s: seq<uint16> | |s| == 8 witness [0, 0, 0, 0, 0, 0, 0, 0]

  /** A VLAN identifier. */
  type VlanId = uint16

  /** A physical port identifier (`PortID`). */
  type PortId = nat

  /** A MAC address as the natural number of its 48 bits in network order. */
  type MacAddress = nat
}
