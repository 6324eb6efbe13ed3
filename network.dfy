/// IPv4 addresses and socket addresses as the receiver configuration sees them.
/// The all-zero value (address 0.0.0.0, port 0) stands for "unspecified",
/// which the receiver reads as "any".
module Network {

  newtype uint8 = x: int | 0 <= x < 0x100
  newtype uint16 = x: int | 0 <= x < 0x1_0000
  newtype uint64 = x: int | 0 <= x < 0x1_0000_0000_0000_0000

  /// An IPv4 address a.b.c.d by its four octets.
  datatype IPv4Address = IPv4Address(a: uint8, b: uint8, c: uint8, d: uint8)

  const AnyAddress := IPv4Address(0, 0, 0, 0)
  const AnyPort: uint16 := 0

  /// An IPv4 address and a UDP port; either part may be unspecified.
  datatype SocketAddress = SocketAddress(address: IPv4Address, port: uint16)
  {
    predicate HasAddress() { address != AnyAddress }
    predicate HasPort() { port != AnyPort }
  }

  const AnySocketAddress := SocketAddress(AnyAddress, AnyPort)

  /// Multicast addresses are the block 224.0.0.0/4 (0xE0000000 to 0xEFFFFFFF):
  /// first octet 224 to 239.
  predicate IsMulticast(addr: IPv4Address)
  {
    224 <= addr.a < 240
  }

  /// The unspecified address is never a multicast group.
  lemma AnyAddressNotMulticast()
    ensures !IsMulticast(AnyAddress)
  {
  }
}
