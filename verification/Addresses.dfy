/** Host and stream addresses as the program compares them. */
module Addresses {

  const IPV4_LIMIT: nat := 0x1_0000_0000

  type IPv4Number = n: int | 0 <= n < IPV4_LIMIT

  /** A host address is either null (no address) or an IPv4 address held as one 32-bit number. */
  datatype HostAddress = Null | IPv4(number: IPv4Number)

  const NULL_STREAM_ADDRESS := IPv4(239 * 0x100_0000 + 192 * 0x1_0000)
  const BROADCAST_ADDRESS := IPv4(0xFFFF_FFFF)
  const ZERO_ADDRESS := IPv4(0)

  /** The form in which stream addresses are stored: "no stream" always reads 239.192.0.0. */
  function Normalized(address: HostAddress): HostAddress {
    if address.Null? || address == BROADCAST_ADDRESS then NULL_STREAM_ADDRESS else address
  }

  /** The number under which a host is filed; a null address reads as zero. */
  function Number(a: HostAddress): IPv4Number {
    match a
    case Null => 0
    case IPv4(n) => n
  }
}
