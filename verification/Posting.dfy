/** What an endpoint hands to its socket, against what its trace says it sent. */
module Posting {
  import opened Types
  import opened Crypto
  import opened Packets
  import opened Traces
  import opened Wire

  datatype Post = Post(to: Address, data: bytes)

  /** The longest packet the writer produces: a full payload with an eight-byte sequence. */
  const LONGEST_PACKET := 1 + 8 + MAX_PAYLOAD_BYTES + MAC_BYTES

  /** The packet on the wire. */
  function WireOf(a: Aead, e: Effect): Post
    requires e.Sent?
  {
    Post(e.to, WritePacket(a, e.packet, e.sequence, e.key, e.protocolId))
  }

  predicate OverNetwork(e: Effect) {
    e.Sent? && e.to != NoAddress
  }

  /** The wire forms of the packets the trace says were sent, in order. */
  function Wires(a: Aead, t: Trace): seq<Post> {
    match t
    case Nothing => []
    case Then(past, e) => if OverNetwork(e) then Wires(a, past) + [WireOf(a, e)] else Wires(a, past)
  }

  /** Every packet an endpoint sends fits the longest packet. */
  lemma PacketFits(a: Aead, p: Packet, sequence: uint64, key: Key, protocolId: uint64)
    requires Lawful(a) && (p.Payload? ==> |p.data| <= MAX_PAYLOAD_BYTES)
    ensures |WritePacket(a, p, sequence, key, protocolId)| <= LONGEST_PACKET
  {
    if p.Request? {
      RequestLayout(a, p, sequence, key, protocolId);
    } else {
      WrittenHeader(a, p, sequence, key, protocolId);
    }
  }

  /** Writes a packet to a buffer and gives the bytes that go to the socket. */
  method WriteOut(a: Aead, p: Packet, sequence: uint64, key: Key, protocolId: uint64) returns (data: bytes)
    requires Lawful(a) && (p.Payload? ==> |p.data| <= MAX_PAYLOAD_BYTES)
    ensures data == WritePacket(a, p, sequence, key, protocolId)
  {
    hide WritePacket, Lawful;
    var packetData := new byte[LONGEST_PACKET];
    PacketFits(a, p, sequence, key, protocolId);
    var length := WritePacketTo(a, p, packetData, sequence, key, protocolId);
    data := packetData[..length];
  }
}
