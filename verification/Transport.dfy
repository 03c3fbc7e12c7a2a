/** Runtime packets on the wire: what module `Medium` passes around as a message is what a
    device reads after `serializePacket`, the datagram and `deserializePacket`. */
module Transport {
  import opened Words
  import opened Messages
  import opened Packets
  import opened SetupMessages

  /** A packet as the sending code fills it in. */
  function PacketOf(m: Message, sequence: u8): (p: Packet)
    requires |m.values| <= MAX_PAYLOAD_FLOATS
    ensures WellFormed(p)
  {
    Packet(Header(Addresses.Encode(m.source), m.group, m.kind, sequence, |m.values|, m.flags, 0),
           m.values + Zeros(MAX_PAYLOAD_WORDS - |m.values|))
  }

  /** What the receiving handlers look at. */
  function MessageOf(p: Packet): Message
    requires WellFormed(p)
  {
    Message(Addresses.Decode(p.header.source), p.header.group, p.header.kind, p.header.flags, p.payload[..p.header.count])
  }

  lemma RuntimeMessageSurvives(m: Message, sequence: u8, before: Packet)
    requires |m.values| <= MAX_PAYLOAD_FLOATS && |before.payload| == MAX_PAYLOAD_WORDS
    ensures var (ok, p) := Packets.Decode(Packets.Encode(PacketOf(m, sequence)), before);
            ok && WellFormed(p) && MessageOf(p) == m
  {
    var p := PacketOf(m, sequence);
    Packets.DecodeEncode(p, before);
    Addresses.DecodeEncode(m.source);
    assert p.payload[..p.header.count] == m.values;
    assert (m.values + before.payload[p.header.count..])[..p.header.count] == m.values;
  }
}
