/** A packet as the runtime handlers see it (`NNPacket.h`): the decoded source address,
    the multicast group it is sent to, its type, its failover flags and the first
    `payloadCount` payload floats. Module `Packets` carries it to bytes and back. */
module Messages {
  import opened Words
  import opened Addresses

  const DATA: u8 := 0
  const CONTROL: u8 := 1
  const TEARDOWN: u8 := 3

  const MAX_PAYLOAD_FLOATS: nat := 16

  const FLAG_SUBSTITUTE: u8 := 1
  const FLAG_TEARDOWN: u8 := 2

  /** The diagnostics group: reported to, never joined by a node. */
  const DIAGNOSTIC_GROUP: u8 := 254

  datatype Message = Message(source: Address, group: u8, kind: u8, flags: u8, values: seq<Float>)

  /** `flags & NN_FLAG_FAILOVER_SUBSTITUTE`. */
  predicate IsSubstitute(m: Message)
  {
    m.flags % 2 == 1
  }

  /** `flags & NN_FLAG_FAILOVER_TEARDOWN`. */
  predicate IsTeardownReport(m: Message)
  {
    m.flags / 2 % 2 == 1
  }
}
