/** The setup messages of `NNSetupProtocol.h` and `setup_messages.py`: packed little-endian
    structs without padding, copied word by word into a packet's payload.

    A message is a list of field values with a list of field widths; some fields straddle
    the boundary between two words. Packing and unpacking are defined once for any layout,
    and each message names its own. */
module SetupMessages {
  import opened Words
  import opened Bytes
  import opened Messages
  import opened Packets

  // ---- Structs as lists of unsigned fields ----

  /** Field widths in bytes, in order. */
  type Layout = seq<nat>

  function Size(layout: Layout): nat
  {
    if layout == [] then 0 else layout[0] + Size(layout[1..])
  }

  predicate Fits(layout: Layout, fields: seq<nat>)
  {
    |fields| == |layout| && forall i | 0 <= i < |layout| :: fields[i] < Pow256(layout[i])
  }

  /** `struct.pack("<...")`, or the bytes of a packed struct in memory. */
  function Pack(layout: Layout, fields: seq<nat>): (bytes: Bytes)
    requires |fields| == |layout|
    ensures |bytes| == Size(layout)
  {
    if layout == [] then [] else Little(fields[0], layout[0]) + Pack(layout[1..], fields[1..])
  }

  function Unpack(layout: Layout, bytes: Bytes): (fields: seq<nat>)
    requires Size(layout) <= |bytes|
    ensures Fits(layout, fields)
  {
    if layout == [] then []
    else
      NumberBound(bytes[..layout[0]]);
      [Number(bytes[..layout[0]])] + Unpack(layout[1..], bytes[layout[0]..])
  }

  /** Every field comes back, wherever it lies in the words it travels in. */
  lemma {:induction false} UnpackPack(layout: Layout, fields: seq<nat>, rest: Bytes)
    requires Fits(layout, fields)
    ensures Unpack(layout, Pack(layout, fields) + rest) == fields
    decreases |layout|
  {
    if layout != [] {
      var head, tail := Little(fields[0], layout[0]), Pack(layout[1..], fields[1..]);
      NumberLittle(fields[0], layout[0]);
      UnpackPack(layout[1..], fields[1..], rest);
      assert Pack(layout, fields) + rest == head + (tail + rest);
      assert (head + (tail + rest))[..layout[0]] == head;
      assert (head + (tail + rest))[layout[0]..] == tail + rest;
      assert fields == [fields[0]] + fields[1..];
    }
  }

  // ---- Words in a device's memory ----

  /** `memcpy` of struct bytes into payload words, on a little-endian device. */
  function MemoryWords(bytes: Bytes): (words: seq<u32>)
    requires |bytes| % 4 == 0
    ensures |words| == |bytes| / 4
    decreases |bytes|
  {
    if bytes == [] then []
    else
      FourBytes(bytes[..4]);
      [Number(bytes[..4])] + MemoryWords(bytes[4..])
  }

  function MemoryBytes(words: seq<u32>): (bytes: Bytes)
    ensures |bytes| == 4 * |words|
  {
    if words == [] then [] else Little(words[0], 4) + MemoryBytes(words[1..])
  }

  lemma {:induction false} BytesOfWords(bytes: Bytes)
    requires |bytes| % 4 == 0
    ensures MemoryBytes(MemoryWords(bytes)) == bytes
    decreases |bytes|
  {
    if bytes != [] {
      LittleNumber(bytes[..4]);
      BytesOfWords(bytes[4..]);
      assert MemoryWords(bytes)[1..] == MemoryWords(bytes[4..]);
      assert bytes[..4] + bytes[4..] == bytes;
    }
  }

  lemma {:induction false} MemoryConcat(words: seq<u32>, more: seq<u32>)
    ensures MemoryBytes(words + more) == MemoryBytes(words) + MemoryBytes(more)
  {
    if words == [] {
      assert words + more == more;
    } else {
      hide Little;
      MemoryConcat(words[1..], more);
      var head, tail := Little(words[0], 4), MemoryBytes(words[1..]);
      assert (words + more)[1..] == words[1..] + more;
      assert MemoryBytes(words + more) == head + MemoryBytes(words[1..] + more);
      assert head + (tail + MemoryBytes(more)) == head + tail + MemoryBytes(more);
    }
  }

  function Zeros(n: nat): (words: seq<u32>)
    ensures |words| == n
  {
    seq(n, i => 0)
  }

  /** `packSetupMessage`. */
  function SetupPacket(opcode: u8, bytes: Bytes, sequence: u8): (p: Packet)
    requires |bytes| % 4 == 0 && |bytes| <= 4 * MAX_PAYLOAD_WORDS
    ensures WellFormed(p)
  {
    var n := |bytes| / 4;
    Packet(Header(0, 0, CONTROL, sequence, n, opcode, 0), MemoryWords(bytes) + Zeros(MAX_PAYLOAD_WORDS - n))
  }

  /** The struct bytes `unpackSetupMessage` copies out: it never looks at the count. */
  function Memory(p: Packet): (bytes: Bytes)
    requires |p.payload| == MAX_PAYLOAD_WORDS
    ensures |bytes| == 64
  {
    MemoryBytes(p.payload)
  }

  // ---- The messages ----

  const HELLO: u8 := 1
  const ASSIGN_ADDRESS: u8 := 2
  const TOPOLOGY_INFO: u8 := 3
  const WEIGHTS_CHUNK: u8 := 4
  const COMMIT_REQUEST: u8 := 5
  const COMMIT_REPLY: u8 := 6
  const ACK: u8 := 7
  const NACK: u8 := 8
  const START: u8 := 9
  const BACKUP_ROLE_INFO: u8 := 10
  const BACKUP_WEIGHTS_CHUNK: u8 := 11
  const INPUT_VALUE: u8 := 12

  const CHUNK_FLOATS: nat := 11
  const START_MAGIC: u32 := 0x4E4E5354
  const BAD_CHUNK_INDEX: u8 := 1

  datatype Topology = Topology(
    predecessors: u16,
    precedingSiblings: u16,
    successor: u8,
    activation: u8,
    weightCount: u8,
    transmitSlot: u8,
    predecessorLayer: u8,
    bias: Float)

  datatype Duty = Duty(
    target: u16,
    predecessors: u16,
    layerRoster: u16,
    activation: u8,
    weightCount: u8,
    resendGraceMs: u32,
    predecessorLayer: u8,
    bias: Float)

  /** `values` are all eleven, of which the first `valid` count. */
  datatype Chunk = Chunk(index: u8, total: u8, valid: u8, values: seq<Float>)

  datatype Setup =
    | Hello(hardwareId: u64)
    | AssignAddress(hardwareId: u64, address: u16)
    | TopologyInfo(hardwareId: u64, topology: Topology)
    | WeightsChunk(hardwareId: u64, chunk: Chunk)
    | CommitRequest(hardwareId: u64)
    | CommitReply(hardwareId: u64, checksum: u8, backupChecksum: u8, success: u8, hasBackup: u8)
    | Ack(hardwareId: u64, sequence: u8, opcode: u8)
    | Nack(hardwareId: u64, sequence: u8, opcode: u8, reason: u8)
    | Start(magic: u32)
    | BackupRoleInfo(hardwareId: u64, duty: Duty)
    | BackupWeightsChunk(hardwareId: u64, chunk: Chunk)
    | InputValue(hardwareId: u64, value: Float)
    | Unknown(code: u8)

  function Opcode(m: Setup): u8
  {
    match m
    case Hello(_) => HELLO
    case AssignAddress(_, _) => ASSIGN_ADDRESS
    case TopologyInfo(_, _) => TOPOLOGY_INFO
    case WeightsChunk(_, _) => WEIGHTS_CHUNK
    case CommitRequest(_) => COMMIT_REQUEST
    case CommitReply(_, _, _, _, _) => COMMIT_REPLY
    case Ack(_, _, _) => ACK
    case Nack(_, _, _, _) => NACK
    case Start(_) => START
    case BackupRoleInfo(_, _) => BACKUP_ROLE_INFO
    case BackupWeightsChunk(_, _) => BACKUP_WEIGHTS_CHUNK
    case InputValue(_, _) => INPUT_VALUE
    case Unknown(code) => code
  }

  /** The struct declarations. The last field of most is reserved; `bias` and the target's
      bias start one byte into a word. */
  function LayoutOf(opcode: u8): Layout
  {
    if opcode == HELLO then [8, 4]
    else if opcode == ASSIGN_ADDRESS then [8, 2, 2]
    else if opcode == TOPOLOGY_INFO then [8, 2, 2, 1, 1, 1, 1, 1, 4, 3]
    else if opcode == WEIGHTS_CHUNK || opcode == BACKUP_WEIGHTS_CHUNK then
      [8, 1, 1, 1, 1] + seq(CHUNK_FLOATS, i => 4)
    else if opcode == COMMIT_REQUEST then [8]
    else if opcode == COMMIT_REPLY || opcode == NACK then [8, 1, 1, 1, 1]
    else if opcode == ACK then [8, 1, 1, 2]
    else if opcode == START then [4]
    else if opcode == BACKUP_ROLE_INFO then [8, 2, 2, 2, 1, 1, 4, 1, 4, 3]
    else if opcode == INPUT_VALUE then [8, 4]
    else []
  }

  function ChunkFields(hardwareId: u64, c: Chunk): seq<nat>
  {
    [hardwareId as nat, c.index, c.total, c.valid, 0] + seq(|c.values|, i requires 0 <= i < |c.values| => c.values[i] as nat)
  }

  function FieldsOf(m: Setup): seq<nat>
  {
    match m
    case Hello(id) => [id as nat, 0]
    case AssignAddress(id, address) => [id as nat, address, 0]
    case TopologyInfo(id, t) =>
      [id as nat, t.predecessors, t.precedingSiblings, t.successor, t.activation, t.weightCount, t.transmitSlot,
       t.predecessorLayer, t.bias, 0]
    case WeightsChunk(id, c) => ChunkFields(id, c)
    case CommitRequest(id) => [id as nat]
    case CommitReply(id, checksum, backupChecksum, success, hasBackup) =>
      [id as nat, checksum, backupChecksum, success, hasBackup]
    case Ack(id, sequence, opcode) => [id as nat, sequence, opcode, 0]
    case Nack(id, sequence, opcode, reason) => [id as nat, sequence, opcode, reason, 0]
    case Start(magic) => [magic as nat]
    case BackupRoleInfo(id, d) =>
      [id as nat, d.target, d.predecessors, d.layerRoster, d.activation, d.weightCount, d.resendGraceMs,
       d.predecessorLayer, d.bias, 0]
    case BackupWeightsChunk(id, c) => ChunkFields(id, c)
    case InputValue(id, value) => [id as nat, value]
    case Unknown(_) => []
  }

  lemma Powers()
    ensures Pow256(1) == 0x100 && Pow256(2) == 0x1_0000 && Pow256(3) == 0x100_0000
    ensures Pow256(4) == 0x1_0000_0000 && Pow256(8) == 0x1_0000_0000_0000_0000
  {
    assert Pow256(1) == 256 * Pow256(0);
    assert Pow256(2) == 256 * Pow256(1) && Pow256(3) == 256 * Pow256(2);
    assert Pow256(4) == 256 * Pow256(3) && Pow256(5) == 256 * Pow256(4);
    assert Pow256(6) == 256 * Pow256(5) && Pow256(7) == 256 * Pow256(6);
  }

  function ChunkFrom(f: seq<nat>): Chunk
    requires Fits(LayoutOf(WEIGHTS_CHUNK), f)
  {
    Powers();
    Chunk(f[1], f[2], f[3], seq(CHUNK_FLOATS, i requires 0 <= i < CHUNK_FLOATS =>
      assert LayoutOf(WEIGHTS_CHUNK)[5 + i] == 4;
      f[5 + i]))
  }

  function FromFields(opcode: u8, f: seq<nat>): (m: Setup)
    requires Fits(LayoutOf(opcode), f)
    ensures Opcode(m) == opcode
  {
    Powers();
    if opcode == HELLO then Hello(f[0])
    else if opcode == ASSIGN_ADDRESS then AssignAddress(f[0], f[1])
    else if opcode == TOPOLOGY_INFO then
      TopologyInfo(f[0], Topology(f[1], f[2], f[3], f[4], f[5], f[6], f[7], f[8]))
    else if opcode == WEIGHTS_CHUNK then WeightsChunk(f[0], ChunkFrom(f))
    else if opcode == BACKUP_WEIGHTS_CHUNK then BackupWeightsChunk(f[0], ChunkFrom(f))
    else if opcode == COMMIT_REQUEST then CommitRequest(f[0])
    else if opcode == COMMIT_REPLY then CommitReply(f[0], f[1], f[2], f[3], f[4])
    else if opcode == NACK then Nack(f[0], f[1], f[2], f[3])
    else if opcode == ACK then Ack(f[0], f[1], f[2])
    else if opcode == START then Start(f[0])
    else if opcode == BACKUP_ROLE_INFO then
      BackupRoleInfo(f[0], Duty(f[1], f[2], f[3], f[4], f[5], f[6], f[7], f[8]))
    else if opcode == INPUT_VALUE then InputValue(f[0], f[1])
    else Unknown(opcode)
  }

  /** What the C++ structs and the Python packers can express. */
  predicate Expressible(m: Setup)
  {
    && ((m.WeightsChunk? || m.BackupWeightsChunk?) ==> |m.chunk.values| == CHUNK_FLOATS)
    && (m.Unknown? ==> m.code == 0 || m.code > INPUT_VALUE)
  }

  lemma ChunkComesBack(id: u64, c: Chunk)
    requires |c.values| == CHUNK_FLOATS
    ensures Fits(LayoutOf(WEIGHTS_CHUNK), ChunkFields(id, c)) && ChunkFrom(ChunkFields(id, c)) == c
  {
    Powers();
    var f := ChunkFields(id, c);
    assert |f| == 16 == |LayoutOf(WEIGHTS_CHUNK)|;
    forall i | 0 <= i < 16
      ensures f[i] < Pow256(LayoutOf(WEIGHTS_CHUNK)[i])
    {
      if i >= 5 { assert f[i] == c.values[i - 5]; }
    }
    assert ChunkFrom(f).values == c.values;
  }

  /** Fields are in range, and name the message again. */
  lemma FieldsComeBack(m: Setup)
    requires Expressible(m)
    ensures Fits(LayoutOf(Opcode(m)), FieldsOf(m)) && FromFields(Opcode(m), FieldsOf(m)) == m
  {
    Powers();
    if m.WeightsChunk? || m.BackupWeightsChunk? {
      ChunkComesBack(m.hardwareId, m.chunk);
    }
  }

  // ---- Packets carrying messages ----

  function StructBytes(m: Setup): (bytes: Bytes)
    requires Expressible(m)
    ensures |bytes| == Size(LayoutOf(Opcode(m)))
  {
    FieldsComeBack(m);
    Pack(LayoutOf(Opcode(m)), FieldsOf(m))
  }

  /** The width of field `i`, or nothing beyond the last. */
  function WidthAt(l: Layout, i: nat): nat
  {
    if i < |l| then l[i] else 0
  }

  function SizeBelow(l: Layout, n: nat): nat
  {
    if n == 0 then 0 else SizeBelow(l, n - 1) + WidthAt(l, n - 1)
  }

  lemma {:induction false} SizeSplit(l: Layout, n: nat)
    requires n <= |l|
    ensures Size(l) == SizeBelow(l, n) + Size(l[n..])
  {
    if n == 0 {
      assert l[0..] == l;
    } else {
      SizeSplit(l, n - 1);
      assert l[n - 1..][1..] == l[n..];
    }
  }

  function FourWidths(l: Layout, n: nat): nat
  {
    WidthAt(l, n) + WidthAt(l, n + 1) + WidthAt(l, n + 2) + WidthAt(l, n + 3)
  }

  lemma SizeFour(l: Layout, n: nat)
    ensures SizeBelow(l, n + 4) == SizeBelow(l, n) + FourWidths(l, n)
  {
    assert SizeBelow(l, n + 2) == SizeBelow(l, n + 1) + WidthAt(l, n + 1);
    assert SizeBelow(l, n + 3) == SizeBelow(l, n + 2) + WidthAt(l, n + 2);
  }

  lemma SizeSixteen(l: Layout)
    requires |l| <= 16
    ensures Size(l) == FourWidths(l, 0) + FourWidths(l, 4) + FourWidths(l, 8) + FourWidths(l, 12)
  {
    SizeSplit(l, |l|);
    SizeBeyond(l, 16);
    SizeFour(l, 0);
    SizeFour(l, 4);
    SizeFour(l, 8);
    SizeFour(l, 12);
  }

  lemma {:induction false} SizeBeyond(l: Layout, n: nat)
    requires |l| <= n
    ensures SizeBelow(l, n) == SizeBelow(l, |l|)
  {
    if |l| < n {
      SizeBeyond(l, n - 1);
    }
  }

  /** Whole words, at most fourteen of them, and fourteen for a weights chunk only. */
  lemma Sizes(opcode: u8)
    ensures var size := Size(LayoutOf(opcode));
            && size % 4 == 0 && size <= 56
            && (size == 56 <==> opcode == WEIGHTS_CHUNK || opcode == BACKUP_WEIGHTS_CHUNK)
  {
    SizeSixteen(LayoutOf(opcode));
    hide Size, SizeBelow;
  }

  /** The packet one side builds for a message ... */
  function PacketFor(m: Setup, sequence: u8): (p: Packet)
    requires Expressible(m)
    ensures WellFormed(p)
  {
    Sizes(Opcode(m));
    SetupPacket(Opcode(m), StructBytes(m), sequence)
  }

  /** ... and the message the other side reads from a packet. */
  function MessageIn(p: Packet): (m: Setup)
    requires |p.payload| == MAX_PAYLOAD_WORDS
    ensures Opcode(m) == p.header.flags
  {
    Sizes(p.header.flags);
    FromFields(p.header.flags, Unpack(LayoutOf(p.header.flags), Memory(p)))
  }

  /** Every message survives packing, the wire and unpacking -- the fields that straddle a
      word boundary included -- whatever the receiver's packet variable held before. */
  lemma MessageSurvives(m: Setup, sequence: u8, before: Packet)
    requires Expressible(m) && |before.payload| == MAX_PAYLOAD_WORDS
    ensures var (ok, received) := Decode(Encode(PacketFor(m, sequence)), before);
            && ok && received.header.kind == CONTROL && received.header.sequence == sequence
            && MessageIn(received) == m
  {
    var p, bytes := PacketFor(m, sequence), StructBytes(m);
    var n := p.header.count;
    var received := Decode(Encode(p), before).1;
    Sizes(Opcode(m));
    DecodeEncode(p, before);
    assert p.payload[..n] == MemoryWords(bytes);
    assert received.payload == MemoryWords(bytes) + before.payload[n..];
    MemoryConcat(MemoryWords(bytes), before.payload[n..]);
    BytesOfWords(bytes);
    FieldsComeBack(m);
    UnpackPack(LayoutOf(Opcode(m)), FieldsOf(m), MemoryBytes(before.payload[n..]));
  }

  /** Every message fits the transport's 64-byte buffer, and only weights chunks fill it. */
  lemma WireSizes(m: Setup, sequence: u8)
    requires Expressible(m)
    ensures |Encode(PacketFor(m, sequence))| <= TRANSPORT_BUFFER
    ensures |Encode(PacketFor(m, sequence))| == TRANSPORT_BUFFER <==> m.WeightsChunk? || m.BackupWeightsChunk?
  {
    Sizes(Opcode(m));
  }
}
