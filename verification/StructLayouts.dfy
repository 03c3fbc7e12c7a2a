/** The packed structs of `NNSetupProtocol.h`, byte by byte, and the opcode each of them travels
    under.

    Module `SetupMessages` packs every message by one list of widths, which laptop and device
    share there; here the offsets are the ones the C++ declarations give, so that a field out of
    place on both sides would be noticed. Little-endian bytes are those of module `Bytes`. */
module StructLayouts {
  import opened Words
  import opened Bytes
  import opened SetupMessages

  // ---- Where a field lies in its struct ----

  lemma {:induction false} SizeBelowTail(l: Layout, k: nat)
    requires 0 < k <= |l|
    ensures SizeBelow(l, k) == l[0] + SizeBelow(l[1..], k - 1)
  {
    if k > 1 {
      SizeBelowTail(l, k - 1);
    } else {
      assert SizeBelow(l, 1) == SizeBelow(l, 0) + WidthAt(l, 0);
    }
  }

  lemma {:induction false} FieldAt(layout: Layout, fields: seq<nat>, k: nat)
    requires |fields| == |layout| && k < |layout|
    ensures var at, bytes := SizeBelow(layout, k), Pack(layout, fields);
            at + layout[k] <= |bytes| && bytes[at..at + layout[k]] == Little(fields[k], layout[k])
    decreases k
  {
    hide Little;
    var bytes, tail := Pack(layout, fields), Pack(layout[1..], fields[1..]);
    assert bytes == Little(fields[0], layout[0]) + tail;
    if k > 0 {
      FieldAt(layout[1..], fields[1..], k - 1);
      SizeBelowTail(layout, k);
      var at := SizeBelow(layout[1..], k - 1);
      assert bytes[layout[0] + at..layout[0] + at + layout[k]] == tail[at..at + layout[k]];
    }
  }

  /** Field `k` of a message. */
  lemma Lies(m: Setup, k: nat, at: nat)
    requires Expressible(m) && k < |LayoutOf(Opcode(m))| && at == SizeBelow(LayoutOf(Opcode(m)), k)
    ensures |FieldsOf(m)| == |LayoutOf(Opcode(m))|
    ensures var width, bytes := LayoutOf(Opcode(m))[k], StructBytes(m);
            at + width <= |bytes| && bytes[at..at + width] == Little(FieldsOf(m)[k], width)
  {
    hide Pack, Little, SizeBelow, LayoutOf, FieldsOf, FromFields, Opcode;
    FieldsComeBack(m);
    FieldAt(LayoutOf(Opcode(m)), FieldsOf(m), k);
  }

  lemma Below(l: Layout, k: nat, at: nat)
    requires k < |l| && SizeBelow(l, k) == at
    ensures SizeBelow(l, k + 1) == at + l[k]
  {
  }

  /** The packet around a struct: CONTROL, with the opcode in the flags and the struct at the
      front of the payload's memory. */
  lemma SetupHeader(m: Setup, sequence: u8)
    requires Expressible(m)
    ensures var h := PacketFor(m, sequence).header;
            && h.source == 0 && h.group == 0 && h.kind == 1 && h.sequence == sequence && h.flags == Opcode(m)
            && 4 * h.count as nat == |StructBytes(m)|
    ensures StructBytes(m) <= Memory(PacketFor(m, sequence))
  {
    hide StructBytes;
    Sizes(Opcode(m));
    var bytes := StructBytes(m);
    BytesOfWords(bytes);
    MemoryConcat(MemoryWords(bytes), Zeros(16 - |bytes| / 4));
  }

  /** Every message starts with the device it is for, in eight bytes, except START. */
  lemma IdLies(m: Setup)
    requires Expressible(m) && !m.Start? && !m.Unknown?
    ensures |StructBytes(m)| >= 8 && StructBytes(m)[0..8] == Little(m.hardwareId, 8)
  {
    assert LayoutOf(Opcode(m))[0] == 8 && FieldsOf(m)[0] == m.hardwareId as nat;
    Lies(m, 0, 0);
  }

  lemma LittleOne(b: u8)
    ensures Little(b, 1) == [b]
  {
    assert Little(b, 1) == [b % 256] + Little(b / 256, 0);
  }

  lemma LittleZero(k: nat)
    ensures Little(0, k) == seq(k, i => 0)
  {
    if k > 0 { LittleZero(k - 1); }
  }

  /** A field of one byte. */
  lemma ByteLies(m: Setup, k: nat, at: nat)
    requires Expressible(m) && k < |LayoutOf(Opcode(m))| && at == SizeBelow(LayoutOf(Opcode(m)), k)
    requires LayoutOf(Opcode(m))[k] == 1
    ensures |FieldsOf(m)| == |LayoutOf(Opcode(m))| && at < |StructBytes(m)| && StructBytes(m)[at] as nat == FieldsOf(m)[k]
  {
    hide Pack, SizeBelow, LayoutOf, FieldsOf, FromFields, Opcode, StructBytes;
    Lies(m, k, at);
    FieldsComeBack(m);
    Powers();
    LittleOne(FieldsOf(m)[k]);
    assert StructBytes(m)[at] == StructBytes(m)[at..at + 1][0];
  }

  /** `NNAssignAddressMsg`, `NNStartMsg` and `NNInputValueMsg`, under opcodes 2, 9 and 12; HELLO and
      COMMIT_REQUEST, under 1 and 5, carry the device's id alone. */
  lemma ShortStructs(id: u64, address: u16, magic: u32, value: Float)
    ensures Opcode(AssignAddress(id, address)) == 0x02 && |StructBytes(AssignAddress(id, address))| == 12
    ensures StructBytes(AssignAddress(id, address))[8..10] == Little(address, 2)
    ensures Opcode(Start(magic)) == 0x09 && StructBytes(Start(magic)) == Little(magic, 4)
    ensures Opcode(InputValue(id, value)) == 0x0C && |StructBytes(InputValue(id, value))| == 12
    ensures StructBytes(InputValue(id, value))[8..12] == Little(value, 4)
    ensures Opcode(Hello(id)) == 0x01 && Opcode(CommitRequest(id)) == 0x05 && |StructBytes(CommitRequest(id))| == 8
  {
    hide Little, Pack;
    Sizes12();
    Lies(AssignAddress(id, address), 1, 8);
    Lies(Start(magic), 0, 0);
    Lies(InputValue(id, value), 1, 8);
    assert StructBytes(Start(magic))[0..4] == StructBytes(Start(magic));
  }

  lemma Sizes12()
    ensures SizeBelow([8, 2, 2], 1) == 8 && SizeBelow([8, 4], 1) == 8
    ensures Size([8, 2, 2]) == 12 && Size([8, 4]) == 12 && Size([4]) == 4 && Size([8]) == 8
  {
    Below([8, 2, 2], 0, 0);
    Below([8, 4], 0, 0);
    assert [8 as nat, 2, 2][1..] == [2, 2] && [2 as nat, 2][1..] == [2] && [2 as nat][1..] == [];
    assert [8 as nat, 4][1..] == [4] && [4 as nat][1..] == [] && [8 as nat][1..] == [];
  }

  lemma ReplyOffsets(l: Layout)
    requires |l| >= 4 && l[..3] == [8, 1, 1]
    ensures SizeBelow(l, 1) == 8 && SizeBelow(l, 2) == 9 && SizeBelow(l, 3) == 10
    ensures l[3] == 1 ==> SizeBelow(l, 4) == 11
  {
    assert l[0] == 8 && l[1] == 1 && l[2] == 1;
    Below(l, 0, 0);
    Below(l, 1, 8);
    Below(l, 2, 9);
    Below(l, 3, 10);
  }

  /** `NNCommitReplyMsg`, `NNAckMsg` and `NNNackMsg`, under opcodes 6, 7 and 8. */
  lemma ReplyStructs(id: u64, a: u8, b: u8, c: u8, d: u8)
    ensures var bytes := StructBytes(CommitReply(id, a, b, c, d));
            Opcode(CommitReply(id, a, b, c, d)) == 0x06 && |bytes| > 11
            && bytes[8] == a && bytes[9] == b && bytes[10] == c && bytes[11] == d
    ensures var bytes := StructBytes(Ack(id, a, b)); Opcode(Ack(id, a, b)) == 0x07 && |bytes| > 9 && bytes[8] == a && bytes[9] == b
    ensures var bytes := StructBytes(Nack(id, a, b, c));
            Opcode(Nack(id, a, b, c)) == 0x08 && |bytes| > 10 && bytes[8] == a && bytes[9] == b && bytes[10] == c
  {
    hide Little, Pack;
    var reply, ack, nack := CommitReply(id, a, b, c, d), Ack(id, a, b), Nack(id, a, b, c);
    ReplyOffsets(LayoutOf(6));
    ReplyOffsets(LayoutOf(7));
    ReplyOffsets(LayoutOf(8));
    hide SizeBelow;
    ByteLies(reply, 1, 8);
    ByteLies(reply, 2, 9);
    ByteLies(reply, 3, 10);
    ByteLies(reply, 4, 11);
    ByteLies(ack, 1, 8);
    ByteLies(ack, 2, 9);
    ByteLies(nack, 1, 8);
    ByteLies(nack, 2, 9);
    ByteLies(nack, 3, 10);
  }

  lemma TopologyOffsets()
    ensures var l := [8, 2, 2, 1, 1, 1, 1, 1, 4, 3];
            && SizeBelow(l, 1) == 8 && SizeBelow(l, 2) == 10 && SizeBelow(l, 3) == 12 && SizeBelow(l, 4) == 13
            && SizeBelow(l, 5) == 14 && SizeBelow(l, 6) == 15 && SizeBelow(l, 7) == 16 && SizeBelow(l, 8) == 17
  {
    var l := [8, 2, 2, 1, 1, 1, 1, 1, 4, 3];
    Below(l, 0, 0);
    Below(l, 1, 8);
    Below(l, 2, 10);
    Below(l, 3, 12);
    Below(l, 4, 13);
    Below(l, 5, 14);
    Below(l, 6, 15);
    Below(l, 7, 16);
  }

  lemma TopologyWide(id: u64, t: Topology)
    ensures var b := StructBytes(TopologyInfo(id, t));
            && |b| > 20 && b[8..10] == Little(t.predecessors, 2) && b[10..12] == Little(t.precedingSiblings, 2)
            && b[17..21] == Little(t.bias, 4)
  {
    TopologyOffsets();
    hide Little, Pack, SizeBelow;
    var m := TopologyInfo(id, t);
    Lies(m, 1, 8);
    Lies(m, 2, 10);
    Lies(m, 8, 17);
  }

  lemma TopologyBytes(id: u64, t: Topology)
    ensures var b := StructBytes(TopologyInfo(id, t));
            && |b| > 16 && b[12] == t.successor && b[13] == t.activation && b[14] == t.weightCount && b[15] == t.transmitSlot
            && b[16] == t.predecessorLayer
  {
    TopologyOffsets();
    hide Little, Pack, SizeBelow;
    var m := TopologyInfo(id, t);
    ByteLies(m, 3, 12);
    ByteLies(m, 4, 13);
    ByteLies(m, 5, 14);
    ByteLies(m, 6, 15);
    ByteLies(m, 7, 16);
  }

  /** `NNTopologyInfoMsg`, under opcode 3. */
  lemma TopologyStruct(id: u64, t: Topology)
    ensures Opcode(TopologyInfo(id, t)) == 0x03
    ensures var b := StructBytes(TopologyInfo(id, t));
            && |b| > 20 && b[8..10] == Little(t.predecessors, 2) && b[10..12] == Little(t.precedingSiblings, 2)
            && b[12] == t.successor && b[13] == t.activation && b[14] == t.weightCount && b[15] == t.transmitSlot
            && b[16] == t.predecessorLayer && b[17..21] == Little(t.bias, 4)
  {
    TopologyWide(id, t);
    TopologyBytes(id, t);
    hide StructBytes, FieldsOf, LayoutOf, Little;
  }

  lemma DutyOffsets()
    ensures var l := [8, 2, 2, 2, 1, 1, 4, 1, 4, 3];
            && SizeBelow(l, 1) == 8 && SizeBelow(l, 2) == 10 && SizeBelow(l, 3) == 12 && SizeBelow(l, 4) == 14
            && SizeBelow(l, 5) == 15 && SizeBelow(l, 6) == 16 && SizeBelow(l, 7) == 20 && SizeBelow(l, 8) == 21
  {
    var l := [8, 2, 2, 2, 1, 1, 4, 1, 4, 3];
    Below(l, 0, 0);
    Below(l, 1, 8);
    Below(l, 2, 10);
    Below(l, 3, 12);
    Below(l, 4, 14);
    Below(l, 5, 15);
    Below(l, 6, 16);
    Below(l, 7, 20);
  }

  lemma DutyWide(id: u64, d: Duty)
    ensures var b := StructBytes(BackupRoleInfo(id, d));
            && |b| > 24 && b[8..10] == Little(d.target, 2) && b[10..12] == Little(d.predecessors, 2)
            && b[12..14] == Little(d.layerRoster, 2) && b[16..20] == Little(d.resendGraceMs, 4) && b[21..25] == Little(d.bias, 4)
  {
    DutyOffsets();
    hide Little, Pack, SizeBelow;
    var m := BackupRoleInfo(id, d);
    Lies(m, 1, 8);
    Lies(m, 2, 10);
    Lies(m, 3, 12);
    Lies(m, 6, 16);
    Lies(m, 8, 21);
  }

  lemma DutyBytes(id: u64, d: Duty)
    ensures var b := StructBytes(BackupRoleInfo(id, d));
            && |b| > 20 && b[14] == d.activation && b[15] == d.weightCount && b[20] == d.predecessorLayer
  {
    DutyOffsets();
    hide Little, Pack, SizeBelow;
    var m := BackupRoleInfo(id, d);
    ByteLies(m, 4, 14);
    ByteLies(m, 5, 15);
    ByteLies(m, 7, 20);
  }

  /** `NNBackupRoleInfoMsg`, under opcode 10. */
  lemma DutyStruct(id: u64, d: Duty)
    ensures Opcode(BackupRoleInfo(id, d)) == 0x0A
    ensures var b := StructBytes(BackupRoleInfo(id, d));
            && |b| > 24 && b[8..10] == Little(d.target, 2) && b[10..12] == Little(d.predecessors, 2)
            && b[12..14] == Little(d.layerRoster, 2) && b[14] == d.activation && b[15] == d.weightCount
            && b[16..20] == Little(d.resendGraceMs, 4) && b[20] == d.predecessorLayer && b[21..25] == Little(d.bias, 4)
  {
    DutyWide(id, d);
    DutyBytes(id, d);
    hide StructBytes, FieldsOf, LayoutOf, Little;
  }

  lemma {:induction false} FloatOffset(i: nat)
    requires i <= 11
    ensures SizeBelow(LayoutOf(4), 5 + i) == 12 + 4 * i
  {
    var l := LayoutOf(4);
    if i == 0 {
      ReplyOffsets(l);
      Below(l, 4, 11);
    } else {
      FloatOffset(i - 1);
      Below(l, 4 + i, 8 + 4 * i);
    }
  }

  /** `NNWeightsChunkMsg`, under opcodes 4 and 11: float `i` starts at byte 12 + 4 * i. */
  lemma ChunkStructs(id: u64, c: Chunk, i: nat)
    requires |c.values| == 11 && i < 11
    ensures Opcode(WeightsChunk(id, c)) == 0x04 && Opcode(BackupWeightsChunk(id, c)) == 0x0B
    ensures StructBytes(BackupWeightsChunk(id, c)) == StructBytes(WeightsChunk(id, c))
    ensures var b := StructBytes(WeightsChunk(id, c));
            && |b| > 15 + 4 * i && b[8] == c.index && b[9] == c.total && b[10] == c.valid
            && b[12 + 4 * i..16 + 4 * i] == Little(c.values[i], 4)
  {
    hide Little, Pack;
    ReplyOffsets(LayoutOf(4));
    FloatOffset(i);
    hide SizeBelow;
    var m := WeightsChunk(id, c);
    ByteLies(m, 1, 8);
    ByteLies(m, 2, 9);
    ByteLies(m, 3, 10);
    Lies(m, 5 + i, 12 + 4 * i);
  }
}
