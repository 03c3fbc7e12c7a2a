/** The laptop's copy of the wire format (`wire_format.py`), and its agreement with the
    firmware's codec.

    The laptop reverses the bytes of every struct word instead of copying the struct into
    words and sending each word most significant byte first; it parses into an opcode, a
    sequence number and struct bytes, and checks less than the firmware does. */
module WireFormat {
  import opened Words
  import opened Bytes
  import opened Messages
  import opened Packets
  import opened SetupMessages
  import opened Options

  /** `reverse_words`; `None` is the ValueError. */
  function ReverseWords(data: Bytes): (r: Option<Bytes>)
    ensures r.Some? <==> |data| % 4 == 0
    ensures r.Some? ==> |r.value| == |data|
    decreases |data|
  {
    if |data| % 4 != 0 then None
    else if data == [] then Some([])
    else Some(Reversed4(data[..4]) + ReverseWords(data[4..]).value)
  }

  lemma {:induction false} ReverseWordsTwice(data: Bytes)
    requires |data| % 4 == 0
    ensures ReverseWords(ReverseWords(data).value) == Some(data)
    decreases |data|
  {
    if data != [] {
      var once := ReverseWords(data).value;
      ReverseWordsTwice(data[4..]);
      assert once[..4] == Reversed4(data[..4]) && once[4..] == ReverseWords(data[4..]).value;
      assert Reversed4(once[..4]) + data[4..] == data;
    }
  }

  /** Reversing the bytes of each word is exactly what a little-endian device does when it
      copies a struct into words and sends each word most significant byte first. */
  lemma {:induction false} ReversedIsWire(data: Bytes)
    requires |data| % 4 == 0
    ensures ReverseWords(data) == Some(WireWords(MemoryWords(data)))
    decreases |data|
  {
    if data != [] {
      ReversedIsWire(data[4..]);
      LittleNumber(data[..4]);
      assert MemoryWords(data)[1..] == MemoryWords(data[4..]);
    }
  }

  /** `build_packet` with its default addresses; `None` is an exception: a length that is not
      a whole number of words, or a word count that does not fit the header field. */
  function BuildPacket(opcode: nat, sequence: nat, message: Bytes): (r: Option<Bytes>)
    ensures r.Some? <==> |message| % 4 == 0 && |message| / 4 < 256
  {
    if |message| % 4 != 0 || |message| / 4 >= 256 then None
    else
      var count := |message| / 4;
      var payload := ReverseWords(message).value;
      var header := [0, 0, 0, CONTROL, sequence % 256, count, opcode % 256];
      Some(header + [Checksum(header + [0] + payload)] + payload)
  }

  /** What `parse_packet` returns when it accepts. */
  datatype Parsed = Parsed(opcode: u8, sequence: u8, message: Bytes)

  function ParsePacket(data: Bytes): Option<Parsed>
  {
    if |data| < HEADER_SIZE || !ChecksumHolds(data) then None
    else
      var h := HeaderOf(data);
      if h.kind != CONTROL || |data| != HEADER_SIZE + 4 * h.count then None
      else Some(Parsed(h.flags, h.sequence, ReverseWords(data[HEADER_SIZE..]).value))
  }

  /** The statements of `parse_packet`: a mutable copy of the data has its checksum byte zeroed. */
  method Parse(data: Bytes) returns (r: Option<Parsed>)
    ensures r == ParsePacket(data)
  {
    if |data| < HEADER_SIZE { return None; }
    var received := data[CHECKSUM_INDEX];
    var checksumInput := new u8[|data|](i requires 0 <= i < |data| => data[i]);
    assert checksumInput[..] == data;
    checksumInput[CHECKSUM_INDEX] := 0;
    assert checksumInput[..] == data[CHECKSUM_INDEX := 0];
    var computed := ComputeChecksum(checksumInput, checksumInput.Length);
    assert checksumInput[..checksumInput.Length] == checksumInput[..];
    if computed != received { return None; }
    var header := HeaderOf(data[..HEADER_SIZE]);
    assert header == HeaderOf(data);
    if header.kind != CONTROL { return None; }
    if |data| != HEADER_SIZE + 4 * header.count { return None; }
    r := Some(Parsed(header.flags, header.sequence, ReverseWords(data[HEADER_SIZE..]).value));
  }

  /** Both sides build the same bytes. */
  lemma BuildersAgree(opcode: u8, sequence: u8, message: Bytes)
    requires |message| % 4 == 0 && |message| <= 64
    ensures BuildPacket(opcode, sequence, message) == Some(Encode(SetupPacket(opcode, message, sequence)))
  {
    var p, count := SetupPacket(opcode, message, sequence), |message| / 4;
    ReversedIsWire(message);
    assert p.payload[..count] == MemoryWords(message);
    var header := [0, 0, 0, CONTROL, sequence, count, opcode];
    assert WireHeader(p.header, 0) == header + [0];
    var checksum := Checksum(Unchecked(p, 0));
    assert WireHeader(p.header, checksum) == header + [checksum];
  }

  /** Both sides read a buffer alike as long as its count field is at most 16: the laptop
      accepts exactly the firmware's CONTROL packets, with the same struct bytes ... */
  lemma ParsersAgree(data: Bytes, before: Packet)
    requires |before.payload| == MAX_PAYLOAD_WORDS && |data| >= HEADER_SIZE && data[5] <= MAX_PAYLOAD_WORDS
    ensures var (ok, p) := Decode(data, before);
            ParsePacket(data) == if ok && p.header.kind == CONTROL
                                 then Some(Parsed(p.header.flags, p.header.sequence, Memory(p)[..4 * p.header.count]))
                                 else None
  {
    var (ok, p) := Decode(data, before);
    if ok {
      var body, n := data[HEADER_SIZE..], p.header.count;
      var struct := ReverseWords(body).value;
      ReverseWordsTwice(body);
      ReversedIsWire(struct);
      WordsOfWire(MemoryWords(struct));
      assert p.payload == MemoryWords(struct) + before.payload[n..];
      MemoryConcat(MemoryWords(struct), before.payload[n..]);
      BytesOfWords(struct);
    }
  }

  /** ... and differ in one case only: the laptop has no limit of sixteen payload words. */
  lemma LaptopAcceptsMore(data: Bytes, before: Packet)
    requires |before.payload| == MAX_PAYLOAD_WORDS
    ensures ParsePacket(data).Some? && !Decode(data, before).0
            <==> |data| >= HEADER_SIZE && data[5] > MAX_PAYLOAD_WORDS && ChecksumHolds(data)
                 && data[3] == CONTROL && |data| == HEADER_SIZE + 4 * (data[5] as nat)
  {
  }

  /** Whatever message the laptop packs and sends, the device reads. */
  lemma LaptopToDevice(m: Setup, sequence: u8, before: Packet)
    requires Expressible(m) && |before.payload| == MAX_PAYLOAD_WORDS
    ensures var wire := BuildPacket(Opcode(m), sequence, StructBytes(m));
            && wire.Some?
            && var (ok, p) := Decode(wire.value, before);
               ok && p.header.kind == CONTROL && p.header.sequence == sequence && MessageIn(p) == m
  {
    Sizes(Opcode(m));
    BuildersAgree(Opcode(m), sequence, StructBytes(m));
    MessageSurvives(m, sequence, before);
  }

  /** Whatever struct the device sends, the laptop gets its bytes. */
  lemma StructArrives(opcode: u8, bytes: Bytes, sequence: u8)
    requires |bytes| % 4 == 0 && |bytes| <= 4 * MAX_PAYLOAD_WORDS
    ensures ParsePacket(Encode(SetupPacket(opcode, bytes, sequence))) == Some(Parsed(opcode, sequence, bytes))
  {
    hide ParsePacket, Decode, Unchecked, Accepted;
    var p, before := SetupPacket(opcode, bytes, sequence), Packet(Header(0, 0, 0, 0, 0, 0, 0), Zeros(MAX_PAYLOAD_WORDS));
    var n := p.header.count;
    DecodeEncode(p, before);
    CountField(p);
    ParsersAgree(Encode(p), before);
    assert p.payload[..n] == MemoryWords(bytes);
    MemoryConcat(MemoryWords(bytes), before.payload[n..]);
    BytesOfWords(bytes);
  }

  lemma CountField(p: Packet)
    requires WellFormed(p)
    ensures |Encode(p)| >= HEADER_SIZE && Encode(p)[5] == p.header.count
  {
  }

  /** Whatever message the device packs and sends, the laptop reads. */
  lemma DeviceToLaptop(m: Setup, sequence: u8)
    requires Expressible(m)
    ensures var parsed := ParsePacket(Encode(PacketFor(m, sequence)));
            && parsed == Some(Parsed(Opcode(m), sequence, StructBytes(m)))
            && Unpack(LayoutOf(Opcode(m)), parsed.value.message) == FieldsOf(m)
  {
    hide ParsePacket, Encode, SetupPacket, FromFields, FieldsOf, LayoutOf;
    var bytes := StructBytes(m);
    Sizes(Opcode(m));
    StructArrives(Opcode(m), bytes, sequence);
    FieldsComeBack(m);
    UnpackPack(LayoutOf(Opcode(m)), FieldsOf(m), []);
    assert bytes + [] == bytes;
  }
}
