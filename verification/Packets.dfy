/** The wire codec of `NNPacket.h`: an 8-byte header, then `payloadCount` words, guarded by an
    additive checksum over every other byte.

    Decoding fills a packet variable of sixteen words in place: words beyond the count keep
    what the variable held before, so decoding takes that variable's old value as well. What
    the buffer loops do is stated by functions on byte sequences. */
module Packets {
  import opened Words
  import opened Bytes

  const MAX_PAYLOAD_WORDS: nat := 16
  const HEADER_SIZE: nat := 8
  const CHECKSUM_INDEX: nat := 7
  const LARGEST_BUFFER: nat := 128
  const TRANSPORT_BUFFER: nat := 64

  /** `NNPacketHeader`, with the source address still encoded. */
  datatype Header = Header(source: u16, group: u8, kind: u8, sequence: u8, count: u8, flags: u8, checksum: u8)

  /** `NNPacket`: all sixteen payload words, of which the first `count` are valid. */
  datatype Packet = Packet(header: Header, payload: seq<u32>)

  predicate WellFormed(p: Packet)
  {
    |p.payload| == MAX_PAYLOAD_WORDS && p.header.count <= MAX_PAYLOAD_WORDS
  }

  // ---- Checksum ----

  function Sum(data: Bytes): nat
  {
    if data == [] then 0 else Sum(data[..|data| - 1]) + data[|data| - 1]
  }

  function Checksum(data: Bytes): u8
  {
    Sum(data) % 256
  }

  /** The running sum is kept in 16 bits; what it loses is a multiple of 256. */
  method ComputeChecksum(data: array<u8>, length: nat) returns (checksum: u8)
    requires length <= data.Length
    ensures checksum == Checksum(data[..length])
  {
    var sum: u16 := 0;
    for i := 0 to length
      invariant sum as nat == Sum(data[..i]) % 0x1_0000
    {
      assert data[..i + 1][..i] == data[..i];
      WrapAdd(Sum(data[..i]), data[i]);
      sum := (sum as nat + data[i] as nat) % 0x1_0000;
    }
    ModOfMod(Sum(data[..length]));
    checksum := sum % 256;
  }

  /** The checksum of a sequence is the wrapped sum of its bytes: these three laws leave no
      other function. */
  lemma ChecksumIsByteSum(b: u8, x: Bytes, y: Bytes)
    ensures Checksum([]) == 0
    ensures Checksum([b]) == b
    ensures Checksum(x + y) == (Checksum(x) + Checksum(y)) % 256
  {
    assert [b][..0] == [];
    SumConcat(x, y);
    ModOfSum(Sum(x), Sum(y));
  }

  lemma {:induction false} SumConcat(x: Bytes, y: Bytes)
    ensures Sum(x + y) == Sum(x) + Sum(y)
    decreases |y|
  {
    if y == [] {
      assert x + y == x;
    } else {
      var n := |y| - 1;
      SumConcat(x, y[..n]);
      assert (x + y)[..|x + y| - 1] == x + y[..n];
    }
  }

  lemma ModOfSum(a: nat, b: nat)
    ensures (a + b) % 256 == (a % 256 + b % 256) % 256
  {
    var q, r := a / 256 + b / 256, a % 256 + b % 256;
    assert a + b == 256 * q + r;
  }

  lemma WrapAdd(n: nat, b: nat)
    ensures (n % 0x1_0000 + b) % 0x1_0000 == (n + b) % 0x1_0000
  {
    var m := n % 0x1_0000 + b;
    assert n + b == 0x1_0000 * (n / 0x1_0000) + m && m == 0x1_0000 * (m / 0x1_0000) + m % 0x1_0000;
    assert n + b == 0x1_0000 * (n / 0x1_0000 + m / 0x1_0000) + m % 0x1_0000;
  }

  lemma ModOfMod(n: nat)
    ensures n % 0x1_0000 % 256 == n % 256
  {
    var q := n / 0x1_0000;
    assert n == 256 * (256 * q) + n % 0x1_0000;
  }

  lemma {:induction false} SumUpdate(data: Bytes, i: nat, b: u8)
    requires i < |data|
    ensures Sum(data[i := b]) == Sum(data) - data[i] + b
  {
    var last := |data| - 1;
    if i == last {
      assert data[i := b][..last] == data[..last];
    } else {
      assert data[i := b][..last] == data[..last][i := b];
      SumUpdate(data[..last], i, b);
    }
  }

  // ---- Payload words on the wire ----

  function WireWords(words: seq<u32>): (bytes: Bytes)
    ensures |bytes| == 4 * |words|
  {
    if words == [] then [] else Big(words[0]) + WireWords(words[1..])
  }

  function WordsOf(bytes: Bytes): (words: seq<u32>)
    requires |bytes| % 4 == 0
    ensures |words| == |bytes| / 4
  {
    if bytes == [] then [] else [WordAt(bytes[..4])] + WordsOf(bytes[4..])
  }

  lemma {:induction false} WordsOfWire(words: seq<u32>)
    ensures WordsOf(WireWords(words)) == words
  {
    if words != [] {
      var bytes := WireWords(words);
      WordBig(words[0]);
      WordsOfWire(words[1..]);
      assert bytes[..4] == Big(words[0]) && bytes[4..] == WireWords(words[1..]);
    }
  }

  lemma {:induction false} WireOfWords(bytes: Bytes)
    requires |bytes| % 4 == 0
    ensures WireWords(WordsOf(bytes)) == bytes
    decreases |bytes|
  {
    if bytes != [] {
      BigWord(bytes[..4]);
      WireOfWords(bytes[4..]);
      assert bytes[..4] + bytes[4..] == bytes;
      assert WordsOf(bytes)[1..] == WordsOf(bytes[4..]);
    }
  }

  lemma {:induction false} WireAppend(words: seq<u32>, w: u32)
    ensures WireWords(words + [w]) == WireWords(words) + Big(w)
  {
    if words == [] {
      assert [] + [w] == [w] && Big(w) + [] == Big(w);
      assert WireWords([w]) == Big(w) + WireWords([]);
    } else {
      WireAppend(words[1..], w);
      assert (words + [w])[1..] == words[1..] + [w];
      assert Big(words[0]) + (WireWords(words[1..]) + Big(w)) == Big(words[0]) + WireWords(words[1..]) + Big(w);
    }
  }

  lemma {:induction false} WordsOfAt(bytes: Bytes, i: nat)
    requires |bytes| % 4 == 0 && 4 * i < |bytes|
    ensures WordsOf(bytes)[i] == WordAt(bytes[4 * i..4 * i + 4])
    decreases i
  {
    if i > 0 {
      WordsOfAt(bytes[4..], i - 1);
      assert WordsOf(bytes)[i] == WordsOf(bytes[4..])[i - 1];
      assert bytes[4..][4 * (i - 1)..4 * (i - 1) + 4] == bytes[4 * i..4 * i + 4];
    }
  }

  // ---- Encoding ----

  function WireHeader(h: Header, checksum: u8): (bytes: Bytes)
    ensures |bytes| == HEADER_SIZE
  {
    [h.source / 256, h.source % 256, h.group, h.kind, h.sequence, h.count, h.flags, checksum]
  }

  /** The packet's bytes with `checksum` in the checksum field. */
  function Unchecked(p: Packet, checksum: u8): (bytes: Bytes)
    requires WellFormed(p)
    ensures |bytes| == HEADER_SIZE + 4 * p.header.count
  {
    WireHeader(p.header, checksum) + WireWords(p.payload[..p.header.count])
  }

  function Encode(p: Packet): (bytes: Bytes)
    requires WellFormed(p)
    ensures |bytes| == HEADER_SIZE + 4 * p.header.count
  {
    Unchecked(p, Checksum(Unchecked(p, 0)))
  }

  /** Where every field travels: the source address most significant byte first, six single
      bytes, and word `i` most significant byte first at offset 8 + 4 * i. */
  lemma FieldsTravelAt(p: Packet, i: nat)
    requires WellFormed(p)
    ensures var bytes, h := Encode(p), p.header;
            && |bytes| == 8 + 4 * h.count && 256 * bytes[0] as nat + bytes[1] as nat == h.source
            && bytes[2] == h.group && bytes[3] == h.kind && bytes[4] == h.sequence && bytes[5] == h.count && bytes[6] == h.flags
            && bytes[7] == Checksum(bytes[7 := 0])
            && (i < h.count ==>
                  p.payload[i] as nat == 0x100_0000 * bytes[8 + 4 * i] as nat + 0x1_0000 * bytes[9 + 4 * i] as nat
                                         + 0x100 * bytes[10 + 4 * i] as nat + bytes[11 + 4 * i] as nat)
  {
    var bytes := Encode(p);
    assert bytes[7 := 0] == Unchecked(p, 0);
    if i < p.header.count {
      var words := p.payload[..p.header.count];
      WireWordsAt(words, i);
      assert bytes[8..] == WireWords(words);
      assert bytes[8..][4 * i..4 * i + 4] == bytes[8 + 4 * i..12 + 4 * i];
      WordBig(words[i]);
      FourBytes(Reversed4(bytes[8 + 4 * i..12 + 4 * i]));
    }
  }

  lemma {:induction false} WireWordsAt(words: seq<u32>, i: nat)
    requires i < |words|
    ensures 4 * i + 4 <= |WireWords(words)| && WireWords(words)[4 * i..4 * i + 4] == Big(words[i])
    decreases i
  {
    hide Big;
    if i > 0 {
      WireWordsAt(words[1..], i - 1);
      var tail := WireWords(words[1..]);
      assert WireWords(words)[4..] == tail;
      assert WireWords(words)[4 * i..4 * i + 4] == tail[4 * (i - 1)..4 * (i - 1) + 4];
    }
  }

  method WriteWord(w: u32, buffer: array<u8>, offset: nat)
    requires offset + 4 <= buffer.Length
    modifies buffer
    ensures buffer[..] == old(buffer[..offset]) + Big(w) + old(buffer[offset + 4..])
  {
    LittleFour(w);
    buffer[offset] := w / 256 / 256 / 256;
    buffer[offset + 1] := w / 256 / 256 % 256;
    buffer[offset + 2] := w / 256 % 256;
    buffer[offset + 3] := w % 256;
  }

  method WritePayload(p: Packet, buffer: array<u8>)
    requires WellFormed(p) && HEADER_SIZE + 4 * p.header.count <= buffer.Length
    modifies buffer
    ensures buffer[..] == old(buffer[..HEADER_SIZE]) + WireWords(p.payload[..p.header.count])
                          + old(buffer[HEADER_SIZE + 4 * p.header.count..])
  {
    hide Big;
    ghost var head, all := buffer[..HEADER_SIZE], buffer[..];
    var offset := HEADER_SIZE;
    for i := 0 to p.header.count
      invariant offset == HEADER_SIZE + 4 * i
      invariant buffer[..] == head + WireWords(p.payload[..i]) + all[offset..]
    {
      ghost var before := buffer[..];
      WriteWord(p.payload[i], buffer, offset);
      WireAppend(p.payload[..i], p.payload[i]);
      assert p.payload[..i + 1] == p.payload[..i] + [p.payload[i]];
      hide WireWords;
      assert before[..offset] == head + WireWords(p.payload[..i]);
      assert before[offset + 4..] == all[offset + 4..];
      offset := offset + 4;
    }
  }

  /** The checksum byte is held at zero. */
  method WriteHeader(h: Header, buffer: array<u8>)
    requires HEADER_SIZE <= buffer.Length
    modifies buffer
    ensures buffer[..] == WireHeader(h, 0) + old(buffer[HEADER_SIZE..])
  {
    buffer[0], buffer[1], buffer[2], buffer[3] := h.source / 256, h.source % 256, h.group, h.kind;
    buffer[4], buffer[5], buffer[6], buffer[7] := h.sequence, h.count, h.flags, 0;
  }

  /** `serializePacket`: nothing is written when the packet does not fit. */
  method Serialize(p: Packet, buffer: array<u8>, bufferSize: nat) returns (written: nat)
    requires WellFormed(p) && bufferSize <= buffer.Length
    modifies buffer
    ensures bufferSize < |Encode(p)| ==> written == 0 && buffer[..] == old(buffer[..])
    ensures bufferSize >= |Encode(p)| ==>
              written == |Encode(p)| && buffer[..] == Encode(p) + old(buffer[|Encode(p)|..])
  {
    hide WireWords, Big, Checksum;
    var totalSize := HEADER_SIZE + 4 * p.header.count;
    if bufferSize < totalSize { return 0; }
    ghost var rest := buffer[totalSize..];
    WriteUnchecked(p, buffer);
    var checksum := ComputeChecksum(buffer, totalSize);
    buffer[CHECKSUM_INDEX] := checksum;
    ChecksumInPlace(p, checksum);
    written := totalSize;
  }

  lemma ChecksumInPlace(p: Packet, checksum: u8)
    requires WellFormed(p)
    ensures Unchecked(p, 0)[CHECKSUM_INDEX := checksum] == Unchecked(p, checksum)
  {
    hide WireWords;
  }

  method WriteUnchecked(p: Packet, buffer: array<u8>)
    requires WellFormed(p) && HEADER_SIZE + 4 * p.header.count <= buffer.Length
    modifies buffer
    ensures var total := HEADER_SIZE + 4 * p.header.count;
            buffer[..total] == Unchecked(p, 0) && buffer[total..] == old(buffer[total..])
  {
    ghost var total := HEADER_SIZE + 4 * p.header.count;
    ghost var rest := buffer[total..];
    WriteHeader(p.header, buffer);
    assert buffer[..HEADER_SIZE] == WireHeader(p.header, 0) && buffer[total..] == rest;
    hide WireWords, Big, WireHeader;
    WritePayload(p, buffer);
  }

  // ---- Decoding ----

  function HeaderOf(data: Bytes): Header
    requires |data| >= HEADER_SIZE
  {
    Header(256 * (data[0] as nat) + data[1] as nat, data[2], data[3], data[4], data[5], data[6], data[7])
  }

  predicate ChecksumHolds(data: Bytes)
    requires |data| >= HEADER_SIZE
  {
    Checksum(data[CHECKSUM_INDEX := 0]) == data[CHECKSUM_INDEX]
  }

  /** Acceptance, and what the caller's packet holds afterwards: a buffer with a correct
      checksum overwrites the header even when it is refused, and payload words beyond the
      count stay as they were. */
  function Decode(data: Bytes, before: Packet): (r: (bool, Packet))
    requires |before.payload| == MAX_PAYLOAD_WORDS
    ensures |r.1.payload| == MAX_PAYLOAD_WORDS
  {
    if |data| < HEADER_SIZE || |data| > LARGEST_BUFFER || !ChecksumHolds(data) then (false, before)
    else
      var h := HeaderOf(data);
      if h.count > MAX_PAYLOAD_WORDS || |data| != HEADER_SIZE + 4 * h.count then (false, before.(header := h))
      else (true, Packet(h, WordsOf(data[HEADER_SIZE..]) + before.payload[h.count..]))
  }

  predicate Accepted(data: Bytes)
  {
    HEADER_SIZE <= |data| <= LARGEST_BUFFER && ChecksumHolds(data)
    && data[5] <= MAX_PAYLOAD_WORDS && |data| == HEADER_SIZE + 4 * data[5]
  }

  method ReadWord(data: array<u8>, offset: nat) returns (w: u32)
    requires offset + 4 <= data.Length
    ensures w == WordAt(data[offset..offset + 4])
  {
    FourBytes(Reversed4(data[offset..offset + 4]));
    w := 0x100_0000 * (data[offset] as nat) + 0x1_0000 * (data[offset + 1] as nat)
         + 256 * (data[offset + 2] as nat) + data[offset + 3] as nat;
  }

  lemma SliceOfSlice(s: Bytes, low: nat, high: nat, from: nat, to: nat)
    requires low <= high <= |s| && from <= to <= high - low
    ensures s[low..high][from..to] == s[low + from..low + to]
  {
    var part, whole := s[low..high][from..to], s[low + from..low + to];
    assert |part| == |whole|;
    assert forall i | 0 <= i < |part| :: part[i] == s[low + from + i] == whole[i];
  }

  /** An `NNPacket` variable, filled in place. */
  class PacketVariable {
    var header: Header
    const payload: array<u32>

    ghost predicate Valid()
    {
      payload.Length == MAX_PAYLOAD_WORDS
    }

    ghost function Value(): Packet
      reads this, payload
    {
      Packet(header, payload[..])
    }

    /** `NNPacket pkt{}`. */
    constructor ()
      ensures Valid() && Value() == Packet(Header(0, 0, 0, 0, 0, 0, 0), seq(MAX_PAYLOAD_WORDS, i => 0))
      ensures fresh(payload)
    {
      header := Header(0, 0, 0, 0, 0, 0, 0);
      payload := new u32[MAX_PAYLOAD_WORDS](i => 0);
    }

    method ReadPayload(data: array<u8>, length: nat, count: nat)
      requires Valid() && count <= MAX_PAYLOAD_WORDS && length == HEADER_SIZE + 4 * count <= data.Length
      modifies payload
      ensures payload[..] == WordsOf(data[HEADER_SIZE..length]) + old(payload[count..])
    {
      ghost var words := WordsOf(data[HEADER_SIZE..length]);
      var offset := HEADER_SIZE;
      for i := 0 to count
        invariant offset == HEADER_SIZE + 4 * i
        invariant forall j | 0 <= j < i :: payload[j] == words[j]
        invariant forall j | i <= j < MAX_PAYLOAD_WORDS :: payload[j] == old(payload[j])
      {
        WordsOfAt(data[HEADER_SIZE..length], i);
        SliceOfSlice(data[..], HEADER_SIZE, length, 4 * i, 4 * i + 4);
        assert data[HEADER_SIZE..length] == data[..][HEADER_SIZE..length];
        assert data[offset..offset + 4] == data[..][offset..offset + 4];
        hide WordsOf, WordAt;
        var w := ReadWord(data, offset);
        payload[i] := w;
        offset := offset + 4;
      }
    }
  }

  method CopyWithoutChecksum(buffer: array<u8>, length: nat) returns (temp: array<u8>)
    requires HEADER_SIZE <= length <= buffer.Length
    ensures fresh(temp) && temp.Length == length && temp[..] == buffer[..length][CHECKSUM_INDEX := 0]
  {
    temp := new u8[length](i requires 0 <= i < length reads buffer => buffer[i]);
    assert temp[..] == buffer[..length];
    temp[CHECKSUM_INDEX] := 0;
  }

  /** `deserializePacket`. */
  method Deserialize(buffer: array<u8>, length: nat, out: PacketVariable) returns (ok: bool)
    requires out.Valid() && length <= buffer.Length
    modifies out, out.payload
    ensures (ok, out.Value()) == Decode(buffer[..length], old(out.Value()))
  {
    if length < HEADER_SIZE { return false; }
    var received := buffer[CHECKSUM_INDEX];
    if length > LARGEST_BUFFER { return false; }
    var temp := CopyWithoutChecksum(buffer, length);
    var computed := ComputeChecksum(temp, length);
    assert temp[..length] == temp[..];
    if computed != received { return false; }
    out.header := Header(256 * (buffer[0] as nat) + buffer[1] as nat, buffer[2], buffer[3], buffer[4], buffer[5], buffer[6], buffer[7]);
    assert out.header == HeaderOf(buffer[..length]);
    var count := out.header.count;
    if count > MAX_PAYLOAD_WORDS { return false; }
    if length != HEADER_SIZE + 4 * count { return false; }
    out.ReadPayload(buffer, length, count);
    assert buffer[..length][HEADER_SIZE..] == buffer[HEADER_SIZE..length];
    ok := true;
  }

  // ---- The codec is a bijection between packets and accepted buffers ----

  lemma AcceptedExactly(data: Bytes, before: Packet)
    requires |before.payload| == MAX_PAYLOAD_WORDS
    ensures Decode(data, before).0 == Accepted(data)
  {
  }

  lemma EncodedAccepted(p: Packet)
    requires WellFormed(p)
    ensures Accepted(Encode(p))
  {
    var data := Encode(p);
    assert data[CHECKSUM_INDEX := 0] == Unchecked(p, 0);
  }

  /** What is sent is what is received, up to the checksum field, which holds the checksum. */
  lemma DecodeEncode(p: Packet, before: Packet)
    requires WellFormed(p) && |before.payload| == MAX_PAYLOAD_WORDS
    ensures var n := p.header.count;
            Decode(Encode(p), before)
            == (true, Packet(p.header.(checksum := Checksum(Unchecked(p, 0))), p.payload[..n] + before.payload[n..]))
  {
    var data, n := Encode(p), p.header.count;
    EncodedAccepted(p);
    assert data[HEADER_SIZE..] == WireWords(p.payload[..n]);
    WordsOfWire(p.payload[..n]);
    assert HeaderOf(data) == p.header.(checksum := Checksum(Unchecked(p, 0)));
  }

  /** Every accepted buffer is the encoding of the packet read from it. */
  lemma EncodeDecode(data: Bytes, before: Packet)
    requires |before.payload| == MAX_PAYLOAD_WORDS && Decode(data, before).0
    ensures WellFormed(Decode(data, before).1) && Encode(Decode(data, before).1) == data
  {
    var p := Decode(data, before).1;
    var words := WordsOf(data[HEADER_SIZE..]);
    WireOfWords(data[HEADER_SIZE..]);
    assert p.payload[..p.header.count] == words;
    assert Unchecked(p, 0) == data[CHECKSUM_INDEX := 0];
  }

  /** A buffer cut short or with bytes appended is refused. */
  lemma WrongLengthRefused(p: Packet, data: Bytes)
    requires WellFormed(p) && data != Encode(p) && (data <= Encode(p) || Encode(p) <= data)
    ensures !Accepted(data)
  {
    if data <= Encode(p) { ShorterPrefix(data, Encode(p)); } else { ShorterPrefix(Encode(p), data); }
    if |data| >= HEADER_SIZE { assert data[5] == Encode(p)[5]; }
  }

  lemma ShorterPrefix(a: Bytes, b: Bytes)
    requires a <= b && a != b
    ensures |a| < |b|
  {
    assert b[..|b|] == b;
  }

  /** Any single wrong byte is noticed. */
  lemma WrongByteRefused(p: Packet, i: nat, b: u8)
    requires WellFormed(p) && i < |Encode(p)| && Encode(p)[i] != b
    ensures !Accepted(Encode(p)[i := b])
  {
    var good, bad := Encode(p), Encode(p)[i := b];
    EncodedAccepted(p);
    if i == CHECKSUM_INDEX {
      assert bad[CHECKSUM_INDEX := 0] == good[CHECKSUM_INDEX := 0];
    } else {
      var rest := good[CHECKSUM_INDEX := 0];
      assert bad[CHECKSUM_INDEX := 0] == rest[i := b];
      SumUpdate(rest, i, b);
      SumUpdate(rest, i, 0);
      DifferentModulo(Sum(rest), rest[i], b);
    }
  }

  lemma DifferentModulo(sum: nat, x: u8, y: u8)
    requires x != y && sum >= x
    ensures (sum - x + y) % 256 != sum % 256
  {
    SameModulo(sum - x + y, sum);
  }

  lemma SameModulo(a: nat, b: nat)
    ensures a % 256 == b % 256 ==> (a - b) % 256 == 0
  {
    assert a - b == 256 * (a / 256 - b / 256) + (a % 256 - b % 256);
  }

  /** An additive checksum does not see two bytes change places: swapped payload bytes travel
      unnoticed. */
  lemma SwappedBytesAccepted(p: Packet, i: nat, j: nat)
    requires WellFormed(p) && HEADER_SIZE <= i < j < |Encode(p)|
    ensures Accepted(Encode(p)[i := Encode(p)[j]][j := Encode(p)[i]])
  {
    var good := Encode(p);
    var bad := good[i := good[j]][j := good[i]];
    EncodedAccepted(p);
    var rest := good[CHECKSUM_INDEX := 0];
    assert bad[CHECKSUM_INDEX := 0] == rest[i := good[j]][j := good[i]];
    SumUpdate(rest, i, good[j]);
    SumUpdate(rest[i := good[j]], j, good[i]);
  }

  /** The UDP transport's 64-byte buffer carries up to fourteen words. */
  lemma FitsTransport(p: Packet)
    requires WellFormed(p)
    ensures |Encode(p)| <= TRANSPORT_BUFFER <==> p.header.count <= 14
    ensures |Encode(p)| <= LARGEST_BUFFER
  {
  }
}
