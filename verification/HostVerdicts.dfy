/** What the laptop makes of the datagrams it reads (`send_and_wait`, `provision_device`), in
    terms of their opcodes and bytes. */
module HostVerdicts {
  import opened Words
  import opened Bytes
  import opened Packets
  import opened SetupMessages
  import opened WireFormat
  import opened SetupAgents
  import opened SetupHost

  /** A reply struct of twelve bytes: an identifier, then four single bytes. */
  predicate ReplyFrom(id: u64, message: Bytes)
  {
    |message| == 12 && Number(message[..8]) == id
  }

  lemma UnpackReply(bytes: Bytes)
    requires |bytes| == 12
    ensures Unpack([8, 1, 1, 1, 1], bytes) == [Number(bytes[..8]), bytes[8] as nat, bytes[9], bytes[10], bytes[11]]
  {
    hide Number, Unpack, Size;
    var tail := bytes[8..];
    assert [1] + [1, 1, 1] == [1 as nat, 1, 1, 1] && [1] + [1, 1] == [1 as nat, 1, 1] && [1] + [1] == [1 as nat, 1];
    assert [8] + [1, 1, 1, 1] == [8 as nat, 1, 1, 1, 1] && [1] + [] == [1 as nat];
    UnpackNone(tail[3..][1..]);
    UnpackByte([], tail[3..]);
    UnpackByte([1], tail[2..]);
    UnpackByte([1, 1], tail[1..]);
    UnpackByte([1, 1, 1], tail);
    UnpackId([1, 1, 1, 1], bytes);
    assert tail[1..][1..] == tail[2..] && tail[2..][1..] == tail[3..];
  }

  lemma UnpackByte(layout: Layout, bytes: Bytes)
    requires 1 + Size(layout) <= |bytes|
    ensures Size([1] + layout) == 1 + Size(layout)
    ensures Unpack([1] + layout, bytes) == [bytes[0] as nat] + Unpack(layout, bytes[1..])
  {
    hide Number;
    assert ([1] + layout)[1..] == layout && ([1] + layout)[0] == 1;
    assert bytes[..1] == [bytes[0]];
    NumberOne(bytes[0]);
  }

  lemma NumberOne(b: u8)
    ensures Number([b]) == b as nat
  {
    assert [b][1..] == [];
    assert Number([]) == 0;
  }

  lemma UnpackNone(bytes: Bytes)
    ensures Size([]) == 0 && Unpack([], bytes) == []
  {
  }

  lemma UnpackId(layout: Layout, bytes: Bytes)
    requires 8 + Size(layout) <= |bytes|
    ensures Size([8] + layout) == 8 + Size(layout)
    ensures Unpack([8] + layout, bytes) == [Number(bytes[..8])] + Unpack(layout, bytes[8..])
  {
    assert ([8] + layout)[1..] == layout;
  }

  lemma UnpackAck(bytes: Bytes)
    requires |bytes| == 12
    ensures Size([8, 1, 1, 2]) == 12
    ensures var f := Unpack([8, 1, 1, 2], bytes); f[0] == Number(bytes[..8]) && f[1] == bytes[8] as nat && f[2] == bytes[9] as nat
  {
    hide Number, Unpack;
    var tail := bytes[8..];
    assert Size([2]) == 2 by { assert [2 as nat][1..] == []; }
    UnpackByte([2], tail[1..]);
    UnpackByte([1, 2], tail);
    UnpackId([1, 1, 2], bytes);
    assert [1] + [2] == [1 as nat, 2] && [1] + [1, 2] == [1 as nat, 1, 2] && [8] + [1, 1, 2] == [8 as nat, 1, 1, 2];
  }

  // ---- One datagram ----

  /** An ACK (7) or NACK (8) from this device for this request. */
  predicate Answers(id: u64, expected: u8, sequence: u8, p: Parsed)
  {
    ReplyFrom(id, p.message) && p.message[8] == sequence && p.message[9] == expected
  }

  /** It ends the wait well: the ACK that was waited for, or any COMMIT_REPLY (6) of the device
      when a commit request (5) was sent. */
  predicate EndsWell(id: u64, expected: u8, sequence: u8, data: Bytes)
  {
    ParsePacket(data).Some? &&
    var p := ParsePacket(data).value;
    || (p.opcode == 7 && Answers(id, expected, sequence, p))
    || (p.opcode == 6 && expected == 5 && ReplyFrom(id, p.message))
  }

  predicate EndsBadly(id: u64, expected: u8, sequence: u8, data: Bytes)
  {
    ParsePacket(data).Some? && ParsePacket(data).value.opcode == 8 && Answers(id, expected, sequence, ParsePacket(data).value)
  }

  /** An answer of the wrong length cannot be unpacked. */
  predicate Breaks(expected: u8, data: Bytes)
  {
    ParsePacket(data).Some? &&
    var p := ParsePacket(data).value;
    |p.message| != 12 && (p.opcode == 7 || p.opcode == 8 || (p.opcode == 6 && expected == 5))
  }

  lemma ReplySizes()
    ensures Size(LayoutOf(6)) == 12 && Size(LayoutOf(7)) == 12 && Size(LayoutOf(8)) == 12
    ensures LayoutOf(6) == [8, 1, 1, 1, 1] && LayoutOf(7) == [8, 1, 1, 2] && LayoutOf(8) == [8, 1, 1, 1, 1]
  {
    UnpackReply(seq(12, i => 0));
    UnpackAck(seq(12, i => 0));
  }

  lemma JudgeParsed(id: u64, expected: u8, sequence: u8, p: Parsed)
    requires |p.message| == 12 && (p.opcode == 6 || p.opcode == 7 || p.opcode == 8)
    ensures Size(LayoutOf(p.opcode)) == 12
    ensures var m := FromFields(p.opcode, Unpack(LayoutOf(p.opcode), p.message));
            && (p.opcode == 6 ==> m == CommitReply(Number(p.message[..8]), p.message[8], p.message[9], p.message[10], p.message[11]))
            && (p.opcode == 7 ==> m == Ack(Number(p.message[..8]), p.message[8], p.message[9]))
            && (p.opcode == 8 ==> m == Nack(Number(p.message[..8]), p.message[8], p.message[9], p.message[10]))
  {
    ReplySizes();
    UnpackReply(p.message);
    UnpackAck(p.message);
    hide Number, Unpack, LayoutOf, Size;
    var f := Unpack(LayoutOf(p.opcode), p.message);
    assert f[0] == Number(p.message[..8]) && f[1] == p.message[8] as nat && f[2] == p.message[9] as nat;
    if p.opcode != 7 { assert f[3] == p.message[10] as nat && f[4] == p.message[11] as nat; }
  }

  /** What one datagram means, read off its bytes. */
  lemma JudgeExactly(id: u64, expected: u8, sequence: u8, data: Bytes)
    ensures var v := Judge(id, expected, sequence, data);
            && (v.Accepted? <==> EndsWell(id, expected, sequence, data))
            && (v.Refused? <==> EndsBadly(id, expected, sequence, data))
            && (v.Malformed? <==> Breaks(expected, data))
            && (v.Accepted? ==>
                  var p := ParsePacket(data).value;
                  if p.opcode == 7 then v.reply.Ack?
                  else v.reply == CommitReply(id, p.message[8], p.message[9], p.message[10], p.message[11]))
  {
    hide ParsePacket, Number, Unpack, LayoutOf, Size, FromFields;
    ReplySizes();
    if ParsePacket(data).Some? {
      var p := ParsePacket(data).value;
      if |p.message| == 12 && (p.opcode == 6 || p.opcode == 7 || p.opcode == 8) { JudgeParsed(id, expected, sequence, p); }
    }
  }

  // ---- The datagrams of one request ----

  predicate Silent(id: u64, expected: u8, sequence: u8, data: Bytes)
  {
    !EndsWell(id, expected, sequence, data) && !EndsBadly(id, expected, sequence, data) && !Breaks(expected, data)
  }

  /** Datagram `k` ends the wait. */
  predicate DecidedAt(id: u64, expected: u8, sequence: u8, datagrams: seq<Bytes>, k: nat)
  {
    && k < |datagrams| && !Silent(id, expected, sequence, datagrams[k])
    && forall j | 0 <= j < k :: Silent(id, expected, sequence, datagrams[j])
  }

  /** The verdict is that of the first datagram that is not silent. */
  lemma {:induction false} FirstDecides(id: u64, expected: u8, sequence: u8, datagrams: seq<Bytes>, k: nat)
    ensures DecidedAt(id, expected, sequence, datagrams, k) ==>
              FirstVerdict(id, expected, sequence, datagrams) == Judge(id, expected, sequence, datagrams[k])
    ensures FirstVerdict(id, expected, sequence, datagrams) != Ignored ==>
              exists n: nat :: DecidedAt(id, expected, sequence, datagrams, n)
    decreases |datagrams|
  {
    hide Judge, EndsWell, EndsBadly, Breaks;
    if datagrams != [] {
      JudgeExactly(id, expected, sequence, datagrams[0]);
      if Silent(id, expected, sequence, datagrams[0]) {
        var rest := datagrams[1..];
        FirstDecides(id, expected, sequence, rest, if k > 0 then k - 1 else 0);
        SilentFirst(id, expected, sequence, datagrams);
      } else {
        assert DecidedAt(id, expected, sequence, datagrams, 0);
      }
    }
  }

  lemma SilentFirst(id: u64, expected: u8, sequence: u8, datagrams: seq<Bytes>)
    requires datagrams != [] && Silent(id, expected, sequence, datagrams[0])
    ensures forall n: nat {:trigger DecidedAt(id, expected, sequence, datagrams[1..], n)} ::
              DecidedAt(id, expected, sequence, datagrams[1..], n) <==> DecidedAt(id, expected, sequence, datagrams, n + 1)
  {
    hide Silent;
    forall n: nat
      ensures DecidedAt(id, expected, sequence, datagrams[1..], n) <==> DecidedAt(id, expected, sequence, datagrams, n + 1)
    {
      if DecidedAt(id, expected, sequence, datagrams, n + 1) {
        assert forall j | 0 <= j < n :: datagrams[1..][j] == datagrams[j + 1];
      }
    }
  }

  // ---- The outcome of provisioning one device ----

  ghost predicate WellAnswered(id: u64, expected: u8, sequence: u8, datagrams: seq<Bytes>)
  {
    exists k: nat :: DecidedAt(id, expected, sequence, datagrams, k) && EndsWell(id, expected, sequence, datagrams[k])
  }

  /** A COMMIT_REPLY of the device: success, and the byte sums of the weights sent to it. */
  predicate Confirms(e: Entry, data: Bytes)
  {
    ParsePacket(data).Some? &&
    var p := ParsePacket(data).value;
    && p.opcode == 6 && ReplyFrom(e.hardwareId, p.message) && p.message[10] != 0
    && p.message[8] == Checksum(MemoryBytes(e.weights))
    && (e.backup.Some? ==> p.message[9] == Checksum(MemoryBytes(e.backup.value.weights)))
  }

  ghost predicate Confirmed(e: Entry, datagrams: seq<Bytes>)
    requires EntryOk(e)
  {
    exists k: nat :: DecidedAt(e.hardwareId, 5, CommitAt(e) % 256, datagrams, k) && Confirms(e, datagrams[k])
  }

  lemma WellAnsweredExactly(id: u64, expected: u8, sequence: u8, datagrams: seq<Bytes>)
    ensures FirstVerdict(id, expected, sequence, datagrams).Accepted? <==> WellAnswered(id, expected, sequence, datagrams)
  {
    hide Judge, FirstVerdict, EndsWell, EndsBadly, Breaks, Silent;
    FirstDecides(id, expected, sequence, datagrams, 0);
    if FirstVerdict(id, expected, sequence, datagrams) != Ignored {
      var k: nat :| DecidedAt(id, expected, sequence, datagrams, k);
      DecidedWhere(id, expected, sequence, datagrams, k);
      FirstDecides(id, expected, sequence, datagrams, k);
      JudgeExactly(id, expected, sequence, datagrams[k]);
    }
    if WellAnswered(id, expected, sequence, datagrams) {
      var k: nat :| DecidedAt(id, expected, sequence, datagrams, k) && EndsWell(id, expected, sequence, datagrams[k]);
      FirstDecides(id, expected, sequence, datagrams, k);
      JudgeExactly(id, expected, sequence, datagrams[k]);
    }
  }

  lemma DecidedWhere(id: u64, expected: u8, sequence: u8, datagrams: seq<Bytes>, k: nat)
    requires DecidedAt(id, expected, sequence, datagrams, k)
    ensures k < |datagrams|
  {
  }

  /** One datagram read as the answer to the commit request. */
  lemma ConfirmsExactly(e: Entry, sequence: u8, data: Bytes)
    ensures CommitOutcome(e, Judge(e.hardwareId, 5, sequence, data)) == Success <==> Confirms(e, data)
  {
    hide Judge, Checksum, MemoryBytes, ParsePacket, Number, PredictedChecksum;
    JudgeExactly(e.hardwareId, 5, sequence, data);
    ChecksumPredicted(e.weights);
    if e.backup.Some? { ChecksumPredicted(e.backup.value.weights); }
    hide EndsBadly, Breaks;
    WeightsSum(e.weights);
    if e.backup.Some? { WeightsSum(e.backup.value.weights); }
  }

  lemma WeightsSum(values: seq<Float>)
    ensures WeightsChecksum(values) == Checksum(MemoryBytes(values))
  {
  }

  lemma ConfirmedExactly(e: Entry, datagrams: seq<Bytes>)
    requires EntryOk(e)
    ensures CommitOutcome(e, FirstVerdict(e.hardwareId, 5, CommitAt(e) % 256, datagrams)) == Success <==> Confirmed(e, datagrams)
  {
    hide Judge, FirstVerdict, Silent, Confirms, CommitAt;
    var id, sequence := e.hardwareId, CommitAt(e) % 256;
    FirstDecides(id, 5, sequence, datagrams, 0);
    if FirstVerdict(id, 5, sequence, datagrams) != Ignored {
      var k: nat :| DecidedAt(id, 5, sequence, datagrams, k);
      DecidedWhere(id, 5, sequence, datagrams, k);
      FirstDecides(id, 5, sequence, datagrams, k);
      ConfirmsExactly(e, sequence, datagrams[k]);
    }
    if Confirmed(e, datagrams) {
      var k: nat :| DecidedAt(id, 5, sequence, datagrams, k) && Confirms(e, datagrams[k]);
      FirstDecides(id, 5, sequence, datagrams, k);
      ConfirmsExactly(e, sequence, datagrams[k]);
    }
  }

  /** Packet `i` of the device is answered well by what arrives while it is being sent. */
  ghost predicate StepAnswered(e: Entry, i: nat, inbox: seq<seq<seq<Bytes>>>)
    requires EntryOk(e) && i <= CommitAt(e) && |inbox| == CommitAt(e) + 1
  {
    WellAnswered(e.hardwareId, Opcode(MessageAt(e, i)), i % 256, Flatten(inbox[i]))
  }

  lemma {:induction false} SuccessFrom(e: Entry, i: nat, inbox: seq<seq<seq<Bytes>>>)
    requires EntryOk(e) && i <= CommitAt(e) && |inbox| == CommitAt(e) + 1
    ensures OutcomeFrom(e, i, inbox) == Success <==>
              && (forall j: nat | i <= j < CommitAt(e) :: StepAnswered(e, j, inbox))
              && Confirmed(e, Flatten(inbox[CommitAt(e)]))
    decreases CommitAt(e) - i
  {
    hide MessageAt, CommitAt, FirstVerdict, CommitOutcome, WellAnswered, Confirmed, Flatten;
    WellAnsweredExactly(e.hardwareId, Opcode(MessageAt(e, i)), i % 256, Flatten(inbox[i]));
    if i == CommitAt(e) {
      CommitLast(e);
      ConfirmedExactly(e, Flatten(inbox[i]));
    } else {
      assert StepAnswered(e, i, inbox) <==> VerdictOn(e, i, inbox[i]).Accepted?;
      SuccessFrom(e, i + 1, inbox);
    }
  }

  lemma CommitLast(e: Entry)
    requires EntryOk(e)
    ensures Opcode(MessageAt(e, CommitAt(e))) == 5
  {
  }

  /** `provision_device` returns True exactly when each packet before the last is first answered
      by the ACK it waits for, and the commit request first by a COMMIT_REPLY of the device with
      success and the checksums of the weights sent -- whatever else arrives in between. */
  lemma SuccessExactly(e: Entry, inbox: seq<seq<seq<Bytes>>>)
    requires EntryOk(e) && |inbox| == CommitAt(e) + 1
    ensures OutcomeFrom(e, 0, inbox) == Success <==>
              && (forall i: nat | i < CommitAt(e) :: StepAnswered(e, i, inbox))
              && Confirmed(e, Flatten(inbox[CommitAt(e)]))
  {
    hide CommitAt, StepAnswered, OutcomeFrom, Confirmed, Flatten;
    SuccessFrom(e, 0, inbox);
  }

  // ---- When it raises an exception ----

  /** The request's wait ends with an answer that cannot be unpacked, or, for the commit request,
      with an ACK, which has no "success". */
  ghost predicate Raises(id: u64, expected: u8, sequence: u8, last: bool, datagrams: seq<Bytes>)
  {
    exists k: nat :: DecidedAt(id, expected, sequence, datagrams, k) && RaisesOn(id, expected, sequence, last, datagrams[k])
  }

  predicate RaisesOn(id: u64, expected: u8, sequence: u8, last: bool, data: Bytes)
  {
    Breaks(expected, data) || (last && EndsWell(id, expected, sequence, data) && ParsePacket(data).value.opcode == 7)
  }

  lemma RaisesExactly(e: Entry, expected: u8, sequence: u8, datagrams: seq<Bytes>)
    ensures var v := FirstVerdict(e.hardwareId, expected, sequence, datagrams);
            && (v.Malformed? <==> Raises(e.hardwareId, expected, sequence, false, datagrams))
            && (CommitOutcome(e, v) == Exception <==> Raises(e.hardwareId, expected, sequence, true, datagrams))
  {
    hide Judge, FirstVerdict, Silent, RaisesOn, CommitOutcome;
    var id := e.hardwareId;
    FirstDecides(id, expected, sequence, datagrams, 0);
    forall k: nat | DecidedAt(id, expected, sequence, datagrams, k)
      ensures var v := FirstVerdict(id, expected, sequence, datagrams);
              && (v.Malformed? <==> RaisesOn(id, expected, sequence, false, datagrams[k]))
              && (CommitOutcome(e, v) == Exception <==> RaisesOn(id, expected, sequence, true, datagrams[k]))
    {
      FirstDecides(id, expected, sequence, datagrams, k);
      RaisesOnExactly(e, expected, sequence, datagrams[k]);
    }
    IgnoredFails(e);
  }

  lemma IgnoredFails(e: Entry)
    ensures CommitOutcome(e, Ignored) == Failure
  {
  }

  lemma RaisesOnExactly(e: Entry, expected: u8, sequence: u8, data: Bytes)
    ensures var v := Judge(e.hardwareId, expected, sequence, data);
            && (v.Malformed? <==> RaisesOn(e.hardwareId, expected, sequence, false, data))
            && (CommitOutcome(e, v) == Exception <==> RaisesOn(e.hardwareId, expected, sequence, true, data))
  {
    hide Judge, EndsBadly, Breaks, PredictedChecksum, Number;
    JudgeExactly(e.hardwareId, expected, sequence, data);
  }
}
