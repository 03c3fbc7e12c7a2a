/** The laptop's side of the setup protocol (`setup_tool.py`): the packets for one device, and
    how replies are waited for. */
module SetupHost {
  import opened Words
  import opened Bytes
  import opened Packets
  import opened SetupMessages
  import opened SetupAgents
  import opened WireFormat
  import opened ChunkAssembly
  import opened Options

  /** One device of the parsed manifest. Weight counts are not stored: they are the lengths. */
  datatype Backup = Backup(
    target: u16,
    predecessors: u16,
    layerRoster: u16,
    activation: u8,
    weights: seq<Float>,
    resendGraceMs: u32,
    predecessorLayer: u8,
    bias: Float)

  datatype Entry = Entry(
    hardwareId: u64,
    address: u16,
    predecessors: u16,
    precedingSiblings: u16,
    successor: u8,
    transmitSlot: u8,
    activation: u8,
    weights: seq<Float>,
    predecessorLayer: u8,
    bias: Float,
    inputValue: Option<Float>,
    backup: Option<Backup>)

  /** Both arrays fit the device's storage. */
  predicate EntryOk(e: Entry)
  {
    |e.weights| <= MAX_WEIGHTS && (e.backup.Some? ==> |e.backup.value.weights| <= MAX_WEIGHTS)
  }

  function TopologyOf(e: Entry): Topology
    requires EntryOk(e)
  {
    Topology(e.predecessors, e.precedingSiblings, e.successor, e.activation, |e.weights|, e.transmitSlot,
             e.predecessorLayer, e.bias)
  }

  function DutyIn(b: Backup): Duty
    requires |b.weights| <= MAX_WEIGHTS
  {
    Duty(b.target, b.predecessors, b.layerRoster, b.activation, |b.weights|, b.resendGraceMs, b.predecessorLayer, b.bias)
  }

  function BackupWeights(e: Entry): Option<seq<Float>>
  {
    if e.backup.Some? then Some(e.backup.value.weights) else None
  }

  // ---- The packets for one device, in order ----

  /** Chunks start after the address, the topology and, if there is one, the backup duty. */
  function Base(e: Entry): nat
  {
    if e.backup.Some? then 3 else 2
  }

  function PrimaryEnd(e: Entry): nat
  {
    Base(e) + ChunkCount(|e.weights|)
  }

  function ChunksEnd(e: Entry): nat
  {
    PrimaryEnd(e) + if e.backup.Some? then ChunkCount(|e.backup.value.weights|) else 0
  }

  /** The commit request comes last. */
  function CommitAt(e: Entry): nat
  {
    ChunksEnd(e) + if e.inputValue.Some? then 1 else 0
  }

  function MessageAt(e: Entry, i: nat): (m: Setup)
    requires EntryOk(e) && i <= CommitAt(e)
    ensures Expressible(m) && InBounds(m)
  {
    var id := e.hardwareId;
    if i == 0 then AssignAddress(id, e.address)
    else if i == 1 then TopologyInfo(id, TopologyOf(e))
    else if i < Base(e) then BackupRoleInfo(id, DutyIn(e.backup.value))
    else if i < PrimaryEnd(e) then WeightsChunk(id, ChunkAt(e.weights, i - Base(e)))
    else if i < ChunksEnd(e) then BackupWeightsChunk(id, ChunkAt(e.backup.value.weights, i - PrimaryEnd(e)))
    else if i < CommitAt(e) then InputValue(id, e.inputValue.value)
    else CommitRequest(id)
  }

  lemma FewPackets(e: Entry)
    requires EntryOk(e)
    ensures CommitAt(e) < 17
  {
  }

  /** What `emit` appends: opcode, sequence number, wire bytes. */
  datatype Emitted = Emitted(opcode: u8, sequence: u8, wire: Bytes)

  function WireOf(m: Setup, sequence: u8): (wire: Bytes)
    requires Expressible(m)
    ensures Some(wire) == BuildPacket(Opcode(m), sequence, StructBytes(m))
  {
    Sizes(Opcode(m));
    BuildPacket(Opcode(m), sequence, StructBytes(m)).value
  }

  function EmittedAt(e: Entry, start: u8, i: nat): Emitted
    requires EntryOk(e) && i <= CommitAt(e)
  {
    var m, sequence := MessageAt(e, i), (start + i) % 256;
    Emitted(Opcode(m), sequence, WireOf(m, sequence))
  }

  predicate EmittedSoFar(e: Entry, start: u8, packets: seq<Emitted>)
    requires EntryOk(e)
  {
    |packets| <= CommitAt(e) + 1 && forall i | 0 <= i < |packets| :: packets[i] == EmittedAt(e, start, i)
  }

  lemma EmitNext(e: Entry, start: u8, packets: seq<Emitted>, emitted: Emitted)
    requires EntryOk(e) && EmittedSoFar(e, start, packets) && |packets| <= CommitAt(e)
    requires emitted == EmittedAt(e, start, |packets|)
    ensures EmittedSoFar(e, start, packets + [emitted])
  {
    hide EmittedAt, CommitAt;
  }

  method Emit(e: Entry, start: u8, packets: seq<Emitted>, m: Setup, sequence: u8)
    returns (packets': seq<Emitted>, sequence': u8)
    requires EntryOk(e) && EmittedSoFar(e, start, packets) && |packets| <= CommitAt(e)
    requires m == MessageAt(e, |packets|) && sequence == (start + |packets|) % 256
    ensures EmittedSoFar(e, start, packets') && |packets'| == |packets| + 1
    ensures sequence' == (start + |packets'|) % 256
  {
    hide MessageAt, WireOf, CommitAt, EmittedSoFar, EntryOk;
    var emitted := Emitted(Opcode(m), sequence, WireOf(m, sequence));
    EmitNext(e, start, packets, emitted);
    packets' := packets + [emitted];
    NextSequence(start, |packets|);
    sequence' := (sequence + 1) % 256;
  }

  lemma NextSequence(start: u8, n: nat)
    ensures ((start + n) % 256 + 1) % 256 == (start + (n + 1)) % 256
  {
  }

  /** The loop over one array's chunks. An empty array sends none. */
  method EmitChunks(e: Entry, start: u8, packets: seq<Emitted>, backup: bool, sequence: u8)
    returns (packets': seq<Emitted>, sequence': u8)
    requires EntryOk(e) && EmittedSoFar(e, start, packets) && sequence == (start + |packets|) % 256
    requires backup ==> e.backup.Some?
    requires |packets| == if backup then PrimaryEnd(e) else Base(e)
    ensures EmittedSoFar(e, start, packets') && |packets'| == if backup then ChunksEnd(e) else PrimaryEnd(e)
    ensures sequence' == (start + |packets'|) % 256
  {
    packets', sequence' := packets, sequence;
    var values := if backup then e.backup.value.weights else e.weights;
    var chunkCount := ChunkCount(|values|);
    for index := 0 to chunkCount
      invariant EmittedSoFar(e, start, packets') && |packets'| == |packets| + index
      invariant sequence' == (start + |packets'|) % 256
    {
      var c := ChunkAt(values, index);
      var m := if backup then BackupWeightsChunk(e.hardwareId, c) else WeightsChunk(e.hardwareId, c);
      packets', sequence' := Emit(e, start, packets', m, sequence');
    }
  }

  /** `build_device_packets`. */
  method BuildDevicePackets(e: Entry, start: u8) returns (packets: seq<Emitted>)
    requires EntryOk(e)
    ensures |packets| == CommitAt(e) + 1
    ensures forall i | 0 <= i < |packets| :: packets[i] == EmittedAt(e, start, i)
  {
    hide EmittedAt;
    packets := [];
    var sequence := start;
    var id := e.hardwareId;
    packets, sequence := Emit(e, start, packets, AssignAddress(id, e.address), sequence);
    packets, sequence := Emit(e, start, packets, TopologyInfo(id, TopologyOf(e)), sequence);
    if e.backup.Some? {
      packets, sequence := Emit(e, start, packets, BackupRoleInfo(id, DutyIn(e.backup.value)), sequence);
    }
    packets, sequence := EmitChunks(e, start, packets, false, sequence);
    if e.backup.Some? { packets, sequence := EmitChunks(e, start, packets, true, sequence); }
    if e.inputValue.Some? {
      packets, sequence := Emit(e, start, packets, InputValue(id, e.inputValue.value), sequence);
    }
    packets, sequence := Emit(e, start, packets, CommitRequest(id), sequence);
  }

  // ---- The predicted checksum ----

  /** `compute_weights_checksum`, over the little-endian struct bytes of the values. */
  function PredictedChecksum(values: seq<Float>): u8
  {
    if values == [] then 0 else Checksum(Pack(seq(|values|, i => 4), values))
  }

  lemma {:induction false} FloatsAsStruct(values: seq<Float>)
    ensures Pack(seq(|values|, i => 4), values) == MemoryBytes(values)
  {
    if values != [] {
      FloatsAsStruct(values[1..]);
      assert seq(|values|, i => 4)[1..] == seq(|values[1..]|, i => 4);
    }
  }

  /** The laptop predicts the device's checksum of the same weights. */
  lemma ChecksumPredicted(values: seq<Float>)
    ensures PredictedChecksum(values) == WeightsChecksum(values)
  {
    FloatsAsStruct(values);
    assert Sum([]) == 0;
  }

  // ---- Waiting for a reply ----

  /** What a received datagram means to a sender waiting for an answer to `expected`; unpacking
      an answer of the wrong length raises an exception. */
  datatype Verdict = Ignored | Accepted(reply: Setup) | Refused(reply: Setup) | Malformed

  function Judge(hardwareId: u64, expected: u8, sequence: u8, data: Bytes): Verdict
  {
    match ParsePacket(data)
    case None => Ignored
    case Some(p) =>
      if !((expected == COMMIT_REQUEST && p.opcode == COMMIT_REPLY) || p.opcode == ACK || p.opcode == NACK) then Ignored
      else if |p.message| != Size(LayoutOf(p.opcode)) then Malformed
      else JudgeReply(hardwareId, expected, sequence, FromFields(p.opcode, Unpack(LayoutOf(p.opcode), p.message)))
  }

  function JudgeReply(hardwareId: u64, expected: u8, sequence: u8, m: Setup): Verdict
  {
    if m.CommitReply? then if m.hardwareId == hardwareId then Accepted(m) else Ignored
    else if m.Ack? && m.hardwareId == hardwareId && m.opcode == expected && m.sequence == sequence then Accepted(m)
    else if m.Nack? && m.hardwareId == hardwareId && m.opcode == expected && m.sequence == sequence then Refused(m)
    else Ignored
  }

  /** The first datagram that is not ignored. */
  function FirstVerdict(hardwareId: u64, expected: u8, sequence: u8, datagrams: seq<Bytes>): (v: Verdict)
    decreases |datagrams|
  {
    if datagrams == [] then Ignored
    else
      var v := Judge(hardwareId, expected, sequence, datagrams[0]);
      if v.Ignored? then FirstVerdict(hardwareId, expected, sequence, datagrams[1..]) else v
  }

  function Flatten(attempts: seq<seq<Bytes>>): seq<Bytes>
  {
    if attempts == [] then [] else attempts[0] + Flatten(attempts[1..])
  }

  lemma {:induction false} FirstVerdictConcat(hardwareId: u64, expected: u8, sequence: u8, xs: seq<Bytes>, ys: seq<Bytes>)
    ensures var v := FirstVerdict(hardwareId, expected, sequence, xs);
            FirstVerdict(hardwareId, expected, sequence, xs + ys)
            == if v.Ignored? then FirstVerdict(hardwareId, expected, sequence, ys) else v
    decreases |xs|
  {
    if xs == [] {
      assert xs + ys == ys;
    } else {
      assert (xs + ys)[1..] == xs[1..] + ys;
      FirstVerdictConcat(hardwareId, expected, sequence, xs[1..], ys);
    }
  }

  /** `send_and_wait`: `attempts[i]` are the datagrams that arrive before attempt `i` times
      out. `sent` counts how often the packet was sent; `Ignored` is the total timeout. */
  method SendAndWait(attempts: seq<seq<Bytes>>, hardwareId: u64, expected: u8, sequence: u8)
    returns (v: Verdict, sent: nat)
    ensures v == FirstVerdict(hardwareId, expected, sequence, Flatten(attempts))
    ensures v.Ignored? ==> sent == |attempts|
    ensures !v.Ignored? ==> 0 < sent <= |attempts|
                            && FirstVerdict(hardwareId, expected, sequence, Flatten(attempts[..sent])) == v
                            && FirstVerdict(hardwareId, expected, sequence, Flatten(attempts[..sent - 1])).Ignored?
  {
    hide FirstVerdict, Flatten;
    sent := 0;
    NothingYet(attempts, hardwareId, expected, sequence);
    while sent < |attempts|
      invariant sent <= |attempts|
      invariant FirstVerdict(hardwareId, expected, sequence, Flatten(attempts[..sent])).Ignored?
    {
      NextAttempt(attempts, sent, hardwareId, expected, sequence);
      v := WaitForReply(attempts[sent], hardwareId, expected, sequence);
      sent := sent + 1;
      if !v.Ignored? { return; }
    }
    assert attempts[..sent] == attempts;
    v := Ignored;
  }

  lemma NothingYet(attempts: seq<seq<Bytes>>, hardwareId: u64, expected: u8, sequence: u8)
    ensures FirstVerdict(hardwareId, expected, sequence, Flatten(attempts[..0])).Ignored?
  {
  }

  /** One more attempt decides if it brings an answer, and only then. */
  lemma NextAttempt(attempts: seq<seq<Bytes>>, n: nat, hardwareId: u64, expected: u8, sequence: u8)
    requires n < |attempts| && FirstVerdict(hardwareId, expected, sequence, Flatten(attempts[..n])).Ignored?
    ensures var v := FirstVerdict(hardwareId, expected, sequence, attempts[n]);
            && FirstVerdict(hardwareId, expected, sequence, Flatten(attempts[..n + 1])) == v
            && (!v.Ignored? ==> FirstVerdict(hardwareId, expected, sequence, Flatten(attempts)) == v)
  {
    hide FirstVerdict, Flatten;
    FlattenSnoc(attempts[..n], attempts[n]);
    assert attempts[..n + 1] == attempts[..n] + [attempts[n]];
    FirstVerdictConcat(hardwareId, expected, sequence, Flatten(attempts[..n]), attempts[n]);
    FlattenSplit(attempts, n + 1);
    FirstVerdictConcat(hardwareId, expected, sequence, Flatten(attempts[..n + 1]), Flatten(attempts[n + 1..]));
  }

  /** The receive loop of one attempt. */
  method WaitForReply(datagrams: seq<Bytes>, hardwareId: u64, expected: u8, sequence: u8) returns (v: Verdict)
    ensures v == FirstVerdict(hardwareId, expected, sequence, datagrams)
  {
    assert datagrams[0..] == datagrams;
    for i := 0 to |datagrams|
      invariant FirstVerdict(hardwareId, expected, sequence, datagrams)
             == FirstVerdict(hardwareId, expected, sequence, datagrams[i..])
    {
      assert datagrams[i..][1..] == datagrams[i + 1..];
      v := Judge(hardwareId, expected, sequence, datagrams[i]);
      if !v.Ignored? { return; }
    }
    v := Ignored;
  }

  lemma {:induction false} FlattenSnoc(attempts: seq<seq<Bytes>>, last: seq<Bytes>)
    ensures Flatten(attempts + [last]) == Flatten(attempts) + last
  {
    if attempts == [] {
      assert attempts + [last] == [last] && Flatten([last]) == last + Flatten([last][1..]);
    } else {
      assert (attempts + [last])[1..] == attempts[1..] + [last];
      FlattenSnoc(attempts[1..], last);
      assert attempts[0] + (Flatten(attempts[1..]) + last) == attempts[0] + Flatten(attempts[1..]) + last;
    }
  }

  lemma {:induction false} FlattenSplit(attempts: seq<seq<Bytes>>, n: nat)
    requires n <= |attempts|
    ensures Flatten(attempts) == Flatten(attempts[..n]) + Flatten(attempts[n..])
  {
    if n > 0 {
      FlattenSplit(attempts[1..], n - 1);
      assert attempts[..n][1..] == attempts[1..][..n - 1] && attempts[n..] == attempts[1..][n - 1..];
      assert attempts[0] + (Flatten(attempts[1..][..n - 1]) + Flatten(attempts[n..]))
          == attempts[0] + Flatten(attempts[1..][..n - 1]) + Flatten(attempts[n..]);
    } else {
      assert attempts[..0] == [] && attempts[0..] == attempts;
    }
  }

  // ---- Provisioning one device ----

  /** `provision_device` returns True, returns False, or raises an exception. */
  datatype Outcome = Success | Failure | Exception

  function CommitOutcome(e: Entry, v: Verdict): Outcome
  {
    match v
    case Ignored => Failure
    case Refused(_) => Failure
    case Malformed => Exception
    case Accepted(reply) =>
      if !reply.CommitReply? then Exception
      else if reply.success == 0 then Failure
      else if reply.checksum != PredictedChecksum(e.weights) then Failure
      else if e.backup.Some? && reply.backupChecksum != PredictedChecksum(e.backup.value.weights) then Failure
      else Success
  }

  /** The verdict on packet `i` from what arrives while it is being sent. */
  function VerdictOn(e: Entry, i: nat, attempts: seq<seq<Bytes>>): Verdict
    requires EntryOk(e) && i <= CommitAt(e)
  {
    FirstVerdict(e.hardwareId, Opcode(MessageAt(e, i)), i % 256, Flatten(attempts))
  }

  function OutcomeFrom(e: Entry, i: nat, inbox: seq<seq<seq<Bytes>>>): Outcome
    requires EntryOk(e) && i <= CommitAt(e) && |inbox| == CommitAt(e) + 1
    decreases CommitAt(e) - i
  {
    var v := VerdictOn(e, i, inbox[i]);
    if i == CommitAt(e) then CommitOutcome(e, v)
    else if v.Accepted? then OutcomeFrom(e, i + 1, inbox)
    else if v.Malformed? then Exception
    else Failure
  }

  /** `inbox[i]` holds the attempts made with packet `i`. */
  method ProvisionDevice(e: Entry, inbox: seq<seq<seq<Bytes>>>) returns (outcome: Outcome)
    requires EntryOk(e) && |inbox| == CommitAt(e) + 1
    ensures outcome == OutcomeFrom(e, 0, inbox)
  {
    hide MessageAt, PredictedChecksum, FirstVerdict, Flatten;
    var packets := BuildDevicePackets(e, 0);
    var checksum := PredictedChecksum(e.weights);
    var backupChecksum: u8 := if e.backup.Some? then PredictedChecksum(e.backup.value.weights) else 0;
    outcome := Failure;
    for i := 0 to |packets|
      invariant OutcomeFrom(e, 0, inbox) == if i < |packets| then OutcomeFrom(e, i, inbox) else outcome
    {
      var p := packets[i];
      assert p.opcode == Opcode(MessageAt(e, i)) && p.sequence == i % 256;
      var v, sent := SendAndWait(inbox[i], e.hardwareId, p.opcode, p.sequence);
      if i == |packets| - 1 {
        return CommitOutcome(e, v);
      }
      if v.Malformed? { return Exception; }
      if !v.Accepted? { return Failure; }
    }
  }
}
