/** Setup end to end: the packets `build_device_packets` makes, each delivered one or more times
    and in order, configure a fresh device exactly as the manifest says. */
module Provisioning {
  import opened Words
  import opened Bytes
  import opened Messages
  import opened Packets
  import opened SetupMessages
  import opened StructLayouts
  import opened SetupAgents
  import opened ChunkAssembly
  import opened WireFormat
  import opened SetupHost
  import opened Nodes
  import opened Options

  /** The node and window configuration the manifest entry asks for. */
  function Intended(e: Entry): NodeConfig
  {
    var address := Addresses.Decode(e.address);
    NodeConfig(address, e.predecessors, e.successor, e.transmitSlot, e.activation, e.weights, e.bias, e.predecessorLayer,
               address.layer, e.precedingSiblings,
               if e.backup.None? then None
               else
                 var b := e.backup.value;
                 Some(BackupRole(Addresses.Decode(b.target), b.predecessors, b.activation, b.weights, b.bias,
                                 b.resendGraceMs, b.layerRoster, b.predecessorLayer)))
  }

  // ---- How far provisioning has come ----

  function Clamp(n: int, low: nat, high: nat): nat
  {
    if n < low then low else if n > high then high else n
  }

  /** Nothing handled but, from stage 1 on, the address. */
  predicate Waiting(s: Agent)
  {
    Sized(s) && s.phase == Unconfigured && s.role.None? && s.input.None? && s.saved.None? && !s.bound && !s.backupBound
  }

  function RoleAt(e: Entry, k: nat): Option<Role>
    requires EntryOk(e)
  {
    if e.backup.Some? && k >= 3 then Some(RoleFrom(DutyIn(e.backup.value))) else None
  }

  function BackupAt(e: Entry, k: nat): Option<seq<Float>>
  {
    if k >= 3 then BackupWeights(e) else None
  }

  function InputAt(e: Entry, k: nat): Option<Float>
  {
    if k > ChunksEnd(e) then e.inputValue else None
  }

  /** Chunks are arriving: after the first `k` packets, the first so many of each array. */
  predicate Gathering(e: Entry, s: Agent, k: nat)
    requires EntryOk(e)
  {
    && Assembling(s, e.weights, BackupAt(e, k))
    && s.topology == TopologyOf(e) && s.ownLayer == s.address.layer && s.role == RoleAt(e, k)
    && s.received == Range(Clamp(k - Base(e), 0, ChunkCount(|e.weights|)))
    && (s.role.Some? ==> s.receivedBackup == Range(Clamp(k - PrimaryEnd(e), 0, ChunkCount(|e.backup.value.weights|))))
    && s.input == InputAt(e, k)
  }

  /** CONFIGURED exactly as intended, and saved. */
  predicate Provisioned(e: Entry, s: Agent)
  {
    && Sized(s) && s.phase == Configured && ConfigOf(s) == Intended(e) && s.input == e.inputValue
    && s.saved == Some(PersistedOf(s))
  }

  /** The first `k` packets have each been handled, in order. */
  predicate Stage(e: Entry, s: Agent, k: nat)
    requires EntryOk(e)
  {
    && (k >= 1 ==> s.address == Addresses.Decode(e.address))
    && (if k < 2 then Waiting(s) else if k <= CommitAt(e) then Gathering(e, s, k) else Provisioned(e, s))
  }

  /** After all chunks both arrays are complete. */
  lemma GatheredIsVerified(e: Entry, s: Agent, k: nat)
    requires EntryOk(e) && ChunksEnd(e) <= k && 2 <= k && Gathering(e, s, k)
    ensures s.phase == Verifying
  {
  }

  // ---- One packet ----

  lemma AddressHandled(e: Entry, s: Agent, sequence: u8)
    requires EntryOk(e) && Waiting(s)
    ensures var (s', answer) := Handle(e.hardwareId, s, sequence, MessageAt(e, 0));
            Stage(e, s', 1) && answer == Some(Ack(e.hardwareId, sequence, ASSIGN_ADDRESS))
  {
  }

  lemma TopologyHandled(e: Entry, s: Agent, sequence: u8)
    requires EntryOk(e) && s.address == Addresses.Decode(e.address)
    requires Waiting(s) || Gathering(e, s, 2)
    ensures var (s', answer) := Handle(e.hardwareId, s, sequence, MessageAt(e, 1));
            Stage(e, s', 2) && answer == Some(Ack(e.hardwareId, sequence, TOPOLOGY_INFO))
  {
    hide MaybeAdvance, Addresses.Decode;
    var t := TopologyOf(e);
    var s0 := s.(topology := t, ownLayer := s.address.layer, expected := ChunkCount(t.weightCount), received := {},
                 phase := ReceivingConfig);
    assert s0.received == Range(0);
    AdvanceAssembles(s0, e.weights, None);
  }

  lemma RoleHandled(e: Entry, s: Agent, sequence: u8)
    requires EntryOk(e) && e.backup.Some? && s.address == Addresses.Decode(e.address)
    requires Gathering(e, s, 2) || Gathering(e, s, 3)
    ensures var (s', answer) := Handle(e.hardwareId, s, sequence, MessageAt(e, 2));
            Stage(e, s', 3) && answer == Some(Ack(e.hardwareId, sequence, BACKUP_ROLE_INFO))
  {
    hide MaybeAdvance, Addresses.Decode;
    var d := DutyIn(e.backup.value);
    var s0 := s.(role := Some(RoleFrom(d)), expectedBackup := ChunkCount(d.weightCount), receivedBackup := {},
                 phase := ReceivingConfig);
    assert s0.receivedBackup == Range(0);
    AdvanceAssembles(s0, e.weights, BackupWeights(e));
  }

  lemma NextReceived(received: set<nat>, n: nat)
    requires received == Range(n) || received == Range(n + 1)
    ensures received + {n} == Range(n + 1)
  {
  }

  /** What `PieceLands` says of one more chunk. */
  predicate Landed(e: Entry, s: Agent, s': Agent)
  {
    && Assembling(s', e.weights, BackupWeights(e))
    && s' == s.(weights := s'.weights, received := s'.received, backupWeights := s'.backupWeights,
                receivedBackup := s'.receivedBackup, phase := s'.phase, bound := s'.bound, backupBound := s'.backupBound)
  }

  lemma PieceIndices(p: Piece)
    ensures PrimaryIndices([p]) == (if p.Primary? then {p.k} else {})
    ensures BackupIndices([p]) == (if p.Primary? then {} else {p.k})
  {
    assert p in [p];
  }

  lemma PrimaryIsPiece(e: Entry, i: nat)
    requires EntryOk(e) && Base(e) <= i < PrimaryEnd(e)
    ensures MessageAt(e, i) == PieceMessage(e.hardwareId, e.weights, BackupWeights(e), Primary(i - Base(e)))
    ensures Opcode(MessageAt(e, i)) == WEIGHTS_CHUNK
  {
  }

  lemma PrimaryLands(e: Entry, s: Agent, sequence: u8, i: nat)
    requires EntryOk(e) && Base(e) <= i < PrimaryEnd(e) && Assembling(s, e.weights, BackupWeights(e))
    ensures var (s', answer) := Handle(e.hardwareId, s, sequence, MessageAt(e, i));
            && Landed(e, s, s') && answer == Some(Ack(e.hardwareId, sequence, WEIGHTS_CHUNK))
            && s'.received == s.received + {i - Base(e)} && s'.receivedBackup == s.receivedBackup
  {
    hide Handle, Assembling, MessageAt, PieceMessage;
    var p := Primary(i - Base(e));
    PrimaryIsPiece(e, i);
    PieceLands(e.hardwareId, s, sequence, e.weights, BackupWeights(e), p);
    PieceIndices(p);
  }

  lemma BackupIsPiece(e: Entry, i: nat)
    requires EntryOk(e) && PrimaryEnd(e) <= i < ChunksEnd(e)
    ensures MessageAt(e, i) == PieceMessage(e.hardwareId, e.weights, BackupWeights(e), ChunkAssembly.Backup(i - PrimaryEnd(e)))
    ensures Opcode(MessageAt(e, i)) == BACKUP_WEIGHTS_CHUNK
  {
  }

  lemma BackupLands(e: Entry, s: Agent, sequence: u8, i: nat)
    requires EntryOk(e) && PrimaryEnd(e) <= i < ChunksEnd(e) && Assembling(s, e.weights, BackupWeights(e))
    ensures var (s', answer) := Handle(e.hardwareId, s, sequence, MessageAt(e, i));
            && Landed(e, s, s') && answer == Some(Ack(e.hardwareId, sequence, BACKUP_WEIGHTS_CHUNK))
            && s'.received == s.received && s'.receivedBackup == s.receivedBackup + {i - PrimaryEnd(e)}
  {
    hide Handle, Assembling, MessageAt, PieceMessage;
    var p := ChunkAssembly.Backup(i - PrimaryEnd(e));
    BackupIsPiece(e, i);
    PieceLands(e.hardwareId, s, sequence, e.weights, BackupWeights(e), p);
    PieceIndices(p);
  }

  lemma PrimaryHandled(e: Entry, s: Agent, sequence: u8, i: nat)
    requires EntryOk(e) && Base(e) <= i < PrimaryEnd(e)
    requires Gathering(e, s, i) || Gathering(e, s, i + 1)
    ensures var (s', answer) := Handle(e.hardwareId, s, sequence, MessageAt(e, i));
            && Gathering(e, s', i + 1) && s'.address == s.address
            && answer == Some(Ack(e.hardwareId, sequence, WEIGHTS_CHUNK))
  {
    hide Handle, Assembling, MessageAt, ChunkCount, Range, RoleFrom;
    PrimaryLands(e, s, sequence, i);
    NextReceived(s.received, i - Base(e));
  }

  lemma BackupHandled(e: Entry, s: Agent, sequence: u8, i: nat)
    requires EntryOk(e) && PrimaryEnd(e) <= i < ChunksEnd(e)
    requires Gathering(e, s, i) || Gathering(e, s, i + 1)
    ensures var (s', answer) := Handle(e.hardwareId, s, sequence, MessageAt(e, i));
            && Gathering(e, s', i + 1) && s'.address == s.address
            && answer == Some(Ack(e.hardwareId, sequence, BACKUP_WEIGHTS_CHUNK))
  {
    hide Handle, Assembling, MessageAt, ChunkCount, Range, RoleFrom;
    BackupLands(e, s, sequence, i);
    NextReceived(s.receivedBackup, i - PrimaryEnd(e));
  }

  lemma InputIsMessage(e: Entry)
    requires EntryOk(e) && e.inputValue.Some?
    ensures MessageAt(e, ChunksEnd(e)) == InputValue(e.hardwareId, e.inputValue.value)
  {
  }

  lemma InputHandled(e: Entry, s: Agent, sequence: u8)
    requires EntryOk(e) && e.inputValue.Some?
    requires Gathering(e, s, ChunksEnd(e)) || Gathering(e, s, CommitAt(e))
    ensures var (s', answer) := Handle(e.hardwareId, s, sequence, MessageAt(e, ChunksEnd(e)));
            && Gathering(e, s', CommitAt(e)) && s'.address == s.address
            && answer == Some(Ack(e.hardwareId, sequence, INPUT_VALUE))
  {
    hide MessageAt, ArrayAssembling, AllChunks, ChunkCount, Range;
    InputIsMessage(e);
  }

  /** The first commit request succeeds, with the checksums the laptop predicts. */
  lemma FirstCommit(e: Entry, s: Agent)
    requires EntryOk(e) && Gathering(e, s, CommitAt(e)) && s.address == Addresses.Decode(e.address)
    ensures var (s', reply) := HandleCommit(e.hardwareId, s);
            && Provisioned(e, s') && s'.address == s.address
            && reply == CommitReply(e.hardwareId, PredictedChecksum(e.weights),
                                    if e.backup.Some? then PredictedChecksum(e.backup.value.weights) else 0,
                                    1, Flag(e.backup.Some?))
  {
    GatheredIsVerified(e, s, CommitAt(e));
    VerifiedIsExact(s, e.weights, BackupWeights(e));
    ChecksumPredicted(e.weights);
    if e.backup.Some? { ChecksumPredicted(e.backup.value.weights); }
  }

  /** Every later one is answered with success 0, and changes nothing. */
  lemma LaterCommit(e: Entry, s: Agent)
    requires EntryOk(e) && Provisioned(e, s)
    ensures var (s', reply) := HandleCommit(e.hardwareId, s);
            s' == s && reply == CommitReply(e.hardwareId, 0, 0, 0, Flag(e.backup.Some?))
  {
    assert ConfigOf(s).backup.Some? == s.role.Some?;
  }

  // ---- Any packet at its stage ----

  /** What packet `i` is answered with when it is handled for the first time, or again. */
  function AnswerAt(e: Entry, i: nat, sequence: u8, first: bool): Setup
    requires EntryOk(e) && i <= CommitAt(e)
  {
    if i < CommitAt(e) then Ack(e.hardwareId, sequence, Opcode(MessageAt(e, i)))
    else if first then
      CommitReply(e.hardwareId, PredictedChecksum(e.weights),
                  if e.backup.Some? then PredictedChecksum(e.backup.value.weights) else 0, 1, Flag(e.backup.Some?))
    else CommitReply(e.hardwareId, 0, 0, 0, Flag(e.backup.Some?))
  }

  /** Packet `i` handled next, or once more, leaves the device at stage `i + 1`. */
  lemma PacketHandled(e: Entry, s: Agent, sequence: u8, i: nat, first: bool)
    requires EntryOk(e) && i <= CommitAt(e) && Stage(e, s, if first then i else i + 1)
    ensures var (s', answer) := Handle(e.hardwareId, s, sequence, MessageAt(e, i));
            Stage(e, s', i + 1) && answer == Some(AnswerAt(e, i, sequence, first))
  {
    hide Gathering, Waiting, Provisioned, PredictedChecksum, Addresses.Decode, HandleTopology, HandleRole, HandleCommit;
    if i == 0 {
      AddressHandled(e, s, sequence);
    } else if i == 1 {
      TopologyHandled(e, s, sequence);
    } else if i < Base(e) {
      RoleHandled(e, s, sequence);
    } else if i < PrimaryEnd(e) {
      PrimaryHandled(e, s, sequence, i);
    } else if i < ChunksEnd(e) {
      BackupHandled(e, s, sequence, i);
    } else if i < CommitAt(e) {
      InputHandled(e, s, sequence);
    } else if first {
      FirstCommit(e, s);
    } else {
      LaterCommit(e, s);
    }
  }

  // ---- Datagrams ----

  /** A datagram read into a packet variable that may hold anything from before. */
  predicate Bounded(before: Packet, data: Bytes)
  {
    && |before.payload| == MAX_PAYLOAD_WORDS
    && var (ok, p) := Packets.Decode(data, before);
       ok && p.header.kind == CONTROL ==> InBounds(MessageIn(p))
  }

  function Wire(sent: seq<Packet>): seq<Bytes>
    requires forall p | p in sent :: WellFormed(p)
  {
    seq(|sent|, i requires 0 <= i < |sent| => Packets.Encode(sent[i]))
  }

  /** The agent's new state, and the datagrams it sends back. */
  function Receive(id: u64, s: Agent, before: Packet, data: Bytes): (r: (Agent, seq<Bytes>))
    requires Sized(s) && Bounded(before, data)
    ensures Sized(r.0)
  {
    var (ok, p) := Packets.Decode(data, before);
    if ok && p.header.kind == CONTROL then
      var (s', sent) := HandlePacket(id, s, p);
      (s', Wire(sent))
    else (s, [])
  }

  lemma StageIgnoresSequence(e: Entry, s: Agent, k: nat, sequence: u8)
    requires EntryOk(e) && Stage(e, s, k)
    ensures Stage(e, s.(sequence := sequence), k)
  {
  }

  lemma EmittedIsBounded(e: Entry, start: u8, i: nat, before: Packet)
    requires EntryOk(e) && i <= CommitAt(e) && |before.payload| == MAX_PAYLOAD_WORDS
    ensures Bounded(before, EmittedAt(e, start, i).wire)
  {
    LaptopToDevice(MessageAt(e, i), (start + i) % 256, before);
  }

  function AnswerWire(e: Entry, start: u8, i: nat, first: bool, sequence: u8): Bytes
    requires EntryOk(e) && i <= CommitAt(e)
  {
    Packets.Encode(PacketFor(AnswerAt(e, i, (start + i) % 256, first), sequence))
  }

  /** Through the wire and the agent: what a device does with a message the laptop built. */
  lemma ReceiveMessage(id: u64, s: Agent, before: Packet, m: Setup, sequence: u8)
    requires Expressible(m) && InBounds(m) && Sized(s) && |before.payload| == MAX_PAYLOAD_WORDS
    ensures Bounded(before, WireOf(m, sequence))
    ensures var (s', answer) := Handle(id, s, sequence, m);
            Receive(id, s, before, WireOf(m, sequence))
            == if answer.None? then (s', [])
               else (s'.(sequence := (s.sequence + 1) % 256), [Packets.Encode(PacketFor(answer.value, s.sequence))])
  {
    hide Handle, MessageIn, Packets.Decode, BuildPacket, Packets.Encode, PacketFor, Wire, InBounds;
    LaptopToDevice(m, sequence, before);
    var (ok, p) := Packets.Decode(WireOf(m, sequence), before);
    assert ok && p.header.kind == CONTROL && p.header.sequence == sequence && MessageIn(p) == m;
    var (s', answer) := Handle(id, s, sequence, m);
    if answer.Some? { WireOne(PacketFor(answer.value, s.sequence)); } else { WireNone(); }
  }

  lemma WireOne(p: Packet)
    requires WellFormed(p)
    ensures Wire([p]) == [Packets.Encode(p)]
  {
  }

  lemma WireNone()
    ensures Wire([]) == []
  {
  }

  /** The datagram of packet `i`. */
  lemma DatagramHandled(e: Entry, start: u8, s: Agent, before: Packet, i: nat, first: bool)
    requires EntryOk(e) && i <= CommitAt(e) && Stage(e, s, if first then i else i + 1) && Sized(s)
    requires |before.payload| == MAX_PAYLOAD_WORDS
    ensures Bounded(before, EmittedAt(e, start, i).wire)
    ensures var (s', sent) := Receive(e.hardwareId, s, before, EmittedAt(e, start, i).wire);
            && Stage(e, s', i + 1) && s'.sequence == (s.sequence + 1) % 256
            && sent == [AnswerWire(e, start, i, first, s.sequence)]
  {
    hide Stage, Handle, MessageAt, AnswerAt, WireOf, Receive, Bounded, CommitAt, PacketFor, Packets.Encode;
    var m, sequence := MessageAt(e, i), (start + i) % 256;
    ReceiveMessage(e.hardwareId, s, before, m, sequence);
    PacketHandled(e, s, sequence, i, first);
    var s' := Handle(e.hardwareId, s, sequence, m).0;
    StageIgnoresSequence(e, s', i + 1, (s.sequence + 1) % 256);
  }

  /** `order` goes on from stage `at`: each packet one or more times, in order, none left out. */
  predicate InTurn(e: Entry, order: seq<nat>, at: nat)
    requires EntryOk(e)
  {
    order != [] ==>
      order[0] <= CommitAt(e) && (order[0] == at || order[0] + 1 == at) && InTurn(e, order[1..], order[0] + 1)
  }

  predicate InRange(e: Entry, order: seq<nat>)
  {
    forall n | 0 <= n < |order| :: order[n] <= CommitAt(e)
  }

  predicate AreVariables(befores: seq<Packet>)
  {
    forall n | 0 <= n < |befores| :: |befores[n].payload| == MAX_PAYLOAD_WORDS
  }

  lemma TailsInRange(e: Entry, order: seq<nat>, befores: seq<Packet>)
    requires order != [] && |befores| == |order| && InRange(e, order) && AreVariables(befores)
    ensures InRange(e, order[1..]) && AreVariables(befores[1..])
    ensures order[0] <= CommitAt(e) && |befores[0].payload| == MAX_PAYLOAD_WORDS
  {
  }

  /** Delivers the packets `order` names, with whatever the packet variable held each time. */
  function Deliver(e: Entry, start: u8, s: Agent, order: seq<nat>, befores: seq<Packet>): (Agent, seq<Bytes>)
    requires EntryOk(e) && Sized(s) && |befores| == |order|
    requires InRange(e, order)
    requires AreVariables(befores)
    decreases |order|
  {
    if order == [] then (s, [])
    else
      TailsInRange(e, order, befores);
      EmittedIsBounded(e, start, order[0], befores[0]);
      var (s', sent) := Receive(e.hardwareId, s, befores[0], EmittedAt(e, start, order[0]).wire);
      var (s'', more) := Deliver(e, start, s', order[1..], befores[1..]);
      (s'', sent + more)
  }

  /** One acknowledgement per delivery, and for each commit request a COMMIT_REPLY, of which
      only the first says success. */
  function ExpectedAnswers(e: Entry, start: u8, order: seq<nat>, at: nat, sequence: u8): seq<Bytes>
    requires EntryOk(e) && InRange(e, order)
    decreases |order|
  {
    if order == [] then []
    else
      assert order[0] <= CommitAt(e);
      [AnswerWire(e, start, order[0], order[0] == at, sequence)]
      + ExpectedAnswers(e, start, order[1..], order[0] + 1, (sequence + 1) % 256)
  }

  lemma {:induction false} InTurnBounded(e: Entry, order: seq<nat>, at: nat)
    requires EntryOk(e) && InTurn(e, order, at)
    ensures InRange(e, order)
    decreases |order|
  {
    if order != [] {
      InTurnBounded(e, order[1..], order[0] + 1);
      assert forall n | 0 < n < |order| :: order[n] == order[1..][n - 1];
    }
  }

  function LastStage(order: seq<nat>, at: nat): nat
  {
    if order == [] then at else order[|order| - 1] + 1
  }

  lemma {:induction false} DeliveredInTurn(e: Entry, start: u8, s: Agent, order: seq<nat>, befores: seq<Packet>, at: nat)
    requires EntryOk(e) && Sized(s) && Stage(e, s, at) && InTurn(e, order, at) && |befores| == |order|
    requires InRange(e, order)
    requires AreVariables(befores)
    ensures var (s', sent) := Deliver(e, start, s, order, befores);
            Stage(e, s', LastStage(order, at)) && sent == ExpectedAnswers(e, start, order, at, s.sequence)
    decreases |order|
  {
    if order == [] { return; }
    hide Stage, Receive, EmittedAt, Bounded, InRange, AreVariables, Deliver, ExpectedAnswers, InTurn, LastStage;
    TailsInRange(e, order, befores);
    FirstInTurn(e, order, at);
    DatagramHandled(e, start, s, befores[0], order[0], order[0] == at);
    var s' := Receive(e.hardwareId, s, befores[0], EmittedAt(e, start, order[0]).wire).0;
    DeliveredInTurn(e, start, s', order[1..], befores[1..], order[0] + 1);
    DeliveredFirst(e, start, s, order, befores, at);
  }

  /** The induction step: the first datagram, then the rest. */
  lemma DeliveredFirst(e: Entry, start: u8, s: Agent, order: seq<nat>, befores: seq<Packet>, at: nat)
    requires EntryOk(e) && Sized(s) && |befores| == |order| && order != [] && InRange(e, order) && AreVariables(befores)
    requires InRange(e, order[1..]) && AreVariables(befores[1..])
    requires Bounded(befores[0], EmittedAt(e, start, order[0]).wire)
    requires var (s', sent) := Receive(e.hardwareId, s, befores[0], EmittedAt(e, start, order[0]).wire);
             && sent == [AnswerWire(e, start, order[0], order[0] == at, s.sequence)]
             && Deliver(e, start, s', order[1..], befores[1..]).1
                == ExpectedAnswers(e, start, order[1..], order[0] + 1, (s.sequence + 1) % 256)
    ensures var s' := Receive(e.hardwareId, s, befores[0], EmittedAt(e, start, order[0]).wire).0;
            Deliver(e, start, s, order, befores).0 == Deliver(e, start, s', order[1..], befores[1..]).0
    ensures Deliver(e, start, s, order, befores).1 == ExpectedAnswers(e, start, order, at, s.sequence)
  {
    hide Stage, Receive, EmittedAt, AnswerWire, Bounded, CommitAt, InRange, AreVariables, EntryOk, Deliver, ExpectedAnswers;
    DeliverFirst(e, start, s, order, befores);
    FirstAnswer(e, start, order, at, s.sequence);
  }

  lemma DeliverFirst(e: Entry, start: u8, s: Agent, order: seq<nat>, befores: seq<Packet>)
    requires EntryOk(e) && Sized(s) && |befores| == |order| && order != []
    requires InRange(e, order) && AreVariables(befores)
    ensures InRange(e, order[1..]) && AreVariables(befores[1..])
    ensures Bounded(befores[0], EmittedAt(e, start, order[0]).wire)
    ensures var (s', sent) := Receive(e.hardwareId, s, befores[0], EmittedAt(e, start, order[0]).wire);
            var (s'', more) := Deliver(e, start, s', order[1..], befores[1..]);
            Deliver(e, start, s, order, befores) == (s'', sent + more)
  {
    TailsInRange(e, order, befores);
    EmittedIsBounded(e, start, order[0], befores[0]);
    hide Receive, EmittedAt, Bounded, EntryOk;
  }

  lemma FirstAnswer(e: Entry, start: u8, order: seq<nat>, at: nat, sequence: u8)
    requires EntryOk(e) && InRange(e, order) && order != []
    ensures InRange(e, order[1..])
    ensures ExpectedAnswers(e, start, order, at, sequence)
         == [AnswerWire(e, start, order[0], order[0] == at, sequence)]
            + ExpectedAnswers(e, start, order[1..], order[0] + 1, (sequence + 1) % 256)
  {
    hide AnswerWire;
  }

  lemma FirstInTurn(e: Entry, order: seq<nat>, at: nat)
    requires EntryOk(e) && order != [] && InTurn(e, order, at)
    ensures order[0] <= CommitAt(e) && (order[0] == at || order[0] + 1 == at) && InTurn(e, order[1..], order[0] + 1)
    ensures LastStage(order, at) == LastStage(order[1..], order[0] + 1)
  {
  }

  /** From power-up to CONFIGURED: whatever the repetitions, the device ends up with exactly the
      manifest's node, window and backup configuration and both weight arrays, and its first
      COMMIT_REPLY says success with the checksums the laptop predicts. */
  lemma EndToEnd(e: Entry, start: u8, s: Agent, order: seq<nat>, befores: seq<Packet>)
    requires EntryOk(e) && IsFresh(s)
    requires order != [] && InTurn(e, order, 0) && order[|order| - 1] == CommitAt(e)
    requires |befores| == |order| && AreVariables(befores)
    ensures InRange(e, order)
    ensures var (s', sent) := Deliver(e, start, s, order, befores);
            && s'.phase == Configured && Sized(s') && ConfigOf(s') == Intended(e) && s'.input == e.inputValue
            && sent == ExpectedAnswers(e, start, order, 0, s.sequence)
  {
    InTurnBounded(e, order, 0);
    DeliveredInTurn(e, start, s, order, befores, 0);
  }

  /** The datagram `pack_start` and `build_packet` make: "NNST", least significant byte first. */
  function StartWire(): (wire: Bytes)
    ensures Some(wire) == BuildPacket(0x09, 0, [0x54, 0x53, 0x4E, 0x4E])
  {
    BuildPacket(0x09, 0, [0x54, 0x53, 0x4E, 0x4E]).value
  }

  lemma StartWireIsStart()
    ensures StartWire() == WireOf(Start(0x4E4E5354), 0)
  {
    hide BuildPacket, StructBytes;
    LittleFour(0x4E4E5354);
    ShortStructs(0, 0, 0x4E4E5354, 0);
  }

  lemma StartReceived(id: u64, s: Agent, before: Packet)
    requires Sized(s) && (s.phase == Configured || s.phase == Running) && |before.payload| == MAX_PAYLOAD_WORDS
    ensures Bounded(before, StartWire()) && Receive(id, s, before, StartWire()) == (s.(phase := Running), [])
  {
    StartWireIsStart();
    hide Receive, Bounded, StartWire, WireOf;
    ReceiveMessage(id, s, before, Start(0x4E4E5354), 0);
  }

  /** From power-up to RUNNING: the built datagrams in order, then the START broadcast, any number
      of times, leave the device running on exactly the manifest's configuration. */
  lemma EndsRunning(e: Entry, start: u8, s: Agent, order: seq<nat>, befores: seq<Packet>, before: Packet)
    requires EntryOk(e) && IsFresh(s)
    requires order != [] && InTurn(e, order, 0) && order[|order| - 1] == CommitAt(e)
    requires |befores| == |order| && AreVariables(befores) && |before.payload| == MAX_PAYLOAD_WORDS
    ensures InRange(e, order) && Bounded(before, StartWire())
    ensures var configured := Deliver(e, start, s, order, befores).0;
            && Sized(configured) && configured.phase == Configured
            && var (running, sent) := Receive(e.hardwareId, configured, before, StartWire());
            && running.phase == Running && sent == []
            && Sized(running) && ConfigOf(running) == Intended(e) && running.input == e.inputValue
            && Receive(e.hardwareId, running, before, StartWire()) == (running, [])
  {
    EndToEnd(e, start, s, order, befores);
    var configured := Deliver(e, start, s, order, befores).0;
    hide Deliver, Receive, Bounded, StartWire, InTurn, Intended, InRange;
    StartReceived(e.hardwareId, configured, before);
    StartReceived(e.hardwareId, configured.(phase := Running), before);
  }
}
