/** What each setup message does to an agent, message by message and in both directions: who
    answers what, which phase follows, and what changes. */
module AgentEffects {
  import opened Words
  import opened Packets
  import opened SetupMessages
  import opened SetupAgents
  import opened Options

  /** Chunks are being collected: RECEIVING_CONFIG or VERIFYING. */
  predicate Gathers(s: Agent)
  {
    s.phase == ReceivingConfig || s.phase == Verifying
  }

  /** The message is for this device, and its phase admits it. */
  predicate Admitted(id: u64, s: Agent, m: Setup)
  {
    match m
    case AssignAddress(to, _) => to == id
    case TopologyInfo(to, _) => to == id
    case WeightsChunk(to, _) => to == id && Gathers(s)
    case BackupRoleInfo(to, _) => to == id && Gathers(s)
    case BackupWeightsChunk(to, _) => to == id && Gathers(s) && s.role.Some?
    case InputValue(to, _) => to == id
    case _ => false
  }

  /** A chunk beyond the array it is for. */
  predicate BeyondArray(s: Agent, m: Setup)
  {
    (m.WeightsChunk? && m.chunk.index >= s.expected) || (m.BackupWeightsChunk? && m.chunk.index >= s.expectedBackup)
  }

  predicate Accepted(id: u64, s: Agent, m: Setup)
  {
    Admitted(id, s, m) && !BeyondArray(s, m)
  }

  /** An accepted message is acknowledged under its opcode and sequence number, a chunk beyond the
      array refused with reason 1, a commit request answered by a COMMIT_REPLY, and nothing else
      is answered. What is not accepted, committed or started changes nothing. */
  lemma AnswersExactly(id: u64, s: Agent, sequence: u8, m: Setup)
    requires Sized(s) && InBounds(m)
    ensures var (s', answer) := Handle(id, s, sequence, m);
            && (Accepted(id, s, m) ==> answer == Some(Ack(id, sequence, Opcode(m))))
            && (Admitted(id, s, m) && BeyondArray(s, m) ==> answer == Some(Nack(id, sequence, Opcode(m), 1)))
            && (m == CommitRequest(id) ==> answer.Some? && answer.value.CommitReply?)
            && (answer.Some? ==> Admitted(id, s, m) || m == CommitRequest(id))
            && (!Accepted(id, s, m) && m != CommitRequest(id) && !m.Start? ==> s' == s)
  {
    hide MaybeAdvance, WriteChunk, HandleTopology, HandleRole, Addresses.Decode, PersistedOf, PrimaryChecksum, BackupChecksum;
  }

  /** All chunks of both arrays are there. */
  predicate AllThere(s: Agent)
  {
    && (forall k: nat | k < s.expected :: k in s.received)
    && (s.role.Some? ==> forall k: nat | k < s.expectedBackup :: k in s.receivedBackup)
  }

  /** What is expected never exceeds the mask. */
  predicate FewExpected(s: Agent)
  {
    s.expected < 64 && s.expectedBackup < 64
  }

  lemma CompleteIsAllThere(s: Agent)
    requires FewExpected(s)
    ensures BothComplete(s) <==> AllThere(s)
  {
    assert Least(s.expected, 64) == s.expected && Least(s.expectedBackup, 64) == s.expectedBackup;
  }

  /** VERIFYING follows RECEIVING_CONFIG exactly when all chunks are there; with it the weight
      pointer is set, and the backup's if there is a backup duty. */
  lemma AdvanceExactly(s: Agent)
    requires FewExpected(s)
    ensures var s' := MaybeAdvance(s);
            && s' == s.(phase := s'.phase, bound := s'.bound, backupBound := s'.backupBound)
            && s'.phase == (if s.phase == ReceivingConfig && AllThere(s) then Verifying else s.phase)
            && (s'.phase != s.phase ==> s'.bound && (s'.backupBound <==> s.backupBound || s.role.Some?))
            && (s'.phase == s.phase ==> s' == s)
  {
    CompleteIsAllThere(s);
    hide BothComplete, AllThere;
  }

  /** Messages that make the agent look whether all chunks have arrived. */
  predicate Restarts(id: u64, s: Agent, m: Setup)
  {
    (m.TopologyInfo? && m.hardwareId == id) || (m.BackupRoleInfo? && m.hardwareId == id && Gathers(s))
  }

  predicate AddsChunk(id: u64, s: Agent, m: Setup)
  {
    (m.WeightsChunk? || m.BackupWeightsChunk?) && Accepted(id, s, m)
  }

  lemma CountsFit(m: Setup)
    requires InBounds(m)
    ensures m.TopologyInfo? ==> ChunkCount(m.topology.weightCount) < 64
    ensures m.BackupRoleInfo? ==> ChunkCount(m.duty.weightCount) < 64
  {
  }

  /** From which phase and by which message each phase is reached. */
  predicate PhaseLaw(id: u64, s: Agent, m: Setup, s': Agent)
  {
    && FewExpected(s')
    && (s'.phase == Running <==>
          || (s.phase == Running && !Restarts(id, s, m))
          || (s.phase == Configured && m == Start(0x4E4E5354)))
    && (s'.phase == Configured <==>
          || (s.phase == Configured && !Restarts(id, s, m) && m != Start(0x4E4E5354))
          || (s.phase == Verifying && m == CommitRequest(id)))
    && (s'.phase == Verifying <==>
          || (s.phase == Verifying && !Restarts(id, s, m) && m != CommitRequest(id))
          || ((Restarts(id, s, m) || (s.phase == ReceivingConfig && AddsChunk(id, s, m))) && AllThere(s')))
    && (s'.phase == Unconfigured <==> s.phase == Unconfigured && !Restarts(id, s, m))
    && (s'.phase == Loading <==> s.phase == Loading && !Restarts(id, s, m))
  }

  lemma TopologyPhase(id: u64, s: Agent, sequence: u8, t: Topology)
    requires Sized(s) && t.weightCount <= MAX_WEIGHTS && FewExpected(s)
    ensures PhaseLaw(id, s, TopologyInfo(id, t), Handle(id, s, sequence, TopologyInfo(id, t)).0)
  {
    CountsFit(TopologyInfo(id, t));
    hide AllThere, ChunkCount;
    var s0 := s.(topology := t, ownLayer := s.address.layer, expected := ChunkCount(t.weightCount), received := {},
                 phase := ReceivingConfig);
    AdvanceExactly(s0);
    hide MaybeAdvance;
    SamePieces(MaybeAdvance(s0), s0);
  }

  lemma RolePhase(id: u64, s: Agent, sequence: u8, d: Duty)
    requires Sized(s) && d.weightCount <= MAX_WEIGHTS && FewExpected(s) && Gathers(s)
    ensures PhaseLaw(id, s, BackupRoleInfo(id, d), Handle(id, s, sequence, BackupRoleInfo(id, d)).0)
  {
    CountsFit(BackupRoleInfo(id, d));
    hide AllThere, Addresses.Decode, RoleFrom, ChunkCount;
    var s0 := s.(role := Some(RoleFrom(d)), expectedBackup := ChunkCount(d.weightCount), receivedBackup := {},
                 phase := ReceivingConfig);
    AdvanceExactly(s0);
    hide MaybeAdvance;
    SamePieces(MaybeAdvance(s0), s0);
  }

  lemma ChunkPhase(id: u64, s: Agent, sequence: u8, m: Setup)
    requires Sized(s) && InBounds(m) && FewExpected(s) && AddsChunk(id, s, m)
    ensures PhaseLaw(id, s, m, Handle(id, s, sequence, m).0)
  {
    hide AllThere, WriteChunk;
    var c := m.chunk;
    var s0 := if m.WeightsChunk?
      then s.(weights := WriteChunk(s.weights, c), received := s.received + {c.index as nat})
      else s.(backupWeights := WriteChunk(s.backupWeights, c), receivedBackup := s.receivedBackup + {c.index as nat});
    AdvanceExactly(s0);
    hide MaybeAdvance;
    assert Handle(id, s, sequence, m).0 == MaybeAdvance(s0);
    SamePieces(MaybeAdvance(s0), s0);
  }

  /** The next phase, for every phase and message. */
  lemma NextPhase(id: u64, s: Agent, sequence: u8, m: Setup)
    requires Sized(s) && InBounds(m) && FewExpected(s)
    ensures PhaseLaw(id, s, m, Handle(id, s, sequence, m).0)
  {
    if m.TopologyInfo? && Restarts(id, s, m) {
      TopologyPhase(id, s, sequence, m.topology);
    } else if Restarts(id, s, m) {
      RolePhase(id, s, sequence, m.duty);
    } else if AddsChunk(id, s, m) {
      ChunkPhase(id, s, sequence, m);
    } else {
      hide MaybeAdvance, WriteChunk, HandleTopology, HandleRole, Addresses.Decode, AllThere;
    }
  }

  lemma SamePieces(s: Agent, s': Agent)
    ensures s.expected == s'.expected && s.received == s'.received && s.role == s'.role
            && s.expectedBackup == s'.expectedBackup && s.receivedBackup == s'.receivedBackup ==>
              (AllThere(s) <==> AllThere(s'))
  {
  }

  // ---- What an accepted message leaves behind ----

  /** The same but for the phase and the two pointers that follow it. */
  predicate SameButPhase(s: Agent, s': Agent)
  {
    s' == s.(phase := s'.phase, bound := s'.bound, backupBound := s'.backupBound)
  }

  lemma AdvanceKeeps(s: Agent)
    ensures SameButPhase(s, MaybeAdvance(s))
  {
  }

  /** The least number of chunks of eleven that hold so many weights. */
  predicate ChunksFor(expected: nat, weights: nat)
  {
    11 * expected >= weights && (expected > 0 ==> 11 * (expected - 1) < weights)
  }

  lemma ConfigurationTaken(id: u64, s: Agent, sequence: u8, m: Setup)
    requires Sized(s) && InBounds(m) && Accepted(id, s, m)
    ensures var s' := Handle(id, s, sequence, m).0;
            && (m.AssignAddress? ==> Addresses.Encode(s'.address) == m.address && s' == s.(address := s'.address))
            && (m.InputValue? ==> s' == s.(input := Some(m.value)))
            && (m.TopologyInfo? ==>
                  && s'.ownLayer == s.address.layer && ChunksFor(s'.expected, m.topology.weightCount)
                  && SameButPhase(s.(topology := m.topology, ownLayer := s'.ownLayer, received := {}, expected := s'.expected), s'))
            && (m.BackupRoleInfo? ==>
                  && s'.role.Some? && ChunksFor(s'.expectedBackup, m.duty.weightCount)
                  && SameButPhase(s.(role := s'.role, receivedBackup := {}, expectedBackup := s'.expectedBackup), s')
                  && var r := s'.role.value;
                     && Addresses.Encode(r.target) == m.duty.target && r.predecessors == m.duty.predecessors
                     && r.layerRoster == m.duty.layerRoster && r.activation == m.duty.activation
                     && r.weightCount == m.duty.weightCount && r.resendGraceMs == m.duty.resendGraceMs
                     && r.predecessorLayer == m.duty.predecessorLayer && r.bias == m.duty.bias)
  {
    match m
    case AssignAddress(_, address) => Addresses.EncodeDecode(address);
    case TopologyInfo(_, t) =>
      AdvanceKeeps(s.(topology := t, ownLayer := s.address.layer, expected := ChunkCount(t.weightCount), received := {},
                      phase := ReceivingConfig));
      hide MaybeAdvance;
    case BackupRoleInfo(_, d) =>
      Addresses.EncodeDecode(d.target);
      AdvanceKeeps(s.(role := Some(RoleFrom(d)), expectedBackup := ChunkCount(d.weightCount), receivedBackup := {},
                      phase := ReceivingConfig));
      hide MaybeAdvance, Addresses.Encode, Addresses.Decode;
    case _ =>
  }

  /** `after` is `before` with the chunk's valid values from place 11 * index on. */
  predicate ChunkIn(before: seq<Float>, after: seq<Float>, c: Chunk)
    requires |c.values| == 11 && c.valid <= 11
  {
    && |after| == |before|
    && forall j: nat | j < |before| ::
         after[j] == if 11 * c.index <= j < 11 * c.index + c.valid then c.values[j - 11 * c.index] else before[j]
  }

  lemma ChunkTaken(id: u64, s: Agent, sequence: u8, m: Setup)
    requires Sized(s) && InBounds(m) && AddsChunk(id, s, m)
    ensures var s' := Handle(id, s, sequence, m).0;
            && |s'.weights| == 64 && |s'.backupWeights| == 64
            && (m.WeightsChunk? ==>
                  && ChunkIn(s.weights, s'.weights, m.chunk)
                  && SameButPhase(s.(weights := s'.weights, received := s.received + {m.chunk.index as nat}), s'))
            && (m.BackupWeightsChunk? ==>
                  && ChunkIn(s.backupWeights, s'.backupWeights, m.chunk)
                  && SameButPhase(s.(backupWeights := s'.backupWeights,
                                     receivedBackup := s.receivedBackup + {m.chunk.index as nat}), s'))
  {
    hide MaybeAdvance, WriteChunk, ChunkIn;
    var c := m.chunk;
    ChunkWritten(s.weights, c);
    ChunkWritten(s.backupWeights, c);
    if m.WeightsChunk? {
      AdvanceKeeps(s.(weights := WriteChunk(s.weights, c), received := s.received + {c.index as nat}));
    } else {
      AdvanceKeeps(s.(backupWeights := WriteChunk(s.backupWeights, c), receivedBackup := s.receivedBackup + {c.index as nat}));
    }
  }

  lemma ChunkWritten(storage: seq<Float>, c: Chunk)
    requires |c.values| == 11 && c.valid <= 11
    ensures ChunkIn(storage, WriteChunk(storage, c), c)
  {
  }

  /** The COMMIT_REPLY and what is saved with it: success, and the byte sums of the weights in
      memory, exactly in VERIFYING. */
  lemma CommitTaken(id: u64, s: Agent, sequence: u8)
    requires Sized(s)
    ensures var (s', answer) := Handle(id, s, sequence, CommitRequest(id));
            && answer.Some? && answer.value.CommitReply?
            && var r := answer.value;
               && r.hardwareId == id && r.hasBackup == (if s.role.Some? then 1 else 0)
               && (if s.phase == Verifying then
                     && r.success == 1 && r.checksum == Checksum(MemoryBytes(s.weights[..s.topology.weightCount]))
                     && r.backupChecksum == (if s.role.None? then 0
                                             else Checksum(MemoryBytes(s.backupWeights[..s.role.value.weightCount])))
                     && s'.saved.Some? && s' == s.(phase := Configured, saved := s'.saved)
                     && s'.saved.value.topology == s.topology && s'.saved.value.weights == s.weights[..s.topology.weightCount]
                     && s'.saved.value.duty.Some? == s.role.Some?
                   else r.success == 0 && r.checksum == 0 && r.backupChecksum == 0 && s' == s)
  {
    hide Checksum, MemoryBytes, Addresses.Encode;
  }
}
