/** `NNSetupAgent` field by field, proved against module `SetupAgents`.

    The two weight arrays are allocated once and written in place; the sets of received
    chunks are 64-bit masks, and the mask tests are related to those sets. A method that
    handles one message states the agent's whole new state and its answer, so that the
    theorems about sequences of messages hold of the object. */
module SetupAgentObjects {
  import opened Words
  import opened Addresses
  import opened Packets
  import opened SetupMessages
  import opened SetupAgents
  import opened Options

  const NO_TOPOLOGY := Topology(0, 0, 0, 0, 0, 0, 0, 0)
  const NO_ROLE := Role(Address(0, 0, 0, 0), 0, 0, 0, 0, 0, 0, 0)

  // ---- Masks of up to 64 chunks ----

  function Chunks(m: u64): set<nat>
  {
    set k: nat | k < 64 && Test(m, k)
  }

  lemma Pow64()
    ensures Pow2(64) == 0x1_0000_0000_0000_0000
  {
    Pow2Values();
    Pow2Product(16, 16);
    Pow2Product(32, 32);
  }

  lemma ChunksZero()
    ensures Chunks(0) == {}
  {
    if k :| k in Chunks(0) { TestZero(k); }
  }

  /** `mask |= uint64_t(1) << index`. */
  lemma ChunksOr(m: u64, index: nat)
    requires index < 64
    ensures Or(m, Pow2(index)) < 0x1_0000_0000_0000_0000
    ensures Chunks(Or(m, Pow2(index))) == Chunks(m) + {index}
  {
    Pow64();
    Pow2Mono(index + 1, 64);
    OrBound(m, Pow2(index), 64);
    forall k: nat | k < 64
      ensures Test(Or(m, Pow2(index)), k) == (Test(m, k) || k == index)
    {
      TestOr(m, Pow2(index), k);
      TestPow2(index, k);
    }
  }

  /** The mask of the first `expected` chunks, all ones from 64 on. */
  function ExpectedMask(expected: nat): (m: u64)
    ensures m == Pow2(Least(expected, 64)) - 1
  {
    Pow64();
    if expected >= 64 then 0xFFFF_FFFF_FFFF_FFFF
    else
      Pow2Mono(expected, 64);
      Pow2(expected) - 1
  }

  lemma ChunksCover(received: u64, expected: nat)
    ensures And(received, ExpectedMask(expected)) == ExpectedMask(expected) <==> AllChunks(Chunks(received), expected)
  {
    var mask, n := ExpectedMask(expected), Least(expected, 64);
    var both := And(received, mask);
    Pow64();
    forall k: nat
      ensures Test(both, k) == (Test(received, k) && k < n)
      ensures Test(mask, k) == (k < n)
    {
      TestAnd(received, mask, k);
      TestOnes(n, k);
    }
    if both == mask {
      forall k | k in Range(n)
        ensures k in Chunks(received)
      {
        assert Test(both, k);
      }
    }
    if Range(n) <= Chunks(received) {
      AndBound(received, mask);
      forall k | 0 <= k < 64
        ensures Test(both, k) == Test(mask, k)
      {
        if k < n { assert k in Range(n); }
      }
      TestExtensional(both, mask, 64);
    }
  }

  lemma RoleKeepsCount(d: Duty)
    ensures RoleFrom(d).weightCount == d.weightCount
  {
  }

  class SetupAgent {
    const hwId: u64
    var state: SetupPhase
    var sequenceCounter: u8
    var address: Address
    var topology: Topology
    var ownLayerId: u8
    var hasBackupRole: bool
    var role: Role
    const weightStorage: array<Float>
    var receivedChunkMask: u64
    var expectedChunkCount: u8
    const backupWeightStorage: array<Float>
    var receivedBackupChunkMask: u64
    var expectedBackupChunkCount: u8
    var weightsBound: bool
    var backupWeightsBound: bool
    var hasInputValue: bool
    var pendingInputValue: Float
    var store: Option<Persisted>

    ghost predicate Valid()
      reads this, weightStorage, backupWeightStorage
    {
      && weightStorage.Length == MAX_WEIGHTS && backupWeightStorage.Length == MAX_WEIGHTS
      && weightStorage != backupWeightStorage
      && topology.weightCount <= MAX_WEIGHTS && (hasBackupRole ==> role.weightCount <= MAX_WEIGHTS)
      && expectedChunkCount < 64 && expectedBackupChunkCount < 64
    }

    ghost function State(): (s: Agent)
      requires Valid()
      reads this, weightStorage, backupWeightStorage
      ensures Sized(s)
    {
      Agent(state, address, topology, ownLayerId, if hasBackupRole then Some(role) else None,
            weightStorage[..], Chunks(receivedChunkMask), expectedChunkCount,
            backupWeightStorage[..], Chunks(receivedBackupChunkMask), expectedBackupChunkCount,
            weightsBound, backupWeightsBound, if hasInputValue then Some(pendingInputValue) else None,
            store, sequenceCounter)
    }

    /** Construction and `begin` with nothing in the store. */
    constructor (hardwareId: u64)
      ensures Valid() && IsFresh(State()) && hwId == hardwareId && State().sequence == 0
      ensures fresh(weightStorage) && fresh(backupWeightStorage)
    {
      hwId, state, sequenceCounter := hardwareId, Unconfigured, 0;
      address, topology, ownLayerId := Address(0, 0, 0, 0), NO_TOPOLOGY, 0;
      hasBackupRole, role := false, NO_ROLE;
      weightStorage, backupWeightStorage := new Float[MAX_WEIGHTS], new Float[MAX_WEIGHTS];
      receivedChunkMask, expectedChunkCount, receivedBackupChunkMask, expectedBackupChunkCount := 0, 0, 0, 0;
      weightsBound, backupWeightsBound, hasInputValue, pendingInputValue := false, false, false, 0;
      store := None;
      new;
      ChunksZero();
    }

    method BothAreComplete() returns (complete: bool)
      requires Valid()
      ensures complete == BothComplete(State())
    {
      ChunksCover(receivedChunkMask, expectedChunkCount);
      ChunksCover(receivedBackupChunkMask, expectedBackupChunkCount);
      var mask := ExpectedMask(expectedChunkCount);
      if And(receivedChunkMask, mask) != mask { return false; }
      if !hasBackupRole { return true; }
      var backupMask := ExpectedMask(expectedBackupChunkCount);
      complete := And(receivedBackupChunkMask, backupMask) == backupMask;
    }

    method MaybeAdvanceToVerifying()
      requires Valid()
      modifies `state, `weightsBound, `backupWeightsBound
      ensures Valid() && State() == MaybeAdvance(old(State()))
    {
      hide BothComplete;
      if state != ReceivingConfig { return; }
      var complete := BothAreComplete();
      if !complete { return; }
      weightsBound := true;
      if hasBackupRole { backupWeightsBound := true; }
      state := Verifying;
    }

    /** Sends an answer under the next sequence number. */
    method Send(answer: Setup) returns (sent: seq<Packet>)
      requires Valid() && IsAnswer(answer)
      modifies `sequenceCounter
      ensures Valid() && State() == old(State()).(sequence := (old(State()).sequence + 1) % 256)
      ensures sent == [PacketFor(answer, old(State()).sequence)]
    {
      sent := [PacketFor(answer, sequenceCounter)];
      sequenceCounter := (sequenceCounter + 1) % 256;
    }

    static method CopyChunk(storage: array<Float>, c: Chunk)
      requires storage.Length == MAX_WEIGHTS && c.valid <= CHUNK_FLOATS == |c.values|
      modifies storage
      ensures storage[..] == WriteChunk(old(storage[..]), c)
    {
      var offset := CHUNK_FLOATS * c.index;
      var i := 0;
      while i < c.valid && offset + i < MAX_WEIGHTS
        invariant i <= c.valid && (i > 0 ==> offset + i <= MAX_WEIGHTS)
        invariant forall j | 0 <= j < MAX_WEIGHTS ::
                    storage[j] == if offset <= j < offset + i then c.values[j - offset] else old(storage[j])
      {
        storage[offset + i] := c.values[i];
        i := i + 1;
      }
    }

    method HandleTopologyInfo(t: Topology)
      requires Valid() && t.weightCount <= MAX_WEIGHTS
      modifies this
      ensures Valid() && State() == HandleTopology(old(State()), t)
    {
      hide MaybeAdvance, Chunks;
      topology := t;
      ownLayerId := address.layer;
      expectedChunkCount := ChunkCount(t.weightCount);
      receivedChunkMask := 0;
      ChunksZero();
      state := ReceivingConfig;
      MaybeAdvanceToVerifying();
    }

    method HandleBackupRoleInfo(d: Duty)
      requires Valid() && d.weightCount <= MAX_WEIGHTS
      modifies this
      ensures Valid() && State() == HandleRole(old(State()), d)
    {
      hide MaybeAdvance, RoleFrom, Chunks;
      hasBackupRole := true;
      var r := RoleFrom(d);
      assert r.weightCount == d.weightCount by { RoleKeepsCount(d); }
      role := r;
      expectedBackupChunkCount := ChunkCount(d.weightCount);
      receivedBackupChunkMask := 0;
      ChunksZero();
      state := ReceivingConfig;
      MaybeAdvanceToVerifying();
    }

    method StoreChunk(c: Chunk)
      requires Valid() && c.valid <= CHUNK_FLOATS == |c.values| && c.index < expectedChunkCount
      modifies this, weightStorage
      ensures Valid()
      ensures State() == var s := old(State());
                         MaybeAdvance(s.(weights := WriteChunk(s.weights, c), received := s.received + {c.index as nat}))
    {
      CopyChunk(weightStorage, c);
      ChunksOr(receivedChunkMask, c.index);
      receivedChunkMask := Or(receivedChunkMask, Pow2(c.index));
      MaybeAdvanceToVerifying();
    }

    method StoreBackupChunk(c: Chunk)
      requires Valid() && c.valid <= CHUNK_FLOATS == |c.values| && c.index < expectedBackupChunkCount
      modifies this, backupWeightStorage
      ensures Valid()
      ensures State() == var s := old(State());
                         MaybeAdvance(s.(backupWeights := WriteChunk(s.backupWeights, c),
                                         receivedBackup := s.receivedBackup + {c.index as nat}))
    {
      CopyChunk(backupWeightStorage, c);
      ChunksOr(receivedBackupChunkMask, c.index);
      receivedBackupChunkMask := Or(receivedBackupChunkMask, Pow2(c.index));
      MaybeAdvanceToVerifying();
    }

    /** `toSave` and `store.save`, and the reply. */
    method HandleCommitRequest() returns (reply: Setup)
      requires Valid()
      modifies `store, `state
      ensures Valid() && (State(), reply) == HandleCommit(hwId, old(State()))
    {
      var ok := state == Verifying;
      var weights, backupWeights := weightStorage[..topology.weightCount], [];
      if hasBackupRole { backupWeights := backupWeightStorage[..role.weightCount]; }
      var checksum: u8 := if ok then WeightsChecksum(weights) else 0;
      var backupChecksum: u8 := if ok && hasBackupRole then WeightsChecksum(backupWeights) else 0;
      if ok {
        store := Some(Persisted(Addresses.Encode(address), topology, weights,
                                if hasBackupRole then Some(DutyOf(role)) else None, backupWeights));
        state := Configured;
      }
      reply := CommitReply(hwId, checksum, backupChecksum, Flag(ok), Flag(hasBackupRole));
    }

    /** The switch over the opcode, with each handler's own guards. */
    method HandleMessage(sequence: u8, m: Setup) returns (answer: Option<Setup>)
      requires Valid() && InBounds(m)
      modifies this, weightStorage, backupWeightStorage
      ensures Valid() && (State(), answer) == Handle(hwId, old(State()), sequence, m)
    {
      hide MaybeAdvance, WriteChunk, PersistedOf, WeightsChecksum, HandleTopology, HandleRole, HandleCommit, Chunks;
      answer := None;
      match m {
        case AssignAddress(to, raw) =>
          if to != hwId { return; }
          address := Addresses.Decode(raw);
          answer := Some(Ack(hwId, sequence, ASSIGN_ADDRESS));
        case TopologyInfo(to, t) =>
          if to != hwId { return; }
          HandleTopologyInfo(t);
          answer := Some(Ack(hwId, sequence, TOPOLOGY_INFO));
        case WeightsChunk(to, c) =>
          if to != hwId { return; }
          if state != ReceivingConfig && state != Verifying { return; }
          if c.index >= expectedChunkCount { return Some(Nack(hwId, sequence, WEIGHTS_CHUNK, BAD_CHUNK_INDEX)); }
          StoreChunk(c);
          answer := Some(Ack(hwId, sequence, WEIGHTS_CHUNK));
        case BackupRoleInfo(to, d) =>
          if to != hwId { return; }
          if state != ReceivingConfig && state != Verifying { return; }
          HandleBackupRoleInfo(d);
          answer := Some(Ack(hwId, sequence, BACKUP_ROLE_INFO));
        case BackupWeightsChunk(to, c) =>
          if to != hwId { return; }
          if !hasBackupRole { return; }
          if state != ReceivingConfig && state != Verifying { return; }
          if c.index >= expectedBackupChunkCount { return Some(Nack(hwId, sequence, BACKUP_WEIGHTS_CHUNK, BAD_CHUNK_INDEX)); }
          StoreBackupChunk(c);
          answer := Some(Ack(hwId, sequence, BACKUP_WEIGHTS_CHUNK));
        case InputValue(to, value) =>
          if to != hwId { return; }
          pendingInputValue, hasInputValue := value, true;
          answer := Some(Ack(hwId, sequence, INPUT_VALUE));
        case CommitRequest(to) =>
          if to != hwId { return; }
          var reply := HandleCommitRequest();
          answer := Some(reply);
        case Start(magic) =>
          if magic != START_MAGIC { return; }
          if state == Configured { state := Running; }
        case Hello(_) =>
        case CommitReply(_, _, _, _, _) =>
        case Ack(_, _, _) =>
        case Nack(_, _, _, _) =>
        case Unknown(_) =>
      }
    }

    method OnSetupPacket(p: Packet) returns (sent: seq<Packet>)
      requires Valid() && |p.payload| == MAX_PAYLOAD_WORDS && InBounds(MessageIn(p))
      modifies this, weightStorage, backupWeightStorage
      ensures Valid() && (State(), sent) == HandlePacket(hwId, old(State()), p)
    {
      hide Handle;
      sent := [];
      var answer := HandleMessage(p.header.sequence, MessageIn(p));
      if answer.Some? { sent := Send(answer.value); }
    }

    static method CopyPrefix(source: seq<Float>, storage: array<Float>)
      requires |source| <= storage.Length
      modifies storage
      ensures storage[..] == source + old(storage[|source|..])
    {
      for i := 0 to |source|
        invariant forall j | 0 <= j < i :: storage[j] == source[j]
        invariant forall j | i <= j < storage.Length :: storage[j] == old(storage[j])
      {
        storage[i] := source[i];
      }
    }

    /** `applyPersisted` and the rest of `begin`. */
    method RestoreFrom(saved: Persisted)
      requires Valid() && saved.topology.weightCount == |saved.weights| <= MAX_WEIGHTS
      requires saved.duty.Some? ==> saved.duty.value.weightCount == |saved.backupWeights|
      requires |saved.backupWeights| <= MAX_WEIGHTS
      modifies this, weightStorage, backupWeightStorage
      ensures Valid() && State() == Restore(old(State()), saved)
    {
      hide Addresses.Decode, RoleFrom, Chunks;
      if saved.duty.Some? { RoleKeepsCount(saved.duty.value); }
      address := Addresses.Decode(saved.address);
      topology := saved.topology;
      CopyPrefix(saved.weights, weightStorage);
      weightsBound := true;
      ownLayerId := address.layer;
      hasBackupRole := saved.duty.Some?;
      if saved.duty.Some? {
        role := RoleFrom(saved.duty.value);
        CopyPrefix(saved.backupWeights, backupWeightStorage);
        backupWeightsBound := true;
      }
      state := Configured;
    }
  }
}
