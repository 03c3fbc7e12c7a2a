/** The device's side of the setup protocol (`NNSetupAgent`): what every message does to the
    agent's state, and what the agent answers. */
module SetupAgents {
  import opened Words
  import opened Addresses
  import opened Packets
  import opened SetupMessages
  import opened Nodes
  import opened Options

  const MAX_WEIGHTS: nat := 64

  datatype SetupPhase = Loading | Unconfigured | ReceivingConfig | Verifying | Configured | Running

  /** The backup half of `NNNodeConfig`. */
  datatype Role = Role(
    target: Address,
    predecessors: u16,
    layerRoster: u16,
    activation: u8,
    weightCount: u8,
    resendGraceMs: u32,
    predecessorLayer: u8,
    bias: Float)

  /** `NNPersistedConfig`. */
  datatype Persisted = Persisted(
    address: u16,
    topology: Topology,
    weights: seq<Float>,
    duty: Option<Duty>,
    backupWeights: seq<Float>)

  /** `weights` and `backupWeights` are the whole storage arrays; `bound` says that the node
      configuration's weight pointer has been set to its array. `saved` is what the
      configuration store was last given. */
  datatype Agent = Agent(
    phase: SetupPhase,
    address: Address,
    topology: Topology,
    ownLayer: u8,
    role: Option<Role>,
    weights: seq<Float>,
    received: set<nat>,
    expected: nat,
    backupWeights: seq<Float>,
    receivedBackup: set<nat>,
    expectedBackup: nat,
    bound: bool,
    backupBound: bool,
    input: Option<Float>,
    saved: Option<Persisted>,
    sequence: u8)

  /** Both storage arrays have their size, and counts stay inside them. */
  predicate Sized(s: Agent)
  {
    && |s.weights| == MAX_WEIGHTS && |s.backupWeights| == MAX_WEIGHTS
    && s.topology.weightCount <= MAX_WEIGHTS
    && (s.role.Some? ==> s.role.value.weightCount <= MAX_WEIGHTS)
  }

  /** Beyond these bounds the firmware would read or write outside its arrays. */
  predicate InBounds(m: Setup)
  {
    && (m.TopologyInfo? ==> m.topology.weightCount <= MAX_WEIGHTS)
    && (m.BackupRoleInfo? ==> m.duty.weightCount <= MAX_WEIGHTS)
    && (m.WeightsChunk? || m.BackupWeightsChunk? ==> m.chunk.valid <= CHUNK_FLOATS && |m.chunk.values| == CHUNK_FLOATS)
  }

  function RoleFrom(d: Duty): Role
  {
    Role(Addresses.Decode(d.target), d.predecessors, d.layerRoster, d.activation, d.weightCount, d.resendGraceMs,
         d.predecessorLayer, d.bias)
  }

  function DutyOf(r: Role): Duty
  {
    Duty(Addresses.Encode(r.target), r.predecessors, r.layerRoster, r.activation, r.weightCount, r.resendGraceMs,
         r.predecessorLayer, r.bias)
  }

  /** `expectedChunkCount` for so many weights. */
  function ChunkCount(weights: nat): nat
  {
    (weights + CHUNK_FLOATS - 1) / CHUNK_FLOATS
  }

  function Least(a: nat, b: nat): nat
  {
    if a <= b then a else b
  }

  predicate AllChunks(received: set<nat>, expected: nat)
  {
    Range(Least(expected, 64)) <= received
  }

  predicate BothComplete(s: Agent)
  {
    AllChunks(s.received, s.expected) && (s.role.Some? ==> AllChunks(s.receivedBackup, s.expectedBackup))
  }

  function MaybeAdvance(s: Agent): Agent
  {
    if s.phase == ReceivingConfig && BothComplete(s)
    then s.(phase := Verifying, bound := true, backupBound := s.backupBound || s.role.Some?)
    else s
  }

  /** The copy loop: `valid` values from offset `11 * index`, clipped at the end of the array. */
  function WriteChunk(storage: seq<Float>, c: Chunk): (r: seq<Float>)
    requires c.valid <= CHUNK_FLOATS == |c.values|
    ensures |r| == |storage|
  {
    var offset := CHUNK_FLOATS * c.index;
    seq(|storage|, j requires 0 <= j < |storage| =>
      if offset <= j < offset + c.valid then c.values[j - offset] else storage[j])
  }

  predicate Collecting(s: Agent)
  {
    s.phase == ReceivingConfig || s.phase == Verifying
  }

  function PersistedOf(s: Agent): Persisted
    requires Sized(s)
  {
    Persisted(Addresses.Encode(s.address), s.topology, s.weights[..s.topology.weightCount],
              if s.role.Some? then Some(DutyOf(s.role.value)) else None,
              if s.role.Some? then s.backupWeights[..s.role.value.weightCount] else [])
  }

  function WeightsChecksum(weights: seq<Float>): u8
  {
    Checksum(MemoryBytes(weights))
  }

  function PrimaryChecksum(s: Agent): u8
    requires Sized(s)
  {
    WeightsChecksum(s.weights[..s.topology.weightCount])
  }

  function BackupChecksum(s: Agent): u8
    requires Sized(s)
  {
    if s.role.Some? then WeightsChecksum(s.backupWeights[..s.role.value.weightCount]) else 0
  }

  function Flag(b: bool): u8
  {
    if b then 1 else 0
  }

  function HandleTopology(s: Agent, t: Topology): Agent
  {
    MaybeAdvance(s.(topology := t, ownLayer := s.address.layer, expected := ChunkCount(t.weightCount), received := {},
                    phase := ReceivingConfig))
  }

  function HandleRole(s: Agent, d: Duty): Agent
  {
    MaybeAdvance(s.(role := Some(RoleFrom(d)), expectedBackup := ChunkCount(d.weightCount), receivedBackup := {},
                    phase := ReceivingConfig))
  }

  function HandleCommit(id: u64, s: Agent): (Agent, Setup)
    requires Sized(s)
  {
    if s.phase == Verifying
    then (s.(phase := Configured, saved := Some(PersistedOf(s))),
          CommitReply(id, PrimaryChecksum(s), BackupChecksum(s), 1, Flag(s.role.Some?)))
    else (s, CommitReply(id, 0, 0, 0, Flag(s.role.Some?)))
  }

  predicate IsAnswer(m: Setup)
  {
    m.Ack? || m.Nack? || m.CommitReply?
  }

  /** `onSetupPacket`: the new state and the answer, if there is one. */
  function Handle(id: u64, s: Agent, sequence: u8, m: Setup): (r: (Agent, Option<Setup>))
    requires Sized(s) && InBounds(m)
    ensures Sized(r.0) && r.0.sequence == s.sequence
    ensures r.1.Some? ==> IsAnswer(r.1.value) && r.1.value.hardwareId == id
  {
    match m
    case AssignAddress(to, address) =>
      if to != id then (s, None)
      else (s.(address := Addresses.Decode(address)), Some(Ack(id, sequence, ASSIGN_ADDRESS)))
    case TopologyInfo(to, t) =>
      if to != id then (s, None) else (HandleTopology(s, t), Some(Ack(id, sequence, TOPOLOGY_INFO)))
    case WeightsChunk(to, c) =>
      if to != id || !Collecting(s) then (s, None)
      else if c.index >= s.expected then (s, Some(Nack(id, sequence, WEIGHTS_CHUNK, BAD_CHUNK_INDEX)))
      else (MaybeAdvance(s.(weights := WriteChunk(s.weights, c), received := s.received + {c.index as nat})),
            Some(Ack(id, sequence, WEIGHTS_CHUNK)))
    case BackupRoleInfo(to, d) =>
      if to != id || !Collecting(s) then (s, None) else (HandleRole(s, d), Some(Ack(id, sequence, BACKUP_ROLE_INFO)))
    case BackupWeightsChunk(to, c) =>
      if to != id || s.role.None? || !Collecting(s) then (s, None)
      else if c.index >= s.expectedBackup then (s, Some(Nack(id, sequence, BACKUP_WEIGHTS_CHUNK, BAD_CHUNK_INDEX)))
      else (MaybeAdvance(s.(backupWeights := WriteChunk(s.backupWeights, c),
                            receivedBackup := s.receivedBackup + {c.index as nat})),
            Some(Ack(id, sequence, BACKUP_WEIGHTS_CHUNK)))
    case InputValue(to, value) =>
      if to != id then (s, None) else (s.(input := Some(value)), Some(Ack(id, sequence, INPUT_VALUE)))
    case CommitRequest(to) =>
      if to != id then (s, None) else var (s', reply) := HandleCommit(id, s); (s', Some(reply))
    case Start(magic) =>
      if magic == START_MAGIC && s.phase == Configured then (s.(phase := Running), None) else (s, None)
    case Hello(_) => (s, None)
    case CommitReply(_, _, _, _, _) => (s, None)
    case Ack(_, _, _) => (s, None)
    case Nack(_, _, _, _) => (s, None)
    case Unknown(_) => (s, None)
  }

  /** The same, from packet to packets: every answer takes the next sequence number. */
  function HandlePacket(id: u64, s: Agent, p: Packet): (Agent, seq<Packet>)
    requires Sized(s) && |p.payload| == MAX_PAYLOAD_WORDS && InBounds(MessageIn(p))
  {
    var (s', reply) := Handle(id, s, p.header.sequence, MessageIn(p));
    if reply.None? then (s', [])
    else (s'.(sequence := (s.sequence + 1) % 256), [PacketFor(reply.value, s.sequence)])
  }

  /** `getNodeConfig` and `getWindowConfig`, as the runtime takes them over. */
  function ConfigOf(s: Agent): NodeConfig
    requires Sized(s)
  {
    var t := s.topology;
    NodeConfig(s.address, t.predecessors, t.successor, t.transmitSlot, t.activation,
               if s.bound then s.weights[..t.weightCount] else [], t.bias, t.predecessorLayer, s.ownLayer,
               t.precedingSiblings,
               if s.role.None? then None
               else
                 var r := s.role.value;
                 Some(BackupRole(r.target, r.predecessors, r.activation,
                                 if s.backupBound then s.backupWeights[..r.weightCount] else [],
                                 r.bias, r.resendGraceMs, r.layerRoster, r.predecessorLayer)))
  }

  /** `begin` with a configuration found in the store: `applyPersisted`, then CONFIGURED. The
      arrays keep what they held beyond the saved weights. */
  function Restore(s: Agent, saved: Persisted): Agent
    requires |s.weights| == MAX_WEIGHTS && |s.backupWeights| == MAX_WEIGHTS
    requires |saved.weights| <= MAX_WEIGHTS && |saved.backupWeights| <= MAX_WEIGHTS
  {
    var address := Addresses.Decode(saved.address);
    s.(phase := Configured, address := address, topology := saved.topology, ownLayer := address.layer,
       weights := saved.weights + s.weights[|saved.weights|..], bound := true,
       role := if saved.duty.Some? then Some(RoleFrom(saved.duty.value)) else None,
       backupWeights := if saved.duty.Some? then saved.backupWeights + s.backupWeights[|saved.backupWeights|..]
                        else s.backupWeights,
       backupBound := s.backupBound || saved.duty.Some?)
  }

  /** An agent after construction and `begin` with an empty store; its arrays hold anything. */
  predicate IsFresh(s: Agent)
  {
    && Sized(s) && s.phase == Unconfigured && s.role.None? && s.received == {} && s.expected == 0
    && s.receivedBackup == {} && s.expectedBackup == 0 && !s.bound && !s.backupBound && s.input.None? && s.saved.None?
  }
}
