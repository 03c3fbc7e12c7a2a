/** What the agent never does, whatever packets arrive in whatever order; and what survives
    a reboot. */
module AgentSafety {
  import opened Words
  import opened Addresses
  import opened SetupMessages
  import opened SetupAgents
  import opened Options

  /** A received message with its packet's sequence number. */
  datatype Delivery = Delivery(sequence: u8, message: Setup)

  predicate AllInBounds(ds: seq<Delivery>)
  {
    forall d | d in ds :: InBounds(d.message)
  }

  function After(id: u64, s: Agent, ds: seq<Delivery>): (r: Agent)
    requires Sized(s) && AllInBounds(ds)
    ensures Sized(r)
    decreases |ds|
  {
    if ds == [] then s
    else After(id, Handle(id, s, ds[0].sequence, ds[0].message).0, ds[1..])
  }

  /** What the agent answers, in order. */
  function Answers(id: u64, s: Agent, ds: seq<Delivery>): seq<Setup>
    requires Sized(s) && AllInBounds(ds)
    decreases |ds|
  {
    if ds == [] then []
    else
      var (s', answer) := Handle(id, s, ds[0].sequence, ds[0].message);
      (if answer.Some? then [answer.value] else []) + Answers(id, s', ds[1..])
  }

  lemma {:induction false} AfterConcat(id: u64, s: Agent, ds: seq<Delivery>, more: seq<Delivery>)
    requires Sized(s) && AllInBounds(ds) && AllInBounds(more)
    ensures After(id, s, ds + more) == After(id, After(id, s, ds), more)
    ensures Answers(id, s, ds + more) == Answers(id, s, ds) + Answers(id, After(id, s, ds), more)
    decreases |ds|
  {
    if ds == [] {
      assert ds + more == more;
    } else {
      assert (ds + more)[0] == ds[0] && (ds + more)[1..] == ds[1..] + more;
      AfterConcat(id, Handle(id, s, ds[0].sequence, ds[0].message).0, ds[1..], more);
    }
  }

  // ---- The invariant ----

  /** Verified: every expected chunk of both arrays is there and the weight pointers are set. */
  predicate FullyReceived(s: Agent)
  {
    BothComplete(s) && s.bound && (s.role.Some? ==> s.backupBound)
  }

  /** What the store was given agrees with what the agent runs on, up to the address. */
  predicate RunsOnSaved(s: Agent)
    requires Sized(s)
  {
    s.saved.Some? && s.saved.value == PersistedOf(s).(address := s.saved.value.address)
  }

  predicate Committed(s: Agent)
  {
    s.phase == Configured || s.phase == Running
  }

  predicate Sound(s: Agent)
    requires Sized(s)
  {
    && (s.phase == Verifying ==> FullyReceived(s))
    && (Committed(s) ==> FullyReceived(s) && RunsOnSaved(s))
  }

  /** Everything the runtime takes over but the address. */
  predicate Frozen(s: Agent, s': Agent)
  {
    && s'.weights == s.weights && s'.backupWeights == s.backupWeights && s'.topology == s.topology
    && s'.ownLayer == s.ownLayer && s'.role == s.role && s'.bound == s.bound && s'.backupBound == s.backupBound
  }

  lemma AdvanceSafe(s: Agent)
    requires Sized(s) && (s.phase == ReceivingConfig || (s.phase == Verifying && FullyReceived(s)))
    ensures var s' := MaybeAdvance(s); Sized(s') && Sound(s') && Collecting(s')
  {
  }

  lemma TopologySafe(s: Agent, t: Topology)
    requires Sized(s) && t.weightCount <= MAX_WEIGHTS
    ensures var s' := HandleTopology(s, t); Sized(s') && Sound(s') && Collecting(s')
  {
    hide MaybeAdvance;
    AdvanceSafe(s.(topology := t, ownLayer := s.address.layer, expected := ChunkCount(t.weightCount), received := {},
                   phase := ReceivingConfig));
  }

  lemma RoleSafe(s: Agent, d: Duty)
    requires Sized(s) && d.weightCount <= MAX_WEIGHTS
    ensures var s' := HandleRole(s, d); Sized(s') && Sound(s') && Collecting(s')
  {
    hide MaybeAdvance;
    var s0 := s.(role := Some(RoleFrom(d)), expectedBackup := ChunkCount(d.weightCount), receivedBackup := {},
                 phase := ReceivingConfig);
    assert s0.role.value.weightCount == d.weightCount;
    AdvanceSafe(s0);
  }

  /** A chunk only adds to what is complete. */
  lemma ChunkSafe(s: Agent, weights: seq<Float>, received: set<nat>, backupWeights: seq<Float>, receivedBackup: set<nat>)
    requires Sized(s) && Sound(s) && Collecting(s)
    requires |weights| == MAX_WEIGHTS == |backupWeights| && s.received <= received && s.receivedBackup <= receivedBackup
    ensures var s' := MaybeAdvance(s.(weights := weights, received := received, backupWeights := backupWeights,
                                      receivedBackup := receivedBackup));
            Sized(s') && Sound(s') && Collecting(s')
  {
    hide MaybeAdvance;
    AdvanceSafe(s.(weights := weights, received := received, backupWeights := backupWeights, receivedBackup := receivedBackup));
  }

  lemma CommitSafe(id: u64, s: Agent)
    requires Sized(s) && Sound(s)
    ensures var (s', reply) := HandleCommit(id, s);
            && Sized(s') && Sound(s') && Frozen(s, s')
            && (reply.CommitReply? && reply.success != 0 ==> s.phase == Verifying)
            && s'.phase == (if s.phase == Verifying then Configured else s.phase)
  {
    hide WeightsChecksum, Addresses.Encode, AllChunks;
  }

  /** An assigned address, an input value and a START leave the rest alone. */
  lemma AsideSafe(s: Agent, address: Address, input: Option<Float>, phase: SetupPhase)
    requires Sized(s) && Sound(s) && (phase == s.phase || (s.phase == Configured && phase == Running))
    ensures var s' := s.(address := address, input := input, phase := phase); Sized(s') && Sound(s') && Frozen(s, s')
  {
    hide Addresses.Encode, AllChunks, DutyOf;
  }

  /** One message: the invariant is kept, and every way to the next phase goes through its gate. */
  lemma HandleSafe(id: u64, s: Agent, sequence: u8, m: Setup)
    requires Sized(s) && InBounds(m) && Sound(s)
    ensures var (s', answer) := Handle(id, s, sequence, m);
            && Sound(s')
            && (answer.Some? && answer.value.CommitReply? && answer.value.success != 0 ==>
                  s.phase == Verifying && s'.phase == Configured)
            && (s'.phase == Configured && s.phase != Configured ==> s.phase == Verifying && m == CommitRequest(id))
            && (s'.phase == Running && s.phase != Running ==> s.phase == Configured && m == Start(START_MAGIC))
            && (Committed(s) && !(m.TopologyInfo? && m.hardwareId == id) ==> Committed(s') && Frozen(s, s'))
  {
    hide Sound, HandleTopology, HandleRole, HandleCommit, MaybeAdvance, WriteChunk, Addresses.Decode, Frozen;
    AsideSafe(s, s.address, s.input, s.phase);
    match m
    case AssignAddress(to, address) => AsideSafe(s, Addresses.Decode(address), s.input, s.phase);
    case TopologyInfo(to, t) => TopologySafe(s, t);
    case WeightsChunk(to, c) =>
      if Collecting(s) {
        ChunkSafe(s, WriteChunk(s.weights, c), s.received + {c.index as nat}, s.backupWeights, s.receivedBackup);
      }
    case BackupRoleInfo(to, d) => RoleSafe(s, d);
    case BackupWeightsChunk(to, c) =>
      if Collecting(s) {
        ChunkSafe(s, s.weights, s.received, WriteChunk(s.backupWeights, c), s.receivedBackup + {c.index as nat});
      }
    case InputValue(to, value) => AsideSafe(s, s.address, Some(value), s.phase);
    case CommitRequest(to) => CommitSafe(id, s);
    case Start(magic) => if s.phase == Configured { AsideSafe(s, s.address, s.input, Running); }
    case Hello(_) =>
    case CommitReply(_, _, _, _, _) =>
    case Ack(_, _, _) =>
    case Nack(_, _, _, _) =>
    case Unknown(_) =>
  }

  lemma FreshSound(s: Agent)
    requires IsFresh(s)
    ensures Sound(s)
  {
  }

  /** In any state any sequence of packets can lead to, VERIFYING and everything after it
      means that both arrays are complete, and everything after a commit runs on what was
      saved at the commit. */
  lemma {:induction false} AlwaysSound(id: u64, s: Agent, ds: seq<Delivery>)
    requires Sized(s) && Sound(s) && AllInBounds(ds)
    ensures Sound(After(id, s, ds))
    decreases |ds|
  {
    if ds != [] {
      HandleSafe(id, s, ds[0].sequence, ds[0].message);
      hide Sound;
      AlwaysSound(id, Handle(id, s, ds[0].sequence, ds[0].message).0, ds[1..]);
    }
  }

  predicate Reconfigures(id: u64, d: Delivery)
  {
    d.message.TopologyInfo? && d.message.hardwareId == id
  }

  /** From the commit until the next TOPOLOGY_INFO for this device, nothing that arrives
      changes the weights, the topology or the backup duty. */
  lemma {:induction false} FrozenUntilTopology(id: u64, s: Agent, ds: seq<Delivery>)
    requires Sized(s) && Sound(s) && Committed(s) && AllInBounds(ds)
    requires forall d | d in ds :: !Reconfigures(id, d)
    ensures Committed(After(id, s, ds)) && Frozen(s, After(id, s, ds))
    decreases |ds|
  {
    if ds != [] {
      var s' := Handle(id, s, ds[0].sequence, ds[0].message).0;
      HandleSafe(id, s, ds[0].sequence, ds[0].message);
      assert !Reconfigures(id, ds[0]);
      hide Handle, Sound;
      FrozenUntilTopology(id, s', ds[1..]);
    }
  }

  /** A device that reports success was completely configured when it did, and a device that
      is running has saved what it runs on: from power-up, over any packets at all. */
  lemma SuccessMeansComplete(id: u64, s: Agent, ds: seq<Delivery>, last: Delivery)
    requires IsFresh(s) && AllInBounds(ds + [last])
    ensures var before, after := After(id, s, ds), After(id, s, ds + [last]);
            var answer := Handle(id, before, last.sequence, last.message).1;
            && (answer.Some? && answer.value.CommitReply? && answer.value.success != 0 ==> FullyReceived(before))
            && (after.phase == Running ==> FullyReceived(after) && RunsOnSaved(after))
  {
    FreshSound(s);
    assert forall d | d in ds :: d in ds + [last];
    AlwaysSound(id, s, ds);
    AfterConcat(id, s, ds, [last]);
    HandleSafe(id, After(id, s, ds), last.sequence, last.message);
    AlwaysSound(id, s, ds + [last]);
  }

  // ---- Reboot ----

  /** What was committed and what a new agent reads back from the store configure the same
      neuron exactly when the layer the turn order is observed in is the device's own layer:
      when no other address was assigned after the TOPOLOGY_INFO. */
  lemma RebootRoundTrip(id: u64, s: Agent, rebooted: Agent)
    requires Sized(s) && Sound(s) && s.phase == Verifying && IsFresh(rebooted)
    ensures var committed := HandleCommit(id, s).0;
            committed.saved.Some? && |committed.saved.value.weights| <= MAX_WEIGHTS
            && |committed.saved.value.backupWeights| <= MAX_WEIGHTS
            && (var restored := Restore(rebooted, committed.saved.value);
                && restored.phase == Configured
                && (Sized(restored) && ConfigOf(restored) == ConfigOf(committed) <==> s.ownLayer == s.address.layer))
  {
    var committed := HandleCommit(id, s).0;
    var saved := committed.saved.value;
    var restored := Restore(rebooted, saved);
    Addresses.DecodeEncode(s.address);
    if s.role.Some? { RoleSurvives(s.role.value); }
    RestoredPrefix(saved.weights, rebooted.weights);
    if s.role.Some? { RestoredPrefix(saved.backupWeights, rebooted.backupWeights); }
    assert ConfigOf(restored).weights == ConfigOf(committed).weights;
    assert ConfigOf(restored).ownLayer == s.address.layer;
  }

  /** The two layers can differ: an address of another layer, assigned after the topology and
      before the commit, does not move the turn order's layer. */
  lemma LayersCanDiffer(id: u64, s: Agent) returns (ds: seq<Delivery>)
    requires IsFresh(s)
    ensures AllInBounds(ds)
    ensures var s' := After(id, s, ds); s'.phase == Verifying && s'.ownLayer != s'.address.layer
  {
    var first, second := Address(0, 1, 0, 0), Address(0, 2, 0, 0);
    var topology := Topology(0, 0, 2, 0, 0, 0, 0, 0);
    var m1, m2, m3 := AssignAddress(id, Encode(first)), TopologyInfo(id, topology), AssignAddress(id, Encode(second));
    ds := [Delivery(0, m1), Delivery(1, m2), Delivery(2, m3)];
    Addresses.DecodeEncode(first);
    Addresses.DecodeEncode(second);
    hide Addresses.Encode, Addresses.Decode;
    var s1 := Handle(id, s, 0, m1).0;
    var s2 := Handle(id, s1, 1, m2).0;
    var s3 := Handle(id, s2, 2, m3).0;
    assert s2.phase == Verifying && s3.address == second;
    AfterThree(id, s, ds);
  }

  lemma AfterThree(id: u64, s: Agent, ds: seq<Delivery>)
    requires Sized(s) && AllInBounds(ds) && |ds| == 3
    ensures var s1 := Handle(id, s, ds[0].sequence, ds[0].message).0;
            var s2 := Handle(id, s1, ds[1].sequence, ds[1].message).0;
            After(id, s, ds) == Handle(id, s2, ds[2].sequence, ds[2].message).0
  {
    hide Handle;
    var s1 := Handle(id, s, ds[0].sequence, ds[0].message).0;
    var s2 := Handle(id, s1, ds[1].sequence, ds[1].message).0;
    var rest, last := ds[1..], ds[2..];
    assert rest[1..] == last && last[1..] == [] && rest[0] == ds[1] && last[0] == ds[2];
    assert After(id, s, ds) == After(id, s1, rest);
    assert After(id, s1, rest) == After(id, s2, last);
    var s3 := Handle(id, s2, ds[2].sequence, ds[2].message).0;
    assert After(id, s2, last) == After(id, s3, last[1..]) == s3;
  }

  lemma RoleSurvives(r: Role)
    ensures RoleFrom(DutyOf(r)) == r
  {
    Addresses.DecodeEncode(r.target);
  }

  lemma RestoredPrefix(saved: seq<Float>, storage: seq<Float>)
    requires |saved| <= |storage|
    ensures (saved + storage[|saved|..])[..|saved|] == saved
  {
  }
}
