/** Weights arrive in chunks of eleven, primary and backup chunks interleaved, in any order and
    any number of times.

    A chunk that has been received is in place whatever came before or after it, since a
    repetition writes the same values again. The agent looks after every chunk whether all
    expected ones of both arrays are there, and both arrays are then whole. */
module ChunkAssembly {
  import opened Words
  import opened SetupMessages
  import opened SetupAgents
  import opened AgentSafety
  import opened Options

  /** Chunk `k` of an array, padded with zeros, as `build_device_packets` cuts it. */
  function ChunkAt(weights: seq<Float>, k: nat): (c: Chunk)
    requires |weights| <= MAX_WEIGHTS && k < ChunkCount(|weights|)
    ensures c.valid <= CHUNK_FLOATS == |c.values|
  {
    var start := CHUNK_FLOATS * k;
    var stop := Least(start + CHUNK_FLOATS, |weights|);
    Chunk(k, ChunkCount(|weights|), stop - start, weights[start..stop] + seq(CHUNK_FLOATS - (stop - start), i => 0))
  }

  /** What chunk `k` says of itself: its place, how many there are, how many of its eleven values
      count, and those values, the rest being 0.0. */
  lemma ChunkSays(weights: seq<Float>, k: nat)
    requires |weights| <= MAX_WEIGHTS && k < ChunkCount(|weights|)
    ensures var c := ChunkAt(weights, k);
            && c.index == k && |c.values| == 11 && 11 * k < |weights|
            && 11 * (c.total as nat - 1) < |weights| <= 11 * c.total as nat
            && c.valid as nat == (if |weights| >= 11 * k + 11 then 11 else |weights| - 11 * k)
            && forall j: nat | j < 11 :: c.values[j] == if j < c.valid as nat then weights[11 * k + j] else 0
  {
  }

  /** The slices of the received chunks are in place. */
  predicate Holds(storage: seq<Float>, weights: seq<Float>, received: set<nat>)
    requires |weights| <= |storage|
  {
    forall j: nat | j < |weights| && j / CHUNK_FLOATS in received :: storage[j] == weights[j]
  }

  lemma ChunkLands(storage: seq<Float>, weights: seq<Float>, received: set<nat>, k: nat)
    requires |weights| <= MAX_WEIGHTS == |storage| && k < ChunkCount(|weights|)
    requires Holds(storage, weights, received)
    ensures Holds(WriteChunk(storage, ChunkAt(weights, k)), weights, received + {k})
  {
    var c := ChunkAt(weights, k);
    var storage' := WriteChunk(storage, c);
    forall j: nat | j < |weights| && j / CHUNK_FLOATS in received + {k}
      ensures storage'[j] == weights[j]
    {
      var offset := CHUNK_FLOATS * k;
      if offset <= j < offset + c.valid {
        assert storage'[j] == c.values[j - offset];
      } else {
        assert j / CHUNK_FLOATS != k;
      }
    }
  }

  lemma AllLanded(storage: seq<Float>, weights: seq<Float>, received: set<nat>)
    requires |weights| <= MAX_WEIGHTS == |storage| && Holds(storage, weights, received)
    requires AllChunks(received, ChunkCount(|weights|))
    ensures storage[..|weights|] == weights
  {
    forall j: nat | j < |weights|
      ensures storage[j] == weights[j]
    {
      assert j / CHUNK_FLOATS in Range(Least(ChunkCount(|weights|), 64));
    }
  }

  /** One array on its way: so many chunks expected, each received one in place. */
  predicate ArrayAssembling(storage: seq<Float>, count: nat, expected: nat, received: set<nat>, weights: seq<Float>)
  {
    && |weights| <= MAX_WEIGHTS == |storage| && count == |weights| && expected == ChunkCount(|weights|)
    && Holds(storage, weights, received)
  }

  /** The agent collects `weights`, and `backup` when it has a backup duty. */
  predicate Assembling(s: Agent, weights: seq<Float>, backup: Option<seq<Float>>)
  {
    && Sized(s) && Collecting(s) && s.role.Some? == backup.Some?
    && ArrayAssembling(s.weights, s.topology.weightCount, s.expected, s.received, weights)
    && (s.role.Some? ==>
          ArrayAssembling(s.backupWeights, s.role.value.weightCount, s.expectedBackup, s.receivedBackup, backup.value))
    && (s.phase == Verifying <==> BothComplete(s))
    && (s.phase == Verifying ==> FullyReceived(s))
  }

  /** A verified agent holds exactly the arrays that were cut up. */
  lemma VerifiedIsExact(s: Agent, weights: seq<Float>, backup: Option<seq<Float>>)
    requires Assembling(s, weights, backup) && s.phase == Verifying
    ensures s.weights[..s.topology.weightCount] == weights
    ensures s.role.Some? ==> s.backupWeights[..s.role.value.weightCount] == backup.value
  {
    AllLanded(s.weights, weights, s.received);
    if s.role.Some? { AllLanded(s.backupWeights, backup.value, s.receivedBackup); }
  }

  datatype Piece = Primary(k: nat) | Backup(k: nat)

  predicate IsPiece(weights: seq<Float>, backup: Option<seq<Float>>, p: Piece)
  {
    && |weights| <= MAX_WEIGHTS && (backup.Some? ==> |backup.value| <= MAX_WEIGHTS)
    && match p
       case Primary(k) => k < ChunkCount(|weights|)
       case Backup(k) => backup.Some? && k < ChunkCount(|backup.value|)
  }

  function PieceMessage(id: u64, weights: seq<Float>, backup: Option<seq<Float>>, p: Piece): (m: Setup)
    requires IsPiece(weights, backup, p)
    ensures InBounds(m)
  {
    match p
    case Primary(k) => WeightsChunk(id, ChunkAt(weights, k))
    case Backup(k) => BackupWeightsChunk(id, ChunkAt(backup.value, k))
  }

  function PrimaryIndices(pieces: seq<Piece>): set<nat>
  {
    set p | p in pieces && p.Primary? :: p.k
  }

  function BackupIndices(pieces: seq<Piece>): set<nat>
  {
    set p | p in pieces && p.Backup? :: p.k
  }

  lemma AdvanceAssembles(s: Agent, weights: seq<Float>, backup: Option<seq<Float>>)
    requires Sized(s) && Collecting(s) && s.role.Some? == backup.Some?
    requires ArrayAssembling(s.weights, s.topology.weightCount, s.expected, s.received, weights)
    requires s.role.Some? ==>
               ArrayAssembling(s.backupWeights, s.role.value.weightCount, s.expectedBackup, s.receivedBackup, backup.value)
    requires s.phase == Verifying ==> FullyReceived(s)
    ensures var s' := MaybeAdvance(s);
            && Assembling(s', weights, backup)
            && s' == s.(phase := s'.phase, bound := s'.bound, backupBound := s'.backupBound)
  {
    hide ArrayAssembling, AllChunks;
  }

  /** The agent with a chunk copied, before it looks whether all have arrived. */
  function Written(s: Agent, weights: seq<Float>, backup: Option<seq<Float>>, p: Piece): Agent
    requires IsPiece(weights, backup, p)
  {
    match p
    case Primary(k) => s.(weights := WriteChunk(s.weights, ChunkAt(weights, k)), received := s.received + {k})
    case Backup(k) =>
      s.(backupWeights := WriteChunk(s.backupWeights, ChunkAt(backup.value, k)), receivedBackup := s.receivedBackup + {k})
  }

  lemma PieceTaken(id: u64, s: Agent, sequence: u8, weights: seq<Float>, backup: Option<seq<Float>>, p: Piece)
    requires Assembling(s, weights, backup) && IsPiece(weights, backup, p)
    ensures var m := PieceMessage(id, weights, backup, p);
            Handle(id, s, sequence, m) == (MaybeAdvance(Written(s, weights, backup, p)), Some(Ack(id, sequence, Opcode(m))))
  {
    hide MaybeAdvance, WriteChunk, Holds, AllChunks;
  }

  lemma PieceStored(s: Agent, weights: seq<Float>, backup: Option<seq<Float>>, p: Piece)
    requires Assembling(s, weights, backup) && IsPiece(weights, backup, p)
    ensures Assembling(MaybeAdvance(Written(s, weights, backup, p)), weights, backup)
  {
    hide MaybeAdvance, WriteChunk;
    match p
    case Primary(k) =>
      ChunkLands(s.weights, weights, s.received, k);
      AdvanceAssembles(Written(s, weights, backup, p), weights, backup);
    case Backup(k) =>
      ChunkLands(s.backupWeights, backup.value, s.receivedBackup, k);
      AdvanceAssembles(Written(s, weights, backup, p), weights, backup);
  }

  /** Any chunk, new or repeated, is acknowledged, adds itself and spoils nothing. */
  lemma PieceLands(id: u64, s: Agent, sequence: u8, weights: seq<Float>, backup: Option<seq<Float>>, p: Piece)
    requires Assembling(s, weights, backup) && IsPiece(weights, backup, p)
    ensures var m := PieceMessage(id, weights, backup, p);
            var (s', answer) := Handle(id, s, sequence, m);
            && Assembling(s', weights, backup) && answer == Some(Ack(id, sequence, Opcode(m)))
            && s'.received == s.received + PrimaryIndices([p]) && s'.receivedBackup == s.receivedBackup + BackupIndices([p])
            && s' == s.(weights := s'.weights, received := s'.received, backupWeights := s'.backupWeights,
                        receivedBackup := s'.receivedBackup, phase := s'.phase, bound := s'.bound,
                        backupBound := s'.backupBound)
  {
    hide Handle, Assembling, IsPiece, PieceMessage, WriteChunk, BothComplete;
    assert p in [p];
    PieceTaken(id, s, sequence, weights, backup, p);
    PieceStored(s, weights, backup, p);
  }

  predicate Delivers(id: u64, weights: seq<Float>, backup: Option<seq<Float>>, pieces: seq<Piece>, ds: seq<Delivery>)
  {
    && |ds| == |pieces|
    && (forall i | 0 <= i < |pieces| ::
          IsPiece(weights, backup, pieces[i]) && ds[i].message == PieceMessage(id, weights, backup, pieces[i]))
  }

  lemma DeliversInBounds(id: u64, weights: seq<Float>, backup: Option<seq<Float>>, pieces: seq<Piece>, ds: seq<Delivery>)
    requires Delivers(id, weights, backup, pieces, ds)
    ensures AllInBounds(ds)
  {
    forall d | d in ds
      ensures InBounds(d.message)
    {
      var i :| 0 <= i < |ds| && ds[i] == d;
      assert IsPiece(weights, backup, pieces[i]);
    }
  }

  lemma IndicesSplit(pieces: seq<Piece>)
    requires pieces != []
    ensures PrimaryIndices(pieces) == PrimaryIndices([pieces[0]]) + PrimaryIndices(pieces[1..])
    ensures BackupIndices(pieces) == BackupIndices([pieces[0]]) + BackupIndices(pieces[1..])
  {
    assert pieces == [pieces[0]] + pieces[1..];
  }

  lemma DeliversRest(id: u64, weights: seq<Float>, backup: Option<seq<Float>>, pieces: seq<Piece>, ds: seq<Delivery>)
    requires Delivers(id, weights, backup, pieces, ds) && pieces != []
    ensures Delivers(id, weights, backup, pieces[1..], ds[1..])
  {
    hide IsPiece, PieceMessage;
  }

  lemma {:induction false} PiecesLand(id: u64, s: Agent, weights: seq<Float>, backup: Option<seq<Float>>,
                                      pieces: seq<Piece>, ds: seq<Delivery>)
    requires Assembling(s, weights, backup) && Delivers(id, weights, backup, pieces, ds) && AllInBounds(ds)
    ensures var s' := After(id, s, ds);
            && Assembling(s', weights, backup)
            && s'.received == s.received + PrimaryIndices(pieces)
            && s'.receivedBackup == s.receivedBackup + BackupIndices(pieces)
    decreases |pieces|
  {
    if pieces == [] {
      assert PrimaryIndices(pieces) == {} == BackupIndices(pieces);
    } else {
      var rest := pieces[1..];
      var s1 := Handle(id, s, ds[0].sequence, ds[0].message).0;
      PieceLands(id, s, ds[0].sequence, weights, backup, pieces[0]);
      IndicesSplit(pieces);
      DeliversRest(id, weights, backup, pieces, ds);
      hide Handle, Assembling, PrimaryIndices, BackupIndices, IsPiece, Delivers, PieceMessage;
      PiecesLand(id, s1, weights, backup, rest, ds[1..]);
    }
  }

  /** Whatever the order, the repetitions and the interleaving of the chunks: what has arrived
      is in place, and VERIFYING is reached exactly when the last missing chunk of both arrays
      has arrived -- with both arrays reassembled. */
  lemma AnyOrderReassembles(id: u64, s: Agent, weights: seq<Float>, backup: Option<seq<Float>>,
                            pieces: seq<Piece>, ds: seq<Delivery>)
    requires Assembling(s, weights, backup) && Delivers(id, weights, backup, pieces, ds)
    ensures AllInBounds(ds)
    ensures var s' := After(id, s, ds);
            var received, receivedBackup := s.received + PrimaryIndices(pieces), s.receivedBackup + BackupIndices(pieces);
            && Holds(s'.weights, weights, received)
            && (backup.Some? ==> Holds(s'.backupWeights, backup.value, receivedBackup))
            && (s'.phase == Verifying <==>
                  AllChunks(received, ChunkCount(|weights|))
                  && (backup.Some? ==> AllChunks(receivedBackup, ChunkCount(|backup.value|))))
            && (s'.phase == Verifying ==>
                  s'.weights[..|weights|] == weights
                  && (backup.Some? ==> s'.backupWeights[..|backup.value|] == backup.value))
  {
    DeliversInBounds(id, weights, backup, pieces, ds);
    PiecesLand(id, s, weights, backup, pieces, ds);
    var s' := After(id, s, ds);
    hide After, Delivers, Holds, AllChunks, PrimaryIndices, BackupIndices;
    if s'.phase == Verifying { VerifiedIsExact(s', weights, backup); }
  }
}
