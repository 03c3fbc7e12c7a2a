/** Backup failover (`NNFailover.h`): the standby that watches a sibling, the responder to
    resend requests, and the suppressor of late originals. */
module Failover {
  import opened Words
  import opened Addresses
  import opened Arithmetic
  import opened Messages
  import opened InputBuffers
  import opened Nodes
  import opened Options

  /** Clock difference on the device's 32-bit `unsigned long`. */
  function Elapsed(now: u32, since: u32): u32
  {
    (now - since) % 0x1_0000_0000
  }

  /** A clock that shows the true time modulo 2^32 measures a span correctly as long as the
      span itself is shorter than the modulus, wherever the wrap-around falls. */
  lemma ElapsedAcrossWrap(start: nat, now: nat)
    requires start <= now < start + 0x1_0000_0000
    ensures Elapsed(now % 0x1_0000_0000, start % 0x1_0000_0000) == now - start
  {
    var m := 0x1_0000_0000;
    assert now == m * (now / m) + now % m && start == m * (start / m) + start % m;
    var wraps := now / m - start / m;
    assert 0 <= wraps <= 1;
    assert now - start == m * wraps + now % m - start % m;
  }

  datatype StandbyState = StandbyState(
    slots: Slots,
    targetObserved: bool,
    layerObserved: set<nat>,
    resendRequested: bool,
    substituted: bool,
    tornDown: bool,
    resolved: bool,
    outgoing: Option<Message>,
    diagnostic: Option<Message>,
    waitStart: u32)

  const FRESH_STANDBY := StandbyState(map[], false, {}, false, false, false, false, None, None, 0)

  /** Same node, layer and cluster; the reserved nibble is not compared. */
  predicate SameNode(a: Address, b: Address)
  {
    a.node == b.node && a.layer == b.layer && a.cluster == b.cluster
  }

  function StandbyObserve(c: NodeConfig, role: BackupRole, s: StandbyState, m: Message): StandbyState
  {
    if SameNode(m.source, role.target) then s.(targetObserved := true)
    else
      var s := if m.source.layer == c.address.layer then s.(layerObserved := s.layerObserved + {m.source.node as nat}) else s;
      if m.source.layer == role.predecessorLayer && m.source.node in Bits(role.predecessors)
      then s.(slots := Store(s.slots, m.source.node, m.values)) else s
  }

  /** Every sibling in the roster except this node and its target. */
  function Others(c: NodeConfig, role: BackupRole): set<nat>
  {
    Bits(role.layerRoster) - {role.target.node as nat, c.address.node as nat}
  }

  function AddressPayload(a: Address): seq<Float>
  {
    [FloatOfU16(Encode(a))]
  }

  function ResendRequest(c: NodeConfig, role: BackupRole): Message
  {
    Message(c.address, 0, CONTROL, 0, AddressPayload(role.target))
  }

  /** Sent as the target, not as the backup. */
  function Substitute(a: Arith<Float>, role: BackupRole, slots: Slots): Message
  {
    Message(role.target, 0, DATA, FLAG_SUBSTITUTE,
            [Output(a, role.predecessors, role.activation, role.bias, role.weights, slots)])
  }

  function Teardown(c: NodeConfig): Message
  {
    Message(c.address, 0, TEARDOWN, 0, [])
  }

  /** `buildFailoverReport`: who stood in is the source, who failed is the payload. */
  function Report(c: NodeConfig, role: BackupRole, flags: u8): Message
  {
    Message(c.address, DIAGNOSTIC_GROUP, CONTROL, flags, AddressPayload(role.target))
  }

  predicate RoundFinished(c: NodeConfig, role: BackupRole, s: StandbyState)
  {
    Others(c, role) <= s.layerObserved
  }

  function StandbyTick(a: Arith<Float>, c: NodeConfig, role: BackupRole, s: StandbyState, now: u32): StandbyState
  {
    if s.targetObserved || s.resolved then s
    else if !s.resendRequested then
      if RoundFinished(c, role, s)
      then s.(outgoing := Some(ResendRequest(c, role)), resendRequested := true, waitStart := now)
      else s
    else if Elapsed(now, s.waitStart) < role.resendGraceMs then s
    else if Complete(s.slots, role.predecessors) then
      s.(outgoing := Some(Substitute(a, role, s.slots)), substituted := true,
         diagnostic := Some(Report(c, role, FLAG_SUBSTITUTE)), resolved := true)
    else
      s.(outgoing := Some(Teardown(c)), tornDown := true,
         diagnostic := Some(Report(c, role, FLAG_TEARDOWN)), resolved := true)
  }

  // ---- The answering side of a resend request ----

  /** `pending` is the value of a reply that is due. */
  datatype ResponderState = ResponderState(pending: Option<Float>)

  /** Does this CONTROL packet name `own`? */
  predicate Requests(m: Message, own: Address)
  {
    m.kind == CONTROL && |m.values| >= 1 &&
    match U16OfFloat(m.values[0])
    case Exact(raw) => SameNode(Decode(raw), own)
    case Undefined => false
  }

  function Respond(own: Address, s: ResponderState, m: Message, haveOutput: bool, value: Float): ResponderState
  {
    if Requests(m, own) && haveOutput then ResponderState(Some(value)) else s
  }

  function ResendReply(own: Address, value: Float): Message
  {
    Message(own, 0, DATA, 0, [value])
  }

  /** The request a standby queues is understood by its target, and by no other sibling. */
  lemma RequestReachesTarget(c: NodeConfig, role: BackupRole, own: Address)
    ensures Requests(ResendRequest(c, role), own) <==> SameNode(role.target, own)
  {
    FloatRoundTrip(Encode(role.target));
    DecodeEncode(role.target);
  }

  // ---- Suppression of late originals ----

  datatype SuppressorState = SuppressorState(locked: set<nat>)

  predicate Accepts(s: SuppressorState, m: Message)
  {
    m.source.node !in s.locked
  }

  function Lock(s: SuppressorState, m: Message): SuppressorState
  {
    if Accepts(s, m) && IsSubstitute(m) then SuppressorState(s.locked + {m.source.node as nat}) else s
  }

  // ---- Backup configuration checks ----

  datatype Issue = NoBackupRole | WrongTarget | NotASibling | WrongActivation | WrongMask | WrongWeightCount | WrongBias

  /** The issue, if there is one. */
  function Raised(agrees: bool, issue: Issue): (raised: seq<Issue>)
    ensures forall i :: i in raised <==> !agrees && i == issue
    ensures agrees <==> raised == []
  {
    if agrees then [] else [issue]
  }

  /** `validateBackupConfig`. */
  function Issues(backup: NodeConfig, target: NodeConfig): seq<Issue>
  {
    match backup.backup
    case None => [NoBackupRole]
    case Some(role) =>
      Raised(SameNode(role.target, target.address), WrongTarget)
      + Raised(role.target.layer == backup.address.layer, NotASibling)
      + Raised(role.activation == target.activation, WrongActivation)
      + Raised(role.predecessors == target.predecessors, WrongMask)
      + Raised(|role.weights| == |target.weights|, WrongWeightCount)
      + Raised(FloatsEqual(role.bias, target.bias), WrongBias)
  }

  /** Not a number (section 3.4 of IEEE 754-2019). */
  predicate IsNaN(x: Float)
  {
    x % 0x8000_0000 > 0x7F80_0000
  }

  /** `==` on floats: zero equals negative zero, and NaN equals nothing. */
  predicate FloatsEqual(x: Float, y: Float)
  {
    !IsNaN(x) && !IsNaN(y) && (x == y || (x % 0x8000_0000 == 0 && y % 0x8000_0000 == 0))
  }

  /** The role copies everything its target computes with and listens to. */
  predicate Mirrors(role: BackupRole, target: NodeConfig)
  {
    && SameNode(role.target, target.address)
    && role.activation == target.activation
    && role.predecessors == target.predecessors
    && role.weights == target.weights
    && role.bias == target.bias
    && role.predecessorLayer == target.predecessorLayer
  }

  /** Each issue is raised for its own difference and for no other. */
  lemma IssuesExactly(backup: NodeConfig, target: NodeConfig)
    ensures backup.backup.None? ==> Issues(backup, target) == [NoBackupRole]
    ensures backup.backup.Some? ==>
              var role, issues := backup.backup.value, Issues(backup, target);
              && NoBackupRole !in issues
              && (WrongTarget in issues <==> role.target.node != target.address.node || role.target.layer != target.address.layer
                                             || role.target.cluster != target.address.cluster)
              && (NotASibling in issues <==> role.target.layer != backup.address.layer)
              && (WrongActivation in issues <==> role.activation != target.activation)
              && (WrongMask in issues <==> role.predecessors != target.predecessors)
              && (WrongWeightCount in issues <==> |role.weights| != |target.weights|)
              && (WrongBias in issues <==> !FloatsEqual(role.bias, target.bias))
  {
    hide FloatsEqual, Raised;
  }

  /** The two things the validator does not look at. */
  predicate SameUnchecked(role: BackupRole, target: NodeConfig)
  {
    role.weights == target.weights && role.predecessorLayer == target.predecessorLayer
  }

  /** A pairing is validated exactly when everything but these two agrees, the biases as floats
      agree. */
  lemma ValidatedExactly(backup: NodeConfig, target: NodeConfig)
    requires backup.backup.Some?
    ensures var role := backup.backup.value;
            && (Issues(backup, target) == [] <==>
                  && SameNode(role.target, target.address) && role.target.layer == backup.address.layer
                  && role.activation == target.activation && role.predecessors == target.predecessors
                  && |role.weights| == |target.weights| && FloatsEqual(role.bias, target.bias))
            && (Issues(backup, target) == [WrongBias] ==>
                  && SameNode(role.target, target.address) && role.target.layer == backup.address.layer
                  && role.activation == target.activation && role.predecessors == target.predecessors)
  {
    var role, issues := backup.backup.value, Issues(backup, target);
    hide FloatsEqual;
    if !SameNode(role.target, target.address) { assert issues[0] == WrongTarget; }
    if role.target.layer != backup.address.layer { assert NotASibling in issues; }
    if role.activation != target.activation { assert WrongActivation in issues; }
    if role.predecessors != target.predecessors { assert WrongMask in issues; }
    if |role.weights| != |target.weights| { assert WrongWeightCount in issues; }
    if !FloatsEqual(role.bias, target.bias) { assert WrongBias in issues; }
  }

  /** A faithful mirror is exactly a validated pairing whose weights, predecessor layer and bias
      pattern also agree -- or one the validator finds fault with only because the bias is NaN.
      It does not look at the first two, and takes the two zeros for one. */
  lemma ValidatedMirror(backup: NodeConfig, target: NodeConfig)
    requires backup.backup.Some?
    ensures var role := backup.backup.value;
            Mirrors(role, target) && role.target.layer == backup.address.layer
            <==> SameUnchecked(role, target) && role.bias == target.bias
                 && Issues(backup, target) == if IsNaN(target.bias) then [WrongBias] else []
  {
    hide IsNaN;
    ValidatedExactly(backup, target);
  }

  /** A mirror's substitute carries, under the target's identity, exactly the value the
      target itself would transmit from the same inputs -- for any predecessor mask. */
  lemma SubstituteIsTargetOutput(a: Arith<Float>, role: BackupRole, target: NodeConfig, slots: Slots, s: NodeState)
    requires Mirrors(role, target)
    requires forall i | i in Bits(target.predecessors) :: Input(slots, i) == Input(s.slots, i)
    ensures var own := OutputMessage(target, NodeExecute(a, target, s));
            var sub := Substitute(a, role, slots);
            sub.kind == own.kind && sub.values == own.values && SameNode(sub.source, own.source)
  {
    GatherSame(slots, s.slots, Bits(target.predecessors), 0);
  }

  lemma {:induction false} GatherSame(s: Slots, t: Slots, mask: set<nat>, from: nat)
    requires forall i | i in mask && from <= i :: Input(s, i) == Input(t, i)
    ensures Gather(s, mask, from) == Gather(t, mask, from)
    decreases MAX_PREDECESSORS - from
  {
    if from < MAX_PREDECESSORS {
      GatherSame(s, t, mask, from + 1);
    }
  }
}
