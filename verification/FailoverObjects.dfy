/** The three objects of `NNFailover.h`, field by field, proved against module `Failover`.

    A standby owns the buffer it gathers its target's inputs in, and keeps what it has
    queued in fields that are handed out once. The responder keeps a reply that is due, the
    suppressor a mask of claimed slots. Every method states the object's whole new state in
    terms of the old one. */
module FailoverObjects {
  import opened Words
  import opened Addresses
  import opened Arithmetic
  import opened Messages
  import opened InputBuffers
  import opened Nodes
  import opened Failover
  import opened Options

  const NO_MESSAGE := Message(Address(0, 0, 0, 0), 0, DATA, 0, [])

  /** `NNBackupStandby`. */
  class Standby {
    const config: NodeConfig
    const arith: Arith<Float>
    const inputBuffer: InputBuffer
    var targetObserved: bool
    var layerObservedMask: u16
    var resendRequested: bool
    var hasSubstituted: bool
    var hasTornDown: bool
    var resolved: bool
    var outputPending: bool
    var diagnosticPending: bool
    var waitStartTime: u32
    var outgoingPacket: Message
    var diagnosticPacket: Message

    ghost function Footprint(): set<object>
    {
      {this} + inputBuffer.Footprint()
    }

    ghost predicate Valid()
      reads Footprint()
    {
      inputBuffer.Valid()
    }

    ghost function State(): StandbyState
      requires Valid()
      reads Footprint()
    {
      StandbyState(inputBuffer.State(), targetObserved, Bits(layerObservedMask), resendRequested, hasSubstituted,
                   hasTornDown, resolved, if outputPending then Some(outgoingPacket) else None,
                   if diagnosticPending then Some(diagnosticPacket) else None, waitStartTime)
    }

    constructor (config: NodeConfig, arith: Arith<Float>)
      ensures Valid() && State() == FRESH_STANDBY
      ensures this.config == config && this.arith == arith
      ensures fresh(Footprint())
    {
      this.config, this.arith := config, arith;
      inputBuffer := new InputBuffer();
      targetObserved, layerObservedMask, resendRequested := false, 0, false;
      hasSubstituted, hasTornDown, resolved := false, false, false;
      outputPending, diagnosticPending, waitStartTime := false, false, 0;
      outgoingPacket, diagnosticPacket := NO_MESSAGE, NO_MESSAGE;
      new;
      BitsZero();
    }

    method OnPacketObserved(m: Message)
      requires Valid()
      modifies Footprint()
      ensures Valid()
      ensures State() == if config.backup.Some? then StandbyObserve(config, config.backup.value, old(State()), m)
                         else old(State())
    {
      if config.backup.None? { return; }
      var role := config.backup.value;
      if SameNode(m.source, role.target) {
        targetObserved := true;
        return;
      }
      if m.source.layer == config.address.layer {
        BitsOr(layerObservedMask, m.source.node);
        layerObservedMask := Or(layerObservedMask, Pow2(m.source.node));
      }
      BitsTest(role.predecessors, m.source.node);
      if m.source.layer == role.predecessorLayer && And(role.predecessors, Pow2(m.source.node)) != 0 {
        var _ := inputBuffer.StoreInput(m.source.node, m.values);
      }
    }

    /** `now` is what the clock function returns during this call. */
    method Advance(now: u32)
      requires Valid()
      modifies this
      ensures Valid()
      ensures State() == if config.backup.Some? then StandbyTick(arith, config, config.backup.value, old(State()), now)
                         else old(State())
    {
      hide Substitute, Report, Teardown, ResendRequest, RoundFinished, Complete, Elapsed, InputBuffer.Valid, InputBuffer.State;
      if config.backup.None? { return; }
      var role := config.backup.value;
      if targetObserved || resolved { return; }
      if !resendRequested {
        var finished := RoundIsFinished(role);
        if !finished { return; }
        outgoingPacket, outputPending := ResendRequest(config, role), true;
        resendRequested := true;
        waitStartTime := now;
        return;
      }
      if Elapsed(now, waitStartTime) < role.resendGraceMs { return; }
      var complete := inputBuffer.IsComplete(role.predecessors);
      if complete {
        ComputeSubstituteOutput(role);
      } else {
        BuildTeardownPacket(role);
      }
      resolved := true;
    }

    method RoundIsFinished(role: BackupRole) returns (finished: bool)
      requires Valid()
      ensures finished == RoundFinished(config, role, State())
    {
      var othersMask := AndNot(AndNot(role.layerRoster, Pow2(role.target.node)), Pow2(config.address.node));
      BitsDrop(role.layerRoster, role.target.node, config.address.node);
      BitsCovers(layerObservedMask, othersMask);
      finished := And(layerObservedMask, othersMask) == othersMask;
    }

    method ComputeSubstituteOutput(role: BackupRole)
      requires Valid()
      modifies this
      ensures Valid()
      ensures State() == old(State()).(outgoing := Some(Substitute(arith, role, old(State()).slots)), substituted := true,
                                       diagnostic := Some(Report(config, role, FLAG_SUBSTITUTE)))
    {
      var sum := inputBuffer.WeightedSum(arith, role.predecessors, role.bias, role.weights);
      var output := Activate(arith.curves, role.activation, sum);
      outgoingPacket := Message(role.target, 0, DATA, FLAG_SUBSTITUTE, [output]);
      hasSubstituted, outputPending := true, true;
      QueueDiagnostic(role, FLAG_SUBSTITUTE);
    }

    method BuildTeardownPacket(role: BackupRole)
      requires Valid()
      modifies this
      ensures Valid()
      ensures State() == old(State()).(outgoing := Some(Teardown(config)), tornDown := true,
                                       diagnostic := Some(Report(config, role, FLAG_TEARDOWN)))
    {
      outgoingPacket, outputPending := Teardown(config), true;
      hasTornDown := true;
      QueueDiagnostic(role, FLAG_TEARDOWN);
    }

    method QueueDiagnostic(role: BackupRole, flags: u8)
      requires Valid()
      modifies `diagnosticPacket, `diagnosticPending
      ensures Valid() && State() == old(State()).(diagnostic := Some(Report(config, role, flags)))
    {
      diagnosticPacket := Report(config, role, flags);
      diagnosticPending := true;
    }

    method HasOutputReady() returns (out: Option<Message>)
      requires Valid()
      modifies this
      ensures Valid() && out == old(State()).outgoing && State() == old(State()).(outgoing := None)
    {
      if !outputPending { return None; }
      out := Some(outgoingPacket);
      outputPending := false;
    }

    method HasDiagnosticReady() returns (out: Option<Message>)
      requires Valid()
      modifies this
      ensures Valid() && out == old(State()).diagnostic && State() == old(State()).(diagnostic := None)
    {
      if !diagnosticPending { return None; }
      out := Some(diagnosticPacket);
      diagnosticPending := false;
    }

    method ResetForNextPass()
      requires Valid()
      modifies Footprint()
      ensures Valid() && State() == FRESH_STANDBY
    {
      inputBuffer.Reset();
      targetObserved, layerObservedMask, resendRequested := false, 0, false;
      hasSubstituted, hasTornDown, resolved := false, false, false;
      outputPending, diagnosticPending, waitStartTime := false, false, 0;
      BitsZero();
    }
  }

  /** `NNResendResponder`. */
  class Responder {
    const ownAddress: Address
    var resendPending: bool
    var pendingResendValue: Float

    ghost function State(): ResponderState
      reads this
    {
      ResponderState(if resendPending then Some(pendingResendValue) else None)
    }

    constructor (ownAddress: Address)
      ensures this.ownAddress == ownAddress && State() == ResponderState(None)
    {
      this.ownAddress := ownAddress;
      resendPending, pendingResendValue := false, 0;
    }

    method OnPacketObserved(m: Message, haveOutputThisPass: bool, outputValue: Float)
      modifies this
      ensures State() == Respond(ownAddress, old(State()), m, haveOutputThisPass, outputValue)
    {
      if m.kind != CONTROL { return; }
      if |m.values| < 1 { return; }
      match U16OfFloat(m.values[0]) {
        case Undefined =>
        case Exact(raw) =>
          if !SameNode(Decode(raw), ownAddress) { return; }
          if !haveOutputThisPass { return; }
          pendingResendValue := outputValue;
          resendPending := true;
      }
    }

    method HasResendReady() returns (out: Option<Message>)
      modifies this
      ensures State() == ResponderState(None)
      ensures out == match old(State()).pending
                     case None => None
                     case Some(value) => Some(ResendReply(ownAddress, value))
    {
      if !resendPending { return None; }
      out := Some(ResendReply(ownAddress, pendingResendValue));
      resendPending := false;
    }

    method ResetForNextPass()
      modifies this
      ensures State() == ResponderState(None)
    {
      resendPending := false;
    }
  }

  /** `NNDuplicateSuppressor`. */
  class Suppressor {
    var lockedMask: u16

    ghost function State(): SuppressorState
      reads this
    {
      SuppressorState(Bits(lockedMask))
    }

    constructor ()
      ensures State() == SuppressorState({})
    {
      lockedMask := 0;
      new;
      BitsZero();
    }

    method ShouldAccept(m: Message) returns (accept: bool)
      modifies this
      ensures accept == Accepts(old(State()), m)
      ensures State() == Lock(old(State()), m)
    {
      BitsTest(lockedMask, m.source.node);
      if And(lockedMask, Pow2(m.source.node)) != 0 { return false; }
      if IsSubstitute(m) {
        BitsOr(lockedMask, m.source.node);
        lockedMask := Or(lockedMask, Pow2(m.source.node));
      }
      accept := true;
    }

    method Reset()
      modifies this
      ensures State() == SuppressorState({})
    {
      lockedMask := 0;
      BitsZero();
    }
  }
}
