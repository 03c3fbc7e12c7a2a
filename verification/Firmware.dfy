/** The runtime objects of `Device_Setup.ino` and its loop, proved against the step function
    of module `DeviceRuntime`. The clock is read once per turn.

    A device owns a scheduler, which owns the node, and perhaps a standby; their footprints
    are disjoint, and none contains the device itself or its table of retransmissions. Each
    method states the whole new state, so that one call of the loop is one step of the
    specification. */
module Firmware {
  import opened Words
  import opened Addresses
  import opened Arithmetic
  import opened Messages
  import opened InputBuffers
  import opened Nodes
  import opened Schedulers
  import opened Failover
  import opened FailoverObjects
  import opened DeviceRuntime
  import opened Options

  class Device {
    const config: NodeConfig
    const arith: Arith<Float>
    const scheduler: Scheduler
    const standby: Standby?
    const responder: Responder
    const suppressor: Suppressor
    const retxSlots: array<Retx>
    var ownOutputSent: bool
    var myOutputValue: Float
    var targetSeenThisPass: bool
    var passManaged: bool
    var turnStallArmed: bool
    var turnStallSinceMs: u32
    var lastActivityMs: u32

    ghost function StandbyFootprint(): set<object>
    {
      if standby == null then {} else standby.Footprint()
    }

    ghost function Footprint(): set<object>
    {
      {this, retxSlots, responder, suppressor} + scheduler.Footprint() + StandbyFootprint()
    }

    ghost predicate Valid()
      reads Footprint()
    {
      && scheduler.Valid() && scheduler.node.config == config && scheduler.node.arith == arith
      && (standby != null ==> standby.Valid() && standby.config == config && standby.arith == arith && config.backup.Some?)
      && responder.ownAddress == config.address && retxSlots.Length == 3
      && scheduler.Footprint() !! StandbyFootprint()
      && this !in scheduler.Footprint() + StandbyFootprint()
      && retxSlots !in scheduler.Footprint() + StandbyFootprint()
      && responder !in scheduler.Footprint() + StandbyFootprint()
      && suppressor !in scheduler.Footprint() + StandbyFootprint()
    }

    ghost function StandbyNow(): Option<StandbyState>
      requires Valid()
      reads Footprint()
    {
      if standby == null then None else Some(standby.State())
    }

    ghost function State(): DeviceState
      requires Valid()
      reads Footprint()
    {
      DeviceState(scheduler.State(), StandbyNow(), responder.State(), suppressor.State(), ownOutputSent, myOutputValue,
                  targetSeenThisPass, passManaged, turnStallArmed, turnStallSinceMs, lastActivityMs,
                  retxSlots[0], retxSlots[1], retxSlots[2])
    }

    /** The node and its scheduler; an input node is seeded when an INPUT_VALUE came. */
    static method StartScheduler(config: NodeConfig, arith: Arith<Float>, seed: Option<Float>) returns (turns: Scheduler)
      ensures turns.Valid() && turns.node.config == config && turns.node.arith == arith && fresh(turns.Footprint())
      ensures turns.State() == Start(config, seed, 0).sched
    {
      hide InputBuffer.Valid, InputBuffer.State;
      var node := new Node(config, arith);
      turns := new Scheduler(node);
      if config.predecessors == 0 && seed.Some? {
        node.SeedOutput(seed.value);
        turns.SeedNotified();
      }
    }

    static method StartStandby(config: NodeConfig, arith: Arith<Float>) returns (watch: Standby?)
      ensures (watch != null) == StandbyEnabled(config)
      ensures watch != null ==> watch.Valid() && watch.config == config && watch.arith == arith
                                && watch.State() == FRESH_STANDBY && fresh(watch.Footprint())
    {
      watch := null;
      if StandbyEnabled(config) { watch := new Standby(config, arith); }
    }

    static method StartParts(config: NodeConfig, arith: Arith<Float>, seed: Option<Float>)
      returns (turns: Scheduler, watch: Standby?)
      ensures turns.Valid() && turns.node.config == config && turns.node.arith == arith && fresh(turns.Footprint())
      ensures turns.State() == Start(config, seed, 0).sched
      ensures (watch != null) == StandbyEnabled(config)
      ensures watch != null ==> watch.Valid() && watch.config == config && watch.arith == arith
                                && watch.State() == FRESH_STANDBY && fresh(watch.Footprint())
                                && turns.Footprint() !! watch.Footprint()
    {
      hide Scheduler.Valid, Scheduler.State, Standby.Valid, Standby.State, Node.Valid, Node.State, InputBuffer.Valid, InputBuffer.State;
      hide StandbyEnabled, Start;
      turns := Device.StartScheduler(config, arith, seed);
      watch := Device.StartStandby(config, arith);
    }

    /** `startRuntime`; `seed` is the value an INPUT_VALUE message brought, if any. */
    constructor (config: NodeConfig, arith: Arith<Float>, seed: Option<Float>, now: u32)
      ensures this.config == config && this.arith == arith
      ensures Valid() && State() == Start(config, seed, now)
      ensures fresh(Footprint())
    {
      hide Scheduler.Valid, Scheduler.State, Standby.Valid, Standby.State, Node.Valid, Node.State, InputBuffer.Valid, InputBuffer.State;
      hide Scheduler.Footprint, Standby.Footprint, NotifySeeded, Seeded;
      this.config, this.arith := config, arith;
      responder := new Responder(config.address);
      suppressor := new Suppressor();
      retxSlots := new Retx[3](i => IDLE_RETX);
      var turns, watch := Device.StartParts(config, arith, seed);
      scheduler, standby := turns, watch;
      passManaged := config.predecessors != 0;
      ownOutputSent, myOutputValue, targetSeenThisPass := false, 0, false;
      turnStallArmed, turnStallSinceMs, lastActivityMs := false, 0, now;
      new;
      NotAmong(scheduler, standby);
    }

    lemma NotAmong(turns: Scheduler, watch: Standby?)
      ensures this !in turns.Footprint()
      ensures watch != null ==> this !in watch.Footprint()
    {
    }

    // ---- Receiving ----

    method FeedScheduler(m: Message)
      requires Valid()
      modifies Footprint()
      ensures Valid()
      ensures State() == var s := old(State()); s.(sched := Observe(config, s.sched.(node := NodeReceive(config, s.sched.node, m)), m))
    {
      hide Standby.Valid, Standby.State, Node.State, InputBuffer.Valid, InputBuffer.State, NodeReceive, Observe;
      scheduler.node.OnPacketReceived(m);
      scheduler.OnPacketObserved(m);
    }

    method FeedStandby(m: Message)
      requires Valid()
      modifies Footprint()
      ensures Valid()
      ensures State() == var s := old(State());
                         s.(standby := if s.standby.Some? && config.backup.Some?
                                       then Some(StandbyObserve(config, config.backup.value, s.standby.value, m)) else s.standby,
                            targetSeen := s.targetSeen || (s.standby.Some? && IsTarget(config, m.source)))
    {
      hide StandbyObserve, IsTarget;
      hide Scheduler.Valid, Scheduler.State, Standby.Valid, Standby.State, Node.Valid, Node.State, InputBuffer.Valid, InputBuffer.State;
      if standby != null {
        standby.OnPacketObserved(m);
        if IsTarget(config, m.source) && !targetSeenThisPass { targetSeenThisPass := true; }
      }
    }

    method DispatchPacket(m: Message)
      requires Valid()
      modifies Footprint()
      ensures Valid() && State() == Dispatch(config, old(State()), m)
    {
      hide Scheduler.Valid, Scheduler.State, Standby.Valid, Standby.State, Node.Valid, Node.State, InputBuffer.Valid, InputBuffer.State;
      hide NodeReceive, Observe, StandbyObserve, IsTarget, Respond;
      if m.kind == DATA {
        FeedScheduler(m);
        FeedStandby(m);
      } else if m.kind == CONTROL {
        responder.OnPacketObserved(m, ownOutputSent, myOutputValue);
      }
    }

    method ReceivePacket(m: Message, now: u32)
      requires Valid()
      modifies Footprint()
      ensures Valid() && State() == Receive(config, old(State()), m, now)
    {
      hide Scheduler.Valid, Scheduler.State, Standby.Valid, Standby.State, Node.Valid, Node.State, InputBuffer.Valid, InputBuffer.State;
      lastActivityMs := now;
      if m.source.layer == config.predecessorLayer {
        var accept := suppressor.ShouldAccept(m);
        if !accept { return; }
      }
      DispatchPacket(m);
    }

    // ---- The stalled turn ----

    /** The empty marker for sibling `nid`. */
    function Marker(nid: nat): Message
      requires nid < MAX_PREDECESSORS
    {
      Message(Address(nid, config.address.layer, config.address.cluster, 0), 0, DATA, 0, [])
    }

    lemma MarkerObserved(s: SchedulerState, nid: nat)
      requires nid < MAX_PREDECESSORS
      ensures Observe(config, s, Marker(nid)) ==
              s.(observed := s.observed + if config.address.layer == config.ownLayer then {nid} else {})
    {
    }

    /** One empty marker per preceding sibling, to the scheduler only. */
    method ReleaseStalledTurn()
      requires Valid()
      modifies Footprint()
      ensures Valid() && State() == ReleaseTurn(config, old(State()))
    {
      hide Scheduler.Valid, Scheduler.State, Standby.Valid, Standby.State, Node.Valid, Node.State, InputBuffer.Valid, InputBuffer.State;
      hide Observe, Marker;
      ghost var start, mine := State(), config.address.layer == config.ownLayer;
      ghost var siblings := Bits(config.precedingSiblings);
      for nid := 0 to MAX_PREDECESSORS
        invariant Valid()
        invariant State() == start.(sched := start.sched.(observed :=
                    start.sched.observed + if mine then set k | k in siblings && k < nid else {}))
      {
        BitsTest(config.precedingSiblings, nid);
        MarkerObserved(State().sched, nid);
        if And(config.precedingSiblings, Pow2(nid)) != 0 {
          scheduler.OnPacketObserved(Marker(nid));
        }
      }
      assert (set k | k in siblings && k < MAX_PREDECESSORS) == siblings;
    }

    method MaybeReleaseStalledTurn(now: u32)
      requires Valid()
      modifies Footprint()
      ensures Valid() && State() == MaybeReleaseTurn(config, old(State()), now)
    {
      hide Scheduler.Valid, Standby.Valid, Node.Valid, Node.State, InputBuffer.Valid, InputBuffer.State;
      if scheduler.phase != WaitingForTurn {
        turnStallArmed := false;
        return;
      }
      if !turnStallArmed {
        turnStallArmed, turnStallSinceMs := true, now;
        return;
      }
      if !SignedAtLeast(now, turnStallSinceMs, TURN_STALL_MS) { return; }
      ReleaseStalledTurn();
      turnStallArmed := false;
    }

    // ---- Sending ----

    method SendOwnOutput(now: u32) returns (sent: seq<Message>)
      requires Valid()
      modifies Footprint()
      ensures Valid() && (State(), sent) == SendOwn(config, old(State()), now)
    {
      hide Scheduler.Valid, Scheduler.State, Standby.Valid, Standby.State, Node.Valid, Node.State, InputBuffer.Valid, InputBuffer.State;
      hide Armed;
      sent := [];
      var out := scheduler.HasOutputReady();
      if out.Some? {
        var m := out.value.(group := config.successor);
        myOutputValue, ownOutputSent := m.values[0], true;
        retxSlots[0] := Armed(m, now);
        sent := [m];
      }
    }

    method SendDiagnostic(now: u32) returns (sent: seq<Message>)
      requires Valid()
      modifies Footprint()
      ensures Valid() && (State(), sent) == SendReport(old(State()), now)
    {
      hide Scheduler.Valid, Scheduler.State, Standby.Valid, Standby.State, Node.Valid, Node.State, InputBuffer.Valid, InputBuffer.State;
      sent := [];
      if standby == null { return; }
      var out := standby.HasDiagnosticReady();
      if out.Some? {
        var m := out.value.(group := DIAGNOSTIC_GROUP);
        retxSlots[2] := Armed(m, now);
        sent := [m];
      }
    }

    method NoteSubstitute(m: Message, now: u32)
      requires Valid()
      modifies Footprint()
      ensures Valid()
      ensures State() == var s := old(State());
                         s.(retxSubstitute := Armed(m, now), sched := Observe(config, s.sched, m), targetSeen := true)
    {
      hide Scheduler.Valid, Scheduler.State, Standby.Valid, Standby.State, Node.Valid, Node.State, InputBuffer.Valid, InputBuffer.State;
      hide Observe;
      retxSlots[1] := Armed(m, now);
      scheduler.OnPacketObserved(m);
      targetSeenThisPass := true;
    }

    method SendStandbyOutput(now: u32) returns (sent: seq<Message>)
      requires Valid()
      modifies Footprint()
      ensures Valid() && (State(), sent) == SendStandby(config, old(State()), now)
    {
      hide Scheduler.Valid, Standby.Valid, Node.Valid, Node.State, InputBuffer.Valid, InputBuffer.State;
      sent := [];
      if standby == null { return; }
      var out := standby.HasOutputReady();
      if out.None? { return; }
      if standby.hasSubstituted {
        var m := out.value.(group := config.successor);
        NoteSubstitute(m, now);
        sent := [m];
      } else if standby.hasTornDown {
        targetSeenThisPass := true;
        sent := [out.value.(group := config.successor)];
      } else {
        sent := [out.value.(group := config.address.layer)];
      }
    }

    method SendResendReply() returns (sent: seq<Message>)
      requires Valid()
      modifies Footprint()
      ensures Valid() && (State(), sent) == SendReply(config, old(State()))
    {
      hide Scheduler.Valid, Scheduler.State, Standby.Valid, Standby.State, Node.Valid, Node.State, InputBuffer.Valid, InputBuffer.State;
      sent := [];
      var out := responder.HasResendReady();
      if out.Some? { sent := [out.value.(group := config.successor)]; }
    }

    /** What the first `n` slots send. */
    static function Resent(slots: seq<Retx>, n: nat, now: u32): seq<Message>
      requires n <= |slots|
    {
      if n == 0 then [] else Resent(slots, n - 1, now) + Service(slots[n - 1], now).1
    }

    static lemma ResentAll(slots: seq<Retx>, now: u32)
      requires |slots| == 3
      ensures Resent(slots, 3, now) == Service(slots[0], now).1 + Service(slots[1], now).1 + Service(slots[2], now).1
    {
      hide Service;
      assert Resent(slots, 1, now) == Service(slots[0], now).1;
      assert Resent(slots, 2, now) == Resent(slots, 1, now) + Service(slots[1], now).1;
    }

    method ServiceRetransmits(now: u32) returns (sent: seq<Message>)
      requires Valid()
      modifies Footprint()
      ensures Valid() && (State(), sent) == ServiceAll(old(State()), now)
    {
      hide Scheduler.Valid, Scheduler.State, Standby.Valid, Standby.State, Node.Valid, Node.State, InputBuffer.Valid, InputBuffer.State;
      hide Service;
      ghost var slots := retxSlots[..];
      sent := [];
      for i := 0 to retxSlots.Length
        modifies retxSlots
        invariant forall j | 0 <= j < i :: retxSlots[j] == Service(slots[j], now).0
        invariant forall j | i <= j < retxSlots.Length :: retxSlots[j] == slots[j]
        invariant sent == Resent(slots, i, now)
      {
        var (slot, more) := Service(retxSlots[i], now);
        retxSlots[i] := slot;
        sent := sent + more;
      }
      Device.ResentAll(slots, now);
    }

    // ---- Closing the pass ----

    method ClearRetransmits()
      requires Valid()
      modifies Footprint()
      ensures Valid()
      ensures State() == var s := old(State());
                         s.(retxOwn := s.retxOwn.(left := 0), retxSubstitute := s.retxSubstitute.(left := 0),
                            retxReport := s.retxReport.(left := 0))
    {
      hide Scheduler.Valid, Scheduler.State, Standby.Valid, Standby.State, Node.Valid, Node.State, InputBuffer.Valid, InputBuffer.State;
      for i := 0 to retxSlots.Length
        modifies retxSlots
        invariant forall j | 0 <= j < i :: retxSlots[j] == old(retxSlots[j]).(left := 0)
        invariant forall j | i <= j < retxSlots.Length :: retxSlots[j] == old(retxSlots[j])
      {
        retxSlots[i] := retxSlots[i].(left := 0);
      }
    }

    method ResetScheduler()
      requires Valid()
      modifies Footprint()
      ensures Valid() && State() == old(State()).(sched := FRESH_SCHEDULER)
    {
      hide Scheduler.State, Standby.Valid, Standby.State, Node.Valid, Node.State, InputBuffer.Valid, InputBuffer.State;
      scheduler.ResetForNextPass();
    }

    method ResetStandby()
      requires Valid()
      modifies Footprint()
      ensures Valid()
      ensures State() == var s := old(State()); s.(standby := if s.standby.Some? then Some(FRESH_STANDBY) else None)
    {
      hide Scheduler.Valid, Scheduler.State, Standby.Valid, Standby.State, Node.Valid, Node.State, InputBuffer.Valid, InputBuffer.State;
      if standby != null { standby.ResetForNextPass(); }
    }

    method ResetAnswers()
      requires Valid()
      modifies Footprint()
      ensures Valid()
      ensures State() == old(State()).(responder := ResponderState(None), suppressor := SuppressorState({}))
    {
      hide Scheduler.Valid, Scheduler.State, Standby.Valid, Standby.State, Node.Valid, Node.State, InputBuffer.Valid, InputBuffer.State;
      responder.ResetForNextPass();
      suppressor.Reset();
    }

    method ResetFlags(now: u32)
      requires Valid()
      modifies this
      ensures Valid()
      ensures State() == old(State()).(ownOutputSent := false, myOutput := 0, targetSeen := false, stallArmed := false,
                                       lastActivity := now)
    {
      hide Scheduler.Valid, Scheduler.State, Standby.Valid, Standby.State, Node.Valid, Node.State, InputBuffer.Valid, InputBuffer.State;
      ownOutputSent, myOutputValue, targetSeenThisPass := false, 0, false;
      turnStallArmed := false;
      lastActivityMs := now;
    }

    method ClosePassNow(now: u32)
      requires Valid()
      modifies Footprint()
      ensures Valid() && State() == ClosePass(old(State()), now)
    {
      hide Valid, State;
      ResetScheduler();
      ResetStandby();
      ResetAnswers();
      ClearRetransmits();
      ResetFlags(now);
    }

    method MaybeClose(now: u32)
      requires Valid()
      modifies Footprint()
      ensures Valid() && State() == MaybeClosePass(old(State()), now)
    {
      hide Scheduler.Valid, Standby.Valid, Node.Valid, Node.State, InputBuffer.Valid, InputBuffer.State;
      if !passManaged { return; }
      var resolved := ownOutputSent &&
                      (standby == null || targetSeenThisPass || standby.hasSubstituted || standby.hasTornDown);
      if resolved || SignedAtLeast(now, lastActivityMs, PASS_IDLE_MS) { ClosePassNow(now); }
    }

    // ---- One turn ----

    method ReceivePackets(received: seq<Message>, now: u32)
      requires Valid()
      modifies Footprint()
      ensures Valid() && State() == ReceiveAll(config, old(State()), received, now)
    {
      hide Valid, State;
      ghost var start := State();
      for i := 0 to |received|
        invariant Valid()
        invariant ReceiveAll(config, State(), received[i..], now) == ReceiveAll(config, start, received, now)
      {
        ReceivePacket(received[i], now);
        assert received[i..][1..] == received[i + 1..];
      }
      assert received[|received|..] == [];
    }

    method AdvanceScheduler()
      requires Valid()
      modifies Footprint()
      ensures Valid() && State() == TickScheduler(arith, config, old(State()))
    {
      hide Scheduler.State, Standby.Valid, Standby.State, Node.Valid, Node.State, InputBuffer.Valid, InputBuffer.State, Tick;
      scheduler.Advance();
    }

    method AdvanceStandby(now: u32)
      requires Valid()
      modifies Footprint()
      ensures Valid() && State() == TickStandby(arith, config, old(State()), now)
    {
      hide Scheduler.Valid, Standby.Valid, Node.Valid, Node.State, InputBuffer.Valid, InputBuffer.State;
      hide StandbyTick;
      if standby != null && scheduler.phase != WaitingForInput { standby.Advance(now); }
    }

    method ListenTo(received: seq<Message>, now: u32)
      requires Valid()
      modifies Footprint()
      ensures Valid() && State() == Listen(arith, config, old(State()), received, now)
    {
      hide Valid, State, ReceiveAll, TickScheduler, TickStandby;
      ReceivePackets(received, now);
      AdvanceScheduler();
      AdvanceStandby(now);
    }

    method SpeakUp(now: u32) returns (sent: seq<Message>)
      requires Valid()
      modifies Footprint()
      ensures Valid() && (State(), sent) == Speak(config, old(State()), now)
    {
      hide Valid, State, SendOwn, SendReport, SendStandby, SendReply, ServiceAll;
      var own := SendOwnOutput(now);
      var report := SendDiagnostic(now);
      var stood := SendStandbyOutput(now);
      var reply := SendResendReply();
      var again := ServiceRetransmits(now);
      sent := own + report + stood + reply + again;
    }

    /** `runRuntimeStep`: takes in what the transport has received, returns what is sent. */
    method RunRuntimeStep(received: seq<Message>, now: u32) returns (sent: seq<Message>)
      requires Valid()
      modifies Footprint()
      ensures Valid() && (State(), sent) == Step(arith, config, old(State()), received, now)
    {
      hide Valid, State, Listen, MaybeReleaseTurn, Speak, MaybeClosePass;
      ListenTo(received, now);
      MaybeReleaseStalledTurn(now);
      sent := SpeakUp(now);
      MaybeClose(now);
    }
  }
}
