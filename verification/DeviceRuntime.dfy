/** The runtime half of the firmware (`Device_Setup.ino`): how one device composes its
    node, scheduler, standby, responder and suppressor in each turn of its main loop. */
module DeviceRuntime {
  import opened Words
  import opened Addresses
  import opened Arithmetic
  import opened Messages
  import opened Nodes
  import opened Schedulers
  import opened Failover
  import opened Options

  const DATA_RETRANSMITS: nat := 3
  const RETRANSMIT_GAP_MS: nat := 150
  const TURN_STALL_MS: nat := 1500
  const PASS_IDLE_MS: nat := 5000
  const NO_SIBLING_GROUP: u8 := 255

  /** One entry of `retxSlots`. */
  datatype Retx = Retx(message: Message, left: nat, due: u32)

  const IDLE_RETX := Retx(Message(Address(0, 0, 0, 0), 0, DATA, 0, []), 0, 0)

  datatype DeviceState = DeviceState(
    sched: SchedulerState,
    standby: Option<StandbyState>,
    responder: ResponderState,
    suppressor: SuppressorState,
    ownOutputSent: bool,
    myOutput: Float,
    targetSeen: bool,
    passManaged: bool,
    stallArmed: bool,
    stallSince: u32,
    lastActivity: u32,
    retxOwn: Retx,
    retxSubstitute: Retx,
    retxReport: Retx)

  /** `(long)(now - since) >= (long)span`, for a span below 2^31. */
  predicate SignedAtLeast(now: u32, since: u32, span: nat)
  {
    span <= Elapsed(now, since) < 0x8000_0000
  }

  // ---- startRuntime ----

  /** The backup duty is taken up only toward a sibling and with a known roster. */
  predicate StandbyEnabled(c: NodeConfig)
  {
    c.backup.Some? && c.backup.value.target.layer == c.address.layer && c.backup.value.layerRoster != 0
  }

  function Start(c: NodeConfig, seed: Option<Float>, now: u32): DeviceState
  {
    var sched := if c.predecessors == 0 && seed.Some?
      then NotifySeeded(FRESH_SCHEDULER.(node := Seeded(FRESH_NODE, seed.value)))
      else FRESH_SCHEDULER;
    DeviceState(sched, if StandbyEnabled(c) then Some(FRESH_STANDBY) else None,
                ResponderState(None), SuppressorState({}), false, 0, false, c.predecessors != 0,
                false, 0, now, IDLE_RETX, IDLE_RETX, IDLE_RETX)
  }

  /** A second group is joined only when siblings have to be heard, and 255 means none. */
  predicate JoinsSiblingGroup(c: NodeConfig)
  {
    (c.precedingSiblings != 0 || c.backup.Some?) && c.successor != NO_SIBLING_GROUP
  }

  /** The multicast groups a device has joined. */
  predicate Hears(c: NodeConfig, group: u8)
  {
    group == c.address.layer || (JoinsSiblingGroup(c) && group == c.successor)
  }

  // ---- The receive loop ----

  /** DATA feeds the node, the scheduler and the standby; CONTROL goes to the responder only. */
  function Dispatch(c: NodeConfig, s: DeviceState, m: Message): DeviceState
  {
    if m.kind == DATA then
      s.(sched := Observe(c, s.sched.(node := NodeReceive(c, s.sched.node, m)), m),
         standby := if s.standby.Some? && c.backup.Some?
                    then Some(StandbyObserve(c, c.backup.value, s.standby.value, m)) else s.standby,
         targetSeen := s.targetSeen || (s.standby.Some? && IsTarget(c, m.source)))
    else if m.kind == CONTROL then
      s.(responder := Respond(c.address, s.responder, m, s.ownOutputSent, s.myOutput))
    else s
  }

  predicate IsTarget(c: NodeConfig, a: Address)
  {
    c.backup.Some? && SameNode(a, c.backup.value.target)
  }

  function Receive(c: NodeConfig, s: DeviceState, m: Message, now: u32): DeviceState
  {
    var s := s.(lastActivity := now);
    if m.source.layer == c.predecessorLayer then
      if Accepts(s.suppressor, m)
      then Dispatch(c, s.(suppressor := Lock(s.suppressor, m)), m)
      else s
    else Dispatch(c, s, m)
  }

  function ReceiveAll(c: NodeConfig, s: DeviceState, ms: seq<Message>, now: u32): DeviceState
    decreases |ms|
  {
    if ms == [] then s else ReceiveAll(c, Receive(c, s, ms[0], now), ms[1..], now)
  }

  // ---- The rest of one loop turn ----

  function TickScheduler(a: Arith<Float>, c: NodeConfig, s: DeviceState): DeviceState
  {
    s.(sched := Tick(a, c, s.sched))
  }

  function TickStandby(a: Arith<Float>, c: NodeConfig, s: DeviceState, now: u32): DeviceState
  {
    if s.standby.Some? && c.backup.Some? && s.sched.phase != WaitingForInput
    then s.(standby := Some(StandbyTick(a, c, c.backup.value, s.standby.value, now)))
    else s
  }

  /** Feeds the scheduler an empty marker for every preceding sibling. */
  function ReleaseTurn(c: NodeConfig, s: DeviceState): DeviceState
  {
    if c.address.layer == c.ownLayer
    then s.(sched := s.sched.(observed := s.sched.observed + Bits(c.precedingSiblings)))
    else s
  }

  predicate StallExpired(s: DeviceState, now: u32)
  {
    s.sched.phase == WaitingForTurn && s.stallArmed && SignedAtLeast(now, s.stallSince, TURN_STALL_MS)
  }

  function MaybeReleaseTurn(c: NodeConfig, s: DeviceState, now: u32): DeviceState
  {
    if s.sched.phase != WaitingForTurn then s.(stallArmed := false)
    else if !s.stallArmed then s.(stallArmed := true, stallSince := now)
    else if StallExpired(s, now) then ReleaseTurn(c, s).(stallArmed := false)
    else s
  }

  /** A slot armed by `sendAndRetransmit`. */
  function Armed(m: Message, now: u32): Retx
  {
    Retx(m, DATA_RETRANSMITS - 1, (now + RETRANSMIT_GAP_MS) % 0x1_0000_0000)
  }

  function SendOwn(c: NodeConfig, s: DeviceState, now: u32): (DeviceState, seq<Message>)
  {
    var (sched, out) := TakeOutput(c, s.sched);
    match out
    case None => (s, [])
    case Some(m) =>
      var sent := m.(group := c.successor);
      (s.(sched := sched, myOutput := m.values[0], ownOutputSent := true, retxOwn := Armed(sent, now)), [sent])
  }

  function SendReport(s: DeviceState, now: u32): (DeviceState, seq<Message>)
  {
    if s.standby.Some? && s.standby.value.diagnostic.Some? then
      var sent := s.standby.value.diagnostic.value.(group := DIAGNOSTIC_GROUP);
      (s.(standby := Some(s.standby.value.(diagnostic := None)), retxReport := Armed(sent, now)), [sent])
    else (s, [])
  }

  /** The substitute also counts as seen by this device's own scheduler. */
  function SendStandby(c: NodeConfig, s: DeviceState, now: u32): (DeviceState, seq<Message>)
  {
    if s.standby.Some? && s.standby.value.outgoing.Some? then
      var b, out := s.standby.value, s.standby.value.outgoing.value;
      var taken := s.(standby := Some(b.(outgoing := None)));
      if b.substituted then
        var sent := out.(group := c.successor);
        (taken.(retxSubstitute := Armed(sent, now), sched := Observe(c, s.sched, sent), targetSeen := true), [sent])
      else if b.tornDown then (taken.(targetSeen := true), [out.(group := c.successor)])
      else (taken, [out.(group := c.address.layer)])
    else (s, [])
  }

  function SendReply(c: NodeConfig, s: DeviceState): (DeviceState, seq<Message>)
  {
    match s.responder.pending
    case None => (s, [])
    case Some(value) => (s.(responder := ResponderState(None)), [ResendReply(c.address, value).(group := c.successor)])
  }

  /** One slot of `serviceRetransmits`. */
  function Service(r: Retx, now: u32): (Retx, seq<Message>)
  {
    if r.left == 0 || Elapsed(now, r.due) >= 0x8000_0000 then (r, [])
    else (r.(left := r.left - 1, due := (now + RETRANSMIT_GAP_MS) % 0x1_0000_0000), [r.message])
  }

  function ServiceAll(s: DeviceState, now: u32): (DeviceState, seq<Message>)
  {
    var (own, m1) := Service(s.retxOwn, now);
    var (substitute, m2) := Service(s.retxSubstitute, now);
    var (report, m3) := Service(s.retxReport, now);
    (s.(retxOwn := own, retxSubstitute := substitute, retxReport := report), m1 + m2 + m3)
  }

  predicate PassResolved(s: DeviceState)
  {
    s.ownOutputSent &&
    (s.standby.None? || s.targetSeen || s.standby.value.substituted || s.standby.value.tornDown)
  }

  function ClosePass(s: DeviceState, now: u32): DeviceState
  {
    DeviceState(FRESH_SCHEDULER, if s.standby.Some? then Some(FRESH_STANDBY) else None,
                ResponderState(None), SuppressorState({}), false, 0, false, s.passManaged, false, s.stallSince, now,
                s.retxOwn.(left := 0), s.retxSubstitute.(left := 0), s.retxReport.(left := 0))
  }

  /** The pass is dropped for want of activity. */
  predicate IdleExpired(s: DeviceState, now: u32)
  {
    s.passManaged && !PassResolved(s) && SignedAtLeast(now, s.lastActivity, PASS_IDLE_MS)
  }

  function MaybeClosePass(s: DeviceState, now: u32): DeviceState
  {
    if s.passManaged && (PassResolved(s) || IdleExpired(s, now)) then ClosePass(s, now) else s
  }

  // ---- One call of runRuntimeStep ----

  /** Up to the point where the turn-stall timer is looked at. */
  function Listen(a: Arith<Float>, c: NodeConfig, s: DeviceState, ms: seq<Message>, now: u32): DeviceState
  {
    TickStandby(a, c, TickScheduler(a, c, ReceiveAll(c, s, ms, now)), now)
  }

  function Speak(c: NodeConfig, s: DeviceState, now: u32): (DeviceState, seq<Message>)
  {
    var (s1, m1) := SendOwn(c, s, now);
    var (s2, m2) := SendReport(s1, now);
    var (s3, m3) := SendStandby(c, s2, now);
    var (s4, m4) := SendReply(c, s3);
    var (s5, m5) := ServiceAll(s4, now);
    (s5, m1 + m2 + m3 + m4 + m5)
  }

  function Step(a: Arith<Float>, c: NodeConfig, s: DeviceState, ms: seq<Message>, now: u32): (DeviceState, seq<Message>)
  {
    var (spoken, sent) := Speak(c, MaybeReleaseTurn(c, Listen(a, c, s, ms, now), now), now);
    (MaybeClosePass(spoken, now), sent)
  }

  // ---- What receiving never touches ----

  predicate SamePlans(b: StandbyState, b': StandbyState)
  {
    && b'.outgoing == b.outgoing && b'.diagnostic == b.diagnostic && b'.resolved == b.resolved
    && b'.substituted == b.substituted && b'.tornDown == b.tornDown
  }

  predicate SameOutputs(s: DeviceState, s': DeviceState)
  {
    && s'.standby.Some? == s.standby.Some?
    && (s.standby.Some? ==> SamePlans(s.standby.value, s'.standby.value))
    && s'.retxOwn == s.retxOwn && s'.retxSubstitute == s.retxSubstitute && s'.retxReport == s.retxReport
  }

  lemma ObserveFrame(c: NodeConfig, role: BackupRole, b: StandbyState, m: Message)
    ensures SamePlans(b, StandbyObserve(c, role, b, m))
  {
  }

  lemma DispatchFrame(c: NodeConfig, s: DeviceState, m: Message)
    ensures SameOutputs(s, Dispatch(c, s, m))
  {
    hide NodeReceive, Observe, Respond, StandbyObserve;
    if s.standby.Some? && c.backup.Some? {
      ObserveFrame(c, c.backup.value, s.standby.value, m);
    }
  }

  /** Receiving packets changes what is known, not what is queued to be said. */
  lemma {:induction false} ReceiveAllFrame(c: NodeConfig, s: DeviceState, ms: seq<Message>, now: u32)
    ensures SameOutputs(s, ReceiveAll(c, s, ms, now))
    decreases |ms|
  {
    hide Dispatch;
    if ms != [] {
      var m, s0 := ms[0], s.(lastActivity := now);
      DispatchFrame(c, s0, m);
      DispatchFrame(c, s0.(suppressor := Lock(s0.suppressor, m)), m);
      ReceiveAllFrame(c, Receive(c, s, m, now), ms[1..], now);
    }
  }
}
