/** What one device keeps true through every turn of its loop, whatever it receives from a
    medium whose DATA packets are right, relative to the values expected of it.

    The node's slots and the standby's hold values of the previous layer, the output is the
    device's own value once executed, and whatever is queued, pending or armed for repetition
    carries the right value under the right identity. */
module DeviceInvariant {
  import opened Words
  import opened Arithmetic
  import opened Messages
  import opened InputBuffers
  import opened Nodes
  import opened Schedulers
  import opened Failover
  import opened DeviceRuntime
  import opened Options

  /** A seeded device is handed its value instead of computing it. */
  datatype Expected = Expected(own: Float, target: Float, previous: seq<Float>, seeded: bool)

  ghost predicate SlotsGood(e: Expected, slots: Slots)
  {
    forall i: nat | i in slots :: i < |e.previous| && slots[i] == [e.previous[i]]
  }

  ghost predicate Computes(a: Arith<Float>, e: Expected, predecessors: u16, activation: u8, bias: Float,
                           weights: seq<Float>, value: Float)
  {
    forall slots | SlotsGood(e, slots) && Complete(slots, predecessors) ::
      Output(a, predecessors, activation, bias, weights, slots) == value
  }

  /** The configuration is right: complete, correct inputs yield the expected values. */
  ghost predicate Right(a: Arith<Float>, c: NodeConfig, e: Expected)
  {
    && (!e.seeded ==> Computes(a, e, c.predecessors, c.activation, c.bias, c.weights, e.own))
    && (e.seeded ==> c.predecessors == 0 && c.backup.None?)
    && (c.backup.Some? ==>
          var role := c.backup.value;
          && Computes(a, e, role.predecessors, role.activation, role.bias, role.weights, e.target)
          && role.predecessors == c.predecessors
          && role.predecessorLayer == c.predecessorLayer
          && role.target.layer == c.address.layer && c.predecessorLayer != c.address.layer)
  }

  /** DATA from the layer this device listens to carries that layer's values. */
  ghost predicate GoodInput(c: NodeConfig, e: Expected, m: Message)
  {
    m.kind == DATA && m.source.layer == c.predecessorLayer ==>
      m.source.node < |e.previous| && m.values == [e.previous[m.source.node]]
  }

  /** A device speaks for itself or for its target, asks for nobody else's output, and never
      gives the target up. */
  ghost predicate GoodOutput(c: NodeConfig, e: Expected, m: Message)
  {
    && m.kind != TEARDOWN
    && (m.kind == CONTROL ==>
          !IsTeardownReport(m) && m.source == c.address
          && c.backup.Some? && m.values == AddressPayload(c.backup.value.target))
    && (m.kind == DATA ==>
          || (m.source == c.address && m.values == [e.own])
          || (c.backup.Some? && m.source == c.backup.value.target && m.values == [e.target]))
  }

  ghost predicate AllGoodOutput(c: NodeConfig, e: Expected, ms: seq<Message>)
  {
    forall m | m in ms :: GoodOutput(c, e, m)
  }

  ghost predicate SchedulerGood(c: NodeConfig, e: Expected, s: SchedulerState)
  {
    && SlotsGood(e, s.node.slots)
    && (s.node.hasExecuted ==> s.node.output == e.own)
    && (s.phase in {WaitingForTurn, ReadyToTransmit, Transmitted} ==> s.node.hasExecuted)
    && (!e.seeded && s.phase != WaitingForInput ==> Complete(s.node.slots, c.predecessors))
    && (e.seeded ==> s.phase in {WaitingForTurn, ReadyToTransmit, Transmitted})
  }

  /** The standby's slots keep up with the node's on every predecessor of the target. */
  ghost predicate StandbyGood(c: NodeConfig, e: Expected, s: SchedulerState, b: StandbyState)
  {
    && c.backup.Some?
    && SlotsGood(e, b.slots)
    && Bits(c.backup.value.predecessors) * s.node.slots.Keys <= b.slots.Keys
    && !b.tornDown
    && (b.outgoing.Some? ==> GoodOutput(c, e, b.outgoing.value))
    && (b.diagnostic.Some? ==> GoodOutput(c, e, b.diagnostic.value))
  }

  ghost predicate RetxGood(c: NodeConfig, e: Expected, r: Retx)
  {
    r.left > 0 ==> GoodOutput(c, e, r.message)
  }

  ghost predicate DeviceGood(c: NodeConfig, e: Expected, s: DeviceState)
  {
    && SchedulerGood(c, e, s.sched)
    && (s.standby.Some? ==> StandbyGood(c, e, s.sched, s.standby.value))
    && (s.ownOutputSent ==> s.myOutput == e.own)
    && (s.responder.pending.Some? ==> s.responder.pending.value == e.own)
    && (s.passManaged ==> !e.seeded)
    && RetxGood(c, e, s.retxOwn) && RetxGood(c, e, s.retxSubstitute) && RetxGood(c, e, s.retxReport)
  }

  lemma StartGood(a: Arith<Float>, c: NodeConfig, e: Expected, seed: Option<Float>, now: u32)
    requires Right(a, c, e)
    requires e.seeded ==> seed == Some(e.own)
    requires !e.seeded ==> seed == None
    ensures DeviceGood(c, e, Start(c, seed, now))
  {
  }

  lemma DispatchGood(a: Arith<Float>, c: NodeConfig, e: Expected, s: DeviceState, m: Message)
    requires Right(a, c, e) && DeviceGood(c, e, s) && GoodInput(c, e, m)
    ensures DeviceGood(c, e, Dispatch(c, s, m))
  {
    if m.kind == DATA && m.source.layer == c.predecessorLayer {
      var s' := Dispatch(c, s, m);
      assert s'.sched.node.slots == Store(s.sched.node.slots, m.source.node, m.values);
    }
  }

  lemma ReceiveGood(a: Arith<Float>, c: NodeConfig, e: Expected, s: DeviceState, m: Message, now: u32)
    requires Right(a, c, e) && DeviceGood(c, e, s) && GoodInput(c, e, m)
    ensures DeviceGood(c, e, Receive(c, s, m, now))
  {
    hide Right, GoodInput, SchedulerGood, StandbyGood, RetxGood, Dispatch;
    var s := s.(lastActivity := now);
    DispatchGood(a, c, e, s, m);
    DispatchGood(a, c, e, s.(suppressor := Lock(s.suppressor, m)), m);
  }

  lemma {:induction false} ReceiveAllGood(a: Arith<Float>, c: NodeConfig, e: Expected, s: DeviceState, ms: seq<Message>, now: u32)
    requires Right(a, c, e) && DeviceGood(c, e, s)
    requires forall m | m in ms :: GoodInput(c, e, m)
    ensures DeviceGood(c, e, ReceiveAll(c, s, ms, now))
    decreases |ms|
  {
    if ms != [] {
      var m := ms[0];
      ReceiveGood(a, c, e, s, m, now);
      hide Right, DeviceGood, GoodInput, Receive;
      ReceiveAllGood(a, c, e, Receive(c, s, m, now), ms[1..], now);
    }
  }

  lemma TickSchedulerGood(a: Arith<Float>, c: NodeConfig, e: Expected, s: DeviceState)
    requires Right(a, c, e) && DeviceGood(c, e, s)
    ensures DeviceGood(c, e, TickScheduler(a, c, s))
  {
  }

  /** An expired grace period finds the target's inputs complete, so it always ends in a
      substitute, and the substitute carries the target's value. */
  lemma StandbyTickGood(a: Arith<Float>, c: NodeConfig, e: Expected, s: SchedulerState, b: StandbyState, now: u32)
    requires Right(a, c, e) && StandbyGood(c, e, s, b) && Complete(b.slots, c.backup.value.predecessors)
    ensures StandbyGood(c, e, s, StandbyTick(a, c, c.backup.value, b, now))
  {
    var role := c.backup.value;
    assert Output(a, role.predecessors, role.activation, role.bias, role.weights, b.slots) == e.target;
    assert GoodOutput(c, e, Substitute(a, role, b.slots));
    assert GoodOutput(c, e, ResendRequest(c, role));
    assert GoodOutput(c, e, Report(c, role, FLAG_SUBSTITUTE));
  }

  lemma TickStandbyGood(a: Arith<Float>, c: NodeConfig, e: Expected, s: DeviceState, now: u32)
    requires Right(a, c, e) && DeviceGood(c, e, s)
    ensures DeviceGood(c, e, TickStandby(a, c, s, now))
  {
    if s.standby.Some? && s.sched.phase != WaitingForInput {
      StandbyTickGood(a, c, e, s.sched, s.standby.value, now);
    }
  }

  lemma MaybeReleaseGood(c: NodeConfig, e: Expected, s: DeviceState, now: u32)
    requires DeviceGood(c, e, s)
    ensures DeviceGood(c, e, MaybeReleaseTurn(c, s, now))
  {
  }

  lemma SendOwnGood(c: NodeConfig, e: Expected, s: DeviceState, now: u32)
    requires DeviceGood(c, e, s)
    ensures var (s', sent) := SendOwn(c, s, now); DeviceGood(c, e, s') && AllGoodOutput(c, e, sent)
  {
  }

  lemma SendReportGood(c: NodeConfig, e: Expected, s: DeviceState, now: u32)
    requires DeviceGood(c, e, s)
    ensures var (s', sent) := SendReport(s, now); DeviceGood(c, e, s') && AllGoodOutput(c, e, sent)
  {
  }

  lemma SendStandbyGood(c: NodeConfig, e: Expected, s: DeviceState, now: u32)
    requires DeviceGood(c, e, s)
    ensures var (s', sent) := SendStandby(c, s, now); DeviceGood(c, e, s') && AllGoodOutput(c, e, sent)
  {
    hide SlotsGood, Bits, Complete;
  }

  lemma SendReplyGood(c: NodeConfig, e: Expected, s: DeviceState)
    requires DeviceGood(c, e, s)
    ensures var (s', sent) := SendReply(c, s); DeviceGood(c, e, s') && AllGoodOutput(c, e, sent)
  {
  }

  lemma ServiceAllGood(c: NodeConfig, e: Expected, s: DeviceState, now: u32)
    requires DeviceGood(c, e, s)
    ensures var (s', sent) := ServiceAll(s, now); DeviceGood(c, e, s') && AllGoodOutput(c, e, sent)
  {
  }

  lemma SpeakGood(c: NodeConfig, e: Expected, s: DeviceState, now: u32)
    requires DeviceGood(c, e, s)
    ensures var (s', sent) := Speak(c, s, now); DeviceGood(c, e, s') && AllGoodOutput(c, e, sent)
  {
    var (s1, m1) := SendOwn(c, s, now);
    SendOwnGood(c, e, s, now);
    var (s2, m2) := SendReport(s1, now);
    SendReportGood(c, e, s1, now);
    var (s3, m3) := SendStandby(c, s2, now);
    SendStandbyGood(c, e, s2, now);
    var (s4, m4) := SendReply(c, s3);
    SendReplyGood(c, e, s3);
    var (s5, m5) := ServiceAll(s4, now);
    ServiceAllGood(c, e, s4, now);
    assert Speak(c, s, now) == (s5, m1 + m2 + m3 + m4 + m5);
  }

  lemma ClosePassGood(c: NodeConfig, e: Expected, s: DeviceState, now: u32)
    requires DeviceGood(c, e, s)
    ensures DeviceGood(c, e, MaybeClosePass(s, now))
  {
  }

  /** Up to the decision whether the pass is closed. */
  lemma SpokenGood(a: Arith<Float>, c: NodeConfig, e: Expected, s: DeviceState, ms: seq<Message>, now: u32)
    requires Right(a, c, e) && DeviceGood(c, e, s)
    requires forall m | m in ms :: GoodInput(c, e, m)
    ensures var (spoken, sent) := Speak(c, MaybeReleaseTurn(c, Listen(a, c, s, ms, now), now), now);
            DeviceGood(c, e, spoken) && AllGoodOutput(c, e, sent)
  {
    var heard := ReceiveAll(c, s, ms, now);
    ReceiveAllGood(a, c, e, s, ms, now);
    var ticked := TickScheduler(a, c, heard);
    TickSchedulerGood(a, c, e, heard);
    var listened := TickStandby(a, c, ticked, now);
    TickStandbyGood(a, c, e, ticked, now);
    var released := MaybeReleaseTurn(c, listened, now);
    MaybeReleaseGood(c, e, listened, now);
    SpeakGood(c, e, released, now);
  }

  /** One whole turn keeps the invariant and says only right things. */
  lemma StepGood(a: Arith<Float>, c: NodeConfig, e: Expected, s: DeviceState, ms: seq<Message>, now: u32)
    requires Right(a, c, e) && DeviceGood(c, e, s)
    requires forall m | m in ms :: GoodInput(c, e, m)
    ensures var (s', sent) := Step(a, c, s, ms, now); DeviceGood(c, e, s') && AllGoodOutput(c, e, sent)
  {
    SpokenGood(a, c, e, s, ms, now);
    var (spoken, sent) := Speak(c, MaybeReleaseTurn(c, Listen(a, c, s, ms, now), now), now);
    ClosePassGood(c, e, spoken, now);
    assert Step(a, c, s, ms, now) == (MaybeClosePass(spoken, now), sent);
  }
}
