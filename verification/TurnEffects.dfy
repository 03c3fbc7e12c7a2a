/** What one turn of a device does, in both directions: what it says and arms, when its pass is
    closed and what is left of it, when it releases its turn, and which packets a substitute
    keeps out. */
module TurnEffects {
  import opened Words
  import opened Arithmetic
  import opened Messages
  import opened Nodes
  import opened Schedulers
  import opened Failover
  import opened DeviceRuntime
  import opened OutputRetention
  import opened Options

  // ---- Repetitions ----

  /** Two repetitions are pending, the next 150 ms after `now`. */
  predicate ArmedWith(r: Retx, m: Message, now: u32)
  {
    r.message == m && r.left == 2 && r.due == (now + 150) % 0x1_0000_0000
  }

  /** A slot armed at true time `t0` and looked at afterwards: the packet is repeated at the first
      look 150 ms later or more, once more at the first look another 150 ms later, and never
      again. */
  lemma RepeatedTwice(m: Message, t0: nat, t1: nat, t2: nat, t3: nat)
    requires t0 <= t1 < t0 + 0x8000_0000 && t1 <= t2 < t1 + 0x8000_0000
    ensures var (r1, sent1) := Service(Armed(m, t0 % 0x1_0000_0000), t1 % 0x1_0000_0000);
            && (if t1 < t0 + 150 then r1 == Armed(m, t0 % 0x1_0000_0000) && sent1 == [] else r1.left == 1 && sent1 == [m])
            && (t1 >= t0 + 150 ==>
                  var (r2, sent2) := Service(r1, t2 % 0x1_0000_0000);
                  && (if t2 < t1 + 150 then r2 == r1 && sent2 == [] else r2.left == 0 && sent2 == [m])
                  && (t2 >= t1 + 150 ==> Service(r2, t3 % 0x1_0000_0000) == (r2, [])))
  {
    DueAfter(t0, t1);
    DueAfter(t1, t2);
  }

  lemma DueAfter(start: nat, now: nat)
    requires start <= now < start + 0x8000_0000
    ensures var due := (start % 0x1_0000_0000 + 150) % 0x1_0000_0000;
            Elapsed(now % 0x1_0000_0000, due) < 0x8000_0000 <==> now >= start + 150
  {
    var m := 0x1_0000_0000;
    var due := (start % m + 150) % m;
    assert due == (start + 150) % m;
    if now >= start + 150 {
      ElapsedAcrossWrap(start + 150, now);
    } else {
      ElapsedAcrossWrap(now, start + 150);
      assert Elapsed(due, now % m) == start + 150 - now;
    }
  }

  // ---- What a turn says ----

  predicate HasReport(s: DeviceState)
  {
    s.standby.Some? && s.standby.value.diagnostic.Some?
  }

  predicate HasSubstitute(s: DeviceState)
  {
    s.standby.Some? && s.standby.value.outgoing.Some? && s.standby.value.substituted
  }

  predicate HasTeardown(s: DeviceState)
  {
    s.standby.Some? && s.standby.value.outgoing.Some? && s.standby.value.tornDown
  }

  predicate Due(r: Retx, now: u32)
  {
    r.left > 0 && Elapsed(now, r.due) < 0x8000_0000
  }

  lemma FreshlyArmed(m: Message, now: u32)
    ensures Service(Armed(m, now), now) == (Armed(m, now), []) && ArmedWith(Armed(m, now), m, now)
  {
  }

  /** What the first three senders leave of a slot, or the repetition serviced in it. */
  predicate Rearmed(before: Retx, after: Retx, anew: bool, m: Message, now: u32)
  {
    if anew then ArmedWith(after, m, now) else after == Service(before, now).0
  }

  function OwnPacket(c: NodeConfig, s: DeviceState): Message
  {
    Message(c.address, c.successor, 0, 0, [s.sched.node.output])
  }

  lemma OwnSays(c: NodeConfig, s: DeviceState, now: u32)
    ensures var (s', sent) := SendOwn(c, s, now);
            && sent == (if s.sched.phase == ReadyToTransmit then [OwnPacket(c, s)] else [])
            && s'.retxOwn == (if s.sched.phase == ReadyToTransmit then Armed(OwnPacket(c, s), now) else s.retxOwn)
            && s'.standby == s.standby && s'.responder == s.responder
            && s' == s.(sched := s'.sched, myOutput := s'.myOutput, ownOutputSent := s'.ownOutputSent, retxOwn := s'.retxOwn)
            && s'.sched == s.sched.(phase := if s.sched.phase == ReadyToTransmit then Transmitted else s.sched.phase)
            && (s.sched.phase == ReadyToTransmit ==> s'.ownOutputSent && s'.myOutput == s.sched.node.output)
            && (s.sched.phase != ReadyToTransmit ==> s' == s)
  {
  }

  lemma ReportSays(s: DeviceState, now: u32)
    ensures var (s', sent) := SendReport(s, now);
            && sent == (if HasReport(s) then [s.standby.value.diagnostic.value.(group := 254)] else [])
            && s'.retxReport == (if HasReport(s) then Armed(s.standby.value.diagnostic.value.(group := 254), now) else s.retxReport)
            && s'.standby == (if HasReport(s) then Some(s.standby.value.(diagnostic := None)) else s.standby)
            && s' == s.(standby := s'.standby, retxReport := s'.retxReport)
  {
  }

  /** The standby's packet as it goes out. */
  function StandbyPacket(c: NodeConfig, b: StandbyState): Message
    requires b.outgoing.Some?
  {
    b.outgoing.value.(group := if b.substituted || b.tornDown then c.successor else c.address.layer)
  }

  lemma StandbySays(c: NodeConfig, s: DeviceState, now: u32)
    ensures var (s', sent) := SendStandby(c, s, now);
            && sent == (if s.standby.Some? && s.standby.value.outgoing.Some? then [StandbyPacket(c, s.standby.value)] else [])
            && s'.retxSubstitute == (if HasSubstitute(s) then Armed(StandbyPacket(c, s.standby.value), now) else s.retxSubstitute)
            && s'.retxOwn == s.retxOwn && s'.retxReport == s.retxReport && s'.responder == s.responder
            && s'.standby == (if s.standby.Some? then Some(s.standby.value.(outgoing := None)) else None)
            && (HasSubstitute(s) ==>
                  && s'.targetSeen
                  && var source := s.standby.value.outgoing.value.source;
                     source.layer == c.ownLayer ==> source.node as nat in s'.sched.observed)
            && (HasTeardown(s) ==> s'.targetSeen)
            && (!HasSubstitute(s) && !HasTeardown(s) ==> s'.targetSeen == s.targetSeen && s'.sched == s.sched)
  {
    hide Armed;
  }

  lemma ReplySays(c: NodeConfig, s: DeviceState)
    ensures var (s', sent) := SendReply(c, s);
            && sent == (if s.responder.pending.Some? then [Message(c.address, c.successor, 0, 0, [s.responder.pending.value])] else [])
            && s' == s.(responder := ResponderState(None))
  {
  }

  lemma SlotsSay(s: DeviceState, now: u32)
    ensures ServiceAll(s, now).1 == Maybe(Due(s.retxOwn, now), s.retxOwn.message)
                                    + Maybe(Due(s.retxSubstitute, now), s.retxSubstitute.message)
                                    + Maybe(Due(s.retxReport, now), s.retxReport.message)
    ensures ServiceAll(s, now).0 == s.(retxOwn := Service(s.retxOwn, now).0, retxSubstitute := Service(s.retxSubstitute, now).0,
                                       retxReport := Service(s.retxReport, now).0)
  {
  }

  lemma ArmedNotDue(m: Message, now: u32)
    ensures !Due(Armed(m, now), now)
  {
  }

  function Maybe(says: bool, m: Message): seq<Message>
  {
    if says then [m] else []
  }

  /** What a turn says, in order: the own output, the report, the standby's packet, the reply, and
      the repetitions that are due in slots not just armed anew. */
  lemma SaysInOrder(c: NodeConfig, s: DeviceState, now: u32)
    ensures Speak(c, s, now).1 ==
              Maybe(s.sched.phase == ReadyToTransmit, OwnPacket(c, s)) + ReportPart(s) + StandbyPart(c, s) + ReplyPart(c, s)
              + Maybe(Due(s.retxOwn, now) && s.sched.phase != ReadyToTransmit, s.retxOwn.message)
              + Maybe(Due(s.retxSubstitute, now) && !HasSubstitute(s), s.retxSubstitute.message)
              + Maybe(Due(s.retxReport, now) && !HasReport(s), s.retxReport.message)
  {
    hide SendOwn, SendReport, SendStandby, SendReply, ServiceAll, Service, Armed, Due, Maybe, ReportPart, StandbyPart, ReplyPart;
    var (s1, m1) := SendOwn(c, s, now);
    OwnSays(c, s, now);
    var (s2, m2) := SendReport(s1, now);
    ReportSays(s1, now);
    var (s3, m3) := SendStandby(c, s2, now);
    StandbySays(c, s2, now);
    var (s4, m4) := SendReply(c, s3);
    ReplySays(c, s3);
    var (s5, m5) := ServiceAll(s4, now);
    SlotsSay(s4, now);
    assert Speak(c, s, now) == (s5, m1 + m2 + m3 + m4 + m5);
    PartsSay(c, s, now);
    var x, y, z := Maybe(Due(s4.retxOwn, now), s4.retxOwn.message), Maybe(Due(s4.retxSubstitute, now), s4.retxSubstitute.message),
                   Maybe(Due(s4.retxReport, now), s4.retxReport.message);
    Regroup(m1 + m2 + m3 + m4, x, y, z);
    SlotsLeft(c, s, now);
  }

  function ReportPart(s: DeviceState): seq<Message>
  {
    if HasReport(s) then [s.standby.value.diagnostic.value.(group := 254)] else []
  }

  function StandbyPart(c: NodeConfig, s: DeviceState): seq<Message>
  {
    if s.standby.Some? && s.standby.value.outgoing.Some? then [StandbyPacket(c, s.standby.value)] else []
  }

  function ReplyPart(c: NodeConfig, s: DeviceState): seq<Message>
  {
    if s.responder.pending.Some? then [Message(c.address, c.successor, 0, 0, [s.responder.pending.value])] else []
  }

  lemma Regroup(said: seq<Message>, x: seq<Message>, y: seq<Message>, z: seq<Message>)
    ensures said + (x + y + z) == said + x + y + z
  {
  }

  lemma PartsSay(c: NodeConfig, s: DeviceState, now: u32)
    ensures var s1 := SendOwn(c, s, now).0;
            var s2 := SendReport(s1, now).0;
            var s3 := SendStandby(c, s2, now).0;
            && SendOwn(c, s, now).1 == Maybe(s.sched.phase == ReadyToTransmit, OwnPacket(c, s))
            && SendReport(s1, now).1 == ReportPart(s) && SendStandby(c, s2, now).1 == StandbyPart(c, s)
            && SendReply(c, s3).1 == ReplyPart(c, s)
  {
    hide SendOwn, SendReport, SendStandby, SendReply, Armed;
    var s1 := SendOwn(c, s, now).0;
    OwnSays(c, s, now);
    var s2 := SendReport(s1, now).0;
    ReportSays(s1, now);
    StandbySays(c, s2, now);
    ReplySays(c, SendStandby(c, s2, now).0);
  }

  /** What the slots hold when they are serviced. */
  lemma SlotsLeft(c: NodeConfig, s: DeviceState, now: u32)
    ensures var s4 := SendReply(c, SendStandby(c, SendReport(SendOwn(c, s, now).0, now).0, now).0).0;
            && Maybe(Due(s4.retxOwn, now), s4.retxOwn.message)
               == Maybe(Due(s.retxOwn, now) && s.sched.phase != ReadyToTransmit, s.retxOwn.message)
            && Maybe(Due(s4.retxSubstitute, now), s4.retxSubstitute.message)
               == Maybe(Due(s.retxSubstitute, now) && !HasSubstitute(s), s.retxSubstitute.message)
            && Maybe(Due(s4.retxReport, now), s4.retxReport.message)
               == Maybe(Due(s.retxReport, now) && !HasReport(s), s.retxReport.message)
  {
    hide SendOwn, SendReport, SendStandby, SendReply, Armed, Due;
    var s1 := SendOwn(c, s, now).0;
    OwnSays(c, s, now);
    var s2 := SendReport(s1, now).0;
    ReportSays(s1, now);
    StandbySays(c, s2, now);
    ReplySays(c, SendStandby(c, s2, now).0);
    ArmedNotDue(OwnPacket(c, s), now);
    if HasReport(s) { ArmedNotDue(s.standby.value.diagnostic.value.(group := 254), now); }
    if HasSubstitute(s) { ArmedNotDue(StandbyPacket(c, s.standby.value), now); }
  }

  /** The own output, the report and the substitute are armed for repetition; a resend request, a
      teardown and a reply are said once. Whoever says a substitute counts it as seen and as
      observed in its own turn order. */
  lemma SaysAndArms(c: NodeConfig, s: DeviceState, now: u32)
    ensures var s' := Speak(c, s, now).0;
            && Rearmed(s.retxOwn, s'.retxOwn, s.sched.phase == ReadyToTransmit, OwnPacket(c, s), now)
            && (if HasReport(s) then ArmedWith(s'.retxReport, s.standby.value.diagnostic.value.(group := 254), now)
                else s'.retxReport == Service(s.retxReport, now).0)
            && (if HasSubstitute(s) then
                  && ArmedWith(s'.retxSubstitute, StandbyPacket(c, s.standby.value), now) && s'.targetSeen
                  && var source := s.standby.value.outgoing.value.source;
                     source.layer == c.ownLayer ==> source.node as nat in s'.sched.observed
                else s'.retxSubstitute == Service(s.retxSubstitute, now).0)
            && (HasTeardown(s) ==> s'.targetSeen)
            && (!HasSubstitute(s) && !HasTeardown(s) ==> s'.targetSeen == s.targetSeen)
            && s'.responder.pending.None?
            && s'.standby == (if s.standby.Some? then Some(s.standby.value.(outgoing := None, diagnostic := None)) else None)
            && (s.sched.phase == ReadyToTransmit ==>
                  s'.sched.phase == Transmitted && s'.ownOutputSent && s'.myOutput == s.sched.node.output)
  {
    hide SendOwn, SendReport, SendStandby, SendReply, ServiceAll, Service, Armed, ArmedWith;
    var (s1, m1) := SendOwn(c, s, now);
    OwnSays(c, s, now);
    var (s2, m2) := SendReport(s1, now);
    ReportSays(s1, now);
    var (s3, m3) := SendStandby(c, s2, now);
    StandbySays(c, s2, now);
    StandbyKeepsRest(c, s2, now);
    var (s4, m4) := SendReply(c, s3);
    ReplySays(c, s3);
    var (s5, m5) := ServiceAll(s4, now);
    SlotsSay(s4, now);
    assert Speak(c, s, now) == (s5, m1 + m2 + m3 + m4 + m5);
    FreshlyArmed(OwnPacket(c, s), now);
    if HasReport(s) { FreshlyArmed(s.standby.value.diagnostic.value.(group := 254), now); }
    if HasSubstitute(s) { FreshlyArmed(StandbyPacket(c, s.standby.value), now); }
  }

  lemma StandbyKeepsRest(c: NodeConfig, s: DeviceState, now: u32)
    ensures var s' := SendStandby(c, s, now).0;
            s'.ownOutputSent == s.ownOutputSent && s'.myOutput == s.myOutput && s'.sched.phase == s.sched.phase
  {
    hide Armed;
  }

  // ---- Closing the pass ----

  /** The turn is over, and so is the pass: it is managed, and the output is out with nobody left
      to watch for, or nothing has been received for five seconds. */
  predicate PassIsOver(s: DeviceState, spoken: DeviceState, ms: seq<Message>, now: u32)
  {
    && s.passManaged
    && (|| (spoken.ownOutputSent && !StillWatching(spoken))
        || (ms == [] && 5000 <= Elapsed(now, s.lastActivity) < 0x8000_0000))
  }

  lemma PassClosesExactly(a: Arith<Float>, c: NodeConfig, s: DeviceState, ms: seq<Message>, now: u32)
    ensures var spoken := Speak(c, Ready(a, c, s, ms, now), now).0;
            Step(a, c, s, ms, now).0 == if PassIsOver(s, spoken, ms, now) then ClosePass(spoken, now) else spoken
  {
    hide Listen, MaybeReleaseTurn, Speak;
    ActivityIsReception(a, c, s, ms, now);
    SpeakRests(c, Ready(a, c, s, ms, now), now);
  }

  /** A closed pass leaves a device as it was started, but for the clock, and for idle slots that
      still name their last packet. */
  lemma ClosedIsStarted(c: NodeConfig, s: DeviceState, now: u32)
    requires s.passManaged == (c.predecessors != 0) && (s.standby.Some? <==> StandbyEnabled(c))
    ensures var closed, started := ClosePass(s, now), Start(c, None, now);
            && closed == started.(stallSince := closed.stallSince, retxOwn := closed.retxOwn,
                                  retxSubstitute := closed.retxSubstitute, retxReport := closed.retxReport)
            && closed.retxOwn.left == 0 && closed.retxSubstitute.left == 0 && closed.retxReport.left == 0
  {
  }

  /** A started device has nothing received, observed, sent or queued. */
  lemma StartedIsEmpty(c: NodeConfig, seed: Option<Float>, now: u32)
    ensures var s := Start(c, seed, now);
            && s.sched.node.slots == map[] && s.sched.observed == {} && s.suppressor.locked == {}
            && s.responder.pending.None? && !s.ownOutputSent && !s.targetSeen && !s.stallArmed && s.lastActivity == now
            && s.passManaged == (c.predecessors != 0)
            && s.retxOwn.left == 0 && s.retxSubstitute.left == 0 && s.retxReport.left == 0
            && (c.predecessors == 0 && seed.Some? ==>
                  s.sched.phase == WaitingForTurn && s.sched.node.hasExecuted && s.sched.node.output == seed.value)
            && (c.predecessors != 0 || seed.None? ==> s.sched.phase == WaitingForInput && !s.sched.node.hasExecuted)
            && (s.standby.Some? <==> c.backup.Some? && c.backup.value.target.layer == c.address.layer
                                     && c.backup.value.layerRoster != 0)
            && (s.standby.Some? ==>
                  var b := s.standby.value;
                  && b.slots == map[] && b.layerObserved == {} && b.outgoing.None? && b.diagnostic.None?
                  && !b.targetObserved && !b.resendRequested && !b.substituted && !b.tornDown && !b.resolved)
  {
  }

  // ---- The stalled turn ----

  /** A device that waits for its turn starts a timer, and 1500 ms later takes every preceding
      sibling for observed; in any other phase the timer is stopped. */
  lemma StallExactly(c: NodeConfig, s: DeviceState, now: u32)
    ensures var s' := MaybeReleaseTurn(c, s, now);
            if s.sched.phase != WaitingForTurn then s' == s.(stallArmed := false)
            else if !s.stallArmed then s' == s.(stallArmed := true, stallSince := now)
            else if 1500 <= Elapsed(now, s.stallSince) < 0x8000_0000 then
              && s' == s.(sched := s'.sched, stallArmed := false)
              && s'.sched == s.sched.(observed := s'.sched.observed)
              && (c.ownLayer == c.address.layer ==> s'.sched.observed == s.sched.observed + Bits(c.precedingSiblings))
              && (c.ownLayer != c.address.layer ==> s'.sched.observed == s.sched.observed)
            else s' == s
  {
    hide Bits;
  }

  // ---- What is heard ----

  /** A DATA packet that is not kept out: from another layer than the inputs', or from a sender no
      substitute has claimed. */
  predicate GetsThrough(c: NodeConfig, s: DeviceState, m: Message)
  {
    m.source.layer == c.predecessorLayer ==> m.source.node as nat !in s.suppressor.locked
  }

  /** One packet: what gets through is taken in wherever it belongs, the rest is dropped, and only
      a substitute among the inputs claims its sender's slot. */
  lemma HeardExactly(c: NodeConfig, s: DeviceState, m: Message, now: u32)
    requires |m.values| <= 16
    ensures var s' := Receive(c, s, m, now);
            && s'.lastActivity == now
            && s'.suppressor.locked == s.suppressor.locked
                 + (if m.source.layer == c.predecessorLayer && m.flags % 2 == 1 then {m.source.node as nat} else {})
            && (m.kind == 0 && GetsThrough(c, s, m) ==>
                  && s'.sched.observed == s.sched.observed
                       + (if m.source.layer == c.ownLayer then {m.source.node as nat} else {})
                  && s'.sched.node.slots == (if m.source.layer == c.predecessorLayer
                                             then s.sched.node.slots[m.source.node as nat := m.values] else s.sched.node.slots)
                  && (s'.targetSeen <==> s.targetSeen || (s.standby.Some? && FromTarget(c, m)))
                  && s'.responder == s.responder)
            && (m.kind != 0 || !GetsThrough(c, s, m) ==>
                  s'.sched == s.sched && s'.targetSeen == s.targetSeen && s'.standby == s.standby)
  {
    hide Requests, StandbyObserve;
  }

  /** From the node this device backs up. */
  predicate FromTarget(c: NodeConfig, m: Message)
  {
    c.backup.Some? &&
    var target := c.backup.value.target;
    m.source.node == target.node && m.source.layer == target.layer && m.source.cluster == target.cluster
  }

  lemma {:induction false} SlotStays(c: NodeConfig, s: DeviceState, ms: seq<Message>, now: u32, node: nat)
    requires node in s.suppressor.locked && node in s.sched.node.slots
    ensures var s' := ReceiveAll(c, s, ms, now);
            node in s'.suppressor.locked && node in s'.sched.node.slots && s'.sched.node.slots[node] == s.sched.node.slots[node]
    decreases |ms|
  {
    if ms != [] {
      SlotStaysOnce(c, s, ms[0], now, node);
      hide Receive;
      SlotStays(c, Receive(c, s, ms[0], now), ms[1..], now, node);
    }
  }

  lemma SlotStaysOnce(c: NodeConfig, s: DeviceState, m: Message, now: u32, node: nat)
    requires node in s.suppressor.locked && node in s.sched.node.slots
    ensures var s' := Receive(c, s, m, now);
            node in s'.suppressor.locked && node in s'.sched.node.slots && s'.sched.node.slots[node] == s.sched.node.slots[node]
  {
    hide Requests, StandbyObserve;
    var slots := s.sched.node.slots;
    assert m.source.layer == c.predecessorLayer && Accepts(s.suppressor, m) ==> m.source.node as nat != node;
  }

  /** Once a substitute has been taken in, nothing that arrives later replaces it in the pass,
      the late original included. */
  lemma SubstituteStays(c: NodeConfig, s: DeviceState, m: Message, later: seq<Message>, now: u32)
    requires m.kind == 0 && m.flags % 2 == 1 && m.source.layer == c.predecessorLayer && |m.values| <= 16
    requires m.source.node as nat !in s.suppressor.locked
    ensures var slots := ReceiveAll(c, s, [m] + later, now).sched.node.slots;
            m.source.node as nat in slots && slots[m.source.node as nat] == m.values
  {
    HeardExactly(c, s, m, now);
    hide Receive;
    assert ([m] + later)[1..] == later;
    SlotStays(c, Receive(c, s, m, now), later, now, m.source.node);
  }

  // ---- Acting on what was heard ----

  /** A turn acts on everything it has received: with complete inputs it leaves the input phase,
      with its turn reached it is ready to transmit, and its standby, once the inputs are
      complete, decides on what was heard in the same turn. One phase is passed per turn, and a
      released turn takes effect in the next. */
  lemma ActsOnWhatItHeard(a: Arith<Float>, c: NodeConfig, s: DeviceState, ms: seq<Message>, now: u32)
    ensures var heard, ready := ReceiveAll(c, s, ms, now), Ready(a, c, s, ms, now);
            && heard.sched.phase == s.sched.phase
            && ready.sched.phase == (match s.sched.phase
               case WaitingForInput =>
                 if !heard.sched.node.hasExecuted && Bits(c.predecessors) <= heard.sched.node.slots.Keys
                 then ReadyToExecutePhase else WaitingForInput
               case ReadyToExecutePhase => Executing
               case Executing => WaitingForTurn
               case WaitingForTurn => if Bits(c.precedingSiblings) <= heard.sched.observed then ReadyToTransmit else WaitingForTurn
               case ReadyToTransmit => ReadyToTransmit
               case Transmitted => Transmitted)
            && (s.sched.phase == Executing ==>
                  && ready.sched.node.hasExecuted
                  && ready.sched.node.output
                     == Output(a, c.predecessors, c.activation, c.bias, c.weights, heard.sched.node.slots))
            && (s.sched.phase != Executing ==> ready.sched.node == heard.sched.node)
            && ready.standby == (if heard.standby.Some? && c.backup.Some? && ready.sched.phase != WaitingForInput
                                 then Some(StandbyTick(a, c, c.backup.value, heard.standby.value, now)) else heard.standby)
  {
    ReceptionIsNoTurn(c, s, ms, now);
    hide ReceiveAll, StandbyTick, Output, Bits, StallExpired;
  }
}
