/** What a device keeps of its own output once it is sent: the pass, and with it repetitions
    and answers, exactly as long as it stands by for an undecided sibling. */
module OutputRetention {
  import opened Words
  import opened Arithmetic
  import opened Messages
  import opened Nodes
  import opened Schedulers
  import opened Failover
  import opened DeviceRuntime
  import opened Networks
  import opened Medium
  import opened ValueSafety
  import opened Options

  // ---- One turn ----

  /** The state in which the turn's packets are sent. */
  function Ready(a: Arith<Float>, c: NodeConfig, s: DeviceState, ms: seq<Message>, now: u32): DeviceState
  {
    MaybeReleaseTurn(c, Listen(a, c, s, ms, now), now)
  }

  /** It stands by for a sibling it has neither heard nor decided about. */
  predicate StillWatching(s: DeviceState)
  {
    s.standby.Some? && !s.targetSeen && !s.standby.value.substituted && !s.standby.value.tornDown
  }

  /** The pass outlives an own output sent from `ready`: it is not managed at all, or the
      device still watches a sibling and has not been idle for too long. */
  predicate Retains(s: DeviceState, ready: DeviceState, ms: seq<Message>, now: u32)
  {
    s.passManaged ==> StillWatching(ready) && (ms == [] ==> !SignedAtLeast(now, s.lastActivity, PASS_IDLE_MS))
  }

  predicate SameDuty(s: DeviceState, s': DeviceState)
  {
    s'.passManaged == s.passManaged && s'.lastActivity == s.lastActivity && (StillWatching(s') <==> StillWatching(s))
  }

  lemma SendOwnArms(c: NodeConfig, s: DeviceState, now: u32)
    requires s.sched.phase == ReadyToTransmit
    ensures var (s', sent) := SendOwn(c, s, now);
            var m := OutputMessage(c, s.sched.node);
            && SameDuty(s, s') && sent == [m] && s'.retxOwn == Armed(m, now) && s'.ownOutputSent
            && s'.myOutput == m.values[0]
  {
  }

  lemma SendStandbyKeepsOwn(c: NodeConfig, s: DeviceState, now: u32)
    ensures var s' := SendStandby(c, SendReport(s, now).0, now).0;
            && SameDuty(s, s') && s'.retxOwn == s.retxOwn && s'.ownOutputSent == s.ownOutputSent
            && s'.myOutput == s.myOutput && s'.responder == s.responder && s'.sched.phase == s.sched.phase
  {
    hide Armed;
  }

  lemma FreshNotDue(c: NodeConfig, s: DeviceState, m: Message, now: u32)
    requires s.retxOwn == Armed(m, now)
    ensures var s' := ServiceAll(SendReply(c, s).0, now).0;
            && SameDuty(s, s') && s'.retxOwn == s.retxOwn && s'.ownOutputSent == s.ownOutputSent && s'.myOutput == s.myOutput
  {
    assert Service(s.retxOwn, now) == (s.retxOwn, []);
  }

  lemma SpeakArms(c: NodeConfig, s: DeviceState, now: u32)
    requires s.sched.phase == ReadyToTransmit
    ensures var (s', sent) := Speak(c, s, now);
            var m := OutputMessage(c, s.sched.node);
            && SameDuty(s, s') && m in sent && s'.retxOwn == Armed(m, now) && s'.ownOutputSent && s'.myOutput == m.values[0]
  {
    hide SendOwn, SendReport, SendStandby, SendReply, ServiceAll, Armed, StillWatching;
    var m := OutputMessage(c, s.sched.node);
    var (s1, m1) := SendOwn(c, s, now);
    SendOwnArms(c, s, now);
    var (s2, m2) := SendReport(s1, now);
    var (s3, m3) := SendStandby(c, s2, now);
    SendStandbyKeepsOwn(c, s1, now);
    FreshNotDue(c, s3, m, now);
    var (s4, m4) := SendReply(c, s3);
    var (s5, m5) := ServiceAll(s4, now);
    assert Speak(c, s, now) == (s5, m1 + m2 + m3 + m4 + m5);
    assert m in m1;
  }

  /** Whether the pass is idle is decided by what the turn received. */
  lemma ActivityIsReception(a: Arith<Float>, c: NodeConfig, s: DeviceState, ms: seq<Message>, now: u32)
    ensures var ready := Ready(a, c, s, ms, now);
            ready.passManaged == s.passManaged && ready.lastActivity == if ms == [] then s.lastActivity else now
  {
    hide NodeReceive, NodeExecute, StandbyTick, StandbyObserve, Requests;
    ReceptionIsActivity(c, s, ms, now);
  }

  lemma ReceptionIsOneActivity(c: NodeConfig, s: DeviceState, m: Message, now: u32)
    ensures var s' := Receive(c, s, m, now);
            s'.passManaged == s.passManaged && s'.lastActivity == now && s'.retxOwn == s.retxOwn
  {
    hide NodeReceive, StandbyObserve, Observe, Respond, Lock, Accepts, IsTarget;
  }

  lemma {:induction false} ReceptionIsActivity(c: NodeConfig, s: DeviceState, ms: seq<Message>, now: u32)
    ensures var heard := ReceiveAll(c, s, ms, now);
            && heard.passManaged == s.passManaged && heard.lastActivity == (if ms == [] then s.lastActivity else now)
            && heard.retxOwn == s.retxOwn
    decreases |ms|
  {
    if ms != [] {
      hide Receive;
      ReceptionIsOneActivity(c, s, ms[0], now);
      ReceptionIsActivity(c, Receive(c, s, ms[0], now), ms[1..], now);
    }
  }

  /** A turn that sends the own output keeps it exactly when the pass outlives it: then two
      retransmissions are pending and a request can be answered; otherwise neither is. */
  lemma OutputIsKept(a: Arith<Float>, c: NodeConfig, s: DeviceState, ms: seq<Message>, now: u32)
    requires Ready(a, c, s, ms, now).sched.phase == ReadyToTransmit
    ensures var ready := Ready(a, c, s, ms, now);
            var (s', sent) := Step(a, c, s, ms, now);
            var m := OutputMessage(c, ready.sched.node);
            && m in sent
            && (s'.ownOutputSent <==> Retains(s, ready, ms, now))
            && (s'.retxOwn.left > 0 <==> Retains(s, ready, ms, now))
            && (Retains(s, ready, ms, now) ==> s'.retxOwn == Armed(m, now) && s'.myOutput == m.values[0])
  {
    hide Listen, MaybeReleaseTurn, Speak;
    ActivityIsReception(a, c, s, ms, now);
    SpeakArms(c, Ready(a, c, s, ms, now), now);
  }

  /** A kept output is sent again whenever its slot is due, until its count runs out or the
      pass closes. */
  lemma RepeatsWhenDue(a: Arith<Float>, c: NodeConfig, s: DeviceState, ms: seq<Message>, now: u32)
    requires Ready(a, c, s, ms, now).sched.phase != ReadyToTransmit
    ensures var (s', sent) := Step(a, c, s, ms, now);
            var due := s.retxOwn.left > 0 && Elapsed(now, s.retxOwn.due) < 0x8000_0000;
            && (due ==> s.retxOwn.message in sent)
            && (s'.retxOwn.left > 0 ==> s'.retxOwn.left == s.retxOwn.left - if due then 1 else 0)
  {
    var heard := ReceiveAll(c, s, ms, now);
    ReceptionIsActivity(c, s, ms, now);
    var ready := Ready(a, c, s, ms, now);
    assert ready.retxOwn == s.retxOwn by { hide NodeExecute, StandbyTick, ReceiveAll; }
    hide Listen, MaybeReleaseTurn, ReceiveAll;
    SpeakServes(c, ready, now);
  }

  lemma SpeakServes(c: NodeConfig, s: DeviceState, now: u32)
    requires s.sched.phase != ReadyToTransmit
    ensures var (s', sent) := Speak(c, s, now);
            s'.retxOwn == Service(s.retxOwn, now).0 && forall m | m in Service(s.retxOwn, now).1 :: m in sent
  {
    hide SendReport, SendStandby, Service;
    var (s1, m1) := SendOwn(c, s, now);
    var (s2, m2) := SendReport(s1, now);
    var (s3, m3) := SendStandby(c, s2, now);
    SendStandbyKeepsOwn(c, s1, now);
    var (s4, m4) := SendReply(c, s3);
    var (s5, m5) := ServiceAll(s4, now);
    assert Speak(c, s, now) == (s5, m1 + m2 + m3 + m4 + m5);
  }

  // ---- Answering resend requests ----

  predicate Asked(c: NodeConfig, ms: seq<Message>)
  {
    exists m | m in ms :: Requests(m, c.address)
  }

  /** The turn answers a resend request. */
  predicate Answers(a: Arith<Float>, c: NodeConfig, s: DeviceState, ms: seq<Message>, now: u32)
  {
    Ready(a, c, s, ms, now).responder.pending.Some?
  }

  lemma ReceiveAsked(c: NodeConfig, s: DeviceState, m: Message, now: u32)
    requires Requests(m, c.address) ==> m.source.layer != c.predecessorLayer
    ensures var s' := Receive(c, s, m, now);
            && s'.ownOutputSent == s.ownOutputSent && s'.myOutput == s.myOutput
            && s'.responder == (if Requests(m, c.address) && s.ownOutputSent then ResponderState(Some(s.myOutput)) else s.responder)
  {
    hide NodeReceive, StandbyObserve, Observe, Lock;
  }

  lemma {:induction false} ReceiveAllAsked(c: NodeConfig, s: DeviceState, ms: seq<Message>, now: u32)
    requires forall m | m in ms && Requests(m, c.address) :: m.source.layer != c.predecessorLayer
    ensures var s' := ReceiveAll(c, s, ms, now);
            && s'.ownOutputSent == s.ownOutputSent && s'.myOutput == s.myOutput
            && s'.responder == (if Asked(c, ms) && s.ownOutputSent then ResponderState(Some(s.myOutput)) else s.responder)
    decreases |ms|
  {
    if ms != [] {
      hide Receive, Requests;
      ReceiveAsked(c, s, ms[0], now);
      ReceiveAllAsked(c, Receive(c, s, ms[0], now), ms[1..], now);
      assert ms == [ms[0]] + ms[1..];
    }
  }

  /** Between turns no answer is due, and a managed device that has spoken is still watching. */
  predicate Rested(c: NodeConfig, s: DeviceState)
  {
    && s.responder.pending.None? && s.passManaged == (c.predecessors != 0)
    && (s.passManaged && s.ownOutputSent ==> StillWatching(s))
    && (s.ownOutputSent <==> s.sched.phase == Transmitted)
  }

  /** Once said, the output is not handed out again in the pass: until the pass closes it is only
      repeated when due, its count going down each time. */
  lemma SaidOnce(a: Arith<Float>, c: NodeConfig, s: DeviceState, ms: seq<Message>, now: u32)
    requires Rested(c, s) && s.ownOutputSent
    ensures Ready(a, c, s, ms, now).sched.phase == Transmitted
    ensures var (s', sent) := Step(a, c, s, ms, now);
            var due := s.retxOwn.left > 0 && Elapsed(now, s.retxOwn.due) < 0x8000_0000;
            && (due ==> s.retxOwn.message in sent)
            && (s'.retxOwn.left > 0 ==> s'.retxOwn.left == s.retxOwn.left - if due then 1 else 0)
  {
    ReadyKeepsSpent(a, c, s, ms, now);
    hide Ready, Step;
    RepeatsWhenDue(a, c, s, ms, now);
  }

  lemma {:induction false} ReceptionIsNoTurn(c: NodeConfig, s: DeviceState, ms: seq<Message>, now: u32)
    ensures var heard := ReceiveAll(c, s, ms, now);
            heard.ownOutputSent == s.ownOutputSent && heard.sched.phase == s.sched.phase
    decreases |ms|
  {
    if ms != [] {
      OneReceptionIsNoTurn(c, s, ms[0], now);
      hide Receive;
      ReceptionIsNoTurn(c, Receive(c, s, ms[0], now), ms[1..], now);
    }
  }

  lemma OneReceptionIsNoTurn(c: NodeConfig, s: DeviceState, m: Message, now: u32)
    ensures var s' := Receive(c, s, m, now); s'.ownOutputSent == s.ownOutputSent && s'.sched.phase == s.sched.phase
  {
    hide NodeReceive, StandbyObserve, Requests, Lock, Accepts, IsTarget;
  }

  /** Having spoken is being in the last phase, up to the moment the next packets are sent. */
  lemma ReadyKeepsSpent(a: Arith<Float>, c: NodeConfig, s: DeviceState, ms: seq<Message>, now: u32)
    ensures var ready := Ready(a, c, s, ms, now);
            && ready.ownOutputSent == s.ownOutputSent
            && (ready.sched.phase == Transmitted <==> s.sched.phase == Transmitted)
  {
    ReceptionIsNoTurn(c, s, ms, now);
    hide ReceiveAll, NodeExecute, StandbyTick, ReadyToExecute, TurnReached, StallExpired;
  }

  lemma SpeakRests(c: NodeConfig, s: DeviceState, now: u32)
    ensures var s' := Speak(c, s, now).0;
            && s'.responder.pending.None? && s'.passManaged == s.passManaged && s'.lastActivity == s.lastActivity
            && ((s.ownOutputSent <==> s.sched.phase == Transmitted) ==>
                  (s'.ownOutputSent <==> s'.sched.phase == Transmitted))
  {
    hide SendOwn, SendReport, SendStandby, SendReply, ServiceAll;
    var (s1, m1) := SendOwn(c, s, now);
    SendOwnRests(c, s, now);
    var (s2, m2) := SendReport(s1, now);
    var (s3, m3) := SendStandby(c, s2, now);
    SendStandbyKeepsOwn(c, s1, now);
    var (s4, m4) := SendReply(c, s3);
    SendTailRests(c, s3, now);
  }

  lemma SendOwnRests(c: NodeConfig, s: DeviceState, now: u32)
    ensures var s' := SendOwn(c, s, now).0;
            && s'.passManaged == s.passManaged && s'.lastActivity == s.lastActivity && s'.responder == s.responder
            && ((s.ownOutputSent <==> s.sched.phase == Transmitted) ==>
                  (s'.ownOutputSent <==> s'.sched.phase == Transmitted))
  {
  }

  lemma SendTailRests(c: NodeConfig, s: DeviceState, now: u32)
    ensures var s' := ServiceAll(SendReply(c, s).0, now).0;
            && s'.responder.pending.None? && s'.passManaged == s.passManaged && s'.lastActivity == s.lastActivity
            && s'.ownOutputSent == s.ownOutputSent && s'.sched == s.sched
  {
    hide Service;
  }

  lemma StepRests(a: Arith<Float>, c: NodeConfig, s: DeviceState, ms: seq<Message>, now: u32)
    requires Rested(c, s)
    ensures Rested(c, Step(a, c, s, ms, now).0)
  {
    hide Listen, MaybeReleaseTurn, Speak;
    ActivityIsReception(a, c, s, ms, now);
    ReadyKeepsSpent(a, c, s, ms, now);
    SpeakRests(c, Ready(a, c, s, ms, now), now);
  }

  lemma StepActivity(a: Arith<Float>, c: NodeConfig, s: DeviceState, ms: seq<Message>, now: u32)
    ensures var s' := Step(a, c, s, ms, now).0;
            s'.lastActivity == now || (ms == [] && s'.lastActivity == s.lastActivity)
  {
    hide Listen, MaybeReleaseTurn, Speak;
    ActivityIsReception(a, c, s, ms, now);
    ReadyKeepsSpent(a, c, s, ms, now);
    SpeakRests(c, Ready(a, c, s, ms, now), now);
  }

  /** At rest, the turn answers exactly when it is asked and has an output to answer with. */
  lemma AnswersExactly(a: Arith<Float>, c: NodeConfig, s: DeviceState, ms: seq<Message>, now: u32)
    requires Rested(c, s) && forall m | m in ms && Requests(m, c.address) :: m.source.layer != c.predecessorLayer
    ensures Answers(a, c, s, ms, now) <==> s.ownOutputSent && Asked(c, ms)
    ensures Answers(a, c, s, ms, now) ==>
              ResendReply(c.address, s.myOutput).(group := c.successor) in Step(a, c, s, ms, now).1
  {
    ReceiveAllAsked(c, s, ms, now);
    var ready := Ready(a, c, s, ms, now);
    assert ready.responder == ReceiveAll(c, s, ms, now).responder by {
      hide ReceiveAll, NodeExecute, StandbyTick;
    }
    hide Listen, MaybeReleaseTurn, ReceiveAll, Asked;
    SpeakReplies(c, ready, now);
  }

  lemma SpeakReplies(c: NodeConfig, s: DeviceState, now: u32)
    ensures s.responder.pending.Some? ==>
              ResendReply(c.address, s.responder.pending.value).(group := c.successor) in Speak(c, s, now).1
  {
    hide SendOwn, SendReport, SendStandby, ServiceAll;
    var (s1, m1) := SendOwn(c, s, now);
    SendOwnRests(c, s, now);
    var (s2, m2) := SendReport(s1, now);
    var (s3, m3) := SendStandby(c, s2, now);
    SendStandbyKeepsOwn(c, s1, now);
    var (s4, m4) := SendReply(c, s3);
    var (s5, m5) := ServiceAll(s4, now);
    assert Speak(c, s, now) == (s5, m1 + m2 + m3 + m4 + m5);
    if s.responder.pending.Some? { assert m4[0] in m4; }
  }

  // ---- Over whole runs ----

  lemma RequestsAreControl(c: NodeConfig, m: Message)
    requires Requests(m, c.address)
    ensures m.kind == CONTROL
  {
  }

  lemma {:induction false} AlwaysRested(w: World, states: seq<Global>, actions: seq<Action>, id: Id)
    requires IsRun(w, states, actions) && IsDevice(w.net, id)
    ensures id in states[|actions|].devices && Rested(ConfigOf(w.net, id), states[|actions|].devices[id])
    decreases |actions|
  {
    hide Next, Rested, ConfigOf, Deployable, Init;
    if actions == [] {
      InitRested(w, id);
    } else {
      var n := |actions| - 1;
      RunPrefix(w, states, actions);
      AlwaysRested(w, states[..n + 1], actions[..n], id);
      NextRested(w, states[n], actions[n], states[n + 1], id);
    }
  }

  lemma InitRested(w: World, id: Id)
    requires WorldOk(w) && IsDevice(w.net, id)
    ensures id in Init(w).devices && Rested(ConfigOf(w.net, id), Init(w).devices[id])
  {
    hide ConfigOf, Deployable;
  }

  lemma NextRested(w: World, g: Global, action: Action, g': Global, id: Id)
    requires WorldOk(w) && IsDevice(w.net, id) && id in g.devices && Rested(ConfigOf(w.net, id), g.devices[id])
    requires Next(w, g, action, g')
    ensures id in g'.devices && Rested(ConfigOf(w.net, id), g'.devices[id])
  {
    hide Step, Rested, ConfigOf, Deployable;
    if action.Turn? && action.id == id {
      StepRests(w.arith, ConfigOf(w.net, id), g.devices[id], action.received, Clock(action.time));
    }
  }

  /** In every run, a compute device answers exactly the turns in which it receives a request
      naming it and holds its output, and answers with its neuron's value. Between turns it
      holds its output only while it watches an unheard sibling. */
  lemma RequestsAreAnswered(w: World, states: seq<Global>, actions: seq<Action>, id: Id, received: seq<Message>, now: u32)
    requires IsRun(w, states, actions) && IsDevice(w.net, id) && id.layer > 0
    requires forall m | m in received :: m in states[|actions|].history
    ensures id in states[|actions|].devices
    ensures var c, s := ConfigOf(w.net, id), states[|actions|].devices[id];
            && (Answers(w.arith, c, s, received, now) <==> s.ownOutputSent && Asked(c, received))
            && (Answers(w.arith, c, s, received, now) ==>
                  ResendReply(c.address, ValueAt(w, id)).(group := c.successor) in Step(w.arith, c, s, received, now).1)
            && (c.predecessors != 0 && s.ownOutputSent ==> StillWatching(s))
  {
    hide Step, Answers, Asked, Requests;
    AlwaysRested(w, states, actions, id);
    var c, s := ConfigOf(w.net, id), states[|actions|].devices[id];
    RunGood(w, states, actions);
    forall m | m in received && Requests(m, c.address)
      ensures m.source.layer != c.predecessorLayer
    {
      RequestsAreControl(c, m);
      assert Good(w, m);
    }
    AnswersExactly(w.arith, c, s, received, now);
  }

  // ---- Without a backup duty ----

  /** Between turns: nothing said, nothing to repeat, nothing to answer with. */
  predicate Bare(s: DeviceState)
  {
    && s.passManaged && s.standby.None? && !s.ownOutputSent && s.responder.pending.None?
    && s.retxOwn.left == 0 && s.retxSubstitute.left == 0 && s.retxReport.left == 0
    && s.sched.phase != Transmitted
  }

  predicate IsOwnOutput(c: NodeConfig, m: Message)
  {
    m.kind == DATA && m.source == c.address && !IsSubstitute(m)
  }

  lemma DispatchBare(c: NodeConfig, s: DeviceState, m: Message)
    requires Bare(s)
    ensures Bare(Dispatch(c, s, m))
  {
    hide NodeReceive, Requests;
  }

  lemma {:induction false} ReceiveAllBare(c: NodeConfig, s: DeviceState, ms: seq<Message>, now: u32)
    requires Bare(s)
    ensures Bare(ReceiveAll(c, s, ms, now))
    decreases |ms|
  {
    if ms != [] {
      hide Dispatch;
      var s0 := s.(lastActivity := now);
      DispatchBare(c, s0, ms[0]);
      DispatchBare(c, s0.(suppressor := Lock(s0.suppressor, ms[0])), ms[0]);
      ReceiveAllBare(c, Receive(c, s, ms[0], now), ms[1..], now);
    }
  }

  lemma ListenBare(a: Arith<Float>, c: NodeConfig, s: DeviceState, ms: seq<Message>, now: u32)
    requires Bare(s)
    ensures Bare(MaybeReleaseTurn(c, Listen(a, c, s, ms, now), now))
  {
    hide NodeExecute, ReadyToExecute, ReceiveAll;
    ReceiveAllBare(c, s, ms, now);
  }

  /** One turn: at most the own output is sent, and afterwards nothing is left to repeat. */
  lemma StepBare(a: Arith<Float>, c: NodeConfig, s: DeviceState, ms: seq<Message>, now: u32)
    requires Bare(s)
    ensures var (s', sent) := Step(a, c, s, ms, now);
            && Bare(s') && |sent| <= 1 && (forall m | m in sent :: IsOwnOutput(c, m))
            && (sent != [] ==> s' == ClosePass(Speak(c, MaybeReleaseTurn(c, Listen(a, c, s, ms, now), now), now).0, now))
  {
    hide Listen, MaybeReleaseTurn;
    ListenBare(a, c, s, ms, now);
  }

  ghost predicate BareDevice(w: World, g: Global, id: Id)
    requires WorldOk(w)
  {
    id in g.devices && Bare(g.devices[id])
  }

  lemma InitBare(w: World, id: Id)
    requires WorldOk(w) && IsDevice(w.net, id) && id.layer > 0 && !HasBackup(w.net, id)
    requires Bits(ConfigOf(w.net, id).predecessors) != {}
    ensures BareDevice(w, Init(w), id)
  {
    BitsNonZero(ConfigOf(w.net, id).predecessors);
  }

  lemma NextBare(w: World, g: Global, action: Action, g': Global, id: Id)
    requires WorldOk(w) && IsNeuron(w.net, id) && BareDevice(w, g, id) && Next(w, g, action, g')
    ensures BareDevice(w, g', id)
  {
    hide Step, ConfigOf, Bare, Deployable;
    if action.Turn? && action.id == id {
      StepBare(w.arith, ConfigOf(w.net, id), g.devices[id], action.received, Clock(action.time));
    }
  }

  lemma {:induction false} AlwaysBare(w: World, states: seq<Global>, actions: seq<Action>, id: Id)
    requires IsRun(w, states, actions) && IsDevice(w.net, id) && id.layer > 0 && !HasBackup(w.net, id)
    requires Bits(ConfigOf(w.net, id).predecessors) != {}
    ensures BareDevice(w, states[|actions|], id)
    decreases |actions|
  {
    hide ConfigOf, BareDevice, Next, Bits, Deployable;
    if actions == [] {
      InitBare(w, id);
    } else {
      var n := |actions| - 1;
      RunPrefix(w, states, actions);
      AlwaysBare(w, states[..n + 1], actions[..n], id);
      NextBare(w, states[n], actions[n], states[n + 1], id);
    }
  }

  /** In every run, in every turn of a compute device without a backup duty, whatever it
      receives: it sends its own output once or nothing at all -- neither a retransmission nor
      the answer to a resend request. */
  lemma NeverRepeats(w: World, states: seq<Global>, actions: seq<Action>, id: Id, received: seq<Message>, now: u32)
    requires IsRun(w, states, actions) && IsDevice(w.net, id) && id.layer > 0 && !HasBackup(w.net, id)
    requires Width(w.net, id.layer - 1) > 0
    ensures id in states[|actions|].devices
    ensures var s := states[|actions|].devices[id];
            var (s', sent) := Step(w.arith, ConfigOf(w.net, id), s, received, now);
            && !s.ownOutputSent && s.retxOwn.left == 0 && s.responder.pending.None?
            && |sent| <= 1 && (forall m | m in sent :: IsOwnOutput(ConfigOf(w.net, id), m))
  {
    hide Step, ConfigOf;
    PredecessorsOf(w.net, id);
    assert 0 in Range(Width(w.net, id.layer - 1));
    AlwaysBare(w, states, actions, id);
    StepBare(w.arith, ConfigOf(w.net, id), states[|actions|].devices[id], received, now);
  }
}
