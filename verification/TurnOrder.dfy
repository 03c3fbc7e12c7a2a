/** Turn taking over whole runs: while no stalled turn is released, a node's own output
    reaches the medium only after a DATA packet under every smaller identity of its layer. */
module TurnOrder {
  import opened Words
  import opened Arithmetic
  import opened Messages
  import opened InputBuffers
  import opened Nodes
  import opened Schedulers
  import opened Failover
  import opened DeviceRuntime
  import opened Networks
  import opened Medium
  import opened Options

  /** The identities of a layer under which DATA has been sent. */
  function Seen(history: seq<Message>, layer: nat): (nodes: set<nat>)
  {
    set m | m in history && m.kind == DATA && m.source.layer == layer :: m.source.node as nat
  }

  lemma SeenConcat(xs: seq<Message>, ys: seq<Message>, layer: nat)
    ensures Seen(xs + ys, layer) == Seen(xs, layer) + Seen(ys, layer)
  {
  }

  // ---- One device ----

  predicate MyTurn(c: NodeConfig, seen: set<nat>)
  {
    Bits(c.precedingSiblings) <= seen
  }

  /** What a standby has queued: DATA only as a flagged substitute. */
  predicate StandbyShape(role: BackupRole, b: StandbyState)
  {
    && (b.outgoing.Some? ==>
          if b.substituted then b.outgoing.value.kind == DATA && IsSubstitute(b.outgoing.value)
                                && b.outgoing.value.source == role.target
          else b.outgoing.value.kind != DATA)
    && (b.diagnostic.Some? ==> b.diagnostic.value.kind == CONTROL)
    && (b.substituted || b.tornDown ==> b.resolved)
  }

  predicate InOrder(c: NodeConfig, seen: set<nat>, s: DeviceState)
  {
    && s.sched.observed <= seen
    && (s.sched.phase in {ReadyToTransmit, Transmitted} ==> MyTurn(c, seen))
    && (s.ownOutputSent || s.responder.pending.Some? || s.retxOwn.left > 0 ==> MyTurn(c, seen))
    && (s.standby.Some? ==> c.backup.Some? && StandbyShape(c.backup.value, s.standby.value))
    && (s.retxOwn.left > 0 ==> s.retxOwn.message.source == c.address)
    && (s.retxSubstitute.left > 0 ==> IsSubstitute(s.retxSubstitute.message))
    && (s.retxReport.left > 0 ==> s.retxReport.message.kind == CONTROL)
  }

  /** A device's packets: its own in turn, flagged substitutes, and packets that are not DATA. */
  predicate SpokenInOrder(c: NodeConfig, seen: set<nat>, m: Message)
  {
    m.kind == DATA && !IsSubstitute(m) ==> m.source == c.address && MyTurn(c, seen)
  }

  predicate AllSpokenInOrder(c: NodeConfig, seen: set<nat>, ms: seq<Message>)
  {
    forall m | m in ms :: SpokenInOrder(c, seen, m)
  }

  lemma ObserveShape(c: NodeConfig, role: BackupRole, b: StandbyState, m: Message)
    requires StandbyShape(role, b)
    ensures StandbyShape(role, StandbyObserve(c, role, b, m))
  {
  }

  lemma DispatchInOrder(c: NodeConfig, seen: set<nat>, s: DeviceState, m: Message)
    requires InOrder(c, seen, s)
    requires m.kind == DATA && m.source.layer == c.ownLayer ==> m.source.node as nat in seen
    ensures InOrder(c, seen, Dispatch(c, s, m))
  {
    hide NodeReceive, StandbyShape, StandbyObserve;
    if m.kind == DATA && s.standby.Some? {
      ObserveShape(c, c.backup.value, s.standby.value, m);
    }
  }

  lemma ReceiveInOrder(c: NodeConfig, seen: set<nat>, s: DeviceState, m: Message, now: u32)
    requires InOrder(c, seen, s)
    requires m.kind == DATA && m.source.layer == c.ownLayer ==> m.source.node as nat in seen
    ensures InOrder(c, seen, Receive(c, s, m, now))
  {
    hide Dispatch, StandbyShape, MyTurn;
    var s := s.(lastActivity := now);
    DispatchInOrder(c, seen, s, m);
    DispatchInOrder(c, seen, s.(suppressor := Lock(s.suppressor, m)), m);
  }

  lemma {:induction false} ReceiveAllInOrder(c: NodeConfig, seen: set<nat>, s: DeviceState, ms: seq<Message>, now: u32)
    requires InOrder(c, seen, s)
    requires forall m | m in ms && m.kind == DATA && m.source.layer == c.ownLayer :: m.source.node as nat in seen
    ensures InOrder(c, seen, ReceiveAll(c, s, ms, now))
    decreases |ms|
  {
    if ms != [] {
      ReceiveInOrder(c, seen, s, ms[0], now);
      ReceiveAllInOrder(c, seen, Receive(c, s, ms[0], now), ms[1..], now);
    }
  }

  lemma TickInOrder(a: Arith<Float>, c: NodeConfig, seen: set<nat>, s: DeviceState)
    requires InOrder(c, seen, s)
    ensures InOrder(c, seen, TickScheduler(a, c, s))
  {
  }

  lemma StandbyTickShape(a: Arith<Float>, c: NodeConfig, role: BackupRole, b: StandbyState, now: u32)
    requires StandbyShape(role, b)
    ensures StandbyShape(role, StandbyTick(a, c, role, b, now))
  {
    hide Output, Elapsed, RoundFinished, Complete, AddressPayload;
  }

  lemma TickStandbyInOrder(a: Arith<Float>, c: NodeConfig, seen: set<nat>, s: DeviceState, now: u32)
    requires InOrder(c, seen, s)
    ensures InOrder(c, seen, TickStandby(a, c, s, now))
  {
    hide StandbyTick;
    if s.standby.Some? {
      StandbyTickShape(a, c, c.backup.value, s.standby.value, now);
    }
  }

  lemma ListenInOrder(a: Arith<Float>, c: NodeConfig, seen: set<nat>, s: DeviceState, ms: seq<Message>, now: u32)
    requires InOrder(c, seen, s) && Seen(ms, c.ownLayer) <= seen
    ensures InOrder(c, seen, Listen(a, c, s, ms, now))
  {
    hide InOrder, ReceiveAll, TickScheduler, TickStandby;
    forall m | m in ms && m.kind == DATA && m.source.layer == c.ownLayer
      ensures m.source.node as nat in seen
    {
      assert m.source.node as nat in Seen(ms, c.ownLayer);
    }
    var heard := ReceiveAll(c, s, ms, now);
    ReceiveAllInOrder(c, seen, s, ms, now);
    TickInOrder(a, c, seen, heard);
    TickStandbyInOrder(a, c, seen, TickScheduler(a, c, heard), now);
  }

  lemma SendOwnInOrder(c: NodeConfig, seen: set<nat>, s: DeviceState, now: u32)
    requires InOrder(c, seen, s)
    ensures var (s', sent) := SendOwn(c, s, now); InOrder(c, seen, s') && AllSpokenInOrder(c, seen, sent)
  {
  }

  lemma SendReportInOrder(c: NodeConfig, seen: set<nat>, s: DeviceState, now: u32)
    requires InOrder(c, seen, s)
    ensures var (s', sent) := SendReport(s, now); InOrder(c, seen, s') && AllSpokenInOrder(c, seen, sent)
  {
  }

  lemma SpeakInOrder(c: NodeConfig, seen: set<nat>, s: DeviceState, now: u32)
    requires InOrder(c, seen, s)
    ensures var (s', sent) := Speak(c, s, now);
            InOrder(c, seen + Seen(sent, c.ownLayer), s') && AllSpokenInOrder(c, seen, sent)
  {
    var (s1, m1) := SendOwn(c, s, now);
    SendOwnInOrder(c, seen, s, now);
    var (s2, m2) := SendReport(s1, now);
    SendReportInOrder(c, seen, s1, now);
    hide SendOwn, SendReport, SendStandby, SendReply, ServiceAll, StandbyShape, MyTurn;
    var (s3, m3) := SendStandby(c, s2, now);
    var seen' := seen + Seen(m3, c.ownLayer);
    SendStandbyInOrder(c, seen, s2, now);
    var (s4, m4) := SendReply(c, s3);
    SendReplyInOrder(c, seen, s2, now);
    var (s5, m5) := ServiceAll(s4, now);
    ServiceInOrder(c, seen, seen', s4, now);
    var sent := m1 + m2 + m3 + m4 + m5;
    assert Speak(c, s, now) == (s5, sent);
    assert Seen(m3, c.ownLayer) <= Seen(sent, c.ownLayer);
    InOrderMono(c, seen', seen + Seen(sent, c.ownLayer), s5);
  }

  lemma InOrderMono(c: NodeConfig, seen: set<nat>, seen': set<nat>, s: DeviceState)
    requires InOrder(c, seen, s) && seen <= seen'
    ensures InOrder(c, seen', s)
  {
  }

  /** The own scheduler is told of the substitute, which is on the medium by then; nothing
      that speaks later in the turn depends on it. */
  lemma SendStandbyInOrder(c: NodeConfig, seen: set<nat>, s: DeviceState, now: u32)
    requires InOrder(c, seen, s)
    ensures var (s', sent) := SendStandby(c, s, now);
            && InOrder(c, seen + Seen(sent, c.ownLayer), s') && AllSpokenInOrder(c, seen, sent)
            && s'.responder == s.responder && s'.retxOwn == s.retxOwn
  {
    var (s', sent) := SendStandby(c, s, now);
    if sent != [] && s.standby.value.substituted && sent[0].source.layer == c.ownLayer {
      assert sent[0] in sent;
      assert sent[0].source.node as nat in Seen(sent, c.ownLayer);
    }
  }

  lemma SendReplyInOrder(c: NodeConfig, seen: set<nat>, s: DeviceState, now: u32)
    requires InOrder(c, seen, s)
    ensures var (s', sent') := SendStandby(c, s, now);
            var (s'', sent) := SendReply(c, s');
            && InOrder(c, seen + Seen(sent', c.ownLayer), s'') && AllSpokenInOrder(c, seen, sent)
            && s''.retxOwn == s.retxOwn
  {
    SendStandbyInOrder(c, seen, s, now);
  }

  lemma ServiceInOrder(c: NodeConfig, seen: set<nat>, seen': set<nat>, s: DeviceState, now: u32)
    requires InOrder(c, seen', s) && (s.retxOwn.left > 0 ==> MyTurn(c, seen))
    ensures var (s', sent) := ServiceAll(s, now); InOrder(c, seen', s') && AllSpokenInOrder(c, seen, sent)
  {
  }

  /** One turn in which no stalled turn is released. */
  lemma StepInOrder(a: Arith<Float>, c: NodeConfig, seen: set<nat>, s: DeviceState, ms: seq<Message>, now: u32)
    requires InOrder(c, seen, s) && Seen(ms, c.ownLayer) <= seen
    requires !StallExpired(Listen(a, c, s, ms, now), now)
    ensures var (s', sent) := Step(a, c, s, ms, now);
            InOrder(c, seen + Seen(sent, c.ownLayer), s') && AllSpokenInOrder(c, seen, sent)
  {
    var listened := Listen(a, c, s, ms, now);
    ListenInOrder(a, c, seen, s, ms, now);
    var released := MaybeReleaseTurn(c, listened, now);
    assert InOrder(c, seen, released);
    var (spoken, sent) := Speak(c, released, now);
    SpeakInOrder(c, seen, released, now);
    var seen' := seen + Seen(sent, c.ownLayer);
    assert InOrder(c, seen', MaybeClosePass(spoken, now));
    assert Step(a, c, s, ms, now) == (MaybeClosePass(spoken, now), sent);
  }

  lemma StartInOrder(c: NodeConfig, seed: Option<Float>, now: u32)
    ensures InOrder(c, {}, Start(c, seed, now))
  {
  }

  // ---- The whole system ----

  ghost predicate Quiet(w: World, g: Global, action: Action)
    requires WorldOk(w)
  {
    action.Turn? && IsDevice(w.net, action.id) && action.id in g.devices ==>
      !StallExpired(Listen(w.arith, ConfigOf(w.net, action.id), g.devices[action.id], action.received, Clock(action.time)),
                    Clock(action.time))
  }

  /** A run in which no device ever waits long enough to release its turn. */
  ghost predicate QuietRun(w: World, states: seq<Global>, actions: seq<Action>)
  {
    IsRun(w, states, actions) && forall i: nat | i < |actions| :: Quiet(w, states[i], actions[i])
  }

  /** Packet `i` of the history is an own output of a compute neuron only if every smaller
      identity of its layer appears before it. */
  predicate InOrderAt(history: seq<Message>, i: nat)
    requires i < |history|
  {
    var m := history[i];
    m.kind == DATA && !IsSubstitute(m) && m.source.layer > 0 ==> Range(m.source.node) <= Seen(history[..i], m.source.layer)
  }

  ghost predicate Ordered(w: World, g: Global)
    requires WorldOk(w)
  {
    && (forall id | IsDevice(w.net, id) ::
          id in g.devices && InOrder(ConfigOf(w.net, id), Seen(g.history, id.layer), g.devices[id]))
    && (forall i: nat | i < |g.history| :: InOrderAt(g.history, i))
  }

  lemma InOrderAtMono(history: seq<Message>, more: seq<Message>, i: nat)
    requires i < |history| && InOrderAt(history, i)
    ensures InOrderAt(history + more, i)
  {
    assert (history + more)[..i] == history[..i];
  }

  lemma SentInOrder(w: World, id: Id, history: seq<Message>, sent: seq<Message>, i: nat)
    requires WorldOk(w) && IsNeuron(w.net, id)
    requires AllSpokenInOrder(ConfigOf(w.net, id), Seen(history, id.layer), sent)
    requires |history| <= i < |history + sent|
    ensures InOrderAt(history + sent, i)
  {
    var all := history + sent;
    var m := all[i];
    assert m == sent[i - |history|];
    assert SpokenInOrder(ConfigOf(w.net, id), Seen(history, id.layer), m);
    if m.kind == DATA && !IsSubstitute(m) {
      BitsOnes(id.node);
      assert all[..i] == history + sent[..i - |history|];
      SeenConcat(history, sent[..i - |history|], id.layer);
    }
  }

  lemma NextOrdered(w: World, g: Global, action: Action, g': Global)
    requires WorldOk(w) && Ordered(w, g) && Next(w, g, action, g') && Quiet(w, g, action)
    ensures Ordered(w, g')
  {
    var sent := g'.history[|g.history|..];
    assert g'.history == g.history + sent;
    forall i: nat | i < |g'.history|
      ensures InOrderAt(g'.history, i)
    {
      if i < |g.history| {
        InOrderAtMono(g.history, sent, i);
      } else if action.Turn? {
        TurnInOrder(w, g, action);
        SentInOrder(w, action.id, g.history, sent, i);
      } else {
        assert g'.history[i] == InputMessage(w, action.node);
      }
    }
    forall id | IsDevice(w.net, id)
      ensures InOrder(ConfigOf(w.net, id), Seen(g'.history, id.layer), g'.devices[id])
    {
      SeenConcat(g.history, sent, id.layer);
      if action.Turn? && action.id == id {
        TurnInOrder(w, g, action);
      } else {
        InOrderMono(ConfigOf(w.net, id), Seen(g.history, id.layer), Seen(g'.history, id.layer), g.devices[id]);
      }
    }
  }

  lemma TurnInOrder(w: World, g: Global, action: Action)
    requires WorldOk(w) && Ordered(w, g) && Quiet(w, g, action)
    requires action.Turn? && IsDevice(w.net, action.id)
    requires forall m | m in action.received :: m in g.history
    ensures var c := ConfigOf(w.net, action.id);
            var (s', sent) := Step(w.arith, c, g.devices[action.id], action.received, Clock(action.time));
            && InOrder(c, Seen(g.history, action.id.layer) + Seen(sent, action.id.layer), s')
            && AllSpokenInOrder(c, Seen(g.history, action.id.layer), sent)
  {
    assert Seen(action.received, action.id.layer) <= Seen(g.history, action.id.layer);
    StepInOrder(w.arith, ConfigOf(w.net, action.id), Seen(g.history, action.id.layer),
                g.devices[action.id], action.received, Clock(action.time));
  }

  lemma InitOrdered(w: World)
    requires WorldOk(w)
    ensures Ordered(w, Init(w))
  {
    forall id | IsDevice(w.net, id)
      ensures InOrder(ConfigOf(w.net, id), {}, Init(w).devices[id])
    {
      StartInOrder(ConfigOf(w.net, id), Seed(w, id), w.boot(id));
    }
  }

  lemma {:induction false} RunOrdered(w: World, states: seq<Global>, actions: seq<Action>)
    requires QuietRun(w, states, actions)
    ensures Ordered(w, states[|actions|])
    decreases |actions|
  {
    hide Next, Quiet, Ordered, Deployable, Init;
    if actions == [] {
      InitOrdered(w);
    } else {
      var n := |actions| - 1;
      RunPrefix(w, states, actions);
      RunOrdered(w, states[..n + 1], actions[..n]);
      assert Quiet(w, states[n], actions[n]);
      NextOrdered(w, states[n], actions[n], states[n + 1]);
    }
  }

  /** In a run without turn release, node `k`'s own packet (first transmission, retransmission
      or resend reply) is preceded on the medium by DATA under every identity `j < k`. */
  lemma OwnOutputsInTurn(w: World, states: seq<Global>, actions: seq<Action>, i: nat, j: nat)
    requires QuietRun(w, states, actions)
    requires var history := states[|actions|].history;
             i < |history| && history[i].kind == DATA && !IsSubstitute(history[i])
             && history[i].source.layer > 0 && j < history[i].source.node
    ensures var history := states[|actions|].history;
            exists k: nat :: k < i && history[k].kind == DATA
                             && Source(history[k]) == Id(history[i].source.layer, j)
  {
    RunOrdered(w, states, actions);
    var history := states[|actions|].history;
    assert InOrderAt(history, i);
    assert j in Range(history[i].source.node);
    assert j in Seen(history[..i], history[i].source.layer);
    var m :| m in history[..i] && m.kind == DATA && m.source.layer == history[i].source.layer && m.source.node == j;
    var k :| 0 <= k < i && history[k] == m;
  }
}
