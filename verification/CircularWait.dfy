/** When a crash cannot be recovered without releasing turns: the standby waits for a later
    sibling, the sibling waits for the crashed node, and neither ever appears. */
module CircularWait {
  import opened Words
  import opened Arithmetic
  import opened Messages
  import opened Nodes
  import opened Failover
  import opened DeviceRuntime
  import opened DeviceInvariant
  import opened Networks
  import opened Medium
  import opened ValueSafety
  import opened TurnOrder
  import opened Options

  // ---- One device of the layer ----

  /** The device is a live sibling of the dead node `t`, and its standby, if it watches `t` or
      a node after it, waits for some node that is itself stuck. */
  ghost predicate Caught(c: NodeConfig, t: nat)
  {
    && c.address.node != t && c.ownLayer == c.address.layer
    && (c.address.node > t ==> t in Bits(c.precedingSiblings))
    && (c.backup.Some? ==>
          && c.backup.value.target.layer == c.address.layer
          && (c.backup.value.target.node >= t ==> exists j :: j in Others(c, c.backup.value) && j >= t))
  }

  predicate Below(t: nat, ids: set<nat>)
  {
    forall j | j in ids :: j < t
  }

  predicate NothingSaid(s: DeviceState)
  {
    !s.sched.phase.ReadyToTransmit? && !s.sched.phase.Transmitted? && !s.ownOutputSent
    && s.responder.pending.None? && s.retxOwn.left == 0
  }

  predicate NothingQueued(b: StandbyState)
  {
    !b.resendRequested && !b.substituted && !b.tornDown && b.outgoing.None? && b.diagnostic.None?
  }

  predicate RetxBelow(c: NodeConfig, t: nat, r: Retx)
  {
    r.left > 0 ==> MessageBelow(c, t, r.message)
  }

  predicate Stuck(c: NodeConfig, t: nat, s: DeviceState)
  {
    && Below(t, s.sched.observed)
    && (c.address.node > t ==> NothingSaid(s))
    && (s.standby.Some? ==>
          && c.backup.Some? && StandbyShape(c.backup.value, s.standby.value)
          && Below(t, s.standby.value.layerObserved)
          && (c.backup.value.target.node >= t ==> NothingQueued(s.standby.value)))
    && RetxBelow(c, t, s.retxOwn) && RetxBelow(c, t, s.retxSubstitute) && RetxBelow(c, t, s.retxReport)
  }

  /** DATA from this layer is from before `t`. */
  predicate MessageBelow(c: NodeConfig, t: nat, m: Message)
  {
    m.kind == DATA && m.source.layer == c.address.layer ==> m.source.node < t
  }

  predicate AllBelow(c: NodeConfig, t: nat, ms: seq<Message>)
  {
    forall m | m in ms :: MessageBelow(c, t, m)
  }

  lemma StandbyObserveStuck(c: NodeConfig, t: nat, b: StandbyState, m: Message)
    requires c.backup.Some? && MessageBelow(c, t, m) && m.kind == DATA
    requires StandbyShape(c.backup.value, b) && Below(t, b.layerObserved)
    ensures var b' := StandbyObserve(c, c.backup.value, b, m);
            StandbyShape(c.backup.value, b') && Below(t, b'.layerObserved) && (NothingQueued(b) ==> NothingQueued(b'))
  {
  }

  lemma DispatchStuck(c: NodeConfig, t: nat, s: DeviceState, m: Message)
    requires Caught(c, t) && Stuck(c, t, s) && MessageBelow(c, t, m)
    ensures Stuck(c, t, Dispatch(c, s, m))
  {
    if m.kind == DATA && s.standby.Some? {
      StandbyObserveStuck(c, t, s.standby.value, m);
      hide StandbyObserve, Caught, NothingQueued, StandbyShape;
    }
  }

  lemma {:induction false} ReceiveAllStuck(c: NodeConfig, t: nat, s: DeviceState, ms: seq<Message>, now: u32)
    requires Caught(c, t) && Stuck(c, t, s) && AllBelow(c, t, ms)
    ensures Stuck(c, t, ReceiveAll(c, s, ms, now))
    decreases |ms|
  {
    if ms != [] {
      var m, s0 := ms[0], s.(lastActivity := now);
      DispatchStuck(c, t, s0, m);
      DispatchStuck(c, t, s0.(suppressor := Lock(s0.suppressor, m)), m);
      ReceiveAllStuck(c, t, Receive(c, s, m, now), ms[1..], now);
    }
  }

  lemma TickSchedulerStuck(a: Arith<Float>, c: NodeConfig, t: nat, s: DeviceState)
    requires Caught(c, t) && Stuck(c, t, s)
    ensures Stuck(c, t, TickScheduler(a, c, s))
  {
  }

  /** The round never finishes for a standby that watches `t` or a node after it. */
  lemma StandbyTickStuck(a: Arith<Float>, c: NodeConfig, t: nat, b: StandbyState, now: u32)
    requires Caught(c, t) && c.backup.Some? && StandbyShape(c.backup.value, b) && Below(t, b.layerObserved)
    requires c.backup.value.target.node >= t ==> NothingQueued(b)
    ensures var b' := StandbyTick(a, c, c.backup.value, b, now);
            && StandbyShape(c.backup.value, b') && Below(t, b'.layerObserved)
            && (c.backup.value.target.node >= t ==> NothingQueued(b'))
  {
    if c.backup.value.target.node >= t {
      var j :| j in Others(c, c.backup.value) && j >= t;
      assert !RoundFinished(c, c.backup.value, b);
    }
  }

  lemma ListenStuck(a: Arith<Float>, c: NodeConfig, t: nat, s: DeviceState, ms: seq<Message>, now: u32)
    requires Caught(c, t) && Stuck(c, t, s) && AllBelow(c, t, ms)
    ensures Stuck(c, t, Listen(a, c, s, ms, now))
  {
    var heard := ReceiveAll(c, s, ms, now);
    ReceiveAllStuck(c, t, s, ms, now);
    var ticked := TickScheduler(a, c, heard);
    TickSchedulerStuck(a, c, t, heard);
    if ticked.standby.Some? {
      StandbyTickStuck(a, c, t, ticked.standby.value, now);
    }
  }

  lemma SendOwnStuck(c: NodeConfig, t: nat, s: DeviceState, now: u32)
    requires Caught(c, t) && Stuck(c, t, s)
    ensures var (s', sent) := SendOwn(c, s, now); Stuck(c, t, s') && AllBelow(c, t, sent)
  {
  }

  lemma SendReportStuck(c: NodeConfig, t: nat, s: DeviceState, now: u32)
    requires Caught(c, t) && Stuck(c, t, s)
    ensures var (s', sent) := SendReport(s, now); Stuck(c, t, s') && AllBelow(c, t, sent)
  {
  }

  lemma SendStandbyStuck(c: NodeConfig, t: nat, s: DeviceState, now: u32)
    requires Caught(c, t) && Stuck(c, t, s)
    ensures var (s', sent) := SendStandby(c, s, now); Stuck(c, t, s') && AllBelow(c, t, sent)
  {
    hide Others;
  }

  lemma SendReplyStuck(c: NodeConfig, t: nat, s: DeviceState)
    requires Caught(c, t) && Stuck(c, t, s)
    ensures var (s', sent) := SendReply(c, s); Stuck(c, t, s') && AllBelow(c, t, sent)
  {
  }

  lemma ServiceStuck(c: NodeConfig, t: nat, s: DeviceState, now: u32)
    requires Caught(c, t) && Stuck(c, t, s)
    ensures var (s', sent) := ServiceAll(s, now); Stuck(c, t, s') && AllBelow(c, t, sent)
  {
  }

  lemma SpeakStuck(c: NodeConfig, t: nat, s: DeviceState, now: u32)
    requires Caught(c, t) && Stuck(c, t, s)
    ensures var (s', sent) := Speak(c, s, now); Stuck(c, t, s') && AllBelow(c, t, sent)
  {
    var (s1, m1) := SendOwn(c, s, now);
    SendOwnStuck(c, t, s, now);
    var (s2, m2) := SendReport(s1, now);
    SendReportStuck(c, t, s1, now);
    var (s3, m3) := SendStandby(c, s2, now);
    SendStandbyStuck(c, t, s2, now);
    var (s4, m4) := SendReply(c, s3);
    SendReplyStuck(c, t, s3);
    var (s5, m5) := ServiceAll(s4, now);
    ServiceStuck(c, t, s4, now);
    assert Speak(c, s, now) == (s5, m1 + m2 + m3 + m4 + m5);
  }

  lemma ReleaseStuck(c: NodeConfig, t: nat, s: DeviceState, now: u32)
    requires Stuck(c, t, s) && !StallExpired(s, now)
    ensures Stuck(c, t, MaybeReleaseTurn(c, s, now))
  {
  }

  lemma CloseStuck(c: NodeConfig, t: nat, s: DeviceState, now: u32)
    requires Stuck(c, t, s)
    ensures Stuck(c, t, MaybeClosePass(s, now))
  {
  }

  lemma StepStuck(a: Arith<Float>, c: NodeConfig, t: nat, s: DeviceState, ms: seq<Message>, now: u32)
    requires Caught(c, t) && Stuck(c, t, s) && AllBelow(c, t, ms)
    requires !StallExpired(Listen(a, c, s, ms, now), now)
    ensures var (s', sent) := Step(a, c, s, ms, now); Stuck(c, t, s') && AllBelow(c, t, sent)
  {
    hide Stuck, Listen, Speak, StallExpired, MaybeReleaseTurn, MaybeClosePass;
    var listened := Listen(a, c, s, ms, now);
    ListenStuck(a, c, t, s, ms, now);
    var released := MaybeReleaseTurn(c, listened, now);
    ReleaseStuck(c, t, listened, now);
    var (spoken, sent) := Speak(c, released, now);
    SpeakStuck(c, t, released, now);
    CloseStuck(c, t, spoken, now);
    assert Step(a, c, s, ms, now) == (MaybeClosePass(spoken, now), sent);
  }

  // ---- The whole system ----

  /** Some sibling after `t`, other than the backer itself, has to wait for `t`. */
  predicate WaitsForAnother(width: nat, t: nat, backer: nat)
  {
    t + 1 < width && (backer == t + 1 ==> t + 2 < width)
  }

  /** Every node that backs up `dead` waits for yet another sibling after it. */
  ghost predicate Unrecoverable(net: Network, dead: Id)
  {
    && IsNeuron(net, dead) && dead.layer > 0
    && forall b: nat | IsNeuron(net, Id(dead.layer, b)) && HasBackup(net, Id(dead.layer, b))
                       && net.layers[dead.layer - 1].backups[b] == dead.node ::
         WaitsForAnother(Width(net, dead.layer), dead.node, b)
  }

  lemma SiblingCaught(net: Network, dead: Id, id: Id)
    requires Deployable(net) && Unrecoverable(net, dead)
    requires IsNeuron(net, id) && id.layer == dead.layer && id != dead
    ensures Caught(ConfigOf(net, id), dead.node)
  {
    var c, width := ConfigOf(net, id), Width(net, id.layer);
    PrecedingOf(net, id);
    if HasBackup(net, id) {
      RosterOf(net, id);
      var target := BackupTarget(net, id);
      if target == dead.node { assert WaitsForAnother(width, dead.node, id.node); }
      hide ConfigOf, RoleOf, Unrecoverable, Deployable;
      var j := if target != dead.node then dead.node else if id.node == dead.node + 1 then dead.node + 2 else dead.node + 1;
      if target >= dead.node { assert j in Others(c, c.backup.value) && j >= dead.node; }
    }
  }

  ghost predicate SiblingsStuck(w: World, dead: Id, devices: Devices)
    requires WorldOk(w)
  {
    forall id | IsDevice(w.net, id) && id.layer == dead.layer && id != dead ::
      id in devices && Stuck(ConfigOf(w.net, id), dead.node, devices[id])
  }

  predicate HistoryBelow(dead: Id, history: seq<Message>)
  {
    forall m | m in history && m.kind == DATA && m.source.layer == dead.layer :: m.source.node < dead.node
  }

  ghost predicate LayerStuck(w: World, dead: Id, g: Global)
    requires WorldOk(w)
  {
    SiblingsStuck(w, dead, g.devices) && HistoryBelow(dead, g.history)
  }

  /** One turn of a device that is alive. */
  lemma TurnStuck(w: World, dead: Id, g: Global, id: Id, received: seq<Message>, now: u32)
    requires WorldOk(w) && Unrecoverable(w.net, dead) && AllGood(w, g) && LayerStuck(w, dead, g)
    requires IsDevice(w.net, id) && id != dead && forall m | m in received :: m in g.history
    requires !StallExpired(Listen(w.arith, ConfigOf(w.net, id), g.devices[id], received, now), now)
    ensures var c := ConfigOf(w.net, id);
            var (s', sent) := Step(w.arith, c, g.devices[id], received, now);
            && (id.layer == dead.layer ==> Stuck(c, dead.node, s'))
            && HistoryBelow(dead, sent)
  {
    hide Unrecoverable, Stuck, DeviceGood, Good, Step, StallExpired;
    var c, s := ConfigOf(w.net, id), g.devices[id];
    if id.layer == dead.layer {
      SiblingCaught(w.net, dead, id);
      assert AllBelow(c, dead.node, received);
      StepStuck(w.arith, c, dead.node, s, received, now);
      forall m | m in Step(w.arith, c, s, received, now).1 && m.kind == DATA && m.source.layer == dead.layer
        ensures m.source.node < dead.node
      {
        assert MessageBelow(c, dead.node, m);
      }
    } else {
      OtherLayerSpeaks(w, id, s, received, now);
    }
  }

  lemma SiblingStuck(w: World, dead: Id, devices: Devices, id: Id, state: DeviceState)
    requires WorldOk(w) && SiblingsStuck(w, dead, devices) && IsDevice(w.net, id)
    requires id.layer == dead.layer ==> Stuck(ConfigOf(w.net, id), dead.node, state)
    ensures SiblingsStuck(w, dead, devices[id := state])
  {
    hide Stuck, ConfigOf;
  }

  ghost predicate Mute(w: World, dead: Id, g: Global, action: Action)
    requires WorldOk(w)
  {
    action.Turn? && action.id == dead && IsDevice(w.net, dead) && dead in g.devices ==>
      forall m | m in Step(w.arith, ConfigOf(w.net, dead), g.devices[dead], action.received, Clock(action.time)).1 ::
        m.kind != DATA
  }

  lemma DeadTurn(w: World, dead: Id, devices: Devices, state: DeviceState, sent: seq<Message>)
    requires WorldOk(w) && SiblingsStuck(w, dead, devices) && forall m | m in sent :: m.kind != DATA
    ensures SiblingsStuck(w, dead, devices[dead := state]) && HistoryBelow(dead, sent)
  {
    hide Stuck, ConfigOf;
  }

  lemma SentBelow(dead: Id, history: seq<Message>, sent: seq<Message>)
    requires HistoryBelow(dead, history) && HistoryBelow(dead, sent)
    ensures HistoryBelow(dead, history + sent)
  {
  }

  lemma NextStuck(w: World, dead: Id, g: Global, action: Action, g': Global)
    requires WorldOk(w) && Unrecoverable(w.net, dead)
    requires AllGood(w, g) && LayerStuck(w, dead, g)
    requires Next(w, g, action, g') && Quiet(w, g, action) && Mute(w, dead, g, action)
    ensures LayerStuck(w, dead, g')
  {
    assert dead.layer > 0;
    match action
    case Inject(node) =>
    case Turn(id, received, time) =>
      hide Unrecoverable, SiblingsStuck, HistoryBelow, DevicesGood, HistoryGood, Step, StallExpired, Listen, ConfigOf;
      var (state, sent) := Step(w.arith, ConfigOf(w.net, id), g.devices[id], received, Clock(time));
      if id == dead {
        DeadTurn(w, dead, g.devices, state, sent);
      } else {
        TurnStuck(w, dead, g, id, received, Clock(time));
        SiblingStuck(w, dead, g.devices, id, state);
      }
      SentBelow(dead, g.history, sent);
  }

  lemma OtherLayerSpeaks(w: World, id: Id, s: DeviceState, received: seq<Message>, now: u32)
    requires WorldOk(w) && IsNeuron(w.net, id)
    requires DeviceGood(ConfigOf(w.net, id), ExpectedOf(w, id), s)
    requires forall m | m in received :: Good(w, m)
    ensures forall m | m in Step(w.arith, ConfigOf(w.net, id), s, received, now).1 && m.kind == DATA ::
              m.source.layer == id.layer
  {
    var c, e := ConfigOf(w.net, id), ExpectedOf(w, id);
    ConfigRight(w, id);
    forall m | m in received
      ensures GoodInput(c, e, m)
    {
      InputIsGood(w, id, m);
    }
    StepGood(w.arith, c, e, s, received, now);
    forall m | GoodOutput(c, e, m) && m.kind == DATA
      ensures m.source.layer == id.layer
    {
      if HasBackup(w.net, id) { RolesMirror(w.net, id); }
    }
  }

  /** A run without turn release in which `dead` sends no DATA: it may never take a turn, or
      crash after any turns in which it had nothing to announce. */
  ghost predicate CrashedRun(w: World, dead: Id, states: seq<Global>, actions: seq<Action>)
  {
    QuietRun(w, states, actions) && forall i: nat | i < |actions| :: Mute(w, dead, states[i], actions[i])
  }

  lemma StartStuck(c: NodeConfig, t: nat, seed: Option<Float>, now: u32)
    requires Caught(c, t)
    ensures Stuck(c, t, Start(c, seed, now))
  {
  }

  lemma InitStuck(w: World, dead: Id)
    requires WorldOk(w) && Unrecoverable(w.net, dead)
    ensures LayerStuck(w, dead, Init(w))
  {
    forall id | IsDevice(w.net, id) && id.layer == dead.layer && id != dead
      ensures Stuck(ConfigOf(w.net, id), dead.node, Init(w).devices[id])
    {
      SiblingCaught(w.net, dead, id);
      StartStuck(ConfigOf(w.net, id), dead.node, Seed(w, id), w.boot(id));
    }
  }

  lemma {:induction false} RunStuck(w: World, dead: Id, states: seq<Global>, actions: seq<Action>)
    requires CrashedRun(w, dead, states, actions) && Unrecoverable(w.net, dead)
    ensures LayerStuck(w, dead, states[|actions|])
    decreases |actions|
  {
    if actions == [] {
      InitStuck(w, dead);
    } else {
      var n := |actions| - 1;
      RunPrefix(w, states, actions);
      RunStuck(w, dead, states[..n + 1], actions[..n]);
      RunGood(w, states[..n + 1], actions[..n]);
      assert Quiet(w, states[n], actions[n]) && Mute(w, dead, states[n], actions[n]) && Next(w, states[n], actions[n], states[n + 1]);
      NextStuck(w, dead, states[n], actions[n], states[n + 1]);
    }
  }

  /** The circular wait is permanent: however the run continues, neither the dead node's
      identity nor any later one of its layer ever appears. */
  lemma CircularWaitIsPermanent(w: World, dead: Id, states: seq<Global>, actions: seq<Action>, m: Message)
    requires CrashedRun(w, dead, states, actions) && Unrecoverable(w.net, dead)
    requires m in states[|actions|].history && m.kind == DATA && m.source.layer == dead.layer
    ensures m.source.node < dead.node
  {
    RunStuck(w, dead, states, actions);
  }
}
