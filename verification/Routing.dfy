/** Where packets go: DATA is always sent to the successor group, and a substitute flag on
    anything but DATA is seen only on the diagnostics group, which no device joins.

    The invariant follows each packet from the moment it is queued, through the slots it may
    be repeated from, to the medium; what a device hears through the groups it has joined is
    therefore fit to be taken in. */
module Routing {
  import opened Words
  import opened Arithmetic
  import opened Messages
  import opened Nodes
  import opened Failover
  import opened DeviceRuntime
  import opened Networks
  import opened Medium
  import opened ValueSafety
  import opened DeviceInvariant
  import opened PassProgress

  predicate RoutedTo(group: nat, m: Message)
  {
    && (IsSubstitute(m) ==> m.kind == DATA || m.group == DIAGNOSTIC_GROUP)
    && (m.kind == DATA ==> m.group == group && |m.values| <= MAX_PAYLOAD_FLOATS)
    && (m.kind == 1 ==> m.group == if m.flags == 0 then m.source.layer else 254)
  }

  predicate AllRouted(group: nat, ms: seq<Message>)
  {
    forall m | m in ms :: RoutedTo(group, m)
  }

  predicate RetxRouted(group: nat, r: Retx)
  {
    r.left > 0 ==> RoutedTo(group, r.message)
  }

  /** A queued packet: a substitute, or before that a resend request in this device's name. */
  predicate StandbyRouted(c: NodeConfig, b: StandbyState)
  {
    b.outgoing.Some? ==>
      var m := b.outgoing.value;
      if b.substituted then m.kind == DATA && |m.values| <= MAX_PAYLOAD_FLOATS
      else m.kind != DATA && !IsSubstitute(m)
           && (b.tornDown ==> m.kind != 1) && (!b.tornDown ==> m.flags == 0 && m.source == c.address)
  }

  predicate ReportRouted(b: StandbyState)
  {
    b.diagnostic.Some? ==> b.diagnostic.value.kind == CONTROL && b.diagnostic.value.flags != 0
  }

  predicate DeviceRouted(c: NodeConfig, s: DeviceState)
  {
    && (s.standby.Some? ==>
          StandbyRouted(c, s.standby.value) && ReportRouted(s.standby.value)
          && (s.standby.value.substituted ==> s.standby.value.resolved)
          && (s.standby.value.tornDown ==> s.standby.value.resolved))
    && RetxRouted(c.successor, s.retxOwn) && RetxRouted(c.successor, s.retxSubstitute)
    && RetxRouted(c.successor, s.retxReport)
  }

  lemma TickStandbyRouted(a: Arith<Float>, c: NodeConfig, s: DeviceState, now: u32)
    requires DeviceRouted(c, s)
    ensures DeviceRouted(c, TickStandby(a, c, s, now))
  {
    hide RoundFinished, Elapsed, AddressPayload;
  }

  lemma SpeakRouted(c: NodeConfig, s: DeviceState, now: u32)
    requires DeviceRouted(c, s)
    ensures var (s', sent) := Speak(c, s, now); DeviceRouted(c, s') && AllRouted(c.successor, sent)
  {
    hide DeviceRouted, SendOwn, SendReport, SendStandby, SendReply, ServiceAll;
    var (s1, m1) := SendOwn(c, s, now);
    SendOwnRouted(c, s, now);
    var (s2, m2) := SendReport(s1, now);
    SendReportRouted(c, s1, now);
    var (s3, m3) := SendStandby(c, s2, now);
    SendStandbyRouted(c, s2, now);
    var (s4, m4) := SendReply(c, s3);
    SendReplyRouted(c, s3);
    var (s5, m5) := ServiceAll(s4, now);
    ServiceRouted(c, s4, now);
    assert Speak(c, s, now) == (s5, m1 + m2 + m3 + m4 + m5);
  }

  lemma SendOwnRouted(c: NodeConfig, s: DeviceState, now: u32)
    requires DeviceRouted(c, s)
    ensures var (s', sent) := SendOwn(c, s, now); DeviceRouted(c, s') && AllRouted(c.successor, sent)
  {
  }

  lemma SendReportRouted(c: NodeConfig, s: DeviceState, now: u32)
    requires DeviceRouted(c, s)
    ensures var (s', sent) := SendReport(s, now); DeviceRouted(c, s') && AllRouted(c.successor, sent)
  {
  }

  lemma SendReplyRouted(c: NodeConfig, s: DeviceState)
    requires DeviceRouted(c, s)
    ensures var (s', sent) := SendReply(c, s); DeviceRouted(c, s') && AllRouted(c.successor, sent)
  {
  }

  lemma SendStandbyRouted(c: NodeConfig, s: DeviceState, now: u32)
    requires DeviceRouted(c, s)
    ensures var (s', sent) := SendStandby(c, s, now); DeviceRouted(c, s') && AllRouted(c.successor, sent)
  {
  }

  lemma ServiceRouted(c: NodeConfig, s: DeviceState, now: u32)
    requires DeviceRouted(c, s)
    ensures var (s', sent) := ServiceAll(s, now); DeviceRouted(c, s') && AllRouted(c.successor, sent)
  {
  }

  lemma ReleaseRouted(c: NodeConfig, s: DeviceState, now: u32)
    requires DeviceRouted(c, s)
    ensures DeviceRouted(c, MaybeReleaseTurn(c, s, now))
  {
  }

  lemma CloseRouted(c: NodeConfig, s: DeviceState, now: u32)
    requires DeviceRouted(c, s)
    ensures DeviceRouted(c, MaybeClosePass(s, now))
  {
  }

  lemma StepRouted(a: Arith<Float>, c: NodeConfig, s: DeviceState, ms: seq<Message>, now: u32)
    requires DeviceRouted(c, s)
    ensures var (s', sent) := Step(a, c, s, ms, now); DeviceRouted(c, s') && AllRouted(c.successor, sent)
  {
    var heard := ReceiveAll(c, s, ms, now);
    ReceiveAllFrame(c, s, ms, now);
    assert DeviceRouted(c, heard);
    var ticked := TickScheduler(a, c, heard);
    assert DeviceRouted(c, ticked);
    var listened := TickStandby(a, c, ticked, now);
    TickStandbyRouted(a, c, ticked, now);
    var released := MaybeReleaseTurn(c, listened, now);
    ReleaseRouted(c, listened, now);
    var (spoken, sent) := Speak(c, released, now);
    SpeakRouted(c, released, now);
    CloseRouted(c, spoken, now);
    assert Step(a, c, s, ms, now) == (MaybeClosePass(spoken, now), sent);
  }

  // ---- The whole system ----

  predicate Routed(m: Message)
  {
    RoutedTo(m.source.layer + 1, m)
  }

  ghost predicate AllDevicesRouted(w: World, devices: Devices)
    requires WorldOk(w)
  {
    forall id | IsDevice(w.net, id) :: id in devices && DeviceRouted(ConfigOf(w.net, id), devices[id])
  }

  ghost predicate HistoryRouted(history: seq<Message>)
  {
    forall m | m in history :: Routed(m)
  }

  lemma TurnRouted(w: World, id: Id, s: DeviceState, received: seq<Message>, now: u32)
    requires WorldOk(w) && IsNeuron(w.net, id)
    requires DeviceGood(ConfigOf(w.net, id), ExpectedOf(w, id), s) && DeviceRouted(ConfigOf(w.net, id), s)
    requires forall m | m in received :: Good(w, m)
    ensures var (s', sent) := Step(w.arith, ConfigOf(w.net, id), s, received, now);
            DeviceRouted(ConfigOf(w.net, id), s') && forall m | m in sent :: Routed(m)
  {
    var c, e := ConfigOf(w.net, id), ExpectedOf(w, id);
    StepRouted(w.arith, c, s, received, now);
    ConfigRight(w, id);
    forall m | m in received
      ensures GoodInput(c, e, m)
    {
      InputIsGood(w, id, m);
    }
    StepGood(w.arith, c, e, s, received, now);
    var sent := Step(w.arith, c, s, received, now).1;
    forall m | m in sent
      ensures Routed(m)
    {
      assert RoutedTo(c.successor, m) && GoodOutput(c, e, m);
      if HasBackup(w.net, id) { RolesMirror(w.net, id); }
    }
  }

  lemma NextRouted(w: World, g: Global, action: Action, g': Global)
    requires WorldOk(w) && AllGood(w, g) && AllDevicesRouted(w, g.devices) && HistoryRouted(g.history)
    requires Next(w, g, action, g')
    ensures AllDevicesRouted(w, g'.devices) && HistoryRouted(g'.history)
  {
    match action
    case Inject(node) =>
    case Turn(id, received, time) =>
      TurnRouted(w, id, g.devices[id], received, Clock(time));
      assert AllDevicesRouted(w, g'.devices);
      assert HistoryRouted(g'.history);
  }

  /** What reaches a device through its groups is proper. */
  lemma HeardIsProper(w: World, id: Id, m: Message)
    requires WorldOk(w) && IsNeuron(w.net, id) && Routed(m) && Hears(ConfigOf(w.net, id), m.group)
    ensures Proper(m)
  {
  }

  /** A layer's outputs are heard by the next layer, and by every sibling that needs them. */
  lemma WhoHears(w: World, id: Id, m: Message)
    requires WorldOk(w) && IsNeuron(w.net, id) && Routed(m) && m.kind == DATA
    ensures Hears(ConfigOf(w.net, id), m.group) <==>
              m.source.layer + 1 == id.layer || (m.source.layer == id.layer && (id.node > 0 || HasBackup(w.net, id)))
  {
    var c := ConfigOf(w.net, id);
    if id.node > 0 {
      BitsOnes(id.node);
      BitsNonZero(c.precedingSiblings);
      assert 0 in Bits(c.precedingSiblings);
    }
  }

  /** What is known of every packet of a run. */
  lemma {:induction false} RunRouted(w: World, states: seq<Global>, actions: seq<Action>)
    requires IsRun(w, states, actions)
    ensures AllGood(w, states[|actions|])
    ensures AllDevicesRouted(w, states[|actions|].devices) && HistoryRouted(states[|actions|].history)
    decreases |actions|
  {
    hide Next, Deployable, DevicesGood, HistoryGood, HistoryRouted;
    RunGood(w, states, actions);
    if actions == [] {
      InitRouted(w);
    } else {
      var n := |actions| - 1;
      RunPrefix(w, states, actions);
      RunRouted(w, states[..n + 1], actions[..n]);
      NextRouted(w, states[n], actions[n], states[n + 1]);
    }
  }

  lemma InitRouted(w: World)
    requires WorldOk(w)
    ensures AllDevicesRouted(w, Init(w).devices) && HistoryRouted(Init(w).history)
  {
    hide ConfigOf, Seed, Deployable;
  }

  /** In every run a resend request -- a CONTROL packet without failover flags -- goes to a group
      that whoever it names has joined, and every report of a failover goes to group 254. */
  lemma RequestIsHeard(w: World, states: seq<Global>, actions: seq<Action>, m: Message, id: Id)
    requires IsRun(w, states, actions) && m in states[|actions|].history && m.kind == 1 && IsNeuron(w.net, id)
    ensures m.flags == 0 && Requests(m, AddressOf(w.net, id)) ==> Hears(ConfigOf(w.net, id), m.group)
    ensures m.flags != 0 ==> m.group == 254
  {
    RunRouted(w, states, actions);
    assert Good(w, m) && Routed(m);
  }
}
