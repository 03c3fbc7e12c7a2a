/** Running the manifest the mapper writes directly: its terminal layer carries successor 255,
    which the runtime takes to mean that there is no sibling group to join. */
module DirectManifests {
  import opened Words
  import opened Arithmetic
  import opened Messages
  import opened Nodes
  import opened Failover
  import opened DeviceRuntime
  import opened Networks
  import opened Medium
  import opened PassProgress
  import opened DeviceLife
  import opened SetupHost
  import opened Provisioning
  import opened Manifests
  import opened Topologies
  import opened Codegen
  import opened Deployment

  // ---- From a direct entry to a configuration ----

  /** The configuration of a neuron's device under the direct manifest. */
  function DirectConfig(net: Network, id: Id): NodeConfig
    requires Deployable(net) && IsNeuron(net, id)
  {
    var c := Networks.ConfigOf(net, id);
    if id.layer == |net.layers| then c.(successor := TERMINAL_SENTINEL) else c
  }

  /** A directly written entry is accepted, fits the wire, and asks for that configuration. */
  lemma DirectIsIntended(m: Model, id: Id, hardwareId: u64)
    requires ModelValid(m) && Deployable(Plain(m)) && IsDevice(Plain(m), id)
    ensures var d := WithSentinel(m, DeviceFor(Plain(m), id, hardwareId));
            && Packable(d) && ParseDevice(d).Some?
            && EntryOk(ParseDevice(d).value) && Intended(ParseDevice(d).value) == DirectConfig(Plain(m), id)
  {
    hide Deployable, Plain, Networks.ConfigOf, ModelValid, Addresses.Decode, AddressValue;
    FirstLayer(m);
    PlainWidth(m, 0);
    CompiledIsIntended(Plain(m), id, hardwareId);
    PlainShape(m);
    EntryAddress(Plain(m), id, hardwareId);
  }

  lemma EntryAddress(net: Network, id: Id, hardwareId: u64)
    requires ShapeValid(net) && IsDevice(net, id)
    ensures DeviceFor(net, id, hardwareId).address.layerId == id.layer
  {
  }

  // ---- Runs ----

  ghost predicate DirectWorld(w: World)
  {
    WorldOk(w) && w.net.inputValues.None? && |w.net.layers| > 0
    && forall l | l in w.net.layers :: l.backups == map[]
  }

  /** What the mapper emits without backups is such a network. */
  lemma PlainIsDirect(m: Model, w: World)
    requires ModelValid(m) && w.net == Plain(m) && WorldOk(w)
    ensures DirectWorld(w)
  {
    hide Deployable, InputsFor;
    PlainWidth(m, 0);
    forall l | l in w.net.layers
      ensures l.backups == map[]
    {
      var i :| 0 <= i < |w.net.layers| && w.net.layers[i] == l;
      PlainLayer(m, i + 1);
    }
  }

  ghost function DirectInit(w: World): Global
    requires WorldOk(w)
  {
    Global(imap id | IsDevice(w.net, id) :: Start(DirectConfig(w.net, id), Seed(w, id), w.boot(id)), [])
  }

  /** As in `Medium`, and devices receive only what their groups carry. */
  ghost predicate DirectNext(w: World, g: Global, action: Action, g': Global)
    requires WorldOk(w)
  {
    match action
    case Inject(node) =>
      && IsNeuron(w.net, Id(0, node))
      && g' == g.(history := g.history + [InputMessage(w, node)])
    case Turn(id, received, time) =>
      && IsDevice(w.net, id)
      && (forall m | m in received :: Hears(DirectConfig(w.net, id), m.group))
      && TakesTurn(w.arith, DirectConfig(w.net, id), g, id, received, time, g')
  }

  ghost predicate DirectNextIn(w: World, states: seq<Global>, actions: seq<Action>, i: nat)
    requires WorldOk(w) && i < |actions| && |states| == |actions| + 1
  {
    DirectNext(w, states[i], actions[i], states[i + 1])
  }

  ghost predicate DirectRun(w: World, states: seq<Global>, actions: seq<Action>)
  {
    && DirectWorld(w) && |states| == |actions| + 1
    && states[0] == DirectInit(w)
    && (forall i: nat | i < |actions| :: DirectNextIn(w, states, actions, i))
  }

  /** In this action the device releases its turn. */
  ghost predicate Releases(w: World, g: Global, action: Action, id: Id)
    requires WorldOk(w) && IsNeuron(w.net, id)
  {
    action.Turn? && action.id == id && id in g.devices
    && StallExpired(Listen(w.arith, DirectConfig(w.net, id), g.devices[id], action.received, Clock(action.time)),
                    Clock(action.time))
  }

  // ---- A device without a backup duty speaks for itself ----

  predicate FromSelf(c: NodeConfig, m: Message)
  {
    m.source == c.address && m.group == c.successor
  }

  predicate Solo(c: NodeConfig, s: DeviceState)
  {
    && s.standby.None? && s.retxSubstitute.left == 0 && s.retxReport.left == 0
    && (s.retxOwn.left > 0 ==> FromSelf(c, s.retxOwn.message))
  }

  lemma ListenSolo(a: Arith<Float>, c: NodeConfig, s: DeviceState, ms: seq<Message>, now: u32)
    requires Solo(c, s)
    ensures Solo(c, MaybeReleaseTurn(c, Listen(a, c, s, ms, now), now))
  {
    ReceiveAllFrame(c, s, ms, now);
    hide ReceiveAll, NodeExecute, FromSelf;
  }

  lemma StepSolo(a: Arith<Float>, c: NodeConfig, s: DeviceState, ms: seq<Message>, now: u32)
    requires Solo(c, s)
    ensures var (s', sent) := Step(a, c, s, ms, now); Solo(c, s') && forall m | m in sent :: FromSelf(c, m)
  {
    hide Listen, MaybeReleaseTurn, Speak, Solo, FromSelf;
    ListenSolo(a, c, s, ms, now);
    var spoken := Speak(c, MaybeReleaseTurn(c, Listen(a, c, s, ms, now), now), now).0;
    SpeakSolo(c, MaybeReleaseTurn(c, Listen(a, c, s, ms, now), now), now);
    CloseSolo(c, spoken, now);
  }

  lemma SpeakSolo(c: NodeConfig, s: DeviceState, now: u32)
    requires Solo(c, s)
    ensures var (s', sent) := Speak(c, s, now); Solo(c, s') && forall m | m in sent :: FromSelf(c, m)
  {
    hide Elapsed;
  }

  lemma CloseSolo(c: NodeConfig, s: DeviceState, now: u32)
    requires Solo(c, s)
    ensures Solo(c, MaybeClosePass(s, now))
  {
    hide FromSelf, PassResolved, IdleExpired;
  }

  // ---- A device that hears none of its siblings ----

  /** It has observed nobody and said nothing. */
  predicate Deaf(s: DeviceState)
  {
    && s.standby.None? && s.sched.observed == {} && !s.sched.phase.ReadyToTransmit? && !s.sched.phase.Transmitted?
    && !s.ownOutputSent && s.responder.pending.None?
    && s.retxOwn.left == 0 && s.retxSubstitute.left == 0 && s.retxReport.left == 0
  }

  predicate NoSibling(c: NodeConfig, m: Message)
  {
    m.kind == DATA ==> m.source.layer != c.ownLayer
  }

  lemma {:induction false} ReceiveAllDeaf(c: NodeConfig, s: DeviceState, ms: seq<Message>, now: u32)
    requires Deaf(s) && forall m | m in ms :: NoSibling(c, m)
    ensures Deaf(ReceiveAll(c, s, ms, now))
    decreases |ms|
  {
    if ms != [] {
      hide NodeReceive, Requests, Lock;
      assert NoSibling(c, ms[0]);
      ReceiveAllDeaf(c, DeviceRuntime.Receive(c, s, ms[0], now), ms[1..], now);
    }
  }

  lemma StepDeaf(a: Arith<Float>, c: NodeConfig, s: DeviceState, ms: seq<Message>, now: u32)
    requires Deaf(s) && Bits(c.precedingSiblings) != {} && forall m | m in ms :: NoSibling(c, m)
    requires !StallExpired(Listen(a, c, s, ms, now), now)
    ensures var (s', sent) := Step(a, c, s, ms, now); Deaf(s') && sent == []
  {
    var heard := ReceiveAll(c, s, ms, now);
    ReceiveAllDeaf(c, s, ms, now);
    hide ReceiveAll, NodeExecute, ReadyToExecute, StallExpired;
    var listened := Listen(a, c, s, ms, now);
    assert Deaf(listened);
    assert Deaf(MaybeReleaseTurn(c, listened, now));
  }

  // ---- The terminal layer ----

  /** A sibling's packets never reach the group of the layer itself. */
  predicate LeavesTheLayer(last: nat, m: Message)
  {
    m.source.layer as nat == last ==> m.group == TERMINAL_SENTINEL
  }

  ghost predicate DirectInvariant(w: World, g: Global, id: Id)
    requires WorldOk(w) && IsDevice(w.net, id)
  {
    && (forall other | IsDevice(w.net, other) :: other in g.devices && Solo(DirectConfig(w.net, other), g.devices[other]))
    && (forall m | m in g.history :: LeavesTheLayer(|w.net.layers|, m))
    && id in g.devices && Deaf(g.devices[id])
    && (forall m | m in g.history :: Source(m) != id)
  }

  predicate IsTerminal(net: Network, id: Id)
  {
    IsDevice(net, id) && id.layer == |net.layers| && id.layer > 0
  }

  lemma TerminalConfig(w: World, id: Id)
    requires DirectWorld(w) && IsNeuron(w.net, id)
    ensures var c := DirectConfig(w.net, id);
            && c.address == AddressOf(w.net, id) && c.backup.None? && c.ownLayer as nat == id.layer < 16
            && (id.layer == |w.net.layers| <==> c.successor == TERMINAL_SENTINEL)
            && (id.node > 0 ==> Bits(c.precedingSiblings) != {})
  {
    if id.layer > 0 { assert w.net.layers[id.layer - 1] in w.net.layers; }
    PrecedingOf(w.net, id);
    if id.node > 0 { assert 0 in Range(id.node); }
  }

  lemma InitDirect(w: World, id: Id)
    requires DirectWorld(w) && IsTerminal(w.net, id)
    ensures DirectInvariant(w, DirectInit(w), id)
  {
    forall other | IsDevice(w.net, other)
      ensures Solo(DirectConfig(w.net, other), DirectInit(w).devices[other])
    {
      TerminalConfig(w, other);
    }
    TerminalConfig(w, id);
    hide DirectConfig, Deployable, Solo;
  }

  lemma TurnSolo(w: World, g: Global, turn: Id, received: seq<Message>, now: u32)
    requires DirectWorld(w) && IsDevice(w.net, turn) && turn in g.devices && Solo(DirectConfig(w.net, turn), g.devices[turn])
    ensures var (s', sent) := Step(w.arith, DirectConfig(w.net, turn), g.devices[turn], received, now);
            && Solo(DirectConfig(w.net, turn), s')
            && (forall m | m in sent :: LeavesTheLayer(|w.net.layers|, m) && Source(m) == turn)
  {
    hide Step, DirectConfig, Solo, Deployable;
    TerminalConfig(w, turn);
    var c := DirectConfig(w.net, turn);
    StepSolo(w.arith, c, g.devices[turn], received, now);
    forall m | m in Step(w.arith, c, g.devices[turn], received, now).1
      ensures LeavesTheLayer(|w.net.layers|, m) && Source(m) == turn
    {
      assert FromSelf(c, m);
    }
  }

  lemma TurnDeaf(w: World, g: Global, id: Id, received: seq<Message>, time: nat)
    requires DirectWorld(w) && IsTerminal(w.net, id) && id.node > 0 && DirectInvariant(w, g, id)
    requires forall m | m in received :: m in g.history && Hears(DirectConfig(w.net, id), m.group)
    requires !Releases(w, g, Turn(id, received, time), id)
    ensures var (s', sent) := Step(w.arith, DirectConfig(w.net, id), g.devices[id], received, Clock(time));
            Deaf(s') && sent == []
  {
    hide Step, DirectConfig, Solo, Deployable, Listen, StallExpired, Deaf;
    TerminalConfig(w, id);
    var c := DirectConfig(w.net, id);
    forall m | m in received
      ensures NoSibling(c, m)
    {
      assert LeavesTheLayer(|w.net.layers|, m) && m.group == c.address.layer;
    }
    StepDeaf(w.arith, c, g.devices[id], received, Clock(time));
  }

  lemma NextDirect(w: World, g: Global, action: Action, g': Global, id: Id)
    requires DirectWorld(w) && IsTerminal(w.net, id) && id.node > 0
    requires DirectInvariant(w, g, id) && DirectNext(w, g, action, g') && !Releases(w, g, action, id)
    ensures DirectInvariant(w, g', id)
  {
    hide Step, DirectConfig, Solo, Deaf, Deployable, Hears, Releases;
    match action
    case Inject(node) =>
      assert LeavesTheLayer(|w.net.layers|, InputMessage(w, node));
    case Turn(turn, received, time) =>
      TurnSolo(w, g, turn, received, Clock(time));
      if turn == id { TurnDeaf(w, g, id, received, time); }
  }

  lemma {:induction false} RunDirect(w: World, states: seq<Global>, actions: seq<Action>, id: Id, n: nat)
    requires DirectRun(w, states, actions) && IsTerminal(w.net, id) && id.node > 0 && n <= |actions|
    requires forall i: nat | i < n :: !Releases(w, states[i], actions[i], id)
    ensures DirectInvariant(w, states[n], id)
  {
    hide DirectInvariant, DirectNext, Deployable, Releases;
    if n == 0 {
      InitDirect(w, id);
    } else {
      RunDirect(w, states, actions, id, n - 1);
      assert DirectNextIn(w, states, actions, n - 1);
      NextDirect(w, states[n - 1], actions[n - 1], states[n], id);
    }
  }

  /** In every run of a directly written manifest, whatever is received: an output of a node of
      the terminal layer, other than the first, is on the medium only if that node has released
      its turn. Its turn never comes. */
  lemma TurnNeverComes(w: World, states: seq<Global>, actions: seq<Action>, id: Id, m: Message)
    requires DirectRun(w, states, actions) && IsTerminal(w.net, id) && id.node > 0
    requires m in states[|actions|].history && Source(m) == id
    ensures exists i: nat :: i < |actions| && Releases(w, states[i], actions[i], id)
  {
    hide Releases;
    if forall i: nat | i < |actions| :: !Releases(w, states[i], actions[i], id) {
      RunDirect(w, states, actions, id, |actions|);
    }
  }

  /** The first node of the layer needs no release: it speaks once it has heard its inputs. The
      others do after their stall time. */
  lemma TerminalSpeaks(w: World, id: Id, life: Life, others: seq<Id>)
    requires DirectWorld(w) && IsTerminal(w.net, id)
    requires var c := DirectConfig(w.net, id);
             Lives(w.arith, c, life) && HasInputs(c, others)
    requires Silent(life.state(0)) && !life.state(0).stallArmed
    requires forall other | other in others :: Informed(life, other)
    requires id.node > 0 ==> Ticking(life, TURN_STALL_MS, 0x8000_0000)
    ensures Speaks(w.arith, DirectConfig(w.net, id), life, AddressOf(w.net, id))
  {
    hide Lives, Speaks, Informed, HasInputs;
    var c := DirectConfig(w.net, id);
    TerminalConfig(w, id);
    if id.node > 0 {
      ReleasedSpeaks(w.arith, c, life, others);
    } else {
      PrecedingOf(w.net, id);
      InformedSpeaks(w.arith, c, life, others);
    }
  }
}
