/** The whole system as a transition system: every device with its state, and the history
    of all packets ever put on the multicast medium. */
module Medium {
  import opened Words
  import opened Arithmetic
  import opened Messages
  import opened Nodes
  import opened Networks
  import opened DeviceRuntime
  import opened Options

  /** What is fixed during a run. `boot` is each device's clock when it starts. */
  datatype World = World(net: Network, inputs: seq<Float>, arith: Arith<Float>, boot: Id -> u32)

  ghost predicate WorldOk(w: World)
  {
    Deployable(w.net) && InputsFor(w.net, w.inputs)
  }

  type Devices = imap<Id, DeviceState>

  datatype Global = Global(devices: Devices, history: seq<Message>)

  /** `time` is the true time of the turn; the device sees it modulo 2^32. */
  datatype Action = Inject(node: nat) | Turn(id: Id, received: seq<Message>, time: nat)

  function Clock(time: nat): u32
  {
    time % 0x1_0000_0000
  }

  /** `INPUT_VALUE` is sent to physical input devices only. */
  ghost function Seed(w: World, id: Id): Option<Float>
    requires WorldOk(w) && IsNeuron(w.net, id)
  {
    if id.layer == 0 then Some(w.inputs[id.node]) else None
  }

  ghost function Init(w: World): Global
    requires WorldOk(w)
  {
    Global(imap id | IsDevice(w.net, id) :: Start(ConfigOf(w.net, id), Seed(w, id), w.boot(id)), [])
  }

  ghost function InputMessage(w: World, node: nat): Message
    requires WorldOk(w) && IsNeuron(w.net, Id(0, node))
  {
    Message(AddressOf(w.net, Id(0, node)), 1, DATA, 0, [w.inputs[node]])
  }

  /** Device `id`, configured as `c`, takes a turn. */
  ghost predicate TakesTurn(a: Arith<Float>, c: NodeConfig, g: Global, id: Id, received: seq<Message>, time: nat, g': Global)
  {
    && id in g.devices
    && (forall m | m in received :: m in g.history)
    && var (state, sent) := Step(a, c, g.devices[id], received, Clock(time));
       g' == Global(g.devices[id := state], g.history + sent)
  }

  /** One transition is one device's call of `runRuntimeStep`, receiving any finite sequence
      of packets from the history: a packet may be lost (never received), duplicated,
      reordered and delayed without bound. A crashed device is one that takes no more turns.
      The laptop injects the input vector as DATA packets from layer 0, at any time and any
      number of times. */
  ghost predicate Next(w: World, g: Global, action: Action, g': Global)
    requires WorldOk(w)
  {
    match action
    case Inject(node) =>
      && IsNeuron(w.net, Id(0, node))
      && g' == g.(history := g.history + [InputMessage(w, node)])
    case Turn(id, received, time) =>
      IsDevice(w.net, id) && TakesTurn(w.arith, ConfigOf(w.net, id), g, id, received, time, g')
  }

  ghost predicate NextIn(w: World, states: seq<Global>, actions: seq<Action>, i: nat)
    requires WorldOk(w) && i < |actions| && |states| == |actions| + 1
  {
    Next(w, states[i], actions[i], states[i + 1])
  }

  ghost predicate IsRun(w: World, states: seq<Global>, actions: seq<Action>)
  {
    && WorldOk(w)
    && |states| == |actions| + 1
    && states[0] == Init(w)
    && (forall i: nat | i < |actions| :: NextIn(w, states, actions, i))
  }

  lemma RunPrefix(w: World, states: seq<Global>, actions: seq<Action>)
    requires IsRun(w, states, actions) && actions != []
    ensures var n := |actions| - 1;
            IsRun(w, states[..n + 1], actions[..n]) && Next(w, states[n], actions[n], states[n + 1])
  {
    var n := |actions| - 1;
    var states', actions' := states[..n + 1], actions[..n];
    assert NextIn(w, states, actions, n);
    forall i: nat | i < n
      ensures NextIn(w, states', actions', i)
    {
      assert NextIn(w, states, actions, i);
    }
  }

  function Source(m: Message): Id
  {
    Id(m.source.layer, m.source.node)
  }
}
