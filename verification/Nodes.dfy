/** One neuron on one device (`NNNode.h`). */
module Nodes {
  import opened Words
  import opened Addresses
  import opened Arithmetic
  import opened Messages
  import opened InputBuffers
  import opened Options

  /** The backup duty of `NNNodeConfig`: a copy of what the target needs to compute. */
  datatype BackupRole = BackupRole(
    target: Address,
    predecessors: u16,
    activation: u8,
    weights: seq<Float>,
    bias: Float,
    resendGraceMs: u32,
    layerRoster: u16,
    predecessorLayer: u8)

  /** `NNNodeConfig` and `NNWindowConfig`: everything a device knows about itself. */
  datatype NodeConfig = NodeConfig(
    address: Address,
    predecessors: u16,
    successor: u8,
    transmitSlot: u8,
    activation: u8,
    weights: seq<Float>,
    bias: Float,
    predecessorLayer: u8,
    ownLayer: u8,
    precedingSiblings: u16,
    backup: Option<BackupRole>)

  datatype NodeState = NodeState(slots: Slots, hasExecuted: bool, output: Float)

  const FRESH_NODE := NodeState(map[], false, 0)

  function NodeReceive(c: NodeConfig, s: NodeState, m: Message): NodeState
  {
    if m.source.layer != c.predecessorLayer then s
    else s.(slots := Store(s.slots, m.source.node, m.values))
  }

  predicate ReadyToExecute(c: NodeConfig, s: NodeState)
  {
    !s.hasExecuted && Complete(s.slots, c.predecessors)
  }

  /** What a neuron with these parameters computes from these slots. */
  function Output(a: Arith<Float>, predecessors: u16, activation: u8, bias: Float, weights: seq<Float>, slots: Slots): Float
  {
    Neuron(a, activation, bias, Gather(slots, Bits(predecessors), 0), weights)
  }

  function NodeExecute(a: Arith<Float>, c: NodeConfig, s: NodeState): NodeState
  {
    s.(output := Output(a, c.predecessors, c.activation, c.bias, c.weights, s.slots), hasExecuted := true)
  }

  function Seeded(s: NodeState, value: Float): NodeState
  {
    s.(output := value, hasExecuted := true)
  }

  function OutputMessage(c: NodeConfig, s: NodeState): Message
  {
    Message(c.address, c.successor, DATA, 0, [s.output])
  }

  /** What a node sends, a node of the next layer takes in as that sender's only value,
      whatever it held for that sender before, and it disturbs no other sender. */
  lemma OutputBecomesInput(c: NodeConfig, s: NodeState, next: NodeConfig, t: NodeState)
    requires next.predecessorLayer == c.address.layer
    ensures NodeReceive(next, t, OutputMessage(c, s)) == t.(slots := t.slots[c.address.node as nat := [s.output]])
    ensures forall other: NodeConfig | other.predecessorLayer != c.address.layer ::
              NodeReceive(other, t, OutputMessage(c, s)) == t
  {
  }

  /** `NNNode`. */
  class Node {
    const config: NodeConfig
    const arith: Arith<Float>
    const inputBuffer: InputBuffer
    var hasExecuted: bool
    var outputValue: Float

    ghost function Footprint(): set<object>
    {
      {this} + inputBuffer.Footprint()
    }

    ghost predicate Valid()
      reads Footprint()
    {
      inputBuffer.Valid()
    }

    ghost function State(): NodeState
      requires Valid()
      reads Footprint()
    {
      NodeState(inputBuffer.State(), hasExecuted, outputValue)
    }

    constructor (config: NodeConfig, arith: Arith<Float>)
      ensures Valid() && State() == FRESH_NODE
      ensures this.config == config && this.arith == arith
      ensures fresh(Footprint())
    {
      this.config := config;
      this.arith := arith;
      inputBuffer := new InputBuffer();
      hasExecuted, outputValue := false, 0;
    }

    method OnPacketReceived(m: Message)
      requires Valid()
      modifies Footprint()
      ensures Valid() && State() == NodeReceive(config, old(State()), m)
    {
      if m.source.layer != config.predecessorLayer { return; }
      var _ := inputBuffer.StoreInput(m.source.node, m.values);
    }

    method IsReadyToExecute() returns (ready: bool)
      requires Valid()
      ensures ready == ReadyToExecute(config, State())
    {
      ready := inputBuffer.IsComplete(config.predecessors);
      ready := !hasExecuted && ready;
    }

    method Execute()
      requires Valid()
      modifies this
      ensures Valid() && State() == NodeExecute(arith, config, old(State()))
    {
      var sum := inputBuffer.WeightedSum(arith, config.predecessors, config.bias, config.weights);
      outputValue := Activate(arith.curves, config.activation, sum);
      hasExecuted := true;
    }

    method SeedOutput(value: Float)
      requires Valid()
      modifies this
      ensures Valid() && State() == Seeded(old(State()), value)
    {
      outputValue := value;
      hasExecuted := true;
    }

    method BuildOutputPacket() returns (m: Message)
      requires Valid()
      ensures m == OutputMessage(config, State())
    {
      m := Message(config.address, config.successor, DATA, 0, [outputValue]);
    }

    method ResetForNextPass()
      requires Valid()
      modifies Footprint()
      ensures Valid() && State() == FRESH_NODE
    {
      inputBuffer.Reset();
      hasExecuted := false;
      outputValue := 0;
    }
  }
}
