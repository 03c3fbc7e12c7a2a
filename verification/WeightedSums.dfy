/** The weighted sum of a neuron, for any predecessor mask and however its inputs arrive. */
module WeightedSums {
  import opened Words
  import opened Arithmetic
  import opened Messages
  import opened InputBuffers
  import opened Nodes

  function ReceiveEach(c: NodeConfig, s: NodeState, ms: seq<Message>): NodeState
    decreases |ms|
  {
    if ms == [] then s else ReceiveEach(c, NodeReceive(c, s, ms[0]), ms[1..])
  }

  /** The packets that count: from the layer this node listens to. */
  function Senders(c: NodeConfig, ms: seq<Message>): set<nat>
  {
    set m | m in ms && m.source.layer == c.predecessorLayer :: m.source.node as nat
  }

  /** Each sender sends the same values every time; other layers may send anything. */
  predicate Consistent(c: NodeConfig, ms: seq<Message>, values: nat -> seq<Float>)
  {
    forall m | m in ms && m.source.layer == c.predecessorLayer ::
      m.values == values(m.source.node) && |m.values| <= MAX_PAYLOAD_FLOATS
  }

  function SlotsFor(senders: set<nat>, values: nat -> seq<Float>): Slots
  {
    map i | i in senders :: values(i)
  }

  lemma {:induction false} SlotsAreSenders(c: NodeConfig, s: NodeState, have: set<nat>, ms: seq<Message>, values: nat -> seq<Float>)
    requires s.slots == SlotsFor(have, values) && Consistent(c, ms, values)
    ensures ReceiveEach(c, s, ms) == s.(slots := SlotsFor(have + Senders(c, ms), values))
    decreases |ms|
  {
    if ms == [] {
      assert have + Senders(c, ms) == have;
    } else {
      var m := ms[0];
      var mine := if m.source.layer == c.predecessorLayer then {m.source.node as nat} else {};
      assert m in ms;
      assert NodeReceive(c, s, m).slots == SlotsFor(have + mine, values);
      SlotsAreSenders(c, NodeReceive(c, s, m), have + mine, ms[1..], values);
      assert ms == [m] + ms[1..];
      assert have + mine + Senders(c, ms[1..]) == have + Senders(c, ms);
    }
  }

  /** Two deliveries of the same inputs, in whatever order, however often, and mixed with
      whatever other layers send, leave a node in the same state. */
  lemma ArrivalDoesNotMatter(c: NodeConfig, ms: seq<Message>, ms': seq<Message>, values: nat -> seq<Float>)
    requires Consistent(c, ms, values) && Consistent(c, ms', values) && Senders(c, ms) == Senders(c, ms')
    ensures ReceiveEach(c, FRESH_NODE, ms) == ReceiveEach(c, FRESH_NODE, ms')
  {
    assert FRESH_NODE.slots == SlotsFor({}, values);
    SlotsAreSenders(c, FRESH_NODE, {}, ms, values);
    SlotsAreSenders(c, FRESH_NODE, {}, ms', values);
  }

  /** With one value per sender and as many weights as predecessors, the executed sum runs over
      one value per weight, and sender `s` meets the weight whose index is the number of
      smaller predecessors -- for contiguous and scattered masks alike. */
  lemma EveryInputMeetsItsWeight(a: Arith<Float>, c: NodeConfig, ms: seq<Message>, values: nat -> seq<Float>, s: nat)
    requires Consistent(c, ms, values) && Bits(c.predecessors) <= Senders(c, ms)
    requires forall i | i in Bits(c.predecessors) :: |values(i)| == 1
    requires |c.weights| == CountBelow(Bits(c.predecessors), 0, MAX_PREDECESSORS)
    requires s in Bits(c.predecessors)
    ensures var state := ReceiveEach(c, FRESH_NODE, ms);
            var inputs, k := Gather(state.slots, Bits(c.predecessors), 0), CountBelow(Bits(c.predecessors), 0, s);
            && ReadyToExecute(c, state)
            && NodeExecute(a, c, state).output == Neuron(a, c.activation, c.bias, inputs, c.weights)
            && |inputs| == |c.weights| && k < |inputs| && inputs[k] == values(s)[0]
  {
    var state, mask := ReceiveEach(c, FRESH_NODE, ms), Bits(c.predecessors);
    assert FRESH_NODE.slots == SlotsFor({}, values);
    SlotsAreSenders(c, FRESH_NODE, {}, ms, values);
    assert {} + Senders(c, ms) == Senders(c, ms);
    forall i | i in mask
      ensures Input(state.slots, i) == values(i)
    {
    }
    GatherLength(state.slots, mask, 0);
    GatherAt(state.slots, mask, 0, s);
  }
}
