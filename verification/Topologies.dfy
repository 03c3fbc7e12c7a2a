/** The mapper's own expansion of a model (`topology.py`): one node dictionary per neuron, by
    layer, input layer included. */
module Topologies {
  import opened Words
  import opened Networks
  import opened Manifests
  import opened Options

  /** `LayerSpec` and `ModelSpec` of `model_io.py`; layer 0 is the input layer. */
  datatype ModelLayer = ModelLayer(size: nat, activation: Activation, weights: seq<seq<Float>>, bias: seq<Float>)

  datatype Model = Model(layers: seq<ModelLayer>)

  predicate LayerFits(m: Model, l: nat)
    requires 0 < l < |m.layers|
  {
    && |m.layers[l].weights| == m.layers[l].size && |m.layers[l].bias| == m.layers[l].size
    && (forall row | row in m.layers[l].weights :: |row| == m.layers[l - 1].size)
  }

  /** What `load_model` has checked. */
  predicate ModelValid(m: Model)
  {
    |m.layers| >= 2 && forall l: nat | 0 < l < |m.layers| :: LayerFits(m, l)
  }

  datatype NodeDict = NodeDict(
    nodeId: nat,
    layerId: nat,
    predecessors: nat,
    predecessorLayer: nat,
    precedingSiblings: nat,
    successor: Option<nat>,
    transmitSlot: nat,
    activation: Activation,
    weights: seq<Float>,
    weightCount: nat,
    bias: Float,
    isInput: bool,
    hardwareId: Option<nat>)

  function SuccessorOf(m: Model, layer: nat): Option<nat>
  {
    if layer + 1 < |m.layers| then Some(layer + 1) else None
  }

  function InputNode(m: Model, node: nat): NodeDict
  {
    NodeDict(node, 0, 0, 0, LowBits(node), SuccessorOf(m, 0), node, Linear, [], 0, 0, true, None)
  }

  function ComputeNode(m: Model, layer: nat, node: nat): NodeDict
    requires ModelValid(m) && 0 < layer < |m.layers| && node < m.layers[layer].size
  {
    assert LayerFits(m, layer);
    var l := m.layers[layer];
    NodeDict(node, layer, LowBits(m.layers[layer - 1].size), layer - 1, LowBits(node), SuccessorOf(m, layer), node,
             l.activation, l.weights[node], |l.weights[node]|, l.bias[node], false, None)
  }

  function InputLayer(m: Model): (nodes: seq<NodeDict>)
    requires ModelValid(m)
    ensures |nodes| == m.layers[0].size && forall n | 0 <= n < |nodes| :: nodes[n] == InputNode(m, n)
  {
    seq(m.layers[0].size, n requires 0 <= n => InputNode(m, n))
  }

  function NodesOf(m: Model, layer: nat): (nodes: seq<NodeDict>)
    requires ModelValid(m) && layer < |m.layers|
    ensures |nodes| == m.layers[layer].size
  {
    if layer == 0 then InputLayer(m)
    else seq(m.layers[layer].size, n requires 0 <= n < m.layers[layer].size => ComputeNode(m, layer, n))
  }

  method BuildComputeLayer(m: Model, layer: nat) returns (nodes: seq<NodeDict>)
    requires ModelValid(m) && 0 < layer < |m.layers|
    ensures nodes == NodesOf(m, layer)
  {
    nodes := [];
    assert LayerFits(m, layer);
    var mask := LowBits(m.layers[layer - 1].size);
    var spec := m.layers[layer];
    for node := 0 to spec.size
      invariant |nodes| == node
      invariant forall n: nat | n < node :: nodes[n] == ComputeNode(m, layer, n)
    {
      var weights := spec.weights[node];
      nodes := nodes + [NodeDict(node, layer, mask, layer - 1, LowBits(node),
                                 if layer + 1 < |m.layers| then Some(layer + 1) else None, node, spec.activation, weights,
                                 |weights|, spec.bias[node], false, None)];
    }
  }

  /** What every node dictionary says: who it is, its row and bias, whom it listens to and waits
      for; the last layer has no successor, and input nodes have nothing to compute. */
  lemma NodeSays(m: Model, layer: nat, node: nat)
    requires ModelValid(m) && layer < |m.layers| && node < m.layers[layer].size <= 16
    requires layer > 0 ==> m.layers[layer - 1].size <= 16
    ensures var n := NodesOf(m, layer)[node];
            && n.nodeId == node && n.layerId == layer && n.transmitSlot == node && n.hardwareId.None?
            && n.precedingSiblings < 0x1_0000 && (forall j: nat :: j in Bits(n.precedingSiblings) <==> j < node)
            && n.successor == (if layer + 1 == |m.layers| then None else Some(layer + 1))
            && (n.isInput <==> layer == 0)
            && (layer == 0 ==> n.predecessors == 0 && n.predecessorLayer == 0 && n.activation == Linear
                               && n.weights == [] && n.weightCount == 0 && n.bias == 0)
            && (layer > 0 ==>
                  && n.predecessors < 0x1_0000
                  && (forall i: nat :: i in Bits(n.predecessors) <==> i < m.layers[layer - 1].size)
                  && LayerFits(m, layer) && n.weights == m.layers[layer].weights[node]
                  && n.bias == m.layers[layer].bias[node]
                  && n.predecessorLayer == layer - 1 && n.activation == m.layers[layer].activation
                  && n.weightCount == |n.weights| == m.layers[layer - 1].size)
  {
    MaskOf(node);
    if layer > 0 {
      MaskOf(m.layers[layer - 1].size);
      assert LayerFits(m, layer);
      assert m.layers[layer].weights[node] in m.layers[layer].weights;
    }
    hide LowBits, Bits;
  }

  lemma FirstLayer(m: Model)
    requires ModelValid(m)
    ensures NodesOf(m, 0) == InputLayer(m) && |m.layers| >= 2
  {
  }

  /** `build_topology`. */
  method BuildTopology(m: Model) returns (layers: map<nat, seq<NodeDict>>)
    requires ModelValid(m)
    ensures forall l: nat :: l in layers <==> l < |m.layers|
    ensures forall l: nat | l < |m.layers| :: layers[l] == NodesOf(m, l)
  {
    FirstLayer(m);
    hide NodesOf, InputLayer, ModelValid, LowBits;
    layers := map[0 := InputLayer(m)];
    for layer := 1 to |m.layers|
      invariant forall l: nat :: l in layers <==> l < layer
      invariant forall l: nat | l < layer :: layers[l] == NodesOf(m, l)
    {
      var nodes := BuildComputeLayer(m, layer);
      layers := layers[layer := nodes];
    }
  }
}
