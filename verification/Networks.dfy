/** A network description (`network.json`), the value the centralized evaluator assigns to
    each neuron, and the configuration each neuron's device is meant to hold. */
module Networks {
  import opened Words
  import opened Addresses
  import opened Arithmetic
  import opened InputBuffers
  import opened Nodes
  import opened Failover
  import opened Options

  datatype Activation = Relu | Sigmoid | Tanh | Linear

  /** `NNActivationType`. */
  function Code(activation: Activation): u8
  {
    match activation case Relu => 0 case Sigmoid => 1 case Tanh => 2 case Linear => 3
  }

  datatype LayerSpec = LayerSpec(
    nodes: nat,
    activation: Activation,
    weights: seq<seq<Float>>,
    bias: Option<seq<Float>>,
    backups: map<int, int>,
    resendGraceMs: Option<nat>)

  datatype Network = Network(inputSize: nat, inputValues: Option<seq<Float>>, layers: seq<LayerSpec>)

  /** A neuron: layer 0 is the input feed, layer `l` is `layers[l - 1]`. */
  datatype Id = Id(layer: nat, node: nat)

  const DEFAULT_GRACE_MS: nat := 50

  function Width(net: Network, layer: nat): nat
    requires layer <= |net.layers|
  {
    if layer == 0 then net.inputSize else net.layers[layer - 1].nodes
  }

  predicate IsNeuron(net: Network, id: Id)
  {
    id.layer <= |net.layers| && id.node < Width(net, id.layer)
  }

  predicate LayerShape(spec: LayerSpec, predecessors: nat)
  {
    && |spec.weights| == spec.nodes
    && (forall row | row in spec.weights :: |row| == predecessors)
    && (spec.bias.Some? ==> |spec.bias.value| == spec.nodes)
    && (forall b | b in spec.backups :: 0 <= b < spec.nodes && 0 <= spec.backups[b] < spec.nodes && b != spec.backups[b])
  }

  /** Everything `build_devices` checks about the network itself. */
  predicate ShapeValid(net: Network)
  {
    && (net.inputValues.Some? ==> |net.inputValues.value| == net.inputSize)
    && (forall l: nat {:trigger LayerShape(net.layers[l], Width(net, l))} |
          l < |net.layers| :: LayerShape(net.layers[l], Width(net, l)))
  }

  /** The address-field limits of `constraints.py`, and the width of the wire field
      that carries the grace period. */
  predicate Deployable(net: Network)
  {
    && ShapeValid(net)
    && |net.layers| < 16
    && (forall l: nat | l <= |net.layers| :: Width(net, l) <= MAX_PREDECESSORS)
    && (forall l: nat {:trigger GraceMs(net.layers[l])} | l < |net.layers| :: GraceMs(net.layers[l]) < 0x1_0000_0000)
  }

  function BiasOf(spec: LayerSpec, node: nat): Float
    requires spec.bias.Some? ==> node < |spec.bias.value|
  {
    if spec.bias.Some? then spec.bias.value[node] else 0
  }

  function GraceMs(spec: LayerSpec): nat
  {
    if spec.resendGraceMs.Some? then spec.resendGraceMs.value else DEFAULT_GRACE_MS
  }

  // ---- The centralized evaluator ----

  predicate InputsFor(net: Network, inputs: seq<Float>)
  {
    |inputs| == net.inputSize && (net.inputValues.Some? ==> inputs == net.inputValues.value)
  }

  /** The function a layer names. */
  function Named<F>(curves: Curves<F>, activation: Activation, x: F): F
  {
    match activation
    case Relu => curves.relu(x)
    case Sigmoid => curves.sigmoid(x)
    case Tanh => curves.tanh(x)
    case Linear => x
  }

  /** A device set to a name's number applies the function of that name. */
  lemma CodeMeansName<F>(a: Arith<F>, activation: Activation, bias: F, values: seq<F>, weights: seq<F>)
    ensures forall x: F :: Activate(a.curves, Code(activation) as nat, x) == Named(a.curves, activation, x)
    ensures Neuron(a, Code(activation) as nat, bias, values, weights) == Named(a.curves, activation, Dot(a, bias, values, weights))
  {
  }

  /** The outputs of a whole layer, with the device's order of operations in each neuron and the
      function its layer names. */
  function Values(a: Arith<Float>, net: Network, inputs: seq<Float>, layer: nat): (values: seq<Float>)
    requires ShapeValid(net) && InputsFor(net, inputs) && layer <= |net.layers|
    ensures |values| == Width(net, layer)
  {
    if layer == 0 then inputs
    else
      var spec, previous := net.layers[layer - 1], Values(a, net, inputs, layer - 1);
      seq(spec.nodes, n requires 0 <= n < spec.nodes && LayerShape(spec, |previous|) =>
        Named(a.curves, spec.activation, Dot(a, BiasOf(spec, n), previous, spec.weights[n])))
  }

  function Value(a: Arith<Float>, net: Network, inputs: seq<Float>, id: Id): Float
    requires ShapeValid(net) && InputsFor(net, inputs) && IsNeuron(net, id)
  {
    Values(a, net, inputs, id.layer)[id.node]
  }

  // ---- The configuration of a neuron's device ----

  predicate HasBackup(net: Network, id: Id)
    requires IsNeuron(net, id)
  {
    id.layer > 0 && id.node in net.layers[id.layer - 1].backups
  }

  function BackupTarget(net: Network, id: Id): (target: nat)
    requires ShapeValid(net) && IsNeuron(net, id) && HasBackup(net, id)
    ensures IsNeuron(net, Id(id.layer, target)) && target != id.node
  {
    assert LayerShape(net.layers[id.layer - 1], Width(net, id.layer - 1));
    net.layers[id.layer - 1].backups[id.node]
  }

  function AddressOf(net: Network, id: Id): Address
    requires Deployable(net) && IsNeuron(net, id)
  {
    assert Width(net, id.layer) <= MAX_PREDECESSORS;
    Address(id.node, id.layer, 0, 0)
  }

  function RoleOf(net: Network, id: Id): BackupRole
    requires Deployable(net) && IsNeuron(net, id) && HasBackup(net, id)
  {
    var spec, target := net.layers[id.layer - 1], BackupTarget(net, id);
    assert LayerShape(spec, Width(net, id.layer - 1));
    BackupRole(AddressOf(net, Id(id.layer, target)), Ones(Width(net, id.layer - 1)), Code(spec.activation),
               spec.weights[target], BiasOf(spec, target), GraceMs(spec), Ones(spec.nodes), id.layer - 1)
  }

  function ConfigOf(net: Network, id: Id): NodeConfig
    requires Deployable(net) && IsNeuron(net, id)
  {
    var address := AddressOf(net, id);
    if id.layer == 0 then
      NodeConfig(address, 0, 1, id.node, Code(Linear), [], 0, 0, 0, Ones(id.node), None)
    else
      var spec := net.layers[id.layer - 1];
      assert LayerShape(spec, Width(net, id.layer - 1));
      NodeConfig(address, Ones(Width(net, id.layer - 1)), id.layer + 1, id.node, Code(spec.activation),
                 spec.weights[id.node], BiasOf(spec, id.node), id.layer - 1, id.layer, Ones(id.node),
                 if HasBackup(net, id) then Some(RoleOf(net, id)) else None)
  }

  /** Is there a physical device for this neuron? Inputs are devices only with `inputValues`. */
  predicate IsDevice(net: Network, id: Id)
  {
    IsNeuron(net, id) && (id.layer > 0 || net.inputValues.Some?)
  }

  lemma PredecessorsOf(net: Network, id: Id)
    requires Deployable(net) && IsNeuron(net, id) && id.layer > 0
    ensures var c := ConfigOf(net, id);
            Bits(c.predecessors) == Range(Width(net, id.layer - 1)) && c.predecessorLayer == id.layer - 1
  {
    var width := Width(net, id.layer - 1);
    assert width <= 16;
    BitsOnes(width);
    hide ShapeValid, Deployable, Bits, Ones;
  }

  lemma PrecedingOf(net: Network, id: Id)
    requires Deployable(net) && IsNeuron(net, id)
    ensures var c := ConfigOf(net, id);
            && Bits(c.precedingSiblings) == Range(id.node)
            && c.address.node == id.node && c.address.layer == id.layer && c.ownLayer == id.layer
            && c.backup.Some? == HasBackup(net, id)
  {
    assert Width(net, id.layer) <= 16;
    BitsOnes(id.node);
    hide ShapeValid, Deployable, Bits, Ones;
  }

  /** The siblings a standby waits for before it asks: all but itself and its target. */
  lemma RosterOf(net: Network, id: Id)
    requires Deployable(net) && IsNeuron(net, id) && HasBackup(net, id)
    ensures var c, role := ConfigOf(net, id), RoleOf(net, id);
            && c.backup == Some(role) && c.address.layer == id.layer
            && role.target.layer == id.layer && role.target.node == BackupTarget(net, id)
            && Others(c, role) == Range(Width(net, id.layer)) - {id.node, BackupTarget(net, id)}
  {
    var width := Width(net, id.layer);
    assert width <= 16;
    BitsOnes(width);
    hide ShapeValid, Deployable, Bits, Ones;
  }

  /** Every backup role copies its target's own configuration. */
  lemma RolesMirror(net: Network, id: Id)
    requires Deployable(net) && IsNeuron(net, id) && HasBackup(net, id)
    ensures Mirrors(RoleOf(net, id), ConfigOf(net, Id(id.layer, BackupTarget(net, id))))
  {
    var target := Id(id.layer, BackupTarget(net, id));
    var spec := net.layers[id.layer - 1];
    assert LayerShape(spec, Width(net, id.layer - 1));
    assert target.node < |spec.weights| && (spec.bias.Some? ==> target.node < |spec.bias.value|);
    hide ShapeValid, LayerShape, Deployable, Ones;
    var role, c := RoleOf(net, id), ConfigOf(net, target);
    assert role.target == c.address;
    assert role.weights == c.weights;
    assert role.bias == c.bias;
  }

  /** Slots holding the previous layer's values make a neuron compute its own value. */
  lemma OutputIsValue(a: Arith<Float>, net: Network, inputs: seq<Float>, id: Id, slots: Slots)
    requires Deployable(net) && InputsFor(net, inputs) && IsNeuron(net, id) && id.layer > 0
    requires var previous := Values(a, net, inputs, id.layer - 1);
             forall i: nat | i < |previous| :: i in slots && slots[i] == [previous[i]]
    ensures var c := ConfigOf(net, id);
            Output(a, c.predecessors, c.activation, c.bias, c.weights, slots) == Value(a, net, inputs, id)
  {
    var previous := Values(a, net, inputs, id.layer - 1);
    var width := Width(net, id.layer - 1);
    assert |previous| == width <= MAX_PREDECESSORS;
    assert Gather(slots, Bits(Ones(width)), 0) == previous by {
      BitsOnes(width);
      GatherLayer(slots, previous, 0);
    }
    var spec, c := net.layers[id.layer - 1], ConfigOf(net, id);
    assert LayerShape(spec, width);
    assert Value(a, net, inputs, id)
        == Named(a.curves, spec.activation, Dot(a, BiasOf(spec, id.node), previous, spec.weights[id.node]));
    CodeMeansName(a, spec.activation, BiasOf(spec, id.node), previous, spec.weights[id.node]);
  }
}
