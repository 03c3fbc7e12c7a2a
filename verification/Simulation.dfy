/** The mapper's reference simulator (`simulate.py`) over exact numbers, and its agreement with
    the evaluator the devices are proved against.

    The simulator adds the bias last and the device adds it first, so the two agree only
    where addition is associative and commutative; activation functions stay uninterpreted
    on both sides. */
module Simulation {
  import opened Words
  import opened Arithmetic
  import opened Networks
  import opened Manifests
  import opened Topologies
  import opened Codegen

  function Denoted<F>(denote: Float -> F, xs: seq<Float>): (r: seq<F>)
    ensures |r| == |xs| && forall i | 0 <= i < |xs| :: r[i] == denote(xs[i])
  {
    seq(|xs|, i requires 0 <= i < |xs| => denote(xs[i]))
  }

  /** The evaluator with any arithmetic, on what the weights and biases denote. */
  function Evaluate<F>(a: Arith<F>, denote: Float -> F, net: Network, inputs: seq<F>, layer: nat): (values: seq<F>)
    requires ShapeValid(net) && |inputs| == net.inputSize && layer <= |net.layers|
    ensures |values| == Width(net, layer)
  {
    if layer == 0 then inputs
    else
      var spec, previous := net.layers[layer - 1], Evaluate(a, denote, net, inputs, layer - 1);
      seq(spec.nodes, n requires 0 <= n < spec.nodes && LayerShape(spec, |previous|) =>
        Named(a.curves, spec.activation, Dot(a, denote(BiasOf(spec, n)), previous, Denoted(denote, spec.weights[n]))))
  }

  /** On the devices' own numbers this is the evaluator of module `Networks`. */
  lemma {:induction false} ValuesAreEvaluated(a: Arith<Float>, net: Network, inputs: seq<Float>, layer: nat)
    requires ShapeValid(net) && InputsFor(net, inputs) && layer <= |net.layers|
    ensures Evaluate(a, (x: Float) => x, net, inputs, layer) == Values(a, net, inputs, layer)
  {
    if layer > 0 {
      hide Dot, Named;
      var spec, previous := net.layers[layer - 1], Values(a, net, inputs, layer - 1);
      ValuesAreEvaluated(a, net, inputs, layer - 1);
      assert LayerShape(spec, |previous|);
      hide ShapeValid, LayerShape;
      forall n | 0 <= n < spec.nodes
        ensures Evaluate(a, (x: Float) => x, net, inputs, layer)[n] == Values(a, net, inputs, layer)[n]
      {
        assert Denoted((x: Float) => x, spec.weights[n]) == spec.weights[n];
      }
    }
  }

  // ---- simulate_all ----

  type Outputs = map<(nat, nat), real>

  /** `_activation`, by name: the last case is linear. */
  method ActivationNamed(curves: Curves<real>, name: Activation, x: real) returns (y: real)
    ensures y == Named(curves, name, x)
  {
    if name == Relu { return curves.relu(x); }
    if name == Sigmoid { return curves.sigmoid(x); }
    if name == Tanh { return curves.tanh(x); }
    y := x;
  }

  /** `[outputs[(pred, s)] for s in range(16) if mask & (1 << s)]`. */
  method Gathered(outputs: Outputs, layer: nat, mask: nat, ghost values: seq<real>) returns (r: seq<real>)
    requires |values| <= 16 && mask == LowBits(|values|)
    requires forall s: nat | s < |values| :: (layer, s) in outputs && outputs[(layer, s)] == values[s]
    ensures r == values
  {
    r := [];
    for sender := 0 to 16
      invariant r == values[..if sender < |values| then sender else |values|]
    {
      TestOnes(|values|, sender);
      if Test(mask, sender) { r := r + [outputs[(layer, sender)]]; }
    }
  }

  /** `sum(v * w for v, w in zip(values, weights))`. */
  method SumProducts(values: seq<real>, weights: seq<real>) returns (sum: real)
    ensures sum == SumOfProducts(0.0, values, weights)
  {
    sum := 0.0;
    var i := 0;
    assert values[0..] == values && weights[0..] == weights;
    while i < |values| && i < |weights|
      invariant i <= |values| && i <= |weights|
      invariant SumOfProducts(0.0, values, weights) == SumOfProducts(sum, values[i..], weights[i..])
    {
      assert values[i..][1..] == values[i + 1..] && weights[i..][1..] == weights[i + 1..];
      sum := sum + values[i] * weights[i];
      i := i + 1;
    }
  }

  /** A layer of a model under the evaluator over exact numbers. */
  function Exact(m: Model, denote: Float -> real, curves: Curves<real>, inputs: seq<real>, layer: nat): (values: seq<real>)
    requires ModelValid(m) && ShapeValid(Plain(m)) && |inputs| == m.layers[0].size && layer < |m.layers|
    ensures |values| == m.layers[layer].size
  {
    PlainWidth(m, layer);
    Evaluate(Reals(curves), denote, Plain(m), inputs, layer)
  }

  /** What the simulator is right about so far. */
  predicate RightUpTo(m: Model, denote: Float -> real, curves: Curves<real>, inputs: seq<real>,
                      outputs: Outputs, layer: nat, node: nat)
    requires ModelValid(m) && ShapeValid(Plain(m)) && |inputs| == m.layers[0].size
  {
    forall l: nat, n: nat {:trigger (l, n) in outputs} |
      l < |m.layers| && n < m.layers[l].size && (l < layer || (l == layer && n < node)) ::
      (l, n) in outputs && outputs[(l, n)] == Exact(m, denote, curves, inputs, l)[n]
  }

  lemma EvaluateStep<F>(a: Arith<F>, denote: Float -> F, net: Network, inputs: seq<F>, layer: nat, node: nat)
    requires ShapeValid(net) && |inputs| == net.inputSize && 0 < layer <= |net.layers|
    requires var spec := net.layers[layer - 1];
             node < spec.nodes && LayerShape(spec, Width(net, layer - 1))
    ensures var spec := net.layers[layer - 1];
            Evaluate(a, denote, net, inputs, layer)[node]
            == Named(a.curves, spec.activation,
                     Dot(a, denote(BiasOf(spec, node)), Evaluate(a, denote, net, inputs, layer - 1),
                         Denoted(denote, spec.weights[node])))
  {
    hide ShapeValid, Dot, Named;
  }

  /** The layer dictionary and the node dictionary say the same of a neuron. */
  lemma SameNeuron(m: Model, layer: nat, node: nat)
    requires ModelValid(m) && 0 < layer < |m.layers| && node < m.layers[layer].size
    ensures |Plain(m).layers| == |m.layers| - 1
    ensures var spec, n := Plain(m).layers[layer - 1], ComputeNode(m, layer, node);
            && spec.nodes == m.layers[layer].size && |spec.weights| == spec.nodes
            && (spec.bias.Some? ==> |spec.bias.value| == spec.nodes)
            && spec.activation == n.activation && BiasOf(spec, node) == n.bias && spec.weights[node] == n.weights
  {
    assert LayerFits(m, layer);
    PlainWidth(m, 0);
    PlainLayer(m, layer);
    hide Plain, LowBits;
  }

  lemma ExactNeuron(m: Model, denote: Float -> real, curves: Curves<real>, inputs: seq<real>, layer: nat, node: nat)
    requires ModelValid(m) && ShapeValid(Plain(m)) && |inputs| == m.layers[0].size
    requires 0 < layer < |m.layers| && node < m.layers[layer].size
    ensures var n := ComputeNode(m, layer, node);
            Exact(m, denote, curves, inputs, layer)[node]
            == Named(curves, n.activation,
                     Dot(Reals(curves), denote(n.bias), Exact(m, denote, curves, inputs, layer - 1), Denoted(denote, n.weights)))
  {
    hide ModelValid, Plain, ShapeValid, LayerShape, Evaluate, ComputeNode, Dot, Named, BiasOf;
    PlainLayerShape(m, layer);
    PlainWidth(m, 0);
    PlainWidth(m, layer);
    PlainWidth(m, layer - 1);
    SameNeuron(m, layer, node);
    EvaluateStep(Reals(curves), denote, Plain(m), inputs, layer, node);
  }

  lemma ExactStep(m: Model, denote: Float -> real, curves: Curves<real>, inputs: seq<real>, layer: nat, node: nat)
    requires ModelValid(m) && ShapeValid(Plain(m)) && |inputs| == m.layers[0].size
    requires 0 < layer < |m.layers| && node < m.layers[layer].size
    ensures var n := ComputeNode(m, layer, node);
            Exact(m, denote, curves, inputs, layer)[node]
            == Named(curves, n.activation, denote(n.bias) + SumOfProducts(0.0, Exact(m, denote, curves, inputs, layer - 1),
                                                                          Denoted(denote, n.weights)))
  {
    hide ModelValid, Plain, ShapeValid, Exact, ComputeNode, Denoted, Named, Dot;
    ExactNeuron(m, denote, curves, inputs, layer, node);
    var n := ComputeNode(m, layer, node);
    DotShifts(curves, denote(n.bias), 0.0, Exact(m, denote, curves, inputs, layer - 1), Denoted(denote, n.weights));
    assert denote(n.bias) + 0.0 == denote(n.bias);
  }

  lemma PlainLayerShape(m: Model, layer: nat)
    requires ModelValid(m) && ShapeValid(Plain(m)) && 0 < layer < |m.layers|
    ensures |Plain(m).layers| == |m.layers| - 1
    ensures LayerShape(Plain(m).layers[layer - 1], Width(Plain(m), layer - 1))
  {
    hide ModelValid, LayerShape;
    PlainWidth(m, 0);
  }

  lemma PreviousKnown(m: Model, denote: Float -> real, curves: Curves<real>, inputs: seq<real>,
                      outputs: Outputs, layer: nat, node: nat, s: nat)
    requires ModelValid(m) && ShapeValid(Plain(m)) && |inputs| == m.layers[0].size && 0 < layer < |m.layers|
    requires RightUpTo(m, denote, curves, inputs, outputs, layer, node) && s < m.layers[layer - 1].size
    ensures (layer - 1, s) in outputs
    ensures outputs[(layer - 1, s)] == Exact(m, denote, curves, inputs, layer - 1)[s]
  {
    hide Exact, Plain, ShapeValid, ModelValid;
    var l: nat := layer - 1;
    assert (l, s) in outputs && outputs[(l, s)] == Exact(m, denote, curves, inputs, l)[s];
  }

  method SimulateNode(m: Model, denote: Float -> real, curves: Curves<real>, inputs: seq<real>,
                      outputs: Outputs, layer: nat, node: nat) returns (value: real)
    requires ModelValid(m) && ShapeValid(Plain(m)) && |inputs| == m.layers[0].size
    requires 0 < layer < |m.layers| && node < m.layers[layer].size && m.layers[layer - 1].size <= 16
    requires RightUpTo(m, denote, curves, inputs, outputs, layer, node)
    ensures value == Exact(m, denote, curves, inputs, layer)[node]
  {
    hide Exact, Plain, ShapeValid, RightUpTo;
    var n := ComputeNode(m, layer, node);
    ExactStep(m, denote, curves, inputs, layer, node);
    ghost var previous := Exact(m, denote, curves, inputs, layer - 1);
    forall s: nat | s < |previous|
      ensures (n.predecessorLayer, s) in outputs && outputs[(n.predecessorLayer, s)] == previous[s]
    {
      PreviousKnown(m, denote, curves, inputs, outputs, layer, node, s);
    }
    var values := Gathered(outputs, n.predecessorLayer, n.predecessors, previous);
    var sum := SumProducts(values, Denoted(denote, n.weights));
    value := ActivationNamed(curves, n.activation, denote(n.bias) + sum);
  }

  lemma RightNext(m: Model, denote: Float -> real, curves: Curves<real>, inputs: seq<real>,
                  outputs: Outputs, layer: nat, node: nat, value: real)
    requires ModelValid(m) && ShapeValid(Plain(m)) && |inputs| == m.layers[0].size
    requires layer < |m.layers| && node < m.layers[layer].size
    requires RightUpTo(m, denote, curves, inputs, outputs, layer, node)
    requires value == Exact(m, denote, curves, inputs, layer)[node]
    ensures RightUpTo(m, denote, curves, inputs, outputs[(layer, node) := value], layer, node + 1)
  {
    hide ModelValid, Plain, ShapeValid, Exact;
  }

  lemma RightLayer(m: Model, denote: Float -> real, curves: Curves<real>, inputs: seq<real>,
                   outputs: Outputs, layer: nat)
    requires ModelValid(m) && ShapeValid(Plain(m)) && |inputs| == m.layers[0].size && layer < |m.layers|
    requires RightUpTo(m, denote, curves, inputs, outputs, layer, m.layers[layer].size)
    ensures RightUpTo(m, denote, curves, inputs, outputs, layer + 1, 0)
  {
    hide ModelValid, Plain, ShapeValid, Exact;
  }

  lemma RightInput(m: Model, denote: Float -> real, curves: Curves<real>, inputs: seq<real>, node: nat)
    requires ModelValid(m) && ShapeValid(Plain(m)) && |inputs| == m.layers[0].size && node < |inputs|
    ensures |m.layers| >= 2 && Exact(m, denote, curves, inputs, 0)[node] == inputs[node]
  {
  }

  /** `simulate_all` on the mapped model: every neuron's simulated output is what the devices'
      evaluator gives over exact numbers. */
  method SimulateAll(m: Model, denote: Float -> real, curves: Curves<real>, inputs: seq<real>)
    returns (outputs: Outputs)
    requires ModelValid(m) && ShapeValid(Plain(m)) && |inputs| == m.layers[0].size
    requires forall l: nat | l < |m.layers| :: m.layers[l].size <= 16
    ensures RightUpTo(m, denote, curves, inputs, outputs, |m.layers|, 0)
  {
    outputs := map[];
    for layer := 0 to |m.layers|
      invariant RightUpTo(m, denote, curves, inputs, outputs, layer, 0)
    {
      for node := 0 to m.layers[layer].size
        invariant RightUpTo(m, denote, curves, inputs, outputs, layer, node)
      {
        hide ModelValid, Plain, ShapeValid, Exact, RightUpTo;
        var value: real;
        if layer == 0 {
          RightInput(m, denote, curves, inputs, node);
          value := inputs[node];
        } else {
          value := SimulateNode(m, denote, curves, inputs, outputs, layer, node);
        }
        RightNext(m, denote, curves, inputs, outputs, layer, node, value);
        outputs := outputs[(layer, node) := value];
      }
      RightLayer(m, denote, curves, inputs, outputs, layer);
    }
  }
}
