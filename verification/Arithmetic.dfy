/** The arithmetic of a neuron.

    Addition, multiplication and activation are left uninterpreted, so whatever is
    proved about the order of operations holds for rounded `float` arithmetic.

    `Reals` instantiates them with exact numbers. */
module Arithmetic {
  /** The activation functions, whatever they compute. */
  datatype Curves<!F> = Curves(relu: F -> F, sigmoid: F -> F, tanh: F -> F)

  datatype Arith<!F> = Arith(add: (F, F) -> F, mul: (F, F) -> F, curves: Curves<F>)

  /** `applyActivation`: types 0, 1 and 2, and the identity for 3 and anything unknown. */
  function Activate<F>(curves: Curves<F>, kind: nat, x: F): F
  {
    if kind == 0 then curves.relu(x)
    else if kind == 1 then curves.sigmoid(x)
    else if kind == 2 then curves.tanh(x)
    else x
  }

  /** The running sum of `NNNode::execute`: starting from `acc`, add each product in turn,
      stopping when values or weights run out. */
  function Dot<F>(a: Arith<F>, acc: F, values: seq<F>, weights: seq<F>): F
    decreases |values|
  {
    if values == [] || weights == [] then acc
    else Dot(a, a.add(acc, a.mul(values[0], weights[0])), values[1..], weights[1..])
  }

  function Neuron<F>(a: Arith<F>, activation: nat, bias: F, values: seq<F>, weights: seq<F>): F
  {
    Activate(a.curves, activation, Dot(a, bias, values, weights))
  }

  // ---- Exact arithmetic: the centralized reference of `simulate.py` ----

  function Reals(curves: Curves<real>): Arith<real>
  {
    Arith((x: real, y: real) => x + y, (x: real, y: real) => x * y, curves)
  }

  /** `sum(v * w for v, w in zip(values, weights))`: an accumulator starting at zero. */
  function SumOfProducts(acc: real, values: seq<real>, weights: seq<real>): real
    decreases |values|
  {
    if values == [] || weights == [] then acc
    else SumOfProducts(acc + values[0] * weights[0], values[1..], weights[1..])
  }

  lemma {:induction false} DotShifts(curves: Curves<real>, bias: real, acc: real, values: seq<real>, weights: seq<real>)
    ensures Dot(Reals(curves), bias + acc, values, weights) == bias + SumOfProducts(acc, values, weights)
    decreases |values|
  {
    if values != [] && weights != [] {
      var product := values[0] * weights[0];
      assert bias + acc + product == bias + (acc + product);
      DotShifts(curves, bias, acc + product, values[1..], weights[1..]);
    }
  }

  /** The device starts its sum at the bias, the simulator adds the bias to `sum(...)` last; over
      exact numbers they agree. */
  lemma NeuronIsSimulated(curves: Curves<real>, kind: nat, bias: real, values: seq<real>, weights: seq<real>)
    ensures Neuron(Reals(curves), kind, bias, values, weights)
         == Activate(curves, kind, bias + SumOfProducts(0.0, values, weights))
  {
    DotShifts(curves, bias, 0.0, values, weights);
    assert bias + 0.0 == bias;
  }
}
