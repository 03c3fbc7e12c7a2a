/** The mapper's output (`codegen.py`): the network description handed to the manifest
    compiler, the manifest written directly, and how the two differ.

    The two paths share nothing but the model: one goes through `network.json` and
    `generate_manifest.py`, the other through the mapper's own node dictionaries. */
module Codegen {
  import opened Networks
  import opened Manifests
  import opened Topologies
  import opened Options

  const TERMINAL_SENTINEL: nat := 255

  // ---- network.json ----

  datatype ModelError = UnknownLayer | BadPairing(layer: nat)

  function EligibleTargets(size: nat, node: int): (targets: seq<int>)
    ensures forall t :: t in targets <==> size >= 2 && 0 <= t < size && t != node
  {
    if size < 2 then [] else Below(size, node)
  }

  function Below(n: nat, node: int): (targets: seq<int>)
    ensures forall t :: t in targets <==> 0 <= t < n && t != node
  {
    if n == 0 then [] else Below(n - 1, node) + (if n - 1 == node then [] else [n - 1])
  }

  /** `_validate_layer_backups` raises on a layer of fewer than two nodes, then on the first
      pair it finds fault with. */
  predicate LayerBackupsValid(size: nat, backups: map<int, int>)
  {
    size >= 2 && forall b | b in backups :: 0 <= b < size && backups[b] in EligibleTargets(size, b)
  }

  /** The mapper rejects a layer's pairings exactly when the manifest compiler would. */
  lemma SameRule(size: nat, backups: map<int, int>, backer: int)
    requires backer in backups
    ensures LayerBackupsValid(size, backups) <==> PairsOk(size, backups)
  {
    if PairsOk(size, backups) {
      assert PairOk(size, backer, backups[backer]);
      forall b | b in backups
        ensures 0 <= b < size && backups[b] in EligibleTargets(size, b)
      {
        assert PairOk(size, b, backups[b]);
      }
    }
  }

  function BackupsAt(backups: map<int, map<int, int>>, layer: nat): map<int, int>
  {
    if layer in backups then backups[layer] else map[]
  }

  /** One emitted layer. The grace period is emitted only with backups. */
  function LayerJson(l: ModelLayer, pairs: map<int, int>, graceMs: Option<nat>): LayerSpec
  {
    LayerSpec(l.size, l.activation, l.weights, Some(l.bias), pairs, if pairs == map[] then None else graceMs)
  }

  function GraceAt(graceMs: map<int, nat>, layer: nat): Option<nat>
  {
    if layer in graceMs then Some(graceMs[layer]) else None
  }

  /** `model_to_network_json`. */
  method ModelToNetwork(m: Model, backups: map<int, map<int, int>>, graceMs: map<int, nat>)
    returns (result: Result<Network, ModelError>)
    requires ModelValid(m)
    ensures result.Ok? <==>
            && (forall k | k in backups :: 0 <= k < |m.layers| - 1)
            && (forall l: nat | l < |m.layers| - 1 && BackupsAt(backups, l) != map[] ::
                  LayerBackupsValid(m.layers[l + 1].size, BackupsAt(backups, l)))
    ensures result.Ok? ==>
              && result.value.inputSize == m.layers[0].size && result.value.inputValues.None?
              && |result.value.layers| == |m.layers| - 1
              && (forall l: nat | l < |m.layers| - 1 ::
                    result.value.layers[l] == LayerJson(m.layers[l + 1], BackupsAt(backups, l), GraceAt(graceMs, l)))
    ensures result == Err(UnknownLayer) <==> !(forall k | k in backups :: 0 <= k < |m.layers| - 1)
    ensures result.Err? && result.error.BadPairing? ==>
              var bad := result.error.layer;
              && bad < |m.layers| - 1 && BackupsAt(backups, bad) != map[]
              && !LayerBackupsValid(m.layers[bad + 1].size, BackupsAt(backups, bad))
              && (forall l: nat | l < bad && BackupsAt(backups, l) != map[] ::
                    LayerBackupsValid(m.layers[l + 1].size, BackupsAt(backups, l)))
  {
    if !(forall k | k in backups :: 0 <= k < |m.layers| - 1) { return Err(UnknownLayer); }
    var layers: seq<LayerSpec> := [];
    for l := 0 to |m.layers| - 1
      invariant |layers| == l
      invariant forall k: nat | k < l :: layers[k] == LayerJson(m.layers[k + 1], BackupsAt(backups, k), GraceAt(graceMs, k))
      invariant forall k: nat | k < l && BackupsAt(backups, k) != map[] ::
                  LayerBackupsValid(m.layers[k + 1].size, BackupsAt(backups, k))
    {
      var pairs := BackupsAt(backups, l);
      if pairs != map[] && !LayerBackupsValid(m.layers[l + 1].size, pairs) { return Err(BadPairing(l)); }
      layers := layers + [LayerJson(m.layers[l + 1], pairs, GraceAt(graceMs, l))];
    }
    result := Ok(Network(m.layers[0].size, None, layers));
  }

  /** A grace period reaches the layer's duties exactly when the layer has pairings and one was
      given; otherwise it is 50 ms. */
  lemma GraceArrives(l: ModelLayer, pairs: map<int, int>, graceMs: Option<nat>)
    ensures GraceMs(LayerJson(l, pairs, graceMs)) == if pairs != map[] && graceMs.Some? then graceMs.value else 50
  {
  }

  /** What the mapper emits passes every check of the manifest compiler on the network itself. */
  lemma EmittedIsShapeValid(m: Model, net: Network, backups: map<int, map<int, int>>, graceMs: map<int, nat>)
    requires ModelValid(m) && net.inputSize == m.layers[0].size && net.inputValues.None?
    requires |net.layers| == |m.layers| - 1
    requires forall l: nat | l < |net.layers| ::
               net.layers[l] == LayerJson(m.layers[l + 1], BackupsAt(backups, l), GraceAt(graceMs, l))
    requires forall l: nat | l < |net.layers| && BackupsAt(backups, l) != map[] ::
               LayerBackupsValid(m.layers[l + 1].size, BackupsAt(backups, l))
    ensures ShapeValid(net)
  {
    forall l: nat | l < |net.layers|
      ensures LayerShape(net.layers[l], Width(net, l))
    {
      var pairs := BackupsAt(backups, l);
      assert LayerFits(m, l + 1) && Width(net, l) == m.layers[l].size;
      forall b | b in pairs
        ensures 0 <= b < m.layers[l + 1].size && 0 <= pairs[b] < m.layers[l + 1].size && b != pairs[b]
      {
        SameRule(m.layers[l + 1].size, pairs, b);
        assert PairOk(m.layers[l + 1].size, b, pairs[b]);
      }
    }
  }

  // ---- devices.json ----

  /** `all_nodes`, for layers 0 .. `layer` in ascending order. */
  function NodesUpTo(layers: map<nat, seq<NodeDict>>, layer: nat): seq<NodeDict>
    requires forall l: nat | l <= layer :: l in layers
  {
    if layer == 0 then layers[0] else NodesUpTo(layers, layer - 1) + layers[layer]
  }

  /** `physical_nodes`. */
  function Physical(nodes: seq<NodeDict>): seq<NodeDict>
  {
    if nodes == [] then []
    else (if nodes[0].isInput then [] else [nodes[0]]) + Physical(nodes[1..])
  }

  /** `assign_hardware_ids`: `None` is the error about a wrong number of ids. */
  method AssignHardwareIds(nodes: seq<NodeDict>, hardwareIds: seq<nat>) returns (numbered: Option<seq<NodeDict>>)
    ensures numbered.Some? <==> |hardwareIds| == |nodes|
    ensures numbered.Some? ==>
              |numbered.value| == |nodes|
              && forall i | 0 <= i < |nodes| :: numbered.value[i] == nodes[i].(hardwareId := Some(hardwareIds[i]))
  {
    if |hardwareIds| != |nodes| { return None; }
    var done: seq<NodeDict> := [];
    for i := 0 to |nodes|
      invariant |done| == i && forall k | 0 <= k < i :: done[k] == nodes[k].(hardwareId := Some(hardwareIds[k]))
    {
      done := done + [nodes[i].(hardwareId := Some(hardwareIds[i]))];
    }
    numbered := Some(done);
  }

  /** `_device_entry`. */
  function DeviceEntry(n: NodeDict): DeviceDict
    requires n.hardwareId.Some?
  {
    DeviceDict(n.hardwareId.value, AddressFields(n.nodeId, n.layerId, 0, 0), n.predecessors, n.precedingSiblings,
               if n.successor.Some? then n.successor.value else TERMINAL_SENTINEL, n.transmitSlot, n.activation, n.weights,
               n.predecessorLayer, n.bias, None, None)
  }

  /** `to_devices_json`: `None` is the error about a device without a hardware id. */
  function ToDevices(nodes: seq<NodeDict>): (r: Option<seq<DeviceDict>>)
    ensures r.Some? <==> forall i | 0 <= i < |nodes| :: nodes[i].hardwareId.Some?
    ensures r.Some? ==> |r.value| == |nodes| && forall i | 0 <= i < |nodes| :: r.value[i] == DeviceEntry(nodes[i])
  {
    if exists i | 0 <= i < |nodes| :: nodes[i].hardwareId.None? then None
    else Some(seq(|nodes|, i requires 0 <= i < |nodes| && nodes[i].hardwareId.Some? => DeviceEntry(nodes[i])))
  }

  // ---- The two compilers agree ----

  /** The model as a network description, without backups. */
  function Plain(m: Model): Network
    requires ModelValid(m)
  {
    Network(m.layers[0].size, None,
            seq(|m.layers| - 1, l requires 0 <= l < |m.layers| - 1 => LayerJson(m.layers[l + 1], map[], None)))
  }

  lemma PlainShape(m: Model)
    requires ModelValid(m)
    ensures ShapeValid(Plain(m))
  {
    forall l: nat | l < |Plain(m).layers|
      ensures Plain(m).layers[l] == LayerJson(m.layers[l + 1], BackupsAt(map[], l), GraceAt(map[], l))
    {
    }
    EmittedIsShapeValid(m, Plain(m), map[], map[]);
  }

  lemma {:induction false} PhysicalConcat(xs: seq<NodeDict>, ys: seq<NodeDict>)
    ensures Physical(xs + ys) == Physical(xs) + Physical(ys)
  {
    if xs == [] {
      assert xs + ys == ys;
    } else {
      PhysicalConcat(xs[1..], ys);
      var head := if xs[0].isInput then [] else [xs[0]];
      assert (xs + ys)[1..] == xs[1..] + ys && (xs + ys)[0] == xs[0];
      assert head + (Physical(xs[1..]) + Physical(ys)) == head + Physical(xs[1..]) + Physical(ys);
    }
  }

  lemma {:induction false} AllPhysical(xs: seq<NodeDict>)
    requires forall i | 0 <= i < |xs| :: !xs[i].isInput
    ensures Physical(xs) == xs
  {
    if xs != [] {
      AllPhysical(xs[1..]);
      assert xs == [xs[0]] + xs[1..];
    }
  }

  lemma {:induction false} NonePhysical(xs: seq<NodeDict>)
    requires forall i | 0 <= i < |xs| :: xs[i].isInput
    ensures Physical(xs) == []
  {
    if xs != [] {
      NonePhysical(xs[1..]);
    }
  }

  /** Which neuron a node dictionary describes. */
  predicate Describes(m: Model, n: NodeDict, id: Id)
    requires ModelValid(m)
  {
    0 < id.layer < |m.layers| && id.node < m.layers[id.layer].size && n == ComputeNode(m, id.layer, id.node)
  }

  predicate DescribesAll(m: Model, nodes: seq<NodeDict>, ids: seq<Id>)
    requires ModelValid(m)
  {
    |nodes| == |ids| && forall i | 0 <= i < |nodes| :: Describes(m, nodes[i], ids[i])
  }

  lemma DescribesConcat(m: Model, nodes: seq<NodeDict>, ids: seq<Id>, more: seq<NodeDict>, moreIds: seq<Id>)
    requires ModelValid(m) && DescribesAll(m, nodes, ids) && DescribesAll(m, more, moreIds)
    ensures DescribesAll(m, nodes + more, ids + moreIds)
  {
    hide ModelValid, Describes;
  }

  lemma DescribesLayer(m: Model, layer: nat)
    requires ModelValid(m) && 0 < layer < |m.layers|
    ensures DescribesAll(m, NodesOf(m, layer), LayerIds(layer, m.layers[layer].size))
    ensures Physical(NodesOf(m, layer)) == NodesOf(m, layer)
  {
    AllPhysical(NodesOf(m, layer));
  }

  lemma PlainLayer(m: Model, layer: nat)
    requires ModelValid(m) && 0 < layer < |m.layers|
    ensures Plain(m).layers[layer - 1] == LayerJson(m.layers[layer], map[], None)
  {
    hide ModelValid;
  }

  /** Both compilers list the same neurons in the same order. */
  lemma {:induction false} SameOrder(m: Model, layers: map<nat, seq<NodeDict>>, layer: nat)
    requires ModelValid(m) && layer < |m.layers| && (forall l: nat | l < |m.layers| :: l in layers)
    requires forall l: nat | l < |m.layers| :: layers[l] == NodesOf(m, l)
    ensures DescribesAll(m, Physical(NodesUpTo(layers, layer)), DevicesUpTo(Plain(m), layer))
  {
    if layer == 0 {
      NonePhysical(layers[0]);
      return;
    }
    hide ModelValid, DescribesAll, NodesOf, Physical, Plain;
    SameOrder(m, layers, layer - 1);
    PlainLayer(m, layer);
    DescribesLayer(m, layer);
    var before, ids := NodesUpTo(layers, layer - 1), DevicesUpTo(Plain(m), layer - 1);
    PhysicalConcat(before, layers[layer]);
    DescribesConcat(m, Physical(before), ids, layers[layer], LayerIds(layer, m.layers[layer].size));
  }

  /** The last layer of the direct manifest carries the sentinel instead of the next layer. */
  function WithSentinel(m: Model, d: DeviceDict): DeviceDict
  {
    if d.address.layerId + 1 == |m.layers| then d.(successor := TERMINAL_SENTINEL) else d
  }

  lemma EntriesAgree(m: Model, n: NodeDict, id: Id, hardwareId: nat)
    requires ModelValid(m) && Describes(m, n, id)
    ensures ShapeValid(Plain(m)) && IsDevice(Plain(m), id)
    ensures DeviceEntry(n.(hardwareId := Some(hardwareId))) == WithSentinel(m, DeviceFor(Plain(m), id, hardwareId))
  {
    hide ShapeValid, Plain, LowBits;
    assert LayerFits(m, id.layer);
    PlainShape(m);
    PlainLayer(m, id.layer);
    PlainWidth(m, id.layer - 1);
    PlainWidth(m, id.layer);
    var spec := Plain(m).layers[id.layer - 1];
    assert BiasOf(spec, id.node) == m.layers[id.layer].bias[id.node];
  }

  lemma PlainWidth(m: Model, layer: nat)
    requires ModelValid(m) && layer < |m.layers|
    ensures |Plain(m).layers| == |m.layers| - 1 && Width(Plain(m), layer) == m.layers[layer].size
  {
    if layer > 0 { PlainLayer(m, layer); }
  }

  /** For every valid model and any hardware ids, the two independent compilers give the same
      device list, except for the successor of the terminal layer. */
  lemma CompilersAgree(m: Model, layers: map<nat, seq<NodeDict>>, hardwareIds: seq<nat>, numbered: seq<NodeDict>,
                       devices: seq<DeviceDict>)
    requires ModelValid(m) && (forall l: nat | l < |m.layers| :: l in layers)
    requires forall l: nat | l < |m.layers| :: layers[l] == NodesOf(m, l)
    requires var nodes := Physical(NodesUpTo(layers, |m.layers| - 1));
             && |hardwareIds| == |nodes| == |numbered|
             && (forall i | 0 <= i < |nodes| :: numbered[i] == nodes[i].(hardwareId := Some(hardwareIds[i])))
    requires ShapeValid(Plain(m)) && BuiltSoFar(Plain(m), hardwareIds, AllDevices(Plain(m)), devices)
    ensures var direct := ToDevices(numbered);
            && direct.Some? && |direct.value| == |devices|
            && (forall i | 0 <= i < |devices| :: direct.value[i] == WithSentinel(m, devices[i]))
  {
    hide ShapeValid, ModelValid, NodesOf, Physical, NodesUpTo, Plain, DevicesUpTo, Describes, DeviceEntry, DeviceFor, WithSentinel;
    FirstLayer(m);
    PlainWidth(m, 0);
    var nodes, ids := Physical(NodesUpTo(layers, |m.layers| - 1)), AllDevices(Plain(m));
    SameOrder(m, layers, |m.layers| - 1);
    var direct := ToDevices(numbered).value;
    forall i | 0 <= i < |devices|
      ensures direct[i] == WithSentinel(m, devices[i])
    {
      EntriesAgree(m, nodes[i], ids[i], hardwareIds[i]);
    }
  }
}
