/** The manifest compiler (`generate_manifest.py`): a network description and a pool of
    hardware ids become one device entry per physical neuron. */
module Manifests {
  import opened Words
  import opened Addresses
  import opened Networks
  import opened Options

  datatype Result<T, E> = Ok(value: T) | Err(error: E)

  datatype GenerateError =
    | InputValuesLength
    | TooFewDevices
    | WeightRows(layer: nat)
    | RowLength(layer: nat, node: nat)
    | BiasLength(layer: nat)
    | BadBackup(layer: nat)

  datatype AddressFields = AddressFields(nodeId: nat, layerId: nat, clusterId: nat, reserved: nat)

  /** The "backupRole" of a device dictionary. Masks and numbers are unbounded here. */
  datatype RoleDict = RoleDict(
    target: AddressFields,
    predecessors: nat,
    activation: Activation,
    weights: seq<Float>,
    resendGraceMs: nat,
    layerRoster: nat,
    predecessorLayer: nat,
    bias: Float)

  datatype DeviceDict = DeviceDict(
    hardwareId: nat,
    address: AddressFields,
    predecessors: nat,
    precedingSiblings: nat,
    successor: nat,
    transmitSlot: nat,
    activation: Activation,
    weights: seq<Float>,
    predecessorLayer: nat,
    bias: Float,
    inputValue: Option<Float>,
    backup: Option<RoleDict>)

  // ---- Which neurons are devices, and in which order ----

  function LayerIds(layer: nat, width: nat): (ids: seq<Id>)
    ensures |ids| == width && forall i | 0 <= i < width :: ids[i] == Id(layer, i)
  {
    seq(width, i requires 0 <= i < width => Id(layer, i))
  }

  /** The devices of layers 0 .. `layer`, front to back. */
  function DevicesUpTo(net: Network, layer: nat): seq<Id>
    requires layer <= |net.layers|
  {
    if layer == 0 then (if net.inputValues.Some? then LayerIds(0, net.inputSize) else [])
    else DevicesUpTo(net, layer - 1) + LayerIds(layer, net.layers[layer - 1].nodes)
  }

  function AllDevices(net: Network): seq<Id>
  {
    DevicesUpTo(net, |net.layers|)
  }

  /** `(1 << n) - 1`. */
  function LowBits(n: nat): nat
  {
    Pow2(n) - 1
  }

  function RoleDictOf(net: Network, id: Id): RoleDict
    requires ShapeValid(net) && IsNeuron(net, id) && HasBackup(net, id)
  {
    var spec, target := net.layers[id.layer - 1], BackupTarget(net, id);
    assert LayerShape(spec, Width(net, id.layer - 1));
    RoleDict(AddressFields(target, id.layer, 0, 0), LowBits(Width(net, id.layer - 1)), spec.activation,
             spec.weights[target], GraceMs(spec), LowBits(spec.nodes), id.layer - 1, BiasOf(spec, target))
  }

  function DeviceFor(net: Network, id: Id, hardwareId: nat): DeviceDict
    requires ShapeValid(net) && IsDevice(net, id)
  {
    if id.layer == 0 then
      DeviceDict(hardwareId, AddressFields(id.node, 0, 0, 0), 0, LowBits(id.node), 1, id.node, Linear, [], 0, 0,
                 Some(net.inputValues.value[id.node]), None)
    else
      var spec := net.layers[id.layer - 1];
      assert LayerShape(spec, Width(net, id.layer - 1));
      DeviceDict(hardwareId, AddressFields(id.node, id.layer, 0, 0), LowBits(Width(net, id.layer - 1)),
                 LowBits(id.node), id.layer + 1, id.node, spec.activation, spec.weights[id.node], id.layer - 1,
                 BiasOf(spec, id.node), None, if HasBackup(net, id) then Some(RoleDictOf(net, id)) else None)
  }

  // ---- Every listed neuron is a device, once ----

  lemma {:induction false} DevicesListed(net: Network, layer: nat)
    requires layer <= |net.layers|
    ensures forall id :: id in DevicesUpTo(net, layer) <==> IsDevice(net, id) && id.layer <= layer
  {
    if layer > 0 {
      DevicesListed(net, layer - 1);
      var mine := LayerIds(layer, net.layers[layer - 1].nodes);
      forall id
        ensures id in DevicesUpTo(net, layer) <==> IsDevice(net, id) && id.layer <= layer
      {
        if IsDevice(net, id) && id.layer == layer { assert mine[id.node] == id; }
      }
    } else if net.inputValues.Some? {
      forall id | IsDevice(net, id) && id.layer == 0
        ensures id in DevicesUpTo(net, 0)
      {
        assert LayerIds(0, net.inputSize)[id.node] == id;
      }
    }
  }

  lemma {:induction false} DevicesDistinct(net: Network, layer: nat, i: nat, j: nat)
    requires layer <= |net.layers| && i < j < |DevicesUpTo(net, layer)|
    ensures DevicesUpTo(net, layer)[i] != DevicesUpTo(net, layer)[j]
  {
    if layer > 0 {
      var before := DevicesUpTo(net, layer - 1);
      if j < |before| {
        DevicesDistinct(net, layer - 1, i, j);
      } else if i < |before| {
        DevicesListed(net, layer - 1);
        assert before[i] in before;
      }
    }
  }

  // ---- The checks ----

  /** The first row of the layer whose length differs from the previous layer's width. */
  predicate FirstBadRow(net: Network, layer: nat, error: GenerateError)
    requires layer < |net.layers| && error.RowLength?
  {
    var rows := net.layers[layer].weights;
    && error.layer == layer && error.node < |rows| && |rows[error.node]| != Width(net, layer)
    && forall n | 0 <= n < error.node :: |rows[n]| == Width(net, layer)
  }

  method CheckRows(net: Network, layer: nat) returns (error: Option<GenerateError>)
    requires layer < |net.layers|
    ensures error.None? <==> forall row | row in net.layers[layer].weights :: |row| == Width(net, layer)
    ensures error.Some? ==> error.value.RowLength? && FirstBadRow(net, layer, error.value)
  {
    var rows, predecessors := net.layers[layer].weights, Width(net, layer);
    for node := 0 to |rows|
      invariant forall n | 0 <= n < node :: |rows[n]| == predecessors
    {
      if |rows[node]| != predecessors {
        assert rows[node] in rows;
        return Some(RowLength(layer, node));
      }
    }
    error := None;
  }

  predicate PairOk(nodes: nat, backer: int, target: int)
  {
    0 <= backer < nodes && 0 <= target < nodes && backer != target
  }

  predicate PairsOk(nodes: nat, backups: map<int, int>)
  {
    forall b | b in backups :: PairOk(nodes, b, backups[b])
  }

  /** The first of the layer's four checks that fails. */
  predicate FirstFault(net: Network, layer: nat, error: GenerateError)
    requires layer < |net.layers|
  {
    var spec := net.layers[layer];
    var rowsFit := forall row | row in spec.weights :: |row| == Width(net, layer);
    match error
    case WeightRows(l) => l == layer && |spec.weights| != spec.nodes
    case RowLength(_, _) => |spec.weights| == spec.nodes && FirstBadRow(net, layer, error)
    case BiasLength(l) => l == layer && |spec.weights| == spec.nodes && rowsFit
                          && spec.bias.Some? && |spec.bias.value| != spec.nodes
    case BadBackup(l) => l == layer && |spec.weights| == spec.nodes && rowsFit
                         && (spec.bias.Some? ==> |spec.bias.value| == spec.nodes) && !PairsOk(spec.nodes, spec.backups)
    case InputValuesLength => false
    case TooFewDevices => false
  }

  method CheckLayer(net: Network, layer: nat) returns (error: Option<GenerateError>)
    requires layer < |net.layers|
    ensures error.None? <==> LayerShape(net.layers[layer], Width(net, layer))
    ensures error.Some? ==> FirstFault(net, layer, error.value)
  {
    var spec := net.layers[layer];
    if |spec.weights| != spec.nodes { return Some(WeightRows(layer)); }
    assert LayerShape(spec, Width(net, layer)) ==> PairsOk(spec.nodes, spec.backups);
    error := CheckRows(net, layer);
    if error.Some? { return; }
    if spec.bias.Some? && |spec.bias.value| != spec.nodes { return Some(BiasLength(layer)); }
    if !PairsOk(spec.nodes, spec.backups) { return Some(BadBackup(layer)); }
    error := None;
  }

  // ---- build_devices ----

  /** `devices` are the entries of the first so many devices, with the ids in order. */
  predicate BuiltSoFar(net: Network, hardwareIds: seq<nat>, order: seq<Id>, devices: seq<DeviceDict>)
    requires ShapeValid(net)
  {
    && |devices| == |order| <= |hardwareIds|
    && forall i | 0 <= i < |order| :: IsDevice(net, order[i]) && devices[i] == DeviceFor(net, order[i], hardwareIds[i])
  }

  lemma {:induction false} DevicesBounded(net: Network, layer: nat)
    requires layer <= |net.layers|
    ensures |DevicesUpTo(net, layer)| <= |AllDevices(net)|
    decreases |net.layers| - layer
  {
    if layer < |net.layers| {
      DevicesBounded(net, layer + 1);
    }
  }

  method BuildInputs(net: Network, hardwareIds: seq<nat>) returns (devices: seq<DeviceDict>)
    requires ShapeValid(net) && |AllDevices(net)| <= |hardwareIds|
    ensures BuiltSoFar(net, hardwareIds, DevicesUpTo(net, 0), devices)
  {
    devices := [];
    DevicesBounded(net, 0);
    if net.inputValues.Some? {
      var values := net.inputValues.value;
      ghost var order := LayerIds(0, net.inputSize);
      for node := 0 to |values|
        invariant BuiltSoFar(net, hardwareIds, order[..node], devices)
      {
        devices := devices + [DeviceDict(hardwareIds[|devices|], AddressFields(node, 0, 0, 0), 0, LowBits(node), 1, node,
                                         Linear, [], 0, 0, Some(values[node]), None)];
        assert order[..node + 1] == order[..node] + [Id(0, node)];
      }
      assert order[..|values|] == order;
    }
  }

  lemma LayerFacts(net: Network, layer: nat, node: nat)
    requires ShapeValid(net) && 0 < layer <= |net.layers| && node < net.layers[layer - 1].nodes
    ensures var spec := net.layers[layer - 1];
            && |spec.weights| == spec.nodes && (spec.bias.Some? ==> |spec.bias.value| == spec.nodes)
            && (node in spec.backups ==> 0 <= spec.backups[node] < spec.nodes)
  {
    assert LayerShape(net.layers[layer - 1], Width(net, layer - 1));
  }

  /** One entry, and the backup role added to it. */
  method BuildDevice(net: Network, layer: nat, node: nat, mask: nat, hardwareId: nat) returns (device: DeviceDict)
    requires ShapeValid(net) && 0 < layer <= |net.layers| && node < net.layers[layer - 1].nodes
    requires mask == LowBits(Width(net, layer - 1))
    ensures device == DeviceFor(net, Id(layer, node), hardwareId)
  {
    hide ShapeValid, LayerShape, LowBits, GraceMs, BiasOf;
    var spec := net.layers[layer - 1];
    LayerFacts(net, layer, node);
    device := DeviceDict(hardwareId, AddressFields(node, layer, 0, 0), mask, LowBits(node), layer + 1, node, spec.activation,
                         spec.weights[node], layer - 1, BiasOf(spec, node), None, None);
    if node in spec.backups {
      var target := spec.backups[node];
      device := device.(backup := Some(RoleDict(AddressFields(target, layer, 0, 0), mask, spec.activation,
                                                spec.weights[target], GraceMs(spec), LowBits(spec.nodes), layer - 1,
                                                BiasOf(spec, target))));
    }
  }

  method BuildLayer(net: Network, hardwareIds: seq<nat>, before: seq<DeviceDict>, layer: nat)
    returns (devices: seq<DeviceDict>)
    requires ShapeValid(net) && 0 < layer <= |net.layers| && |AllDevices(net)| <= |hardwareIds|
    requires BuiltSoFar(net, hardwareIds, DevicesUpTo(net, layer - 1), before)
    ensures BuiltSoFar(net, hardwareIds, DevicesUpTo(net, layer), devices)
  {
    hide LayerShape, DeviceFor, ShapeValid;
    var nodes, predecessors := net.layers[layer - 1].nodes, Width(net, layer - 1);
    var mask := if predecessors > 0 then LowBits(predecessors) else 0;
    devices := before;
    ghost var start, order := DevicesUpTo(net, layer - 1), LayerIds(layer, nodes);
    DevicesBounded(net, layer);
    for node := 0 to nodes
      invariant BuiltSoFar(net, hardwareIds, start + order[..node], devices)
    {
      var device := BuildDevice(net, layer, node, mask, hardwareIds[|devices|]);
      BuiltNext(net, hardwareIds, start + order[..node], devices, Id(layer, node), device);
      devices := devices + [device];
      assert start + order[..node + 1] == start + order[..node] + [Id(layer, node)];
    }
    assert start + order[..nodes] == DevicesUpTo(net, layer);
  }

  lemma BuiltNext(net: Network, hardwareIds: seq<nat>, order: seq<Id>, devices: seq<DeviceDict>, id: Id, device: DeviceDict)
    requires ShapeValid(net) && BuiltSoFar(net, hardwareIds, order, devices) && IsDevice(net, id)
    requires |devices| < |hardwareIds| && device == DeviceFor(net, id, hardwareIds[|devices|])
    ensures BuiltSoFar(net, hardwareIds, order + [id], devices + [device])
  {
    hide DeviceFor, ShapeValid;
  }

  /** The number of devices a network needs, summed as `build_devices` sums it. */
  method CountDevices(net: Network) returns (total: nat)
    requires net.inputValues.Some? ==> |net.inputValues.value| == net.inputSize
    ensures total == |AllDevices(net)|
  {
    total := if net.inputValues.Some? then net.inputSize else 0;
    for layer := 0 to |net.layers|
      invariant total == |DevicesUpTo(net, layer)|
    {
      total := total + net.layers[layer].nodes;
    }
  }

  /** The first layer that fails a check, and the check. */
  predicate FirstBadLayer(net: Network, error: GenerateError)
  {
    exists layer: nat | layer < |net.layers| ::
      FirstFault(net, layer, error) && forall l: nat | l < layer :: LayerShape(net.layers[l], Width(net, l))
  }

  lemma LayerFaults(net: Network, error: GenerateError)
    requires FirstBadLayer(net, error)
    ensures error != InputValuesLength && error != TooFewDevices
  {
  }

  method CheckLayers(net: Network) returns (error: Option<GenerateError>)
    ensures error.None? <==> forall l: nat | l < |net.layers| :: LayerShape(net.layers[l], Width(net, l))
    ensures error.Some? ==> FirstBadLayer(net, error.value)
  {
    hide LayerShape, FirstFault;
    for layer := 0 to |net.layers|
      invariant forall l: nat | l < layer :: LayerShape(net.layers[l], Width(net, l))
    {
      error := CheckLayer(net, layer);
      if error.Some? { return; }
    }
    error := None;
  }

  lemma ShapeChecked(net: Network)
    ensures ShapeValid(net) <==>
            && (net.inputValues.Some? ==> |net.inputValues.value| == net.inputSize)
            && (forall l: nat | l < |net.layers| :: LayerShape(net.layers[l], Width(net, l)))
  {
    hide LayerShape;
  }

  /** Succeeds exactly on well-shaped networks with enough devices; then there is one entry per
      device, in order, each on the hardware id in its place. */
  method BuildDevices(net: Network, hardwareIds: seq<nat>) returns (result: Result<seq<DeviceDict>, GenerateError>)
    ensures result.Ok? <==> ShapeValid(net) && |AllDevices(net)| <= |hardwareIds|
    ensures result.Ok? ==> BuiltSoFar(net, hardwareIds, AllDevices(net), result.value)
    ensures var inputsFit := net.inputValues.Some? ==> |net.inputValues.value| == net.inputSize;
            && (result == Err(InputValuesLength) <==> !inputsFit)
            && (result == Err(TooFewDevices) <==> inputsFit && |AllDevices(net)| > |hardwareIds|)
            && (result.Err? && inputsFit && |AllDevices(net)| <= |hardwareIds| ==> FirstBadLayer(net, result.error))
  {
    hide FirstFault;
    hide BuiltSoFar, ShapeValid, DevicesUpTo, LayerShape;
    ShapeChecked(net);
    if net.inputValues.Some? && |net.inputValues.value| != net.inputSize { return Err(InputValuesLength); }
    var total := CountDevices(net);
    if total > |hardwareIds| { return Err(TooFewDevices); }
    var error := CheckLayers(net);
    if error.Some? {
      LayerFaults(net, error.value);
      return Err(error.value);
    }
    var devices := BuildInputs(net, hardwareIds);
    for layer := 0 to |net.layers|
      invariant BuiltSoFar(net, hardwareIds, DevicesUpTo(net, layer), devices)
    {
      devices := BuildLayer(net, hardwareIds, devices, layer + 1);
    }
    result := Ok(devices);
  }

  // ---- What the compiler guarantees ----

  /** What every device's entry says. */
  ghost predicate EntrySays(net: Network, id: Id, d: DeviceDict)
    requires IsNeuron(net, id)
  {
    && d.address == AddressFields(id.node, id.layer, 0, 0)
    && d.precedingSiblings < 0x1_0000 && (forall j: nat :: j in Bits(d.precedingSiblings) <==> j < id.node)
    && d.successor == id.layer + 1 && d.transmitSlot == id.node
    && d.predecessors < 0x1_0000
    && (forall i: nat :: i in Bits(d.predecessors) <==> id.layer > 0 && i < Width(net, id.layer - 1))
  }

  /** An input device's entry: no predecessors, the identity, and the value it is seeded with. */
  predicate InputSays(net: Network, id: Id, d: DeviceDict)
    requires ShapeValid(net) && IsNeuron(net, id) && id.layer == 0
  {
    && d.predecessorLayer == 0 && d.activation == Linear && d.weights == [] && d.bias == 0 && d.backup.None?
    && net.inputValues.Some? && d.inputValue == Some(net.inputValues.value[id.node])
  }

  /** A compute device's entry: its own row and bias, 0.0 when the layer has no biases. */
  predicate ComputeSays(net: Network, id: Id, d: DeviceDict)
    requires ShapeValid(net) && IsNeuron(net, id) && id.layer > 0
  {
    assert LayerShape(net.layers[id.layer - 1], Width(net, id.layer - 1));
    var spec := net.layers[id.layer - 1];
    && d.predecessorLayer == id.layer - 1 && d.activation == spec.activation && d.weights == spec.weights[id.node]
    && d.bias == (if spec.bias.None? then 0 else spec.bias.value[id.node]) && d.inputValue.None?
    && (d.backup.Some? <==> id.node in spec.backups)
  }

  /** A backup duty: everything of its target, every node of the layer in the roster, and 50 ms of
      grace unless the layer says otherwise. */
  ghost predicate DutySays(net: Network, id: Id, r: RoleDict)
    requires ShapeValid(net) && IsNeuron(net, id) && HasBackup(net, id)
  {
    assert LayerShape(net.layers[id.layer - 1], Width(net, id.layer - 1));
    var spec, target := net.layers[id.layer - 1], net.layers[id.layer - 1].backups[id.node];
    && r.target == AddressFields(target, id.layer, 0, 0)
    && r.predecessors < 0x1_0000 && (forall i: nat :: i in Bits(r.predecessors) <==> i < Width(net, id.layer - 1))
    && r.layerRoster < 0x1_0000 && (forall j: nat :: j in Bits(r.layerRoster) <==> j < spec.nodes)
    && r.activation == spec.activation && r.weights == spec.weights[target] && r.predecessorLayer == id.layer - 1
    && r.bias == (if spec.bias.None? then 0 else spec.bias.value[target])
    && r.resendGraceMs == (if spec.resendGraceMs.None? then 50 else spec.resendGraceMs.value)
  }

  lemma MaskOf(n: nat)
    requires n <= 16
    ensures LowBits(n) < 0x1_0000 && forall k: nat :: k in Bits(LowBits(n)) <==> k < n
  {
    BitsOnes(n);
    assert LowBits(n) == Ones(n);
  }

  /** Every entry the compiler makes, field by field. */
  lemma CompiledEntry(net: Network, id: Id, hardwareId: nat)
    requires Deployable(net) && IsDevice(net, id)
    ensures var d := DeviceFor(net, id, hardwareId);
            && d.hardwareId == hardwareId && EntrySays(net, id, d)
            && (id.layer == 0 ==> InputSays(net, id, d))
            && (id.layer > 0 ==> ComputeSays(net, id, d))
            && (id.layer > 0 && HasBackup(net, id) ==> DutySays(net, id, d.backup.value))
  {
    assert Width(net, id.layer) <= 16;
    MaskOf(id.node);
    MaskOf(0);
    MaskOf(Width(net, id.layer));
    if id.layer > 0 {
      assert Width(net, id.layer - 1) <= 16;
      MaskOf(Width(net, id.layer - 1));
      ShapeOfLayer(net, id.layer);
    }
    hide LowBits, Bits, Deployable, LayerShape;
  }

  /** No two devices share an address, in the 16 bits it is sent in. */
  lemma AddressesUnique(net: Network, hardwareIds: seq<nat>, devices: seq<DeviceDict>, i: nat, j: nat)
    requires Deployable(net) && BuiltSoFar(net, hardwareIds, AllDevices(net), devices) && i < j < |devices|
    ensures Encoded(devices[i].address) != Encoded(devices[j].address)
  {
    hide Deployable, DevicesUpTo;
    DevicesDistinct(net, |net.layers|, i, j);
    EncodedApart(net, AllDevices(net)[i]);
    EncodedApart(net, AllDevices(net)[j]);
  }

  function Encoded(a: AddressFields): u16
  {
    EncodeFields(a.nodeId, a.layerId, a.clusterId, a.reserved)
  }

  lemma EncodedApart(net: Network, id: Id)
    requires Deployable(net) && IsDevice(net, id)
    ensures forall hardwareId: nat :: var a := Decode(Encoded(DeviceFor(net, id, hardwareId).address));
                                 a.node == id.node && a.layer == id.layer
  {
    assert Width(net, id.layer) <= 16;
    FieldsSurvive(id.node, id.layer, 0, 0);
  }

  lemma ShapeOfLayer(net: Network, layer: nat)
    requires ShapeValid(net) && 0 < layer <= |net.layers|
    ensures LayerShape(net.layers[layer - 1], Width(net, layer - 1))
  {
  }

  lemma LowBitsCount(net: Network, layer: nat)
    requires Deployable(net) && layer <= |net.layers|
    ensures var m := LowBits(Width(net, layer)); m < 0x1_0000 && |Bits(m)| == Width(net, layer)
  {
    assert Width(net, layer) <= 16;
    BitsOnes(Width(net, layer));
  }

  /** A device has one weight for every predecessor in its mask, and its standby one for every
      predecessor of its target. */
  lemma OneWeightPerPredecessor(net: Network, id: Id, hardwareId: nat)
    requires Deployable(net) && IsDevice(net, id)
    ensures var d := DeviceFor(net, id, hardwareId);
            && d.predecessors < 0x1_0000 && |Bits(d.predecessors)| == |d.weights|
            && (d.backup.Some? ==>
                  d.backup.value.predecessors < 0x1_0000
                  && |Bits(d.backup.value.predecessors)| == |d.backup.value.weights|)
  {
    hide Bits, LowBits, ShapeValid;
    if id.layer == 0 {
      BitsZero();
    } else {
      var width, spec := Width(net, id.layer - 1), net.layers[id.layer - 1];
      ShapeOfLayer(net, id.layer);
      LowBitsCount(net, id.layer - 1);
      assert spec.weights[id.node] in spec.weights;
      if HasBackup(net, id) { assert spec.weights[BackupTarget(net, id)] in spec.weights; }
    }
  }
}
