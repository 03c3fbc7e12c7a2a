/** Compiled, parsed and provisioned, a network description gives every device the configuration
    the runtime theorems assume. */
module Deployment {
  import opened Words
  import opened Addresses
  import opened SetupAgents
  import opened SetupHost
  import opened Provisioning
  import opened ProvisioningRuns
  import opened Nodes
  import opened Networks
  import opened Manifests
  import opened Options

  /** `_address_value`. */
  function AddressValue(a: AddressFields): u16
  {
    EncodeFields(a.nodeId, a.layerId, a.clusterId, a.reserved)
  }

  predicate RoleFits(r: RoleDict)
  {
    r.predecessors < 0x1_0000 && r.layerRoster < 0x1_0000 && r.resendGraceMs < 0x1_0000_0000 && r.predecessorLayer < 0x100
  }

  /** Every number fits the wire field it is packed into. */
  predicate Packable(d: DeviceDict)
  {
    && d.hardwareId < 0x1_0000_0000_0000_0000 && d.predecessors < 0x1_0000 && d.precedingSiblings < 0x1_0000
    && d.successor < 0x100 && d.transmitSlot < 0x100 && d.predecessorLayer < 0x100
    && (d.backup.Some? ==> RoleFits(d.backup.value))
  }

  function ParseRole(r: RoleDict): SetupHost.Backup
    requires RoleFits(r)
  {
    SetupHost.Backup(AddressValue(r.target), r.predecessors, r.layerRoster, Code(r.activation), r.weights, r.resendGraceMs,
                     r.predecessorLayer, r.bias)
  }

  /** `parse_devices` on one entry; `None` is the ManifestError about a backup target in
      another layer. */
  function ParseDevice(d: DeviceDict): Option<Entry>
    requires Packable(d)
  {
    if d.backup.Some? && d.backup.value.target.layerId != d.address.layerId then None
    else Some(Entry(d.hardwareId, AddressValue(d.address), d.predecessors, d.precedingSiblings, d.successor, d.transmitSlot,
                    Code(d.activation), d.weights, d.predecessorLayer, d.bias, d.inputValue,
                    if d.backup.Some? then Some(ParseRole(d.backup.value)) else None))
  }

  /** An entry is refused exactly when its duty is for another layer, and else is taken over field
      by field. */
  lemma ParsedExactly(d: DeviceDict)
    requires Packable(d)
    ensures ParseDevice(d).Some? <==> d.backup.None? || d.backup.value.target.layerId == d.address.layerId
    ensures ParseDevice(d).Some? ==>
              var e := ParseDevice(d).value;
              && e.hardwareId == d.hardwareId && e.address == AddressValue(d.address)
              && e.predecessors == d.predecessors && e.precedingSiblings == d.precedingSiblings
              && e.successor == d.successor && e.transmitSlot == d.transmitSlot
              && e.weights == d.weights && e.predecessorLayer == d.predecessorLayer && e.bias == d.bias
              && e.inputValue == d.inputValue && (e.backup.Some? <==> d.backup.Some?)
              && (d.backup.Some? ==>
                    var b, r := e.backup.value, d.backup.value;
                    && b.target == AddressValue(r.target) && b.predecessors == r.predecessors && b.layerRoster == r.layerRoster
                    && b.weights == r.weights && b.resendGraceMs == r.resendGraceMs
                    && b.predecessorLayer == r.predecessorLayer && b.bias == r.bias)
  {
  }

  lemma AddressComesBack(net: Network, id: Id)
    requires Deployable(net) && IsNeuron(net, id)
    ensures Addresses.Decode(AddressValue(AddressFields(id.node, id.layer, 0, 0))) == AddressOf(net, id)
  {
    assert Width(net, id.layer) <= 16;
    FieldsSurvive(id.node, id.layer, 0, 0);
  }

  lemma MasksFit(net: Network, id: Id)
    requires Deployable(net) && IsNeuron(net, id)
    ensures LowBits(id.node) == Ones(id.node) < 0x1_0000
    ensures id.layer > 0 ==> LowBits(Width(net, id.layer - 1)) == Ones(Width(net, id.layer - 1))
    ensures LowBits(Width(net, id.layer)) == Ones(Width(net, id.layer))
  {
    assert Width(net, id.layer) <= 16;
    if id.layer > 0 { assert Width(net, id.layer - 1) <= 16; }
  }

  lemma RoleCompiled(net: Network, id: Id)
    requires Deployable(net) && IsDevice(net, id) && HasBackup(net, id)
    ensures var r := RoleDictOf(net, id);
            && RoleFits(r) && r.target.layerId == id.layer && |r.weights| <= MAX_WEIGHTS
            && var b := ParseRole(r);
               RoleOf(net, id) == BackupRole(Addresses.Decode(b.target), b.predecessors, b.activation, b.weights, b.bias,
                                             b.resendGraceMs, b.layerRoster, b.predecessorLayer)
  {
    var target := Id(id.layer, BackupTarget(net, id));
    AddressComesBack(net, target);
    MasksFit(net, id);
    WeightsFit(net, target);
    hide Addresses.Decode, AddressValue, Ones, LowBits, ShapeValid;
  }

  lemma WeightsFit(net: Network, id: Id)
    requires Deployable(net) && IsNeuron(net, id) && id.layer > 0
    ensures LayerShape(net.layers[id.layer - 1], Width(net, id.layer - 1))
    ensures |net.layers[id.layer - 1].weights[id.node]| <= 16
  {
    var spec := net.layers[id.layer - 1];
    assert LayerShape(spec, Width(net, id.layer - 1)) && Width(net, id.layer - 1) <= 16;
    assert spec.weights[id.node] in spec.weights;
  }

  predicate Compiled(net: Network, id: Id, hardwareId: u64)
    requires Deployable(net) && IsDevice(net, id)
  {
    var d := DeviceFor(net, id, hardwareId);
    && Packable(d) && ParseDevice(d).Some?
    && var e := ParseDevice(d).value;
       EntryOk(e) && Intended(e) == Networks.ConfigOf(net, id) && e.hardwareId == hardwareId && e.inputValue == d.inputValue
  }

  lemma InputCompiled(net: Network, id: Id, hardwareId: u64)
    requires Deployable(net) && IsDevice(net, id) && id.layer == 0
    ensures Compiled(net, id, hardwareId)
  {
    hide Addresses.Decode, AddressValue, Ones, LowBits, RoleOf, RoleDictOf, ShapeValid, LayerShape;
    AddressComesBack(net, id);
    MasksFit(net, id);
  }

  lemma NeuronCompiled(net: Network, id: Id, hardwareId: u64)
    requires Deployable(net) && IsDevice(net, id) && id.layer > 0
    ensures Compiled(net, id, hardwareId)
  {
    hide Addresses.Decode, AddressValue, Ones, LowBits, RoleOf, RoleDictOf, ShapeValid, LayerShape, ParseRole, RoleFits, BiasOf;
    AddressComesBack(net, id);
    MasksFit(net, id);
    WeightsFit(net, id);
    if HasBackup(net, id) { RoleCompiled(net, id); ParsedWeights(RoleDictOf(net, id)); }
  }

  lemma ParsedWeights(r: RoleDict)
    requires RoleFits(r)
    ensures ParseRole(r).weights == r.weights
  {
  }

  /** A compiled entry is accepted, fits the wire and the device, and asks for exactly the
      neuron's configuration. */
  lemma CompiledIsIntended(net: Network, id: Id, hardwareId: u64)
    requires Deployable(net) && IsDevice(net, id)
    ensures var d := DeviceFor(net, id, hardwareId);
            && Packable(d) && ParseDevice(d).Some?
            && var e := ParseDevice(d).value;
               EntryOk(e) && Intended(e) == Networks.ConfigOf(net, id) && e.hardwareId == hardwareId
               && e.inputValue == d.inputValue
  {
    hide Deployable, DeviceFor, ParseDevice, Intended, Networks.ConfigOf;
    if id.layer == 0 { InputCompiled(net, id, hardwareId); } else { NeuronCompiled(net, id, hardwareId); }
  }

  lemma SeedCompiled(net: Network, id: Id, hardwareId: u64)
    requires Deployable(net) && IsDevice(net, id)
    ensures forall inputs | InputsFor(net, inputs) ::
              DeviceFor(net, id, hardwareId).inputValue == if id.layer == 0 then Some(inputs[id.node]) else None
  {
  }

  /** Compiled, sent and acknowledged: the device runs the neuron's configuration, and holds the
      input value the running system starts it with, for any inputs of the network. */
  lemma ProvisionedAsCompiled(net: Network, id: Id, hardwareId: u64, links: seq<Link>, events: seq<Event>)
    requires Deployable(net) && IsDevice(net, id)
    requires var d := DeviceFor(net, id, hardwareId);
             Packable(d) && ParseDevice(d).Some? && IsLinkRun(ParseDevice(d).value, links, events)
    ensures var l := links[|events|];
            l.host.result == Some(Success) ==>
              Sized(l.agent) && l.agent.phase == Configured && SetupAgents.ConfigOf(l.agent) == Networks.ConfigOf(net, id)
              && forall inputs | InputsFor(net, inputs) ::
                   l.agent.input == if id.layer == 0 then Some(inputs[id.node]) else None
  {
    SeedCompiled(net, id, hardwareId);
    hide Intended, IsLinkRun, Packable, ParseDevice, DeviceFor;
    CompiledIsIntended(net, id, hardwareId);
    TrueMeansConfigured(ParseDevice(DeviceFor(net, id, hardwareId)).value, links, events);
  }
}
