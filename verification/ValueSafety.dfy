/** Distributed inference computes what the centralized evaluator computes: whatever is
    lost, duplicated, reordered, crashed, substituted, re-sent, released or reset. */
module ValueSafety {
  import opened Words
  import opened Addresses
  import opened Messages
  import opened InputBuffers
  import opened Nodes
  import opened Failover
  import opened DeviceRuntime
  import opened DeviceInvariant
  import opened Networks
  import opened Medium

  ghost function ValueAt(w: World, id: Id): Float
    requires WorldOk(w) && IsNeuron(w.net, id)
  {
    Value(w.arith, w.net, w.inputs, id)
  }

  /** Only siblings of its sender are named by a CONTROL packet. */
  ghost predicate NamesSibling(m: Message)
  {
    forall own: Address | Requests(m, own) :: own.layer == m.source.layer
  }

  /** A DATA packet names a neuron and carries that neuron's value; nothing ever announces
      an unrecoverable node. */
  ghost predicate Good(w: World, m: Message)
    requires WorldOk(w)
  {
    && m.kind != TEARDOWN
    && (m.kind == CONTROL ==> !IsTeardownReport(m) && NamesSibling(m))
    && (m.kind == DATA ==>
          IsNeuron(w.net, Source(m)) && m.source.cluster == 0 && m.source.reserved == 0
          && m.values == [ValueAt(w, Source(m))])
  }

  ghost function ExpectedOf(w: World, id: Id): Expected
    requires WorldOk(w) && IsNeuron(w.net, id)
  {
    Expected(ValueAt(w, id),
             if HasBackup(w.net, id) then ValueAt(w, Id(id.layer, BackupTarget(w.net, id))) else 0,
             Values(w.arith, w.net, w.inputs, if id.layer == 0 then 0 else id.layer - 1),
             id.layer == 0)
  }

  /** Complete slots that hold the previous layer's values compute any neuron of the layer. */
  lemma ComputesValue(w: World, id: Id, sibling: Id)
    requires WorldOk(w) && IsNeuron(w.net, id) && IsNeuron(w.net, sibling) && id.layer == sibling.layer > 0
    ensures var t := ConfigOf(w.net, sibling);
            Computes(w.arith, ExpectedOf(w, id), t.predecessors, t.activation, t.bias, t.weights, ValueAt(w, sibling))
  {
    var e, t := ExpectedOf(w, id), ConfigOf(w.net, sibling);
    var width := Width(w.net, id.layer - 1);
    assert width <= MAX_PREDECESSORS;
    BitsOnes(width);
    forall slots | SlotsGood(e, slots) && Complete(slots, t.predecessors)
      ensures Output(w.arith, t.predecessors, t.activation, t.bias, t.weights, slots) == ValueAt(w, sibling)
    {
      forall i: nat | i < width
        ensures i in slots && slots[i] == [e.previous[i]]
      {
        assert i in Range(width);
      }
      OutputIsValue(w.arith, w.net, w.inputs, sibling, slots);
    }
  }

  lemma ConfigRight(w: World, id: Id)
    requires WorldOk(w) && IsNeuron(w.net, id)
    ensures Right(w.arith, ConfigOf(w.net, id), ExpectedOf(w, id))
  {
    if id.layer > 0 {
      ComputesValue(w, id, id);
      if HasBackup(w.net, id) {
        RolesMirror(w.net, id);
        ComputesValue(w, id, Id(id.layer, BackupTarget(w.net, id)));
      }
    }
  }

  lemma InputIsGood(w: World, id: Id, m: Message)
    requires WorldOk(w) && IsNeuron(w.net, id) && Good(w, m)
    ensures GoodInput(ConfigOf(w.net, id), ExpectedOf(w, id), m)
  {
  }

  lemma OutputIsGood(w: World, id: Id, m: Message)
    requires WorldOk(w) && IsNeuron(w.net, id) && GoodOutput(ConfigOf(w.net, id), ExpectedOf(w, id), m)
    ensures Good(w, m)
  {
    if m.kind == CONTROL {
      var role := ConfigOf(w.net, id).backup.value;
      FloatRoundTrip(Encode(role.target));
      Addresses.DecodeEncode(role.target);
      assert role.target.layer == m.source.layer;
    }
  }

  /** One turn of one device, in terms of the medium. */
  lemma TurnGood(w: World, id: Id, s: DeviceState, received: seq<Message>, now: u32)
    requires WorldOk(w) && IsNeuron(w.net, id)
    requires DeviceGood(ConfigOf(w.net, id), ExpectedOf(w, id), s)
    requires forall m | m in received :: Good(w, m)
    ensures var (s', sent) := Step(w.arith, ConfigOf(w.net, id), s, received, now);
            && DeviceGood(ConfigOf(w.net, id), ExpectedOf(w, id), s')
            && (forall m | m in sent :: Good(w, m))
  {
    var c, e := ConfigOf(w.net, id), ExpectedOf(w, id);
    ConfigRight(w, id);
    forall m | m in received
      ensures GoodInput(c, e, m)
    {
      InputIsGood(w, id, m);
    }
    StepGood(w.arith, c, e, s, received, now);
    var sent := Step(w.arith, c, s, received, now).1;
    forall m | m in sent
      ensures Good(w, m)
    {
      OutputIsGood(w, id, m);
    }
  }

  ghost predicate DevicesGood(w: World, devices: Devices)
    requires WorldOk(w)
  {
    forall id | IsDevice(w.net, id) ::
      id in devices && DeviceGood(ConfigOf(w.net, id), ExpectedOf(w, id), devices[id])
  }

  ghost predicate HistoryGood(w: World, history: seq<Message>)
    requires WorldOk(w)
  {
    forall m | m in history :: Good(w, m)
  }

  ghost predicate AllGood(w: World, g: Global)
    requires WorldOk(w)
  {
    DevicesGood(w, g.devices) && HistoryGood(w, g.history)
  }

  lemma NextGood(w: World, g: Global, action: Action, g': Global)
    requires WorldOk(w) && AllGood(w, g) && Next(w, g, action, g')
    ensures AllGood(w, g')
  {
    match action
    case Inject(node) =>
      assert Good(w, InputMessage(w, node));
      assert HistoryGood(w, g'.history);
    case Turn(id, received, time) =>
      TurnGood(w, id, g.devices[id], received, Clock(time));
      assert DevicesGood(w, g'.devices);
      assert HistoryGood(w, g'.history);
  }

  lemma InitGood(w: World)
    requires WorldOk(w)
    ensures AllGood(w, Init(w))
  {
    forall id | IsDevice(w.net, id)
      ensures DeviceGood(ConfigOf(w.net, id), ExpectedOf(w, id), Init(w).devices[id])
    {
      ConfigRight(w, id);
      StartGood(w.arith, ConfigOf(w.net, id), ExpectedOf(w, id), Seed(w, id), w.boot(id));
    }
  }

  lemma {:induction false} RunGood(w: World, states: seq<Global>, actions: seq<Action>)
    requires IsRun(w, states, actions)
    ensures AllGood(w, states[|actions|])
    decreases |actions|
  {
    if actions == [] {
      InitGood(w);
    } else {
      var n := |actions| - 1;
      RunPrefix(w, states, actions);
      RunGood(w, states[..n + 1], actions[..n]);
      NextGood(w, states[n], actions[n], states[n + 1]);
    }
  }

  /** In every run, every DATA packet ever on the medium under the identity (layer, node)
      carries exactly the value the evaluator assigns to that neuron. */
  lemma DistributedInferenceIsCorrect(w: World, states: seq<Global>, actions: seq<Action>, m: Message)
    requires IsRun(w, states, actions)
    requires m in states[|actions|].history && m.kind == DATA
    ensures IsNeuron(w.net, Source(m))
    ensures m.values == [Value(w.arith, w.net, w.inputs, Source(m))]
  {
    RunGood(w, states, actions);
  }

  /** In every run, no standby ever gives its target up: neither a TEARDOWN packet nor a
      report of an unrecoverable node is ever sent. */
  lemma TeardownIsUnreachable(w: World, states: seq<Global>, actions: seq<Action>, m: Message)
    requires IsRun(w, states, actions)
    requires m in states[|actions|].history
    ensures m.kind != TEARDOWN
    ensures m.kind == CONTROL ==> !IsTeardownReport(m)
  {
    RunGood(w, states, actions);
  }
}
