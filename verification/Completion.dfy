/** Progress: in every fair execution each neuron's output appears, in spite of faults. */
module Completion {
  import opened Words
  import opened Messages
  import opened Nodes
  import opened Failover
  import opened DeviceRuntime
  import opened DeviceInvariant
  import opened Networks
  import opened Medium
  import opened ValueSafety
  import opened PassProgress
  import opened DeviceLife
  import opened Executions
  import opened CircularWait

  function Neurons(layer: nat, width: nat): (ids: seq<Id>)
    ensures forall id :: id in ids <==> id.layer == layer && id.node < width
  {
    var ids := seq(width, i requires 0 <= i < width => Id(layer, i));
    assert forall id: Id :: id.layer == layer && id.node < width ==> ids[id.node] == id;
    ids
  }

  function PreviousLayer(net: Network, id: Id): seq<Id>
    requires IsNeuron(net, id)
  {
    if id.layer == 0 then [] else Neurons(id.layer - 1, Width(net, id.layer - 1))
  }

  ghost predicate AllAppear(x: Execution, ids: seq<Id>)
  {
    forall id | id in ids :: Appears(x, id)
  }

  lemma RangeIsInputs(c: NodeConfig, width: nat, layer: nat, others: seq<Id>)
    requires Bits(c.predecessors) == Range(width) && c.predecessorLayer == layer
    requires forall other | other in Neurons(layer, width) :: other in others
    ensures HasInputs(c, others)
  {
    forall i | i in Bits(c.predecessors)
      ensures Id(layer, i) in others
    {
      assert Id(layer, i) in Neurons(layer, width);
    }
  }

  lemma InputLayerIsFirst(net: Network, id: Id)
    requires Deployable(net) && IsNeuron(net, id) && id.layer == 0
    ensures ConfigOf(net, id).predecessors == 0
  {
  }

  lemma PredecessorsAreInputs(net: Network, id: Id, others: seq<Id>)
    requires Deployable(net) && IsNeuron(net, id)
    requires forall other | other in PreviousLayer(net, id) :: other in others
    ensures HasInputs(ConfigOf(net, id), others)
  {
    hide ConfigOf, Bits, Deployable;
    if id.layer == 0 {
      InputLayerIsFirst(net, id);
      BitsZero();
    } else {
      PredecessorsOf(net, id);
      hide HasInputs;
      RangeIsInputs(ConfigOf(net, id), Width(net, id.layer - 1), id.layer - 1, others);
    }
  }

  lemma InformedOf(w: World, x: Execution, id: Id, others: seq<Id>)
    requires IsExecution(w, x) && IsDevice(w.net, id) && FairTo(w, x, id)
    requires AllAppear(x, others) && forall other | other in others :: Audible(w.net, id, other)
    ensures forall other | other in others :: Informed(LifeOf(x, id), other)
  {
    forall other | other in others
      ensures Informed(LifeOf(x, id), other)
    {
      AppearedInforms(w, x, id, other);
    }
  }

  /** A live device whose inputs and smaller siblings appear speaks. */
  lemma LiveAppears(w: World, x: Execution, id: Id)
    requires IsExecution(w, x) && IsDevice(w.net, id) && FairTo(w, x, id)
    requires AllAppear(x, PreviousLayer(w.net, id)) && AllAppear(x, Neurons(id.layer, id.node))
    ensures Appears(x, id)
  {
    hide FairTo, Appears, Lives, Speaks, NextAt;
    if Appears(x, id) { return; }
    var c, life := ConfigOf(w.net, id), LifeOf(x, id);
    var others := PreviousLayer(w.net, id) + Neurons(id.layer, id.node);
    LifeLives(w, x, id);
    PredecessorsAreInputs(w.net, id, others);
    PrecedingOf(w.net, id);
    InformedOf(w, x, id, others);
    InformedSpeaks(w.arith, c, life, others);
    SpokenAppears(w, x, id, id);
  }

  /** With turn release, its inputs are enough. */
  lemma ReleasedAppears(w: World, x: Execution, id: Id)
    requires IsExecution(w, x) && IsDevice(w.net, id) && FairTo(w, x, id)
    requires Ticking(LifeOf(x, id), TURN_STALL_MS, 0x8000_0000)
    requires AllAppear(x, PreviousLayer(w.net, id))
    ensures Appears(x, id)
  {
    if Appears(x, id) { return; }
    var c, life, others := ConfigOf(w.net, id), LifeOf(x, id), PreviousLayer(w.net, id);
    LifeLives(w, x, id);
    PredecessorsAreInputs(w.net, id, others);
    InformedOf(w, x, id, others);
    ReleasedSpeaks(w.arith, c, life, others);
    SpokenAppears(w, x, id, id);
  }

  // ---- A target that never speaks ----

  lemma SpokenKeepsTarget(w: World, x: Execution, n: nat, id: Id)
    requires IsExecution(w, x) && IsDevice(w.net, id) && TurnOf(x, n, id)
    ensures var c, life := ConfigOf(w.net, id), LifeOf(x, id);
            var spoken := Spoken(w.arith, c, life.state(n), life.received(n), Now(life, n));
            spoken.standby.Some? ==> !spoken.standby.value.tornDown
  {
    var c, e, life := ConfigOf(w.net, id), ExpectedOf(w, id), LifeOf(x, id);
    ExecutionSound(w, x, n);
    Unfold(w, x, n, id);
    ConfigRight(w, id);
    forall m | m in life.received(n)
      ensures GoodInput(c, e, m)
    {
      InputIsGood(w, id, m);
    }
    SpokenGood(w.arith, c, e, life.state(n), life.received(n), Now(life, n));
  }

  lemma TargetUnheard(w: World, x: Execution, id: Id)
    requires IsExecution(w, x) && IsDevice(w.net, id) && HasBackup(w.net, id)
    requires !Appears(x, Id(id.layer, BackupTarget(w.net, id)))
    ensures Unheard(w.arith, ConfigOf(w.net, id), LifeOf(x, id))
    ensures !LifeOf(x, id).state(0).standby.value.resendRequested
  {
    var c, life, target := ConfigOf(w.net, id), LifeOf(x, id), Id(id.layer, BackupTarget(w.net, id));
    StandbyStarts(w, id);
    forall n: nat
      ensures UnheardAt(w.arith, c, life, n)
    {
      if life.turn(n) {
        SpokenKeepsTarget(w, x, n, id);
        ExecutionSound(w, x, n);
        Unfold(w, x, n, id);
        forall m | m in life.received(n) && m.kind == DATA
          ensures !IsTarget(c, m.source)
        {
          if IsTarget(c, m.source) {
            RolesMirror(w.net, id);
            assert Good(w, m) && Source(m) == target;
            assert AppearedBy(x, n, target);
          }
        }
      }
    }
  }

  lemma BackerStandsBy(net: Network, id: Id)
    requires Deployable(net) && IsDevice(net, id) && HasBackup(net, id)
    ensures StandbyEnabled(ConfigOf(net, id))
  {
    hide ShapeValid, Bits, Ones;
    var width := Width(net, id.layer);
    assert width <= 16;
    RolesMirror(net, id);
    BitsOnes(width);
    BitsNonZero(Ones(width));
    assert id.node in Bits(Ones(width));
  }

  lemma StandbyStarts(w: World, id: Id)
    requires WorldOk(w) && IsDevice(w.net, id) && HasBackup(w.net, id)
    ensures var s := Start(ConfigOf(w.net, id), Seed(w, id), w.boot(id));
            Watching(s) && !s.standby.value.resendRequested
  {
    hide Deployable, ConfigOf, Seed, StandbyEnabled;
    BackerStandsBy(w.net, id);
  }

  function Siblings(net: Network, id: Id, target: nat): (ids: seq<Id>)
    requires IsNeuron(net, id)
    ensures forall other :: other in ids <==> other.layer == id.layer && other.node < Width(net, id.layer)
                                              && other.node != id.node && other.node != target
  {
    SiblingsBelow(id, target, Width(net, id.layer))
  }

  function SiblingsBelow(id: Id, target: nat, width: nat): (ids: seq<Id>)
    ensures forall other :: other in ids <==> other.layer == id.layer && other.node < width
                                              && other.node != id.node && other.node != target
  {
    if width == 0 then []
    else SiblingsBelow(id, target, width - 1) +
         (if width - 1 == id.node || width - 1 == target then [] else [Id(id.layer, width - 1)])
  }

  /** A live backer whose inputs and all other siblings appear makes its target appear. */
  lemma TargetAppears(w: World, x: Execution, id: Id)
    requires IsExecution(w, x) && IsDevice(w.net, id) && FairTo(w, x, id) && HasBackup(w.net, id)
    requires AllAppear(x, PreviousLayer(w.net, id))
    requires AllAppear(x, Siblings(w.net, id, BackupTarget(w.net, id)))
    ensures Appears(x, Id(id.layer, BackupTarget(w.net, id)))
  {
    var target := Id(id.layer, BackupTarget(w.net, id));
    if !Appears(x, target) {
      var c, life := ConfigOf(w.net, id), LifeOf(x, id);
      var others := PreviousLayer(w.net, id) + Siblings(w.net, id, target.node);
      LifeLives(w, x, id);
      TargetUnheard(w, x, id);
      PredecessorsAreInputs(w.net, id, others);
      RoundIsSiblings(w.net, id, others);
      InformedOf(w, x, id, others);
      UnheardTargetIsSubstituted(w.arith, c, life, others);
      RolesMirror(w.net, id);
      SpokenAppears(w, x, id, target);
    }
  }

  lemma RoundIsSiblings(net: Network, id: Id, others: seq<Id>)
    requires Deployable(net) && IsNeuron(net, id) && HasBackup(net, id)
    requires forall other | other in Siblings(net, id, BackupTarget(net, id)) :: other in others
    ensures HasRound(ConfigOf(net, id), others)
  {
    var c, role := ConfigOf(net, id), RoleOf(net, id);
    RosterOf(net, id);
    hide ConfigOf, RoleOf, Deployable;
    forall j | j in Others(c, role)
      ensures Id(id.layer, j) in others
    {
      assert Id(id.layer, j) in Siblings(net, id, BackupTarget(net, id));
    }
  }

  // ---- Whole networks ----

  ghost predicate BackedBy(w: World, faulty: iset<Id>, target: Id, b: nat)
  {
    var backer := Id(target.layer, b);
    WorldOk(w) && Live(w, faulty, backer) && HasBackup(w.net, backer) && BackupTarget(w.net, backer) == target.node
  }

  /** Every faulty device has a live backer that waits for no sibling after it. */
  ghost predicate Recoverable(w: World, faulty: iset<Id>)
    requires WorldOk(w)
  {
    forall t | t in faulty && IsDevice(w.net, t) ::
      exists b: nat :: BackedBy(w, faulty, t, b) && !WaitsForAnother(Width(w.net, t.layer), t.node, b)
  }

  lemma {:induction false} PrefixAppears(w: World, x: Execution, faulty: iset<Id>, layer: nat, k: nat)
    requires FairExecution(w, x, faulty) && Recoverable(w, faulty)
    requires layer <= |w.net.layers| && k <= Width(w.net, layer)
    ensures AllAppear(x, Neurons(layer, k))
    decreases layer, k
  {
    hide FairExecution, Recoverable, Appears;
    if k > 0 {
      PrefixAppears(w, x, faulty, layer, k - 1);
      if layer > 0 { PrefixAppears(w, x, faulty, layer - 1, Width(w.net, layer - 1)); }
      NeuronAppears(w, x, faulty, Id(layer, k - 1));
      forall id | id in Neurons(layer, k)
        ensures Appears(x, id)
      {
        if id.node < k - 1 { assert id in Neurons(layer, k - 1); }
      }
    }
  }

  lemma NeuronAppears(w: World, x: Execution, faulty: iset<Id>, id: Id)
    requires FairExecution(w, x, faulty) && Recoverable(w, faulty) && IsNeuron(w.net, id)
    requires AllAppear(x, PreviousLayer(w.net, id)) && AllAppear(x, Neurons(id.layer, id.node))
    ensures Appears(x, id)
  {
    if !IsDevice(w.net, id) {
    } else if id !in faulty {
      hide FairTo, Recoverable;
      assert Live(w, faulty, id);
      LiveAppears(w, x, id);
    } else {
      var b: nat :| BackedBy(w, faulty, id, b) && !WaitsForAnother(Width(w.net, id.layer), id.node, b);
      BackedAppears(w, x, faulty, id, b);
    }
  }

  /** A backer that waits for nobody after its target stands in for it. */
  lemma BackedAppears(w: World, x: Execution, faulty: iset<Id>, id: Id, b: nat)
    requires FairExecution(w, x, faulty) && IsDevice(w.net, id)
    requires BackedBy(w, faulty, id, b) && !WaitsForAnother(Width(w.net, id.layer), id.node, b)
    requires AllAppear(x, PreviousLayer(w.net, id)) && AllAppear(x, Neurons(id.layer, id.node))
    ensures Appears(x, id)
  {
    hide FairTo, Appears;
    var backer := Id(id.layer, b);
    forall other | other in Siblings(w.net, backer, id.node)
      ensures Appears(x, other)
    {
      assert other in Neurons(id.layer, id.node);
    }
    TargetAppears(w, x, backer);
  }

  /** Every neuron's output appears, faulty devices' included, in every fair execution in which
      each faulty device has a live backer that waits for no sibling after it. Faulty devices
      may stop at any point or run on; without faulty devices nothing is asked of the backups. */
  lemma EveryNeuronAppears(w: World, x: Execution, faulty: iset<Id>, id: Id)
    requires FairExecution(w, x, faulty) && Recoverable(w, faulty) && IsNeuron(w.net, id)
    ensures Appears(x, id)
  {
    PrefixAppears(w, x, faulty, id.layer, Width(w.net, id.layer));
    assert id in Neurons(id.layer, Width(w.net, id.layer));
  }

  // ---- With turn release ----

  /** Live devices also look at their clocks often enough to see a stalled turn. */
  ghost predicate ReleasingExecution(w: World, x: Execution, faulty: iset<Id>)
  {
    FairExecution(w, x, faulty) &&
    forall id | Live(w, faulty, id) :: Ticking(LifeOf(x, id), TURN_STALL_MS, 0x8000_0000)
  }

  /** At most one fault in a layer, and it has a live backer. */
  ghost predicate SingleFaults(w: World, faulty: iset<Id>)
    requires WorldOk(w)
  {
    forall t | t in faulty && IsDevice(w.net, t) ::
      && (forall t' | t' in faulty && t'.layer == t.layer :: t' == t)
      && exists b: nat :: BackedBy(w, faulty, t, b)
  }

  lemma {:induction false} LayerAppearsReleased(w: World, x: Execution, faulty: iset<Id>, layer: nat)
    requires ReleasingExecution(w, x, faulty) && SingleFaults(w, faulty) && layer <= |w.net.layers|
    ensures AllAppear(x, Neurons(layer, Width(w.net, layer)))
  {
    hide FairExecution, ReleasingExecution, SingleFaults, Appears;
    if layer > 0 { LayerAppearsReleased(w, x, faulty, layer - 1); }
    forall id | id in Neurons(layer, Width(w.net, layer))
      ensures Appears(x, id)
    {
      NeuronAppearsReleased(w, x, faulty, id);
    }
  }

  lemma NeuronAppearsReleased(w: World, x: Execution, faulty: iset<Id>, id: Id)
    requires ReleasingExecution(w, x, faulty) && SingleFaults(w, faulty) && IsNeuron(w.net, id)
    requires AllAppear(x, PreviousLayer(w.net, id))
    ensures Appears(x, id)
  {
    if !IsDevice(w.net, id) {
    } else if id !in faulty {
      hide FairTo, SingleFaults;
      assert Live(w, faulty, id);
      ReleasedAppears(w, x, id);
    } else {
      var b: nat :| BackedBy(w, faulty, id, b);
      BackedAppearsReleased(w, x, faulty, id, b);
    }
  }

  lemma BackedAppearsReleased(w: World, x: Execution, faulty: iset<Id>, id: Id, b: nat)
    requires ReleasingExecution(w, x, faulty) && IsDevice(w.net, id) && BackedBy(w, faulty, id, b)
    requires forall t | t in faulty && t.layer == id.layer :: t == id
    requires AllAppear(x, PreviousLayer(w.net, id))
    ensures Appears(x, id)
  {
    hide FairTo, Appears, Ticking, LifeOf, InputsArrive, IsExecution, Deployable;
    var backer := Id(id.layer, b);
    forall other | other in Siblings(w.net, backer, id.node)
      ensures Appears(x, other)
    {
      assert IsDevice(w.net, other) && PreviousLayer(w.net, other) == PreviousLayer(w.net, id);
      assert Live(w, faulty, other);
      ReleasedAppears(w, x, other);
    }
    assert PreviousLayer(w.net, backer) == PreviousLayer(w.net, id);
    TargetAppears(w, x, backer);
  }

  /** Releasing stalled turns makes every single fault with a live backer recoverable,
      whichever siblings come after it. */
  lemma ReleaseRestoresCompletion(w: World, x: Execution, faulty: iset<Id>, id: Id)
    requires ReleasingExecution(w, x, faulty) && SingleFaults(w, faulty) && IsNeuron(w.net, id)
    ensures Appears(x, id)
  {
    LayerAppearsReleased(w, x, faulty, id.layer);
    assert id in Neurons(id.layer, Width(w.net, id.layer));
  }
}
