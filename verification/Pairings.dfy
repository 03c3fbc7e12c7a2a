/** Backup pairings: what the mapper warns about (`backup_detection_caveats`), what the warning
    means at run time, and what the firmware's own validation does not notice. */
module Pairings {
  import opened Words
  import opened Addresses
  import opened Arithmetic
  import opened Messages
  import opened InputBuffers
  import opened Nodes
  import opened Failover
  import opened Networks
  import opened Medium
  import opened TurnOrder
  import opened CircularWait
  import opened Executions
  import opened Completion
  import opened Options

  datatype Caveat = NoRoundEndSignal | TargetNotLast(backer: int, target: int, suggested: int)

  /** The pairing makes siblings after the target stall when the target dies. */
  predicate StallsLater(size: nat, target: int)
  {
    target < size - 1
  }

  /** `sorted(backups.items())`. */
  predicate SortedItems(backups: map<int, int>, items: seq<(int, int)>)
  {
    && (forall i, j | 0 <= i < j < |items| :: items[i].0 < items[j].0)
    && (forall p | p in items :: p.0 in backups && backups[p.0] == p.1)
    && (forall b | b in backups :: (b, backups[b]) in items)
  }

  /** The caveats of the pairs, in their order. */
  function Caveats(size: nat, items: seq<(int, int)>): seq<Caveat>
  {
    if items == [] then []
    else
      var n := |items| - 1;
      var (backer, target) := items[n];
      Caveats(size, items[..n]) + (if StallsLater(size, target) then [TargetNotLast(backer, target, size - 1)] else [])
  }

  function RoundCaveat(size: nat, backups: map<int, int>): seq<Caveat>
  {
    if backups != map[] && size == 2 then [NoRoundEndSignal] else []
  }

  /** `backup_detection_caveats`, on any pairings: one caveat for a layer of two, and one for
      each pairing whose target is not the last node. */
  method DetectionCaveats(size: nat, backups: map<int, int>, items: seq<(int, int)>) returns (caveats: seq<Caveat>)
    requires SortedItems(backups, items)
    ensures caveats == RoundCaveat(size, backups) + Caveats(size, items)
    ensures NoRoundEndSignal in caveats <==> backups != map[] && size == 2
    ensures forall b, t, last :: TargetNotLast(b, t, last) in caveats <==>
                            b in backups && backups[b] == t && t < size - 1 && last == size - 1
  {
    CaveatsMean(size, backups, items);
    hide SortedItems;
    FirstItem(backups, items);
    caveats := [];
    if backups == map[] { return; }
    if size == 2 { caveats := [NoRoundEndSignal]; }
    ghost var start := caveats;
    for i := 0 to |items|
      invariant caveats == start + Caveats(size, items[..i])
    {
      assert items[..i + 1][..i] == items[..i];
      var (backer, target) := items[i];
      if target < size - 1 {
        caveats := caveats + [TargetNotLast(backer, target, size - 1)];
      }
    }
    assert items[..|items|] == items;
  }

  lemma FirstItem(backups: map<int, int>, items: seq<(int, int)>)
    requires SortedItems(backups, items)
    ensures items != [] ==> items[0].0 in backups
  {
    if items != [] { assert items[0] in items; }
  }

  lemma CaveatsMean(size: nat, backups: map<int, int>, items: seq<(int, int)>)
    requires SortedItems(backups, items)
    ensures var caveats := RoundCaveat(size, backups) + Caveats(size, items);
            && (NoRoundEndSignal in caveats <==> backups != map[] && size == 2)
            && (forall b, t, last :: TargetNotLast(b, t, last) in caveats <==>
                                b in backups && backups[b] == t && t < size - 1 && last == size - 1)
  {
    CaveatsAre(size, items);
    ItemsArePairs(backups, items);
    hide Caveats, SortedItems;
  }

  lemma ItemsArePairs(backups: map<int, int>, items: seq<(int, int)>)
    requires SortedItems(backups, items)
    ensures forall b, t :: (b, t) in items <==> b in backups && backups[b] == t
  {
    forall b, t
      ensures (b, t) in items <==> b in backups && backups[b] == t
    {
      if (b, t) in items { assert (b, t).0 in backups; }
    }
  }

  lemma {:induction false} CaveatsAre(size: nat, items: seq<(int, int)>)
    ensures NoRoundEndSignal !in Caveats(size, items)
    ensures forall b, t, last :: TargetNotLast(b, t, last) in Caveats(size, items) <==>
                            (b, t) in items && StallsLater(size, t) && last == size - 1
  {
    if items != [] {
      var n := |items| - 1;
      CaveatsAre(size, items[..n]);
      assert items == items[..n] + [items[n]];
      assert items[n] == (items[n].0, items[n].1);
    }
  }

  /** The caveat is raised for every pairing that can end in a circular wait, and for one kind
      more: a backer right after its target with nobody after the backer. */
  lemma CaveatCoversCircularWait(size: nat, backer: nat, target: nat)
    requires backer < size && target < size && backer != target
    ensures StallsLater(size, target) <==>
              WaitsForAnother(size, target, backer) || (backer == target + 1 && backer == size - 1)
  {
  }

  /** When a crash ends in a permanent circular wait, the mapper has warned about the pairing. */
  lemma CircularWaitWasAnnounced(net: Network, dead: Id, backer: nat, items: seq<(int, int)>)
    requires ShapeValid(net) && Unrecoverable(net, dead)
    requires IsNeuron(net, Id(dead.layer, backer)) && HasBackup(net, Id(dead.layer, backer))
    requires BackupTarget(net, Id(dead.layer, backer)) == dead.node
    requires SortedItems(net.layers[dead.layer - 1].backups, items)
    ensures var spec := net.layers[dead.layer - 1];
            TargetNotLast(backer, dead.node, spec.nodes - 1) in Caveats(spec.nodes, items)
  {
    hide ShapeValid, Caveats;
    var spec := net.layers[dead.layer - 1];
    assert spec.backups[backer] == dead.node;
    assert WaitsForAnother(Width(net, dead.layer), dead.node, backer);
    CaveatsAre(spec.nodes, items);
  }

  /** The backer of a pairing without caveat. */
  ghost predicate Unannounced(w: World, faulty: iset<Id>, t: Id, b: nat)
    requires WorldOk(w) && IsNeuron(w.net, t)
  {
    BackedBy(w, faulty, t, b) && !StallsLater(Width(w.net, t.layer), t.node)
  }

  /** With pairings the mapper raises no caveat about, no turn ever has to be released: whatever
      faulty devices do, every neuron's output appears. */
  lemma NoCaveatNoRelease(w: World, x: Execution, faulty: iset<Id>, id: Id)
    requires FairExecution(w, x, faulty) && IsNeuron(w.net, id)
    requires forall t | t in faulty && IsDevice(w.net, t) :: exists b: nat :: Unannounced(w, faulty, t, b)
    ensures Appears(x, id)
  {
    hide FairExecution, Appears, BackedBy;
    assert WorldOk(w) by { FairWorld(w, x, faulty); }
    forall t | t in faulty && IsDevice(w.net, t)
      ensures exists b: nat :: BackedBy(w, faulty, t, b) && !WaitsForAnother(Width(w.net, t.layer), t.node, b)
    {
      var b: nat :| Unannounced(w, faulty, t, b);
      assert !WaitsForAnother(Width(w.net, t.layer), t.node, b);
    }
    EveryNeuronAppears(w, x, faulty, id);
  }

  // ---- One crash ----

  /** For any number of backers: a crash that is not beyond recovery has a live backer that
      waits for nobody after it. */
  lemma RecoverableOrNot(w: World, dead: Id)
    requires WorldOk(w) && IsNeuron(w.net, dead) && dead.layer > 0
    ensures Recoverable(w, iset{dead}) <==> !Unrecoverable(w.net, dead)
  {
    hide WaitsForAnother, Deployable;
    var width := Width(w.net, dead.layer);
    if Recoverable(w, iset{dead}) {
      var b: nat :| BackedBy(w, iset{dead}, dead, b) && !WaitsForAnother(width, dead.node, b);
      assert IsNeuron(w.net, Id(dead.layer, b)) && HasBackup(w.net, Id(dead.layer, b));
    }
    if !Unrecoverable(w.net, dead) {
      var b: nat :| IsNeuron(w.net, Id(dead.layer, b)) && HasBackup(w.net, Id(dead.layer, b))
                    && w.net.layers[dead.layer - 1].backups[b] == dead.node && !WaitsForAnother(width, dead.node, b);
      BackerIsLive(w, dead, b);
    }
  }

  lemma BackerIsLive(w: World, dead: Id, b: nat)
    requires WorldOk(w) && IsNeuron(w.net, dead) && dead.layer > 0
    requires var own := Id(dead.layer, b);
             IsNeuron(w.net, own) && HasBackup(w.net, own) && w.net.layers[dead.layer - 1].backups[b] == dead.node
    ensures BackedBy(w, iset{dead}, dead, b)
  {
    assert BackupTarget(w.net, Id(dead.layer, b)) == dead.node;
  }

  /** One crash, any backers. If every backer has to wait for some sibling after the crashed
      node other than itself, no run without turn release gets past the crash; and otherwise
      every fair execution does, for every neuron of the network. */
  lemma SingleCrashIsDecided(w: World, dead: Id)
    requires WorldOk(w) && IsNeuron(w.net, dead) && dead.layer > 0
    ensures Unrecoverable(w.net, dead) ==>
              forall states: seq<Global>, actions: seq<Action>, m: Message |
                CrashedRun(w, dead, states, actions) && m in states[|actions|].history
                && m.kind == DATA && m.source.layer == dead.layer :: m.source.node < dead.node
    ensures !Unrecoverable(w.net, dead) ==>
              forall x: Execution, id: Id | FairExecution(w, x, iset{dead}) && IsNeuron(w.net, id) :: Appears(x, id)
  {
    hide Unrecoverable, FairExecution, Appears, Recoverable, Deployable, NextIn, Mute, Quiet;
    RecoverableOrNot(w, dead);
    if Unrecoverable(w.net, dead) {
      forall states: seq<Global>, actions: seq<Action>, m: Message |
        CrashedRun(w, dead, states, actions) && m in states[|actions|].history
        && m.kind == DATA && m.source.layer == dead.layer
        ensures m.source.node < dead.node
      {
        CircularWaitIsPermanent(w, dead, states, actions, m);
      }
    } else {
      forall x: Execution, id: Id | FairExecution(w, x, iset{dead}) && IsNeuron(w.net, id)
        ensures Appears(x, id)
      {
        EveryNeuronAppears(w, x, iset{dead}, id);
      }
    }
  }

  /** Nobody releases a turn, and `dead` sends no DATA. */
  ghost predicate CrashedAt(w: World, x: Execution, dead: Id, n: nat)
    requires WorldOk(w)
  {
    Quiet(w, x.states(n), x.actions(n)) && Mute(w, dead, x.states(n), x.actions(n))
  }

  ghost predicate CrashedExecution(w: World, x: Execution, dead: Id)
  {
    IsExecution(w, x) && forall n: nat :: CrashedAt(w, x, dead, n)
  }

  /** The first `n` steps of a crashed execution are a crashed run. */
  lemma CrashedPrefix(w: World, x: Execution, dead: Id, n: nat) returns (states: seq<Global>, actions: seq<Action>)
    requires CrashedExecution(w, x, dead)
    ensures CrashedRun(w, dead, states, actions) && |actions| == n && states[n] == x.states(n)
  {
    hide Quiet, Mute, Next, Init;
    states, actions := seq(n + 1, (i: nat) => x.states(i)), seq(n, (i: nat) => x.actions(i));
    forall i: nat | i < n
      ensures NextIn(w, states, actions, i) && Quiet(w, states[i], actions[i]) && Mute(w, dead, states[i], actions[i])
    {
      assert NextAt(w, x, i) && CrashedAt(w, x, dead, i);
    }
  }

  /** In a fair execution in which one node is crashed and no turn is released, the crashed
      node's output appears exactly when the crash is not beyond recovery -- and then so does
      every other neuron's. */
  lemma CrashedExecutionRecovers(w: World, x: Execution, dead: Id)
    requires FairExecution(w, x, iset{dead}) && CrashedExecution(w, x, dead)
    requires IsNeuron(w.net, dead) && dead.layer > 0
    ensures Appears(x, dead) <==> !Unrecoverable(w.net, dead)
    ensures (forall id: Id | IsNeuron(w.net, id) :: Appears(x, id)) <==> !Unrecoverable(w.net, dead)
  {
    hide FairExecution, CrashedExecution, Unrecoverable, CrashedRun;
    assert WorldOk(w) by { FairWorld(w, x, iset{dead}); }
    SingleCrashIsDecided(w, dead);
    if Unrecoverable(w.net, dead) && Appears(x, dead) {
      var n: nat :| AppearedBy(x, n, dead);
      var m :| m in x.states(n).history && m.kind == DATA && Source(m) == dead;
      var states, actions := CrashedPrefix(w, x, dead, n);
      CircularWaitIsPermanent(w, dead, states, actions, m);
    }
  }

  lemma FairWorld(w: World, x: Execution, faulty: iset<Id>)
    requires FairExecution(w, x, faulty)
    ensures WorldOk(w)
  {
  }

  // ---- Substitutes ----

  /** For every backup the compiler emits, and equal inputs, the substitute is the target's own
      packet: same address, same type, same value, operation for operation. */
  lemma CompiledSubstitute(a: Arith<Float>, net: Network, id: Id, slots: Slots, s: NodeState)
    requires Deployable(net) && IsNeuron(net, id) && HasBackup(net, id)
    requires var target := Networks.ConfigOf(net, Id(id.layer, BackupTarget(net, id)));
             forall i | i in Bits(target.predecessors) :: Input(slots, i) == Input(s.slots, i)
    ensures var target := Networks.ConfigOf(net, Id(id.layer, BackupTarget(net, id)));
            var own, sub := OutputMessage(target, NodeExecute(a, target, s)), Substitute(a, RoleOf(net, id), slots);
            sub.source == own.source && sub.kind == own.kind && sub.values == own.values
  {
    RolesMirror(net, id);
    var target := Networks.ConfigOf(net, Id(id.layer, BackupTarget(net, id)));
    SubstituteIsTargetOutput(a, RoleOf(net, id), target, slots, s);
  }

  /** The firmware's validation is no substitute for compiling: a pairing it finds no issue with
      can stand in with a different value, since it compares how many weights there are, not
      which. */
  lemma ValidatedCanDiffer()
    returns (a: Arith<Float>, backup: NodeConfig, target: NodeConfig, s: NodeState)
    ensures backup.backup.Some? && Issues(backup, target) == []
    ensures Substitute(a, backup.backup.value, s.slots).values != OutputMessage(target, NodeExecute(a, target, s)).values
  {
    var identity := (x: Float) => x;
    a := Arith((x: Float, y: Float) => y, (x: Float, y: Float) => y, Curves(identity, identity, identity));
    var own, other := Address(0, 1, 0, 0), Address(1, 1, 0, 0);
    var role := BackupRole(other, 1, 3, [7], 0, 50, 3, 0);
    backup := NodeConfig(own, 1, 2, 0, 3, [5], 0, 0, 1, 0, Some(role));
    target := NodeConfig(other, 1, 2, 1, 3, [9], 0, 0, 1, 1, None);
    s := NodeState(map[0 := [1]], false, 0);
    OneInput(a, s.slots, 7);
    OneInput(a, s.slots, 9);
  }

  /** A neuron that listens to sender 0 alone, under an arithmetic that keeps the last factor. */
  lemma OneInput(a: Arith<Float>, slots: Slots, weight: Float)
    requires slots == map[0 := [1]]
    requires a.add(0, a.mul(1, weight)) == weight && Activate(a.curves, 3, weight) == weight
    ensures Output(a, 1, 3, 0, [weight], slots) == weight
  {
    var mask := Bits(1);
    TestPow2(0, 0);
    forall k: nat
      ensures Test(1, k) == (k == 0)
    {
      TestPow2(0, k);
    }
    NothingBeyond(slots, mask, 1);
    assert Gather(slots, mask, 0) == [1 as Float] + Gather(slots, mask, 1);
    assert [1 as Float][1..] == [] && [weight][1..] == [];
    assert Dot(a, 0, [1 as Float], [weight]) == Dot(a, weight, [], []);
  }

  lemma {:induction false} NothingBeyond(slots: Slots, mask: set<nat>, from: nat)
    requires forall k | k in mask :: k < from
    ensures Gather(slots, mask, from) == []
    decreases MAX_PREDECESSORS - from
  {
    if from < MAX_PREDECESSORS {
      NothingBeyond(slots, mask, from + 1);
    }
  }
}
