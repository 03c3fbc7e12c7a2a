/** Fair executions exist, whichever devices never take a turn: live devices take turns in
    rounds of one millisecond and receive all their groups have carried so far. */
module FairExecutions {
  import opened Messages
  import opened Nodes
  import opened DeviceRuntime
  import opened Networks
  import opened Manifests
  import opened Medium
  import opened DeviceLife
  import opened Executions
  import opened Completion

  // ---- Rounds ----

  /** The place of step `n` in its round of `period` steps, and the number of the round. */
  function Place(n: nat, period: nat): (place: nat)
    requires period > 0
    ensures place < period
  {
    if n == 0 then 0 else if Place(n - 1, period) + 1 == period then 0 else Place(n - 1, period) + 1
  }

  function Round(n: nat, period: nat): nat
    requires period > 0
  {
    if n == 0 then 0 else Round(n - 1, period) + if Place(n - 1, period) + 1 == period then 1 else 0
  }

  lemma {:induction false} FirstRound(n: nat, period: nat)
    requires n < period
    ensures Place(n, period) == n && Round(n, period) == 0
  {
    if n > 0 { FirstRound(n - 1, period); }
  }

  lemma {:induction false} RoundLater(n: nat, period: nat)
    requires period > 0
    ensures Place(n + period, period) == Place(n, period) && Round(n + period, period) == Round(n, period) + 1
  {
    if n == 0 { FirstRound(period - 1, period); } else { RoundLater(n - 1, period); }
  }

  /** The same place, `rounds` rounds later. */
  function Later(n: nat, period: nat, rounds: nat): (k: nat)
    requires period > 0
    ensures k >= n + rounds
    ensures Place(k, period) == Place(n, period) && Round(k, period) == Round(n, period) + rounds
  {
    if rounds == 0 then n
    else
      RoundLater(Later(n, period, rounds - 1), period);
      Later(n, period, rounds - 1) + period
  }

  lemma {:induction false} RoundsGrow(j: nat, k: nat, period: nat)
    requires period > 0 && j <= k
    ensures Round(j, period) <= Round(k, period)
    decreases k - j
  {
    if j < k { RoundsGrow(j, k - 1, period); }
  }

  // ---- Who takes turns ----

  ghost function LiveIn(ids: seq<Id>, faulty: iset<Id>): (live: seq<Id>)
    ensures forall id :: id in live <==> id in ids && id !in faulty
  {
    if ids == [] then []
    else (if ids[0] in faulty then [] else [ids[0]]) + LiveIn(ids[1..], faulty)
  }

  ghost function Roster(w: World, faulty: iset<Id>): seq<Id>
    requires WorldOk(w)
  {
    LiveIn(AllDevices(w.net), faulty)
  }

  lemma RosterIsLive(w: World, faulty: iset<Id>)
    requires WorldOk(w)
    ensures forall id :: id in Roster(w, faulty) <==> Live(w, faulty, id)
  {
    DevicesListed(w.net, |w.net.layers|);
  }

  /** What a device hears of a history. */
  function Heard(c: NodeConfig, history: seq<Message>): (heard: seq<Message>)
    ensures forall m :: m in heard <==> m in history && Hears(c, m.group)
  {
    if history == [] then []
    else (if Hears(c, history[0].group) then [history[0]] else []) + Heard(c, history[1..])
  }

  ghost function Period(w: World, faulty: iset<Id>): nat
    requires WorldOk(w)
  {
    |Roster(w, faulty)| + w.net.inputSize
  }

  ghost function ActionAt(w: World, faulty: iset<Id>, g: Global, n: nat): Action
    requires WorldOk(w) && Period(w, faulty) > 0
  {
    var live, at := Roster(w, faulty), Place(n, Period(w, faulty));
    if at < |live| then
      RosterIsLive(w, faulty);
      assert live[at] in live;
      Turn(live[at], Heard(ConfigOf(w.net, live[at]), g.history), Round(n, Period(w, faulty)))
    else Inject(at - |live|)
  }

  ghost function Do(w: World, g: Global, action: Action): Global
    requires WorldOk(w)
  {
    match action
    case Inject(node) =>
      if !IsNeuron(w.net, Id(0, node)) then g else g.(history := g.history + [InputMessage(w, node)])
    case Turn(id, received, time) =>
      if !IsDevice(w.net, id) || id !in g.devices then g
      else
        var (state, sent) := Step(w.arith, ConfigOf(w.net, id), g.devices[id], received, Clock(time));
        Global(g.devices[id := state], g.history + sent)
  }

  lemma ActionFits(w: World, faulty: iset<Id>, g: Global, n: nat)
    requires WorldOk(w) && Period(w, faulty) > 0
    ensures var action := ActionAt(w, faulty, g, n);
            && (action.Turn? ==> Live(w, faulty, action.id))
            && (action.Inject? ==> IsNeuron(w.net, Id(0, action.node)))
  {
    RosterIsLive(w, faulty);
    hide Roster;
    var live, at := Roster(w, faulty), Place(n, Period(w, faulty));
    if at < |live| { assert live[at] in live; }
  }

  ghost function StateAt(w: World, faulty: iset<Id>, n: nat): Global
    requires WorldOk(w) && Period(w, faulty) > 0
  {
    if n == 0 then Init(w)
    else Do(w, StateAt(w, faulty, n - 1), ActionAt(w, faulty, StateAt(w, faulty, n - 1), n - 1))
  }

  ghost function Fair(w: World, faulty: iset<Id>): Execution
    requires WorldOk(w) && Period(w, faulty) > 0
  {
    Execution((n: nat) => StateAt(w, faulty, n), (n: nat) => ActionAt(w, faulty, StateAt(w, faulty, n), n))
  }

  lemma {:induction false} AllPresent(w: World, faulty: iset<Id>, n: nat)
    requires WorldOk(w) && Period(w, faulty) > 0
    ensures forall id | IsDevice(w.net, id) :: id in StateAt(w, faulty, n).devices
  {
    hide ActionAt, Step, ConfigOf;
    if n > 0 {
      AllPresent(w, faulty, n - 1);
      ActionFits(w, faulty, StateAt(w, faulty, n - 1), n - 1);
    }
  }

  lemma FairIsExecution(w: World, faulty: iset<Id>)
    requires WorldOk(w) && Period(w, faulty) > 0
    ensures IsExecution(w, Fair(w, faulty))
  {
    var x := Fair(w, faulty);
    forall n: nat
      ensures NextAt(w, x, n)
    {
      hide StateAt, ActionAt, Next, Deployable;
      AllPresent(w, faulty, n);
      DoIsNext(w, faulty, StateAt(w, faulty, n), n);
      StateAfter(w, faulty, n);
    }
  }

  lemma DoIsNext(w: World, faulty: iset<Id>, g: Global, n: nat)
    requires WorldOk(w) && Period(w, faulty) > 0 && forall id | IsDevice(w.net, id) :: id in g.devices
    ensures var action := ActionAt(w, faulty, g, n); Next(w, g, action, Do(w, g, action))
  {
    ActionFits(w, faulty, g, n);
    ReceivesHistory(w, faulty, g, n);
    hide Step, ConfigOf, ActionAt, Deployable;
  }

  lemma ReceivesHistory(w: World, faulty: iset<Id>, g: Global, n: nat)
    requires WorldOk(w) && Period(w, faulty) > 0
    ensures var action := ActionAt(w, faulty, g, n);
            action.Turn? ==> IsDevice(w.net, action.id) && action.time == Round(n, Period(w, faulty))
                             && forall m :: m in action.received <==> m in g.history && Hears(ConfigOf(w.net, action.id), m.group)
  {
    ActionFits(w, faulty, g, n);
  }

  /** What is on the medium stays there. */
  lemma {:induction false} HistoryGrows(w: World, faulty: iset<Id>, n: nat, k: nat, m: Message)
    requires WorldOk(w) && Period(w, faulty) > 0 && n <= k && m in StateAt(w, faulty, n).history
    ensures m in StateAt(w, faulty, k).history
    decreases k - n
  {
    hide ActionAt, Step, ConfigOf, InputMessage;
    if n < k { HistoryGrows(w, faulty, n, k - 1, m); }
  }

  // ---- Everybody's turn ----

  /** A live device has a place in the round, and takes its turn there in every round. */
  lemma PlaceInRound(w: World, faulty: iset<Id>, id: Id) returns (place: nat)
    requires WorldOk(w) && Live(w, faulty, id) && Period(w, faulty) > 0
    ensures place < Period(w, faulty)
    ensures forall n: nat | Place(n, Period(w, faulty)) == place :: TurnOf(Fair(w, faulty), n, id)
  {
    RosterIsLive(w, faulty);
    var live := Roster(w, faulty);
    place :| 0 <= place < |live| && live[place] == id;
    hide Roster, StateAt;
  }

  lemma NextRound(n: nat, place: nat, period: nat) returns (k: nat)
    requires place < period
    ensures n <= k && Place(k, period) == place
  {
    FirstRound(place, period);
    k := Later(place, period, n);
  }

  /** A turn exactly `rounds` later. */
  lemma TurnLater(w: World, faulty: iset<Id>, id: Id, n: nat, rounds: nat)
    requires WorldOk(w) && Live(w, faulty, id) && Period(w, faulty) > 0 && TurnOf(Fair(w, faulty), n, id)
    ensures var x, k := Fair(w, faulty), Later(n, Period(w, faulty), rounds);
            TurnOf(x, k, id) && TimeAt(x.actions(k)) == TimeAt(x.actions(n)) + rounds
  {
    hide StateAt, Roster, Place, Round, Later, Deployable, ConfigOf;
    var k := Later(n, Period(w, faulty), rounds);
    ReceivesHistory(w, faulty, StateAt(w, faulty, n), n);
    ReceivesHistory(w, faulty, StateAt(w, faulty, k), k);
  }

  lemma KeepsTicking(w: World, faulty: iset<Id>, id: Id, span: nat, limit: nat)
    requires WorldOk(w) && Live(w, faulty, id) && Period(w, faulty) > 0 && span < limit && 1 < limit
    ensures Ticking(LifeOf(Fair(w, faulty), id), span, limit)
  {
    var x, period := Fair(w, faulty), Period(w, faulty);
    hide Fair, Live, WorldOk;
    var life := LifeOf(x, id);
    forall n: nat | life.turn(n)
      ensures TicksAfter(life, n, span, limit)
    {
      var rounds := if span == 0 then 1 else span;
      assert TurnOf(x, n, id);
      TurnLater(w, faulty, id, n, rounds);
      assert TurnBetween(life, n, Later(n, period, rounds), span, limit);
    }
  }

  lemma EverythingReaches(w: World, faulty: iset<Id>, id: Id)
    requires WorldOk(w) && Live(w, faulty, id) && Period(w, faulty) > 0
    ensures var x := Fair(w, faulty);
            HearsOnly(w, x, id) && Reached(w, x, id) && forall n: nat :: TurnsFrom(LifeOf(x, id), n)
  {
    var x, period := Fair(w, faulty), Period(w, faulty);
    var place := PlaceInRound(w, faulty, id);
    hide Live, ActionAt, StateAt, ConfigOf, Roster, Deployable;
    forall n: nat, m | TurnOf(x, n, id) && m in x.actions(n).received
      ensures Hears(ConfigOf(w.net, id), m.group)
    {
      ReceivesHistory(w, faulty, StateAt(w, faulty, n), n);
    }
    forall n: nat, m | m in x.states(n).history && Hears(ConfigOf(w.net, id), m.group)
      ensures exists k: nat :: ReceivesAt(x, k, id, m)
    {
      var k := NextRound(n, place, period);
      HistoryGrows(w, faulty, n, k, m);
      ReceivesHistory(w, faulty, StateAt(w, faulty, k), k);
      assert ReceivesAt(x, k, id, m);
    }
    forall n: nat
      ensures TurnsFrom(LifeOf(x, id), n)
    {
      var k := NextRound(n, place, period);
      assert LifeOf(x, id).turn(k);
    }
  }

  /** Whoever has received anything receives it again in every turn. */
  lemma NothingIsForgotten(w: World, faulty: iset<Id>, id: Id)
    requires WorldOk(w) && Live(w, faulty, id) && Period(w, faulty) > 0 && IsExecution(w, Fair(w, faulty))
    ensures NeverForgets(w, Fair(w, faulty), id)
  {
    var x, period := Fair(w, faulty), Period(w, faulty);
    hide Live, ActionAt, StateAt, ConfigOf, Roster, IsExecution, NeverForgets, Deployable;
    forall j: nat, k: nat
      ensures InTime(x, id, j, k)
    {
      ReceivesHistory(w, faulty, StateAt(w, faulty, j), j);
      ReceivesHistory(w, faulty, StateAt(w, faulty, k), k);
      if j <= k { RoundsGrow(j, k, period); }
    }
    forall n: nat | TurnOf(x, n, id)
      ensures NothingSoFar(x, id, n) || HeardLately(x, id, n)
    {
      if !NothingSoFar(x, id, n) {
        var k: nat :| k <= n && TurnOf(x, k, id) && x.actions(k).received != [];
        var m := x.actions(k).received[0];
        ReceivesHistory(w, faulty, StateAt(w, faulty, k), k);
        HistoryGrows(w, faulty, k, n, m);
        ReceivesHistory(w, faulty, StateAt(w, faulty, n), n);
        assert m in x.actions(n).received;
        assert HeardWithin(x, id, n, n);
      }
    }
    LiveIsDevice(w, faulty, id);
    ActiveNeverForgets(w, x, id);
  }

  lemma LiveIsDevice(w: World, faulty: iset<Id>, id: Id)
    requires Live(w, faulty, id)
    ensures IsDevice(w.net, id)
  {
  }

  lemma InjectionGoes(w: World, faulty: iset<Id>, n: nat, node: nat)
    requires WorldOk(w) && Period(w, faulty) > 0 && node < w.net.inputSize
    requires Place(n, Period(w, faulty)) == |Roster(w, faulty)| + node
    ensures InputMessage(w, node) in StateAt(w, faulty, n + 1).history
  {
    hide Place, Round, Roster, InputMessage, Deployable;
    var g := StateAt(w, faulty, n);
    assert ActionAt(w, faulty, g, n) == Inject(node);
    hide StateAt;
    assert StateAt(w, faulty, n + 1) == Do(w, g, Inject(node)) by { StateAfter(w, faulty, n); }
  }

  lemma StateAfter(w: World, faulty: iset<Id>, n: nat)
    requires WorldOk(w) && Period(w, faulty) > 0
    ensures var g := StateAt(w, faulty, n); StateAt(w, faulty, n + 1) == Do(w, g, ActionAt(w, faulty, g, n))
  {
    hide ActionAt, Do, Deployable, Init;
  }

  lemma InputsAreInjected(w: World, faulty: iset<Id>)
    requires WorldOk(w) && Period(w, faulty) > 0
    ensures InputsArrive(w, Fair(w, faulty))
  {
    hide Place, Round, Roster, StateAt, ActionAt, Deployable;
    var x, live := Fair(w, faulty), Roster(w, faulty);
    forall i: nat | i < w.net.inputSize
      ensures Appears(x, Id(0, i))
    {
      var n := |live| + i;
      FirstRound(n, Period(w, faulty));
      InjectionGoes(w, faulty, n, i);
      var m := InputMessage(w, i);
      assert m in x.states(n + 1).history && m.kind == DATA && Source(m) == Id(0, i);
      assert AppearedBy(x, n + 1, Id(0, i));
    }
  }

  /** For every network and every set of devices that never take a turn there is an execution
      that is fair to all others, and in which they look at their clocks often enough to
      release stalled turns. */
  lemma FairExecutionExists(w: World, faulty: iset<Id>) returns (x: Execution)
    requires WorldOk(w) && Period(w, faulty) > 0
    ensures FairExecution(w, x, faulty) && ReleasingExecution(w, x, faulty)
    ensures forall n: nat | x.actions(n).Turn? :: x.actions(n).id !in faulty
  {
    x := Fair(w, faulty);
    FairIsExecution(w, faulty);
    InputsAreInjected(w, faulty);
    hide IsExecution, InputsArrive, Ticking, NeverForgets, HearsOnly, Reached, ConfigOf, Deployable;
    forall n: nat | x.actions(n).Turn?
      ensures x.actions(n).id !in faulty
    {
      ActionFits(w, faulty, StateAt(w, faulty, n), n);
    }
    forall id | Live(w, faulty, id)
      ensures FairTo(w, x, id) && Ticking(LifeOf(x, id), TURN_STALL_MS, 0x8000_0000)
    {
      EverythingReaches(w, faulty, id);
      NothingIsForgotten(w, faulty, id);
      KeepsTicking(w, faulty, id, TURN_STALL_MS, 0x8000_0000);
      if HasBackup(w.net, id) { KeepsTicking(w, faulty, id, RoleOf(w.net, id).resendGraceMs, 0x1_0000_0000); }
    }
  }

  /** Devices that never take a turn, at most one in a layer and each with a live backer, are
      stood in for in an actual execution: every neuron's output appears. */
  lemma SilentDevicesAreReplaced(w: World, faulty: iset<Id>) returns (x: Execution)
    requires WorldOk(w) && Period(w, faulty) > 0 && SingleFaults(w, faulty)
    ensures IsExecution(w, x) && forall n: nat | x.actions(n).Turn? :: x.actions(n).id !in faulty
    ensures forall id | IsNeuron(w.net, id) :: Appears(x, id)
  {
    x := FairExecutionExists(w, faulty);
    hide Appears, SingleFaults, IsExecution, ReleasingExecution;
    forall id | IsNeuron(w.net, id)
      ensures Appears(x, id)
    {
      ReleaseRestoresCompletion(w, x, faulty, id);
    }
  }
}
