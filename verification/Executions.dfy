/** Infinite executions, and what a fair one owes its live devices. */
module Executions {
  import opened Words
  import opened Messages
  import opened Nodes
  import opened Schedulers
  import opened Failover
  import opened DeviceRuntime
  import opened Networks
  import opened Medium
  import opened ValueSafety
  import opened PassProgress
  import opened Routing
  import opened DeviceLife
  import opened OutputRetention
  import opened Options

  datatype Execution = Execution(states: nat -> Global, actions: nat -> Action)

  ghost predicate NextAt(w: World, x: Execution, n: nat)
    requires WorldOk(w)
  {
    Next(w, x.states(n), x.actions(n), x.states(n + 1))
  }

  ghost predicate IsExecution(w: World, x: Execution)
  {
    && WorldOk(w)
    && x.states(0) == Init(w)
    && forall n: nat :: NextAt(w, x, n)
  }

  predicate TurnOf(x: Execution, n: nat, id: Id)
  {
    x.actions(n).Turn? && x.actions(n).id == id
  }

  /** DATA under this identity is on the medium by step `n`. */
  predicate AppearedBy(x: Execution, n: nat, id: Id)
  {
    exists m :: m in x.states(n).history && m.kind == DATA && Source(m) == id
  }

  ghost predicate Appears(x: Execution, id: Id)
  {
    exists n: nat :: AppearedBy(x, n, id)
  }

  // ---- Invariants of every execution ----

  ghost predicate Sound(w: World, g: Global)
    requires WorldOk(w)
  {
    AllGood(w, g) && AllDevicesRouted(w, g.devices) && HistoryRouted(g.history)
  }

  lemma InitSound(w: World)
    requires WorldOk(w)
    ensures Sound(w, Init(w))
  {
    InitGood(w);
  }

  lemma NextSound(w: World, g: Global, action: Action, g': Global)
    requires WorldOk(w) && Sound(w, g) && Next(w, g, action, g')
    ensures Sound(w, g')
  {
    NextGood(w, g, action, g');
    NextRouted(w, g, action, g');
  }

  lemma {:induction false} ExecutionSound(w: World, x: Execution, n: nat)
    requires IsExecution(w, x)
    ensures Sound(w, x.states(n))
  {
    if n == 0 {
      InitSound(w);
    } else {
      var k: nat := n - 1;
      ExecutionSound(w, x, k);
      assert NextAt(w, x, k);
      NextSound(w, x.states(k), x.actions(k), x.states(n));
    }
  }

  /** What there is to say of a device that does not exist. */
  const ABSENT := DeviceState(FRESH_SCHEDULER, None, ResponderState(None), SuppressorState({}), false, 0, false, false,
                              false, 0, 0, IDLE_RETX, IDLE_RETX, IDLE_RETX)

  function TimeAt(action: Action): nat
  {
    if action.Turn? then action.time else 0
  }

  /** A device's part of an execution. */
  function LifeOf(x: Execution, id: Id): Life
  {
    Life((n: nat) => if id in x.states(n).devices then x.states(n).devices[id] else ABSENT,
         (n: nat) => TurnOf(x, n, id),
         (n: nat) => if x.actions(n).Turn? then x.actions(n).received else [],
         (n: nat) => TimeAt(x.actions(n)))
  }

  // ---- Fairness, for a device that is not faulty ----

  ghost predicate Live(w: World, faulty: iset<Id>, id: Id)
  {
    IsDevice(w.net, id) && id !in faulty
  }

  /** It receives only what its groups carry ... */
  ghost predicate HearsOnly(w: World, x: Execution, id: Id)
    requires WorldOk(w) && IsNeuron(w.net, id)
  {
    forall n: nat, m | TurnOf(x, n, id) && m in x.actions(n).received :: Hears(ConfigOf(w.net, id), m.group)
  }

  predicate ReceivesAt(x: Execution, k: nat, id: Id, m: Message)
  {
    TurnOf(x, k, id) && m in x.actions(k).received
  }

  /** ... and every packet they carry reaches it at least once. */
  ghost predicate Reached(w: World, x: Execution, id: Id)
    requires WorldOk(w) && IsNeuron(w.net, id)
  {
    forall n: nat, m | m in x.states(n).history && Hears(ConfigOf(w.net, id), m.group) ::
      exists k: nat :: ReceivesAt(x, k, id, m)
  }

  /** It, or the sibling it backs up, has not been heard of by step `n`. */
  ghost predicate Pending(w: World, x: Execution, n: nat, id: Id)
    requires WorldOk(w) && IsNeuron(w.net, id)
  {
    !AppearedBy(x, n, id) || (HasBackup(w.net, id) && !AppearedBy(x, n, Id(id.layer, BackupTarget(w.net, id))))
  }

  /** Until then no pass in which it has heard anything is closed for want of activity. An
      empty pass may be, any number of times. */
  ghost predicate NeverForgets(w: World, x: Execution, id: Id)
    requires IsExecution(w, x) && IsDevice(w.net, id)
  {
    var life := LifeOf(x, id);
    forall n: nat | life.turn(n) && Pending(w, x, n, id) ::
      var spoken := Spoken(w.arith, ConfigOf(w.net, id), life.state(n), life.received(n), Now(life, n));
      IdleExpired(spoken, Now(life, n)) ==> EmptyPass(spoken)
  }

  /** A device that needs inputs and has received nothing so far, since boot, has an empty
      pass, however often it was closed: waiting for the first packet forgets nothing. */
  lemma {:induction false} WaitingForgetsNothing(w: World, x: Execution, id: Id, n: nat)
    requires IsExecution(w, x) && IsDevice(w.net, id) && ConfigOf(w.net, id).predecessors != 0
    requires forall k: nat | k <= n && TurnOf(x, k, id) :: x.actions(k).received == []
    ensures var life := LifeOf(x, id);
            && Unstarted(life.state(n))
            && Unstarted(Spoken(w.arith, ConfigOf(w.net, id), life.state(n), [], Now(life, n)))
  {
    hide ConfigOf, Unstarted, Step, Spoken;
    var c, life := ConfigOf(w.net, id), LifeOf(x, id);
    if n == 0 {
      Present(w, x, 0, id);
      StartUnstarted(c, Seed(w, id), w.boot(id));
    } else {
      var k: nat := n - 1;
      WaitingForgetsNothing(w, x, id, k);
      Unfold(w, x, k, id);
      if life.turn(k) { QuietTurnStaysEmpty(w.arith, c, life.state(k), Now(life, k)); }
    }
    QuietTurnStaysEmpty(w.arith, c, life.state(n), Now(life, n));
  }

  lemma StartUnstarted(c: NodeConfig, seed: Option<Float>, now: u32)
    requires c.predecessors != 0
    ensures Unstarted(Start(c, seed, now))
  {
  }

  /** Turn `k` received something, no longer before turn `n` than a pass may be idle. */
  predicate HeardWithin(x: Execution, id: Id, k: nat, n: nat)
  {
    && k <= n && TurnOf(x, k, id) && TurnOf(x, n, id) && x.actions(k).received != []
    && TimeAt(x.actions(n)) < TimeAt(x.actions(k)) + PASS_IDLE_MS
  }

  ghost predicate HeardLately(x: Execution, id: Id, n: nat)
  {
    exists k: nat :: HeardWithin(x, id, k, n)
  }

  ghost predicate NothingSoFar(x: Execution, id: Id, n: nat)
  {
    forall k: nat | k <= n && TurnOf(x, k, id) :: x.actions(k).received == []
  }

  /** The device's turns are in the order of their times. */
  predicate InTime(x: Execution, id: Id, j: nat, k: nat)
  {
    j <= k && TurnOf(x, j, id) && TurnOf(x, k, id) ==> TimeAt(x.actions(j)) <= TimeAt(x.actions(k))
  }

  /** A device that, until its output and its target's have appeared, either has received nothing
      at all yet or something in the last five seconds, forgets nothing. */
  lemma ActiveNeverForgets(w: World, x: Execution, id: Id)
    requires IsExecution(w, x) && IsDevice(w.net, id)
    requires forall j: nat, k: nat :: InTime(x, id, j, k)
    requires forall n: nat | TurnOf(x, n, id) && Pending(w, x, n, id) :: NothingSoFar(x, id, n) || HeardLately(x, id, n)
    ensures NeverForgets(w, x, id)
  {
    hide ConfigOf, Spoken, EmptyPass, IdleExpired, Pending, TurnOf;
    var c, life := ConfigOf(w.net, id), LifeOf(x, id);
    forall n: nat | life.turn(n) && Pending(w, x, n, id)
      ensures var spoken := Spoken(w.arith, c, life.state(n), life.received(n), Now(life, n));
              IdleExpired(spoken, Now(life, n)) ==> EmptyPass(spoken)
    {
      assert TurnOf(x, n, id);
      if HeardLately(x, id, n) {
        var k: nat :| HeardWithin(x, id, k, n);
        NotIdle(w, x, id, k, n);
      } else {
        StillEmpty(w, x, id, n);
      }
    }
  }

  lemma StillEmpty(w: World, x: Execution, id: Id, n: nat)
    requires IsExecution(w, x) && IsDevice(w.net, id) && TurnOf(x, n, id) && NothingSoFar(x, id, n)
    ensures var life := LifeOf(x, id);
            var spoken := Spoken(w.arith, ConfigOf(w.net, id), life.state(n), life.received(n), Now(life, n));
            IdleExpired(spoken, Now(life, n)) ==> EmptyPass(spoken)
  {
    hide ConfigOf, Listen, MaybeReleaseTurn, Speak, EmptyPass;
    var c, life := ConfigOf(w.net, id), LifeOf(x, id);
    if c.predecessors != 0 {
      WaitingForgetsNothing(w, x, id, n);
    } else {
      RestedAt(w, x, id, n);
      ActivityIsReception(w.arith, c, life.state(n), [], Now(life, n));
      SpeakRests(c, Ready(w.arith, c, life.state(n), [], Now(life, n)), Now(life, n));
    }
  }

  lemma {:induction false} RestedAt(w: World, x: Execution, id: Id, n: nat)
    requires IsExecution(w, x) && IsDevice(w.net, id)
    ensures Rested(ConfigOf(w.net, id), LifeOf(x, id).state(n))
  {
    hide ConfigOf, Step;
    Present(w, x, n, id);
    if n > 0 {
      hide Rested;
      var k: nat := n - 1;
      RestedAt(w, x, id, k);
      Unfold(w, x, k, id);
      var life := LifeOf(x, id);
      if life.turn(k) { StepRests(w.arith, ConfigOf(w.net, id), life.state(k), life.received(k), Now(life, k)); }
    }
  }

  /** After a reception, a device's activity clock shows that turn or a later one. */
  lemma {:induction false} ActivitySince(w: World, x: Execution, id: Id, k: nat, n: nat) returns (j: nat)
    requires IsExecution(w, x) && IsDevice(w.net, id) && k < n && TurnOf(x, k, id) && x.actions(k).received != []
    ensures k <= j < n && TurnOf(x, j, id) && LifeOf(x, id).state(n).lastActivity == Now(LifeOf(x, id), j)
    decreases n - k
  {
    hide ConfigOf, Step;
    var life, last := LifeOf(x, id), n - 1;
    Unfold(w, x, last, id);
    if life.turn(last) {
      StepActivity(w.arith, ConfigOf(w.net, id), life.state(last), life.received(last), Now(life, last));
    }
    if k == last || (life.turn(last) && life.state(n).lastActivity == Now(life, last)) {
      j := last;
    } else {
      j := ActivitySince(w, x, id, k, last);
    }
  }

  lemma NotIdle(w: World, x: Execution, id: Id, k: nat, n: nat)
    requires IsExecution(w, x) && IsDevice(w.net, id) && HeardWithin(x, id, k, n)
    requires forall i: nat, j: nat :: InTime(x, id, i, j)
    ensures var life := LifeOf(x, id);
            !IdleExpired(Spoken(w.arith, ConfigOf(w.net, id), life.state(n), life.received(n), Now(life, n)), Now(life, n))
  {
    hide ConfigOf, Listen, MaybeReleaseTurn, Speak, PassResolved;
    var c, life := ConfigOf(w.net, id), LifeOf(x, id);
    ActivityIsReception(w.arith, c, life.state(n), life.received(n), Now(life, n));
    SpeakRests(c, Ready(w.arith, c, life.state(n), life.received(n), Now(life, n)), Now(life, n));
    if life.received(n) == [] {
      var j := ActivitySince(w, x, id, k, n);
      assert InTime(x, id, k, j) && InTime(x, id, j, n);
      ElapsedAcrossWrap(life.time(j), life.time(n));
    } else {
      ElapsedAcrossWrap(life.time(n), life.time(n));
    }
  }

  /** It keeps taking turns, hears its groups, and looks at its clock often enough to see a
      grace period expire. */
  ghost predicate FairTo(w: World, x: Execution, id: Id)
    requires IsExecution(w, x) && IsDevice(w.net, id)
  {
    var life := LifeOf(x, id);
    && (forall n: nat :: TurnsFrom(life, n))
    && HearsOnly(w, x, id) && Reached(w, x, id) && NeverForgets(w, x, id)
    && (HasBackup(w.net, id) ==> Ticking(life, RoleOf(w.net, id).resendGraceMs, 0x1_0000_0000))
  }

  /** Virtual inputs are injected by the laptop. */
  ghost predicate InputsArrive(w: World, x: Execution)
    requires WorldOk(w)
  {
    w.net.inputValues.None? ==> forall i: nat | i < w.net.inputSize :: Appears(x, Id(0, i))
  }

  /** Faulty devices may take any turns, or stop at any point. */
  ghost predicate FairExecution(w: World, x: Execution, faulty: iset<Id>)
  {
    && IsExecution(w, x) && InputsArrive(w, x)
    && forall id | Live(w, faulty, id) :: FairTo(w, x, id)
  }

  // ---- From an execution to the life of a device and back ----

  lemma ConfigRegular(net: Network, id: Id)
    requires Deployable(net) && IsNeuron(net, id)
    ensures Regular(ConfigOf(net, id))
  {
    if HasBackup(net, id) { RolesMirror(net, id); }
  }

  /** Between two states a device either takes the turn or stays as it is. */
  lemma Unfold(w: World, x: Execution, n: nat, id: Id)
    requires IsExecution(w, x) && IsDevice(w.net, id)
    ensures var c, life := ConfigOf(w.net, id), LifeOf(x, id);
            if life.turn(n) then
              && life.state(n + 1) == Step(w.arith, c, life.state(n), life.received(n), Now(life, n)).0
              && x.states(n + 1).history == x.states(n).history + Sent(w.arith, c, life, n)
              && (forall m | m in life.received(n) :: m in x.states(n).history)
            else life.state(n + 1) == life.state(n)
  {
    hide Step, AllRouted, WorldOk, ConfigOf;
    Present(w, x, n, id);
    Present(w, x, n + 1, id);
    assert NextAt(w, x, n);
  }

  lemma Present(w: World, x: Execution, n: nat, id: Id)
    requires IsExecution(w, x) && IsDevice(w.net, id)
    ensures id in x.states(n).devices
  {
    ExecutionSound(w, x, n);
  }

  lemma ReceivedIsProper(w: World, x: Execution, n: nat, id: Id)
    requires IsExecution(w, x) && IsDevice(w.net, id) && HearsOnly(w, x, id) && TurnOf(x, n, id)
    ensures AllProper(x.actions(n).received)
  {
    ExecutionSound(w, x, n);
    assert NextAt(w, x, n);
    forall m | m in x.actions(n).received
      ensures Proper(m)
    {
      assert Routed(m) && Hears(ConfigOf(w.net, id), m.group);
      HeardIsProper(w, id, m);
    }
  }

  lemma StartSteady(c: NodeConfig, seed: Option<Float>, now: u32)
    ensures var s := Start(c, seed, now); Steady(c, s) && Silent(s) && !s.stallArmed
  {
  }

  lemma StaysPending(w: World, x: Execution, n: nat, id: Id)
    requires WorldOk(w) && IsNeuron(w.net, id)
    requires !Appears(x, id) || (HasBackup(w.net, id) && !Appears(x, Id(id.layer, BackupTarget(w.net, id))))
    ensures Pending(w, x, n, id)
  {
  }

  lemma LifeLives(w: World, x: Execution, id: Id)
    requires IsExecution(w, x) && IsDevice(w.net, id) && FairTo(w, x, id)
    requires !Appears(x, id) || (HasBackup(w.net, id) && !Appears(x, Id(id.layer, BackupTarget(w.net, id))))
    ensures var life := LifeOf(x, id);
            && Lives(w.arith, ConfigOf(w.net, id), life)
            && Silent(life.state(0)) && !life.state(0).stallArmed
  {
    var c, life := ConfigOf(w.net, id), LifeOf(x, id);
    ConfigRegular(w.net, id);
    StartSteady(c, Seed(w, id), w.boot(id));
    forall n: nat
      ensures LivesAt(w.arith, c, life, n)
    {
      Unfold(w, x, n, id);
      if life.turn(n) {
        ReceivedIsProper(w, x, n, id);
        StaysPending(w, x, n, id);
      }
    }
  }

  /** What a device says is on the medium. */
  lemma SpokenAppears(w: World, x: Execution, id: Id, speaker: Id)
    requires IsExecution(w, x) && IsDevice(w.net, id) && IsNeuron(w.net, speaker)
    requires Speaks(w.arith, ConfigOf(w.net, id), LifeOf(x, id), AddressOf(w.net, speaker))
    ensures Appears(x, speaker)
  {
    var c, life := ConfigOf(w.net, id), LifeOf(x, id);
    var n: nat :| life.turn(n) && Says(Sent(w.arith, c, life, n), AddressOf(w.net, speaker));
    Unfold(w, x, n, id);
    var m :| m in Sent(w.arith, c, life, n) && m.kind == DATA && m.source == AddressOf(w.net, speaker);
    assert m in x.states(n + 1).history && Source(m) == speaker;
    assert AppearedBy(x, n + 1, speaker);
  }

  /** Whose packets a device's groups carry to it. */
  ghost predicate Audible(net: Network, id: Id, other: Id)
    requires IsNeuron(net, id)
  {
    other.layer + 1 == id.layer || (other.layer == id.layer && (id.node > 0 || HasBackup(net, id)))
  }

  /** What is on the medium reaches everyone who needs it. */
  lemma AppearedInforms(w: World, x: Execution, id: Id, other: Id)
    requires IsExecution(w, x) && IsDevice(w.net, id) && FairTo(w, x, id)
    requires Appears(x, other) && Audible(w.net, id, other)
    ensures Informed(LifeOf(x, id), other)
  {
    var n: nat :| AppearedBy(x, n, other);
    var m :| m in x.states(n).history && m.kind == DATA && Source(m) == other;
    ExecutionSound(w, x, n);
    assert Routed(m);
    WhoHears(w, id, m);
    var k: nat :| ReceivesAt(x, k, id, m);
    assert HearsAt(LifeOf(x, id), k, m);
  }
}
