/** How far one turn takes a device inside one pass: what it keeps, what it absorbs, and
    which turns bring it closer to speaking.

    A pass gains slots, observed siblings and rank in the scheduler's phases. A turn that does
    not forget the pass loses none of them, takes in every DATA packet it receives, and moves
    on whenever nothing keeps it; a standby moves from watching to a request and from the
    request to an outcome. */
module PassProgress {
  import opened Words
  import opened Addresses
  import opened Arithmetic
  import opened Messages
  import opened InputBuffers
  import opened Nodes
  import opened Schedulers
  import opened Failover
  import opened DeviceRuntime
  import opened Options

  function Rank(phase: Phase): nat
  {
    match phase
    case WaitingForInput => 0
    case ReadyToExecutePhase => 1
    case Executing => 2
    case WaitingForTurn => 3
    case ReadyToTransmit => 4
    case Transmitted => 5
  }

  /** Packets a device can receive through the groups it joins. */
  predicate Proper(m: Message)
  {
    && (IsSubstitute(m) ==> m.kind == DATA)
    && (m.kind == DATA ==> |m.values| <= MAX_PAYLOAD_FLOATS)
  }

  predicate AllProper(ms: seq<Message>)
  {
    forall m | m in ms :: Proper(m)
  }

  /** A sibling's configuration. */
  predicate Regular(c: NodeConfig)
  {
    && c.ownLayer == c.address.layer
    && (c.backup.Some? ==> c.backup.value.target.layer == c.address.layer && c.predecessorLayer != c.address.layer)
  }

  /** A locked slot is a filled slot, so suppression never costs a device an input. */
  predicate LocksFilled(c: NodeConfig, s: DeviceState)
  {
    forall j | j in s.suppressor.locked ::
      j in s.sched.node.slots && (c.predecessorLayer == c.ownLayer ==> j in s.sched.observed)
  }

  predicate Steady(c: NodeConfig, s: DeviceState)
  {
    && LocksFilled(c, s)
    && (s.sched.phase == WaitingForInput ==> !s.sched.node.hasExecuted)
    && (s.standby.Some? ==> c.backup.Some?)
  }

  /** Nothing gained in the pass is lost. */
  predicate Keeps(s: DeviceState, s': DeviceState)
  {
    && s.sched.node.slots.Keys <= s'.sched.node.slots.Keys
    && s.sched.observed <= s'.sched.observed
    && Rank(s.sched.phase) <= Rank(s'.sched.phase)
    && s.standby.Some? == s'.standby.Some?
    && s.passManaged == s'.passManaged
    && (s.standby.Some? ==>
          var b, b' := s.standby.value, s'.standby.value;
          && b.layerObserved <= b'.layerObserved
          && (b.resendRequested ==> b'.resendRequested && b'.waitStart == b.waitStart))
  }

  /** A DATA packet is taken in wherever it is listened to. */
  predicate Absorbs(c: NodeConfig, m: Message, s: DeviceState)
  {
    m.kind == DATA ==>
      && (m.source.layer == c.predecessorLayer ==> m.source.node as nat in s.sched.node.slots)
      && (m.source.layer == c.ownLayer ==> m.source.node as nat in s.sched.observed)
      && (s.standby.Some? && c.backup.Some? && m.source.layer == c.address.layer && !IsTarget(c, m.source) ==>
            m.source.node as nat in s.standby.value.layerObserved)
  }

  predicate AbsorbsAll(c: NodeConfig, ms: seq<Message>, s: DeviceState)
  {
    forall m | m in ms :: Absorbs(c, m, s)
  }

  lemma AbsorbsKeeps(c: NodeConfig, ms: seq<Message>, s: DeviceState, s': DeviceState)
    requires AbsorbsAll(c, ms, s) && Keeps(s, s')
    ensures AbsorbsAll(c, ms, s')
  {
    forall m | m in ms
      ensures Absorbs(c, m, s')
    {
      assert Absorbs(c, m, s);
    }
  }

  // ---- The receive loop ----

  predicate SameTimers(s: DeviceState, s': DeviceState)
  {
    s'.ownOutputSent == s.ownOutputSent && s'.stallArmed == s.stallArmed && s'.stallSince == s.stallSince
  }

  lemma DispatchKeeps(c: NodeConfig, s: DeviceState, m: Message)
    requires Regular(c) && Proper(m) && (s.standby.Some? ==> c.backup.Some?)
    requires s.sched.phase == WaitingForInput ==> !s.sched.node.hasExecuted
    ensures var s' := Dispatch(c, s, m);
            && Keeps(s, s') && Absorbs(c, m, s') && s'.sched.phase == s.sched.phase
            && s'.sched.node.hasExecuted == s.sched.node.hasExecuted
            && SameTimers(s, s') && s'.suppressor == s.suppressor
  {
    if m.kind == DATA && s.standby.Some? {
      var b' := StandbyObserve(c, c.backup.value, s.standby.value, m);
      assert b'.layerObserved >= s.standby.value.layerObserved && b'.waitStart == s.standby.value.waitStart;
    }
  }

  lemma ReceiveKeeps(c: NodeConfig, s: DeviceState, m: Message, now: u32)
    requires Regular(c) && Steady(c, s) && Proper(m)
    ensures var s' := Receive(c, s, m, now);
            && Steady(c, s') && Keeps(s, s') && Absorbs(c, m, s') && s'.sched.phase == s.sched.phase
            && SameTimers(s, s')
  {
    hide Dispatch;
    var s0 := s.(lastActivity := now);
    var s1 := s0.(suppressor := Lock(s0.suppressor, m));
    DispatchKeeps(c, s0, m);
    DispatchKeeps(c, s1, m);
    var s' := Receive(c, s, m, now);
    assert LocksFilled(c, s');
  }

  lemma {:induction false} ReceiveAllKeeps(c: NodeConfig, s: DeviceState, ms: seq<Message>, now: u32)
    requires Regular(c) && Steady(c, s) && AllProper(ms)
    ensures var s' := ReceiveAll(c, s, ms, now);
            && Steady(c, s') && Keeps(s, s') && AbsorbsAll(c, ms, s') && s'.sched.phase == s.sched.phase
            && SameTimers(s, s')
    decreases |ms|
  {
    if ms != [] {
      var s1 := Receive(c, s, ms[0], now);
      ReceiveKeeps(c, s, ms[0], now);
      ReceiveAllKeeps(c, s1, ms[1..], now);
      var s' := ReceiveAll(c, s1, ms[1..], now);
      AbsorbsKeeps(c, [ms[0]], s1, s');
      assert ms == [ms[0]] + ms[1..];
    }
  }

  // ---- Ticking and speaking ----

  /** Nothing keeps the scheduler from its next phase. */
  predicate CanAdvance(c: NodeConfig, s: DeviceState)
  {
    match s.sched.phase
    case WaitingForInput => Complete(s.sched.node.slots, c.predecessors)
    case ReadyToExecutePhase => true
    case Executing => true
    case WaitingForTurn => TurnReached(c, s.sched.observed)
    case ReadyToTransmit => false
    case Transmitted => false
  }

  lemma TickKeeps(a: Arith<Float>, c: NodeConfig, s: DeviceState)
    requires Regular(c) && Steady(c, s)
    ensures var s' := TickScheduler(a, c, s);
            && Steady(c, s') && Keeps(s, s')
            && (CanAdvance(c, s) ==> Rank(s'.sched.phase) == Rank(s.sched.phase) + 1)
            && Rank(s'.sched.phase) <= Rank(s.sched.phase) + 1
  {
  }

  lemma TickStandbyKeeps(a: Arith<Float>, c: NodeConfig, s: DeviceState, now: u32)
    requires Regular(c) && Steady(c, s)
    ensures var s' := TickStandby(a, c, s, now); Steady(c, s') && Keeps(s, s')
  {
  }

  lemma ListenKeeps(a: Arith<Float>, c: NodeConfig, s: DeviceState, ms: seq<Message>, now: u32)
    requires Regular(c) && Steady(c, s) && AllProper(ms)
    ensures var s' := Listen(a, c, s, ms, now);
            && Steady(c, s') && Keeps(s, s') && AbsorbsAll(c, ms, s') && SameTimers(s, s')
            && (CanAdvance(c, s) ==> Rank(s'.sched.phase) > Rank(s.sched.phase))
            && Rank(s'.sched.phase) <= Rank(s.sched.phase) + 1
  {
    var heard := ReceiveAll(c, s, ms, now);
    ReceiveAllKeeps(c, s, ms, now);
    var ticked := TickScheduler(a, c, heard);
    TickKeeps(a, c, heard);
    var listened := TickStandby(a, c, ticked, now);
    TickStandbyKeeps(a, c, ticked, now);
    AbsorbsKeeps(c, ms, heard, listened);
  }

  lemma ReleaseKeeps(c: NodeConfig, s: DeviceState, now: u32)
    requires Regular(c) && Steady(c, s)
    ensures var s' := MaybeReleaseTurn(c, s, now);
            && Steady(c, s') && Keeps(s, s') && s'.sched.phase == s.sched.phase && s'.standby == s.standby
            && s'.ownOutputSent == s.ownOutputSent && s'.targetSeen == s.targetSeen
  {
  }

  predicate Says(ms: seq<Message>, source: Address)
  {
    exists m :: m in ms && m.kind == DATA && m.source == source
  }

  lemma SaysMore(ms: seq<Message>, more: seq<Message>, source: Address)
    requires Says(ms, source) && forall m | m in ms :: m in more
    ensures Says(more, source)
  {
    var m :| m in ms && m.kind == DATA && m.source == source;
    assert m in more;
  }

  /** A queued substitute. */
  predicate Substituting(s: DeviceState)
  {
    s.standby.Some? && s.standby.value.substituted && s.standby.value.outgoing.Some?
    && s.standby.value.outgoing.value.kind == DATA
  }

  predicate Undecided(s: DeviceState)
  {
    s.standby.Some? && !s.standby.value.substituted && !s.standby.value.tornDown
  }

  function Emptied(standby: Option<StandbyState>): Option<StandbyState>
  {
    if standby.Some? then Some(standby.value.(outgoing := None, diagnostic := None)) else None
  }

  /** Equal in everything that decides how the pass goes on, up to what the scheduler observed. */
  predicate SameCourse(s: DeviceState, s': DeviceState)
  {
    && s'.sched.node == s.sched.node && s'.sched.phase == s.sched.phase && s.sched.observed <= s'.sched.observed
    && s'.suppressor == s.suppressor && s'.ownOutputSent == s.ownOutputSent && s'.passManaged == s.passManaged
    && s'.stallArmed == s.stallArmed && s'.stallSince == s.stallSince
  }

  lemma SendOwnEffect(c: NodeConfig, s: DeviceState, now: u32)
    requires Steady(c, s)
    ensures var (s', sent) := SendOwn(c, s, now);
            && Steady(c, s') && Keeps(s, s') && s'.standby == s.standby && s'.targetSeen == s.targetSeen
            && (s.sched.phase == ReadyToTransmit ==> Says(sent, c.address))
            && (s.sched.phase != ReadyToTransmit ==> s' == s)
  {
    var sent := SendOwn(c, s, now).1;
    if s.sched.phase == ReadyToTransmit {
      assert sent[0] in sent;
    }
  }

  lemma SendReportEffect(s: DeviceState, now: u32)
    ensures var s' := SendReport(s, now).0;
            && s' == s.(standby := s'.standby, retxReport := s'.retxReport)
            && s'.standby == (if s.standby.Some? then Some(s.standby.value.(diagnostic := None)) else None)
  {
  }

  /** The report and the standby's packet. */
  lemma SendStandbyEffect(c: NodeConfig, s: DeviceState, now: u32)
    ensures var (s1, report) := SendReport(s, now);
            var (s', sent) := SendStandby(c, s1, now);
            && SameCourse(s, s') && s'.standby == Emptied(s.standby)
            && (Substituting(s) ==> Says(sent, s.standby.value.outgoing.value.source))
            && (Undecided(s) ==> s'.targetSeen == s.targetSeen)
  {
    var s1 := SendReport(s, now).0;
    SendReportEffect(s, now);
    hide SendReport, Armed;
    var sent := SendStandby(c, s1, now).1;
    if sent != [] {
      assert sent[0] in sent;
    }
  }

  lemma SendTailEffect(c: NodeConfig, s: DeviceState, now: u32)
    ensures var s' := ServiceAll(SendReply(c, s).0, now).0;
            SameCourse(s, s') && s'.standby == s.standby && s'.targetSeen == s.targetSeen
  {
  }

  /** The state in which the pass is about to be closed or kept. */
  function Spoken(a: Arith<Float>, c: NodeConfig, s: DeviceState, ms: seq<Message>, now: u32): DeviceState
  {
    Speak(c, MaybeReleaseTurn(c, Listen(a, c, s, ms, now), now), now).0
  }

  /** Nothing has been heard in the pass that would be lost by closing it. */
  predicate EmptyPass(s: DeviceState)
  {
    && s.sched.node.slots == map[] && s.sched.observed == {} && s.sched.phase == WaitingForInput
    && (s.standby.Some? ==> s.standby.value.layerObserved == {} && !s.standby.value.resendRequested)
  }

  /** The turn closes the pass, and not just an empty one for want of activity. */
  predicate Forgets(a: Arith<Float>, c: NodeConfig, s: DeviceState, ms: seq<Message>, now: u32)
  {
    var spoken := Spoken(a, c, s, ms, now);
    spoken.passManaged && (PassResolved(spoken) || (IdleExpired(spoken, now) && !EmptyPass(spoken)))
  }

  /** What speaking does to the state, whatever is said. */
  lemma SpeakKeeps(c: NodeConfig, s: DeviceState, now: u32)
    requires Regular(c) && Steady(c, s)
    ensures var (s', sent) := Speak(c, s, now);
            && Steady(c, s') && Keeps(s, s') && s'.standby == Emptied(s.standby)
            && (s.sched.phase == ReadyToTransmit ==> Says(sent, c.address))
            && (s.sched.phase != ReadyToTransmit ==> SameCourse(s, s'))
            && (Substituting(s) ==> Says(sent, s.standby.value.outgoing.value.source))
            && (Undecided(s) ==> s'.targetSeen == s.targetSeen)
  {
    var (s1, m1) := SendOwn(c, s, now);
    SendOwnEffect(c, s, now);
    var (s2, m2) := SendReport(s1, now);
    var (s3, m3) := SendStandby(c, s2, now);
    SendStandbyEffect(c, s1, now);
    var (s4, m4) := SendReply(c, s3);
    var (s5, m5) := ServiceAll(s4, now);
    SendTailEffect(c, s3, now);
    var sent := m1 + m2 + m3 + m4 + m5;
    assert Speak(c, s, now) == (s5, sent);
    if s.sched.phase == ReadyToTransmit { SaysMore(m1, sent, c.address); }
    if Substituting(s) { SaysMore(m3, sent, s.standby.value.outgoing.value.source); }
  }

  /** A turn that does not forget the pass loses nothing and takes in everything it receives. */
  lemma OpenTurn(a: Arith<Float>, c: NodeConfig, s: DeviceState, ms: seq<Message>, now: u32)
    requires Regular(c) && Steady(c, s) && AllProper(ms) && !Forgets(a, c, s, ms, now)
    ensures var s' := Step(a, c, s, ms, now).0;
            Steady(c, s') && Keeps(s, s') && AbsorbsAll(c, ms, s')
  {
    var listened := Listen(a, c, s, ms, now);
    ListenKeeps(a, c, s, ms, now);
    var released := MaybeReleaseTurn(c, listened, now);
    ReleaseKeeps(c, listened, now);
    var (spoken, sent) := Speak(c, released, now);
    SpeakKeeps(c, released, now);
    AbsorbsKeeps(c, ms, listened, released);
    AbsorbsKeeps(c, ms, released, spoken);
    assert Step(a, c, s, ms, now) == (MaybeClosePass(spoken, now), sent);
  }

  lemma OpenTurnWakes(a: Arith<Float>, c: NodeConfig, s: DeviceState, ms: seq<Message>, now: u32)
    requires Regular(c) && Steady(c, s) && AllProper(ms) && !Forgets(a, c, s, ms, now)
    requires Complete(s.sched.node.slots, c.predecessors)
    ensures Step(a, c, s, ms, now).0.sched.phase != WaitingForInput
  {
    var listened := Listen(a, c, s, ms, now);
    ListenKeeps(a, c, s, ms, now);
    var released := MaybeReleaseTurn(c, listened, now);
    ReleaseKeeps(c, listened, now);
    var (spoken, sent) := Speak(c, released, now);
    SpeakKeeps(c, released, now);
    assert Step(a, c, s, ms, now) == (MaybeClosePass(spoken, now), sent);
  }

  /** The stall timer is armed only while the device waits for its turn. */
  lemma TimerOnlyWhileWaiting(a: Arith<Float>, c: NodeConfig, s: DeviceState, ms: seq<Message>, now: u32)
    requires Regular(c) && Steady(c, s) && AllProper(ms)
    ensures var s' := Step(a, c, s, ms, now).0; s'.stallArmed ==> s'.sched.phase == WaitingForTurn
  {
    var listened := Listen(a, c, s, ms, now);
    ListenKeeps(a, c, s, ms, now);
    var released := MaybeReleaseTurn(c, listened, now);
    ReleaseKeeps(c, listened, now);
    assert released.stallArmed ==> released.sched.phase == WaitingForTurn;
    var (spoken, sent) := Speak(c, released, now);
    SpeakKeeps(c, released, now);
    SpeakKeepsTimer(c, released, now);
    assert Step(a, c, s, ms, now) == (MaybeClosePass(spoken, now), sent);
  }

  /** An empty pass with nothing left to say. */
  predicate Unstarted(s: DeviceState)
  {
    EmptyPass(s) && (s.standby.Some? ==> s.standby.value.outgoing.None?)
  }

  /** A turn that receives nothing leaves an empty pass empty, closed or not: before its first
      packet a device may idle for as long as it likes. */
  lemma QuietTurnStaysEmpty(a: Arith<Float>, c: NodeConfig, s: DeviceState, now: u32)
    requires c.predecessors != 0 && Unstarted(s)
    ensures Unstarted(Spoken(a, c, s, [], now)) && Unstarted(Step(a, c, s, [], now).0)
  {
    BitsNonZero(c.predecessors);
    hide StandbyTick, Service, Armed, StallExpired;
    var listened := Listen(a, c, s, [], now);
    assert Unstarted(listened);
    var released := MaybeReleaseTurn(c, listened, now);
    assert Unstarted(released);
    assert Unstarted(Speak(c, released, now).0);
  }

  lemma SpeakKeepsTimer(c: NodeConfig, s: DeviceState, now: u32)
    ensures Speak(c, s, now).0.stallArmed == s.stallArmed
  {
  }

  lemma ClosePassSteady(c: NodeConfig, s: DeviceState, now: u32)
    requires Steady(c, s)
    ensures Steady(c, ClosePass(s, now))
  {
  }

  lemma StepSteady(a: Arith<Float>, c: NodeConfig, s: DeviceState, ms: seq<Message>, now: u32)
    requires Regular(c) && Steady(c, s) && AllProper(ms)
    ensures Steady(c, Step(a, c, s, ms, now).0)
  {
    var listened := Listen(a, c, s, ms, now);
    ListenKeeps(a, c, s, ms, now);
    var released := MaybeReleaseTurn(c, listened, now);
    ReleaseKeeps(c, listened, now);
    var (spoken, sent) := Speak(c, released, now);
    SpeakKeeps(c, released, now);
    ClosePassSteady(c, spoken, now);
    assert Step(a, c, s, ms, now) == (MaybeClosePass(spoken, now), sent);
  }

  lemma KeepsTransitive(s: DeviceState, s': DeviceState, s'': DeviceState)
    requires Keeps(s, s') && Keeps(s', s'')
    ensures Keeps(s, s'')
  {
  }

  // ---- A device that has not spoken yet ----

  predicate Silent(s: DeviceState)
  {
    !s.ownOutputSent && Rank(s.sched.phase) <= 3
  }

  /** The turn is reached, or the stall timer runs: started at `now`, or earlier and not yet due. */
  predicate TimerRuns(c: NodeConfig, s: DeviceState, s': DeviceState, now: u32)
  {
    || TurnReached(c, s'.sched.observed)
    || (s'.stallArmed &&
        if s.stallArmed then s'.stallSince == s.stallSince && !SignedAtLeast(now, s.stallSince, TURN_STALL_MS)
        else s'.stallSince == now)
  }

  /** A device that stays silent keeps its pass open, and moves on whenever it can. */
  lemma SilentTurn(a: Arith<Float>, c: NodeConfig, s: DeviceState, ms: seq<Message>, now: u32)
    requires Regular(c) && Steady(c, s) && AllProper(ms) && Silent(s)
    requires var spoken := Spoken(a, c, s, ms, now); IdleExpired(spoken, now) ==> EmptyPass(spoken)
    requires !Says(Step(a, c, s, ms, now).1, c.address)
    ensures var s' := Step(a, c, s, ms, now).0;
            && !Forgets(a, c, s, ms, now) && Silent(s')
            && (CanAdvance(c, s) ==> Rank(s'.sched.phase) > Rank(s.sched.phase))
            && (s'.sched.phase == WaitingForTurn ==> TimerRuns(c, s, s', now))
  {
    var listened := Listen(a, c, s, ms, now);
    ListenKeeps(a, c, s, ms, now);
    var released := MaybeReleaseTurn(c, listened, now);
    ReleaseKeeps(c, listened, now);
    var (spoken, sent) := Speak(c, released, now);
    SpeakKeeps(c, released, now);
    assert Step(a, c, s, ms, now) == (MaybeClosePass(spoken, now), sent);
    assert released.sched.phase != ReadyToTransmit;
    assert !spoken.ownOutputSent;
  }

  // ---- A standby whose target is never heard ----

  predicate Watching(s: DeviceState)
  {
    s.standby.Some? && !s.targetSeen && !s.standby.value.targetObserved && !s.standby.value.resolved && Undecided(s)
  }

  predicate NotFromTarget(c: NodeConfig, ms: seq<Message>)
  {
    forall m | m in ms && m.kind == DATA :: !IsTarget(c, m.source)
  }

  lemma ReceiveWatching(c: NodeConfig, s: DeviceState, m: Message, now: u32)
    requires c.backup.Some? && Watching(s) && (m.kind == DATA ==> !IsTarget(c, m.source))
    ensures var s' := Receive(c, s, m, now);
            Watching(s') && s'.standby.value.resendRequested == s.standby.value.resendRequested
  {
    hide NodeReceive, Observe, Respond, Lock, Accepts;
  }

  lemma {:induction false} ReceiveAllWatching(c: NodeConfig, s: DeviceState, ms: seq<Message>, now: u32)
    requires c.backup.Some? && Watching(s) && NotFromTarget(c, ms)
    ensures var s' := ReceiveAll(c, s, ms, now);
            Watching(s') && s'.standby.value.resendRequested == s.standby.value.resendRequested
    decreases |ms|
  {
    if ms != [] {
      ReceiveWatching(c, s, ms[0], now);
      hide Receive, Watching;
      ReceiveAllWatching(c, Receive(c, s, ms[0], now), ms[1..], now);
    }
  }

  /** One tick of a watching standby: the request, the wait, or the outcome. */
  lemma WatchingTick(a: Arith<Float>, c: NodeConfig, s: DeviceState, now: u32)
    requires Regular(c) && Steady(c, s) && Watching(s)
    ensures var s' := TickStandby(a, c, s, now);
            var role, b, b' := c.backup.value, s.standby.value, s'.standby.value;
            && s'.targetSeen == s.targetSeen && s'.ownOutputSent == s.ownOutputSent && s'.sched == s.sched
            && !b'.targetObserved && b'.resolved == (b'.substituted || b'.tornDown)
            && (b'.substituted ==> Substituting(s') && b'.outgoing.value.source == role.target)
            && (b'.resendRequested && !b.resendRequested ==> b'.waitStart == now && s.sched.phase != WaitingForInput)
            && (s.sched.phase != WaitingForInput ==>
                  && (RoundFinished(c, role, b) ==> b'.resendRequested)
                  && (b.resendRequested && Elapsed(now, b.waitStart) >= role.resendGraceMs ==> b'.resolved))
  {
  }

  /** A standby whose target stays silent keeps the pass open, asks for a resend as soon as
      the round has finished, and does not outwait the grace period. */
  lemma WatchingTurn(a: Arith<Float>, c: NodeConfig, s: DeviceState, ms: seq<Message>, now: u32)
    requires Regular(c) && Steady(c, s) && AllProper(ms) && Watching(s) && NotFromTarget(c, ms)
    requires var spoken := Spoken(a, c, s, ms, now); IdleExpired(spoken, now) ==> EmptyPass(spoken)
    requires !Says(Step(a, c, s, ms, now).1, c.backup.value.target)
    requires var spoken := Spoken(a, c, s, ms, now); spoken.standby.Some? ==> !spoken.standby.value.tornDown
    ensures var s' := Step(a, c, s, ms, now).0;
            var role, b := c.backup.value, s.standby.value;
            && !Forgets(a, c, s, ms, now) && Watching(s')
            && var b' := s'.standby.value;
            && (b'.resendRequested && !b.resendRequested ==> b'.waitStart == now && s'.sched.phase != WaitingForInput)
            && (s.sched.phase != WaitingForInput ==>
                  && (RoundFinished(c, role, b) ==> b'.resendRequested)
                  && (b.resendRequested ==> Elapsed(now, b.waitStart) < role.resendGraceMs))
  {
    var heard := ReceiveAll(c, s, ms, now);
    ReceiveAllKeeps(c, s, ms, now);
    ReceiveAllWatching(c, s, ms, now);
    var ticked := TickScheduler(a, c, heard);
    TickKeeps(a, c, heard);
    var listened := TickStandby(a, c, ticked, now);
    WatchingTick(a, c, ticked, now);
    TickStandbyKeeps(a, c, ticked, now);
    var released := MaybeReleaseTurn(c, listened, now);
    ReleaseKeeps(c, listened, now);
    var (spoken, sent) := Speak(c, released, now);
    SpeakKeeps(c, released, now);
    assert Step(a, c, s, ms, now) == (MaybeClosePass(spoken, now), sent);
    assert !Substituting(released);
    assert !released.standby.value.substituted && !released.standby.value.tornDown;
  }
}
