/** The whole life of one device: what follows when it keeps taking turns and hears what it
    needs.

    A life is an infinite sequence of states with the turns taken, the packets received and
    the clock of each. While a device stays silent its pass remembers everything, so that
    what it has to hear adds up, and with everything heard it cannot stay silent. */
module DeviceLife {
  import opened Words
  import opened Addresses
  import opened Arithmetic
  import opened Messages
  import opened InputBuffers
  import opened Nodes
  import opened Schedulers
  import opened Failover
  import opened DeviceRuntime
  import opened Networks
  import opened Medium
  import opened PassProgress

  datatype Life = Life(state: nat -> DeviceState, turn: nat -> bool, received: nat -> seq<Message>, time: nat -> nat)

  function Now(life: Life, n: nat): u32
  {
    Clock(life.time(n))
  }

  function Sent(a: Arith<Float>, c: NodeConfig, life: Life, n: nat): seq<Message>
  {
    Step(a, c, life.state(n), life.received(n), Now(life, n)).1
  }

  /** Turn `n` receives only proper packets and drops the pass as idle only while it is empty. */
  ghost predicate LivesAt(a: Arith<Float>, c: NodeConfig, life: Life, n: nat)
  {
    if life.turn(n) then
      && AllProper(life.received(n))
      && life.state(n + 1) == Step(a, c, life.state(n), life.received(n), Now(life, n)).0
      && var spoken := Spoken(a, c, life.state(n), life.received(n), Now(life, n));
         IdleExpired(spoken, Now(life, n)) ==> EmptyPass(spoken)
    else life.state(n + 1) == life.state(n)
  }

  ghost predicate TurnsFrom(life: Life, n: nat)
  {
    exists k: nat :: n <= k && life.turn(k)
  }

  ghost predicate Lives(a: Arith<Float>, c: NodeConfig, life: Life)
  {
    && Regular(c) && Steady(c, life.state(0))
    && (forall n: nat :: LivesAt(a, c, life, n))
    && (forall n: nat :: TurnsFrom(life, n))
  }

  lemma NextTurn(a: Arith<Float>, c: NodeConfig, life: Life, n: nat) returns (k: nat)
    requires Lives(a, c, life)
    ensures n <= k && life.turn(k)
  {
    assert TurnsFrom(life, n);
    k :| n <= k && life.turn(k);
  }

  lemma {:induction false} SteadyLife(a: Arith<Float>, c: NodeConfig, life: Life, n: nat)
    requires Lives(a, c, life)
    ensures Steady(c, life.state(n))
  {
    if n > 0 {
      var k: nat := n - 1;
      SteadyLife(a, c, life, k);
      assert LivesAt(a, c, life, k);
      if life.turn(k) { StepSteady(a, c, life.state(k), life.received(k), Now(life, k)); }
    }
  }

  // ---- An open pass remembers everything ----

  ghost predicate OpenAt(c: NodeConfig, life: Life, n: nat)
  {
    Keeps(life.state(n), life.state(n + 1)) && (life.turn(n) ==> AbsorbsAll(c, life.received(n), life.state(n + 1)))
  }

  /** The first pass is never closed. */
  ghost predicate OpenForever(c: NodeConfig, life: Life)
  {
    forall n: nat :: OpenAt(c, life, n)
  }

  lemma {:induction false} KeepsRange(c: NodeConfig, life: Life, n: nat, m: nat)
    requires OpenForever(c, life) && n <= m
    ensures Keeps(life.state(n), life.state(m))
    decreases m - n
  {
    if n < m {
      var k: nat := m - 1;
      KeepsRange(c, life, n, k);
      assert OpenAt(c, life, k);
      KeepsTransitive(life.state(n), life.state(k), life.state(m));
    }
  }

  /** What hearing `other` once leaves behind. */
  predicate Knows(c: NodeConfig, s: DeviceState, other: Id)
  {
    && (other.layer == c.predecessorLayer ==> other.node in s.sched.node.slots)
    && (other.layer == c.ownLayer ==> other.node in s.sched.observed)
    && (s.standby.Some? && c.backup.Some? && other.layer == c.address.layer && other.node != c.backup.value.target.node ==>
          other.node in s.standby.value.layerObserved)
  }

  predicate KnowsAll(c: NodeConfig, s: DeviceState, others: seq<Id>)
  {
    forall other | other in others :: Knows(c, s, other)
  }

  predicate HearsAt(life: Life, n: nat, m: Message)
  {
    life.turn(n) && m in life.received(n) && m.kind == DATA
  }

  ghost predicate Informed(life: Life, other: Id)
  {
    exists n: nat, m :: HearsAt(life, n, m) && Source(m) == other
  }

  lemma Remembers(c: NodeConfig, life: Life, n: nat, m: Message, k: nat)
    requires OpenForever(c, life) && HearsAt(life, n, m) && n < k
    ensures Knows(c, life.state(k), Source(m))
  {
    assert OpenAt(c, life, n);
    assert Absorbs(c, m, life.state(n + 1));
    KeepsRange(c, life, n + 1, k);
  }

  lemma {:induction false} LearnsAll(c: NodeConfig, life: Life, others: seq<Id>) returns (n: nat)
    requires OpenForever(c, life)
    requires forall other | other in others :: Informed(life, other)
    ensures forall k: nat | n <= k :: KnowsAll(c, life.state(k), others)
    decreases |others|
  {
    if others == [] {
      n := 0;
    } else {
      var first := others[0];
      assert Informed(life, first);
      var turn: nat, m :| HearsAt(life, turn, m) && Source(m) == first;
      var rest := LearnsAll(c, life, others[1..]);
      n := rest + turn + 1;
      forall k: nat | n <= k
        ensures KnowsAll(c, life.state(k), others)
      {
        Remembers(c, life, turn, m, k);
        assert KnowsAll(c, life.state(k), others[1..]);
      }
    }
  }

  // ---- A device that never speaks ----

  ghost predicate Speaks(a: Arith<Float>, c: NodeConfig, life: Life, source: Address)
  {
    exists n: nat :: life.turn(n) && Says(Sent(a, c, life, n), source)
  }

  ghost predicate SilentProgress(c: NodeConfig, life: Life, n: nat)
  {
    var s, s' := life.state(n), life.state(n + 1);
    if life.turn(n) then
      && (CanAdvance(c, s) ==> Rank(s'.sched.phase) > Rank(s.sched.phase))
      && (s'.sched.phase == WaitingForTurn ==> TimerRuns(c, s, s', Now(life, n)))
    else s' == s
  }

  lemma SilentStep(a: Arith<Float>, c: NodeConfig, life: Life, n: nat)
    requires Lives(a, c, life) && !Speaks(a, c, life, c.address) && Silent(life.state(n))
    ensures Silent(life.state(n + 1)) && OpenAt(c, life, n) && SilentProgress(c, life, n)
  {
    assert LivesAt(a, c, life, n);
    if life.turn(n) {
      SteadyLife(a, c, life, n);
      assert !Says(Sent(a, c, life, n), c.address);
      SilentTurn(a, c, life.state(n), life.received(n), Now(life, n));
      OpenTurn(a, c, life.state(n), life.received(n), Now(life, n));
    }
  }

  lemma {:induction false} StaysSilent(a: Arith<Float>, c: NodeConfig, life: Life, n: nat)
    requires Lives(a, c, life) && !Speaks(a, c, life, c.address) && Silent(life.state(0))
    ensures Silent(life.state(n))
  {
    if n > 0 {
      var k: nat := n - 1;
      StaysSilent(a, c, life, k);
      SilentStep(a, c, life, k);
    }
  }

  lemma SilentIsOpen(a: Arith<Float>, c: NodeConfig, life: Life)
    requires Lives(a, c, life) && !Speaks(a, c, life, c.address) && Silent(life.state(0))
    ensures OpenForever(c, life)
  {
    forall n: nat
      ensures OpenAt(c, life, n)
    {
      StaysSilent(a, c, life, n);
      SilentStep(a, c, life, n);
    }
  }

  ghost predicate AdvancesFrom(c: NodeConfig, life: Life, n: nat)
  {
    forall k: nat | n <= k :: Silent(life.state(k)) ==> CanAdvance(c, life.state(k))
  }

  /** From `n` on nothing keeps the device from its next phase: it cannot stay silent. */
  lemma {:induction false} Climbs(a: Arith<Float>, c: NodeConfig, life: Life, n: nat)
    requires Lives(a, c, life) && Silent(life.state(0)) && AdvancesFrom(c, life, n)
    ensures Speaks(a, c, life, c.address)
    decreases 3 - Rank(life.state(n).sched.phase)
  {
    if !Speaks(a, c, life, c.address) {
      SilentIsOpen(a, c, life);
      var k := NextTurn(a, c, life, n);
      KeepsRange(c, life, n, k);
      StaysSilent(a, c, life, k);
      SilentStep(a, c, life, k);
      Climbs(a, c, life, k + 1);
    }
  }

  /** `others` holds every predecessor / every preceding sibling. */
  predicate HasInputs(c: NodeConfig, others: seq<Id>)
  {
    forall i | i in Bits(c.predecessors) :: Id(c.predecessorLayer, i) in others
  }

  predicate HasSiblings(c: NodeConfig, others: seq<Id>)
  {
    forall j | j in Bits(c.precedingSiblings) :: Id(c.ownLayer, j) in others
  }

  /** A device that hears its predecessors and its preceding siblings speaks. */
  lemma InformedSpeaks(a: Arith<Float>, c: NodeConfig, life: Life, others: seq<Id>)
    requires Lives(a, c, life) && Silent(life.state(0))
    requires HasInputs(c, others) && HasSiblings(c, others)
    requires forall other | other in others :: Informed(life, other)
    ensures Speaks(a, c, life, c.address)
  {
    if !Speaks(a, c, life, c.address) {
      SilentIsOpen(a, c, life);
      var n := LearnsAll(c, life, others);
      forall k: nat | n <= k && Silent(life.state(k))
        ensures CanAdvance(c, life.state(k))
      {
        var s := life.state(k);
        assert KnowsAll(c, s, others);
        assert Complete(s.sched.node.slots, c.predecessors) by {
          forall i | i in Bits(c.predecessors)
            ensures i in s.sched.node.slots
          {
            assert Knows(c, s, Id(c.predecessorLayer, i));
          }
        }
        assert TurnReached(c, s.sched.observed) by {
          forall j | j in Bits(c.precedingSiblings)
            ensures j in s.sched.observed
          {
            assert Knows(c, s, Id(c.ownLayer, j));
          }
        }
      }
      Climbs(a, c, life, n);
    }
  }

  // ---- Speaking out of turn once the turn is released ----

  predicate TurnBetween(life: Life, n: nat, k: nat, span: nat, limit: nat)
  {
    n < k && life.turn(k) && life.time(n) + span <= life.time(k) < life.time(n) + limit
  }

  /** After any of its turns the device takes another at least `span` ms later, and less than
      `limit` ms later, so that the clock difference is read correctly. */
  ghost predicate Ticking(life: Life, span: nat, limit: nat)
  {
    forall n: nat {:trigger TicksAfter(life, n, span, limit)} :: life.turn(n) ==> TicksAfter(life, n, span, limit)
  }

  ghost predicate TicksAfter(life: Life, n: nat, span: nat, limit: nat)
  {
    exists k: nat :: TurnBetween(life, n, k, span, limit)
  }

  ghost predicate CompleteFrom(c: NodeConfig, life: Life, n: nat)
  {
    forall k: nat | n <= k :: Complete(life.state(k).sched.node.slots, c.predecessors)
  }

  lemma {:induction false} ReachesTheWait(a: Arith<Float>, c: NodeConfig, life: Life, n: nat) returns (p: nat)
    requires Lives(a, c, life) && Silent(life.state(0)) && !Speaks(a, c, life, c.address) && CompleteFrom(c, life, n)
    ensures life.state(p).sched.phase == WaitingForTurn
    decreases 3 - Rank(life.state(n).sched.phase)
  {
    hide Lives, Speaks;
    StaysSilent(a, c, life, n);
    if life.state(n).sched.phase == WaitingForTurn {
      p := n;
    } else {
      SilentIsOpen(a, c, life);
      var k := NextTurn(a, c, life, n);
      KeepsRange(c, life, n, k);
      StaysSilent(a, c, life, k);
      if life.state(k).sched.phase == WaitingForTurn {
        p := k;
      } else {
        SilentStep(a, c, life, k);
        p := ReachesTheWait(a, c, life, k + 1);
      }
    }
  }

  predicate Waits(s: DeviceState, since: u32)
  {
    s.sched.phase == WaitingForTurn && s.stallArmed && s.stallSince == since
  }

  /** The turn at which a running stall timer was started. */
  lemma {:induction false} TimerStart(a: Arith<Float>, c: NodeConfig, life: Life, n: nat) returns (start: nat)
    requires Lives(a, c, life) && Silent(life.state(0)) && !Speaks(a, c, life, c.address) && !life.state(0).stallArmed
    requires !EverReached(c, life)
    requires life.state(n).sched.phase == WaitingForTurn && life.state(n).stallArmed
    ensures life.turn(start) && Waits(life.state(start + 1), Now(life, start))
  {
    if n == 0 {
      assert false;
    } else {
      var k: nat := n - 1;
      StaysSilent(a, c, life, k);
      SilentStep(a, c, life, k);
      if life.turn(k) && (!life.state(k).stallArmed || life.state(k).sched.phase != WaitingForTurn) {
        if life.state(k).stallArmed {
          StrayTimer(a, c, life, k);
        }
        start := k;
      } else {
        start := TimerStart(a, c, life, k);
      }
    }
  }

  /** The timer is armed only while waiting for the turn. */
  lemma {:induction false} StrayTimer(a: Arith<Float>, c: NodeConfig, life: Life, n: nat)
    requires Lives(a, c, life) && !life.state(0).stallArmed
    ensures life.state(n).stallArmed ==> life.state(n).sched.phase == WaitingForTurn
  {
    if n > 0 {
      var k: nat := n - 1;
      StrayTimer(a, c, life, k);
      SteadyLife(a, c, life, k);
      assert LivesAt(a, c, life, k);
      if life.turn(k) { TimerOnlyWhileWaiting(a, c, life.state(k), life.received(k), Now(life, k)); }
    }
  }

  ghost predicate EverReached(c: NodeConfig, life: Life)
  {
    exists k: nat :: TurnReached(c, life.state(k).sched.observed)
  }

  lemma {:induction false} TimerPersists(a: Arith<Float>, c: NodeConfig, life: Life, n: nat, k: nat, since: u32)
    requires Lives(a, c, life) && Silent(life.state(0)) && !Speaks(a, c, life, c.address)
    requires n <= k && Waits(life.state(n), since)
    ensures Waits(life.state(k), since) || EverReached(c, life)
    decreases k - n
  {
    if n < k {
      var j: nat := k - 1;
      TimerPersists(a, c, life, n, j, since);
      StaysSilent(a, c, life, j);
      SilentStep(a, c, life, j);
      assert OpenAt(c, life, j);
    }
  }

  /** When the stall timer has run out the turn is released. */
  lemma ExpiryReleases(a: Arith<Float>, c: NodeConfig, life: Life, start: nat, k: nat)
    requires Lives(a, c, life) && Silent(life.state(0)) && !Speaks(a, c, life, c.address)
    requires Waits(life.state(start + 1), Now(life, start))
    requires TurnBetween(life, start, k, TURN_STALL_MS, 0x8000_0000)
    ensures EverReached(c, life)
  {
    TimerPersists(a, c, life, start + 1, k, Now(life, start));
    if Waits(life.state(k), Now(life, start)) {
      StaysSilent(a, c, life, k);
      SilentStep(a, c, life, k);
      assert OpenAt(c, life, k);
      ElapsedAcrossWrap(life.time(start), life.time(k));
      assert TimerRuns(c, life.state(k), life.state(k + 1), Now(life, k));
    }
  }

  /** A device that hears its predecessors speaks even when a preceding sibling never does,
      once its stall timer has run out. */
  lemma ReleasedSpeaks(a: Arith<Float>, c: NodeConfig, life: Life, others: seq<Id>)
    requires Lives(a, c, life) && Silent(life.state(0)) && !life.state(0).stallArmed
    requires HasInputs(c, others) && Ticking(life, TURN_STALL_MS, 0x8000_0000)
    requires forall other | other in others :: Informed(life, other)
    ensures Speaks(a, c, life, c.address)
  {
    if !Speaks(a, c, life, c.address) {
      SilentIsOpen(a, c, life);
      var n := LearnsAll(c, life, others);
      InputsStay(c, life, others, n);
      TurnComes(a, c, life, n);
      var m: nat :| TurnReached(c, life.state(m).sched.observed);
      forall k: nat | n + m <= k && Silent(life.state(k))
        ensures CanAdvance(c, life.state(k))
      {
        KeepsRange(c, life, m, k);
      }
      Climbs(a, c, life, n + m);
    }
  }

  lemma InputsStay(c: NodeConfig, life: Life, others: seq<Id>, n: nat)
    requires HasInputs(c, others) && forall k: nat | n <= k :: KnowsAll(c, life.state(k), others)
    ensures CompleteFrom(c, life, n)
  {
    forall k: nat | n <= k
      ensures Complete(life.state(k).sched.node.slots, c.predecessors)
    {
      forall i | i in Bits(c.predecessors)
        ensures i in life.state(k).sched.node.slots
      {
        assert KnowsAll(c, life.state(k), others) && Knows(c, life.state(k), Id(c.predecessorLayer, i));
      }
    }
  }

  lemma TimerStarts(a: Arith<Float>, c: NodeConfig, life: Life, n: nat) returns (q: nat)
    requires Lives(a, c, life) && Silent(life.state(0)) && !Speaks(a, c, life, c.address) && CompleteFrom(c, life, n)
    requires !EverReached(c, life)
    ensures life.state(q).sched.phase == WaitingForTurn && life.state(q).stallArmed
  {
    var p := ReachesTheWait(a, c, life, n);
    var turn := NextTurn(a, c, life, p);
    SilentIsOpen(a, c, life);
    KeepsRange(c, life, p, turn);
    StaysSilent(a, c, life, turn);
    SilentStep(a, c, life, turn);
    assert OpenAt(c, life, turn);
    q := turn + 1;
  }

  lemma TurnComes(a: Arith<Float>, c: NodeConfig, life: Life, n: nat)
    requires Lives(a, c, life) && Silent(life.state(0)) && !life.state(0).stallArmed
    requires !Speaks(a, c, life, c.address) && CompleteFrom(c, life, n) && Ticking(life, TURN_STALL_MS, 0x8000_0000)
    ensures EverReached(c, life)
  {
    if !EverReached(c, life) {
      var q := TimerStarts(a, c, life, n);
      var start := TimerStart(a, c, life, q);
      assert TicksAfter(life, start, TURN_STALL_MS, 0x8000_0000);
      var k: nat :| TurnBetween(life, start, k, TURN_STALL_MS, 0x8000_0000);
      ExpiryReleases(a, c, life, start, k);
    }
  }

  // ---- A standby whose target never speaks ----

  ghost predicate UnheardAt(a: Arith<Float>, c: NodeConfig, life: Life, n: nat)
  {
    life.turn(n) ==>
      && NotFromTarget(c, life.received(n))
      && var spoken := Spoken(a, c, life.state(n), life.received(n), Now(life, n));
         (spoken.standby.Some? ==> !spoken.standby.value.tornDown)
  }

  /** The target is never heard, and the standby never runs into missing inputs. */
  ghost predicate Unheard(a: Arith<Float>, c: NodeConfig, life: Life)
  {
    c.backup.Some? && Watching(life.state(0)) && forall n: nat :: UnheardAt(a, c, life, n)
  }

  ghost predicate WatchProgress(c: NodeConfig, life: Life, n: nat)
    requires c.backup.Some? && Watching(life.state(n)) && Watching(life.state(n + 1))
  {
    var role, s, s' := c.backup.value, life.state(n), life.state(n + 1);
    var b, b' := s.standby.value, s'.standby.value;
    if life.turn(n) then
      && (b'.resendRequested && !b.resendRequested ==> b'.waitStart == Now(life, n) && s'.sched.phase != WaitingForInput)
      && (s.sched.phase != WaitingForInput ==>
            && (RoundFinished(c, role, b) ==> b'.resendRequested)
            && (b.resendRequested ==> Elapsed(Now(life, n), b.waitStart) < role.resendGraceMs))
    else s' == s
  }

  lemma WatchStep(a: Arith<Float>, c: NodeConfig, life: Life, n: nat)
    requires Lives(a, c, life) && Unheard(a, c, life) && !Speaks(a, c, life, c.backup.value.target)
    requires Watching(life.state(n))
    ensures Watching(life.state(n + 1)) && OpenAt(c, life, n) && WatchProgress(c, life, n)
    ensures life.turn(n) ==> !Forgets(a, c, life.state(n), life.received(n), Now(life, n))
  {
    assert LivesAt(a, c, life, n) && UnheardAt(a, c, life, n);
    if life.turn(n) {
      SteadyLife(a, c, life, n);
      assert !Says(Sent(a, c, life, n), c.backup.value.target);
      WatchingTurn(a, c, life.state(n), life.received(n), Now(life, n));
      OpenTurn(a, c, life.state(n), life.received(n), Now(life, n));
    }
  }

  lemma {:induction false} StaysWatching(a: Arith<Float>, c: NodeConfig, life: Life, n: nat)
    requires Lives(a, c, life) && Unheard(a, c, life) && !Speaks(a, c, life, c.backup.value.target)
    ensures Watching(life.state(n))
  {
    if n > 0 {
      var k: nat := n - 1;
      StaysWatching(a, c, life, k);
      WatchStep(a, c, life, k);
    }
  }

  lemma WatchingIsOpen(a: Arith<Float>, c: NodeConfig, life: Life)
    requires Lives(a, c, life) && Unheard(a, c, life) && !Speaks(a, c, life, c.backup.value.target)
    ensures OpenForever(c, life)
  {
    forall n: nat
      ensures OpenAt(c, life, n)
    {
      StaysWatching(a, c, life, n);
      WatchStep(a, c, life, n);
    }
  }

  /** The turn at which the pending resend request was queued. */
  lemma {:induction false} RequestTurn(a: Arith<Float>, c: NodeConfig, life: Life, n: nat) returns (start: nat)
    requires Lives(a, c, life) && Unheard(a, c, life) && !Speaks(a, c, life, c.backup.value.target)
    requires !life.state(0).standby.value.resendRequested
    requires life.state(n).standby.Some? && life.state(n).standby.value.resendRequested
    ensures var s := life.state(start + 1);
            && life.turn(start) && s.sched.phase != WaitingForInput
            && s.standby.Some? && s.standby.value.resendRequested && s.standby.value.waitStart == Now(life, start)
  {
    hide Lives, Speaks, OpenAt, RoundFinished;
    if n == 0 {
      assert false;
    } else {
      var k: nat := n - 1;
      StaysWatching(a, c, life, k);
      WatchStep(a, c, life, k);
      if life.turn(k) && !life.state(k).standby.value.resendRequested {
        start := k;
      } else {
        start := RequestTurn(a, c, life, k);
      }
    }
  }

  predicate HasRound(c: NodeConfig, others: seq<Id>)
    requires c.backup.Some?
  {
    forall j | j in Others(c, c.backup.value) :: Id(c.address.layer, j) in others
  }

  lemma StillInGrace(a: Arith<Float>, c: NodeConfig, life: Life, start: nat, k: nat)
    requires Lives(a, c, life) && Unheard(a, c, life) && !Speaks(a, c, life, c.backup.value.target)
    requires start < k && life.turn(k)
    requires var s := life.state(start + 1);
             && s.sched.phase != WaitingForInput
             && s.standby.Some? && s.standby.value.resendRequested && s.standby.value.waitStart == Now(life, start)
    ensures Elapsed(Now(life, k), Now(life, start)) < c.backup.value.resendGraceMs
  {
    WatchingIsOpen(a, c, life);
    KeepsRange(c, life, start + 1, k);
    StaysWatching(a, c, life, k);
    WatchStep(a, c, life, k);
  }

  /** A standby that hears its predecessors and every sibling but its target speaks for it. */
  lemma UnheardTargetIsSubstituted(a: Arith<Float>, c: NodeConfig, life: Life, others: seq<Id>)
    requires Lives(a, c, life) && Unheard(a, c, life) && !life.state(0).standby.value.resendRequested
    requires HasInputs(c, others) && HasRound(c, others)
    requires Ticking(life, c.backup.value.resendGraceMs, 0x1_0000_0000)
    requires forall other | other in others :: Informed(life, other)
    ensures Speaks(a, c, life, c.backup.value.target)
  {
    if !Speaks(a, c, life, c.backup.value.target) {
      WatchingIsOpen(a, c, life);
      var n := LearnsAll(c, life, others);
      InputsStay(c, life, others, n);
      var p := AsksForResend(a, c, life, others, n);
      var start := RequestTurn(a, c, life, p);
      assert TicksAfter(life, start, c.backup.value.resendGraceMs, 0x1_0000_0000);
      var k: nat :| TurnBetween(life, start, k, c.backup.value.resendGraceMs, 0x1_0000_0000);
      ElapsedAcrossWrap(life.time(start), life.time(k));
      StillInGrace(a, c, life, start, k);
    }
  }

  lemma WakesUp(a: Arith<Float>, c: NodeConfig, life: Life, n: nat) returns (p: nat)
    requires Lives(a, c, life) && Unheard(a, c, life) && !Speaks(a, c, life, c.backup.value.target)
    requires CompleteFrom(c, life, n)
    ensures n <= p && life.state(p).sched.phase != WaitingForInput
  {
    var turn := NextTurn(a, c, life, n);
    StaysWatching(a, c, life, turn);
    WatchStep(a, c, life, turn);
    Wakes(a, c, life, turn);
    p := turn + 1;
  }

  lemma AsksForResend(a: Arith<Float>, c: NodeConfig, life: Life, others: seq<Id>, n: nat) returns (p: nat)
    requires Lives(a, c, life) && Unheard(a, c, life) && !Speaks(a, c, life, c.backup.value.target)
    requires OpenForever(c, life) && CompleteFrom(c, life, n) && HasRound(c, others)
    requires forall k: nat | n <= k :: KnowsAll(c, life.state(k), others)
    ensures life.state(p).standby.Some? && life.state(p).standby.value.resendRequested
  {
    var awake := WakesUp(a, c, life, n);
    var turn := NextTurn(a, c, life, awake);
    KeepsRange(c, life, awake, turn);
    StaysWatching(a, c, life, turn);
    RoundIsFinished(c, life.state(turn), others);
    WatchStep(a, c, life, turn);
    p := turn + 1;
  }

  lemma RoundIsFinished(c: NodeConfig, s: DeviceState, others: seq<Id>)
    requires c.backup.Some? && s.standby.Some? && HasRound(c, others) && KnowsAll(c, s, others)
    ensures RoundFinished(c, c.backup.value, s.standby.value)
  {
    forall j | j in Others(c, c.backup.value)
      ensures j in s.standby.value.layerObserved
    {
      assert Knows(c, s, Id(c.address.layer, j));
    }
  }

  /** A turn with complete inputs leaves the input phase. */
  lemma Wakes(a: Arith<Float>, c: NodeConfig, life: Life, n: nat)
    requires Lives(a, c, life) && life.turn(n) && OpenAt(c, life, n)
    requires Complete(life.state(n).sched.node.slots, c.predecessors)
    requires !Forgets(a, c, life.state(n), life.received(n), Now(life, n))
    ensures life.state(n + 1).sched.phase != WaitingForInput
  {
    assert LivesAt(a, c, life, n);
    SteadyLife(a, c, life, n);
    OpenTurnWakes(a, c, life.state(n), life.received(n), Now(life, n));
  }
}
