/** What one standby does during one pass, over any sequence of calls made to it. */
module StandbyDiscipline {
  import opened Words
  import opened Addresses
  import opened Arithmetic
  import opened Messages
  import opened Nodes
  import opened Failover
  import opened Options

  /** The calls of `runRuntimeStep`, with the true time of each tick. */
  datatype Call = Observed(m: Message) | Ticked(time: nat) | OutputTaken | ReportTaken

  /** What a call queues for transmission. */
  datatype Event = Requested(time: nat) | Substituted(time: nat) | ToreDown(time: nat)

  function Apply(a: Arith<Float>, c: NodeConfig, role: BackupRole, s: StandbyState, call: Call): StandbyState
  {
    match call
    case Observed(m) => StandbyObserve(c, role, s, m)
    case Ticked(time) => StandbyTick(a, c, role, s, time % 0x1_0000_0000)
    case OutputTaken => s.(outgoing := None)
    case ReportTaken => s.(diagnostic := None)
  }

  function After(a: Arith<Float>, c: NodeConfig, role: BackupRole, s: StandbyState, calls: seq<Call>): StandbyState
    decreases |calls|
  {
    if calls == [] then s else After(a, c, role, Apply(a, c, role, s, calls[0]), calls[1..])
  }

  function Queued(s: StandbyState, s': StandbyState, time: nat): seq<Event>
  {
    (if s'.resendRequested && !s.resendRequested then [Requested(time)] else []) +
    (if s'.substituted && !s.substituted then [Substituted(time)] else []) +
    (if s'.tornDown && !s.tornDown then [ToreDown(time)] else [])
  }

  function TimeOf(call: Call): nat
  {
    if call.Ticked? then call.time else 0
  }

  /** Everything the calls queue, in order. */
  function Log(a: Arith<Float>, c: NodeConfig, role: BackupRole, s: StandbyState, calls: seq<Call>): seq<Event>
    decreases |calls|
  {
    if calls == [] then []
    else
      var s' := Apply(a, c, role, s, calls[0]);
      Queued(s, s', TimeOf(calls[0])) + Log(a, c, role, s', calls[1..])
  }

  /** Nothing, a request, or a request followed by exactly one outcome. */
  predicate Disciplined(role: BackupRole, log: seq<Event>)
  {
    || log == []
    || (|log| == 1 && log[0].Requested?)
    || (|log| == 2 && log[0].Requested? && !log[1].Requested?
        && Elapsed(log[1].time % 0x1_0000_0000, log[0].time % 0x1_0000_0000) >= role.resendGraceMs)
  }

  /** The flags, the log and the queued packets tell the same story. */
  predicate Consistent(c: NodeConfig, role: BackupRole, s: StandbyState, log: seq<Event>)
  {
    && Disciplined(role, log)
    && s.resendRequested == (|log| >= 1)
    && s.substituted == (|log| == 2 && log[1].Substituted?)
    && s.tornDown == (|log| == 2 && log[1].ToreDown?)
    && s.resolved == (|log| == 2)
    && (|log| >= 1 ==> s.waitStart == log[0].time % 0x1_0000_0000)
    && (s.outgoing.Some? ==>
          |log| >= 1 &&
          if |log| == 2 then
            if log[1].Substituted?
            then s.outgoing.value.source == role.target && s.outgoing.value.kind == DATA
                 && s.outgoing.value.flags == FLAG_SUBSTITUTE && |s.outgoing.value.values| == 1
            else s.outgoing.value == Teardown(c)
          else s.outgoing.value == ResendRequest(c, role))
    && (s.diagnostic.Some? ==>
          |log| == 2 &&
          s.diagnostic.value == Report(c, role, if log[1].Substituted? then FLAG_SUBSTITUTE else FLAG_TEARDOWN))
  }

  lemma TickConsistent(a: Arith<Float>, c: NodeConfig, role: BackupRole, s: StandbyState, log: seq<Event>, time: nat)
    requires Consistent(c, role, s, log)
    ensures var s' := Apply(a, c, role, s, Ticked(time)); Consistent(c, role, s', log + Queued(s, s', time))
  {
    var now := time % 0x1_0000_0000;
    var s' := StandbyTick(a, c, role, s, now);
    var log' := log + Queued(s, s', time);
    if s.targetObserved || s.resolved {
      assert log' == log;
    } else if !s.resendRequested {
      if RoundFinished(c, role, s) { assert log' == [Requested(time)]; } else { assert log' == log; }
    } else if Elapsed(now, s.waitStart) < role.resendGraceMs {
      assert log' == log;
    } else {
      assert log' == [log[0], if s'.substituted then Substituted(time) else ToreDown(time)];
    }
  }

  lemma UntickedConsistent(a: Arith<Float>, c: NodeConfig, role: BackupRole, s: StandbyState, log: seq<Event>, call: Call)
    requires Consistent(c, role, s, log) && !call.Ticked?
    ensures var s' := Apply(a, c, role, s, call); Consistent(c, role, s', log) && Queued(s, s', TimeOf(call)) == []
  {
    hide Disciplined, Report, ResendRequest, Teardown;
  }

  lemma ApplyConsistent(a: Arith<Float>, c: NodeConfig, role: BackupRole, s: StandbyState, log: seq<Event>, call: Call)
    requires Consistent(c, role, s, log)
    ensures var s' := Apply(a, c, role, s, call); Consistent(c, role, s', log + Queued(s, s', TimeOf(call)))
  {
    var s' := Apply(a, c, role, s, call);
    if call.Ticked? {
      TickConsistent(a, c, role, s, log, call.time);
    } else {
      UntickedConsistent(a, c, role, s, log, call);
      assert log + Queued(s, s', TimeOf(call)) == log;
    }
  }

  lemma {:induction false} CallsConsistent(a: Arith<Float>, c: NodeConfig, role: BackupRole, s: StandbyState,
                                           log: seq<Event>, calls: seq<Call>)
    requires Consistent(c, role, s, log)
    ensures Consistent(c, role, After(a, c, role, s, calls), log + Log(a, c, role, s, calls))
    decreases |calls|
  {
    if calls == [] {
      assert log + [] == log;
    } else {
      var s' := Apply(a, c, role, s, calls[0]);
      hide Consistent, Apply, Queued;
      var queued, rest := Queued(s, s', TimeOf(calls[0])), Log(a, c, role, s', calls[1..]);
      ApplyConsistent(a, c, role, s, log, calls[0]);
      CallsConsistent(a, c, role, s', log + queued, calls[1..]);
      assert log + queued + rest == log + (queued + rest);
    }
  }

  /** Its one value casts and decodes to `target`. */
  predicate Names(m: Message, target: Address)
  {
    |m.values| == 1 && U16OfFloat(m.values[0]).Exact? && Decode(U16OfFloat(m.values[0]).value) == target
  }

  /** A report: from this node to group 254, under flags 1 for a substitute and 2 for a teardown. */
  predicate Reports(c: NodeConfig, role: BackupRole, m: Message, last: Event)
  {
    && m.source == c.address && m.group == 254 && m.kind == 1 && m.flags == (if last.Substituted? then 1 else 2)
    && Names(m, role.target)
  }

  /** What is queued for the network after each event. */
  predicate Announces(c: NodeConfig, role: BackupRole, m: Message, last: Event)
  {
    match last
    case Requested(_) => m.source == c.address && m.kind == 1 && m.flags == 0 && Names(m, role.target)
    case Substituted(_) => m.source == role.target && m.kind == 0 && m.flags == 1 && |m.values| == 1
    case ToreDown(_) => m.source == c.address && m.kind == 3 && m.flags == 0 && m.values == []
  }

  lemma PayloadNames(target: Address)
    ensures U16OfFloat(FloatOfU16(Encode(target))) == Exact(Encode(target)) && Decode(Encode(target)) == target
  {
    FloatRoundTrip(Encode(target));
    DecodeEncode(target);
  }

  lemma QueuedFields(c: NodeConfig, role: BackupRole, s: StandbyState, log: seq<Event>)
    requires Consistent(c, role, s, log)
    ensures s.diagnostic.Some? ==> |log| == 2 && Reports(c, role, s.diagnostic.value, log[1])
    ensures s.outgoing.Some? ==> log != [] && Announces(c, role, s.outgoing.value, log[|log| - 1])
  {
    PayloadNames(role.target);
    hide FloatOfU16, U16OfFloat, Encode, Decode;
  }

  /** Over any calls of a pass: first a resend request, then at least the grace period later at
      most one of substitute and teardown. What is queued for the network and what is reported
      say which, field by field, and name the target. The grace period is kept in true time too
      while less than 2^32 ms pass. */
  lemma StandbyIsDisciplined(a: Arith<Float>, c: NodeConfig, role: BackupRole, calls: seq<Call>)
    ensures var s, log := After(a, c, role, FRESH_STANDBY, calls), Log(a, c, role, FRESH_STANDBY, calls);
            && Disciplined(role, log)
            && (|log| == 2 && log[0].time <= log[1].time < log[0].time + 0x1_0000_0000 ==>
                  log[1].time - log[0].time >= role.resendGraceMs)
            && (s.diagnostic.Some? ==> |log| == 2 && Reports(c, role, s.diagnostic.value, log[1]))
            && (s.outgoing.Some? ==> log != [] && Announces(c, role, s.outgoing.value, log[|log| - 1]))
  {
    var log := Log(a, c, role, FRESH_STANDBY, calls);
    CallsConsistent(a, c, role, FRESH_STANDBY, [], calls);
    assert [] + log == log;
    QueuedFields(c, role, After(a, c, role, FRESH_STANDBY, calls), log);
    if |log| == 2 && log[0].time <= log[1].time < log[0].time + 0x1_0000_0000 {
      ElapsedAcrossWrap(log[0].time, log[1].time);
    }
  }

  /** Every event of the log is announced: in the call that logs it, the packet is queued, and
      with an outcome the report. */
  lemma EventsAreQueued(a: Arith<Float>, c: NodeConfig, role: BackupRole, calls: seq<Call>, call: Call)
    ensures var s, log := After(a, c, role, FRESH_STANDBY, calls), Log(a, c, role, FRESH_STANDBY, calls);
            var s' := Apply(a, c, role, s, call);
            var queued := Queued(s, s', TimeOf(call));
            queued != [] ==>
              && |queued| == 1 && s'.outgoing.Some? && Announces(c, role, s'.outgoing.value, queued[0])
              && (!queued[0].Requested? ==> s'.diagnostic.Some? && Reports(c, role, s'.diagnostic.value, queued[0]))
  {
    var s, log := After(a, c, role, FRESH_STANDBY, calls), Log(a, c, role, FRESH_STANDBY, calls);
    CallsConsistent(a, c, role, FRESH_STANDBY, [], calls);
    assert [] + log == log;
    hide Consistent, StandbyTick, StandbyObserve, Reports, Announces;
    if call.Ticked? { TickQueues(a, c, role, s, log, call.time); } else { UntickedConsistent(a, c, role, s, log, call); }
  }

  lemma TickQueues(a: Arith<Float>, c: NodeConfig, role: BackupRole, s: StandbyState, log: seq<Event>, time: nat)
    requires Consistent(c, role, s, log)
    ensures var s' := Apply(a, c, role, s, Ticked(time));
            var queued := Queued(s, s', time);
            queued != [] ==>
              && |queued| == 1 && s'.outgoing.Some? && Announces(c, role, s'.outgoing.value, queued[0])
              && (!queued[0].Requested? ==> s'.diagnostic.Some? && Reports(c, role, s'.diagnostic.value, queued[0]))
  {
    PayloadNames(role.target);
    hide FloatOfU16, U16OfFloat, Encode, Decode, Output, RoundFinished, Elapsed;
  }

  lemma {:induction false} QuietOnceObserved(a: Arith<Float>, c: NodeConfig, role: BackupRole, s: StandbyState, calls: seq<Call>)
    requires s.targetObserved
    ensures Log(a, c, role, s, calls) == []
    decreases |calls|
  {
    if calls != [] {
      QuietCall(a, c, role, s, calls[0]);
      hide Apply, Queued;
      QuietOnceObserved(a, c, role, Apply(a, c, role, s, calls[0]), calls[1..]);
    }
  }

  lemma QuietCall(a: Arith<Float>, c: NodeConfig, role: BackupRole, s: StandbyState, call: Call)
    requires s.targetObserved
    ensures var s' := Apply(a, c, role, s, call); s'.targetObserved && Queued(s, s', TimeOf(call)) == []
  {
  }

  /** Once the target has been observed nothing more is queued, whatever follows. */
  lemma ObservedTargetEndsIt(a: Arith<Float>, c: NodeConfig, role: BackupRole, s: StandbyState, target: Message, later: seq<Call>)
    requires SameNode(target.source, role.target)
    ensures Log(a, c, role, s, [Observed(target)] + later) == []
  {
    assert ([Observed(target)] + later)[1..] == later;
    QuietOnceObserved(a, c, role, Apply(a, c, role, s, Observed(target)), later);
  }

  // ---- What a standby knows, and what it makes of it ----

  /** A packet from the node `role` names. */
  predicate FromTarget(role: BackupRole, m: Message)
  {
    m.source.node == role.target.node && m.source.layer == role.target.layer && m.source.cluster == role.target.cluster
  }

  ghost predicate HeardTarget(role: BackupRole, calls: seq<Call>)
  {
    exists m :: Observed(m) in calls && FromTarget(role, m)
  }

  /** A sibling other than the target has been observed. */
  ghost predicate HeardSibling(c: NodeConfig, role: BackupRole, calls: seq<Call>, node: nat)
  {
    exists m :: Observed(m) in calls && !FromTarget(role, m) && m.source.layer == c.address.layer && m.source.node as nat == node
  }

  /** A predecessor of the target has brought its values. */
  ghost predicate HeardInput(role: BackupRole, calls: seq<Call>, node: nat)
  {
    exists m :: Observed(m) in calls && IsInput(role, m) && m.source.node as nat == node
  }

  predicate IsInput(role: BackupRole, m: Message)
  {
    !FromTarget(role, m) && m.source.layer == role.predecessorLayer && m.source.node as nat in Bits(role.predecessors)
    && |m.values| <= 16
  }

  /** Whatever the calls, a standby knows exactly what it has been shown. */
  lemma {:induction false} StandbyKnows(a: Arith<Float>, c: NodeConfig, role: BackupRole, calls: seq<Call>)
    ensures var s := After(a, c, role, FRESH_STANDBY, calls);
            && (s.targetObserved <==> HeardTarget(role, calls))
            && (forall node :: node in s.layerObserved <==> HeardSibling(c, role, calls, node))
            && (forall node :: node in s.slots <==> HeardInput(role, calls, node))
    decreases |calls|
  {
    if calls != [] {
      var n := |calls| - 1;
      var before := After(a, c, role, FRESH_STANDBY, calls[..n]);
      StandbyKnows(a, c, role, calls[..n]);
      AfterLast(a, c, role, FRESH_STANDBY, calls);
      assert calls == calls[..n] + [calls[n]];
      KnowsMore(a, c, role, before, calls[n]);
      hide After, Apply, FromTarget, IsInput;
      HeardMore(c, role, calls[..n], calls[n]);
    }
  }

  lemma {:induction false} AfterLast(a: Arith<Float>, c: NodeConfig, role: BackupRole, s: StandbyState, calls: seq<Call>)
    requires calls != []
    ensures var n := |calls| - 1;
            After(a, c, role, s, calls) == Apply(a, c, role, After(a, c, role, s, calls[..n]), calls[n])
    decreases |calls|
  {
    hide Apply;
    if |calls| > 1 {
      var n := |calls| - 1;
      AfterLast(a, c, role, Apply(a, c, role, s, calls[0]), calls[1..]);
      assert calls[1..][..n - 1] == calls[..n][1..];
    }
  }

  lemma KnowsMore(a: Arith<Float>, c: NodeConfig, role: BackupRole, s: StandbyState, call: Call)
    ensures var s' := Apply(a, c, role, s, call);
            && (s'.targetObserved <==> s.targetObserved || (call.Observed? && FromTarget(role, call.m)))
            && (forall node :: node in s'.layerObserved <==>
                          node in s.layerObserved
                          || (call.Observed? && !FromTarget(role, call.m) && call.m.source.layer == c.address.layer
                              && call.m.source.node as nat == node))
            && s'.slots == (if call.Observed? && IsInput(role, call.m) then s.slots[call.m.source.node as nat := call.m.values]
                            else s.slots)
  {
    hide StandbyTick, Bits;
    if call.Ticked? { TickKeepsKnowledge(a, c, role, s, call.time % 0x1_0000_0000); }
  }

  lemma TickKeepsKnowledge(a: Arith<Float>, c: NodeConfig, role: BackupRole, s: StandbyState, now: u32)
    ensures var s' := StandbyTick(a, c, role, s, now);
            s'.targetObserved == s.targetObserved && s'.layerObserved == s.layerObserved && s'.slots == s.slots
  {
    hide Output, Elapsed, RoundFinished, Report, ResendRequest;
  }

  lemma HeardMore(c: NodeConfig, role: BackupRole, calls: seq<Call>, call: Call)
    ensures var all := calls + [call];
            && (HeardTarget(role, all) <==> HeardTarget(role, calls) || (call.Observed? && FromTarget(role, call.m)))
            && (forall node :: HeardSibling(c, role, all, node) <==>
                          HeardSibling(c, role, calls, node)
                          || (call.Observed? && !FromTarget(role, call.m) && call.m.source.layer == c.address.layer
                              && call.m.source.node as nat == node))
            && (forall node :: HeardInput(role, all, node) <==>
                          HeardInput(role, calls, node)
                          || (call.Observed? && IsInput(role, call.m) && call.m.source.node as nat == node))
  {
    hide FromTarget, IsInput;
    var all := calls + [call];
    assert forall x :: x in all <==> x in calls || x == call;
  }

  /** One tick of an undecided standby that has not heard its target: it asks once every sibling of
      the roster but itself and the target has been heard; and after the grace period it
      substitutes if the target's inputs are complete and tears down if they are not. */
  lemma TickDecides(a: Arith<Float>, c: NodeConfig, role: BackupRole, s: StandbyState, now: u32)
    ensures var s' := StandbyTick(a, c, role, s, now);
            var waited := s.resendRequested && Elapsed(now, s.waitStart) >= role.resendGraceMs;
            var complete := forall i | i in Bits(role.predecessors) :: i in s.slots;
            var roundOver := forall j | j in Bits(role.layerRoster) && j != c.address.node as nat && j != role.target.node as nat ::
                               j in s.layerObserved;
            if s.targetObserved || s.resolved then s' == s
            else
              && (s'.resendRequested <==> s.resendRequested || roundOver)
              && (s'.substituted <==> s.substituted || (waited && complete))
              && (s'.tornDown <==> s.tornDown || (waited && !complete))
              && (s'.resolved <==> waited)
              && s'.targetObserved == s.targetObserved && s'.slots == s.slots && s'.layerObserved == s.layerObserved
              && (s'.resendRequested && !s.resendRequested ==> s'.waitStart == now)
              && (s.resendRequested ==> s'.waitStart == s.waitStart)
              && (waited && complete ==>
                    s'.outgoing.Some? &&
                    s'.outgoing.value.values == [Output(a, role.predecessors, role.activation, role.bias, role.weights, s.slots)])
  {
    hide Output, Elapsed, Bits, Report, ResendRequest, Teardown;
  }
}
