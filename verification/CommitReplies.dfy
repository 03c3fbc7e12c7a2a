/** When the laptop's verdict on a device is right: only one COMMIT_REPLY reports success, and a
    failure means that it was lost. */
module CommitReplies {
  import opened Words
  import opened Bytes
  import opened Packets
  import opened SetupAgents
  import opened SetupHost
  import opened Provisioning
  import opened ProvisioningRuns
  import opened Options

  /** The device's answer to the first commit request it handles, or to a later one. */
  ghost predicate IsReply(e: Entry, first: bool, data: Bytes)
    requires EntryOk(e)
  {
    exists sequence: u8 :: data == AnswerWire(e, 0, CommitAt(e), first, sequence)
  }

  lemma ReplyVerdict(e: Entry, first: bool, data: Bytes)
    requires EntryOk(e) && IsReply(e, first, data)
    ensures VerdictAt(e, CommitAt(e), data) == Accepted(AnswerAt(e, CommitAt(e), CommitAt(e) % 256, first))
    ensures !IsReply(e, !first, data)
  {
    hide AnswerWire, VerdictAt, CommitAt;
    var sequence: u8 :| data == AnswerWire(e, 0, CommitAt(e), first, sequence);
    JudgeAnswer(e, CommitAt(e), first, sequence, CommitAt(e));
    if IsReply(e, !first, data) {
      var other: u8 :| data == AnswerWire(e, 0, CommitAt(e), !first, other);
      JudgeAnswer(e, CommitAt(e), !first, other, CommitAt(e));
    }
  }

  lemma NoiseIsNoReply(e: Entry, first: bool, data: Bytes)
    requires EntryOk(e) && HostNoise(e.hardwareId, data)
    ensures !IsReply(e, first, data)
  {
    hide IsReply, VerdictAt, CommitAt;
    NoiseVerdict(e, CommitAt(e), data);
    if IsReply(e, first, data) { ReplyVerdict(e, first, data); }
  }

  lemma AckIsNoReply(e: Entry, i: nat, sent: bool, sequence: u8, first: bool)
    requires EntryOk(e) && i < CommitAt(e)
    ensures !IsReply(e, first, AnswerWire(e, 0, i, sent, sequence))
  {
    hide IsReply, VerdictAt, CommitAt, AnswerWire;
    var data := AnswerWire(e, 0, i, sent, sequence);
    JudgeAnswer(e, i, sent, sequence, CommitAt(e));
    if IsReply(e, first, data) { ReplyVerdict(e, first, data); }
  }

  // ---- The queue back to the laptop ----

  ghost predicate HoldsSuccess(e: Entry, q: seq<Bytes>)
    requires EntryOk(e)
  {
    exists x :: x in q && IsReply(e, true, x)
  }

  ghost predicate NoReplies(e: Entry, q: seq<Bytes>)
    requires EntryOk(e)
  {
    forall x, first | x in q :: !IsReply(e, first, x)
  }

  /** No later reply overtakes the first. */
  ghost predicate InFifoOrder(e: Entry, q: seq<Bytes>)
    requires EntryOk(e)
  {
    forall i, j | 0 <= i < j < |q| && IsReply(e, false, q[i]) :: !IsReply(e, true, q[j])
  }

  predicate Done(l: Link)
  {
    l.agent.phase == Configured
  }

  ghost predicate RepliesInOrder(e: Entry, l: Link)
    requires EntryOk(e)
  {
    InFifoOrder(e, l.toHost) && (!Done(l) ==> NoReplies(e, l.toHost))
  }

  lemma DoneIsLastStage(e: Entry, l: Link, stage: nat, left: nat)
    requires EntryOk(e) && InStep(e, l, stage, left)
    ensures Done(l) <==> stage == CommitAt(e) + 1
    ensures Done(l) ==> l.host.next == CommitAt(e)
  {
    hide QueueOk, AnswersOk, Stage;
    StageDecides(e, l.agent, stage);
  }

  /** The device sends a success reply in this event. */
  ghost predicate Emits(e: Entry, l: Link, ev: Event)
    requires EntryOk(e) && Sized(l.agent)
  {
    ev.DeviceReceives? && l.toDevice != [] && Bounded(ev.before, l.toDevice[0])
    && HoldsSuccess(e, Receive(e.hardwareId, l.agent, ev.before, l.toDevice[0]).1)
  }

  /** What one handled datagram adds to the queue. */
  ghost predicate Replied(e: Entry, done: bool, done': bool, sent: seq<Bytes>)
    requires EntryOk(e)
  {
    && |sent| <= 1 && (done ==> done')
    && (HoldsSuccess(e, sent) <==> !done && done')
    && (!done' ==> NoReplies(e, sent))
  }

  lemma DatagramReplied(e: Entry, s: Agent, before: Packet, stage: nat, i: nat)
    requires EntryOk(e) && Sized(s) && Stage(e, s, stage) && i <= CommitAt(e) && (stage == i || stage == i + 1)
    requires |before.payload| == MAX_PAYLOAD_WORDS && Bounded(before, PacketWire(e, i))
    ensures var (s', sent) := Receive(e.hardwareId, s, before, PacketWire(e, i));
            Replied(e, s.phase == Configured, s'.phase == Configured, sent)
  {
    hide Receive, AnswerWire, Stage, HoldsSuccess, NoReplies, Bounded, CommitAt, WireOf, MessageAt;
    DatagramHandled(e, 0, s, before, i, stage == i);
    var (s', sent) := Receive(e.hardwareId, s, before, PacketWire(e, i));
    StageDecides(e, s, stage);
    StageDecides(e, s', i + 1);
    OneAnswer(e, i, stage == i, s.sequence);
  }

  lemma OneAnswer(e: Entry, i: nat, first: bool, sequence: u8)
    requires EntryOk(e) && i <= CommitAt(e)
    ensures var sent := [AnswerWire(e, 0, i, first, sequence)];
            && (HoldsSuccess(e, sent) <==> i == CommitAt(e) && first)
            && (i < CommitAt(e) ==> NoReplies(e, sent))
  {
    hide AnswerWire, CommitAt;
    var answer := AnswerWire(e, 0, i, first, sequence);
    assert [answer] == [answer] && answer in [answer];
    if i == CommitAt(e) {
      assert IsReply(e, first, answer);
      hide IsReply;
      ReplyVerdict(e, first, answer);
    } else {
      hide IsReply;
      AckIsNoReply(e, i, first, sequence, true);
      AckIsNoReply(e, i, first, sequence, false);
    }
  }

  lemma StageDecides(e: Entry, s: Agent, stage: nat)
    requires EntryOk(e) && Stage(e, s, stage) && stage <= CommitAt(e) + 1
    ensures s.phase == Configured <==> stage == CommitAt(e) + 1
  {
    hide Intended, BothComplete;
  }

  lemma DeviceReplied(e: Entry, l: Link, before: Packet, l': Link)
    requires EntryOk(e) && Agree(e, l) && Next(e, l, DeviceReceives(before), l')
    ensures Replied(e, Done(l), Done(l'), Receive(e.hardwareId, l.agent, before, l.toDevice[0]).1)
  {
    hide Stage, AnswersOk, AnswerWire, Receive, PacketWire, HoldsSuccess, NoReplies;
    var stage: nat, left: nat :| InStep(e, l, stage, left);
    var x, next := l.toDevice[0], l.host.next;
    if DeviceNoise(e.hardwareId, x) {
      NoiseReceived(e.hardwareId, l.agent, before, x);
      NothingReplied(e);
    } else {
      var i := if left > 0 then next - 1 else next;
      assert OfPacket(e, i, x);
      DatagramReplied(e, l.agent, before, stage, i);
    }
  }

  lemma NothingReplied(e: Entry)
    requires EntryOk(e)
    ensures !HoldsSuccess(e, []) && NoReplies(e, [])
  {
  }

  // ---- One event ----

  lemma AppendOrdered(e: Entry, l: Link, l': Link, sent: seq<Bytes>)
    requires EntryOk(e) && RepliesInOrder(e, l) && Replied(e, Done(l), Done(l'), sent) && l'.toHost == l.toHost + sent
    ensures RepliesInOrder(e, l')
    ensures HoldsSuccess(e, l'.toHost) <==> HoldsSuccess(e, l.toHost) || HoldsSuccess(e, sent)
  {
    hide IsReply, Done;
    if sent != [] { assert sent == [sent[0]]; }
    forall i, j | 0 <= i < j < |l'.toHost| && IsReply(e, false, l'.toHost[i])
      ensures !IsReply(e, true, l'.toHost[j])
    {
      if j >= |l.toHost| { assert l'.toHost[j] in sent; }
      assert i < |l.toHost| && l'.toHost[i] in l.toHost;
    }
  }

  lemma DropOrdered(e: Entry, q: seq<Bytes>, i: nat)
    requires EntryOk(e) && i < |q| && InFifoOrder(e, q)
    ensures InFifoOrder(e, Drop(q, i)) && (NoReplies(e, q) ==> NoReplies(e, Drop(q, i)))
    ensures HoldsSuccess(e, Drop(q, i)) ==> HoldsSuccess(e, q)
  {
    hide IsReply;
  }

  lemma TwiceOrdered(e: Entry, q: seq<Bytes>, i: nat)
    requires EntryOk(e) && i < |q| && InFifoOrder(e, q)
    ensures InFifoOrder(e, Twice(q, i)) && (NoReplies(e, q) ==> NoReplies(e, Twice(q, i)))
    ensures HoldsSuccess(e, Twice(q, i)) <==> HoldsSuccess(e, q)
  {
    hide IsReply;
    var r := Twice(q, i);
    assert forall x :: x in r <==> x in q;
    forall a, b | 0 <= a < b < |r| && IsReply(e, false, r[a])
      ensures !IsReply(e, true, r[b])
    {
      var a0, b0 := if a <= i then a else a - 1, if b <= i then b else b - 1;
      assert r[a] == q[a0] && r[b] == q[b0];
      if a0 == b0 { ReplyVerdict(e, false, q[a0]); }
    }
  }

  /** The laptop reads the head of its queue: a success reply ends its wait with success, any
      other reply with a failure, and nothing else ends it. */
  lemma HeadDecides(e: Entry, l: Link, l': Link)
    requires EntryOk(e) && Agree(e, l) && Next(e, l, HostReceives, l') && l.host.result.None?
    ensures IsReply(e, true, l.toHost[0]) && Done(l) ==> l'.host.result == Some(Success)
    ensures l'.host.result.Some? ==>
              && Done(l) && l.host.next == CommitAt(e)
              && (if IsReply(e, true, l.toHost[0]) then l'.host.result == Some(Success)
                  else IsReply(e, false, l.toHost[0]) && l'.host.result == Some(Failure))
  {
    hide Stage, VerdictAt, AnswersOk, QueueOk, IsReply, Done, AnswerAt, CommitOutcome;
    var stage: nat, left: nat :| InStep(e, l, stage, left);
    DoneIsLastStage(e, l, stage, left);
    var x := l.toHost[0];
    CommitReplyOutcome(e, CommitAt(e) % 256, true);
    CommitReplyOutcome(e, CommitAt(e) % 256, false);
    if IsReply(e, true, x) { ReplyVerdict(e, true, x); }
    if l'.host.result.Some? {
      AcceptedMeansHandled(e, l.toHost, stage, l.host.next);
      AcceptedIsReply(e, l.toHost, stage);
      if IsReply(e, false, x) { ReplyVerdict(e, false, x); }
    }
  }

  /** What is accepted as the answer to the commit request is one. */
  lemma AcceptedIsReply(e: Entry, q: seq<Bytes>, stage: nat)
    requires EntryOk(e) && q != [] && AnswersOk(e, q, stage) && VerdictAt(e, CommitAt(e), q[0]).Accepted?
    ensures IsReply(e, true, q[0]) || IsReply(e, false, q[0])
  {
    hide VerdictAt, AnswerWire, AnswerAt, CommitAt, HostNoise;
    var x := q[0];
    assert x in q;
    if HostNoise(e.hardwareId, x) {
      NoiseVerdict(e, CommitAt(e), x);
    } else {
      var i: nat, first: bool, sequence: u8 :| AnswersPacket(e, stage, x, i, first, sequence);
      JudgeAnswer(e, i, first, sequence, CommitAt(e));
      assert IsReply(e, first, x);
    }
  }

  /** The last copy of the success reply is lost in this event. */
  ghost predicate Loses(e: Entry, l: Link, ev: Event, l': Link)
    requires EntryOk(e)
  {
    ev.LoseToHost? && HoldsSuccess(e, l.toHost) && !HoldsSuccess(e, l'.toHost)
  }

  ghost predicate Progressed(e: Entry, l: Link, ev: Event, l': Link)
    requires EntryOk(e) && Sized(l.agent)
  {
    && RepliesInOrder(e, l') && (Done(l) ==> Done(l')) && (l.host.result.Some? ==> l'.host.result.Some?)
    && (Emits(e, l, ev) <==> !Done(l) && Done(l'))
    && (Emits(e, l, ev) ==> HoldsSuccess(e, l'.toHost))
    && (HoldsSuccess(e, l'.toHost) ==> HoldsSuccess(e, l.toHost) || Emits(e, l, ev))
    && (HoldsSuccess(e, l.toHost) && !HoldsSuccess(e, l'.toHost) && Done(l) && l.host.result.None? ==>
          Loses(e, l, ev, l') || l'.host.result.Some?)
  }

  lemma DeviceProgresses(e: Entry, l: Link, before: Packet, l': Link)
    requires EntryOk(e) && Agree(e, l) && Next(e, l, DeviceReceives(before), l') && RepliesInOrder(e, l)
    ensures Progressed(e, l, DeviceReceives(before), l')
  {
    hide Agree, Receive, Bounded, Done, HoldsSuccess, RepliesInOrder, NoReplies;
    DeviceReplied(e, l, before, l');
    AppendOrdered(e, l, l', Receive(e.hardwareId, l.agent, before, l.toDevice[0]).1);
  }

  lemma HostProgresses(e: Entry, l: Link, l': Link)
    requires EntryOk(e) && Agree(e, l) && Next(e, l, HostReceives, l') && RepliesInOrder(e, l)
    ensures Progressed(e, l, HostReceives, l')
  {
    hide Agree, VerdictAt, IsReply, CommitOutcome;
    assert l'.toHost == Drop(l.toHost, 0);
    DropOrdered(e, l.toHost, 0);
    if l.host.result.None? { HeadDecides(e, l, l'); }
  }

  lemma ChannelProgresses(e: Entry, l: Link, ev: Event, l': Link)
    requires EntryOk(e) && Next(e, l, ev, l') && RepliesInOrder(e, l) && !ev.HostReceives? && !ev.DeviceReceives?
    ensures Progressed(e, l, ev, l')
  {
    hide IsReply, HostNoise, DeviceNoise, InFifoOrder, NoReplies, HoldsSuccess, Drop, Twice;
    match ev
    case LoseToHost(i) => DropOrdered(e, l.toHost, i);
    case RepeatToHost(i) => TwiceOrdered(e, l.toHost, i);
    case NoiseToHost(data) =>
      NoiseReplied(e, Done(l), data);
      AppendOrdered(e, l, l', [data]);
    case _ =>
  }

  lemma NoiseReplied(e: Entry, done: bool, data: Bytes)
    requires EntryOk(e) && HostNoise(e.hardwareId, data)
    ensures Replied(e, done, done, [data]) && !HoldsSuccess(e, [data])
  {
    hide IsReply, HostNoise;
    NoiseIsNoReply(e, true, data);
    NoiseIsNoReply(e, false, data);
  }

  lemma EventProgresses(e: Entry, l: Link, ev: Event, l': Link)
    requires EntryOk(e) && Agree(e, l) && Next(e, l, ev, l') && RepliesInOrder(e, l)
    ensures Progressed(e, l, ev, l')
  {
    hide Agree, Next, RepliesInOrder, Progressed;
    if ev.HostReceives? {
      HostProgresses(e, l, l');
    } else if ev.DeviceReceives? {
      DeviceProgresses(e, l, ev.before, l');
    } else {
      ChannelProgresses(e, l, ev, l');
    }
  }

  // ---- Whole runs ----

  lemma RunStarts(e: Entry, links: seq<Link>, events: seq<Event>)
    requires IsLinkRun(e, links, events)
    ensures EntryOk(e) && |links| == |events| + 1 && RepliesInOrder(e, links[0]) && !Done(links[0])
  {
    hide Next, NextIn;
    NothingReplied(e);
  }

  lemma RunGoesOn(e: Entry, links: seq<Link>, events: seq<Event>, n: nat)
    requires IsLinkRun(e, links, events) && n < |events|
    ensures |links| == |events| + 1 && Sized(links[n].agent)
    ensures Agree(e, links[n]) && Next(e, links[n], events[n], links[n + 1])
  {
    hide Agree;
    RunAgrees(e, links, events, n);
    assert NextIn(e, links, events, n);
  }

  lemma {:induction false} RunProgresses(e: Entry, links: seq<Link>, events: seq<Event>, n: nat)
    requires IsLinkRun(e, links, events) && n <= |events|
    ensures |links| == |events| + 1 && RepliesInOrder(e, links[n])
    ensures n < |events| ==> Sized(links[n].agent) && Progressed(e, links[n], events[n], links[n + 1])
  {
    hide IsLinkRun, Next, Agree, RepliesInOrder, Emits, HoldsSuccess, Loses;
    RunStarts(e, links, events);
    if n > 0 { RunProgresses(e, links, events, n - 1); }
    if n < |events| {
      RunGoesOn(e, links, events, n);
      EventProgresses(e, links[n], events[n], links[n + 1]);
    }
  }

  ghost predicate EmitsAt(e: Entry, links: seq<Link>, events: seq<Event>, n: nat)
    requires IsLinkRun(e, links, events) && n < |events|
  {
    Sized(links[n].agent) && Emits(e, links[n], events[n])
  }

  ghost predicate LosesAt(e: Entry, links: seq<Link>, events: seq<Event>, n: nat)
    requires IsLinkRun(e, links, events) && n < |events|
  {
    Loses(e, links[n], events[n], links[n + 1])
  }

  lemma {:induction false} StaysDone(e: Entry, links: seq<Link>, events: seq<Event>, k: nat, n: nat)
    requires IsLinkRun(e, links, events) && k <= n <= |events| && Done(links[k])
    ensures Done(links[n])
    ensures !HoldsSuccess(e, links[k].toHost) ==> !HoldsSuccess(e, links[n].toHost)
    decreases n - k
  {
    hide IsLinkRun, Done, HoldsSuccess, RepliesInOrder, Emits, Loses;
    if k < n {
      StaysDone(e, links, events, k, n - 1);
      RunProgresses(e, links, events, n - 1);
    }
  }

  /** A device sends a success reply exactly when it becomes CONFIGURED, and only once. */
  lemma SuccessIsSentOnce(e: Entry, links: seq<Link>, events: seq<Event>, k: nat, n: nat)
    requires IsLinkRun(e, links, events) && k < |events| && n < |events|
    ensures EmitsAt(e, links, events, n) <==> !Done(links[n]) && Done(links[n + 1])
    ensures EmitsAt(e, links, events, k) && EmitsAt(e, links, events, n) ==> k == n
  {
    hide IsLinkRun, Done, HoldsSuccess, RepliesInOrder, Emits, Loses;
    RunProgresses(e, links, events, k);
    RunProgresses(e, links, events, n);
    if k < n && Done(links[k + 1]) { StaysDone(e, links, events, k + 1, n); }
    if n < k && Done(links[n + 1]) { StaysDone(e, links, events, n + 1, k); }
  }

  /** As long as the laptop waits and the reply has not been lost, it is on its way. */
  lemma {:induction false} OnItsWay(e: Entry, links: seq<Link>, events: seq<Event>, n: nat)
    requires IsLinkRun(e, links, events) && n <= |events| && Done(links[n]) && links[n].host.result.None?
    requires forall j: nat | j < n :: !LosesAt(e, links, events, j)
    ensures HoldsSuccess(e, links[n].toHost)
  {
    hide IsLinkRun, Done, HoldsSuccess, RepliesInOrder, Emits, Loses;
    RunStarts(e, links, events);
    if n > 0 {
      var k := n - 1;
      RunProgresses(e, links, events, k);
      if Done(links[k]) {
        OnItsWay(e, links, events, k);
        assert !LosesAt(e, links, events, k);
      }
    }
  }

  /** The laptop's wait is ended by what it reads. */
  ghost predicate ReadEnds(links: seq<Link>, events: seq<Event>, n: nat)
    requires n < |events| && |links| == |events| + 1
  {
    events[n].HostReceives? && links[n].host.result.None? && links[n + 1].host.result.Some?
  }

  /** When a datagram ends the laptop's wait the device is configured; it ends with success
      exactly if the datagram is the device's answer to the first commit request it handled,
      and with a failure exactly if that answer, of which there is one, was lost before. */
  lemma FailureMeansReplyLost(e: Entry, links: seq<Link>, events: seq<Event>, n: nat)
    requires IsLinkRun(e, links, events) && n < |events| && ReadEnds(links, events, n)
    ensures Done(links[n]) && links[n].toHost != []
    ensures links[n + 1].host.result == Some(Success) <==> IsReply(e, true, links[n].toHost[0])
    ensures links[n + 1].host.result == Some(Failure) <==> exists j: nat :: j < n && LosesAt(e, links, events, j)
    ensures links[n + 1].host.result == Some(Success) || links[n + 1].host.result == Some(Failure)
  {
    RunAgrees(e, links, events, n);
    assert NextIn(e, links, events, n);
    var l := links[n];
    HeadDecides(e, l, links[n + 1]);
    RunProgresses(e, links, events, n);
    hide IsLinkRun, Done, Loses, IsReply, Progressed;
    if j: nat :| j < n && LosesAt(e, links, events, j) {
      LostForGood(e, links, events, j, n);
      assert l.toHost[0] in l.toHost;
    } else {
      OnItsWay(e, links, events, n);
      var x :| x in l.toHost && IsReply(e, true, x);
      var j :| 0 <= j < |l.toHost| && l.toHost[j] == x;
      assert !(j > 0 && IsReply(e, false, l.toHost[0]));
    }
  }

  lemma LostForGood(e: Entry, links: seq<Link>, events: seq<Event>, j: nat, n: nat)
    requires IsLinkRun(e, links, events) && j < n <= |events| && LosesAt(e, links, events, j)
    ensures !HoldsSuccess(e, links[n].toHost)
  {
    hide IsLinkRun, IsReply, Emits;
    RunProgresses(e, links, events, j);
    assert Done(links[j]);
    StaysDone(e, links, events, j + 1, n);
  }
}
