/** The laptop and one device over a lossy, duplicating first-in-first-out channel in each
    direction. */
module ProvisioningRuns {
  import opened Words
  import opened Bytes
  import opened Packets
  import opened SetupMessages
  import opened SetupAgents
  import opened WireFormat
  import opened SetupHost
  import opened Provisioning
  import opened Options

  /** The packet `provision_device` is busy with, and what it has returned. */
  datatype Host = Host(next: nat, result: Option<Outcome>)

  datatype Link = Link(host: Host, agent: Agent, toDevice: seq<Bytes>, toHost: seq<Bytes>)

  /** `before` is what the device's packet variable holds. */
  datatype Event =
    | Send
    | GiveUp
    | HostReceives
    | DeviceReceives(before: Packet)
    | LoseToDevice(i: nat)
    | RepeatToDevice(i: nat)
    | NoiseToDevice(data: Bytes)
    | LoseToHost(i: nat)
    | RepeatToHost(i: nat)
    | NoiseToHost(data: Bytes)

  /** A datagram that means nothing to this device, whatever state it is in. */
  ghost predicate DeviceNoise(id: u64, data: Bytes)
  {
    forall s: Agent, before: Packet {:trigger Receive(id, s, before, data)} | Sized(s) && |before.payload| == MAX_PAYLOAD_WORDS ::
      Bounded(before, data) && Receive(id, s, before, data) == (s, [])
  }

  /** A datagram that is not an answer of this device. */
  ghost predicate HostNoise(id: u64, data: Bytes)
  {
    forall expected: u8, sequence: u8 :: Judge(id, expected, sequence, data) == Ignored
  }

  function PacketWire(e: Entry, i: nat): Bytes
    requires EntryOk(e) && i <= CommitAt(e)
  {
    EmittedAt(e, 0, i).wire
  }

  function Drop(q: seq<Bytes>, i: nat): seq<Bytes>
    requires i < |q|
  {
    q[..i] + q[i + 1..]
  }

  function Twice(q: seq<Bytes>, i: nat): seq<Bytes>
    requires i < |q|
  {
    q[..i + 1] + q[i..]
  }

  /** What the laptop does with a verdict. */
  function HostStep(e: Entry, h: Host, v: Verdict): Host
    requires EntryOk(e) && h.next <= CommitAt(e)
  {
    if h.result.Some? || v.Ignored? then h
    else if h.next == CommitAt(e) then h.(result := Some(CommitOutcome(e, v)))
    else if v.Accepted? then h.(next := h.next + 1)
    else h.(result := Some(if v.Malformed? then Exception else Failure))
  }

  function VerdictAt(e: Entry, next: nat, data: Bytes): Verdict
    requires EntryOk(e) && next <= CommitAt(e)
  {
    Judge(e.hardwareId, Opcode(MessageAt(e, next)), next % 256, data)
  }

  /** The laptop sends its current packet any number of times and moves on when the answer it
      waits for arrives; between the two, datagrams are lost and repeated, and other devices'
      datagrams are mixed in. */
  ghost predicate Next(e: Entry, l: Link, ev: Event, l': Link)
    requires EntryOk(e)
  {
    l.host.next <= CommitAt(e) && Sized(l.agent) &&
    match ev
    case Send => l.host.result.None? && l' == l.(toDevice := l.toDevice + [PacketWire(e, l.host.next)])
    case GiveUp => l.host.result.None? && l' == l.(host := l.host.(result := Some(Failure)))
    case HostReceives =>
      && l.toHost != []
      && l' == l.(toHost := l.toHost[1..], host := HostStep(e, l.host, VerdictAt(e, l.host.next, l.toHost[0])))
    case DeviceReceives(before) =>
      && l.toDevice != [] && Bounded(before, l.toDevice[0])
      && var (agent, sent) := Receive(e.hardwareId, l.agent, before, l.toDevice[0]);
         l' == l.(agent := agent, toDevice := l.toDevice[1..], toHost := l.toHost + sent)
    case LoseToDevice(i) => i < |l.toDevice| && l' == l.(toDevice := Drop(l.toDevice, i))
    case RepeatToDevice(i) => i < |l.toDevice| && l' == l.(toDevice := Twice(l.toDevice, i))
    case NoiseToDevice(data) => DeviceNoise(e.hardwareId, data) && l' == l.(toDevice := l.toDevice + [data])
    case LoseToHost(i) => i < |l.toHost| && l' == l.(toHost := Drop(l.toHost, i))
    case RepeatToHost(i) => i < |l.toHost| && l' == l.(toHost := Twice(l.toHost, i))
    case NoiseToHost(data) => HostNoise(e.hardwareId, data) && l' == l.(toHost := l.toHost + [data])
  }

  ghost predicate NextIn(e: Entry, links: seq<Link>, events: seq<Event>, n: nat)
    requires EntryOk(e) && n < |events| && |links| == |events| + 1
  {
    Next(e, links[n], events[n], links[n + 1])
  }

  ghost predicate IsLinkRun(e: Entry, links: seq<Link>, events: seq<Event>)
  {
    && EntryOk(e) && |links| == |events| + 1
    && IsFresh(links[0].agent) && links[0].host == Host(0, None) && links[0].toDevice == [] && links[0].toHost == []
    && (forall n: nat | n < |events| :: NextIn(e, links, events, n))
  }

  // ---- What is on its way ----

  /** Datagrams of packet `i`, or noise. */
  ghost predicate OfPacket(e: Entry, i: int, data: Bytes)
    requires EntryOk(e)
  {
    DeviceNoise(e.hardwareId, data) || (0 <= i <= CommitAt(e) && data == PacketWire(e, i))
  }

  /** First `left` leftovers of the packet before, then datagrams of the current one. */
  ghost predicate QueueOk(e: Entry, q: seq<Bytes>, next: nat, left: nat)
    requires EntryOk(e)
  {
    && left <= |q|
    && (forall n | 0 <= n < left :: OfPacket(e, next - 1, q[n]))
    && (forall n | left <= n < |q| :: OfPacket(e, next, q[n]))
  }

  /** An answer to one of the first `stage` packets. */
  ghost predicate IsAnswerBelow(e: Entry, stage: nat, data: Bytes)
    requires EntryOk(e)
  {
    exists i: nat, first: bool, sequence: u8 :: AnswersPacket(e, stage, data, i, first, sequence)
  }

  predicate AnswersPacket(e: Entry, stage: nat, data: Bytes, i: nat, first: bool, sequence: u8)
    requires EntryOk(e)
  {
    i < stage && i <= CommitAt(e) && data == AnswerWire(e, 0, i, first, sequence)
  }

  ghost predicate AnswersOk(e: Entry, q: seq<Bytes>, stage: nat)
    requires EntryOk(e)
  {
    forall x | x in q :: HostNoise(e.hardwareId, x) || IsAnswerBelow(e, stage, x)
  }

  /** The device is at the laptop's current packet, before or after having handled it. */
  ghost predicate InStep(e: Entry, l: Link, stage: nat, left: nat)
    requires EntryOk(e)
  {
    && l.host.next <= CommitAt(e) && (stage == l.host.next || (stage == l.host.next + 1 && left == 0))
    && Sized(l.agent) && Stage(e, l.agent, stage)
    && QueueOk(e, l.toDevice, l.host.next, left) && AnswersOk(e, l.toHost, stage)
    && (l.host.result == Some(Success) ==> stage == CommitAt(e) + 1)
    && l.host.result != Some(Exception)
  }

  ghost predicate Agree(e: Entry, l: Link)
    requires EntryOk(e)
  {
    exists stage: nat, left: nat :: InStep(e, l, stage, left)
  }

  // ---- The laptop's reading of an answer ----

  lemma JudgeWire(id: u64, expected: u8, sequence: u8, m: Setup, answerSequence: u8)
    requires IsAnswer(m)
    ensures Judge(id, expected, sequence, Packets.Encode(PacketFor(m, answerSequence)))
         == if m.CommitReply? && expected != COMMIT_REQUEST then Ignored else JudgeReply(id, expected, sequence, m)
  {
    hide StructBytes, Packets.Encode, Size, FieldsOf, Fits, Expressible, PacketFor, ParsePacket, Unpack, FromFields, LayoutOf, JudgeReply;
    AnswerExpressible(m);
    DeviceToLaptop(m, answerSequence);
    FieldsComeBack(m);
  }

  lemma AnswerExpressible(m: Setup)
    requires IsAnswer(m)
    ensures Expressible(m) && (Opcode(m) == ACK || Opcode(m) == NACK || Opcode(m) == COMMIT_REPLY)
    ensures Opcode(m) == COMMIT_REPLY <==> m.CommitReply?
  {
  }

  lemma JudgeAck(e: Entry, i: nat, first: bool, sequence: u8, next: nat)
    requires EntryOk(e) && i < CommitAt(e) && next <= CommitAt(e)
    ensures VerdictAt(e, next, AnswerWire(e, 0, i, first, sequence))
         == if i == next then Accepted(AnswerAt(e, i, i % 256, first)) else Ignored
  {
    hide Judge, Packets.Encode, PacketFor, CommitAt, MessageAt, Opcode, EntryOk;
    FewPackets(e);
    assert i % 256 == i && next % 256 == next;
    var expected := Opcode(MessageAt(e, next));
    var m := Ack(e.hardwareId, i, Opcode(MessageAt(e, i)));
    assert AnswerAt(e, i, i % 256, first) == m;
    JudgeWire(e.hardwareId, expected, next, m, sequence);
    assert JudgeReply(e.hardwareId, expected, next, m) == if i == next then Accepted(m) else Ignored;
  }

  lemma JudgeReplies(e: Entry, first: bool, sequence: u8, next: nat)
    requires EntryOk(e) && next <= CommitAt(e)
    ensures var i := CommitAt(e);
            VerdictAt(e, next, AnswerWire(e, 0, i, first, sequence))
            == if i == next then Accepted(AnswerAt(e, i, i % 256, first)) else Ignored
  {
    var m := AnswerAt(e, CommitAt(e), CommitAt(e) % 256, first);
    JudgeWire(e.hardwareId, Opcode(MessageAt(e, next)), next % 256, m, sequence);
    CommitComesLast(e, next);
    hide Judge, Packets.Encode, PacketFor, CommitAt, MessageAt, Opcode;
    assert m.CommitReply? && m.hardwareId == e.hardwareId;
  }

  /** An answer counts for the packet it answers, and for no other. */
  lemma JudgeAnswer(e: Entry, i: nat, first: bool, sequence: u8, next: nat)
    requires EntryOk(e) && i <= CommitAt(e) && next <= CommitAt(e)
    ensures VerdictAt(e, next, AnswerWire(e, 0, i, first, sequence))
         == if i == next then Accepted(AnswerAt(e, i, i % 256, first)) else Ignored
  {
    hide *;
    if i == CommitAt(e) { JudgeReplies(e, first, sequence, next); } else { JudgeAck(e, i, first, sequence, next); }
  }

  lemma CommitComesLast(e: Entry, i: nat)
    requires EntryOk(e) && i <= CommitAt(e)
    ensures Opcode(MessageAt(e, i)) == COMMIT_REQUEST <==> i == CommitAt(e)
  {
    hide ChunkCount;
  }

  lemma CommitReplyOutcome(e: Entry, sequence: u8, first: bool)
    requires EntryOk(e)
    ensures CommitOutcome(e, Accepted(AnswerAt(e, CommitAt(e), sequence, first))) == if first then Success else Failure
  {
  }

  lemma AcceptedMeansHandled(e: Entry, q: seq<Bytes>, stage: nat, next: nat)
    requires EntryOk(e) && q != [] && AnswersOk(e, q, stage) && next <= CommitAt(e)
    ensures var v := VerdictAt(e, next, q[0]);
            && (v.Ignored? || v.Accepted?)
            && (v.Accepted? ==> stage > next && exists first: bool :: v.reply == AnswerAt(e, next, next % 256, first))
  {
    hide VerdictAt, AnswerWire, AnswerAt;
    var x := q[0];
    assert x in q;
    if HostNoise(e.hardwareId, x) {
      NoiseVerdict(e, next, x);
    } else {
      var i: nat, first: bool, sequence: u8 :| AnswersPacket(e, stage, x, i, first, sequence);
      JudgeAnswer(e, i, first, sequence, next);
    }
  }

  lemma NoiseVerdict(e: Entry, next: nat, data: Bytes)
    requires EntryOk(e) && next <= CommitAt(e) && HostNoise(e.hardwareId, data)
    ensures VerdictAt(e, next, data) == Ignored
  {
  }

  // ---- Steps ----

  lemma AnswersGrow(e: Entry, q: seq<Bytes>, q': seq<Bytes>, stage: nat, stage': nat)
    requires EntryOk(e) && AnswersOk(e, q, stage) && stage <= stage' && forall x | x in q' :: x in q
    ensures AnswersOk(e, q', stage')
  {
    forall x | x in q'
      ensures HostNoise(e.hardwareId, x) || IsAnswerBelow(e, stage', x)
    {
      if !HostNoise(e.hardwareId, x) {
        var i: nat, first: bool, sequence: u8 :| AnswersPacket(e, stage, x, i, first, sequence);
        assert AnswersPacket(e, stage', x, i, first, sequence);
      }
    }
  }

  lemma HostReceivesKeeps(e: Entry, l: Link, l': Link, stage: nat, left: nat)
    requires EntryOk(e) && InStep(e, l, stage, left) && Next(e, l, HostReceives, l')
    ensures Agree(e, l')
  {
    hide Stage, VerdictAt, OfPacket, AnswerAt, AnswersOk, CommitOutcome;
    AcceptedMeansHandled(e, l.toHost, stage, l.host.next);
    CommitReplyOutcome(e, CommitAt(e) % 256, true);
    CommitReplyOutcome(e, CommitAt(e) % 256, false);
    AnswersGrow(e, l.toHost, l'.toHost, stage, stage);
    if l'.host.next == l.host.next {
      assert InStep(e, l', stage, left);
    } else {
      assert InStep(e, l', stage, |l.toDevice|);
    }
  }

  lemma SentAnswers(e: Entry, q: seq<Bytes>, stage: nat, stage': nat, i: nat, first: bool, sequence: u8)
    requires EntryOk(e) && AnswersOk(e, q, stage) && stage <= stage' && i < stage' && i <= CommitAt(e)
    ensures AnswersOk(e, q + [AnswerWire(e, 0, i, first, sequence)], stage')
  {
    hide AnswerWire;
    AnswersGrow(e, q, q, stage, stage');
    assert AnswersPacket(e, stage', AnswerWire(e, 0, i, first, sequence), i, first, sequence);
  }

  /** The device handles the head of its queue: noise, a leftover, or the current packet. */
  lemma DeviceReceivesKeeps(e: Entry, l: Link, before: Packet, l': Link, stage: nat, left: nat)
    requires EntryOk(e) && InStep(e, l, stage, left) && Next(e, l, DeviceReceives(before), l')
    ensures Agree(e, l')
  {
    hide Stage, AnswersOk, AnswerWire, Receive, Bounded, PacketWire;
    var x, next := l.toDevice[0], l.host.next;
    var left' := if left > 0 then left - 1 else 0;
    assert QueueOk(e, l'.toDevice, next, left');
    if DeviceNoise(e.hardwareId, x) {
      NoiseReceived(e.hardwareId, l.agent, before, x);
      assert l.toHost + [] == l.toHost;
      assert InStep(e, l', stage, left');
    } else {
      var i := if left > 0 then next - 1 else next;
      assert x == PacketWire(e, i);
      CurrentHandled(e, l, before, l', stage, i);
      assert InStep(e, l', if i == next then next + 1 else stage, left');
    }
  }

  lemma NoiseReceived(id: u64, s: Agent, before: Packet, data: Bytes)
    requires DeviceNoise(id, data) && Sized(s) && Bounded(before, data)
    ensures Receive(id, s, before, data) == (s, [])
  {
  }

  lemma CurrentHandled(e: Entry, l: Link, before: Packet, l': Link, stage: nat, i: nat)
    requires EntryOk(e) && Sized(l.agent) && Stage(e, l.agent, stage) && i <= CommitAt(e) && AnswersOk(e, l.toHost, stage)
    requires stage == i || stage == i + 1
    requires l.toDevice != [] && l.toDevice[0] == PacketWire(e, i) && Next(e, l, DeviceReceives(before), l')
    ensures Sized(l'.agent) && Stage(e, l'.agent, i + 1) && AnswersOk(e, l'.toHost, i + 1)
  {
    hide Stage, AnswersOk, AnswerWire, Receive, AnswerAt;
    DatagramHandled(e, 0, l.agent, before, i, stage == i);
    SentAnswers(e, l.toHost, stage, i + 1, i, stage == i, l.agent.sequence);
  }

  lemma ChannelKeeps(e: Entry, l: Link, ev: Event, l': Link, stage: nat, left: nat)
    requires EntryOk(e) && InStep(e, l, stage, left) && Next(e, l, ev, l') && !ev.HostReceives? && !ev.DeviceReceives?
    ensures Agree(e, l')
  {
    hide Stage, AnswersOk, OfPacket;
    match ev
    case Send =>
      CurrentIsOfPacket(e, l.host.next);
      assert InStep(e, l', stage, left);
    case GiveUp => assert InStep(e, l', stage, left);
    case LoseToDevice(i) => assert InStep(e, l', stage, if i < left then left - 1 else left);
    case RepeatToDevice(i) => assert InStep(e, l', stage, if i < left then left + 1 else left);
    case NoiseToDevice(data) =>
      NoiseIsOfPacket(e, l.host.next, data);
      assert InStep(e, l', stage, left);
    case LoseToHost(i) =>
      AnswersGrow(e, l.toHost, l'.toHost, stage, stage);
      assert InStep(e, l', stage, left);
    case RepeatToHost(i) =>
      AnswersGrow(e, l.toHost, l'.toHost, stage, stage);
      assert InStep(e, l', stage, left);
    case NoiseToHost(data) =>
      NoiseAnswers(e, l.toHost, stage, data);
      assert InStep(e, l', stage, left);
  }

  lemma CurrentIsOfPacket(e: Entry, i: nat)
    requires EntryOk(e) && i <= CommitAt(e)
    ensures OfPacket(e, i, PacketWire(e, i))
  {
  }

  lemma NoiseIsOfPacket(e: Entry, i: nat, data: Bytes)
    requires EntryOk(e) && DeviceNoise(e.hardwareId, data)
    ensures OfPacket(e, i, data)
  {
  }

  lemma NoiseAnswers(e: Entry, q: seq<Bytes>, stage: nat, data: Bytes)
    requires EntryOk(e) && AnswersOk(e, q, stage) && HostNoise(e.hardwareId, data)
    ensures AnswersOk(e, q + [data], stage)
  {
    hide HostNoise, IsAnswerBelow;
  }

  lemma NextAgrees(e: Entry, l: Link, ev: Event, l': Link)
    requires EntryOk(e) && Agree(e, l) && Next(e, l, ev, l')
    ensures Agree(e, l')
  {
    hide InStep, Next;
    var stage: nat, left: nat :| InStep(e, l, stage, left);
    if ev.HostReceives? {
      HostReceivesKeeps(e, l, l', stage, left);
    } else if ev.DeviceReceives? {
      DeviceReceivesKeeps(e, l, ev.before, l', stage, left);
    } else {
      ChannelKeeps(e, l, ev, l', stage, left);
    }
  }

  lemma {:induction false} RunAgrees(e: Entry, links: seq<Link>, events: seq<Event>, n: nat)
    requires IsLinkRun(e, links, events) && n <= |events|
    ensures Agree(e, links[n])
  {
    if n == 0 {
      assert InStep(e, links[0], 0, 0);
    } else {
      RunAgrees(e, links, events, n - 1);
      assert NextIn(e, links, events, n - 1);
      NextAgrees(e, links[n - 1], events[n - 1], links[n]);
    }
  }

  /** When `provision_device` has returned True, the device is CONFIGURED with exactly the
      manifest's configuration -- whatever was lost and repeated on the way. It never raises
      an exception. */
  lemma TrueMeansConfigured(e: Entry, links: seq<Link>, events: seq<Event>)
    requires IsLinkRun(e, links, events)
    ensures var l := links[|events|];
            && l.host.result != Some(Exception)
            && (l.host.result == Some(Success) ==>
                  Sized(l.agent) && l.agent.phase == Configured && ConfigOf(l.agent) == Intended(e)
                  && l.agent.input == e.inputValue)
  {
    var l := links[|events|];
    RunAgrees(e, links, events, |events|);
    var stage: nat, left: nat :| InStep(e, l, stage, left);
  }

  // ---- The method and the transitions ----

  /** The datagrams read while packet `i` is being sent: up to the first that is not ignored. */
  function ReadFor(e: Entry, i: nat, datagrams: seq<Bytes>): seq<Bytes>
    requires EntryOk(e) && i <= CommitAt(e)
  {
    if datagrams == [] then []
    else if VerdictAt(e, i, datagrams[0]).Ignored? then [datagrams[0]] + ReadFor(e, i, datagrams[1..])
    else [datagrams[0]]
  }

  /** The laptop after reading datagrams one by one. */
  function HostReads(e: Entry, h: Host, datagrams: seq<Bytes>): (r: Host)
    requires EntryOk(e) && h.next <= CommitAt(e)
    ensures r.next <= CommitAt(e)
    decreases |datagrams|
  {
    if datagrams == [] then h
    else HostReads(e, HostStep(e, h, VerdictAt(e, h.next, datagrams[0])), datagrams[1..])
  }

  lemma {:induction false} ReadingDecides(e: Entry, i: nat, datagrams: seq<Bytes>, later: seq<Bytes>)
    requires EntryOk(e) && i <= CommitAt(e)
    ensures var v := FirstVerdict(e.hardwareId, Opcode(MessageAt(e, i)), i % 256, datagrams);
            HostReads(e, Host(i, None), ReadFor(e, i, datagrams) + later)
            == HostReads(e, HostStep(e, Host(i, None), v), later)
    decreases |datagrams|
  {
    hide Judge, MessageAt, CommitAt, CommitOutcome;
    if datagrams == [] {
      assert [] + later == later;
    } else {
      var read := ReadFor(e, i, datagrams);
      assert (read + later)[0] == datagrams[0] && (read + later)[1..] == read[1..] + later;
      if VerdictAt(e, i, datagrams[0]).Ignored? {
        assert read[1..] == ReadFor(e, i, datagrams[1..]);
        ReadingDecides(e, i, datagrams[1..], later);
      } else {
        assert read[1..] + later == later;
      }
    }
  }

  /** Everything `provision_device` reads from packet `i` on. */
  function AllRead(e: Entry, i: nat, inbox: seq<seq<seq<Bytes>>>): seq<Bytes>
    requires EntryOk(e) && i <= CommitAt(e) && |inbox| == CommitAt(e) + 1
    decreases CommitAt(e) - i
  {
    ReadFor(e, i, Flatten(inbox[i])) +
    if i < CommitAt(e) && VerdictOn(e, i, inbox[i]).Accepted? then AllRead(e, i + 1, inbox) else []
  }

  /** `provision_device` returns what the laptop's transitions decide on the datagrams it reads;
      when they decide nothing it has timed out, which is a failure. */
  lemma {:induction false} OutcomeIsDecided(e: Entry, i: nat, inbox: seq<seq<seq<Bytes>>>)
    requires EntryOk(e) && i <= CommitAt(e) && |inbox| == CommitAt(e) + 1
    ensures var h := HostReads(e, Host(i, None), AllRead(e, i, inbox));
            OutcomeFrom(e, i, inbox) == if h.result.Some? then h.result.value else Failure
    decreases CommitAt(e) - i
  {
    hide FirstVerdict, MessageAt, Flatten, VerdictAt, CommitAt, ReadFor, EntryOk, PredictedChecksum;
    var v := VerdictOn(e, i, inbox[i]);
    if i < CommitAt(e) && v.Accepted? {
      ReadingDecides(e, i, Flatten(inbox[i]), AllRead(e, i + 1, inbox));
      OutcomeIsDecided(e, i + 1, inbox);
    } else {
      ReadingDecides(e, i, Flatten(inbox[i]), []);
      assert HostReads(e, HostStep(e, Host(i, None), v), []) == HostStep(e, Host(i, None), v);
    }
  }

  // ---- Other devices are noise ----

  predicate ToOthers(id: u64, m: Setup)
  {
    !m.Start? && !m.Unknown? && m.hardwareId != id
  }

  lemma OthersAreDeviceNoise(id: u64, m: Setup, sequence: u8)
    requires Expressible(m) && InBounds(m) && ToOthers(id, m)
    ensures DeviceNoise(id, WireOf(m, sequence))
  {
    hide Receive, Bounded, WireOf;
    forall s: Agent, before: Packet | Sized(s) && |before.payload| == MAX_PAYLOAD_WORDS
      ensures Bounded(before, WireOf(m, sequence)) && Receive(id, s, before, WireOf(m, sequence)) == (s, [])
    {
      ReceiveMessage(id, s, before, m, sequence);
    }
  }

  lemma OthersAreHostNoise(id: u64, m: Setup, sequence: u8)
    requires IsAnswer(m) && m.hardwareId != id
    ensures HostNoise(id, Packets.Encode(PacketFor(m, sequence)))
  {
    hide Judge, Packets.Encode, PacketFor;
    forall expected: u8, wanted: u8
      ensures Judge(id, expected, wanted, Packets.Encode(PacketFor(m, sequence))) == Ignored
    {
      JudgeWire(id, expected, wanted, m, sequence);
    }
  }

  // ---- The converse fails ----

  lemma Extend(e: Entry, links: seq<Link>, events: seq<Event>, ev: Event, l': Link)
    requires IsLinkRun(e, links, events) && Next(e, links[|events|], ev, l')
    ensures IsLinkRun(e, links + [l'], events + [ev])
  {
    hide Next;
    var links', events' := links + [l'], events + [ev];
    forall n: nat | n < |events'|
      ensures NextIn(e, links', events', n)
    {
      if n < |events| { assert NextIn(e, links, events, n); }
    }
  }

  predicate Quiescent(l: Link)
  {
    l.toDevice == [] && l.toHost == [] && l.host.result.None?
  }

  /** The current packet is sent and handled; its answer is on the way back. */
  lemma OneExchange(e: Entry, links: seq<Link>, events: seq<Event>, before: Packet, stage: nat)
    returns (links': seq<Link>, events': seq<Event>)
    requires IsLinkRun(e, links, events) && |before.payload| == MAX_PAYLOAD_WORDS
    requires var l := links[|events|];
             Quiescent(l) && l.host.next <= CommitAt(e) && Sized(l.agent) && Stage(e, l.agent, stage)
             && (stage == l.host.next || stage == l.host.next + 1)
    ensures IsLinkRun(e, links', events')
    ensures var l, l', i := links[|events|], links'[|events'|], links[|events|].host.next;
            && l'.host == l.host && Sized(l'.agent) && Stage(e, l'.agent, i + 1) && l'.toDevice == []
            && l'.toHost == [AnswerWire(e, 0, i, stage == i, l.agent.sequence)]
  {
    hide Stage, Receive, Bounded, AnswerWire, EmittedAt, CommitAt, Agree;
    var l := links[|events|];
    var i := l.host.next;
    var sent := l.(toDevice := [PacketWire(e, i)]);
    Extend(e, links, events, Send, sent);
    DatagramHandled(e, 0, l.agent, before, i, stage == i);
    var (agent, answers) := Receive(e.hardwareId, l.agent, before, PacketWire(e, i));
    var handled := l.(agent := agent, toHost := answers);
    assert l.toHost + answers == answers;
    Extend(e, links + [sent], events + [Send], DeviceReceives(before), handled);
    links', events' := links + [sent] + [handled], events + [Send] + [DeviceReceives(before)];
  }

  /** The laptop reads the only answer. */
  lemma ReadAnswer(e: Entry, links: seq<Link>, events: seq<Event>, first: bool, sequence: u8)
    returns (links': seq<Link>, events': seq<Event>)
    requires IsLinkRun(e, links, events)
    requires var l := links[|events|];
             l.host.next <= CommitAt(e) && Sized(l.agent) && l.toHost == [AnswerWire(e, 0, l.host.next, first, sequence)]
    ensures IsLinkRun(e, links', events')
    ensures var l, l' := links[|events|], links'[|events'|];
            && l'.agent == l.agent && l'.toDevice == l.toDevice && l'.toHost == []
            && l'.host == HostStep(e, l.host, Accepted(AnswerAt(e, l.host.next, l.host.next % 256, first)))
  {
    hide VerdictAt, AnswerWire, AnswerAt, HostStep;
    var l := links[|events|];
    JudgeAnswer(e, l.host.next, first, sequence, l.host.next);
    var read := l.(toHost := [], host := HostStep(e, l.host, VerdictAt(e, l.host.next, l.toHost[0])));
    Extend(e, links, events, HostReceives, read);
    links', events' := links + [read], events + [HostReceives];
  }

  lemma ReachCommit(e: Entry, s: Agent, before: Packet) returns (links: seq<Link>, events: seq<Event>)
    requires EntryOk(e) && IsFresh(s) && |before.payload| == MAX_PAYLOAD_WORDS
    ensures IsLinkRun(e, links, events)
    ensures var l := links[|events|];
            Quiescent(l) && l.host.next == CommitAt(e) && Sized(l.agent) && Stage(e, l.agent, CommitAt(e))
  {
    links, events := [Link(Host(0, None), s, [], [])], [];
    var n := 0;
    while n < CommitAt(e)
      invariant n <= CommitAt(e) && IsLinkRun(e, links, events)
      invariant var l := links[|events|];
                Quiescent(l) && l.host.next == n && Sized(l.agent) && Stage(e, l.agent, n)
    {
      hide Stage, AnswerWire, IsLinkRun, AnswerAt;
      var sequence := links[|events|].agent.sequence;
      links, events := OneExchange(e, links, events, before, n);
      links, events := ReadAnswer(e, links, events, true, sequence);
      n := n + 1;
    }
  }

  /** The first commit request is handled and its answer is lost. */
  lemma LoseFirstReply(e: Entry, links: seq<Link>, events: seq<Event>, before: Packet)
    returns (links': seq<Link>, events': seq<Event>)
    requires IsLinkRun(e, links, events) && |before.payload| == MAX_PAYLOAD_WORDS
    requires var l := links[|events|];
             Quiescent(l) && l.host.next == CommitAt(e) && Sized(l.agent) && Stage(e, l.agent, CommitAt(e))
    ensures IsLinkRun(e, links', events')
    ensures var l := links'[|events'|];
            Quiescent(l) && l.host.next == CommitAt(e) && Sized(l.agent) && Stage(e, l.agent, CommitAt(e) + 1)
  {
    hide AnswerWire, Stage;
    var links1, events1 := OneExchange(e, links, events, before, CommitAt(e));
    var l := links1[|events1|];
    LoseOnly(e, links1, events1, l.(toHost := []));
    links', events' := links1 + [l.(toHost := [])], events1 + [LoseToHost(0)];
  }

  /** For every device there is a run in which the laptop reports a failure although the device
      is configured as intended: the first COMMIT_REPLY is lost, and the second says 0. */
  lemma FailureDespiteConfigured(e: Entry, s: Agent, before: Packet) returns (links: seq<Link>, events: seq<Event>)
    requires EntryOk(e) && IsFresh(s) && |before.payload| == MAX_PAYLOAD_WORDS
    ensures IsLinkRun(e, links, events)
    ensures var l := links[|events|];
            l.host.result == Some(Failure) && Sized(l.agent) && l.agent.phase == Configured && ConfigOf(l.agent) == Intended(e)
  {
    hide AnswerWire, AnswerAt, CommitOutcome, Next;
    var links0, events0 := ReachCommit(e, s, before);
    var links1, events1 := LoseFirstReply(e, links0, events0, before);
    var sequence := links1[|events1|].agent.sequence;
    var links2, events2 := OneExchange(e, links1, events1, before, CommitAt(e) + 1);
    links, events := ReadAnswer(e, links2, events2, false, sequence);
    CommitReplyOutcome(e, CommitAt(e) % 256, false);
  }

  lemma LoseOnly(e: Entry, links: seq<Link>, events: seq<Event>, lost: Link)
    requires IsLinkRun(e, links, events)
    requires var l := links[|events|];
             l.host.next <= CommitAt(e) && Sized(l.agent) && |l.toHost| == 1 && lost == l.(toHost := [])
    ensures IsLinkRun(e, links + [lost], events + [LoseToHost(0)])
  {
    var l := links[|events|];
    assert Drop(l.toHost, 0) == [];
    Extend(e, links, events, LoseToHost(0), lost);
  }
}
