/** Turn taking within a layer (`NNScheduler.h`). */
module Schedulers {
  import opened Words
  import opened Arithmetic
  import opened Messages
  import opened Nodes
  import opened Options

  datatype Phase = WaitingForInput | ReadyToExecutePhase | Executing | WaitingForTurn | ReadyToTransmit | Transmitted

  datatype SchedulerState = SchedulerState(node: NodeState, phase: Phase, observed: set<nat>)

  const FRESH_SCHEDULER := SchedulerState(FRESH_NODE, WaitingForInput, {})

  function Observe(c: NodeConfig, s: SchedulerState, m: Message): SchedulerState
  {
    if m.source.layer == c.ownLayer then s.(observed := s.observed + {m.source.node as nat}) else s
  }

  predicate TurnReached(c: NodeConfig, observed: set<nat>)
  {
    Bits(c.precedingSiblings) <= observed
  }

  function Tick(a: Arith<Float>, c: NodeConfig, s: SchedulerState): SchedulerState
  {
    match s.phase
    case WaitingForInput => if ReadyToExecute(c, s.node) then s.(phase := ReadyToExecutePhase) else s
    case ReadyToExecutePhase => s.(phase := Executing)
    case Executing => s.(node := NodeExecute(a, c, s.node), phase := WaitingForTurn)
    case WaitingForTurn => if TurnReached(c, s.observed) then s.(phase := ReadyToTransmit) else s
    case ReadyToTransmit => s
    case Transmitted => s
  }

  function NotifySeeded(s: SchedulerState): SchedulerState
  {
    if s.phase == WaitingForInput then s.(phase := WaitingForTurn) else s
  }

  /** `hasOutputReady`: the new state, and the packet when it is this node's turn. */
  function TakeOutput(c: NodeConfig, s: SchedulerState): (SchedulerState, Option<Message>)
  {
    if s.phase == ReadyToTransmit then (s.(phase := Transmitted), Some(OutputMessage(c, s.node)))
    else (s, None)
  }

  /** `NNScheduler`. */
  class Scheduler {
    const node: Node
    var phase: Phase
    var observedSiblingsMask: u16

    ghost function Footprint(): set<object>
    {
      {this} + node.Footprint()
    }

    ghost predicate Valid()
      reads Footprint()
    {
      node.Valid()
    }

    ghost function State(): SchedulerState
      requires Valid()
      reads Footprint()
    {
      SchedulerState(node.State(), phase, Bits(observedSiblingsMask))
    }

    constructor (node: Node)
      requires node.Valid()
      ensures Valid() && this.node == node
      ensures State() == SchedulerState(old(node.State()), WaitingForInput, {})
      ensures fresh(this)
    {
      this.node := node;
      phase, observedSiblingsMask := WaitingForInput, 0;
      new;
      BitsZero();
    }

    method OnPacketObserved(m: Message)
      requires Valid()
      modifies this
      ensures Valid() && State() == Observe(node.config, old(State()), m)
    {
      if m.source.layer == node.config.ownLayer {
        BitsOr(observedSiblingsMask, m.source.node);
        observedSiblingsMask := Or(observedSiblingsMask, Pow2(m.source.node));
      }
    }

    method Advance()
      requires Valid()
      modifies this, node
      ensures Valid() && State() == Tick(node.arith, node.config, old(State()))
    {
      match phase {
        case WaitingForInput =>
          var ready := node.IsReadyToExecute();
          if ready { phase := ReadyToExecutePhase; }
        case ReadyToExecutePhase =>
          phase := Executing;
        case Executing =>
          node.Execute();
          phase := WaitingForTurn;
        case WaitingForTurn =>
          BitsCovers(observedSiblingsMask, node.config.precedingSiblings);
          if And(observedSiblingsMask, node.config.precedingSiblings) == node.config.precedingSiblings {
            phase := ReadyToTransmit;
          }
        case ReadyToTransmit =>
        case Transmitted =>
      }
    }

    method SeedNotified()
      requires Valid()
      modifies this
      ensures Valid() && State() == NotifySeeded(old(State()))
    {
      if phase == WaitingForInput { phase := WaitingForTurn; }
    }

    method HasOutputReady() returns (out: Option<Message>)
      requires Valid()
      modifies this
      ensures Valid() && (State(), out) == TakeOutput(node.config, old(State()))
    {
      if phase != ReadyToTransmit { return None; }
      var m := node.BuildOutputPacket();
      phase := Transmitted;
      out := Some(m);
    }

    method ResetForNextPass()
      requires Valid()
      modifies Footprint()
      ensures Valid() && State() == FRESH_SCHEDULER
    {
      node.ResetForNextPass();
      phase := WaitingForInput;
      observedSiblingsMask := 0;
      BitsZero();
    }
  }
}
