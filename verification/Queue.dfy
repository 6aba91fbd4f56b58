/**
 The shared queue as a transition system: one step per access to a shared word.

 A state holds the shared words (tail, head, chain), the message slots, the private fields of the
 producer and of the consumer, and for each side how far it has got inside the call it is making.
 Every run of the two processes is a sequence of actions; an action that is not enabled (starting a
 call inside a call, stepping while idle) leaves the state unchanged, so that every sequence of
 actions is a run.
 */
module Queue {
  import opened Index

  newtype byte = x: int | 0 <= x < 256

  /** The contents of one message slot. */
  datatype Payload = Payload(bytes: seq<byte>)

  datatype PushResult = PushNone | PushError | PushFail | PushSuccess | PushDiscarded

  datatype PopResult = PopNone | PopError | PopNoMsg | PopNoUpdate | PopSuccess | PopDiscarded

  /** Why a message is being enqueued: what the producer does once the message is announced. */
  datatype Purpose = Force | TryPlain | TryOverrun

  /**
   Where the producer is. Each constructor but the first names the shared access made next; its
   arguments are the local variables still needed.
   */
  datatype ProducerPc =
    | Idle(result: PushResult)
    | FirstTail(next: nat)                       // enqueue_first_msg: store tail
    | FirstHead(next: nat)                       // enqueue_first_msg: store head
    | Clear(next: nat, purpose: Purpose)         // enqueue_msg: store chain[current]
    | Link(next: nat, purpose: Purpose)          // enqueue_msg: store chain[head]
    | Announce(next: nat, purpose: Purpose)      // enqueue_msg: store head
    | LoadTail(next: nat)                        // force_push: load tail
    | MoveOverrun(next: nat, seen: TailWord)     // force_push: move_tail while an overrun is pending
    | Requeue(next: nat)                         // store chain[overrun]
    | MoveTail(next: nat, seen: TailWord)        // force_push: move_tail on a full queue
    | JumpTail(seen: TailWord)                   // overrun(): compare-exchange over a held tail

  /** Where the consumer is. */
  datatype ConsumerPc =
    | Ready(result: PopResult)
    | PopLoad(seen: TailWord)                    // pop: load chain[current]
    | PopAdvance(seen: TailWord, next: nat)      // pop: compare-exchange tail
    | PopRetake                                  // pop: second fetch-or
    | FlushLoad(seen: TailWord)                  // flush: load head
    | FlushJump(seen: TailWord, target: nat)     // flush: compare-exchange tail
    | FlushRetake                                // flush: fetch-or of the next attempt

  datatype State = State(
    n: nat,                    // n_msgs
    tail: TailWord,            // shared
    head: nat,                 // shared
    chain: seq<nat>,           // shared
    slots: seq<Payload>,       // shared message storage
    localChain: seq<nat>,      // producer->chain
    last: nat,                 // producer->head
    current: nat,              // producer->current
    overrun: nat,              // producer->overrun
    ppc: ProducerPc,
    held: nat,                 // consumer->current
    cpc: ConsumerPc
  )

  datatype Action =
    | Write(payload: Payload)  // the producing application fills its slot
    | ForcePush
    | TryPush
    | ProducerStep
    | Pop
    | Flush
    | ConsumerStep

  predicate ProducerAction(a: Action) {
    a.Write? || a.ForcePush? || a.TryPush? || a.ProducerStep?
  }

  /** ri_queue_index_valid */
  predicate Valid(s: State, i: nat) {
    i < s.n
  }

  /** A chain read. Reads outside the chain cannot happen in a run: see Guarantees.AccessesInBounds. */
  function At(chain: seq<nat>, i: nat): (v: nat) {
    if i < |chain| then chain[i] else INVALID
  }

  /** The slots met when following the chain from slot i, at most `fuel` of them. */
  function Follow(chain: seq<nat>, i: nat, fuel: nat): (path: seq<nat>)
    ensures |path| <= fuel
    decreases fuel
  {
    if fuel == 0 || i >= |chain| then [] else [i] + Follow(chain, chain[i], fuel - 1)
  }

  /** chain_store: the local copy and the shared word. */
  function ChainStore(s: State, i: nat, v: nat): (r: State) {
    if i < |s.chain| && i < |s.localChain| then
      s.(localChain := s.localChain[i := v], chain := s.chain[i := v])
    else s
  }

  /** The chain as ri_producer_queue_new leaves it. */
  function InitialChain(n: nat): (c: seq<nat>)
    requires n > 0
  {
    seq(n, i => if i < n - 1 then i + 1 else 0)
  }

  /** Both sides created and the shared words initialised, over arbitrary slot contents. */
  function Init(n: nat, slots: seq<Payload>): (s: State)
    requires n > 0
  {
    State(n, Empty, INVALID, InitialChain(n), slots, InitialChain(n), INVALID, 0, INVALID,
          Idle(PushNone), INVALID, Ready(PopNone))
  }

  // ---- producer ---------------------------------------------------------------------------------

  function StartForcePush(s: State): (r: State) {
    var next := At(s.localChain, s.current);
    var cleared := ChainStore(s, s.current, INVALID);
    if s.last == INVALID then cleared.(ppc := FirstTail(next)) else cleared.(ppc := Link(next, Force))
  }

  function StartTryPush(s: State): (r: State) {
    var next := At(s.localChain, s.current);
    if s.last == INVALID then
      ChainStore(s, s.current, INVALID).(ppc := FirstTail(next))
    else if !Valid(s, s.tail.Masked()) then
      s.(ppc := Idle(PushError))
    else if s.overrun != INVALID then
      s.(ppc := if s.tail.IsConsumed() then Clear(next, TryOverrun) else Idle(PushFail))
    else
      s.(ppc := if next == s.tail.Masked() then Idle(PushFail) else Clear(next, TryPlain))
  }

  /** The branch force_push takes on the tail it loaded. */
  function AfterLoad(s: State, next: nat): (r: State) {
    if !Valid(s, s.tail.Masked()) then
      s.(ppc := Idle(PushError))
    else if s.overrun != INVALID then
      s.(ppc := if s.tail.IsConsumed() then Requeue(next) else MoveOverrun(next, s.tail))
    else if next != s.tail.Masked() then
      s.(current := next, ppc := Idle(PushSuccess))
    else
      s.(ppc := if s.tail.IsConsumed() then JumpTail(s.tail) else MoveTail(next, s.tail))
  }

  function AfterAnnounce(s: State, next: nat, purpose: Purpose): (r: State) {
    match purpose
    case Force => s.(ppc := LoadTail(next))
    case TryPlain => s.(current := next, ppc := Idle(PushSuccess))
    case TryOverrun => s.(ppc := Requeue(next))
  }

  function JumpStep(s: State, seen: TailWord): (r: State) {
    var newCurrent := At(s.localChain, seen.Masked());
    var newTail := At(s.localChain, newCurrent);
    if s.tail == seen then
      s.(tail := Plain(newTail), overrun := seen.Masked(), current := newCurrent, ppc := Idle(PushDiscarded))
    else
      s.(current := seen.Masked(), ppc := Idle(PushSuccess))
  }

  function StepProducer(s: State): (r: State) {
    match s.ppc
    case Idle(_) => s
    case FirstTail(next) =>
      s.(tail := Tail(s.current, false, true), last := s.current, ppc := FirstHead(next))
    case FirstHead(next) =>
      s.(head := s.last, current := next, ppc := Idle(PushSuccess))
    case Clear(next, purpose) =>
      ChainStore(s, s.current, INVALID).(ppc := Link(next, purpose))
    case Link(next, purpose) =>
      ChainStore(s, s.last, s.current).(last := s.current, ppc := Announce(next, purpose))
    case Announce(next, purpose) =>
      AfterAnnounce(s.(head := s.last), next, purpose)
    case LoadTail(next) =>
      AfterLoad(s, next)
    case MoveOverrun(next, seen) =>
      if s.tail == seen then
        s.(tail := Plain(At(s.localChain, seen.Masked())), current := seen.Masked(), ppc := Idle(PushDiscarded))
      else
        s.(ppc := Requeue(next))
    case Requeue(next) =>
      ChainStore(s, s.overrun, next).(current := s.overrun, overrun := INVALID, ppc := Idle(PushSuccess))
    case MoveTail(next, seen) =>
      if s.tail == seen then
        s.(tail := Plain(At(s.localChain, seen.Masked())), current := next, ppc := Idle(PushDiscarded))
      else
        s.(ppc := JumpTail(seen.Consume()))
    case JumpTail(seen) =>
      JumpStep(s, seen)
  }

  // ---- consumer ---------------------------------------------------------------------------------

  function StartPop(s: State): (r: State) {
    var seen := s.tail;
    var s' := s.(tail := seen.Consume());
    if seen.Empty? then
      s'.(cpc := Ready(PopNoMsg))
    else if !Valid(s, seen.Masked()) then
      s'.(cpc := Ready(PopError))
    else if !seen.IsConsumed() then
      s'.(held := seen.Masked(), cpc := Ready(if seen.IsFirst() then PopSuccess else PopDiscarded))
    else if s.held == INVALID then
      s'.(cpc := Ready(PopError))
    else
      s'.(cpc := PopLoad(seen))
  }

  function StartFlush(s: State): (r: State) {
    var seen := s.tail;
    var s' := s.(tail := seen.Consume());
    if seen.Empty? then
      s'.(cpc := Ready(PopNoMsg))
    else if !Valid(s, seen.Masked()) then
      s'.(cpc := Ready(PopError))
    else
      s'.(cpc := FlushLoad(seen.Consume()))
  }

  function StepConsumer(s: State): (r: State) {
    match s.cpc
    case Ready(_) => s
    case PopLoad(seen) =>
      var next := At(s.chain, s.held);
      if next == INVALID then s.(cpc := Ready(PopNoUpdate))
      else if !Valid(s, next) then s.(cpc := Ready(PopError))
      else s.(cpc := PopAdvance(seen, next))
    case PopAdvance(seen, next) =>
      if s.tail == seen then
        s.(tail := Tail(next, true, false), held := next, cpc := Ready(PopSuccess))
      else
        s.(cpc := PopRetake)
    case PopRetake =>
      var s' := s.(tail := s.tail.Consume());
      if !Valid(s, s.tail.Packed()) then
        s'.(cpc := Ready(PopError))
      else
        s'.(held := s.tail.Packed(), cpc := Ready(PopDiscarded))
    case FlushLoad(seen) =>
      if !Valid(s, s.head) then s.(cpc := Ready(PopError))
      else s.(cpc := FlushJump(seen, s.head))
    case FlushJump(seen, target) =>
      if s.tail == seen then
        s.(tail := Tail(target, true, false), held := target, cpc := Ready(PopDiscarded))
      else
        s.(cpc := FlushRetake)
    case FlushRetake => StartFlush(s)
  }

  // ---- runs -------------------------------------------------------------------------------------

  function Step(s: State, a: Action): (r: State) {
    match a
    case Write(payload) =>
      if s.ppc.Idle? && s.current < |s.slots| then s.(slots := s.slots[s.current := payload]) else s
    case ForcePush => if s.ppc.Idle? then StartForcePush(s) else s
    case TryPush => if s.ppc.Idle? then StartTryPush(s) else s
    case ProducerStep => StepProducer(s)
    case Pop => if s.cpc.Ready? then StartPop(s) else s
    case Flush => if s.cpc.Ready? then StartFlush(s) else s
    case ConsumerStep => StepConsumer(s)
  }

  function Exec(s: State, acts: seq<Action>): (r: State) {
    if acts == [] then s else Step(Exec(s, acts[..|acts| - 1]), acts[|acts| - 1])
  }
}
