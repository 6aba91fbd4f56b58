/**
 History variables of a run. They record what happened and never influence a step: the next state is
 computed by Queue.Step alone.

 `ring` lists the slots linked behind the producer's own slot, oldest first, up to the newest message.
 Messages are numbered in the order they are linked: the newest is number |sent| - 1, and number k sits
 in ring[k - Base].
 */
module History {
  import opened Queue

  /** What became of a message that is no longer waiting for the consumer. */
  datatype Fate = Delivered | Dropped | Skipped

  datatype Journal = Journal(
    sent: seq<Payload>,        // contents of every message pushed
    log: seq<Fate>,            // fates of messages 0, 1, 2, ... in order
    claim: int,                // number of the message the consumer last took, or -1
    delivered: seq<nat>,       // numbers of the messages handed out, each when it is handed out first
    received: seq<Payload>     // what the application found in its slot then
  ) {
    function Push(payload: Payload): (r: Journal) {
      this.(sent := sent + [payload])
    }

    /** The oldest waiting message is lost. */
    function Drop(): (r: Journal) {
      this.(log := log + [Dropped])
    }

    /** The consumer takes the oldest waiting message and hands it to the application. */
    function Deliver(payload: Payload): (r: Journal) {
      this.(claim := |log|, log := log + [Delivered], delivered := delivered + [|log|],
            received := received + [payload])
    }

    /** A flush takes the oldest waiting message without handing it out: for now it counts as skipped. */
    function Claim(): (r: Journal) {
      this.(claim := |log|, log := log + [Skipped])
    }

    /**
     A flush succeeds on message `target`: what is older is skipped, the target is handed out. If it is the message
     handed out last, it is handed out again; that is not another delivery.
     */
    function Land(target: int, payload: Payload): (r: Journal) {
      if target >= |log| then
        this.(log := log + seq(target - |log|, _ => Skipped) + [Delivered], claim := target,
              delivered := delivered + [target], received := received + [payload])
      else if log == [] || (delivered != [] && delivered[|delivered| - 1] == |log| - 1) then
        this
      else
        this.(log := log[..|log| - 1] + [Delivered], delivered := delivered + [|log| - 1],
              received := received + [payload])
    }
  }

  datatype Hist = Hist(
    ring: seq<nat>,
    j: Journal,
    target: int,               // number of the message a flush has loaded as head
    overruns: nat,             // times the producer jumped over a held tail
    retries: nat               // times a flush had to start over
  )

  const InitHist := Hist([], Journal([], [], -1, [], []), 0, 0, 0)

  /** The number that belongs to the front of the ring. */
  function Base(h: Hist): (k: int) {
    |h.j.sent| - |h.ring|
  }

  /** The slot of message k, for the messages whose slots are in the ring. */
  function Slot(h: Hist, k: int): (i: nat)
    requires Base(h) <= k < |h.j.sent|
  {
    h.ring[k - Base(h)]
  }

  /** Where x stands in the ring, or its length if it does not. */
  function Find(ring: seq<nat>, x: nat): (i: nat)
    ensures i <= |ring| && (i < |ring| ==> ring[i] == x)
    ensures i == |ring| ==> x !in ring
  {
    if ring == [] || ring[0] == x then 0 else 1 + Find(ring[1..], x)
  }

  /** The number of the message in slot x. */
  function Number(h: Hist, x: nat): (k: int) {
    Base(h) + Find(h.ring, x)
  }

  /** The number of the message at the tail. */
  function TailNo(s: State, h: Hist): (k: int) {
    |h.j.log| - (if s.tail.IsConsumed() then 1 else 0)
  }

  function Content(s: State, i: nat): (p: Payload) {
    if i < |s.slots| then s.slots[i] else Payload([])
  }

  /** The producer takes the front of the ring as its next slot. */
  function TakeFront(h: Hist): (r: Hist) {
    h.(ring := if h.ring == [] then [] else h.ring[1..])
  }

  /** The same when the front held the oldest waiting message, which is lost. */
  function DropFront(h: Hist): (r: Hist) {
    TakeFront(h).(j := h.j.Drop())
  }

  /** The front stays with the consumer; the slot behind it, with the oldest waiting message, is taken. */
  function Jump(h: Hist): (r: Hist) {
    h.(ring := if |h.ring| < 2 then [] else h.ring[2..], j := h.j.Drop(), overruns := h.overruns + 1)
  }

  function AfterProducer(s: State, h: Hist): (r: Hist) {
    match s.ppc
    case Idle(_) => h
    case FirstTail(_) => // slots 1 .. n-1, then slot 0: the list the initial chain spells out
      if s.n == 0 then h else h.(ring := InitialChain(s.n), j := h.j.Push(Content(s, s.current)))
    case Clear(_, _) => h
    case Link(_, _) => h.(ring := h.ring + [s.current], j := h.j.Push(Content(s, s.current)))
    case FirstHead(_) => TakeFront(h)
    case Announce(_, purpose) => if purpose.TryPlain? then TakeFront(h) else h
    case LoadTail(_) => if StepProducer(s).ppc.Idle? then TakeFront(h) else h
    case MoveOverrun(_, seen) => if s.tail == seen then DropFront(h) else h
    case Requeue(_) => h
    case MoveTail(_, seen) => if s.tail == seen then DropFront(h) else h
    case JumpTail(seen) => if s.tail == seen then Jump(h) else TakeFront(h)
  }

  function AfterConsumer(s: State, h: Hist): (r: Hist) {
    var s' := StepConsumer(s);
    var found := Content(s', s'.held);
    match s.cpc
    case Ready(_) => h
    case PopLoad(_) => h
    case PopAdvance(seen, _) => if s.tail == seen then h.(j := h.j.Deliver(found)) else h
    case PopRetake => h.(j := h.j.Deliver(found))
    case FlushLoad(_) => h.(target := if s.ppc.Announce? then |h.j.sent| - 2 else |h.j.sent| - 1)
    case FlushJump(seen, target) =>
      if s.tail == seen then h.(j := h.j.Land(Number(h, target), found)) else h
    case FlushRetake => AfterFlush(s, h).(retries := h.retries + 1)
  }

  function AfterPop(s: State, h: Hist): (r: Hist) {
    var s' := StartPop(s);
    if s'.cpc.Ready? && (s'.cpc.result.PopSuccess? || s'.cpc.result.PopDiscarded?)
    then h.(j := h.j.Deliver(Content(s', s'.held))) else h
  }

  function AfterFlush(s: State, h: Hist): (r: Hist) {
    if s.tail.IsConsumed() then h else h.(j := h.j.Claim())
  }

  function After(s: State, h: Hist, a: Action): (r: Hist) {
    match a
    case Write(_) => h
    case ForcePush => h
    case TryPush => h
    case ProducerStep => AfterProducer(s, h)
    case Pop => if s.cpc.Ready? then AfterPop(s, h) else h
    case Flush => if s.cpc.Ready? then AfterFlush(s, h) else h
    case ConsumerStep => AfterConsumer(s, h)
  }

  function Record(s: State, acts: seq<Action>): (h: Hist) {
    if acts == [] then InitHist
    else
      var before := acts[..|acts| - 1];
      After(Exec(s, before), Record(s, before), acts[|acts| - 1])
  }
}
