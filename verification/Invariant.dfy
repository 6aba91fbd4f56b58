/**
 What holds between any two atomic steps of a run.
 */
module Invariant {
  import opened Index
  import opened Queue
  import opened History

  /** x is not among the slots of the ring. */
  ghost predicate Outside(x: nat, ring: seq<nat>) {
    forall i :: 0 <= i < |ring| ==> ring[i] != x
  }

  ghost predicate Distinct(ring: seq<nat>) {
    forall i, j :: 0 <= i < j < |ring| ==> ring[i] != ring[j]
  }

  /** Following the chain from ring[0] visits the ring in order and ends at its last slot. */
  ghost predicate Linked(chain: seq<nat>, ring: seq<nat>) {
    && |ring| > 0
    && (forall i :: 0 <= i < |ring| ==> ring[i] < |chain|)
    && (forall i, j :: 0 <= i && j == i + 1 && j < |ring| ==> chain[ring[i]] == ring[j])
    && chain[ring[|ring| - 1]] == INVALID
  }

  ghost predicate Overrun(s: State) {
    s.overrun != INVALID
  }

  /** The message being pushed is already linked, the producer has not yet chosen its next slot. */
  ghost predicate Linking(pc: ProducerPc) {
    pc.FirstHead? || pc.Announce? || pc.LoadTail? || pc.MoveOverrun? || pc.Requeue? || pc.MoveTail? || pc.JumpTail?
  }

  ghost predicate Flushing(pc: ConsumerPc) {
    pc.FlushLoad? || pc.FlushJump? || pc.FlushRetake?
  }

  /** A flush has failed and left the consumer without a message, although the tail is flagged CONSUMED. */
  ghost predicate Stranded(s: State) {
    s.cpc == Ready(PopError) && s.held == INVALID
  }

  /** A flush has claimed the tail and has not handed anything out for it. */
  ghost predicate Unsettled(s: State) {
    Flushing(s.cpc) || Stranded(s)
  }

  ghost function B(b: bool): (r: int) {
    if b then 1 else 0
  }

  ghost predicate Shape(s: State) {
    && 3 <= s.n <= INDEX_MASK
    && |s.chain| == s.n
    && |s.slots| == s.n
    && s.localChain == s.chain
  }

  /** Before the first message is published. */
  ghost predicate Unpublished(s: State, h: Hist)
    requires Shape(s)
  {
    && s.tail == Empty && s.head == INVALID && s.last == INVALID && s.current == 0 && s.overrun == INVALID
    && s.held == INVALID && s.cpc.Ready?
    && h == InitHist
    && (s.ppc.Idle? || s.ppc == FirstTail(1))
    && s.chain == (if s.ppc.Idle? then InitialChain(s.n) else InitialChain(s.n)[0 := INVALID])
    && s.cpc.result in {PopNone, PopNoMsg}
    && (s.ppc.Idle? ==> s.ppc.result == PushNone)
  }

  /** The ring and where tail, head and the producer's slots stand relative to it. */
  ghost predicate Ring(s: State, h: Hist)
    requires Shape(s)
  {
    && Linked(s.chain, h.ring) && Distinct(h.ring)
    && |h.ring| == s.n - B(Overrun(s)) - B(!Linking(s.ppc))
    && s.tail.Tail? && Base(h) <= TailNo(s, h) < |h.j.sent| && Slot(h, TailNo(s, h)) == s.tail.idx
    && s.last == h.ring[|h.ring| - 1]
    && s.head == (if s.ppc.FirstHead? then INVALID
                  else if s.ppc.Announce? then h.ring[|h.ring| - 2] else h.ring[|h.ring| - 1])
    && (Overrun(s) ==> s.overrun < s.n && Outside(s.overrun, h.ring) && s.chain[s.overrun] < s.n)
  }

  /** The producer's own slot, and what it knows at each point of a push. */
  ghost predicate Producer(s: State, h: Hist)
    requires Shape(s) && Ring(s, h)
  {
    && (!Linking(s.ppc) ==> s.current < s.n && Outside(s.current, h.ring) && s.current != s.overrun)
    && (Linking(s.ppc) ==> s.current == h.ring[|h.ring| - 1])
    && (match s.ppc
        case Idle(r) => s.chain[s.current] == h.ring[0] && r in {PushFail, PushSuccess, PushDiscarded}
        case FirstTail(_) => false
        case FirstHead(next) => next == h.ring[0] && |h.j.sent| == 1 && TailNo(s, h) == 0 && !Overrun(s)
        case Clear(next, purpose) =>
          s.chain[s.current] == next == h.ring[0] && !purpose.Force? && Room(s, h, purpose)
        case Link(next, purpose) => next == h.ring[0] && s.chain[s.current] == INVALID && Room(s, h, purpose)
        case Announce(next, purpose) => next == h.ring[0] && Room(s, h, purpose) && |h.j.sent| >= 2
        case LoadTail(next) => next == h.ring[0]
        case MoveOverrun(next, seen) =>
          && next == h.ring[0] && Overrun(s) && seen == Tail(next, false, false)
          && (s.tail == seen || s.tail.consumed)
        case Requeue(next) => next == h.ring[0] && Overrun(s) && s.tail.consumed
        case MoveTail(next, seen) =>
          && next == h.ring[0] && !Overrun(s) && 0 <= Base(h) && seen.Tail? && seen.idx == next && !seen.consumed
          && (s.tail == seen || s.tail == seen.Consume() || (s.tail.consumed && Base(h) < TailNo(s, h)))
        case JumpTail(seen) =>
          && !Overrun(s) && 0 <= Base(h) && seen.Tail? && seen.idx == h.ring[0] && seen.consumed
          && (s.tail == seen || (s.tail.consumed && Base(h) < TailNo(s, h))))
  }

  /** What try_push has checked before it enqueues. */
  ghost predicate Room(s: State, h: Hist, purpose: Purpose)
    requires s.tail.Tail?
  {
    match purpose
    case Force => true
    case TryPlain => !Overrun(s) && Base(h) < TailNo(s, h)
    case TryOverrun => Overrun(s) && s.tail.consumed
  }

  /** The flags of the tail. */
  ghost predicate Flags(s: State, h: Hist)
    requires s.tail.Tail?
  {
    && (s.tail.first ==> !Overrun(s))
    && (!s.tail.consumed && !s.tail.first ==> TailNo(s, h) == Base(h))
    && (s.tail.first ==> TailNo(s, h) == 0)
  }

  /** The slot that belongs to the consumer: the tail once consumed, or the slot the producer jumped over. */
  ghost function OwnSlot(s: State): (i: nat) {
    if s.tail.Empty? then INVALID else if s.tail.consumed then s.tail.idx else s.overrun
  }

  ghost predicate Consumer(s: State, h: Hist)
    requires Shape(s) && Ring(s, h)
  {
    && (!Unsettled(s) ==> s.held == OwnSlot(s))
    && h.retries + B(Flushing(s.cpc) && !s.tail.consumed) <= h.overruns
    && (match s.cpc
        case Ready(_) => true
        case PopLoad(seen) => Seen(s, seen)
        case PopAdvance(seen, next) =>
          && Seen(s, seen) && next < s.n
          && (s.tail == seen ==> |h.j.log| < |h.j.sent| && Slot(h, |h.j.log|) == next)
        case PopRetake => Overrun(s) && !s.tail.consumed
        case FlushLoad(seen) =>
          && Seen(s, seen)
          && (s.ppc.FirstHead? ==> s.held == INVALID || (s.held == s.tail.idx && h.j.delivered != []))
        case FlushJump(seen, target) =>
          && Seen(s, seen) && target < s.n
          && !s.ppc.FirstHead? && 0 <= h.target && 0 <= Number(h, target)
          && (s.tail == seen ==> target != s.overrun)
          && (s.tail == seen && h.target < TailNo(s, h) ==>
                ((s.ppc.MoveTail? || s.ppc.JumpTail?) && s.ppc.seen.Tail? ==> !s.ppc.seen.first))
          && (s.tail == seen && TailNo(s, h) <= h.target ==> h.target < |h.j.sent| && Slot(h, h.target) == target)
        case FlushRetake => Overrun(s) && !s.tail.consumed)
  }

  /** The consumer saw a consumed tail: either it is still there, or the producer has jumped over it. */
  ghost predicate Seen(s: State, seen: TailWord)
    requires s.tail.Tail?
  {
    && seen.Tail? && seen.consumed && seen.idx < s.n
    && (if s.tail.consumed then s.tail == seen else Overrun(s) && s.overrun == seen.idx)
  }

  /** What is settled: the consumer took the last message logged, or only losses followed the one it took. */
  ghost predicate Ledger(tail: TailWord, overran: bool, j: Journal)
    requires tail.Tail?
  {
    && -1 <= j.claim < |j.log|
    && (tail.consumed ==> j.claim == |j.log| - 1 >= 0)
    && (j.claim >= 0 ==> j.log[j.claim] != Dropped)
    && (!tail.consumed ==> (overran <==> j.claim >= 0))
    && (!tail.consumed && !tail.first ==> j.claim < |j.log| - 1)
    && (!tail.consumed ==> forall x :: j.claim < x < |j.log| ==> j.log[x] == Dropped)
  }

  /** The deliveries made to the application. */
  ghost predicate Deliveries(j: Journal, flushing: bool) {
    && |j.received| == |j.delivered|
    && (forall i :: 0 <= i < |j.delivered| ==>
          && j.delivered[i] < |j.log| && j.delivered[i] < |j.sent|
          && j.received[i] == j.sent[j.delivered[i]])
    && (forall i, j' :: 0 <= i < j' < |j.delivered| ==> j.delivered[i] < j.delivered[j'])
    && (forall x :: 0 <= x < |j.log| ==> (j.log[x] == Delivered <==> x in j.delivered))
    && (j.delivered != [] ==> j.delivered[|j.delivered| - 1] <= j.claim)
    && (!flushing ==> if j.claim < 0 then j.delivered == []
                      else j.delivered != [] && j.delivered[|j.delivered| - 1] == j.claim)
  }

  /** The contents of the slots: every message in the ring, and the one the consumer owns, is as it was pushed. */
  ghost predicate Contents(s: State, h: Hist)
    requires Shape(s) && Ring(s, h) && Ledger(s.tail, Overrun(s), h.j)
  {
    && (forall k :: Base(h) <= k < |h.j.sent| && 0 <= k ==> s.slots[Slot(h, k)] == h.j.sent[k])
    && (!s.tail.consumed && Overrun(s) ==> s.slots[s.overrun] == h.j.sent[h.j.claim])
  }

  /** The two processes against the ring. */
  ghost predicate Structure(s: State, h: Hist)
    requires Shape(s)
  {
    && Ring(s, h)
    && Producer(s, h)
    && Flags(s, h)
    && Consumer(s, h)
  }

  /** The messages against the journal. */
  ghost predicate Account(s: State, h: Hist)
    requires Shape(s) && Ring(s, h)
  {
    && Ledger(s.tail, Overrun(s), h.j)
    && Deliveries(h.j, Unsettled(s))
    && Contents(s, h)
  }

  /** After the first message is published. */
  ghost predicate Published(s: State, h: Hist) {
    && Shape(s)
    && Structure(s, h)
    && Account(s, h)
  }

  ghost predicate Inv(s: State, h: Hist) {
    || (Shape(s) && Unpublished(s, h))
    || Published(s, h)
  }
}
