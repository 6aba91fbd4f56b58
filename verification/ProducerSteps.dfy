/**
 Every atomic step of the producer keeps the invariant.
 */
module ProducerSteps {
  import opened Index
  import opened Queue
  import opened History
  import opened Invariant
  import opened RingLemmas

  lemma PushKeepsDeliveries(j: Journal, flushing: bool, payload: Payload)
    requires Deliveries(j, flushing)
    ensures Deliveries(j.Push(payload), flushing)
  {}

  lemma DropKeepsDeliveries(j: Journal, flushing: bool)
    requires Deliveries(j, flushing)
    ensures Deliveries(j.Drop(), flushing)
  {
    var j' := j.Drop();
    forall x | 0 <= x < |j'.log|
      ensures j'.log[x] == Delivered <==> x in j'.delivered
    {
      if x < |j.log| {
        assert j'.log[x] == j.log[x];
      }
    }
  }

  /** The producer writes a slot that is neither linked nor the consumer's. */
  lemma KeepWrite(s: State, h: Hist, payload: Payload)
    requires Published(s, h) && s.ppc.Idle?
    ensures Published(Step(s, Write(payload)), h)
  {
    hide Deliveries, Linked, Distinct, Outside, Slot;
    SlotsOutside(s, h, s.current);
  }

  lemma SlotsOutside(s: State, h: Hist, x: nat)
    requires Shape(s) && Ring(s, h) && Outside(x, h.ring)
    ensures forall k :: Base(h) <= k < |h.j.sent| ==> Slot(h, k) != x && Slot(h, k) < s.n
  {}

  lemma KeepStartForce(s: State, h: Hist)
    requires Published(s, h) && s.ppc.Idle?
    ensures Published(StartForcePush(s), h)
  {
    hide Deliveries, Linked, Distinct, Outside, Slot;
    StoreOutside(s.chain, h.ring, s.current, INVALID);
  }

  lemma KeepStartTry(s: State, h: Hist)
    requires Published(s, h) && s.ppc.Idle?
    ensures Published(StartTryPush(s), h)
  {
    hide Deliveries, Linked, Distinct, Outside, Slot;
    TailInRing(s, h);
    Successor(s.chain, h.ring, |h.ring| - 1);
  }

  lemma SlotAt(h: Hist, k: int)
    requires Base(h) <= k < |h.j.sent|
    ensures Slot(h, k) == h.ring[k - Base(h)]
  {}

  lemma KeepFirstTail(s: State, h: Hist)
    requires Shape(s) && Unpublished(s, h) && s.ppc.FirstTail?
    ensures Published(StepProducer(s), AfterProducer(s, h))
  {
    FirstLinked(s.n);
  }

  lemma KeepClear(s: State, h: Hist)
    requires Published(s, h) && s.ppc.Clear?
    ensures Published(StepProducer(s), h)
  {
    hide Deliveries, Linked, Distinct, Outside, Slot;
    StoreOutside(s.chain, h.ring, s.current, INVALID);
  }

  /** Linking the new message leaves the others where they were. */
  lemma LinkSlots(h: Hist, h': Hist, x: nat, payload: Payload)
    requires h' == h.(ring := h.ring + [x], j := h.j.Push(payload))
    ensures Base(h') == Base(h)
    ensures forall k :: Base(h) <= k < |h.j.sent| ==> Slot(h', k) == Slot(h, k)
    ensures Base(h) <= |h.j.sent| ==> Slot(h', |h.j.sent|) == x
  {}

  lemma LinkRing(s: State, h: Hist, s': State, h': Hist)
    requires Published(s, h) && s.ppc.Link?
    requires s' == StepProducer(s) && h' == AfterProducer(s, h)
    ensures Shape(s') && Ring(s', h') && Producer(s', h')
    ensures s.current < s.n
  {
    hide Deliveries, Linked, Distinct, Outside, Slot, Contents, Consumer;
    Append(s.chain, h.ring, s.current);
    Successor(s.chain, h.ring, |h.ring| - 1);
    LinkSlots(h, h', s.current, Content(s, s.current));
    if Overrun(s) {
      AppendOutside(h.ring, s.current, s.overrun);
    }
  }

  lemma LinkContents(s: State, h: Hist, s': State, h': Hist)
    requires Published(s, h) && s.ppc.Link?
    requires s' == StepProducer(s) && h' == AfterProducer(s, h) && Shape(s') && Ring(s', h')
    ensures Ledger(s'.tail, Overrun(s'), h'.j) && Contents(s', h')
  {
    hide Deliveries, Linked, Distinct, Outside, Slot, Consumer;
    LinkSlots(h, h', s.current, Content(s, s.current));
  }

  lemma {:induction false} FindAppend(ring: seq<nat>, x: nat, y: nat)
    ensures Find(ring + [y], x) >= Find(ring, x)
  {
    if ring != [] && ring[0] != x {
      FindAppend(ring[1..], x, y);
      assert (ring + [y])[1..] == ring[1..] + [y];
    }
  }

  /** Linking a message does not concern the consumer. */
  lemma LinkConsumer(s: State, h: Hist)
    requires Published(s, h) && s.ppc.Link? && Shape(StepProducer(s)) && Ring(StepProducer(s), AfterProducer(s, h))
    ensures Consumer(StepProducer(s), AfterProducer(s, h))
  {
    hide Deliveries, Linked, Distinct, Outside, Slot, Producer, Contents, Ledger, Number;
    LinkSlots(h, AfterProducer(s, h), s.current, Content(s, s.current));
    if s.cpc.FlushJump? {
      LinkNumber(h, AfterProducer(s, h), s.cpc.target, s.current);
    }
  }

  lemma LinkNumber(h: Hist, h': Hist, x: nat, y: nat)
    requires h'.ring == h.ring + [y] && |h'.j.sent| == |h.j.sent| + 1
    ensures Number(h', x) >= Number(h, x)
  {
    FindAppend(h.ring, x, y);
  }

  lemma KeepLink(s: State, h: Hist)
    requires Published(s, h) && s.ppc.Link?
    ensures Published(StepProducer(s), AfterProducer(s, h))
  {
    hide Deliveries, Linked, Distinct, Outside, Slot, Producer, Contents, Ledger, Consumer;
    var payload := Content(s, s.current);
    PushKeepsDeliveries(h.j, Unsettled(s), payload);
    LinkRing(s, h, StepProducer(s), AfterProducer(s, h));
    LinkContents(s, h, StepProducer(s), AfterProducer(s, h));
    LinkConsumer(s, h);
  }

  /** Announcing the newest message in the shared head. */
  lemma KeepAnnounced(s: State, h: Hist, next: nat)
    requires Published(s, h) && (s.ppc.Announce? || s.ppc.FirstHead?) && s.ppc.next == next
    ensures Published(s.(head := s.last, ppc := LoadTail(next)), h)
  {
    hide Deliveries, Linked, Distinct, Outside, Slot;
  }

  ghost predicate Choosing(pc: ProducerPc) {
    Linking(pc) && !pc.Announce? && !pc.FirstHead?
  }

  /** Between calls all that matters is that the producer's slot leads into the ring. */
  lemma IdleProducer(s: State, h: Hist)
    requires Shape(s) && Ring(s, h) && s.ppc.Idle?
    requires s.ppc.result in {PushFail, PushSuccess, PushDiscarded}
    requires s.current < s.n && Outside(s.current, h.ring) && s.current != s.overrun
    requires s.chain[s.current] == h.ring[0]
    ensures Producer(s, h)
  {}

  /** Messages keep their slots when the front of the ring is given away. */
  lemma SlotsKept(h: Hist, h': Hist, k: nat)
    requires k <= |h.ring| && h'.ring == h.ring[k..] && h'.j.sent == h.j.sent
    ensures Base(h') == Base(h) + k
    ensures forall x :: Base(h') <= x < |h.j.sent| ==> Slot(h', x) == Slot(h, x)
  {}

  /** Ring after the producer takes the front. */
  lemma TakeFrontRing(s: State, h: Hist, s': State, h': Hist)
    requires Shape(s) && Ring(s, h) && Choosing(s.ppc) && Base(h) < TailNo(s, h)
    requires s' == s.(current := h.ring[0], ppc := Idle(PushSuccess)) && h' == TakeFront(h)
    ensures Shape(s') && Ring(s', h')
    ensures Producer(s', h')
  {
    hide Slot, Distinct, Linked, Outside, Producer;
    Suffix(s.chain, h.ring, 1);
    SlotsKept(h, h', 1);
    Successor(s.chain, h.ring, 0);
    if Overrun(s) {
      SuffixOutside(h.ring, 1, s.overrun);
    }
    IdleProducer(s', h');
  }

  /** The producer continues on the slot at the front of the ring, which holds no message any more. */
  lemma KeepTakeFront(s: State, h: Hist, s': State)
    requires Published(s, h) && Choosing(s.ppc) && Base(h) < TailNo(s, h)
    requires s' == s.(current := h.ring[0], ppc := Idle(PushSuccess))
    ensures Published(s', TakeFront(h))
  {
    hide Producer, Slot, Deliveries, Linked, Distinct, Outside;
    var h' := TakeFront(h);
    TakeFrontRing(s, h, s', h');
    SlotsKept(h, h', 1);
  }

  lemma DropFrontRing(s: State, h: Hist, s': State, h': Hist)
    requires Shape(s) && Ring(s, h) && Choosing(s.ppc)
    requires !s.tail.consumed && TailNo(s, h) == Base(h)
    requires s' == s.(tail := Plain(s.chain[h.ring[0]]), current := h.ring[0], ppc := Idle(PushDiscarded))
    requires h' == DropFront(h)
    ensures Shape(s') && Ring(s', h') && Producer(s', h')
  {
    hide Slot, Distinct, Linked, Outside, Producer;
    Suffix(s.chain, h.ring, 1);
    SlotsKept(h, h', 1);
    SlotAt(h, Base(h) + 1);
    Successor(s.chain, h.ring, 0);
    if Overrun(s) {
      SuffixOutside(h.ring, 1, s.overrun);
    }
    IdleProducer(s', h');
  }

  /** The tail moves up by one slot, losing the message at the front of the ring. */
  lemma KeepDropFront(s: State, h: Hist, s': State)
    requires Published(s, h) && Choosing(s.ppc)
    requires !s.tail.consumed && TailNo(s, h) == Base(h)
    requires s' == s.(tail := Plain(s.chain[h.ring[0]]), current := h.ring[0], ppc := Idle(PushDiscarded))
    ensures Published(s', DropFront(h))
  {
    hide Producer, Slot, Deliveries, Linked, Distinct, Outside;
    var h' := DropFront(h);
    DropFrontRing(s, h, s', h');
    SlotsKept(h, h', 1);
    DropKeepsDeliveries(h.j, Unsettled(s));
  }

  lemma JumpRing(s: State, h: Hist, s': State, h': Hist)
    requires Published(s, h) && s.ppc.JumpTail? && s.tail == s.ppc.seen
    requires s' == StepProducer(s) && h' == AfterProducer(s, h)
    ensures Shape(s') && Ring(s', h') && Producer(s', h')
    ensures TailNo(s, h) == Base(h) && s'.overrun == s.tail.idx && s'.tail == Tail(h.ring[2], false, false)
  {
    hide Slot, Distinct, Linked, Outside, Deliveries, Contents, Consumer;
    TailInRing(s, h);
    Suffix(s.chain, h.ring, 2);
    SlotsKept(h, h', 2);
    SlotAt(h, Base(h) + 2);
    Successor(s.chain, h.ring, 0);
    Successor(s.chain, h.ring, 1);
    IdleProducer(s', h');
  }

  /** The producer jumps over the consumer's slot, losing the message behind it. */
  lemma KeepJump(s: State, h: Hist)
    requires Published(s, h) && s.ppc.JumpTail? && s.tail == s.ppc.seen
    ensures Published(StepProducer(s), AfterProducer(s, h))
  {
    hide Producer, Slot, Deliveries, Linked, Distinct, Outside;
    var h' := AfterProducer(s, h);
    JumpRing(s, h, StepProducer(s), h');
    SlotsKept(h, h', 2);
    DropKeepsDeliveries(h.j, Unsettled(s));
  }

  /** The slot the consumer has given back becomes the producer's again. */
  lemma KeepRequeue(s: State, h: Hist)
    requires Published(s, h) && s.ppc.Requeue?
    ensures Published(StepProducer(s), h)
  {
    hide Slot, Deliveries, Linked, Distinct, Outside;
    StoreOutside(s.chain, h.ring, s.overrun, s.ppc.next);
  }

  /** Loading the tail, when the producer does not finish on the spot. */
  lemma KeepLoadTail(s: State, h: Hist)
    requires Published(s, h) && s.ppc.LoadTail? && (Overrun(s) || s.ppc.next == s.tail.Masked())
    ensures Published(StepProducer(s), h)
    ensures !StepProducer(s).ppc.Idle?
  {
    hide Slot, Deliveries, Linked, Distinct, Outside;
    TailInRing(s, h);
  }

  /** The tail names a slot of the ring, and its front slot only when it stands at the front. */
  lemma TailInRing(s: State, h: Hist)
    requires Shape(s) && Ring(s, h)
    ensures s.tail.idx < s.n
    ensures s.tail.idx == h.ring[0] <==> TailNo(s, h) == Base(h)
  {}

  /** Losing a compare-exchange of the tail to the consumer. */
  lemma KeepLost(s: State, h: Hist)
    requires Published(s, h) && (s.ppc.MoveOverrun? || s.ppc.MoveTail?) && s.tail != s.ppc.seen
    ensures Published(StepProducer(s), h)
  {
    hide Slot, Deliveries, Linked, Distinct, Outside;
  }

  lemma KeepUnpublished(s: State, h: Hist, a: Action)
    requires Shape(s) && Unpublished(s, h) && !(s.ppc.FirstTail? && a.ProducerStep?)
    ensures Shape(Step(s, a)) && Unpublished(Step(s, a), After(s, h, a))
  {}

  /** The last step of a push, or of a part of it, made from the state where the message is announced. */
  lemma KeepStep(s: State, h: Hist)
    requires Published(s, h) && Choosing(s.ppc)
    ensures Published(StepProducer(s), AfterProducer(s, h))
  {
    hide Published;
    PushKnows(s, h);
    var s' := StepProducer(s);
    match s.ppc
    case LoadTail(next) =>
      if Overrun(s) || next == s.tail.Masked() {
        KeepLoadTail(s, h);
      } else {
        KeepTakeFront(s, h, s');
      }
    case MoveOverrun(_, seen) =>
      if s.tail == seen {
        KeepDropFront(s, h, s');
      } else {
        KeepLost(s, h);
      }
    case Requeue(_) => KeepRequeue(s, h);
    case MoveTail(_, seen) =>
      if s.tail == seen {
        KeepDropFront(s, h, s');
      } else {
        KeepLost(s, h);
      }
    case JumpTail(seen) =>
      if s.tail == seen {
        KeepJump(s, h);
      } else {
        KeepTakeFront(s, h, s');
      }
  }

  /** What the producer knows when it decides. */
  lemma PushKnows(s: State, h: Hist)
    requires Published(s, h) && Choosing(s.ppc)
    ensures s.tail.Tail? && s.tail.idx < s.n && h.ring != [] && h.ring[0] < s.n == |s.chain| && s.localChain == s.chain
    ensures s.tail.idx == h.ring[0] <==> TailNo(s, h) == Base(h)
    ensures Base(h) <= TailNo(s, h)
    ensures !s.ppc.JumpTail? ==> s.ppc.next == h.ring[0]
    ensures s.ppc.MoveOverrun? || s.ppc.MoveTail? || s.ppc.JumpTail? ==> s.ppc.seen.Masked() == h.ring[0]
    ensures (s.ppc.MoveOverrun? || s.ppc.MoveTail?) && s.tail == s.ppc.seen ==> !s.tail.consumed
    ensures s.ppc.JumpTail? && s.tail != s.ppc.seen ==> Base(h) < TailNo(s, h)
  {
    hide Slot, Deliveries, Linked, Distinct, Outside, Contents, Consumer;
    TailInRing(s, h);
    Successor(s.chain, h.ring, 0);
  }

  lemma KeepAnnounce(s: State, h: Hist)
    requires Published(s, h) && (s.ppc.FirstHead? || s.ppc.Announce?)
    ensures Published(StepProducer(s), AfterProducer(s, h))
  {
    hide Published;
    var announced := s.(head := s.last, ppc := LoadTail(s.ppc.next));
    KeepAnnounced(s, h, s.ppc.next);
    PushKnows(announced, h);
    AnnounceKnows(s, h);
    if s.ppc.FirstHead? || s.ppc.purpose.TryPlain? {
      KeepTakeFront(announced, h, StepProducer(s));
    } else if s.ppc.purpose.TryOverrun? {
      KeepTryRequeue(announced, h);
    }
  }

  lemma AnnounceKnows(s: State, h: Hist)
    requires Published(s, h) && (s.ppc.FirstHead? || s.ppc.Announce?)
    ensures s.tail.Tail?
    ensures s.ppc.FirstHead? || s.ppc.purpose.TryPlain? ==> Base(h) < TailNo(s, h)
    ensures s.ppc.Announce? && s.ppc.purpose.TryOverrun? ==> Overrun(s) && s.tail.consumed
  {
    hide Slot, Deliveries, Linked, Distinct, Outside, Contents, Consumer;
  }

  /** try_push knew the consumer had moved on before it enqueued: it may requeue without looking again. */
  lemma KeepTryRequeue(s: State, h: Hist)
    requires Published(s, h) && s.ppc.LoadTail? && Overrun(s) && s.tail.consumed
    ensures Published(s.(ppc := Requeue(s.ppc.next)), h)
  {
    hide Slot, Deliveries, Linked, Distinct, Outside;
  }

  lemma KeepStepProducer(s: State, h: Hist)
    requires Published(s, h)
    ensures Published(StepProducer(s), AfterProducer(s, h))
  {
    if s.ppc.Clear? {
      KeepClear(s, h);
    } else if s.ppc.Link? {
      KeepLink(s, h);
    } else if Choosing(s.ppc) {
      KeepStep(s, h);
    } else if s.ppc.FirstHead? || s.ppc.Announce? {
      KeepAnnounce(s, h);
    }
  }
}
