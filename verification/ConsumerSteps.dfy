/**
 Every atomic step of the consumer keeps the invariant, those of a flush under conditions.
 */
module ConsumerSteps {
  import opened Index
  import opened Queue
  import opened History
  import opened Invariant
  import opened RingLemmas

  /**
   The newest message is linked (or published) but not yet announced in the shared head, and the
   consumer has already reached it.
   */
  predicate Unannounced(s: State) {
    (s.ppc.FirstHead? || s.ppc.Announce?) && s.tail.Tail? && s.tail.idx == s.current
  }

  /**
   A flush is about to swing the tail onto the very message it stands on, the first one ever pushed: that
   clears the FIRST flag, while the producer is waiting to compare the tail with a value that carries it.
   */
  predicate FirstLost(s: State) {
    && s.cpc.FlushJump? && s.tail == s.cpc.seen && s.tail.Tail? && s.tail.first && s.cpc.target == s.tail.idx
    && (s.ppc.MoveTail? || s.ppc.JumpTail?)
  }

  /** A flush is about to swing the tail: the head it has loaded is among the slots behind the tail. */
  predicate Queued(s: State) {
    s.cpc.FlushJump? && s.tail.Tail? && s.cpc.target in Follow(s.chain, s.tail.idx, s.n)
  }

  /**
   What a flush must not do: swing the tail to a slot that is not queued, and take the FIRST flag from a
   waiting producer.
   */
  predicate Safe(s: State, a: Action) {
    a.ConsumerStep? ==>
      && (s.cpc.FlushJump? && s.tail == s.cpc.seen ==> Queued(s))
      && !FirstLost(s)
  }

  // ---- journal ----------------------------------------------------------------------------------

  lemma DeliverKeepsDeliveries(j: Journal, flushing: bool, payload: Payload)
    requires Deliveries(j, flushing) && j.claim < |j.log| < |j.sent| && payload == j.sent[|j.log|]
    ensures Deliveries(j.Deliver(payload), false)
  {
    var j' := j.Deliver(payload);
    forall x | 0 <= x < |j'.log|
      ensures j'.log[x] == Delivered <==> x in j'.delivered
    {
      if x < |j.log| {
        assert j'.log[x] == j.log[x];
      } else {
        assert j'.delivered[|j.delivered|] == x;
      }
    }
  }

  lemma ClaimKeepsDeliveries(j: Journal, flushing: bool)
    requires Deliveries(j, flushing) && j.claim < |j.log|
    ensures Deliveries(j.Claim(), true)
  {
    var j' := j.Claim();
    forall x | 0 <= x < |j'.log|
      ensures j'.log[x] == Delivered <==> x in j'.delivered
    {
      if x < |j.log| {
        assert j'.log[x] == j.log[x];
      }
    }
  }

  lemma LandKeepsDeliveries(j: Journal, target: int, payload: Payload)
    requires Deliveries(j, true) && j.claim == |j.log| - 1 <= target < |j.sent| && 0 <= target
    requires payload == j.sent[target]
    ensures Deliveries(j.Land(target, payload), false)
  {
    hide Deliveries;
    if target >= |j.log| {
      LandAhead(j, target, payload);
    } else if j.delivered == [] || j.delivered[|j.delivered| - 1] != |j.log| - 1 {
      LandHere(j, payload);
    } else {
      AlreadyLanded(j);
    }
  }

  lemma AlreadyLanded(j: Journal)
    requires Deliveries(j, true) && j.claim == |j.log| - 1 >= 0
    requires j.delivered != [] && j.delivered[|j.delivered| - 1] == j.claim
    ensures Deliveries(j, false)
  {}

  lemma LandHere(j: Journal, payload: Payload)
    requires Deliveries(j, true) && j.claim == |j.log| - 1 && 0 <= j.claim < |j.sent| && payload == j.sent[j.claim]
    requires j.delivered == [] || j.delivered[|j.delivered| - 1] != j.claim
    ensures Deliveries(j.Land(j.claim, payload), false)
  {
    var j', m := j.Land(j.claim, payload), j.claim;
    assert j' == j.(log := j.log[..m] + [Delivered], delivered := j.delivered + [m],
                    received := j.received + [payload]);
    forall i | 0 <= i < |j.delivered|
      ensures j.delivered[i] < m
    {
      assert j.delivered[i] <= j.delivered[|j.delivered| - 1];
    }
    forall x | 0 <= x < |j'.log|
      ensures j'.log[x] == Delivered <==> x in j'.delivered
    {
      if x < m {
        assert j'.log[x] == j.log[x];
      } else {
        assert j'.delivered[|j.delivered|] == x;
      }
    }
  }

  lemma LandAhead(j: Journal, target: int, payload: Payload)
    requires Deliveries(j, true) && |j.log| <= target < |j.sent| && payload == j.sent[target]
    ensures Deliveries(j.Land(target, payload), false)
  {
    var j' := j.Land(target, payload);
    assert forall x :: x in j'.delivered <==> x in j.delivered || x == target;
    assert forall x :: 0 <= x < |j.log| ==> j'.log[x] == j.log[x];
  }

  // ---- pop --------------------------------------------------------------------------------------

  /** The consumer takes an unconsumed tail: the shared words, seen from both sides. */
  lemma TakeTail(s: State, h: Hist, s': State, h': Hist)
    requires Published(s, h) && !s.tail.consumed
    requires s' == s.(tail := s.tail.Consume(), held := s.tail.idx, cpc := s'.cpc)
    requires s'.cpc in {Ready(PopSuccess), Ready(PopDiscarded)}
    requires h' == h.(j := h.j.Deliver(s.slots[s.tail.idx]))
    ensures Published(s', h')
  {
    hide Deliveries, Linked, Distinct, Outside, Slot;
    TailContent(s, h);
    DeliverKeepsDeliveries(h.j, Unsettled(s), s.slots[s.tail.idx]);
    SameSlots(h, h');
  }

  lemma SameSlots(h: Hist, h': Hist)
    requires h'.ring == h.ring && h'.j.sent == h.j.sent
    ensures Base(h') == Base(h)
    ensures forall k :: Base(h) <= k < |h.j.sent| ==> Slot(h', k) == Slot(h, k)
  {}

  lemma TailContent(s: State, h: Hist)
    requires Published(s, h)
    ensures s.tail.Tail? && s.tail.idx < s.n
    ensures 0 <= TailNo(s, h) < |h.j.sent| && s.slots[s.tail.idx] == h.j.sent[TailNo(s, h)]
  {
    hide Deliveries, Distinct, Outside, Consumer, Producer;
  }

  lemma KeepStartPop(s: State, h: Hist)
    requires Published(s, h) && s.cpc.Ready?
    ensures Published(StartPop(s), AfterPop(s, h))
  {
    hide Deliveries, Linked, Distinct, Outside, Slot;
    TailContent(s, h);
    if !s.tail.consumed {
      TakeTail(s, h, StartPop(s), AfterPop(s, h));
    }
  }

  /** The chain behind the tail: its successor is the next message, or the tail is the newest. */
  lemma TailSuccessor(s: State, h: Hist)
    requires Published(s, h)
    ensures s.tail.idx < s.n && 0 <= TailNo(s, h)
    ensures TailNo(s, h) + 1 < |h.j.sent| ==>
      s.chain[s.tail.idx] < s.n && s.chain[s.tail.idx] == Slot(h, TailNo(s, h) + 1)
    ensures TailNo(s, h) + 1 == |h.j.sent| ==> s.chain[s.tail.idx] == INVALID
  {
    hide Deliveries, Linked, Distinct, Outside, Consumer, Producer;
    TailContent(s, h);
    Successor(s.chain, h.ring, TailNo(s, h) - Base(h));
  }

  lemma KeepPopLoad(s: State, h: Hist)
    requires Published(s, h) && s.cpc.PopLoad?
    ensures Published(StepConsumer(s), h)
  {
    hide Deliveries, Linked, Distinct, Outside, Slot, Producer;
    TailSuccessor(s, h);
    assert Producer(StepConsumer(s), h) by { SameProducer(s, StepConsumer(s), h); }
  }

  /** A step that touches only the consumer's own fields cannot disturb the producer's side. */
  lemma SameProducer(s: State, s': State, h: Hist)
    requires Shape(s) && Ring(s, h) && Producer(s, h)
    requires s' == s.(held := s'.held, cpc := s'.cpc)
    ensures Shape(s') && Ring(s', h) && Producer(s', h)
  {}

  lemma ProducerFrame(s: State, h: Hist, h': Hist)
    requires Shape(s) && Ring(s, h) && Producer(s, h) && h'.ring == h.ring && h'.j == h.j
    ensures Ring(s, h') && Producer(s, h')
  {}

  /** The producer's side after the tail has been moved forward from one consumed message to a later one. */
  lemma AdvanceStructure(s: State, h: Hist, s': State, h': Hist, k: int)
    requires Published(s, h) && s.tail.consumed && TailNo(s, h) < k < |h.j.sent|
    requires s' == s.(tail := Tail(Slot(h, k), true, false), held := Slot(h, k), cpc := s'.cpc)
    requires h' == h.(j := h'.j) && h'.j.sent == h.j.sent && |h'.j.log| == k + 1
    ensures Shape(s') && Ring(s', h') && Producer(s', h') && Flags(s', h')
  {
    hide Deliveries, Linked, Distinct, Outside, Slot, Contents, Consumer;
    SameSlots(h, h');
  }

  lemma KeepPopAdvance(s: State, h: Hist)
    requires Published(s, h) && s.cpc.PopAdvance? && s.tail == s.cpc.seen
    ensures Published(StepConsumer(s), AfterConsumer(s, h))
  {
    hide Deliveries, Linked, Distinct, Outside, Slot, Producer;
    var k := |h.j.log|;
    SlotContent(s, h, k);
    DeliverKeepsDeliveries(h.j, false, s.slots[Slot(h, k)]);
    AdvanceStructure(s, h, StepConsumer(s), AfterConsumer(s, h), k);
    SameSlots(h, AfterConsumer(s, h));
  }

  lemma SlotContent(s: State, h: Hist, k: int)
    requires Published(s, h) && TailNo(s, h) <= k < |h.j.sent|
    ensures 0 <= k && Slot(h, k) < s.n && s.slots[Slot(h, k)] == h.j.sent[k]
  {
    hide Deliveries, Distinct, Outside, Consumer, Producer;
  }

  /** Losing a compare-exchange of the tail to the producer. */
  lemma KeepLostTail(s: State, h: Hist)
    requires Published(s, h) && (s.cpc.PopAdvance? || s.cpc.FlushJump?) && s.tail != s.cpc.seen
    ensures Published(StepConsumer(s), h)
  {
    hide Deliveries, Linked, Distinct, Outside, Slot;
  }

  lemma KeepPopRetake(s: State, h: Hist)
    requires Published(s, h) && s.cpc.PopRetake?
    ensures Published(StepConsumer(s), AfterConsumer(s, h))
  {
    hide Deliveries, Linked, Distinct, Outside, Slot, Producer;
    TailContent(s, h);
    TakeTail(s, h, StepConsumer(s), AfterConsumer(s, h));
  }

  // ---- flush ------------------------------------------------------------------------------------

  lemma KeepStartFlush(s: State, h: Hist)
    requires Published(s, h) && (s.cpc.Ready? || s.cpc.FlushRetake?)
    ensures Published(StartFlush(s), AfterFlush(s, h).(retries := h.retries + B(s.cpc.FlushRetake?)))
  {
    hide Published;
    TailContent(s, h);
    if s.tail.consumed {
      FlushHeld(s, h);
    } else {
      FlushClaims(s, h);
    }
  }

  /** A flush that begins on a tail that is already the consumer's. */
  lemma FlushHeld(s: State, h: Hist)
    requires Published(s, h) && (s.cpc.Ready? || s.cpc.FlushRetake?) && s.tail.consumed
    ensures s.cpc.Ready? && StartFlush(s) == s.(cpc := FlushLoad(s.tail)) && Published(StartFlush(s), h)
  {
    hide Deliveries, Linked, Distinct, Outside, Slot, Producer;
    TailContent(s, h);
    FlushingDeliveries(h.j, Unsettled(s));
    SameProducer(s, StartFlush(s), h);
  }

  /** A flush that begins by claiming the tail. */
  lemma FlushClaims(s: State, h: Hist)
    requires Published(s, h) && (s.cpc.Ready? || s.cpc.FlushRetake?) && !s.tail.consumed
    ensures Published(StartFlush(s), h.(j := h.j.Claim(), retries := h.retries + B(s.cpc.FlushRetake?)))
  {
    hide Deliveries, Linked, Distinct, Outside, Slot;
    TailContent(s, h);
    ClaimKeepsDeliveries(h.j, Unsettled(s));
    SameSlots(h, h.(j := h.j.Claim(), retries := h.retries + B(s.cpc.FlushRetake?)));
  }

  lemma FlushingDeliveries(j: Journal, flushing: bool)
    requires Deliveries(j, flushing)
    ensures Deliveries(j, true)
    ensures !flushing && j.claim >= 0 ==> j.delivered != []
  {}

  lemma KeepFlushLoad(s: State, h: Hist)
    requires Published(s, h) && s.cpc.FlushLoad?
    ensures Published(StepConsumer(s), AfterConsumer(s, h))
  {
    hide Published;
    if s.ppc.FirstHead? {
      LoadFails(s, h);
    } else {
      LoadSucceeds(s, h);
    }
  }

  /** There is no head yet. */
  lemma LoadFails(s: State, h: Hist)
    requires Published(s, h) && s.cpc.FlushLoad? && s.ppc.FirstHead?
    ensures Published(StepConsumer(s), AfterConsumer(s, h))
  {
    hide Deliveries, Linked, Distinct, Outside, Slot, Producer;
    SameProducer(s, StepConsumer(s), h);
    HeadBehind(s, h);
    SameSlots(h, AfterConsumer(s, h));
    ProducerFrame(StepConsumer(s), h, AfterConsumer(s, h));
    if s.held != INVALID {
      OneDelivered(h.j);
    }
  }

  lemma LoadSucceeds(s: State, h: Hist)
    requires Published(s, h) && s.cpc.FlushLoad? && !s.ppc.FirstHead?
    ensures Published(StepConsumer(s), AfterConsumer(s, h))
  {
    hide Deliveries, Linked, Distinct, Outside, Slot, Producer, Number;
    SameProducer(s, StepConsumer(s), h);
    HeadBehind(s, h);
    HeadInRing(s, h);
    HeadNumber(s, h);
    SameNumber(h, AfterConsumer(s, h), s.head);
    SameSlots(h, AfterConsumer(s, h));
    ProducerFrame(StepConsumer(s), h, AfterConsumer(s, h));
  }

  lemma SameNumber(h: Hist, h': Hist, x: nat)
    requires h'.ring == h.ring && h'.j.sent == h.j.sent
    ensures Number(h', x) == Number(h, x)
  {}

  lemma OneDelivered(j: Journal)
    requires Deliveries(j, true) && j.claim == 0 && j.delivered != []
    ensures Deliveries(j, false)
  {}

  lemma HeadInRing(s: State, h: Hist)
    requires Shape(s) && Ring(s, h)
    ensures !s.ppc.FirstHead? ==> s.head != s.overrun || !Overrun(s)
  {}

  /** Numbers and slots belong together. */
  lemma NumberIs(h: Hist, k: int)
    requires Distinct(h.ring) && Base(h) <= k < |h.j.sent|
    ensures Number(h, Slot(h, k)) == k
  {}

  lemma HeadNumber(s: State, h: Hist)
    requires Published(s, h) && !s.ppc.FirstHead?
    ensures Number(h, s.head) == (if s.ppc.Announce? then |h.j.sent| - 2 else |h.j.sent| - 1) >= 0
  {
    hide Outside, Deliveries, Contents, Consumer, Number;
    HeadBehind(s, h);
    NumberIs(h, if s.ppc.Announce? then |h.j.sent| - 2 else |h.j.sent| - 1);
  }

  /** Where the shared head stands: on the newest message, or one behind it while it is being announced. */
  lemma HeadBehind(s: State, h: Hist)
    requires Published(s, h)
    ensures s.ppc.FirstHead? || s.head < s.n
    ensures s.ppc.FirstHead? ==> s.head == INVALID && s.tail.idx == s.current && TailNo(s, h) == |h.j.sent| - 1
    ensures s.ppc.Announce? ==> |h.ring| >= 2 && |h.j.sent| >= 2 && s.head == Slot(h, |h.j.sent| - 2)
    ensures !s.ppc.FirstHead? && !s.ppc.Announce? ==> s.head == Slot(h, |h.j.sent| - 1)
    ensures s.ppc.Announce? ==> (s.tail.idx == s.current <==> TailNo(s, h) == |h.j.sent| - 1)
  {
    hide Deliveries, Contents, Consumer;
    Successor(s.chain, h.ring, |h.ring| - 1);
    if |h.ring| >= 2 {
      Successor(s.chain, h.ring, |h.ring| - 2);
    }
  }

  /** The loaded head is queued exactly when it is the slot of a message at or behind the tail. */
  lemma QueuedNumber(s: State, h: Hist)
    requires Published(s, h) && s.cpc.FlushJump?
    ensures Queued(s) <==> TailNo(s, h) <= Number(h, s.cpc.target) < |h.j.sent|
    ensures Number(h, s.cpc.target) < |h.j.sent| ==>
      Base(h) <= Number(h, s.cpc.target) && Slot(h, Number(h, s.cpc.target)) == s.cpc.target
  {
    hide Deliveries, Outside, Producer, Consumer, Contents;
    var at := TailNo(s, h) - Base(h);
    var x := s.cpc.target;
    FollowRing(s.chain, h.ring, at, s.n);
    var i := Find(h.ring, x);
    if x in h.ring[at..] {
      var k :| 0 <= k < |h.ring[at..]| && h.ring[at..][k] == x;
      assert h.ring[at + k] == x;
    } else if i < |h.ring| && i >= at {
      assert h.ring[at..][i - at] == x;
    }
  }

  lemma KeepFlushJump(s: State, h: Hist)
    requires Published(s, h) && s.cpc.FlushJump? && s.tail == s.cpc.seen && Queued(s) && !FirstLost(s)
    ensures Published(StepConsumer(s), AfterConsumer(s, h))
  {
    hide Deliveries, Linked, Distinct, Outside, Slot, Producer, Queued, Number;
    var s', h', k := StepConsumer(s), AfterConsumer(s, h), Number(h, s.cpc.target);
    QueuedNumber(s, h);
    SlotContent(s, h, k);
    LandKeepsDeliveries(h.j, k, s.slots[Slot(h, k)]);
    SameSlots(h, h');
    if TailNo(s, h) < k {
      AdvanceStructure(s, h, s', h', k);
    } else {
      LandInPlace(s, h, s', h');
    }
  }

  /** A flush that lands on the message it already holds drops the FIRST flag and nothing else. */
  lemma LandInPlace(s: State, h: Hist, s': State, h': Hist)
    requires Published(s, h) && s.tail.consumed && (s.tail.first ==> !s.ppc.MoveTail? && !s.ppc.JumpTail?)
    requires s' == s.(tail := Tail(s.tail.idx, true, false), held := s.tail.idx, cpc := s'.cpc)
    requires h' == h.(j := h'.j) && h'.j.sent == h.j.sent && |h'.j.log| == |h.j.log|
    ensures Shape(s') && Ring(s', h') && Producer(s', h') && Flags(s', h')
  {
    hide Deliveries, Linked, Distinct, Outside, Slot, Contents, Consumer;
    SameSlots(h, h');
  }

  lemma KeepStepConsumer(s: State, h: Hist)
    requires Published(s, h) && Safe(s, ConsumerStep)
    ensures Published(StepConsumer(s), AfterConsumer(s, h))
  {
    hide Published;
    match s.cpc
    case Ready(_) =>
    case PopLoad(_) => KeepPopLoad(s, h);
    case PopAdvance(seen, _) =>
      if s.tail == seen {
        KeepPopAdvance(s, h);
      } else {
        KeepLostTail(s, h);
      }
    case PopRetake => KeepPopRetake(s, h);
    case FlushLoad(_) => KeepFlushLoad(s, h);
    case FlushJump(seen, _) =>
      if s.tail == seen {
        KeepFlushJump(s, h);
      } else {
        KeepLostTail(s, h);
      }
    case FlushRetake => KeepStartFlush(s, h);
  }
}
