/**
 Flush: what it delivers, how often it can fail, and exactly when its accesses are safe.
 */
module Flushes {
  import opened Index
  import opened Queue
  import opened History
  import opened Invariant
  import opened ConsumerSteps
  import opened Runs
  import opened Guarantees
  import opened Chain
  import opened Losses

  /**
   The head a flush loads is that of the newest message announced. While the tail has not moved, that message
   is at or behind the tail exactly if the consumer is not already on a newer, unannounced one.
   */
  lemma FlushLoadsNewest(s: State, h: Hist)
    requires Reach(s, h) && s.cpc.FlushLoad? && !s.ppc.FirstHead?
    ensures var s', h' := StepConsumer(s), AfterConsumer(s, h);
      && s'.cpc == FlushJump(s.cpc.seen, s.head)
      && h'.target == (if s.ppc.Announce? then |h.j.sent| - 2 else |h.j.sent| - 1)
      && Base(h) <= h'.target < |h.j.sent| && Slot(h, h'.target) == s.head
      && (s.tail == s.cpc.seen ==> (TailNo(s, h) <= h'.target <==> !Unannounced(s)))
  {
    ReachInv(s, h);
    hide Reach, Linked, Distinct, Outside, Slot, Deliveries, Contents, Producer;
    HeadBehind(s, h);
  }

  /**
   A flush that succeeds hands out the message in the slot it had loaded: the tail stands on it, flagged
   CONSUMED, the consumer owns its slot and finds in it the content that was pushed. It is the message that
   was newest at the load, unless that one was behind the tail then.
   */
  lemma FlushLands(s: State, h: Hist)
    requires Reach(s, h) && s.cpc.FlushJump? && s.tail == s.cpc.seen && Safe(s, ConsumerStep)
    ensures var s', j', k := StepConsumer(s), AfterConsumer(s, h).j, Number(h, s.cpc.target);
      && s'.cpc == Ready(PopDiscarded) && s'.held == s.cpc.target < |s'.slots|
      && j'.claim == k && TailNo(s, h) <= k < |j'.sent| && 0 <= k && s'.slots[s'.held] == j'.sent[k]
      && j'.delivered != [] && j'.delivered[|j'.delivered| - 1] == k
      && s'.tail == Tail(s'.held, true, false)
      && (TailNo(s, h) <= h.target ==> k == h.target)
  {
    hide Reach, Published, Safe, Number, Queued;
    ReachInv(s, h);
    ReachStep(s, h, ConsumerStep);
    assert Queued(s) by { SafeQueued(s); }
    LandClaim(s, h);
    HeldContent(StepConsumer(s), AfterConsumer(s, h));
  }

  lemma SafeQueued(s: State)
    requires s.cpc.FlushJump? && s.tail == s.cpc.seen && Safe(s, ConsumerStep)
    ensures Queued(s)
  {}

  lemma LandClaim(s: State, h: Hist)
    requires Published(s, h) && s.cpc.FlushJump? && s.tail == s.cpc.seen && Queued(s)
    ensures var k := Number(h, s.cpc.target);
      && AfterConsumer(s, h).j.claim == k && AfterConsumer(s, h).j.sent == h.j.sent
      && TailNo(s, h) <= k < |h.j.sent| && (TailNo(s, h) <= h.target ==> k == h.target)
    ensures s.cpc.target < s.n <= INDEX_MASK
  {
    hide Linked, Outside, Slot, Deliveries, Contents, Producer, Number, Queued;
    QueuedNumber(s, h);
    if TailNo(s, h) <= h.target {
      SlotInjective(h, Number(h, s.cpc.target), h.target);
    }
  }

  lemma SlotInjective(h: Hist, a: int, b: int)
    requires Distinct(h.ring) && Base(h) <= a < |h.j.sent| && Base(h) <= b < |h.j.sent|
    ensures Slot(h, a) == Slot(h, b) ==> a == b
  {}

  // ---- retries ----------------------------------------------------------------------------------

  /** What a run has recorded when it goes on from s and h. */
  function Extend(s: State, h: Hist, acts: seq<Action>): (r: Hist) {
    if acts == [] then h
    else
      var before := acts[..|acts| - 1];
      After(Exec(s, before), Extend(s, h, before), acts[|acts| - 1])
  }

  /** The producer has jumped over the tail of a flush that has not noticed yet. */
  ghost predicate JumpedOver(s: State) {
    Flushing(s.cpc) && s.tail.Tail? && !s.tail.consumed
  }

  /** Each jump makes at most one attempt fail. */
  lemma RetryStep(s: State, h: Hist, a: Action)
    requires Reach(s, h)
    ensures var s', h' := Step(s, a), After(s, h, a);
      (h'.retries - h.retries) + B(JumpedOver(s')) <= (h'.overruns - h.overruns) + B(JumpedOver(s))
  {
    ReachInv(s, h);
    hide Reach, Published, StepProducer, AfterProducer, StepConsumer, AfterConsumer, JumpedOver;
    if Published(s, h) {
      match a
      case ProducerStep => RetryProducer(s, h);
      case ConsumerStep => RetryConsumer(s, h);
      case _ => RetryStart(s, h, a);
    } else {
      RetryUnpublished(s, h, a);
    }
  }

  lemma RetryUnpublished(s: State, h: Hist, a: Action)
    requires Shape(s) && Unpublished(s, h)
    ensures !JumpedOver(Step(s, a)) && After(s, h, a).retries == h.retries && After(s, h, a).overruns == h.overruns
  {}

  lemma RetryStart(s: State, h: Hist, a: Action)
    requires !a.ProducerStep? && !a.ConsumerStep?
    ensures After(s, h, a).retries == h.retries && After(s, h, a).overruns == h.overruns
    ensures JumpedOver(Step(s, a)) ==> JumpedOver(s)
  {}

  lemma RetryProducer(s: State, h: Hist)
    requires Published(s, h)
    ensures var s', h' := StepProducer(s), AfterProducer(s, h);
      h'.retries == h.retries && B(JumpedOver(s')) <= (h'.overruns - h.overruns) + B(JumpedOver(s))
  {
    hide Linked, Distinct, Outside, Slot, Deliveries, Contents, Consumer, Flags;
  }

  lemma RetryConsumer(s: State, h: Hist)
    requires Published(s, h)
    ensures var s', h' := StepConsumer(s), AfterConsumer(s, h);
      h'.overruns == h.overruns && (h'.retries - h.retries) + B(JumpedOver(s')) <= B(JumpedOver(s))
  {
    hide Linked, Distinct, Outside, Slot, Deliveries, Contents, Producer;
  }

  /**
   From any point at which the producer has not just jumped over a flush, in particular from the start of a
   flush on, the failed attempts are at most the jumps the producer makes from then on: this bounds the loop of
   every single flush.
   */
  lemma {:induction false} FlushRetries(s: State, h: Hist, acts: seq<Action>)
    requires Reach(s, h) && SafeRun(s, acts) && !JumpedOver(s)
    ensures var s', h' := Exec(s, acts), Extend(s, h, acts);
      Reach(s', h') && (h'.retries - h.retries) + B(JumpedOver(s')) <= h'.overruns - h.overruns
  {
    hide Reach, Step, After, Safe, JumpedOver;
    if acts != [] {
      var before, a := acts[..|acts| - 1], acts[|acts| - 1];
      FlushRetries(s, h, before);
      ReachStep(Exec(s, before), Extend(s, h, before), a);
      RetryStep(Exec(s, before), Extend(s, h, before), a);
    }
  }

  // ---- the head that is behind ------------------------------------------------------------------

  /** A flush loads the head of a queued message if and only if the newest message is not unannounced. */
  lemma HeadQueuedIff(s: State, h: Hist)
    requires Reach(s, h) && s.cpc.FlushLoad? && s.tail == s.cpc.seen
    ensures Queued(StepConsumer(s)) <==> !Unannounced(s)
  {
    ReachInv(s, h);
    hide Reach, Published, Queued, Number;
    HeadBehind(s, h);
    if !s.ppc.FirstHead? {
      KeepFlushLoad(s, h);
      QueuedNumber(StepConsumer(s), AfterConsumer(s, h));
      LoadedNumber(s, h);
    } else {
      NothingLoaded(s);
    }
  }

  lemma NothingLoaded(s: State)
    requires !StepConsumer(s).cpc.FlushJump?
    ensures !Queued(StepConsumer(s))
  {}

  lemma LoadedNumber(s: State, h: Hist)
    requires Published(s, h) && s.cpc.FlushLoad? && !s.ppc.FirstHead? && StepConsumer(s).cpc.FlushJump?
    ensures var k := if s.ppc.Announce? then |h.j.sent| - 2 else |h.j.sent| - 1;
      && Number(AfterConsumer(s, h), s.head) == Number(h, s.head) == k
      && TailNo(StepConsumer(s), AfterConsumer(s, h)) == TailNo(s, h) < |h.j.sent|
      && AfterConsumer(s, h).j == h.j && StepConsumer(s).cpc.target == s.head
  {
    hide Published, Number;
    HeadBehind(s, h);
    HeadNumber(s, h);
    SameNumber(h, AfterConsumer(s, h), s.head);
    TailContent(s, h);
  }

  /** A head loaded at or behind the tail stays queued until the tail moves, whatever the producer does. */
  lemma LoadedStaysQueued(s: State, h: Hist)
    requires Reach(s, h) && s.cpc.FlushJump? && s.tail == s.cpc.seen && TailNo(s, h) <= h.target
    ensures Queued(s) && Number(h, s.cpc.target) == h.target
  {
    ReachInv(s, h);
    hide Reach, Published, Queued, Number;
    TargetNumber(s, h);
    QueuedNumber(s, h);
  }

  lemma TargetNumber(s: State, h: Hist)
    requires Published(s, h) && s.cpc.FlushJump? && s.tail == s.cpc.seen && TailNo(s, h) <= h.target
    ensures Number(h, s.cpc.target) == h.target < |h.j.sent|
  {
    hide Linked, Outside, Deliveries, Contents, Producer, Number;
    NumberIs(h, h.target);
  }

  /** A flush that runs while the producer is between calls hands out the newest message. */
  lemma QuietFlush(s: State, h: Hist)
    requires Reach(s, h) && s.cpc.FlushLoad? && s.tail == s.cpc.seen && s.ppc.Idle?
    ensures var s1, h1 := StepConsumer(s), AfterConsumer(s, h);
      var s2, h2 := StepConsumer(s1), AfterConsumer(s1, h1);
      && Safe(s, ConsumerStep) && s1.cpc.FlushJump? && s1.tail == s1.cpc.seen && Safe(s1, ConsumerStep)
      && s2.cpc == Ready(PopDiscarded) && s2.ppc.Idle? && s2.held < |s2.slots|
      && h2.j.sent == h.j.sent && 0 <= h2.j.claim == |h.j.sent| - 1 && s2.slots[s2.held] == h.j.sent[h2.j.claim]
  {
    hide Reach, AfterConsumer, Queued, Number;
    var s1, h1 := StepConsumer(s), AfterConsumer(s, h);
    FlushLoadsNewest(s, h);
    ReachStep(s, h, ConsumerStep);
    SameJournal(s, h);
    LoadedStaysQueued(s1, h1);
    FlushLands(s1, h1);
    SameSent(s1, h1);
  }

  lemma SameJournal(s: State, h: Hist)
    requires s.cpc.FlushLoad?
    ensures AfterConsumer(s, h).j == h.j && TailNo(StepConsumer(s), AfterConsumer(s, h)) == TailNo(s, h)
  {}

  lemma SameSent(s: State, h: Hist)
    ensures AfterConsumer(s, h).j.sent == h.j.sent
  {}

  /**
   A consumer that is on a newer message than the announced one and flushes undisturbed is sent back: it is
   handed the message before the one it had, and the tail goes back with it.
   */
  lemma StaleGoesBack(s: State, h: Hist)
    requires Reach(s, h) && s.cpc.FlushLoad? && s.tail == s.cpc.seen && s.ppc.Announce? && Unannounced(s)
    ensures Base(h) <= |h.j.sent| - 2 && h.j.claim == |h.j.sent| - 1
    ensures var s' := StepConsumer(StepConsumer(s));
      && s'.cpc == Ready(PopDiscarded) && s'.held == Slot(h, |h.j.sent| - 2)
      && s'.tail == Tail(s'.held, true, false)
  {
    ReachInv(s, h);
    hide Reach, Published;
    HeadBehind(s, h);
    OnNewest(s, h);
  }

  lemma OnNewest(s: State, h: Hist)
    requires Published(s, h) && s.cpc.FlushLoad? && s.tail == s.cpc.seen
    ensures h.j.claim == TailNo(s, h)
  {
    hide Linked, Distinct, Outside, Slot, Deliveries, Contents, Producer;
  }

  /** Where the loaded slot stands if it is not queued: it is the producer's own, or lies before the tail. */
  lemma Unqueued(s: State, h: Hist)
    requires Reach(s, h) && s.cpc.FlushJump? && s.tail == s.cpc.seen && !Queued(s)
    ensures var k := Number(h, s.cpc.target);
      || (!Linking(s.ppc) && s.cpc.target == s.current)
      || (Base(h) <= k < TailNo(s, h) == h.j.claim && k < |h.j.sent| && Slot(h, k) == s.cpc.target)
  {
    ReachInv(s, h);
    hide Reach, Published, Queued, Number;
    QueuedNumber(s, h);
    NotInRing(s, h);
  }

  lemma NotInRing(s: State, h: Hist)
    requires Published(s, h) && s.cpc.FlushJump? && s.tail == s.cpc.seen
    ensures TailNo(s, h) == h.j.claim
    ensures Number(h, s.cpc.target) >= |h.j.sent| ==> !Linking(s.ppc) && s.cpc.target == s.current
  {
    hide Linked, Slot, Deliveries, Contents;
    var x := s.cpc.target;
    if Number(h, x) >= |h.j.sent| {
      var own := if Linking(s.ppc) then [] else [s.current];
      var all := h.ring + own + (if Overrun(s) then [s.overrun] else []);
      RingBelow(s, h);
      Pigeonhole(all, s.n, x);
    }
  }

  lemma RingBelow(s: State, h: Hist)
    requires Shape(s) && Ring(s, h)
    ensures forall i :: 0 <= i < |h.ring| ==> h.ring[i] < s.n
  {}

  /**
   Delivery order under flush, for every compare-exchange of one that succeeds. A slot that is linked holds its
   message, which is at or after the last one claimed if and only if the slot is queued; otherwise an older message
   is handed out. A slot that is not linked is the producer's own.
   */
  lemma LandingOrder(s: State, h: Hist)
    requires Reach(s, h) && s.cpc.FlushJump? && s.tail == s.cpc.seen
    ensures var s', k := StepConsumer(s), Number(h, s.cpc.target);
      && s'.cpc == Ready(PopDiscarded) && s'.held < |s'.slots|
      && (Queued(s) <==> h.j.claim <= k < |h.j.sent|)
      && (k < |h.j.sent| ==> Base(h) <= k && 0 <= k && s'.held == Slot(h, k) && s'.slots[s'.held] == h.j.sent[k])
      && (k >= |h.j.sent| ==> !Linking(s'.ppc) && s'.held == s'.current)
  {
    ReachInv(s, h);
    hide Reach, Published, Queued, Number;
    QueuedNumber(s, h);
    NotInRing(s, h);
    RingContent(s, h);
  }

  lemma RingContent(s: State, h: Hist)
    requires Published(s, h) && s.cpc.FlushJump?
    ensures s.cpc.target < |s.slots|
    ensures var k := Number(h, s.cpc.target);
      k < |h.j.sent| ==> 0 <= k && Base(h) <= k && s.slots[s.cpc.target] == h.j.sent[k]
  {
    hide Linked, Distinct, Outside, Deliveries, Producer, Number, Queued;
    QueuedNumber(s, h);
  }

  /**
   A successful flush hands out a message that was handed out before, and then nothing is recorded, if and only if
   it lands on the message delivered last.
   */
  lemma RepeatIff(s: State, h: Hist)
    requires Reach(s, h) && s.cpc.FlushJump? && s.tail == s.cpc.seen && Safe(s, ConsumerStep)
    ensures var j, k := h.j, Number(h, s.cpc.target);
      && (AfterConsumer(s, h).j == j <==> j.delivered != [] && j.delivered[|j.delivered| - 1] == k)
      && (AfterConsumer(s, h).j == j <==> k in j.delivered)
  {
    ReachInv(s, h);
    hide Reach, Published, Queued, Number, Safe;
    assert Queued(s) by { SafeQueued(s); }
    LandClaim(s, h);
    LandRepeats(s, h);
  }

  lemma LandRepeats(s: State, h: Hist)
    requires Published(s, h) && s.cpc.FlushJump? && s.tail == s.cpc.seen
    requires TailNo(s, h) <= Number(h, s.cpc.target)
    ensures var j, k := h.j, Number(h, s.cpc.target);
      && (AfterConsumer(s, h).j == j <==> j.delivered != [] && j.delivered[|j.delivered| - 1] == k)
      && (k in j.delivered <==> j.delivered != [] && j.delivered[|j.delivered| - 1] == k)
  {
    hide Linked, Distinct, Outside, Slot, Contents, Producer, Number;
  }

  // ---- the flag that is lost --------------------------------------------------------------------

  /**
   A compare-exchange of a flush that succeeds keeps the invariant if and only if the loaded slot is queued and
   the FIRST flag is not taken from a waiting producer.
   */
  lemma LandingIff(s: State, h: Hist)
    requires Reach(s, h) && s.cpc.FlushJump? && s.tail == s.cpc.seen
    ensures Inv(StepConsumer(s), AfterConsumer(s, h)) <==> Queued(s) && !FirstLost(s)
  {
    ReachInv(s, h);
    hide Reach, Published, Queued, FirstLost;
    if !Queued(s) {
      LostOrder(s, h);
    } else if FirstLost(s) {
      LostFlag(s, h);
    } else {
      KeepFlushJump(s, h);
    }
  }

  lemma LostOrder(s: State, h: Hist)
    requires Published(s, h) && s.cpc.FlushJump? && s.tail == s.cpc.seen && !Queued(s)
    ensures !Published(StepConsumer(s), AfterConsumer(s, h))
  {
    hide Linked, Outside, Slot, Deliveries, Contents, Producer, Number, Queued;
    QueuedNumber(s, h);
    TailNumber(s, h);
    SameSlots(h, AfterConsumer(s, h));
  }

  lemma TailNumber(s: State, h: Hist)
    requires Shape(s) && Ring(s, h)
    ensures Number(h, s.tail.idx) == TailNo(s, h)
  {
    hide Linked, Outside;
    NumberIs(h, TailNo(s, h));
  }

  lemma LostFlag(s: State, h: Hist)
    requires Published(s, h) && FirstLost(s)
    ensures !Published(StepConsumer(s), AfterConsumer(s, h))
    ensures s.ppc.seen.Tail? && s.ppc.seen.idx == s.tail.idx && s.ppc.seen.first
  {
    hide Linked, Outside, Distinct, Slot, Deliveries, Contents, Number;
    TailNumber(s, h);
  }

  /** The state after the producer has taken its next k steps undisturbed. */
  function Undisturbed(s: State, k: nat): (r: State) {
    if k == 0 then s else StepProducer(Undisturbed(s, k - 1))
  }

  /** Where the flag is lost the producer, in at most two steps, goes on to write the slot handed to the consumer. */
  lemma FirstLostCollides(s: State, h: Hist)
    requires Reach(s, h) && FirstLost(s)
    ensures var s' := Undisturbed(StepConsumer(s), if s.ppc.MoveTail? then 2 else 1);
      s'.ppc == Idle(PushSuccess) && s'.cpc == Ready(PopDiscarded) && s'.current == s'.held < s'.n
  {
    ReachInv(s, h);
    hide Reach, Published, Undisturbed, StepProducer;
    LostFlag(s, h);
    TailContent(s, h);
    UsesSlot(StepConsumer(s), s.tail.idx);
  }

  /** A producer that waits for FIRST on slot x, and finds the tail there without it, uses the slot. */
  lemma UsesSlot(s: State, x: nat)
    requires s.tail == Tail(x, true, false) && (s.ppc.MoveTail? || s.ppc.JumpTail?)
    requires s.ppc.seen.Tail? && s.ppc.seen.idx == x && s.ppc.seen.first
    ensures var s' := Undisturbed(s, if s.ppc.MoveTail? then 2 else 1);
      s'.ppc == Idle(PushSuccess) && s'.current == x && s'.cpc == s.cpc && s'.held == s.held && s'.n == s.n
  {
    assert Undisturbed(s, 1) == StepProducer(s);
    assert Undisturbed(s, 2) == StepProducer(StepProducer(s));
  }

  // ---- the head that is not there yet -----------------------------------------------------------

  /**
   A flush between the two stores that publish the first message returns ERROR. If the consumer had no message
   before, it is stranded: the tail is flagged as consumed by it, and it has no slot.
   */
  lemma FlushStrands(s: State, h: Hist)
    requires Reach(s, h) && s.cpc.FlushLoad?
    ensures StepConsumer(s).cpc == Ready(PopError) <==> s.ppc.FirstHead?
    ensures s.ppc.FirstHead? && s.held == INVALID ==> Stranded(StepConsumer(s)) && StepConsumer(s).tail.IsConsumed()
  {
    hide Reach;
    ReachInv(s, h);
    PopErrorIff(s, h, ConsumerStep);
    if s.ppc.FirstHead? {
      ClaimedFirst(s, h);
    }
  }

  lemma ClaimedFirst(s: State, h: Hist)
    requires Inv(s, h) && s.cpc.FlushLoad? && s.ppc.FirstHead?
    ensures s.tail.IsConsumed()
  {
    hide Linked, Distinct, Outside, Slot, Deliveries, Contents;
  }

  /** A stranded consumer stays so, and pops change nothing at all, until a push discards a message. */
  lemma StrandedStep(s: State, h: Hist, a: Action)
    requires Reach(s, h) && Stranded(s) && s.tail.IsConsumed() && !a.Flush?
    ensures Discards(s, a) || (Stranded(Step(s, a)) && Step(s, a).tail == s.tail)
    ensures a.Pop? ==> Step(s, a) == s
  {
    ReachInv(s, h);
    hide Reach, StepProducer, AfterProducer, Published;
    if a.ProducerStep? && Published(s, h) {
      OnlyDiscards(s, h);
    } else if a.Pop? && Published(s, h) {
      TailContent(s, h);
    }
  }

  lemma OnlyDiscards(s: State, h: Hist)
    requires Published(s, h)
    ensures StepProducer(s).held == s.held && StepProducer(s).cpc == s.cpc
    ensures StepProducer(s).tail == s.tail || Discards(s, ProducerStep)
  {
    hide Linked, Distinct, Outside, Slot, Deliveries, Contents, Consumer;
  }

  /** No step of the run ends a force_push with DISCARDED. */
  predicate NoDiscards(s: State, acts: seq<Action>) {
    acts != [] ==>
      var before := acts[..|acts| - 1];
      NoDiscards(s, before) && !Discards(Exec(s, before), acts[|acts| - 1])
  }

  /** However the run goes on, without another flush and until a message is discarded every pop returns ERROR. */
  lemma {:induction false} StrandedRun(s: State, h: Hist, acts: seq<Action>)
    requires Reach(s, h) && Stranded(s) && s.tail.IsConsumed() && Flush !in acts && NoDiscards(s, acts)
    ensures var s' := Exec(s, acts);
      Reach(s', Extend(s, h, acts)) && Stranded(s') && s'.tail == s.tail && Step(s', Pop) == s'
  {
    hide Reach, Step, After, Safe, Discards, Stranded;
    if acts != [] {
      var before, a := acts[..|acts| - 1], acts[|acts| - 1];
      assert a in acts && forall b :: b in before ==> b in acts;
      StrandedRun(s, h, before);
      StrandedStep(Exec(s, before), Extend(s, h, before), a);
      StrandedSafe(Exec(s, before), a);
      ReachStep(Exec(s, before), Extend(s, h, before), a);
    }
    StrandedStep(Exec(s, acts), Extend(s, h, acts), Pop);
  }

  lemma StrandedSafe(s: State, a: Action)
    requires Stranded(s) && !a.Flush?
    ensures Safe(s, a)
  {}
}
