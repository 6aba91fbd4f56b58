/**
 Exclusive slots under flush: exactly when a compare-exchange of a flush leaves both sides with one slot.
 */
module Collisions {
  import opened Index
  import opened Queue
  import opened History
  import opened Invariant
  import opened RingLemmas
  import opened ProducerSteps
  import opened ConsumerSteps
  import opened Runs
  import opened Guarantees
  import opened Progress
  import opened Flushes

  /** The producer has found room by try_push and will go on to the slot x. */
  predicate GoesTo(pc: ProducerPc, x: nat) {
    (pc.Clear? || pc.Link? || pc.Announce?) && pc.purpose.TryPlain? && pc.next == x
  }

  /** The producer compares the tail with a value for slot x that carries FIRST. */
  predicate ExpectsFirst(pc: ProducerPc, x: nat) {
    (pc.MoveTail? || pc.JumpTail?) && pc.seen.Tail? && pc.seen.first && pc.seen.idx == x
  }

  /**
   What makes both sides end up with one slot, seen when a flush swings the tail: the loaded slot is the
   producer's and it is between calls, or a try_push has already chosen it, or a force_push is waiting for a tail
   on it that carries FIRST.
   */
  predicate Collides(s: State)
    requires s.cpc.FlushJump?
  {
    || (s.ppc.Idle? && s.current == s.cpc.target)
    || GoesTo(s.ppc, s.cpc.target)
    || ExpectsFirst(s.ppc, s.cpc.target)
  }

  // ---- the rest of a push, with the consumer on x -----------------------------------------------

  /** The consumer holds slot x by a plain consumed tail, and the producer's words are in order. */
  ghost predicate Settled(s: State, x: nat) {
    && s.tail == Tail(x, true, false) && x < s.n == |s.chain| == |s.localChain| <= INDEX_MASK
    && s.overrun != x && s.localChain[x] != x
  }

  lemma FinishStep(s: State)
    requires !s.ppc.Idle?
    ensures Finish(s) == Finish(StepProducer(s))
  {}

  lemma FinishIdle(s: State)
    requires s.ppc.Idle?
    ensures Finish(s) == s
  {}

  lemma {:induction false} FinishKeeps(s: State)
    ensures Finish(s).held == s.held && Finish(s).cpc == s.cpc && Finish(s).n == s.n
    decreases PushRank(s.ppc)
  {
    if !s.ppc.Idle? {
      PushStepRanks(s);
      FinishKeeps(StepProducer(s));
    }
  }

  lemma RequeueMisses(s: State, x: nat)
    requires Settled(s, x) && s.ppc.Requeue?
    ensures Finish(s).current != x
  {
    hide Finish;
    FinishStep(s);
    FinishIdle(StepProducer(s));
  }

  lemma JumpMisses(s: State, x: nat)
    requires Settled(s, x) && s.ppc.JumpTail? && s.ppc.seen.Tail? && s.ppc.seen.consumed
    ensures Finish(s).current == x <==> ExpectsFirst(s.ppc, x)
  {
    hide Finish;
    FinishStep(s);
    FinishIdle(StepProducer(s));
  }

  lemma MoveMisses(s: State, x: nat)
    requires Settled(s, x) && (s.ppc.MoveTail? || s.ppc.MoveOverrun?) && s.ppc.seen.Tail? && !s.ppc.seen.consumed
    ensures Finish(s).current == x <==> ExpectsFirst(s.ppc, x)
  {
    hide Finish;
    FinishStep(s);
    var t := StepProducer(s);
    if s.ppc.MoveTail? {
      JumpMisses(t, x);
    } else {
      RequeueMisses(t, x);
    }
  }

  lemma LoadMisses(s: State, x: nat)
    requires Settled(s, x) && s.ppc.LoadTail?
    ensures Finish(s).current != x
  {
    hide Finish;
    FinishStep(s);
    var t := StepProducer(s);
    if t.ppc.Idle? {
      FinishIdle(t);
    } else if t.ppc.Requeue? {
      RequeueMisses(t, x);
    } else {
      JumpMisses(t, x);
    }
  }

  lemma AnnounceMisses(s: State, x: nat)
    requires Settled(s, x) && s.ppc.Announce?
    ensures Finish(s).current == x <==> GoesTo(s.ppc, x)
  {
    hide Finish;
    FinishStep(s);
    var t := StepProducer(s);
    match s.ppc.purpose
    case Force => LoadMisses(t, x);
    case TryPlain => FinishIdle(t);
    case TryOverrun => RequeueMisses(t, x);
  }

  lemma LinkMisses(s: State, x: nat)
    requires Settled(s, x) && s.ppc.Link? && s.last < s.n && s.current != s.last
    ensures Finish(s).current == x <==> GoesTo(s.ppc, x)
  {
    hide Finish;
    FinishStep(s);
    AnnounceMisses(StepProducer(s), x);
  }

  lemma ClearMisses(s: State, x: nat)
    requires Settled(s, x) && s.ppc.Clear? && s.last < s.n && s.current != s.last
    ensures Finish(s).current == x <==> GoesTo(s.ppc, x)
  {
    hide Finish;
    FinishStep(s);
    LinkMisses(StepProducer(s), x);
  }

  // ---- the landing ------------------------------------------------------------------------------

  /** What the invariant says about the producer when a flush swings the tail to x. */
  lemma Landed(s: State, h: Hist)
    requires Published(s, h) && s.cpc.FlushJump? && s.tail == s.cpc.seen
    ensures Settled(StepConsumer(s), s.cpc.target) && !s.ppc.FirstHead? && !s.ppc.FirstTail?
    ensures s.ppc.Clear? || s.ppc.Link? ==> s.last < s.n && s.current != s.last
    ensures s.ppc.MoveTail? || s.ppc.MoveOverrun? ==> s.ppc.seen.Tail? && !s.ppc.seen.consumed
    ensures s.ppc.JumpTail? ==> s.ppc.seen.Tail? && s.ppc.seen.consumed
  {
    hide Slot, Deliveries, Contents, Flags, Number;
    NotInRing(s, h);
    NoSelfLink(s, h, s.cpc.target);
  }

  /** No slot is linked to itself. */
  lemma NoSelfLink(s: State, h: Hist, x: nat)
    requires Published(s, h) && x < s.n && x != s.overrun
    requires Number(h, x) >= |h.j.sent| ==> !Linking(s.ppc) && x == s.current
    ensures s.localChain[x] != x
  {
    hide Slot, Deliveries, Contents, Flags, Consumer;
    if Number(h, x) < |h.j.sent| {
      Successor(s.chain, h.ring, Find(h.ring, x));
    }
  }

  /**
   Exclusive slots under flush. Let a flush swing the tail, wherever the producer is, and let the producer finish
   its call: then both sides have one slot if and only if Collides held when the tail was swung.
   */
  lemma CollisionIff(s: State, h: Hist)
    requires Reach(s, h) && s.cpc.FlushJump? && s.tail == s.cpc.seen
    ensures var s' := Finish(StepConsumer(s));
      && s'.ppc.Idle? && s'.cpc == Ready(PopDiscarded) && s'.held == s.cpc.target
      && (s'.current == s'.held <==> Collides(s))
  {
    ReachInv(s, h);
    hide Reach, Published, Finish, Settled;
    Landed(s, h);
    var t, x := StepConsumer(s), s.cpc.target;
    FinishKeeps(t);
    match t.ppc
    case Idle(_) => FinishIdle(t);
    case Clear(_, _) => ClearMisses(t, x);
    case Link(_, _) => LinkMisses(t, x);
    case Announce(_, _) => AnnounceMisses(t, x);
    case LoadTail(_) => LoadMisses(t, x);
    case MoveOverrun(_, _) => MoveMisses(t, x);
    case Requeue(_) => RequeueMisses(t, x);
    case MoveTail(_, _) => MoveMisses(t, x);
    case JumpTail(_) => JumpMisses(t, x);
  }

  /** On a queued slot only the lost FIRST flag makes the sides collide, on any other only the first two cases do. */
  lemma CollidesWhere(s: State, h: Hist)
    requires Reach(s, h) && s.cpc.FlushJump? && s.tail == s.cpc.seen
    ensures ExpectsFirst(s.ppc, s.cpc.target) <==> FirstLost(s)
    ensures Queued(s) ==> (Collides(s) <==> FirstLost(s))
    ensures !Queued(s) ==>
      (Collides(s) <==> (s.ppc.Idle? && s.current == s.cpc.target) || GoesTo(s.ppc, s.cpc.target))
  {
    ReachInv(s, h);
    hide Reach, Published, Queued, Number;
    QueuedNumber(s, h);
    Waits(s, h);
    if Queued(s) {
      Chosen(s, h);
    }
  }

  /** A producer that waits for FIRST on the loaded slot waits for the tail that is there. */
  lemma Waits(s: State, h: Hist)
    requires Published(s, h) && s.cpc.FlushJump? && s.tail == s.cpc.seen
    ensures ExpectsFirst(s.ppc, s.cpc.target) <==> FirstLost(s)
    ensures FirstLost(s) ==> TailNo(s, h) <= Number(h, s.cpc.target) < |h.j.sent|
  {
    hide Linked, Outside, Deliveries, Contents, Number;
    TailNumber(s, h);
    if ExpectsFirst(s.ppc, s.cpc.target) {
      TargetNumber(s, h);
      NumberIs(h, Base(h));
    }
  }

  /** A queued slot is neither the producer's nor the one a try_push has chosen. */
  lemma Chosen(s: State, h: Hist)
    requires Published(s, h) && s.cpc.FlushJump? && s.tail == s.cpc.seen
    requires TailNo(s, h) <= Number(h, s.cpc.target) < |h.j.sent|
    ensures !(s.ppc.Idle? && s.current == s.cpc.target) && !GoesTo(s.ppc, s.cpc.target)
  {
    hide Linked, Deliveries, Contents, Number;
    InRing(h, s.cpc.target);
    NumberIs(h, Base(h));
  }

  lemma InRing(h: Hist, x: nat)
    requires Number(h, x) < |h.j.sent|
    ensures Base(h) <= Number(h, x) && x == Slot(h, Number(h, x)) && x in h.ring
  {}

  // ---- after the landing ------------------------------------------------------------------------

  /** The deliveries of messages before number k. */
  function Below(delivered: seq<nat>, k: nat): (r: seq<nat>)
    ensures r <= delivered
  {
    if delivered == [] || delivered[|delivered| - 1] < k then delivered else Below(delivered[..|delivered| - 1], k)
  }

  lemma {:induction false} BelowIs(delivered: seq<nat>, k: nat)
    requires forall i, j :: 0 <= i < j < |delivered| ==> delivered[i] < delivered[j]
    ensures forall x :: x in Below(delivered, k) <==> x in delivered && x < k
  {
    if delivered != [] {
      var last := |delivered| - 1;
      if delivered[last] >= k {
        BelowIs(delivered[..last], k);
        assert forall x :: x in delivered <==> x in delivered[..last] || x == delivered[last];
      } else {
        assert forall i :: 0 <= i < |delivered| ==> delivered[i] <= delivered[last];
      }
    }
  }

  /** The journal as if message k had just been delivered and nothing after it yet. */
  function Rewound(j: Journal, k: nat): (r: Journal)
    requires k < |j.log| && k < |j.sent| && |j.received| == |j.delivered|
  {
    var before := Below(j.delivered, k);
    j.(log := j.log[..k] + [Delivered], claim := k, delivered := before + [k],
       received := j.received[..|before|] + [j.sent[k]])
  }

  lemma RewoundDeliveries(j: Journal, k: nat, flushing: bool)
    requires Deliveries(j, flushing) && k < |j.log| && k < |j.sent|
    ensures Deliveries(Rewound(j, k), false)
  {
    var r, before := Rewound(j, k), Below(j.delivered, k);
    BelowIs(j.delivered, k);
    hide Below;
    assert forall i :: 0 <= i < |before| ==> before[i] == j.delivered[i] && before[i] in before;
    RewoundMarks(j, r, before, k);
  }

  lemma RewoundMarks(j: Journal, r: Journal, before: seq<nat>, k: nat)
    requires k < |j.log| && r.log == j.log[..k] + [Delivered] && r.delivered == before + [k]
    requires forall x :: 0 <= x < |j.log| ==> (j.log[x] == Delivered <==> x in j.delivered)
    requires forall x :: x in before <==> x in j.delivered && x < k
    ensures forall x :: 0 <= x < |r.log| ==> (r.log[x] == Delivered <==> x in r.delivered)
  {
    assert forall x :: x in r.delivered <==> x in before || x == k;
  }

  /**
   A flush that hands out an older message and makes the sides collide nowhere leaves the queue as if that message
   had just been taken: the invariant holds with the journal rewound to it.
   */
  lemma GoesBackCleanly(s: State, h: Hist)
    requires Reach(s, h) && s.cpc.FlushJump? && s.tail == s.cpc.seen && !Collides(s)
    requires Number(h, s.cpc.target) < h.j.claim
    ensures 0 <= Number(h, s.cpc.target) < |h.j.log| && Number(h, s.cpc.target) < |h.j.sent|
    ensures |h.j.received| == |h.j.delivered|
    ensures Inv(StepConsumer(s), h.(j := Rewound(h.j, Number(h, s.cpc.target))))
  {
    ReachInv(s, h);
    hide Reach, Published, Queued, Number, Rewound;
    LandingOrder(s, h);
    LandedBack(s, h);
  }

  lemma LandedBack(s: State, h: Hist)
    requires Published(s, h) && s.cpc.FlushJump? && s.tail == s.cpc.seen && !Collides(s)
    requires 0 <= Number(h, s.cpc.target) < h.j.claim && Number(h, s.cpc.target) < |h.j.sent|
    ensures Number(h, s.cpc.target) < |h.j.log| && |h.j.received| == |h.j.delivered|
    ensures Published(StepConsumer(s), h.(j := Rewound(h.j, Number(h, s.cpc.target))))
  {
    hide Linked, Distinct, Outside, Slot, Deliveries, Number, Queued, Producer, Collides;
    var k := Number(h, s.cpc.target);
    QueuedNumber(s, h);
    SameCounts(h.j, Unsettled(s));
    RewoundDeliveries(h.j, k, Unsettled(s));
    var h' := h.(j := Rewound(h.j, k));
    SameSlots(h, h');
    BackProducer(s, h, k, h');
  }

  lemma SameCounts(j: Journal, flushing: bool)
    requires Deliveries(j, flushing)
    ensures |j.received| == |j.delivered|
  {}

  /** The producer does not mind: what it has found out stays true. */
  lemma BackProducer(s: State, h: Hist, k: nat, h': Hist)
    requires Published(s, h) && s.cpc.FlushJump? && s.tail == s.cpc.seen && !Collides(s)
    requires k == Number(h, s.cpc.target) < h.j.claim && Base(h) <= k < |h.j.sent| && Slot(h, k) == s.cpc.target
    requires h' == h.(j := h'.j) && h'.j.sent == h.j.sent && |h'.j.log| == k + 1
    ensures Shape(StepConsumer(s)) && Ring(StepConsumer(s), h') && Producer(StepConsumer(s), h')
  {
    hide Linked, Distinct, Outside, Slot, Deliveries, Contents, Number;
    SameSlots(h, h');
    FrontSlot(h, k);
    NotLoaded(s, h);
  }

  lemma FrontSlot(h: Hist, k: int)
    requires Base(h) <= k < |h.j.sent| && h.ring != []
    ensures k == Base(h) ==> Slot(h, k) == h.ring[0]
  {}

  /** A slot before the tail was loaded while it was behind: no producer waits for FIRST since. */
  lemma NotLoaded(s: State, h: Hist)
    requires Published(s, h) && s.cpc.FlushJump? && s.tail == s.cpc.seen && Number(h, s.cpc.target) < TailNo(s, h)
    ensures h.target < TailNo(s, h)
  {
    hide Linked, Outside, Deliveries, Contents, Producer, Number;
    if TailNo(s, h) <= h.target {
      NumberIs(h, h.target);
    }
  }

  /**
   A flush that hands out the message being pushed, before it is linked, comes to the same as one that does so
   afterwards: once the message is linked, undisturbed, the state is one of a safe run.
   */
  lemma HandedEarly(s: State, h: Hist)
    requires Reach(s, h) && s.cpc.FlushJump? && s.tail == s.cpc.seen && s.cpc.target == s.current
    requires s.ppc.Clear? || s.ppc.Link?
    ensures exists h' :: Reach(UntilLinked(StepConsumer(s)), h')
    decreases s.ppc.Clear?
  {
    hide Reach, After;
    var s1, h1 := StepProducer(s), After(s, h, ProducerStep);
    ReachStep(s, h, ProducerStep);
    Commutes(s);
    if s.ppc.Clear? {
      HandedEarly(s1, h1);
    } else {
      LinkQueues(s, h);
      ReachStep(s1, h1, ConsumerStep);
    }
  }

  /** The state once the message being pushed is linked, if one is. */
  function UntilLinked(s: State): (r: State)
    decreases PushRank(s.ppc)
  {
    PushStepRanks(s);
    if s.ppc.Clear? || s.ppc.Link? then UntilLinked(StepProducer(s)) else s
  }

  /** Swinging the tail and linking a message do not touch the same words. */
  lemma Commutes(s: State)
    requires s.cpc.FlushJump? && s.tail == s.cpc.seen && (s.ppc.Clear? || s.ppc.Link?)
    ensures StepProducer(StepConsumer(s)) == StepConsumer(StepProducer(s))
    ensures UntilLinked(StepConsumer(s)) == UntilLinked(StepConsumer(StepProducer(s)))
    ensures s.ppc.Link? ==> UntilLinked(StepConsumer(s)) == StepConsumer(StepProducer(s))
    ensures StepProducer(s).cpc == s.cpc && StepProducer(s).tail == s.tail && StepProducer(s).current == s.current
    ensures s.ppc.Clear? ==> StepProducer(s).ppc.Link?
  {}

  /** Once linked, the slot is queued, and nobody waits for FIRST. */
  lemma LinkQueues(s: State, h: Hist)
    requires Reach(s, h) && s.cpc.FlushJump? && s.tail == s.cpc.seen && s.cpc.target == s.current && s.ppc.Link?
    ensures Safe(StepProducer(s), ConsumerStep)
  {
    var s1, h1 := StepProducer(s), AfterProducer(s, h);
    ReachInv(s, h);
    hide Reach, Published, Queued, Number;
    KeepStepProducer(s, h);
    QueuedNumber(s1, h1);
    NewestNumber(s1, h1);
  }

  lemma NewestNumber(s: State, h: Hist)
    requires Published(s, h) && s.ppc.Announce?
    ensures Number(h, s.current) == |h.j.sent| - 1 >= TailNo(s, h)
  {
    hide Outside, Deliveries, Contents, Consumer, Number;
    NumberIs(h, |h.j.sent| - 1);
  }

  /**
   Unless the sides collide, a flush leaves the queue intact wherever it swings the tail: once the message being
   pushed, if any, is linked, the invariant holds again for some history.
   */
  lemma RecoversUnlessCollides(s: State, h: Hist)
    requires Reach(s, h) && s.cpc.FlushJump? && s.tail == s.cpc.seen && !Collides(s)
    ensures exists h' :: Inv(UntilLinked(StepConsumer(s)), h')
  {
    hide Reach, Inv, Number, Queued, FirstLost, Rewound, UntilLinked;
    var s1, k := StepConsumer(s), Number(h, s.cpc.target);
    LandingOrder(s, h);
    CollidesWhere(s, h);
    if k >= |h.j.sent| {
      OwnSlotInPush(s, h);
      HandedEarly(s, h);
      var h' :| Reach(UntilLinked(s1), h');
      ReachInv(UntilLinked(s1), h');
    } else {
      var h1: Hist;
      if k < h.j.claim {
        GoesBackCleanly(s, h);
        h1 := h.(j := Rewound(h.j, k));
      } else {
        LandingIff(s, h);
        h1 := AfterConsumer(s, h);
      }
      KeepsUntilLinked(s1, h1);
    }
  }

  /** A producer that is not between calls, on a slot that is not linked, is about to link it. */
  lemma OwnSlotInPush(s: State, h: Hist)
    requires Reach(s, h) && !Linking(s.ppc) && !s.ppc.Idle? && s.cpc.FlushJump?
    ensures s.ppc.Clear? || s.ppc.Link?
  {
    ReachInv(s, h);
    hide Reach, Linked, Distinct, Outside, Slot, Deliveries, Contents;
  }

  lemma {:induction false} KeepsUntilLinked(s: State, h: Hist)
    requires Inv(s, h)
    ensures exists h' :: Inv(UntilLinked(s), h')
    decreases PushRank(s.ppc)
  {
    hide Inv, StepProducer, AfterProducer;
    PushStepRanks(s);
    if s.ppc.Clear? || s.ppc.Link? {
      StepInv(s, h, ProducerStep);
      KeepsUntilLinked(StepProducer(s), AfterProducer(s, h));
      assert UntilLinked(s) == UntilLinked(StepProducer(s));
    } else {
      assert UntilLinked(s) == s;
    }
  }

  /** From such a state on every run, with safe flushes, keeps the slots exclusive. */
  lemma {:induction false} ExclusiveAfter(s: State, h: Hist, acts: seq<Action>)
    requires Inv(s, h) && SafeRun(s, acts)
    ensures var s', h' := Exec(s, acts), Extend(s, h, acts);
      Inv(s', h') && (s'.ppc.Idle? && s'.cpc.Ready? ==> s'.current != s'.held)
  {
    hide Inv, Step, After, Safe;
    if acts != [] {
      var before, a := acts[..|acts| - 1], acts[|acts| - 1];
      ExclusiveAfter(s, h, before);
      StepInv(Exec(s, before), Extend(s, h, before), a);
    }
    InvExclusive(Exec(s, acts), Extend(s, h, acts));
  }
}
