/**
 What the queue promises its two users, for every reachable state and every step from one.
 */
module Guarantees {
  import opened Index
  import opened Queue
  import opened History
  import opened Invariant
  import opened RingLemmas
  import opened ProducerSteps
  import opened ConsumerSteps
  import opened Runs

  // ---- exclusive slots, contents ----------------------------------------------------------------

  lemma InvExclusive(s: State, h: Hist)
    requires Inv(s, h)
    ensures s.ppc.Idle? && s.cpc.Ready? ==>
      s.current < s.n && s.held != s.current && (s.held == INVALID || s.held < s.n)
  {
    hide Deliveries, Contents, Distinct;
    if Published(s, h) && s.ppc.Idle? && s.tail.consumed {
      SlotsOutside(s, h, s.current);
    }
  }

  /** Between calls the slot the producer writes is never the slot the consumer reads. */
  lemma ExclusiveSlots(s: State, h: Hist)
    requires Reach(s, h) && s.ppc.Idle? && s.cpc.Ready?
    ensures s.current < s.n
    ensures s.held != s.current
    ensures s.held == INVALID || s.held < s.n
  {
    hide Reach, Inv;
    ReachInv(s, h);
    InvExclusive(s, h);
  }

  /**
   Between its calls the consumer finds exactly what was pushed as message number `claim`, the last one
   delivered to it.
   */
  lemma HeldContent(s: State, h: Hist)
    requires Reach(s, h) && s.cpc.Ready? && s.held != INVALID
    ensures s.held < |s.slots| && 0 <= h.j.claim < |h.j.sent|
    ensures s.slots[s.held] == h.j.sent[h.j.claim]
    ensures h.j.delivered != [] && h.j.delivered[|h.j.delivered| - 1] == h.j.claim
  {
    ReachInv(s, h);
    hide Reach, Linked, Distinct, Outside, Slot, Producer, Deliveries;
    TailContent(s, h);
    LastDelivered(h.j);
  }

  lemma LastDelivered(j: Journal)
    requires Deliveries(j, false) && j.claim >= 0
    ensures j.delivered != [] && j.delivered[|j.delivered| - 1] == j.claim
  {}

  /** No number of producer steps, however they interleave, changes what the consumer is reading. */
  lemma {:induction false} ContentStable(s: State, h: Hist, acts: seq<Action>)
    requires Reach(s, h) && s.cpc.Ready? && s.held != INVALID && s.held < |s.slots|
    requires forall a :: a in acts ==> ProducerAction(a)
    ensures var s' := Exec(s, acts);
      s'.held == s.held && s.held < |s'.slots| && s'.slots[s.held] == s.slots[s.held]
    ensures exists h' :: Reach(Exec(s, acts), h') && h.j.sent <= h'.j.sent && h'.j.claim == h.j.claim
    ensures Exec(s, acts).cpc == s.cpc
  {
    if acts == [] {
    } else {
      var before, a := acts[..|acts| - 1], acts[|acts| - 1];
      ContentStable(s, h, before);
      var t := Exec(s, before);
      var g :| Reach(t, g) && h.j.sent <= g.j.sent && g.j.claim == h.j.claim;
      assert a in acts;
      ProducerKeepsHeld(t, g, a);
      ReachStep(t, g, a);
      HeldContent(s, h);
      HeldContent(Step(t, a), After(t, g, a));
    }
  }

  lemma ProducerKeepsHeld(s: State, h: Hist, a: Action)
    requires ProducerAction(a)
    ensures Step(s, a).held == s.held && Step(s, a).cpc == s.cpc
    ensures h.j.sent <= After(s, h, a).j.sent && After(s, h, a).j.claim == h.j.claim
  {}

  // ---- fatal results, memory safety -------------------------------------------------------------

  /** No push ever returns a fatal result. */
  lemma NoPushError(s: State, h: Hist)
    requires Reach(s, h)
    ensures s.ppc != Idle(PushError)
  {
    ReachInv(s, h);
    hide Reach, Deliveries, Linked, Distinct, Outside, Slot, Contents;
  }

  /** The action moves a call of the consumer on, or begins one. */
  predicate ConsumerMoves(s: State, a: Action) {
    if s.cpc.Ready? then a.Pop? || a.Flush? else a.ConsumerStep?
  }

  /**
   Exactly when the consumer gets ERROR: a flush that loads the head before the first message is announced
   there, and a pop after such a flush has left the consumer without a message, as long as the tail stays.
   */
  lemma PopErrorIff(s: State, h: Hist, a: Action)
    requires Reach(s, h) && ConsumerMoves(s, a)
    ensures Step(s, a).cpc == Ready(PopError)
       <==> (s.cpc.FlushLoad? && s.ppc.FirstHead?) || (a.Pop? && Stranded(s) && s.tail.IsConsumed())
  {
    ReachInv(s, h);
    hide Reach, Published;
    if Published(s, h) {
      PublishedError(s, h, a);
    }
  }

  lemma PublishedError(s: State, h: Hist, a: Action)
    requires Published(s, h) && ConsumerMoves(s, a)
    ensures Step(s, a).cpc == Ready(PopError)
       <==> (s.cpc.FlushLoad? && s.ppc.FirstHead?) || (a.Pop? && Stranded(s) && s.tail.IsConsumed())
  {
    hide Deliveries, Linked, Distinct, Outside, Slot, Contents, Producer;
    TailSuccessor(s, h);
    HeadBehind(s, h);
  }

  /** Without a flush the consumer is never left without the message it has claimed. */
  lemma SettledStep(s: State, h: Hist, a: Action)
    requires Reach(s, h) && !a.Flush? && !Unsettled(s)
    ensures !Unsettled(Step(s, a)) && (s.cpc != Ready(PopError) ==> Step(s, a).cpc != Ready(PopError))
  {
    hide Reach, StepProducer;
    if ProducerAction(a) {
      ProducerKeepsHeld(s, h, a);
    } else {
      StepNoFlush(s, a);
      if ConsumerMoves(s, a) {
        PopErrorIff(s, h, a);
      }
    }
  }

  /** In a run of pushes and pops no call returns a fatal result. */
  lemma {:induction false} NoFatalResult(n: nat, slots: seq<Payload>, acts: seq<Action>)
    requires 3 <= n <= INDEX_MASK && |slots| == n && Flush !in acts
    ensures var s := Exec(Init(n, slots), acts);
      s.ppc != Idle(PushError) && s.cpc != Ready(PopError) && !Unsettled(s)
  {
    hide Step, After, Reach;
    var s0 := Init(n, slots);
    RunIsReached(n, slots, acts);
    NoPushError(Exec(s0, acts), Record(s0, acts));
    if acts != [] {
      var before, a := acts[..|acts| - 1], acts[|acts| - 1];
      assert a in acts && forall b :: b in before ==> b in acts;
      NoFatalResult(n, slots, before);
      RunIsReached(n, slots, before);
      SettledStep(Exec(s0, before), Record(s0, before), a);
    }
  }

  lemma RunIsReached(n: nat, slots: seq<Payload>, acts: seq<Action>)
    requires 3 <= n <= INDEX_MASK && |slots| == n && Flush !in acts
    ensures Reach(Exec(Init(n, slots), acts), Record(Init(n, slots), acts))
  {
    hide Exec, Record;
    PushPopRun(n, slots, acts);
  }

  /** Every chain entry that the next step of either side touches exists. */
  lemma AccessesInBounds(s: State, h: Hist)
    requires Reach(s, h)
    ensures |s.chain| == |s.localChain| == s.n
    ensures s.ppc.Idle? || s.ppc.FirstTail? || s.ppc.Clear? || s.ppc.Link? ==> s.current < s.n
    ensures s.ppc.Link? ==> s.last < s.n
    ensures s.ppc.Requeue? ==> s.overrun < s.n
    ensures s.ppc.MoveOverrun? || s.ppc.MoveTail? || s.ppc.JumpTail? ==>
      var i := s.ppc.seen.Masked(); i < s.n && s.localChain[i] < s.n
    ensures s.cpc.PopLoad? ==> s.held < s.n
    ensures s.cpc.PopAdvance? ==> s.cpc.next < s.n
    ensures s.cpc.FlushJump? ==> s.cpc.target < s.n
  {
    ReachInv(s, h);
    hide Reach, Deliveries, Linked, Distinct, Outside, Slot, Contents;
    if Published(s, h) {
      TailInRing(s, h);
      Successor(s.chain, h.ring, 0);
      Successor(s.chain, h.ring, |h.ring| - 1);
    }
  }

  // ---- deliveries -------------------------------------------------------------------------------

  /** A call to pop ends with this step. */
  ghost predicate PopEnds(s: State, a: Action) {
    && ((a.Pop? && s.cpc.Ready?) || (a.ConsumerStep? && !s.cpc.Ready? && !Flushing(s.cpc)))
    && Step(s, a).cpc.Ready?
  }

  /** What a result of pop says about the messages, from the journal before the call's last step and after. */
  ghost predicate Means(r: PopResult, j: Journal, j': Journal) {
    match r
    case PopSuccess => j'.claim == j.claim + 1 && j'.delivered == j.delivered + [j'.claim]
    case PopDiscarded =>
      && -1 <= j.claim && j.claim + 2 <= j'.claim < |j'.log| && j'.delivered == j.delivered + [j'.claim]
      && forall x :: j.claim < x < j'.claim ==> j'.log[x] == Dropped
    case PopNoUpdate => j' == j && j.claim == |j.sent| - 1
    case PopNoMsg => j' == j && j.sent == []
    case PopNone => false
    case PopError => j' == j
  }

  /**
   SUCCESS: exactly the message after the last one delivered, or the first ever pushed. DISCARDED: at least
   one message is missing, and the producer dropped every one that is. NO_UPDATE: the message held is the
   newest. NO_MSG: nothing was ever pushed. ERROR: nothing is handed out; when this happens says PopErrorIff.
   */
  lemma PopResults(s: State, h: Hist, a: Action)
    requires Reach(s, h) && PopEnds(s, a)
    ensures Means(Step(s, a).cpc.result, h.j, After(s, h, a).j)
  {
    ReachInv(s, h);
    hide Reach, Published;
    if Published(s, h) {
      if a.Pop? {
        StartPopResult(s, h);
      } else {
        StepPopResult(s, h);
      }
    }
  }

  lemma StartPopResult(s: State, h: Hist)
    requires Published(s, h) && s.cpc.Ready? && StartPop(s).cpc.Ready?
    ensures Means(StartPop(s).cpc.result, h.j, AfterPop(s, h).j)
  {
    hide Deliveries, Linked, Distinct, Outside, Slot, Producer;
    TailContent(s, h);
  }

  lemma StepPopResult(s: State, h: Hist)
    requires Published(s, h) && !s.cpc.Ready? && !Flushing(s.cpc) && StepConsumer(s).cpc.Ready?
    ensures Means(StepConsumer(s).cpc.result, h.j, AfterConsumer(s, h).j)
  {
    hide Deliveries, Linked, Distinct, Outside, Slot, Producer;
    TailSuccessor(s, h);
  }

  /** Over a whole run: deliveries come in the order of the pushes, none twice, each with its own content. */
  lemma DeliveryOrder(s: State, h: Hist)
    requires Reach(s, h)
    ensures |h.j.received| == |h.j.delivered|
    ensures forall i :: 0 <= i < |h.j.delivered| ==>
      h.j.delivered[i] < |h.j.sent| && h.j.received[i] == h.j.sent[h.j.delivered[i]]
    ensures forall i, k :: 0 <= i < k < |h.j.delivered| ==> h.j.delivered[i] < h.j.delivered[k]
  {
    ReachInv(s, h);
    hide Reach, Linked, Distinct, Outside, Slot, Producer, Consumer, Contents;
  }
}
