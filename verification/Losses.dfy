/**
 Where every message goes: conservation, losses and gaps, and what the results of the pushes mean.
 */
module Losses {
  import opened Queue
  import opened History
  import opened Invariant
  import opened ProducerSteps
  import opened Runs
  import opened Chain

  function Count(log: seq<Fate>, f: Fate): (k: nat) {
    if log == [] then 0
    else Count(log[..|log| - 1], f) + if log[|log| - 1] == f then 1 else 0
  }

  lemma {:induction false} CountAll(log: seq<Fate>)
    ensures Count(log, Delivered) + Count(log, Dropped) + Count(log, Skipped) == |log|
  {
    if log != [] {
      CountAll(log[..|log| - 1]);
    }
  }

  /** As many messages are marked delivered as deliveries were made. */
  lemma {:induction false} CountDelivered(log: seq<Fate>, delivered: seq<nat>)
    requires forall i :: 0 <= i < |delivered| ==> delivered[i] < |log|
    requires forall i, k :: 0 <= i < k < |delivered| ==> delivered[i] < delivered[k]
    requires forall x :: 0 <= x < |log| ==> (log[x] == Delivered <==> x in delivered)
    ensures Count(log, Delivered) == |delivered|
  {
    if delivered != [] {
      assert delivered[0] < |log|;
    }
    if log != [] {
      var m := |log| - 1;
      if log[m] == Delivered {
        var i :| 0 <= i < |delivered| && delivered[i] == m;
        assert delivered[|delivered| - 1] <= m;
        assert i == |delivered| - 1;
        var rest := delivered[..i];
        assert forall x :: 0 <= x < m ==> (x in rest <==> x in delivered);
        CountDelivered(log[..m], rest);
      } else {
        assert forall i :: 0 <= i < |delivered| ==> delivered[i] != m;
        CountDelivered(log[..m], delivered);
      }
    }
  }

  /**
   At every step of a run: every message pushed has been delivered, dropped by the producer or skipped by
   a flush, or is still waiting where the consumer will find it.
   */
  lemma Conservation(s: State, h: Hist)
    requires Reach(s, h)
    ensures |h.j.sent| ==
      |h.j.delivered| + Count(h.j.log, Dropped) + Count(h.j.log, Skipped) + Waiting(s)
    ensures 0 <= Waiting(s)
  {
    ReachInv(s, h);
    hide Reach, Ring, Contents, Producer, Consumer, Follow;
    CountAll(h.j.log);
    CountDelivered(h.j.log, h.j.delivered);
    if Published(s, h) {
      TailPath(s, h);
      WaitingBound(s, h);
    }
  }

  lemma WaitingBound(s: State, h: Hist)
    requires Published(s, h)
    ensures |h.j.log| <= |h.j.sent|
  {
    hide Linked, Distinct, Outside, Slot, Deliveries, Contents, Consumer, Producer;
  }

  /** The messages missing between consecutive deliveries, and before the first one. */
  function Gaps(delivered: seq<nat>): (k: int) {
    if delivered == [] then 0
    else
      var m := |delivered| - 1;
      Gaps(delivered[..m]) + delivered[m] - 1 - (if m == 0 then -1 else delivered[m - 1])
  }

  lemma {:induction false} GapsTelescope(delivered: seq<nat>)
    ensures delivered != [] ==> Gaps(delivered) == delivered[|delivered| - 1] + 1 - |delivered|
  {
    if |delivered| > 1 {
      GapsTelescope(delivered[..|delivered| - 1]);
    }
  }

  /**
   Unless a flush has claimed a message and not handed it out: the gaps the consumer has seen add up to the messages
   lost before the one it holds.
   */
  lemma GapsAreLosses(s: State, h: Hist)
    requires Reach(s, h) && !Unsettled(s)
    ensures h.j.claim == -1 || 0 <= h.j.claim < |h.j.log|
    ensures h.j.claim >= 0 ==>
      var seen := h.j.log[..h.j.claim + 1];
      Gaps(h.j.delivered) == Count(seen, Dropped) + Count(seen, Skipped)
    ensures h.j.claim < 0 ==> Gaps(h.j.delivered) == 0
  {
    hide Reach, Ring, Contents, Producer, Consumer, Deliveries, Count, Gaps;
    ReachInv(s, h);
    if Published(s, h) {
      JournalGaps(h.j);
    } else {
      NoGaps();
    }
  }

  lemma NoGaps()
    ensures Gaps([]) == 0
  {}

  lemma JournalGaps(j: Journal)
    requires Deliveries(j, false) && -1 <= j.claim < |j.log|
    ensures j.claim < 0 ==> Gaps(j.delivered) == 0
    ensures j.claim >= 0 ==>
      var seen := j.log[..j.claim + 1];
      Gaps(j.delivered) == Count(seen, Dropped) + Count(seen, Skipped)
  {
    if j.claim >= 0 {
      var seen := j.log[..j.claim + 1];
      CountAll(seen);
      assert forall i :: 0 <= i < |j.delivered| ==> j.delivered[i] <= j.delivered[|j.delivered| - 1];
      CountDelivered(seen, j.delivered);
      GapsTelescope(j.delivered);
    }
  }

  // ---- results of the pushes --------------------------------------------------------------------

  /** This step ends a force_push that discarded a message. */
  predicate Discards(s: State, a: Action) {
    a.ProducerStep? && !s.ppc.Idle? && StepProducer(s).ppc == Idle(PushDiscarded)
  }

  /**
   A producer step loses a message exactly when it ends a force_push with DISCARDED; it loses one, the
   oldest that is waiting, and never the newest. Deliveries are not touched.
   */
  lemma DropsAreReported(s: State, h: Hist, a: Action)
    requires Reach(s, h) && ProducerAction(a)
    ensures var j, j' := h.j, After(s, h, a).j;
      && j'.log == (if Discards(s, a) then j.log + [Dropped] else j.log)
      && (Discards(s, a) ==> |j'.log| < |j'.sent|)
      && j'.delivered == j.delivered && j'.claim == j.claim
  {
    hide Reach, Published, StepProducer, AfterProducer;
    ReachInv(s, h);
    ReachStep(s, h, a);
    ReachInv(Step(s, a), After(s, h, a));
    ProducerLog(s, h);
    if Discards(s, a) {
      UnconsumedWaits(Step(s, a), After(s, h, a));
    }
  }

  lemma ProducerLog(s: State, h: Hist)
    ensures var j, j' := h.j, AfterProducer(s, h).j;
      && j'.log == (if Discards(s, ProducerStep) then j.log + [Dropped] else j.log)
      && j'.delivered == j.delivered && j'.claim == j.claim
    ensures Discards(s, ProducerStep) ==> !StepProducer(s).tail.IsConsumed() || StepProducer(s).tail.Empty?
    ensures Discards(s, ProducerStep) ==> StepProducer(s).last == s.last && !s.ppc.FirstTail?
    ensures StepProducer(s).tail != s.tail ==> !StepProducer(s).tail.IsConsumed() || StepProducer(s).tail.Empty?
  {}

  lemma UnconsumedWaits(s: State, h: Hist)
    requires Inv(s, h) && !(s.tail.Tail? && s.tail.consumed) && h.j.log != []
    ensures Published(s, h) && s.tail.idx < s.n && |h.j.log| < |h.j.sent|
  {
    hide Distinct, Outside, Deliveries, Contents, Consumer, Producer;
  }

  /** A tail value the producer installs is always the index of a waiting message. */
  lemma InstalledTail(s: State, h: Hist)
    requires Reach(s, h) && StepProducer(s).tail != s.tail
    ensures var s' := StepProducer(s); s'.tail.Tail? && s'.tail.idx < s.n && !s'.tail.consumed && Waiting(s') > 0
  {
    hide Reach, Published, Unpublished, AfterProducer;
    ReachInv(s, h);
    ReachStep(s, h, ProducerStep);
    var s', h' := StepProducer(s), AfterProducer(s, h);
    ReachInv(s', h');
    ProducerLog(s, h);
    NotUnpublished(s, h);
    TailPath(s', h');
    UnconsumedAhead(s', h');
  }

  lemma NotUnpublished(s: State, h: Hist)
    requires Inv(s, h) && StepProducer(s).tail != s.tail && Inv(StepProducer(s), AfterProducer(s, h))
    ensures Published(StepProducer(s), AfterProducer(s, h)) && StepProducer(s).n == s.n
  {
    hide Published;
  }

  lemma UnconsumedAhead(s: State, h: Hist)
    requires Published(s, h) && !(s.tail.Tail? && s.tail.consumed)
    ensures s.tail.Tail? && s.tail.idx < s.n && |h.j.log| < |h.j.sent|
  {
    hide Distinct, Outside, Deliveries, Contents, Consumer, Producer;
  }

  /**
   try_push fails exactly when the messages retained fill the queue at its load of the tail, with and
   without a pending overrun.
   */
  lemma TryPushFails(s: State, h: Hist)
    requires Reach(s, h) && s.ppc.Idle?
    ensures StartTryPush(s).ppc == Idle(PushFail) <==> Retained(s) == s.n - 1
    ensures StartTryPush(s).ppc == Idle(PushFail) ==> StartTryPush(s) == s.(ppc := Idle(PushFail))
  {
    ReachInv(s, h);
    hide Reach, Linked, Distinct, Outside, Slot, Deliveries, Contents, Consumer;
    if Published(s, h) {
      TailPath(s, h);
      TailInRing(s, h);
      RingEnd(s, h);
    }
  }

  lemma RingEnd(s: State, h: Hist)
    requires Shape(s) && Ring(s, h)
    ensures s.last < s.n
  {}

  /** A producer that never calls force_push loses nothing. */
  lemma {:induction false} TryPushNeverDrops(n: nat, slots: seq<Payload>, acts: seq<Action>)
    requires Run(n, slots, acts) && ForcePush !in acts
    ensures Count(Record(Init(n, slots), acts).j.log, Dropped) == 0
    ensures Trying(Exec(Init(n, slots), acts).ppc)
  {
    if acts != [] {
      var before, a := acts[..|acts| - 1], acts[|acts| - 1];
      TryPushNeverDrops(n, slots, before);
      var s, h := Exec(Init(n, slots), before), Record(Init(n, slots), before);
      TryingStep(s, h, a);
    }
  }

  /** Where a producer can be that only tries. */
  predicate Trying(pc: ProducerPc) {
    && !pc.LoadTail? && !pc.MoveOverrun? && !pc.MoveTail? && !pc.JumpTail?
    && (pc.Clear? || pc.Link? || pc.Announce? ==> !pc.purpose.Force?)
  }

  lemma TryingStep(s: State, h: Hist, a: Action)
    requires Trying(s.ppc) && !a.ForcePush? && Count(h.j.log, Dropped) == 0
    ensures Trying(Step(s, a).ppc) && Count(After(s, h, a).j.log, Dropped) == 0
  {
    hide Step, After, Count;
    TryingPc(s, a);
    TryingLog(s, h, a);
    CountSkipped(h.j.log, Landing(s, h));
    CountReplaced(h.j.log);
    CountOne(h.j.log, Delivered);
    CountOne(h.j.log, Skipped);
  }

  lemma TryingPc(s: State, a: Action)
    requires Trying(s.ppc) && !a.ForcePush?
    ensures Trying(Step(s, a).ppc)
  {}

  /** The number of the message that a flush is about to land on. */
  function Landing(s: State, h: Hist): (k: int) {
    if s.cpc.FlushJump? then Number(h, s.cpc.target) else 0
  }

  /** What can happen to the log while nothing is dropped. */
  lemma TryingLog(s: State, h: Hist, a: Action)
    requires Trying(s.ppc) && !a.ForcePush?
    ensures var log, log' := h.j.log, After(s, h, a).j.log;
      || log' == log || log' == log + [Delivered] || log' == log + [Skipped]
      || (Landing(s, h) >= |log| && log' == log + seq(Landing(s, h) - |log|, _ => Skipped) + [Delivered])
      || (log != [] && log' == log[..|log| - 1] + [Delivered])
  {}

  lemma CountOne(log: seq<Fate>, f: Fate)
    ensures Count(log + [f], Dropped) == Count(log, Dropped) + if f == Dropped then 1 else 0
  {
    assert (log + [f])[..|log|] == log;
  }

  lemma CountReplaced(log: seq<Fate>)
    ensures log != [] ==> Count(log[..|log| - 1] + [Delivered], Dropped) <= Count(log, Dropped)
  {
    if log != [] {
      CountOne(log[..|log| - 1], Delivered);
    }
  }

  lemma {:induction false} CountSkipped(log: seq<Fate>, target: int)
    ensures target >= |log| ==>
      Count(log + seq(target - |log|, _ => Skipped) + [Delivered], Dropped) == Count(log, Dropped)
  {
    if target >= |log| {
      var full := log + seq(target - |log|, _ => Skipped) + [Delivered];
      assert full[..target] == log + seq(target - |log|, _ => Skipped);
      SkippedNotDropped(log, target - |log|);
    }
  }

  lemma {:induction false} SkippedNotDropped(log: seq<Fate>, k: nat)
    ensures Count(log + seq(k, _ => Skipped), Dropped) == Count(log, Dropped)
  {
    var full := log + seq(k, _ => Skipped);
    if k == 0 {
      assert full == log;
    } else {
      assert full[..|full| - 1] == log + seq(k - 1, _ => Skipped);
      SkippedNotDropped(log, k - 1);
    }
  }
}
