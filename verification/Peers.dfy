/**
 What one process does while the other is inside a call, and what it leaves alone.
 */
module Peers {
  import opened Queue
  import opened History
  import opened Invariant
  import opened ConsumerSteps
  import opened Runs
  import opened Losses
  import opened Effects
  import opened Flushes

  /** What the consumer's process may do while a push is being made: any steps of any pops. */
  predicate Popping(acts: seq<Action>) {
    forall a :: a in acts ==> a.Pop? || a.ConsumerStep?
  }

  /** What the producer's process may do while a pop or a flush is being made. */
  predicate Pushing(acts: seq<Action>) {
    forall a :: a in acts ==> ProducerAction(a)
  }

  lemma {:induction false} ExecConcat(s: State, a: seq<Action>, b: seq<Action>)
    ensures Exec(s, a + b) == Exec(Exec(s, a), b)
  {
    if b == [] {
      assert a + b == a;
    } else {
      assert (a + b)[..|a + b| - 1] == a + b[..|b| - 1];
      ExecConcat(s, a, b[..|b| - 1]);
    }
  }

  lemma {:induction false} SafeConcat(s: State, a: seq<Action>, b: seq<Action>)
    requires SafeRun(s, a) && Flush !in b && !Flushing(Exec(s, a).cpc)
    ensures SafeRun(s, a + b) && !Flushing(Exec(s, a + b).cpc)
  {
    hide Step, Safe, Flushing;
    if b == [] {
      assert a + b == a;
    } else {
      assert (a + b)[..|a + b| - 1] == a + b[..|b| - 1];
      SafeConcat(s, a, b[..|b| - 1]);
      StepNoFlush(Exec(s, a + b[..|b| - 1]), b[|b| - 1]);
    }
  }

  /** Steps of pops leave everything but the tail and the consumer's own fields alone. */
  lemma PoppingStep(s: State, a: Action)
    requires a.Pop? || a.ConsumerStep?
    ensures var r := Step(s, a); r == s.(tail := r.tail, held := r.held, cpc := r.cpc)
  {}

  lemma {:induction false} PoppingFrame(s: State, acts: seq<Action>)
    requires Popping(acts)
    ensures var r := Exec(s, acts); r == s.(tail := r.tail, held := r.held, cpc := r.cpc)
  {
    hide Step;
    if acts != [] {
      PoppingFrame(s, acts[..|acts| - 1]);
      assert acts[|acts| - 1] in acts;
      PoppingStep(Exec(s, acts[..|acts| - 1]), acts[|acts| - 1]);
    }
  }

  /** Steps of pushes leave the consumer's own fields alone, and the sizes of the arrays. */
  ghost predicate ConsumerUntouched(s: State, r: State) {
    && r.n == s.n && r.held == s.held && r.cpc == s.cpc
    && |r.chain| == |s.chain| && |r.localChain| == |s.localChain| && |r.slots| == |s.slots|
  }

  lemma ProducerFrame(s: State)
    ensures ConsumerUntouched(s, StepProducer(s))
  {}

  lemma PushingStep(s: State, a: Action)
    requires ProducerAction(a)
    ensures ConsumerUntouched(s, Step(s, a))
  {
    hide StepProducer;
    ProducerFrame(s);
  }

  lemma {:induction false} PushingFrame(s: State, acts: seq<Action>)
    requires Pushing(acts)
    ensures ConsumerUntouched(s, Exec(s, acts))
  {
    hide Step;
    if acts != [] {
      PushingFrame(s, acts[..|acts| - 1]);
      assert acts[|acts| - 1] in acts;
      PushingStep(Exec(s, acts[..|acts| - 1]), acts[|acts| - 1]);
    }
  }

  /** The pushes begun in a run. */
  ghost function PushCalls(acts: seq<Action>): (calls: seq<Action>) {
    if acts == [] then []
    else
      var before, a := PushCalls(acts[..|acts| - 1]), acts[|acts| - 1];
      if a.ForcePush? || a.TryPush? then before + [a] else before
  }

  /** The pops and flushes begun in a run. */
  ghost function PopCalls(acts: seq<Action>): (calls: seq<Action>) {
    if acts == [] then []
    else
      var before, a := PopCalls(acts[..|acts| - 1]), acts[|acts| - 1];
      if a.Pop? || a.Flush? then before + [a] else before
  }

  lemma {:induction false} CallsConcat(a: seq<Action>, b: seq<Action>)
    ensures PushCalls(a + b) == PushCalls(a) + PushCalls(b) && PopCalls(a + b) == PopCalls(a) + PopCalls(b)
  {
    if b == [] {
      assert a + b == a;
    } else {
      assert (a + b)[..|a + b| - 1] == a + b[..|b| - 1];
      CallsConcat(a, b[..|b| - 1]);
    }
  }

  lemma {:induction false} PeerCalls(acts: seq<Action>)
    ensures Popping(acts) ==> PushCalls(acts) == []
    ensures Pushing(acts) ==> PopCalls(acts) == []
  {
    if acts != [] {
      PeerCalls(acts[..|acts| - 1]);
      assert acts[|acts| - 1] in acts;
      assert forall a :: a in acts[..|acts| - 1] ==> a in acts;
    }
  }

  /** Pops push nothing and drop nothing. */
  lemma {:induction false} PoppingPast(s: State, acts: seq<Action>, more: seq<Action>)
    requires s.n > 0 && Popping(more) && !Flushing(Exec(s, acts).cpc)
    ensures var j, j' := Record(s, acts).j, Record(s, acts + more).j;
      j'.sent == j.sent && Count(j'.log, Dropped) == Count(j.log, Dropped) && !Flushing(Exec(s, acts + more).cpc)
  {
    hide Step, After, Flushing, Count, Discards, LinkedBy;
    if more == [] {
      assert acts + more == acts;
    } else {
      var m, a := more[..|more| - 1], more[|more| - 1];
      assert a in more && forall b :: b in m ==> b in more;
      assert (acts + more)[..|acts + more| - 1] == acts + m;
      PoppingPast(s, acts, m);
      var t, h := Exec(s, acts + m), Record(s, acts + m);
      SameLength(s, acts + m);
      ActionSent(t, h, a);
      ActionLost(t, h, a);
      StepNoFlush(t, a);
      NotProducer(t, a);
    }
  }

  lemma NotProducer(s: State, a: Action)
    requires !ProducerAction(a)
    ensures LinkedBy(s, a) == [] && !Discards(s, a)
  {}

  lemma {:induction false} SameLength(s: State, acts: seq<Action>)
    ensures Exec(s, acts).n == s.n
  {
    if acts != [] {
      SameLength(s, acts[..|acts| - 1]);
    }
  }

  /** Pushes hand nothing out. */
  lemma {:induction false} PushingPast(s: State, acts: seq<Action>, more: seq<Action>)
    requires Pushing(more)
    ensures var j, j' := Record(s, acts).j, Record(s, acts + more).j; j'.claim == j.claim && j'.received == j.received
  {
    hide Step, After;
    if more == [] {
      assert acts + more == acts;
    } else {
      var m, a := more[..|more| - 1], more[|more| - 1];
      assert a in more && forall b :: b in m ==> b in more;
      assert (acts + more)[..|acts + more| - 1] == acts + m;
      PushingPast(s, acts, m);
      ProducerHands(Exec(s, acts + m), Record(s, acts + m), a);
    }
  }

  /** The other process does nothing. */
  predicate Quiet(peers: seq<seq<Action>>) {
    forall i :: 0 <= i < |peers| ==> peers[i] == []
  }

  function Peer(peers: seq<seq<Action>>, i: nat): (acts: seq<Action>) {
    if i < |peers| then peers[i] else []
  }

  /** A flush is about to load the head while the producer is between calls. */
  ghost predicate QuietLoad(n: nat, slots: seq<Payload>, acts: seq<Action>) {
    && Run(n, slots, acts)
    && var s := Exec(Init(n, slots), acts); s.cpc.FlushLoad? && s.tail == s.cpc.seen && s.ppc.Idle?
  }

  /** Its two steps are safe, and the second one lands on the newest message. */
  lemma QuietTrace(n: nat, slots: seq<Payload>, acts: seq<Action>)
    requires QuietLoad(n, slots, acts)
    ensures var s0, a1 := Init(n, slots), acts + [ConsumerStep];
      var s1, a2 := Exec(s0, a1), a1 + [ConsumerStep];
      && Run(n, slots, a1) && s1.cpc.FlushJump? && s1.tail == s1.cpc.seen
      && Run(n, slots, a2) && Exec(s0, a2).cpc == Ready(PopDiscarded)
      && Record(s0, a2).j.sent == Record(s0, acts).j.sent
      && 0 <= Record(s0, a2).j.claim == |Record(s0, acts).j.sent| - 1
  {
    hide StepConsumer, AfterConsumer, Safe, Reach;
    var s0, a1 := Init(n, slots), acts + [ConsumerStep];
    var a2 := a1 + [ConsumerStep];
    assert a1[..|a1| - 1] == acts && a2[..|a2| - 1] == a1;
    RunReach(n, slots, acts);
    QuietFlush(Exec(s0, acts), Record(s0, acts));
  }

  lemma EmptyTail(s: State, h: Hist)
    requires Reach(s, h)
    ensures s.tail.Empty? <==> h.j.sent == []
  {
    ReachInv(s, h);
    hide Reach, Linked, Distinct, Outside, Slot, Deliveries, Contents, Producer, Consumer;
  }

  lemma RunReach(n: nat, slots: seq<Payload>, acts: seq<Action>)
    requires Run(n, slots, acts)
    ensures Reach(Exec(Init(n, slots), acts), Record(Init(n, slots), acts))
  {}
}
