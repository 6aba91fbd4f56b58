/**
 Whole runs: every run of the two processes is a run of the bounded queue, in which each message is pushed
 once and in order.
 */
module RefinementRuns {
  import opened Queue
  import opened History
  import opened Invariant
  import opened ProducerSteps
  import opened ConsumerSteps
  import opened Runs
  import opened Chain
  import opened Wrappers
  import opened Effects
  import opened Refinement

  datatype Op = PushOp(payload: Payload) | PopOp

  function Apply(q: Bounded, ops: seq<Op>): (r: Bounded) {
    if ops == [] then q
    else
      var before, op := Apply(q, ops[..|ops| - 1]), ops[|ops| - 1];
      if op.PopOp? then before.Pop() else before.Push(op.payload)
  }

  function PopOps(k: int): (ops: seq<Op>) {
    if k <= 0 then [] else PopOps(k - 1) + [PopOp]
  }

  /** The operations of the bounded queue that take effect at one step. */
  ghost function StepOps(s: State, h: Hist, a: Action): (ops: seq<Op>) {
    var h' := After(s, h, a);
    var taken, at := |h'.j.log| - |h.j.log|, Upto(s, h);
    var entering := if Grown(s, h, a) == 1 && 0 <= at < |h'.j.sent| then [PushOp(h'.j.sent[at])] else [];
    if ProducerAction(a) then entering
    else if entering == [] then PopOps(taken)
    else [PopOp] + entering + PopOps(taken - 1)
  }

  ghost function RunOps(s: State, acts: seq<Action>): (ops: seq<Op>) {
    if acts == [] then []
    else
      var before := acts[..|acts| - 1];
      RunOps(s, before) + StepOps(Exec(s, before), Record(s, before), acts[|acts| - 1])
  }

  lemma {:induction false} ApplyConcat(q: Bounded, a: seq<Op>, b: seq<Op>)
    ensures Apply(q, a + b) == Apply(Apply(q, a), b)
  {
    if b == [] {
      assert a + b == a;
    } else {
      assert (a + b)[..|a + b| - 1] == a + b[..|b| - 1];
      ApplyConcat(q, a, b[..|b| - 1]);
    }
  }

  lemma {:induction false} ApplyPops(q: Bounded, k: nat)
    ensures Apply(q, PopOps(k)) == q.PopMany(k)
  {
    if k > 0 {
      var ops := PopOps(k);
      assert ops[..|ops| - 1] == PopOps(k - 1);
      ApplyPops(q, k - 1);
      PopLast(q, k - 1);
    }
  }

  lemma {:induction false} PopLast(q: Bounded, k: nat)
    ensures q.PopMany(k + 1) == q.PopMany(k).Pop()
    decreases k
  {
    if k > 0 {
      PopLast(q.Pop(), k - 1);
    } else {
      assert q.PopMany(1) == q.Pop().PopMany(0);
    }
  }

  lemma ApplyOne(q: Bounded, op: Op)
    ensures Apply(q, [op]) == if op.PopOp? then q.Pop() else q.Push(op.payload)
  {
    assert [op][..0] == [];
    assert Apply(q, []) == q;
  }

  /** Before the first message is published the view is empty; publishing it is a push. */
  lemma UnpublishedSimulates(s: State, h: Hist, a: Action)
    requires Shape(s) && Unpublished(s, h)
    requires Inv(Step(s, a), After(s, h, a))
    ensures View(s) == Bounded(s.n - 1, None, []) && Upto(s, h) == 0
    ensures View(Step(s, a)) == Apply(View(s), StepOps(s, h, a))
  {
    hide Published;
    var s', h' := Step(s, a), After(s, h, a);
    assert View(s).waiting == [];
    if s.ppc.FirstTail? && a.ProducerStep? {
      RetainedIs(s', h');
      ViewIs(s', h');
      ApplyOne(View(s), PushOp(h'.j.sent[0]));
      assert View(s') == View(s).Push(h'.j.sent[0]);
    } else {
      KeepUnpublished(s, h, a);
      assert View(s').waiting == [];
      assert h'.j.log == h.j.log;
    }
  }

  /** Starting a push, or writing a slot that is not linked, is invisible. */
  lemma StartSimulates(s: State, h: Hist, a: Action)
    requires Published(s, h) && ProducerAction(a) && !a.ProducerStep? && Published(Step(s, a), After(s, h, a))
    ensures View(Step(s, a)) == View(s) && Grown(s, h, a) == 0
  {
    hide Published, View, Retained;
    RetainedIs(s, h);
    RetainedIs(Step(s, a), h);
    ViewIs(s, h);
    ViewIs(Step(s, a), h);
    StepKeepsLength(s, h, a);
    PcKnows(s, h);
    StartKeepsTail(s, h, a);
  }

  lemma StartKeepsTail(s: State, h: Hist, a: Action)
    requires Published(s, h) && ProducerAction(a) && !a.ProducerStep?
    ensures Step(s, a).tail == s.tail && Step(s, a).overrun == s.overrun
  {
    hide Published;
  }

  lemma StepSimulates(s: State, h: Hist, a: Action)
    requires Inv(s, h) && Safe(s, a) && Inv(Step(s, a), After(s, h, a))
    requires Published(s, h) ==> Published(Step(s, a), After(s, h, a))
    ensures View(Step(s, a)) == Apply(View(s), StepOps(s, h, a))
  {
    hide Published, Unpublished, View, Retained, Step, After, Upto, Apply, PopOps;
    hide Bounded.Push, Bounded.Pop, Bounded.PopMany;
    var q, ops := View(s), StepOps(s, h, a);
    ApplyNone(q);
    if Published(s, h) {
      if ProducerAction(a) {
        PublishedProducer(s, h, a);
        if ops != [] {
          ApplyOne(q, ops[0]);
        }
      } else {
        ConsumerSimulates(s, h, a);
        var k := |After(s, h, a).j.log| - |h.j.log|;
        if Grown(s, h, a) == 0 {
          ApplyPops(q, k);
        } else {
          SameSent(s, h, a);
          ApplyEntering(q, h.j.sent[Upto(s, h)], k - 1);
        }
      }
    } else {
      UnpublishedSimulates(s, h, a);
    }
  }

  lemma ApplyNone(q: Bounded)
    ensures Apply(q, []) == q
  {}

  /** One message is taken, one enters, k more are taken. */
  lemma ApplyEntering(q: Bounded, payload: Payload, k: nat)
    ensures Apply(q, [PopOp] + [PushOp(payload)] + PopOps(k)) == q.Pop().Push(payload).PopMany(k)
  {
    hide Apply, PopOps, Bounded.Push, Bounded.Pop, Bounded.PopMany;
    var push := PushOp(payload);
    ApplyConcat(q, [PopOp] + [push], PopOps(k));
    ApplyConcat(q, [PopOp], [push]);
    ApplyOne(q, PopOp);
    ApplyOne(q.Pop(), push);
    ApplyPops(q.Pop().Push(payload), k);
  }

  lemma SameSent(s: State, h: Hist, a: Action)
    requires Published(s, h) && !ProducerAction(a)
    ensures After(s, h, a).j.sent == h.j.sent
  {
    hide Published;
    TakenMessages(s, h, a);
  }

  lemma PublishedProducer(s: State, h: Hist, a: Action)
    requires Published(s, h) && ProducerAction(a) && Published(Step(s, a), After(s, h, a))
    ensures StepOps(s, h, a) == [] ==> View(Step(s, a)) == View(s)
    ensures StepOps(s, h, a) != [] ==>
      && |StepOps(s, h, a)| == 1 && StepOps(s, h, a)[0].PushOp?
      && View(Step(s, a)) == View(s).Push(StepOps(s, h, a)[0].payload)
  {
    hide Published, View, Retained;
    if a.ProducerStep? {
      ProducerSimulates(s, h);
    } else {
      StartSimulates(s, h, a);
    }
  }

  /** The payloads pushed by a sequence of operations. */
  function Pushed(ops: seq<Op>): (p: seq<Payload>) {
    if ops == [] then []
    else
      var before, op := Pushed(ops[..|ops| - 1]), ops[|ops| - 1];
      if op.PopOp? then before else before + [op.payload]
  }

  lemma {:induction false} PushedConcat(a: seq<Op>, b: seq<Op>)
    ensures Pushed(a + b) == Pushed(a) + Pushed(b)
  {
    if b == [] {
      assert a + b == a;
    } else {
      assert (a + b)[..|a + b| - 1] == a + b[..|b| - 1];
      PushedConcat(a, b[..|b| - 1]);
    }
  }

  lemma {:induction false} PushedPops(k: int)
    ensures Pushed(PopOps(k)) == []
  {
    if k > 0 {
      var ops := PopOps(k);
      assert ops[..|ops| - 1] == PopOps(k - 1);
      PushedPops(k - 1);
    }
  }

  /** What enters the view at a step is what was pushed. */
  lemma StepPushes(s: State, h: Hist, a: Action)
    requires Grown(s, h, a) in {0, 1} && h.j.sent <= After(s, h, a).j.sent
    requires 0 <= Upto(s, h) <= |h.j.sent| && Upto(Step(s, a), After(s, h, a)) <= |After(s, h, a).j.sent|
    ensures Pushed(StepOps(s, h, a)) == After(s, h, a).j.sent[Upto(s, h)..Upto(Step(s, a), After(s, h, a))]
  {
    hide Retained, After, Step, Upto, Pushed, PopOps;
    var taken := |After(s, h, a).j.log| - |h.j.log|;
    PushedPops(taken);
    PushedPops(0);
    if Grown(s, h, a) == 1 {
      PushedEntering(After(s, h, a).j.sent[Upto(s, h)], taken - 1);
    } else {
      PushedNothing();
    }
  }

  lemma PushedNothing()
    ensures Pushed([]) == []
  {}

  lemma PushedEntering(payload: Payload, k: int)
    ensures Pushed([PushOp(payload)]) == [payload]
    ensures Pushed([PopOp] + [PushOp(payload)] + PopOps(k)) == [payload]
  {
    var push := PushOp(payload);
    assert [push][..0] == [] && [PopOp][..0] == [];
    assert Pushed([push]) == [payload];
    assert Pushed([PopOp]) == [];
    hide Pushed, PopOps;
    PushedConcat([PopOp] + [push], PopOps(k));
    PushedConcat([PopOp], [push]);
    PushedPops(k);
  }

  lemma SentGrows(s: State, h: Hist, a: Action)
    ensures h.j.sent <= After(s, h, a).j.sent
  {}

  lemma StaysPublished(s: State, h: Hist, a: Action)
    requires Published(s, h) && Inv(Step(s, a), After(s, h, a))
    ensures Published(Step(s, a), After(s, h, a))
  {
    hide Published;
    TailContent(s, h);
    SentGrows(s, h, a);
  }

  lemma UptoBounds(s: State, h: Hist)
    requires Inv(s, h)
    ensures s.n > 0 && 0 <= Upto(s, h) <= |h.j.sent|
    ensures s.ppc.Idle? ==> Upto(s, h) == |h.j.sent|
    ensures View(s).Size() <= s.n - 1
  {
    hide Published, View, Retained, Window;
    if Published(s, h) {
      StepKeepsLength(s, h, Pop);
      ViewIs(s, h);
      WindowFacts(View(s), s.n, h.j.claim >= 0, h.j, Upto(s, h));
      IdleRetains(s, h);
    } else {
      UnpublishedView(s, h);
    }
  }

  lemma IdleRetains(s: State, h: Hist)
    requires Published(s, h)
    ensures s.ppc.Idle? ==> Retained(s) <= s.n - 1
  {
    hide Linked, Distinct, Outside, Slot, Deliveries, Contents, Consumer;
    TailPath(s, h);
  }

  lemma UnpublishedView(s: State, h: Hist)
    requires Shape(s) && Unpublished(s, h)
    ensures View(s).Size() == 0 && Upto(s, h) == 0 == |h.j.sent|
  {
    assert View(s).waiting == [];
  }

  lemma GrownBounds(s: State, h: Hist, a: Action)
    requires Inv(s, h) && Safe(s, a) && Inv(Step(s, a), After(s, h, a))
    ensures Grown(s, h, a) in {0, 1}
  {
    hide Published, View, Retained, Step, After, Upto;
    if Published(s, h) {
      StaysPublished(s, h, a);
      if !ProducerAction(a) {
        ConsumerSimulates(s, h, a);
      } else if a.ProducerStep? {
        StepIsProducer(s, h);
        ProducerSimulates(s, h);
      } else {
        StartSimulates(s, h, a);
      }
    } else {
      UnpublishedGrown(s, h, a);
    }
  }

  lemma StepIsProducer(s: State, h: Hist)
    ensures Step(s, ProducerStep) == StepProducer(s) && After(s, h, ProducerStep) == AfterProducer(s, h)
  {}

  lemma UnpublishedGrown(s: State, h: Hist, a: Action)
    requires Shape(s) && Unpublished(s, h) && Inv(Step(s, a), After(s, h, a))
    ensures Grown(s, h, a) in {0, 1}
  {
    hide Published, Follow;
    if s.ppc.FirstTail? && a.ProducerStep? {
      RetainedIs(Step(s, a), After(s, h, a));
    } else {
      KeepUnpublished(s, h, a);
    }
  }

  /**
   Every run of the two processes is a run of the bounded queue: what the shared words hold is what that
   queue holds after the operations that took effect, in order, at the steps of the run. Its pushes are
   the messages pushed, all of them once no push is in progress, and it never holds more than n - 1.
   */
  lemma {:induction false} Refines(n: nat, slots: seq<Payload>, acts: seq<Action>)
    requires Run(n, slots, acts)
    ensures var s, h, ops := Exec(Init(n, slots), acts), Record(Init(n, slots), acts), RunOps(Init(n, slots), acts);
      && s.n > 0 && 0 <= Upto(s, h) <= |h.j.sent|
      && View(s) == Apply(Bounded(n - 1, None, []), ops)
      && Pushed(ops) == h.j.sent[..Upto(s, h)]
      && (s.ppc.Idle? ==> Pushed(ops) == h.j.sent)
      && View(s).Size() <= s.n - 1
  {
    hide Inv, View, Retained, Step, After, Upto, StepOps, Safe;
    var s0 := Init(n, slots);
    var s, h := Exec(s0, acts), Record(s0, acts);
    RunInv(n, slots, acts);
    UptoBounds(s, h);
    if acts == [] {
      EmptyView(n, slots);
    } else {
      var before, a := acts[..|acts| - 1], acts[|acts| - 1];
      Refines(n, slots, before);
      var t, g := Exec(s0, before), Record(s0, before);
      RunInv(n, slots, before);
      UptoBounds(t, g);
      GrownBounds(t, g, a);
      SentGrows(t, g, a);
      StepPushes(t, g, a);
      PublishedOn(t, g, a);
      StepSimulates(t, g, a);
      ApplyConcat(Bounded(n - 1, None, []), RunOps(s0, before), StepOps(t, g, a));
      PushedConcat(RunOps(s0, before), StepOps(t, g, a));
    }
  }

  lemma PublishedOn(s: State, h: Hist, a: Action)
    requires Inv(Step(s, a), After(s, h, a))
    ensures Published(s, h) ==> Published(Step(s, a), After(s, h, a))
  {
    hide Published, Step, After;
    if Published(s, h) {
      StaysPublished(s, h, a);
    }
  }

  lemma EmptyView(n: nat, slots: seq<Payload>)
    requires 3 <= n
    ensures View(Init(n, slots)) == Bounded(n - 1, None, []) && Upto(Init(n, slots), InitHist) == 0
  {
    assert View(Init(n, slots)).waiting == [];
  }

  // ---- what is handed out -----------------------------------------------------------------------

  /** The messages that the pops of the bounded queue hand out. */
  function Handed(q: Bounded, ops: seq<Op>): (p: seq<Payload>) {
    if ops == [] then []
    else
      var before, now := ops[..|ops| - 1], Apply(q, ops[..|ops| - 1]);
      Handed(q, before) + if ops[|ops| - 1].PopOp? && now.waiting != [] then [now.waiting[0]] else []
  }

  lemma {:induction false} HandedConcat(q: Bounded, a: seq<Op>, b: seq<Op>)
    ensures Handed(q, a + b) == Handed(q, a) + Handed(Apply(q, a), b)
  {
    if b == [] {
      assert a + b == a;
    } else {
      var b' := b[..|b| - 1];
      assert (a + b)[..|a + b| - 1] == a + b';
      HandedConcat(q, a, b');
      ApplyConcat(q, a, b');
    }
  }

  lemma HandedOne(q: Bounded, payload: Payload)
    ensures Handed(q, []) == [] && Handed(q, [PushOp(payload)]) == []
    ensures Handed(q, [PopOp]) == if q.waiting == [] then [] else [q.waiting[0]]
    ensures Handed(q, [PopOp] + [PushOp(payload)]) == Handed(q, [PopOp])
  {
    assert [PopOp][..0] == [] && [PushOp(payload)][..0] == [];
    assert ([PopOp] + [PushOp(payload)])[..1] == [PopOp];
  }

  lemma DeliveredContent(j: Journal, payload: Payload, flushing: bool)
    requires Deliveries(j.Deliver(payload), flushing)
    ensures |j.log| < |j.sent| && payload == j.sent[|j.log|]
  {
    var j' := j.Deliver(payload);
    assert j'.delivered[|j.delivered|] == |j.log|;
    assert |j'.received| == |j.received| + 1;
    assert j'.received[|j.received|] == payload;
  }

  lemma PublishedDeliveries(s: State, h: Hist)
    requires Published(s, h)
    ensures Deliveries(h.j, Unsettled(s))
  {}

  /** A message that is taken is the oldest one in the view. */
  lemma FrontWaits(s: State, h: Hist, a: Action)
    requires Published(s, h) && !ProducerAction(a) && Safe(s, a) && Published(Step(s, a), After(s, h, a))
    requires |After(s, h, a).j.log| > |h.j.log|
    ensures 0 <= |h.j.log| < |h.j.sent| && View(s).waiting != [] && View(s).waiting[0] == h.j.sent[|h.j.log|]
  {
    hide Published, View, Retained, Step, After, Safe;
    ConsumerNumbers(s, h, a);
    StepKeepsLength(s, h, a);
    ViewIs(s, h);
    ViewSize(s, h);
    ViewIs(Step(s, a), After(s, h, a));
  }

  lemma UnpublishedReceives(s: State, h: Hist, a: Action)
    requires Shape(s) && Unpublished(s, h) && !ProducerAction(a)
    ensures After(s, h, a) == h && Grown(s, h, a) == 0
  {}

  /** The bounded queue's share in a step that takes one message. */
  lemma HandsFront(q: Bounded, ops: seq<Op>, payload: Payload)
    requires ops == [PopOp] || ops == [PopOp] + [PushOp(payload)]
    requires q.waiting != []
    ensures Handed(q, ops) == [q.waiting[0]]
  {
    HandedOne(q, payload);
  }

  lemma OpsTaken(s: State, h: Hist, a: Action)
    requires !ProducerAction(a)
    ensures var j, j' := h.j, After(s, h, a).j;
      && (|j'.log| == |j.log| && Grown(s, h, a) == 0 ==> StepOps(s, h, a) == [])
      && (|j'.log| == |j.log| + 1 ==>
            StepOps(s, h, a) == [PopOp] || exists p :: StepOps(s, h, a) == [PopOp] + [PushOp(p)])
  {
    hide After, Upto, Grown;
    assert PopOps(0) == [];
    assert PopOps(1) == [PopOp];
    var at := Upto(s, h);
    if |After(s, h, a).j.log| == |h.j.log| + 1 && Grown(s, h, a) == 1 && 0 <= at < |After(s, h, a).j.sent| {
      var p := After(s, h, a).j.sent[at];
      assert StepOps(s, h, a) == [PopOp] + [PushOp(p)];
    }
  }

  /** What the consumer finds at a step is what the bounded queue hands out at that step. */
  lemma StepHands(s: State, h: Hist, a: Action)
    requires Inv(s, h) && Safe(s, a) && Inv(Step(s, a), After(s, h, a))
    requires !a.Flush? && !Flushing(s.cpc)
    ensures After(s, h, a).j.received == h.j.received + Handed(View(s), StepOps(s, h, a))
  {
    hide Published, Unpublished, View, Retained, Step, After, Upto, Flushing, Safe, Handed, Window, Deliveries;
    hide Grown, StepOps;
    var h', q := After(s, h, a), View(s);
    HandedNone(q);
    if ProducerAction(a) {
      ProducerHands(s, h, a);
      ProducerHandsNothing(s, h, a);
    } else if Published(s, h) {
      StaysPublished(s, h, a);
      PublishedDeliveries(Step(s, a), h');
      ConsumerSimulates(s, h, a);
      TakesOne(s, h, a);
      OpsTaken(s, h, a);
      if |h'.j.log| > |h.j.log| {
        DeliveredContent(h.j, Content(Step(s, a), Step(s, a).held), Unsettled(Step(s, a)));
        FrontWaits(s, h, a);
        var ops := StepOps(s, h, a);
        var p :| ops == [PopOp] || ops == [PopOp] + [PushOp(p)];
        HandsFront(q, ops, p);
      }
    } else {
      UnpublishedReceives(s, h, a);
      OpsTaken(s, h, a);
    }
  }

  lemma HandedNone(q: Bounded)
    ensures Handed(q, []) == []
  {}

  lemma ProducerHandsNothing(s: State, h: Hist, a: Action)
    requires ProducerAction(a)
    ensures Handed(View(s), StepOps(s, h, a)) == []
  {
    hide View, Upto, Grown, After, Handed;
    HandedNone(View(s));
    if StepOps(s, h, a) != [] {
      HandedOne(View(s), StepOps(s, h, a)[0].payload);
    }
  }

  /**
   In every run of pushes and pops the consumer finds in its slot, pop by pop, exactly the messages that the
   bounded queue hands out.
   */
  lemma {:induction false} Delivers(n: nat, slots: seq<Payload>, acts: seq<Action>)
    requires Run(n, slots, acts) && Flush !in acts
    ensures Record(Init(n, slots), acts).j.received == Handed(Bounded(n - 1, None, []), RunOps(Init(n, slots), acts))
    ensures !Flushing(Exec(Init(n, slots), acts).cpc)
  {
    hide Inv, View, Step, After, StepOps, Safe, Apply;
    if acts != [] {
      var s0 := Init(n, slots);
      var before, a := acts[..|acts| - 1], acts[|acts| - 1];
      assert a in acts && forall b :: b in before ==> b in acts;
      Delivers(n, slots, before);
      var t, g := Exec(s0, before), Record(s0, before);
      RunInv(n, slots, before);
      RunInv(n, slots, acts);
      StepHands(t, g, a);
      StepNoFlush(t, a);
      Refines(n, slots, before);
      HandedConcat(Bounded(n - 1, None, []), RunOps(s0, before), StepOps(t, g, a));
    }
  }
}
