/**
 The queue as its users see it: a bounded queue that, when full, drops the oldest message not held by the
 consumer. Every atomic step of the two processes is a short sequence of its operations.
 */
module Refinement {
  import opened Index
  import opened Queue
  import opened History
  import opened Invariant
  import opened RingLemmas
  import opened ProducerSteps
  import opened ConsumerSteps
  import opened Chain
  import opened Losses
  import opened Wrappers

  /** The message in the consumer's hands and the messages waiting, at most `capacity` together. */
  datatype Bounded = Bounded(capacity: nat, held: Option<Payload>, waiting: seq<Payload>) {

    function Size(): (k: nat) {
      |waiting| + if held.Some? then 1 else 0
    }

    /** force_push: when there is no room, the oldest waiting message makes way. */
    function Push(payload: Payload): (q: Bounded) {
      if Size() < capacity || waiting == [] then this.(waiting := waiting + [payload])
      else this.(waiting := waiting[1..] + [payload])
    }

    /** pop: the oldest waiting message replaces the one held. */
    function Pop(): (q: Bounded) {
      if waiting == [] then this else this.(held := Some(waiting[0]), waiting := waiting[1..])
    }

    function PopMany(k: nat): (q: Bounded)
      decreases k
    {
      if k == 0 then this else Pop().PopMany(k - 1)
    }
  }

  // ---- the refinement map, read off the shared words ---------------------------------------------

  /** The contents of the slots on a path. */
  function Read(s: State, path: seq<nat>): (r: seq<Payload>) {
    seq(|path|, i requires 0 <= i < |path| => Content(s, path[i]))
  }

  /**
   What the chain holds behind the tail. While a push has filled the last slot and not yet made room, its
   message does not count: it will be in the queue once the consumer moves on or an older one is dropped.
   */
  ghost function View(s: State): (q: Bounded) {
    var path := if s.tail.Empty? then [] else Follow(s.chain, s.tail.idx, s.n);
    var behind := if s.tail.Tail? && s.tail.consumed && path != [] then path[1..] else path;
    var counted := if Retained(s) == s.n && behind != [] then behind[..|behind| - 1] else behind;
    Bounded(if s.n == 0 then 0 else s.n - 1,
            if OwnSlot(s) == INVALID then None else Some(Content(s, OwnSlot(s))),
            Read(s, counted))
  }

  /** Messages in the view: all that were pushed, but for one that has no room yet. */
  ghost function Upto(s: State, h: Hist): (k: int) {
    |h.j.sent| - B(Retained(s) == s.n)
  }

  ghost predicate Window(q: Bounded, n: nat, has: bool, j: Journal, hi: int) {
    && n > 0 && -1 <= j.claim < |j.sent| && 0 <= |j.log| <= hi <= |j.sent|
    && (has ==> 0 <= j.claim)
    && q == Bounded(n - 1, if has then Some(j.sent[j.claim]) else None, j.sent[|j.log|..hi])
  }

  lemma ReadIs(s: State, h: Hist, from: int, to: int)
    requires Published(s, h) && TailNo(s, h) <= from <= to <= |h.j.sent|
    ensures 0 <= from && Base(h) <= TailNo(s, h)
    ensures Read(s, h.ring[from - Base(h)..to - Base(h)]) == h.j.sent[from..to]
  {
    hide Linked, Distinct, Outside, Deliveries, Consumer, Producer;
    TailContent(s, h);
    var path := h.ring[from - Base(h)..to - Base(h)];
    forall i | 0 <= i < |path|
      ensures Content(s, path[i]) == h.j.sent[from + i]
    {
      assert path[i] == Slot(h, from + i);
      SlotContent(s, h, from + i);
    }
  }

  /** The numbers of the messages that the view counts. */
  lemma CountedNumbers(s: State, h: Hist)
    requires Published(s, h)
    ensures TailNo(s, h) <= |h.j.log| <= Upto(s, h) <= |h.j.sent| && 0 <= |h.j.log| && Base(h) <= TailNo(s, h)
    ensures Upto(s, h) - |h.j.log| + B(h.j.claim >= 0) <= s.n - 1
    ensures OwnSlot(s) == INVALID <==> h.j.claim < 0
  {
    hide Linked, Distinct, Outside, Slot, Deliveries, Consumer, Contents, Follow;
    TailPath(s, h);
    TailInRing(s, h);
  }

  /** The slots behind the tail that the view counts. */
  lemma CountedPath(s: State, h: Hist)
    requires Published(s, h)
    ensures TailNo(s, h) <= |h.j.log| <= Upto(s, h) <= |h.j.sent| && 0 <= |h.j.log| && Base(h) <= TailNo(s, h)
    ensures View(s).waiting == Read(s, h.ring[|h.j.log| - Base(h)..Upto(s, h) - Base(h)])
  {
    hide Published, Read, Follow, Retained;
    CountedNumbers(s, h);
    TailPath(s, h);
    RetainedIs(s, h);
    var path := h.ring[TailNo(s, h) - Base(h)..];
    if s.tail.consumed {
      assert path[1..] == h.ring[|h.j.log| - Base(h)..];
    }
    var behind := h.ring[|h.j.log| - Base(h)..];
    assert behind == h.ring[|h.j.log| - Base(h)..|h.ring|];
    assert behind != [] ==> behind[..|behind| - 1] == h.ring[|h.j.log| - Base(h)..|h.ring| - 1];
  }

  /** The view is a window on the messages pushed: from the oldest not settled to the newest that counts. */
  lemma ViewIs(s: State, h: Hist)
    requires Published(s, h)
    ensures Window(View(s), s.n, h.j.claim >= 0, h.j, Upto(s, h))
    ensures View(s).Size() <= View(s).capacity
  {
    hide Linked, Distinct, Outside, Slot, Deliveries, Consumer, Producer, Read, Follow;
    CountedNumbers(s, h);
    CountedPath(s, h);
    ReadIs(s, h, |h.j.log|, Upto(s, h));
    TailContent(s, h);
  }

  // ---- operations on windows --------------------------------------------------------------------

  lemma WindowPush(q: Bounded, n: nat, has: bool, j: Journal, hi: int)
    requires Window(q, n, has, j, hi) && hi < |j.sent| && q.Size() < q.capacity
    ensures Window(q.Push(j.sent[hi]), n, has, j, hi + 1)
  {}

  lemma WindowSent(q: Bounded, n: nat, has: bool, j: Journal, hi: int, payload: Payload)
    requires Window(q, n, has, j, hi)
    ensures Window(q, n, has, j.Push(payload), hi)
  {}

  lemma WindowFacts(q: Bounded, n: nat, has: bool, j: Journal, hi: int)
    requires Window(q, n, has, j, hi)
    ensures n > 0 && 0 <= |j.log| <= hi <= |j.sent| && q.capacity == n - 1
    ensures q.Size() == hi - |j.log| + B(has)
  {}

  lemma WindowDrop(q: Bounded, n: nat, has: bool, j: Journal, hi: int)
    requires Window(q, n, has, j, hi) && |j.log| < hi < |j.sent| && q.Size() == q.capacity
    ensures Window(q.Push(j.sent[hi]), n, has, j.Drop(), hi + 1)
  {}

  lemma {:induction false} WindowPops(q: Bounded, n: nat, has: bool, j: Journal, hi: int, k: nat, j': Journal)
    requires Window(q, n, has, j, hi) && 0 < k && |j.log| + k <= hi
    requires j'.sent == j.sent && |j'.log| == |j.log| + k && j'.claim == |j'.log| - 1
    ensures Window(q.PopMany(k), n, true, j', hi)
    decreases k
  {
    var j1 := j.Deliver(j.sent[|j.log|]);
    assert Window(q.Pop(), n, true, j1, hi);
    if k > 1 {
      WindowPops(q.Pop(), n, true, j1, hi, k - 1, j');
    } else {
      assert q.PopMany(1) == q.Pop().PopMany(0);
    }
  }

  // ---- the numbers behind each step -------------------------------------------------------------

  /** A producer step that loses nothing: the tail stays, and an overrun is only forgotten once released. */
  lemma PlainNumbers(s: State, h: Hist)
    requires Published(s, h) && Published(StepProducer(s), AfterProducer(s, h)) && !Discards(s, ProducerStep)
    ensures var s', h' := StepProducer(s), AfterProducer(s, h);
      && h'.j == (if s.ppc.Link? then h.j.Push(Content(s, s.current)) else h.j)
      && Retained(s') == Retained(s) + B(s.ppc.Link?)
      && (s.ppc.Link? ==> Retained(s) < s.n)
  {
    hide Published, Follow;
    RetainedIs(s, h);
    RetainedIs(StepProducer(s), AfterProducer(s, h));
    PcKnows(s, h);
  }

  /** A producer step that loses a message: the queue was over-full and is full again. */
  lemma DiscardNumbers(s: State, h: Hist)
    requires Published(s, h) && Published(StepProducer(s), AfterProducer(s, h)) && Discards(s, ProducerStep)
    ensures var s', h' := StepProducer(s), AfterProducer(s, h);
      h'.j == h.j.Drop() && Retained(s) == s.n && Retained(s') == s.n - 1
  {
    hide Published, Follow;
    RetainedIs(s, h);
    RetainedIs(StepProducer(s), AfterProducer(s, h));
    PcKnows(s, h);
  }

  lemma RetainedIs(s: State, h: Hist)
    requires Published(s, h)
    ensures s.tail.Tail?
    ensures Retained(s) == |h.j.sent| - |h.j.log| + B(s.tail.consumed || Overrun(s))
    ensures Waiting(s) == |h.j.sent| - |h.j.log|
  {
    hide Linked, Distinct, Outside, Slot, Deliveries, Contents, Producer, Consumer;
    TailPath(s, h);
  }

  lemma PcKnows(s: State, h: Hist)
    requires Published(s, h)
    ensures 3 <= s.n == StepProducer(s).n
    ensures !s.ppc.FirstTail?
    ensures s.ppc.Requeue? ==> s.tail.consumed
    ensures s.ppc.Link? ==> |h.j.sent| - TailNo(s, h) < s.n - B(Overrun(s))
    ensures Discards(s, ProducerStep) ==>
      && |h.j.sent| - TailNo(s, h) == s.n - B(Overrun(s)) && !StepProducer(s).tail.IsConsumed()
      && (s.tail.consumed <==> s.ppc.JumpTail?) && (s.ppc.JumpTail? ==> !Overrun(s))
      && Overrun(StepProducer(s)) == (Overrun(s) || s.ppc.JumpTail?)
  {
    hide Linked, Distinct, Outside, Slot, Deliveries, Contents, Consumer;
    if Choosing(s.ppc) {
      PushKnows(s, h);
      Successor(s.chain, h.ring, 0);
      if |h.ring| > 2 {
        Successor(s.chain, h.ring, 1);
      }
    }
  }

  /** A consumer step takes some messages, or none. */
  lemma ConsumerNumbers(s: State, h: Hist, a: Action)
    requires Published(s, h) && !ProducerAction(a) && Safe(s, a)
    requires Published(Step(s, a), After(s, h, a))
    ensures var j, j' := h.j, After(s, h, a).j; var k := |j'.log| - |j.log|;
      && j'.sent == j.sent && k >= 0
      && (k == 0 ==> j'.claim == j.claim && Retained(Step(s, a)) == Retained(s))
      && (k > 0 ==> j'.claim == |j'.log| - 1 && Retained(Step(s, a)) == Retained(s) - k + B(j.claim < 0))
      && (k > 1 ==> j.claim >= 0)
  {
    hide Published, Follow;
    var s', h' := Step(s, a), After(s, h, a);
    RetainedIs(s, h);
    RetainedIs(s', h');
    TakenMessages(s, h, a);
  }

  lemma TakenMessages(s: State, h: Hist, a: Action)
    requires Published(s, h) && !ProducerAction(a)
    ensures h.j.claim >= 0 <==> s.tail.consumed || Overrun(s)
    ensures var s', j, j' := Step(s, a), h.j, After(s, h, a).j; var k := |j'.log| - |j.log|;
      && j'.sent == j.sent && k >= 0 && s'.overrun == s.overrun
      && (k == 0 ==> j'.claim == j.claim && s'.tail.IsConsumed() == s.tail.IsConsumed())
      && (k > 0 ==> j'.claim == |j'.log| - 1 && s'.tail.IsConsumed())
      && (k > 1 ==> j.claim >= 0)
  {
    hide Linked, Distinct, Outside, Slot, Deliveries, Contents, Producer;
    TailContent(s, h);
  }

  // ---- every step is a step of the bounded queue ------------------------------------------------

  /** How the view grows: the number of messages that enter it. */
  ghost function Grown(s: State, h: Hist, a: Action): (k: int) {
    Upto(Step(s, a), After(s, h, a)) - Upto(s, h)
  }

  lemma SameWindow(q: Bounded, q': Bounded, n: nat, has: bool, j: Journal, hi: int)
    requires Window(q, n, has, j, hi) && Window(q', n, has, j, hi)
    ensures q == q'
  {}

  lemma ViewSize(s: State, h: Hist)
    requires Published(s, h)
    ensures View(s).Size() == Retained(s) - B(Retained(s) == s.n)
    ensures View(s).capacity == s.n - 1
  {
    hide Linked, Distinct, Outside, Slot, Deliveries, Contents, Consumer, Producer, Follow, Read;
    RetainedIs(s, h);
    ViewIs(s, h);
  }

  /** A producer step drops the oldest waiting message for the new one, or adds the new one, or changes nothing. */
  lemma ProducerSimulates(s: State, h: Hist)
    requires Published(s, h) && Published(StepProducer(s), AfterProducer(s, h))
    ensures var q, q', sent := View(s), View(StepProducer(s)), AfterProducer(s, h).j.sent;
      var grown := Grown(s, h, ProducerStep);
      && grown in {0, 1} && 0 <= Upto(s, h) <= |sent| - grown
      && (grown == 0 ==> q' == q)
      && (grown == 1 ==> q' == q.Push(sent[Upto(s, h)]))
      && (Discards(s, ProducerStep) <==> grown == 1 && q.Size() == q.capacity)
  {
    hide Published, View, Retained, StepProducer, AfterProducer, Window, Bounded.Push;
    var s', h' := StepProducer(s), AfterProducer(s, h);
    var q, n, has, hi := View(s), s.n, h.j.claim >= 0, Upto(s, h);
    ViewIs(s, h);
    WindowFacts(q, n, has, h.j, hi);
    ViewIs(s', h');
    ViewSize(s, h);
    RetainedIs(s, h);
    PcKnows(s, h);
    if Discards(s, ProducerStep) {
      DiscardNumbers(s, h);
      WindowDrop(q, n, has, h.j, hi);
      SameWindow(q.Push(h.j.sent[hi]), View(s'), n, has, h'.j, hi + 1);
    } else {
      PlainNumbers(s, h);
      if s.ppc.Link? {
        WindowSent(q, n, has, h.j, hi, Content(s, s.current));
      }
      if Retained(s') != n && s.ppc.Link? {
        WindowPush(q, n, has, h'.j, hi);
        SameWindow(q.Push(h'.j.sent[hi]), View(s'), n, has, h'.j, hi + 1);
      } else {
        SameWindow(q, View(s'), n, has, h'.j, hi);
      }
    }
  }

  /**
   A consumer step takes k messages from the view. If a pushed message had no room until then, it enters
   as soon as the first of them is taken.
   */
  lemma ConsumerSimulates(s: State, h: Hist, a: Action)
    requires Published(s, h) && !ProducerAction(a) && Safe(s, a)
    requires Published(Step(s, a), After(s, h, a))
    ensures var q, q', sent := View(s), View(Step(s, a)), h.j.sent;
      var k, grown := |After(s, h, a).j.log| - |h.j.log|, Grown(s, h, a);
      && grown in {0, 1} && 0 <= Upto(s, h) <= |sent| - grown && 0 <= k
      && (grown == 0 ==> q' == q.PopMany(k))
      && (grown == 1 ==>
            && k >= 1 && q.Pop().Size() < q.capacity
            && q' == q.Pop().Push(sent[Upto(s, h)]).PopMany(k - 1))
  {
    hide Published, View, Retained, Step, After, Window, Bounded.Push, Bounded.Pop, Bounded.PopMany;
    var s', h' := Step(s, a), After(s, h, a);
    var q, n, has, hi := View(s), s.n, h.j.claim >= 0, Upto(s, h);
    var k := |h'.j.log| - |h.j.log|;
    ViewIs(s, h);
    WindowFacts(q, n, has, h.j, hi);
    StepKeepsLength(s, h, a);
    ViewIs(s', h');
    WindowFacts(View(s'), n, h'.j.claim >= 0, h'.j, Upto(s', h'));
    ViewSize(s, h);
    RetainedIs(s, h);
    ConsumerNumbers(s, h, a);
    if Upto(s', h') == hi {
      assert q.PopMany(0) == q by { PopNone(q); }
      if k > 0 {
        WindowPops(q, n, has, h.j, hi, k, h'.j);
        SameWindow(q.PopMany(k), View(s'), n, true, h'.j, hi);
      } else {
        WindowLog(q, n, has, h.j, hi, h'.j);
        SameWindow(q, View(s'), n, has, h'.j, hi);
      }
    } else {
      EnterWindow(q, n, has, h.j, hi, k, h'.j);
      SameWindow(q.Pop().Push(h.j.sent[hi]).PopMany(k - 1), View(s'), n, true, h'.j, hi + 1);
    }
  }

  lemma PopNone(q: Bounded)
    ensures q.PopMany(0) == q
  {}

  lemma WindowLog(q: Bounded, n: nat, has: bool, j: Journal, hi: int, j': Journal)
    requires Window(q, n, has, j, hi)
    requires j'.sent == j.sent && j'.claim == j.claim && |j'.log| == |j.log|
    ensures Window(q, n, has, j', hi)
  {}

  /** One message is taken, the one that had no room enters, and the rest are taken. */
  lemma EnterWindow(q: Bounded, n: nat, has: bool, j: Journal, hi: int, k: nat, j': Journal)
    requires Window(q, n, has, j, hi) && hi < |j.sent| && |j.log| < hi && q.Size() == q.capacity && has
    requires 0 < k && |j.log| + k <= hi + 1
    requires j'.sent == j.sent && |j'.log| == |j.log| + k && j'.claim == |j'.log| - 1
    ensures q.Pop().Size() < q.capacity
    ensures Window(q.Pop().Push(j.sent[hi]).PopMany(k - 1), n, true, j', hi + 1)
  {
    var j1 := j.Deliver(j.sent[|j.log|]);
    WindowPops(q, n, has, j, hi, 1, j1);
    assert q.PopMany(1) == q.Pop().PopMany(0);
    WindowPush(q.Pop(), n, true, j1, hi);
    if k > 1 {
      WindowPops(q.Pop().Push(j.sent[hi]), n, true, j1, hi + 1, k - 1, j');
    } else {
      WindowLog(q.Pop().Push(j.sent[hi]), n, true, j1, hi + 1, j');
    }
  }

  lemma StepKeepsLength(s: State, h: Hist, a: Action)
    requires Published(s, h)
    ensures 3 <= s.n == Step(s, a).n
  {
    hide Structure, Account;
  }
}
