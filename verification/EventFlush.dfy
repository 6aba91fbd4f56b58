/**
 ri_consumer_flush on a channel with an eventfd: it pops as long as the result is SUCCESS. While the producer is
 between calls this reaches the newest message, unless a message was dropped since the last pop: then the first pop
 ends with DISCARDED, and so does the flush.
 */
module EventFlush {
  import opened Index
  import opened Queue
  import opened History
  import opened Invariant
  import opened ConsumerSteps
  import opened Runs
  import opened Effects
  import opened EventChannel

  /** A message was dropped since the consumer last took one. */
  predicate Unflagged(s: State) {
    s.tail.Tail? && !s.tail.consumed && !s.tail.first
  }

  lemma ReachOn(c: Channel, h: Hist, a: ChannelAction)
    requires ChannelReach(c, h)
    ensures ChannelReach(ChannelStep(c, a), ChannelAfter(c, h, a))
  {
    hide ChannelStep, ChannelAfter;
    var n, slots, acts :|
      && 3 <= n <= INDEX_MASK && |slots| == n
      && c == ChannelExec(NewChannel(n, slots), acts) && h == ChannelRecord(NewChannel(n, slots), acts);
    var acts' := acts + [a];
    assert acts'[..|acts'| - 1] == acts;
    assert ChannelStep(c, a) == ChannelExec(NewChannel(n, slots), acts');
    assert ChannelAfter(c, h, a) == ChannelRecord(NewChannel(n, slots), acts');
  }

  /** What a pop of the queue does while a message is waiting and nobody interferes. */
  lemma QuietPop(s: State, h: Hist)
    requires Reach(s, h) && s.cpc.Ready? && !Unsettled(s) && |h.j.log| < |h.j.sent|
    ensures var s1 := StartPop(s); var s2 := StepConsumer(s1); var s3 := StepConsumer(s2);
      && (s.tail.IsConsumed() ==>
            && s1.cpc.PopLoad? && s2.cpc.PopAdvance? && s3.cpc == Ready(PopSuccess)
            && s3.tail.Tail? && s3.tail.consumed && s3.ppc == s2.ppc == s1.ppc == s.ppc)
      && (!s.tail.IsConsumed() ==>
            && s1.cpc == Ready(if Unflagged(s) then PopDiscarded else PopSuccess)
            && s1.tail.Tail? && s1.tail.consumed && s1.ppc == s.ppc)
  {
    ReachInv(s, h);
    hide Reach, Published;
    if Published(s, h) {
      QuietFacts(s, h);
    }
  }

  lemma QuietFacts(s: State, h: Hist)
    requires Published(s, h) && s.cpc.Ready? && !Unsettled(s) && |h.j.log| < |h.j.sent|
    ensures s.tail.Tail? && s.tail.idx < s.n <= INDEX_MASK
    ensures s.tail.consumed ==> s.held == s.tail.idx < |s.chain| && s.chain[s.held] < s.n
  {
    hide Linked, Distinct, Outside, Slot, Deliveries, Contents, Producer;
    TailSuccessor(s, h);
  }

  /** The numbers behind a channel with both sides between calls. */
  lemma QuietNumbers(c: Channel, h: Hist)
    requires ChannelReach(c, h) && c.pop.PopOutside? && c.push.PushOutside?
    ensures Reach(c.q, h) && c.q.cpc.Ready? && !Unsettled(c.q) && c.q.ppc.Idle?
    ensures c.tokens == |h.j.sent| - |h.j.log|
    ensures Unflagged(c.q) ==> c.tokens > 0
    ensures c.q.tail.Tail? && c.q.tail.consumed ==> h.j.claim == |h.j.sent| - 1 - c.tokens
  {
    ChannelReachInv(c, h);
    ReachInv(c.q, h);
    hide ChannelReach, Reach, Linked, Distinct, Outside, Slot, Deliveries, Contents, Producer, Consumer;
  }

  /** ri_consumer_pop on its own. */
  method PopOnce(c: Channel, ghost h: Hist) returns (c': Channel, ghost h': Hist)
    requires ChannelReach(c, h) && c.pop.PopOutside? && c.push.PushOutside?
    ensures ChannelReach(c', h') && c'.pop.PopOutside? && c'.push.PushOutside? && h'.j.sent == h.j.sent
    ensures c.tokens == 0 ==> c' == c.(popped := if h.j.sent == [] then PopNoMsg else PopNoUpdate) && h' == h
    ensures c.tokens > 0 ==>
      && c'.tokens == c.tokens - 1 && c'.q.tail.Tail? && c'.q.tail.consumed
      && c'.popped == (if Unflagged(c.q) then PopDiscarded else PopSuccess)
      && Took(c'.popped, h.j, h'.j, Content(c'.q, c'.q.held))
  {
    hide ChannelReach, Reach, Took, StartPop, StepConsumer, StepProducer, AfterPop, AfterConsumer, AfterProducer;
    QuietNumbers(c, h);
    if c.tokens == 0 {
      EmptyReadAnswers(c, h);
    }
    ReachOn(c, h, StartRead);
    c', h' := ChannelStep(c, StartRead), ChannelAfter(c, h, StartRead);
    if c.tokens == 0 {
      return;
    }
    QuietPop(c.q, h);
    c', h' := PopOn(c', h');
    if !c'.pop.PopOutside? {
      c', h' := PopOn(c', h');
    }
    if !c'.pop.PopOutside? {
      c', h' := PopOn(c', h');
    }
  }

  /** The next access of a pop that has its token. */
  method PopOn(c: Channel, ghost h: Hist) returns (c': Channel, ghost h': Hist)
    requires ChannelReach(c, h) && !c.pop.PopOutside?
    ensures c' == ChannelStep(c, PopStep) && h' == ChannelAfter(c, h, PopStep)
    ensures c'.q == if c.pop.PopTaken? then StartPop(c.q) else StepConsumer(c.q)
    ensures c'.tokens == c.tokens && c'.push == c.push && !c'.pop.PopTaken?
    ensures c'.pop.PopOutside? <==> c'.q.cpc.Ready?
    ensures ChannelReach(c', h') && h'.j.sent == h.j.sent
    ensures if c'.pop.PopOutside? then
              c'.popped == c'.q.cpc.result && Took(c'.popped, h.j, h'.j, Content(c'.q, c'.q.held))
            else h'.j == h.j
  {
    hide ChannelReach, Reach, Took, StartPop, StepConsumer, StepProducer, AfterPop, AfterConsumer, AfterProducer;
    ReachOn(c, h, PopStep);
    PopAnswers(c, h);
    ChannelReachInv(c, h);
    PopBalance(c.q, h, QueueAction(c, PopStep)[0]);
    c', h' := ChannelStep(c, PopStep), ChannelAfter(c, h, PopStep);
  }

  /**
   ri_consumer_flush, with the producer between calls. It reaches the newest message and takes all tokens, unless a
   message was dropped since the last pop: then it stops at the oldest message still available, and the messages
   behind it are left waiting.
   */
  method FlushChannel(c: Channel, ghost h: Hist) returns (c': Channel, ghost h': Hist)
    requires ChannelReach(c, h) && c.pop.PopOutside? && c.push.PushOutside?
    ensures ChannelReach(c', h') && c'.pop.PopOutside? && c'.push.PushOutside? && h'.j.sent == h.j.sent
    ensures h'.j.claim == |h.j.sent| - 1 - c'.tokens
    ensures !Unflagged(c.q) ==> c'.tokens == 0 && c'.popped == if h.j.sent == [] then PopNoMsg else PopNoUpdate
    ensures Unflagged(c.q) ==> c'.tokens == c.tokens - 1 && c'.popped == PopDiscarded
  {
    hide ChannelReach, Took;
    QuietNumbers(c, h);
    c', h' := PopOnce(c, h);
    while c'.popped == PopSuccess
      invariant ChannelReach(c', h') && c'.pop.PopOutside? && c'.push.PushOutside? && h'.j.sent == h.j.sent
      invariant c'.popped == PopSuccess ==> c'.q.tail.Tail? && c'.q.tail.consumed
      invariant c'.popped == PopDiscarded <==> Unflagged(c.q)
      invariant c'.popped == PopDiscarded ==> c'.tokens == c.tokens - 1 && c'.q.tail.Tail? && c'.q.tail.consumed
      invariant c'.popped != PopSuccess && c'.popped != PopDiscarded ==>
        c'.tokens == 0 && c'.popped == if h.j.sent == [] then PopNoMsg else PopNoUpdate
      decreases c'.tokens, if c'.popped == PopSuccess then 1 else 0
    {
      c', h' := PopOnce(c', h');
    }
    QuietNumbers(c', h');
    if c'.tokens == 0 {
      EmptyReadAnswers(c', h');
    }
  }
}
