/**
 What one action adds to the record of a run: messages linked, messages lost, messages handed out.
 */
module Effects {
  import opened Queue
  import opened History
  import opened Invariant
  import opened Runs
  import opened Guarantees
  import opened Losses

  function LinkedBy(s: State, a: Action): (p: seq<Payload>) {
    if a.ProducerStep? && (s.ppc.FirstTail? || s.ppc.Link?) then [Content(s, s.current)] else []
  }

  lemma ActionSent(s: State, h: Hist, a: Action)
    requires s.n > 0
    ensures After(s, h, a).j.sent == h.j.sent + LinkedBy(s, a)
  {}

  /** Outside a flush a consumer step hands out one message or none. */
  lemma TakesOne(s: State, h: Hist, a: Action)
    requires !ProducerAction(a) && !a.Flush? && !Flushing(s.cpc)
    ensures var j, j' := h.j, After(s, h, a).j; j' == j || j' == j.Deliver(Content(Step(s, a), Step(s, a).held))
  {}

  /** Outside a flush a message is lost exactly where a force_push ends with DISCARDED. */
  lemma ActionLost(s: State, h: Hist, a: Action)
    requires !a.Flush? && !Flushing(s.cpc)
    ensures Count(After(s, h, a).j.log, Dropped) == Count(h.j.log, Dropped) + if Discards(s, a) then 1 else 0
  {
    hide StepProducer, AfterProducer, Count, Step, Flushing, AfterConsumer, AfterPop;
    CountOne(h.j.log, Dropped);
    CountOne(h.j.log, Delivered);
    if a.ProducerStep? {
      ProducerLog(s, h);
    } else if !ProducerAction(a) {
      TakesOne(s, h, a);
    }
  }

  /** What a producer does leaves what was handed out alone. */
  lemma ProducerHands(s: State, h: Hist, a: Action)
    requires ProducerAction(a)
    ensures After(s, h, a).j.received == h.j.received && After(s, h, a).j.claim == h.j.claim
  {}

  /** What a result of pop says about the messages handed out before the call, j, and after it, j'. */
  ghost predicate Took(r: PopResult, j: Journal, j': Journal, found: Payload) {
    match r
    case PopSuccess => j'.claim == j.claim + 1 && j'.received == j.received + [found]
    case PopDiscarded => j'.claim > j.claim + 1 && j'.received == j.received + [found]
    case PopNoUpdate => j'.claim == j.claim && j'.received == j.received
    case PopNoMsg => j'.claim == j.claim && j'.received == j.received
    case PopNone => false
    case PopError => j'.claim == j.claim && j'.received == j.received
  }

  /** The action is a step of a pop. */
  ghost predicate PopRuns(s: State, a: Action) {
    (a.Pop? && s.cpc.Ready?) || (a.ConsumerStep? && !s.cpc.Ready? && !Flushing(s.cpc))
  }

  lemma ActionTakes(s: State, h: Hist, a: Action)
    requires Reach(s, h) && PopRuns(s, a)
    ensures var s', j, j' := Step(s, a), h.j, After(s, h, a).j;
      if s'.cpc.Ready? then Took(s'.cpc.result, j, j', Content(s', s'.held)) else j' == j
  {
    hide Reach, Step, After;
    TakesOne(s, h, a);
    Unfinished(s, h, a);
    if Step(s, a).cpc.Ready? {
      PopResults(s, h, a);
    }
  }

  /** A pop fails exactly if a flush has stranded the consumer and the tail has not moved since. */
  lemma ActionFails(s: State, h: Hist, a: Action)
    requires Reach(s, h) && PopRuns(s, a)
    ensures Step(s, a).cpc == Ready(PopError) <==> a.Pop? && Stranded(s) && s.tail.IsConsumed()
  {
    hide Reach, Step;
    PopErrorIff(s, h, a);
  }

  lemma Unfinished(s: State, h: Hist, a: Action)
    requires PopRuns(s, a)
    ensures !Step(s, a).cpc.Ready? ==> After(s, h, a).j == h.j
  {}
}
