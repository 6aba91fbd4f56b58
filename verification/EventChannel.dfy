/**
 A channel with an eventfd: a semaphore that a push signals when it has lost nothing and that a pop takes
 before it looks at the queue. The eventfd is modelled as its counter.
 */
module EventChannel {
  import opened Index
  import opened Queue
  import opened History
  import opened Invariant
  import opened ProducerSteps
  import opened Runs
  import opened Guarantees
  import opened Chain
  import opened Losses
  import opened Effects

  /** Where the producer is inside ri_producer_force_push or ri_producer_try_push. */
  datatype PushPhase = PushOutside | PushInQueue | PushSignal

  /** Where the consumer is inside ri_consumer_pop. */
  datatype PopPhase = PopOutside | PopTaken | PopInQueue

  /** The queue, the counter of the eventfd, how far each side has got, and the last result of each. */
  datatype Channel = Channel(q: State, tokens: nat, push: PushPhase, pop: PopPhase,
                             pushed: PushResult, popped: PopResult)

  datatype ChannelAction = Fill(payload: Payload) | StartForce | StartTry | PushStep | StartRead | PopStep

  function NewChannel(n: nat, slots: seq<Payload>): (c: Channel)
    requires n > 0
  {
    Channel(Init(n, slots), 0, PushOutside, PopOutside, PushNone, PopNone)
  }

  /** The access to the queue that an action makes, if it makes one. */
  function QueueAction(c: Channel, a: ChannelAction): (acts: seq<Action>) {
    match a
    case Fill(payload) => if c.push.PushOutside? then [Write(payload)] else []
    case StartForce => if c.push.PushOutside? then [ForcePush] else []
    case StartTry => if c.push.PushOutside? then [TryPush] else []
    case PushStep => if c.push.PushInQueue? then [ProducerStep] else []
    case StartRead => []
    case PopStep => if c.pop.PopTaken? then [Pop] else if c.pop.PopInQueue? then [ConsumerStep] else []
  }

  /** Where a push goes on after a step of the queue: a push that lost nothing is signalled. */
  function Entered(c: Channel): (r: Channel) {
    if !c.q.ppc.Idle? then c.(push := PushInQueue)
    else c.(push := if c.q.ppc.result == PushSuccess then PushSignal else PushOutside, pushed := c.q.ppc.result)
  }

  function ChannelStep(c: Channel, a: ChannelAction): (r: Channel) {
    var acts := QueueAction(c, a);
    var q := if acts == [] then c.q else Step(c.q, acts[0]);
    match a
    case Fill(_) => c.(q := q)
    case StartForce => if acts == [] then c else Entered(c.(q := q))
    case StartTry => if acts == [] then c else Entered(c.(q := q))
    case PushStep =>
      if c.push.PushSignal? then c.(tokens := c.tokens + 1, push := PushOutside)
      else if acts == [] then c
      else Entered(c.(q := q))
    case StartRead =>
      if !c.pop.PopOutside? then c
      else if c.tokens == 0 then c.(popped := if c.q.held == INVALID then PopNoMsg else PopNoUpdate)
      else c.(tokens := c.tokens - 1, pop := PopTaken)
    case PopStep =>
      if acts == [] then c
      else if q.cpc.Ready? then c.(q := q, pop := PopOutside, popped := q.cpc.result)
      else c.(q := q, pop := PopInQueue)
  }

  function ChannelAfter(c: Channel, h: Hist, a: ChannelAction): (r: Hist) {
    var acts := QueueAction(c, a);
    if acts == [] then h else After(c.q, h, acts[0])
  }

  function ChannelExec(c: Channel, acts: seq<ChannelAction>): (r: Channel) {
    if acts == [] then c else ChannelStep(ChannelExec(c, acts[..|acts| - 1]), acts[|acts| - 1])
  }

  function ChannelRecord(c: Channel, acts: seq<ChannelAction>): (h: Hist) {
    if acts == [] then InitHist
    else
      var before := acts[..|acts| - 1];
      ChannelAfter(ChannelExec(c, before), ChannelRecord(c, before), acts[|acts| - 1])
  }

  // ---- the invariant ----------------------------------------------------------------------------

  /** A push whose message is linked, and which has neither signalled it nor dropped another for it. */
  ghost predicate Unsignalled(c: Channel) {
    c.push.PushSignal? || (c.push.PushInQueue? && Linking(c.q.ppc))
  }

  /** A pop that has taken its token and has not yet got its message. */
  ghost predicate TokenTaken(c: Channel) {
    !c.pop.PopOutside?
  }

  ghost predicate Balanced(c: Channel, h: Hist) {
    c.tokens + B(TokenTaken(c)) + B(Unsignalled(c)) == |h.j.sent| - |h.j.log|
  }

  ghost predicate ChannelInv(c: Channel, h: Hist) {
    && Reach(c.q, h)
    && (c.push.PushInQueue? <==> !c.q.ppc.Idle?)
    && (c.pop.PopInQueue? <==> !c.q.cpc.Ready?)
    && !Unsettled(c.q)
    && Balanced(c, h)
  }

  /** How a producer step changes the number of messages waiting. */
  lemma PushBalance(s: State, h: Hist)
    requires Reach(s, h) && !s.ppc.Idle?
    ensures var s', j, j' := StepProducer(s), h.j, AfterProducer(s, h).j;
      && |j'.sent| - |j'.log|
         == |j.sent| - |j.log| + B(!Linking(s.ppc) && Linking(s'.ppc)) - B(Discards(s, ProducerStep))
      && (!Linking(s.ppc) ==> !s'.ppc.Idle?)
      && (Linking(s.ppc) ==> Linking(s'.ppc) || s'.ppc in {Idle(PushSuccess), Idle(PushDiscarded)})
      && s'.cpc == s.cpc && s'.held == s.held
  {
    ReachInv(s, h);
    hide Reach, Published;
    if Published(s, h) {
      PushBalancePublished(s, h);
    }
  }

  lemma PushBalancePublished(s: State, h: Hist)
    requires Published(s, h) && !s.ppc.Idle?
    ensures var s', j, j' := StepProducer(s), h.j, AfterProducer(s, h).j;
      && |j'.sent| - |j'.log|
         == |j.sent| - |j.log| + B(!Linking(s.ppc) && Linking(s'.ppc)) - B(Discards(s, ProducerStep))
      && (!Linking(s.ppc) ==> !s'.ppc.Idle?)
      && (Linking(s.ppc) ==> Linking(s'.ppc) || s'.ppc in {Idle(PushSuccess), Idle(PushDiscarded)})
      && s'.cpc == s.cpc && s'.held == s.held
  {
    hide Linked, Distinct, Outside, Slot, Deliveries, Contents, Consumer, Flags;
    TailInRing(s, h);
  }

  /** A pop of the queue while a message is waiting: it goes on, or it ends with exactly one message taken. */
  lemma PopBalance(s: State, h: Hist, a: Action)
    requires Reach(s, h) && |h.j.log| < |h.j.sent| && !Unsettled(s)
    requires (a.Pop? && s.cpc.Ready?) || (a.ConsumerStep? && !s.cpc.Ready? && !Flushing(s.cpc))
    ensures var s', j, j' := Step(s, a), h.j, After(s, h, a).j;
      && j'.sent == j.sent && s'.ppc == s.ppc && !Unsettled(s')
      && |j'.log| == |j.log| + B(s'.cpc.Ready?)
      && (s'.cpc.Ready? ==> s'.cpc.result in {PopSuccess, PopDiscarded})
  {
    hide Reach, Inv;
    ReachInv(s, h);
    ClaimBound(s, h);
    PopCounts(s, h, a);
    SettledStep(s, h, a);
    PopErrorIff(s, h, a);
    if PopEnds(s, a) {
      PopResults(s, h, a);
    }
  }

  lemma ClaimBound(s: State, h: Hist)
    requires Inv(s, h)
    ensures h.j.claim < |h.j.log| || h.j.claim == -1
  {
    hide Ring, Producer, Consumer, Flags, Deliveries, Contents;
  }

  lemma PopCounts(s: State, h: Hist, a: Action)
    requires (a.Pop? && s.cpc.Ready?) || (a.ConsumerStep? && !s.cpc.Ready? && !Flushing(s.cpc))
    ensures var s', j, j' := Step(s, a), h.j, After(s, h, a).j;
      && j'.sent == j.sent && s'.ppc == s.ppc && !Flushing(s'.cpc)
      && (!s'.cpc.Ready? ==> j' == j)
      && (s'.cpc.Ready? && s'.cpc.result in {PopSuccess, PopDiscarded} ==> |j'.log| == |j.log| + 1)
  {}

  lemma ChannelStepInv(c: Channel, h: Hist, a: ChannelAction)
    requires ChannelInv(c, h)
    ensures ChannelInv(ChannelStep(c, a), ChannelAfter(c, h, a))
  {
    hide Reach;
    var acts := QueueAction(c, a);
    if acts != [] {
      ReachStep(c.q, h, acts[0]);
    }
    match a
    case Fill(_) =>
    case StartForce =>
      if acts != [] {
        StartBalance(c.q, h, ForcePush);
      }
    case StartTry =>
      if acts != [] {
        StartBalance(c.q, h, TryPush);
      }
    case PushStep =>
      if acts != [] {
        PushBalance(c.q, h);
        if Discards(c.q, ProducerStep) {
          DiscardsLinked(c.q, h);
        }
      }
    case StartRead =>
    case PopStep =>
      if acts != [] {
        PopBalance(c.q, h, acts[0]);
      }
  }

  lemma StartBalance(s: State, h: Hist, a: Action)
    requires Reach(s, h) && s.ppc.Idle? && (a.ForcePush? || a.TryPush?)
    ensures !Linking(Step(s, a).ppc) && Step(s, a).cpc == s.cpc && Step(s, a).held == s.held
    ensures a.ForcePush? ==> !Step(s, a).ppc.Idle?
  {
    hide Reach;
  }

  lemma DiscardsLinked(s: State, h: Hist)
    requires Reach(s, h) && Discards(s, ProducerStep)
    ensures Linking(s.ppc)
  {
    hide Reach;
  }

  /** c is a state of some run of an eventfd channel, and h what its queue recorded. */
  ghost predicate ChannelReach(c: Channel, h: Hist) {
    exists n, slots, acts ::
      && 3 <= n <= INDEX_MASK && |slots| == n
      && c == ChannelExec(NewChannel(n, slots), acts) && h == ChannelRecord(NewChannel(n, slots), acts)
  }

  lemma {:induction false} ChannelRunInv(n: nat, slots: seq<Payload>, acts: seq<ChannelAction>)
    requires 3 <= n <= INDEX_MASK && |slots| == n
    ensures ChannelInv(ChannelExec(NewChannel(n, slots), acts), ChannelRecord(NewChannel(n, slots), acts))
  {
    hide Step, After;
    var c := NewChannel(n, slots);
    if acts == [] {
      assert Run(n, slots, []);
      assert Exec(Init(n, slots), []) == c.q;
    } else {
      var before := acts[..|acts| - 1];
      ChannelRunInv(n, slots, before);
      ChannelStepInv(ChannelExec(c, before), ChannelRecord(c, before), acts[|acts| - 1]);
    }
  }

  lemma ChannelReachInv(c: Channel, h: Hist)
    requires ChannelReach(c, h)
    ensures ChannelInv(c, h)
  {
    var n, slots, acts :|
      && 3 <= n <= INDEX_MASK && |slots| == n
      && c == ChannelExec(NewChannel(n, slots), acts) && h == ChannelRecord(NewChannel(n, slots), acts);
    ChannelRunInv(n, slots, acts);
  }

  /**
   At every step of every run: the tokens in the eventfd, the token of an unfinished pop and the push not
   yet signalled are together as many as the messages waiting in the shared chain.
   */
  lemma TokensCountMessages(c: Channel, h: Hist)
    requires ChannelReach(c, h)
    ensures c.tokens + B(TokenTaken(c)) + B(Unsignalled(c)) == Waiting(c.q)
    ensures c.tokens <= c.q.n
  {
    ChannelReachInv(c, h);
    hide ChannelReach, Reach, Inv, Published, Retained;
    ReachInv(c.q, h);
    Capacity(c.q, h);
    WaitingIs(c.q, h);
  }

  lemma WaitingIs(s: State, h: Hist)
    requires Inv(s, h)
    ensures Waiting(s) == |h.j.sent| - |h.j.log|
    ensures Waiting(s) <= Retained(s)
  {
    hide Published;
    if Published(s, h) {
      TailPath(s, h);
    }
  }

  /** A pop that got its token always ends with a message. */
  lemma TokenedPopDelivers(c: Channel, h: Hist)
    requires ChannelReach(c, h) && !c.pop.PopOutside? && ChannelStep(c, PopStep).pop.PopOutside?
    ensures ChannelStep(c, PopStep).popped in {PopSuccess, PopDiscarded}
  {
    ChannelReachInv(c, h);
    hide ChannelReach, Reach, Step, After;
    PopBalance(c.q, h, QueueAction(c, PopStep)[0]);
  }

  /** When no push is in progress, a pop finds no token only if no message is waiting. */
  lemma EmptyMeansEmpty(c: Channel, h: Hist)
    requires ChannelReach(c, h) && c.push.PushOutside? && c.pop.PopOutside?
    ensures c.tokens == 0 <==> Waiting(c.q) == 0
  {
    TokensCountMessages(c, h);
  }

  // ---- answers ----------------------------------------------------------------------------------

  /** The consumer has a slot exactly if a message was delivered to it; with nothing waiting it is the newest. */
  lemma HoldsDelivered(s: State, h: Hist)
    requires Reach(s, h) && !Unsettled(s) && s.cpc.Ready?
    ensures s.held == INVALID <==> h.j.delivered == []
    ensures |h.j.log| == |h.j.sent| ==> h.j.claim == |h.j.sent| - 1
  {
    ReachInv(s, h);
    hide Reach, Linked, Distinct, Outside, Slot, Contents, Producer;
  }

  /**
   A pop that finds no token answers NO_MSG exactly if nothing was ever delivered, NO_UPDATE otherwise, and leaves
   everything as it is. With no push under way, the last message delivered is then the newest.
   */
  lemma EmptyReadAnswers(c: Channel, h: Hist)
    requires ChannelReach(c, h) && c.pop.PopOutside? && c.tokens == 0
    ensures ChannelStep(c, StartRead) == c.(popped := if h.j.delivered == [] then PopNoMsg else PopNoUpdate)
    ensures ChannelAfter(c, h, StartRead) == h
    ensures c.push.PushOutside? ==> h.j.claim == |h.j.sent| - 1 && (h.j.delivered == [] <==> h.j.sent == [])
  {
    ChannelReachInv(c, h);
    hide ChannelReach, Reach;
    HoldsDelivered(c.q, h);
    ReachSettled(c.q, h);
  }

  lemma ReachSettled(s: State, h: Hist)
    requires Reach(s, h) && !Unsettled(s)
    ensures h.j.claim < 0 <==> h.j.delivered == []
    ensures h.j.claim >= -1
  {
    ReachInv(s, h);
    hide Reach, Ring, Contents, Producer, Consumer;
  }

  /** A pop that got its token: its result is true of the messages handed out before its last step and after it. */
  lemma PopAnswers(c: Channel, h: Hist)
    requires ChannelReach(c, h) && !c.pop.PopOutside?
    ensures var c', j, j' := ChannelStep(c, PopStep), h.j, ChannelAfter(c, h, PopStep).j;
      if c'.pop.PopOutside? then
        c'.popped in {PopSuccess, PopDiscarded} && Took(c'.popped, j, j', Content(c'.q, c'.q.held))
      else c'.popped == c.popped && j' == j
  {
    ChannelReachInv(c, h);
    hide ChannelReach, Reach, Step, After, Took;
    var a := QueueAction(c, PopStep)[0];
    PopBalance(c.q, h, a);
    ActionTakes(c.q, h, a);
  }

  /** Nothing else hands anything out or changes the consumer's result. */
  lemma OnlyPopsAnswer(c: Channel, h: Hist, a: ChannelAction)
    requires !a.PopStep?
    ensures ChannelAfter(c, h, a).j.claim == h.j.claim && ChannelAfter(c, h, a).j.received == h.j.received
    ensures !a.StartRead? || c.tokens > 0 ==> ChannelStep(c, a).popped == c.popped
  {
    hide Step, After;
    var acts := QueueAction(c, a);
    if acts != [] {
      ProducerHands(c.q, h, acts[0]);
    }
  }

  /**
   A push through the channel: it answers DISCARDED exactly if its last step in the queue dropped a message, and is
   then over; it answers SUCCESS otherwise and goes on to signal.
   */
  lemma PushAnswers(c: Channel, h: Hist)
    requires ChannelReach(c, h) && c.push.PushInQueue? && !ChannelStep(c, PushStep).push.PushInQueue?
    ensures var c', log, log' := ChannelStep(c, PushStep), h.j.log, ChannelAfter(c, h, PushStep).j.log;
      && c'.tokens == c.tokens
      && (c'.pushed == PushDiscarded ==> c'.push.PushOutside? && log' == log + [Dropped])
      && (c'.pushed != PushDiscarded ==> c'.pushed == PushSuccess && c'.push.PushSignal? && log' == log)
  {
    ChannelReachInv(c, h);
    hide ChannelReach, Reach, StepProducer, AfterProducer;
    PushBalance(c.q, h);
    DropsAreReported(c.q, h, ProducerStep);
  }

  /** A try_push that ends at once answers FAIL, exactly if the queue is full, and changes nothing. */
  lemma TryAnswers(c: Channel, h: Hist)
    requires ChannelReach(c, h) && c.push.PushOutside?
    ensures var c' := ChannelStep(c, StartTry);
      && (c'.push.PushInQueue? <==> Retained(c.q) != c.q.n - 1)
      && (Retained(c.q) == c.q.n - 1 ==>
            c' == c.(q := c.q.(ppc := Idle(PushFail)), pushed := PushFail) && ChannelAfter(c, h, StartTry) == h)
  {
    ChannelReachInv(c, h);
    hide ChannelReach, Reach, Retained;
    TryPushFails(c.q, h);
    ReachStep(c.q, h, TryPush);
    NoPushError(Step(c.q, TryPush), After(c.q, h, TryPush));
  }
}
