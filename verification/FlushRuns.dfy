/**
 Runs of a queue of three slots in which a flush goes wrong: it leaves both sides on the same slot, in each of the
 three ways there are, or strands the consumer; and one in which an unsafe flush is harmless.
 */
module FlushRuns {
  import opened Index
  import opened Queue
  import opened Invariant
  import opened ConsumerSteps

  /** Both sides are between calls and hold the same slot. */
  predicate Collision(s: State) {
    s.ppc.Idle? && s.cpc.Ready? && s.current == s.held
  }

  /** Steps taken one after the other, the first one first. */
  function Steps(s: State, acts: seq<Action>): (r: State)
    decreases |acts|
  {
    if acts == [] then s else Steps(Step(s, acts[0]), acts[1..])
  }

  /** Continuing a run. */
  lemma {:induction false} Continue(s0: State, acts: seq<Action>, more: seq<Action>)
    ensures Exec(s0, acts + more) == Steps(Exec(s0, acts), more)
    decreases |more|
  {
    if more == [] {
      assert acts + more == acts;
    } else {
      var one := acts + [more[0]];
      assert one[..|one| - 1] == acts;
      assert one + more[1..] == acts + more;
      Continue(s0, one, more[1..]);
    }
  }

  lemma TwoSteps(s: State, a: Action, b: Action)
    ensures Steps(s, [a, b]) == Step(Step(s, a), b)
  {
    assert [a, b][1..] == [b];
    assert Steps(Step(s, a), [b]) == Step(Step(s, a), b) by { assert [b][1..] == []; }
  }

  lemma ThreeSteps(s: State, a: Action, b: Action, c: Action)
    ensures Steps(s, [a, b, c]) == Step(Step(Step(s, a), b), c)
  {
    assert [a, b, c][1..] == [b, c];
    TwoSteps(Step(s, a), b, c);
  }

  /** A queue of three slots at some point of a run, with the two copies of the chain equal. */
  function At3(slots: seq<Payload>, tail: TailWord, head: nat, chain: seq<nat>, last: nat, current: nat,
               ppc: ProducerPc, held: nat, cpc: ConsumerPc): (s: State)
  {
    State(3, tail, head, chain, slots, chain, last, current, INVALID, ppc, held, cpc)
  }

  const FIRST := Tail(0, false, true)
  const FIRST_HELD := Tail(0, true, true)
  const FIRST_PLAIN := Tail(0, true, false)
  const SECOND_HELD := Tail(1, true, false)

  const FIRST_PUSH: seq<Action> := [ForcePush, ProducerStep, ProducerStep]

  lemma FirstPush(slots: seq<Payload>)
    ensures Exec(Init(3, slots), FIRST_PUSH)
         == At3(slots, FIRST, 0, [INVALID, 2, 0], 0, 1, Idle(PushSuccess), INVALID, Ready(PopNone))
  {
    var s := Init(3, slots);
    assert s.chain == [1, 2, 0];
    ThreeSteps(s, ForcePush, ProducerStep, ProducerStep);
    Continue(s, [], FIRST_PUSH);
    assert [] + FIRST_PUSH == FIRST_PUSH;
  }

  /** A force_push by a producer on slot 1: up to where it is linked, and the rest. */
  lemma LinkSecond(slots: seq<Payload>, tail: TailWord, held: nat, cpc: ConsumerPc)
    ensures Steps(At3(slots, tail, 0, [INVALID, 2, 0], 0, 1, Idle(PushSuccess), held, cpc), [ForcePush, ProducerStep])
         == At3(slots, tail, 0, [1, INVALID, 0], 1, 1, Announce(2, Force), held, cpc)
  {
    TwoSteps(At3(slots, tail, 0, [INVALID, 2, 0], 0, 1, Idle(PushSuccess), held, cpc), ForcePush, ProducerStep);
  }

  lemma FinishSecond(slots: seq<Payload>, tail: TailWord, held: nat, cpc: ConsumerPc)
    requires tail.Tail? && tail.idx < 2
    ensures Steps(At3(slots, tail, 0, [1, INVALID, 0], 1, 1, Announce(2, Force), held, cpc),
                  [ProducerStep, ProducerStep])
         == At3(slots, tail, 1, [1, INVALID, 0], 1, 2, Idle(PushSuccess), held, cpc)
  {
    TwoSteps(At3(slots, tail, 0, [1, INVALID, 0], 1, 1, Announce(2, Force), held, cpc), ProducerStep, ProducerStep);
  }

  /** A force_push by a producer on slot 2, up to its load of the tail. */
  lemma PushThird(slots: seq<Payload>, tail: TailWord, held: nat, cpc: ConsumerPc)
    ensures Steps(At3(slots, tail, 1, [1, INVALID, 0], 1, 2, Idle(PushSuccess), held, cpc),
                  [ForcePush, ProducerStep, ProducerStep])
         == At3(slots, tail, 2, [1, 2, INVALID], 2, 2, LoadTail(0), held, cpc)
  {
    ThreeSteps(At3(slots, tail, 1, [1, INVALID, 0], 1, 2, Idle(PushSuccess), held, cpc),
               ForcePush, ProducerStep, ProducerStep);
  }

  // ---- the consumer is ahead of the announced head ----------------------------------------------

  /** The consumer's flush holds a head that is behind, and the producer is between calls. */
  const STALE_LOAD: seq<Action> :=
    FIRST_PUSH + [Pop] + [ForcePush, ProducerStep]      // message 1 is linked, not announced
    + [Pop, ConsumerStep, ConsumerStep]                 // the consumer takes it all the same
    + [Flush, ConsumerStep]                             // and loads the head, still on message 0
    + [ProducerStep, ProducerStep]

  lemma StaleLoad(slots: seq<Payload>)
    ensures Exec(Init(3, slots), STALE_LOAD)
         == At3(slots, SECOND_HELD, 1, [1, INVALID, 0], 1, 2, Idle(PushSuccess), 1, FlushJump(SECOND_HELD, 0))
  {
    hide Step, Exec, Steps;
    var s0 := Init(3, slots);
    var r := FIRST_PUSH;
    FirstPush(slots);
    Continue(s0, r, [Pop]);
    StaleTake(slots);
    r := r + [Pop];
    Continue(s0, r, [ForcePush, ProducerStep]);
    LinkSecond(slots, FIRST_HELD, 0, Ready(PopSuccess));
    r := r + [ForcePush, ProducerStep];
    Continue(s0, r, [Pop, ConsumerStep, ConsumerStep]);
    StaleOvertake(slots);
    r := r + [Pop, ConsumerStep, ConsumerStep];
    Continue(s0, r, [Flush, ConsumerStep]);
    r := r + [Flush, ConsumerStep];
    Continue(s0, r, [ProducerStep, ProducerStep]);
    FinishSecond(slots, SECOND_HELD, 1, FlushJump(SECOND_HELD, 0));
  }

  /** The producer takes the loaded slot before the tail is swung to it: both sides end on it. */
  lemma StaleHeadCollides(slots: seq<Payload>)
    ensures Collision(Exec(Init(3, slots), STALE_LOAD + [ForcePush, ProducerStep, ProducerStep]
                                           + [ProducerStep, ConsumerStep]))
  {
    hide Step, Exec, Steps;
    var s0, r := Init(3, slots), STALE_LOAD;
    StaleLoad(slots);
    Continue(s0, r, [ForcePush, ProducerStep, ProducerStep]);
    PushThird(slots, SECOND_HELD, 1, FlushJump(SECOND_HELD, 0));
    r := r + [ForcePush, ProducerStep, ProducerStep];
    Continue(s0, r, [ProducerStep, ConsumerStep]);
    StaleEnd(slots);
  }

  /** A try_push has chosen the loaded slot when the tail is swung back to it: both sides end on it. */
  lemma StaleTryCollides(slots: seq<Payload>)
    ensures Collision(Exec(Init(3, slots), STALE_LOAD + [TryPush, ConsumerStep]
                                           + [ProducerStep, ProducerStep, ProducerStep]))
  {
    hide Exec, Steps;
    var s0, r := Init(3, slots), STALE_LOAD;
    StaleLoad(slots);
    Continue(s0, r, [TryPush, ConsumerStep]);
    var s := At3(slots, SECOND_HELD, 1, [1, INVALID, 0], 1, 2, Idle(PushSuccess), 1, FlushJump(SECOND_HELD, 0));
    var t := At3(slots, FIRST_PLAIN, 1, [1, INVALID, 0], 1, 2, Clear(0, TryPlain), 0, Ready(PopDiscarded));
    TwoSteps(s, TryPush, ConsumerStep);
    r := r + [TryPush, ConsumerStep];
    Continue(s0, r, [ProducerStep, ProducerStep, ProducerStep]);
    ThreeSteps(t, ProducerStep, ProducerStep, ProducerStep);
  }

  /**
   The tail is swung to the producer's own slot while it is being pushed: the sides do not collide, and the
   consumer ends up with the newest message.
   */
  lemma StaleHarmless(slots: seq<Payload>)
    ensures var s := Exec(Init(3, slots), STALE_LOAD + [ForcePush, ProducerStep, ProducerStep]
                                          + [ProducerStep, ForcePush] + [ConsumerStep, ProducerStep]
                                          + [ProducerStep, ProducerStep]);
      s.ppc == Idle(PushSuccess) && s.cpc == Ready(PopDiscarded) && s.held == 0 == s.last && s.current == 1
  {
    hide Step, Exec, Steps;
    var s0, r := Init(3, slots), STALE_LOAD;
    StaleLoad(slots);
    Continue(s0, r, [ForcePush, ProducerStep, ProducerStep]);
    PushThird(slots, SECOND_HELD, 1, FlushJump(SECOND_HELD, 0));
    r := r + [ForcePush, ProducerStep, ProducerStep];
    Continue(s0, r, [ProducerStep, ForcePush]);
    HarmlessPush(slots);
    r := r + [ProducerStep, ForcePush];
    Continue(s0, r, [ConsumerStep, ProducerStep]);
    r := r + [ConsumerStep, ProducerStep];
    Continue(s0, r, [ProducerStep, ProducerStep]);
    HarmlessEnd(slots);
  }

  lemma HarmlessPush(slots: seq<Payload>)
    ensures var cpc := FlushJump(SECOND_HELD, 0);
      var s := At3(slots, SECOND_HELD, 2, [1, 2, INVALID], 2, 2, LoadTail(0), 1, cpc);
      var t := At3(slots, SECOND_HELD, 2, [INVALID, 2, INVALID], 2, 0, Link(1, Force), 1, cpc);
      && Steps(s, [ProducerStep, ForcePush]) == t
      && Steps(t, [ConsumerStep, ProducerStep])
         == At3(slots, FIRST_PLAIN, 2, [INVALID, 2, 0], 0, 0, Announce(1, Force), 0, Ready(PopDiscarded))
  {
    var cpc := FlushJump(SECOND_HELD, 0);
    TwoSteps(At3(slots, SECOND_HELD, 2, [1, 2, INVALID], 2, 2, LoadTail(0), 1, cpc), ProducerStep, ForcePush);
    TwoSteps(At3(slots, SECOND_HELD, 2, [INVALID, 2, INVALID], 2, 0, Link(1, Force), 1, cpc),
             ConsumerStep, ProducerStep);
  }

  lemma HarmlessEnd(slots: seq<Payload>)
    ensures Steps(At3(slots, FIRST_PLAIN, 2, [INVALID, 2, 0], 0, 0, Announce(1, Force), 0, Ready(PopDiscarded)),
                  [ProducerStep, ProducerStep])
         == At3(slots, FIRST_PLAIN, 0, [INVALID, 2, 0], 0, 1, Idle(PushSuccess), 0, Ready(PopDiscarded))
  {
    TwoSteps(At3(slots, FIRST_PLAIN, 2, [INVALID, 2, 0], 0, 0, Announce(1, Force), 0, Ready(PopDiscarded)),
             ProducerStep, ProducerStep);
  }

  lemma StaleTake(slots: seq<Payload>)
    ensures Steps(At3(slots, FIRST, 0, [INVALID, 2, 0], 0, 1, Idle(PushSuccess), INVALID, Ready(PopNone)), [Pop])
         == At3(slots, FIRST_HELD, 0, [INVALID, 2, 0], 0, 1, Idle(PushSuccess), 0, Ready(PopSuccess))
  {
    assert [Pop][1..] == [];
  }

  lemma StaleOvertake(slots: seq<Payload>)
    ensures var s := At3(slots, FIRST_HELD, 0, [1, INVALID, 0], 1, 1, Announce(2, Force), 0, Ready(PopSuccess));
      var t := At3(slots, SECOND_HELD, 0, [1, INVALID, 0], 1, 1, Announce(2, Force), 1, Ready(PopSuccess));
      && Steps(s, [Pop, ConsumerStep, ConsumerStep]) == t
      && Unannounced(t)
      && Steps(t, [Flush, ConsumerStep]) == t.(cpc := FlushJump(SECOND_HELD, 0))
  {
    var s := At3(slots, FIRST_HELD, 0, [1, INVALID, 0], 1, 1, Announce(2, Force), 0, Ready(PopSuccess));
    var t := At3(slots, SECOND_HELD, 0, [1, INVALID, 0], 1, 1, Announce(2, Force), 1, Ready(PopSuccess));
    ThreeSteps(s, Pop, ConsumerStep, ConsumerStep);
    TwoSteps(t, Flush, ConsumerStep);
  }

  lemma StaleEnd(slots: seq<Payload>)
    ensures Collision(Steps(At3(slots, SECOND_HELD, 2, [1, 2, INVALID], 2, 2, LoadTail(0), 1,
                                FlushJump(SECOND_HELD, 0)),
                            [ProducerStep, ConsumerStep]))
  {
    TwoSteps(At3(slots, SECOND_HELD, 2, [1, 2, INVALID], 2, 2, LoadTail(0), 1, FlushJump(SECOND_HELD, 0)),
             ProducerStep, ConsumerStep);
  }

  // ---- the producer waits for a flag that is gone -----------------------------------------------

  const LOST_FLAG_RUN: seq<Action> :=
    FIRST_PUSH + [Flush, ConsumerStep]                  // the flush holds message 0 and is about to land on it
    + [ForcePush, ProducerStep] + [ProducerStep, ProducerStep] + [ForcePush, ProducerStep, ProducerStep]
    + [ProducerStep]                                    // the producer saw 0|FIRST|CONSUMED and will compare with it
    + [ConsumerStep, ProducerStep]

  lemma LostFlagCollides(slots: seq<Payload>)
    ensures Collision(Exec(Init(3, slots), LOST_FLAG_RUN))
  {
    hide Step, Exec, Steps;
    var s0 := Init(3, slots);
    var r := FIRST_PUSH;
    var cpc := FlushJump(FIRST_HELD, 0);
    FirstPush(slots);
    Continue(s0, r, [Flush, ConsumerStep]);
    LostFlush(slots);
    r := r + [Flush, ConsumerStep];
    Continue(s0, r, [ForcePush, ProducerStep]);
    LinkSecond(slots, FIRST_HELD, INVALID, cpc);
    r := r + [ForcePush, ProducerStep];
    Continue(s0, r, [ProducerStep, ProducerStep]);
    FinishSecond(slots, FIRST_HELD, INVALID, cpc);
    r := r + [ProducerStep, ProducerStep];
    Continue(s0, r, [ForcePush, ProducerStep, ProducerStep]);
    PushThird(slots, FIRST_HELD, INVALID, cpc);
    r := r + [ForcePush, ProducerStep, ProducerStep];
    Continue(s0, r, [ProducerStep]);
    LostEnd(slots);
    r := r + [ProducerStep];
    Continue(s0, r, [ConsumerStep, ProducerStep]);
  }

  lemma LostFlush(slots: seq<Payload>)
    ensures Steps(At3(slots, FIRST, 0, [INVALID, 2, 0], 0, 1, Idle(PushSuccess), INVALID, Ready(PopNone)),
                  [Flush, ConsumerStep])
         == At3(slots, FIRST_HELD, 0, [INVALID, 2, 0], 0, 1, Idle(PushSuccess), INVALID, FlushJump(FIRST_HELD, 0))
  {
    TwoSteps(At3(slots, FIRST, 0, [INVALID, 2, 0], 0, 1, Idle(PushSuccess), INVALID, Ready(PopNone)),
             Flush, ConsumerStep);
  }

  lemma LostEnd(slots: seq<Payload>)
    ensures var s := At3(slots, FIRST_HELD, 2, [1, 2, INVALID], 2, 2, LoadTail(0), INVALID, FlushJump(FIRST_HELD, 0));
      && Steps(s, [ProducerStep]) == s.(ppc := JumpTail(FIRST_HELD))
      && FirstLost(s.(ppc := JumpTail(FIRST_HELD)))
      && Collision(Steps(s.(ppc := JumpTail(FIRST_HELD)), [ConsumerStep, ProducerStep]))
  {
    var s := At3(slots, FIRST_HELD, 2, [1, 2, INVALID], 2, 2, LoadTail(0), INVALID, FlushJump(FIRST_HELD, 0));
    assert [ProducerStep][1..] == [];
    TwoSteps(s.(ppc := JumpTail(FIRST_HELD)), ConsumerStep, ProducerStep);
  }

  // ---- the consumer is left without a message ---------------------------------------------------

  const STRANDING_RUN: seq<Action> :=
    [ForcePush, ProducerStep]                           // message 0 is published in the tail, not in the head
    + [Flush, ConsumerStep]                             // the flush claims it, finds no head and gives up
    + [ProducerStep]

  /** Both sides are between calls, one message is waiting, and every pop returns ERROR and changes nothing. */
  lemma FlushStrandsConsumer(slots: seq<Payload>)
    ensures var s := Exec(Init(3, slots), STRANDING_RUN);
      s.ppc == Idle(PushSuccess) && Stranded(s) && s.tail == FIRST_HELD && Step(s, Pop) == s
  {
    var s0 := Init(3, slots);
    assert s0.chain == [1, 2, 0];
    var s1 := At3(slots, FIRST, INVALID, [INVALID, 2, 0], 0, 0, FirstHead(1), INVALID, Ready(PopNone));
    TwoSteps(s0, ForcePush, ProducerStep);
    Continue(s0, [], [ForcePush, ProducerStep]);
    assert [] + [ForcePush, ProducerStep] == [ForcePush, ProducerStep];
    TwoSteps(s1, Flush, ConsumerStep);
    Continue(s0, [ForcePush, ProducerStep], [Flush, ConsumerStep]);
    var r := [ForcePush, ProducerStep] + [Flush, ConsumerStep];
    assert STRANDING_RUN[..|STRANDING_RUN| - 1] == r;
  }
}
