/**
 Progress: every push and every pop ends after a bounded number of its own steps, whatever the other side does.
 */
module Progress {
  import opened Queue
  import opened Invariant

  /** Shared accesses that a push still makes at most. */
  function PushRank(pc: ProducerPc): (k: nat)
    ensures k <= 6 && (k == 0 <==> pc.Idle?)
  {
    match pc
    case Idle(_) => 0
    case FirstTail(_) => 2
    case FirstHead(_) => 1
    case Clear(_, purpose) => 2 + AnnounceRank(purpose)
    case Link(_, purpose) => 1 + AnnounceRank(purpose)
    case Announce(_, purpose) => AnnounceRank(purpose)
    case LoadTail(_) => 3
    case MoveOverrun(_, _) => 2
    case Requeue(_) => 1
    case MoveTail(_, _) => 2
    case JumpTail(_) => 1
  }

  function AnnounceRank(purpose: Purpose): (k: nat) {
    match purpose
    case Force => 4
    case TryPlain => 1
    case TryOverrun => 2
  }

  /** Shared accesses that a pop still makes at most. */
  function PopRank(pc: ConsumerPc): (k: nat) {
    match pc
    case PopLoad(_) => 3
    case PopAdvance(_, _) => 2
    case PopRetake => 1
    case _ => 0
  }

  lemma PushStepRanks(s: State)
    ensures !s.ppc.Idle? ==> PushRank(StepProducer(s).ppc) < PushRank(s.ppc)
  {}

  /** Calls begin with their first access; five more and the push is over, three more and the pop is. */
  lemma StartRanks(s: State)
    ensures PushRank(StartForcePush(s).ppc) <= 5 && PushRank(StartTryPush(s).ppc) <= 4
    ensures PopRank(StartPop(s).cpc) <= 3 && !Flushing(StartPop(s).cpc)
  {}

  function Occurs(acts: seq<Action>, a: Action): (k: nat) {
    if acts == [] then 0 else Occurs(acts[..|acts| - 1], a) + if acts[|acts| - 1] == a then 1 else 0
  }

  /** The producer is between calls at some point of the run. */
  ghost predicate PushOver(s: State, acts: seq<Action>) {
    exists k :: 0 <= k <= |acts| && Exec(s, acts[..k]).ppc.Idle?
  }

  ghost predicate PopOver(s: State, acts: seq<Action>) {
    exists k :: 0 <= k <= |acts| && Exec(s, acts[..k]).cpc.Ready?
  }

  lemma PushOverLater(s: State, acts: seq<Action>, a: Action)
    requires PushOver(s, acts) || Exec(s, acts + [a]).ppc.Idle?
    ensures PushOver(s, acts + [a])
  {
    var all := acts + [a];
    assert all[..|all|] == all;
    if PushOver(s, acts) {
      var k :| 0 <= k <= |acts| && Exec(s, acts[..k]).ppc.Idle?;
      assert all[..k] == acts[..k];
    }
  }

  lemma PopOverLater(s: State, acts: seq<Action>, a: Action)
    requires PopOver(s, acts) || Exec(s, acts + [a]).cpc.Ready?
    ensures PopOver(s, acts + [a])
  {
    var all := acts + [a];
    assert all[..|all|] == all;
    if PopOver(s, acts) {
      var k :| 0 <= k <= |acts| && Exec(s, acts[..k]).cpc.Ready?;
      assert all[..k] == acts[..k];
    }
  }

  lemma PushRankStep(s: State, a: Action)
    requires !s.ppc.Idle?
    ensures PushRank(Step(s, a).ppc) + (if a.ProducerStep? then 1 else 0) <= PushRank(s.ppc)
  {
    hide StepProducer;
    PushStepRanks(s);
    ConsumerKeeps(s);
  }

  lemma ConsumerKeeps(s: State)
    ensures StepConsumer(s).ppc == s.ppc && StartPop(s).ppc == s.ppc && StartFlush(s).ppc == s.ppc
    ensures StepProducer(s).cpc == s.cpc && StartForcePush(s).cpc == s.cpc && StartTryPush(s).cpc == s.cpc
  {}

  lemma PopRankStep(s: State, a: Action)
    requires !s.cpc.Ready? && !Flushing(s.cpc)
    ensures PopRank(Step(s, a).cpc) + (if a.ConsumerStep? then 1 else 0) <= PopRank(s.cpc)
    ensures !Flushing(Step(s, a).cpc) && PopRank(s.cpc) > 0
  {
    hide StepProducer;
    ConsumerKeeps(s);
  }

  /**
   Pushes are wait-free: in any interleaving a push ends after as many steps of the producer as its rank, which is
   at most five after its first access.
   */
  lemma {:induction false} PushWaitFree(s: State, acts: seq<Action>)
    ensures PushOver(s, acts) || PushRank(Exec(s, acts).ppc) + Occurs(acts, ProducerStep) <= PushRank(s.ppc)
    ensures Occurs(acts, ProducerStep) >= PushRank(s.ppc) ==> PushOver(s, acts)
  {
    hide Step, PushOver;
    if acts == [] {
      NoSteps(s);
    } else {
      var before, a := acts[..|acts| - 1], acts[|acts| - 1];
      assert acts == before + [a];
      PushWaitFree(s, before);
      if PushOver(s, before) {
        PushOverLater(s, before, a);
      } else {
        NotYet(s, before);
        PushRankStep(Exec(s, before), a);
        if Exec(s, acts).ppc.Idle? {
          PushOverLater(s, before, a);
        }
      }
    }
  }

  lemma NoSteps(s: State)
    ensures s.ppc.Idle? ==> PushOver(s, [])
    ensures s.cpc.Ready? ==> PopOver(s, [])
  {
    var none: seq<Action> := [];
    assert none[..0] == none && Exec(s, none) == s;
  }

  lemma NotYet(s: State, acts: seq<Action>)
    ensures !PushOver(s, acts) ==> !Exec(s, acts).ppc.Idle?
    ensures !PopOver(s, acts) ==> !Exec(s, acts).cpc.Ready?
  {
    assert acts[..|acts|] == acts;
  }

  /**
   Pops are wait-free: a pop ends after as many steps of the consumer as its rank, at most three after its first
   access.
   */
  lemma {:induction false} PopWaitFree(s: State, acts: seq<Action>)
    requires !Flushing(s.cpc)
    ensures PopOver(s, acts) || PopRank(Exec(s, acts).cpc) + Occurs(acts, ConsumerStep) <= PopRank(s.cpc)
    ensures PopOver(s, acts) || (!Flushing(Exec(s, acts).cpc) && PopRank(Exec(s, acts).cpc) > 0)
    ensures Occurs(acts, ConsumerStep) >= PopRank(s.cpc) ==> PopOver(s, acts)
  {
    hide Step, PopOver;
    if acts == [] {
      NoSteps(s);
    } else {
      var before, a := acts[..|acts| - 1], acts[|acts| - 1];
      assert acts == before + [a];
      PopWaitFree(s, before);
      if PopOver(s, before) {
        PopOverLater(s, before, a);
      } else {
        NotYet(s, before);
        PopRankStep(Exec(s, before), a);
        if Exec(s, acts).cpc.Ready? {
          PopOverLater(s, before, a);
        }
      }
    }
  }

  /** The state after the producer has finished its call undisturbed. */
  function Finish(s: State): (r: State)
    ensures r.ppc.Idle?
    decreases PushRank(s.ppc)
  {
    PushStepRanks(s);
    if s.ppc.Idle? then s else Finish(StepProducer(s))
  }
}
