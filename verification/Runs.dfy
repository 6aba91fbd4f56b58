/**
 Runs of the two processes, and the invariant on all of them.
 */
module Runs {
  import opened Index
  import opened Queue
  import opened History
  import opened Invariant
  import opened ProducerSteps
  import opened ConsumerSteps

  /** No flush of the run swings the tail to a slot that is not queued, or takes FIRST from a waiting producer. */
  predicate SafeRun(s: State, acts: seq<Action>) {
    acts != [] ==>
      var before := acts[..|acts| - 1];
      SafeRun(s, before) && Safe(Exec(s, before), acts[|acts| - 1])
  }

  /** A run of a queue of n slots, in any interleaving. */
  predicate Run(n: nat, slots: seq<Payload>, acts: seq<Action>) {
    3 <= n <= INDEX_MASK && |slots| == n && SafeRun(Init(n, slots), acts)
  }

  /** s is a state of some run, and h what that run recorded. */
  ghost predicate Reach(s: State, h: Hist) {
    exists n, slots, acts ::
      Run(n, slots, acts) && s == Exec(Init(n, slots), acts) && h == Record(Init(n, slots), acts)
  }

  lemma InitInv(n: nat, slots: seq<Payload>)
    requires 3 <= n <= INDEX_MASK && |slots| == n
    ensures Inv(Init(n, slots), InitHist)
  {}

  /** Every step allowed in a run keeps the invariant. */
  lemma StepInv(s: State, h: Hist, a: Action)
    requires Inv(s, h) && Safe(s, a)
    ensures Inv(Step(s, a), After(s, h, a))
  {
    hide Published, Unpublished;
    if Shape(s) && Unpublished(s, h) {
      if s.ppc.FirstTail? && a.ProducerStep? {
        KeepFirstTail(s, h);
      } else {
        KeepUnpublished(s, h, a);
      }
    } else {
      match a
      case Write(payload) => if s.ppc.Idle? { KeepWrite(s, h, payload); }
      case ForcePush => if s.ppc.Idle? { KeepStartForce(s, h); }
      case TryPush => if s.ppc.Idle? { KeepStartTry(s, h); }
      case ProducerStep => KeepStepProducer(s, h);
      case Pop => if s.cpc.Ready? { KeepStartPop(s, h); }
      case Flush => if s.cpc.Ready? { KeepStartFlush(s, h); }
      case ConsumerStep => KeepStepConsumer(s, h);
    }
  }

  /** The invariant holds after every run. */
  lemma {:induction false} RunInv(n: nat, slots: seq<Payload>, acts: seq<Action>)
    requires Run(n, slots, acts)
    ensures Inv(Exec(Init(n, slots), acts), Record(Init(n, slots), acts))
  {
    hide Inv, Step, After, Safe;
    if acts == [] {
      InitInv(n, slots);
    } else {
      var before := acts[..|acts| - 1];
      RunInv(n, slots, before);
      StepInv(Exec(Init(n, slots), before), Record(Init(n, slots), before), acts[|acts| - 1]);
    }
  }

  lemma ReachInv(s: State, h: Hist)
    requires Reach(s, h)
    ensures Inv(s, h)
  {
    hide Inv, Exec, Record, SafeRun;
    var n, slots, acts :| Run(n, slots, acts) && s == Exec(Init(n, slots), acts) && h == Record(Init(n, slots), acts);
    RunInv(n, slots, acts);
  }

  /** A step from a reachable state leads to a reachable state. */
  lemma ReachStep(s: State, h: Hist, a: Action)
    requires Reach(s, h) && Safe(s, a)
    ensures Reach(Step(s, a), After(s, h, a))
  {
    hide Step, After, Safe;
    var n, slots, acts :| Run(n, slots, acts) && s == Exec(Init(n, slots), acts) && h == Record(Init(n, slots), acts);
    var acts' := acts + [a];
    assert acts'[..|acts'| - 1] == acts;
    assert Run(n, slots, acts');
  }

  lemma StepNoFlush(s: State, a: Action)
    requires !a.Flush? && !Flushing(s.cpc)
    ensures !Flushing(Step(s, a).cpc) && Safe(s, a)
  {}

  /** Runs of pushes and pops alone are always allowed. */
  lemma {:induction false} PushPopRun(n: nat, slots: seq<Payload>, acts: seq<Action>)
    requires 3 <= n <= INDEX_MASK && |slots| == n && Flush !in acts
    ensures Run(n, slots, acts)
    ensures !Flushing(Exec(Init(n, slots), acts).cpc)
  {
    hide Step, Safe;
    if acts != [] {
      var before, a := acts[..|acts| - 1], acts[|acts| - 1];
      assert a in acts && forall b :: b in before ==> b in acts;
      PushPopRun(n, slots, before);
      StepNoFlush(Exec(Init(n, slots), before), a);
    }
  }
}
