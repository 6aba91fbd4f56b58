/**
 The queue as the program holds it: fields and arrays changed in place by force_push, try_push, pop and
 flush, written as the program writes them, with the other process free to run between any two accesses to
 shared words.

 The object remembers the actions taken so far. Its invariant says that its fields are the state those
 actions lead to, so that everything proved of runs holds of it.
 */
module QueueObject {
  import opened Index
  import opened Queue
  import opened History
  import opened Invariant
  import opened ConsumerSteps
  import opened Runs
  import opened Guarantees
  import opened Losses
  import opened Effects
  import opened Peers

  class SharedQueue {
    const n: nat
    const chain: array<nat>
    const slots: array<Payload>
    const localChain: array<nat>
    var tail: TailWord
    var head: nat
    var last: nat
    var current: nat
    var overrun: nat
    var held: nat
    var ppc: ProducerPc
    var cpc: ConsumerPc
    ghost const start: State
    ghost var trace: seq<Action>
    ghost var pushes: seq<Action>
    ghost var pops: seq<Action>

    function Now(): (s: State)
      reads this, chain, slots, localChain
    {
      State(n, tail, head, chain[..], slots[..], localChain[..], last, current, overrun, ppc, held, cpc)
    }

    /** The fields are the state that the actions taken so far lead to. */
    ghost predicate Valid()
      reads this, chain, slots, localChain
    {
      && chain != localChain
      && chain.Length == localChain.Length == slots.Length == n
      && 3 <= n <= INDEX_MASK && |start.slots| == n && start == Init(n, start.slots)
      && Now() == Exec(start, trace)
      && pushes == PushCalls(trace) && pops == PopCalls(trace)
    }

    /** What the actions so far amount to. */
    ghost function Past(): (j: Journal)
      reads this`trace
    {
      Record(start, trace).j
    }

    /** The contents of the messages pushed so far. */
    ghost function Sent(): (p: seq<Payload>)
      reads this`trace
    {
      Past().sent
    }

    /** The number of messages dropped so far. */
    ghost function Lost(): (k: nat)
      reads this`trace
    {
      Count(Past().log, Dropped)
    }

    /** Those actions are a run in the sense of Runs, and no flush is in progress. */
    ghost predicate Sound()
      reads this
    {
      Run(n, start.slots, trace) && !Flushing(cpc)
    }

    /** ri_producer_queue_new, ri_consumer_queue_new and ri_queue_init_shm. */
    constructor (n: nat, contents: Payload)
      requires 3 <= n <= INDEX_MASK
      ensures Valid() && Sound() && pushes == pops == [] && this.n == n
      ensures fresh(chain) && fresh(slots) && fresh(localChain)
    {
      hide Step, After, Safe;
      this.n := n;
      chain := new nat[n];
      localChain := new nat[n];
      slots := new Payload[n](_ => contents);
      tail, head := Empty, INVALID;
      last, current, overrun, held := INVALID, 0, INVALID, INVALID;
      ppc, cpc := Idle(PushNone), Ready(PopNone);
      trace, pushes, pops := [], [], [];
      start := Init(n, seq(n, _ => contents));
      new;
      for i := 0 to n - 1
        modifies chain, localChain
        invariant forall k :: 0 <= k < i ==> chain[k] == localChain[k] == k + 1
      {
        localChain[i] := i + 1;
        chain[i] := i + 1;
      }
      localChain[n - 1] := 0;
      chain[n - 1] := 0;
      assert chain[..] == InitialChain(n) && localChain[..] == InitialChain(n);
      assert slots[..] == start.slots;
    }

    /** The consumer's process runs for a while. */
    method PeerPops(acts: seq<Action>)
      requires Valid() && Sound() && Popping(acts)
      modifies this`tail, this`held, this`cpc, this`trace, this`pops
      ensures Valid() && Sound()
      ensures trace == old(trace) + acts
      ensures Sent() == old(Sent()) && Lost() == old(Lost())
    {
      hide Step, Count, Record;
      var s := Exec(Now(), acts);
      PoppingPast(start, trace, acts);
      PoppingFrame(Now(), acts);
      ExecConcat(start, trace, acts);
      SafeConcat(start, trace, acts);
      CallsConcat(trace, acts);
      PeerCalls(acts);
      tail, held, cpc := s.tail, s.held, s.cpc;
      trace := trace + acts;
      pops := pops + PopCalls(acts);
      assert Now() == s;
    }

    /** The fields that the producer's process may change take the values they have in s. */
    method Load(s: State)
      requires chain != localChain && |s.chain| == chain.Length && |s.localChain| == localChain.Length
      requires |s.slots| == slots.Length && s.n == n && s.held == held && s.cpc == cpc
      modifies this`tail, this`head, this`last, this`current, this`overrun, this`ppc, chain, slots, localChain
      ensures Now() == s
    {
      forall i | 0 <= i < chain.Length { chain[i] := s.chain[i]; }
      forall i | 0 <= i < localChain.Length { localChain[i] := s.localChain[i]; }
      forall i | 0 <= i < slots.Length { slots[i] := s.slots[i]; }
      tail, head, last, current, overrun, ppc := s.tail, s.head, s.last, s.current, s.overrun, s.ppc;
      assert chain[..] == s.chain && localChain[..] == s.localChain && slots[..] == s.slots;
    }

    /** The producer's process runs for a while. */
    method PeerPushes(acts: seq<Action>)
      requires Valid() && Pushing(acts)
      modifies this, chain, slots, localChain
      ensures Valid() && held == old(held) && cpc == old(cpc) && pops == old(pops)
      ensures trace == old(trace) + acts
      ensures old(Sound()) ==> Sound()
      ensures acts == [] ==>
        trace == old(trace) && Now() == old(Now()) && tail == old(tail) && ppc == old(ppc) && Sent() == old(Sent())
      ensures Past().claim == old(Past().claim) && Past().received == old(Past().received)
    {
      hide Step, SafeRun, Record;
      PushingPast(start, trace, acts);
      var s := Exec(Now(), acts);
      PushingFrame(Now(), acts);
      ExecConcat(start, trace, acts);
      CallsConcat(trace, acts);
      PeerCalls(acts);
      if Sound() {
        SafeConcat(start, trace, acts);
      }
      Load(s);
      trace := trace + acts;
      pushes := pushes + PushCalls(acts);
      assert acts == [] ==> trace == old(trace);
    }

    /** chain_store: the local copy, then the shared word. */
    method ChainStore(i: nat, v: nat)
      requires chain != localChain && i < chain.Length == localChain.Length
      modifies chain, localChain
      ensures chain[..] == old(chain[..])[i := v]
      ensures localChain[..] == old(localChain[..])[i := v]
    {
      localChain[i] := v;
      chain[i] := v;
    }

    /** Every index the producer is about to use is within the arrays. */
    lemma InBounds()
      requires Valid() && Sound()
      ensures chain.Length == localChain.Length == slots.Length == n
      ensures ppc.Idle? || ppc.FirstTail? || ppc.Clear? || ppc.Link? ==> current < n
      ensures ppc.Link? ==> last < n
      ensures ppc.Requeue? ==> overrun < n
      ensures ppc.MoveOverrun? || ppc.MoveTail? || ppc.JumpTail? ==>
        var i := ppc.seen.Masked(); i < n && localChain[i] < n
      ensures cpc.PopLoad? ==> held < n
      ensures ppc != Idle(PushError)
    {
      hide Run, Exec, Record;
      assert Reach(Now(), Record(start, trace)) by { RunReach(n, start.slots, trace); }
      AccessesInBounds(Now(), Record(start, trace));
      NoPushError(Now(), Record(start, trace));
    }

    /** Between calls: the two sides have different slots, and the consumer's holds what was pushed last to reach it. */
    lemma Exclusive()
      requires Valid() && Sound() && ppc.Idle? && cpc.Ready?
      ensures current < n && held != current
      ensures held != INVALID ==>
        held < slots.Length && 0 <= Past().claim < |Sent()| && slots[held] == Sent()[Past().claim]
    {
      hide Run, Exec, Record;
      assert Reach(Now(), Record(start, trace)) by { RunReach(n, start.slots, trace); }
      ExclusiveSlots(Now(), Record(start, trace));
      if held != INVALID {
        HeldContent(Now(), Record(start, trace));
      }
    }

    /** Closing one action: the fields hold what the action computes from the state before it. */
    ghost method Done(a: Action, before: State)
      requires chain != localChain && chain.Length == localChain.Length == slots.Length == n
      requires 3 <= n <= INDEX_MASK && |start.slots| == n && start == Init(n, start.slots)
      requires pushes == PushCalls(trace) && pops == PopCalls(trace)
      requires before == Exec(start, trace) && Now() == Step(before, a)
      modifies this`trace, this`pushes, this`pops
      ensures Valid()
      ensures pushes == old(pushes) + (if a.ForcePush? || a.TryPush? then [a] else [])
      ensures pops == old(pops) + (if a.Pop? || a.Flush? then [a] else [])
      ensures old(Run(n, start.slots, trace)) && !Flushing(before.cpc) && !a.Flush? ==> Sound()
      ensures Sent() == old(Sent()) + LinkedBy(before, a)
      ensures !Flushing(before.cpc) && !a.Flush? ==> Lost() == old(Lost()) + if Discards(before, a) then 1 else 0
      ensures old(Run(n, start.slots, trace)) && PopRuns(before, a) ==>
        if cpc.Ready? then Took(cpc.result, old(Past()), Past(), Content(Now(), held)) else Past() == old(Past())
      ensures old(Run(n, start.slots, trace)) && PopRuns(before, a) ==>
        (cpc == Ready(PopError) <==> a.Pop? && Stranded(before) && before.tail.IsConsumed())
      ensures trace == old(trace) + [a]
    {
      hide Step, Flushing, After, Count, Discards, LinkedBy, Took, Stranded, PopRuns;
      if !Flushing(before.cpc) && !a.Flush? {
        StepNoFlush(before, a);
        ActionLost(before, Record(start, trace), a);
      }
      SameLength(start, trace);
      ActionSent(before, Record(start, trace), a);
      if Run(n, start.slots, trace) && PopRuns(before, a) {
        RunReach(n, start.slots, trace);
        ActionTakes(before, Record(start, trace), a);
        ActionFails(before, Record(start, trace), a);
      }
      trace := trace + [a];
      assert trace[..|trace| - 1] == old(trace);
      pushes, pops := PushCalls(trace), PopCalls(trace);
    }

    // ---- the producer's accesses to shared words --------------------------------------------------

    /** The first store of enqueue_first_msg and of enqueue_msg: chain[current] = INVALID. */
    method ClearCurrent(a: Action, pc: ProducerPc)
      requires Valid() && Sound() && current < n && !a.Flush?
      requires (ppc.Idle? && (a.ForcePush? || (a.TryPush? && last == INVALID))) || (ppc.Clear? && a.ProducerStep?)
      requires pc == if ppc.Clear? then Link(ppc.next, ppc.purpose)
                     else if last == INVALID then FirstTail(localChain[current]) else Link(localChain[current], Force)
      modifies this`ppc, this`trace, this`pushes, this`pops, chain, localChain
      ensures Valid() && Sound() && ppc == pc
      ensures pushes == if a.ProducerStep? then old(pushes) else old(pushes) + [a]
      ensures Sent() == old(Sent()) && Lost() == old(Lost())
    {
      hide Exec, Run, PopRuns, Took, Record, Sent, Lost, Past, PushCalls, PopCalls;
      ghost var before := Now();
      ChainStore(current, INVALID);
      ppc := pc;
      Done(a, before);
    }

    /** enqueue_first_msg: the tail, flagged FIRST. */
    method PublishTail(next: nat)
      requires Valid() && Sound() && ppc == FirstTail(next)
      requires current < slots.Length
      modifies this`tail, this`last, this`ppc, this`trace, this`pushes, this`pops
      ensures Valid() && Sound() && pushes == old(pushes) && ppc == FirstHead(next)
      ensures Sent() == old(Sent()) + [old(slots[current])] && Lost() == old(Lost())
    {
      hide Exec, Run, PopRuns, Took, Record, Sent, Lost, Past, PushCalls, PopCalls;
      ghost var before := Now();
      tail := Tail(current, false, true);
      last := current;
      ppc := FirstHead(next);
      Done(ProducerStep, before);
    }

    /** enqueue_first_msg: the head; the producer then goes on to the next slot. */
    method PublishHead(next: nat)
      requires Valid() && Sound() && ppc == FirstHead(next)
      modifies this`head, this`current, this`ppc, this`trace, this`pushes, this`pops
      ensures Valid() && Sound() && pushes == old(pushes) && ppc == Idle(PushSuccess)
      ensures Sent() == old(Sent()) && Lost() == old(Lost())
    {
      hide Exec, Run, PopRuns, Took, Record, Sent, Lost, Past, PushCalls, PopCalls;
      ghost var before := Now();
      head := last;
      current := next;
      ppc := Idle(PushSuccess);
      Done(ProducerStep, before);
    }

    /** enqueue_msg: the new message is linked behind the newest. */
    method LinkCurrent(next: nat, purpose: Purpose)
      requires Valid() && Sound() && ppc == Link(next, purpose) && last < n
      requires current < slots.Length
      modifies this`last, this`ppc, this`trace, this`pushes, this`pops, chain, localChain
      ensures Valid() && Sound() && pushes == old(pushes) && ppc == Announce(next, purpose)
      ensures Sent() == old(Sent()) + [old(slots[current])] && Lost() == old(Lost())
    {
      hide Exec, Run, PopRuns, Took, Record, Sent, Lost, Past, PushCalls, PopCalls;
      ghost var before := Now();
      ChainStore(last, current);
      last := current;
      ppc := Announce(next, purpose);
      Done(ProducerStep, before);
    }

    /** enqueue_msg: the new message is announced; a try_push with room then goes on to the next slot. */
    method AnnounceLast(next: nat, purpose: Purpose)
      requires Valid() && Sound() && ppc == Announce(next, purpose)
      modifies this`head, this`current, this`ppc, this`trace, this`pushes, this`pops
      ensures Valid() && Sound() && pushes == old(pushes)
      ensures ppc == match purpose
                     case Force => LoadTail(next)
                     case TryPlain => Idle(PushSuccess)
                     case TryOverrun => Requeue(next)
      ensures Sent() == old(Sent()) && Lost() == old(Lost())
    {
      hide Exec, Run, PopRuns, Took, Record, Sent, Lost, Past, PushCalls, PopCalls;
      ghost var before := Now();
      head := last;
      match purpose {
        case Force => ppc := LoadTail(next);
        case TryPlain => current := next; ppc := Idle(PushSuccess);
        case TryOverrun => ppc := Requeue(next);
      }
      Done(ProducerStep, before);
    }

    /** force_push: the load of the tail and the branch taken on it. */
    method LoadAndDecide(next: nat)
      requires Valid() && Sound() && ppc == LoadTail(next)
      modifies this`current, this`ppc, this`trace, this`pushes, this`pops
      ensures Valid() && Sound() && pushes == old(pushes)
      ensures ppc in {Idle(PushError), Idle(PushSuccess), Requeue(next)} || ppc.JumpTail?
           || ((ppc.MoveOverrun? || ppc.MoveTail?) && ppc.next == next)
      ensures Sent() == old(Sent()) && Lost() == old(Lost())
    {
      hide Exec, Run, PopRuns, Took, Record, Sent, Lost, Past, PushCalls, PopCalls;
      ghost var before := Now();
      var seen := tail;
      if seen.Masked() >= n {
        ppc := Idle(PushError);
      } else if overrun != INVALID {
        if seen.IsConsumed() {
          ppc := Requeue(next);
        } else {
          ppc := MoveOverrun(next, seen);
        }
      } else if next != seen.Masked() {
        current := next;
        ppc := Idle(PushSuccess);
      } else if !seen.IsConsumed() {
        ppc := MoveTail(next, seen);
      } else {
        ppc := JumpTail(seen);
      }
      Done(ProducerStep, before);
    }

    /** try_push: the same load, before anything is enqueued. */
    method LoadAndTry(next: nat)
      requires Valid() && Sound() && ppc.Idle? && last != INVALID && current < n && next == localChain[current]
      modifies this`ppc, this`trace, this`pushes, this`pops
      ensures Valid() && Sound() && pushes == old(pushes) + [Action.TryPush]
      ensures ppc in {Idle(PushError), Idle(PushFail), Clear(next, TryOverrun), Clear(next, TryPlain)}
      ensures Sent() == old(Sent()) && Lost() == old(Lost())
    {
      hide Exec, Run, PopRuns, Took, Record, Sent, Lost, Past, PushCalls, PopCalls;
      ghost var before := Now();
      var seen := tail;
      if seen.Masked() >= n {
        ppc := Idle(PushError);
      } else if overrun != INVALID {
        ppc := if seen.IsConsumed() then Clear(next, TryOverrun) else Idle(PushFail);
      } else {
        ppc := if next == seen.Masked() then Idle(PushFail) else Clear(next, TryPlain);
      }
      Done(Action.TryPush, before);
    }

    /** move_tail: the compare-exchange from the tail seen to its successor. */
    method TryMoveTail(next: nat, seen: TailWord) returns (moved: bool)
      requires Valid() && Sound() && (ppc == MoveTail(next, seen) || ppc == MoveOverrun(next, seen))
      requires seen.Masked() < n
      modifies this`tail, this`current, this`ppc, this`trace, this`pushes, this`pops
      ensures Valid() && Sound() && pushes == old(pushes)
      ensures moved ==> ppc == Idle(PushDiscarded)
      ensures !moved ==> ppc == if old(ppc).MoveTail? then JumpTail(seen.Consume()) else Requeue(next)
      ensures Sent() == old(Sent()) && Lost() == old(Lost()) + if moved then 1 else 0
    {
      hide Exec, Run, PopRuns, Took, Record, Sent, Lost, Past, PushCalls, PopCalls;
      ghost var before := Now();
      moved := tail == seen;
      if moved {
        tail := Plain(localChain[seen.Masked()]);
        current := if ppc.MoveTail? then next else seen.Masked();
        ppc := Idle(PushDiscarded);
      } else {
        ppc := if ppc.MoveTail? then JumpTail(seen.Consume()) else Requeue(next);
      }
      Done(ProducerStep, before);
    }

    /** overrun(): the compare-exchange over the consumer's slot. */
    method TryJump(seen: TailWord) returns (jumped: bool)
      requires Valid() && Sound() && ppc == JumpTail(seen) && seen.Masked() < n && localChain[seen.Masked()] < n
      modifies this`tail, this`overrun, this`current, this`ppc, this`trace, this`pushes, this`pops
      ensures Valid() && Sound() && pushes == old(pushes)
      ensures ppc == Idle(if jumped then PushDiscarded else PushSuccess)
      ensures Sent() == old(Sent()) && Lost() == old(Lost()) + if jumped then 1 else 0
    {
      hide Exec, Run, PopRuns, Took, Record, Sent, Lost, Past, PushCalls, PopCalls;
      ghost var before := Now();
      var newCurrent := localChain[seen.Masked()];
      var newTail := localChain[newCurrent];
      jumped := tail == seen;
      if jumped {
        tail := Plain(newTail);
        overrun := seen.Masked();
        current := newCurrent;
        ppc := Idle(PushDiscarded);
      } else {
        current := seen.Masked();
        ppc := Idle(PushSuccess);
      }
      Done(ProducerStep, before);
    }

    /** The slot given back by the consumer is linked in front of the ring and becomes the producer's. */
    method RequeueOverrun(next: nat)
      requires Valid() && Sound() && ppc == Requeue(next) && overrun < n
      modifies this`overrun, this`current, this`ppc, this`trace, this`pushes, this`pops, chain, localChain
      ensures Valid() && Sound() && pushes == old(pushes) && ppc == Idle(PushSuccess)
      ensures Sent() == old(Sent()) && Lost() == old(Lost())
    {
      hide Exec, Run, PopRuns, Took, Record, Sent, Lost, Past, PushCalls, PopCalls;
      ghost var before := Now();
      ChainStore(overrun, next);
      current := overrun;
      overrun := INVALID;
      ppc := Idle(PushSuccess);
      Done(ProducerStep, before);
    }

    // ---- pushes ---------------------------------------------------------------------------------

    /** ri_producer_queue_force_push, with the consumer's process running between its accesses. */
    method ForcePush(peers: seq<seq<Action>>) returns (r: PushResult)
      requires Valid() && Sound() && ppc.Idle?
      requires forall i :: 0 <= i < |peers| ==> Popping(peers[i])
      modifies this, chain, localChain
      ensures Valid() && Sound() && ppc == Idle(r) && r in {PushSuccess, PushDiscarded}
      ensures pushes == old(pushes) + [Action.ForcePush]
      ensures old(current) < n && Sent() == old(Sent()) + [old(slots[..])[old(current)]]
      ensures Lost() == old(Lost()) + if r == PushDiscarded then 1 else 0
    {
      hide Valid, Sound, Now, Sent, Lost, Past;
      InBounds();
      var next := localChain[current];
      if last == INVALID {
        EnqueueFirst(Action.ForcePush, next, peers);
        return PushSuccess;
      }
      ClearCurrent(Action.ForcePush, Link(next, Force));
      EnqueueLinked(next, Force, peers);
      PeerPops(Peer(peers, 2));
      LoadAndDecide(next);
      InBounds();
      if !ppc.Idle? {
        MakeRoom(peers);
      }
      r := ppc.result;
    }

    method EnqueueFirst(a: Action, next: nat, peers: seq<seq<Action>>)
      requires Valid() && Sound() && ppc.Idle? && last == INVALID
      requires current < localChain.Length && next == localChain[current]
      requires current < n && (a.ForcePush? || a.TryPush?)
      requires forall i :: 0 <= i < |peers| ==> Popping(peers[i])
      requires current < slots.Length
      modifies this, chain, localChain
      ensures Valid() && Sound() && ppc == Idle(PushSuccess) && pushes == old(pushes) + [a]
      ensures Sent() == old(Sent()) + [old(slots[current])] && Lost() == old(Lost())
    {
      hide Valid, Sound, Now, Sent, Lost, Past;
      ClearCurrent(a, FirstTail(next));
      PeerPops(Peer(peers, 0));
      PublishTail(next);
      PeerPops(Peer(peers, 1));
      PublishHead(next);
    }

    /** The rest of enqueue_msg, once the new end of the chain is in place. */
    method EnqueueLinked(next: nat, purpose: Purpose, peers: seq<seq<Action>>)
      requires Valid() && Sound() && ppc == Link(next, purpose)
      requires forall i :: 0 <= i < |peers| ==> Popping(peers[i])
      requires current < slots.Length
      modifies this, chain, localChain
      ensures Valid() && Sound() && pushes == old(pushes)
      ensures ppc == match purpose
                     case Force => LoadTail(next)
                     case TryPlain => Idle(PushSuccess)
                     case TryOverrun => Requeue(next)
      ensures Sent() == old(Sent()) + [old(slots[current])] && Lost() == old(Lost())
    {
      hide Valid, Sound, Now, Sent, Lost, Past;
      PeerPops(Peer(peers, 0));
      InBounds();
      LinkCurrent(next, purpose);
      PeerPops(Peer(peers, 1));
      AnnounceLast(next, purpose);
    }

    /** What force_push does when the tail it loaded does not let it simply go on. */
    method MakeRoom(peers: seq<seq<Action>>)
      requires Valid() && Sound() && (ppc.Requeue? || ppc.MoveOverrun? || ppc.MoveTail? || ppc.JumpTail?)
      requires forall i :: 0 <= i < |peers| ==> Popping(peers[i])
      modifies this, chain, localChain
      ensures Valid() && Sound() && pushes == old(pushes)
      ensures ppc in {Idle(PushSuccess), Idle(PushDiscarded)}
      ensures Sent() == old(Sent()) && Lost() == old(Lost()) + if ppc == Idle(PushDiscarded) then 1 else 0
    {
      hide Valid, Sound, Now, Sent, Lost, Past;
      PeerPops(Peer(peers, 3));
      InBounds();
      if ppc.Requeue? {
        RequeueOverrun(ppc.next);
      } else if ppc.JumpTail? {
        var _ := TryJump(ppc.seen);
      } else {
        var next, seen := ppc.next, ppc.seen;
        var plain := ppc.MoveTail?;
        var moved := TryMoveTail(next, seen);
        if !moved {
          PeerPops(Peer(peers, 4));
          InBounds();
          if plain {
            var _ := TryJump(seen.Consume());
          } else {
            RequeueOverrun(next);
          }
        }
      }
    }

    /** ri_producer_queue_try_push. */
    method TryPush(peers: seq<seq<Action>>) returns (r: PushResult)
      requires Valid() && Sound() && ppc.Idle?
      requires forall i :: 0 <= i < |peers| ==> Popping(peers[i])
      modifies this, chain, localChain
      ensures Valid() && Sound() && ppc == Idle(r) && r in {PushSuccess, PushFail}
      ensures pushes == old(pushes) + [Action.TryPush]
      ensures old(current) < n
      ensures Sent() == old(Sent()) + if r == PushSuccess then [old(slots[..])[old(current)]] else []
      ensures Lost() == old(Lost())
    {
      hide Valid, Sound, Now, Sent, Lost, Past;
      InBounds();
      var next := localChain[current];
      if last == INVALID {
        EnqueueFirst(Action.TryPush, next, peers);
        return PushSuccess;
      }
      LoadAndTry(next);
      InBounds();
      if ppc.Idle? {
        return ppc.result;
      }
      var purpose := ppc.purpose;
      ClearCurrent(ProducerStep, Link(next, purpose));
      EnqueueLinked(next, purpose, peers);
      if ppc.Requeue? {
        PeerPops(Peer(peers, 2));
        InBounds();
        RequeueOverrun(next);
      }
      r := ppc.result;
    }

    /** The application fills the producer's slot. */
    method Fill(payload: Payload)
      requires Valid() && Sound() && ppc.Idle?
      modifies this`trace, this`pushes, this`pops, slots
      ensures Valid() && Sound() && pushes == old(pushes)
      ensures current < slots.Length && slots[..] == old(slots[..])[current := payload]
      ensures Sent() == old(Sent()) && Lost() == old(Lost())
    {
      hide Exec, SafeRun;
      InBounds();
      ghost var before := Now();
      slots[current] := payload;
      Done(Write(payload), before);
    }

    // ---- pops -----------------------------------------------------------------------------------

    /** pop: the fetch-or of the tail, and the branch taken on it. */
    method TakeTail()
      requires Valid() && Sound() && cpc.Ready?
      modifies this`tail, this`held, this`cpc, this`trace, this`pushes, this`pops
      ensures Valid() && Sound() && pops == old(pops) + [Action.Pop]
      ensures cpc.Ready? || cpc.PopLoad?
      ensures if cpc.Ready? then Took(cpc.result, old(Past()), Past(), Content(Now(), held)) else Past() == old(Past())
      ensures cpc == Ready(PopError) <==> old(Stranded(Now())) && old(tail).IsConsumed()
    {
      hide Exec, SafeRun, Took, Record, Sent, Lost, Past, PushCalls, PopCalls;
      ghost var before := Now();
      var seen := tail;
      tail := seen.Consume();
      if seen.Empty? {
        cpc := Ready(PopNoMsg);
      } else if seen.Masked() >= n {
        cpc := Ready(PopError);
      } else if !seen.IsConsumed() {
        held := seen.Masked();
        cpc := Ready(if seen.IsFirst() then PopSuccess else PopDiscarded);
      } else if held == INVALID {
        cpc := Ready(PopError);
      } else {
        cpc := PopLoad(seen);
      }
      Done(Action.Pop, before);
    }

    /** pop: the load of the next link. */
    method LookAhead()
      requires Valid() && Sound() && cpc.PopLoad? && held < chain.Length
      modifies this`cpc, this`trace, this`pushes, this`pops
      ensures Valid() && Sound() && pops == old(pops)
      ensures cpc.Ready? || cpc.PopAdvance?
      ensures if cpc.Ready? then Took(cpc.result, old(Past()), Past(), Content(Now(), held)) else Past() == old(Past())
      ensures cpc != Ready(PopError)
    {
      hide Exec, SafeRun, Took, Record, Sent, Lost, Past, PushCalls, PopCalls;
      ghost var before := Now();
      var next := chain[held];
      if next == INVALID {
        cpc := Ready(PopNoUpdate);
      } else if next >= n {
        cpc := Ready(PopError);
      } else {
        cpc := PopAdvance(cpc.seen, next);
      }
      Done(ConsumerStep, before);
    }

    /** pop: the compare-exchange of the tail. */
    method AdvanceTail()
      requires Valid() && Sound() && cpc.PopAdvance?
      modifies this`tail, this`held, this`cpc, this`trace, this`pushes, this`pops
      ensures Valid() && Sound() && pops == old(pops)
      ensures cpc.Ready? || cpc.PopRetake?
      ensures if cpc.Ready? then Took(cpc.result, old(Past()), Past(), Content(Now(), held)) else Past() == old(Past())
      ensures cpc != Ready(PopError)
    {
      hide Exec, SafeRun, Took, Record, Sent, Lost, Past, PushCalls, PopCalls;
      ghost var before := Now();
      if tail == cpc.seen {
        tail := Tail(cpc.next, true, false);
        held := cpc.next;
        cpc := Ready(PopSuccess);
      } else {
        cpc := PopRetake;
      }
      Done(ConsumerStep, before);
    }

    /** pop: the producer has moved the tail, take it as it is; the index is checked with its flags. */
    method RetakeTail()
      requires Valid() && Sound() && cpc.PopRetake?
      modifies this`tail, this`held, this`cpc, this`trace, this`pushes, this`pops
      ensures Valid() && Sound() && pops == old(pops) && cpc.Ready?
      ensures if cpc.Ready? then Took(cpc.result, old(Past()), Past(), Content(Now(), held)) else Past() == old(Past())
      ensures cpc != Ready(PopError)
    {
      hide Exec, SafeRun, Took, Record, Sent, Lost, Past, PushCalls, PopCalls;
      ghost var before := Now();
      var seen := tail;
      tail := seen.Consume();
      if seen.Packed() >= n {
        cpc := Ready(PopError);
      } else {
        held := seen.Packed();
        cpc := Ready(PopDiscarded);
      }
      Done(ConsumerStep, before);
    }

    /** ri_consumer_queue_pop, with the producer's process running between its accesses. */
    method Pop(peers: seq<seq<Action>>) returns (r: PopResult)
      requires Valid() && Sound() && cpc.Ready?
      requires forall i :: 0 <= i < |peers| ==> Pushing(peers[i])
      modifies this, chain, slots, localChain
      ensures Valid() && Sound() && cpc == Ready(r)
      ensures r == PopError <==> old(Stranded(Now())) && old(tail).IsConsumed()
      ensures pops == old(pops) + [Action.Pop]
      ensures Took(r, old(Past()), Past(), Content(Now(), held))
    {
      hide Valid, Sound, Now, Sent, Lost, Past;
      TakeTail();
      if !cpc.Ready? {
        PeerPushes(Peer(peers, 0));
        InBounds();
        LookAhead();
      }
      if !cpc.Ready? {
        PeerPushes(Peer(peers, 1));
        AdvanceTail();
      }
      if !cpc.Ready? {
        PeerPushes(Peer(peers, 2));
        RetakeTail();
      }
      InBounds();
      r := cpc.result;
    }

    // ---- flush ----------------------------------------------------------------------------------

    /** flush: the fetch-or that begins an attempt. */
    method ClaimTail(a: Action)
      requires Valid() && ((cpc.Ready? && a.Flush?) || (cpc.FlushRetake? && a.ConsumerStep?))
      modifies this`tail, this`cpc, this`trace, this`pushes, this`pops
      ensures Valid() && pops == if a.Flush? then old(pops) + [a] else old(pops)
      ensures cpc.Ready? || (cpc.FlushLoad? && tail == cpc.seen)
      ensures trace == old(trace) + [a]
      ensures cpc.Ready? ==> cpc.result in {PopNoMsg, PopError}
      ensures cpc == Ready(PopNoMsg) ==> tail.Empty?
    {
      hide Exec, SafeRun, Took, Record, Sent, Lost, Past, PushCalls, PopCalls;
      ghost var before := Now();
      var seen := tail;
      tail := seen.Consume();
      if seen.Empty? {
        cpc := Ready(PopNoMsg);
      } else if seen.Masked() >= n {
        cpc := Ready(PopError);
      } else {
        cpc := FlushLoad(seen.Consume());
      }
      Done(a, before);
    }

    /** flush: the load of the head. */
    method LoadHead()
      requires Valid() && cpc.FlushLoad?
      modifies this`cpc, this`trace, this`pushes, this`pops
      ensures Valid() && pops == old(pops)
      ensures cpc == Ready(PopError) || (cpc == FlushJump(old(cpc.seen), head) && head < n)
      ensures trace == old(trace) + [ConsumerStep]
    {
      hide Exec, SafeRun, Took, Record, Sent, Lost, Past, PushCalls, PopCalls;
      ghost var before := Now();
      cpc := if head >= n then Ready(PopError) else FlushJump(cpc.seen, head);
      Done(ConsumerStep, before);
    }

    /** flush: the compare-exchange of the tail for the head. */
    method JumpToHead()
      requires Valid() && cpc.FlushJump?
      modifies this`tail, this`held, this`cpc, this`trace, this`pushes, this`pops
      ensures Valid() && pops == old(pops)
      ensures cpc == if old(tail) == old(cpc.seen) then Ready(PopDiscarded) else FlushRetake
      ensures cpc.Ready? ==> held == old(cpc.target)
      ensures trace == old(trace) + [ConsumerStep]
    {
      hide Exec, SafeRun, Took, Record, Sent, Lost, Past, PushCalls, PopCalls;
      ghost var before := Now();
      if tail == cpc.seen {
        tail := Tail(cpc.target, true, false);
        held := cpc.target;
        cpc := Ready(PopDiscarded);
      } else {
        cpc := FlushRetake;
      }
      Done(ConsumerStep, before);
    }

    /**
     ri_consumer_queue_flush. The producer's process runs as long as `peers` says; an attempt it does not
     disturb succeeds, which ends the loop. As long as the two conditions of a safe flush hold, the consumer
     finds the message it was handed. They do if the producer is between calls all the while, and then that
     message is the newest.
     */
    method Flush(peers: seq<seq<Action>>) returns (r: PopResult)
      requires Valid() && cpc.Ready?
      requires forall i :: 0 <= i < |peers| ==> Pushing(peers[i])
      modifies this, chain, slots, localChain
      ensures Valid() && cpc == Ready(r) && pops == old(pops) + [Action.Flush]
      ensures r in {PopNoMsg, PopError, PopDiscarded} && old(trace) <= trace
      ensures Run(n, start.slots, trace) ==>
        && Sound()
        && (r == PopNoMsg ==> Sent() == [])
        && (r == PopDiscarded ==>
              held < slots.Length && 0 <= Past().claim < |Sent()| && slots[held] == Sent()[Past().claim])
      ensures old(Sound()) && old(ppc).Idle? && Quiet(peers) ==>
        && Sound() && ppc == old(ppc) && Sent() == old(Sent())
        && r == (if Sent() == [] then PopNoMsg else PopDiscarded)
        && (r == PopDiscarded ==> Past().claim == |Sent()| - 1)
    {
      hide Valid, Sound, Now, Sent, Lost, Past, Run, Record, Exec;
      ghost var given, quiet := trace, Sound() && ppc.Idle? && Quiet(peers);
      if quiet {
        Beginning();
      }
      ClaimTail(Action.Flush);
      if quiet {
        Claimed(given);
      }
      var i := 0;
      while cpc.FlushLoad?
        invariant Valid() && (cpc.Ready? || (cpc.FlushLoad? && tail == cpc.seen))
        invariant pops == old(pops) + [Action.Flush] && given <= trace
        invariant Ended()
        invariant quiet ==> Run(n, start.slots, trace) && ppc == old(ppc) && Sent() == old(Sent())
        invariant quiet ==> cpc != Ready(PopError)
        invariant quiet && cpc == Ready(PopDiscarded) ==> 0 <= Past().claim == |Sent()| - 1
        decreases if i < |peers| then |peers| - i else 0, cpc.FlushLoad?
      {
        Attempt(Peer(peers, i), Peer(peers, i + 1), Peer(peers, i + 2), quiet);
        i := i + 3;
      }
      Finished();
      r := cpc.result;
    }

    /** If a flush is over: why. */
    ghost predicate Ended()
      reads this
    {
      && (cpc.Ready? ==> cpc.result in {PopNoMsg, PopError, PopDiscarded})
      && (cpc == Ready(PopNoMsg) ==> tail.Empty?)
      && (cpc == Ready(PopDiscarded) ==> held < n)
    }

    /** One turn of the loop of a flush, with what the producer does before each of its accesses. */
    method Attempt(load: seq<Action>, jump: seq<Action>, again: seq<Action>, ghost quiet: bool)
      requires Valid() && cpc.FlushLoad? && tail == cpc.seen && Pushing(load) && Pushing(jump) && Pushing(again)
      requires quiet ==> load == jump == [] && Run(n, start.slots, trace) && ppc.Idle?
      modifies this, chain, slots, localChain
      ensures Valid() && pops == old(pops) && old(trace) <= trace
      ensures Ended() && (cpc.Ready? || (cpc.FlushLoad? && tail == cpc.seen))
      ensures load == jump == [] ==> cpc.Ready?
      ensures quiet ==> Run(n, start.slots, trace) && ppc == old(ppc) && Sent() == old(Sent())
      ensures quiet ==> cpc == Ready(PopDiscarded) && 0 <= Past().claim == |Sent()| - 1
    {
      hide Valid, Sound, Now, Sent, Lost, Past, Run, Record, Exec, QuietLoad;
      PeerPushes(load);
      ghost var loading := trace;
      if quiet {
        Loading();
      }
      LoadHead();
      if quiet {
        Loaded(loading);
      }
      if cpc.Ready? {
        return;
      }
      PeerPushes(jump);
      JumpToHead();
      if quiet {
        Landed(loading);
      }
      if cpc.FlushRetake? {
        PeerPushes(again);
        ClaimTail(ConsumerStep);
      }
    }

    /** What holds of the state after a call that ended in a safe run. */
    lemma Finished()
      requires Valid() && cpc.Ready? && Ended()
      ensures Run(n, start.slots, trace) ==>
        && Sound()
        && (tail.Empty? <==> Sent() == [])
        && (cpc == Ready(PopDiscarded) ==>
              held < slots.Length && 0 <= Past().claim < |Sent()| && slots[held] == Sent()[Past().claim])
    {
      hide Exec, Record, Run;
      if Run(n, start.slots, trace) {
        RunReach(n, start.slots, trace);
        EmptyTail(Now(), Record(start, trace));
        if cpc == Ready(PopDiscarded) {
          HeldContent(Now(), Record(start, trace));
        }
      }
    }

    lemma Beginning()
      requires Valid() && Sound() && cpc.Ready?
      ensures Run(n, start.slots, trace) && Exec(start, trace).cpc.Ready? && Sent() == Record(start, trace).j.sent
    {}

    /** A flush begins while the producer is between calls. */
    lemma Claimed(given: seq<Action>)
      requires Valid() && Run(n, start.slots, given) && trace == given + [Action.Flush]
      requires Exec(start, given).cpc.Ready?
      ensures Run(n, start.slots, trace) && cpc != Ready(PopError) && Sent() == Record(start, given).j.sent
    {
      hide Step, After;
      assert trace[..|trace| - 1] == given;
      var s, h := Exec(start, given), Record(start, given);
      RunReach(n, start.slots, given);
      PopErrorIff(s, h, Action.Flush);
      SameLength(start, given);
      ActionSent(s, h, Action.Flush);
    }

    lemma Loading()
      requires Valid() && Run(n, start.slots, trace) && cpc.FlushLoad? && tail == cpc.seen && ppc.Idle?
      ensures QuietLoad(n, start.slots, trace) && Sent() == Record(start, trace).j.sent && start == Init(n, start.slots)
    {}

    /** The head is loaded. */
    lemma Loaded(given: seq<Action>)
      requires Valid() && QuietLoad(n, start.slots, given) && trace == given + [ConsumerStep]
      ensures Run(n, start.slots, trace) && cpc.FlushJump? && tail == cpc.seen
    {
      hide Exec, Run;
      QuietTrace(n, start.slots, given);
    }

    /** The tail is swung. */
    lemma Landed(given: seq<Action>)
      requires Valid() && QuietLoad(n, start.slots, given) && trace == given + [ConsumerStep] + [ConsumerStep]
      ensures Run(n, start.slots, trace) && cpc == Ready(PopDiscarded)
      ensures Sent() == Record(start, given).j.sent && 0 <= Past().claim == |Sent()| - 1
    {
      hide Exec, Run, Record;
      QuietTrace(n, start.slots, given);
    }
  }
}
