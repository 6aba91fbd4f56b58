/**
 A group as the program holds it: the words of its channels and the reference count of its memory, changed by
 acquire, release and delete as the program writes them, with other threads free to run between any two
 atomic operations.
 */
module GroupObject {
  import opened Lifecycle

  /** What is left to the other threads while `mine` are the steps of the one that is looked at. */
  predicate LeftToOthers(peers: seq<seq<Action>>, mine: set<Action>) {
    forall i, a :: 0 <= i < |peers| && a in peers[i] ==> a !in mine
  }

  lemma {:induction false} ExecConcat(s: State, a: seq<Action>, b: seq<Action>)
    ensures Exec(s, a + b) == Exec(Exec(s, a), b)
  {
    hide Step;
    if b == [] {
      assert a + b == a;
    } else {
      assert (a + b)[..|a + b| - 1] == a + b[..|b| - 1];
      ExecConcat(s, a, b[..|b| - 1]);
    }
  }

  /** The steps of other threads do not take away what a thread is about to do. */
  lemma {:induction false} OthersFrame(s: State, acts: seq<Action>)
    ensures var r := Exec(s, acts);
      && |r.channels| == |s.channels|
      && (GroupStep !in acts ==> r.group == s.group)
      && (Free !in acts ==> r.freeing >= s.freeing)
      && (forall i: nat :: i < |s.channels| && Destroy(i) !in acts ==> r.channels[i].deleting >= s.channels[i].deleting)
      && (forall i: nat :: i < |s.channels| ==> r.channels[i].deleted >= s.channels[i].deleted)
  {
    hide Bits.And, Bits.Or, Step;
    if acts != [] {
      var before, a := acts[..|acts| - 1], acts[|acts| - 1];
      assert a in acts && forall b :: b in before ==> b in acts;
      OthersFrame(s, before);
      StepFrame(Exec(s, before), a);
    }
  }

  lemma StepFrame(s: State, a: Action)
    ensures var r := Step(s, a);
      && |r.channels| == |s.channels|
      && (a != GroupStep ==> r.group == s.group)
      && (a != Free ==> r.freeing >= s.freeing)
      && (forall i: nat :: i < |s.channels| && a != Destroy(i) ==> r.channels[i].deleting >= s.channels[i].deleting)
      && (forall i: nat :: i < |s.channels| ==> r.channels[i].deleted >= s.channels[i].deleted)
  {
    hide Bits.And, Bits.Or;
  }

  function Peer(peers: seq<seq<Action>>, i: nat): (acts: seq<Action>)
    ensures forall a :: a in acts ==> i < |peers| && a in peers[i]
  {
    if i < |peers| then peers[i] else []
  }

  class SharedGroup {
    const n: nat
    var channels: seq<Channel>
    var refCnt: int
    var group: GroupPc
    var freeing: nat
    var freed: nat
    ghost var trace: seq<Action>

    ghost function View(): (s: State)
      reads this
    {
      State(channels, refCnt, group, freeing, freed)
    }

    /** The fields are what the actions so far lead to. */
    ghost predicate Valid()
      reads this
    {
      View() == Exec(Init(n), trace)
    }

    constructor (n: nat)
      ensures Valid() && this.n == n && trace == []
    {
      this.n := n;
      channels := seq(n, i => Channel(GROUP_FLAG, 0, 0, 0));
      refCnt := n + 1;
      group := Alive;
      freeing, freed := 0, 0;
      trace := [];
    }

    /** The other threads run. */
    method Others(acts: seq<Action>)
      requires Valid()
      modifies this
      ensures Valid() && trace == old(trace) + acts
      ensures View() == Exec(old(View()), acts)
      ensures |channels| == |old(channels)|
      ensures GroupStep !in acts ==> group == old(group)
      ensures Free !in acts ==> freeing >= old(freeing)
      ensures forall i: nat :: i < |channels| && Destroy(i) !in acts ==>
        channels[i].deleting >= old(channels)[i].deleting
      ensures forall i: nat :: i < |channels| ==> channels[i].deleted >= old(channels)[i].deleted
    {
      OthersFrame(View(), acts);
      ExecConcat(Init(n), trace, acts);
      var s := Exec(State(channels, refCnt, group, freeing, freed), acts);
      channels, refCnt, group, freeing, freed := s.channels, s.refCnt, s.group, s.freeing, s.freed;
      trace := trace + acts;
    }

    /** ri_consumer_acquire, ri_producer_acquire, by index as in the group's functions; NULL is false. */
    method Acquire(i: nat) returns (ok: bool)
      requires Valid() && (i < |channels| ==> GroupOwns(group, i))
      modifies this
      ensures Valid() && trace == if i < n then old(trace) + [Action.Acquire(i)] else old(trace)
      ensures View() == Step(old(View()), Action.Acquire(i))
      ensures i < n ==> i < |channels| && channels[i].holders == 1
      ensures ok <==> i < n && i < |old(channels)| && old(channels[i].holders) == 0
    {
      hide Bits.And, Bits.Or;
      RunInv(n, trace);
      if i >= |channels| {
        return false;
      }
      AcquireIff(n, trace, i);
      ExecConcat(Init(n), trace, [Action.Acquire(i)]);
      var c := channels[i];
      ok := Bits.And(c.owners, USER_FLAG, WORD_BITS) == 0;
      channels := channels[i := c.(owners := Bits.Or(c.owners, USER_FLAG, WORD_BITS),
                                   holders := if ok then c.holders + 1 else c.holders)];
      trace := trace + [Action.Acquire(i)];
    }

    /** The atomic operation of ri_shm_unref. */
    method Unref() returns (last: bool)
      modifies this`refCnt, this`freeing
      ensures View() == Lifecycle.Unref(old(View()))
      ensures last <==> old(refCnt) == 1
      ensures last ==> freeing > 0
    {
      last := refCnt == 1;
      refCnt := refCnt - 1;
      if last {
        freeing := freeing + 1;
      }
    }

    /** shm_delete, reached by the thread that dropped the last reference. */
    method ShmDelete()
      requires Valid() && freeing > 0
      modifies this`freeing, this`freed, this`trace
      ensures Valid() && trace == old(trace) + [Free]
      ensures freed == old(freed) + 1
    {
      ExecConcat(Init(n), trace, [Free]);
      freeing, freed := freeing - 1, freed + 1;
      trace := trace + [Free];
    }

    /** ri_consumer_delete, ri_producer_delete, called by a user that was the last owner. */
    method Delete(i: nat, peers: seq<seq<Action>>)
      requires Valid() && i < |channels| && channels[i].deleting > 0
      requires LeftToOthers(peers, {Destroy(i), Free})
      modifies this
      ensures Valid() && |channels| == |old(channels)| && old(trace) <= trace
      ensures channels[i].deleted == 1 && (refCnt == 0 <==> freed == 1)
    {
      hide Bits.And, Bits.Or, Exec, Step, Inv;
      Others(Peer(peers, 0));
      Append(n, trace, Destroy(i));
      StepDestroy(View(), i);
      channels := channels[i := channels[i].(deleting := channels[i].deleting - 1)];
      channels := channels[i := channels[i].(deleted := channels[i].deleted + 1)];
      var last := Unref();
      trace := trace + [Destroy(i)];
      if last {
        Others(Peer(peers, 1));
        ShmDelete();
      }
      Counted(n, trace);
    }

    /**
     ri_consumer_release, ri_producer_release. The other threads may run wherever this one is between two
     atomic operations; only the destruction it has begun is left to itself.
     */
    method Release(i: nat, peers: seq<seq<Action>>) returns (destroyed: bool)
      requires Valid() && i < |channels| && channels[i].holders > 0
      requires LeftToOthers(peers, {Destroy(i), Free})
      modifies this
      ensures Valid() && |channels| == |old(channels)| && old(trace) + [Action.Release(i)] <= trace
      ensures destroyed <==> !GroupOwns(old(group), i)
      ensures !destroyed ==> View() == Step(old(View()), Action.Release(i)) && channels[i].holders == 0
      ensures destroyed ==> channels[i].deleted == 1 && (refCnt == 0 <==> freed == 1)
    {
      hide Bits.And, Bits.Or, Exec, Step;
      RunInv(n, trace);
      var c := channels[i];
      FlagWords(c.owners);
      Append(n, trace, Action.Release(i));
      StepRelease(View(), i);
      hide Inv, Live;
      destroyed := Bits.And(c.owners, GROUP_FLAG, WORD_BITS) == 0;
      channels := channels[i := c.(owners := Bits.And(c.owners, GROUP_FLAG, WORD_BITS), holders := c.holders - 1,
                                   deleting := if destroyed then c.deleting + 1 else c.deleting)];
      trace := trace + [Action.Release(i)];
      if destroyed {
        Delete(i, peers);
      }
    }

    /** ri_group_delete */
    method GroupDelete(peers: seq<seq<Action>>)
      requires Valid() && group.Alive? && LeftToOthers(peers, {GroupStep, Free})
      modifies this
      ensures Valid() && |channels| == |old(channels)| && old(trace) <= trace
      ensures group.Gone? && (refCnt == 0 <==> freed == 1)
      ensures forall i :: 0 <= i < |channels| ==> channels[i].deleted + channels[i].holders + channels[i].deleting == 1
    {
      hide Bits.And, Bits.Or, Exec, Step, Inv;
      ghost var before := trace;
      Append(n, trace, GroupStep);
      StepAlive(View());
      group := Releasing(0);
      trace := trace + [GroupStep];
      var i := 0;
      while i < |channels|
        invariant 0 <= i <= |channels| == |old(channels)|
        invariant Valid() && before <= trace && group == Releasing(i)
      {
        Others(Peer(peers, 2 * i));
        Append(n, trace, GroupStep);
        StepReleasing(View(), i);
        var c := channels[i];
        channels := channels[i := c.(owners := Bits.And(c.owners, USER_FLAG, WORD_BITS))];
        trace := trace + [GroupStep];
        if Bits.And(c.owners, USER_FLAG, WORD_BITS) == 0 {
          group := Destroying(i);
          GroupDestroys(i, Peer(peers, 2 * i + 1));
        } else {
          group := Releasing(i + 1);
        }
        i := i + 1;
      }
      Others(Peer(peers, 2 * i));
      Append(n, trace, GroupStep);
      StepLast(View());
      var last := Unref();
      group := Gone;
      trace := trace + [GroupStep];
      if last {
        Others(Peer(peers, 2 * i + 1));
        ShmDelete();
      }
      Counted(n, trace);
    }

    /** The same deletion, by the thread that deletes the group: its own reference is still there. */
    method GroupDestroys(i: nat, acts: seq<Action>)
      requires Valid() && i < |channels| && group == Destroying(i) && GroupStep !in acts
      modifies this
      ensures Valid() && |channels| == |old(channels)| && old(trace) <= trace
      ensures group == Releasing(i + 1)
    {
      hide Bits.And, Bits.Or, Exec, Step, Inv;
      Others(acts);
      Append(n, trace, GroupStep);
      StepDestroying(View(), i);
      channels := channels[i := channels[i].(deleted := channels[i].deleted + 1)];
      var last := Unref();
      group := Releasing(i + 1);
      trace := trace + [GroupStep];
      if last {
        ShmDelete();
      }
    }
  }

  /** What the invariant says at the end of an operation. */
  lemma Counted(n: nat, acts: seq<Action>)
    ensures var s := Exec(Init(n), acts);
      && |s.channels| == n && s.freeing + s.freed == Bool(s.refCnt == 0)
      && (forall i :: 0 <= i < n ==> s.channels[i].deleted <= 1)
      && (s.group.Gone? ==>
            forall i :: 0 <= i < n ==> s.channels[i].deleted + s.channels[i].holders + s.channels[i].deleting == 1)
  {
    hide Exec;
    RunInv(n, acts);
  }

  lemma StepAlive(s: State)
    requires s.group.Alive?
    ensures Step(s, GroupStep) == s.(group := Releasing(0))
  {}

  lemma StepReleasing(s: State, i: nat)
    requires s.group == Releasing(i) && i < |s.channels|
    ensures var c := s.channels[i];
      var r := Put(s, i, c.(owners := Bits.And(c.owners, USER_FLAG, WORD_BITS)));
      Step(s, GroupStep)
      == r.(group := if Bits.And(c.owners, USER_FLAG, WORD_BITS) == 0 then Destroying(i) else Releasing(i + 1))
  {
    hide Bits.And;
  }

  lemma StepDestroying(s: State, i: nat)
    requires s.group == Destroying(i) && i < |s.channels|
    ensures Step(s, GroupStep) == Deleted(s, i).(group := Releasing(i + 1))
  {}

  lemma StepLast(s: State)
    requires s.group == Releasing(|s.channels|)
    ensures Step(s, GroupStep) == Lifecycle.Unref(s).(group := Gone)
  {}

  lemma Append(n: nat, acts: seq<Action>, a: Action)
    ensures Exec(Init(n), acts + [a]) == Step(Exec(Init(n), acts), a)
  {
    assert (acts + [a])[..|acts|] == acts;
  }

  lemma StepRelease(s: State, i: nat)
    requires i < |s.channels| && s.channels[i].holders > 0
    ensures Step(s, Action.Release(i)) == Put(s, i, ReleaseChannel(s.channels[i]))
  {}

  lemma StepDestroy(s: State, i: nat)
    requires i < |s.channels| && s.channels[i].deleting > 0
    ensures Step(s, Destroy(i)) == Deleted(Put(s, i, s.channels[i].(deleting := s.channels[i].deleting - 1)), i)
  {}
}
