/**
 Who owns a channel and who frees the shared memory. A group of any number of channels is shared by the group
 itself and by users that acquire and release single channels; any number of threads take part, and a thread
 can be stopped between any two atomic operations.

 The counters of a channel record what threads have done or are about to do. That a channel is destroyed once
 or a reference is dropped once is not built in.
 */
module Lifecycle {
  import Bits

  const GROUP_FLAG: nat := 1
  const USER_FLAG: nat := 2
  const WORD_BITS: nat := 32

  /**
   holders: successful acquires that were not yet released; deleting: users that found themselves to be the
   last owner and have not yet dropped the channel's reference; deleted: how often it was destroyed.
   */
  datatype Channel = Channel(owners: nat, holders: nat, deleting: nat, deleted: nat)

  /** Where ri_group_delete is; channels are released in order, consumers before producers. */
  datatype GroupPc = Alive | Releasing(next: nat) | Destroying(at: nat) | Gone

  /** freeing: threads that saw the count reach zero and have not yet freed; freed: how often that was done. */
  datatype State = State(channels: seq<Channel>, refCnt: int, group: GroupPc, freeing: nat, freed: nat)

  datatype Action = Acquire(i: nat) | Release(i: nat) | Destroy(i: nat) | GroupStep | Free

  /** A group with n channels: one reference for the group and one for each queue. */
  function Init(n: nat): (s: State) {
    State(seq(n, i => Channel(GROUP_FLAG, 0, 0, 0)), n + 1, Alive, 0, 0)
  }

  predicate HasFlag(owners: nat, flag: nat) {
    Bits.And(owners, flag, WORD_BITS) != 0
  }

  // ---- atomic operations ------------------------------------------------------------------------

  /** ri_consumer_acquire, ri_producer_acquire: fetch-or; it failed if the user's flag was already set. */
  function AcquireChannel(c: Channel): (r: Channel) {
    c.(owners := Bits.Or(c.owners, USER_FLAG, WORD_BITS),
       holders := if HasFlag(c.owners, USER_FLAG) then c.holders else c.holders + 1)
  }

  /** ri_consumer_release, ri_producer_release: fetch-and; without the group's flag the caller deletes. */
  function ReleaseChannel(c: Channel): (r: Channel)
    requires c.holders > 0
  {
    c.(owners := Bits.And(c.owners, GROUP_FLAG, WORD_BITS), holders := c.holders - 1,
       deleting := if HasFlag(c.owners, GROUP_FLAG) then c.deleting else c.deleting + 1)
  }

  /** ri_shm_unref: fetch-sub; the caller frees if the count was one. */
  function Unref(s: State): (r: State) {
    s.(refCnt := s.refCnt - 1, freeing := if s.refCnt == 1 then s.freeing + 1 else s.freeing)
  }

  function Put(s: State, i: nat, c: Channel): (r: State)
    requires i < |s.channels|
  {
    s.(channels := s.channels[i := c])
  }

  /** Deleting a channel: its queue gives its reference back. */
  function Deleted(s: State, i: nat): (r: State)
    requires i < |s.channels|
  {
    Unref(Put(s, i, s.channels[i].(deleted := s.channels[i].deleted + 1)))
  }

  /** The group has not released channel i yet. */
  predicate GroupOwns(pc: GroupPc, i: nat) {
    match pc
    case Alive => true
    case Releasing(next) => next <= i
    case Destroying(at) => at < i
    case Gone => false
  }

  /** A channel may be acquired as long as the group has not released it. */
  predicate Enabled(s: State, a: Action) {
    match a
    case Acquire(i) => i < |s.channels| && GroupOwns(s.group, i)
    case Release(i) => i < |s.channels| && s.channels[i].holders > 0
    case Destroy(i) => i < |s.channels| && s.channels[i].deleting > 0
    case GroupStep => !s.group.Gone?
    case Free => s.freeing > 0
  }

  /** ri_group_delete */
  function StepGroup(s: State): (r: State) {
    match s.group
    case Alive => s.(group := Releasing(0))
    case Releasing(i) =>
      if i < |s.channels| then
        var c := s.channels[i];
        var s' := Put(s, i, c.(owners := Bits.And(c.owners, USER_FLAG, WORD_BITS)));
        if HasFlag(c.owners, USER_FLAG) then s'.(group := Releasing(i + 1)) else s'.(group := Destroying(i))
      else Unref(s).(group := Gone)
    case Destroying(i) =>
      if i < |s.channels| then Deleted(s, i).(group := Releasing(i + 1)) else s
    case Gone => s
  }

  /** One atomic step; an action that is not possible changes nothing. */
  function Step(s: State, a: Action): (r: State) {
    if !Enabled(s, a) then s
    else
      match a
      case Acquire(i) => Put(s, i, AcquireChannel(s.channels[i]))
      case Release(i) => Put(s, i, ReleaseChannel(s.channels[i]))
      case Destroy(i) => Deleted(Put(s, i, s.channels[i].(deleting := s.channels[i].deleting - 1)), i)
      case GroupStep => StepGroup(s)
      case Free => s.(freeing := s.freeing - 1, freed := s.freed + 1)
  }

  /** The state after a run, in any interleaving. */
  function Exec(s: State, acts: seq<Action>): (r: State) {
    if acts == [] then s else Step(Exec(s, acts[..|acts| - 1]), acts[|acts| - 1])
  }

  // ---- invariant --------------------------------------------------------------------------------

  /** The channels that still hold a reference. */
  function Live(cs: seq<Channel>): (n: nat) {
    if cs == [] then 0 else (if cs[0].deleted == 0 then 1 else 0) + Live(cs[1..])
  }

  function Bool(b: bool): (n: nat) {
    if b then 1 else 0
  }

  /** The group's flag is set until the group released the channel, the user's flag while a user holds it. */
  ghost predicate ChannelInv(c: Channel, groupOwns: bool, destroying: bool) {
    && c.holders <= 1
    && c.owners == Bool(groupOwns) * GROUP_FLAG + c.holders * USER_FLAG
    && c.deleting + c.deleted + Bool(destroying) == Bool(c.owners == 0)
  }

  ghost predicate ChannelsInv(s: State) {
    forall i :: 0 <= i < |s.channels| ==> ChannelInv(s.channels[i], GroupOwns(s.group, i), s.group == Destroying(i))
  }

  ghost predicate GroupInv(s: State) {
    && (s.group.Releasing? ==> s.group.next <= |s.channels|)
    && (s.group.Destroying? ==> s.group.at < |s.channels|)
  }

  ghost predicate CountInv(s: State) {
    && s.refCnt == Live(s.channels) + Bool(!s.group.Gone?)
    && s.freeing + s.freed == Bool(s.refCnt == 0)
  }

  ghost predicate Inv(s: State) {
    ChannelsInv(s) && GroupInv(s) && CountInv(s)
  }

  // ---- steps ------------------------------------------------------------------------------------

  /** What the flag operations compute on the words that occur. */
  lemma FlagWords(o: nat)
    requires o < 4
    ensures Bits.Or(o, USER_FLAG, WORD_BITS) == if o >= 2 then o else o + 2
    ensures Bits.And(o, GROUP_FLAG, WORD_BITS) == o % 2
    ensures Bits.And(o, USER_FLAG, WORD_BITS) == if o >= 2 then 2 else 0
  {
    hide Bits.And, Bits.Or;
    assert Bits.Pow2(0) == 1 && Bits.Pow2(1) == 2 && Bits.Pow2(2) == 4;
    Bits.Pow2Monotone(2, WORD_BITS);
    Bits.OrBit(o, 1, WORD_BITS);
    Bits.AndBit(o, 0, WORD_BITS);
    Bits.AndBit(o, 1, WORD_BITS);
  }

  lemma {:induction false} LivePut(cs: seq<Channel>, i: nat, c: Channel)
    requires i < |cs|
    ensures Live(cs[i := c]) == Live(cs) - Bool(cs[i].deleted == 0) + Bool(c.deleted == 0)
  {
    if i > 0 {
      LivePut(cs[1..], i - 1, c);
      assert cs[i := c][1..] == cs[1..][i - 1 := c];
    } else {
      assert cs[i := c][1..] == cs[1..];
    }
  }

  lemma KeepAcquire(s: State, i: nat)
    requires Inv(s) && Enabled(s, Acquire(i))
    ensures Inv(Step(s, Acquire(i)))
  {
    hide Bits.And, Bits.Or, Live;
    FlagWords(s.channels[i].owners);
    LivePut(s.channels, i, AcquireChannel(s.channels[i]));
  }

  lemma KeepRelease(s: State, i: nat)
    requires Inv(s) && Enabled(s, Release(i))
    ensures Inv(Step(s, Release(i)))
  {
    hide Bits.And, Bits.Or, Live;
    FlagWords(s.channels[i].owners);
    LivePut(s.channels, i, ReleaseChannel(s.channels[i]));
  }

  lemma KeepDestroy(s: State, i: nat)
    requires Inv(s) && Enabled(s, Destroy(i))
    ensures Inv(Step(s, Destroy(i)))
  {
    hide Bits.And, Bits.Or, Live;
    var c := s.channels[i].(deleting := s.channels[i].deleting - 1);
    assert s.channels[i := c][i := c.(deleted := c.deleted + 1)] == s.channels[i := c.(deleted := c.deleted + 1)];
    LivePut(s.channels, i, c.(deleted := c.deleted + 1));
  }

  lemma KeepGroup(s: State)
    requires Inv(s) && Enabled(s, GroupStep)
    ensures Inv(Step(s, GroupStep))
  {
    hide Bits.And, Bits.Or, Live;
    match s.group
    case Releasing(i) =>
      if i < |s.channels| {
        var c := s.channels[i];
        FlagWords(c.owners);
        LivePut(s.channels, i, c.(owners := Bits.And(c.owners, USER_FLAG, WORD_BITS)));
      }
    case Destroying(i) =>
      LivePut(s.channels, i, s.channels[i].(deleted := s.channels[i].deleted + 1));
    case _ =>
  }

  lemma KeepFree(s: State)
    requires Inv(s) && Enabled(s, Free)
    ensures Inv(Step(s, Free))
  {}

  lemma Disabled(s: State, a: Action)
    requires !Enabled(s, a)
    ensures Step(s, a) == s
  {}

  lemma StepInv(s: State, a: Action)
    requires Inv(s)
    ensures Inv(Step(s, a))
  {
    hide Inv, Step, Enabled;
    if !Enabled(s, a) {
      Disabled(s, a);
    } else {
      match a
      case Acquire(i) => KeepAcquire(s, i);
      case Release(i) => KeepRelease(s, i);
      case Destroy(i) => KeepDestroy(s, i);
      case GroupStep => KeepGroup(s);
      case Free => KeepFree(s);
    }
  }

  lemma {:induction false} LiveInit(n: nat)
    ensures Live(Init(n).channels) == n
  {
    if n > 0 {
      LiveInit(n - 1);
      assert Init(n).channels[1..] == Init(n - 1).channels;
    }
  }

  lemma StepSize(s: State, a: Action)
    ensures |Step(s, a).channels| == |s.channels|
  {}

  /** The invariant holds after every run of every group. */
  lemma {:induction false} RunInv(n: nat, acts: seq<Action>)
    ensures Inv(Exec(Init(n), acts)) && |Exec(Init(n), acts).channels| == n
  {
    hide Step;
    if acts == [] {
      LiveInit(n);
    } else {
      hide Inv;
      var before := acts[..|acts| - 1];
      RunInv(n, before);
      StepInv(Exec(Init(n), before), acts[|acts| - 1]);
      StepSize(Exec(Init(n), before), acts[|acts| - 1]);
    }
  }

  // ---- guarantees -------------------------------------------------------------------------------

  /** Threads at work on the destruction of channel i, and destructions done. */
  function Destructions(s: State, i: nat): (k: nat)
    requires i < |s.channels|
  {
    s.channels[i].deleting + s.channels[i].deleted + Bool(s.group == Destroying(i))
  }

  /** Channel i belongs to somebody: a user holds it or the group has not released it. */
  predicate Owned(s: State, i: nat)
    requires i < |s.channels|
  {
    s.channels[i].holders > 0 || GroupOwns(s.group, i)
  }

  /** A channel is destroyed at most once; its destruction begins with the end of its last ownership. */
  lemma DestroyedOnce(n: nat, acts: seq<Action>, i: nat)
    requires i < n
    ensures var s := Exec(Init(n), acts);
      |s.channels| == n && Destructions(s, i) == Bool(!Owned(s, i)) && s.channels[i].holders <= 1
  {
    hide Exec;
    RunInv(n, acts);
  }

  lemma {:induction false} LiveZero(cs: seq<Channel>)
    ensures Live(cs) == 0 <==> forall i :: 0 <= i < |cs| ==> cs[i].deleted > 0
  {
    if cs != [] {
      LiveZero(cs[1..]);
      assert forall i :: 1 <= i < |cs| ==> cs[i] == cs[1..][i - 1];
    }
  }

  lemma LivePositive(cs: seq<Channel>, i: nat)
    requires i < |cs| && cs[i].deleted == 0
    ensures Live(cs) > 0
  {
    LiveZero(cs);
  }

  /**
   The count is the number of channels not yet destroyed, plus one for the group. The memory is freed at most
   once, and a thread sets out to free it exactly when everything else is gone.
   */
  lemma FreedOnce(n: nat, acts: seq<Action>)
    ensures var s := Exec(Init(n), acts);
      && s.refCnt == Live(s.channels) + Bool(!s.group.Gone?)
      && (s.freeing + s.freed == 1 <==>
            s.group.Gone? && forall i :: 0 <= i < |s.channels| ==> s.channels[i].deleted == 1)
      && s.freeing + s.freed <= 1
  {
    hide Exec, Live;
    RunInv(n, acts);
    LiveZero(Exec(Init(n), acts).channels);
  }

  /** What a step works on still exists. */
  ghost predicate AccessOk(s: State, a: Action) {
    match a
    case Acquire(i) => i < |s.channels| && s.channels[i].deleted == 0 && s.freeing + s.freed == 0
    case Release(i) => i < |s.channels| && s.channels[i].deleted == 0 && s.freeing + s.freed == 0
    case Destroy(i) => i < |s.channels| && s.channels[i].deleted == 0 && s.freeing + s.freed == 0 && s.refCnt > 0
    case GroupStep =>
      && s.freeing + s.freed == 0 && s.refCnt > 0
      && (s.group.Releasing? && s.group.next < |s.channels| ==> s.channels[s.group.next].deleted == 0)
      && (s.group.Destroying? ==> s.group.at < |s.channels| && s.channels[s.group.at].deleted == 0)
    case Free => s.freed == 0
  }

  /** No step of any run touches a destroyed channel or freed memory. */
  lemma AccessesLive(n: nat, acts: seq<Action>, a: Action)
    requires Enabled(Exec(Init(n), acts), a)
    ensures AccessOk(Exec(Init(n), acts), a)
  {
    hide Exec, Live;
    RunInv(n, acts);
    var s := Exec(Init(n), acts);
    match a
    case Acquire(i) => LivePositive(s.channels, i);
    case Release(i) => LivePositive(s.channels, i);
    case Destroy(i) => LivePositive(s.channels, i);
    case _ =>
  }

  /** Whoever owns a channel can use it: it is not destroyed and its memory is mapped. */
  lemma OwnedIsUsable(n: nat, acts: seq<Action>, i: nat)
    requires i < n
    ensures var s := Exec(Init(n), acts);
      && |s.channels| == n
      && (Owned(s, i) ==> Destructions(s, i) == 0 && s.refCnt > 0 && s.freeing + s.freed == 0)
  {
    hide Exec, Live;
    RunInv(n, acts);
    var s := Exec(Init(n), acts);
    if Owned(s, i) {
      LivePositive(s.channels, i);
    }
  }

  /** Acquiring succeeds exactly when no user holds the channel. */
  lemma AcquireIff(n: nat, acts: seq<Action>, i: nat)
    requires Enabled(Exec(Init(n), acts), Acquire(i))
    ensures var s, s' := Exec(Init(n), acts), Exec(Init(n), acts + [Acquire(i)]);
      && i < |s.channels| == |s'.channels|
      && s'.channels[i].holders == 1
      && (!HasFlag(s.channels[i].owners, USER_FLAG) <==> s.channels[i].holders == 0)
  {
    hide Bits.And, Bits.Or;
    RunInv(n, acts);
    var s := Exec(Init(n), acts);
    FlagWords(s.channels[i].owners);
    assert (acts + [Acquire(i)])[..|acts|] == acts;
  }

  // ---- the end ----------------------------------------------------------------------------------

  /** Nothing is left to do. */
  ghost predicate Finished(s: State) {
    && s.group.Gone? && s.freeing == 0
    && forall i :: 0 <= i < |s.channels| ==> s.channels[i].holders == 0 && s.channels[i].deleting == 0
  }

  /** When nothing is left to do, every channel was destroyed once and the memory was freed once. */
  lemma AllReleased(n: nat, acts: seq<Action>)
    requires Finished(Exec(Init(n), acts))
    ensures var s := Exec(Init(n), acts);
      s.refCnt == 0 && s.freed == 1 && forall i :: 0 <= i < |s.channels| ==> s.channels[i].deleted == 1
  {
    hide Exec, Live;
    RunInv(n, acts);
    LiveZero(Exec(Init(n), acts).channels);
  }

  /** What is left to do, weighted so that each step lessens it. */
  function Work(cs: seq<Channel>): (w: nat) {
    if cs == [] then 0 else 4 * cs[0].holders + 3 * cs[0].deleting + Work(cs[1..])
  }

  function GroupWork(s: State): (w: int)
    ensures GroupInv(s) ==> w >= 0
  {
    match s.group
    case Alive => 4 * |s.channels| + 4
    case Releasing(i) => 4 * (|s.channels| - i) + 3
    case Destroying(i) => 4 * (|s.channels| - i) + 2
    case Gone => 0
  }

  function TotalWork(s: State): (w: int) {
    s.freeing + Work(s.channels) + GroupWork(s)
  }

  lemma {:induction false} WorkPut(cs: seq<Channel>, i: nat, c: Channel)
    requires i < |cs|
    ensures Work(cs[i := c]) == Work(cs) - 4 * cs[i].holders - 3 * cs[i].deleting + 4 * c.holders + 3 * c.deleting
  {
    if i > 0 {
      WorkPut(cs[1..], i - 1, c);
      assert cs[i := c][1..] == cs[1..][i - 1 := c];
    } else {
      assert cs[i := c][1..] == cs[1..];
    }
  }

  /** Every step but an acquire brings the end nearer. */
  lemma WorkLess(s: State, a: Action)
    requires Inv(s) && Enabled(s, a) && !a.Acquire?
    ensures TotalWork(Step(s, a)) < TotalWork(s)
  {
    hide Bits.And, Bits.Or, Live, Work;
    match a
    case Release(i) => WorkPut(s.channels, i, ReleaseChannel(s.channels[i]));
    case Destroy(i) =>
      var c := s.channels[i].(deleting := s.channels[i].deleting - 1);
      assert s.channels[i := c][i := c.(deleted := c.deleted + 1)] == s.channels[i := c.(deleted := c.deleted + 1)];
      WorkPut(s.channels, i, c.(deleted := c.deleted + 1));
    case Free =>
    case GroupStep =>
      match s.group {
        case Releasing(i) =>
          if i < |s.channels| {
            WorkPut(s.channels, i, s.channels[i].(owners := Bits.And(s.channels[i].owners, USER_FLAG, WORD_BITS)));
          }
        case Destroying(i) =>
          WorkPut(s.channels, i, s.channels[i].(deleted := s.channels[i].deleted + 1));
        case _ =>
      }
  }

  lemma WorkNat(s: State)
    requires Inv(s)
    ensures TotalWork(s) >= 0
  {}

  /** Unless everything is finished, some step other than an acquire is possible. */
  lemma NextStep(s: State) returns (a: Action)
    requires Inv(s) && !Finished(s)
    ensures Enabled(s, a) && !a.Acquire?
  {
    if !s.group.Gone? {
      a := GroupStep;
    } else if s.freeing > 0 {
      a := Free;
    } else {
      var i :| 0 <= i < |s.channels| && !(s.channels[i].holders == 0 && s.channels[i].deleting == 0);
      a := if s.channels[i].holders > 0 then Release(i) else Destroy(i);
    }
  }

  /** Every run can be brought to its end, whatever the threads have done so far. */
  lemma {:induction false} CanFinish(n: nat, acts: seq<Action>) returns (more: seq<Action>)
    ensures Finished(Exec(Init(n), acts + more))
    ensures forall a :: a in more ==> !a.Acquire?
    decreases TotalWork(Exec(Init(n), acts))
  {
    hide Inv, Finished, Step, Enabled, TotalWork;
    RunInv(n, acts);
    var s := Exec(Init(n), acts);
    if Finished(s) {
      more := [];
      assert acts + more == acts;
    } else {
      var a := NextStep(s);
      assert (acts + [a])[..|acts|] == acts;
      WorkLess(s, a);
      WorkNat(s);
      var rest := CanFinish(n, acts + [a]);
      more := [a] + rest;
      assert acts + more == acts + [a] + rest;
    }
  }
}
