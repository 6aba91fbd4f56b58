/**
 The chain as the program finds it: following the shared words from a slot, counting, and the shape the
 chain always has between pushes.
 */
module Chain {
  import opened Index
  import opened Queue
  import opened History
  import opened Invariant
  import opened RingLemmas
  import opened ProducerSteps
  import opened Runs

  // ---- every slot is on the path ----------------------------------------------------------------

  /** At most n distinct slots lie below n. */
  lemma {:induction false} DistinctBound(p: seq<nat>, n: nat)
    requires Distinct(p) && forall i :: 0 <= i < |p| ==> p[i] < n
    ensures |p| <= n
  {
    if p != [] {
      assert p[0] < n;
      if i :| 0 <= i < |p| && p[i] == n - 1 {
        DistinctBound(p[..i] + p[i + 1..], n - 1);
      } else {
        DistinctBound(p, n - 1);
      }
    }
  }

  /** n distinct slots below n are all the slots there are. */
  lemma Pigeonhole(p: seq<nat>, n: nat, x: nat)
    requires Distinct(p) && |p| == n && (forall i :: 0 <= i < |p| ==> p[i] < n) && x < n
    ensures x in p
  {
    if x !in p {
      DistinctBound(p + [x], n);
      assert false;
    }
  }

  /**
   Between pushes, once a message has been pushed: following the chain from the producer's slot visits
   every slot exactly once, except the one it jumped over if there is one; the tail lies on that path
   behind the producer's slot, the newest message ends it, and both copies of the chain agree.
   */
  lemma ChainShape(s: State, h: Hist)
    requires Reach(s, h) && s.ppc.Idle? && s.last != INVALID
    ensures var path := Follow(s.chain, s.current, s.n + 1);
      && Distinct(path)
      && (forall x :: 0 <= x < s.n ==> (x in path <==> x != s.overrun))
      && path != [] && path[|path| - 1] == s.last && s.last < |s.chain| && s.chain[s.last] == INVALID
      && s.tail.Tail? && s.tail.idx in path[1..]
    ensures s.localChain == s.chain
  {
    ReachInv(s, h);
    hide Reach, Published, Follow, Distinct, Outside;
    var path := [s.current] + h.ring;
    IdlePath(s, h);
    PathFacts(s, h, path);
    forall x | 0 <= x < s.n
      ensures x in path <==> x != s.overrun
    {
      AllButOne(path, s.n, s.overrun, x);
    }
  }

  /** Distinct slots below n, all of them or all but one. */
  lemma AllButOne(path: seq<nat>, n: nat, without: nat, x: nat)
    requires Distinct(path) && (forall i :: 0 <= i < |path| ==> path[i] < n) && Outside(without, path) && x < n
    requires |path| == if without < n then n - 1 else n
    ensures x in path <==> x != without
  {
    var all := if without < n then path + [without] else path;
    Pigeonhole(all, n, x);
  }

  lemma IdlePath(s: State, h: Hist)
    requires Published(s, h) && s.ppc.Idle?
    ensures Follow(s.chain, s.current, s.n + 1) == [s.current] + h.ring
  {
    hide Linked, Distinct, Outside, Slot, Deliveries, Contents, Consumer;
    FollowRing(s.chain, h.ring, 0, s.n);
  }

  lemma PathFacts(s: State, h: Hist, path: seq<nat>)
    requires Published(s, h) && s.ppc.Idle? && path == [s.current] + h.ring
    ensures Distinct(path) && (forall i :: 0 <= i < |path| ==> path[i] < s.n) && Outside(s.overrun, path)
    ensures s.tail.Tail? && s.tail.idx in h.ring && path[|path| - 1] == s.last
    ensures s.last < |s.chain| && s.chain[s.last] == INVALID && s.localChain == s.chain
    ensures |path| == if s.overrun < s.n then s.n - 1 else s.n
  {
    hide Deliveries, Contents, Consumer;
  }

  // ---- how many messages there are --------------------------------------------------------------

  /** Messages linked and not yet taken by the consumer, counted along the shared chain. */
  function Waiting(s: State): (k: int) {
    if s.tail.Empty? then 0
    else |Follow(s.chain, s.tail.idx, s.n)| - (if s.tail.consumed then 1 else 0)
  }

  /** Messages that are waiting or in the consumer's hands. */
  ghost function Retained(s: State): (k: int) {
    Waiting(s) + B(OwnSlot(s) != INVALID)
  }

  lemma TailPath(s: State, h: Hist)
    requires Published(s, h)
    ensures Follow(s.chain, s.tail.idx, s.n) == h.ring[TailNo(s, h) - Base(h)..]
    ensures Waiting(s) == |h.j.sent| - |h.j.log|
    ensures Retained(s) == |h.j.sent| - TailNo(s, h) + B(!s.tail.consumed && Overrun(s))
  {
    hide Linked, Distinct, Outside, Deliveries, Contents, Consumer, Producer;
    FollowRing(s.chain, h.ring, TailNo(s, h) - Base(h), s.n);
    TailInRing(s, h);
  }

  /** Between pushes at most n - 1 messages are retained; only a push in progress may add one more. */
  lemma Capacity(s: State, h: Hist)
    requires Reach(s, h)
    ensures 0 <= Retained(s) <= s.n
    ensures s.ppc.Idle? ==> Retained(s) <= s.n - 1
  {
    ReachInv(s, h);
    hide Reach, Linked, Distinct, Outside, Slot, Deliveries, Contents, Consumer;
    if Published(s, h) {
      TailPath(s, h);
    }
  }

  // ---- counting ---------------------------------------------------------------------------------

  /** The producer's loop: from the tail to the end of the chain. */
  method CountToEnd(chain: seq<nat>, start: nat, ghost ring: seq<nat>) returns (count: int)
    requires Linked(chain, ring) && Distinct(ring) && |chain| <= INDEX_MASK
    requires |ring| <= |chain| && start == ring[0]
    ensures count == |ring|
  {
    var next := start;
    for cnt := 0 to |chain|
      invariant cnt <= |ring|
      invariant next == if cnt < |ring| then ring[cnt] else INVALID
    {
      if next == INVALID {
        return cnt;
      }
      next := chain[next];
    }
    return |chain|;
  }

  /** The consumer's loop: it looks one link ahead, and at the tail again when it reaches the end. */
  method CountAhead(chain: seq<nat>, start: nat, tailAgain: TailWord, ghost ring: seq<nat>) returns (count: int)
    requires Linked(chain, ring) && Distinct(ring) && |chain| <= INDEX_MASK
    requires |ring| < |chain| && start == ring[0]
    requires tailAgain.IsConsumed() || tailAgain.IsFirst()
    ensures count == |ring|
  {
    var next := start;
    for cnt := 0 to |chain|
      invariant cnt < |ring|
      invariant next == ring[cnt]
    {
      Successor(chain, ring, cnt);
      next := chain[next];
      if next == INVALID {
        if !tailAgain.IsConsumed() && !tailAgain.IsFirst() {
          return |chain| - 1;
        }
        return cnt + 1;
      }
      if next >= |chain| {
        return -1;
      }
    }
    return |chain| - 1;
  }

  /** What either side finds when it counts between pushes. */
  lemma CountFacts(s: State, h: Hist)
    requires Reach(s, h) && s.ppc.Idle?
    ensures s.last == INVALID <==> s.tail.Empty?
    ensures s.tail.Empty? ==> Retained(s) == 0
    ensures s.tail.Tail? && !s.tail.consumed && !s.tail.first ==> Retained(s) == s.n - 1
    ensures s.tail.Tail? && (s.tail.consumed || s.tail.first) ==>
      var ring := Follow(s.chain, s.tail.idx, s.n);
      && Linked(s.chain, ring) && Distinct(ring) && ring[0] == s.tail.idx && s.tail.idx < s.n
      && |s.chain| == s.n <= INDEX_MASK && |ring| < s.n && Retained(s) == |ring|
  {
    ReachInv(s, h);
    hide Reach, Published, Retained, Follow;
    if Published(s, h) {
      TailPath(s, h);
      TailRing(s, h);
    } else {
      assert Retained(s) == 0 by { EmptyRetains(s, h); }
    }
  }

  lemma EmptyRetains(s: State, h: Hist)
    requires Shape(s) && Unpublished(s, h)
    ensures Retained(s) == 0
  {}

  /** The part of the ring from the tail on, between pushes. */
  lemma TailRing(s: State, h: Hist)
    requires Published(s, h) && s.ppc.Idle?
    ensures var k := TailNo(s, h) - Base(h);
      && s.tail.Tail? && s.last != INVALID && 0 <= k < |h.ring| && |s.chain| == s.n <= INDEX_MASK
      && Linked(s.chain, h.ring[k..]) && Distinct(h.ring[k..]) && h.ring[k] == s.tail.idx < s.n
      && (!s.tail.consumed && !s.tail.first ==> k == 0 && |h.ring| + B(Overrun(s)) == s.n - 1)
      && (s.tail.consumed || s.tail.first ==> |h.ring| - k < s.n && (!s.tail.consumed ==> !Overrun(s)))
      && Base(h) + |h.ring| == |h.j.sent|
  {
    hide Outside, Deliveries, Contents, Consumer;
    var k := TailNo(s, h) - Base(h);
    if k > 0 {
      Suffix(s.chain, h.ring, k);
    }
    assert h.ring[0..] == h.ring;
  }

  /**
   ri_producer_queue_count_msgs, called between pushes: the number of messages retained, wherever the consumer
   is. The tail is loaded once and only the producer changes the chain.
   */
  method ProducerCount(s: State, ghost h: Hist) returns (count: int)
    requires Reach(s, h) && s.ppc.Idle?
    ensures count == Retained(s)
  {
    CountFacts(s, h);
    hide Reach, Linked, Distinct, Retained;
    if s.last == INVALID {
      return 0;
    }
    if !s.tail.IsConsumed() && !s.tail.IsFirst() {
      return s.n - 1;
    }
    if !Valid(s, s.tail.Masked()) {
      return -1;
    }
    count := CountToEnd(s.chain, s.tail.Masked(), Follow(s.chain, s.tail.idx, s.n));
  }

  /** ri_consumer_queue_count_msgs while neither side is in a call: the same number. */
  method ConsumerCount(s: State, ghost h: Hist) returns (count: int)
    requires Reach(s, h) && s.ppc.Idle? && s.cpc.Ready?
    ensures count == Retained(s)
  {
    CountFacts(s, h);
    hide Reach, Linked, Distinct, Retained;
    if s.tail.Empty? {
      return 0;
    }
    if !s.tail.IsConsumed() && !s.tail.IsFirst() {
      return s.n - 1;
    }
    if !Valid(s, s.tail.Masked()) {
      return -1;
    }
    count := CountAhead(s.chain, s.tail.Masked(), s.tail, Follow(s.chain, s.tail.idx, s.n));
  }

  /**
   Between pushes an unflagged tail means exactly that a message has been dropped since
   the consumer last took one, and then the queue is full.
   */
  lemma UnflaggedTail(s: State, h: Hist)
    requires Reach(s, h) && s.ppc.Idle? && s.tail.Tail?
    ensures !s.tail.consumed && !s.tail.first <==> h.j.log != [] && h.j.log[|h.j.log| - 1] == Dropped
    ensures !s.tail.consumed && !s.tail.first ==> Retained(s) == s.n - 1
  {
    hide Reach, Inv, Retained, Follow, Ledger;
    ReachInv(s, h);
    CountFacts(s, h);
    FirstLog(s, h);
    LastFate(s.tail, Overrun(s), h.j);
  }

  lemma FirstLog(s: State, h: Hist)
    requires Inv(s, h) && s.tail.Tail?
    ensures Ledger(s.tail, Overrun(s), h.j)
    ensures !s.tail.consumed && s.tail.first ==> h.j.log == []
  {
    hide Ring, Contents, Producer, Consumer, Deliveries;
  }

  lemma LastFate(tail: TailWord, overran: bool, j: Journal)
    requires tail.Tail? && Ledger(tail, overran, j)
    requires !tail.consumed && tail.first ==> j.log == []
    ensures !tail.consumed && !tail.first <==> j.log != [] && j.log[|j.log| - 1] == Dropped
  {}
}
