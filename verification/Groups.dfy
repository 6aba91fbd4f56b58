/**
 Both ends of a group. The client lays its channels out in shared memory and numbers its event descriptors;
 the server does the same from the request and the descriptors it received. Descriptors are opaque numbers;
 the results of the operating system are parameters.
 */
module Groups {
  import opened Layout
  import opened Wire

  const NO_FD: int := -1
  const EINVAL: int := 22
  const ENOMEM: int := 12

  /** One end of a channel: ri_consumer_t or ri_producer_t with its queue. */
  datatype Endpoint = Endpoint(offset: nat, len: nat, msgSize: nat, eventfd: int)

  /** The bytes of shared memory that the channels take. */
  function Size(cs: seq<ChannelAttr>, line: nat): (n: nat)
    requires line > 0
  {
    if cs == [] then 0 else ChannelSize(cs[0], line) + Size(cs[1..], line)
  }

  /** The number of channels that have an event descriptor. */
  function Events(cs: seq<ChannelAttr>): (n: nat) {
    if cs == [] then 0 else (if cs[0].eventfd then 1 else 0) + Events(cs[1..])
  }

  /** Channels one behind the other from `at` on, with their descriptors from position k on. */
  function Endpoints(cs: seq<ChannelAttr>, at: nat, fds: seq<int>, k: nat, line: nat): (es: seq<Endpoint>)
    requires line > 0 && k + Events(cs) <= |fds|
    ensures |es| == |cs|
    decreases |cs|
  {
    if cs == [] then []
    else
      var e := Endpoint(at, QueueLen(cs[0]), cs[0].msgSize, if cs[0].eventfd then fds[k] else NO_FD);
      [e] + Endpoints(cs[1..], at + ChannelSize(cs[0], line), fds, if cs[0].eventfd then k + 1 else k, line)
  }

  /** The descriptors that are set. */
  function EventFds(es: seq<Endpoint>): (fds: seq<int>) {
    if es == [] then [] else (if es[0].eventfd >= 0 then [es[0].eventfd] else []) + EventFds(es[1..])
  }

  // ---- prefixes ---------------------------------------------------------------------------------

  lemma {:induction false} SizeSplit(cs: seq<ChannelAttr>, i: nat, line: nat)
    requires i <= |cs| && line > 0
    ensures Size(cs, line) == Size(cs[..i], line) + Size(cs[i..], line)
    ensures Events(cs) == Events(cs[..i]) + Events(cs[i..])
  {
    hide ChannelSize;
    if i > 0 {
      SizeSplit(cs[1..], i - 1, line);
      assert cs[..i][1..] == cs[1..][..i - 1] && cs[1..][i - 1..] == cs[i..];
    } else {
      assert cs[..0] == [] && cs[0..] == cs;
    }
  }

  lemma SizeSnoc(cs: seq<ChannelAttr>, i: nat, line: nat)
    requires i < |cs| && line > 0
    ensures Size(cs[..i + 1], line) == Size(cs[..i], line) + ChannelSize(cs[i], line)
    ensures Events(cs[..i + 1]) == Events(cs[..i]) + if cs[i].eventfd then 1 else 0
    ensures Events(cs[..i + 1]) <= Events(cs)
  {
    hide ChannelSize;
    SizeSplit(cs[..i + 1], i, line);
    SizeSplit(cs, i + 1, line);
    assert cs[..i + 1][..i] == cs[..i] && cs[..i + 1][i..] == [cs[i]];
  }

  /** The i-th endpoint of a row: its place follows from the channels before it. */
  function EndpointOf(cs: seq<ChannelAttr>, at: nat, fds: seq<int>, k: nat, line: nat, i: nat): (e: Endpoint)
    requires line > 0 && i < |cs| && (cs[i].eventfd ==> k + Events(cs[..i]) < |fds|)
  {
    Endpoint(at + Size(cs[..i], line), QueueLen(cs[i]), cs[i].msgSize,
             if cs[i].eventfd then fds[k + Events(cs[..i])] else NO_FD)
  }

  lemma {:induction false} EndpointAt(cs: seq<ChannelAttr>, at: nat, fds: seq<int>, k: nat, line: nat, i: nat)
    requires line > 0 && k + Events(cs) <= |fds| && i < |cs|
    ensures Events(cs[..i]) + (if cs[i].eventfd then 1 else 0) <= Events(cs)
    ensures Endpoints(cs, at, fds, k, line)[i] == EndpointOf(cs, at, fds, k, line, i)
    ensures var e := Endpoints(cs, at, fds, k, line)[i];
      e.len == cs[i].addMsgs + 3 && e.msgSize == cs[i].msgSize && (!cs[i].eventfd ==> e.eventfd == -1)
  {
    hide ChannelSize;
    SizeSnoc(cs, i, line);
    if i > 0 {
      EndpointAt(cs[1..], at + ChannelSize(cs[0], line), fds, if cs[0].eventfd then k + 1 else k, line, i - 1);
      assert cs[..i][1..] == cs[1..][..i - 1];
    } else {
      assert cs[..0] == [];
    }
  }

  /** Only the descriptors matter, not where the numbering starts. */
  lemma EndpointsShift(cs: seq<ChannelAttr>, at: nat, fds: seq<int>, k: nat, fds': seq<int>, k': nat, line: nat)
    requires line > 0 && k + Events(cs) <= |fds| && k' + Events(cs) <= |fds'|
    requires fds[k..k + Events(cs)] == fds'[k'..k' + Events(cs)]
    ensures Endpoints(cs, at, fds, k, line) == Endpoints(cs, at, fds', k', line)
  {
    hide Endpoints, Size, Events, QueueLen;
    var n := Events(cs);
    forall i | 0 <= i < |cs|
      ensures Endpoints(cs, at, fds, k, line)[i] == Endpoints(cs, at, fds', k', line)[i]
    {
      EndpointAt(cs, at, fds, k, line, i);
      EndpointAt(cs, at, fds', k', line, i);
      var e := Events(cs[..i]);
      if cs[i].eventfd {
        assert fds[k + e] == fds[k..k + n][e] && fds'[k' + e] == fds'[k'..k' + n][e];
      }
    }
  }

  /** The descriptors of a row of endpoints are those it was given, in order. */
  lemma {:induction false} EventFdsOf(cs: seq<ChannelAttr>, at: nat, fds: seq<int>, k: nat, line: nat)
    requires line > 0 && k + Events(cs) <= |fds| && forall i :: k <= i < k + Events(cs) ==> fds[i] >= 0
    ensures EventFds(Endpoints(cs, at, fds, k, line)) == fds[k..k + Events(cs)]
  {
    hide ChannelSize;
    if cs != [] {
      var k' := if cs[0].eventfd then k + 1 else k;
      EventFdsOf(cs[1..], at + ChannelSize(cs[0], line), fds, k', line);
    }
  }

  // ---- the shared memory ------------------------------------------------------------------------

  /** ri_calc_shm_size */
  method CalcShmSize(consumers: seq<ChannelAttr>, producers: seq<ChannelAttr>, line: nat) returns (size: nat)
    requires line > 0
    ensures size == Size(producers, line) + Size(consumers, line)
  {
    hide ChannelSize;
    size := 0;
    for i := 0 to |consumers|
      invariant size == Size(consumers[..i], line)
    {
      SizeSnoc(consumers, i, line);
      size := size + ChannelSize(consumers[i], line);
    }
    assert consumers[..|consumers|] == consumers;
    for i := 0 to |producers|
      invariant size == Size(consumers, line) + Size(producers[..i], line)
    {
      SizeSnoc(producers, i, line);
      size := size + ChannelSize(producers[i], line);
    }
    assert producers[..|producers|] == producers;
  }

  /** Every byte of the memory belongs to exactly one channel of a row. */
  predicate Owns(cs: seq<ChannelAttr>, line: nat, i: nat, x: nat)
    requires line > 0 && i < |cs|
  {
    Size(cs[..i], line) <= x < Size(cs[..i], line) + ChannelSize(cs[i], line)
  }

  lemma {:induction false} Owned(cs: seq<ChannelAttr>, line: nat, x: nat) returns (i: nat)
    requires line > 0 && x < Size(cs, line)
    ensures i < |cs| && Owns(cs, line, i, x)
  {
    hide ChannelSize;
    var first := ChannelSize(cs[0], line);
    if x < first {
      i := 0;
      assert cs[..0] == [];
    } else {
      var j := Owned(cs[1..], line, x - first);
      i := j + 1;
      assert cs[..i][1..] == cs[1..][..j];
    }
  }

  lemma RegionsInOrder(cs: seq<ChannelAttr>, line: nat, i: nat, j: nat)
    requires line > 0 && i < j < |cs|
    ensures Size(cs[..i], line) + ChannelSize(cs[i], line) <= Size(cs[..j], line)
    ensures Size(cs[..j], line) + ChannelSize(cs[j], line) <= Size(cs, line)
  {
    hide ChannelSize, Size;
    SizeSnoc(cs, i, line);
    SizeSplit(cs[..j], i + 1, line);
    assert cs[..j][..i + 1] == cs[..i + 1];
    SizeSnoc(cs, j, line);
    SizeSplit(cs, j + 1, line);
  }

  lemma RegionsTile(cs: seq<ChannelAttr>, line: nat, x: nat)
    requires line > 0
    ensures x < Size(cs, line) <==> exists i: nat :: i < |cs| && Owns(cs, line, i, x)
    ensures forall i: nat, j: nat :: i < |cs| && j < |cs| && Owns(cs, line, i, x) && Owns(cs, line, j, x) ==> i == j
  {
    hide ChannelSize, Size;
    if x < Size(cs, line) {
      var i := Owned(cs, line, x);
    }
    forall i: nat | i < |cs| && Owns(cs, line, i, x)
      ensures x < Size(cs, line)
    {
      SizeSnoc(cs, i, line);
      SizeSplit(cs, i + 1, line);
    }
    forall i: nat, j: nat | i < |cs| && j < |cs| && Owns(cs, line, i, x) && Owns(cs, line, j, x)
      ensures i == j
    {
      if i < j {
        RegionsInOrder(cs, line, i, j);
      } else if j < i {
        RegionsInOrder(cs, line, j, i);
      }
    }
  }

  /** Two rows, one behind the other, are one row. */
  lemma EndpointsConcat(ps: seq<ChannelAttr>, cs: seq<ChannelAttr>, at: nat, fds: seq<int>, k: nat, line: nat)
    requires line > 0 && k + Events(ps) + Events(cs) <= |fds|
    ensures Events(ps + cs) == Events(ps) + Events(cs) && Size(ps + cs, line) == Size(ps, line) + Size(cs, line)
    ensures Endpoints(ps + cs, at, fds, k, line)
         == Endpoints(ps, at, fds, k, line) + Endpoints(cs, at + Size(ps, line), fds, k + Events(ps), line)
  {
    hide Endpoints, Size, Events, QueueLen;
    var all, n := ps + cs, |ps|;
    SizeSplit(all, n, line);
    assert all[..n] == ps && all[n..] == cs;
    forall i | 0 <= i < |all|
      ensures Endpoints(all, at, fds, k, line)[i]
           == (Endpoints(ps, at, fds, k, line) + Endpoints(cs, at + Size(ps, line), fds, k + Events(ps), line))[i]
    {
      EndpointAt(all, at, fds, k, line, i);
      if i < n {
        EndpointAt(ps, at, fds, k, line, i);
        assert all[..i] == ps[..i];
      } else {
        EndpointAt(cs, at + Size(ps, line), fds, k + Events(ps), line, i - n);
        SizeSplit(all[..i], n, line);
        assert all[..i][..n] == ps && all[..i][n..] == cs[..i - n];
      }
    }
  }

  /** Endpoint e of channel c covers byte x of the shared memory. */
  predicate Covers(e: Endpoint, c: ChannelAttr, line: nat, x: nat)
    requires line > 0
  {
    e.offset <= x < e.offset + ChannelSize(c, line)
  }

  /**
   The regions of a group tile its shared memory: a byte below the computed size is covered by exactly one
   channel, a byte beyond it by none.
   */
  lemma GroupTiles(g: GroupAttr, fds: seq<int>, line: nat, x: nat)
    requires line > 0 && Events(g.producers) + Events(g.consumers) <= |fds|
    ensures var cs := g.producers + g.consumers;
      var es := Producers(g, fds, line) + Consumers(g, fds, line);
      && |es| == |cs|
      && (x < ShmSize(g, line) <==> exists i: nat :: i < |cs| && Covers(es[i], cs[i], line, x))
      && forall i: nat, j: nat ::
           i < |cs| && j < |cs| && Covers(es[i], cs[i], line, x) && Covers(es[j], cs[j], line, x) ==> i == j
  {
    hide ChannelSize, Size, Endpoints, Events;
    var cs := g.producers + g.consumers;
    EndpointsConcat(g.producers, g.consumers, 0, fds, 0, line);
    var es := Endpoints(cs, 0, fds, 0, line);
    forall i: nat | i < |cs|
      ensures Covers(es[i], cs[i], line, x) <==> Owns(cs, line, i, x)
    {
      EndpointAt(cs, 0, fds, 0, line, i);
    }
    RegionsTile(cs, line, x);
    if x < ShmSize(g, line) {
      var i: nat :| i < |cs| && Owns(cs, line, i, x);
      assert Covers(es[i], cs[i], line, x);
    }
  }

  /**
   All regions of a group that has channels lie inside a memory of some size exactly if it is at least the
   computed one.
   */
  lemma RegionsInsideIff(g: GroupAttr, fds: seq<int>, line: nat, size: nat)
    requires line > 0 && Events(g.producers) + Events(g.consumers) <= |fds| && g.producers + g.consumers != []
    ensures var cs := g.producers + g.consumers;
      var es := Producers(g, fds, line) + Consumers(g, fds, line);
      && |es| == |cs|
      && ((forall i :: 0 <= i < |cs| ==> es[i].offset + ChannelSize(cs[i], line) <= size) <==> ShmSize(g, line) <= size)
  {
    hide ChannelSize, Size, Endpoints, Events;
    var cs := g.producers + g.consumers;
    EndpointsConcat(g.producers, g.consumers, 0, fds, 0, line);
    var es := Endpoints(cs, 0, fds, 0, line);
    forall i | 0 <= i < |cs|
      ensures es[i].offset + ChannelSize(cs[i], line) == Size(cs[..i + 1], line) <= Size(cs, line)
    {
      EndpointAt(cs, 0, fds, 0, line, i);
      SizeSnoc(cs, i, line);
      SizeSplit(cs, i + 1, line);
    }
    assert cs[..|cs|] == cs;
    var last := |cs| - 1;
    assert es[last].offset + ChannelSize(cs[last], line) == Size(cs, line);
  }

  /** The computed size of the shared memory. */
  function ShmSize(g: GroupAttr, line: nat): (n: nat)
    requires line > 0
  {
    Size(g.producers, line) + Size(g.consumers, line)
  }

  /** The client's producers: first in memory, first in the numbering of descriptors. */
  function Producers(g: GroupAttr, fds: seq<int>, line: nat): (es: seq<Endpoint>)
    requires line > 0 && Events(g.producers) <= |fds|
    ensures |es| == |g.producers|
  {
    Endpoints(g.producers, 0, fds, 0, line)
  }

  function Consumers(g: GroupAttr, fds: seq<int>, line: nat): (es: seq<Endpoint>)
    requires line > 0 && Events(g.producers) + Events(g.consumers) <= |fds|
    ensures |es| == |g.consumers|
  {
    Endpoints(g.consumers, Size(g.producers, line), fds, Events(g.producers), line)
  }

  lemma ChannelNotEmpty(c: ChannelAttr, line: nat)
    requires line > 0
    ensures ChannelSize(c, line) > 0
  {
    hide Aligned;
    AlignedBounds((QueueLen(c) + 2) * WORD, line);
    assert QueueLen(c) * Aligned(c.msgSize, line) >= 0;
  }

  // ---- the two ends -----------------------------------------------------------------------------

  /** ri_group_t */
  class Group {
    var data: GroupAttr
    var shm: int
    var size: nat
    var consumers: seq<Endpoint>
    var producers: seq<Endpoint>

    constructor (data: GroupAttr, shm: int, size: nat)
      ensures this.data == data && this.shm == shm && this.size == size
      ensures consumers == [] && producers == []
    {
      this.data := data;
      this.shm := shm;
      this.size := size;
      consumers, producers := [], [];
    }
  }

  /** What creating descriptors gave: enough of them, all valid. */
  predicate Created(fds: seq<int>, n: nat) {
    n <= |fds| && forall i :: 0 <= i < n ==> fds[i] >= 0
  }

  /** The i-th endpoint of a row can be made: its memory exists and its descriptor is a usable one. */
  predicate Made(cs: seq<ChannelAttr>, at: nat, fds: seq<int>, k: nat, size: nat, usable: set<int>, line: nat, i: nat)
    requires line > 0 && i < |cs|
  {
    && at + Size(cs[..i], line) < size
    && (cs[i].eventfd ==>
          var n := k + Events(cs[..i]);
          n < |fds| && 0 <= fds[n] && fds[n] in usable)
  }

  predicate AllMade(cs: seq<ChannelAttr>, at: nat, fds: seq<int>, k: nat, size: nat, usable: set<int>, line: nat)
    requires line > 0
  {
    forall i :: 0 <= i < |cs| ==> Made(cs, at, fds, k, size, usable, line, i)
  }

  /** The endpoints made so far in a loop over a row. */
  ghost predicate MadeSoFar(cs: seq<ChannelAttr>, at: nat, fds: seq<int>, k: nat, size: nat, usable: set<int>,
                            line: nat, es: seq<Endpoint>)
    requires line > 0
  {
    && |es| <= |cs| && k + Events(cs[..|es|]) <= |fds|
    && forall i :: 0 <= i < |es| ==>
         Made(cs, at, fds, k, size, usable, line, i) && es[i] == EndpointOf(cs, at, fds, k, line, i)
  }

  lemma MadeMore(cs: seq<ChannelAttr>, at: nat, fds: seq<int>, k: nat, size: nat, usable: set<int>,
                 line: nat, es: seq<Endpoint>)
    requires line > 0 && MadeSoFar(cs, at, fds, k, size, usable, line, es) && |es| < |cs|
    requires Made(cs, at, fds, k, size, usable, line, |es|)
    ensures MadeSoFar(cs, at, fds, k, size, usable, line, es + [EndpointOf(cs, at, fds, k, line, |es|)])
  {
    hide Size, Events, EndpointOf;
    SizeSnoc(cs, |es|, line);
  }

  lemma MadeNone(cs: seq<ChannelAttr>, at: nat, fds: seq<int>, k: nat, size: nat, usable: set<int>, line: nat)
    requires line > 0 && k <= |fds|
    ensures MadeSoFar(cs, at, fds, k, size, usable, line, [])
    ensures Size(cs[..0], line) == 0 && Events(cs[..0]) == 0
  {}

  lemma MadeAll(cs: seq<ChannelAttr>, at: nat, fds: seq<int>, k: nat, size: nat, usable: set<int>,
                line: nat, es: seq<Endpoint>)
    requires line > 0 && MadeSoFar(cs, at, fds, k, size, usable, line, es) && |es| == |cs|
    ensures AllMade(cs, at, fds, k, size, usable, line) && k + Events(cs) <= |fds|
    ensures es == Endpoints(cs, at, fds, k, line)
    ensures cs[..|es|] == cs
  {
    hide Made, Endpoints, EndpointOf, Events, Size;
    assert cs[..|es|] == cs;
    forall i | 0 <= i < |cs|
      ensures es[i] == Endpoints(cs, at, fds, k, line)[i]
    {
      EndpointAt(cs, at, fds, k, line, i);
    }
  }

  function Elements(s: seq<int>): (r: set<int>) {
    set i | 0 <= i < |s| :: s[i]
  }

  /** One of the two loops of ri_group_from_attr; `created` is what successive calls for a descriptor give. */
  method NewChannels(cs: seq<ChannelAttr>, at: nat, created: seq<int>, k: nat, size: nat, line: nat)
    returns (ok: bool, es: seq<Endpoint>, end: nat, next: nat)
    requires line > 0 && k + Events(cs) <= |created|
    ensures ok <==> AllMade(cs, at, created, k, size, Elements(created), line)
    ensures ok ==> es == Endpoints(cs, at, created, k, line) && end == at + Size(cs, line) && next == k + Events(cs)
  {
    hide MadeSoFar, AllMade, ChannelSize, Size, Events, QueueLen;
    es, end, next := [], at, k;
    ghost var usable := Elements(created);
    MadeNone(cs, at, created, k, size, usable, line);
    for i := 0 to |cs|
      invariant |es| == i && end == at + Size(cs[..i], line) && next == k + Events(cs[..i])
      invariant MadeSoFar(cs, at, created, k, size, usable, line, es)
    {
      SizeSnoc(cs, i, line);
      var eventfd := NO_FD;
      if cs[i].eventfd {
        eventfd := created[next];
        next := next + 1;
        if eventfd < 0 {
          NotMade(cs, at, created, k, size, usable, line, i);
          return false, es, end, next;
        }
      }
      if end >= size {
        NotMade(cs, at, created, k, size, usable, line, i);
        return false, es, end, next;
      }
      MadeMore(cs, at, created, k, size, usable, line, es);
      es := es + [Endpoint(end, QueueLen(cs[i]), cs[i].msgSize, eventfd)];
      end := end + ChannelSize(cs[i], line);
    }
    MadeAll(cs, at, created, k, size, usable, line, es);
    ok := true;
  }

  lemma NotMade(cs: seq<ChannelAttr>, at: nat, fds: seq<int>, k: nat, size: nat, usable: set<int>, line: nat, i: nat)
    requires line > 0 && i < |cs|
    ensures AllMade(cs, at, fds, k, size, usable, line) ==> Made(cs, at, fds, k, size, usable, line, i)
  {}

  /** take_eventfd: `usable` are the descriptors that pass the checks of the operating system. */
  method TakeEventfd(idx: nat, fds: array<int>, usable: set<int>) returns (r: int)
    modifies fds
    ensures r >= 0 <==> idx < fds.Length && old(fds[..])[idx] >= 0 && old(fds[..])[idx] in usable
    ensures r >= 0 ==> r == old(fds[..])[idx] && fds[..] == old(fds[..])[idx := NO_FD]
    ensures r < 0 ==> fds[..] == old(fds[..])
  {
    if idx >= fds.Length {
      return NO_FD;
    }
    r := fds[idx];
    if r < 0 {
      return;
    }
    if r !in usable {
      return NO_FD;
    }
    fds[idx] := NO_FD;
  }

  /** The descriptors from `from` to `to` are gone, the others are where they were. */
  ghost predicate Taken(fds: seq<int>, fds': seq<int>, from: nat, to: nat) {
    && |fds'| == |fds|
    && forall i :: 0 <= i < |fds| ==> fds'[i] == if from <= i < to then NO_FD else fds[i]
  }

  /** Descriptors are where they were, or gone. */
  ghost predicate OnlyTaken(fds: seq<int>, fds': seq<int>) {
    |fds'| == |fds| && forall i :: 0 <= i < |fds| ==> fds'[i] == fds[i] || fds'[i] == NO_FD
  }

  /** One of the two loops of ri_group_map. */
  method MapChannels(cs: seq<ChannelAttr>, at: nat, fds: array<int>, k: nat, size: nat, usable: set<int>, line: nat)
    returns (ok: bool, es: seq<Endpoint>, end: nat, next: nat)
    requires line > 0 && k <= fds.Length
    modifies fds
    ensures ok <==> AllMade(cs, at, old(fds[..]), k, size, usable, line)
    ensures ok ==> next == k + Events(cs) <= fds.Length && end == at + Size(cs, line)
    ensures ok ==> es == Endpoints(cs, at, old(fds[..]), k, line)
    ensures ok ==> Taken(old(fds[..]), fds[..], k, next)
    ensures OnlyTaken(old(fds[..]), fds[..])
  {
    hide MadeSoFar, AllMade, ChannelSize, Size, Events, QueueLen;
    es, end, next := [], at, k;
    ghost var given := fds[..];
    MadeNone(cs, at, given, k, size, usable, line);
    for i := 0 to |cs|
      invariant |es| == i && end == at + Size(cs[..i], line) && next == k + Events(cs[..i])
      invariant MadeSoFar(cs, at, given, k, size, usable, line, es)
      invariant Taken(given, fds[..], k, next)
    {
      SizeSnoc(cs, i, line);
      NotMade(cs, at, given, k, size, usable, line, i);
      var eventfd := NO_FD;
      if cs[i].eventfd {
        eventfd := TakeEventfd(next, fds, usable);
        next := next + 1;
        if eventfd < 0 {
          return false, es, end, next;
        }
      }
      if end >= size {
        return false, es, end, next;
      }
      MadeMore(cs, at, given, k, size, usable, line, es);
      es := es + [Endpoint(end, QueueLen(cs[i]), cs[i].msgSize, eventfd)];
      end := end + ChannelSize(cs[i], line);
    }
    MadeAll(cs, at, given, k, size, usable, line, es);
    ok := true;
  }
}
