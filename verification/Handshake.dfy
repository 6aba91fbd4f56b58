/**
 Building a group, serializing it and building its counterpart from what was sent.
 */
module Handshake {
  import opened Queue
  import opened Layout
  import opened Wrappers
  import opened Wire
  import opened InfoMemory
  import opened Parsing
  import opened Request
  import opened Groups

  function AllEvents(g: GroupAttr): (n: nat) {
    Events(g.producers) + Events(g.consumers)
  }

  /** The tables of channels can be counted with the entry that ends them. */
  predicate Countable(g: GroupAttr) {
    |g.producers| + 1 < UINT_RANGE && |g.consumers| + 1 < UINT_RANGE
  }

  // ---- when a row can be made -------------------------------------------------------------------

  /** Each descriptor of a row belongs to one of its channels. */
  lemma {:induction false} EventOwner(cs: seq<ChannelAttr>, n: nat) returns (i: nat)
    requires n < Events(cs)
    ensures i < |cs| && cs[i].eventfd && Events(cs[..i]) == n
  {
    if cs[0].eventfd && n == 0 {
      i := 0;
    } else {
      var j := EventOwner(cs[1..], if cs[0].eventfd then n - 1 else n);
      i := j + 1;
      assert cs[..i][1..] == cs[1..][..j];
    }
  }

  /**
   A row can be made exactly when the last region, and so every one, begins inside the memory and all of its
   descriptors are there and good.
   */
  lemma AllMadeIff(cs: seq<ChannelAttr>, at: nat, fds: seq<int>, k: nat, size: nat, usable: set<int>, line: nat)
    requires line > 0 && k <= |fds|
    ensures AllMade(cs, at, fds, k, size, usable, line) <==>
      && (cs == [] || at + Size(cs[..|cs| - 1], line) < size)
      && k + Events(cs) <= |fds|
      && forall n :: k <= n < k + Events(cs) ==> 0 <= fds[n] && fds[n] in usable
  {
    hide Size, Events, ChannelSize;
    if AllMade(cs, at, fds, k, size, usable, line) {
      if cs != [] {
        assert Made(cs, at, fds, k, size, usable, line, |cs| - 1);
      }
      forall n | k <= n < k + Events(cs)
        ensures n < |fds| && 0 <= fds[n] && fds[n] in usable
      {
        var i := EventOwner(cs, n - k);
        assert Made(cs, at, fds, k, size, usable, line, i);
      }
      if Events(cs) > 0 {
        var i := EventOwner(cs, Events(cs) - 1);
        assert Made(cs, at, fds, k, size, usable, line, i);
      }
    }
    if (cs == [] || at + Size(cs[..|cs| - 1], line) < size) && k + Events(cs) <= |fds|
        && forall n :: k <= n < k + Events(cs) ==> 0 <= fds[n] && fds[n] in usable {
      forall i | 0 <= i < |cs|
        ensures Made(cs, at, fds, k, size, usable, line, i)
      {
        SizeSnoc(cs, i, line);
        SizeUpTo(cs, i, line);
      }
    }
  }

  lemma SizeUpTo(cs: seq<ChannelAttr>, i: nat, line: nat)
    requires line > 0 && i < |cs|
    ensures Size(cs[..i], line) <= Size(cs[..|cs| - 1], line)
  {
    SizeSplit(cs[..|cs| - 1], i, line);
    assert cs[..|cs| - 1][..i] == cs[..i];
  }

  /** The last region of a row that fits begins inside the memory. */
  lemma LastBegins(cs: seq<ChannelAttr>, line: nat)
    requires line > 0 && cs != []
    ensures Size(cs[..|cs| - 1], line) < Size(cs, line)
  {
    hide ChannelSize, Size;
    SizeSnoc(cs, |cs| - 1, line);
    ChannelNotEmpty(cs[|cs| - 1], line);
    assert cs[..|cs|] == cs;
  }

  // ---- the client -------------------------------------------------------------------------------

  /**
   ri_group_from_attr: producers first, then consumers, one behind the other. `shm` is what creating and mapping
   the memory gives, `created` what successive calls for a descriptor give; a negative number is a failure.
   */
  method FromAttr(g: GroupAttr, shm: int, created: seq<int>, line: nat) returns (grp: Group?)
    requires line > 0 && AllEvents(g) <= |created|
    ensures grp != null <==> shm >= 0 && forall i :: 0 <= i < AllEvents(g) ==> created[i] >= 0
    ensures grp != null ==> fresh(grp) && grp.data == g && grp.shm == shm && grp.size == ShmSize(g, line)
    ensures grp != null ==> grp.producers == Producers(g, created, line) && grp.consumers == Consumers(g, created, line)
  {
    hide AllMade, Size, Events, ChannelSize, Endpoints;
    var size := CalcShmSize(g.consumers, g.producers, line);
    if shm < 0 {
      return null;
    }
    var r := new Group(g, shm, size);
    var usable := Elements(created);
    if g.producers != [] {
      LastBegins(g.producers, line);
    }
    if g.consumers != [] {
      LastBegins(g.consumers, line);
    }
    AllMadeIff(g.producers, 0, created, 0, size, usable, line);
    AllMadeIff(g.consumers, Size(g.producers, line), created, Events(g.producers), size, usable, line);
    var ok, es, offset, k := NewChannels(g.producers, 0, created, 0, size, line);
    if !ok {
      return null;
    }
    r.producers := es;
    ok, es, offset, k := NewChannels(g.consumers, offset, created, k, size, line);
    if !ok {
      return null;
    }
    r.consumers := es;
    return r;
  }

  /** What is sent along with the request: the shared memory and the event descriptors, producers first. */
  function Collected(shm: int, producers: seq<Endpoint>, consumers: seq<Endpoint>): (fds: seq<int>)
    ensures |fds| >= 1
  {
    [shm] + EventFds(producers) + EventFds(consumers)
  }

  lemma {:induction false} EventFdsSplit(es: seq<Endpoint>, i: nat)
    requires i <= |es|
    ensures EventFds(es) == EventFds(es[..i]) + EventFds(es[i..])
  {
    if i == 0 {
      assert es[..0] == [] && es[0..] == es;
    } else {
      EventFdsSplit(es[1..], i - 1);
      assert es[..i][1..] == es[1..][..i - 1] && es[1..][i - 1..] == es[i..];
    }
  }

  lemma EventFdsSnoc(es: seq<Endpoint>, i: nat)
    requires i < |es|
    ensures EventFds(es[..i + 1]) == EventFds(es[..i]) + if es[i].eventfd >= 0 then [es[i].eventfd] else []
    ensures |EventFds(es[..i + 1])| <= |EventFds(es)|
  {
    EventFdsSplit(es, i + 1);
    EventFdsSplit(es[..i + 1], i);
    assert es[..i + 1][..i] == es[..i] && es[..i + 1][i..] == [es[i]];
  }

  lemma NoEventFds()
    ensures EventFds([]) == []
  {}

  /** One of the two loops of collect_fds. */
  method CollectRow(es: seq<Endpoint>, fds: array<int>, idx: nat) returns (ok: bool, next: nat)
    requires idx <= fds.Length
    modifies fds
    ensures ok <==> idx + |EventFds(es)| <= fds.Length
    ensures ok ==> next == idx + |EventFds(es)|
    ensures ok ==> fds[..idx] == old(fds[..idx]) && fds[idx..next] == EventFds(es) && fds[next..] == old(fds[next..])
  {
    hide EventFds;
    next := idx;
    ghost var given := fds[..];
    NoEventFds();
    assert es[..0] == [];
    for i := 0 to |es|
      invariant next == idx + |EventFds(es[..i])| <= fds.Length
      invariant fds[idx..next] == EventFds(es[..i])
      invariant forall j :: 0 <= j < fds.Length && !(idx <= j < next) ==> fds[j] == given[j]
    {
      EventFdsSnoc(es, i);
      if es[i].eventfd >= 0 {
        if next >= fds.Length {
          return false, next;
        }
        fds[next] := es[i].eventfd;
        next := next + 1;
      }
    }
    assert es[..|es|] == es;
    ok := true;
  }

  /** collect_fds */
  method CollectFds(grp: Group, fds: array<int>) returns (r: int)
    modifies fds
    ensures var all := Collected(grp.shm, grp.producers, grp.consumers);
      && r == (if fds.Length < 1 then -EINVAL else if |all| > fds.Length then -ENOMEM else |all|)
      && (r >= 0 ==> fds[..r] == all && fds[r..] == old(fds[r..]))
  {
    hide EventFds;
    if fds.Length < 1 {
      return -EINVAL;
    }
    fds[0] := grp.shm;
    var ok, idx := CollectRow(grp.producers, fds, 1);
    if !ok {
      return -ENOMEM;
    }
    ghost var first := fds[..idx];
    assert first == [grp.shm] + EventFds(grp.producers);
    ghost var from := idx;
    ok, idx := CollectRow(grp.consumers, fds, idx);
    if !ok {
      return -ENOMEM;
    }
    assert fds[..idx] == fds[..from] + fds[from..idx];
    return idx;
  }

  /**
   ri_group_serialize; n is the number of descriptors. The result is the end of the channel table, or the error: no
   room for a single descriptor, a buffer that is too small, too little room for the descriptors, in this order.
   */
  method Serialize(grp: Group, buffer: array<byte>, fds: array<int>, line: nat) returns (r: int, n: nat)
    requires FitsGroup(grp.data) && line < 0x1_0000
    modifies buffer, fds
    ensures var all, g := Collected(grp.shm, grp.producers, grp.consumers), grp.data;
      var accepted := CalcSize(g) <= buffer.Length
        || (g.producers == [] && g.consumers == [] && 16 <= buffer.Length < 20 && 16 + |g.info| <= buffer.Length);
      && r == (if fds.Length < 1 then -22 else if !accepted then -1 else if |all| > fds.Length then -12
               else if buffer.Length < CalcSize(g) then 16 else 20 + 16 * (|g.producers| + |g.consumers|))
      && (r >= 0 ==> n == |all| <= fds.Length && fds[..n] == all)
    ensures r >= 0 && CalcSize(grp.data) <= buffer.Length ==>
      && Parse(buffer[..], line) == Some(Swapped(grp.data))
      && (ParseInside(buffer[..], line) <==> Countable(grp.data))
  {
    hide Parse, EventFds, ParseInside, Encode;
    n := 0;
    if fds.Length < 1 {
      return -EINVAL, n;
    }
    var written := WriteRequest(grp.data, buffer, line);
    if written < 0 {
      return written, n;
    }
    if CalcSize(grp.data) <= buffer.Length {
      EncodeSize(grp.data, line);
      EncodedInsideIff(grp.data, line, buffer[..]);
    }
    r := CollectFds(grp, fds);
    if r < 0 {
      return r, n;
    }
    n := r;
    r := written;
  }

  // ---- the server -------------------------------------------------------------------------------

  /** The descriptors after the first one has become the shared memory. */
  function Rest(fds: seq<int>): (r: seq<int>)
    requires |fds| >= 1
    ensures |r| == |fds|
  {
    fds[0 := NO_FD]
  }

  /** A group can be mapped: the memory is accepted and both rows can be made, consumers first. */
  predicate Mappable(d: GroupAttr, fds: seq<int>, memory: set<int>, size: nat, usable: set<int>, line: nat)
    requires line > 0
  {
    && |fds| >= 1 && fds[0] in memory
    && AllMade(d.consumers, 0, Rest(fds), 1, size, usable, line)
    && AllMade(d.producers, Size(d.consumers, line), Rest(fds), 1 + Events(d.consumers), size, usable, line)
  }

  /**
   ri_group_map. `memory` are the descriptors accepted as shared memory, `usable` those accepted as event
   descriptors, `size` is the size of the memory.
   */
  method MapGroup(d: GroupAttr, fds: array<int>, memory: set<int>, size: nat, usable: set<int>, line: nat)
    returns (grp: Group?)
    requires line > 0
    modifies fds
    ensures grp != null <==> Mappable(d, old(fds[..]), memory, size, usable, line)
    ensures grp != null ==>
      && fresh(grp) && grp.data == d && grp.shm == old(fds[..])[0] && grp.size == size
      && 1 + Events(d.consumers) + Events(d.producers) <= fds.Length
      && grp.consumers == Endpoints(d.consumers, 0, Rest(old(fds[..])), 1, line)
      && grp.producers
         == Endpoints(d.producers, Size(d.consumers, line), Rest(old(fds[..])), 1 + Events(d.consumers), line)
      && Taken(old(fds[..]), fds[..], 0, 1 + Events(d.consumers) + Events(d.producers))
    ensures OnlyTaken(old(fds[..]), fds[..])
  {
    hide AllMade, Size, Events, Endpoints;
    if fds.Length < 1 {
      return null;
    }
    if fds[0] !in memory {
      return null;
    }
    ghost var given := fds[..];
    var r := new Group(d, fds[0], size);
    fds[0] := NO_FD;
    ghost var rest := Rest(given);
    assert fds[..] == rest;
    var ok, es, offset, idx := MapChannels(d.consumers, 0, fds, 1, size, usable, line);
    if !ok {
      return null;
    }
    r.consumers := es;
    ghost var left := fds[..];
    SameFrom(d.producers, offset, rest, left, idx, size, usable, line);
    ok, es, offset, idx := MapChannels(d.producers, offset, fds, idx, size, usable, line);
    if !ok {
      return null;
    }
    r.producers := es;
    return r;
  }

  /**
   ri_group_deserialize: exactly when a group is built, from the request and from what the operating system says
   of memory and descriptors. `inside` says whether entries and infos were written inside the memory made for them.
   */
  method Deserialize(request: seq<byte>, fds: array<int>, memory: set<int>, size: nat, usable: set<int>, line: nat)
    returns (grp: Group?, inside: bool)
    requires 0 < line < 0x1_0000
    modifies fds
    ensures inside <==> fds.Length < 1 || ParseInside(request, line)
    ensures grp != null <==>
      && fds.Length >= 1 && Parse(request, line).Some? && old(fds[..])[0] in memory
      && var d := Parse(request, line).value; var cs := d.consumers + d.producers;
      && (cs == [] || Size(cs[..|cs| - 1], line) < size)
      && 1 + Events(cs) <= fds.Length
      && forall n :: 1 <= n < 1 + Events(cs) ==> 0 <= old(fds[..])[n] && old(fds[..])[n] in usable
    ensures grp != null ==>
      && |request| >= 20 && ReadU16(request, 0) == 0x1f0c && ReadU16(request, 2) == 2
      && ReadU16(request, 4) == line && ReadU16(request, 6) == 4
      && (forall i :: 0 <= i < |grp.consumers| ==> grp.consumers[i].offset < size)
      && (forall i :: 0 <= i < |grp.producers| ==> grp.producers[i].offset < size)
    ensures grp != null ==>
      var d := Parse(request, line).value;
      && fresh(grp) && grp.data == d && grp.shm == old(fds[..])[0] && grp.size == size
      && 1 + Events(d.consumers) + Events(d.producers) <= fds.Length
      && grp.consumers == Endpoints(d.consumers, 0, Rest(old(fds[..])), 1, line)
      && grp.producers
         == Endpoints(d.producers, Size(d.consumers, line), Rest(old(fds[..])), 1 + Events(d.consumers), line)
      && Taken(old(fds[..]), fds[..], 0, 1 + Events(d.consumers) + Events(d.producers))
    ensures OnlyTaken(old(fds[..]), fds[..])
    ensures Parse(request, line) == None ==> fds[..] == old(fds[..])
  {
    hide Parse, ParseInside, Size, Events, Endpoints, ReadU16, Mappable, Taken, Claimed;
    ParseIff(request, line);
    inside, grp := true, null;
    if fds.Length < 1 {
      return;
    }
    var parsed;
    parsed, inside := ParseRequest(request, line);
    if parsed == None {
      return;
    }
    ghost var given := fds[..];
    MappableIff(parsed.value, given, memory, size, usable, line);
    grp := MapGroup(parsed.value, fds, memory, size, usable, line);
    if grp != null {
      BeginInside(parsed.value, given, memory, size, usable, line, grp.consumers, grp.producers);
    }
  }

  /** When a group can be mapped, said of memory and descriptors: the last region begins inside the memory. */
  lemma MappableIff(d: GroupAttr, fds: seq<int>, memory: set<int>, size: nat, usable: set<int>, line: nat)
    requires line > 0 && |fds| >= 1
    ensures var cs := d.consumers + d.producers;
      Mappable(d, fds, memory, size, usable, line) <==>
        && fds[0] in memory && (cs == [] || Size(cs[..|cs| - 1], line) < size) && 1 + Events(cs) <= |fds|
        && forall n :: 1 <= n < 1 + Events(cs) ==> 0 <= fds[n] && fds[n] in usable
  {
    hide AllMade, Size, Events;
    var c, p, rest := d.consumers, d.producers, Rest(fds);
    AllMadeIff(c, 0, rest, 1, size, usable, line);
    if 1 + Events(c) <= |fds| {
      AllMadeIff(p, Size(c, line), rest, 1 + Events(c), size, usable, line);
    }
    Together(c, p, line);
    if p == [] {
      assert c + p == c;
    } else {
      FrontOf(c, p);
      Together(c, p[..|p| - 1], line);
    }
    if c != [] {
      LastBegins(c, line);
    }
    forall n | 1 <= n < |fds|
      ensures rest[n] == fds[n]
    {
    }
  }

  lemma Together(c: seq<ChannelAttr>, p: seq<ChannelAttr>, line: nat)
    requires line > 0
    ensures Events(c + p) == Events(c) + Events(p) && Size(c + p, line) == Size(c, line) + Size(p, line)
  {
    hide Size, Events, ChannelSize;
    SizeSplit(c + p, |c|, line);
    assert (c + p)[..|c|] == c && (c + p)[|c|..] == p;
  }

  lemma FrontOf(c: seq<ChannelAttr>, p: seq<ChannelAttr>)
    requires p != []
    ensures (c + p)[..|c + p| - 1] == c + p[..|p| - 1]
  {}

  /** Then every endpoint begins inside the memory. */
  lemma BeginInside(d: GroupAttr, fds: seq<int>, memory: set<int>, size: nat, usable: set<int>, line: nat,
                    consumers: seq<Endpoint>, producers: seq<Endpoint>)
    requires line > 0 && |fds| >= 1 && Mappable(d, fds, memory, size, usable, line)
    requires 1 + Events(d.consumers) + Events(d.producers) <= |fds|
    requires consumers == Endpoints(d.consumers, 0, Rest(fds), 1, line)
    requires producers == Endpoints(d.producers, Size(d.consumers, line), Rest(fds), 1 + Events(d.consumers), line)
    ensures forall i :: 0 <= i < |consumers| ==> consumers[i].offset < size
    ensures forall i :: 0 <= i < |producers| ==> producers[i].offset < size
  {
    hide Size, Events, Endpoints;
    RowBegins(d.consumers, 0, Rest(fds), 1, size, usable, line);
    RowBegins(d.producers, Size(d.consumers, line), Rest(fds), 1 + Events(d.consumers), size, usable, line);
  }

  lemma RowBegins(cs: seq<ChannelAttr>, at: nat, fds: seq<int>, k: nat, size: nat, usable: set<int>, line: nat)
    requires line > 0 && k + Events(cs) <= |fds| && AllMade(cs, at, fds, k, size, usable, line)
    ensures var es := Endpoints(cs, at, fds, k, line); forall i :: 0 <= i < |es| ==> es[i].offset < size
  {
    hide Size, Events, Endpoints;
    forall i | 0 <= i < |cs|
      ensures Endpoints(cs, at, fds, k, line)[i].offset < size
    {
      assert Made(cs, at, fds, k, size, usable, line, i);
      EndpointAt(cs, at, fds, k, line, i);
    }
  }

  /** A row depends only on the descriptors from its first one on. */
  lemma SameFrom(cs: seq<ChannelAttr>, at: nat, fds: seq<int>, fds': seq<int>, k: nat, size: nat,
                 usable: set<int>, line: nat)
    requires line > 0 && |fds| == |fds'| && k <= |fds| && forall i :: k <= i < |fds| ==> fds[i] == fds'[i]
    ensures AllMade(cs, at, fds, k, size, usable, line) <==> AllMade(cs, at, fds', k, size, usable, line)
    ensures k + Events(cs) <= |fds| ==> Endpoints(cs, at, fds, k, line) == Endpoints(cs, at, fds', k, line)
  {
    hide Size, Events, Endpoints;
    forall i | 0 <= i < |cs|
      ensures Made(cs, at, fds, k, size, usable, line, i) <==> Made(cs, at, fds', k, size, usable, line, i)
    {
    }
    if k + Events(cs) <= |fds| {
      assert fds[k..k + Events(cs)] == fds'[k..k + Events(cs)];
      EndpointsShift(cs, at, fds, k, fds', k, line);
    }
  }

  /** Mapping looks only at the beginning of each region: one byte of memory is enough for a single channel. */
  lemma OneByteMapped(c: ChannelAttr, shm: int, memory: set<int>, usable: set<int>, line: nat)
    requires line > 0 && !c.eventfd && shm in memory
    ensures Mappable(GroupAttr([c], [], []), [shm], memory, 1, usable, line)
    ensures ShmSize(GroupAttr([c], [], []), line) > 1
  {
    hide Aligned;
    AlignedBounds((QueueLen(c) + 2) * WORD, line);
    assert QueueLen(c) * Aligned(c.msgSize, line) >= 0;
    assert [c][..0] == [] && [c][1..] == [];
    assert Size([c], line) == ChannelSize(c, line) + Size([], line);
  }

  // ---- both ends --------------------------------------------------------------------------------

  /**
   Endpoint agreement: from what the client sends, the server can be built, and it sees each channel of the
   client from the other side: same place, length, message size and event descriptor.
   */
  lemma EndpointAgreement(g: GroupAttr, shm: int, created: seq<int>, memory: set<int>, usable: set<int>, line: nat)
    requires line > 0 && Created(created, AllEvents(g))
    requires shm in memory && forall i :: 0 <= i < AllEvents(g) ==> created[i] in usable
    ensures var fds := Collected(shm, Producers(g, created, line), Consumers(g, created, line));
      && |fds| == 1 + AllEvents(g)
      && Mappable(Swapped(g), fds, memory, ShmSize(g, line), usable, line)
      && Endpoints(g.producers, 0, Rest(fds), 1, line) == Producers(g, created, line)
      && Endpoints(g.consumers, Size(g.producers, line), Rest(fds), 1 + Events(g.producers), line)
         == Consumers(g, created, line)
  {
    hide Size, Events, Endpoints, EventFds, AllMade;
    var e1, e2 := Events(g.producers), Events(g.consumers);
    EventFdsOf(g.producers, 0, created, 0, line);
    EventFdsOf(g.consumers, Size(g.producers, line), created, e1, line);
    var fds := Collected(shm, Producers(g, created, line), Consumers(g, created, line));
    assert fds == [shm] + created[..e1 + e2];
    var rest := Rest(fds);
    assert rest[1..1 + e1] == created[0..e1] && rest[1 + e1..1 + e1 + e2] == created[e1..e1 + e2];
    if g.producers != [] {
      LastBegins(g.producers, line);
    }
    if g.consumers != [] {
      LastBegins(g.consumers, line);
    }
    EndpointsShift(g.producers, 0, rest, 1, created, 0, line);
    EndpointsShift(g.consumers, Size(g.producers, line), rest, 1 + e1, created, e1, line);
    AllMadeIff(g.producers, 0, rest, 1, ShmSize(g, line), usable, line);
    AllMadeIff(g.consumers, Size(g.producers, line), rest, 1 + e1, ShmSize(g, line), usable, line);
  }

  /** The whole handshake: the client's group goes through the request and comes out as the server's. */
  method ShakeHands(g: GroupAttr, shm: int, created: seq<int>, memory: set<int>, usable: set<int>, line: nat)
    returns (client: Group, server: Group, inside: bool)
    requires FitsGroup(g) && 0 < line < 0x1_0000 && Created(created, AllEvents(g))
    requires 0 <= shm && shm in memory && forall i :: 0 <= i < AllEvents(g) ==> created[i] in usable
    ensures client.data == g && server.data == Swapped(g) && (inside <==> Countable(g))
    ensures client.shm == server.shm == shm && client.size == server.size == ShmSize(g, line)
    ensures server.consumers == client.producers && server.producers == client.consumers
    ensures client.producers == Producers(g, created, line) && client.consumers == Consumers(g, created, line)
  {
    hide Size, Events, Endpoints, EventFds, AllMade, Parse, ParseInside;
    EndpointAgreement(g, shm, created, memory, usable, line);
    client := FromAttr(g, shm, created, line);
    var size := CalcRequestSize(g);
    var buffer := new byte[size];
    var fds := new int[1 + AllEvents(g)];
    var r, n := Serialize(client, buffer, fds, line);
    assert fds[..] == fds[..n];
    MappableIff(Swapped(g), fds[..], memory, ShmSize(g, line), usable, line);
    server, inside := Deserialize(buffer[..], fds, memory, client.size, usable, line);
  }
}
