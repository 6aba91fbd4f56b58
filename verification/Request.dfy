/**
 The two-cursor writer and the reader of a request, as they work on a buffer, and what they amount to in
 terms of the format.
 */
module Request {
  import opened Queue
  import opened Layout
  import opened Wrappers
  import opened Wire
  import opened InfoMemory

  // ---- writing ----------------------------------------------------------------------------------

  /** x was put into b at position `at`, nothing else changed. */
  ghost predicate Written(b: seq<byte>, b': seq<byte>, at: nat, x: seq<byte>) {
    && |b'| == |b| && Holds(b', at, x)
    && forall k :: 0 <= k < |b| && !(at <= k < at + |x|) ==> b'[k] == b[k]
  }

  /** x went to position at1 and y to position at2 (only if it is not empty); nothing else changed. */
  ghost predicate WrittenBoth(b: seq<byte>, b': seq<byte>, at1: nat, x: seq<byte>, at2: nat, y: seq<byte>) {
    && |b'| == |b| && Holds(b', at1, x) && (y != [] ==> Holds(b', at2, y))
    && forall k :: 0 <= k < |b| && !(at1 <= k < at1 + |x|) && !(at2 <= k < at2 + |y|) ==> b'[k] == b[k]
  }

  /** A non-empty info needs room; an empty one none. */
  predicate Room(at: nat, x: seq<byte>, size: nat) {
    x != [] ==> at + |x| <= size
  }

  /** request_writer_t: one cursor in the table, one behind it in the infos. */
  class Writer {
    const data: array<byte>
    var offset: nat
    var offsetInfo: nat

    constructor (buffer: array<byte>)
      ensures data == buffer && offset == 0 && offsetInfo == 0
    {
      data := buffer;
      offset := 0;
      offsetInfo := 0;
    }

    /** request_write */
    method Write(src: seq<byte>) returns (ok: bool)
      modifies this`offset, data
      ensures ok <==> old(offset) + |src| <= data.Length
      ensures !ok ==> offset == old(offset) && data[..] == old(data[..])
      ensures ok ==> offset == old(offset) + |src| && Written(old(data[..]), data[..], old(offset), src)
    {
      if offset + |src| > data.Length {
        return false;
      }
      forall k | 0 <= k < |src| {
        data[offset + k] := src[k];
      }
      assert data[offset..offset + |src|] == src;
      offset := offset + |src|;
      return true;
    }

    /** request_write_info */
    method WriteInfo(info: seq<byte>) returns (ok: bool)
      modifies this`offsetInfo, data
      ensures ok <==> Room(old(offsetInfo), info, data.Length)
      ensures !ok ==> offsetInfo == old(offsetInfo) && data[..] == old(data[..])
      ensures ok ==> offsetInfo == old(offsetInfo) + |info|
      ensures ok && info == [] ==> data[..] == old(data[..])
      ensures ok && info != [] ==> Written(old(data[..]), data[..], old(offsetInfo), info)
    {
      if info == [] {
        return true;
      }
      if offsetInfo + |info| > data.Length {
        return false;
      }
      forall k | 0 <= k < |info| {
        data[offsetInfo + k] := info[k];
      }
      assert data[offsetInfo..offsetInfo + |info|] == info;
      offsetInfo := offsetInfo + |info|;
      return true;
    }

    /** request_write_channel */
    method WriteChannel(c: ChannelAttr) returns (ok: bool)
      requires Fits(c) && offset + ENTRY <= offsetInfo
      modifies this, data
      ensures ok <==> old(offset) + ENTRY <= data.Length && Room(old(offsetInfo), c.info, data.Length)
      ensures ok ==> offset == old(offset) + ENTRY && offsetInfo == old(offsetInfo) + |c.info|
      ensures ok ==> WrittenBoth(old(data[..]), data[..], old(offset), Entry(c), old(offsetInfo), c.info)
    {
      ghost var b, at, atInfo := data[..], offset, offsetInfo;
      ok := Write(Entry(c));
      if !ok {
        return;
      }
      ghost var b1 := data[..];
      ok := WriteInfo(c.info);
      if ok {
        InOrder(b, b1, data[..], at, Entry(c), atInfo, c.info);
      }
    }

    /** The two loops of ri_request_write over a channel table. */
    method WriteChannels(cs: seq<ChannelAttr>) returns (ok: bool)
      requires FitsAll(cs) && offset + ENTRY * |cs| <= offsetInfo
      modifies this, data
      ensures ok <==>
        (cs == [] || old(offset) + ENTRY * |cs| <= data.Length) && Room(old(offsetInfo), Infos(cs), data.Length)
      ensures ok ==> offset == old(offset) + ENTRY * |cs| && offsetInfo == old(offsetInfo) + |Infos(cs)|
      ensures ok && cs == [] ==> data[..] == old(data[..])
      ensures ok && cs != [] ==>
        WrittenBoth(old(data[..]), data[..], old(offset), Table(cs), old(offsetInfo), Infos(cs))
    {
      hide Table, Infos, Entry, WrittenBoth;
      ghost var b, at, atInfo := data[..], offset, offsetInfo;
      Start(cs);
      var i := 0;
      while i < |cs|
        invariant 0 <= i <= |cs|
        invariant offset == at + ENTRY * i && offsetInfo == atInfo + |Infos(cs[..i])|
        invariant i > 0 ==> offset <= data.Length
        invariant Room(atInfo, Infos(cs[..i]), data.Length)
        invariant i == 0 ==> data[..] == b
        invariant i > 0 ==> WrittenBoth(b, data[..], at, Table(cs[..i]), atInfo, Infos(cs[..i]))
      {
        TableSnoc(cs, i);
        InfosSnoc(cs, i);
        ghost var b1 := data[..];
        ok := WriteChannel(cs[i]);
        if !ok {
          RoomPrefix(cs, i + 1, atInfo, data.Length);
          return;
        }
        Extends(b, b1, data[..], at, cs, i, atInfo);
        i := i + 1;
      }
      assert cs[..|cs|] == cs;
      return true;
    }
  }

  lemma InOrder(b: seq<byte>, b1: seq<byte>, b2: seq<byte>, at: nat, x: seq<byte>, atInfo: nat, y: seq<byte>)
    requires Written(b, b1, at, x) && at + |x| <= atInfo
    requires if y == [] then b2 == b1 else Written(b1, b2, atInfo, y)
    ensures WrittenBoth(b, b2, at, x, atInfo, y)
  {
    forall k | 0 <= k < |x|
      ensures b2[at + k] == x[k]
    {
      assert b1[at..at + |x|][k] == x[k];
    }
    assert b2[at..at + |x|] == x;
  }

  lemma {:induction false} TableSnoc(cs: seq<ChannelAttr>, i: nat)
    requires i < |cs| && FitsAll(cs)
    ensures Table(cs[..i + 1]) == Table(cs[..i]) + Entry(cs[i])
  {
    hide Entry;
    if i > 0 {
      TableSnoc(cs[1..], i - 1);
      assert cs[..i + 1][1..] == cs[1..][..i] && cs[..i][1..] == cs[1..][..i - 1];
    }
  }

  lemma InfosSnoc(cs: seq<ChannelAttr>, i: nat)
    requires i < |cs|
    ensures Infos(cs[..i + 1]) == Infos(cs[..i]) + cs[i].info
  {
    InfosSplit(cs[..i + 1], i);
    assert cs[..i + 1][..i] == cs[..i] && cs[..i + 1][i..] == [cs[i]];
  }

  lemma {:induction false} RoomPrefix(cs: seq<ChannelAttr>, i: nat, at: nat, size: nat)
    requires i <= |cs|
    ensures Room(at, Infos(cs), size) ==> Room(at, Infos(cs[..i]), size)
  {
    InfosSplit(cs, i);
  }

  lemma {:induction false} InfosSplit(cs: seq<ChannelAttr>, i: nat)
    requires i <= |cs|
    ensures Infos(cs) == Infos(cs[..i]) + Infos(cs[i..])
  {
    if i == 0 {
      assert cs[..0] == [];
    } else {
      InfosSplit(cs[1..], i - 1);
      assert cs[..i][1..] == cs[1..][..i - 1] && cs[1..][i - 1..] == cs[i..];
    }
  }

  lemma Extends(b: seq<byte>, b1: seq<byte>, b2: seq<byte>, at: nat, cs: seq<ChannelAttr>, i: nat, atInfo: nat)
    requires i < |cs| && FitsAll(cs) && at + ENTRY * |cs| <= atInfo
    requires if i == 0 then b1 == b else WrittenBoth(b, b1, at, Table(cs[..i]), atInfo, Infos(cs[..i]))
    requires WrittenBoth(b1, b2, at + ENTRY * i, Entry(cs[i]), atInfo + |Infos(cs[..i])|, cs[i].info)
    ensures WrittenBoth(b, b2, at, Table(cs[..i + 1]), atInfo, Infos(cs[..i + 1]))
  {
    hide Table, Infos, Entry;
    TableSnoc(cs, i);
    InfosSnoc(cs, i);
    if i == 0 {
      Start(cs);
    } else {
      Appended(b, b1, b2, at, Table(cs[..i]), Entry(cs[i]), atInfo, Infos(cs[..i]), cs[i].info);
    }
  }

  lemma Start(cs: seq<ChannelAttr>)
    ensures FitsAll(cs) ==> Table(cs[..0]) == []
    ensures Infos(cs[..0]) == []
  {}

  /** Two pairs of writes, each continuing where the one before ended. */
  lemma Appended(b: seq<byte>, b1: seq<byte>, b2: seq<byte>, at: nat, x1: seq<byte>, x2: seq<byte>,
                 atInfo: nat, y1: seq<byte>, y2: seq<byte>)
    requires at + |x1| + |x2| <= atInfo
    requires WrittenBoth(b, b1, at, x1, atInfo, y1) && WrittenBoth(b1, b2, at + |x1|, x2, atInfo + |y1|, y2)
    ensures WrittenBoth(b, b2, at, x1 + x2, atInfo, y1 + y2)
  {
    Kept(b1, b2, at, x1);
    Joined(b2, at, x1, x2);
    if y1 != [] {
      Kept(b1, b2, atInfo, y1);
    }
    if y2 == [] {
      assert y1 + y2 == y1;
    } else if y1 == [] {
      assert y1 + y2 == y2;
    } else {
      Joined(b2, atInfo, y1, y2);
    }
  }

  lemma Kept(b1: seq<byte>, b2: seq<byte>, at: nat, x: seq<byte>)
    requires |b1| == |b2| && Holds(b1, at, x) && forall k :: at <= k < at + |x| ==> b2[k] == b1[k]
    ensures Holds(b2, at, x)
  {
    assert b2[at..at + |x|] == b1[at..at + |x|];
  }

  lemma Joined(b: seq<byte>, at: nat, x: seq<byte>, y: seq<byte>)
    requires Holds(b, at, x) && Holds(b, at + |x|, y)
    ensures Holds(b, at, x + y)
  {
    assert b[at..at + |x + y|] == b[at..at + |x|] + b[at + |x|..at + |x| + |y|];
  }

  /** The header and the three numbers before the table. */
  method WriteFixed(g: GroupAttr, w: Writer, line: nat) returns (ok: bool)
    requires FitsGroup(g) && line < 0x1_0000 && w.offset == 0
    modifies w`offset, w.data
    ensures ok <==> TABLE - 4 <= w.data.Length
    ensures ok ==> w.offset == if TABLE <= w.data.Length then TABLE else TABLE - 4
    ensures TABLE <= w.data.Length ==> Written(old(w.data[..]), w.data[..], 0, Header(line) + Counts(g))
  {
    hide Header, U32, Holds;
    ghost var b0 := w.data[..];
    ok := w.Write(Header(line));
    if !ok { return; }
    ghost var b1 := w.data[..];
    ok := w.Write(U32(|g.info|));
    if !ok { return; }
    ghost var b2 := w.data[..];
    ok := w.Write(U32(|g.producers|));
    if !ok { return; }
    ghost var b3 := w.data[..];
    var last := w.Write(U32(|g.consumers|));
    if last {
      var n1, n2, n3 := U32(|g.info|), U32(|g.producers|), U32(|g.consumers|);
      Continued(b0, b1, b2, 0, Header(line), n1);
      Continued(b0, b2, b3, 0, Header(line) + n1, n2);
      Continued(b0, b3, w.data[..], 0, Header(line) + n1 + n2, n3);
      assert Header(line) + Counts(g) == Header(line) + n1 + n2 + n3;
    }
  }

  lemma Continued(b: seq<byte>, b1: seq<byte>, b2: seq<byte>, at: nat, x: seq<byte>, y: seq<byte>)
    requires Written(b, b1, at, x) && Written(b1, b2, at + |x|, y)
    ensures Written(b, b2, at, x + y)
  {
    Kept(b1, b2, at, x);
    Joined(b2, at, x, y);
  }

  lemma NoInfos()
    ensures Infos([]) == []
  {}

  /** Everything that was written, in the order in which it was written, and what the buffer then holds. */
  lemma AllWritten(g: GroupAttr, line: nat, b0: seq<byte>, b1: seq<byte>, b2: seq<byte>, b3: seq<byte>, b4: seq<byte>)
    requires FitsGroup(g) && line < 0x1_0000 && CalcSize(g) <= |b0|
    requires Written(b0, b1, 0, Header(line) + Counts(g))
    requires var end := TABLE + ENTRY * |g.producers| + ENTRY * |g.consumers|;
      && (if g.info == [] then b2 == b1 else Written(b1, b2, end, g.info))
      && (if g.producers == [] then b3 == b2
          else WrittenBoth(b2, b3, TABLE, Table(g.producers), end + |g.info|, Infos(g.producers)))
      && (if g.consumers == [] then b4 == b3
          else WrittenBoth(b3, b4, TABLE + ENTRY * |g.producers|, Table(g.consumers),
                           end + |g.info| + |Infos(g.producers)|, Infos(g.consumers)))
    ensures b4[..CalcSize(g)] == Encode(g, line) && b4[CalcSize(g)..] == b0[CalcSize(g)..]
  {
    hide Header, Counts, Table, Infos, Holds, Written, WrittenBoth;
    var p, c := g.producers, g.consumers;
    var tables := TABLE + ENTRY * |p|;
    var end := tables + ENTRY * |c|;
    NoInfos();
    NoTable();
    WrittenLength(b0, b1, 0, Header(line) + Counts(g));
    if g.info == [] {
      NothingWritten(b1, end, end);
    } else {
      WrittenLength(b1, b2, end, g.info);
    }
    if p == [] {
      NothingWritten(b2, TABLE, end + |g.info|);
    } else {
      WrittenBothLength(b2, b3, TABLE, Table(p), end + |g.info|, Infos(p));
    }
    if c == [] {
      NothingWritten(b3, tables, end + |g.info| + |Infos(p)|);
    }
    FourWrites(b0, b1, b2, b3, b4, Header(line) + Counts(g), g.info, Table(p), Infos(p), Table(c), Infos(c));
  }

  /** The table grows from TABLE on while the infos grow behind it. */
  lemma FourWrites(b0: seq<byte>, b1: seq<byte>, b2: seq<byte>, b3: seq<byte>, b4: seq<byte>,
                   fixed: seq<byte>, info: seq<byte>, t1: seq<byte>, y1: seq<byte>, t2: seq<byte>, y2: seq<byte>)
    requires |fixed| + |t1| + |t2| + |info| + |y1| + |y2| <= |b0|
    requires var end := |fixed| + |t1| + |t2|;
      && Written(b0, b1, 0, fixed) && Written(b1, b2, end, info)
      && WrittenBoth(b2, b3, |fixed|, t1, end + |info|, y1)
      && WrittenBoth(b3, b4, |fixed| + |t1|, t2, end + |info| + |y1|, y2)
    ensures var n := |fixed| + |t1| + |t2| + |info| + |y1| + |y2|;
      b4[..n] == fixed + t1 + t2 + info + y1 + y2 && b4[n..] == b0[n..]
  {
    hide WrittenBoth, Written, Holds;
    Appended(b2, b3, b4, |fixed|, t1, t2, |fixed| + |t1| + |t2| + |info|, y1, y2);
    ThreeWrites(b0, b1, b2, b4, fixed, info, t1 + t2, y1 + y2);
    assert fixed + (t1 + t2) + info + (y1 + y2) == fixed + t1 + t2 + info + y1 + y2;
  }

  lemma ThreeWrites(b0: seq<byte>, b1: seq<byte>, b2: seq<byte>, b3: seq<byte>,
                    fixed: seq<byte>, info: seq<byte>, t: seq<byte>, y: seq<byte>)
    requires |fixed| + |t| + |info| + |y| <= |b0|
    requires Written(b0, b1, 0, fixed) && Written(b1, b2, |fixed| + |t|, info)
    requires WrittenBoth(b2, b3, |fixed|, t, |fixed| + |t| + |info|, y)
    ensures var n := |fixed| + |t| + |info| + |y|; b3[..n] == fixed + t + info + y && b3[n..] == b0[n..]
  {
    hide Holds;
    var n := |fixed| + |t| + |info| + |y|;
    Placed(b2, b3, |fixed|, t, |fixed| + |t| + |info|, y);
    Kept(b1, b2, 0, fixed);
    Kept(b2, b3, 0, fixed);
    Kept(b2, b3, |fixed| + |t|, info);
    Joined(b3, 0, fixed, t);
    Joined(b3, 0, fixed + t, info);
    Joined(b3, 0, fixed + t + info, y);
    Prefix(b3, fixed + t + info + y);
  }

  lemma Prefix(b: seq<byte>, x: seq<byte>)
    requires Holds(b, 0, x)
    ensures |x| <= |b| && b[..|x|] == x
  {}

  lemma Placed(b: seq<byte>, b': seq<byte>, at1: nat, x: seq<byte>, at2: nat, y: seq<byte>)
    requires WrittenBoth(b, b', at1, x, at2, y) && at2 + |y| <= |b|
    ensures |b'| == |b| && Holds(b', at1, x) && Holds(b', at2, y)
    ensures forall k :: 0 <= k < |b| && !(at1 <= k < at1 + |x|) && !(at2 <= k < at2 + |y|) ==> b'[k] == b[k]
  {}

  lemma NothingWritten(b: seq<byte>, at1: nat, at2: nat)
    requires at1 <= |b|
    ensures Written(b, b, at1, []) && WrittenBoth(b, b, at1, [], at2, [])
  {}

  lemma WrittenLength(b: seq<byte>, b': seq<byte>, at: nat, x: seq<byte>)
    requires Written(b, b', at, x)
    ensures |b'| == |b|
  {}

  lemma WrittenBothLength(b: seq<byte>, b': seq<byte>, at1: nat, x: seq<byte>, at2: nat, y: seq<byte>)
    requires WrittenBoth(b, b', at1, x, at2, y)
    ensures |b'| == |b|
  {}

  lemma TooShort(line: nat)
    requires line < 0x1_0000
    ensures forall b: seq<byte> :: |b| < TABLE ==> Parse(b, line) == None
  {}

  lemma NoTable()
    ensures Table([]) == []
  {}

  /**
   ri_request_write: which buffers are large enough, and what is written. Both cursors stop at their limits:
   the result is the end of the table, which is where the infos begin. The second kind of accepted size comes from
   the result of writing the number of consumers, which is not looked at: without channels the request may end
   before it.
   */
  method WriteRequest(g: GroupAttr, buffer: array<byte>, line: nat) returns (r: int)
    requires FitsGroup(g) && line < 0x1_0000
    modifies buffer
    ensures r >= 0 <==>
      || CalcSize(g) <= buffer.Length
      || (g.producers == [] && g.consumers == [] && 16 <= buffer.Length < 20 && 16 + |g.info| <= buffer.Length)
    ensures r < 0 ==> r == -1
    ensures r >= 0 && buffer.Length < CalcSize(g) ==> r == 16
    ensures CalcSize(g) <= buffer.Length ==>
      && r == TABLE + ENTRY * (|g.producers| + |g.consumers|)
      && buffer[..CalcSize(g)] == Encode(g, line)
      && buffer[CalcSize(g)..] == old(buffer[CalcSize(g)..])
    ensures r >= 0 ==> Parse(buffer[..], line) == if CalcSize(g) <= buffer.Length then Some(Swapped(g)) else None
  {
    hide Table, Infos, Header, Counts, Encode, Written, WrittenBoth, Parse;
    NoInfos();
    TooShort(line);
    ghost var b0 := buffer[..];
    if buffer.Length == 0 {
      return -1;
    }
    var w := new Writer(buffer);
    var ok := WriteFixed(g, w, line);
    if !ok { return -1; }
    ghost var b1 := buffer[..];
    w.offsetInfo := w.offset + (|g.producers| + |g.consumers|) * ENTRY;
    ok := w.WriteInfo(g.info);
    if !ok { return -1; }
    ghost var b2 := buffer[..];
    ok := w.WriteChannels(g.producers);
    if !ok { return -1; }
    ghost var b3 := buffer[..];
    ok := w.WriteChannels(g.consumers);
    if !ok { return -1; }
    if CalcSize(g) <= buffer.Length {
      AllWritten(g, line, b0, b1, b2, b3, buffer[..]);
      assert buffer[..][CalcSize(g)..] == buffer[CalcSize(g)..];
      EncodeSize(g, line);
      RoundTrip(g, line, buffer[..]);
    }
    return w.offset;
  }

  /** ri_request_calc_size */
  method CalcRequestSize(g: GroupAttr) returns (size: nat)
    ensures size == CalcSize(g)
  {
    size := HEADER + 3 * 4;
    size := size + (|g.consumers| + |g.producers|) * ENTRY;
    size := size + |g.info|;
    ghost var fixed := size;
    for i := 0 to |g.consumers|
      invariant size == fixed + |Infos(g.consumers[..i])|
    {
      InfosSnoc(g.consumers, i);
      size := size + |g.consumers[i].info|;
    }
    assert g.consumers[..|g.consumers|] == g.consumers;
    fixed := size;
    for i := 0 to |g.producers|
      invariant size == fixed + |Infos(g.producers[..i])|
    {
      InfosSnoc(g.producers, i);
      size := size + |g.producers[i].info|;
    }
    assert g.producers[..|g.producers|] == g.producers;
  }

  // ---- reading ----------------------------------------------------------------------------------

  /** request_reader_t */
  class Reader {
    const data: seq<byte>
    var offset: nat

    constructor (data: seq<byte>)
      ensures this.data == data && offset == 0
    {
      this.data := data;
      offset := 0;
    }

    /** request_read */
    method Read(size: nat) returns (r: Option<seq<byte>>)
      modifies this
      ensures r.Some? <==> old(offset) + size <= |data|
      ensures r.Some? ==> offset == old(offset) + size && r.value == data[old(offset)..offset]
      ensures r.None? ==> offset == old(offset)
    {
      if offset + size > |data| {
        return None;
      }
      r := Some(data[offset..offset + size]);
      offset := offset + size;
    }

    method ReadNumber() returns (r: Option<nat>)
      modifies this
      ensures r.Some? <==> old(offset) + 4 <= |data|
      ensures r.Some? ==> offset == old(offset) + 4 && r.value == ReadU32(data, old(offset))
      ensures r.None? ==> offset == old(offset)
    {
      var b := Read(4);
      match b
      case None => r := None;
      case Some(x) => r := Some(ReadU32(x, 0));
    }

    /**
     One of the two loops of ri_request_parse over the table; the failure of an entry is not seen. `inside` says
     whether all entries were written inside the table made for them.
     */
    method ReadChannels(n: nat) returns (raw: seq<RawChannel>, inside: bool)
      modifies this
      ensures (raw, offset) == ReadTable(data, old(offset), n)
      ensures inside <==> TableInside(data, old(offset), n)
    {
      hide ReadU32, ReadTable;
      raw, inside := [], true;
      ghost var at := offset;
      ghost var all := ReadTable(data, offset, n);
      for i := 0 to n
        invariant |raw| == i
        invariant all.0 == raw + ReadTable(data, offset, n - i).0 && all.1 == ReadTable(data, offset, n - i).1
        invariant offset == at + ENTRY * i || (offset + ENTRY > |data| && offset <= at + ENTRY * i)
        invariant inside <==> forall k :: 0 <= k < i && Complete(data, at, k) ==> k < Entries(n)
      {
        TableStep(data, offset, n - i);
        assert Complete(data, at, i) <==> offset + ENTRY <= |data|;
        var b := Read(ENTRY);
        match b {
          case None =>
            raw := raw + [RawChannel(0, 0, false, 0)];
          case Some(x) =>
            inside := inside && i < Entries(n);
            raw := raw + [RawChannel(ReadU32(x, 0), ReadU32(x, 4), ReadU32(x, 8) != 0, ReadU32(x, 12))];
        }
      }
      TableEnd(data, offset);
      assert raw + [] == raw;
    }

    /**
     One of the two loops of read_infos. Infos are copied to memory of size `capacity` from position `mem` on;
     `inside` says whether all copies stayed in it.
     */
    method ReadChannelInfos(raw: seq<RawChannel>, mem: nat, capacity: nat)
      returns (r: Option<seq<ChannelAttr>>, next: nat, inside: bool)
      modifies this
      ensures var all := ReadInfos(data, old(offset), raw);
        if r.Some? then all == Some((r.value, offset)) else all == None
      ensures inside <==> Inside(data, old(offset), raw, mem, capacity)
      ensures r.Some? ==> next == mem + Needed(raw)
    {
      hide ReadInfos, Inside, Needed, InfoAlign;
      var cs: seq<ChannelAttr> := [];
      next, inside := mem, true;
      ghost var at := offset;
      ghost var all := ReadInfos(data, offset, raw);
      assert raw[0..] == raw;
      for i := 0 to |raw|
        invariant Continues(all, cs, ReadInfos(data, offset, raw[i..]))
        invariant Inside(data, at, raw, mem, capacity) <==> inside && Inside(data, offset, raw[i..], next, capacity)
        invariant mem + Needed(raw) == next + Needed(raw[i..])
      {
        InfosStep(data, offset, raw, i);
        InsideStep(data, offset, raw, i, next, capacity);
        var info: seq<byte> := [];
        if raw[i].infoSize > 0 {
          var b := Read(raw[i].infoSize);
          if b == None {
            return None, next, inside;
          }
          inside := inside && next + raw[i].infoSize <= capacity;
          info := b.value;
          next := next + InfoAlign(raw[i].infoSize);
        }
        cs := cs + [ChannelAttr(raw[i].msgSize, raw[i].addMsgs, raw[i].eventfd, info)];
      }
      InfosEnd(data, offset);
      InsideEnd(data, offset, next, capacity);
      assert raw[|raw|..] == [];
      assert cs + [] == cs;
      r := Some(cs);
    }
  }

  lemma InsideEnd(b: seq<byte>, at: nat, mem: nat, capacity: nat)
    ensures Inside(b, at, [], mem, capacity) && Needed([]) == 0
  {}

  lemma InsideStep(b: seq<byte>, at: nat, raw: seq<RawChannel>, i: nat, mem: nat, capacity: nat)
    requires i < |raw|
    ensures var size := raw[i].infoSize;
      && Needed(raw[i..]) == InfoAlign(size) + Needed(raw[i + 1..]) && (size == 0 ==> InfoAlign(size) == 0)
      && (Inside(b, at, raw[i..], mem, capacity) <==>
            || (size > 0 && at + size > |b|)
            || (&& (size > 0 ==> mem + size <= capacity)
                && Inside(b, at + size, raw[i + 1..], mem + InfoAlign(size), capacity)))
  {
    hide InfoAlign;
    InfoAlignFacts(raw[i].infoSize);
    assert raw[i..][0] == raw[i] && raw[i..][1..] == raw[i + 1..];
  }

  /** calc_channels_info_size */
  method CalcChannelsInfoSize(raw: seq<RawChannel>) returns (size: nat)
    ensures size == Reserved(raw)
  {
    hide InfoAlign;
    size := 0;
    var i := 0;
    while i < |raw| && raw[i].msgSize != 0
      invariant 0 <= i <= |raw| && Reserved(raw) == size + Reserved(raw[i..])
    {
      assert raw[i..][0] == raw[i] && raw[i..][1..] == raw[i + 1..];
      InfoAlignFacts(raw[i].infoSize);
      if raw[i].infoSize > 0 {
        size := size + InfoAlign(raw[i].infoSize);
      }
      i := i + 1;
    }
    if i < |raw| {
      assert raw[i..][0] == raw[i];
    }
  }

  lemma InfosEnd(b: seq<byte>, at: nat)
    ensures ReadInfos(b, at, []) == Some(([], at))
  {}

  lemma InfosStep(b: seq<byte>, at: nat, raw: seq<RawChannel>, i: nat)
    requires i < |raw|
    ensures raw[i].infoSize > 0 && at + raw[i].infoSize > |b| ==> ReadInfos(b, at, raw[i..]) == None
    ensures !(raw[i].infoSize > 0 && at + raw[i].infoSize > |b|) ==>
      var info := if raw[i].infoSize > 0 then b[at..at + raw[i].infoSize] else [];
      var c := ChannelAttr(raw[i].msgSize, raw[i].addMsgs, raw[i].eventfd, info);
      Continues(ReadInfos(b, at, raw[i..]), [c], ReadInfos(b, at + raw[i].infoSize, raw[i + 1..]))
  {
    assert raw[i..][0] == raw[i] && raw[i..][1..] == raw[i + 1..];
  }

  ghost predicate Continues(all: Option<(seq<ChannelAttr>, nat)>, cs: seq<ChannelAttr>,
                            rest: Option<(seq<ChannelAttr>, nat)>)
  {
    && (all.Some? <==> rest.Some?)
    && (all.Some? ==> all.value.0 == cs + rest.value.0 && all.value.1 == rest.value.1)
  }

  lemma TableEnd(b: seq<byte>, at: nat)
    ensures ReadTable(b, at, 0) == ([], at)
  {}

  lemma TableStep(b: seq<byte>, at: nat, n: nat)
    requires n > 0
    ensures at + ENTRY > |b| ==>
      var rest := ReadTable(b, at, n - 1);
      ReadTable(b, at, n) == ([RawChannel(0, 0, false, 0)] + rest.0, rest.1)
    ensures at + ENTRY <= |b| ==>
      var x, rest := b[at..at + ENTRY], ReadTable(b, at + ENTRY, n - 1);
      ReadTable(b, at, n)
      == ([RawChannel(ReadU32(x, 0), ReadU32(x, 4), ReadU32(x, 8) != 0, ReadU32(x, 12))] + rest.0, rest.1)
  {
    hide ReadU32;
    if at + ENTRY <= |b| {
      SliceNumbers(b, at);
    }
  }

  lemma SliceNumbers(b: seq<byte>, at: nat)
    requires at + ENTRY <= |b|
    ensures var x := b[at..at + ENTRY];
      && ReadU32(x, 0) == ReadU32(b, at) && ReadU32(x, 4) == ReadU32(b, at + 4)
      && ReadU32(x, 8) == ReadU32(b, at + 8) && ReadU32(x, 12) == ReadU32(b, at + 12)
  {}

  /** ri_request_parse; `inside` says whether entries and infos were written inside the memory made for them. */
  method ParseRequest(request: seq<byte>, line: nat) returns (r: Option<GroupAttr>, inside: bool)
    requires line < 0x1_0000
    ensures r == Parse(request, line)
    ensures inside <==> ParseInside(request, line)
  {
    hide ReadU32, ReadTable, ReadInfos, Header, Inside, Needed, Reserved, InfoAlign, TableInside;
    inside := true;
    var reader := new Reader(request);
    var header := reader.Read(HEADER);
    if header == None || header.value != Header(line) {
      return None, inside;
    }
    var infoSize := reader.ReadNumber();
    if infoSize == None { return None, inside; }
    var nConsumers := reader.ReadNumber();
    if nConsumers == None { return None, inside; }
    var nProducers := reader.ReadNumber();
    if nProducers == None { return None, inside; }
    var rawConsumers, ok := reader.ReadChannels(nConsumers.value);
    inside := ok;
    var rawProducers;
    rawProducers, ok := reader.ReadChannels(nProducers.value);
    inside := inside && ok;
    var capacity := InfoAlign(infoSize.value);
    var more := CalcChannelsInfoSize(rawConsumers);
    capacity := capacity + more;
    more := CalcChannelsInfoSize(rawProducers);
    capacity := capacity + more;
    ghost var f := Front(infoSize.value, rawConsumers, rawProducers, reader.offset);
    assert f == ReadFront(request) && capacity == Capacity(f);
    InfoAlignFacts(infoSize.value);
    var info: seq<byte> := [];
    var mem := 0;
    if infoSize.value > 0 {
      var b := reader.Read(infoSize.value);
      if b == None { return None, inside; }
      inside := inside && infoSize.value <= capacity;
      info := b.value;
      mem := InfoAlign(infoSize.value);
    }
    var consumers, mem';
    consumers, mem', ok := reader.ReadChannelInfos(rawConsumers, mem, capacity);
    inside := inside && ok;
    if consumers == None { return None, inside; }
    var producers;
    producers, mem', ok := reader.ReadChannelInfos(rawProducers, mem', capacity);
    inside := inside && ok;
    if producers == None { return None, inside; }
    return Some(GroupAttr(consumers.value, producers.value, info)), inside;
  }
}
