/**
 What the parser makes of any bytes, said without the parser: which requests are accepted, and what each field of
 the result is in terms of positions in the request.
 */
module Parsing {
  import opened Queue
  import opened Layout
  import opened Wire
  import opened InfoMemory

  /** The sizes of the infos that a row of entries claims. */
  function Claimed(raw: seq<RawChannel>): (n: nat) {
    if raw == [] then 0 else raw[0].infoSize + Claimed(raw[1..])
  }

  // ---- tables -----------------------------------------------------------------------------------

  /** The entry at a position of the request; one that is not complete is taken to be zero. */
  function EntryAt(b: seq<byte>, at: nat): (r: RawChannel) {
    if at + 16 > |b| then RawChannel(0, 0, false, 0)
    else RawChannel(ReadU32(b, at), ReadU32(b, at + 4), ReadU32(b, at + 8) != 0, ReadU32(b, at + 12))
  }

  /** Entry i of a table is what stands 16 * i bytes behind its start; reading stops where entries are cut off. */
  lemma {:induction false} TableEntry(b: seq<byte>, at: nat, n: nat, i: nat)
    requires i < n
    ensures ReadTable(b, at, n).0[i] == EntryAt(b, at + 16 * i)
    decreases n
  {
    hide ReadU32;
    if at + ENTRY > |b| {
      if i > 0 {
        TableEntry(b, at, n - 1, i - 1);
      }
    } else if i > 0 {
      TableEntry(b, at + ENTRY, n - 1, i - 1);
    }
  }

  /** The end of a table: behind its last complete entry. */
  lemma {:induction false} TableStops(b: seq<byte>, at: nat, n: nat)
    requires at <= |b|
    ensures var end := ReadTable(b, at, n).1;
      && at <= end <= |b|
      && (end == at + 16 * n || (end < at + 16 * n && end + 16 > |b| && (end - at) % 16 == 0))
    decreases n
  {
    hide ReadU32;
    if n > 0 {
      TableStops(b, if at + ENTRY > |b| then at else at + ENTRY, n - 1);
    }
  }

  // ---- infos ------------------------------------------------------------------------------------

  /** A row of infos can be read exactly if the request does not end before the last of them. */
  lemma {:induction false} InfosIff(b: seq<byte>, at: nat, raw: seq<RawChannel>)
    requires at <= |b|
    ensures ReadInfos(b, at, raw).Some? <==> at + Claimed(raw) <= |b|
    ensures ReadInfos(b, at, raw).Some? ==> ReadInfos(b, at, raw).value.1 == at + Claimed(raw)
    decreases |raw|
  {
    if raw != [] && at + raw[0].infoSize <= |b| {
      InfosIff(b, at + raw[0].infoSize, raw[1..]);
    }
  }

  /** Info i stands behind the infos before it. */
  lemma {:induction false} InfoAt(b: seq<byte>, at: nat, raw: seq<RawChannel>, i: nat)
    requires at <= |b| && ReadInfos(b, at, raw).Some? && i < |raw|
    ensures at + Claimed(raw[..i]) + raw[i].infoSize <= |b|
    ensures var from := at + Claimed(raw[..i]);
      ReadInfos(b, at, raw).value.0[i]
      == ChannelAttr(raw[i].msgSize, raw[i].addMsgs, raw[i].eventfd, b[from..from + raw[i].infoSize])
    decreases |raw|
  {
    if i > 0 {
      InfoAt(b, at + raw[0].infoSize, raw[1..], i - 1);
      assert raw[..i][1..] == raw[1..][..i - 1];
    } else {
      assert b[at..at] == [];
    }
  }

  // ---- requests ---------------------------------------------------------------------------------

  /**
   A request is accepted if and only if it holds the fixed part, begins with the numbers of this machine's header
   and does not end before the last info that it claims.
   */
  lemma ParseIff(b: seq<byte>, line: nat)
    requires line < 0x1_0000
    ensures Parse(b, line).Some? <==>
      && |b| >= 20
      && ReadU16(b, 0) == 0x1f0c && ReadU16(b, 2) == 2 && ReadU16(b, 4) == line && ReadU16(b, 6) == 4
      && var f := ReadFront(b); f.end + f.infoSize + Claimed(f.consumers) + Claimed(f.producers) <= |b|
  {
    hide ReadU16, ReadU32, ReadTable, ReadInfos, Header, Claimed;
    if |b| >= 20 {
      HeaderIff(b, line);
      var f := FrontStops(b);
      var at := f.end + f.infoSize;
      if at <= |b| {
        InfosIff(b, at, f.consumers);
        if at + Claimed(f.consumers) <= |b| {
          InfosIff(b, at + Claimed(f.consumers), f.producers);
        }
      }
    }
  }

  /** Both tables, at their places. */
  lemma FrontStops(b: seq<byte>) returns (f: Front)
    requires |b| >= 20
    ensures f == ReadFront(b) && f.infoSize == ReadU32(b, 8) && 20 <= f.end <= |b|
    ensures |f.consumers| == ReadU32(b, 12) && |f.producers| == ReadU32(b, 16)
    ensures var full := 20 + 16 * (|f.consumers| + |f.producers|);
      if full <= |b| then f.end == full else f.end + 16 > |b| && (f.end - 20) % 16 == 0
  {
    hide ReadU32, ReadTable;
    f := ReadFront(b);
    TableStops(b, 20, ReadU32(b, 12));
    TableStops(b, ReadTable(b, 20, ReadU32(b, 12)).1, ReadU32(b, 16));
  }

  /** The entries of both tables, where they are complete and where they are cut off. */
  lemma FrontEntries(b: seq<byte>)
    requires |b| >= 20
    ensures var f := ReadFront(b);
      && |f.consumers| == ReadU32(b, 12) && |f.producers| == ReadU32(b, 16)
      && (forall i :: 0 <= i < |f.consumers| ==> f.consumers[i] == EntryAt(b, 20 + 16 * i))
      && (forall i :: 0 <= i < |f.producers| ==> f.producers[i] == EntryAt(b, 20 + 16 * (|f.consumers| + i)))
  {
    hide ReadU32, ReadTable;
    var n, m := ReadU32(b, 12), ReadU32(b, 16);
    var end := ReadTable(b, 20, n).1;
    var f := ReadFront(b);
    TableStops(b, 20, n);
    forall i | 0 <= i < n
      ensures f.consumers[i] == EntryAt(b, 20 + 16 * i)
    {
      TableEntry(b, 20, n, i);
    }
    forall i | 0 <= i < m
      ensures f.producers[i] == EntryAt(b, 20 + 16 * (n + i))
    {
      TableEntry(b, end, m, i);
    }
  }

  /** What an accepted request says: the group's info, and channel by channel the fields of its entry and its info. */
  lemma ParseMeans(b: seq<byte>, line: nat)
    requires line < 0x1_0000 && Parse(b, line).Some?
    ensures |b| >= 20
    ensures var f, g := ReadFront(b), Parse(b, line).value;
      var infos := f.end + f.infoSize;
      && infos + Claimed(f.consumers) + Claimed(f.producers) <= |b|
      && g.info == b[f.end..infos] && |g.consumers| == |f.consumers| && |g.producers| == |f.producers|
      && (forall i :: 0 <= i < |f.consumers| ==> Describes(b, f.consumers, infos, i, g.consumers[i]))
      && (forall i :: 0 <= i < |f.producers| ==>
            Describes(b, f.producers, infos + Claimed(f.consumers), i, g.producers[i]))
  {
    hide ReadU16, ReadU32, ReadTable, ReadInfos, Header, Claimed, Describes;
    ParseIff(b, line);
    var f := FrontStops(b);
    var infos := f.end + f.infoSize;
    InfosIff(b, infos, f.consumers);
    InfosIff(b, infos + Claimed(f.consumers), f.producers);
    assert f.infoSize == 0 ==> b[f.end..infos] == [];
    forall i | 0 <= i < |f.consumers|
      ensures Describes(b, f.consumers, infos, i, Parse(b, line).value.consumers[i])
    {
      Described(b, infos, f.consumers, i);
    }
    forall i | 0 <= i < |f.producers|
      ensures Describes(b, f.producers, infos + Claimed(f.consumers), i, Parse(b, line).value.producers[i])
    {
      Described(b, infos + Claimed(f.consumers), f.producers, i);
    }
  }

  /** Channel i has the fields of entry i and the info that stands behind those of the entries before it. */
  predicate Describes(b: seq<byte>, raw: seq<RawChannel>, infos: nat, i: nat, c: ChannelAttr)
    requires i < |raw|
  {
    && c.msgSize == raw[i].msgSize && c.addMsgs == raw[i].addMsgs && c.eventfd == raw[i].eventfd
    && Holds(b, infos + Claimed(raw[..i]), c.info) && |c.info| == raw[i].infoSize
  }

  lemma Described(b: seq<byte>, at: nat, raw: seq<RawChannel>, i: nat)
    requires at <= |b| && ReadInfos(b, at, raw).Some? && i < |raw|
    ensures Describes(b, raw, at, i, ReadInfos(b, at, raw).value.0[i])
  {
    hide ReadInfos, Claimed;
    InfoAt(b, at, raw, i);
  }

  // ---- the length that writing returns ----------------------------------------------------------

  lemma {:induction false} ClaimedInfos(cs: seq<ChannelAttr>)
    ensures Claimed(Raws(cs)) == |Infos(cs)|
  {
    if cs != [] {
      ClaimedInfos(cs[1..]);
      assert Raws(cs)[1..] == Raws(cs[1..]);
    }
  }

  lemma HoldsPrefix(e: seq<byte>, b: seq<byte>, at: nat, x: seq<byte>)
    requires b <= e && Holds(e, at, x) && at + |x| <= |b|
    ensures Holds(b, at, x)
  {
    assert b[at..at + |x|] == e[at..at + |x|];
  }

  /**
   What ri_request_write returns is the end of the table. A request cut to that length is accepted if and only if
   there are no infos at all.
   */
  lemma ReturnedLengthIff(g: GroupAttr, line: nat)
    requires FitsGroup(g) && line < 0x1_0000
    ensures var end := 20 + 16 * (|g.producers| + |g.consumers|);
      && end <= |Encode(g, line)|
      && (Parse(Encode(g, line)[..end], line).Some? <==>
            g.info == [] && Infos(g.producers) == [] && Infos(g.consumers) == [])
  {
    hide Header, Counts, Table, Infos, Encode, ReadU16, ReadU32, ReadTable, ReadInfos, Claimed, Raws, Parse, Holds;
    var e, p, c := Encode(g, line), g.producers, g.consumers;
    var end := 20 + 16 * (|p| + |c|);
    EncodeSize(g, line);
    assert Holds(e, 0, e) by { HoldsAll(e); }
    EncodeParts(g, line, e);
    var b := e[..end];
    HoldsPrefix(e, b, 0, Header(line));
    HoldsPrefix(e, b, HEADER, Counts(g));
    HoldsPrefix(e, b, TABLE, Table(p));
    HoldsPrefix(e, b, TABLE + ENTRY * |p|, Table(c));
    CountsRead(g, b);
    TableRoundTrip(p, b, TABLE);
    TableRoundTrip(c, b, TABLE + ENTRY * |p|);
    HeadOf(b, line);
    HeaderIff(b, line);
    ParseIff(b, line);
    ClaimedInfos(p);
    ClaimedInfos(c);
  }

  lemma HoldsAll(e: seq<byte>)
    ensures Holds(e, 0, e)
  {}

  lemma HeadOf(b: seq<byte>, line: nat)
    requires line < 0x1_0000 && Holds(b, 0, Header(line))
    ensures b[..HEADER] == Header(line)
  {}
}
