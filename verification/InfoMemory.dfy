/**
 The memory that receives the infos of a parsed request: how large it is made, what is copied into it, and
 exactly when every copy stays inside.
 */
module InfoMemory {
  import opened Queue
  import opened Layout
  import opened Wire

  const MAX_ALIGN: nat := 16        // alignof(max_align_t)

  /** ri_info_align */
  function InfoAlign(size: nat): (r: nat) {
    Aligned(size, MAX_ALIGN)
  }

  /** calc_channels_info_size: the sum ends at the first entry without a message size. */
  function Reserved(raw: seq<RawChannel>): (n: nat) {
    if raw == [] || raw[0].msgSize == 0 then 0 else InfoAlign(raw[0].infoSize) + Reserved(raw[1..])
  }

  /** What the infos of all entries take. */
  function Needed(raw: seq<RawChannel>): (n: nat) {
    if raw == [] then 0 else InfoAlign(raw[0].infoSize) + Needed(raw[1..])
  }

  /** No entry without a message size comes before an info or with one. */
  predicate Sized(raw: seq<RawChannel>) {
    forall i, j :: 0 <= i <= j < |raw| && raw[j].infoSize > 0 ==> raw[i].msgSize > 0
  }

  /** The copies that read_infos makes for a row of entries, from `mem` on, end at or below `capacity`. */
  predicate Inside(b: seq<byte>, at: nat, raw: seq<RawChannel>, mem: nat, capacity: nat)
    decreases |raw|
  {
    raw == []
    || (raw[0].infoSize > 0 && at + raw[0].infoSize > |b|)        // cut off: nothing is copied, reading ends
    || (&& (raw[0].infoSize > 0 ==> mem + raw[0].infoSize <= capacity)
        && Inside(b, at + raw[0].infoSize, raw[1..], mem + InfoAlign(raw[0].infoSize), capacity))
  }

  /** n is a multiple of the alignment. */
  predicate Whole(n: nat) {
    n % MAX_ALIGN == 0
  }

  lemma WholeSum(a: nat, b: nat)
    requires Whole(a) && Whole(b)
    ensures Whole(a + b) && (a >= b ==> Whole(a - b))
  {}

  // ---- sums -------------------------------------------------------------------------------------

  lemma InfoAlignFacts(size: nat)
    ensures size <= InfoAlign(size) && Whole(InfoAlign(size)) && (InfoAlign(size) == 0 <==> size == 0)
  {
    AlignedBounds(size, MAX_ALIGN);
    if size == 0 {
      InfoAlignLeast(0, 0);
    }
  }

  lemma InfoAlignLeast(size: nat, m: nat)
    requires Whole(m) && size <= m
    ensures InfoAlign(size) <= m
  {
    AlignedLeast(size, MAX_ALIGN);
    assert Multiple(m, MAX_ALIGN);
  }

  lemma ZeroWhole()
    ensures Whole(0)
  {}

  lemma {:induction false} SumsAligned(raw: seq<RawChannel>)
    ensures Whole(Needed(raw)) && Whole(Reserved(raw))
  {
    hide InfoAlign, Whole;
    ZeroWhole();
    if raw != [] {
      InfoAlignFacts(raw[0].infoSize);
      SumsAligned(raw[1..]);
      WholeSum(InfoAlign(raw[0].infoSize), Needed(raw[1..]));
      WholeSum(InfoAlign(raw[0].infoSize), Reserved(raw[1..]));
    }
  }

  lemma {:induction false} NothingNeeded(raw: seq<RawChannel>)
    ensures Needed(raw) == 0 <==> forall i :: 0 <= i < |raw| ==> raw[i].infoSize == 0
  {
    hide InfoAlign;
    if raw != [] {
      InfoAlignFacts(raw[0].infoSize);
      NothingNeeded(raw[1..]);
      assert forall i :: 1 <= i < |raw| ==> raw[i] == raw[1..][i - 1];
    }
  }

  /** The reserved memory never exceeds what is needed, and suffices exactly for sized rows. */
  lemma {:induction false} ReservedIff(raw: seq<RawChannel>)
    ensures Reserved(raw) <= Needed(raw)
    ensures Needed(raw) == Reserved(raw) <==> Sized(raw)
  {
    hide InfoAlign;
    if raw == [] {
    } else if raw[0].msgSize == 0 {
      NothingNeeded(raw);
      if Sized(raw) {
        assert forall j :: 0 <= j < |raw| ==> raw[j].infoSize == 0;
      } else {
        var i, j :| 0 <= i <= j < |raw| && raw[j].infoSize > 0 && raw[i].msgSize == 0;
        assert Needed(raw) != 0;
      }
    } else {
      ReservedIff(raw[1..]);
      SizedRest(raw);
    }
  }

  /** What is reserved is what the entries before the first one without a message size need. */
  lemma {:induction false} ReservedPrefix(raw: seq<RawChannel>, m: nat)
    requires m <= |raw| && (forall i :: 0 <= i < m ==> raw[i].msgSize > 0) && (m < |raw| ==> raw[m].msgSize == 0)
    ensures Reserved(raw) == Needed(raw[..m])
  {
    hide InfoAlign;
    if m > 0 {
      ReservedPrefix(raw[1..], m - 1);
      assert raw[..m][1..] == raw[1..][..m - 1];
    }
  }

  /** What infos need: each of them the least multiple of 16 bytes that holds it. */
  lemma {:induction false} NeededExact(raw: seq<RawChannel>) returns (sizes: seq<nat>)
    ensures |sizes| == |raw| && Needed(raw) == Sum(sizes)
    ensures forall i :: 0 <= i < |raw| ==> LeastMultiple(sizes[i], raw[i].infoSize, 16)
  {
    sizes := [];
    if raw != [] {
      var rest := NeededExact(raw[1..]);
      AlignedLeast(raw[0].infoSize, 16);
      sizes := [InfoAlign(raw[0].infoSize)] + rest;
      hide Aligned, LeastMultiple, InfoAlign;
      assert sizes[1..] == rest;
    }
  }

  function Sum(sizes: seq<nat>): (n: nat) {
    if sizes == [] then 0 else sizes[0] + Sum(sizes[1..])
  }

  lemma SizedRest(raw: seq<RawChannel>)
    requires raw != [] && raw[0].msgSize > 0
    ensures Sized(raw) <==> Sized(raw[1..])
  {
    var rest := raw[1..];
    if Sized(raw) {
      forall i, j | 0 <= i <= j < |rest| && rest[j].infoSize > 0
        ensures rest[i].msgSize > 0
      {
        assert rest[i] == raw[i + 1] && rest[j] == raw[j + 1];
      }
    }
    if Sized(rest) {
      forall i, j | 0 <= i <= j < |raw| && raw[j].infoSize > 0
        ensures raw[i].msgSize > 0
      {
        if i > 0 {
          assert raw[i] == rest[i - 1] && raw[j] == rest[j - 1];
        }
      }
    }
  }

  // ---- copies -----------------------------------------------------------------------------------

  /** Enough memory is enough, however the request ends. */
  lemma {:induction false} InsideIf(b: seq<byte>, at: nat, raw: seq<RawChannel>, mem: nat, capacity: nat)
    requires mem + Needed(raw) <= capacity
    ensures Inside(b, at, raw, mem, capacity)
    decreases |raw|
  {
    hide InfoAlign;
    if raw != [] {
      InfoAlignFacts(raw[0].infoSize);
      InsideIf(b, at + raw[0].infoSize, raw[1..], mem + InfoAlign(raw[0].infoSize), capacity);
    }
  }

  /** If all infos are there, less is not: alignment leaves no slack. */
  lemma {:induction false} InsideIff(b: seq<byte>, at: nat, raw: seq<RawChannel>, mem: nat, capacity: nat)
    requires ReadInfos(b, at, raw).Some? && mem <= capacity && Whole(mem) && Whole(capacity)
    ensures Inside(b, at, raw, mem, capacity) <==> mem + Needed(raw) <= capacity
    decreases |raw|
  {
    hide InfoAlign, Whole;
    if raw != [] {
      var size := raw[0].infoSize;
      InfoAlignFacts(size);
      if mem + size <= capacity {
        WholeSum(capacity, mem);
        InfoAlignLeast(size, capacity - mem);
        WholeSum(mem, InfoAlign(size));
        InsideIff(b, at + size, raw[1..], mem + InfoAlign(size), capacity);
      }
    }
  }

  // ---- a request --------------------------------------------------------------------------------

  /** What ri_request_parse finds in front of the infos: the size of the group's info and both tables. */
  datatype Front = Front(infoSize: nat, consumers: seq<RawChannel>, producers: seq<RawChannel>, end: nat)

  function ReadFront(b: seq<byte>): (f: Front)
    requires |b| >= TABLE
  {
    var (consumers, end1) := ReadTable(b, TABLE, ReadU32(b, HEADER + 4));
    var (producers, end2) := ReadTable(b, end1, ReadU32(b, HEADER + 8));
    Front(ReadU32(b, HEADER), consumers, producers, end2)
  }

  /** ri_attr_calc_info_size */
  function Capacity(f: Front): (n: nat) {
    InfoAlign(f.infoSize) + Reserved(f.consumers) + Reserved(f.producers)
  }

  /** read_infos stays inside the memory made for it: the group's info, then the consumers, then the producers. */
  predicate FrontInside(b: seq<byte>, f: Front) {
    || (f.infoSize > 0 && f.end + f.infoSize > |b|)
    || (var cap, at, mem := Capacity(f), f.end + f.infoSize, InfoAlign(f.infoSize);
        && f.infoSize <= cap
        && Inside(b, at, f.consumers, mem, cap)
        && match ReadInfos(b, at, f.consumers)
           case None => true
           case Some((_, at')) => Inside(b, at', f.producers, mem + Needed(f.consumers), cap))
  }

  /** The entries made for a table of n channels: n + 1 in unsigned arithmetic. */
  function Entries(n: nat): (k: nat) {
    (n + 1) % UINT_RANGE
  }

  /** Entry i of the table at `at` is in the request. */
  predicate Complete(b: seq<byte>, at: nat, i: nat) {
    at + ENTRY * (i + 1) <= |b|
  }

  /** The entries found in the request are written inside the table made for them. */
  predicate TableInside(b: seq<byte>, at: nat, n: nat) {
    forall i :: 0 <= i < n && Complete(b, at, i) ==> i < Entries(n)
  }

  lemma TableInsideIff(b: seq<byte>, at: nat, n: nat)
    requires n < UINT_RANGE
    ensures TableInside(b, at, n) <==> n + 1 < UINT_RANGE || at + ENTRY > |b|
  {
    if n + 1 == UINT_RANGE && at + ENTRY <= |b| {
      assert Complete(b, at, 0);
    }
  }

  /** Both tables, the consumers' first. */
  predicate TablesInside(b: seq<byte>)
    requires |b| >= TABLE
  {
    && TableInside(b, TABLE, ReadU32(b, HEADER + 4))
    && TableInside(b, ReadTable(b, TABLE, ReadU32(b, HEADER + 4)).1, ReadU32(b, HEADER + 8))
  }

  /** Parsing stays inside the memory made for the tables and for the infos. */
  predicate ParseInside(b: seq<byte>, line: nat)
    requires line < 0x1_0000
  {
    |b| < TABLE || b[..HEADER] != Header(line) || (TablesInside(b) && FrontInside(b, ReadFront(b)))
  }

  /** Tables that are sized keep every request inside, complete or cut off. */
  lemma SizedStaysInside(b: seq<byte>, f: Front)
    requires Sized(f.consumers) && Sized(f.producers)
    ensures FrontInside(b, f)
  {
    hide InfoAlign, Inside, Needed, Reserved, Sized;
    InfoAlignFacts(f.infoSize);
    ReservedIff(f.consumers);
    ReservedIff(f.producers);
    var at, mem := f.end + f.infoSize, InfoAlign(f.infoSize);
    InsideIf(b, at, f.consumers, mem, Capacity(f));
    match ReadInfos(b, at, f.consumers)
    case None =>
    case Some((_, at')) => InsideIf(b, at', f.producers, mem + Needed(f.consumers), Capacity(f));
  }

  /**
   For a request that parses, reading the infos stays inside the memory if and only if in neither table an info
   comes with or after an entry that has no message size.
   */
  lemma InfosInsideIff(b: seq<byte>, line: nat)
    requires line < 0x1_0000 && Parse(b, line).Some?
    ensures |b| >= TABLE
    ensures var f := ReadFront(b); FrontInside(b, f) <==> Sized(f.consumers) && Sized(f.producers)
  {
    hide InfoAlign, Inside, Needed, Reserved, Sized, ReadInfos, ReadTable, ReadU32, Whole;
    var f := ReadFront(b);
    if Sized(f.consumers) && Sized(f.producers) {
      SizedStaysInside(b, f);
    }
    var at, mem, cap := f.end + f.infoSize, InfoAlign(f.infoSize), Capacity(f);
    InfoAlignFacts(f.infoSize);
    ReservedIff(f.consumers);
    ReservedIff(f.producers);
    SumsAligned(f.consumers);
    SumsAligned(f.producers);
    WholeSum(mem, Reserved(f.consumers));
    WholeSum(mem + Reserved(f.consumers), Reserved(f.producers));
    WholeSum(mem, Needed(f.consumers));
    InsideIff(b, at, f.consumers, mem, cap);
    if mem + Needed(f.consumers) <= cap {
      InsideIff(b, ReadInfos(b, at, f.consumers).value.1, f.producers, mem + Needed(f.consumers), cap);
    }
  }

  /**
   A request that parses is read inside the memory made for it if and only if its tables are sized and neither
   claims 2^32 - 1 channels and holds an entry.
   */
  lemma ParseInsideIff(b: seq<byte>, line: nat)
    requires line < 0x1_0000 && Parse(b, line).Some?
    ensures |b| >= TABLE
    ensures var f := ReadFront(b);
      var consumers, producers := ReadU32(b, HEADER + 4), ReadU32(b, HEADER + 8);
      var end := ReadTable(b, TABLE, consumers).1;
      ParseInside(b, line) <==>
        && Sized(f.consumers) && Sized(f.producers)
        && (consumers + 1 < UINT_RANGE || TABLE + ENTRY > |b|) && (producers + 1 < UINT_RANGE || end + ENTRY > |b|)
  {
    hide ReadU32, ReadTable, ReadInfos, TableInside, FrontInside, Sized;
    InfosInsideIff(b, line);
    var consumers, producers := ReadU32(b, HEADER + 4), ReadU32(b, HEADER + 8);
    TableInsideIff(b, TABLE, consumers);
    TableInsideIff(b, ReadTable(b, TABLE, consumers).1, producers);
  }

  /** What a client encodes is read inside, unless it has 2^32 - 1 channels of one kind. */
  lemma EncodedInsideIff(g: GroupAttr, line: nat, b: seq<byte>)
    requires FitsGroup(g) && line < 0x1_0000 && Holds(b, 0, Encode(g, line))
    ensures ParseInside(b, line) <==> |g.producers| + 1 < UINT_RANGE && |g.consumers| + 1 < UINT_RANGE
  {
    hide Header, Counts, Table, Infos, Encode, ReadU32, ReadTable, ReadInfos, ParseInside, Parse;
    RoundTrip(g, line, b);
    ParseInsideIff(b, line);
    EncodeParts(g, line, b);
    CountsRead(g, b);
    TableRoundTrip(g.producers, b, TABLE);
    TableRoundTrip(g.consumers, b, TABLE + ENTRY * |g.producers|);
    assert ReadFront(b).consumers == Raws(g.producers) && ReadFront(b).producers == Raws(g.consumers);
  }

  /** A request with one consumer that has no message size and an info of one byte. */
  function OneByteInfo(line: nat): (b: seq<byte>)
    requires line < 0x1_0000
  {
    Header(line) + [0, 0, 0, 0] + [1, 0, 0, 0] + [0, 0, 0, 0]
    + [0, 0, 0, 0] + [0, 0, 0, 0] + [0, 0, 0, 0] + [1, 0, 0, 0] + [7]
  }

  /** It parses, and its info is copied into memory of size zero. */
  lemma OneByteOutside(line: nat)
    requires line < 0x1_0000
    ensures Parse(OneByteInfo(line), line).Some? && !ParseInside(OneByteInfo(line), line)
  {
    var b := OneByteInfo(line);
    OneByteFront(line);
    hide ReadTable, Header, ReadU32;
    var f := ReadFront(b);
    var raw := f.consumers;
    assert raw[1..] == [];
    assert ReadInfos(b, f.end, raw).Some? && ReadInfos(b, f.end + 1, []).Some?;
    ParseInsideIff(b, line);
    assert raw[0].infoSize > 0 && raw[0].msgSize == 0;
  }

  lemma OneByteFront(line: nat)
    requires line < 0x1_0000
    ensures var b := OneByteInfo(line);
      && |b| == 37 && b[..HEADER] == Header(line)
      && ReadU32(b, HEADER) == 0 && ReadU32(b, HEADER + 4) == 1 && ReadU32(b, HEADER + 8) == 0
      && ReadTable(b, TABLE, 1) == ([RawChannel(0, 0, false, 1)], 36)
      && ReadTable(b, 36, 0) == ([], 36)
      && ReadFront(b) == Front(0, [RawChannel(0, 0, false, 1)], [], 36)
  {
    hide Header;
    var b := OneByteInfo(line);
    assert b[8..] == [0, 0, 0, 0, 1, 0, 0, 0, 0, 0, 0, 0, 0, 0, 0, 0, 0, 0, 0, 0, 0, 0, 0, 0, 1, 0, 0, 0, 7];
    assert forall i :: 8 <= i < 37 ==> b[i] == b[8..][i - 8];
    assert ReadTable(b, 36, 0) == ([], 36);
    assert [RawChannel(0, 0, false, 1)] + [] == [RawChannel(0, 0, false, 1)];
  }
}
