/**
 The request a client sends: its byte format, what the server's parser makes of any bytes, and the round
 trip between them. Integers are little-endian, and both sides run on the same machine.
 */
module Wire {
  import opened Queue
  import opened Layout
  import opened Wrappers

  /** ri_group_attr_t */
  datatype GroupAttr = GroupAttr(consumers: seq<ChannelAttr>, producers: seq<ChannelAttr>, info: seq<byte>)

  /** The group as the peer sees it. */
  function Swapped(g: GroupAttr): (r: GroupAttr) {
    GroupAttr(g.producers, g.consumers, g.info)
  }

  const LIMIT: nat := 0x1_0000_0000
  const HEADER: nat := 8
  const ENTRY: nat := 16
  const TABLE: nat := 20            // header, info size and the two channel counts

  // ---- fields -----------------------------------------------------------------------------------

  function U16(x: nat): (b: seq<byte>)
    requires x < 0x1_0000
    ensures |b| == 2
  {
    [(x % 0x100) as byte, (x / 0x100) as byte]
  }

  function U32(x: nat): (b: seq<byte>)
    requires x < LIMIT
    ensures |b| == 4
  {
    [(x % 0x100) as byte, (x / 0x100 % 0x100) as byte, (x / 0x1_0000 % 0x100) as byte, (x / 0x100_0000) as byte]
  }

  function ReadU32(b: seq<byte>, at: nat): (x: nat)
    requires at + 4 <= |b|
    ensures x < LIMIT
  {
    b[at] as nat + 0x100 * (b[at + 1] as nat) + 0x1_0000 * (b[at + 2] as nat) + 0x100_0000 * (b[at + 3] as nat)
  }

  function ReadU16(b: seq<byte>, at: nat): (x: nat)
    requires at + 2 <= |b|
    ensures x < 0x1_0000
  {
    b[at] as nat + 0x100 * (b[at + 1] as nat)
  }

  lemma U16Iff(x: nat, b: seq<byte>, at: nat)
    requires x < 0x1_0000 && at + 2 <= |b|
    ensures ReadU16(b, at) == x <==> b[at..at + 2] == U16(x)
  {
    assert b[at..at + 2] == [b[at], b[at + 1]];
  }

  /** The four digits of a number below 2^32. */
  lemma Digits(x: nat)
    requires x < LIMIT
    ensures x / 0x100_0000 < 0x100
    ensures x == x % 0x100 + 0x100 * (x / 0x100 % 0x100) + 0x1_0000 * (x / 0x1_0000 % 0x100)
                 + 0x100_0000 * (x / 0x100_0000)
  {
    var y := x / 0x100;
    var z := y / 0x100;
    assert z == x / 0x1_0000 && z / 0x100 == x / 0x100_0000;
    assert x == x % 0x100 + 0x100 * y && y == y % 0x100 + 0x100 * z && z == z % 0x100 + 0x100 * (z / 0x100);
  }

  lemma U32RoundTrip(x: nat, b: seq<byte>, at: nat)
    requires x < LIMIT && at + 4 <= |b| && b[at..at + 4] == U32(x)
    ensures ReadU32(b, at) == x
  {
    Digits(x);
    var d := b[at..at + 4];
    assert b[at] == d[0] && b[at + 1] == d[1] && b[at + 2] == d[2] && b[at + 3] == d[3];
    assert d[0] as nat == x % 0x100 && d[1] as nat == x / 0x100 % 0x100;
    assert d[2] as nat == x / 0x1_0000 % 0x100 && d[3] as nat == x / 0x100_0000;
  }

  // ---- writing ----------------------------------------------------------------------------------

  predicate Fits(c: ChannelAttr) {
    0 < c.msgSize < LIMIT && c.addMsgs < LIMIT && |c.info| < LIMIT
  }

  /** What 32-bit fields can carry: sizes below 2^32, message sizes above zero. */
  predicate FitsAll(cs: seq<ChannelAttr>) {
    forall i :: 0 <= i < |cs| ==> Fits(cs[i])
  }

  predicate FitsGroup(g: GroupAttr) {
    && FitsAll(g.producers) && FitsAll(g.consumers)
    && |g.info| < LIMIT && |g.producers| < LIMIT && |g.consumers| < LIMIT
  }

  /** entry_t */
  function Entry(c: ChannelAttr): (b: seq<byte>)
    requires Fits(c)
    ensures |b| == ENTRY
  {
    U32(c.addMsgs) + U32(c.msgSize) + U32(if c.eventfd then 1 else 0) + U32(|c.info|)
  }

  function Table(cs: seq<ChannelAttr>): (b: seq<byte>)
    requires FitsAll(cs)
    ensures |b| == ENTRY * |cs|
  {
    if cs == [] then [] else Entry(cs[0]) + Table(cs[1..])
  }

  function Infos(cs: seq<ChannelAttr>): (b: seq<byte>) {
    if cs == [] then [] else cs[0].info + Infos(cs[1..])
  }

  /** The header of this machine: magic, version, cache line size, size of an index word. */
  function Header(line: nat): (b: seq<byte>)
    requires line < 0x1_0000
    ensures |b| == HEADER
  {
    U16(0x1f0c) + U16(2) + U16(line) + U16(WORD)
  }

  /** A request starts with this machine's header exactly if its first four numbers are these. */
  lemma HeaderIff(b: seq<byte>, line: nat)
    requires line < 0x1_0000 && |b| >= 8
    ensures b[..HEADER] == Header(line) <==>
      ReadU16(b, 0) == 0x1f0c && ReadU16(b, 2) == 2 && ReadU16(b, 4) == line && ReadU16(b, 6) == 4
  {
    hide U16, ReadU16;
    U16Iff(0x1f0c, b, 0);
    U16Iff(2, b, 2);
    U16Iff(line, b, 4);
    U16Iff(4, b, 6);
    var h := Header(line);
    assert b[..8] == b[0..2] + b[2..4] + b[4..6] + b[6..8];
    assert h[0..2] == U16(0x1f0c) && h[2..4] == U16(2) && h[4..6] == U16(line) && h[6..8] == U16(4);
    if b[..8] == h {
      assert b[0..2] == b[..8][0..2] && b[2..4] == b[..8][2..4] && b[4..6] == b[..8][4..6] && b[6..8] == b[..8][6..8];
    }
  }

  function Counts(g: GroupAttr): (b: seq<byte>)
    requires FitsGroup(g)
    ensures |b| == TABLE - HEADER
  {
    U32(|g.info|) + U32(|g.producers|) + U32(|g.consumers|)
  }

  /** The whole request: fixed part, channel table, infos; producers come first. */
  function Encode(g: GroupAttr, line: nat): (b: seq<byte>)
    requires FitsGroup(g) && line < 0x1_0000
  {
    Header(line) + Counts(g) + Table(g.producers) + Table(g.consumers)
    + g.info + Infos(g.producers) + Infos(g.consumers)
  }

  /** ri_request_calc_size */
  function CalcSize(g: GroupAttr): (n: nat) {
    TABLE + (|g.consumers| + |g.producers|) * ENTRY + |g.info| + |Infos(g.consumers)| + |Infos(g.producers)|
  }

  lemma EncodeSize(g: GroupAttr, line: nat)
    requires FitsGroup(g) && line < 0x1_0000
    ensures |Encode(g, line)| == CalcSize(g)
  {}

  // ---- reading ----------------------------------------------------------------------------------

  /** An entry as it is found, before its info is read. */
  datatype RawChannel = RawChannel(addMsgs: nat, msgSize: nat, eventfd: bool, infoSize: nat)

  /**
   request_read_channel over n entries. A read past the end of the request is not reported: the entry
   stays zero and the cursor stays where it is.
   */
  function ReadTable(b: seq<byte>, at: nat, n: nat): (r: (seq<RawChannel>, nat))
    ensures |r.0| == n
    decreases n
  {
    if n == 0 then ([], at)
    else if at + ENTRY > |b| then
      var (rest, end) := ReadTable(b, at, n - 1);
      ([RawChannel(0, 0, false, 0)] + rest, end)
    else
      var raw := RawChannel(ReadU32(b, at), ReadU32(b, at + 4), ReadU32(b, at + 8) != 0, ReadU32(b, at + 12));
      var (rest, end) := ReadTable(b, at + ENTRY, n - 1);
      ([raw] + rest, end)
  }

  /** The infos of a table of channels. */
  function ReadInfos(b: seq<byte>, at: nat, raw: seq<RawChannel>): (r: Option<(seq<ChannelAttr>, nat)>)
    ensures r.Some? ==> |r.value.0| == |raw|
    decreases |raw|
  {
    if raw == [] then Some(([], at))
    else if raw[0].infoSize > 0 && at + raw[0].infoSize > |b| then None
    else
      var info := if raw[0].infoSize > 0 then b[at..at + raw[0].infoSize] else [];
      var c := ChannelAttr(raw[0].msgSize, raw[0].addMsgs, raw[0].eventfd, info);
      match ReadInfos(b, at + raw[0].infoSize, raw[1..])
      case None => None
      case Some((rest, end)) => Some(([c] + rest, end))
  }

  /** ri_request_parse: the first table is read as consumers, the second as producers. */
  function Parse(b: seq<byte>, line: nat): (r: Option<GroupAttr>)
    requires line < 0x1_0000
  {
    if |b| < TABLE || b[..HEADER] != Header(line) then None
    else
      var infoSize, nConsumers, nProducers := ReadU32(b, HEADER), ReadU32(b, HEADER + 4), ReadU32(b, HEADER + 8);
      var (rawConsumers, end1) := ReadTable(b, TABLE, nConsumers);
      var (rawProducers, end2) := ReadTable(b, end1, nProducers);
      if infoSize > 0 && end2 + infoSize > |b| then None
      else
        var info := if infoSize > 0 then b[end2..end2 + infoSize] else [];
        match ReadInfos(b, end2 + infoSize, rawConsumers)
        case None => None
        case Some((consumers, end3)) =>
          match ReadInfos(b, end3, rawProducers)
          case None => None
          case Some((producers, _)) => Some(GroupAttr(consumers, producers, info))
  }

  // ---- round trip -------------------------------------------------------------------------------

  /** b holds x at position `at`. */
  predicate Holds(b: seq<byte>, at: nat, x: seq<byte>) {
    at + |x| <= |b| && b[at..at + |x|] == x
  }

  lemma HoldsConcat(b: seq<byte>, at: nat, x: seq<byte>, y: seq<byte>)
    requires Holds(b, at, x + y)
    ensures Holds(b, at, x) && Holds(b, at + |x|, y)
  {
    var z := b[at..at + |x + y|];
    assert z[..|x|] == x && z[|x|..] == y;
    assert b[at..at + |x|] == z[..|x|];
    assert b[at + |x|..at + |x| + |y|] == z[|x|..];
  }

  lemma HoldsLength(b: seq<byte>, at: nat, x: seq<byte>)
    requires Holds(b, at, x)
    ensures at + |x| <= |b|
  {}

  function Raw(c: ChannelAttr): (r: RawChannel) {
    RawChannel(c.addMsgs, c.msgSize, c.eventfd, |c.info|)
  }

  function Raws(cs: seq<ChannelAttr>): (r: seq<RawChannel>) {
    seq(|cs|, i requires 0 <= i < |cs| => Raw(cs[i]))
  }

  lemma EntryReads(c: ChannelAttr, b: seq<byte>, at: nat)
    requires Fits(c) && Holds(b, at, Entry(c))
    ensures ReadU32(b, at) == c.addMsgs && ReadU32(b, at + 4) == c.msgSize
    ensures ReadU32(b, at + 8) == (if c.eventfd then 1 else 0) && ReadU32(b, at + 12) == |c.info|
  {
    hide U32, ReadU32;
    var f0, f1, f2, f3 := U32(c.addMsgs), U32(c.msgSize), U32(if c.eventfd then 1 else 0), U32(|c.info|);
    HoldsConcat(b, at, f0 + f1 + f2, f3);
    HoldsConcat(b, at, f0 + f1, f2);
    HoldsConcat(b, at, f0, f1);
    U32RoundTrip(c.addMsgs, b, at);
    U32RoundTrip(c.msgSize, b, at + 4);
    U32RoundTrip(if c.eventfd then 1 else 0, b, at + 8);
    U32RoundTrip(|c.info|, b, at + 12);
  }

  lemma {:induction false} TableRoundTrip(cs: seq<ChannelAttr>, b: seq<byte>, at: nat)
    requires FitsAll(cs) && Holds(b, at, Table(cs))
    ensures ReadTable(b, at, |cs|) == (Raws(cs), at + ENTRY * |cs|)
  {
    if cs == [] {
    } else {
      hide ReadU32, Entry, Holds;
      HoldsConcat(b, at, Entry(cs[0]), Table(cs[1..]));
      HoldsLength(b, at, Entry(cs[0]));
      EntryReads(cs[0], b, at);
      TableRoundTrip(cs[1..], b, at + ENTRY);
      assert Raws(cs) == [Raw(cs[0])] + Raws(cs[1..]);
    }
  }

  lemma {:induction false} InfosRoundTrip(cs: seq<ChannelAttr>, b: seq<byte>, at: nat)
    requires Holds(b, at, Infos(cs))
    ensures ReadInfos(b, at, Raws(cs)) == Some((cs, at + |Infos(cs)|))
  {
    if cs == [] {
    } else {
      HoldsConcat(b, at, cs[0].info, Infos(cs[1..]));
      InfosRoundTrip(cs[1..], b, at + |cs[0].info|);
      assert Raws(cs)[1..] == Raws(cs[1..]);
      assert cs == [cs[0]] + cs[1..];
    }
  }

  /** The parts of an encoded request, each at its place; anything may follow. */
  lemma EncodeParts(g: GroupAttr, line: nat, b: seq<byte>)
    requires FitsGroup(g) && line < 0x1_0000 && Holds(b, 0, Encode(g, line))
    ensures var p, c := g.producers, g.consumers;
      var end := TABLE + ENTRY * |p| + ENTRY * |c|;
      && Holds(b, 0, Header(line)) && Holds(b, HEADER, Counts(g))
      && Holds(b, TABLE, Table(p)) && Holds(b, TABLE + ENTRY * |p|, Table(c))
      && Holds(b, end, g.info) && Holds(b, end + |g.info|, Infos(p))
      && Holds(b, end + |g.info| + |Infos(p)|, Infos(c))
  {
    hide Header, Counts, Table, Infos, Holds;
    var p, c := g.producers, g.consumers;
    var s1 := Header(line) + Counts(g);
    var s2 := s1 + Table(p);
    var s3 := s2 + Table(c);
    var s4 := s3 + g.info;
    var s5 := s4 + Infos(p);
    HoldsConcat(b, 0, s5, Infos(c));
    HoldsConcat(b, 0, s4, Infos(p));
    HoldsConcat(b, 0, s3, g.info);
    HoldsConcat(b, 0, s2, Table(c));
    HoldsConcat(b, 0, s1, Table(p));
    HoldsConcat(b, 0, Header(line), Counts(g));
  }

  lemma CountsRead(g: GroupAttr, b: seq<byte>)
    requires FitsGroup(g) && Holds(b, HEADER, Counts(g))
    ensures ReadU32(b, HEADER) == |g.info|
    ensures ReadU32(b, HEADER + 4) == |g.producers| && ReadU32(b, HEADER + 8) == |g.consumers|
  {
    hide U32, ReadU32;
    HoldsConcat(b, HEADER, U32(|g.info|) + U32(|g.producers|), U32(|g.consumers|));
    HoldsConcat(b, HEADER, U32(|g.info|), U32(|g.producers|));
    U32RoundTrip(|g.info|, b, HEADER);
    U32RoundTrip(|g.producers|, b, HEADER + 4);
    U32RoundTrip(|g.consumers|, b, HEADER + 8);
  }

  /**
   Parsing what was encoded, whatever follows it, gives the same attributes with producers and consumers
   exchanged.
   */
  lemma RoundTrip(g: GroupAttr, line: nat, b: seq<byte>)
    requires FitsGroup(g) && line < 0x1_0000 && Holds(b, 0, Encode(g, line))
    ensures Parse(b, line) == Some(Swapped(g))
  {
    hide Header, Counts, Table, Infos, Encode, ReadU32, ReadTable, ReadInfos, Raws;
    var p, c := g.producers, g.consumers;
    var end := TABLE + ENTRY * |p| + ENTRY * |c|;
    EncodeParts(g, line, b);
    CountsRead(g, b);
    TableRoundTrip(p, b, TABLE);
    TableRoundTrip(c, b, TABLE + ENTRY * |p|);
    InfosRoundTrip(p, b, end + |g.info|);
    InfosRoundTrip(c, b, end + |g.info| + |Infos(p)|);
  }
}
