/**
 Memory layout: alignment, the words and slots inside a channel's region, and the sizes of channels.
 The layout is stated on unbounded numbers; the last section says when 32-bit lengths and size_t compute it.
 */
module Layout {
  import opened Bits
  import opened Queue

  const WORD: nat := 4              // sizeof(ri_atomic_index_t)
  const MIN_MSGS: nat := 3          // RI_CHANNEL_MIN_MSGS

  /** ri_channel_attr_t. An info is its bytes; an empty one has no data. */
  datatype ChannelAttr = ChannelAttr(msgSize: nat, addMsgs: nat, eventfd: bool, info: seq<byte>)

  // ---- alignment --------------------------------------------------------------------------------

  /** mem_align on size_t: (size + alignment - 1) & ~(alignment - 1), modulo 2^bits. */
  function MemAlign(size: nat, alignment: nat, bits: nat): (r: nat)
    requires 0 < alignment <= Pow2(bits)
  {
    And((size + alignment - 1) % Pow2(bits), Not(alignment - 1, bits), bits)
  }

  predicate Multiple(m: nat, a: nat)
    requires a > 0
  {
    m % a == 0
  }

  /** r is the least multiple of a that is not below size. */
  ghost predicate LeastMultiple(r: nat, size: nat, a: nat)
    requires a > 0
  {
    Multiple(r, a) && size <= r && forall m :: size <= m && Multiple(m, a) ==> r <= m
  }

  /** The same by division. */
  function Aligned(size: nat, a: nat): (r: nat)
    requires a > 0
  {
    (size + a - 1) / a * a
  }

  lemma AlignedBounds(size: nat, a: nat)
    requires a > 0
    ensures size <= Aligned(size, a) < size + a && Multiple(Aligned(size, a), a)
  {
    var x := size + a - 1;
    assert x == x / a * a + x % a;
    MultipleOf(x / a, a);
  }

  lemma MultipleOf(q: nat, a: nat)
    requires a > 0
    ensures Multiple(q * a, a)
  {
    DivModUnique(q * a, a, q, 0);
  }

  lemma AlignedLeast(size: nat, a: nat)
    requires a > 0
    ensures LeastMultiple(Aligned(size, a), size, a)
  {
    AlignedBounds(size, a);
    var r := Aligned(size, a);
    forall m | size <= m && Multiple(m, a)
      ensures r <= m
    {
      if m < r {
        var q, q' := m / a, r / a;
        assert m == a * q && r == a * q';
        assert r - m == a * (q' - q) by { assert a * (q' - q) == a * q' - a * q; }
        LargeMultiple(a, q' - q);
      }
    }
  }

  /** Without wrap-around the mask rounds up. */
  lemma MemAlignExact(size: nat, k: nat, bits: nat)
    requires k <= bits && size + Pow2(k) - 1 < Pow2(bits)
    ensures Pow2(k) <= Pow2(bits) && MemAlign(size, Pow2(k), bits) == Aligned(size, Pow2(k))
  {
    hide And;
    Pow2Monotone(k, bits);
    var a := Pow2(k);
    var x := size + a - 1;
    SmallMod(x, Pow2(bits));
    AndHighMask(x, k, bits);
    RoundDown(x, a);
  }

  /** With wrap-around it yields zero. */
  lemma MemAlignWraps(size: nat, k: nat, bits: nat)
    requires k <= bits && size < Pow2(bits) <= size + Pow2(k) - 1
    ensures Pow2(k) <= Pow2(bits) && MemAlign(size, Pow2(k), bits) == 0
  {
    hide And;
    Pow2Monotone(k, bits);
    var a, w := Pow2(k), Pow2(bits);
    var x := size + a - 1 - w;
    DivModUnique(size + a - 1, w, 1, x);
    SmallMod(x, a);
    AndHighMask(x, k, bits);
  }

  lemma SmallMod(x: nat, d: nat)
    requires x < d
    ensures x % d == x
  {
    DivModUnique(x, d, 0, x);
  }

  lemma SmallRem(x: nat, d: nat)
    requires x < d
    ensures Rem(x, d) == x
  {
    SmallMod(x, d);
  }

  lemma RoundDown(x: nat, a: nat)
    requires a > 0
    ensures x - x % a == x / a * a
  {}

  /**
   With a power of two as alignment, mem_align gives the least multiple that is not below the size exactly
   when the sum does not wrap around.
   */
  lemma MemAlignIff(size: nat, k: nat, bits: nat)
    requires k <= bits && size < Pow2(bits)
    ensures Pow2(k) <= Pow2(bits)
    ensures LeastMultiple(MemAlign(size, Pow2(k), bits), size, Pow2(k)) <==> size + Pow2(k) - 1 < Pow2(bits)
  {
    hide MemAlign, Aligned;
    if size + Pow2(k) - 1 < Pow2(bits) {
      MemAlignExact(size, k, bits);
      AlignedLeast(size, Pow2(k));
    } else {
      MemAlignWraps(size, k, bits);
    }
  }

  // ---- one channel ------------------------------------------------------------------------------

  /** ri_channel_queue_len */
  function QueueLen(c: ChannelAttr): (n: nat) {
    MIN_MSGS + c.addMsgs
  }

  /** ri_calc_queue_size: tail, head and the chain, aligned to cache lines. */
  function QueueSize(n: nat, line: nat): (r: nat)
    requires line > 0
  {
    Aligned((n + 2) * WORD, line)
  }

  /** ri_channel_shm_size */
  function ChannelSize(c: ChannelAttr, line: nat): (r: nat)
    requires line > 0
  {
    QueueSize(QueueLen(c), line) + QueueLen(c) * Aligned(c.msgSize, line)
  }

  /** ri_queue_get_msg, from the start of the channel's region; the base is computed from add_msgs. */
  function SlotOffset(c: ChannelAttr, line: nat, i: nat): (r: nat)
    requires line > 0
  {
    QueueSize(c.addMsgs, line) + i * Aligned(c.msgSize, line)
  }

  /** The end of the index words: tail, head and one word per slot. */
  function IndexEnd(c: ChannelAttr): (r: nat) {
    (QueueLen(c) + 2) * WORD
  }

  lemma AlignedMonotone(x: nat, y: nat, a: nat)
    requires a > 0 && x <= y
    ensures Aligned(x, a) <= Aligned(y, a)
  {
    hide Aligned;
    AlignedLeast(x, a);
    AlignedBounds(y, a);
  }

  lemma Grid(i: nat, j: nat, m: nat)
    requires i < j
    ensures i * m + m <= j * m
  {
    assert j * m == i * m + (j - i) * m;
    assert (j - i) * m == m + (j - i - 1) * m;
  }

  lemma MultipleSum(x: nat, i: nat, y: nat, a: nat)
    requires a > 0 && Multiple(x, a) && Multiple(y, a)
    ensures Multiple(x + i * y, a)
  {
    var p, q := x / a, y / a;
    assert x == p * a && y == q * a;
    assert x + i * y == (p + i * q) * a;
    MultipleOf(p + i * q, a);
  }

  /**
   The size of a channel's region: whole cache lines for tail, head and one word per slot, and whole cache lines for
   each of the add_msgs + 3 slots.
   */
  lemma ChannelSizeExact(c: ChannelAttr, line: nat) returns (words: nat, slot: nat)
    requires line > 0
    ensures LeastMultiple(words, (c.addMsgs + 5) * 4, line) && LeastMultiple(slot, c.msgSize, line)
    ensures ChannelSize(c, line) == words + (c.addMsgs + 3) * slot
  {
    hide Aligned;
    words, slot := Aligned((c.addMsgs + 5) * 4, line), Aligned(c.msgSize, line);
    AlignedLeast((c.addMsgs + 5) * 4, line);
    AlignedLeast(c.msgSize, line);
  }

  /**
   The place of a slot: behind whole cache lines for add_msgs + 2 words, at a distance of whole cache lines from the
   next. Every slot starts on a cache line.
   */
  lemma SlotExact(c: ChannelAttr, line: nat, i: nat) returns (base: nat, slot: nat)
    requires line > 0
    ensures LeastMultiple(base, (c.addMsgs + 2) * 4, line) && LeastMultiple(slot, c.msgSize, line)
    ensures SlotOffset(c, line, i) == base + i * slot && Multiple(SlotOffset(c, line, i), line)
    ensures SlotOffset(c, line, i + 1) == SlotOffset(c, line, i) + slot
  {
    hide Aligned;
    base, slot := Aligned((c.addMsgs + 2) * 4, line), Aligned(c.msgSize, line);
    AlignedLeast((c.addMsgs + 2) * 4, line);
    AlignedLeast(c.msgSize, line);
    MultipleSum(base, i, slot, line);
    assert (i + 1) * slot == i * slot + slot;
  }

  /** Slots do not overlap each other and lie inside the channel's region. */
  lemma SlotsDisjoint(c: ChannelAttr, line: nat, i: nat, j: nat)
    requires line > 0 && i < j < QueueLen(c)
    ensures SlotOffset(c, line, i) + c.msgSize <= SlotOffset(c, line, j)
    ensures SlotOffset(c, line, j) + c.msgSize <= ChannelSize(c, line)
  {
    hide Aligned;
    var m := Aligned(c.msgSize, line);
    AlignedBounds(c.msgSize, line);
    Grid(i, j, m);
    Grid(j, QueueLen(c), m);
    AlignedMonotone((c.addMsgs + 2) * WORD, (QueueLen(c) + 2) * WORD, line);
  }

  /** The regions [a, a + x) and [b, b + y) have no byte in common. */
  predicate Apart(a: nat, x: nat, b: nat, y: nat) {
    a + x <= b || b + y <= a
  }

  /**
   The slots are clear of the index words exactly when aligning add_msgs + 2 words leaves room for the
   add_msgs + 5 words there are.
   */
  lemma SlotsClearIff(c: ChannelAttr, line: nat)
    requires line > 0 && c.msgSize > 0
    ensures (forall i: nat :: i < QueueLen(c) ==> Apart(0, IndexEnd(c), SlotOffset(c, line, i), c.msgSize))
       <==> (c.addMsgs + 5) * WORD <= Aligned((c.addMsgs + 2) * WORD, line)
  {
    hide Aligned;
    var base := Aligned((c.addMsgs + 2) * WORD, line);
    assert SlotOffset(c, line, 0) == base;
    if IndexEnd(c) <= base {
      forall i: nat | i < QueueLen(c)
        ensures Apart(0, IndexEnd(c), SlotOffset(c, line, i), c.msgSize)
      {
        assert i * Aligned(c.msgSize, line) >= 0;
      }
    } else {
      assert !Apart(0, IndexEnd(c), SlotOffset(c, line, 0), c.msgSize);
    }
  }

  /** With cache lines of 64 bytes they are not clear for three of every sixteen numbers of additional messages. */
  lemma ClearWith64(c: ChannelAttr)
    requires c.msgSize > 0
    ensures (forall i: nat :: i < QueueLen(c) ==> Apart(0, IndexEnd(c), SlotOffset(c, 64, i), c.msgSize))
       <==> c.addMsgs % 16 !in {12, 13, 14}
  {
    hide Apart, SlotOffset, IndexEnd;
    SlotsClearIff(c, 64);
  }

  /** With cache lines of 64 bytes and 14 additional messages, slot 0 starts on a word of the chain. */
  lemma SlotOnChain(c: ChannelAttr)
    requires c.addMsgs == 14
    ensures SlotOffset(c, 64, 0) == (2 + 14) * WORD < IndexEnd(c)
  {}

  // ---- machine arithmetic -----------------------------------------------------------------------

  const UINT_RANGE: nat := 0x1_0000_0000        // add_msgs and the queue length are unsigned

  /** ri_channel_queue_len, modulo 2^32. */
  function MachineLen(c: ChannelAttr): (n: nat) {
    (MIN_MSGS + c.addMsgs) % UINT_RANGE
  }

  /** The queue has the minimum length exactly if adding it does not wrap around. */
  lemma LengthIff(c: ChannelAttr)
    requires c.addMsgs < UINT_RANGE
    ensures MachineLen(c) >= MIN_MSGS <==> c.addMsgs + MIN_MSGS < UINT_RANGE
    ensures c.addMsgs + MIN_MSGS < UINT_RANGE ==> MachineLen(c) == QueueLen(c)
  {}

  /** ri_calc_queue_size for lines of 2^k bytes and a size_t of `bits` bits. */
  function MachineQueueSize(n: nat, k: nat, bits: nat): (r: nat)
    requires Pow2(k) <= Pow2(bits)
  {
    MemAlign((n + 2) % UINT_RANGE * WORD, Pow2(k), bits)
  }

  function Times(n: nat, size: nat): (r: nat) {
    n * size
  }

  /** ri_channel_shm_size */
  function MachineChannelSize(c: ChannelAttr, k: nat, bits: nat): (r: nat)
    requires Pow2(k) <= Pow2(bits)
  {
    Rem(MachineQueueSize(MachineLen(c), k, bits) + Times(MachineLen(c), MemAlign(c.msgSize, Pow2(k), bits)), Pow2(bits))
  }

  /** ri_queue_get_msg */
  function MachineSlot(c: ChannelAttr, k: nat, bits: nat, i: nat): (r: nat)
    requires Pow2(k) <= Pow2(bits)
  {
    Rem(MachineQueueSize(c.addMsgs, k, bits) + Times(i, MemAlign(c.msgSize, Pow2(k), bits)), Pow2(bits))
  }

  /** The channel is small enough for the machine's numbers. */
  predicate NoWrap(c: ChannelAttr, k: nat, bits: nat) {
    && c.addMsgs + 5 < UINT_RANGE
    && IndexEnd(c) + Pow2(k) <= Pow2(bits) && c.msgSize + Pow2(k) <= Pow2(bits)
    && ChannelSize(c, Pow2(k)) < Pow2(bits)
  }

  /** Then the machine computes the layout: the size of the region and the place of every slot. */
  lemma MachineLayout(c: ChannelAttr, k: nat, bits: nat)
    requires k <= bits && NoWrap(c, k, bits)
    ensures Pow2(k) <= Pow2(bits) && MachineLen(c) == QueueLen(c)
    ensures MachineChannelSize(c, k, bits) == ChannelSize(c, Pow2(k))
    ensures forall i: nat :: i < QueueLen(c) ==> MachineSlot(c, k, bits, i) == SlotOffset(c, Pow2(k), i)
  {
    hide MemAlign, Aligned, Pow2, Rem;
    Pow2Monotone(k, bits);
    MachineQueue(QueueLen(c), k, bits);
    MemAlignExact(c.msgSize, k, bits);
    SmallRem(ChannelSize(c, Pow2(k)), Pow2(bits));
    forall i: nat | i < QueueLen(c)
      ensures MachineSlot(c, k, bits, i) == SlotOffset(c, Pow2(k), i)
    {
      MachineSlotIs(c, k, bits, i);
    }
  }

  /** For larger channels, whose parts can still be aligned, it computes sizes and places modulo the range of size_t. */
  lemma MachineWraps(c: ChannelAttr, k: nat, bits: nat, i: nat)
    requires k <= bits && c.addMsgs + 5 < UINT_RANGE
    requires (c.addMsgs + 5) * 4 + Pow2(k) <= Pow2(bits) && c.msgSize + Pow2(k) <= Pow2(bits)
    ensures Pow2(k) <= Pow2(bits)
    ensures MachineChannelSize(c, k, bits) == Rem(ChannelSize(c, Pow2(k)), Pow2(bits))
    ensures MachineSlot(c, k, bits, i) == Rem(SlotOffset(c, Pow2(k), i), Pow2(bits))
  {
    hide MemAlign, Aligned, Pow2, Rem, MachineQueueSize, QueueSize;
    Pow2Monotone(k, bits);
    LengthIff(c);
    MachineQueue(QueueLen(c), k, bits);
    MachineQueue(c.addMsgs, k, bits);
    MemAlignExact(c.msgSize, k, bits);
    hide MachineLen, QueueLen;
    assert Times(MachineLen(c), MemAlign(c.msgSize, Pow2(k), bits)) == QueueLen(c) * Aligned(c.msgSize, Pow2(k));
    assert Times(i, MemAlign(c.msgSize, Pow2(k), bits)) == i * Aligned(c.msgSize, Pow2(k));
  }

  lemma MachineSlotIs(c: ChannelAttr, k: nat, bits: nat, i: nat)
    requires k <= bits && NoWrap(c, k, bits) && i < QueueLen(c)
    ensures Pow2(k) <= Pow2(bits) && MachineSlot(c, k, bits, i) == SlotOffset(c, Pow2(k), i)
  {
    hide MemAlign, Aligned, Pow2, ChannelSize, Rem;
    Pow2Monotone(k, bits);
    MachineQueue(c.addMsgs, k, bits);
    MemAlignExact(c.msgSize, k, bits);
    SlotBelow(c, Pow2(k), i);
    SmallRem(SlotOffset(c, Pow2(k), i), Pow2(bits));
  }

  lemma MachineQueue(n: nat, k: nat, bits: nat)
    requires k <= bits && n + 2 < UINT_RANGE && (n + 2) * WORD + Pow2(k) <= Pow2(bits)
    ensures Pow2(k) <= Pow2(bits) && MachineQueueSize(n, k, bits) == QueueSize(n, Pow2(k))
  {
    hide MemAlign, Aligned, Pow2;
    MemAlignExact((n + 2) * WORD, k, bits);
  }

  lemma SlotBelow(c: ChannelAttr, line: nat, i: nat)
    requires line > 0 && i < QueueLen(c)
    ensures SlotOffset(c, line, i) <= ChannelSize(c, line)
  {
    hide Aligned;
    Grid(i, QueueLen(c), Aligned(c.msgSize, line));
    AlignedMonotone((c.addMsgs + 2) * WORD, (QueueLen(c) + 2) * WORD, line);
  }
}
