/**
 The index words of the queue: the plain index used in the chain and by both sides, and the tail word
 that packs an index together with the CONSUMED and FIRST flags.

 The protocol is modelled on the unpacked tail word; the lemmas here show that every operation the
 program performs on the packed 32-bit word does the same thing to the unpacked one, for every index
 below the index mask.
 */
module Index {
  import Bits

  /** RI_INDEX_INVALID: all 32 bits set. */
  const INVALID: nat := 0xFFFF_FFFF

  /** RI_INDEX_MASK: the low 30 bits. A queue must be shorter than this for its indices to be told apart. */
  const INDEX_MASK: nat := 0x3FFF_FFFF

  /** An unpacked tail word: RI_INDEX_INVALID, or an index with its two flags. */
  datatype TailWord = Empty | Tail(idx: nat, consumed: bool, first: bool) {

    /** word & RI_INDEX_MASK */
    function Masked(): (i: nat) {
      if Empty? then INDEX_MASK else idx
    }

    /** word & RI_CONSUMED_FLAG */
    predicate IsConsumed() {
      Empty? || consumed
    }

    /** word & RI_FIRST_FLAG */
    predicate IsFirst() {
      Empty? || first
    }

    /** word | RI_CONSUMED_FLAG */
    function Consume(): (w: TailWord) {
      if Empty? then this else this.(consumed := true)
    }

    /** The 32-bit word itself, flags included. */
    function Packed(): (i: nat) {
      if Empty? then INVALID
      else idx + (if first then FIRST_FLAG else 0) + (if consumed then CONSUMED_FLAG else 0)
    }
  }

  /** An index as the producer stores it when it moves the tail: no flag set. */
  function Plain(i: nat): (w: TailWord) {
    if i == INVALID then Empty else Tail(i, false, false)
  }

  const CONSUMED_FLAG: nat := 0x8000_0000
  const FIRST_FLAG: nat := 0x4000_0000

  /** The words the protocol can hold: RI_INDEX_INVALID, or flags over an index below the mask. */
  predicate Proper(w: TailWord) {
    w.Tail? ==> w.idx < INDEX_MASK
  }

  lemma FlagBits()
    ensures Bits.Pow2(30) == FIRST_FLAG && Bits.Pow2(31) == CONSUMED_FLAG && Bits.Pow2(32) == INVALID + 1
  {
    assert Bits.Pow2(8) == 0x100;
    assert Bits.Pow2(16) == 0x1_0000;
    assert Bits.Pow2(24) == 0x100_0000;
  }

  predicate BitSet(p: nat, flag: nat)
    requires flag > 0
  {
    (p / flag) % 2 == 1
  }

  function Low(p: nat): (r: nat) {
    p % (INDEX_MASK + 1)
  }

  lemma FlagArithmetic(w: TailWord)
    requires Proper(w)
    ensures BitSet(w.Packed(), CONSUMED_FLAG) <==> w.IsConsumed()
    ensures BitSet(w.Packed(), FIRST_FLAG) <==> w.IsFirst()
    ensures Low(w.Packed()) == w.Masked()
  {}

  /** What the flag and mask operations compute on any 32-bit word. */
  lemma WordOperations(p: nat, bits: nat)
    requires bits == 32 && p <= INVALID
    ensures Bits.Or(p, CONSUMED_FLAG, bits) == if BitSet(p, CONSUMED_FLAG) then p else p + CONSUMED_FLAG
    ensures Bits.And(p, CONSUMED_FLAG, bits) == if BitSet(p, CONSUMED_FLAG) then CONSUMED_FLAG else 0
    ensures Bits.And(p, FIRST_FLAG, bits) == if BitSet(p, FIRST_FLAG) then FIRST_FLAG else 0
    ensures Bits.And(p, INDEX_MASK, bits) == Low(p)
  {
    FlagBits();
    Bits.OrBit(p, bits - 1, bits);
    Bits.AndBit(p, bits - 1, bits);
    Bits.AndBit(p, bits - 2, bits);
    Bits.AndLowMask(p, bits - 2, bits);
  }

  /** Setting RI_CONSUMED_FLAG, testing each flag and masking out the index, bit by bit on the packed word. */
  lemma PackedOperations(w: TailWord, bits: nat)
    requires Proper(w) && bits == 32
    ensures Bits.Or(w.Packed(), CONSUMED_FLAG, bits) == w.Consume().Packed()
    ensures (Bits.And(w.Packed(), CONSUMED_FLAG, bits) != 0) == w.IsConsumed()
    ensures (Bits.And(w.Packed(), FIRST_FLAG, bits) != 0) == w.IsFirst()
    ensures Bits.And(w.Packed(), INDEX_MASK, bits) == w.Masked()
  {
    hide Bits.And, Bits.Or, BitSet, Low;
    WordOperations(w.Packed(), bits);
    FlagArithmetic(w);
  }

  /** Two words are equal exactly when their unpacked forms are: compare-exchange may compare either. */
  lemma PackedEquality(v: TailWord, w: TailWord)
    requires Proper(v) && Proper(w)
    ensures v.Packed() == w.Packed() <==> v == w
  {}

  /** The unmasked validity check accepts exactly the valid indices that carry no flag. */
  lemma PackedValidity(w: TailWord, n: nat)
    requires Proper(w) && n <= INDEX_MASK
    ensures w.Packed() < n <==> w.Tail? && !w.consumed && !w.first && w.idx < n
    ensures w.Masked() < n <==> w.Tail? && w.idx < n
  {}
}
