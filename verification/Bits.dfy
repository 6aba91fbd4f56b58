/**
 Bitwise operations on unsigned words, bit by bit, and what the masks of the program compute with them.
 */
module Bits {

  function Pow2(k: nat): (p: nat)
    ensures p > 0
  {
    if k == 0 then 1 else 2 * Pow2(k - 1)
  }

  /** x & y over the low `width` bits. */
  function And(x: nat, y: nat, width: nat): (r: nat) {
    if width == 0 then 0
    else 2 * And(x / 2, y / 2, width - 1) + (if x % 2 == 1 && y % 2 == 1 then 1 else 0)
  }

  /** x | y over the low `width` bits. */
  function Or(x: nat, y: nat, width: nat): (r: nat) {
    if width == 0 then 0
    else 2 * Or(x / 2, y / 2, width - 1) + (if x % 2 == 1 || y % 2 == 1 then 1 else 0)
  }

  /** ~x in a word of `width` bits. */
  function Not(x: nat, width: nat): (r: nat)
    requires x < Pow2(width)
  {
    Pow2(width) - 1 - x
  }

  /** Peeling off the lowest bit of a remainder. */
  lemma ModDouble(x: nat, m: nat)
    requires m > 0
    ensures x % (2 * m) == 2 * ((x / 2) % m) + x % 2
    ensures x / (2 * m) == (x / 2) / m
  {
    var h := x / 2;
    var q, r := h / m, h % m;
    assert h == q * m + r;
    assert x == (2 * m) * q + (2 * r + x % 2) by {
      assert x == 2 * h + x % 2;
      assert 2 * (q * m) == (2 * m) * q;
    }
    DivModUnique(x, 2 * m, q, 2 * r + x % 2);
  }

  /** A non-zero multiple of d is at least d away from zero. */
  lemma {:induction false} LargeMultiple(d: nat, k: int)
    requires k != 0
    ensures d * k >= d || d * k <= 0 - d
    decreases if k > 0 then k else 0 - k
  {
    if k > 1 {
      LargeMultiple(d, k - 1);
      assert d * k == d * (k - 1) + d;
    } else if k < -1 {
      LargeMultiple(d, k + 1);
      assert d * k == d * (k + 1) - d;
    }
  }

  lemma DivModUnique(x: nat, d: nat, q: nat, r: nat)
    requires d > 0 && r < d && x == d * q + r
    ensures x / d == q && x % d == r
  {
    var q', r' := x / d, x % d;
    assert x == d * q' + r';
    assert d * (q - q') == d * q - d * q';
    if q != q' {
      LargeMultiple(d, q - q');
      assert false;
    }
  }

  /** One bit of a mask operation. */
  lemma AndStep(x: nat, y: nat, width: nat)
    requires width > 0
    ensures And(x, y, width) == 2 * And(x / 2, y / 2, width - 1) + (if x % 2 == 1 && y % 2 == 1 then 1 else 0)
  {}

  lemma Pow2Step(k: nat)
    requires k > 0
    ensures Pow2(k) == 2 * Pow2(k - 1)
  {}

  /** x modulo d, where the arithmetic of the remainder does not matter. */
  function Rem(x: nat, d: nat): (r: nat)
    requires d > 0
  {
    x % d
  }

  lemma RemDouble(x: nat, d: nat)
    requires d > 0
    ensures Rem(x, 2 * d) == 2 * Rem(x / 2, d) + x % 2
  {
    ModDouble(x, d);
  }

  lemma RemOne(x: nat)
    ensures Rem(x, 1) == 0
  {}

  lemma {:induction false} AndLow(x: nat, k: nat, width: nat)
    requires k <= width
    ensures And(x, Pow2(k) - 1, width) == Rem(x, Pow2(k))
  {
    hide And, Pow2, Rem;
    if k == 0 {
      One();
      AndZero(x, width);
      RemOne(x);
    } else {
      AndLow(x / 2, k - 1, width - 1);
      var p := Pow2(k - 1);
      Pow2Step(k);
      AndStep(x, Pow2(k) - 1, width);
      MaskHalf(p);
      RemDouble(x, p);
    }
  }

  /** Masking with 2^k - 1 takes the remainder by 2^k. */
  lemma AndLowMask(x: nat, k: nat, width: nat)
    requires k <= width
    ensures And(x, Pow2(k) - 1, width) == x % Pow2(k)
  {
    hide And, Pow2;
    AndLow(x, k, width);
  }

  lemma MaskHalf(p: nat)
    requires p > 0
    ensures (2 * p - 1) / 2 == p - 1 && (2 * p - 1) % 2 == 1
  {}

  lemma {:induction false} AndZero(x: nat, width: nat)
    ensures And(x, 0, width) == 0
  {
    if width > 0 {
      AndZero(x / 2, width - 1);
    }
  }

  lemma {:induction false} AndHigh(x: nat, k: nat, width: nat)
    requires k <= width && x < Pow2(width)
    ensures Pow2(k) <= Pow2(width)
    ensures And(x, Pow2(width) - Pow2(k), width) == x - Rem(x, Pow2(k))
  {
    hide And, Pow2, Rem;
    Pow2Monotone(k, width);
    One();
    if width == 0 {
      AndZero(x, 0);
      RemOne(0);
    } else {
      var w := Pow2(width - 1);
      Pow2Step(width);
      AndStep(x, Pow2(width) - Pow2(k), width);
      if k == 0 {
        AndHigh(x / 2, 0, width - 1);
        MaskHalf(w);
        RemOne(x);
        RemOne(x / 2);
      } else {
        AndHigh(x / 2, k - 1, width - 1);
        Pow2Step(k);
        EvenHalf(w - Pow2(k - 1));
        RemDouble(x, Pow2(k - 1));
      }
    }
  }

  /** Masking with ~(2^k - 1) rounds down to a multiple of 2^k. */
  lemma AndHighMask(x: nat, k: nat, width: nat)
    requires k <= width && x < Pow2(width)
    ensures Pow2(k) <= Pow2(width)
    ensures And(x, Not(Pow2(k) - 1, width), width) == x - x % Pow2(k)
  {
    hide And, Pow2;
    AndHigh(x, k, width);
  }

  lemma One()
    ensures Pow2(0) == 1
  {}

  lemma EvenHalf(d: nat)
    ensures (2 * d) / 2 == d && (2 * d) % 2 == 0
  {}

  lemma {:induction false} Pow2Monotone(a: nat, b: nat)
    requires a <= b
    ensures Pow2(a) <= Pow2(b)
  {
    if a < b {
      Pow2Monotone(a, b - 1);
    }
  }

  /** Testing bit k. */
  lemma {:induction false} AndBit(x: nat, k: nat, width: nat)
    requires k < width
    ensures And(x, Pow2(k), width) == if (x / Pow2(k)) % 2 == 1 then Pow2(k) else 0
  {
    if k == 0 {
      AndZero(x / 2, width - 1);
    } else {
      AndBit(x / 2, k - 1, width - 1);
      ModDouble(x, Pow2(k - 1));
      assert Pow2(k) / 2 == Pow2(k - 1);
    }
  }

  /** Setting bit k. */
  lemma {:induction false} OrBit(x: nat, k: nat, width: nat)
    requires k < width && x < Pow2(width)
    ensures Or(x, Pow2(k), width) == if (x / Pow2(k)) % 2 == 1 then x else x + Pow2(k)
  {
    if k == 0 {
      OrZero(x / 2, width - 1);
    } else {
      OrBit(x / 2, k - 1, width - 1);
      ModDouble(x, Pow2(k - 1));
      assert Pow2(k) / 2 == Pow2(k - 1);
    }
  }

  lemma {:induction false} OrZero(x: nat, width: nat)
    requires x < Pow2(width)
    ensures Or(x, 0, width) == x
  {
    if width > 0 {
      OrZero(x / 2, width - 1);
    }
  }
}
