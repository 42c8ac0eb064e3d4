/** Machine words as numbers: single bits, bitwise operations, and the masks of the bitmap. */
module Words {
  import opened Arith

  const BITS: nat := 64

  type Word = w: nat | w < 0x1_0000_0000_0000_0000

  /** Bit `j` of `w`, from the lowest. */
  predicate Bit(w: nat, j: nat) {
    if j == 0 then w % 2 == 1 else Bit(w / 2, j - 1)
  }

  /** Bit `i` of a word, from the highest. */
  predicate At(w: Word, i: nat)
    requires i < BITS
  {
    Bit(w, BITS - 1 - i)
  }

  /** A bitwise operation on the last `n` bits: `op` tells the result bit for two bits. */
  function Bitwise(op: (bool, bool) -> bool, a: nat, b: nat, n: nat): (r: nat)
    ensures r < Pow2(n)
  {
    if n == 0 then 0 else (if op(a % 2 == 1, b % 2 == 1) then 1 else 0) + 2 * Bitwise(op, a / 2, b / 2, n - 1)
  }

  lemma {:induction false} BitwiseBit(op: (bool, bool) -> bool, a: nat, b: nat, n: nat, j: nat)
    requires j < n
    ensures Bit(Bitwise(op, a, b, n), j) <==> op(Bit(a, j), Bit(b, j))
  {
    var r, low := Bitwise(op, a, b, n), if op(a % 2 == 1, b % 2 == 1) then 1 else 0;
    LowAndHigh(low, Bitwise(op, a / 2, b / 2, n - 1));
    if j > 0 {
      BitwiseBit(op, a / 2, b / 2, n - 1, j - 1);
    }
  }

  lemma LowAndHigh(low: nat, high: nat)
    requires low < 2
    ensures (low + 2 * high) / 2 == high && (low + 2 * high) % 2 == low
  {
  }

  /** Zero has no bits; any other number has one. */
  lemma {:induction false} ZeroBits(j: nat)
    ensures !Bit(0, j)
  {
    if j > 0 {
      ZeroBits(j - 1);
    }
  }

  lemma {:induction false} SomeBit(w: nat, n: nat) returns (j: nat)
    requires 0 < w < Pow2(n)
    ensures j < n && Bit(w, j)
  {
    j := 0;
    if w % 2 == 0 {
      j := SomeBit(w / 2, n - 1);
      j := j + 1;
    }
  }

  lemma WordRange(w: nat)
    ensures w < Pow2(BITS) <==> w < 0x1_0000_0000_0000_0000
  {
    Pow2Values();
  }

  function And(a: Word, b: Word): Word {
    WordRange(Bitwise((x, y) => x && y, a, b, BITS));
    Bitwise((x, y) => x && y, a, b, BITS)
  }

  function Or(a: Word, b: Word): Word {
    WordRange(Bitwise((x, y) => x || y, a, b, BITS));
    Bitwise((x, y) => x || y, a, b, BITS)
  }

  function Not(a: Word): Word {
    0xFFFF_FFFF_FFFF_FFFF - a
  }

  lemma AndAt(a: Word, b: Word, i: nat)
    requires i < BITS
    ensures At(And(a, b), i) <==> At(a, i) && At(b, i)
  {
    BitwiseBit((x, y) => x && y, a, b, BITS, BITS - 1 - i);
  }

  lemma OrAt(a: Word, b: Word, i: nat)
    requires i < BITS
    ensures At(Or(a, b), i) <==> At(a, i) || At(b, i)
  {
    BitwiseBit((x, y) => x || y, a, b, BITS, BITS - 1 - i);
  }

  /** The complement within `n` bits. */
  lemma {:induction false} ComplementBit(a: nat, n: nat, j: nat)
    requires a < Pow2(n) && j < n
    ensures Bit(Pow2(n) - 1 - a, j) <==> !Bit(a, j)
  {
    var c := Pow2(n) - 1 - a;
    assert c % 2 == 1 - a % 2 && c / 2 == Pow2(n - 1) - 1 - a / 2;
    if j > 0 {
      ComplementBit(a / 2, n - 1, j - 1);
    }
  }

  lemma NotAt(a: Word, i: nat)
    requires i < BITS
    ensures At(Not(a), i) <==> !At(a, i)
  {
    Pow2Values();
    ComplementBit(a, BITS, BITS - 1 - i);
  }

  /** Two words meet in a bit if and only if their conjunction is not zero. */
  lemma AndMeets(a: Word, b: Word)
    ensures And(a, b) != 0 <==> exists i :: 0 <= i < BITS && At(a, i) && At(b, i)
  {
    hide And;
    if And(a, b) != 0 {
      Pow2Values();
      var j := SomeBit(And(a, b), BITS);
      AndAt(a, b, BITS - 1 - j);
      assert At(a, BITS - 1 - j);
    }
    if i :| 0 <= i < BITS && At(a, i) && At(b, i) {
      AndAt(a, b, i);
      ZeroBits(BITS - 1 - i);
    }
  }

  /** `mark_bit`: the highest bit shifted down. */
  function MarkBit(i: nat): Word
    requires i < BITS
  {
    Mark(i);
    Pow2(BITS - 1) / Pow2(i)
  }

  lemma Mark(i: nat)
    requires i < BITS
    ensures Pow2(BITS - 1) / Pow2(i) == Pow2(BITS - 1 - i) < 0x1_0000_0000_0000_0000
  {
    Pow2Add(BITS - 1 - i, i);
    DivMul(Pow2(BITS - 1 - i), Pow2(i));
    Pow2Monotone(BITS - 1 - i, BITS);
    Pow2Values();
  }

  lemma Pow2Monotone(m: nat, n: nat)
    ensures m <= n ==> Pow2(m) <= Pow2(n)
    ensures m < n ==> Pow2(m) < Pow2(n)
  {
    if m <= n {
      Pow2Add(m, n - m);
      MulMono(1, Pow2(n - m), Pow2(m));
    }
    if m < n {
      MulMono(2, Pow2(n - m), Pow2(m));
    }
  }

  lemma {:induction false} Pow2Bit(e: nat, j: nat)
    ensures Bit(Pow2(e), j) <==> j == e
  {
    if e == 0 && j > 0 {
      ZeroBits(j - 1);
    } else if e > 0 && j > 0 {
      Pow2Bit(e - 1, j - 1);
    }
  }

  lemma MarkBitAt(i: nat, k: nat)
    requires i < BITS && k < BITS
    ensures At(MarkBit(i), k) <==> k == i
  {
    Mark(i);
    Pow2Bit(BITS - 1 - i, BITS - 1 - k);
  }

  /** `fill_low_bit`: all ones shifted down; the second operand of the source makes it zero for no bits. */
  function FillLow(count: nat): Word
    requires count <= BITS
  {
    LowOnes(count);
    if count == 0 then 0 else 0xFFFF_FFFF_FFFF_FFFF / Pow2(BITS - count)
  }

  lemma LowOnes(count: nat)
    requires count <= BITS
    ensures 0xFFFF_FFFF_FFFF_FFFF / Pow2(BITS - count) == Pow2(count) - 1 < 0x1_0000_0000_0000_0000
  {
    var d := Pow2(BITS - count);
    Pow2Add(count, BITS - count);
    Pow2Values();
    Pow2Monotone(count, BITS);
    hide Pow2;
    OnesQuotient(Pow2(count), d);
  }

  lemma OnesQuotient(c: nat, d: nat)
    requires c > 0 && d > 0
    ensures (c * d - 1) / d == c - 1
  {
    assert (c - 1) * d == c * d - d;
    QuotientIs(c * d - 1, d, c - 1);
  }

  lemma {:induction false} OnesBit(c: nat, j: nat)
    ensures Bit(Pow2(c) - 1, j) <==> j < c
  {
    if c == 0 {
      ZeroBits(j);
    } else if j > 0 {
      assert (Pow2(c) - 1) / 2 == Pow2(c - 1) - 1;
      OnesBit(c - 1, j - 1);
    }
  }

  lemma FillLowAt(count: nat, k: nat)
    requires count <= BITS && k < BITS
    ensures At(FillLow(count), k) <==> k >= BITS - count
  {
    LowOnes(count);
    OnesBit(count, BITS - 1 - k);
  }

  /** `fill_high_bit`: all ones shifted up, cut to a word. */
  function FillHigh(count: nat): Word
    requires count <= BITS
  {
    if count == 0 then 0 else 0xFFFF_FFFF_FFFF_FFFF * Pow2(BITS - count) % 0x1_0000_0000_0000_0000
  }

  lemma HighOnes(count: nat)
    requires count <= BITS
    ensures FillHigh(count) == Not(if count == 0 then 0xFFFF_FFFF_FFFF_FFFF else FillLow(BITS - count))
  {
    if count > 0 {
      var d, m := Pow2(BITS - count), 0x1_0000_0000_0000_0000;
      LowOnes(BITS - count);
      Pow2Monotone(BITS - count, BITS);
      Pow2Values();
      assert 0xFFFF_FFFF_FFFF_FFFF * d == (d - 1) * m + (m - d);
      RemainderIs(0xFFFF_FFFF_FFFF_FFFF * d, m, d - 1, m - d);
    }
  }

  lemma RemainderIs(x: int, m: nat, q: int, r: int)
    requires 0 <= r < m && x == q * m + r
    ensures x % m == r
  {
    QuotientIs(x, m, q);
  }

  lemma FillHighAt(count: nat, k: nat)
    requires count <= BITS && k < BITS
    ensures At(FillHigh(count), k) <==> k < count
  {
    HighOnes(count);
    NotAt(if count == 0 then 0xFFFF_FFFF_FFFF_FFFF else FillLow(BITS - count), k);
    if count == 0 {
      Pow2Values();
      OnesBit(BITS, BITS - 1 - k);
    } else {
      FillLowAt(BITS - count, k);
    }
  }
}
