/** The 128-bit address of the IPv6 router and its prefix mask. */
module Address128 {
  import opened Arith

  const WORD: nat := 0x1_0000_0000_0000_0000

  type Word = w: nat | w < WORD witness 0

  /** `lo` and `hi` are the two words `u64[0]` and `u64[1]`. */
  datatype U128 = U128(lo: Word, hi: Word)

  function Value(a: U128): nat {
    a.hi * WORD + a.lo
  }

  /** The address with every bit after the first `len` cleared, word by word. */
  function Mask(a: U128, len: nat): U128
    requires len <= 128
  {
    var shift := 128 - len;
    if shift < 64 then U128(Trunc(a.lo, shift), a.hi)
    else if shift < 128 then U128(0, Trunc(a.hi, shift - 64))
    else U128(0, 0)
  }

  /** The two-word mask is the truncation of the 128-bit number. */
  lemma MaskIsTruncation(a: U128, len: nat)
    requires len <= 128
    ensures Value(Mask(a, len)) == Trunc(Value(a), 128 - len)
  {
    hide Pow2, Trunc;
    var shift := 128 - len;
    Pow2Values();
    TruncIsShifts(Value(a), shift);
    if shift < 64 {
      TruncIsShifts(a.lo, shift);
      Pow2Add(64 - shift, shift);
      TruncLow(a.hi, a.lo, Pow2(64 - shift), Pow2(shift));
    } else {
      TruncIsShifts(a.hi, shift - 64);
      Pow2Add(64, shift - 64);
      TruncHigh(a.hi, a.lo, WORD, Pow2(shift - 64));
      if shift == 128 {
        QuotientIs(a.hi, Pow2(64), 0);
      }
    }
  }

  lemma MaskMask(a: U128, m: nat, n: nat)
    requires m <= 128 && n <= 128
    ensures Mask(Mask(a, m), n) == Mask(a, if m < n then m else n)
  {
    hide Trunc;
    var s, t := 128 - m, 128 - n;
    if s < 64 && t < 64 {
      TruncTrunc(a.lo, s, t);
    } else if 64 <= s < 128 && 64 <= t < 128 {
      TruncTrunc(a.hi, s - 64, t - 64);
    } else if t < 64 {
      TruncZero(t);
    } else if t < 128 {
      TruncZero(t - 64);
    }
  }

  lemma TruncZero(s: nat)
    ensures Trunc(0, s) == 0
  {
    QuotientIs(0, Pow2(s), 0);
  }
}
