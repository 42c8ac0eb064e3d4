/** The cipher of FIPS 197 for 128-bit keys, in the standard's own terms: a state of four rows and
    four columns of bytes, the byte in row r and column c at position r + 4c (section 3.4). The
    substitution box is a parameter. */
module Fips197 {

  type Sbox = bv8 -> bv8
  type State = s: seq<bv8> | |s| == 16 witness seq(16, _ => 0)
  type Word = w: seq<bv8> | |w| == 4 witness [0, 0, 0, 0]

  // ---------- GF(2^8) (section 4.2) ----------

  /** Addition is exclusive or. */
  function Add(a: bv8, b: bv8): bv8 { a ^ b }

  /** Multiplication by x, reduced by 0x1b when the top bit falls out. */
  function XTime(b: bv8): bv8 {
    if b & 0x80 != 0 then (b << 1) ^ 0x1b else b << 1
  }

  /** Multiplication: the multiples of `b` by x for the bits set in `a`, added up. */
  function Times(a: bv8, b: bv8): bv8
    decreases a
  {
    if a == 0 then 0 else Add(if a & 1 != 0 then b else 0, Times(a >> 1, XTime(b)))
  }

  /** x to the power `n`. */
  function XPower(n: nat): bv8 {
    if n == 0 then 1 else XTime(XPower(n - 1))
  }

  // ---------- the transformations of the state (section 5.1) ----------

  function At(s: State, r: nat, c: nat): bv8 {
    s[r % 4 + 4 * (c % 4)]
  }

  function SubBytes(sbox: Sbox, s: State): State {
    seq(16, i requires 0 <= i < 16 => sbox(s[i]))
  }

  function ShiftRows(s: State): State {
    seq(16, i requires 0 <= i < 16 => At(s, i % 4, i / 4 + i % 4))
  }

  function MixedByte(s: State, r: nat, c: nat): bv8 {
    Add(Add(Add(Times(2, At(s, r, c)), Times(3, At(s, r + 1, c))), At(s, r + 2, c)), At(s, r + 3, c))
  }

  function MixColumns(s: State): State {
    seq(16, i requires 0 <= i < 16 => MixedByte(s, i % 4, i / 4))
  }

  function AddRoundKey(s: State, k: State): State {
    seq(16, i requires 0 <= i < 16 => Add(s[i], k[i]))
  }

  // ---------- key expansion (section 5.2) ----------

  function RotWord(w: Word): Word {
    [w[1], w[2], w[3], w[0]]
  }

  function SubWord(sbox: Sbox, w: Word): Word {
    [sbox(w[0]), sbox(w[1]), sbox(w[2]), sbox(w[3])]
  }

  function XorWord(v: Word, w: Word): Word {
    [Add(v[0], w[0]), Add(v[1], w[1]), Add(v[2], w[2]), Add(v[3], w[3])]
  }

  function Rcon(i: nat): Word
    requires i > 0
  {
    [XPower(i - 1), 0, 0, 0]
  }

  /** Word `i` of the expanded key. */
  function KeyWord(sbox: Sbox, key: State, i: nat): Word {
    if i < 4 then key[4 * i..4 * i + 4]
    else XorWord(KeyWord(sbox, key, i - 4), KeyTemp(sbox, KeyWord(sbox, key, i - 1), i))
  }

  function KeyTemp(sbox: Sbox, w: Word, i: nat): Word
    requires i > 0
  {
    if i % 4 == 0 then XorWord(SubWord(sbox, RotWord(w)), Rcon(i / 4)) else w
  }

  function RoundKey(sbox: Sbox, key: State, n: nat): State {
    KeyWord(sbox, key, 4 * n) + KeyWord(sbox, key, 4 * n + 1) + KeyWord(sbox, key, 4 * n + 2) +
      KeyWord(sbox, key, 4 * n + 3)
  }

  /** The bytes of the expanded key: every fourth word takes the substituted bytes of the word before
      it, each from one place further, and the power of x in its first byte; the others take the
      bytes of the word before them as they are. */
  lemma KeyBytes(sbox: Sbox, key: State, i: nat)
    requires i >= 4
    ensures var v, w, r := KeyWord(sbox, key, i - 4), KeyWord(sbox, key, i - 1), KeyWord(sbox, key, i);
            if i % 4 == 0 then
              && r[0] == Add(v[0], Add(sbox(w[1]), XPower(i / 4 - 1)))
              && r[1] == Add(v[1], sbox(w[2])) && r[2] == Add(v[2], sbox(w[3])) && r[3] == Add(v[3], sbox(w[0]))
            else
              forall k :: 0 <= k < 4 ==> r[k] == Add(v[k], w[k])
  {
    hide XPower, Add;
    AddZero();
  }

  lemma AddZero()
    ensures forall a: bv8 :: Add(a, 0) == a
  {
  }

  /** Row r is rotated by r bytes: the columns are filled along the diagonals. */
  lemma ShiftedRows(s: State)
    ensures ShiftRows(s) == [s[0], s[5], s[10], s[15], s[4], s[9], s[14], s[3],
                             s[8], s[13], s[2], s[7], s[12], s[1], s[6], s[11]]
  {
  }

  // ---------- the cipher (section 5.1) ----------

  /** The state after `n` of the rounds that mix columns. */
  function Rounds(sbox: Sbox, block: State, key: State, n: nat): State {
    if n == 0 then AddRoundKey(block, RoundKey(sbox, key, 0))
    else AddRoundKey(MixColumns(ShiftRows(SubBytes(sbox, Rounds(sbox, block, key, n - 1)))), RoundKey(sbox, key, n))
  }

  function Cipher(sbox: Sbox, block: State, key: State): State {
    AddRoundKey(ShiftRows(SubBytes(sbox, Rounds(sbox, block, key, 9))), RoundKey(sbox, key, 10))
  }
}
