/** AES-128 with the round keys computed on the fly, forwards while encrypting and backwards while
    decrypting, over lookup tables. Tables of 256 entries are functions of a byte. */
module Aes {

  import opened F = Fips197

  type Table = bv8 -> bv32

  datatype Tables = Tables(te0: Table, te1: Table, te2: Table, te3: Table,
                           td0: Table, td1: Table, td2: Table, td3: Table, td4: Sbox)

  /** The four words of a state or of a round key. */
  datatype Quad = Quad(w0: bv32, w1: bv32, w2: bv32, w3: bv32)

  // ---------- bytes of a word ----------

  function Byte3(w: bv32): bv8 { ((w >> 24) & 0xff) as bv8 }
  function Byte2(w: bv32): bv8 { ((w >> 16) & 0xff) as bv8 }
  function Byte1(w: bv32): bv8 { ((w >> 8) & 0xff) as bv8 }
  function Byte0(w: bv32): bv8 { (w & 0xff) as bv8 }

  function Pack(a: bv8, b: bv8, c: bv8, d: bv8): bv32 {
    ((a as bv32) << 24) ^ ((b as bv32) << 16) ^ ((c as bv32) << 8) ^ (d as bv32)
  }

  lemma PackBytes(a: bv8, b: bv8, c: bv8, d: bv8)
    ensures var w := Pack(a, b, c, d);
            Byte3(w) == a && Byte2(w) == b && Byte1(w) == c && Byte0(w) == d
  {
  }

  lemma BytesPack(w: bv32)
    ensures Pack(Byte3(w), Byte2(w), Byte1(w), Byte0(w)) == w
  {
  }

  /** Exclusive or of words, named so that proofs can treat it like the addition of bytes: as an
      abstract commutative operation. */
  function Xor(v: bv32, w: bv32): bv32 { v ^ w }

  lemma AddGroups(a: bv8, b: bv8, c: bv8)
    ensures Add(a, b) == Add(b, a) && Add(Add(a, b), c) == Add(a, Add(b, c))
  {
  }

  lemma Exchange(a: bv8, b: bv8, c: bv8, d: bv8)
    ensures Add(Add(a, b), Add(c, d)) == Add(Add(a, c), Add(b, d))
  {
    hide Add;
    AddGroups(a, b, Add(c, d));
    AddGroups(b, c, d);
    AddGroups(c, b, d);
    AddGroups(a, c, Add(b, d));
  }

  lemma AddZero(a: bv8)
    ensures Add(a, 0) == a && Add(0, a) == a
  {
  }

  lemma XorGroups(v: bv32, w: bv32, x: bv32)
    ensures Xor(v, w) == Xor(w, v) && Xor(Xor(v, w), x) == Xor(v, Xor(w, x))
  {
  }

  lemma XorCancels(v: bv32, w: bv32)
    ensures Xor(Xor(v, w), w) == v && Xor(w, Xor(w, v)) == v && Xor(w, Xor(v, w)) == v
  {
  }

  lemma RawXorBytes(v: bv32, w: bv32)
    ensures Byte3(v ^ w) == Byte3(v) ^ Byte3(w) && Byte2(v ^ w) == Byte2(v) ^ Byte2(w)
    ensures Byte1(v ^ w) == Byte1(v) ^ Byte1(w) && Byte0(v ^ w) == Byte0(v) ^ Byte0(w)
  {
  }

  lemma XorBytes(v: bv32, w: bv32)
    ensures Byte3(Xor(v, w)) == Add(Byte3(v), Byte3(w)) && Byte2(Xor(v, w)) == Add(Byte2(v), Byte2(w))
    ensures Byte1(Xor(v, w)) == Add(Byte1(v), Byte1(w)) && Byte0(Xor(v, w)) == Add(Byte0(v), Byte0(w))
  {
    hide Byte0, Byte1, Byte2, Byte3;
    RawXorBytes(v, w);
  }

  lemma XorPack(a: bv8, b: bv8, c: bv8, d: bv8, e: bv8, f: bv8, g: bv8, h: bv8)
    ensures Xor(Pack(a, b, c, d), Pack(e, f, g, h)) == Pack(Add(a, e), Add(b, f), Add(c, g), Add(d, h))
  {
  }

  /** The word a little-endian load reads, and the byte swap of `GETU32` after it. */
  function Load(b0: bv8, b1: bv8, b2: bv8, b3: bv8): bv32 {
    Pack(b3, b2, b1, b0)
  }

  function Swap(i: bv32): bv32 {
    ((i & 0x000000ff) << 24) ^ ((i & 0x0000ff00) << 8) ^ ((i & 0x00ff0000) >> 8) ^ ((i & 0xff000000) >> 24)
  }

  /** The word `PUTU32` stores. */
  function Unswap(st: bv32): bv32 {
    (st >> 24) ^ (((st << 8) >> 24) << 8) ^ (((st << 16) >> 24) << 16) ^ (st << 24)
  }

  lemma SwapLoads(b0: bv8, b1: bv8, b2: bv8, b3: bv8)
    ensures Swap(Load(b0, b1, b2, b3)) == Pack(b0, b1, b2, b3)
  {
  }

  lemma UnswapStores(w: bv32)
    ensures Unswap(w) == Load(Byte3(w), Byte2(w), Byte1(w), Byte0(w))
    ensures Swap(Unswap(w)) == w
  {
  }

  // ---------- the column arithmetic over GF(2^8) ----------

  function X2(b: bv8): bv8 {
    var carry := b >> 7;
    (b << 1) ^ (carry << 4) ^ (carry << 3) ^ (carry << 1) ^ carry
  }

  /** The shifts of the code double as FIPS 197 does (section 4.2.1). */
  lemma X2Reduces(b: bv8)
    ensures X2(b) == F.XTime(b)
  {
  }

  function X3(b: bv8): bv8 { Add(X2(b), b) }
  function X4(b: bv8): bv8 { X2(X2(b)) }
  function X8(b: bv8): bv8 { X2(X4(b)) }
  function X9(b: bv8): bv8 { Add(X8(b), b) }
  function X11(b: bv8): bv8 { Add(Add(X8(b), X2(b)), b) }
  function X13(b: bv8): bv8 { Add(Add(X8(b), X4(b)), b) }
  function X14(b: bv8): bv8 { Add(Add(X8(b), X4(b)), X2(b)) }

  lemma X2Add(a: bv8, b: bv8)
    ensures X2(Add(a, b)) == Add(X2(a), X2(b))
  {
  }

  /** MixColumns and InvMixColumns of one column (sections 5.1.3 and 5.3.3 of FIPS 197). */
  function Mix(a: bv8, b: bv8, c: bv8, d: bv8): bv32 {
    Pack(Add(Add(X2(a), X3(b)), Add(c, d)), Add(Add(a, X2(b)), Add(X3(c), d)),
         Add(Add(a, b), Add(X2(c), X3(d))), Add(Add(X3(a), b), Add(c, X2(d))))
  }

  function InvByte(a: bv8, b: bv8, c: bv8, d: bv8): bv8 {
    Add(Add(X14(a), X11(b)), Add(X13(c), X9(d)))
  }

  function InvMix(w: bv32): bv32 {
    var a, b, c, d := Byte3(w), Byte2(w), Byte1(w), Byte0(w);
    Pack(InvByte(a, b, c, d), InvByte(b, c, d, a), InvByte(c, d, a, b), InvByte(d, a, b, c))
  }

  lemma MultiplesAdd(p: bv8, q: bv8)
    ensures X9(Add(p, q)) == Add(X9(p), X9(q))
    ensures X11(Add(p, q)) == Add(X11(p), X11(q))
    ensures X13(Add(p, q)) == Add(X13(p), X13(q))
    ensures X14(Add(p, q)) == Add(X14(p), X14(q))
  {
    hide X2, Add;
    X2Add(p, q);
    X2Add(X2(p), X2(q));
    X2Add(X4(p), X4(q));
    Exchange(X8(p), X8(q), p, q);
    Exchange(X8(p), X8(q), X2(p), X2(q));
    Exchange(X8(p), X8(q), X4(p), X4(q));
    Exchange(Add(X8(p), X2(p)), Add(X8(q), X2(q)), p, q);
    Exchange(Add(X8(p), X4(p)), Add(X8(q), X4(q)), p, q);
    Exchange(Add(X8(p), X4(p)), Add(X8(q), X4(q)), X2(p), X2(q));
  }

  lemma InvByteAdd(a: bv8, b: bv8, c: bv8, d: bv8, e: bv8, f: bv8, g: bv8, h: bv8)
    ensures InvByte(Add(a, e), Add(b, f), Add(c, g), Add(d, h)) == Add(InvByte(a, b, c, d), InvByte(e, f, g, h))
  {
    hide X9, X11, X13, X14, Add;
    MultiplesAdd(a, e);
    MultiplesAdd(b, f);
    MultiplesAdd(c, g);
    MultiplesAdd(d, h);
    Exchange(X14(a), X14(e), X11(b), X11(f));
    Exchange(X13(c), X13(g), X9(d), X9(h));
    Exchange(Add(X14(a), X11(b)), Add(X14(e), X11(f)), Add(X13(c), X9(d)), Add(X13(g), X9(h)));
  }

  /** The entries of the product of the two column matrices: 1 on the diagonal, 0 elsewhere. */
  lemma MatrixProduct(x: bv8)
    ensures InvByte(X2(x), x, x, X3(x)) == x
    ensures InvByte(X3(x), X2(x), x, x) == 0
    ensures InvByte(x, X3(x), X2(x), x) == 0
    ensures InvByte(x, x, X3(x), X2(x)) == 0
  {
  }

  lemma InvByteOfSum(a: bv8, b: bv8, c: bv8, d: bv8, e: bv8, f: bv8, g: bv8, h: bv8,
                     i: bv8, j: bv8, k: bv8, l: bv8, m: bv8, n: bv8, o: bv8, p: bv8)
    ensures InvByte(Add(Add(a, b), Add(c, d)), Add(Add(e, f), Add(g, h)), Add(Add(i, j), Add(k, l)),
                    Add(Add(m, n), Add(o, p))) ==
            Add(Add(InvByte(a, e, i, m), InvByte(b, f, j, n)), Add(InvByte(c, g, k, o), InvByte(d, h, l, p)))
  {
    hide InvByte, Add;
    InvByteAdd(Add(a, b), Add(e, f), Add(i, j), Add(m, n), Add(c, d), Add(g, h), Add(k, l), Add(o, p));
    InvByteAdd(a, e, i, m, b, f, j, n);
    InvByteAdd(c, g, k, o, d, h, l, p);
  }

  lemma InvMixOfMix(a: bv8, b: bv8, c: bv8, d: bv8)
    ensures InvMix(Mix(a, b, c, d)) == Pack(a, b, c, d)
  {
    hide InvByte, X2, X3, Pack, Byte0, Byte1, Byte2, Byte3, Add;
    PackBytes(Add(Add(X2(a), X3(b)), Add(c, d)), Add(Add(a, X2(b)), Add(X3(c), d)),
              Add(Add(a, b), Add(X2(c), X3(d))), Add(Add(X3(a), b), Add(c, X2(d))));
    MatrixProduct(a);
    MatrixProduct(b);
    MatrixProduct(c);
    MatrixProduct(d);
    AddZero(a); AddZero(b); AddZero(c); AddZero(d); AddZero(0);
    InvByteOfSum(X2(a), X3(b), c, d, a, X2(b), X3(c), d, a, b, X2(c), X3(d), X3(a), b, c, X2(d));
    InvByteOfSum(a, X2(b), X3(c), d, a, b, X2(c), X3(d), X3(a), b, c, X2(d), X2(a), X3(b), c, d);
    InvByteOfSum(a, b, X2(c), X3(d), X3(a), b, c, X2(d), X2(a), X3(b), c, d, a, X2(b), X3(c), d);
    InvByteOfSum(X3(a), b, c, X2(d), X2(a), X3(b), c, d, a, X2(b), X3(c), d, a, b, X2(c), X3(d));
  }

  lemma InvMixXor(v: bv32, w: bv32)
    ensures InvMix(Xor(v, w)) == Xor(InvMix(v), InvMix(w))
  {
    hide InvByte, Pack, Byte0, Byte1, Byte2, Byte3, Add, Xor;
    XorBytes(v, w);
    var a, b, c, d := Byte3(v), Byte2(v), Byte1(v), Byte0(v);
    var e, f, g, h := Byte3(w), Byte2(w), Byte1(w), Byte0(w);
    InvByteAdd(a, b, c, d, e, f, g, h);
    InvByteAdd(b, c, d, a, f, g, h, e);
    InvByteAdd(c, d, a, b, g, h, e, f);
    InvByteAdd(d, a, b, c, h, e, f, g);
    XorPack(InvByte(a, b, c, d), InvByte(b, c, d, a), InvByte(c, d, a, b), InvByte(d, a, b, c),
            InvByte(e, f, g, h), InvByte(f, g, h, e), InvByte(g, h, e, f), InvByte(h, e, f, g));
  }

  lemma Sum4(p: bv8, q: bv8, r: bv8, t: bv8)
    ensures var sum := Add(Add(Add(p, q), r), t);
            sum == Add(Add(p, q), Add(r, t)) && sum == Add(Add(q, r), Add(t, p)) &&
            sum == Add(Add(r, t), Add(p, q)) && sum == Add(Add(t, p), Add(q, r))
  {
    hide Add;
    AddGroups(Add(p, q), r, t);
    AddGroups(Add(p, q), Add(r, t), 0);
    AddGroups(p, q, Add(r, t));
    AddGroups(q, r, t);
    AddGroups(p, Add(q, Add(r, t)), 0);
    AddGroups(Add(q, r), t, p);
    AddGroups(t, p, Add(q, r));
    AddGroups(Add(t, p), Add(q, r), 0);
  }

  lemma Pack4(a: bv8, b: bv8, c: bv8, d: bv8, e: bv8, f: bv8, g: bv8, h: bv8,
              i: bv8, j: bv8, k: bv8, l: bv8, m: bv8, n: bv8, o: bv8, p: bv8)
    ensures Xor(Xor(Xor(Pack(a, b, c, d), Pack(e, f, g, h)), Pack(i, j, k, l)), Pack(m, n, o, p)) ==
            Pack(Add(Add(Add(a, e), i), m), Add(Add(Add(b, f), j), n), Add(Add(Add(c, g), k), o),
                 Add(Add(Add(d, h), l), p))
  {
    hide Pack, Add, Xor;
    XorPack(a, b, c, d, e, f, g, h);
    XorPack(Add(a, e), Add(b, f), Add(c, g), Add(d, h), i, j, k, l);
    XorPack(Add(Add(a, e), i), Add(Add(b, f), j), Add(Add(c, g), k), Add(Add(d, h), l), m, n, o, p);
  }

  // ---------- what the tables have to satisfy ----------

  /** The substitution box, read off the low byte of the second encryption table. */
  function Sub(t: Tables, x: bv8): bv8 {
    Byte0(t.te1(x))
  }

  /** The rows of FIPS 197's tables: each Te holds a rotated MixColumns column of the substituted
      byte, each Td the InvMixColumns column of the byte the box inverts. */
  ghost predicate Row(t: Tables, x: bv8) {
    var s := Sub(t, x);
    && t.te0(x) == Pack(X2(s), s, s, X3(s))
    && t.te1(x) == Pack(X3(s), X2(s), s, s)
    && t.te2(x) == Pack(s, X3(s), X2(s), s)
    && t.te3(x) == Pack(s, s, X3(s), X2(s))
    && t.td0(s) == Pack(X14(x), X9(x), X13(x), X11(x))
    && t.td1(s) == Pack(X11(x), X14(x), X9(x), X13(x))
    && t.td2(s) == Pack(X13(x), X11(x), X14(x), X9(x))
    && t.td3(s) == Pack(X9(x), X13(x), X11(x), X14(x))
    && t.td4(s) == x
  }

  ghost predicate AesTables(t: Tables) {
    forall x: bv8 :: Row(t, x)
  }

  /** The tables belonging to a substitution box and its inverse. */
  function TablesOf(sbox: Sbox, inverse: Sbox): Tables {
    Tables(x => Pack(X2(sbox(x)), sbox(x), sbox(x), X3(sbox(x))), x => Pack(X3(sbox(x)), X2(sbox(x)), sbox(x), sbox(x)),
           x => Pack(sbox(x), X3(sbox(x)), X2(sbox(x)), sbox(x)), x => Pack(sbox(x), sbox(x), X3(sbox(x)), X2(sbox(x))),
           y => Pack(X14(inverse(y)), X9(inverse(y)), X13(inverse(y)), X11(inverse(y))),
           y => Pack(X11(inverse(y)), X14(inverse(y)), X9(inverse(y)), X13(inverse(y))),
           y => Pack(X13(inverse(y)), X11(inverse(y)), X14(inverse(y)), X9(inverse(y))),
           y => Pack(X9(inverse(y)), X13(inverse(y)), X11(inverse(y)), X14(inverse(y))),
           inverse)
  }

  /** Such tables exist for every invertible box. */
  lemma TablesOfOk(sbox: Sbox, inverse: Sbox)
    requires forall x: bv8 :: inverse(sbox(x)) == x
    ensures AesTables(TablesOf(sbox, inverse))
    ensures forall x: bv8 :: Sub(TablesOf(sbox, inverse), x) == sbox(x)
  {
    hide Row, Sub, TablesOf;
    forall x: bv8 ensures Row(TablesOf(sbox, inverse), x) && Sub(TablesOf(sbox, inverse), x) == sbox(x) {
      RowOfBox(sbox, inverse, x);
    }
  }

  lemma RowOfBox(sbox: Sbox, inverse: Sbox, x: bv8)
    requires forall y: bv8 :: inverse(sbox(y)) == y
    ensures Row(TablesOf(sbox, inverse), x) && Sub(TablesOf(sbox, inverse), x) == sbox(x)
  {
    hide Pack, X2, X3, X9, X11, X13, X14, Sub;
    SubOfBox(sbox, inverse, x);
    var t, s := TablesOf(sbox, inverse), sbox(x);
    assert t.te0(x) == Pack(X2(s), s, s, X3(s));
    assert t.td0(s) == Pack(X14(x), X9(x), X13(x), X11(x));
  }

  lemma SubOfBox(sbox: Sbox, inverse: Sbox, x: bv8)
    ensures Sub(TablesOf(sbox, inverse), x) == sbox(x)
  {
    hide Pack, X2, X3, X9, X11, X13, X14, Byte0;
    PackBytes(X3(sbox(x)), X2(sbox(x)), sbox(x), sbox(x));
  }

  // ---------- one word of each kind of round ----------

  function EncWord(t: Tables, a: bv8, b: bv8, c: bv8, d: bv8, k: bv32): bv32 {
    Xor(Xor(Xor(Xor(t.te0(a), t.te1(b)), t.te2(c)), t.te3(d)), k)
  }

  function LastEncWord(t: Tables, a: bv8, b: bv8, c: bv8, d: bv8, k: bv32): bv32 {
    Xor(Masked(t, a, b, c, d), k)
  }

  /** The four table entries with one byte of each kept. */
  function Masked(t: Tables, a: bv8, b: bv8, c: bv8, d: bv8): bv32 {
    Xor(Xor(Xor(t.te2(a) & 0xff000000, t.te3(b) & 0x00ff0000), t.te0(c) & 0x0000ff00), t.te1(d) & 0x000000ff)
  }

  function DecWord(t: Tables, a: bv8, b: bv8, c: bv8, d: bv8, k: bv32): bv32 {
    Xor(Xor(Xor(Xor(t.td0(a), t.td1(b)), t.td2(c)), t.td3(d)), k)
  }

  /** The decryption key word `temp[i]`: the Td tables at the substituted bytes. */
  function KeyMix(t: Tables, w: bv32): bv32 {
    Xor(Xor(Xor(t.td0(Sub(t, Byte3(w))), t.td1(Sub(t, Byte2(w)))), t.td2(Sub(t, Byte1(w)))), t.td3(Sub(t, Byte0(w))))
  }

  function LastDecWord(t: Tables, a: bv8, b: bv8, c: bv8, d: bv8, k: bv32): bv32 {
    Xor(Pack(t.td4(a), t.td4(b), t.td4(c), t.td4(d)), k)
  }

  lemma EncWordMixes(t: Tables, a: bv8, b: bv8, c: bv8, d: bv8, k: bv32)
    requires AesTables(t)
    ensures EncWord(t, a, b, c, d, k) == Xor(Mix(Sub(t, a), Sub(t, b), Sub(t, c), Sub(t, d)), k)
  {
    hide Pack, Add, Xor, X2, X3, X9, X11, X13, X14, Sub;
    assert Row(t, a) && Row(t, b) && Row(t, c) && Row(t, d);
    var p, q, r, s := Sub(t, a), Sub(t, b), Sub(t, c), Sub(t, d);
    Pack4(X2(p), p, p, X3(p), X3(q), X2(q), q, q, r, X3(r), X2(r), r, s, s, X3(s), X2(s));
    Sum4(X2(p), X3(q), r, s);
    Sum4(p, X2(q), X3(r), s);
    Sum4(p, q, X2(r), X3(s));
    Sum4(X3(p), q, r, X2(s));
  }

  lemma DecTablesUnmix(t: Tables, a: bv8, b: bv8, c: bv8, d: bv8)
    requires AesTables(t)
    ensures Xor(Xor(Xor(t.td0(Sub(t, a)), t.td1(Sub(t, b))), t.td2(Sub(t, c))), t.td3(Sub(t, d))) ==
              InvMix(Pack(a, b, c, d))
  {
    hide Pack, Add, Xor, X2, X3, X9, X11, X13, X14, Sub, Byte0, Byte1, Byte2, Byte3;
    assert Row(t, a) && Row(t, b) && Row(t, c) && Row(t, d);
    PackBytes(a, b, c, d);
    Pack4(X14(a), X9(a), X13(a), X11(a), X11(b), X14(b), X9(b), X13(b),
          X13(c), X11(c), X14(c), X9(c), X9(d), X13(d), X11(d), X14(d));
    Sum4(X14(a), X11(b), X13(c), X9(d));
    Sum4(X9(a), X14(b), X11(c), X13(d));
    Sum4(X13(a), X9(b), X14(c), X11(d));
    Sum4(X11(a), X13(b), X9(c), X14(d));
  }

  lemma KeyMixUnmixes(t: Tables, w: bv32)
    requires AesTables(t)
    ensures KeyMix(t, w) == InvMix(w)
  {
    hide Pack, Xor, Sub, Byte0, Byte1, Byte2, Byte3, InvMix;
    DecTablesUnmix(t, Byte3(w), Byte2(w), Byte1(w), Byte0(w));
    BytesPack(w);
  }

  lemma MaskedPacks(t: Tables, a: bv8, b: bv8, c: bv8, d: bv8)
    requires AesTables(t)
    ensures Masked(t, a, b, c, d) == Pack(Sub(t, a), Sub(t, b), Sub(t, c), Sub(t, d))
  {
    hide X2, X3, X9, X11, X13, X14, Sub, Pack, Xor;
    assert Row(t, a) && Row(t, b) && Row(t, c) && Row(t, d);
    var p, q, r, s := Sub(t, a), Sub(t, b), Sub(t, c), Sub(t, d);
    KeepOne(p, X3(p), X2(p), p, q, q, X3(q), X2(q), X2(r), r, r, X3(r), X3(s), X2(s), s, s);
  }

  lemma KeepOne(a: bv8, b: bv8, c: bv8, d: bv8, e: bv8, f: bv8, g: bv8, h: bv8,
                i: bv8, j: bv8, k: bv8, l: bv8, m: bv8, n: bv8, o: bv8, p: bv8)
    ensures Xor(Xor(Xor(Pack(a, b, c, d) & 0xff000000, Pack(e, f, g, h) & 0x00ff0000), Pack(i, j, k, l) & 0x0000ff00),
                Pack(m, n, o, p) & 0x000000ff) == Pack(a, f, k, p)
  {
    KeepByte(a, b, c, d);
    KeepByte(e, f, g, h);
    KeepByte(i, j, k, l);
    KeepByte(m, n, o, p);
  }

  lemma KeepByte(a: bv8, b: bv8, c: bv8, d: bv8)
    ensures Pack(a, b, c, d) & 0xff000000 == (a as bv32) << 24 && Pack(a, b, c, d) & 0x00ff0000 == (b as bv32) << 16
    ensures Pack(a, b, c, d) & 0x0000ff00 == (c as bv32) << 8 && Pack(a, b, c, d) & 0x000000ff == d as bv32
  {
  }

  /** One word of a decryption round undoes mixing and key addition of an encryption round. */
  lemma DecWordUndoes(t: Tables, a: bv8, b: bv8, c: bv8, d: bv8, mixed: bv32, k: bv32,
                      p: bv8, q: bv8, r: bv8, s: bv8)
    requires AesTables(t)
    requires mixed == Xor(Mix(p, q, r, s), k)
    requires a == Byte3(mixed) && b == Byte2(mixed) && c == Byte1(mixed) && d == Byte0(mixed)
    ensures DecWord(t, Sub(t, a), Sub(t, b), Sub(t, c), Sub(t, d), KeyMix(t, k)) == Pack(p, q, r, s)
  {
    hide Pack, Xor, Sub, Byte0, Byte1, Byte2, Byte3, InvMix, Mix;
    DecTablesUnmix(t, a, b, c, d);
    BytesPack(mixed);
    KeyMixUnmixes(t, k);
    InvMixXor(Mix(p, q, r, s), k);
    InvMixOfMix(p, q, r, s);
    XorCancels(InvMix(Mix(p, q, r, s)), InvMix(k));
  }

  // ---------- rounds ----------

  function AddKey(s: Quad, k: Quad): Quad {
    Quad(Xor(s.w0, k.w0), Xor(s.w1, k.w1), Xor(s.w2, k.w2), Xor(s.w3, k.w3))
  }

  function EncRound(t: Tables, s: Quad, k: Quad): Quad {
    Quad(EncWord(t, Byte3(s.w0), Byte2(s.w1), Byte1(s.w2), Byte0(s.w3), k.w0),
         EncWord(t, Byte3(s.w1), Byte2(s.w2), Byte1(s.w3), Byte0(s.w0), k.w1),
         EncWord(t, Byte3(s.w2), Byte2(s.w3), Byte1(s.w0), Byte0(s.w1), k.w2),
         EncWord(t, Byte3(s.w3), Byte2(s.w0), Byte1(s.w1), Byte0(s.w2), k.w3))
  }

  function LastEnc(t: Tables, s: Quad, k: Quad): Quad {
    Quad(LastEncWord(t, Byte3(s.w0), Byte2(s.w1), Byte1(s.w2), Byte0(s.w3), k.w0),
         LastEncWord(t, Byte3(s.w1), Byte2(s.w2), Byte1(s.w3), Byte0(s.w0), k.w1),
         LastEncWord(t, Byte3(s.w2), Byte2(s.w3), Byte1(s.w0), Byte0(s.w1), k.w2),
         LastEncWord(t, Byte3(s.w3), Byte2(s.w0), Byte1(s.w1), Byte0(s.w2), k.w3))
  }

  function DecRound(t: Tables, s: Quad, k: Quad): Quad {
    Quad(DecWord(t, Byte3(s.w0), Byte2(s.w3), Byte1(s.w2), Byte0(s.w1), KeyMix(t, k.w0)),
         DecWord(t, Byte3(s.w1), Byte2(s.w0), Byte1(s.w3), Byte0(s.w2), KeyMix(t, k.w1)),
         DecWord(t, Byte3(s.w2), Byte2(s.w1), Byte1(s.w0), Byte0(s.w3), KeyMix(t, k.w2)),
         DecWord(t, Byte3(s.w3), Byte2(s.w2), Byte1(s.w1), Byte0(s.w0), KeyMix(t, k.w3)))
  }

  function LastDec(t: Tables, s: Quad, k: Quad): Quad {
    Quad(LastDecWord(t, Byte3(s.w0), Byte2(s.w3), Byte1(s.w2), Byte0(s.w1), k.w0),
         LastDecWord(t, Byte3(s.w1), Byte2(s.w0), Byte1(s.w3), Byte0(s.w2), k.w1),
         LastDecWord(t, Byte3(s.w2), Byte2(s.w1), Byte1(s.w0), Byte0(s.w3), k.w2),
         LastDecWord(t, Byte3(s.w3), Byte2(s.w2), Byte1(s.w1), Byte0(s.w0), k.w3))
  }

  /** SubBytes and ShiftRows: the state the decryption passes through on its way back. */
  function Shifted(t: Tables, s: Quad): Quad {
    Quad(Pack(Sub(t, Byte3(s.w0)), Sub(t, Byte2(s.w1)), Sub(t, Byte1(s.w2)), Sub(t, Byte0(s.w3))),
         Pack(Sub(t, Byte3(s.w1)), Sub(t, Byte2(s.w2)), Sub(t, Byte1(s.w3)), Sub(t, Byte0(s.w0))),
         Pack(Sub(t, Byte3(s.w2)), Sub(t, Byte2(s.w3)), Sub(t, Byte1(s.w0)), Sub(t, Byte0(s.w1))),
         Pack(Sub(t, Byte3(s.w3)), Sub(t, Byte2(s.w0)), Sub(t, Byte1(s.w1)), Sub(t, Byte0(s.w2))))
  }

  lemma ShiftedBytes(t: Tables, s: Quad)
    ensures var r := Shifted(t, s);
            Byte3(r.w0) == Sub(t, Byte3(s.w0)) && Byte2(r.w0) == Sub(t, Byte2(s.w1)) &&
            Byte1(r.w0) == Sub(t, Byte1(s.w2)) && Byte0(r.w0) == Sub(t, Byte0(s.w3)) &&
            Byte3(r.w1) == Sub(t, Byte3(s.w1)) && Byte2(r.w1) == Sub(t, Byte2(s.w2)) &&
            Byte1(r.w1) == Sub(t, Byte1(s.w3)) && Byte0(r.w1) == Sub(t, Byte0(s.w0)) &&
            Byte3(r.w2) == Sub(t, Byte3(s.w2)) && Byte2(r.w2) == Sub(t, Byte2(s.w3)) &&
            Byte1(r.w2) == Sub(t, Byte1(s.w0)) && Byte0(r.w2) == Sub(t, Byte0(s.w1)) &&
            Byte3(r.w3) == Sub(t, Byte3(s.w3)) && Byte2(r.w3) == Sub(t, Byte2(s.w0)) &&
            Byte1(r.w3) == Sub(t, Byte1(s.w1)) && Byte0(r.w3) == Sub(t, Byte0(s.w2))
  {
    hide Pack, Sub, Byte0, Byte1, Byte2, Byte3;
    PackBytes(Sub(t, Byte3(s.w0)), Sub(t, Byte2(s.w1)), Sub(t, Byte1(s.w2)), Sub(t, Byte0(s.w3)));
    PackBytes(Sub(t, Byte3(s.w1)), Sub(t, Byte2(s.w2)), Sub(t, Byte1(s.w3)), Sub(t, Byte0(s.w0)));
    PackBytes(Sub(t, Byte3(s.w2)), Sub(t, Byte2(s.w3)), Sub(t, Byte1(s.w0)), Sub(t, Byte0(s.w1)));
    PackBytes(Sub(t, Byte3(s.w3)), Sub(t, Byte2(s.w0)), Sub(t, Byte1(s.w1)), Sub(t, Byte0(s.w2)));
  }

  /** A decryption round with the same key takes the shifted state back one encryption round. */
  lemma DecRoundUndoes(t: Tables, s: Quad, k: Quad)
    requires AesTables(t)
    ensures DecRound(t, Shifted(t, EncRound(t, s, k)), k) == Shifted(t, s)
  {
    hide Pack, Sub, Byte0, Byte1, Byte2, Byte3, EncWord, DecWord, KeyMix, Mix, Xor, AesTables, Shifted;
    var e := EncRound(t, s, k);
    ShiftedBytes(t, e);
    UndoWord(t, Byte3(s.w0), Byte2(s.w1), Byte1(s.w2), Byte0(s.w3), k.w0);
    UndoWord(t, Byte3(s.w1), Byte2(s.w2), Byte1(s.w3), Byte0(s.w0), k.w1);
    UndoWord(t, Byte3(s.w2), Byte2(s.w3), Byte1(s.w0), Byte0(s.w1), k.w2);
    UndoWord(t, Byte3(s.w3), Byte2(s.w0), Byte1(s.w1), Byte0(s.w2), k.w3);
    ShiftedWords(t, s);
  }

  lemma ShiftedWords(t: Tables, s: Quad)
    ensures Shifted(t, s) ==
      Quad(Pack(Sub(t, Byte3(s.w0)), Sub(t, Byte2(s.w1)), Sub(t, Byte1(s.w2)), Sub(t, Byte0(s.w3))),
           Pack(Sub(t, Byte3(s.w1)), Sub(t, Byte2(s.w2)), Sub(t, Byte1(s.w3)), Sub(t, Byte0(s.w0))),
           Pack(Sub(t, Byte3(s.w2)), Sub(t, Byte2(s.w3)), Sub(t, Byte1(s.w0)), Sub(t, Byte0(s.w1))),
           Pack(Sub(t, Byte3(s.w3)), Sub(t, Byte2(s.w0)), Sub(t, Byte1(s.w1)), Sub(t, Byte0(s.w2))))
  {
    hide Pack, Sub, Byte0, Byte1, Byte2, Byte3;
  }

  lemma UndoWord(t: Tables, a: bv8, b: bv8, c: bv8, d: bv8, k: bv32)
    requires AesTables(t)
    ensures var e := EncWord(t, a, b, c, d, k);
            DecWord(t, Sub(t, Byte3(e)), Sub(t, Byte2(e)), Sub(t, Byte1(e)), Sub(t, Byte0(e)), KeyMix(t, k)) ==
              Pack(Sub(t, a), Sub(t, b), Sub(t, c), Sub(t, d))
  {
    hide Pack, Sub, Byte0, Byte1, Byte2, Byte3, EncWord, DecWord, KeyMix, Mix, Xor, AesTables;
    var e := EncWord(t, a, b, c, d, k);
    EncWordMixes(t, a, b, c, d, k);
    DecWordUndoes(t, Byte3(e), Byte2(e), Byte1(e), Byte0(e), e, k, Sub(t, a), Sub(t, b), Sub(t, c), Sub(t, d));
  }

  lemma LastEncShifts(t: Tables, s: Quad, k: Quad)
    requires AesTables(t)
    ensures LastEnc(t, s, k) == AddKey(Shifted(t, s), k)
  {
    hide Pack, Sub, Byte0, Byte1, Byte2, Byte3, Masked, Xor, AesTables;
    MaskedPacks(t, Byte3(s.w0), Byte2(s.w1), Byte1(s.w2), Byte0(s.w3));
    MaskedPacks(t, Byte3(s.w1), Byte2(s.w2), Byte1(s.w3), Byte0(s.w0));
    MaskedPacks(t, Byte3(s.w2), Byte2(s.w3), Byte1(s.w0), Byte0(s.w1));
    MaskedPacks(t, Byte3(s.w3), Byte2(s.w0), Byte1(s.w1), Byte0(s.w2));
  }

  lemma Unsub(t: Tables, w: bv32)
    requires AesTables(t)
    ensures Pack(t.td4(Sub(t, Byte3(w))), t.td4(Sub(t, Byte2(w))), t.td4(Sub(t, Byte1(w))), t.td4(Sub(t, Byte0(w)))) ==
              w
  {
    hide Pack, Sub, Byte0, Byte1, Byte2, Byte3, X2, X3, X9, X11, X13, X14;
    assert Row(t, Byte3(w)) && Row(t, Byte2(w)) && Row(t, Byte1(w)) && Row(t, Byte0(w));
    BytesPack(w);
  }

  lemma LastDecUnshifts(t: Tables, s: Quad, k: Quad)
    requires AesTables(t)
    ensures LastDec(t, Shifted(t, s), k) == AddKey(s, k)
  {
    hide Pack, Sub, Byte0, Byte1, Byte2, Byte3, Xor, AesTables, Shifted;
    ShiftedBytes(t, s);
    Unsub(t, s.w0);
    Unsub(t, s.w1);
    Unsub(t, s.w2);
    Unsub(t, s.w3);
  }

  lemma AddKeyTwice(s: Quad, k: Quad)
    ensures AddKey(AddKey(s, k), k) == s
  {
    hide Xor;
    XorCancels(s.w0, k.w0);
    XorCancels(s.w1, k.w1);
    XorCancels(s.w2, k.w2);
    XorCancels(s.w3, k.w3);
  }

  // ---------- the key schedule, forwards and backwards ----------

  /** The word added to the first key word: the rotated, substituted last word and the constant. */
  function KeyTemp(t: Tables, w: bv32, rc: bv32): bv32 {
    Xor(Masked(t, Byte2(w), Byte1(w), Byte0(w), Byte3(w)), rc)
  }

  function NextKey(t: Tables, k: Quad, rc: bv32): Quad {
    var w0 := Xor(k.w0, KeyTemp(t, k.w3, rc));
    var w1 := Xor(k.w1, w0);
    var w2 := Xor(k.w2, w1);
    Quad(w0, w1, w2, Xor(k.w3, w2))
  }

  function PrevKey(t: Tables, k: Quad, rc: bv32): Quad {
    var w3 := Xor(k.w2, k.w3);
    Quad(Xor(k.w0, KeyTemp(t, w3, rc)), Xor(k.w0, k.w1), Xor(k.w1, k.w2), w3)
  }

  /** The two key steps undo each other, whatever the tables. */
  lemma KeyStepsInverse(t: Tables, k: Quad, rc: bv32)
    ensures PrevKey(t, NextKey(t, k, rc), rc) == k
    ensures NextKey(t, PrevKey(t, k, rc), rc) == k
  {
    hide Xor, KeyTemp;
    var n := NextKey(t, k, rc);
    XorCancels(k.w0, KeyTemp(t, k.w3, rc));
    XorCancels(k.w1, n.w0);
    XorCancels(k.w2, n.w1);
    XorCancels(k.w3, n.w2);
    var p := PrevKey(t, k, rc);
    XorCancels(k.w0, KeyTemp(t, p.w3, rc));
    XorGroups(k.w0, k.w1, k.w0);
    XorCancels(k.w1, k.w0);
    XorGroups(k.w1, k.w2, k.w1);
    XorCancels(k.w2, k.w1);
    XorGroups(k.w2, k.w3, k.w2);
    XorCancels(k.w3, k.w2);
  }

  // ---------- whole blocks ----------

  type Rcon = s: seq<bv32> | |s| == 10 witness seq(10, _ => 0)

  function KeyAt(t: Tables, rcon: Rcon, k: Quad, n: nat): Quad
    requires n <= 10
  {
    if n == 0 then k else NextKey(t, KeyAt(t, rcon, k, n - 1), rcon[n - 1])
  }

  /** The encryption state after `n` full rounds. */
  function EncAt(t: Tables, rcon: Rcon, plain: Quad, k: Quad, n: nat): Quad
    requires n <= 9
  {
    if n == 0 then AddKey(plain, k)
    else EncRound(t, EncAt(t, rcon, plain, k, n - 1), KeyAt(t, rcon, k, n))
  }

  function Encrypted(t: Tables, rcon: Rcon, plain: Quad, k: Quad): Quad {
    LastEnc(t, EncAt(t, rcon, plain, k, 9), KeyAt(t, rcon, k, 10))
  }

  /** The key buffer of the decryption after `n` steps back. */
  function BackAt(t: Tables, rcon: Rcon, k: Quad, n: nat): Quad
    requires n <= 10
  {
    if n == 0 then k else PrevKey(t, BackAt(t, rcon, k, n - 1), rcon[10 - n])
  }

  function DecAt(t: Tables, rcon: Rcon, cipher: Quad, k: Quad, n: nat): Quad
    requires n <= 9
  {
    if n == 0 then AddKey(cipher, k)
    else DecRound(t, DecAt(t, rcon, cipher, k, n - 1), BackAt(t, rcon, k, n))
  }

  function Decrypted(t: Tables, rcon: Rcon, cipher: Quad, k: Quad): Quad {
    LastDec(t, DecAt(t, rcon, cipher, k, 9), BackAt(t, rcon, k, 10))
  }

  lemma {:induction false} KeysRunBack(t: Tables, rcon: Rcon, k: Quad, n: nat)
    requires n <= 10
    ensures BackAt(t, rcon, KeyAt(t, rcon, k, 10), n) == KeyAt(t, rcon, k, 10 - n)
    decreases n
  {
    hide NextKey, PrevKey;
    if n > 0 {
      KeysRunBack(t, rcon, k, n - 1);
      KeyStepsInverse(t, KeyAt(t, rcon, k, 10 - n), rcon[10 - n]);
    }
  }

  lemma {:induction false} StatesRunBack(t: Tables, rcon: Rcon, plain: Quad, k: Quad, n: nat)
    requires AesTables(t) && n <= 9
    ensures DecAt(t, rcon, Encrypted(t, rcon, plain, k), KeyAt(t, rcon, k, 10), n) ==
              Shifted(t, EncAt(t, rcon, plain, k, 9 - n))
    decreases n
  {
    hide NextKey, PrevKey, EncRound, DecRound, LastEnc, Shifted, AesTables, AddKey;
    if n == 0 {
      LastEncShifts(t, EncAt(t, rcon, plain, k, 9), KeyAt(t, rcon, k, 10));
      AddKeyTwice(Shifted(t, EncAt(t, rcon, plain, k, 9)), KeyAt(t, rcon, k, 10));
    } else {
      StatesRunBack(t, rcon, plain, k, n - 1);
      KeysRunBack(t, rcon, k, n);
      DecRoundUndoes(t, EncAt(t, rcon, plain, k, 9 - n), KeyAt(t, rcon, k, 10 - n));
    }
  }

  /** Decryption from the tenth round key gives back the plaintext and the original key. */
  lemma DecryptInvertsEncrypt(t: Tables, rcon: Rcon, plain: Quad, k: Quad)
    requires AesTables(t)
    ensures Decrypted(t, rcon, Encrypted(t, rcon, plain, k), KeyAt(t, rcon, k, 10)) == plain
    ensures BackAt(t, rcon, KeyAt(t, rcon, k, 10), 10) == k
  {
    hide NextKey, PrevKey, EncRound, DecRound, LastEnc, LastDec, Shifted, AesTables, AddKey, Encrypted;
    StatesRunBack(t, rcon, plain, k, 9);
    KeysRunBack(t, rcon, k, 10);
    LastDecUnshifts(t, EncAt(t, rcon, plain, k, 0), k);
    AddKeyTwice(plain, k);
  }

  // ---------- the rounds compute the cipher of FIPS 197 ----------

  /** The columns of a state as big-endian words. */
  function Columns(s: F.State): Quad {
    Quad(Pack(s[0], s[1], s[2], s[3]), Pack(s[4], s[5], s[6], s[7]),
         Pack(s[8], s[9], s[10], s[11]), Pack(s[12], s[13], s[14], s[15]))
  }

  /** The substitution box of the tables as a function of its own. */
  function Box(t: Tables): F.Sbox {
    x => Sub(t, x)
  }

  /** `rcon` of the source: the powers of x in the high byte. */
  const ROUND_CONSTANTS: Rcon := [0x01000000, 0x02000000, 0x04000000, 0x08000000, 0x10000000,
                                 0x20000000, 0x40000000, 0x80000000, 0x1B000000, 0x36000000]

  lemma {:induction false} PowerStep(n: nat, b: bv8)
    requires n > 0 && F.XPower(n - 1) == b
    ensures F.XPower(n) == F.XTime(b)
  {
  }

  lemma RconIsPower(n: nat)
    requires n < 10
    ensures ROUND_CONSTANTS[n] == Pack(F.XPower(n), 0, 0, 0)
  {
    PowerStep(1, 0x01);
    PowerStep(2, 0x02);
    PowerStep(3, 0x04);
    PowerStep(4, 0x08);
    PowerStep(5, 0x10);
    PowerStep(6, 0x20);
    PowerStep(7, 0x40);
    PowerStep(8, 0x80);
    PowerStep(9, 0x1b);
  }

  lemma TimesTwoThree(b: bv8)
    ensures F.Times(2, b) == X2(b) && F.Times(3, b) == X3(b)
  {
    X2Reduces(b);
    assert F.Times(1, F.XTime(b)) == F.XTime(b);
  }

  lemma ColumnBytes(s: F.State)
    ensures var q := Columns(s);
            Byte3(q.w0) == s[0] && Byte2(q.w0) == s[1] && Byte1(q.w0) == s[2] && Byte0(q.w0) == s[3] &&
            Byte3(q.w1) == s[4] && Byte2(q.w1) == s[5] && Byte1(q.w1) == s[6] && Byte0(q.w1) == s[7] &&
            Byte3(q.w2) == s[8] && Byte2(q.w2) == s[9] && Byte1(q.w2) == s[10] && Byte0(q.w2) == s[11] &&
            Byte3(q.w3) == s[12] && Byte2(q.w3) == s[13] && Byte1(q.w3) == s[14] && Byte0(q.w3) == s[15]
  {
    hide Pack, Byte0, Byte1, Byte2, Byte3;
    PackBytes(s[0], s[1], s[2], s[3]);
    PackBytes(s[4], s[5], s[6], s[7]);
    PackBytes(s[8], s[9], s[10], s[11]);
    PackBytes(s[12], s[13], s[14], s[15]);
  }

  /** Where a byte of a column comes from. */
  lemma ShiftedByte(t: Tables, s: F.State, r: nat, c: nat)
    requires r < 4 && c < 4
    ensures F.ShiftRows(F.SubBytes(Box(t), s))[4 * c + r] == Sub(t, F.At(s, r, c + r))
  {
    hide Sub;
    assert (4 * c + r) % 4 == r && (4 * c + r) / 4 == c;
  }

  lemma ShiftedColumn(t: Tables, s: F.State, c: nat)
    requires c < 4
    ensures var r := F.ShiftRows(F.SubBytes(Box(t), s));
            r[4 * c] == Sub(t, F.At(s, 0, c)) && r[4 * c + 1] == Sub(t, F.At(s, 1, c + 1)) &&
            r[4 * c + 2] == Sub(t, F.At(s, 2, c + 2)) && r[4 * c + 3] == Sub(t, F.At(s, 3, c + 3))
  {
    hide Sub, Box, F.ShiftRows, F.SubBytes, F.At;
    ShiftedByte(t, s, 0, c);
    ShiftedByte(t, s, 1, c);
    ShiftedByte(t, s, 2, c);
    ShiftedByte(t, s, 3, c);
  }

  lemma ColumnsShift(t: Tables, s: F.State)
    ensures Columns(F.ShiftRows(F.SubBytes(Box(t), s))) == Shifted(t, Columns(s))
  {
    hide Pack, Sub, Byte0, Byte1, Byte2, Byte3, Columns, Box, F.ShiftRows, F.SubBytes;
    ColumnBytes(s);
    ShiftedColumn(t, s, 0);
    ShiftedColumn(t, s, 1);
    ShiftedColumn(t, s, 2);
    ShiftedColumn(t, s, 3);
    ColumnsAre(F.ShiftRows(F.SubBytes(Box(t), s)));
  }

  lemma ColumnsAre(s: F.State)
    ensures Columns(s) == Quad(Pack(s[0], s[1], s[2], s[3]), Pack(s[4], s[5], s[6], s[7]),
                               Pack(s[8], s[9], s[10], s[11]), Pack(s[12], s[13], s[14], s[15]))
  {
    hide Pack;
  }

  /** MixColumns on the words of the state. */
  function MixQuad(s: Quad): Quad {
    Quad(Mix(Byte3(s.w0), Byte2(s.w0), Byte1(s.w0), Byte0(s.w0)),
         Mix(Byte3(s.w1), Byte2(s.w1), Byte1(s.w1), Byte0(s.w1)),
         Mix(Byte3(s.w2), Byte2(s.w2), Byte1(s.w2), Byte0(s.w2)),
         Mix(Byte3(s.w3), Byte2(s.w3), Byte1(s.w3), Byte0(s.w3)))
  }

  function MixedSum(a: bv8, b: bv8, c: bv8, d: bv8): bv8 {
    Add(Add(Add(F.Times(2, a), F.Times(3, b)), c), d)
  }

  lemma MixedBytes(a: bv8, b: bv8, c: bv8, d: bv8)
    ensures Mix(a, b, c, d) ==
              Pack(MixedSum(a, b, c, d), MixedSum(b, c, d, a), MixedSum(c, d, a, b), MixedSum(d, a, b, c))
  {
    hide Pack, X2, X3, Add, F.Times;
    TimesTwoThree(a); TimesTwoThree(b); TimesTwoThree(c); TimesTwoThree(d);
    Sum4(X2(a), X3(b), c, d);
    Sum4(X2(b), X3(c), d, a);
    Sum4(X2(c), X3(d), a, b);
    Sum4(X2(d), X3(a), b, c);
  }

  lemma MixedByteIs(s: F.State, r: nat, c: nat)
    requires r < 4 && c < 4
    ensures F.MixColumns(s)[4 * c + r] == F.MixedByte(s, r, c)
  {
    hide F.MixedByte;
    assert (4 * c + r) % 4 == r && (4 * c + r) / 4 == c;
  }

  lemma MixedColumn(s: F.State, c: nat, p: bv8, q: bv8, r: bv8, t: bv8)
    requires c < 4
    requires p == F.At(s, 0, c) && q == F.At(s, 1, c) && r == F.At(s, 2, c) && t == F.At(s, 3, c)
    ensures var m := F.MixColumns(s);
            Pack(m[4 * c], m[4 * c + 1], m[4 * c + 2], m[4 * c + 3]) == Mix(p, q, r, t)
  {
    hide Pack, Mix, F.Times, F.At, F.MixColumns;
    MixedBytes(p, q, r, t);
    AtWraps(s, c);
    MixedByteIs(s, 0, c);
    MixedByteIs(s, 1, c);
    MixedByteIs(s, 2, c);
    MixedByteIs(s, 3, c);
  }

  lemma AtWraps(s: F.State, c: nat)
    ensures F.At(s, 4, c) == F.At(s, 0, c) && F.At(s, 5, c) == F.At(s, 1, c) && F.At(s, 6, c) == F.At(s, 2, c)
  {
  }

  lemma ColumnsMix(s: F.State)
    ensures Columns(F.MixColumns(s)) == MixQuad(Columns(s))
  {
    hide Pack, Mix, Byte0, Byte1, Byte2, Byte3, Columns, F.MixColumns;
    ColumnBytes(s);
    ColumnsAre(F.MixColumns(s));
    MixedColumn(s, 0, s[0], s[1], s[2], s[3]);
    MixedColumn(s, 1, s[4], s[5], s[6], s[7]);
    MixedColumn(s, 2, s[8], s[9], s[10], s[11]);
    MixedColumn(s, 3, s[12], s[13], s[14], s[15]);
  }

  lemma ColumnsAddKey(s: F.State, k: F.State)
    ensures Columns(F.AddRoundKey(s, k)) == AddKey(Columns(s), Columns(k))
  {
    hide Pack, Xor;
    XorPack(s[0], s[1], s[2], s[3], k[0], k[1], k[2], k[3]);
    XorPack(s[4], s[5], s[6], s[7], k[4], k[5], k[6], k[7]);
    XorPack(s[8], s[9], s[10], s[11], k[8], k[9], k[10], k[11]);
    XorPack(s[12], s[13], s[14], s[15], k[12], k[13], k[14], k[15]);
  }

  /** A round over the tables is SubBytes, ShiftRows, MixColumns and AddRoundKey. */
  lemma EncRoundMixes(t: Tables, s: Quad, k: Quad)
    requires AesTables(t)
    ensures EncRound(t, s, k) == AddKey(MixQuad(Shifted(t, s)), k)
  {
    hide Pack, Sub, Byte0, Byte1, Byte2, Byte3, EncWord, Mix, Xor, AesTables, Shifted;
    ShiftedBytes(t, s);
    EncWordMixes(t, Byte3(s.w0), Byte2(s.w1), Byte1(s.w2), Byte0(s.w3), k.w0);
    EncWordMixes(t, Byte3(s.w1), Byte2(s.w2), Byte1(s.w3), Byte0(s.w0), k.w1);
    EncWordMixes(t, Byte3(s.w2), Byte2(s.w3), Byte1(s.w0), Byte0(s.w1), k.w2);
    EncWordMixes(t, Byte3(s.w3), Byte2(s.w0), Byte1(s.w1), Byte0(s.w2), k.w3);
  }

  function PackWord(w: F.Word): bv32 {
    Pack(w[0], w[1], w[2], w[3])
  }

  lemma XorWords(v: F.Word, w: F.Word)
    ensures PackWord(F.XorWord(v, w)) == Xor(PackWord(v), PackWord(w))
  {
    hide Pack, Xor;
    XorPack(v[0], v[1], v[2], v[3], w[0], w[1], w[2], w[3]);
  }

  /** The masked table entries are SubWord of RotWord. */
  lemma KeyTempIsFips(t: Tables, w: F.Word, n: nat)
    requires AesTables(t) && n < 10
    ensures KeyTemp(t, PackWord(w), ROUND_CONSTANTS[n]) == PackWord(F.KeyTemp(Box(t), w, 4 * (n + 1)))
  {
    hide Pack, Xor, Sub, Byte0, Byte1, Byte2, Byte3, Masked, AesTables, F.XPower;
    PackBytes(w[0], w[1], w[2], w[3]);
    MaskedPacks(t, w[1], w[2], w[3], w[0]);
    RconIsPower(n);
    XorWords(F.SubWord(Box(t), F.RotWord(w)), F.Rcon(n + 1));
  }

  function KeyWord(t: Tables, key: F.State, i: nat): bv32 {
    PackWord(F.KeyWord(Box(t), key, i))
  }

  lemma {:induction false} KeyWordStep(t: Tables, key: F.State, i: nat)
    requires i >= 4 && i % 4 != 0
    ensures KeyWord(t, key, i) == Xor(KeyWord(t, key, i - 4), KeyWord(t, key, i - 1))
  {
    hide PackWord, Xor, Box, F.XorWord;
    XorWords(F.KeyWord(Box(t), key, i - 4), F.KeyWord(Box(t), key, i - 1));
  }

  lemma {:induction false} KeyWordRound(t: Tables, key: F.State, n: nat)
    requires AesTables(t) && n < 10
    ensures KeyWord(t, key, 4 * n + 4) ==
              Xor(KeyWord(t, key, 4 * n), KeyTemp(t, KeyWord(t, key, 4 * n + 3), ROUND_CONSTANTS[n]))
  {
    hide PackWord, Xor, Box, KeyTemp, F.KeyTemp, F.XorWord, AesTables;
    var last := F.KeyWord(Box(t), key, 4 * n + 3);
    KeyTempIsFips(t, last, n);
    XorWords(F.KeyWord(Box(t), key, 4 * n), F.KeyTemp(Box(t), last, 4 * n + 4));
  }

  /** The key words of round `n` in the order of the code. */
  function RoundWords(t: Tables, key: F.State, n: nat): Quad {
    Quad(KeyWord(t, key, 4 * n), KeyWord(t, key, 4 * n + 1), KeyWord(t, key, 4 * n + 2), KeyWord(t, key, 4 * n + 3))
  }

  lemma FirstWords(t: Tables, key: F.State)
    ensures RoundWords(t, key, 0) == Columns(key)
  {
    hide Pack;
    assert F.KeyWord(Box(t), key, 0) == key[0..4] && F.KeyWord(Box(t), key, 1) == key[4..8];
    assert F.KeyWord(Box(t), key, 2) == key[8..12] && F.KeyWord(Box(t), key, 3) == key[12..16];
  }

  lemma NextWords(t: Tables, key: F.State, n: nat)
    requires AesTables(t) && n < 10
    ensures RoundWords(t, key, n + 1) == NextKey(t, RoundWords(t, key, n), ROUND_CONSTANTS[n])
  {
    hide KeyWord, Xor, KeyTemp, AesTables;
    KeyWordRound(t, key, n);
    KeyWordStep(t, key, 4 * n + 5);
    KeyWordStep(t, key, 4 * n + 6);
    KeyWordStep(t, key, 4 * n + 7);
    XorGroups(KeyWord(t, key, 4 * n + 1), KeyWord(t, key, 4 * n + 4), 0);
  }

  /** The keys computed on the fly are those of the key expansion (section 5.2 of FIPS 197). */
  lemma {:induction false} KeysAreFips(t: Tables, key: F.State, n: nat)
    requires AesTables(t) && n <= 10
    ensures KeyAt(t, ROUND_CONSTANTS, Columns(key), n) == RoundWords(t, key, n)
  {
    hide NextKey, RoundWords, Columns, AesTables;
    if n == 0 {
      FirstWords(t, key);
    } else {
      KeysAreFips(t, key, n - 1);
      NextWords(t, key, n - 1);
    }
  }

  lemma RoundKeyColumns(t: Tables, key: F.State, n: nat)
    ensures Columns(F.RoundKey(Box(t), key, n)) == RoundWords(t, key, n)
  {
    hide Pack, Box, F.KeyWord;
  }

  /** After every round the state is the standard's. */
  lemma {:induction false} RoundsAreFips(t: Tables, block: F.State, key: F.State, n: nat)
    requires AesTables(t) && n <= 9
    ensures EncAt(t, ROUND_CONSTANTS, Columns(block), Columns(key), n) == Columns(F.Rounds(Box(t), block, key, n))
  {
    hide Columns, RoundWords, EncRound, AddKey, MixQuad, Shifted, AesTables, KeyAt, Box,
         F.AddRoundKey, F.MixColumns, F.ShiftRows, F.SubBytes, F.RoundKey;
    KeysAreFips(t, key, n);
    RoundKeyColumns(t, key, n);
    if n == 0 {
      KeyAtStart(t, Columns(key));
      ColumnsAddKey(block, F.RoundKey(Box(t), key, 0));
    } else {
      RoundsAreFips(t, block, key, n - 1);
      var s := F.Rounds(Box(t), block, key, n - 1);
      var r := F.ShiftRows(F.SubBytes(Box(t), s));
      EncRoundMixes(t, Columns(s), RoundWords(t, key, n));
      ColumnsShift(t, s);
      ColumnsMix(r);
      ColumnsAddKey(F.MixColumns(r), F.RoundKey(Box(t), key, n));
    }
  }

  lemma KeyAtStart(t: Tables, k: Quad)
    ensures KeyAt(t, ROUND_CONSTANTS, k, 0) == k
  {
  }

  /** The encryption over the tables is the cipher of FIPS 197. */
  lemma EncryptedIsCipher(t: Tables, block: F.State, key: F.State)
    requires AesTables(t)
    ensures Encrypted(t, ROUND_CONSTANTS, Columns(block), Columns(key)) == Columns(F.Cipher(Box(t), block, key))
  {
    hide Columns, RoundWords, LastEnc, AddKey, Shifted, AesTables, KeyAt, EncAt, Box,
         F.AddRoundKey, F.ShiftRows, F.SubBytes, F.RoundKey, F.Rounds;
    var s := F.Rounds(Box(t), block, key, 9);
    RoundsAreFips(t, block, key, 9);
    KeysAreFips(t, key, 10);
    RoundKeyColumns(t, key, 10);
    LastEncShifts(t, Columns(s), RoundWords(t, key, 10));
    ColumnsShift(t, s);
    ColumnsAddKey(F.ShiftRows(F.SubBytes(Box(t), s)), F.RoundKey(Box(t), key, 10));
  }

  /** The decryption undoes that cipher. */
  lemma DecryptedCipher(t: Tables, block: F.State, key: F.State)
    requires AesTables(t)
    ensures Decrypted(t, ROUND_CONSTANTS, Columns(F.Cipher(Box(t), block, key)), RoundWords(t, key, 10)) ==
              Columns(block)
  {
    hide Columns, RoundWords, Decrypted, Encrypted, AesTables, KeyAt, Box, F.Cipher;
    EncryptedIsCipher(t, block, key);
    KeysAreFips(t, key, 10);
    DecryptInvertsEncrypt(t, ROUND_CONSTANTS, Columns(block), Columns(key));
  }

  // ---------- the code in place ----------

  function QuadOf(rk: array<bv32>): Quad
    reads rk
    requires rk.Length == 4
  {
    Quad(rk[0], rk[1], rk[2], rk[3])
  }

  /** `GETU32` at offset `i`. */
  function ReadWord(b: seq<bv8>, i: nat): bv32
    requires i + 4 <= |b|
  {
    Swap(Load(b[i], b[i + 1], b[i + 2], b[i + 3]))
  }

  function ReadQuad(b: seq<bv8>): Quad
    requires |b| >= 16
  {
    Quad(ReadWord(b, 0), ReadWord(b, 4), ReadWord(b, 8), ReadWord(b, 12))
  }

  lemma ReadWordInjective(b: seq<bv8>, c: seq<bv8>, i: nat)
    requires i + 4 <= |b| && i + 4 <= |c| && ReadWord(b, i) == ReadWord(c, i)
    ensures b[i..i + 4] == c[i..i + 4]
  {
    hide Pack, Load, Swap, Byte0, Byte1, Byte2, Byte3;
    SwapLoads(b[i], b[i + 1], b[i + 2], b[i + 3]);
    SwapLoads(c[i], c[i + 1], c[i + 2], c[i + 3]);
    PackBytes(b[i], b[i + 1], b[i + 2], b[i + 3]);
    PackBytes(c[i], c[i + 1], c[i + 2], c[i + 3]);
  }

  /** The words determine the 16 bytes of a block. */
  lemma ReadQuadInjective(b: seq<bv8>, c: seq<bv8>)
    requires |b| >= 16 && |c| >= 16 && ReadQuad(b) == ReadQuad(c)
    ensures b[..16] == c[..16]
  {
    hide ReadWord;
    ReadWordInjective(b, c, 0);
    ReadWordInjective(b, c, 4);
    ReadWordInjective(b, c, 8);
    ReadWordInjective(b, c, 12);
    assert b[..16] == b[0..0 + 4] + b[4..4 + 4] + b[8..8 + 4] + b[12..12 + 4];
    assert c[..16] == c[0..0 + 4] + c[4..4 + 4] + c[8..8 + 4] + c[12..12 + 4];
  }

  /** `PUTU32` at offset `i`. */
  method PutWord(out: array<bv8>, i: nat, w: bv32)
    requires i + 4 <= out.Length
    modifies out
    ensures ReadWord(out[..], i) == w
    ensures forall j :: 0 <= j < out.Length && !(i <= j < i + 4) ==> out[j] == old(out[j])
  {
    hide Pack, Swap, Unswap, Byte0, Byte1, Byte2, Byte3;
    UnswapStores(w);
    BytesPack(Unswap(w));
    var st := Unswap(w);
    out[i], out[i + 1], out[i + 2], out[i + 3] := Byte0(st), Byte1(st), Byte2(st), Byte3(st);
  }

  method PutQuad(out: array<bv8>, q: Quad)
    requires out.Length >= 16
    modifies out
    ensures ReadQuad(out[..]) == q
    ensures forall j :: 16 <= j < out.Length ==> out[j] == old(out[j])
  {
    hide Load, Swap;
    PutWord(out, 0, q.w0);
    PutWord(out, 4, q.w1);
    PutWord(out, 8, q.w2);
    PutWord(out, 12, q.w3);
  }

  method NextRk(rk: array<bv32>, round: nat, t: Tables, rcon: Rcon)
    requires rk.Length == 4 && round < 10
    modifies rk
    ensures QuadOf(rk) == NextKey(t, old(QuadOf(rk)), rcon[round])
  {
    hide Xor, KeyTemp;
    var temp := rk[3];
    rk[0] := Xor(rk[0], KeyTemp(t, temp, rcon[round]));
    rk[1] := Xor(rk[1], rk[0]);
    rk[2] := Xor(rk[2], rk[1]);
    rk[3] := Xor(rk[3], rk[2]);
  }

  method PrevRk(rk: array<bv32>, round: nat, t: Tables, rcon: Rcon)
    requires rk.Length == 4 && round < 10
    modifies rk
    ensures QuadOf(rk) == PrevKey(t, old(QuadOf(rk)), rcon[round])
  {
    hide Xor, KeyTemp;
    rk[3] := Xor(rk[2], rk[3]);
    rk[2] := Xor(rk[1], rk[2]);
    rk[1] := Xor(rk[0], rk[1]);
    rk[0] := Xor(rk[0], KeyTemp(t, rk[3], rcon[round]));
  }

  /** `AES_128_encrypt_cbc` on one block; the round keys live in a local buffer. */
  method EncryptBlock(input: array<bv8>, out: array<bv8>, key: array<bv8>, t: Tables, rcon: Rcon)
    requires input.Length >= 16 && out.Length >= 16 && key.Length >= 16
    modifies out
    ensures ReadQuad(out[..]) == Encrypted(t, rcon, old(ReadQuad(input[..])), old(ReadQuad(key[..])))
    ensures AesTables(t) && rcon == ROUND_CONSTANTS ==>
              out[..16] == F.Cipher(Box(t), old(input[..16]), old(key[..16]))
    ensures forall j :: 16 <= j < out.Length ==> out[j] == old(out[j])
  {
    hide AesTables, Box, F.Cipher, NextKey, EncRound, LastEnc, AddKey, ReadQuad;
    ghost var before, keyBytes := input[..], key[..];
    ghost var plain, k := ReadQuad(before), ReadQuad(keyBytes);
    var rk := new bv32[4];
    var k0 := ReadQuad(key[..]);
    rk[0], rk[1], rk[2], rk[3] := k0.w0, k0.w1, k0.w2, k0.w3;
    var s := AddKey(ReadQuad(input[..]), QuadOf(rk));
    assert QuadOf(rk) == KeyAt(t, rcon, k, 0) && s == EncAt(t, rcon, plain, k, 0);
    s := EncStep(rk, 0, s, t, rcon, plain, k);
    s := EncStep(rk, 1, s, t, rcon, plain, k);
    s := EncStep(rk, 2, s, t, rcon, plain, k);
    s := EncStep(rk, 3, s, t, rcon, plain, k);
    s := EncStep(rk, 4, s, t, rcon, plain, k);
    s := EncStep(rk, 5, s, t, rcon, plain, k);
    s := EncStep(rk, 6, s, t, rcon, plain, k);
    s := EncStep(rk, 7, s, t, rcon, plain, k);
    s := EncStep(rk, 8, s, t, rcon, plain, k);
    NextRk(rk, 9, t, rcon);
    PutQuad(out, LastEnc(t, s, QuadOf(rk)));
    EncryptedBytes(t, rcon, before, keyBytes, out[..]);
  }

  lemma ReadQuadColumns(b: seq<bv8>)
    requires |b| >= 16
    ensures ReadQuad(b) == Columns(b[..16])
  {
    hide Pack, Load, Swap;
    SwapLoads(b[0], b[1], b[2], b[3]);
    SwapLoads(b[4], b[5], b[6], b[7]);
    SwapLoads(b[8], b[9], b[10], b[11]);
    SwapLoads(b[12], b[13], b[14], b[15]);
  }

  lemma EncryptedBytes(t: Tables, rcon: Rcon, input: seq<bv8>, key: seq<bv8>, out: seq<bv8>)
    requires |input| >= 16 && |key| >= 16 && |out| >= 16
    requires ReadQuad(out) == Encrypted(t, rcon, ReadQuad(input), ReadQuad(key))
    ensures AesTables(t) && rcon == ROUND_CONSTANTS ==> out[..16] == F.Cipher(Box(t), input[..16], key[..16])
  {
    hide ReadQuad, Columns, Encrypted, AesTables, Box, F.Cipher;
    if AesTables(t) && rcon == ROUND_CONSTANTS {
      ReadQuadColumns(input);
      ReadQuadColumns(key);
      EncryptedIsCipher(t, input[..16], key[..16]);
      var c := F.Cipher(Box(t), input[..16], key[..16]);
      ReadQuadColumns(c);
      assert c[..16] == c;
      ReadQuadInjective(out, c);
    }
  }

  /** The two statements of a full encryption round. */
  method EncStep(rk: array<bv32>, round: nat, s: Quad, t: Tables, rcon: Rcon, ghost plain: Quad, ghost k: Quad)
    returns (s': Quad)
    requires rk.Length == 4 && round < 9
    requires QuadOf(rk) == KeyAt(t, rcon, k, round) && s == EncAt(t, rcon, plain, k, round)
    modifies rk
    ensures QuadOf(rk) == KeyAt(t, rcon, k, round + 1) && s' == EncAt(t, rcon, plain, k, round + 1)
  {
    hide NextKey, EncRound;
    NextRk(rk, round, t, rcon);
    s' := EncRound(t, s, QuadOf(rk));
  }

  method DecStep(rk: array<bv32>, n: nat, s: Quad, t: Tables, rcon: Rcon, ghost cipher: Quad, ghost k: Quad)
    returns (s': Quad)
    requires rk.Length == 4 && n < 9
    requires QuadOf(rk) == BackAt(t, rcon, k, n) && s == DecAt(t, rcon, cipher, k, n)
    modifies rk
    ensures QuadOf(rk) == BackAt(t, rcon, k, n + 1) && s' == DecAt(t, rcon, cipher, k, n + 1)
  {
    hide PrevKey, DecRound;
    PrevRk(rk, 9 - n, t, rcon);
    s' := DecRound(t, s, QuadOf(rk));
  }

  /** `AES_128_decrypt_cbc` on one block; `rk` comes in as the tenth round key and is run back to
      the original key. */
  method DecryptBlock(input: array<bv8>, out: array<bv8>, rk: array<bv32>, t: Tables, rcon: Rcon)
    requires input.Length >= 16 && out.Length >= 16 && rk.Length == 4
    modifies out, rk
    ensures ReadQuad(out[..]) == Decrypted(t, rcon, old(ReadQuad(input[..])), old(QuadOf(rk)))
    ensures QuadOf(rk) == BackAt(t, rcon, old(QuadOf(rk)), 10)
    ensures forall j :: 16 <= j < out.Length ==> out[j] == old(out[j])
  {
    hide PrevKey, DecRound, LastDec, AddKey, ReadQuad;
    ghost var cipher, k := ReadQuad(input[..]), QuadOf(rk);
    var s := AddKey(ReadQuad(input[..]), QuadOf(rk));
    assert QuadOf(rk) == BackAt(t, rcon, k, 0) && s == DecAt(t, rcon, cipher, k, 0);
    s := DecStep(rk, 0, s, t, rcon, cipher, k);
    s := DecStep(rk, 1, s, t, rcon, cipher, k);
    s := DecStep(rk, 2, s, t, rcon, cipher, k);
    s := DecStep(rk, 3, s, t, rcon, cipher, k);
    s := DecStep(rk, 4, s, t, rcon, cipher, k);
    s := DecStep(rk, 5, s, t, rcon, cipher, k);
    s := DecStep(rk, 6, s, t, rcon, cipher, k);
    s := DecStep(rk, 7, s, t, rcon, cipher, k);
    s := DecStep(rk, 8, s, t, rcon, cipher, k);
    PrevRk(rk, 0, t, rcon);
    PutQuad(out, LastDec(t, s, QuadOf(rk)));
  }
}
