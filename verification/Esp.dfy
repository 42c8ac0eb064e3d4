/** IPsec ESP in tunnel mode, in place on the packet: encapsulation, encryption, authentication. */
module Esp {
  import opened Collections
  import opened Arith
  import opened Words
  import opened Checksum

  const AES_BLOCK_SIZE: nat := 16
  const SHA_DIGEST_LENGTH: nat := 20
  const ESPH: nat := IPH + 20
  const LATENCY: nat := IPH + 20 + 8
  const INNER: nat := ESPH + 24

  type Bytes4 = s: seq<byte> | |s| == 4 witness [0, 0, 0, 0]
  type Block = s: seq<byte> | |s| == AES_BLOCK_SIZE witness seq(AES_BLOCK_SIZE, _ => 0)
  type Digest = s: seq<byte> | |s| == SHA_DIGEST_LENGTH witness seq(SHA_DIGEST_LENGTH, _ => 0)
  type Key = s: seq<byte> | |s| == 64 witness seq(64, _ => 0)

  datatype SaEntry = SaEntry(spi: Bytes4, rpl: Bytes4, entryIdx: nat)
  function TotLen(s: seq<byte>): nat
    requires |s| >= IPH + 4
  {
    Be16(s, IPH + 2)
  }

  /** The padding makes a whole number of blocks of the datagram, itself and two more bytes. */
  function PadLen(ipLen: nat): (pad: nat)
    ensures 1 <= pad <= AES_BLOCK_SIZE && (ipLen + pad + 2) % AES_BLOCK_SIZE == 0
  {
    AES_BLOCK_SIZE - (ipLen + 2) % AES_BLOCK_SIZE
  }

  function EncSize(ipLen: nat): nat {
    ipLen + PadLen(ipLen) + 2
  }

  function ExtendedLen(ipLen: nat): nat {
    20 + EncSize(ipLen) + 24 + SHA_DIGEST_LENGTH
  }

  /** The cast to `short`. */
  function Short(x: int): int {
    var y := x % 0x1_0000;
    if y < 0x8000 then y else y - 0x1_0000
  }

  /** The cast may make the length negative, but both of its uses take it modulo 0x10000: the packet
      grows by the right amount, and the length field is right as long as it has 16 bits. */
  lemma ShortIsHarmless(ipLen: nat)
    ensures Short(ExtendedLen(ipLen)) % 0x1_0000 == ExtendedLen(ipLen) % 0x1_0000
    ensures (Short(ExtendedLen(ipLen)) - ipLen) % 0x1_0000 == ExtendedLen(ipLen) - ipLen == PadLen(ipLen) + 66
    ensures ExtendedLen(ipLen) <= 0xFFFF <==> ipLen <= 65453
  {
  }

  /** The outer header before its checksum is filled in. */
  function Outer(s: seq<byte>, tot: int): (h: seq<byte>)
    requires |s| >= ESPH
    ensures |h| == 20
  {
    var t := tot % 0x1_0000;
    [s[IPH] as int / 0x10 * 0x10 + 5, s[IPH + 1], t / 0x100, t % 0x100] + s[IPH + 4..IPH + 9] + [0x32, 0, 0] +
      s[IPH + 12..ESPH]
  }

  /** The outer header, byte by byte. */
  lemma OuterAt(s: seq<byte>, tot: int)
    requires |s| >= ESPH
    ensures var h, t := Outer(s, tot), tot % 0x1_0000;
            && h[0] == s[IPH] as int / 0x10 * 0x10 + 5 && h[2] == t / 0x100 && h[3] == t % 0x100
            && h[9] == 0x32 && h[10] == h[11] == 0
            && forall i | 0 <= i < 20 && i != 0 && i != 2 && i != 3 && !(9 <= i <= 11) :: h[i] == s[IPH + i]
  {
  }

  lemma FieldsOf(s: seq<byte>, tot: int)
    requires |s| >= ESPH
    ensures var t := tot % 0x1_0000;
            Splice(s, IPH, Outer(s, tot)) ==
              s[IPH := s[IPH] as int / 0x10 * 0x10 + 5][IPH + 2 := t / 0x100][IPH + 3 := t % 0x100]
               [IPH + 9 := 0x32][CHECK := 0][CHECK + 1 := 0]
  {
    hide Outer, Splice;
    OuterAt(s, tot);
    SpliceAt(s, IPH, Outer(s, tot));
    var t := tot % 0x1_0000;
    var r := Splice(s, IPH, Outer(s, tot));
    var u := s[IPH := s[IPH] as int / 0x10 * 0x10 + 5][IPH + 2 := t / 0x100][IPH + 3 := t % 0x100]
              [IPH + 9 := 0x32][CHECK := 0][CHECK + 1 := 0];
    forall k | 0 <= k < |s| ensures r[k] == u[k] {
    }
  }

  lemma OuterModulo(s: seq<byte>, a: int, b: int)
    requires |s| >= ESPH && a % 0x1_0000 == b % 0x1_0000
    ensures Outer(s, a) == Outer(s, b)
  {
  }

  function Zeros(n: nat): (z: seq<byte>)
    ensures |z| == n
  {
    seq(n, _ => 0)
  }

  /** The key of the association: source and destination address. */
  function Tunnel(s: seq<byte>): (int, int)
    requires |s| >= ESPH
  {
    (Be16(s, IPH + 12) * 0x1_0000 + Be16(s, IPH + 14), Be16(s, IPH + 16) * 0x1_0000 + Be16(s, IPH + 18))
  }

  /** First the address the datagram comes from, bytes 12 to 15 of its header, then the one it goes to. */
  lemma TunnelBytes(s: seq<byte>)
    requires |s| >= ESPH
    ensures Tunnel(s).0 ==
              s[IPH + 12] as int * 0x100_0000 + s[IPH + 13] as int * 0x1_0000 + s[IPH + 14] as int * 0x100 + s[IPH + 15]
    ensures Tunnel(s).1 ==
              s[IPH + 16] as int * 0x100_0000 + s[IPH + 17] as int * 0x1_0000 + s[IPH + 18] as int * 0x100 + s[IPH + 19]
  {
  }

  /** A piece of memory is overwritten. */
  function Splice(s: seq<byte>, i: nat, piece: seq<byte>): (r: seq<byte>)
    requires i + |piece| <= |s|
    ensures |r| == |s|
  {
    s[..i] + piece + s[i + |piece|..]
  }

  lemma SpliceAdjacent(s: seq<byte>, i: nat, a: seq<byte>, b: seq<byte>)
    requires i + |a| + |b| <= |s|
    ensures |a + b| == |a| + |b|
    ensures Splice(Splice(s, i, a), i + |a|, b) == Splice(s, i, a + b)
    ensures Splice(Splice(s, i + |a|, b), i, a) == Splice(s, i, a + b)
  {
  }

  lemma SpliceAt(s: seq<byte>, i: nat, piece: seq<byte>)
    requires i + |piece| <= |s|
    ensures forall k :: 0 <= k < |s| ==> Splice(s, i, piece)[k] == if i <= k < i + |piece| then piece[k - i] else s[k]
  {
  }

  lemma SpliceAgain(s: seq<byte>, i: nat, a: seq<byte>, b: seq<byte>)
    requires i + |a| <= |s| && |a| == |b|
    ensures Splice(Splice(s, i, a), i, b) == Splice(s, i, b)
  {
  }

  /** The ESP header, the datagram as it is, padding, and the two bytes that tell the padding and the
      protocol, IP in IP. */
  function Payload(s: seq<byte>, sa: SaEntry, iv: Block): (r: seq<byte>)
    requires |s| >= ESPH && |s| >= IPH + TotLen(s)
    ensures |r| == 24 + EncSize(TotLen(s))
  {
    var n := TotLen(s);
    sa.spi + sa.rpl + iv + (s[IPH..IPH + n] + Zeros(PadLen(n)) + [PadLen(n), 4])
  }

  /** There is memory for the extended packet. */
  ghost predicate Roomy(s: seq<byte>) {
    |s| >= IPH + 4 && |s| >= IPH + ExtendedLen(TotLen(s))
  }

  /** The packet with the payload and a new outer header; the digest's place keeps what was there. */
  function Encapsulated(s: seq<byte>, sa: SaEntry, iv: Block): (r: seq<byte>)
    requires Roomy(s)
    ensures |r| == |s|
  {
    var body := Splice(s, ESPH, Payload(s, sa, iv));
    Splice(body, IPH, Outer(body, ExtendedLen(TotLen(s))))
  }

  /** The checksum is stored in the order of the machine. */
  function WithCheck(s: seq<byte>, csum: int): (r: seq<byte>)
    requires |s| >= ESPH && 0 <= csum <= 0xFFFF
    ensures |r| == |s|
  {
    s[CHECK := csum % 0x100][CHECK + 1 := csum / 0x100]
  }

  /** Storing the complement of the sum over a cleared field completes the sum. */
  lemma CheckCompletes(s: seq<byte>, csum: int)
    requires |s| >= ESPH && 0 <= csum <= 0xFFFF && s[CHECK] == s[CHECK + 1] == 0
    requires (Sum32(s, IPH, 5) + csum) % 0xFFFF == 0
    ensures Sum32(WithCheck(s, csum), IPH, 5) == Sum32(s, IPH, 5) + 0x1_0000 * csum
    ensures Sum16(WithCheck(s, csum), IPH, 10) % 0xFFFF == 0
  {
    hide Sum32, Sum16, Le32, WithCheck;
    var r := WithCheck(s, csum);
    SumOfFive(s);
    SumOfFive(r);
    CheckWord(s, csum);
    OtherWords(s, csum);
    Completed(Sum32(s, IPH, 5), csum);
    var _ := SumsAgree(r, IPH, 5);
  }

  lemma Completed(sum: nat, csum: int)
    requires (sum + csum) % 0xFFFF == 0
    ensures (sum + 0x1_0000 * csum) % 0xFFFF == 0
  {
    var q := (sum + csum) / 0xFFFF;
    assert sum + 0x1_0000 * csum == 0xFFFF * (q + csum);
  }

  lemma SumOfFive(s: seq<byte>)
    requires |s| >= ESPH
    ensures Sum32(s, IPH, 5) ==
              Le32(s, IPH) + Le32(s, IPH + 4) + Le32(s, IPH + 8) + Le32(s, IPH + 12) + Le32(s, IPH + 16)
  {
    hide Le32;
    assert Sum32(s, IPH, 1) == Sum32(s, IPH, 0) + Le32(s, IPH) && Sum32(s, IPH, 0) == 0;
    assert Sum32(s, IPH, 2) == Le32(s, IPH) + Le32(s, IPH + 4);
    assert Sum32(s, IPH, 4) == Sum32(s, IPH, 2) + Le32(s, IPH + 8) + Le32(s, IPH + 12);
  }

  lemma CheckWord(s: seq<byte>, csum: int)
    requires |s| >= ESPH && 0 <= csum <= 0xFFFF && s[CHECK] == s[CHECK + 1] == 0
    ensures Le32(WithCheck(s, csum), IPH + 8) == Le32(s, IPH + 8) + 0x1_0000 * csum
  {
  }

  lemma OtherWords(s: seq<byte>, csum: int)
    requires |s| >= ESPH && 0 <= csum <= 0xFFFF
    ensures var r := WithCheck(s, csum);
            Le32(r, IPH) == Le32(s, IPH) && Le32(r, IPH + 4) == Le32(s, IPH + 4) &&
            Le32(r, IPH + 12) == Le32(s, IPH + 12) && Le32(r, IPH + 16) == Le32(s, IPH + 16)
  {
  }

  /** `memmove`, `memset` and the stores of whole registers. */
  method Store(buf: array<byte>, i: nat, piece: seq<byte>)
    requires i + |piece| <= buf.Length
    modifies buf
    ensures buf[..] == Splice(old(buf[..]), i, piece)
  {
    forall k | 0 <= k < |piece| {
      buf[i + k] := piece[k];
    }
  }

  /** A packet: the data in its buffer, and the annotation that tells the security association. */
  class Packet {
    const buf: array<byte>
    var len: nat
    var flow: Option<nat>

    constructor (buf: array<byte>, len: nat)
      requires len <= buf.Length
      ensures this.buf == buf && this.len == len && flow == None
    {
      this.buf, this.len, flow := buf, len, None;
    }

    /** The payload is put together in place. */
    method WritePayload(sa: SaEntry, iv: Block, preserveLatency: bool)
      requires Roomy(buf[..])
      modifies buf
      ensures buf[..] == Splice(old(buf[..]), ESPH,
                                Payload(old(buf[..]), sa, if preserveLatency then old(buf[LATENCY..INNER]) else iv))
    {
      hide Splice, Zeros, PadLen;
      ghost var s := buf[..];
      var ipLen := buf[IPH + 2] as int * 0x100 + buf[IPH + 3];
      assert ipLen == TotLen(s);
      var padLen := PadLen(ipLen);
      var timestamp := buf[LATENCY..INNER];
      Store(buf, INNER, buf[IPH..IPH + ipLen]);
      Store(buf, INNER + ipLen, Zeros(padLen));
      Store(buf, INNER + ipLen + padLen, [padLen, 4]);
      Store(buf, ESPH, sa.spi);
      Store(buf, ESPH + 4, sa.rpl);
      Store(buf, ESPH + 8, iv);
      if preserveLatency {
        Store(buf, LATENCY, timestamp);
      }
      ghost var inner, iv' := s[IPH..IPH + ipLen], if preserveLatency then timestamp else iv;
      SpliceAdjacent(s, INNER, inner, Zeros(padLen));
      SpliceAdjacent(s, INNER, inner + Zeros(padLen), [padLen, 4]);
      ghost var s' := Splice(s, INNER, inner + Zeros(padLen) + [padLen, 4]);
      SpliceAdjacent(s', ESPH, sa.spi, sa.rpl);
      SpliceAgain(Splice(s', ESPH, sa.spi + sa.rpl), LATENCY, iv, timestamp);
      SpliceAdjacent(s', ESPH, sa.spi + sa.rpl, iv');
      SpliceAdjacent(s, ESPH, sa.spi + sa.rpl + iv', inner + Zeros(padLen) + [padLen, 4]);
    }

    /** The fields of the outer header that change. */
    method WriteFields(tot: int)
      requires buf.Length >= INNER
      modifies buf
      ensures buf[..] == Splice(old(buf[..]), IPH, Outer(old(buf[..]), tot))
    {
      ghost var s := buf[..];
      var t := tot % 0x1_0000;
      buf[IPH] := buf[IPH] as int / 0x10 * 0x10 + 5;
      buf[IPH + 2], buf[IPH + 3] := t / 0x100, t % 0x100;
      buf[IPH + 9] := 0x32;
      buf[CHECK], buf[CHECK + 1] := 0, 0;
      FieldsOf(s, tot);
    }

    /** The outer header: the fields, then the checksum over them. */
    method WriteOuter(tot: int) returns (csum: int)
      requires buf.Length >= INNER
      modifies buf
      ensures 0 <= csum <= 0xFFFF && buf[..] == WithCheck(Splice(old(buf[..]), IPH, Outer(old(buf[..]), tot)), csum)
      ensures Sum16(buf[..], IPH, 10) % 0xFFFF == 0
    {
      hide Sum16, Sum32, Le32, Outer, Splice;
      WriteFields(tot);
      ghost var r := buf[..];
      ClearedCheck(old(buf[..]), tot);
      csum := FastCsum(buf, IPH, 5);
      buf[CHECK], buf[CHECK + 1] := csum % 0x100, csum / 0x100;
      assert buf[..] == WithCheck(r, csum);
      CheckCompletes(r, csum);
    }

    lemma ClearedCheck(s: seq<byte>, tot: int)
      requires |s| >= ESPH
      ensures var r := Splice(s, IPH, Outer(s, tot)); r[CHECK] == r[CHECK + 1] == 0
    {
      OuterAt(s, tot);
      SpliceAt(s, IPH, Outer(s, tot));
    }

    /** `IPsecESPencap::process`: packets of other types or without an association are dropped. */
    method Encapsulate(saTable: map<(int, int), SaEntry>, iv: Block, preserveLatency: bool)
      returns (push: bool, ghost csum: int)
      requires INNER <= len <= buf.Length && Roomy(buf[..]) && len + PadLen(TotLen(buf[..])) + 66 <= buf.Length
      modifies this`len, this`flow, buf
      ensures push <==> Be16(old(buf[..]), 12) == ETHER_TYPE_IPv4 && Tunnel(old(buf[..])) in saTable
      ensures !push ==> buf[..] == old(buf[..]) && len == old(len) && flow == old(flow)
      ensures push ==>
                var s, sa := old(buf[..]), saTable[Tunnel(old(buf[..]))];
                && flow == Some(sa.entryIdx) && len == old(len) + ExtendedLen(TotLen(s)) - TotLen(s)
                && 0 <= csum <= 0xFFFF
                && buf[..] == WithCheck(Encapsulated(s, sa, if preserveLatency then s[LATENCY..INNER] else iv), csum)
                && Sum16(buf[..], IPH, 10) % 0xFFFF == 0
    {
      hide Sum16, Splice, Payload;
      if buf[12] as int * 0x100 + buf[13] != ETHER_TYPE_IPv4 {
        return false, 0;
      }
      var key := Tunnel(buf[..]);
      if key !in saTable {
        return false, 0;
      }
      var sa := saTable[key];
      flow := Some(sa.entryIdx);
      var ipLen := buf[IPH + 2] as int * 0x100 + buf[IPH + 3];
      var extendedIpLen := Short(ExtendedLen(ipLen));
      ShortIsHarmless(ipLen);
      len := len + (extendedIpLen - ipLen) % 0x1_0000;
      WritePayload(sa, iv, preserveLatency);
      OuterModulo(buf[..], extendedIpLen, ExtendedLen(ipLen));
      csum := WriteOuter(extendedIpLen);
      push := true;
    }

    /** `IPsecAES::process`. The cipher's key stream depends on the association and the initial
        vector; the cipher leaves some other vector in the packet. */
    method Encrypt(stream: (nat, Block, nat) -> byte, ivAfter: Block) returns (push: bool)
      requires buf.Length >= INNER && TotLen(buf[..]) >= 64 && INNER + EncSize(TotLen(buf[..]) - 64) <= buf.Length
      modifies buf
      ensures push <==> flow.Some?
      ensures buf[..] == if push then Encrypted(old(buf[..]), stream, flow.value, ivAfter) else old(buf[..])
    {
      hide Splice, Xored;
      if flow.None? {
        return false;
      }
      var encryptedLen := buf[IPH + 2] as int * 0x100 + buf[IPH + 3] - 20 - 24 - SHA_DIGEST_LENGTH;
      var padLen := PadLen(encryptedLen);
      var encSize := encryptedLen + padLen + 2;
      Store(buf, INNER, Xored(buf[INNER..INNER + encSize], stream, flow.value, buf[LATENCY..INNER]));
      Store(buf, LATENCY, ivAfter);
      push := true;
    }

    /** `IPsecAuthHMACSHA1::process`: everything from the ESP header on is authenticated, and the digest
        is written behind it. */
    method Authenticate(keys: nat -> Key, sha1: seq<byte> -> Digest) returns (push: bool)
      requires buf.Length >= ESPH && Authenticated(buf[..]) <= 2048 - 64
      requires Authenticated(buf[..]) >= 0 && ESPH + Authenticated(buf[..]) + SHA_DIGEST_LENGTH <= buf.Length
      modifies buf
      ensures push <==> flow.Some?
      ensures buf[..] == if push then Signed(old(buf[..]), keys(flow.value), sha1) else old(buf[..])
    {
      if flow.None? {
        return false;
      }
      hide Splice, Pad;
      var payloadLen := buf[IPH + 2] as int * 0x100 + buf[IPH + 3] - Ihl(buf[..]) * 4 - SHA_DIGEST_LENGTH;
      var digest := KeyedDigest(buf[ESPH..ESPH + payloadLen], keys(flow.value), sha1);
      Store(buf, ESPH + payloadLen, digest);
      push := true;
    }
  }

  /** The two hash runs over `hmacBuf`. */
  method KeyedDigest(text: seq<byte>, key: Key, sha1: seq<byte> -> Digest) returns (digest: Digest)
    requires |text| <= 2048 - 64
    ensures digest == Hmac(key, text, sha1)
  {
    hide Splice, Pad;
    var hmacBuf := new byte[2048](_ => 0);
    ghost var s := hmacBuf[..];
    Store(hmacBuf, 64, text);
    FillPad(hmacBuf, key, 0x36);
    PadThen(s, key, 0x36, text);
    var isum := sha1(hmacBuf[..64 + |text|]);
    s := hmacBuf[..];
    Store(hmacBuf, 64, isum);
    FillPad(hmacBuf, key, 0x5c);
    PadThen(s, key, 0x5c, isum);
    digest := sha1(hmacBuf[..64 + SHA_DIGEST_LENGTH]);
  }

  lemma PadThen(s: seq<byte>, key: Key, c: byte, text: seq<byte>)
    requires 64 + |text| <= |s|
    ensures Splice(Splice(s, 64, text), 0, Pad(key, c))[..64 + |text|] == Pad(key, c) + text
  {
    hide Pad;
    var t := Splice(s, 64, text);
    assert t[64..64 + |text|] == text;
    assert Splice(t, 0, Pad(key, c)) == Pad(key, c) + t[64..];
  }

  /** The key stream is added. */
  function Xored(s: seq<byte>, stream: (nat, Block, nat) -> byte, flow: nat, iv: Block): (r: seq<byte>)
    ensures |r| == |s|
  {
    seq<byte>(|s|, i requires 0 <= i < |s| => Xor(s[i], stream(flow, iv, i)))
  }

  predicate Differ(x: bool, y: bool) {
    x != y
  }

  function Xor(a: byte, b: byte): byte {
    Pow2Values();
    Bitwise(Differ, a, b, 8)
  }

  /** Bit by bit it is exclusive or. */
  lemma XorBits(a: byte, b: byte, j: nat)
    requires j < 8
    ensures Bit(Xor(a, b), j) <==> Bit(a, j) != Bit(b, j)
  {
    BitwiseBit(Differ, a, b, 8, j);
  }

  function Encrypted(s: seq<byte>, stream: (nat, Block, nat) -> byte, flow: nat, ivAfter: Block): (r: seq<byte>)
    requires |s| >= INNER && TotLen(s) >= 64 && INNER + EncSize(TotLen(s) - 64) <= |s|
    ensures |r| == |s|
  {
    var n := EncSize(TotLen(s) - 64);
    Splice(Splice(s, INNER, Xored(s[INNER..INNER + n], stream, flow, s[LATENCY..INNER])), LATENCY, ivAfter)
  }

  /** The number of bytes authenticated. */
  function Authenticated(s: seq<byte>): int
    requires |s| >= ESPH
  {
    TotLen(s) - 4 * Ihl(s) - SHA_DIGEST_LENGTH
  }

  function XorAll(s: seq<byte>, c: byte): (r: seq<byte>)
    ensures |r| == |s|
  {
    seq<byte>(|s|, i requires 0 <= i < |s| => Xor(s[i], c))
  }

  function Pad(key: Key, c: byte): Key {
    XorAll(key, c)
  }

  /** HMAC as section 2 of RFC 2104 defines it, for a key of one block. */
  function Hmac(key: Key, text: seq<byte>, sha1: seq<byte> -> Digest): Digest {
    sha1(Pad(key, 0x5c) + sha1(Pad(key, 0x36) + text))
  }

  function Signed(s: seq<byte>, key: Key, sha1: seq<byte> -> Digest): (r: seq<byte>)
    requires |s| >= ESPH && Authenticated(s) >= 0 && ESPH + Authenticated(s) + SHA_DIGEST_LENGTH <= |s|
    ensures |r| == |s|
  {
    Splice(s, ESPH + Authenticated(s), Hmac(key, s[ESPH..ESPH + Authenticated(s)], sha1))
  }

  /** The loop over the eight words of the key. */
  method FillPad(hmacBuf: array<byte>, key: Key, c: byte)
    requires hmacBuf.Length >= 64
    modifies hmacBuf
    ensures hmacBuf[..] == Splice(old(hmacBuf[..]), 0, Pad(key, c))
  {
    hide Splice, Pad, XorAll;
    ghost var s := hmacBuf[..];
    var i := 0;
    NoPiece(s);
    while i < 8
      invariant 0 <= i <= 8 && hmacBuf[..] == Splice(s, 0, Pad(key, c)[..8 * i])
    {
      PadStep(key, c, i);
      Store(hmacBuf, 8 * i, XorAll(key[8 * i..8 * i + 8], c));
      SpliceAdjacent(s, 0, Pad(key, c)[..8 * i], XorAll(key[8 * i..8 * i + 8], c));
      i := i + 1;
    }
    assert Pad(key, c)[..64] == Pad(key, c);
  }

  lemma PadStep(key: Key, c: byte, i: nat)
    requires i < 8
    ensures Pad(key, c)[..8 * (i + 1)] == Pad(key, c)[..8 * i] + XorAll(key[8 * i..8 * i + 8], c)
  {
    hide Xor;
  }

  lemma NoPiece(s: seq<byte>)
    ensures Splice(s, 0, []) == s
  {
  }

  lemma XorTwice(a: byte, b: byte)
    ensures Xor(Xor(a, b), b) == a
  {
    Pow2Values();
    XorBitsTwice(a, b, 8);
  }

  lemma {:induction false} XorBitsTwice(a: nat, b: nat, n: nat)
    requires a < Pow2(n)
    ensures Bitwise(Differ, Bitwise(Differ, a, b, n), b, n) == a
  {
    if n > 0 {
      var high := Bitwise(Differ, a / 2, b / 2, n - 1);
      XorBitsTwice(a / 2, b / 2, n - 1);
      LowAndHigh(if a % 2 == b % 2 then 0 else 1, high);
    }
  }

  /** The block that is encrypted beyond the payload lies inside the digest's place, which is written later. */
  lemma ExtraBlockInDigest(ipLen: nat)
    ensures ExtendedLen(ipLen) - 64 == EncSize(ipLen)
    ensures INNER + EncSize(ipLen) == IPH + ExtendedLen(ipLen) - SHA_DIGEST_LENGTH
    ensures EncSize(EncSize(ipLen)) == EncSize(ipLen) + AES_BLOCK_SIZE < EncSize(ipLen) + SHA_DIGEST_LENGTH
  {
  }

  function Clear(s: seq<byte>): (r: seq<byte>)
    requires |s| >= IPH + 4 && |s| >= IPH + TotLen(s)
    ensures |r| == EncSize(TotLen(s))
  {
    s[IPH..IPH + TotLen(s)] + Zeros(PadLen(TotLen(s))) + [PadLen(TotLen(s)), 4]
  }

  /** The encapsulated packet: what it says of itself, and where the parts are. */
  lemma EncapsulatedParts(s: seq<byte>, sa: SaEntry, iv: Block, csum: int)
    requires Roomy(s) && ExtendedLen(TotLen(s)) <= 0xFFFF && 0 <= csum <= 0xFFFF
    ensures var r, n := WithCheck(Encapsulated(s, sa, iv), csum), TotLen(s);
            && TotLen(r) == ExtendedLen(n) && Ihl(r) == 5 && r[IPH] as int / 0x10 == s[IPH] as int / 0x10
            && Be16(r, 12) == Be16(s, 12)
            && r[LATENCY..INNER] == iv && r[INNER..INNER + EncSize(n)] == Clear(s)
            && r[INNER + EncSize(n)..] == s[INNER + EncSize(n)..]
  {
    hide Encapsulated, WithCheck, TotLen, Ihl, Be16, ExtendedLen;
    EncapsulatedHeader(s, sa, iv, csum);
    EncapsulatedBody(s, sa, iv, csum);
  }

  lemma EncapsulatedHeader(s: seq<byte>, sa: SaEntry, iv: Block, csum: int)
    requires Roomy(s) && ExtendedLen(TotLen(s)) <= 0xFFFF && 0 <= csum <= 0xFFFF
    ensures var r := WithCheck(Encapsulated(s, sa, iv), csum);
            && TotLen(r) == ExtendedLen(TotLen(s)) && Ihl(r) == 5 && r[IPH] as int / 0x10 == s[IPH] as int / 0x10
            && Be16(r, 12) == Be16(s, 12)
  {
    hide Outer, Splice, Payload;
    var body := Splice(s, ESPH, Payload(s, sa, iv));
    OuterAt(body, ExtendedLen(TotLen(s)));
    SpliceAt(s, ESPH, Payload(s, sa, iv));
    SpliceAt(body, IPH, Outer(body, ExtendedLen(TotLen(s))));
    var r := WithCheck(Encapsulated(s, sa, iv), csum);
    assert r[12] == s[12] && r[13] == s[13];
  }

  lemma EncapsulatedBody(s: seq<byte>, sa: SaEntry, iv: Block, csum: int)
    requires Roomy(s) && ExtendedLen(TotLen(s)) <= 0xFFFF && 0 <= csum <= 0xFFFF
    ensures var r, n := WithCheck(Encapsulated(s, sa, iv), csum), TotLen(s);
            && r[LATENCY..INNER] == iv && r[INNER..INNER + EncSize(n)] == Clear(s)
            && r[INNER + EncSize(n)..] == s[INNER + EncSize(n)..]
  {
    hide Outer, Zeros;
    var n := TotLen(s);
    var r := WithCheck(Encapsulated(s, sa, iv), csum);
    assert r[ESPH..] == Payload(s, sa, iv) + s[INNER + EncSize(n)..];
    assert r[LATENCY..INNER] == r[ESPH..][8..24];
    assert r[INNER..INNER + EncSize(n)] == r[ESPH..][24..24 + EncSize(n)];
  }

  /** The encapsulated packet byte by byte, from the addresses on: the association's index and replay
      counter, the vector, the datagram, zeros, the length of the padding and protocol 4. */
  lemma EncapsulatedBytes(s: seq<byte>, sa: SaEntry, iv: Block, csum: int)
    requires Roomy(s) && 0 <= csum <= 0xFFFF
    ensures var r, n := WithCheck(Encapsulated(s, sa, iv), csum), TotLen(s);
            var pad, trail := INNER + n, INNER + n + PadLen(n);
            && r[..IPH] == s[..IPH] && r[IPH + 12..ESPH] == s[IPH + 12..ESPH]
            && r[ESPH..ESPH + 4] == sa.spi && r[ESPH + 4..LATENCY] == sa.rpl && r[LATENCY..INNER] == iv
            && r[INNER..pad] == s[IPH..IPH + n] && (forall k :: pad <= k < trail ==> r[k] == 0)
            && r[trail..trail + 2] == [PadLen(n), 4] && r[trail + 2..] == s[trail + 2..]
  {
    hide Payload, PadLen, TotLen, Encapsulated, WithCheck;
    var n, p := TotLen(s), Payload(s, sa, iv);
    var r := WithCheck(Encapsulated(s, sa, iv), csum);
    BeforePayload(s, sa, iv, csum);
    FromPayload(s, sa, iv, csum);
    PayloadParts(s, sa, iv);
    var t, pad, trail := r[ESPH..], 24 + n, 24 + n + PadLen(n);
    assert r[ESPH..ESPH + 4] == p[..4] && r[ESPH + 4..LATENCY] == p[4..8] && r[LATENCY..INNER] == p[8..24];
    assert r[INNER..INNER + n] == p[24..pad];
    forall k | INNER + n <= k < INNER + n + PadLen(n) ensures r[k] == 0 {
      assert r[k] == t[k - ESPH] == p[pad..trail][k - ESPH - pad];
      ZeroAt(PadLen(n), k - ESPH - pad);
    }
    assert r[ESPH + trail..ESPH + trail + 2] == p[trail..];
    assert r[ESPH + trail + 2..] == t[|p|..] == s[ESPH + |p|..];
  }

  lemma FromPayload(s: seq<byte>, sa: SaEntry, iv: Block, csum: int)
    requires Roomy(s) && 0 <= csum <= 0xFFFF
    ensures ESPH + |Payload(s, sa, iv)| <= |s|
    ensures WithCheck(Encapsulated(s, sa, iv), csum)[ESPH..] ==
              Payload(s, sa, iv) + s[ESPH + |Payload(s, sa, iv)|..]
  {
    hide Outer, Payload;
  }

  lemma PayloadParts(s: seq<byte>, sa: SaEntry, iv: Block)
    requires |s| >= ESPH && |s| >= IPH + TotLen(s)
    ensures var p, n := Payload(s, sa, iv), TotLen(s);
            var pad, trail := 24 + n, 24 + n + PadLen(n);
            && |p| == trail + 2 && p[..4] == sa.spi && p[4..8] == sa.rpl && p[8..24] == iv
            && p[24..pad] == s[IPH..IPH + n] && p[pad..trail] == Zeros(PadLen(n)) && p[trail..] == [PadLen(n), 4]
  {
    hide PadLen, Zeros, TotLen;
    var p, n := Payload(s, sa, iv), TotLen(s);
    assert p[24..] == s[IPH..IPH + n] + Zeros(PadLen(n)) + [PadLen(n), 4];
    assert p[24..24 + n] == p[24..][..n];
  }

  lemma ZeroAt(n: nat, k: nat)
    requires k < n
    ensures Zeros(n)[k] == 0
  {
  }

  lemma BeforePayload(s: seq<byte>, sa: SaEntry, iv: Block, csum: int)
    requires Roomy(s) && 0 <= csum <= 0xFFFF
    ensures var r := WithCheck(Encapsulated(s, sa, iv), csum);
            r[..IPH] == s[..IPH] && r[IPH + 12..ESPH] == s[IPH + 12..ESPH]
  {
    hide Outer, Splice, Payload;
    var body := Splice(s, ESPH, Payload(s, sa, iv));
    OuterAt(body, ExtendedLen(TotLen(s)));
    SpliceAt(s, ESPH, Payload(s, sa, iv));
    SpliceAt(body, IPH, Outer(body, ExtendedLen(TotLen(s))));
  }

  /** The packet that leaves passes `CheckIPHeader` if and only if the one that came said version 4. */
  lemma EncapsulatedIsAcceptable(s: seq<byte>, sa: SaEntry, iv: Block, csum: int)
    requires Roomy(s) && ExtendedLen(TotLen(s)) <= 0xFFFF && 0 <= csum <= 0xFFFF && Be16(s, 12) == ETHER_TYPE_IPv4
    requires Sum16(WithCheck(Encapsulated(s, sa, iv), csum), IPH, 10) % 0xFFFF == 0
    ensures Acceptable(WithCheck(Encapsulated(s, sa, iv), csum)) <==> s[IPH] as int / 0x10 == 4
  {
    hide Sum16, WithCheck, Encapsulated;
    EncapsulatedParts(s, sa, iv, csum);
  }

  /** What a receiver does: the digest is compared. */
  predicate Verified(s: seq<byte>, key: Key, sha1: seq<byte> -> Digest)
    requires |s| >= ESPH
  {
    && Authenticated(s) >= 0 && ESPH + Authenticated(s) + SHA_DIGEST_LENGTH <= |s|
    && s[ESPH + Authenticated(s)..ESPH + Authenticated(s) + SHA_DIGEST_LENGTH] ==
         Hmac(key, s[ESPH..ESPH + Authenticated(s)], sha1)
  }

  /** The rest, as section 3.4.4 of RFC 4303 describes it: the payload is decrypted, and its last two
      bytes tell the padding to remove and the protocol inside. */
  function Received(s: seq<byte>, stream: (nat, Block, nat) -> byte, flow: nat, iv: Block): Option<seq<byte>>
    requires |s| >= ESPH && 64 <= TotLen(s) <= |s| - IPH
  {
    var clear := Xored(s[INNER..IPH + TotLen(s) - SHA_DIGEST_LENGTH], stream, flow, iv);
    var n := |clear|;
    if n < 2 || clear[n - 1] != 4 || clear[n - 2] as int + 2 > n then None
    else Some(clear[..n - 2 - clear[n - 2] as int])
  }

  lemma EncryptedParts(s: seq<byte>, stream: (nat, Block, nat) -> byte, flow: nat, ivAfter: Block, n: nat)
    requires |s| >= IPH + ExtendedLen(n) && TotLen(s) == ExtendedLen(n)
    ensures EncSize(EncSize(n)) + INNER <= |s|
    ensures var r := Encrypted(s, stream, flow, ivAfter);
            && TotLen(r) == TotLen(s) && Ihl(r) == Ihl(s)
            && r[INNER..INNER + EncSize(n)] == Xored(s[INNER..INNER + EncSize(n)], stream, flow, s[LATENCY..INNER])
            && r[LATENCY..INNER] == ivAfter
  {
    hide Xored, Splice, EncSize;
    ExtraBlockInDigest(n);
    var m, iv := EncSize(EncSize(n)), s[LATENCY..INNER];
    var x := Xored(s[INNER..INNER + m], stream, flow, iv);
    SpliceAt(s, INNER, x);
    SpliceAt(Splice(s, INNER, x), LATENCY, ivAfter);
    XoredPrefix(s[INNER..INNER + m], stream, flow, iv, EncSize(n));
    assert s[INNER..INNER + m][..EncSize(n)] == s[INNER..INNER + EncSize(n)];
  }

  lemma XoredPrefix(s: seq<byte>, stream: (nat, Block, nat) -> byte, flow: nat, iv: Block, n: nat)
    requires n <= |s|
    ensures Xored(s, stream, flow, iv)[..n] == Xored(s[..n], stream, flow, iv)
  {
  }

  lemma SignedParts(s: seq<byte>, key: Key, sha1: seq<byte> -> Digest)
    requires |s| >= INNER && Authenticated(s) >= 24 && ESPH + Authenticated(s) + SHA_DIGEST_LENGTH <= |s|
    ensures var r := Signed(s, key, sha1);
            && r[..ESPH + Authenticated(s)] == s[..ESPH + Authenticated(s)] && TotLen(r) == TotLen(s) &&
               Ihl(r) == Ihl(s)
            && Verified(r, key, sha1)
  {
    var r, d := Signed(s, key, sha1), ESPH + Authenticated(s);
    assert r[..d] == s[..d];
    assert TotLen(r) == Be16(r[..d], IPH + 2) && TotLen(s) == Be16(s[..d], IPH + 2);
    assert Ihl(r) == Ihl(r[..d]) && Ihl(s) == Ihl(s[..d]);
    assert r[ESPH..d] == r[..d][ESPH..] && s[ESPH..d] == s[..d][ESPH..];
  }

  /** The packet as it leaves: encapsulated, encrypted, authenticated. */
  function Sent(s: seq<byte>, sa: SaEntry, iv: Block, csum: int, stream: (nat, Block, nat) -> byte, flow: nat,
                ivAfter: Block, key: Key, sha1: seq<byte> -> Digest): (t: seq<byte>)
    requires Roomy(s) && ExtendedLen(TotLen(s)) <= 0xFFFF && 0 <= csum <= 0xFFFF
    ensures |t| == |s|
  {
    var r := WithCheck(Encapsulated(s, sa, iv), csum);
    Roomier(s, sa, iv, csum, stream, flow, ivAfter);
    Signed(Encrypted(r, stream, flow, ivAfter), key, sha1)
  }

  lemma Roomier(s: seq<byte>, sa: SaEntry, iv: Block, csum: int, stream: (nat, Block, nat) -> byte, flow: nat,
                ivAfter: Block)
    requires Roomy(s) && ExtendedLen(TotLen(s)) <= 0xFFFF && 0 <= csum <= 0xFFFF
    ensures var r := WithCheck(Encapsulated(s, sa, iv), csum);
            && TotLen(r) >= 64 && INNER + EncSize(TotLen(r) - 64) <= |r|
            && var e := Encrypted(r, stream, flow, ivAfter);
               Authenticated(e) >= 0 && ESPH + Authenticated(e) + SHA_DIGEST_LENGTH <= |e|
  {
    hide WithCheck, Encapsulated, Encrypted, Zeros;
    EncapsulatedParts(s, sa, iv, csum);
    ExtraBlockInDigest(TotLen(s));
    EncryptedParts(WithCheck(Encapsulated(s, sa, iv), csum), stream, flow, ivAfter, TotLen(s));
  }

  /** Two vectors give the same key stream where a receiver needs it: over the datagram and over the two
      bytes that tell the padding and the protocol. */
  ghost predicate StreamsAgree(stream: (nat, Block, nat) -> byte, flow: nat, v: Block, w: Block, n: nat) {
    && (forall i :: 0 <= i < n ==> stream(flow, v, i) == stream(flow, w, i))
    && (forall i :: EncSize(n) - 2 <= i < EncSize(n) && i >= 0 ==> stream(flow, v, i) == stream(flow, w, i))
  }

  lemma XorSame(a: byte, b: byte, c: byte)
    ensures Xor(Xor(a, b), c) == a <==> b == c
  {
    hide Xor;
    XorTwice(a, b);
    XorTwice(Xor(a, b), c);
    XorCommutes(a, b);
    XorCommutes(a, c);
    XorTwice(b, a);
    XorTwice(c, a);
  }

  lemma XorCommutes(a: byte, b: byte)
    ensures Xor(a, b) == Xor(b, a)
  {
    DifferCommutes(a, b, 8);
  }

  lemma {:induction false} DifferCommutes(a: nat, b: nat, n: nat)
    ensures Bitwise(Differ, a, b, n) == Bitwise(Differ, b, a, n)
  {
    if n > 0 {
      DifferCommutes(a / 2, b / 2, n - 1);
    }
  }

  /** What was encapsulated, encrypted and authenticated is verified and carries the vector the cipher
      left; a receiver that decrypts with `v` gets the datagram back if and only if the key stream of
      `v` agrees with that of the vector the cipher started with. */
  lemma ReceivedWith(s: seq<byte>, sa: SaEntry, iv: Block, csum: int, stream: (nat, Block, nat) -> byte, flow: nat,
                     ivAfter: Block, key: Key, sha1: seq<byte> -> Digest, v: Block)
    requires Roomy(s) && ExtendedLen(TotLen(s)) <= 0xFFFF && 0 <= csum <= 0xFFFF
    ensures var t := Sent(s, sa, iv, csum, stream, flow, ivAfter, key, sha1);
            && Verified(t, key, sha1) && 64 <= TotLen(t) <= |t| - IPH && t[LATENCY..INNER] == ivAfter
            && (Received(t, stream, flow, v) == Some(s[IPH..IPH + TotLen(s)]) <==>
                StreamsAgree(stream, flow, v, iv, TotLen(s)))
  {
    hide WithCheck, Encapsulated, Encrypted, Signed, Verified, Xored, Zeros, Clear, StreamsAgree;
    var n := TotLen(s);
    var r := WithCheck(Encapsulated(s, sa, iv), csum);
    EncapsulatedParts(s, sa, iv, csum);
    ExtraBlockInDigest(n);
    var e := Encrypted(r, stream, flow, ivAfter);
    EncryptedParts(r, stream, flow, ivAfter, n);
    var t, d := Signed(e, key, sha1), INNER + EncSize(n);
    SignedParts(e, key, sha1);
    assert t[INNER..d] == t[..d][INNER..] && e[INNER..d] == e[..d][INNER..];
    assert t[LATENCY..INNER] == t[..d][LATENCY..INNER] && e[LATENCY..INNER] == e[..d][LATENCY..INNER];
    Stripped(s, stream, flow, iv, v);
  }

  /** What is left after decrypting with `v` and stripping the padding. */
  lemma Stripped(s: seq<byte>, stream: (nat, Block, nat) -> byte, flow: nat, iv: Block, v: Block)
    requires Roomy(s)
    ensures var n := TotLen(s); var m := EncSize(n);
            var clear := Xored(Xored(Clear(s), stream, flow, iv), stream, flow, v);
            m >= 2 &&
            (clear[m - 1] == 4 && clear[m - 2] as int + 2 <= m &&
             clear[..m - 2 - clear[m - 2] as int] == s[IPH..IPH + n] <==>
             StreamsAgree(stream, flow, v, iv, n))
  {
    hide Xor, Zeros;
    var n, c := TotLen(s), Clear(s);
    var m := EncSize(n);
    var clear := Xored(Xored(c, stream, flow, iv), stream, flow, v);
    assert c[..n] == s[IPH..IPH + n] && c[m - 2] == PadLen(n) && c[m - 1] == 4;
    forall i | 0 <= i < m ensures clear[i] == c[i] <==> stream(flow, v, i) == stream(flow, iv, i) {
      XorSame(c[i], stream(flow, iv, i), stream(flow, v, i));
    }
    if clear[m - 1] == 4 && clear[m - 2] as int + 2 <= m && clear[..m - 2 - clear[m - 2] as int] == s[IPH..IPH + n] {
      assert |clear[..m - 2 - clear[m - 2] as int]| == n;
      forall i | 0 <= i < n ensures clear[i] == c[i] {
        assert clear[..n][i] == c[..n][i];
      }
    }
    if StreamsAgree(stream, flow, v, iv, n) {
      assert clear[..n] == c[..n];
    }
  }

  /** With the vector the cipher started with the receiver gets the datagram back. */
  lemma RoundTrip(s: seq<byte>, sa: SaEntry, iv: Block, csum: int, stream: (nat, Block, nat) -> byte, flow: nat,
                  ivAfter: Block, key: Key, sha1: seq<byte> -> Digest)
    requires Roomy(s) && ExtendedLen(TotLen(s)) <= 0xFFFF && 0 <= csum <= 0xFFFF
    ensures var t := Sent(s, sa, iv, csum, stream, flow, ivAfter, key, sha1);
            Verified(t, key, sha1) && 64 <= TotLen(t) <= |t| - IPH &&
              Received(t, stream, flow, iv) == Some(s[IPH..IPH + TotLen(s)])
  {
    hide Sent, Verified, Received;
    ReceivedWith(s, sa, iv, csum, stream, flow, ivAfter, key, sha1, iv);
  }

  /** The packet carries the vector the cipher left there: a receiver that takes it from the packet is
      served only if its key stream is the same, which a stream that depends on the vector shows not
      to be so in general. */
  lemma PacketVectorFails(s: seq<byte>, sa: SaEntry, iv: Block, csum: int, flow: nat, ivAfter: Block, key: Key,
                          sha1: seq<byte> -> Digest)
    requires Roomy(s) && ExtendedLen(TotLen(s)) <= 0xFFFF && 0 <= csum <= 0xFFFF && iv[0] != ivAfter[0]
    ensures var stream := (f: nat, v: Block, i: nat) => v[0];
            var t := Sent(s, sa, iv, csum, stream, flow, ivAfter, key, sha1);
            && 64 <= TotLen(t) <= |t| - IPH
            && Received(t, stream, flow, t[LATENCY..INNER]) != Some(s[IPH..IPH + TotLen(s)])
  {
    hide Sent, Verified, Received;
    var stream := (f: nat, v: Block, i: nat) => v[0];
    ReceivedWith(s, sa, iv, csum, stream, flow, ivAfter, key, sha1, ivAfter);
    assert stream(flow, ivAfter, EncSize(TotLen(s)) - 1) != stream(flow, iv, EncSize(TotLen(s)) - 1);
  }
}
