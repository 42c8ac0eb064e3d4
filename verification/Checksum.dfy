/** The IPv4 header checksum: the test by 32-bit additions with carry, and the update when the TTL
    is decremented. */
module Checksum {
  type byte = x: int | 0 <= x < 0x100
  type uint32 = x: int | 0 <= x < 0x1_0000_0000

  const IPH: nat := 14
  const TTL: nat := IPH + 8
  const CHECK: nat := IPH + 10
  const ETHER_TYPE_IPv4: int := 0x0800

  /** The 16-bit word in network order at `i`. */
  function Be16(s: seq<byte>, i: nat): int
    requires i + 2 <= |s|
  {
    s[i] as int * 0x100 + s[i + 1]
  }

  /** The 32-bit word in the order of the machine at `i`. */
  function Le32(s: seq<byte>, i: nat): uint32
    requires i + 4 <= |s|
  {
    s[i] as int + s[i + 1] as int * 0x100 + s[i + 2] as int * 0x1_0000 + s[i + 3] as int * 0x100_0000
  }

  function Sum16(s: seq<byte>, i: nat, n: nat): (sum: nat)
    requires i + 2 * n <= |s|
  {
    if n == 0 then 0 else Sum16(s, i, n - 1) + Be16(s, i + 2 * (n - 1))
  }

  function Sum32(s: seq<byte>, i: nat, n: nat): (sum: nat)
    requires i + 4 * n <= |s|
  {
    if n == 0 then 0 else Sum32(s, i, n - 1) + Le32(s, i + 4 * (n - 1))
  }

  /** Both sums are zero in the ones' complement sense for the same headers: one is the other with
      the bytes of the words exchanged. */
  lemma {:induction false} SumsAgree(s: seq<byte>, i: nat, n: nat) returns (q: int)
    requires i + 4 * n <= |s|
    ensures 256 * Sum32(s, i, n) == Sum16(s, i, 2 * n) + 0xFFFF * q
    ensures Sum32(s, i, n) % 0xFFFF == 0 <==> Sum16(s, i, 2 * n) % 0xFFFF == 0
    ensures Sum32(s, i, n) == 0 <==> Sum16(s, i, 2 * n) == 0
  {
    q := 0;
    if n > 0 {
      var q0 := SumsAgree(s, i, n - 1);
      var j := i + 4 * (n - 1);
      assert Sum16(s, i, 2 * n) == Sum16(s, i, 2 * (n - 1)) + Be16(s, j) + Be16(s, j + 2);
      q := q0 + s[j + 1] + 256 * s[j + 2] + 65537 * s[j + 3];
    }
    Multiples(Sum32(s, i, n), Sum16(s, i, 2 * n), q);
  }

  lemma Multiples(a: nat, b: nat, q: int)
    requires 256 * a == b + 0xFFFF * q
    ensures a % 0xFFFF == 0 <==> b % 0xFFFF == 0
  {
    if a % 0xFFFF == 0 {
      var k := a / 0xFFFF;
      assert b == 0xFFFF * (256 * k - q);
    }
    if b % 0xFFFF == 0 {
      var k := b / 0xFFFF;
      assert a == 0xFFFF * (256 * k + 256 * q - a);
    }
  }

  /** `adcl`: the sum and the carry out. */
  function Adc(x: uint32, y: uint32, carry: int): (r: (uint32, int))
    requires carry == 0 || carry == 1
    ensures r.1 == 0 || r.1 == 1
  {
    var t := x + y + carry;
    if t < 0x1_0000_0000 then (t, 0) else (t - 0x1_0000_0000, 1)
  }

  /** `sum` with its carry stands for `total`: they agree modulo 0xFFFFFFFF, and the carry can still
      be added to the sum without another one. */
  predicate Stands(sum: uint32, carry: int, total: nat) {
    && (carry == 0 || carry == 1) && sum + carry <= 0xFFFF_FFFF
    && (total - sum - carry) % 0xFFFF_FFFF == 0
    && (sum + carry == 0 <==> total == 0)
  }

  lemma AdcStands(sum: uint32, carry: int, total: nat, y: uint32)
    requires Stands(sum, carry, total)
    ensures var r := Adc(sum, y, carry); Stands(r.0, r.1, total + y)
  {
    var r := Adc(sum, y, carry);
    var k := (total - sum - carry) / 0xFFFF_FFFF;
    assert total + y - r.0 - r.1 == 0xFFFF_FFFF * (k + r.1);
  }

  /** The last steps: add the carry, fold the halves with the carry of that, complement. */
  function Fold(sum: uint32, carry: int): (r: int)
    requires carry == 0 || carry == 1
  {
    var a := Adc(sum, 0, carry).0;
    var t := a / 0x1_0000 + a % 0x1_0000;
    0xFFFF - (t % 0x1_0000 + t / 0x1_0000)
  }

  lemma FoldCompletes(sum: uint32, carry: int, total: nat)
    requires Stands(sum, carry, total)
    ensures var r := Fold(sum, carry);
            0 <= r <= 0xFFFF && (total + r) % 0xFFFF == 0 && (r == 0xFFFF <==> total == 0)
  {
    hide Fold;
    var k := (total - sum - carry) / 0xFFFF_FFFF;
    var q := FoldOf(sum, carry);
    assert total + Fold(sum, carry) == 0xFFFF * (65537 * k + q);
  }

  lemma FoldOf(sum: uint32, carry: int) returns (q: int)
    requires 0 <= carry <= 1 && sum + carry <= 0xFFFF_FFFF
    ensures var r := Fold(sum, carry);
            0 <= r <= 0xFFFF && sum + carry + r == 0xFFFF * q && (r == 0xFFFF <==> sum + carry == 0)
  {
    var a := sum + carry;
    var hi, lo := a / 0x1_0000, a % 0x1_0000;
    var c := (hi + lo) / 0x1_0000;
    assert a == hi * 0x1_0000 + lo && 0 <= c <= 1;
    q := hi + 1 + c;
    assert Fold(sum, carry) == 0xFFFF - (hi + lo - 0xFFFF * c);
  }

  /** `ip_fast_csum`: with at least five words, the complement of the ones' complement sum. */
  method FastCsum(pkt: array<byte>, iph: nat, ihl: nat) returns (csum: int)
    requires iph + 4 <= pkt.Length && iph + 4 * ihl <= pkt.Length
    ensures ihl <= 4 ==> csum == Le32(pkt[..], iph) % 0x1_0000
    ensures ihl > 4 ==> 0 <= csum <= 0xFFFF && (Sum32(pkt[..], iph, ihl) + csum) % 0xFFFF == 0
    ensures ihl > 4 ==> (csum == 0xFFFF <==> Sum32(pkt[..], iph, ihl) == 0)
  {
    ghost var s := pkt[..];
    hide Adc, Fold, Le32, Stands, Sum32;
    var sum := Load(pkt, iph);
    if ihl <= 4 {
      return sum % 0x1_0000;
    }
    Starts(s, iph, sum);
    var carry := 0;
    var i := 1;
    while i < ihl
      invariant 1 <= i <= ihl && (carry == 0 || carry == 1) && Stands(sum, carry, Sum32(s, iph, i))
    {
      var y := Load(pkt, iph + 4 * i);
      AdcStands(sum, carry, Sum32(s, iph, i), y);
      SumNext(s, iph, i);
      var r := Adc(sum, y, carry);
      sum, carry := r.0, r.1;
      i := i + 1;
    }
    FoldCompletes(sum, carry, Sum32(s, iph, ihl));
    csum := Fold(sum, carry);
  }

  lemma SumNext(s: seq<byte>, iph: nat, i: nat)
    requires iph + 4 * (i + 1) <= |s|
    ensures Sum32(s, iph, i + 1) == Sum32(s, iph, i) + Le32(s, iph + 4 * i)
  {
    hide Le32;
  }

  lemma Starts(s: seq<byte>, iph: nat, sum: uint32)
    requires iph + 4 <= |s| && sum == Le32(s, iph)
    ensures Stands(sum, 0, Sum32(s, iph, 1))
  {
    assert Sum32(s, iph, 0) == 0;
  }

  /** `movl`. */
  method Load(pkt: array<byte>, i: nat) returns (w: uint32)
    requires i + 4 <= pkt.Length
    ensures w == Le32(pkt[..], i)
  {
    w := pkt[i] as int + pkt[i + 1] as int * 0x100 + pkt[i + 2] as int * 0x1_0000 + pkt[i + 3] as int * 0x100_0000;
  }

  function Ihl(s: seq<byte>): nat
    requires |s| > IPH
  {
    s[IPH] as int % 0x10
  }

  /** The bytes hold the whole header that their length field announces. */
  predicate HoldsHeader(s: seq<byte>) {
    |s| >= IPH + 20 && |s| >= IPH + 4 * Ihl(s)
  }

  /** What `CheckIPHeader` lets pass, as section 3.1 of RFC 791 states it: the ones' complement sum of
      all 16-bit words of the header, the checksum field included, is zero. */
  predicate Acceptable(s: seq<byte>)
    requires HoldsHeader(s)
  {
    && Be16(s, 12) == ETHER_TYPE_IPv4
    && s[IPH] as int / 0x10 == 4 && Ihl(s) >= 5
    && 4 * Ihl(s) <= Be16(s, IPH + 2)
    && Sum16(s, IPH, 2 * Ihl(s)) % 0xFFFF == 0
  }

  /** `CheckIPHeader::process`. */
  method CheckIPHeader(pkt: array<byte>) returns (push: bool)
    requires HoldsHeader(pkt[..])
    ensures push <==> Acceptable(pkt[..])
  {
    if pkt[12] as int * 0x100 + pkt[13] != ETHER_TYPE_IPv4 {
      return false;
    }
    var version, ihl: nat := pkt[IPH] as int / 0x10, pkt[IPH] as int % 0x10;
    if version != 4 || ihl < 5 {
      return false;
    }
    if ihl * 4 > pkt[IPH + 2] as int * 0x100 + pkt[IPH + 3] {
      return false;
    }
    var csum := FastCsum(pkt, IPH, ihl);
    ghost var _ := SumsAgree(pkt[..], IPH, ihl);
    hide Sum32, Sum16;
    ZeroWhenComplete(Sum32(pkt[..], IPH, ihl), csum);
    if csum != 0 {
      FirstWordCounts(pkt[..], IPH, ihl);
      return false;
    }
    push := true;
  }

  lemma ZeroWhenComplete(total: nat, csum: int)
    requires 0 <= csum <= 0xFFFF && (total + csum) % 0xFFFF == 0 && (csum == 0xFFFF <==> total == 0)
    ensures csum == 0 <==> total % 0xFFFF == 0 && total != 0
  {
  }

  /** A header whose first byte is not zero has a sum that is not zero. */
  lemma {:induction false} FirstWordCounts(s: seq<byte>, i: nat, n: nat)
    requires n > 0 && i + 4 * n <= |s|
    ensures Sum32(s, i, n) >= s[i]
  {
    if n > 1 {
      FirstWordCounts(s, i, n - 1);
    } else {
      assert Sum32(s, i, 0) == 0;
    }
  }

  /** The header carries the checksum that a computation from scratch gives: the one that completes
      the sum of its words, and not the second form of zero. */
  ghost predicate Right(s: seq<byte>, n: nat)
    requires |s| >= IPH + 2 * n && n >= 6
  {
    Sum16(s, IPH, n) % 0xFFFF == 0 && Be16(s, CHECK) != 0xFFFF
  }

  /** The header of a packet with another TTL and another checksum. */
  function WithTtl(s: seq<byte>, ttl: byte, check: int): seq<byte>
    requires |s| >= IPH + 20 && 0 <= check <= 0xFFFF
  {
    s[TTL := ttl][CHECK := check / 0x100][CHECK + 1 := check % 0x100]
  }

  /** The sum of the words changes by what the two changed words change. */
  lemma {:induction false} SumWithTtl(s: seq<byte>, ttl: byte, check: int, n: nat)
    requires |s| >= IPH + 20 && 0 <= check <= 0xFFFF && IPH + 2 * n <= |s|
    ensures Sum16(WithTtl(s, ttl, check), IPH, n) ==
            Sum16(s, IPH, n) + (if n > 4 then 0x100 * (ttl - s[TTL]) else 0) +
              (if n > 5 then check - Be16(s, CHECK) else 0)
  {
    if n > 0 {
      SumWithTtl(s, ttl, check, n - 1);
    }
  }

  /** The new checksum by the source's arithmetic, on a 32-bit word and truncated to 16 bits. */
  function NextCheck(check: int): (r: int)
    requires 0 <= check <= 0xFFFF
    ensures 0 <= r < 0xFFFF && (r - check - 0x100) % 0xFFFF == 0
  {
    var sum := (0xFFFF - check) + 0xFEFF;
    0xFFFF - (sum + sum / 0x1_0000) % 0x1_0000
  }

  /** `DecIPTTL::process`. */
  method DecIPTTL(pkt: array<byte>) returns (push: bool)
    requires pkt.Length >= IPH + 20
    modifies pkt
    ensures push <==> old(pkt[TTL]) > 1
    ensures !push ==> pkt[..] == old(pkt[..])
    ensures push ==> pkt[..] == WithTtl(old(pkt[..]), old(pkt[TTL]) as int - 1, Be16(pkt[..], CHECK))
    ensures HoldsHeader(pkt[..]) <==> HoldsHeader(old(pkt[..]))
    ensures HoldsHeader(pkt[..]) ==> (Acceptable(pkt[..]) <==> Acceptable(old(pkt[..])))
    ensures push && HoldsHeader(pkt[..]) && Acceptable(pkt[..]) ==> Right(pkt[..], 2 * Ihl(pkt[..]))
  {
    if pkt[TTL] <= 1 {
      return false;
    }
    ghost var s := pkt[..];
    pkt[TTL] := pkt[TTL] as int - 1;
    var check := NextCheck(pkt[CHECK] as int * 0x100 + pkt[CHECK + 1]);
    pkt[CHECK], pkt[CHECK + 1] := check / 0x100, check % 0x100;
    assert pkt[..] == WithTtl(s, s[TTL] as int - 1, check);
    if HoldsHeader(s) {
      StaysAcceptable(s, s[TTL] as int - 1);
    }
    push := true;
  }

  lemma StaysAcceptable(s: seq<byte>, ttl: byte)
    requires HoldsHeader(s) && ttl == s[TTL] as int - 1
    ensures var s' := WithTtl(s, ttl, NextCheck(Be16(s, CHECK)));
            HoldsHeader(s') && (Acceptable(s') <==> Acceptable(s)) && (Acceptable(s') ==> Right(s', 2 * Ihl(s')))
  {
    var n := 2 * Ihl(s);
    if n >= 10 {
      SumWithTtl(s, ttl, NextCheck(Be16(s, CHECK)), n);
    }
  }

  /** There is one such checksum only. */
  lemma RightIsUnique(s: seq<byte>, check: int, n: nat)
    requires |s| >= IPH + 20 && |s| >= IPH + 2 * n && n >= 6 && 0 <= check <= 0xFFFF && Right(s, n)
    ensures Right(WithTtl(s, s[TTL], check), n) <==> check == Be16(s, CHECK)
  {
    hide Sum16;
    SumWithTtl(s, s[TTL], check, n);
    assert Be16(WithTtl(s, s[TTL], check), CHECK) == check;
    CloseMultiples(Sum16(s, IPH, n), check - Be16(s, CHECK));
  }

  lemma CloseMultiples(sum: int, d: int)
    requires sum % 0xFFFF == 0
    ensures (sum + d) % 0xFFFF == 0 <==> d % 0xFFFF == 0
  {
  }
}
