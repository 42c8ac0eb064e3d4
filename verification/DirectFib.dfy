/** The DIR-24-8 forwarding table: two arrays built from the routes, against longest-prefix match. */
module DirectFib {
  import opened Arith

  const TBL24_SIZE: nat := 0x100_0001
  const TBLLONG_SIZE: nat := 0x100_0001
  const SLOTS: nat := 0x100_0000
  const ADDRESSES: nat := 0x1_0000_0000
  const TAG: nat := 0x8000

  /** `rib[len]` maps the addresses of the routes of length `len` to their next hops. */
  type Rib = s: seq<map<nat, nat>> | |s| == 33 witness seq(33, _ => map[])

  /** Addresses are 32-bit and next hops 16-bit numbers. */
  ghost predicate Typed(rib: Rib) {
    forall len, a :: 0 <= len <= 32 && a in rib[len] ==> a < ADDRESSES && rib[len][a] < 0x1_0000
  }

  /** Host bits are zero. */
  ghost predicate Canonical(rib: Rib) {
    forall len, a :: 0 <= len <= 32 && a in rib[len] ==> a % Pow2(32 - len) == 0
  }

  /** No /24 slot is answered, by the routes of at most 24 bits, with a next hop that uses bit 15. */
  ghost predicate Untagged(rib: Rib) {
    forall slot :: 0 <= slot < SLOTS ==> !Tagged(rib, slot)
  }

  ghost predicate Tagged(rib: Rib, slot: nat) {
    LpmBelow(rib, slot * 256, 25) >= TAG
  }

  /** No next hop of a longer route uses bit 15. */
  ghost predicate SmallLongHops(rib: Rib) {
    forall len, a :: 25 <= len <= 32 && a in rib[len] ==> rib[len][a] < TAG
  }

  /** Address `low` of the slot matches no longer route. */
  ghost predicate Shows(rib: Rib, slot: nat, low: nat) {
    low < 256 && forall len :: 25 <= len <= 32 ==> Prefix(slot * 256 + low, len) !in rib[len]
  }

  /** Slots answered so are hidden by longer routes on all of their addresses. */
  ghost predicate TaggedAreFull(rib: Rib) {
    forall slot :: 0 <= slot < SLOTS && Tagged(rib, slot) ==> Full(rib, slot)
  }

  /** Slots answered so have an address that matches no longer route. */
  ghost predicate TaggedShow(rib: Rib) {
    forall slot :: 0 <= slot < SLOTS && Tagged(rib, slot) ==> !Full(rib, slot)
  }

  ghost predicate Full(rib: Rib, slot: nat) {
    forall low: nat :: low < 256 ==> !Shows(rib, slot, low)
  }

  /** The /24 slots that hold a route longer than 24 bits. */
  ghost function LongSlots(rib: Rib): set<nat> {
    set len, a | 25 <= len <= 32 && a in rib[len] :: a / 256
  }

  /** The blocks that the longer routes of slots answered with bit 15 are written to: the rest of the
      next hop is taken for a block number. */
  ghost function Hits(rib: Rib): set<nat> {
    set slot | slot in LongSlots(rib) && Tagged(rib, slot) :: Untag(LpmBelow(rib, slot * 256, 25))
  }

  // ---------- the specification ----------

  function Prefix(ip: nat, len: nat): nat
    requires len <= 32
  {
    Trunc(ip, 32 - len)
  }

  /** The next hop of the longest route shorter than `n` bits that matches `ip`; 0 if there is none. */
  function LpmBelow(rib: Rib, ip: nat, n: nat): nat
    requires n <= 33
  {
    if n == 0 then 0
    else if Prefix(ip, n - 1) in rib[n - 1] then rib[n - 1][Prefix(ip, n - 1)]
    else LpmBelow(rib, ip, n - 1)
  }

  function Lpm(rib: Rib, ip: nat): nat {
    LpmBelow(rib, ip, 33)
  }

  lemma {:induction false} LpmIsLongest(rib: Rib, ip: nat, n: nat, len: nat)
    requires len < n <= 33 && Prefix(ip, len) in rib[len]
    requires forall l :: len < l < n ==> Prefix(ip, l) !in rib[l]
    ensures LpmBelow(rib, ip, n) == rib[len][Prefix(ip, len)]
    decreases n
  {
    if len < n - 1 {
      assert Prefix(ip, n - 1) !in rib[n - 1];
      LpmIsLongest(rib, ip, n - 1, len);
    }
  }

  lemma {:induction false} LpmOfNone(rib: Rib, ip: nat, m: nat, n: nat)
    requires m <= n <= 33
    requires forall l :: m <= l < n ==> Prefix(ip, l) !in rib[l]
    ensures LpmBelow(rib, ip, n) == LpmBelow(rib, ip, m)
    decreases n
  {
    if m < n {
      assert Prefix(ip, n - 1) !in rib[n - 1];
      LpmOfNone(rib, ip, m, n - 1);
    }
  }

  /** All addresses of a /24 slot share the match among the routes of at most 24 bits. */
  lemma {:induction false} LpmOfSlot(rib: Rib, ip: nat, n: nat)
    requires n <= 25
    ensures LpmBelow(rib, ip, n) == LpmBelow(rib, ip / 256 * 256, n)
    decreases n
  {
    if n > 0 {
      Pow2Values();
      TruncIsShifts(ip, 8);
      TruncTrunc(ip, 8, 32 - (n - 1));
      LpmOfSlot(rib, ip, n - 1);
    }
  }

  /** It is enough that no next hop of such a route uses bit 15. */
  lemma {:induction false} SmallHopsUntagged(rib: Rib, ip: nat, n: nat)
    requires n <= 25 && forall len, a :: 0 <= len <= 24 && a in rib[len] ==> rib[len][a] < TAG
    ensures LpmBelow(rib, ip, n) < TAG
    decreases n
  {
    if n > 0 && Prefix(ip, n - 1) !in rib[n - 1] {
      SmallHopsUntagged(rib, ip, n - 1);
    }
  }

  lemma {:induction false} LpmTyped(rib: Rib, ip: nat, n: nat)
    requires n <= 33 && Typed(rib)
    ensures LpmBelow(rib, ip, n) < 0x1_0000
    decreases n
  {
    if n > 0 && Prefix(ip, n - 1) !in rib[n - 1] {
      LpmTyped(rib, ip, n - 1);
    }
  }

  // ---------- which slots and addresses a route covers ----------

  /** A route of at most 24 bits covers the slots from its own on, as many as its host bits allow. */
  lemma ShortRouteCovers(a: nat, len: nat, k: nat)
    requires len <= 24 && a % Pow2(32 - len) == 0
    ensures a / 256 <= k < a / 256 + Pow2(24 - len) <==> Prefix(k * 256, len) == a
  {
    var c, p, q := a / Pow2(32 - len), Pow2(24 - len), Pow2(32 - len);
    ShortRouteSlot(a, len);
    RangeIsQuotient(k, p, c);
    ScaleDiv(k, 256, p);
    TruncIsShifts(k * 256, 32 - len);
    if k / p * q == c * q {
      SameMultiple(k / p, c, q);
    }
  }

  lemma ShortRouteSlot(a: nat, len: nat)
    requires len <= 24 && a % Pow2(32 - len) == 0
    ensures Pow2(32 - len) == 256 * Pow2(24 - len)
    ensures a == a / Pow2(32 - len) * Pow2(32 - len)
    ensures a / 256 == a / Pow2(32 - len) * Pow2(24 - len)
  {
    var c, p, q := a / Pow2(32 - len), Pow2(24 - len), Pow2(32 - len);
    Pow2Values();
    Pow2Add(8, 24 - len);
    ModRange(a, q);
    MulAssoc(c, p, 256);
    QuotientIs(a, 256, c * p);
  }

  lemma ShortRouteFits(a: nat, len: nat)
    requires len <= 24 && a % Pow2(32 - len) == 0 && a < ADDRESSES
    ensures a / 256 + Pow2(24 - len) <= SLOTS
  {
    ShortRouteSlot(a, len);
    Pow2Values();
    Pow2Add(len, 24 - len);
    TopMultiple(a / Pow2(32 - len), Pow2(24 - len), Pow2(len));
  }

  /** A longer route covers only addresses of its own slot, in the last byte from its own on. */
  lemma LongRouteCovers(a: nat, len: nat, slot: nat, low: nat)
    requires 25 <= len <= 32 && a % Pow2(32 - len) == 0 && low < 256
    ensures Prefix(slot * 256 + low, len) == a <==> a / 256 == slot && a % 256 <= low < a % 256 + Pow2(32 - len)
    ensures Prefix(slot * 256 + low, len) / 256 == slot
  {
    var d, e := Pow2(32 - len), Pow2(len - 24);
    LongRouteFits(a, len);
    TruncIsShifts(slot * 256 + low, 32 - len);
    TruncLow(slot, low, e, d);
    ModRange(low, d);
    ModRange(a, 256);
    ModRange(a % 256, d);
    RangeIsQuotient(low, d, a % 256 / d);
    QuotientIs(slot * 256 + low / d * d, 256, slot);
    if low / d * d == a % 256 / d * d {
      SameMultiple(low / d, a % 256 / d, d);
    }
  }

  lemma LongRouteFits(a: nat, len: nat)
    requires 25 <= len <= 32 && a % Pow2(32 - len) == 0
    ensures Pow2(len - 24) * Pow2(32 - len) == 256
    ensures a % 256 % Pow2(32 - len) == 0 && a % 256 + Pow2(32 - len) <= 256
  {
    Pow2Values();
    Pow2Add(len - 24, 32 - len);
    SplitTwice(a, Pow2(32 - len), Pow2(len - 24));
  }

  // ---------- the tables ----------

  /** Bit 15 of a 16-bit entry, its other bits, and setting it. */
  predicate HasTag(entry: nat) {
    entry / TAG % 2 == 1
  }

  function Untag(entry: nat): nat {
    entry % TAG
  }

  function WithTag(n: nat): nat {
    if HasTag(n % 0x1_0000) then n % 0x1_0000 else n % 0x1_0000 + TAG
  }

  /** On 16-bit entries these are the masks 0x8000 and 0x7fff. */
  lemma TagIsTopBit(entry: bv16)
    ensures HasTag(entry as nat) <==> entry & 0x8000 != 0
    ensures Untag(entry as nat) == (entry & 0x7fff) as nat
    ensures WithTag(entry as nat) == (entry | 0x8000) as nat
  {
    hide HasTag, Untag, WithTag;
    TopBitIs(entry);
    TagOf(entry as nat);
    if entry >= 0x8000 { TopBitSet(entry); } else { TopBitClear(entry); }
  }

  lemma TagOf(n: nat)
    requires n < 0x1_0000
    ensures if n >= 0x8000 then HasTag(n) && Untag(n) == n - 0x8000 && WithTag(n) == n
            else !HasTag(n) && Untag(n) == n && WithTag(n) == n + 0x8000
  {
    TagFacts(if n >= TAG then n - TAG else n);
  }

  lemma TopBitIs(entry: bv16)
    ensures entry & 0x8000 != 0 <==> entry >= 0x8000
    ensures entry >= 0x8000 <==> entry as nat >= 0x8000
  {
  }

  lemma TopBitSet(entry: bv16)
    requires entry >= 0x8000
    ensures (entry & 0x7fff) as nat == entry as nat - 0x8000 && entry | 0x8000 == entry
  {
    assert entry & 0x7fff == entry - 0x8000;
  }

  lemma TopBitClear(entry: bv16)
    requires entry < 0x8000
    ensures entry & 0x7fff == entry && (entry | 0x8000) as nat == entry as nat + 0x8000
  {
    assert entry | 0x8000 == entry + 0x8000;
  }

  lemma TagFacts(n: nat)
    requires n < TAG
    ensures !HasTag(n) && WithTag(n) == TAG + n && HasTag(TAG + n) && Untag(TAG + n) == n
  {
  }

  /** A block number survives the tag exactly when it fits 15 bits: the 32769th block would alias
      the first one. */
  lemma BlockNumbersFit(n: nat)
    requires n < 0x1_0000
    ensures Untag(WithTag(n)) == n <==> n < TAG
    ensures n >= TAG ==> Untag(WithTag(n)) == n - TAG
  {
    if n < TAG { TagFacts(n); } else { TagFacts(n - TAG); }
  }

  /** `direct_lookup` as a function of the two tables. */
  function Fib(t24: seq<nat>, tlong: seq<nat>, ip: nat): nat
    requires |t24| == TBL24_SIZE && |tlong| == TBLLONG_SIZE && ip < ADDRESSES
  {
    var entry := t24[ip / 256];
    if HasTag(entry) then tlong[Untag(entry) * 256 + ip % 256] else entry
  }

  /** The value of `ip` once the routes `done` of length `len` were added to all shorter ones. */
  function Mixed(rib: Rib, len: nat, done: set<nat>, ip: nat): nat
    requires len <= 32 && done <= rib[len].Keys
  {
    if Prefix(ip, len) in done then rib[len][Prefix(ip, len)] else LpmBelow(rib, ip, len)
  }

  ghost predicate ShortState(rib: Rib, len: nat, done: set<nat>, t24: seq<nat>)
    requires len <= 32 && done <= rib[len].Keys && |t24| == TBL24_SIZE
  {
    forall k :: 0 <= k < SLOTS ==> t24[k] == Mixed(rib, len, done, k * 256)
  }

  /** `lo <= j < hi` got `v`, the rest is as before. */
  ghost predicate Filled(before: seq<nat>, after: seq<nat>, lo: nat, hi: nat, v: nat) {
    |after| == |before| && forall j :: 0 <= j < |after| ==> after[j] == if lo <= j < hi then v else before[j]
  }

  lemma ShortRouteAdds(rib: Rib, len: nat, done: set<nat>, a: nat, before: seq<nat>, after: seq<nat>)
    requires len <= 24 && Canonical(rib) && done <= rib[len].Keys && a in rib[len] && |before| == TBL24_SIZE
    requires ShortState(rib, len, done, before)
    requires Filled(before, after, a / 256, a / 256 + Pow2(24 - len), rib[len][a])
    ensures ShortState(rib, len, done + {a}, after)
  {
    hide Prefix, LpmBelow;
    forall k | 0 <= k < SLOTS ensures after[k] == Mixed(rib, len, done + {a}, k * 256) {
      ShortRouteCovers(a, len, k);
    }
  }

  lemma LevelDone(rib: Rib, len: nat, ip: nat)
    requires len <= 32
    ensures Mixed(rib, len, rib[len].Keys, ip) == LpmBelow(rib, ip, len + 1)
    ensures Mixed(rib, len, {}, ip) == LpmBelow(rib, ip, len)
  {
  }

  lemma ShortLevelDone(rib: Rib, len: nat, t24: seq<nat>)
    requires len <= 31 && |t24| == TBL24_SIZE && ShortState(rib, len, rib[len].Keys, t24)
    ensures ShortState(rib, len + 1, {}, t24)
  {
    hide LpmBelow;
    forall k | 0 <= k < SLOTS ensures t24[k] == Mixed(rib, len + 1, {}, k * 256) {
      LevelDone(rib, len, k * 256);
      LevelDone(rib, len + 1, k * 256);
    }
  }

  method Fill(table: array<nat>, lo: nat, hi: nat, v: nat)
    requires lo <= hi <= table.Length
    modifies table
    ensures Filled(old(table[..]), table[..], lo, hi, v)
  {
    var k := lo;
    while k < hi
      invariant lo <= k <= hi
      invariant forall j :: 0 <= j < table.Length ==> table[j] == if lo <= j < k then v else old(table[j])
    {
      table[k] := v;
      k := k + 1;
    }
  }

  lemma FilledElsewhere(before: seq<nat>, after: seq<nat>, lo: nat, hi: nat, v: nat, j: nat)
    requires Filled(before, after, lo, hi, v) && hi <= j < |before|
    ensures |after| == |before| && after[j] == before[j]
  {
  }

  /** The routes of one length of at most 24 bits, in any order. */
  method PlaceShort(rib: Rib, len: nat, t24: array<nat>)
    requires len <= 24 && Typed(rib) && Canonical(rib) && t24.Length == TBL24_SIZE
    requires ShortState(rib, len, {}, t24[..])
    modifies t24
    ensures ShortState(rib, len + 1, {}, t24[..]) && t24[SLOTS] == old(t24[SLOTS])
  {
    hide Mixed, ShortState, Filled, Pow2;
    var rest := rib[len].Keys;
    assert rib[len].Keys - rest == {};
    while rest != {}
      invariant rest <= rib[len].Keys && ShortState(rib, len, rib[len].Keys - rest, t24[..])
      invariant t24[SLOTS] == old(t24[SLOTS])
      decreases rest
    {
      var a :| a in rest;
      var start := a / 256;
      ShortRouteFits(a, len);
      ghost var before := t24[..];
      Fill(t24, start, start + Pow2(24 - len), rib[len][a]);
      ShortRouteAdds(rib, len, rib[len].Keys - rest, a, before, t24[..]);
      FilledElsewhere(before, t24[..], start, start + Pow2(24 - len), rib[len][a], SLOTS);
      assert rib[len].Keys - rest + {a} == rib[len].Keys - (rest - {a});
      rest := rest - {a};
    }
    assert rib[len].Keys - {} == rib[len].Keys;
    ShortLevelDone(rib, len, t24[..]);
  }

  // ---------- routes longer than 24 bits ----------

  /** Block `b` of 256 entries belongs to slot `owner[b]`; `Cell` reads one of its entries. */
  function Cell(tlong: seq<nat>, b: nat, low: nat): nat
    requires b < TAG && low < 256 && |tlong| == TBLLONG_SIZE
  {
    tlong[b * 256 + low]
  }

  /** No route of `[25, len)` and none of `done` lies in the slot. */
  ghost predicate NoneIn(rib: Rib, len: nat, done: set<nat>, slot: nat)
    requires 25 <= len <= 32
  {
    && (forall l, a :: 25 <= l < len && a in rib[l] ==> a / 256 != slot)
    && (forall a :: a in done ==> a / 256 != slot)
  }

  /** Owners are distinct, and each has a long route and no answer with bit 15: there are not too many of them. */
  ghost predicate OwnersOk(rib: Rib, t24: seq<nat>, owner: seq<nat>)
    requires |t24| == TBL24_SIZE
  {
    && (forall b :: 0 <= b < |owner| ==> owner[b] < SLOTS && HasTag(t24[owner[b]]) && owner[b] in LongSlots(rib))
    && (forall b :: 0 <= b < |owner| ==> !Tagged(rib, owner[b]))
    && (forall b, c :: 0 <= b < c < |owner| ==> owner[b] != owner[c])
  }

  ghost predicate SlotOk(rib: Rib, len: nat, done: set<nat>, t24: seq<nat>, slot: nat)
    requires 25 <= len <= 32 && |t24| == TBL24_SIZE && slot < SLOTS
  {
    t24[slot] == LpmBelow(rib, slot * 256, 25) && (Tagged(rib, slot) || NoneIn(rib, len, done, slot))
  }

  ghost predicate BlockOk(rib: Rib, len: nat, done: set<nat>, tlong: seq<nat>, b: nat, slot: nat)
    requires len <= 32 && done <= rib[len].Keys && |tlong| == TBLLONG_SIZE && b < TAG
  {
    forall low :: 0 <= low < 256 ==> Cell(tlong, b, low) == Mixed(rib, len, done, slot * 256 + low)
  }

  /** The tables after the routes shorter than `len` and the routes `done` of length `len`. */
  ghost predicate LongState(rib: Rib, len: nat, done: set<nat>, t24: seq<nat>, tlong: seq<nat>, owner: seq<nat>)
    requires 25 <= len <= 32 && done <= rib[len].Keys && |t24| == TBL24_SIZE && |tlong| == TBLLONG_SIZE &&
             |owner| <= TAG
  {
    && (forall b :: 0 <= b < |owner| ==> owner[b] < SLOTS && t24[owner[b]] == TAG + b)
    && (forall slot :: 0 <= slot < SLOTS && slot !in owner ==> SlotOk(rib, len, done, t24, slot))
    && (forall b :: 0 <= b < |owner| && b !in Hits(rib) ==> BlockOk(rib, len, done, tlong, b, owner[b]))
  }

  lemma {:induction false} OwnersBounded(owner: seq<nat>, s: set<nat>)
    requires forall b :: 0 <= b < |owner| ==> owner[b] in s
    requires forall b, c :: 0 <= b < c < |owner| ==> owner[b] != owner[c]
    ensures |owner| <= |s|
    decreases |owner|
  {
    if owner != [] {
      var last := owner[|owner| - 1];
      OwnersBounded(owner[..|owner| - 1], s - {last});
    }
  }

  /** A slot without long routes answers all its addresses by the routes of at most 24 bits. */
  lemma SlotAnswers(rib: Rib, len: nat, done: set<nat>, slot: nat, low: nat)
    requires 25 <= len <= 32 && done <= rib[len].Keys && Canonical(rib) && low < 256
    requires NoneIn(rib, len, done, slot)
    ensures Mixed(rib, len, done, slot * 256 + low) == LpmBelow(rib, slot * 256, 25)
  {
    hide Prefix, LpmBelow;
    var ip := slot * 256 + low;
    forall l | 25 <= l <= len ensures Prefix(ip, l) / 256 == slot {
      LongRouteCovers(0, l, slot, low);
    }
    LpmOfNone(rib, ip, 25, len);
    LpmOfSlot(rib, ip, 25);
    assert ip / 256 == slot;
  }

  /** A long route in a slot that has a block already, or is taken for one that has: its range of the
      block is overwritten. */
  lemma OverlayAdds(rib: Rib, len: nat, done: set<nat>, a: nat, t24: seq<nat>, tlong: seq<nat>, tlong': seq<nat>,
                    owner: seq<nat>, c: nat)
    requires 25 <= len <= 32 && Canonical(rib) && done <= rib[len].Keys && a in rib[len]
    requires |t24| == TBL24_SIZE && |tlong| == TBLLONG_SIZE && |owner| <= TAG
    requires LongState(rib, len, done, t24, tlong, owner)
    requires forall b, d :: 0 <= b < d < |owner| ==> owner[b] != owner[d]
    requires if a / 256 in owner then c < |owner| && owner[c] == a / 256
             else c < TAG && c in Hits(rib) && Tagged(rib, a / 256)
    requires Filled(tlong, tlong', c * 256 + a % 256, c * 256 + a % 256 + Pow2(32 - len), rib[len][a])
    ensures LongState(rib, len, done + {a}, t24, tlong', owner)
  {
    assert |tlong'| == TBLLONG_SIZE;
    hide Prefix, LpmBelow, Pow2, Mixed, Filled, BlockOk, Hits, Tagged, Untag;
    forall b | 0 <= b < |owner| && b !in Hits(rib) ensures BlockOk(rib, len, done + {a}, tlong', b, owner[b]) {
      OverlaidBlock(rib, len, done, a, tlong, tlong', c, b, owner[b]);
    }
    forall slot | 0 <= slot < SLOTS && slot !in owner ensures SlotOk(rib, len, done + {a}, t24, slot) {
      assert SlotOk(rib, len, done, t24, slot);
    }
  }

  lemma OverlaidBlock(rib: Rib, len: nat, done: set<nat>, a: nat, tlong: seq<nat>, tlong': seq<nat>, c: nat, b: nat,
                      slot: nat)
    requires 25 <= len <= 32 && Canonical(rib) && done <= rib[len].Keys && a in rib[len]
    requires |tlong| == TBLLONG_SIZE && c < TAG && b < TAG && (b == c <==> slot == a / 256)
    requires BlockOk(rib, len, done, tlong, b, slot)
    requires Filled(tlong, tlong', c * 256 + a % 256, c * 256 + a % 256 + Pow2(32 - len), rib[len][a])
    ensures BlockOk(rib, len, done + {a}, tlong', b, slot)
  {
    hide LpmBelow, Pow2, Prefix;
    LongRouteFits(a, len);
    forall low | 0 <= low < 256
      ensures Cell(tlong', b, low) == Mixed(rib, len, done + {a}, slot * 256 + low)
    {
      LongRouteCovers(a, len, slot, low);
      assert Cell(tlong, b, low) == Mixed(rib, len, done, slot * 256 + low);
    }
  }

  /** The inner loop of a first long route: 257 entries, the last of them beyond the block. */
  ghost predicate Spilled(before: seq<nat>, after: seq<nat>, cur: nat, start: nat, end: nat, rest: nat, v: nat) {
    |after| == |before| && forall j :: 0 <= j < |after| ==>
      after[j] == if cur <= j <= cur + 256 then (if j < start || j >= end then rest else v) else before[j]
  }

  /** A first long route in a slot: it gets the next block and the tag. */
  lemma SpillAdds(rib: Rib, len: nat, done: set<nat>, a: nat, t24: seq<nat>, tlong: seq<nat>, tlong': seq<nat>,
                  owner: seq<nat>)
    requires 25 <= len <= 32 && Canonical(rib) && done <= rib[len].Keys && a in rib[len] && a < ADDRESSES
    requires |t24| == TBL24_SIZE && |tlong| == TBLLONG_SIZE && |owner| < TAG
    requires LongState(rib, len, done, t24, tlong, owner) && a / 256 !in owner && !Tagged(rib, a / 256)
    requires Spilled(tlong, tlong', |owner| * 256, |owner| * 256 + a % 256, |owner| * 256 + a % 256 + Pow2(32 - len),
                     t24[a / 256], rib[len][a])
    ensures LongState(rib, len, done + {a}, t24[a / 256 := TAG + |owner|], tlong', owner + [a / 256])
  {
    assert |tlong'| == TBLLONG_SIZE;
    hide Prefix, LpmBelow, Pow2, Mixed, Hits, Tagged, BlockOk, Spilled;
    var slot, n := a / 256, |owner|;
    var t24', owner' := t24[slot := TAG + n], owner + [slot];
    SpilledBlock(rib, len, done, a, t24, tlong, tlong', n);
    forall b | 0 <= b < n && b !in Hits(rib) ensures BlockOk(rib, len, done + {a}, tlong', b, owner[b]) {
      KeptBlock(rib, len, done, a, tlong, tlong', n, t24[slot], b, owner[b]);
    }
    forall s | 0 <= s < SLOTS && s !in owner' ensures SlotOk(rib, len, done + {a}, t24', s) {
      assert SlotOk(rib, len, done, t24, s);
      assert owner'[n] == slot;
    }
  }

  lemma SpilledBlock(rib: Rib, len: nat, done: set<nat>, a: nat, t24: seq<nat>, tlong: seq<nat>, tlong': seq<nat>,
                     n: nat)
    requires 25 <= len <= 32 && Canonical(rib) && done <= rib[len].Keys && a in rib[len] && a < ADDRESSES
    requires |t24| == TBL24_SIZE && |tlong| == TBLLONG_SIZE && n < TAG
    requires SlotOk(rib, len, done, t24, a / 256) && !Tagged(rib, a / 256)
    requires Spilled(tlong, tlong', n * 256, n * 256 + a % 256, n * 256 + a % 256 + Pow2(32 - len), t24[a / 256],
                     rib[len][a])
    ensures BlockOk(rib, len, done + {a}, tlong', n, a / 256)
  {
    hide LpmBelow, Pow2, Prefix, Tagged;
    forall low | 0 <= low < 256
      ensures Cell(tlong', n, low) == Mixed(rib, len, done + {a}, a / 256 * 256 + low)
    {
      LongRouteCovers(a, len, a / 256, low);
      SlotAnswers(rib, len, done, a / 256, low);
    }
  }

  lemma KeptBlock(rib: Rib, len: nat, done: set<nat>, a: nat, tlong: seq<nat>, tlong': seq<nat>, n: nat, rest: nat,
                  b: nat, slot: nat)
    requires 25 <= len <= 32 && Canonical(rib) && done <= rib[len].Keys && a in rib[len]
    requires |tlong| == TBLLONG_SIZE && n < TAG && b < n && slot != a / 256
    requires BlockOk(rib, len, done, tlong, b, slot)
    requires Spilled(tlong, tlong', n * 256, n * 256 + a % 256, n * 256 + a % 256 + Pow2(32 - len), rest, rib[len][a])
    ensures BlockOk(rib, len, done + {a}, tlong', b, slot)
  {
    hide LpmBelow, Pow2;
    forall low | 0 <= low < 256
      ensures Cell(tlong', b, low) == Mixed(rib, len, done + {a}, slot * 256 + low)
    {
      LongRouteCovers(a, len, slot, low);
      assert Cell(tlong, b, low) == Mixed(rib, len, done, slot * 256 + low);
    }
  }

  lemma LongLevelDone(rib: Rib, len: nat, t24: seq<nat>, tlong: seq<nat>, owner: seq<nat>)
    requires 25 <= len < 32 && |t24| == TBL24_SIZE && |tlong| == TBLLONG_SIZE && |owner| <= TAG
    requires LongState(rib, len, rib[len].Keys, t24, tlong, owner)
    ensures LongState(rib, len + 1, {}, t24, tlong, owner)
  {
    hide LpmBelow, Mixed, Tagged, Hits;
    forall b | 0 <= b < |owner| && b !in Hits(rib) ensures BlockOk(rib, len + 1, {}, tlong, b, owner[b]) {
      assert BlockOk(rib, len, rib[len].Keys, tlong, b, owner[b]);
      forall low | 0 <= low < 256 ensures Cell(tlong, b, low) == Mixed(rib, len + 1, {}, owner[b] * 256 + low) {
        LevelDone(rib, len, owner[b] * 256 + low);
        LevelDone(rib, len + 1, owner[b] * 256 + low);
      }
    }
    forall slot | 0 <= slot < SLOTS && slot !in owner ensures SlotOk(rib, len + 1, {}, t24, slot) {
      assert SlotOk(rib, len, rib[len].Keys, t24, slot);
    }
  }

  lemma ShortBecomesLong(rib: Rib, t24: seq<nat>, tlong: seq<nat>)
    requires |t24| == TBL24_SIZE && |tlong| == TBLLONG_SIZE && ShortState(rib, 25, {}, t24)
    ensures LongState(rib, 25, {}, t24, tlong, [])
  {
    forall slot | 0 <= slot < SLOTS ensures SlotOk(rib, 25, {}, t24, slot) {
      LevelDone(rib, 25, slot * 256);
    }
  }

  /** The finished tables answer an address with its longest-prefix match unless its slot is answered with
      bit 15 or has a block that other slots' routes are written to. */
  lemma FinishedTablesAnswer(rib: Rib, t24: seq<nat>, tlong: seq<nat>, owner: seq<nat>, ip: nat)
    requires Canonical(rib) && ip < ADDRESSES && Reached(rib, owner, ip)
    requires |t24| == TBL24_SIZE && |tlong| == TBLLONG_SIZE && |owner| <= TAG
    requires LongState(rib, 32, rib[32].Keys, t24, tlong, owner)
    ensures Fib(t24, tlong, ip) == Lpm(rib, ip)
  {
    hide LpmBelow, Hits;
    var slot, low := ip / 256, ip % 256;
    LevelDone(rib, 32, ip);
    if slot in owner {
      var b :| 0 <= b < |owner| && owner[b] == slot;
      assert BlockOk(rib, 32, rib[32].Keys, tlong, b, slot);
      assert Cell(tlong, b, low) == Mixed(rib, 32, rib[32].Keys, slot * 256 + low);
      TagFacts(b);
    } else {
      assert SlotOk(rib, 32, rib[32].Keys, t24, slot);
      SlotAnswers(rib, 32, rib[32].Keys, slot, low);
      TagFacts(t24[slot]);
    }
  }

  /** The slot of `ip` is not answered with bit 15, and no route of a slot that is so is written to its block. */
  ghost predicate Reached(rib: Rib, owner: seq<nat>, ip: nat) {
    !Tagged(rib, ip / 256) && forall b :: 0 <= b < |owner| && owner[b] == ip / 256 ==> b !in Hits(rib)
  }

  /** The first inner loop for a long route: the block and one entry more. */
  method Spill(tlong: array<nat>, cur: nat, start: nat, end: nat, rest: nat, v: nat)
    requires cur + 256 < tlong.Length
    modifies tlong
    ensures Spilled(old(tlong[..]), tlong[..], cur, start, end, rest, v)
  {
    var j := cur;
    while j <= cur + 256
      invariant cur <= j <= cur + 257
      invariant forall i :: 0 <= i < tlong.Length ==>
        tlong[i] == if cur <= i < j then (if i < start || i >= end then rest else v) else old(tlong[i])
    {
      if j < start || j >= end {
        tlong[j] := rest;
      } else {
        tlong[j] := v;
      }
      j := j + 1;
    }
  }

  /** Entries have 16 bits, and those of the second table do not use the last of them. */
  ghost predicate Small(t24: seq<nat>, tlong: seq<nat>) {
    (forall j :: 0 <= j < SLOTS && j < |t24| ==> t24[j] < 0x1_0000) && forall j :: 0 <= j < |tlong| ==> tlong[j] < TAG
  }

  lemma SpilledSmall(t24: seq<nat>, before: seq<nat>, after: seq<nat>, cur: nat, start: nat, end: nat, slot: nat,
                     v: nat, n: nat)
    requires Small(t24, before) && slot < |t24| && slot < SLOTS && !HasTag(t24[slot]) && v < TAG && n < TAG
    requires Spilled(before, after, cur, start, end, t24[slot], v)
    ensures Small(t24[slot := WithTag(n)], after)
  {
    TagFacts(n);
    UntaggedIsSmall(t24[slot]);
  }

  lemma UntaggedIsSmall(entry: nat)
    requires entry < 0x1_0000 && !HasTag(entry)
    ensures entry < TAG
  {
  }

  lemma FilledSmall(t24: seq<nat>, before: seq<nat>, after: seq<nat>, lo: nat, hi: nat, v: nat)
    requires Small(t24, before) && v < TAG && Filled(before, after, lo, hi, v)
    ensures Small(t24, after)
  {
  }

  // ---------- the tables after any number of longer routes ----------

  datatype Tables = Tables(t24: seq<nat>, tlong: seq<nat>, blocks: nat)

  ghost function Written(s: seq<nat>, lo: nat, hi: nat, v: nat): (r: seq<nat>)
    ensures |r| == |s|
  {
    seq(|s|, j requires 0 <= j < |s| => if lo <= j < hi then v else s[j])
  }

  /** One longer route: it overwrites its range of the block its slot names, or takes the next block,
      where the rest of the 257 entries written gets the answer its slot had. */
  ghost function Placed(t: Tables, len: nat, a: nat, hop: nat): (r: Tables)
    requires |t.t24| == TBL24_SIZE && len <= 32 && a < ADDRESSES
    ensures |r.t24| == TBL24_SIZE && |r.tlong| == |t.tlong|
  {
    var entry := t.t24[a / 256];
    if HasTag(entry) then
      var start := Untag(entry) * 256 + a % 256;
      t.(tlong := Written(t.tlong, start, start + Pow2(32 - len), hop))
    else
      var first := t.blocks * 256;
      var start := first + a % 256;
      var filled := Written(t.tlong, first, first + 257, entry);
      Tables(t.t24[a / 256 := WithTag(t.blocks)], Written(filled, start, start + Pow2(32 - len), hop), t.blocks + 1)
  }

  type Order = seq<(nat, nat)>

  /** Every entry of `order` is the length and the address of a longer route. */
  ghost predicate Routes(rib: Rib, order: Order) {
    forall r <- order :: 25 <= r.0 <= 32 && r.1 in rib[r.0]
  }

  ghost function PlacedAll(t: Tables, rib: Rib, order: Order): (r: Tables)
    requires |t.t24| == TBL24_SIZE && Typed(rib) && Routes(rib, order)
    ensures |r.t24| == TBL24_SIZE && |r.tlong| == |t.tlong|
    decreases |order|
  {
    if order == [] then t
    else
      var route := order[|order| - 1];
      assert route in order;
      Placed(PlacedAll(t, rib, order[..|order| - 1]), route.0, route.1, rib[route.0][route.1])
  }

  /** The longer routes below length `len` and the routes `done` of that length, each once, shorter ones first. */
  ghost predicate Ordered(rib: Rib, len: nat, done: set<nat>, order: Order) {
    && Routes(rib, order)
    && (forall i, j :: 0 <= i < j < |order| ==> order[i] != order[j] && order[i].0 <= order[j].0)
    && (forall r <- order :: r.0 < len || (r.0 == len && r.1 in done))
    && (forall l, a :: 25 <= l <= 32 && a in rib[l] && (l < len || (l == len && a in done)) ==> (l, a) in order)
  }

  lemma OrderedNext(rib: Rib, len: nat, done: set<nat>, order: Order, a: nat)
    requires 25 <= len <= 32 && a in rib[len] && a !in done && Ordered(rib, len, done, order)
    ensures Ordered(rib, len, done + {a}, order + [(len, a)])
  {
  }

  lemma OrderedLevel(rib: Rib, len: nat, order: Order)
    requires 25 <= len <= 32 && Ordered(rib, len, rib[len].Keys, order)
    ensures Ordered(rib, len + 1, {}, order)
  {
  }

  lemma NoOrder(rib: Rib)
    ensures Ordered(rib, 25, {}, [])
  {
  }

  lemma PlacedNext(t: Tables, rib: Rib, order: Order, len: nat, a: nat)
    requires |t.t24| == TBL24_SIZE && Typed(rib) && Routes(rib, order) && 25 <= len <= 32 && a in rib[len]
    ensures a < ADDRESSES && Routes(rib, order + [(len, a)])
    ensures PlacedAll(t, rib, order + [(len, a)]) == Placed(PlacedAll(t, rib, order), len, a, rib[len][a])
  {
    hide Placed;
    var longer := order + [(len, a)];
    assert longer[..|longer| - 1] == order && longer[|longer| - 1] == (len, a);
  }

  lemma FilledIsWritten(before: seq<nat>, after: seq<nat>, lo: nat, hi: nat, v: nat)
    requires Filled(before, after, lo, hi, v)
    ensures after == Written(before, lo, hi, v)
  {
  }

  lemma SpilledIsWritten(before: seq<nat>, after: seq<nat>, cur: nat, start: nat, end: nat, rest: nat, v: nat)
    requires Spilled(before, after, cur, start, end, rest, v) && cur <= start && end <= cur + 257
    ensures after == Written(Written(before, cur, cur + 257, rest), start, end, v)
  {
  }

  /** One route longer than 24 bits. */
  method PlaceLongRoute(rib: Rib, len: nat, a: nat, t24: array<nat>, tlong: array<nat>, cur: nat,
                        ghost done: set<nat>, ghost owner: seq<nat>)
    returns (cur': nat, ghost owner': seq<nat>)
    requires 25 <= len <= 32 && Typed(rib) && Canonical(rib) && |LongSlots(rib)| <= TAG
    requires t24 != tlong && t24.Length == TBL24_SIZE && tlong.Length == TBLLONG_SIZE
    requires done <= rib[len].Keys && a in rib[len]
    requires OwnersOk(rib, t24[..], owner) && cur == 256 * |owner| && |owner| <= TAG
    requires LongState(rib, len, done, t24[..], tlong[..], owner)
    modifies t24, tlong
    ensures OwnersOk(rib, t24[..], owner') && cur' == 256 * |owner'| && |owner'| <= TAG
    ensures LongState(rib, len, done + {a}, t24[..], tlong[..], owner')
    ensures Tables(t24[..], tlong[..], |owner'|) ==
              Placed(old(Tables(t24[..], tlong[..], |owner|)), len, a, rib[len][a])
    ensures SmallLongHops(rib) && old(Small(t24[..], tlong[..])) ==> Small(t24[..], tlong[..])
  {
    hide Prefix, LpmBelow, Pow2, Mixed, Trunc, BlockOk, SlotOk, Filled, Spilled, Small, Written, LongState, OwnersOk,
         Tagged, Hits, LongSlots;
    ghost var before24, before := t24[..], tlong[..];
    ghost var small := SmallLongHops(rib) && Small(before24, before);
    var dest24 := t24[a / 256];
    LongRouteFits(a, len);
    OwnersDiffer(rib, before24, owner);
    OwnerIsTagged(rib, len, done, before24, before, owner, a);
    if !HasTag(dest24) {
      NewOwnerFits(rib, before24, owner, len, a);
      TagFacts(|owner|);
      var start := cur + a % 256;
      Spill(tlong, cur, start, start + Pow2(32 - len), dest24, rib[len][a]);
      t24[a / 256] := WithTag(cur / 256);
      cur' := cur + 256;
      owner' := owner + [a / 256];
      SpillAdds(rib, len, done, a, before24, before, tlong[..], owner);
      SpilledIsWritten(before, tlong[..], cur, start, start + Pow2(32 - len), dest24, rib[len][a]);
      if small {
        SpilledSmall(before24, before, tlong[..], cur, start, start + Pow2(32 - len), a / 256, rib[len][a], |owner|);
      }
    } else {
      var start := Untag(dest24) * 256 + a % 256;
      Fill(tlong, start, start + Pow2(32 - len), rib[len][a]);
      cur', owner' := cur, owner;
      OverlayAdds(rib, len, done, a, before24, before, tlong[..], owner, Untag(dest24));
      FilledIsWritten(before, tlong[..], start, start + Pow2(32 - len), rib[len][a]);
      if small { FilledSmall(before24, before, tlong[..], start, start + Pow2(32 - len), rib[len][a]); }
    }
  }

  lemma OwnersDiffer(rib: Rib, t24: seq<nat>, owner: seq<nat>)
    requires |t24| == TBL24_SIZE && OwnersOk(rib, t24, owner)
    ensures forall b, c :: 0 <= b < c < |owner| ==> owner[b] != owner[c]
  {
  }

  /** A slot with the tag owns the block it names, or its answer uses bit 15. */
  lemma OwnerIsTagged(rib: Rib, len: nat, done: set<nat>, t24: seq<nat>, tlong: seq<nat>, owner: seq<nat>, a: nat)
    requires 25 <= len <= 32 && done <= rib[len].Keys && Typed(rib) && a in rib[len]
    requires |t24| == TBL24_SIZE && |tlong| == TBLLONG_SIZE && |owner| <= TAG
    requires LongState(rib, len, done, t24, tlong, owner)
    ensures a / 256 < SLOTS
    ensures HasTag(t24[a / 256]) <==> a / 256 in owner || Tagged(rib, a / 256)
    ensures a / 256 in owner ==> Untag(t24[a / 256]) < |owner| && owner[Untag(t24[a / 256])] == a / 256
    ensures HasTag(t24[a / 256]) && a / 256 !in owner ==> Untag(t24[a / 256]) in Hits(rib)
  {
    hide LpmBelow, BlockOk;
    var slot := a / 256;
    if slot in owner {
      var b :| 0 <= b < |owner| && owner[b] == slot;
      TagFacts(b);
    } else {
      assert SlotOk(rib, len, done, t24, slot);
      LpmTyped(rib, slot * 256, 25);
      assert slot in LongSlots(rib);
      if !Tagged(rib, slot) { TagFacts(t24[slot]); } else { TagFacts(t24[slot] - TAG); }
    }
  }

  lemma NewOwnerFits(rib: Rib, t24: seq<nat>, owner: seq<nat>, len: nat, a: nat)
    requires |t24| == TBL24_SIZE && OwnersOk(rib, t24, owner) && |LongSlots(rib)| <= TAG
    requires 25 <= len <= 32 && a in rib[len] && a < ADDRESSES && !HasTag(t24[a / 256]) && !Tagged(rib, a / 256)
    ensures |owner| < TAG && a / 256 in LongSlots(rib) && a / 256 !in owner
    ensures OwnersOk(rib, t24[a / 256 := WithTag(|owner|)], owner + [a / 256])
  {
    var more := owner + [a / 256];
    OwnersBounded(more, LongSlots(rib));
    TagFacts(|owner|);
  }

  /** The routes of one length longer than 24 bits, in any order. */
  method PlaceLong(rib: Rib, len: nat, t24: array<nat>, tlong: array<nat>, cur: nat, ghost owner: seq<nat>,
                   ghost first: Tables, ghost order: Order)
    returns (cur': nat, ghost owner': seq<nat>, ghost order': Order)
    requires 25 <= len <= 32 && Typed(rib) && Canonical(rib) && |LongSlots(rib)| <= TAG
    requires t24 != tlong && t24.Length == TBL24_SIZE && tlong.Length == TBLLONG_SIZE && |first.t24| == TBL24_SIZE
    requires OwnersOk(rib, t24[..], owner) && cur == 256 * |owner| && |owner| <= TAG
    requires LongState(rib, len, {}, t24[..], tlong[..], owner)
    requires Ordered(rib, len, {}, order) && Routes(rib, order)
    requires Tables(t24[..], tlong[..], |owner|) == PlacedAll(first, rib, order)
    modifies t24, tlong
    ensures OwnersOk(rib, t24[..], owner') && cur' == 256 * |owner'| && |owner'| <= TAG
    ensures LongState(rib, len, rib[len].Keys, t24[..], tlong[..], owner')
    ensures Ordered(rib, len, rib[len].Keys, order') && Routes(rib, order')
    ensures Tables(t24[..], tlong[..], |owner'|) == PlacedAll(first, rib, order')
    ensures SmallLongHops(rib) && old(Small(t24[..], tlong[..])) ==> Small(t24[..], tlong[..])
  {
    hide LongState, OwnersOk, LongSlots, Typed, Canonical, SmallLongHops, Small, Placed, PlacedAll, Ordered, Routes;
    cur', owner', order' := cur, owner, order;
    var rest := rib[len].Keys;
    assert rib[len].Keys - rest == {};
    while rest != {}
      invariant rest <= rib[len].Keys
      invariant OwnersOk(rib, t24[..], owner') && cur' == 256 * |owner'| && |owner'| <= TAG
      invariant LongState(rib, len, rib[len].Keys - rest, t24[..], tlong[..], owner')
      invariant Ordered(rib, len, rib[len].Keys - rest, order') && Routes(rib, order')
      invariant Tables(t24[..], tlong[..], |owner'|) == PlacedAll(first, rib, order')
      invariant SmallLongHops(rib) && old(Small(t24[..], tlong[..])) ==> Small(t24[..], tlong[..])
      decreases rest
    {
      var a :| a in rest;
      PlacedNext(first, rib, order', len, a);
      OrderedNext(rib, len, rib[len].Keys - rest, order', a);
      cur', owner' := PlaceLongRoute(rib, len, a, t24, tlong, cur', rib[len].Keys - rest, owner');
      order' := order' + [(len, a)];
      assert rib[len].Keys - rest + {a} == rib[len].Keys - (rest - {a});
      rest := rest - {a};
    }
    assert rib[len].Keys - {} == rib[len].Keys;
  }

  /** The tables answer every address with its longest-prefix match. */
  ghost predicate AnswersLpm(rib: Rib, t24: seq<nat>, tlong: seq<nat>)
    requires |t24| == TBL24_SIZE && |tlong| == TBLLONG_SIZE
  {
    forall ip :: 0 <= ip < ADDRESSES ==> Fib(t24, tlong, ip) == Lpm(rib, ip)
  }

  /** The tables once the routes of at most 24 bits are placed. */
  ghost function ShortTables(rib: Rib): (t: Tables)
    ensures |t.t24| == TBL24_SIZE && |t.tlong| == TBLLONG_SIZE
  {
    Tables(seq(TBL24_SIZE, slot requires 0 <= slot => if slot < SLOTS then LpmBelow(rib, slot * 256, 25) else 0),
           seq(TBLLONG_SIZE, _ => 0), 0)
  }

  /** The blocks go to the slots of longer routes that are not answered with bit 15, each to one. */
  ghost predicate Owns(rib: Rib, owner: seq<nat>) {
    && (forall b, c :: 0 <= b < c < |owner| ==> owner[b] != owner[c])
    && forall slot :: slot in owner <==> slot in LongSlots(rib) && !Tagged(rib, slot)
  }

  /** An entry of the first table names the slot's block, or is its answer by the routes of at most 24 bits. */
  ghost predicate Entries(rib: Rib, t24: seq<nat>, owner: seq<nat>)
    requires |t24| == TBL24_SIZE
  {
    && (forall b :: 0 <= b < |owner| ==> owner[b] < SLOTS && t24[owner[b]] == TAG + b)
    && forall slot :: 0 <= slot < SLOTS && slot !in owner ==> t24[slot] == LpmBelow(rib, slot * 256, 25)
  }

  /** `build_direct_fib`. The tables are those that placing the longer routes in some order, shorter ones
      first, makes of the answers of the routes of at most 24 bits. They answer an address with its
      longest-prefix match if the routes of at most 24 bits do not answer its slot with a next hop that
      uses the tag bit, and its slot has no block to which the routes of a slot so answered are written.
      That no slot is answered so is also necessary to answer every address rightly, unless longer routes
      use that bit as well or hide a slot completely. */
  method BuildDirectFib(rib: Rib, t24: array<nat>, tlong: array<nat>)
    returns (ghost order: Order, ghost owner: seq<nat>)
    requires Typed(rib) && Canonical(rib) && |LongSlots(rib)| <= TAG
    requires t24 != tlong && t24.Length == TBL24_SIZE && tlong.Length == TBLLONG_SIZE
    modifies t24, tlong
    ensures Ordered(rib, 33, {}, order) &&
            Tables(t24[..], tlong[..], |owner|) == PlacedAll(ShortTables(rib), rib, order)
    ensures Owns(rib, owner) && Entries(rib, t24[..], owner)
    ensures forall ip :: 0 <= ip < ADDRESSES && Reached(rib, owner, ip) ==> Fib(t24[..], tlong[..], ip) == Lpm(rib, ip)
    ensures (forall slot :: slot in LongSlots(rib) ==> !Tagged(rib, slot)) ==>
              forall ip :: 0 <= ip < ADDRESSES && !Tagged(rib, ip / 256) ==> Fib(t24[..], tlong[..], ip) == Lpm(rib, ip)
    ensures Untagged(rib) ==> AnswersLpm(rib, t24[..], tlong[..])
    ensures SmallLongHops(rib) && AnswersLpm(rib, t24[..], tlong[..]) ==> TaggedAreFull(rib)
    ensures SmallLongHops(rib) && TaggedShow(rib) ==> (AnswersLpm(rib, t24[..], tlong[..]) <==> Untagged(rib))
  {
    hide LongState, ShortState, OwnersOk, LongSlots, Untagged, Typed, Canonical, SmallLongHops, TaggedAreFull,
         TaggedShow, Small, Ordered, Routes, PlacedAll, ShortTables, Reached, Owns, Entries, Tagged;
    forall j | 0 <= j < t24.Length { t24[j] := 0; }
    forall j | 0 <= j < tlong.Length { tlong[j] := 0; }
    NothingPlaced(rib, t24[..]);
    var i := 0;
    while i <= 24
      invariant 0 <= i <= 25 && ShortState(rib, i, {}, t24[..]) && t24[SLOTS] == 0
      invariant forall j :: 0 <= j < tlong.Length ==> tlong[j] == 0
    {
      PlaceShort(rib, i, t24);
      i := i + 1;
    }
    ghost var first := Tables(t24[..], tlong[..], 0);
    owner, order := [], [];
    AfterShort(rib, t24[..], tlong[..]);
    var cur := 0;
    while i <= 32
      invariant 25 <= i <= 33 && OwnersOk(rib, t24[..], owner) && cur == 256 * |owner| && |owner| <= TAG
      invariant if i <= 32 then LongState(rib, i, {}, t24[..], tlong[..], owner)
                else LongState(rib, 32, rib[32].Keys, t24[..], tlong[..], owner)
      invariant Ordered(rib, i, {}, order) && Routes(rib, order)
      invariant Tables(t24[..], tlong[..], |owner|) == PlacedAll(first, rib, order)
      invariant SmallLongHops(rib) ==> Small(t24[..], tlong[..])
    {
      cur, owner, order := PlaceLong(rib, i, t24, tlong, cur, owner, first, order);
      if i < 32 { LongLevelDone(rib, i, t24[..], tlong[..], owner); }
      OrderedLevel(rib, i, order);
      i := i + 1;
    }
    AfterLong(rib, t24[..], tlong[..], owner);
    if SmallLongHops(rib) {
      RightTablesHideTags(rib, t24[..], tlong[..]);
    }
  }

  lemma AfterShort(rib: Rib, t24: seq<nat>, tlong: seq<nat>)
    requires Typed(rib) && |t24| == TBL24_SIZE && |tlong| == TBLLONG_SIZE && ShortState(rib, 25, {}, t24)
    requires t24[SLOTS] == 0 && forall j :: 0 <= j < |tlong| ==> tlong[j] == 0
    ensures Small(t24, tlong) && OwnersOk(rib, t24, []) && LongState(rib, 25, {}, t24, tlong, [])
    ensures Ordered(rib, 25, {}, []) && Routes(rib, [])
    ensures Tables(t24, tlong, 0) == ShortTables(rib) == PlacedAll(ShortTables(rib), rib, [])
  {
    hide LongState, OwnersOk, Small, Ordered, LpmBelow;
    ShortIsSmall(rib, t24, tlong);
    ShortBecomesLong(rib, t24, tlong);
    NoOwners(rib, t24);
    NoOrder(rib);
    forall k | 0 <= k < SLOTS ensures t24[k] == LpmBelow(rib, k * 256, 25) {
      LevelDone(rib, 25, k * 256);
    }
  }

  lemma AfterLong(rib: Rib, t24: seq<nat>, tlong: seq<nat>, owner: seq<nat>)
    requires Typed(rib) && Canonical(rib) && |t24| == TBL24_SIZE && |tlong| == TBLLONG_SIZE && |owner| <= TAG
    requires OwnersOk(rib, t24, owner) && LongState(rib, 32, rib[32].Keys, t24, tlong, owner)
    ensures Owns(rib, owner) && Entries(rib, t24, owner)
    ensures forall ip :: 0 <= ip < ADDRESSES && Reached(rib, owner, ip) ==> Fib(t24, tlong, ip) == Lpm(rib, ip)
    ensures (forall slot :: slot in LongSlots(rib) ==> !Tagged(rib, slot)) ==>
              forall ip :: 0 <= ip < ADDRESSES && !Tagged(rib, ip / 256) ==> Fib(t24, tlong, ip) == Lpm(rib, ip)
    ensures Untagged(rib) ==> AnswersLpm(rib, t24, tlong)
  {
    hide LongState, OwnersOk, LongSlots, Typed, Canonical, Untagged, Reached, Tagged, Lpm, Fib, Owns, Entries;
    OwnersAre(rib, t24, tlong, owner);
    forall ip | 0 <= ip < ADDRESSES && Reached(rib, owner, ip) ensures Fib(t24, tlong, ip) == Lpm(rib, ip) {
      FinishedTablesAnswer(rib, t24, tlong, owner, ip);
    }
    if forall slot :: slot in LongSlots(rib) ==> !Tagged(rib, slot) {
      forall ip | 0 <= ip < ADDRESSES && !Tagged(rib, ip / 256) ensures Reached(rib, owner, ip) {
        NothingHit(rib, owner, ip);
      }
    }
    if Untagged(rib) {
      NothingTagged(rib);
    }
  }

  lemma OwnersAre(rib: Rib, t24: seq<nat>, tlong: seq<nat>, owner: seq<nat>)
    requires Typed(rib) && |t24| == TBL24_SIZE && |tlong| == TBLLONG_SIZE && |owner| <= TAG
    requires OwnersOk(rib, t24, owner) && LongState(rib, 32, rib[32].Keys, t24, tlong, owner)
    ensures Owns(rib, owner) && Entries(rib, t24, owner)
  {
    hide LpmBelow, BlockOk, Tagged;
    forall slot | slot in LongSlots(rib) && !Tagged(rib, slot) ensures slot in owner {
      var len, a :| 25 <= len <= 32 && a in rib[len] && a / 256 == slot;
      if slot !in owner { NotAlone(rib, t24, slot, len, a); }
    }
    forall slot | 0 <= slot < SLOTS && slot !in owner ensures t24[slot] == LpmBelow(rib, slot * 256, 25) {
      assert SlotOk(rib, 32, rib[32].Keys, t24, slot);
    }
  }

  lemma NotAlone(rib: Rib, t24: seq<nat>, slot: nat, len: nat, a: nat)
    requires 25 <= len <= 32 && a in rib[len] && a / 256 == slot < SLOTS && !Tagged(rib, slot) && |t24| == TBL24_SIZE
    ensures !SlotOk(rib, 32, rib[32].Keys, t24, slot)
  {
    hide Tagged, LpmBelow;
  }

  lemma NothingHit(rib: Rib, owner: seq<nat>, ip: nat)
    requires !Tagged(rib, ip / 256) && forall slot :: slot in LongSlots(rib) ==> !Tagged(rib, slot)
    ensures Reached(rib, owner, ip)
  {
    hide Tagged, LongSlots;
    assert Hits(rib) == {};
  }

  lemma NothingTagged(rib: Rib)
    requires Typed(rib) && Untagged(rib)
    ensures forall slot :: slot in LongSlots(rib) ==> !Tagged(rib, slot)
    ensures forall ip :: 0 <= ip < ADDRESSES ==> !Tagged(rib, ip / 256)
  {
    hide Tagged;
  }
  lemma NothingPlaced(rib: Rib, t24: seq<nat>)
    requires |t24| == TBL24_SIZE && forall j :: 0 <= j < |t24| ==> t24[j] == 0
    ensures ShortState(rib, 0, {}, t24)
  {
  }

  lemma NoOwners(rib: Rib, t24: seq<nat>)
    requires |t24| == TBL24_SIZE
    ensures OwnersOk(rib, t24, [])
  {
  }

  lemma ShortIsSmall(rib: Rib, t24: seq<nat>, tlong: seq<nat>)
    requires Typed(rib) && |t24| == TBL24_SIZE && ShortState(rib, 25, {}, t24)
    requires forall j :: 0 <= j < |tlong| ==> tlong[j] == 0
    ensures Small(t24, tlong)
  {
    forall j | 0 <= j < SLOTS ensures t24[j] < 0x1_0000 {
      LevelDone(rib, 25, j * 256);
      LpmTyped(rib, j * 256, 25);
    }
  }

  lemma RightTablesHideTags(rib: Rib, t24: seq<nat>, tlong: seq<nat>)
    requires |t24| == TBL24_SIZE && |tlong| == TBLLONG_SIZE && Small(t24, tlong)
    ensures AnswersLpm(rib, t24, tlong) ==> TaggedAreFull(rib) && (TaggedShow(rib) ==> Untagged(rib))
  {
    hide Full, Tagged, Small;
    if AnswersLpm(rib, t24, tlong) {
      forall slot | 0 <= slot < SLOTS && Tagged(rib, slot) ensures Full(rib, slot) {
        if !Full(rib, slot) {
          var _ := TaggedSlotIsLost(rib, t24, tlong, slot);
        }
      }
    }
  }

  /** Small tables answer with small next hops, so an address whose slot has a tagged answer, and
      which no longer route matches, is answered wrongly; the loader's random next hops do that. */
  lemma TaggedSlotIsLost(rib: Rib, t24: seq<nat>, tlong: seq<nat>, slot: nat) returns (ip: nat)
    requires slot < SLOTS && Tagged(rib, slot) && !Full(rib, slot)
    requires |t24| == TBL24_SIZE && |tlong| == TBLLONG_SIZE && Small(t24, tlong)
    ensures ip < ADDRESSES && ip / 256 == slot && Fib(t24, tlong, ip) < TAG <= Lpm(rib, ip)
  {
    hide Prefix, LpmBelow;
    var low: nat :| low < 256 && Shows(rib, slot, low);
    ip := slot * 256 + low;
    assert ip / 256 == slot;
    LpmOfNone(rib, ip, 25, 33);
    LpmOfSlot(rib, ip, 25);
    if !HasTag(t24[slot]) {
      UntaggedIsSmall(t24[slot]);
    }
  }

  /** A single default route whose next hop uses bit 15. */
  ghost function TaggedDefault(): Rib {
    seq(33, i => if i == 0 then map[0 := TAG] else map[])
  }

  /** It meets every requirement of the builder, and every slot shows its tagged answer. */
  lemma TaggedDefaultIsLegal()
    ensures var rib := TaggedDefault(); Typed(rib) && Canonical(rib) && LongSlots(rib) == {} && SmallLongHops(rib)
    ensures TaggedShow(TaggedDefault()) && forall slot :: 0 <= slot < SLOTS ==> Tagged(TaggedDefault(), slot)
  {
    hide Pow2, LpmBelow, Prefix;
    DivMul(0, Pow2(32));
    forall slot | 0 <= slot < SLOTS ensures Tagged(TaggedDefault(), slot) && !Full(TaggedDefault(), slot) {
      TaggedDefaultAnswer(slot * 256, 25);
      assert Shows(TaggedDefault(), slot, 0);
    }
  }

  /** And no tables whose second one holds, as the builder's does, entries below the tag bit give the
      right answer for any address. */
  lemma TaggedDefaultIsLost(t24: seq<nat>, tlong: seq<nat>, ip: nat)
    requires |t24| == TBL24_SIZE && |tlong| == TBLLONG_SIZE && Small(t24, tlong) && ip < ADDRESSES
    ensures Lpm(TaggedDefault(), ip) == TAG && Fib(t24, tlong, ip) < TAG
  {
    hide LpmBelow;
    TaggedDefaultAnswer(ip, 33);
    if !HasTag(t24[ip / 256]) {
      UntaggedIsSmall(t24[ip / 256]);
    }
  }

  lemma {:induction false} TaggedDefaultAnswer(ip: nat, n: nat)
    requires 1 <= n <= 33 && ip < ADDRESSES
    ensures LpmBelow(TaggedDefault(), ip, n) == TAG
    decreases n
  {
    if n > 1 {
      TaggedDefaultAnswer(ip, n - 1);
    } else {
      Pow2Values();
      assert Prefix(ip, 0) == 0;
    }
  }

  // ---------- lookup and the route tables ----------

  method DirectLookup(t24: array<nat>, tlong: array<nat>, ip: nat) returns (dest: nat)
    requires t24.Length == TBL24_SIZE && tlong.Length == TBLLONG_SIZE && ip < ADDRESSES
    ensures dest == Fib(t24[..], tlong[..], ip)
  {
    dest := t24[ip / 256];
    if HasTag(dest) {
      dest := tlong[Untag(dest) * 256 + ip % 256];
    }
  }

  /** The route of `len` bits at `addr` matches `ip`, and no longer one does. */
  ghost predicate WouldAnswer(rib: Rib, len: nat, addr: nat, ip: nat)
    requires len <= 32
  {
    Prefix(ip, len) == addr && forall l :: len < l <= 32 ==> Prefix(ip, l) !in rib[l]
  }

  /** `add_route`: the answer changes to the new next hop exactly where the new route is the longest match. */
  method AddRoute(tables: array<map<nat, nat>>, addr: nat, len: nat, nexthop: nat)
    requires tables.Length == 33 && len <= 32
    modifies tables
    ensures tables[..] == old(tables[..])[len := old(tables[len])[addr := nexthop]]
    ensures forall ip :: Lpm(tables[..], ip) ==
                         if WouldAnswer(old(tables[..]), len, addr, ip) then nexthop else Lpm(old(tables[..]), ip)
  {
    ghost var rib := tables[..];
    tables[len] := tables[len][addr := nexthop];
    hide Prefix;
    forall ip ensures Lpm(tables[..], ip) == if WouldAnswer(rib, len, addr, ip) then nexthop else Lpm(rib, ip) {
      AddedRoute(rib, len, addr, nexthop, ip, 33);
    }
  }

  /** `delete_route`: exactly the addresses whose longest match was the route fall back to the longest
      shorter one. */
  method DeleteRoute(tables: array<map<nat, nat>>, addr: nat, len: nat)
    requires tables.Length == 33 && len <= 32
    modifies tables
    ensures tables[..] == old(tables[..])[len := old(tables[len]) - {addr}]
    ensures forall ip :: Lpm(tables[..], ip) ==
                         if WouldAnswer(old(tables[..]), len, addr, ip) then LpmBelow(old(tables[..]), ip, len)
                         else Lpm(old(tables[..]), ip)
  {
    ghost var rib := tables[..];
    tables[len] := tables[len] - {addr};
    hide Prefix;
    forall ip
      ensures Lpm(tables[..], ip) == if WouldAnswer(rib, len, addr, ip) then LpmBelow(rib, ip, len) else Lpm(rib, ip)
    {
      DeletedRoute(rib, len, addr, ip, 33);
    }
  }

  /** The effect of deleting a route on longest-prefix match. */
  lemma {:induction false} DeletedRoute(rib: Rib, len: nat, addr: nat, ip: nat, n: nat)
    requires len <= 32 && n <= 33
    ensures var less: map<nat, nat> := rib[len] - {addr};
            LpmBelow(rib[len := less], ip, n) ==
              if len < n && Prefix(ip, len) == addr && (forall l :: len < l < n ==> Prefix(ip, l) !in rib[l])
              then LpmBelow(rib, ip, len)
              else LpmBelow(rib, ip, n)
    decreases n
  {
    hide Prefix;
    if n > 0 {
      DeletedRoute(rib, len, addr, ip, n - 1);
    }
  }

  /** The effect of adding a canonical route on longest-prefix match. */
  lemma {:induction false} AddedRoute(rib: Rib, len: nat, addr: nat, hop: nat, ip: nat, n: nat)
    requires len <= 32 && n <= 33
    ensures var more: map<nat, nat> := rib[len][addr := hop];
            LpmBelow(rib[len := more], ip, n) ==
              if len < n && Prefix(ip, len) == addr && (forall l :: len < l < n ==> Prefix(ip, l) !in rib[l]) then hop
              else LpmBelow(rib, ip, n)
    decreases n
  {
    if n > 0 {
      AddedRoute(rib, len, addr, hop, ip, n - 1);
    }
  }
}
