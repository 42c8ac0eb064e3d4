/** Small route sets: which of them the tables of `build` answer, and which not. */
module PrefixExamples {
  import opened Address128
  import opened PrefixSearch
  import opened PrefixBuild

  /** Without a shorter covering route the scheme misses: a table whose only route has 96 bits
      gets one marker, at 64 bits, whose looked-up value 0 reads as a miss; the route itself is
      then never found. */
  lemma UncoveredRouteIsMissed(rib: Levels, r: U128, d: nat)
    requires rib[95] == map[r := d] && forall l :: 0 <= l < LEVELS && l != 95 ==> rib[l] == map[]
    requires Prefix(r, 95) == r && d != 0
    ensures forall m: nat :: m < LEVELS ==> (Turn(0, 127, 95, m) <==> m == 63)
    ensures var marker := Search(rib, Prefix(r, 63), 0, 127, 0);
            marker == 0 && Search(PutMarker(rib, 63, Prefix(r, 63), marker), r, 0, 127, 0) == 0
    ensures Lpm(rib, r) == d
  {
    forall m | 0 <= m < LEVELS ensures Turn(0, 127, 95, m) <==> m == 63 {
      assert Turn(0, 127, 95, m) <==> m == 63 || Turn(64, 127, 95, m);
    }
    EmptyBelow(rib, Prefix(r, 63), 62);
    var t := PutMarker(rib, 63, Prefix(r, 63), 0);
    EmptyBelow(t, r, 62);
    LpmIsLongest(rib, r, LEVELS, 95);
  }

  lemma {:induction false} EmptyBelow(t: Levels, ip: U128, hi: int)
    requires -1 <= hi < 63 && forall l :: 0 <= l < 63 ==> t[l] == map[]
    ensures Search(t, ip, 0, hi, 0) == 0
    decreases hi
  {
    if hi >= 0 {
      EmptyBelow(t, ip, hi / 2 - 1);
    }
  }

  // ---------- routes of 32, 48 and 56 bits ----------

  /** Nothing is stored but at these three lengths. */
  ghost predicate Small(t: Levels) {
    forall l :: 0 <= l < LEVELS && l != 31 && l != 47 && l != 55 ==> t[l] == map[]
  }

  lemma NoneBetween(t: Levels, ip: U128)
    requires Small(t)
    ensures forall l :: 0 <= l < LEVELS && l != 31 && l != 47 && l != 55 ==> Get(t, l, ip) == 0
  {
  }

  lemma SearchFrom48(t: Levels, ip: U128, acc: nat)
    requires Small(t)
    ensures Search(t, ip, 48, 62, acc) == if Get(t, 55, ip) == 0 then acc else Get(t, 55, ip)
  {
    hide Get, Search;
    NoneBetween(t, ip);
    SearchStep(t, ip, 48, 62, acc);
    SearchOfNothing(t, ip, 48, 54, acc);
    SearchOfNothing(t, ip, 56, 62, Get(t, 55, ip));
  }

  lemma SearchFrom32(t: Levels, ip: U128, acc: nat)
    requires Small(t)
    ensures Search(t, ip, 32, 62, acc) == if Get(t, 47, ip) == 0 then acc
            else if Get(t, 55, ip) == 0 then Get(t, 47, ip) else Get(t, 55, ip)
  {
    hide Get, Search;
    NoneBetween(t, ip);
    SearchStep(t, ip, 32, 62, acc);
    SearchOfNothing(t, ip, 32, 46, acc);
    SearchFrom48(t, ip, Get(t, 47, ip));
  }

  lemma SmallSearch(t: Levels, ip: U128)
    requires Small(t)
    ensures Search(t, ip, 0, 127, 0) ==
              if Get(t, 31, ip) == 0 then 0
              else if Get(t, 47, ip) == 0 then Get(t, 31, ip)
              else if Get(t, 55, ip) == 0 then Get(t, 47, ip)
              else Get(t, 55, ip)
  {
    hide Get, Search;
    NoneBetween(t, ip);
    SearchStep(t, ip, 0, 127, 0);
    SearchStep(t, ip, 0, 62, 0);
    SearchOfNothing(t, ip, 0, 30, 0);
    SearchFrom32(t, ip, Get(t, 31, ip));
  }

  lemma SmallMatch(rib: Levels, ip: U128)
    requires Small(rib) && Proper(rib)
    ensures Lpm(rib, ip) ==
              if Get(rib, 55, ip) != 0 then Get(rib, 55, ip)
              else if Get(rib, 47, ip) != 0 then Get(rib, 47, ip)
              else Get(rib, 31, ip)
  {
    hide Prefix, LpmBelow;
    LpmOfNone(rib, ip, 56, LEVELS);
    LpmStep(rib, ip, 55);
    LpmOfNone(rib, ip, 48, 55);
    LpmStep(rib, ip, 47);
    LpmOfNone(rib, ip, 32, 47);
    LpmStep(rib, ip, 31);
    LpmOfNone(rib, ip, 0, 31);
    LpmOfNothing(rib, ip);
  }

  lemma LpmStep(rib: Levels, ip: U128, l: nat)
    requires l < LEVELS && Proper(rib)
    ensures LpmBelow(rib, ip, l + 1) == if Get(rib, l, ip) != 0 then Get(rib, l, ip) else LpmBelow(rib, ip, l)
  {
  }

  lemma LpmOfNothing(rib: Levels, ip: U128)
    ensures LpmBelow(rib, ip, 0) == 0
  {
  }

  lemma Turns()
    ensures forall m: nat :: m < LEVELS ==> (Turn(0, 127, 47, m) <==> m == 31)
    ensures forall m: nat :: m < LEVELS ==> (Turn(0, 127, 55, m) <==> m == 31 || m == 47)
  {
    forall m | 0 <= m < LEVELS ensures Turn(0, 127, 47, m) <==> m == 31 {
      assert Turn(0, 127, 47, m) <==> Turn(0, 62, 47, m);
      assert Turn(0, 62, 47, m) <==> m == 31 || Turn(32, 62, 47, m);
    }
    forall m | 0 <= m < LEVELS ensures Turn(0, 127, 55, m) <==> m == 31 || m == 47 {
      assert Turn(0, 127, 55, m) <==> Turn(0, 62, 55, m);
      assert Turn(0, 62, 55, m) <==> m == 31 || Turn(32, 62, 55, m);
      assert Turn(32, 62, 55, m) <==> m == 47 || Turn(48, 62, 55, m);
    }
  }

  /** The bits of a key that is all zeros from a level on. */
  lemma Zeros(k: U128, m: nat, j: nat)
    requires m <= j < LEVELS && Prefix(k, m) == k
    ensures Prefix(k, j) == k
  {
    MaskMask(k, m + 1, j + 1);
  }

  /** The markers of a route of 48 bits. */
  function Mark48(t: Levels, r: U128): Levels {
    PutMarker(t, 31, Prefix(r, 31), Search(t, Prefix(r, 31), 0, 127, 0))
  }

  /** The markers of a route of 56 bits. */
  function Mark56(t: Levels, r: U128): Levels {
    var t1 := PutMarker(t, 31, Prefix(r, 31), Search(t, Prefix(r, 31), 0, 127, 0));
    PutMarker(t1, 47, Prefix(r, 47), Search(t1, Prefix(r, 47), 0, 127, 0))
  }

  /** A route of 48 bits that continues one of 32 bits with zeros takes all its addresses: the marker of
      the longer route overwrites the shorter one, with the hop of the longer one. */
  lemma LongerHidesShorter(rib: Levels, k: U128, c: nat, d: nat, ip: U128)
    requires rib[31] == map[k := c] && rib[47] == map[k := d] && Small(rib) && rib[55] == map[]
    requires Prefix(k, 31) == k && c != d && c != 0 && d != 0
    requires Prefix(ip, 31) == k && Prefix(ip, 47) != k
    ensures Search(Mark48(rib, k), ip, 0, 127, 0) == d && Lpm(rib, ip) == c
  {
    hide Prefix, Search, Lpm;
    Zeros(k, 31, 47);
    SmallSearch(rib, k);
    SmallSearch(Mark48(rib, k), ip);
    SmallMatch(rib, ip);
  }

  /** One of 56 bits does no harm: it is not found before its markers are there. */
  lemma DeeperTurnIsHarmless(rib: Levels, k: U128, c: nat, d: nat)
    requires rib[31] == map[k := c] && rib[55] == map[k := d] && Small(rib) && rib[47] == map[]
    requires Prefix(k, 31) == k && c != d && c != 0 && d != 0
    ensures AnswersLpm(Mark56(rib, k), rib)
  {
    hide Prefix, Search, Lpm;
    Zeros(k, 31, 47);
    Zeros(k, 31, 55);
    SmallSearch(rib, k);
    var t1 := PutMarker(rib, 31, k, c);
    SmallSearch(t1, k);
    forall ip ensures Search(Mark56(rib, k), ip, 0, 127, 0) == Lpm(rib, ip) {
      SmallSearch(Mark56(rib, k), ip);
      SmallMatch(rib, ip);
      PrefixPrefix(ip, 55, 31);
      PrefixPrefix(ip, 55, 47);
      PrefixPrefix(ip, 47, 31);
    }
  }

  /** The condition on the routes tells so. */
  lemma DeeperTurnIsBuildable(rib: Levels, k: U128, c: nat, d: nat)
    requires rib[31] == map[k := c] && rib[55] == map[k := d] && Small(rib) && rib[47] == map[]
    requires Prefix(k, 31) == k && c != d && c != 0 && d != 0
    ensures Buildable(rib) && !AllClear(rib)
  {
    hide Prefix, First, LpmBelow, Turn, Latest;
    Turns();
    Zeros(k, 31, 47);
    Zeros(k, 31, 55);
    NoTurnsOf31();
    LpmBelowOwn(rib, k, 31);
    LatestAt31(rib, k);
    LatestAt47(rib, k);
    LpmStaysNonzero(rib, k, 32, 48);
    assert Turn(0, 127, 55, 31) && Matches(rib, Prefix(k, 31), 55);
  }

  lemma NoTurnsOf31()
    ensures forall m: nat :: m < LEVELS ==> !Turn(0, 127, 31, m)
  {
    forall m | 0 <= m < LEVELS ensures !Turn(0, 127, 31, m) {
      assert Turn(0, 127, 31, m) <==> Turn(0, 62, 31, m);
    }
  }

  lemma LatestAt31(rib: Levels, k: U128)
    requires rib[31].Keys == {k} && rib[55].Keys == {k} && Small(rib) && rib[47] == map[] && Prefix(k, 31) == k
    ensures Latest(rib, 55, k, k, 31) == 31
  {
    hide Prefix, End;
    NoTurnsOf31();
    var seen := Maybe(rib, 55, k, k, 31);
    forall j: nat | 31 < j <= 62 && j != 55 ensures !seen(j) {}
    EndStep(seen, 0, 127, -1);
    EndStep(seen, 0, 62, -1);
    EndStep(seen, 32, 62, 31);
    NothingSeen(seen, 32, 46, 31);
  }

  lemma LatestAt47(rib: Levels, k: U128)
    requires rib[31].Keys == {k} && rib[55].Keys == {k} && Small(rib) && rib[47] == map[] && Prefix(k, 31) == k
    ensures Latest(rib, 55, k, k, 47) < 47
  {
    hide Prefix, End;
    NoTurnsOf31();
    var seen := Maybe(rib, 55, k, k, 47);
    forall j: nat | 47 <= j < LEVELS && j != 55 ensures !seen(j) {}
    EndStep(seen, 0, 127, -1);
    EndStep(seen, 0, 62, -1);
    EndStep(seen, 32, 62, 31);
  }

  lemma {:induction false} NothingSeen(seen: nat -> bool, lo: nat, hi: int, acc: int)
    requires forall j: nat :: lo <= j <= hi ==> !seen(j)
    ensures End(seen, lo, hi, acc) == acc
    decreases hi - lo + 1
  {
    if lo <= hi {
      NothingSeen(seen, lo, (lo + hi) / 2 - 1, acc);
    }
  }

  /** A marker that no route covers does no harm elsewhere: with routes of 32 and 56 bits, and one of 48 bits
      that nothing covers, the addresses under the one of 32 bits depend on markers in order only. */
  lemma UncoveredElsewhere(rib: Levels, k: U128, s: U128, u: U128, c: nat, d: nat, e: nat, ip: U128)
    requires rib[31] == map[k := c] && rib[47] == map[u := e] && rib[55] == map[s := d] && Small(rib)
    requires Prefix(k, 31) == k == Prefix(s, 31) && Prefix(u, 47) == u && Prefix(s, 55) == s && Prefix(u, 31) != k
    requires Prefix(s, 47) != s && c != 0 && d != 0 && e != 0 && Prefix(ip, 31) == k
    ensures !Covered(rib) && Reliable(rib, ip)
  {
    hide Prefix, Turn, Cover, Quiet;
    Turns();
    NoTurnsOf31();
    UncoveredBy(rib, u, 31);
    assert Turn(0, 127, 47, 31) && u in rib[47];
    forall x | Prefix(x, 31) == k ensures Clean(rib, x) {
      CleanUnder(rib, k, s, u, c, d, e, x);
    }
    forall m | m == 31 || m == 47 ensures Prefix(Prefix(s, m), 31) == k {
      PrefixPrefix(s, m, 31);
    }
    forall l: nat, r, m: nat | l < LEVELS && r in rib[l] && m < LEVELS && Turn(0, 127, l, m) &&
      Prefix(r, m) == Prefix(ip, m)
      ensures Clean(rib, Prefix(r, m))
    {
      PrefixPrefix(ip, m, 31);
    }
  }

  /** No route of up to `m` bits matches `u`. */
  lemma UncoveredBy(rib: Levels, u: U128, m: nat)
    requires m < LEVELS && Small(rib) && m < 47 && (m >= 31 ==> Prefix(u, 31) !in rib[31])
    ensures Cover(rib, u, m) == 0
  {
    hide Prefix;
    LpmOfNone(rib, u, 0, m + 1);
  }

  lemma CleanUnder(rib: Levels, k: U128, s: U128, u: U128, c: nat, d: nat, e: nat, x: U128)
    requires rib[31] == map[k := c] && rib[47] == map[u := e] && rib[55] == map[s := d] && Small(rib)
    requires Prefix(k, 31) == k == Prefix(s, 31) && Prefix(u, 47) == u && Prefix(s, 55) == s && Prefix(u, 31) != k
    requires Prefix(s, 47) != s && c != 0 && d != 0 && e != 0 && Prefix(x, 31) == k
    ensures Clean(rib, x)
  {
    hide Prefix, Turn, Cover, Quiet;
    Turns();
    NoTurnsOf31();
    forall m | m == 31 || m == 47 ensures Cover(rib, s, m) != 0 && Quiet(rib, 55, s, m) {
      QuietUnder(rib, k, s, u, c, d, e, m);
    }
  }

  lemma QuietUnder(rib: Levels, k: U128, s: U128, u: U128, c: nat, d: nat, e: nat, m: nat)
    requires rib[31] == map[k := c] && rib[47] == map[u := e] && rib[55] == map[s := d] && Small(rib)
    requires Prefix(k, 31) == k == Prefix(s, 31) && Prefix(u, 47) == u && Prefix(s, 55) == s && Prefix(u, 31) != k
    requires Prefix(s, 47) != s && c != 0 && d != 0 && e != 0 && (m == 31 || m == 47)
    ensures Cover(rib, s, m) != 0 && Quiet(rib, 55, s, m)
  {
    hide Prefix, Turn, Quiet, LpmBelow;
    LpmBelowOwn(rib, s, 31);
    PrefixPrefix(s, 47, 31);
    LpmOfNone(rib, s, 32, m + 1);
    Zeros(k, 31, 47);
    forall l | m < l < LEVELS ensures !Matches(rib, Prefix(s, m), l) {
      PrefixPrefix(s, m, l);
    }
    ClearIsQuiet(rib, 55, s, m);
  }

  /** With two routes of 56 bits under it, it depends on the order in which the hash table lists them: no
      condition on the routes alone tells whether all addresses are answered rightly. */
  lemma OrderMatters(rib: Levels, k: U128, s: U128, c: nat, d: nat, e: nat)
    requires rib[31] == map[k := c] && rib[55] == map[k := d, s := e] && Small(rib) && rib[47] == map[]
    requires Prefix(k, 31) == k && Prefix(s, 31) == k && Prefix(s, 47) != k && Prefix(s, 47) != s && Prefix(s, 55) == s
    requires c != d && c != 0 && d != 0 && e != 0
    ensures !AnswersLpm(Mark56(Mark56(rib, k), s), rib)
    ensures AnswersLpm(Mark56(Mark56(rib, s), k), rib)
  {
    WrongOrder(rib, k, s, c, d, e);
    RightOrder(rib, k, s, c, d, e);
  }

  lemma WrongOrder(rib: Levels, k: U128, s: U128, c: nat, d: nat, e: nat)
    requires rib[31] == map[k := c] && rib[55] == map[k := d, s := e] && Small(rib) && rib[47] == map[]
    requires Prefix(k, 31) == k && Prefix(s, 31) == k && Prefix(s, 47) != k && Prefix(s, 47) != s && Prefix(s, 55) == s
    requires c != d && c != 0 && d != 0 && e != 0
    ensures !AnswersLpm(Mark56(Mark56(rib, k), s), rib)
  {
    hide Prefix, Search, Lpm;
    var p := Prefix(s, 47);
    Zeros(k, 31, 47);
    Zeros(k, 31, 55);
    PrefixPrefix(s, 47, 31);
    PrefixPrefix(s, 47, 47);
    PrefixPrefix(s, 47, 55);
    SmallSearch(rib, k);
    SmallSearch(PutMarker(rib, 31, k, c), k);
    var a := Mark56(rib, k);
    assert a[31] == map[k := c] && a[47] == map[k := c] && a[55] == rib[55] && Small(a);
    SmallSearch(a, k);
    SmallSearch(PutMarker(a, 31, k, d), p);
    SmallSearch(Mark56(a, s), p);
    SmallMatch(rib, p);
  }

  lemma RightOrder(rib: Levels, k: U128, s: U128, c: nat, d: nat, e: nat)
    requires rib[31] == map[k := c] && rib[55] == map[k := d, s := e] && Small(rib) && rib[47] == map[]
    requires Prefix(k, 31) == k && Prefix(s, 31) == k && Prefix(s, 47) != k && Prefix(s, 55) == s
    requires c != d && c != 0 && d != 0 && e != 0
    ensures AnswersLpm(Mark56(Mark56(rib, s), k), rib)
  {
    hide Prefix, Search, Lpm;
    var p := Prefix(s, 47);
    Zeros(k, 31, 47);
    Zeros(k, 31, 55);
    PrefixPrefix(s, 47, 31);
    PrefixPrefix(s, 47, 47);
    SmallSearch(rib, k);
    SmallSearch(PutMarker(rib, 31, k, c), p);
    var a := Mark56(rib, s);
    assert a[31] == map[k := c] && a[47] == map[p := c] && a[55] == rib[55] && Small(a);
    SmallSearch(a, k);
    SmallSearch(PutMarker(a, 31, k, c), k);
    var b := Mark56(a, k);
    assert b[31] == map[k := c] && b[47] == map[p := c, k := c] && b[55] == rib[55] && Small(b);
    forall ip ensures Search(b, ip, 0, 127, 0) == Lpm(rib, ip) {
      SmallSearch(b, ip);
      SmallMatch(rib, ip);
      PrefixPrefix(ip, 55, 31);
      PrefixPrefix(ip, 55, 47);
    }
  }
}
