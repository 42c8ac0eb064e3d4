/** The tables `build` makes of the routes, and when they answer rightly. Every route leaves a marker
    wherever its search turns right; the value of a marker is what a lookup of its bits, extended with
    zeros, finds in the half-built tables. */
module PrefixBuild {
  import opened Address128
  import opened PrefixSearch

  /** Stands for no route in particular. */
  const NONE: U128 := U128(0, 0)

  // ---------- routes and markers ----------

  /** `k` is the marker at level `l` of the route `r` of level `n`. */
  ghost predicate MarkerOf(rib: Levels, n: nat, r: U128, l: nat, k: U128)
    requires l < LEVELS
  {
    l < n < LEVELS && r in rib[n] && Turn(0, 127, n, l) && Prefix(r, l) == k
  }

  /** The keys of level `l` in the finished tables: its routes and the markers of longer ones. */
  ghost function Stored(rib: Levels, l: nat): set<U128>
    requires l < LEVELS
  {
    rib[l].Keys + set n, r | l < n < LEVELS && r in rib[n] && Turn(0, 127, n, l) :: Prefix(r, l)
  }

  /** What the routes are always: masked keys, and next hops that are not 0. */
  ghost predicate Proper(rib: Levels) {
    forall l, r :: 0 <= l < LEVELS && r in rib[l] ==> Prefix(r, l) == r && rib[l][r] != 0
  }

  /** The answer for the bits of `z` up to level `m`. */
  function Cover(rib: Levels, z: U128, m: nat): nat
    requires m < LEVELS
  {
    LpmBelow(rib, z, m + 1)
  }

  /** Wherever the search for a route turns right, a route of that level or a shorter one matches. */
  ghost predicate Covered(rib: Levels) {
    forall l: nat, r, m: nat :: l < LEVELS && r in rib[l] && m < LEVELS && Turn(0, 127, l, m) ==> Cover(rib, r, m) != 0
  }

  /** When the marker of `z` at level `m` is written, at least these levels hold something for `z`: those
      on the way to `m`, and the routes from `m` on that match `z`. */
  ghost function Surely(rib: Levels, z: U128, m: nat): nat -> bool {
    (j: nat) => j < LEVELS && (Turn(0, 127, m, j) || (m <= j && Matches(rib, z, j)))
  }

  /** A marker other than those of route `r` of level `l`, of a route not longer. */
  ghost predicate Other(rib: Levels, l: nat, r: U128, j: nat, z: U128)
    requires j < LEVELS
  {
    exists n: nat, q :: MarkerOf(rib, n, q, j, z) && n <= l && (n != l || q != r)
  }

  /** When route `r` of level `l` writes the marker of `z` at level `m`, from `m` on at most these levels
      hold something for `z`. */
  ghost function Maybe(rib: Levels, l: nat, r: U128, z: U128, m: nat): nat -> bool {
    (j: nat) => j < LEVELS && (j < m || Matches(rib, z, j) || Other(rib, l, r, j, Prefix(z, j)))
  }

  /** The search for `z` ends no earlier than this. */
  ghost function First(rib: Levels, z: U128, m: nat): int {
    End(Surely(rib, z, m), 0, 127, -1)
  }

  /** It ends no later than this, or before `m`. */
  ghost function Latest(rib: Levels, l: nat, r: U128, z: U128, m: nat): int {
    End(Maybe(rib, l, r, z, m), 0, 127, -1)
  }

  /** Wherever between the two bounds the search for the marker ends, the longest match so far has the
      hop that is right for the marker. */
  ghost predicate Quiet(rib: Levels, l: nat, r: U128, m: nat)
    requires m < LEVELS
  {
    var z := Prefix(r, m);
    forall j: nat :: m <= j < LEVELS && First(rib, z, m) <= j <= Latest(rib, l, r, z, m) ==>
        Cover(rib, z, j) == Cover(rib, z, m)
  }

  /** The search for the marker must end at a longer route, and no longer route that it can find has
      the right hop. */
  ghost predicate Loud(rib: Levels, z: U128, m: nat)
    requires m < LEVELS
  {
    && First(rib, z, m) > m
    && forall j: nat :: j < LEVELS && First(rib, z, m) <= j && Matches(rib, z, j) ==>
         rib[j][Prefix(z, j)] != Cover(rib, z, m)
  }

  /** Every marker with the bits of `x` is covered and quiet. */
  ghost predicate Clean(rib: Levels, x: U128) {
    forall l: nat, r, m: nat ::
      l < LEVELS && r in rib[l] && m < LEVELS && Turn(0, 127, l, m) && Prefix(r, m) == Prefix(x, m) ==>
        Cover(rib, r, m) != 0 && Quiet(rib, l, r, m)
  }

  /** The markers on the way of `ip`, and those on the ways of these markers' bits extended with zeros,
      are covered and quiet. */
  ghost predicate Reliable(rib: Levels, ip: U128) {
    Clean(rib, ip) && forall l: nat, r, m: nat ::
      l < LEVELS && r in rib[l] && m < LEVELS && Turn(0, 127, l, m) && Prefix(r, m) == Prefix(ip, m) ==>
        Clean(rib, Prefix(r, m))
  }

  /** What `build` needs of the routes. */
  ghost predicate Buildable(rib: Levels) {
    && Proper(rib) && Covered(rib)
    && forall l: nat, r, m: nat :: l < LEVELS && r in rib[l] && m < LEVELS && Turn(0, 127, l, m) ==> Quiet(rib, l, r, m)
  }

  /** Every marker is one or the other; for the rest it depends on the order of the hash table. */
  ghost predicate Decided(rib: Levels) {
    forall l: nat, r, m: nat :: l < LEVELS && r in rib[l] && m < LEVELS && Turn(0, 127, l, m) ==>
      Quiet(rib, l, r, m) || Loud(rib, Prefix(r, m), m)
  }

  /** No longer route matches the marker's bits extended with zeros. */
  ghost predicate ClearBehind(rib: Levels, z: U128, m: nat)
    requires m < LEVELS
  {
    forall l :: m < l < LEVELS ==> !Matches(rib, z, l)
  }

  ghost predicate AllClear(rib: Levels) {
    forall l: nat, r, m: nat :: l < LEVELS && r in rib[l] && m < LEVELS && Turn(0, 127, l, m) ==>
        ClearBehind(rib, Prefix(r, m), m)
  }

  /** Nothing longer is stored on the way of `ip`, whose bits up to level `m` are `k`. */
  ghost predicate VisibleAt(rib: Levels, m: nat, k: U128, ip: U128)
    requires m < LEVELS
  {
    Prefix(ip, m) == k && forall j :: m < j < LEVELS ==> Prefix(ip, j) !in Stored(rib, j)
  }

  ghost predicate Visible(rib: Levels, m: nat, k: U128)
    requires m < LEVELS
  {
    exists ip :: VisibleAt(rib, m, k, ip)
  }

  /** Every route, and every marker unless all of them are clear, decides the answer for some address. */
  ghost predicate Open(rib: Levels) {
    && (forall l, r :: 0 <= l < LEVELS && r in rib[l] ==> Visible(rib, l, r))
    && (AllClear(rib) || forall l, k :: 0 <= l < LEVELS && k in Stored(rib, l) ==> Visible(rib, l, k))
  }

  lemma FirstIsRoute(rib: Levels, z: U128, m: nat)
    ensures First(rib, z, m) > m ==> First(rib, z, m) < LEVELS && (m < LEVELS ==> Matches(rib, z, First(rib, z, m)))
  {
    hide Matches;
    if First(rib, z, m) > m && Turn(0, 127, m, First(rib, z, m)) {
      TurnRange(0, 127, m, First(rib, z, m));
    }
  }

  lemma ClearIsQuiet(rib: Levels, l: nat, r: U128, m: nat)
    requires m < LEVELS && ClearBehind(rib, Prefix(r, m), m)
    ensures Quiet(rib, l, r, m) && !Loud(rib, Prefix(r, m), m)
  {
    hide Prefix, First, Latest, LpmBelow;
    var z := Prefix(r, m);
    FirstIsRoute(rib, z, m);
    forall j: nat | m <= j < LEVELS ensures Cover(rib, z, j) == Cover(rib, z, m) {
      LpmOfNone(rib, z, m + 1, j + 1);
    }
  }

  /** Without longer routes behind the markers all are quiet, and covering alone is needed. */
  lemma ClearIsDecided(rib: Levels)
    requires AllClear(rib)
    ensures Decided(rib) && (Buildable(rib) <==> Proper(rib) && Covered(rib))
  {
    hide Quiet, Loud, ClearBehind, Turn, Prefix, Cover;
    forall l: nat, r, m: nat | l < LEVELS && r in rib[l] && m < LEVELS && Turn(0, 127, l, m)
      ensures Quiet(rib, l, r, m)
    {
      ClearIsQuiet(rib, l, r, m);
    }
  }

  /** A simple sufficient condition: both one-bit prefixes are routed, next hops are nonzero, and
      every longer route ends in a 1 bit. */
  ghost predicate Plain(rib: Levels) {
    Proper(rib) && (forall ip :: Matches(rib, ip, 0)) &&
      (forall l, r :: 1 <= l < LEVELS && r in rib[l] ==> Mask(r, l) != r)
  }

  lemma {:induction false} AlwaysCovered(rib: Levels, ip: U128, n: nat)
    requires 1 <= n <= LEVELS && Matches(rib, ip, 0) && Proper(rib)
    ensures LpmBelow(rib, ip, n) != 0
  {
    if n > 1 && !Matches(rib, ip, n - 1) {
      AlwaysCovered(rib, ip, n - 1);
    }
  }

  lemma PlainIsBuildable(rib: Levels)
    requires Plain(rib)
    ensures Buildable(rib) && AllClear(rib)
  {
    hide LpmBelow, Mask, Turn, Quiet, Loud;
    forall l: nat, r, m: nat | l < LEVELS && r in rib[l] && m < LEVELS && Turn(0, 127, l, m)
      ensures ClearBehind(rib, Prefix(r, m), m) && Cover(rib, r, m) != 0 && Quiet(rib, l, r, m)
    {
      AlwaysCovered(rib, r, m + 1);
      forall k | m < k < LEVELS ensures !Matches(rib, Prefix(r, m), k) {
        MaskMask(r, m + 1, k + 1);
        MaskMask(r, m + 1, k);
      }
      ClearIsQuiet(rib, l, r, m);
    }
  }

  // ---------- the invariants of the tables ----------

  /** Every key is masked and is a route or the marker of one. */
  ghost predicate Keyed(t: Levels, rib: Levels) {
    forall l, k :: 0 <= l < LEVELS && k in t[l] ==> Prefix(k, l) == k && k in Stored(rib, l)
  }

  ghost predicate Complete(t: Levels, rib: Levels) {
    forall l :: 0 <= l < LEVELS ==> rib[l].Keys <= t[l].Keys
  }

  /** The key `k` is there, and not with the right hop if its marker is loud. */
  ghost predicate Taken(t: Levels, rib: Levels, m: nat, k: U128)
    requires m < LEVELS
  {
    k in t[m] && (Covered(rib) && Loud(rib, k, m) ==> t[m][k] != Cover(rib, k, m))
  }

  /** The route `r` of level `l` has a marker wherever its search turns right. */
  ghost predicate Marked(t: Levels, rib: Levels, l: nat, r: U128) {
    forall m: nat :: m < LEVELS && Turn(0, 127, l, m) ==> Taken(t, rib, m, Prefix(r, m))
  }

  ghost predicate MarkedBelow(t: Levels, rib: Levels, n: nat)
    requires n <= LEVELS
  {
    forall l, r :: 0 <= l < n && r in rib[l] ==> Marked(t, rib, l, r)
  }

  ghost predicate Alive(t: Levels) {
    forall l, k :: 0 <= l < LEVELS && k in t[l] ==> t[l][k] != 0
  }

  /** Where the search for a loud marker can end there is never the hop that would be right for it. */
  ghost predicate Held(t: Levels, rib: Levels) {
    forall l: nat, r, m: nat :: l < LEVELS && r in rib[l] && m < LEVELS && Turn(0, 127, l, m) ==>
      Loud(rib, Prefix(r, m), m) ==> HeldAt(t, rib, Prefix(r, m), m)
  }

  ghost predicate HeldAt(t: Levels, rib: Levels, z: U128, m: nat)
    requires m < LEVELS
  {
    forall j: nat :: j < LEVELS && First(rib, z, m) <= j ==> Get(t, j, z) != Cover(rib, z, m)
  }

  /** An entry is nonzero only if something matches its key. */
  ghost predicate Weak(t: Levels, rib: Levels) {
    forall l, k :: 0 <= l < LEVELS && k in t[l] && t[l][k] != 0 ==> Cover(rib, k, l) != 0
  }

  ghost predicate AliveAt(t: Levels, x: U128) {
    forall l: nat :: l < LEVELS && Prefix(x, l) in t[l] ==> t[l][Prefix(x, l)] != 0
  }

  /** Every entry on the way of `x` holds the longest match among the levels up to its own. */
  ghost predicate SoundAt(t: Levels, rib: Levels, x: U128) {
    forall l: nat :: l < LEVELS && Prefix(x, l) in t[l] ==> t[l][Prefix(x, l)] == Cover(rib, x, l) != 0
  }

  /** It does so for every address whose markers are in order, whatever other markers are. */
  ghost predicate Sound(t: Levels, rib: Levels) {
    forall x :: Reliable(rib, x) ==> SoundAt(t, rib, x)
  }

  /** The state of the tables after the routes below level `n` got their markers. */
  ghost predicate Built(t: Levels, rib: Levels, n: nat)
    requires n <= LEVELS
  {
    && Keyed(t, rib) && Complete(t, rib) && MarkedBelow(t, rib, n)
    && (Covered(rib) ==> Alive(t) && Held(t, rib))
    && (AllClear(rib) ==> Weak(t, rib))
    && Sound(t, rib)
  }

  /** Keys once taken stay so. */
  ghost predicate Grown(rib: Levels, t: Levels, t': Levels) {
    forall m: nat, k :: m < LEVELS && Taken(t, rib, m, k) ==> Taken(t', rib, m, k)
  }

  /** Every right turn of route `r` is marked or still ahead, in `[lo, hi]`. */
  ghost predicate PathMarked(t: Levels, rib: Levels, l: nat, r: U128, lo: int, hi: int) {
    forall m: nat :: m < LEVELS && Turn(0, 127, l, m) ==> Taken(t, rib, m, Prefix(r, m)) || Turn(lo, hi, l, m)
  }

  /** The search for level `l` has come to `[lo, hi]`: the right turns from `lo` on are those ahead. */
  ghost predicate OnPath(l: nat, lo: int, hi: int) {
    && 0 <= lo <= l <= hi <= 127
    && forall m: nat :: m < LEVELS ==> (Turn(lo, hi, l, m) <==> lo <= m && Turn(0, 127, l, m))
  }

  /** The routes below level `len`, and the routes `done` of that level, have their markers, and the
      route `r` has those before `[lo, hi]`. */
  ghost predicate Underway(t: Levels, rib: Levels, len: nat, done: set<U128>, r: U128, lo: int, hi: int)
    requires len <= LEVELS
  {
    Built(t, rib, len) && Traced(t, rib, len, done, r, lo, hi) && PathMarked(t, rib, len, r, lo, hi)
  }

  // ---------- which keys `build` writes, and how often ----------

  /** `build` writes `k` though it is there already: it is a route and a marker, or the marker of two routes. */
  ghost predicate Rewritten(rib: Levels, l: nat, k: U128)
    requires l < LEVELS
  {
    exists n: nat, r :: MarkerOf(rib, n, r, l, k) &&
      (k in rib[l] || exists n': nat, r' :: MarkerOf(rib, n', r', l, k) && (n' != n || r' != r))
  }

  /** Every key of the tables is a route or a marker of a route done: those of the levels below `len`,
      the routes `done` of that level, and the route `r` where it has turned right so far. */
  ghost predicate Traced(t: Levels, rib: Levels, len: nat, done: set<U128>, r: U128, lo: int, hi: int) {
    forall l, k :: 0 <= l < LEVELS && k in t[l] ==> TracedKey(rib, l, k, len, done, r, lo, hi)
  }

  ghost predicate TracedKey(rib: Levels, l: nat, k: U128, len: nat, done: set<U128>, r: U128, lo: int, hi: int)
    requires l < LEVELS
  {
    || k in rib[l]
    || (exists n: nat, q :: MarkerOf(rib, n, q, l, k) && (n < len || (n == len && q in done)))
    || (MarkerOf(rib, len, r, l, k) && !Turn(lo, hi, len, l))
  }

  /** Before its first turn it does not matter which route is next. */
  lemma TracedStart(t: Levels, rib: Levels, len: nat, done: set<U128>, r: U128, r': U128)
    requires Traced(t, rib, len, done, r, 0, 127)
    ensures Traced(t, rib, len, done, r', 0, 127)
  {
    forall l, k | 0 <= l < LEVELS && k in t[l] ensures TracedKey(rib, l, k, len, done, r', 0, 127) {
      assert TracedKey(rib, l, k, len, done, r, 0, 127);
    }
  }

  /** The key of a marker about to be written is new, or one that `build` writes twice. */
  lemma TracedNew(t: Levels, rib: Levels, len: nat, done: set<U128>, r: U128, lo: nat, hi: int)
    requires Traced(t, rib, len, done, r, lo, hi) && len < LEVELS && r in rib[len] && r !in done
    requires OnPath(len, lo, hi) && (lo + hi) / 2 < len < LEVELS
    ensures var m := (lo + hi) / 2; var k := Prefix(r, m);
            MarkerOf(rib, len, r, m, k) && k in Stored(rib, m) && (k in t[m] ==> Rewritten(rib, m, k))
  {
    hide Mask, OnPath, Turn;
    var m := (lo + hi) / 2;
    TurnHere(len, lo, hi);
    assert MarkerOf(rib, len, r, m, Prefix(r, m));
    if Prefix(r, m) in t[m] {
      assert TracedKey(rib, m, Prefix(r, m), len, done, r, lo, hi);
    }
  }

  lemma TurnHere(len: nat, lo: nat, hi: int)
    requires OnPath(len, lo, hi) && (lo + hi) / 2 < len
    ensures var m := (lo + hi) / 2; m < LEVELS && Turn(lo, hi, len, m) && Turn(0, 127, len, m)
  {
  }

  lemma TracedPut(t: Levels, rib: Levels, len: nat, done: set<U128>, r: U128, lo: nat, hi: int, val: nat)
    requires Traced(t, rib, len, done, r, lo, hi) && len < LEVELS && r in rib[len]
    requires OnPath(len, lo, hi) && (lo + hi) / 2 < len
    ensures var m := (lo + hi) / 2;
            Traced(PutMarker(t, m, Prefix(r, m), val), rib, len, done, r, m + 1, hi)
  {
    var m := (lo + hi) / 2;
    var t' := PutMarker(t, m, Prefix(r, m), val);
    forall l, k | 0 <= l < LEVELS && k in t'[l] ensures TracedKey(rib, l, k, len, done, r, m + 1, hi) {
      if l == m && k == Prefix(r, m) {
        TurnHere(len, lo, hi);
        if Turn(m + 1, hi, len, m) { TurnRange(m + 1, hi, len, m); }
      } else {
        assert TracedKey(rib, l, k, len, done, r, lo, hi);
        assert Turn(m + 1, hi, len, l) ==> Turn(lo, hi, len, l);
      }
    }
  }

  lemma TracedLeft(t: Levels, rib: Levels, len: nat, done: set<U128>, r: U128, lo: nat, hi: int)
    requires Traced(t, rib, len, done, r, lo, hi) && OnPath(len, lo, hi) && len < (lo + hi) / 2
    ensures Traced(t, rib, len, done, r, lo, (lo + hi) / 2 - 1)
  {
    forall l, k | 0 <= l < LEVELS && k in t[l] ensures TracedKey(rib, l, k, len, done, r, lo, (lo + hi) / 2 - 1) {
      assert TracedKey(rib, l, k, len, done, r, lo, hi);
      assert Turn(lo, (lo + hi) / 2 - 1, len, l) ==> Turn(lo, hi, len, l);
    }
  }

  /** A route whose search has reached its level is done. */
  lemma TracedEnd(t: Levels, rib: Levels, len: nat, done: set<U128>, r: U128, lo: nat, hi: int, r': U128)
    requires Traced(t, rib, len, done, r, lo, hi) && OnPath(len, lo, hi) && len == (lo + hi) / 2
    ensures Traced(t, rib, len, done + {r}, r', 0, 127)
  {
    forall l, k | 0 <= l < LEVELS && k in t[l] ensures TracedKey(rib, l, k, len, done + {r}, r', 0, 127) {
      assert TracedKey(rib, l, k, len, done, r, lo, hi);
      assert !Turn(lo, hi, len, l);
    }
  }

  /** A level all of whose routes are done. */
  lemma TracedLevel(t: Levels, rib: Levels, len: nat, done: set<U128>, r: U128, r': U128)
    requires Traced(t, rib, len, done, r, 0, 127)
    ensures Traced(t, rib, len + 1, {}, r', 0, 127)
  {
    forall l, k | 0 <= l < LEVELS && k in t[l] ensures TracedKey(rib, l, k, len + 1, {}, r', 0, 127) {
      assert TracedKey(rib, l, k, len, done, r, 0, 127);
    }
  }

  lemma TracedStored(t: Levels, rib: Levels, len: nat, done: set<U128>, r: U128, lo: int, hi: int, l: nat)
    requires Traced(t, rib, len, done, r, lo, hi) && l < LEVELS
    ensures t[l].Keys <= Stored(rib, l)
  {
    forall k | k in t[l] ensures k in Stored(rib, l) {
      assert TracedKey(rib, l, k, len, done, r, lo, hi);
    }
  }

  // ---------- one marker ----------

  function PutMarker(t: Levels, m: nat, key: U128, val: nat): Levels
    requires m < LEVELS
  {
    var level: map<U128, nat> := t[m][key := val];
    t[m := level]
  }

  lemma PutGets(t: Levels, m: nat, key: U128, val: nat, j: nat, z: U128)
    requires m < LEVELS && j < LEVELS
    ensures Get(PutMarker(t, m, key, val), j, z) == if j == m && Prefix(z, j) == key then val else Get(t, j, z)
  {
  }

  /** Where the search for `z` ends, which holds the answer. */
  lemma EndOfSearch(t: Levels, z: U128) returns (e: int)
    ensures e == End(InTable(t, z), 0, 127, -1) && -1 <= e < LEVELS && (e >= 0 ==> Get(t, e, z) != 0)
    ensures Search(t, z, 0, 127, 0) == if e < 0 then 0 else Get(t, e, z)
  {
    e := End(InTable(t, z), 0, 127, -1);
    SearchIsEnd(t, z, 0, 127, 0, -1);
  }

  lemma AliveHere(t: Levels, z: U128)
    requires Alive(t)
    ensures AliveAt(t, z)
  {
  }

  /** A covered key is never missed. */
  lemma CoverIsReached(t: Levels, rib: Levels, z: U128, m: nat, n: nat) returns (p: nat)
    requires m < n <= LEVELS && Complete(t, rib) && AliveAt(t, z) && MarkedBelow(t, rib, n) && Cover(rib, z, m) != 0
    ensures p <= m && (forall l :: p < l <= m ==> !Matches(rib, z, l)) && p <= End(InTable(t, z), 0, 127, -1)
  {
    p := LpmSource(rib, z, m + 1);
    assert Marked(t, rib, p, Prefix(z, p));
    forall a: nat | Turn(0, 127, p, a) ensures InTable(t, z)(a) {
      TurnRange(0, 127, p, a);
      assert Taken(t, rib, a, Prefix(Prefix(z, p), a));
      MaskMask(z, p + 1, a + 1);
    }
    EndReaches(InTable(t, z), 0, 127, -1, p);
  }

  /** With the levels before `m` marked on the way of `z`, the search ends no earlier than `First`. */
  lemma FirstIsReached(t: Levels, rib: Levels, z: U128, m: nat)
    requires m < LEVELS && Complete(t, rib) && AliveAt(t, z)
    requires forall a: nat :: Turn(0, 127, m, a) && a < LEVELS ==> Prefix(z, a) in t[a]
    ensures First(rib, z, m) <= End(InTable(t, z), 0, 127, -1)
  {
    hide Prefix, Turn;
    EndDeeper(Surely(rib, z, m), InTable(t, z), 0, 127, -1, -1);
  }

  /** The right turns of route `r` before its next one are marked. */
  lemma OwnMarks(t: Levels, rib: Levels, len: nat, r: U128, lo: nat, hi: int, a: nat)
    requires OnPath(len, lo, hi) && (lo + hi) / 2 < len && PathMarked(t, rib, len, r, lo, hi)
    requires a < (lo + hi) / 2 && Turn(0, 127, len, a)
    ensures Prefix(r, a) in t[a]
  {
    hide Prefix, Loud;
    if Turn(lo, hi, len, a) {
      TurnRange((lo + hi) / 2 + 1, hi, len, a);
    }
  }

  /** When a marker of route `r` is written, the marks on the way to every loud marker of the same bits
      that can be disturbed are there: they are those of `r`, or of a shorter route that is done. */
  lemma WayIsMarked(t: Levels, rib: Levels, len: nat, r: U128, lo: nat, hi: int, l: nat, q: U128, m: nat, a: nat)
    requires len < LEVELS && l < LEVELS && OnPath(len, lo, hi) && (lo + hi) / 2 < len
    requires PathMarked(t, rib, len, r, lo, hi) && MarkedBelow(t, rib, len)
    requires a < LEVELS && m < LEVELS && m <= (lo + hi) / 2 && q in rib[l] && Turn(0, 127, l, m) &&
             Prefix(q, m) == Prefix(r, m)
    requires Turn(0, 127, m, a)
    ensures Prefix(r, a) in t[a]
  {
    hide Prefix, Loud;
    TurnRange(0, 127, l, m);
    TurnRange(0, 127, m, a);
    TurnTurn(0, 127, l, m, a);
    if Turn(0, 127, len, a) {
      OwnMarks(t, rib, len, r, lo, hi, a);
    } else {
      if len <= l { TurnBetween(0, 127, l, a, len); }
      assert Marked(t, rib, l, q);
      SamePrefix(q, r, m, a);
    }
  }

  lemma SamePrefix(q: U128, r: U128, m: nat, a: nat)
    requires a <= m < LEVELS && Prefix(q, m) == Prefix(r, m)
    ensures Prefix(q, a) == Prefix(r, a)
  {
    MaskMask(q, m + 1, a + 1);
    MaskMask(r, m + 1, a + 1);
  }

  lemma PrefixPrefix(r: U128, m: nat, a: nat)
    requires m < LEVELS && a < LEVELS
    ensures Prefix(Prefix(r, m), a) == Prefix(r, if a < m then a else m)
  {
    MaskMask(r, m + 1, a + 1);
  }

  /** What the search finds for the bits of a loud marker is not the right hop. */
  lemma LoudSearch(t: Levels, rib: Levels, len: nat, r: U128, lo: nat, hi: int, l: nat, q: U128, m: nat)
    requires len < LEVELS && OnPath(len, lo, hi) && (lo + hi) / 2 < len && l < LEVELS
    requires Complete(t, rib) && Alive(t) && PathMarked(t, rib, len, r, lo, hi) && MarkedBelow(t, rib, len)
    requires m < LEVELS && m <= (lo + hi) / 2 && q in rib[l] && Turn(0, 127, l, m) && Prefix(q, m) == Prefix(r, m)
    requires Loud(rib, Prefix(q, m), m) && HeldAt(t, rib, Prefix(q, m), m)
    ensures Search(t, Prefix(q, m), 0, 127, 0) != Cover(rib, Prefix(q, m), m)
  {
    hide Prefix, MarkedBelow, PathMarked, OnPath, Search, Cover;
    var z := Prefix(q, m);
    forall a: nat | Turn(0, 127, m, a) && a < LEVELS ensures Prefix(z, a) in t[a] {
      WayIsMarked(t, rib, len, r, lo, hi, l, q, m, a);
      TurnRange(0, 127, m, a);
      PrefixPrefix(r, m, a);
    }
    AliveHere(t, z);
    FirstIsReached(t, rib, z, m);
    var e := EndOfSearch(t, z);
  }

  lemma HeldKept(t: Levels, rib: Levels, len: nat, r: U128, lo: nat, hi: int)
    requires len < LEVELS && r in rib[len] && OnPath(len, lo, hi) && (lo + hi) / 2 < len
    requires Complete(t, rib) && Alive(t) && PathMarked(t, rib, len, r, lo, hi) && MarkedBelow(t, rib, len) &&
             Held(t, rib)
    ensures var m := (lo + hi) / 2; Held(PutMarker(t, m, Prefix(r, m), Search(t, Prefix(r, m), 0, 127, 0)), rib)
  {
    PathRange(len, lo, hi);
    var k := (lo + hi) / 2;
    var key := Prefix(r, k);
    var t' := PutMarker(t, k, key, Search(t, key, 0, 127, 0));
    hide Prefix, MarkedBelow, PathMarked, OnPath, Search, Cover, Complete, Alive, Loud, Turn, PutMarker, First;
    forall l: nat, q, m: nat | l < LEVELS && q in rib[l] && m < LEVELS && Turn(0, 127, l, m) &&
      Loud(rib, Prefix(q, m), m)
      ensures HeldAt(t', rib, Prefix(q, m), m)
    {
      HeldAtKept(t, rib, len, r, lo, hi, l, q, m);
    }
  }

  lemma HeldAtKept(t: Levels, rib: Levels, len: nat, r: U128, lo: nat, hi: int, l: nat, q: U128, m: nat)
    requires len < LEVELS && r in rib[len] && OnPath(len, lo, hi) && (lo + hi) / 2 < len
    requires Complete(t, rib) && Alive(t) && PathMarked(t, rib, len, r, lo, hi) && MarkedBelow(t, rib, len)
    requires l < LEVELS && q in rib[l] && m < LEVELS && Turn(0, 127, l, m) && Loud(rib, Prefix(q, m), m)
    requires HeldAt(t, rib, Prefix(q, m), m)
    ensures var k := (lo + hi) / 2;
            HeldAt(PutMarker(t, k, Prefix(r, k), Search(t, Prefix(r, k), 0, 127, 0)), rib, Prefix(q, m), m)
  {
    hide Prefix, MarkedBelow, PathMarked, OnPath, Search, Cover, Complete, Alive, Turn, PutMarker, First;
    PathRange(len, lo, hi);
    var k := (lo + hi) / 2;
    var z, key := Prefix(q, m), Prefix(r, k);
    var v := Search(t, key, 0, 127, 0);
    forall j: nat | j < LEVELS && First(rib, z, m) <= j ensures Get(PutMarker(t, k, key, v), j, z) != Cover(rib, z, m) {
      PutGets(t, k, key, v, j, z);
      if j == k && Prefix(z, j) == key {
        PrefixPrefix(q, m, k);
        PrefixPrefix(q, m, m);
        PrefixPrefix(r, k, m);
        LoudSearch(t, rib, len, r, lo, hi, l, q, m);
      }
    }
  }

  lemma AlivePut(t: Levels, rib: Levels, len: nat, r: U128, m: nat)
    requires m < len < LEVELS && Complete(t, rib) && Alive(t) && MarkedBelow(t, rib, len) &&
             Cover(rib, Prefix(r, m), m) != 0
    ensures Search(t, Prefix(r, m), 0, 127, 0) != 0
  {
    hide Prefix, MarkedBelow, Complete, Search, Cover;
    AliveHere(t, Prefix(r, m));
    var p := CoverIsReached(t, rib, Prefix(r, m), m, len);
    var e := EndOfSearch(t, Prefix(r, m));
  }

  lemma CoverOfPrefix(rib: Levels, r: U128, m: nat)
    requires m < LEVELS
    ensures Cover(rib, Prefix(r, m), m) == Cover(rib, r, m)
  {
    LpmOfPrefix(rib, r, m + 1, m + 1);
  }

  /** Levels beyond `m` that hold something for the marker are routes, or markers of others. */
  lemma LatestBounds(t: Levels, rib: Levels, len: nat, done: set<U128>, r: U128, lo: nat, hi: int)
    requires len < LEVELS && r !in done && OnPath(len, lo, hi) && (lo + hi) / 2 < len
    requires Traced(t, rib, len, done, r, lo, hi)
    ensures var m := (lo + hi) / 2; var z := Prefix(r, m); End(InTable(t, z), 0, 127, -1) <= Latest(rib, len, r, z, m)
  {
    var m := (lo + hi) / 2;
    var z := Prefix(r, m);
    hide Prefix, Turn;
    forall j: nat | j <= 127 && InTable(t, z)(j) ensures Maybe(rib, len, r, z, m)(j) {
      assert TracedKey(rib, j, Prefix(z, j), len, done, r, lo, hi);
    }
    EndDeeper(InTable(t, z), Maybe(rib, len, r, z, m), 0, 127, -1, -1);
  }

  lemma GetOfSound(t: Levels, rib: Levels, ip: U128, l: nat)
    requires l < LEVELS && SoundAt(t, rib, ip)
    ensures Get(t, l, ip) != 0 <==> Prefix(ip, l) in t[l]
    ensures Get(t, l, ip) != 0 ==> Get(t, l, ip) == Cover(rib, ip, l)
  {
    hide Cover, Prefix;
  }

  /** The value `build` looks up for a marker, in the half-built tables, is the one the marker needs, if
      the markers on the way of its bits are in order. */
  lemma MarkerValue(t: Levels, rib: Levels, len: nat, done: set<U128>, r: U128, lo: nat, hi: int)
    requires len < LEVELS && r in rib[len] && r !in done && OnPath(len, lo, hi) && (lo + hi) / 2 < len
    requires Underway(t, rib, len, done, r, lo, hi) && Reliable(rib, Prefix(r, (lo + hi) / 2))
    ensures var m := (lo + hi) / 2; Search(t, Prefix(r, m), 0, 127, 0) == Cover(rib, Prefix(r, m), m) != 0
  {
    hide Prefix, Turn, Search, Keyed, Complete, SoundAt, AliveAt, Weak, Alive, Held, Traced, PathMarked, First, Latest,
         LpmBelow, Built, Reliable, MarkedBelow, OnPath, Quiet, InTable, End;
    PathRange(len, lo, hi);
    var m := (lo + hi) / 2;
    var z := Prefix(r, m);
    BuiltIsSound(t, rib, len, z);
    TurnHere(len, lo, hi);
    CoverOfPrefix(rib, r, m);
    PrefixPrefix(r, m, m);
    QuietHere(rib, z, len, r, m);
    var p := CoverIsReached(t, rib, z, m, len);
    var e := EndOfSearch(t, z);
    GetOfSound(t, rib, z, e);
    if e <= m {
      LpmOfNone(rib, z, e + 1, m + 1);
    } else {
      EndsBetween(t, rib, len, done, r, lo, hi);
      QuietAt(rib, len, r, m, e);
    }
  }

  lemma BuiltIsSound(t: Levels, rib: Levels, len: nat, z: U128)
    requires len <= LEVELS && Built(t, rib, len) && Reliable(rib, z)
    ensures SoundAt(t, rib, z) && AliveAt(t, z) && Complete(t, rib) && MarkedBelow(t, rib, len)
  {
    hide Complete, Alive, MarkedBelow, Held, Keyed, Weak, AllClear, Reliable, Cover, Prefix;
  }

  lemma QuietHere(rib: Levels, x: U128, len: nat, r: U128, m: nat)
    requires Reliable(rib, x) && len < LEVELS && r in rib[len] && m < LEVELS && Turn(0, 127, len, m)
    requires Prefix(r, m) == Prefix(x, m)
    ensures Quiet(rib, len, r, m) && Cover(rib, r, m) != 0 && Reliable(rib, Prefix(r, m))
  {
    hide Quiet, Turn, Cover, Prefix;
    var z := Prefix(r, m);
    forall l: nat, q, j: nat | l < LEVELS && q in rib[l] && j < LEVELS && Turn(0, 127, l, j) &&
      Prefix(q, j) == Prefix(z, j)
      ensures Clean(rib, Prefix(q, j))
    {
      PrefixPrefix(r, m, j);
      PrefixPrefix(x, m, j);
    }
  }

  lemma QuietAt(rib: Levels, len: nat, r: U128, m: nat, e: nat)
    requires len < LEVELS && r in rib[len] && m < LEVELS && Quiet(rib, len, r, m)
    requires m <= e < LEVELS && First(rib, Prefix(r, m), m) <= e <= Latest(rib, len, r, Prefix(r, m), m)
    ensures Cover(rib, Prefix(r, m), e) == Cover(rib, Prefix(r, m), m)
  {
    hide First, Latest, Prefix, Cover;
  }

  /** The search for the marker about to be written ends between the bounds. */
  lemma EndsBetween(t: Levels, rib: Levels, len: nat, done: set<U128>, r: U128, lo: nat, hi: int)
    requires len < LEVELS && r in rib[len] && r !in done && OnPath(len, lo, hi) && (lo + hi) / 2 < len
    requires Complete(t, rib) && AliveAt(t, Prefix(r, (lo + hi) / 2)) && Underway(t, rib, len, done, r, lo, hi)
    ensures var m := (lo + hi) / 2; var z := Prefix(r, m);
            First(rib, z, m) <= End(InTable(t, z), 0, 127, -1) <= Latest(rib, len, r, z, m)
  {
    hide Prefix, Turn, Keyed, Complete, Sound, Weak, Alive, AliveAt, Held, Traced, PathMarked, First, Latest, OnPath,
         MarkedBelow;
    PathRange(len, lo, hi);
    TurnHere(len, lo, hi);
    var m := (lo + hi) / 2;
    forall a: nat | Turn(0, 127, m, a) && a < LEVELS ensures Prefix(Prefix(r, m), a) in t[a] {
      WayIsMarked(t, rib, len, r, lo, hi, len, r, m, a);
      TurnRange(0, 127, m, a);
      PrefixPrefix(r, m, a);
    }
    FirstIsReached(t, rib, Prefix(r, m), m);
    LatestBounds(t, rib, len, done, r, lo, hi);
  }

  /** A marker keeps the tables sound, for each address whose markers are in order. */
  lemma MarkerKeeps(t: Levels, rib: Levels, len: nat, done: set<U128>, r: U128, lo: nat, hi: int)
    requires len < LEVELS && r in rib[len] && r !in done && OnPath(len, lo, hi) && (lo + hi) / 2 < len
    requires Underway(t, rib, len, done, r, lo, hi)
    ensures var m := (lo + hi) / 2; var z := Prefix(r, m); Sound(PutMarker(t, m, z, Search(t, z, 0, 127, 0)), rib)
  {
    hide Prefix, Turn, Search, SoundAt, Reliable, OnPath, Underway, PutMarker;
    TurnHere(len, lo, hi);
    var m := (lo + hi) / 2;
    var z := Prefix(r, m);
    UnderwayIsSound(t, rib, len, done, r, lo, hi);
    forall x | Reliable(rib, x) ensures SoundAt(PutMarker(t, m, z, Search(t, z, 0, 127, 0)), rib, x) {
      if Prefix(x, m) == z {
        QuietHere(rib, x, len, r, m);
        MarkerValue(t, rib, len, done, r, lo, hi);
        CoverOfPrefix(rib, x, m);
      }
      SoundPut(t, rib, m, z, Search(t, z, 0, 127, 0), x);
    }
  }

  lemma UnderwayIsSound(t: Levels, rib: Levels, len: nat, done: set<U128>, r: U128, lo: int, hi: int)
    requires len <= LEVELS && Underway(t, rib, len, done, r, lo, hi)
    ensures Sound(t, rib)
  {
    hide Sound, Keyed, Complete, MarkedBelow, Weak, Alive, Held, AllClear, Covered, Traced, PathMarked;
  }

  lemma SoundPut(t: Levels, rib: Levels, m: nat, z: U128, val: nat, x: U128)
    requires m < LEVELS && SoundAt(t, rib, x) && (Prefix(x, m) == z ==> val == Cover(rib, x, m) != 0)
    ensures SoundAt(PutMarker(t, m, z, val), rib, x)
  {
    hide Prefix, Cover;
  }

  lemma {:induction false} LpmStaysNonzero(rib: Levels, ip: U128, m: nat, n: nat)
    requires Proper(rib) && m <= n <= LEVELS && LpmBelow(rib, ip, m) != 0
    ensures LpmBelow(rib, ip, n) != 0
    decreases n
  {
    hide Prefix;
    if m < n {
      LpmStaysNonzero(rib, ip, m, n - 1);
    }
  }

  lemma WeakEntry(t: Levels, rib: Levels, ip: U128, j: nat)
    requires Weak(t, rib) && j < LEVELS && Get(t, j, ip) != 0
    ensures Cover(rib, ip, j) != 0
  {
    LpmOfPrefix(rib, ip, j + 1, j + 1);
  }

  /** With nothing longer that matches, a marker is nonzero only if a route covers it. */
  lemma MarkerKeepsWeak(t: Levels, rib: Levels, r: U128, m: nat)
    requires Proper(rib) && m < LEVELS && ClearBehind(rib, Prefix(r, m), m) && Weak(t, rib)
    ensures Weak(PutMarker(t, m, Prefix(r, m), Search(t, Prefix(r, m), 0, 127, 0)), rib)
  {
    hide Search, LpmBelow, Prefix, Proper, Weak, InTable, End;
    var key := Prefix(r, m);
    var e := EndOfSearch(t, key);
    if e >= 0 {
      WeakEntry(t, rib, key, e);
      if e <= m {
        LpmStaysNonzero(rib, key, e + 1, m + 1);
      } else {
        LpmOfNone(rib, key, m + 1, e + 1);
      }
    }
    WeakPut(t, rib, m, key, Search(t, key, 0, 127, 0));
  }

  lemma WeakPut(t: Levels, rib: Levels, m: nat, key: U128, val: nat)
    requires m < LEVELS && Weak(t, rib) && (val != 0 ==> Cover(rib, key, m) != 0)
    ensures Weak(PutMarker(t, m, key, val), rib)
  {
    hide Cover;
  }

  lemma GrownPut(t: Levels, rib: Levels, m: nat, key: U128, val: nat)
    requires m < LEVELS && (Covered(rib) && Loud(rib, key, m) ==> val != Cover(rib, key, m))
    ensures Grown(rib, t, PutMarker(t, m, key, val)) && Taken(PutMarker(t, m, key, val), rib, m, key)
  {
    hide Loud, Covered, Cover;
  }

  lemma MarksGrow(t: Levels, t': Levels, rib: Levels, n: nat)
    requires n <= LEVELS && MarkedBelow(t, rib, n) && Grown(rib, t, t')
    ensures MarkedBelow(t', rib, n)
  {
    forall l, q | 0 <= l < n && q in rib[l] ensures Marked(t', rib, l, q) {
      assert Marked(t, rib, l, q);
      MarkedGrows(t, t', rib, l, q);
    }
  }

  lemma MarkedGrows(t: Levels, t': Levels, rib: Levels, l: nat, r: U128)
    requires Marked(t, rib, l, r) && Grown(rib, t, t')
    ensures Marked(t', rib, l, r)
  {
    hide Taken;
  }

  lemma KeyedPut(t: Levels, rib: Levels, len: nat, r: U128, m: nat, val: nat)
    requires m < len < LEVELS && r in rib[len] && Turn(0, 127, len, m) && Keyed(t, rib) && Complete(t, rib)
    ensures Keyed(PutMarker(t, m, Prefix(r, m), val), rib) && Complete(PutMarker(t, m, Prefix(r, m), val), rib)
  {
    PrefixPrefix(r, m, m);
    hide Prefix;
  }

  lemma AliveAfter(t: Levels, m: nat, key: U128, val: nat)
    requires m < LEVELS && Alive(t) && val != 0
    ensures Alive(PutMarker(t, m, key, val))
  {
  }

  /** One marker: everything known of the tables stays so, and one right turn more is marked. */
  lemma MarkerStep(t: Levels, rib: Levels, len: nat, done: set<U128>, r: U128, lo: nat, hi: int)
    requires Proper(rib) && len < LEVELS && r in rib[len] && r !in done && OnPath(len, lo, hi) && (lo + hi) / 2 < len
    requires Underway(t, rib, len, done, r, lo, hi)
    ensures var m := (lo + hi) / 2;
            var t' := PutMarker(t, m, Prefix(r, m), Search(t, Prefix(r, m), 0, 127, 0));
            Underway(t', rib, len, done, r, m + 1, hi) && Grown(rib, t, t')
  {
    var m := (lo + hi) / 2;
    var key := Prefix(r, m);
    var v := Search(t, key, 0, 127, 0);
    var t' := PutMarker(t, m, key, v);
    hide Keyed, Weak, Sound, Complete, MarkedBelow, Alive, Held, Search, Taken, Traced, Loud, Covered,
         AllClear, Grown, PutMarker, Cover, Prefix;
    TurnHere(len, lo, hi);
    KeyedPut(t, rib, len, r, m, v);
    if Covered(rib) {
      CoveredStep(t, rib, len, r, lo, hi);
    }
    GrownPut(t, rib, m, key, v);
    MarksGrow(t, t', rib, len);
    PathPut(t, t', rib, len, r, lo, hi);
    TracedPut(t, rib, len, done, r, lo, hi, v);
    if AllClear(rib) {
      ClearAt(rib, len, r, m);
      MarkerKeepsWeak(t, rib, r, m);
    }
    MarkerKeeps(t, rib, len, done, r, lo, hi);
  }

  lemma ClearAt(rib: Levels, len: nat, r: U128, m: nat)
    requires AllClear(rib) && len < LEVELS && r in rib[len] && m < LEVELS && Turn(0, 127, len, m)
    ensures ClearBehind(rib, Prefix(r, m), m)
  {
  }

  lemma CoveredStep(t: Levels, rib: Levels, len: nat, r: U128, lo: nat, hi: int)
    requires len < LEVELS && r in rib[len] && OnPath(len, lo, hi) && (lo + hi) / 2 < len &&
             Turn(0, 127, len, (lo + hi) / 2)
    requires Built(t, rib, len) && PathMarked(t, rib, len, r, lo, hi) && Covered(rib)
    ensures var m := (lo + hi) / 2; var key := Prefix(r, m); var v := Search(t, key, 0, 127, 0);
            && Alive(PutMarker(t, m, key, v)) && Held(PutMarker(t, m, key, v), rib)
            && (Loud(rib, key, m) ==> v != Cover(rib, key, m))
  {
    hide Keyed, Weak, Sound, Complete, MarkedBelow, Alive, Search, Taken, Traced, Loud, AllClear, PutMarker,
         Cover, Prefix, PathMarked, OnPath, HeldAt, Held, Turn;
    PathRange(len, lo, hi);
    var m := (lo + hi) / 2;
    var key := Prefix(r, m);
    CoverOfPrefix(rib, r, m);
    AlivePut(t, rib, len, r, m);
    AliveAfter(t, m, key, Search(t, key, 0, 127, 0));
    HeldKept(t, rib, len, r, lo, hi);
    if Loud(rib, key, m) {
      HeldHere(t, rib, len, r, m);
      LoudSearch(t, rib, len, r, lo, hi, len, r, m);
    }
  }

  lemma HeldHere(t: Levels, rib: Levels, len: nat, r: U128, m: nat)
    requires Held(t, rib) && len < LEVELS && r in rib[len] && m < LEVELS && Turn(0, 127, len, m) &&
             Loud(rib, Prefix(r, m), m)
    ensures HeldAt(t, rib, Prefix(r, m), m)
  {
    hide Loud, HeldAt, Turn, Prefix;
  }

  lemma PathPut(t: Levels, t': Levels, rib: Levels, l: nat, r: U128, lo: nat, hi: int)
    requires OnPath(l, lo, hi) && (lo + hi) / 2 < l && PathMarked(t, rib, l, r, lo, hi)
    requires Grown(rib, t, t') && Taken(t', rib, (lo + hi) / 2, Prefix(r, (lo + hi) / 2))
    ensures PathMarked(t', rib, l, r, (lo + hi) / 2 + 1, hi)
  {
    hide Taken, Prefix, OnPath;
  }

  lemma RibIsBuilt(rib: Levels)
    requires Proper(rib)
    ensures Underway(rib, rib, 0, {}, NONE, 0, 127)
  {
    hide Prefix, Turn, Loud, HeldAt, LpmBelow, Reliable;
    forall x ensures SoundAt(rib, rib, x) {
      forall l: nat | l < LEVELS && Prefix(x, l) in rib[l] ensures rib[l][Prefix(x, l)] == Cover(rib, x, l) {
        LpmBelowOwn(rib, x, l);
      }
    }
    forall l, k | 0 <= l < LEVELS && k in rib[l] ensures rib[l][k] == Cover(rib, k, l) {
      LpmBelowOwn(rib, k, l);
    }
    if Covered(rib) {
      forall l: nat, r, m: nat | l < LEVELS && r in rib[l] && m < LEVELS && Turn(0, 127, l, m) &&
        Loud(rib, Prefix(r, m), m)
        ensures HeldAt(rib, rib, Prefix(r, m), m)
      {
        CoverOfPrefix(rib, r, m);
        HeldAtFirst(rib, Prefix(r, m), m);
      }
    }
  }

  lemma HeldAtFirst(rib: Levels, z: U128, m: nat)
    requires m < LEVELS && Loud(rib, z, m) && Cover(rib, z, m) != 0
    ensures HeldAt(rib, rib, z, m)
  {
    hide Prefix, First, Cover;
  }

  lemma LevelDone(t: Levels, rib: Levels, n: nat)
    requires n < LEVELS && Built(t, rib, n) && forall r :: r in rib[n] ==> Marked(t, rib, n, r)
    ensures Built(t, rib, n + 1)
  {
    hide Keyed, Weak, Sound, Complete, Alive, Held, AllClear, Covered, Marked;
  }

  lemma PathStart(t: Levels, rib: Levels, l: nat, r: U128)
    requires l < LEVELS
    ensures OnPath(l, 0, 127) && PathMarked(t, rib, l, r, 0, 127)
  {
    forall m: nat | Turn(0, 127, l, m) ensures m < LEVELS {
      TurnRange(0, 127, l, m);
    }
  }

  lemma RightStep(l: nat, lo: nat, hi: int)
    requires OnPath(l, lo, hi) && (lo + hi) / 2 < l
    ensures OnPath(l, (lo + hi) / 2 + 1, hi)
  {
    forall k: nat | k < LEVELS && Turn((lo + hi) / 2 + 1, hi, l, k) ensures Turn(lo, hi, l, k) && (lo + hi) / 2 < k {
      TurnRange((lo + hi) / 2 + 1, hi, l, k);
    }
  }

  lemma LeftStep(t: Levels, rib: Levels, l: nat, r: U128, lo: nat, hi: int)
    requires OnPath(l, lo, hi) && l < (lo + hi) / 2
    ensures OnPath(l, lo, (lo + hi) / 2 - 1)
    ensures PathMarked(t, rib, l, r, lo, hi) ==> PathMarked(t, rib, l, r, lo, (lo + hi) / 2 - 1)
  {
    hide Taken;
    forall k: nat | k < LEVELS ensures Turn(lo, (lo + hi) / 2 - 1, l, k) <==> Turn(lo, hi, l, k) {}
  }

  lemma PathRange(l: nat, lo: int, hi: int)
    requires OnPath(l, lo, hi)
    ensures 0 <= lo <= l <= hi <= 127
  {
  }

  lemma GrownTwice(rib: Levels, a: Levels, b: Levels, c: Levels)
    ensures Grown(rib, a, b) && Grown(rib, b, c) ==> Grown(rib, a, c)
  {
    hide Taken;
  }

  lemma GrownSame(rib: Levels, t: Levels)
    ensures Grown(rib, t, t)
  {
  }

  lemma PathEnd(t: Levels, rib: Levels, l: nat, r: U128, lo: nat, hi: int)
    requires OnPath(l, lo, hi) && l == (lo + hi) / 2 && PathMarked(t, rib, l, r, lo, hi)
    ensures Marked(t, rib, l, r)
  {
    hide Taken;
  }

  /** Before its first turn it does not matter which route is next. */
  lemma UnderwayStart(t: Levels, rib: Levels, len: nat, done: set<U128>, r: U128, r': U128)
    requires len < LEVELS && Underway(t, rib, len, done, r, 0, 127)
    ensures Underway(t, rib, len, done, r', 0, 127)
  {
    hide Built, Traced, PathMarked;
    TracedStart(t, rib, len, done, r, r');
    PathStart(t, rib, len, r');
  }

  lemma UnderwayLeft(t: Levels, rib: Levels, len: nat, done: set<U128>, r: U128, lo: nat, hi: int)
    requires len < LEVELS && Underway(t, rib, len, done, r, lo, hi) && OnPath(len, lo, hi) && len < (lo + hi) / 2
    ensures Underway(t, rib, len, done, r, lo, (lo + hi) / 2 - 1)
  {
    hide Built, Traced, PathMarked;
    TracedLeft(t, rib, len, done, r, lo, hi);
    LeftStep(t, rib, len, r, lo, hi);
  }

  lemma UnderwayEnd(t: Levels, rib: Levels, len: nat, done: set<U128>, r: U128, lo: nat, hi: int, r': U128)
    requires len < LEVELS && Underway(t, rib, len, done, r, lo, hi) && OnPath(len, lo, hi) && len == (lo + hi) / 2
    ensures Underway(t, rib, len, done + {r}, r', 0, 127) && Marked(t, rib, len, r)
  {
    hide Built, Traced, PathMarked;
    TracedEnd(t, rib, len, done, r, lo, hi, r');
    PathEnd(t, rib, len, r, lo, hi);
    PathStart(t, rib, len, r');
  }

  lemma UnderwayLevel(t: Levels, rib: Levels, len: nat, done: set<U128>, r: U128)
    requires len < LEVELS && Underway(t, rib, len, done, r, 0, 127)
    requires forall q :: q in rib[len] ==> Marked(t, rib, len, q)
    ensures Underway(t, rib, len + 1, {}, r, 0, 127)
  {
    hide Built, Traced, PathMarked, Marked;
    LevelDone(t, rib, len);
    TracedLevel(t, rib, len, done, r, r);
    PathAhead(t, rib, len + 1, r);
  }

  lemma PathAhead(t: Levels, rib: Levels, l: nat, r: U128)
    ensures PathMarked(t, rib, l, r, 0, 127)
  {
  }

  // ---------- what the finished tables answer ----------

  /** Looking up in `t` is longest-prefix match in `rib`, for all addresses. */
  ghost predicate AnswersLpm(t: Levels, rib: Levels) {
    forall ip :: Search(t, ip, 0, 127, 0) == Lpm(rib, ip)
  }

  /** A lookup is right as soon as the routes matching the address have their markers, even
      while the tables of other routes are unfinished. */
  lemma LookupIsLpm(t: Levels, rib: Levels, ip: U128)
    requires SoundAt(t, rib, ip) && Complete(t, rib)
    requires forall l :: 0 <= l < LEVELS && Matches(rib, ip, l) ==> Marked(t, rib, l, Prefix(ip, l))
    ensures Search(t, ip, 0, 127, 0) == Lpm(rib, ip)
  {
    hide Loud, Covered;
    forall l | 0 <= l <= 127 && Get(t, l, ip) != 0 ensures Get(t, l, ip) == LpmBelow(rib, ip, l + 1) {
      GetOfSound(t, rib, ip, l);
    }
    forall l | 0 <= l <= 127 && Matches(rib, ip, l)
      ensures Get(t, l, ip) != 0
      ensures forall m: nat :: m < LEVELS && Turn(0, 127, l, m) ==> Get(t, m, ip) != 0
    {
      GetOfSound(t, rib, ip, l);
      forall m: nat | m < LEVELS && Turn(0, 127, l, m) ensures Get(t, m, ip) != 0 {
        TurnRange(0, 127, l, m);
        MaskMask(ip, l + 1, m + 1);
        GetOfSound(t, rib, ip, m);
      }
    }
    SearchIsLpm(t, rib, ip, 0, 127, 0);
  }

  /** Finished tables answer an address with its longest-prefix match if the markers on its way, and on the
      ways of these, are covered and quiet, whatever other markers are. */
  lemma ReliableIsAnswered(t: Levels, rib: Levels, ip: U128)
    requires Reliable(rib, ip) && Built(t, rib, LEVELS)
    ensures Search(t, ip, 0, 127, 0) == Lpm(rib, ip)
  {
    hide Search, Lpm, Reliable, SoundAt, AliveAt, Marked, Prefix;
    BuiltIsSound(t, rib, LEVELS, ip);
    LookupIsLpm(t, rib, ip);
  }

  lemma BuildableIsReliable(rib: Levels, ip: U128)
    requires Buildable(rib)
    ensures Reliable(rib, ip)
  {
    hide Quiet, Prefix, Turn, Cover;
  }

  /** Finished tables answer every address with its longest-prefix match. */
  lemma FinishedTablesAnswer(t: Levels, rib: Levels)
    requires Buildable(rib) && Built(t, rib, LEVELS)
    ensures AnswersLpm(t, rib)
  {
    hide Search, Lpm, Buildable, Built, Reliable;
    forall ip ensures Search(t, ip, 0, 127, 0) == Lpm(rib, ip) {
      BuildableIsReliable(rib, ip);
      ReliableIsAnswered(t, rib, ip);
    }
  }

  /** The finished tables hold the routes and their markers and nothing else, with the longest match of the
      key itself if its markers are in order. */
  lemma FinishedTablesHold(t: Levels, rib: Levels, l: nat)
    requires Proper(rib) && Built(t, rib, LEVELS) && l < LEVELS
    ensures t[l].Keys == Stored(rib, l)
    ensures forall k :: k in t[l] && Reliable(rib, k) ==> t[l][k] == Cover(rib, k, l) != 0
  {
    hide Cover, Turn, Reliable, Prefix, Weak, Held, Alive, AllClear, Covered, Loud;
    forall n, r | l < n < LEVELS && r in rib[n] && Turn(0, 127, n, l) ensures Prefix(r, l) in t[l] {
      assert Marked(t, rib, n, r);
    }
    forall k | k in t[l] && Reliable(rib, k) ensures t[l][k] == Cover(rib, k, l) != 0 {
      assert SoundAt(t, rib, k) && Prefix(k, l) == k;
    }
  }

  /** The match of an address that sees `k` at level `m`. */
  lemma VisibleMatch(rib: Levels, m: nat, k: U128, ip: U128)
    requires m < LEVELS && VisibleAt(rib, m, k, ip)
    ensures Lpm(rib, ip) == Cover(rib, k, m)
  {
    hide Prefix, LpmBelow;
    LpmOfNone(rib, ip, m + 1, LEVELS);
    CoverOfPrefix(rib, ip, m);
  }

  lemma NothingBeyond(t: Levels, rib: Levels, m: nat, k: U128, ip: U128)
    requires m < LEVELS && VisibleAt(rib, m, k, ip) && Keyed(t, rib)
    ensures forall j :: m < j < LEVELS ==> Get(t, j, ip) == 0
    ensures k in t[m] && t[m][k] != 0 ==> Get(t, m, ip) == t[m][k] && InTable(t, ip)(m)
  {
    hide Prefix, Stored;
  }

  /** The search of such an address ends at `m`, with what is stored there. */
  lemma VisibleSearch(t: Levels, rib: Levels, m: nat, k: U128, ip: U128)
    requires m < LEVELS && VisibleAt(rib, m, k, ip) && Keyed(t, rib) && k in t[m] && t[m][k] != 0
    requires forall a: nat :: a < LEVELS && Turn(0, 127, m, a) ==> Get(t, a, ip) != 0
    ensures Search(t, ip, 0, 127, 0) == t[m][k]
  {
    hide Prefix, Search, Stored, Turn, End;
    NothingBeyond(t, rib, m, k, ip);
    forall a: nat | Turn(0, 127, m, a) ensures InTable(t, ip)(a) {
      TurnRange(0, 127, m, a);
    }
    hide InTable;
    EndReaches(InTable(t, ip), 0, 127, -1, m);
    var e := EndOfSearch(t, ip);
  }

  /** A loud marker makes the finished tables answer wrongly for every address that sees it. */
  lemma LoudIsWrong(t: Levels, rib: Levels, l: nat, r: U128, m: nat, ip: U128)
    requires Covered(rib) && Built(t, rib, LEVELS) && l < LEVELS && r in rib[l] && m < LEVELS && Turn(0, 127, l, m)
    requires Loud(rib, Prefix(r, m), m) && VisibleAt(rib, m, Prefix(r, m), ip)
    ensures Search(t, ip, 0, 127, 0) != Lpm(rib, ip)
  {
    hide Prefix, Search, Lpm, Loud, Stored, VisibleAt, Keyed, Held, Weak, Sound, Complete, Cover;
    assert Marked(t, rib, l, r) && Taken(t, rib, m, Prefix(r, m));
    SeesPrefix(rib, m, Prefix(r, m), ip);
    forall a: nat | a < LEVELS && Turn(0, 127, m, a) ensures Get(t, a, ip) != 0 {
      TurnTurn(0, 127, l, m, a);
      TurnRange(0, 127, m, a);
      SamePrefix(ip, r, m, a);
      assert Taken(t, rib, a, Prefix(r, a));
    }
    VisibleMatch(rib, m, Prefix(r, m), ip);
    VisibleSearch(t, rib, m, Prefix(r, m), ip);
  }

  lemma SeesPrefix(rib: Levels, m: nat, k: U128, ip: U128)
    requires m < LEVELS && VisibleAt(rib, m, k, ip)
    ensures Prefix(ip, m) == k
  {
  }

  ghost predicate Bare(rib: Levels, l: nat, r: U128, m: nat) {
    l < LEVELS && r in rib[l] && m < LEVELS && Turn(0, 127, l, m) && Cover(rib, r, m) == 0
  }

  /** The lowest marker that is not covered. */
  lemma LowestBare(rib: Levels, l: nat, r: U128, m: nat) returns (l': nat, r': U128, m': nat)
    requires Bare(rib, l, r, m)
    ensures Bare(rib, l', r', m') && forall n, q, j: nat :: j < m' ==> !Bare(rib, n, q, j)
    decreases m
  {
    hide Bare;
    if n: nat, q, j: nat :| j < m && Bare(rib, n, q, j) {
      l', r', m' := LowestBare(rib, n, q, j);
    } else {
      l', r', m' := l, r, m;
    }
  }

  lemma NotBare(rib: Levels, l: nat, r: U128, m: nat)
    requires !Bare(rib, l, r, m) && l < LEVELS && r in rib[l] && m < LEVELS && Turn(0, 127, l, m)
    ensures Cover(rib, r, m) != 0
  {
  }

  lemma NoTurnBefore(rib: Levels, l: nat, r: U128, m: nat, a: nat)
    requires Proper(rib) && Bare(rib, l, r, m) && Turn(0, 127, m, a)
    ensures exists n, q, j: nat :: j < m && Bare(rib, n, q, j)
  {
    hide LpmBelow, Turn;
    TurnRange(0, 127, m, a);
    TurnTurn(0, 127, l, m, a);
    if Cover(rib, r, a) != 0 { LpmStaysNonzero(rib, r, a + 1, m + 1); }
    assert Bare(rib, l, r, a);
  }

  /** Below the lowest uncovered marker nothing is stored for its addresses. */
  lemma NothingBelow(t: Levels, rib: Levels, l: nat, r: U128, m: nat, ip: U128, j: nat)
    requires Proper(rib) && Keyed(t, rib) && Bare(rib, l, r, m) && Prefix(ip, m) == Prefix(r, m) && j < m
    requires forall n, q, j: nat :: j < m ==> !Bare(rib, n, q, j)
    ensures Get(t, j, ip) == 0
  {
    hide LpmBelow, Prefix, Turn;
    SamePrefix(ip, r, m, j);
    if Prefix(r, j) in t[j] {
      CoverOfPrefix(rib, r, j);
      if Cover(rib, r, j) != 0 {
        LpmStaysNonzero(rib, r, j + 1, m + 1);
      } else if Matches(rib, r, j) {
        LpmBelowOwn(rib, r, j);
      } else {
        var n, q :| j < n < LEVELS && q in rib[n] && Turn(0, 127, n, j) && Prefix(q, j) == Prefix(r, j);
        CoverOfPrefix(rib, q, j);
        NotBare(rib, n, q, j);
      }
    }
  }

  /** An uncovered marker makes the finished tables answer wrongly: stored as 0, it hides its route; not
      stored as 0, it answers where nothing matches. */
  lemma UncoveredIsWrong(t: Levels, rib: Levels, l: nat, r: U128, m: nat)
    requires Proper(rib) && Built(t, rib, LEVELS) && Open(rib) && Bare(rib, l, r, m)
    requires forall n, q, j: nat :: j < m ==> !Bare(rib, n, q, j)
    ensures !AnswersLpm(t, rib)
  {
    hide Search, LpmBelow, Prefix, Stored, Complete, Sound, Held, Loud, Turn;
    var k := Prefix(r, m);
    TurnRange(0, 127, l, m);
    CoverOfPrefix(rib, r, m);
    assert Marked(t, rib, l, r) && Taken(t, rib, m, k);
    if t[m][k] == 0 {
      UncoveredIsMissed(t, rib, l, r, m);
    } else {
      assert k in Stored(rib, m) && Visible(rib, m, k);
      var ip :| VisibleAt(rib, m, k, ip);
      forall a: nat | a < LEVELS ensures !Turn(0, 127, m, a) {
        if Turn(0, 127, m, a) {
          NoTurnBefore(rib, l, r, m, a);
        }
      }
      VisibleMatch(rib, m, k, ip);
      VisibleSearch(t, rib, m, k, ip);
    }
  }

  /** Stored as 0 it makes the search miss the route. */
  lemma UncoveredIsMissed(t: Levels, rib: Levels, l: nat, r: U128, m: nat)
    requires Proper(rib) && Keyed(t, rib) && Bare(rib, l, r, m) && Visible(rib, l, r)
    requires Prefix(r, m) in t[m] && t[m][Prefix(r, m)] == 0
    requires forall n, q, j: nat :: j < m ==> !Bare(rib, n, q, j)
    ensures !AnswersLpm(t, rib)
  {
    hide Search, LpmBelow, Prefix, Stored, Turn;
    var ip :| VisibleAt(rib, l, r, ip);
    TurnRange(0, 127, l, m);
    PrefixPrefix(ip, l, m);
    PrefixPrefix(r, m, m);
    forall j | 0 <= j < LEVELS && (j <= m || j > l) ensures Get(t, j, ip) == 0 {
      if j < m { NothingBelow(t, rib, l, r, m, ip, j); }
    }
    TurnMissed(t, ip, 0, 127, l, m);
    VisibleMatch(rib, l, r, ip);
    LpmBelowOwn(rib, r, l);
  }

  /** If every marker is quiet or loud, and every stored key is visible, the finished tables answer every
      address rightly if and only if all markers are covered and quiet. */
  lemma BuildableIsNecessary(t: Levels, rib: Levels)
    requires Proper(rib) && Open(rib) && Decided(rib) && Built(t, rib, LEVELS)
    ensures AnswersLpm(t, rib) <==> Buildable(rib)
  {
    hide Search, Lpm, Turn, LpmBelow, Cover, Quiet, Loud, Built, Open, Prefix;
    if Buildable(rib) {
      FinishedTablesAnswer(t, rib);
    } else if !Covered(rib) {
      var l: nat, r, m: nat :| l < LEVELS && r in rib[l] && m < LEVELS && Turn(0, 127, l, m) && Cover(rib, r, m) == 0;
      var l', r', m' := LowestBare(rib, l, r, m);
      UncoveredIsWrong(t, rib, l', r', m');
    } else {
      var l: nat, r, m: nat :| l < LEVELS && r in rib[l] && m < LEVELS && Turn(0, 127, l, m) && !Quiet(rib, l, r, m);
      var ip := LoudIsSeen(rib, l, r, m);
      LoudIsWrong(t, rib, l, r, m, ip);
    }
  }

  lemma LoudIsSeen(rib: Levels, l: nat, r: U128, m: nat) returns (ip: U128)
    requires Open(rib) && l < LEVELS && r in rib[l] && m < LEVELS && Turn(0, 127, l, m) && Loud(rib, Prefix(r, m), m)
    ensures VisibleAt(rib, m, Prefix(r, m), ip)
  {
    hide Prefix, Loud;
    if AllClear(rib) {
      ClearIsQuiet(rib, l, r, m);
    }
    TurnRange(0, 127, l, m);
    assert Prefix(r, m) in Stored(rib, m);
    ip :| VisibleAt(rib, m, Prefix(r, m), ip);
  }

  /** A routed key whose zero extension is the one longer route under it, found without a further right
      turn: every address of the key outside the longer route is answered wrongly. */
  lemma OneLongerIsWrong(t: Levels, rib: Levels, m: nat, l: nat, k: U128, ip: U128)
    requires Proper(rib) && Covered(rib) && Built(t, rib, LEVELS)
    requires m < l < LEVELS && k in rib[m] && k in rib[l] && rib[m][k] != rib[l][k]
    requires Turn(0, 127, l, m) && forall j: nat :: Turn(0, 127, l, j) ==> j <= m
    requires forall n, q :: m < n < LEVELS && q in rib[n] && Prefix(q, m) == k ==> n == l && q == k
    requires Prefix(ip, m) == k && Prefix(ip, l) != k
    ensures Loud(rib, k, m) && Search(t, ip, 0, 127, 0) != Lpm(rib, ip)
  {
    hide Search, Lpm, Turn, Built, Covered, Prefix;
    OneLongerIsLoud(rib, m, l, k);
    forall j | m < j < LEVELS ensures Prefix(ip, j) !in Stored(rib, j) {
      PrefixPrefix(ip, j, m);
      forall n, q | j < n < LEVELS && q in rib[n] && Turn(0, 127, n, j) ensures Prefix(q, j) != Prefix(ip, j) {
        PrefixPrefix(q, j, m);
      }
    }
    LoudIsWrong(t, rib, l, k, m, ip);
  }

  lemma OneLongerIsLoud(rib: Levels, m: nat, l: nat, k: U128)
    requires Proper(rib) && m < l < LEVELS && k in rib[m] && k in rib[l] && rib[m][k] != rib[l][k]
    requires Turn(0, 127, l, m) && forall j: nat :: Turn(0, 127, l, j) ==> j <= m
    requires forall n, q :: m < n < LEVELS && q in rib[n] && Prefix(q, m) == k ==> n == l && q == k
    ensures Loud(rib, k, m)
  {
    hide Turn, Prefix, LpmBelow;
    forall a: nat | Turn(0, 127, l, a) ensures Surely(rib, k, m)(a) {
      if a < m { TurnBetween(0, 127, l, a, m); }
    }
    EndReaches(Surely(rib, k, m), 0, 127, -1, l);
    LpmBelowOwn(rib, k, m);
    forall j: nat | l <= j < LEVELS && Matches(rib, k, j) ensures j == l && Prefix(k, j) == k {
      PrefixPrefix(k, j, m);
    }
  }
}
