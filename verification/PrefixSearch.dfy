/** Binary search over prefix lengths with markers, against longest-prefix match. A table of
    level `l` holds keys of `l + 1` bits; `levels[l]` is its abstract content. */
module PrefixSearch {
  import opened Address128

  const LEVELS: nat := 128

  type Levels = s: seq<map<U128, nat>> | |s| == LEVELS witness seq(LEVELS, _ => map[])

  function Prefix(ip: U128, level: nat): U128
    requires level < LEVELS
  {
    Mask(ip, level + 1)
  }

  /** The value stored for the first `level + 1` bits of `ip`; 0 is also the answer for a miss. */
  function Get(t: Levels, level: nat, ip: U128): nat
    requires level < LEVELS
  {
    if Prefix(ip, level) in t[level] then t[level][Prefix(ip, level)] else 0
  }

  // ---------- the specification: longest-prefix match ----------

  /** The next hop of the longest route matching `ip` among the levels below `n`; 0 if there is none. */
  function LpmBelow(rib: Levels, ip: U128, n: nat): nat
    requires n <= LEVELS
  {
    if n == 0 then 0
    else if Prefix(ip, n - 1) in rib[n - 1] then rib[n - 1][Prefix(ip, n - 1)]
    else LpmBelow(rib, ip, n - 1)
  }

  function Lpm(rib: Levels, ip: U128): nat {
    LpmBelow(rib, ip, LEVELS)
  }

  predicate Matches(rib: Levels, ip: U128, level: nat)
    requires level < LEVELS
  {
    Prefix(ip, level) in rib[level]
  }

  /** `LpmBelow` picks the matching level above which nothing matches, and 0 exactly when no
      level matches (for nonzero next hops). */
  lemma {:induction false} LpmIsLongest(rib: Levels, ip: U128, n: nat, level: nat)
    requires level < n <= LEVELS && Matches(rib, ip, level)
    requires forall l :: level < l < n ==> !Matches(rib, ip, l)
    ensures LpmBelow(rib, ip, n) == rib[level][Prefix(ip, level)]
    decreases n
  {
    if level < n - 1 {
      assert !Matches(rib, ip, n - 1);
      LpmIsLongest(rib, ip, n - 1, level);
    }
  }

  lemma {:induction false} LpmOfNone(rib: Levels, ip: U128, m: nat, n: nat)
    requires m <= n <= LEVELS
    requires forall l :: m <= l < n ==> !Matches(rib, ip, l)
    ensures LpmBelow(rib, ip, n) == LpmBelow(rib, ip, m)
    decreases n
  {
    if m < n {
      assert !Matches(rib, ip, n - 1);
      LpmOfNone(rib, ip, m, n - 1);
    }
  }

  /** Addresses agreeing on their first `n` bits have the same match below `n`. */
  lemma {:induction false} LpmOfPrefix(rib: Levels, ip: U128, n: nat, m: nat)
    requires n <= m <= LEVELS
    ensures LpmBelow(rib, Mask(ip, m), n) == LpmBelow(rib, ip, n)
    decreases n
  {
    if n > 0 {
      MaskMask(ip, m, n);
      LpmOfPrefix(rib, ip, n - 1, m);
    }
  }

  lemma LpmBelowOwn(rib: Levels, ip: U128, l: nat)
    requires l < LEVELS && Matches(rib, ip, l)
    ensures LpmBelow(rib, ip, l + 1) == rib[l][Prefix(ip, l)]
  {
  }

  /** Some route gives the match. */
  lemma {:induction false} LpmSource(rib: Levels, ip: U128, n: nat) returns (p: nat)
    requires n <= LEVELS && LpmBelow(rib, ip, n) != 0
    ensures p < n && Matches(rib, ip, p) && forall l :: p < l < n ==> !Matches(rib, ip, l)
    decreases n
  {
    if Matches(rib, ip, n - 1) {
      p := n - 1;
    } else {
      p := LpmSource(rib, ip, n - 1);
    }
  }

  // ---------- the search path ----------

  /** Searching for level `len` in `[lo, hi]` probes `m` and has to turn right there. */
  predicate Turn(lo: int, hi: int, len: int, m: int)
    decreases hi - lo + 1
  {
    lo <= hi &&
    var mid := (lo + hi) / 2;
    if len == mid then false
    else if len < mid then Turn(lo, mid - 1, len, m)
    else m == mid || Turn(mid + 1, hi, len, m)
  }

  lemma {:induction false} TurnRange(lo: int, hi: int, len: int, m: int)
    requires Turn(lo, hi, len, m)
    ensures lo <= m < len && m <= hi
    decreases hi - lo + 1
  {
    var mid := (lo + hi) / 2;
    if len < mid {
      TurnRange(lo, mid - 1, len, m);
    } else if m != mid {
      TurnRange(mid + 1, hi, len, m);
    }
  }

  /** The `do ... while` loop of `lookup` from a state with bounds `lo`, `hi` and result `acc`. */
  function Search(t: Levels, ip: U128, lo: nat, hi: int, acc: nat): nat
    requires hi < LEVELS
    decreases hi - lo + 1
  {
    if lo > hi then acc
    else
      var mid := (lo + hi) / 2;
      var found := Get(t, mid, ip);
      if found == 0 then Search(t, ip, lo, mid - 1, acc) else Search(t, ip, mid + 1, hi, found)
  }

  lemma SearchStep(t: Levels, ip: U128, lo: nat, hi: int, acc: nat)
    requires hi < LEVELS
    ensures Search(t, ip, lo, hi, acc) ==
              if lo > hi then acc
              else if Get(t, (lo + hi) / 2, ip) == 0 then Search(t, ip, lo, (lo + hi) / 2 - 1, acc)
              else Search(t, ip, (lo + hi) / 2 + 1, hi, Get(t, (lo + hi) / 2, ip))
  {
  }

  /** Every nonzero entry on the way of `ip` in `[lo, hi]` holds the longest match of its own bits. */
  ghost predicate EntriesAnswer(t: Levels, rib: Levels, ip: U128, lo: nat, hi: int)
    requires hi < LEVELS
  {
    forall l :: lo <= l <= hi && Get(t, l, ip) != 0 ==> Get(t, l, ip) == LpmBelow(rib, ip, l + 1)
  }

  /** Every route of `[lo, hi]` matching `ip` is present, and nonzero wherever its search turns right. */
  ghost predicate RoutesMarked(t: Levels, rib: Levels, ip: U128, lo: nat, hi: int)
    requires hi < LEVELS
  {
    forall l :: lo <= l <= hi && Matches(rib, ip, l) ==>
      Get(t, l, ip) != 0 && forall m: nat :: m < LEVELS && Turn(lo, hi, l, m) ==> Get(t, m, ip) != 0
  }

  /** The search equals longest-prefix match: the halving never discards the longest route. */
  lemma {:induction false} SearchIsLpm(t: Levels, rib: Levels, ip: U128, lo: nat, hi: int, acc: nat)
    requires lo <= hi + 1 <= LEVELS
    requires EntriesAnswer(t, rib, ip, lo, hi) && RoutesMarked(t, rib, ip, lo, hi)
    requires acc == LpmBelow(rib, ip, lo)
    requires forall l :: hi < l < LEVELS ==> !Matches(rib, ip, l)
    ensures Search(t, ip, lo, hi, acc) == Lpm(rib, ip)
    decreases hi - lo + 1
  {
    hide LpmBelow, Prefix;
    if lo > hi {
      LpmOfNone(rib, ip, lo, LEVELS);
    } else {
      var mid := (lo + hi) / 2;
      if Get(t, mid, ip) == 0 {
        forall l | mid <= l < LEVELS ensures !Matches(rib, ip, l) {
          if mid < l <= hi { assert Turn(lo, hi, l, mid); }
        }
        forall l, m: nat | lo <= l <= mid - 1 && m < LEVELS && Turn(lo, mid - 1, l, m)
          ensures Turn(lo, hi, l, m) {}
        SearchIsLpm(t, rib, ip, lo, mid - 1, acc);
      } else {
        forall l, m: nat | mid + 1 <= l <= hi && m < LEVELS && Turn(mid + 1, hi, l, m)
          ensures Turn(lo, hi, l, m) {}
        SearchIsLpm(t, rib, ip, mid + 1, hi, Get(t, mid, ip));
      }
    }
  }

  lemma {:induction false} SearchOfNothing(t: Levels, ip: U128, lo: nat, hi: int, acc: nat)
    requires hi < LEVELS && forall j :: lo <= j <= hi ==> Get(t, j, ip) == 0
    ensures Search(t, ip, lo, hi, acc) == acc
    decreases hi - lo + 1
  {
    if lo <= hi {
      SearchOfNothing(t, ip, lo, (lo + hi) / 2 - 1, acc);
    }
  }

  /** With nothing found up to level `m` and beyond level `l`, a search that should turn right at `m`
      on its way to `l` finds nothing. */
  lemma {:induction false} TurnMissed(t: Levels, ip: U128, lo: nat, hi: int, l: nat, m: nat)
    requires hi < LEVELS && Turn(lo, hi, l, m)
    requires forall j :: 0 <= j < LEVELS && (j <= m || j > l) ==> Get(t, j, ip) == 0
    ensures Search(t, ip, lo, hi, 0) == 0
    decreases hi - lo + 1
  {
    hide Get;
    var mid := (lo + hi) / 2;
    TurnRange(lo, hi, l, m);
    if l < mid {
      TurnMissed(t, ip, lo, mid - 1, l, m);
    } else {
      if m != mid {
        TurnRange(mid + 1, hi, l, m);
      }
      SearchOfNothing(t, ip, lo, mid - 1, 0);
    }
  }

  // ---------- where the search ends ----------

  /** The last level found by the search when the levels in `seen` hold something; `acc` if none does. */
  ghost function End(seen: nat -> bool, lo: nat, hi: int, acc: int): (e: int)
    ensures e == acc || (lo <= e <= hi && seen(e))
    decreases hi - lo + 1
  {
    if lo > hi then acc
    else
      var mid := (lo + hi) / 2;
      if seen(mid) then End(seen, mid + 1, hi, mid) else End(seen, lo, mid - 1, acc)
  }

  /** The levels that hold something for `ip`. */
  ghost function InTable(t: Levels, ip: U128): nat -> bool {
    (j: nat) => j < LEVELS && Get(t, j, ip) != 0
  }

  /** The search returns what the last level found holds. */
  lemma {:induction false} SearchIsEnd(t: Levels, ip: U128, lo: nat, hi: int, acc: nat, none: int)
    requires hi < LEVELS && none < lo
    ensures var e := End(InTable(t, ip), lo, hi, none);
            Search(t, ip, lo, hi, acc) == if e == none then acc else Get(t, e, ip)
    decreases hi - lo + 1
  {
    if lo <= hi {
      var mid := (lo + hi) / 2;
      if Get(t, mid, ip) == 0 {
        SearchIsEnd(t, ip, lo, mid - 1, acc, none);
      } else {
        SearchIsEnd(t, ip, mid + 1, hi, Get(t, mid, ip), mid);
      }
    }
  }

  lemma EndStep(seen: nat -> bool, lo: nat, hi: int, acc: int)
    ensures var mid := (lo + hi) / 2;
            End(seen, lo, hi, acc) ==
              if lo > hi then acc else if seen(mid) then End(seen, mid + 1, hi, mid) else End(seen, lo, mid - 1, acc)
  {
  }

  /** The more levels hold something, the deeper the search ends. */
  lemma {:induction false} EndDeeper(seen: nat -> bool, more: nat -> bool, lo: nat, hi: int, a: int, b: int)
    requires a <= b < lo && forall j: nat :: lo <= j <= hi && seen(j) ==> more(j)
    ensures End(seen, lo, hi, a) <= End(more, lo, hi, b)
    decreases hi - lo + 1
  {
    hide End;
    EndStep(seen, lo, hi, a);
    EndStep(more, lo, hi, b);
    if lo <= hi {
      var mid := (lo + hi) / 2;
      if seen(mid) {
        EndDeeper(seen, more, mid + 1, hi, mid, mid);
      } else if !more(mid) {
        EndDeeper(seen, more, lo, mid - 1, a, b);
      }
    }
  }

  /** A level is not missed when every level at which its search turns right holds something. */
  lemma {:induction false} EndReaches(seen: nat -> bool, lo: nat, hi: int, acc: int, p: nat)
    requires lo <= p <= hi && seen(p) && forall m: nat :: Turn(lo, hi, p, m) ==> seen(m)
    ensures p <= End(seen, lo, hi, acc) <= hi
    decreases hi - lo + 1
  {
    hide End;
    EndStep(seen, lo, hi, acc);
    var mid := (lo + hi) / 2;
    if p < mid {
      if !seen(mid) {
        forall m: nat | Turn(lo, mid - 1, p, m) ensures Turn(lo, hi, p, m) {}
        EndReaches(seen, lo, mid - 1, acc, p);
      }
    } else if p > mid {
      assert Turn(lo, hi, p, mid);
      forall m: nat | Turn(mid + 1, hi, p, m) ensures Turn(lo, hi, p, m) {}
      EndReaches(seen, mid + 1, hi, mid, p);
    }
  }

  /** What lies between a level that turns right at `a` and `a` turns right there as well. */
  lemma {:induction false} TurnBetween(lo: int, hi: int, l: int, a: int, k: int)
    requires Turn(lo, hi, l, a) && a < k <= l
    ensures Turn(lo, hi, k, a)
    decreases hi - lo + 1
  {
    var mid := (lo + hi) / 2;
    if l < mid {
      TurnBetween(lo, mid - 1, l, a, k);
    } else if a != mid {
      TurnRange(mid + 1, hi, l, a);
      TurnBetween(mid + 1, hi, l, a, k);
    }
  }

  /** The right turns on the way to a right turn are right turns of the whole search. */
  lemma {:induction false} TurnTurn(lo: int, hi: int, l: int, m: int, a: int)
    requires Turn(lo, hi, l, m) && Turn(lo, hi, m, a)
    ensures Turn(lo, hi, l, a)
    decreases hi - lo + 1
  {
    var mid := (lo + hi) / 2;
    TurnRange(lo, hi, l, m);
    if l < mid {
      TurnTurn(lo, mid - 1, l, m, a);
    } else if m != mid {
      TurnRange(mid + 1, hi, l, m);
      if a != mid {
        TurnTurn(mid + 1, hi, l, m, a);
      }
    }
  }
}
