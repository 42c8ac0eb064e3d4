/** The run of `build` on values: which markers it writes, in which order, and what the tables hold
    afterwards, whether or not insertions cut keys off their chains. */
module PrefixRun {
  import opened Address128
  import opened PrefixSearch
  import opened PrefixBuild

  /** A key of a level. */
  type Spot = p: (nat, U128) | p.0 < LEVELS witness (0, NONE)

  /** The bucket of a key, by level. */
  type Buckets = s: seq<U128 -> nat> | |s| == LEVELS witness seq<U128 -> nat>(LEVELS, _ => (_ => 0))

  /** The routes of every level, in the order the tables list them. */
  type Orders = s: seq<seq<U128>> | |s| == LEVELS witness seq(LEVELS, _ => [])

  // ---------- the markers in their order ----------

  function MarkerAt(r: U128, m: nat): Spot
    requires m < LEVELS
  {
    (m, Prefix(r, m))
  }

  /** The markers of route `r` of level `len` that the search in `[lo, hi]` comes to. */
  function Markers(len: nat, r: U128, lo: nat, hi: int): seq<Spot>
    requires hi < LEVELS
    decreases hi - lo + 1
  {
    var mid := (lo + hi) / 2;
    if lo > hi || mid == len then []
    else if mid < len then [MarkerAt(r, mid)] + Markers(len, r, mid + 1, hi)
    else Markers(len, r, lo, mid - 1)
  }

  /** The markers of the first routes of a level. */
  function LevelMarkers(len: nat, routes: seq<U128>): seq<Spot> {
    if routes == [] then []
    else LevelMarkers(len, routes[..|routes| - 1]) + Markers(len, routes[|routes| - 1], 0, 127)
  }

  /** The markers of the levels below `n`. */
  function AllMarkers(orders: Orders, n: nat): seq<Spot>
    requires n <= LEVELS
  {
    if n == 0 then [] else AllMarkers(orders, n - 1) + LevelMarkers(n - 1, orders[n - 1])
  }

  lemma MarkersStep(len: nat, r: U128, lo: nat, hi: int)
    requires lo <= hi < LEVELS
    ensures var mid := (lo + hi) / 2;
            Markers(len, r, lo, hi) ==
              if mid == len then []
              else if mid < len then [MarkerAt(r, mid)] + Markers(len, r, mid + 1, hi)
              else Markers(len, r, lo, mid - 1)
  {
  }

  lemma LevelMarkersNext(len: nat, routes: seq<U128>, r: U128)
    ensures LevelMarkers(len, routes + [r]) == LevelMarkers(len, routes) + Markers(len, r, 0, 127)
  {
    hide Markers;
    assert (routes + [r])[..|routes|] == routes;
  }

  lemma {:induction false} LevelMarkersPart(len: nat, routes: seq<U128>, more: seq<U128>)
    ensures LevelMarkers(len, routes) <= LevelMarkers(len, routes + more)
    decreases |more|
  {
    hide Markers;
    if more == [] {
      assert routes + more == routes;
    } else {
      LevelMarkersPart(len, routes, more[..|more| - 1]);
      LevelMarkersNext(len, routes + more[..|more| - 1], more[|more| - 1]);
      assert routes + more == routes + more[..|more| - 1] + [more[|more| - 1]];
    }
  }

  lemma {:induction false} AllMarkersPart(orders: Orders, n: nat, m: nat)
    requires n <= m <= LEVELS
    ensures AllMarkers(orders, n) <= AllMarkers(orders, m)
    decreases m
  {
    hide LevelMarkers;
    if n < m {
      AllMarkersPart(orders, n, m - 1);
    }
  }

  // ---------- the run without losses ----------

  /** A marker is written with what a lookup of its bits finds. */
  function Mark(t: Levels, p: Spot): Levels {
    PutMarker(t, p.0, p.1, Search(t, p.1, 0, 127, 0))
  }

  function Marks(t: Levels, spots: seq<Spot>): Levels {
    if spots == [] then t else Mark(Marks(t, spots[..|spots| - 1]), spots[|spots| - 1])
  }

  lemma {:induction false} MarksJoin(t: Levels, a: seq<Spot>, b: seq<Spot>)
    ensures Marks(t, a + b) == Marks(Marks(t, a), b)
    decreases |b|
  {
    hide Mark;
    if b == [] {
      assert a + b == a;
    } else {
      var c, p := b[..|b| - 1], b[|b| - 1];
      assert (a + b)[..|a + b| - 1] == a + c && (a + b)[|a + b| - 1] == p;
      MarksJoin(t, a, c);
    }
  }

  lemma MarksOne(t: Levels, p: Spot)
    ensures Marks(t, [p]) == Mark(t, p)
  {
    assert Marks(t, [p][..0]) == t;
  }

  /** Every route of the level is listed once. */
  ghost predicate Enumerates(s: set<U128>, routes: seq<U128>) {
    && (forall i, j :: 0 <= i < j < |routes| ==> routes[i] != routes[j])
    && forall r :: r in routes <==> r in s
  }

  ghost predicate Lists(rib: Levels, orders: Orders) {
    forall l :: 0 <= l < LEVELS ==> Enumerates(rib[l].Keys, orders[l])
  }

  /** The markers of one route. */
  lemma {:induction false} RouteRuns(t: Levels, rib: Levels, len: nat, done: set<U128>, r: U128, lo: nat, hi: int)
    requires Proper(rib) && len < LEVELS && r in rib[len] && r !in done && OnPath(len, lo, hi)
    requires Underway(t, rib, len, done, r, lo, hi)
    ensures var t' := Marks(t, Markers(len, r, lo, hi));
            Underway(t', rib, len, done + {r}, NONE, 0, 127) && Grown(rib, t, t') && Marked(t', rib, len, r)
    decreases hi - lo + 1
  {
    hide Underway, Grown, Marked, OnPath, Markers, Proper, Prefix, Search, PutMarker, Marks;
    PathRange(len, lo, hi);
    MarkersStep(len, r, lo, hi);
    var mid := (lo + hi) / 2;
    if mid == len {
      UnderwayEnd(t, rib, len, done, r, lo, hi, NONE);
      GrownSame(rib, t);
      MarksNone(t);
    } else if mid < len {
      MarkerStep(t, rib, len, done, r, lo, hi);
      RightStep(len, lo, hi);
      var p, t1 := MarkerAt(r, mid), PutMarker(t, mid, Prefix(r, mid), Search(t, Prefix(r, mid), 0, 127, 0));
      RouteRuns(t1, rib, len, done, r, mid + 1, hi);
      MarksOne(t, p);
      MarksJoin(t, [p], Markers(len, r, mid + 1, hi));
      GrownTwice(rib, t, t1, Marks(t1, Markers(len, r, mid + 1, hi)));
    } else {
      UnderwayLeft(t, rib, len, done, r, lo, hi);
      LeftStep(t, rib, len, r, lo, hi);
      RouteRuns(t, rib, len, done, r, lo, mid - 1);
    }
  }

  lemma MarksNone(t: Levels)
    ensures Marks(t, []) == t
  {
  }

  function Elements(routes: seq<U128>): set<U128> {
    set r | r in routes
  }

  /** The markers of the first routes of a level. */
  lemma {:induction false} LevelRuns(t: Levels, rib: Levels, len: nat, routes: seq<U128>)
    requires Proper(rib) && len < LEVELS && Underway(t, rib, len, {}, NONE, 0, 127)
    requires (forall r <- routes :: r in rib[len]) && forall i, j :: 0 <= i < j < |routes| ==> routes[i] != routes[j]
    ensures var t' := Marks(t, LevelMarkers(len, routes));
            Underway(t', rib, len, Elements(routes), NONE, 0, 127) && forall r <- routes :: Marked(t', rib, len, r)
    decreases |routes|
  {
    hide Underway, Grown, Marked, OnPath, Markers, Proper, Marks;
    if routes == [] {
      assert Elements(routes) == {};
      MarksNone(t);
    } else {
      var front, r := routes[..|routes| - 1], routes[|routes| - 1];
      LevelRuns(t, rib, len, front);
      var t1 := Marks(t, LevelMarkers(len, front));
      UnderwayStart(t1, rib, len, Elements(front), NONE, r);
      PathStart(t1, rib, len, r);
      RouteRuns(t1, rib, len, Elements(front), r, 0, 127);
      MarksJoin(t, LevelMarkers(len, front), Markers(len, r, 0, 127));
      forall q <- front ensures Marked(Marks(t1, Markers(len, r, 0, 127)), rib, len, q) {
        MarkedGrows(t1, Marks(t1, Markers(len, r, 0, 127)), rib, len, q);
      }
      assert Elements(routes) == Elements(front) + {r};
    }
  }

  /** The markers of all levels below `n`. */
  lemma {:induction false} LevelsRun(rib: Levels, orders: Orders, n: nat)
    requires Proper(rib) && Lists(rib, orders) && n <= LEVELS
    ensures Underway(Marks(rib, AllMarkers(orders, n)), rib, n, {}, NONE, 0, 127)
  {
    hide Underway, Marked, LevelMarkers, Proper, Marks;
    if n == 0 {
      RibIsBuilt(rib);
      MarksNone(rib);
    } else {
      LevelsRun(rib, orders, n - 1);
      var t, routes := Marks(rib, AllMarkers(orders, n - 1)), orders[n - 1];
      assert Enumerates(rib[n - 1].Keys, routes);
      LevelRuns(t, rib, n - 1, routes);
      MarksJoin(rib, AllMarkers(orders, n - 1), LevelMarkers(n - 1, routes));
      UnderwayLevel(Marks(t, LevelMarkers(n - 1, routes)), rib, n - 1, Elements(routes), NONE);
    }
  }

  // ---------- the run as it is ----------

  /** One insertion: the key it writes, the value, and the keys it cuts off the chain. */
  datatype Write = Write(at: Spot, val: nat, lost: set<U128>)

  function Put(t: Levels, w: Write): Levels {
    var level: map<U128, nat> := (t[w.at.0] - w.lost)[w.at.1 := w.val];
    t[w.at.0 := level]
  }

  function Replay(t: Levels, log: seq<Write>): Levels {
    if log == [] then t else Put(Replay(t, log[..|log| - 1]), log[|log| - 1])
  }

  function Spots(log: seq<Write>): seq<Spot> {
    seq(|log|, i requires 0 <= i < |log| => log[i].at)
  }

  /** The value is what a lookup in the tables so far finds, and keys are cut off only from the chain of a
      key written before, and only keys of its bucket. */
  ghost predicate WriteFits(t: Levels, buckets: Buckets, w: Write) {
    && w.val == Search(t, w.at.1, 0, 127, 0)
    && (w.lost != {} ==> w.at.1 in t[w.at.0])
    && forall k <- w.lost :: k in t[w.at.0] && k != w.at.1 && buckets[w.at.0](k) == buckets[w.at.0](w.at.1)
  }

  ghost predicate Fits(t: Levels, buckets: Buckets, log: seq<Write>) {
    forall i :: 0 <= i < |log| ==> WriteFits(Replay(t, log[..i]), buckets, log[i])
  }

  ghost predicate Lossless(log: seq<Write>) {
    forall w <- log :: w.lost == {}
  }

  lemma LogParts(t: Levels, log: seq<Write>, w: Write)
    ensures Replay(t, log + [w]) == Put(Replay(t, log), w) && Spots(log + [w]) == Spots(log) + [w.at]
    ensures (log + [w])[..|log|] == log && Lossless(log + [w]) == (Lossless(log) && w.lost == {})
  {
    hide Put;
    var longer := log + [w];
    assert longer[..|log|] == log;
    assert forall v <- log :: v in longer;
    assert w in longer;
  }

  lemma FitsFront(t: Levels, buckets: Buckets, log: seq<Write>, w: Write)
    requires Fits(t, buckets, log + [w])
    ensures Fits(t, buckets, log) && WriteFits(Replay(t, log), buckets, w)
  {
    hide WriteFits, Replay;
    var longer := log + [w];
    assert longer[..|log|] == log && longer[|log|] == w;
    forall i | 0 <= i < |log| ensures WriteFits(Replay(t, log[..i]), buckets, log[i]) {
      assert longer[..i] == log[..i] && longer[i] == log[i];
    }
  }

  lemma FitsNext(t: Levels, buckets: Buckets, log: seq<Write>, w: Write)
    requires Fits(t, buckets, log) && WriteFits(Replay(t, log), buckets, w)
    ensures Fits(t, buckets, log + [w])
  {
    hide WriteFits, Replay;
    var longer := log + [w];
    forall i | 0 <= i < |longer| ensures WriteFits(Replay(t, longer[..i]), buckets, longer[i]) {
      if i < |log| {
        assert longer[..i] == log[..i] && longer[i] == log[i];
      } else {
        assert longer[..i] == log;
      }
    }
  }

  /** No key on the way of `x` is ever cut off. */
  ghost predicate Kept(log: seq<Write>, x: U128) {
    forall w <- log :: Prefix(x, w.at.0) !in w.lost
  }

  /** No key on the way of `x`, or on the way of the bits of a marker on that way, is ever cut off. */
  ghost predicate Spared(log: seq<Write>, x: U128) {
    Kept(log, x) && forall w <- log :: Prefix(x, w.at.0) == w.at.1 ==> Kept(log, w.at.1)
  }

  lemma SparedMarker(log: seq<Write>, x: U128, w: Write)
    requires Spared(log, x) && w in log && Prefix(x, w.at.0) == w.at.1
    ensures Spared(log, w.at.1)
  {
    hide Prefix, Kept;
    forall v <- log | Prefix(w.at.1, v.at.0) == v.at.1 ensures Kept(log, v.at.1) {
      PrefixPrefix(x, w.at.0, v.at.0);
    }
  }

  lemma SparedFront(log: seq<Write>, w: Write, x: U128)
    requires Spared(log + [w], x)
    ensures Spared(log, x) && Prefix(x, w.at.0) !in w.lost
    ensures Prefix(x, w.at.0) == w.at.1 ==> Spared(log, w.at.1)
  {
    hide Prefix;
    assert w in log + [w];
    assert forall v <- log :: v in log + [w];
    if Prefix(x, w.at.0) == w.at.1 {
      SparedMarker(log + [w], x, w);
    }
  }

  /** What is stored on the way of an address that is spared is the same as if nothing had been cut off. */
  lemma {:induction false} LossesElsewhere(t: Levels, buckets: Buckets, log: seq<Write>, x: U128)
    requires Fits(t, buckets, log) && Spared(log, x)
    ensures forall j :: 0 <= j < LEVELS ==> Get(Replay(t, log), j, x) == Get(Marks(t, Spots(log)), j, x)
    decreases |log|
  {
    hide Prefix, Search, Get, Fits, Spared, WriteFits;
    if log != [] {
      var front, w := log[..|log| - 1], log[|log| - 1];
      assert log == front + [w];
      FitsFront(t, buckets, front, w);
      LogParts(t, front, w);
      SparedFront(front, w, x);
      LossesElsewhere(t, buckets, front, x);
      var a, b := Replay(t, front), Marks(t, Spots(front));
      MarksNext(t, Spots(front), w.at);
      if Prefix(x, w.at.0) == w.at.1 {
        LossesElsewhere(t, buckets, front, w.at.1);
        SameSearch(a, b, w.at.1, 0, 127, 0);
        FitsValue(a, buckets, w);
      }
      forall j | 0 <= j < LEVELS ensures Get(Put(a, w), j, x) == Get(Mark(b, w.at), j, x) {
        PutGet(a, w, j, x);
        PutGets(b, w.at.0, w.at.1, Search(b, w.at.1, 0, 127, 0), j, x);
      }
    } else {
      MarksNone(t);
    }
  }

  lemma MarksNext(t: Levels, spots: seq<Spot>, p: Spot)
    ensures Marks(t, spots + [p]) == Mark(Marks(t, spots), p)
  {
    assert (spots + [p])[..|spots|] == spots;
  }

  lemma FitsValue(t: Levels, buckets: Buckets, w: Write)
    requires WriteFits(t, buckets, w)
    ensures w.val == Search(t, w.at.1, 0, 127, 0)
  {
    hide Search;
  }

  lemma PutGet(t: Levels, w: Write, j: nat, x: U128)
    requires j < LEVELS && Prefix(x, w.at.0) !in w.lost
    ensures Get(Put(t, w), j, x) == if j == w.at.0 && Prefix(x, j) == w.at.1 then w.val else Get(t, j, x)
  {
    hide Prefix;
  }

  lemma {:induction false} SameSearch(a: Levels, b: Levels, x: U128, lo: nat, hi: int, acc: nat)
    requires hi < LEVELS && forall j :: 0 <= j < LEVELS ==> Get(a, j, x) == Get(b, j, x)
    ensures Search(a, x, lo, hi, acc) == Search(b, x, lo, hi, acc)
    decreases hi - lo + 1
  {
    hide Get;
    if lo <= hi {
      var mid := (lo + hi) / 2;
      if Get(a, mid, x) == 0 {
        SameSearch(a, b, x, lo, mid - 1, acc);
      } else {
        SameSearch(a, b, x, mid + 1, hi, Get(a, mid, x));
      }
    }
  }

  /** Without losses it is the run above. */
  lemma {:induction false} LosslessRun(t: Levels, buckets: Buckets, log: seq<Write>)
    requires Fits(t, buckets, log) && Lossless(log)
    ensures Replay(t, log) == Marks(t, Spots(log))
    decreases |log|
  {
    hide Search, Fits, WriteFits;
    if log != [] {
      var front, w := log[..|log| - 1], log[|log| - 1];
      assert log == front + [w];
      FitsFront(t, buckets, front, w);
      LogParts(t, front, w);
      LosslessRun(t, buckets, front);
      MarksNext(t, Spots(front), w.at);
      FitsValue(Replay(t, front), buckets, w);
      assert Replay(t, front)[w.at.0] - {} == Replay(t, front)[w.at.0];
    } else {
      MarksNone(t);
    }
  }

  // ---------- what the finished tables are worth ----------

  /** What the finished tables `t` are worth for the routes `rib`: they hold the routes and the markers and
      nothing else; what they hold and answer is the longest match wherever the markers needed are covered
      and quiet, hence everywhere if the routes are buildable, and only then, as far as the routes decide
      that. */
  ghost predicate Serves(t: Levels, rib: Levels) {
    && (forall l :: 0 <= l < LEVELS ==> t[l].Keys == Stored(rib, l))
    && (forall l, k :: 0 <= l < LEVELS && k in t[l] && Reliable(rib, k) ==> t[l][k] == Cover(rib, k, l) != 0)
    && (forall ip :: Reliable(rib, ip) ==> Search(t, ip, 0, 127, 0) == Lpm(rib, ip))
    && (Buildable(rib) ==> AnswersLpm(t, rib))
    && (Open(rib) && Decided(rib) ==> (AnswersLpm(t, rib) <==> Buildable(rib)))
  }

  /** A run that cuts nothing off makes such tables of routes in any order. */
  lemma LosslessServes(rib: Levels, buckets: Buckets, log: seq<Write>, orders: Orders)
    requires Proper(rib) && Lists(rib, orders) && Fits(rib, buckets, log) && Spots(log) == AllMarkers(orders, LEVELS)
    requires Lossless(log)
    ensures Serves(Replay(rib, log), rib)
  {
    hide AnswersLpm, Open, Decided, Built, Proper, Marks, Replay, Fits, AllMarkers, Spots, Stored, Reliable, Cover,
         Lists, Search, Lpm, Buildable, Lossless;
    var t := Replay(rib, log);
    LosslessRun(rib, buckets, log);
    RunIsBuilt(rib, orders);
    forall l | 0 <= l < LEVELS
      ensures t[l].Keys == Stored(rib, l)
      ensures forall k :: k in t[l] && Reliable(rib, k) ==> t[l][k] == Cover(rib, k, l) != 0
    {
      FinishedTablesHold(t, rib, l);
    }
    forall ip | Reliable(rib, ip) ensures Search(t, ip, 0, 127, 0) == Lpm(rib, ip) {
      ReliableIsAnswered(t, rib, ip);
    }
    if Buildable(rib) { FinishedTablesAnswer(t, rib); }
    if Open(rib) && Decided(rib) { BuildableIsNecessary(t, rib); }
  }

  /** Whatever chains were cut: the address is answered rightly if the markers it depends on are covered and
      quiet, and no key it depends on was cut off. */
  lemma SparedIsAnswered(rib: Levels, buckets: Buckets, log: seq<Write>, orders: Orders, ip: U128)
    requires Proper(rib) && Lists(rib, orders) && Fits(rib, buckets, log) && Spots(log) == AllMarkers(orders, LEVELS)
    requires Reliable(rib, ip) && Spared(log, ip)
    ensures Search(Replay(rib, log), ip, 0, 127, 0) == Lpm(rib, ip)
  {
    hide Search, Lpm, Reliable, Spared, Fits, Spots, AllMarkers, Lists, Built, Replay, Marks, Get;
    var t := Marks(rib, Spots(log));
    RunIsBuilt(rib, orders);
    ReliableIsAnswered(t, rib, ip);
    LossesElsewhere(rib, buckets, log, ip);
    SameSearch(Replay(rib, log), t, ip, 0, 127, 0);
  }

  lemma RunIsBuilt(rib: Levels, orders: Orders)
    requires Proper(rib) && Lists(rib, orders)
    ensures Built(Marks(rib, AllMarkers(orders, LEVELS)), rib, LEVELS)
  {
    hide Built, AllMarkers, Proper, Marks, Traced, PathMarked;
    LevelsRun(rib, orders, LEVELS);
  }
}
