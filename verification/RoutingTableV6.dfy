/** `RoutingTableV6`: 128 hash tables, one per prefix length, searched by halving the length. */
module RoutingTableV6 {
  import opened Address128
  import opened HashLayout
  import opened HashTable
  import opened PrefixSearch
  import opened PrefixBuild
  import opened PrefixRun

  function Values(m: map<U128, Entry>): map<U128, nat> {
    map k | k in m :: m[k].val
  }

  lemma ValuesPut(m: map<U128, Entry>, lost: set<U128>, m': map<U128, Entry>, key: U128, val: nat)
    requires key in m' && m'[key].val == val && m' == (m - lost)[key := m'[key]]
    ensures Values(m') == (Values(m) - lost)[key := val]
  {
  }

  lemma MarkerFlag()
    ensures Has(MARKER, MARKER) && MARKER != EMPTY
  {
  }

  lemma JoinPrefix()
    ensures Join(PREFIX, PREFIX) == Join(EMPTY, PREFIX) == PREFIX
  {
  }

  /** Keys of level `l` that share a bucket are written once each, and the keys that share one with
      another do not outnumber the buckets. */
  ghost predicate Spread(bucket: U128 -> nat, size: nat, rib: Levels, l: nat)
    requires l < LEVELS
  {
    && (forall j, k :: j in Stored(rib, l) && k in Stored(rib, l) && j != k && bucket(j) == bucket(k) ==>
          !Rewritten(rib, l, k))
    && |Crowded(bucket, Stored(rib, l))| <= size
  }

  ghost predicate Grew(a: seq<nat>, b: seq<nat>) {
    |a| == |b| && forall l :: 0 <= l < |a| ==> a[l] <= b[l]
  }

  lemma LossesStart(a: seq<nat>)
    ensures Grew(a, a)
  {
  }

  lemma GrewTwice(a: seq<nat>, b: seq<nat>, c: seq<nat>)
    requires Grew(a, b) && Grew(b, c)
    ensures Grew(a, c) && (a == c <==> a == b && b == c)
  {
    if a == c {
      assert forall l :: 0 <= l < |a| ==> a[l] == b[l];
    }
  }

  lemma MarkersTake(spots: seq<Spot>, p: Spot, rest: seq<Spot>)
    ensures spots + ([p] + rest) == spots + [p] + rest && spots + [p] <= spots + ([p] + rest)
  {
  }

  lemma NoLevelMarkers(spots: seq<Spot>, len: nat)
    ensures spots + LevelMarkers(len, []) == spots
  {
  }

  /** The next marker of a route is new or written twice. */
  lemma NextMarker(t: Levels, rib: Levels, len: nat, done: set<U128>, r: U128, lo: nat, hi: int, val: nat)
    requires Traced(t, rib, len, done, r, lo, hi) && len < LEVELS && r in rib[len] && r !in done
    requires OnPath(len, lo, hi) && (lo + hi) / 2 < len < LEVELS
    ensures var p := MarkerAt(r, (lo + hi) / 2);
            && t[p.0].Keys <= Stored(rib, p.0) && p.1 in Stored(rib, p.0)
            && (p.1 in t[p.0] ==> Rewritten(rib, p.0, p.1))
            && Traced(Put(t, Write(p, val, {})), rib, len, done, r, (lo + hi) / 2 + 1, hi)
  {
    hide OnPath, Traced, Stored, Rewritten, Prefix, Put, PutMarker, MarkerOf;
    PathRange(len, lo, hi);
    TracedNew(t, rib, len, done, r, lo, hi);
    TracedStored(t, rib, len, done, r, lo, hi, (lo + hi) / 2);
    TracedPut(t, rib, len, done, r, lo, hi, val);
    PutIsMarker(t, MarkerAt(r, (lo + hi) / 2), val);
  }

  lemma PutIsMarker(t: Levels, p: Spot, val: nat)
    ensures Put(t, Write(p, val, {})) == PutMarker(t, p.0, p.1, val)
  {
    assert t[p.0] - {} == t[p.0];
  }

  /** One route more of a level. */
  lemma SpotsNext(spots: seq<Spot>, len: nat, listed: seq<U128>, r: U128, routes: seq<U128>)
    requires listed + [r] <= routes
    ensures spots + LevelMarkers(len, listed) + Markers(len, r, 0, 127) == spots + LevelMarkers(len, listed + [r])
    ensures spots + LevelMarkers(len, listed + [r]) <= spots + LevelMarkers(len, routes)
  {
    hide LevelMarkers, Markers;
    LevelMarkersNext(len, listed, r);
    LevelMarkersPart(len, listed + [r], routes[|listed| + 1..]);
    assert listed + [r] + routes[|listed| + 1..] == routes;
  }

  method FreshTables(hash: U128 -> nat, size: nat) returns (tables: seq<HashTable128>)
    requires size > 0
    ensures |tables| == LEVELS && fresh(tables) && fresh(set t | t in tables :: t.table)
    ensures forall i, j :: 0 <= i < j < LEVELS ==> tables[i] != tables[j] && tables[i].table != tables[j].table
    ensures forall i :: 0 <= i < LEVELS ==>
              tables[i].Valid() && tables[i].NoGarbage() && tables[i].Map() == map[] && tables[i].tableSize == size &&
                tables[i].hash == hash
  {
    hide Ok, Contents, Tight;
    tables := [];
    while |tables| < LEVELS
      invariant |tables| <= LEVELS && fresh(tables) && fresh(set t | t in tables :: t.table)
      invariant forall i, j :: 0 <= i < j < |tables| ==> tables[i] != tables[j] && tables[i].table != tables[j].table
      invariant forall i :: 0 <= i < |tables| ==>
                  tables[i].Valid() && tables[i].NoGarbage() && tables[i].Map() == map[] &&
                    tables[i].tableSize == size && tables[i].hash == hash
    {
      var t := new HashTable128(hash, size);
      tables := tables + [t];
    }
  }

  class RoutingTable {
    const tables: seq<HashTable128>
    var isBuilt: bool

    ghost predicate Separate()
      reads tables
    {
      && |tables| == LEVELS
      && forall i, j :: 0 <= i < j < LEVELS ==> tables[i] != tables[j] && tables[i].table != tables[j].table
    }

    ghost predicate Valid()
      reads tables, set t | t in tables :: t.table
    {
      Separate() && forall i :: 0 <= i < LEVELS ==> tables[i].Valid()
    }

    /** The content of level `i`. */
    ghost function Level(i: nat): map<U128, nat>
      reads tables, set t | t in tables :: t.table
      requires Valid() && i < LEVELS
    {
      Values(tables[i].Map())
    }

    ghost function Content(): (t: Levels)
      reads tables, set t | t in tables :: t.table
      requires Valid()
      ensures forall i :: 0 <= i < LEVELS ==> t[i] == Level(i)
    {
      seq(LEVELS, i requires 0 <= i < LEVELS reads tables, (set t | t in tables :: t.table)
        requires Valid() => Level(i))
    }

    /** Table `i` holds routes only, and no insertion cut a chain. */
    ghost predicate OnlyRoutes(i: nat)
      reads tables, set t | t in tables :: t.table
      requires Valid() && i < LEVELS
    {
      tables[i].NoGarbage() && forall k :: k in tables[i].Map() ==> tables[i].Map()[k].state == PREFIX
    }

    ghost predicate Loaded()
      reads tables, set t | t in tables :: t.table
      requires Valid()
    {
      forall i :: 0 <= i < LEVELS ==> OnlyRoutes(i)
    }

    /** The condition on the routes and the hash function under which `build` loses nothing. */
    ghost predicate AllSpread(rib: Levels)
      reads tables, set t | t in tables :: t.table
      requires Valid()
    {
      forall l :: 0 <= l < LEVELS ==> Spread(tables[l].Bucket(), tables[l].tableSize, rib, l)
    }

    /** The same for the routes the tables hold. */
    ghost predicate SpreadNow()
      reads tables, set t | t in tables :: t.table
      requires Valid()
    {
      AllSpread(Content())
    }

    ghost predicate AllTight()
      reads tables, set t | t in tables :: t.table
      requires Valid()
    {
      forall l :: 0 <= l < LEVELS ==> tables[l].NoGarbage()
    }

    /** How many insertions failed or cut keys off a chain, by level. */
    ghost function Losses(): (c: seq<nat>)
      reads tables
      ensures |c| == |tables| && forall l :: 0 <= l < |tables| ==> c[l] == tables[l].losses
    {
      seq(|tables|, l requires 0 <= l < |tables| reads tables => tables[l].losses)
    }

    /** The routes of level `i` in the order of its items. */
    ghost function ListedAt(i: nat): seq<U128>
      reads tables, set t | t in tables :: t.table
      requires Valid() && i < LEVELS
    {
      Listed(tables[i].Used())
    }

    ghost function Orders(): (o: Orders)
      reads tables, set t | t in tables :: t.table
      requires Valid()
      ensures forall i :: 0 <= i < LEVELS ==> o[i] == ListedAt(i)
    {
      seq(LEVELS, i requires 0 <= i < LEVELS reads tables, (set t | t in tables :: t.table)
        requires Valid() => ListedAt(i))
    }

    /** The bucket of a key in every table. */
    ghost function Hashes(): (b: Buckets)
      reads tables, set t | t in tables :: t.table
      requires Valid()
      ensures forall i :: 0 <= i < LEVELS ==> b[i] == tables[i].Bucket()
    {
      seq(LEVELS, i requires 0 <= i < LEVELS reads tables, (set t | t in tables :: t.table)
        requires Valid() => tables[i].Bucket())
    }

    /** A table without routes; `size` is the number of buckets of each hash table. */
    constructor (hash: U128 -> nat, size: nat)
      requires size > 0
      ensures Valid() && Loaded() && !isBuilt && fresh(tables) && fresh(set t | t in tables :: t.table)
      ensures forall l :: 0 <= l < LEVELS ==> Level(l) == map[] && tables[l].tableSize == size && tables[l].hash == hash
    {
      var made := FreshTables(hash, size);
      tables := made;
      isBuilt := false;
    }

    /** `add`: `ok` is false where the assertion on the chaining space fails. */
    method Add(addr: U128, len: nat, dest: nat) returns (ok: bool)
      requires Valid() && 0 < len < 129
      modifies tables, set t | t in tables :: t.table
      ensures Valid()
      ensures forall l :: 0 <= l < LEVELS && l != len - 1 ==> Level(l) == old(Level(l))
      ensures ok == old(tables[len - 1].HasRoom(Mask(addr, len)))
      ensures Level(len - 1) ==
                if ok then (old(Level(len - 1)) - old(tables[len - 1].Behind(Mask(addr, len))))[Mask(addr, len) := dest]
                                else old(Level(len - 1))
      ensures ok && old(tables[len - 1].Behind(Mask(addr, len))) == {} && old(Loaded()) ==> Loaded()
    {
      hide Ok, Contents, Mask, Followers, Tight, Room, Join, OnlyRoutes, Loaded;
      JoinPrefix();
      RoutesOnly(len - 1);
      ok := tables[len - 1].Insert(Mask(addr, len), dest, PREFIX);
      assert OnlyTable(len - 1);
      hide OnlyTable, HashTable128.Valid, HashTable128.NoGarbage, HashTable128.HasRoom;
      LevelsStay(len - 1);
      if ok && old(tables[len - 1].Behind(Mask(addr, len))) == {} && old(Loaded()) {
        StillLoaded(len - 1);
      }
    }

    lemma RoutesOnly(m: nat)
      requires Valid() && m < LEVELS
      ensures Loaded() ==> tables[m].NoGarbage() && forall k :: k in tables[m].Map() ==>
                tables[m].Map()[k].state == PREFIX
    {
      hide Ok, Contents, Tight;
      if Loaded() { assert OnlyRoutes(m); }
    }

    twostate lemma StillLoaded(m: nat)
      requires OnlyTable(m) && old(Loaded()) && tables[m].NoGarbage()
      requires forall k :: k in tables[m].Map() ==> tables[m].Map()[k].state == PREFIX
      ensures Loaded()
    {
      hide Ok, Contents, Tight;
      forall i | 0 <= i < LEVELS ensures OnlyRoutes(i) {
        assert i != m ==> old(OnlyRoutes(i)) && tables[i].Map() == old(tables[i].Map());
      }
    }

    lemma GetIsFind(l: nat, ip: U128)
      requires Valid() && l < LEVELS
      ensures Get(Content(), l, ip) ==
                if Prefix(ip, l) in tables[l].Map() then tables[l].Map()[Prefix(ip, l)].val else 0
    {
      hide Ok, Contents, Mask;
      assert Content()[l] == Level(l);
    }

    /** `lookup`. */
    method Lookup(ip: U128) returns (result: nat)
      requires Valid()
      ensures result == Search(Content(), ip, 0, 127, 0)
    {
      hide Ok, Contents, Mask, Get, Values, Search;
      ghost var t := Content();
      var start, end := 0, 127;
      result := 0;
      while true
        invariant 0 <= start <= end <= 127 && t == Content()
        invariant Search(t, ip, start, end, result) == Search(t, ip, 0, 127, 0)
        decreases end - start + 1
      {
        var len := (start + end) / 2;
        var temp, _ := tables[len].Find(Mask(ip, len + 1));
        GetIsFind(len, ip);
        SearchStep(t, ip, start, end, result);
        if temp == 0 {
          end := len - 1;
        } else {
          result := temp;
          start := len + 1;
        }
        if !(start <= end) {
          break;
        }
      }
      SearchStep(t, ip, start, end, result);
    }

    // ---------- build ----------

    /** The tables are spread, hold no garbage, and the key is new or written twice. */
    ghost predicate Expected(rib: Levels, m: nat, key: U128)
      reads tables, set t | t in tables :: t.table
      requires Valid() && m < LEVELS
    {
      && AllSpread(rib) && AllTight() && Content()[m].Keys <= Stored(rib, m)
      && key in Stored(rib, m) && (key in Content()[m] ==> Rewritten(rib, m, key))
    }

    /** In spread tables, a key that is new or written twice finds room and cuts nothing. */
    lemma RoomWhenSpread(rib: Levels, m: nat, key: U128)
      requires Valid() && m < LEVELS && Expected(rib, m, key)
      ensures tables[m].HasRoom(key) && tables[m].Behind(key) == {}
    {
      var t := tables[m];
      var bucket, mem, y := t.Bucket(), t.Mem(), t.layout;
      assert Content()[m] == Level(m);
      assert y.at.Keys == t.Map().Keys == Level(m).Keys;
      hide Ok, ChainOk, KeyOk, Tight, Stored, Rewritten;
      RoomWhenCrowdFits(bucket, mem, y, key, Stored(rib, m));
      if key in y.at {
        AloneHasNoFollowers(bucket, mem, y, key);
      }
    }

    /** Table `m` alone may have changed, and its size did not. */
    twostate predicate OnlyTable(m: nat)
      reads tables, set t | t in tables :: t.table
    {
      && old(Valid()) && Valid() && m < LEVELS && tables[m].tableSize == old(tables[m].tableSize)
      && forall l :: 0 <= l < LEVELS && l != m ==> unchanged(tables[l]) && unchanged(tables[l].table)
    }

    twostate lemma SpreadStays(m: nat)
      requires OnlyTable(m)
      ensures forall rib :: old(AllSpread(rib)) ==> AllSpread(rib)
    {
      hide Ok, Contents, Spread;
      forall rib | old(AllSpread(rib)) ensures AllSpread(rib) {
        assert forall l :: 0 <= l < LEVELS ==> tables[l].tableSize == old(tables[l].tableSize);
      }
    }

    twostate lemma HashesStay(m: nat)
      requires OnlyTable(m)
      ensures Hashes() == old(Hashes())
    {
      hide Ok;
      forall i | 0 <= i < LEVELS ensures Hashes()[i] == old(Hashes())[i] {
        assert tables[i].tableSize == old(tables[i].tableSize);
      }
    }

    /** The keys behind another one are stored in its bucket. */
    lemma BehindKeys(m: nat, key: U128)
      requires Valid() && m < LEVELS
      ensures tables[m].Behind(key) != {} ==> key in Content()[m]
      ensures forall k <- tables[m].Behind(key) :: k in Content()[m] && k != key && Hashes()[m](k) == Hashes()[m](key)
    {
      hide Ok;
      assert Content()[m] == Level(m);
    }

    twostate lemma TightStays(m: nat)
      requires OnlyTable(m) && (old(tables[m].NoGarbage()) ==> tables[m].NoGarbage())
      ensures old(AllTight()) ==> AllTight()
    {
      hide Ok, Contents, Tight;
      if old(AllTight()) {
        forall l | 0 <= l < LEVELS ensures tables[l].NoGarbage() {
          assert old(tables[l].NoGarbage());
        }
      }
    }

    twostate lemma LossesStay(m: nat)
      requires OnlyTable(m) && old(tables[m].losses) <= tables[m].losses
      ensures Grew(old(Losses()), Losses()) &&
              (Losses() == old(Losses()) <==> tables[m].losses == old(tables[m].losses))
    {
      hide Ok, Contents;
      assert Losses()[m] == tables[m].losses;
      assert forall l :: 0 <= l < LEVELS ==>
          Losses()[l] == tables[l].losses && old(Losses())[l] == old(tables[l].losses);
    }

    twostate lemma LevelsStay(m: nat)
      requires OnlyTable(m)
      ensures forall l :: 0 <= l < LEVELS && l != m ==> Level(l) == old(Level(l))
      ensures Content() == old(Content())[m := Level(m)]
    {
      hide Ok, Contents;
      assert forall l :: 0 <= l < LEVELS ==> Content()[l] == old(Content())[m := Level(m)][l];
    }

    /** One insertion of `build`, and the keys it cuts off the chain. */
    method PlaceMarker(ghost rib: Levels, m: nat, key: U128, val: nat) returns (ok: bool, ghost lost: set<U128>)
      requires Valid() && m < LEVELS && val == Search(Content(), key, 0, 127, 0)
      modifies tables[m], tables[m].table
      ensures Valid() && Hashes() == old(Hashes()) && (old(AllSpread(rib)) ==> AllSpread(rib))
      ensures ok == old(tables[m].HasRoom(key))
      ensures ok ==> lost == old(tables[m].Behind(key)) && Content() == Put(old(Content()), Write((m, key), val, lost))
      ensures ok ==> WriteFits(old(Content()), Hashes(), Write((m, key), val, lost))
      ensures ok ==> key in tables[m].Map() && Has(tables[m].Map()[key].state, MARKER)
      ensures !ok ==> lost == {} && Content() == old(Content()) && !tables[m].HasRoom(key)
      ensures ok && lost == {} && old(AllTight()) ==> AllTight()
      ensures Grew(old(Losses()), Losses()) && (ok && lost == {} <==> Losses() == old(Losses()))
      ensures old(Expected(rib, m, key)) ==> ok && lost == {}
    {
      hide Ok, Contents, Followers, Tight, Room, AllSpread, AllTight, Expected, Losses, Grew, Has, Search;
      MarkerFlag();
      BehindKeys(m, key);
      lost := tables[m].Behind(key);
      if Expected(rib, m, key) {
        RoomWhenSpread(rib, m, key);
      }
      ghost var before := tables[m].Map();
      ok := tables[m].Insert(key, val, MARKER);
      assert OnlyTable(m);
      hide OnlyTable, Values, HashTable128.Valid, HashTable128.Map, HashTable128.NoGarbage, HashTable128.HasRoom;
      HashesStay(m);
      SpreadStays(m);
      LossesStay(m);
      LevelsStay(m);
      if ok {
        if lost == {} { TightStays(m); }
        ValuesPut(before, lost, tables[m].Map(), key, val);
      } else {
        lost := {};
      }
    }

    /** The tables are what the insertions of `log` made of those of the routes. */
    ghost predicate Replayed(rib: Levels, log: seq<Write>)
      reads tables, set t | t in tables :: t.table
      requires Valid()
    {
      Content() == Replay(rib, log) && Fits(rib, Hashes(), log)
    }

    /** The counts of losses, `first` at the start, tell whether an insertion failed or cut something off. */
    ghost predicate Counts(first: seq<nat>, ok: bool, log: seq<Write>)
      reads tables
    {
      Grew(first, Losses()) && (Losses() == first <==> ok && Lossless(log))
    }

    /** All of `spots` were written, or all before the first for which its table has no room. */
    ghost predicate Went(rib: Levels, first: seq<nat>, log: seq<Write>, spots: seq<Spot>, ok: bool)
      reads tables, set t | t in tables :: t.table
      requires Valid()
    {
      && Replayed(rib, log) && Counts(first, ok, log)
      && if ok then Spots(log) == spots else Stuck(Spots(log), spots)
    }

    ghost predicate Stuck(written: seq<Spot>, spots: seq<Spot>)
      reads tables, set t | t in tables :: t.table
      requires Valid()
    {
      |written| < |spots| && spots[..|written|] == written && NoRoomFor(spots[|written|])
    }

    ghost predicate NoRoomFor(p: Spot)
      reads tables, set t | t in tables :: t.table
      requires Valid()
    {
      !tables[p.0].HasRoom(p.1)
    }

    lemma WentMore(rib: Levels, first: seq<nat>, log: seq<Write>, spots: seq<Spot>, all: seq<Spot>)
      requires Valid() && Went(rib, first, log, spots, false) && spots <= all
      ensures Went(rib, first, log, all, false)
    {
      hide Replayed, Counts, NoRoomFor;
    }

    lemma WentSoFar(rib: Levels, first: seq<nat>, log: seq<Write>, spots: seq<Spot>)
      requires Valid()
      ensures Went(rib, first, log, spots, true) <==>
                Replayed(rib, log) && Counts(first, true, log) && Spots(log) == spots
    {
      hide Replayed, Counts;
    }

    /** The effect of one more insertion on what is known of the run. */
    twostate lemma WentOn(step: (Levels, seq<nat>, seq<Write>, Spot, nat, set<U128>, bool))
      requires old(Valid()) && Valid() && Hashes() == old(Hashes())
      requires old(Replayed(step.0, step.2)) && old(Counts(step.1, true, step.2))
      requires step.4 == Search(old(Content()), step.3.1, 0, 127, 0)
      requires var w := Write(step.3, step.4, step.5);
               if step.6 then WriteFits(old(Content()), Hashes(), w) && Content() == Put(old(Content()), w)
               else Content() == old(Content()) && NoRoomFor(step.3)
      requires Grew(old(Losses()), Losses()) && (step.6 && step.5 == {} <==> Losses() == old(Losses()))
      ensures var log' := if step.6 then step.2 + [Write(step.3, step.4, step.5)] else step.2;
              Went(step.0, step.1, log', Spots(step.2) + [step.3], step.6)
    {
      hide Content, Hashes, Losses, Grew, Search, Put, WriteFits, NoRoomFor, Lossless, Valid;
      var (rib, first, log, p, val, lost, ok) := step;
      GrewTwice(first, old(Losses()), Losses());
      if ok {
        LogParts(rib, log, Write(p, val, lost));
        FitsNext(rib, Hashes(), log, Write(p, val, lost));
      }
    }

    /** Nothing was lost so far and nothing will be: the tables are spread, hold no garbage, and every key
        is a route or the marker of a route already done. */
    ghost predicate Calm(rib: Levels, len: nat, done: set<U128>, r: U128, lo: int, hi: int)
      reads tables, set t | t in tables :: t.table
      requires Valid()
    {
      AllSpread(rib) && AllTight() && Traced(Content(), rib, len, done, r, lo, hi)
    }

    /** In calm tables the next marker is expected, and they are calm after it. */
    lemma CalmExpects(rib: Levels, len: nat, done: set<U128>, r: U128, lo: nat, hi: int, val: nat)
      requires Valid() && OnPath(len, lo, hi) && (lo + hi) / 2 < len < LEVELS && r in rib[len] && r !in done
      requires Calm(rib, len, done, r, lo, hi)
      ensures AllSpread(rib) && AllTight()
      ensures var p := MarkerAt(r, (lo + hi) / 2);
              && Expected(rib, p.0, p.1)
              && Traced(Put(Content(), Write(p, val, {})), rib, len, done, r, (lo + hi) / 2 + 1, hi)
    {
      hide Valid, Content, OnPath, AllSpread, AllTight, Traced, Stored, Rewritten, MarkerAt, Put;
      NextMarker(Content(), rib, len, done, r, lo, hi, val);
    }

    /** The marker of route `r` (level `len`) at the probed level, when that is shorter. */
    method MarkRight(ghost rib: Levels, len: nat, r: U128, start: nat, end: nat, ghost done: set<U128>,
                     ghost first: seq<nat>, ghost log: seq<Write>)
      returns (ok: bool, ghost log': seq<Write>)
      requires Valid() && OnPath(len, start, end) && (start + end) / 2 < len < LEVELS
      requires Replayed(rib, log) && Counts(first, true, log)
      modifies tables[..len], set t | t in tables[..len] :: t.table
      ensures Valid() && Went(rib, first, log', Spots(log) + [MarkerAt(r, (start + end) / 2)], ok)
      ensures r in rib[len] && r !in done && old(Calm(rib, len, done, r, start, end)) && Lossless(log) ==>
        ok && Lossless(log') && Calm(rib, len, done, r, (start + end) / 2 + 1, end)
    {
      hide Valid, Mask, Search, AllSpread, AllTight, Expected, Traced, OnPath, Grew, Losses, Put, Lossless, Replayed,
           Counts, Went, Has, Content, Hashes;
      var lenMarker := (start + end) / 2;
      var key := Mask(r, lenMarker + 1);
      var markerDest := Lookup(key);
      ghost var p, lost := MarkerAt(r, lenMarker), {};
      assert p == (lenMarker, key);
      hide MarkerAt, WriteFits;
      ghost var calm := r in rib[len] && r !in done && Calm(rib, len, done, r, start, end);
      if calm { CalmExpects(rib, len, done, r, start, end, markerDest); }
      Untouched(len);
      ok, lost := PlaceMarker(rib, lenMarker, key, markerDest);
      log' := if ok then log + [Write(p, markerDest, lost)] else log;
      WentOn((rib, first, log, p, markerDest, lost, ok));
      LogParts(rib, log, Write(p, markerDest, lost));
    }

    /** The body of the iterator loop of `build`: markers for the route `r` of level `len`. */
    method PlaceRoute(ghost rib: Levels, len: nat, r: U128, ghost done: set<U128>, ghost first: seq<nat>,
                      ghost log: seq<Write>)
      returns (ok: bool, ghost log': seq<Write>)
      requires Valid() && len < LEVELS && Replayed(rib, log) && Counts(first, true, log)
      modifies tables[..len], set t | t in tables[..len] :: t.table
      ensures Valid() && Went(rib, first, log', Spots(log) + Markers(len, r, 0, 127), ok)
      ensures r in rib[len] && r !in done && old(Calm(rib, len, done, NONE, 0, 127)) && Lossless(log) ==>
        ok && Lossless(log') && Calm(rib, len, done + {r}, NONE, 0, 127)
    {
      hide Valid, Turn, Mask, Calm, OnPath, Grew, Losses, Content, Replayed, Counts, Went, Markers, Spots, Lossless,
           MarkerAt;
      ghost var calm := r in rib[len] && r !in done && Calm(rib, len, done, NONE, 0, 127) && Lossless(log);
      ghost var all := Spots(log) + Markers(len, r, 0, 127);
      log' := log;
      var start, end := 0, 127;
      var lenMarker := (start + end) / 2;
      PathStart(Content(), rib, len, r);
      CalmStart(rib, len, done, r);
      while lenMarker != len && start <= end
        invariant lenMarker == (start + end) / 2 && OnPath(len, start, end) && 0 <= start <= end <= 127
        invariant Valid() && Replayed(rib, log') && Counts(first, true, log')
        invariant Spots(log') + Markers(len, r, start, end) == all
        invariant calm ==> Lossless(log') && Calm(rib, len, done, r, start, end)
        decreases end - start
      {
        MarkersStep(len, r, start, end);
        if lenMarker < len {
          ghost var spots := Spots(log');
          ghost var p := MarkerAt(r, lenMarker);
          ok, log' := MarkRight(rib, len, r, start, end, done, first, log');
          MarkersTake(spots, p, Markers(len, r, lenMarker + 1, end));
          if !ok {
            WentMore(rib, first, log', spots + [p], all);
            return;
          }
          WentSoFar(rib, first, log', spots + [p]);
          RightStep(len, start, end);
          start := lenMarker + 1;
        } else {
          LeftStep(Content(), rib, len, r, start, end);
          CalmLeft(rib, len, done, r, start, end);
          end := lenMarker - 1;
        }
        lenMarker := (start + end) / 2;
        PathRange(len, start, end);
      }
      MarkersStep(len, r, start, end);
      assert all == Spots(log');
      WentSoFar(rib, first, log', all);
      if calm { CalmEnd(rib, len, done, r, start, end); }
      ok := true;
    }

    lemma CalmStart(rib: Levels, len: nat, done: set<U128>, r: U128)
      requires Valid() && len < LEVELS
      ensures Calm(rib, len, done, NONE, 0, 127) ==> Calm(rib, len, done, r, 0, 127)
    {
      hide AllSpread, AllTight;
      if Calm(rib, len, done, NONE, 0, 127) {
        TracedStart(Content(), rib, len, done, NONE, r);
      }
    }

    lemma CalmLeft(rib: Levels, len: nat, done: set<U128>, r: U128, lo: nat, hi: int)
      requires Valid() && OnPath(len, lo, hi) && len < (lo + hi) / 2
      ensures Calm(rib, len, done, r, lo, hi) ==> Calm(rib, len, done, r, lo, (lo + hi) / 2 - 1)
    {
      hide AllSpread, AllTight;
      if Calm(rib, len, done, r, lo, hi) {
        TracedLeft(Content(), rib, len, done, r, lo, hi);
      }
    }

    lemma CalmEnd(rib: Levels, len: nat, done: set<U128>, r: U128, lo: nat, hi: int)
      requires Valid() && OnPath(len, lo, hi) && len == (lo + hi) / 2 && Calm(rib, len, done, r, lo, hi)
      ensures Calm(rib, len, done + {r}, NONE, 0, 127)
    {
      hide AllSpread, AllTight;
      TracedEnd(Content(), rib, len, done, r, lo, hi, NONE);
    }

    lemma CalmLevel(rib: Levels, len: nat, done: set<U128>)
      requires Valid() && Calm(rib, len, done, NONE, 0, 127)
      ensures Calm(rib, len + 1, {}, NONE, 0, 127)
    {
      hide AllSpread, AllTight;
      TracedLevel(Content(), rib, len, done, NONE, NONE);
    }

    ghost predicate Occupied(i: nat, j: nat)
      reads tables, set t | t in tables :: t.table
      requires Valid() && i < LEVELS
    {
      j < tables[i].nextChain && j < tables[i].table.Length && tables[i].table[j].state != EMPTY
    }

    lemma ItemIsRoute(i: nat, j: nat)
      requires Valid() && i < LEVELS && OnlyRoutes(i) && Occupied(i, j)
      ensures j < tables[i].table.Length && tables[i].table[j].state == PREFIX && tables[i].table[j].key in Level(i)
    {
      hide ChainOk, KeyOk;
      assert tables[i].table[j].key in tables[i].Map();
    }

    lemma RouteHasItem(i: nat, k: U128) returns (j: nat)
      requires Valid() && i < LEVELS && k in Level(i)
      ensures Occupied(i, j) && tables[i].table[j].key == k
    {
      hide ChainOk, KeyOk;
      j := Slot(tables[i].Bucket(), tables[i].Mem(), tables[i].layout, k);
    }

    /** What iterating table `i` relies on, and keeps: the tables from `i` on are still those of the routes. */
    ghost predicate Unbuilt(rib: Levels, orders: Orders, i: nat)
      reads tables, set t | t in tables :: t.table
      requires Valid() && i <= LEVELS
    {
      forall l :: i <= l < LEVELS ==> OnlyRoutes(l) && Level(l) == rib[l] && ListedAt(l) == orders[l]
    }

    lemma Untouched(i: nat)
      requires Valid() && i < LEVELS
      ensures |tables| == LEVELS
      ensures forall l :: i <= l < LEVELS ==>
                tables[l] !in tables[..i] && tables[l].table !in set t | t in tables[..i] :: t.table
    {
      hide HashTable128.Valid;
    }

    /** The tables from `i` on did not change. */
    twostate predicate OnlyBelow(i: nat)
      reads tables, set t | t in tables :: t.table
    {
      |tables| == LEVELS && forall l :: i <= l < LEVELS ==> unchanged(tables[l]) && unchanged(tables[l].table)
    }

    twostate lemma StillUnbuilt(i: nat)
      requires old(Valid()) && Valid() && i < LEVELS && OnlyBelow(i)
      ensures forall rib, orders :: old(Unbuilt(rib, orders, i)) ==> Unbuilt(rib, orders, i)
      ensures forall j :: DoneKeys(i, j) == old(DoneKeys(i, j)) && (Occupied(i, j) <==> old(Occupied(i, j)))
      ensures tables[i].Used() == old(tables[i].Used())
    {
      hide Ok, Contents, Tight;
      forall rib, orders | old(Unbuilt(rib, orders, i)) ensures Unbuilt(rib, orders, i) {
        forall l | i <= l < LEVELS ensures OnlyRoutes(l) && Level(l) == rib[l] && ListedAt(l) == orders[l] {
          assert old(OnlyRoutes(l)) && tables[l].Map() == old(tables[l].Map());
          assert tables[l].Used() == old(tables[l].Used());
        }
      }
    }

    lemma StopIsRoute(i: nat, n: nat)
      requires Valid() && i < LEVELS && OnlyRoutes(i) && n < tables[i].nextChain
      ensures tables[i].Stops(n) <==> Occupied(i, n)
      ensures tables[i].table[n].state & PREFIX != 0 <==> Occupied(i, n)
    {
      hide ChainOk, KeyOk, Contents;
      if Occupied(i, n) { ItemIsRoute(i, n); }
    }

    ghost predicate NoneOccupied(i: nat, lo: nat, hi: nat)
      reads tables, set t | t in tables :: t.table
      requires Valid() && i < LEVELS
    {
      forall j :: lo <= j < hi ==> !Occupied(i, j)
    }

    /** `begin()` on a table of routes. */
    method FirstRoute(i: nat) returns (n: nat)
      requires Valid() && i < LEVELS && OnlyRoutes(i)
      ensures Valid() && n <= tables[i].nextChain
      ensures n < tables[i].nextChain ==> Occupied(i, n)
      ensures NoneOccupied(i, 0, n)
    {
      hide ChainOk, KeyOk, Contents, Tight;
      n := tables[i].Begin();
      forall j | 0 <= j < n ensures !Occupied(i, j) {
        StopIsRoute(i, j);
      }
      if n < tables[i].tableSize { StopIsRoute(i, n); }
    }

    /** `operator++` on a table of routes. */
    method NextRoute(i: nat, it: nat) returns (n: nat)
      requires Valid() && i < LEVELS && OnlyRoutes(i) && Occupied(i, it)
      ensures Valid() && it < n <= tables[i].nextChain
      ensures n < tables[i].nextChain ==> Occupied(i, n)
      ensures NoneOccupied(i, it + 1, n)
    {
      hide ChainOk, KeyOk, Contents, Tight;
      StopIsRoute(i, it);
      n := tables[i].Next(it);
      forall j | it < j < n ensures !Occupied(i, j) {
        StopIsRoute(i, j);
      }
      if n < tables[i].nextChain { StopIsRoute(i, n); }
    }

    /** The keys of the items of table `i` before `it`. */
    ghost function DoneKeys(i: nat, it: nat): set<U128>
      reads tables, set t | t in tables :: t.table
      requires Valid() && i < LEVELS
    {
      set j | 0 <= j < it && Occupied(i, j) :: tables[i].table[j].key
    }

    /** Different items hold different keys. */
    lemma ItemIsNew(i: nat, it: nat)
      requires Valid() && i < LEVELS && OnlyRoutes(i) && Occupied(i, it)
      ensures tables[i].table[it].key !in DoneKeys(i, it)
    {
      hide ChainOk, KeyOk;
    }

    lemma MoreDone(i: nat, it: nat, n: nat)
      requires Valid() && i < LEVELS && Occupied(i, it) && it < n && NoneOccupied(i, it + 1, n)
      ensures DoneKeys(i, n) == DoneKeys(i, it) + {tables[i].table[it].key}
    {
      hide HashTable128.Valid;
    }

    lemma UsedItems(i: nat)
      requires Valid() && i < LEVELS
      ensures |tables[i].Used()| == tables[i].nextChain <= tables[i].table.Length
      ensures forall j :: 0 <= j < tables[i].nextChain ==>
                tables[i].Used()[j] == tables[i].table[j] && (Occupied(i, j) <==> tables[i].Used()[j].state != EMPTY)
    {
    }

    /** Up to the next route the list grows by this one. */
    lemma MoreListed(i: nat, it: nat, n: nat)
      requires Valid() && i < LEVELS && Occupied(i, it) && it < n <= tables[i].nextChain && NoneOccupied(i, it + 1, n)
      ensures var items := tables[i].Used();
              && Listed(items[..n]) == Listed(items[..it]) + [tables[i].table[it].key]
              && Listed(items[..n]) <= Listed(items)
    {
      hide Ok;
      UsedItems(i);
      var items := tables[i].Used();
      ListedNext(items, it);
      assert forall j :: it < j < n ==> !Occupied(i, j);
      ListedSkips(items, it + 1, n);
      ListedPart(items, n, |items|);
      assert items[..|items|] == items;
    }

    lemma NoneListed(i: nat, n: nat)
      requires Valid() && i < LEVELS && n <= tables[i].nextChain && NoneOccupied(i, 0, n)
      ensures Listed(tables[i].Used()[..n]) == []
    {
      hide Ok;
      UsedItems(i);
      assert forall j :: 0 <= j < n ==> !Occupied(i, j);
      ListedSkips(tables[i].Used(), 0, n);
    }

    /** One round of the iterator loop over table `i`. */
    method PlaceItem(ghost rib: Levels, ghost orders: Orders, i: nat, it: nat, ghost first: seq<nat>,
                     ghost log: seq<Write>)
      returns (ok: bool, ghost log': seq<Write>, n: nat)
      requires Valid() && i < LEVELS && Unbuilt(rib, orders, i) && Occupied(i, it)
      requires Replayed(rib, log) && Counts(first, true, log)
      modifies tables[..i], set t | t in tables[..i] :: t.table
      ensures Valid() && Unbuilt(rib, orders, i) && tables[i].Used() == old(tables[i].Used())
      ensures it < n <= tables[i].nextChain && (n < tables[i].nextChain ==> Occupied(i, n))
      ensures var items := tables[i].Used();
              && |items| == tables[i].nextChain
              && Listed(items[..n]) == Listed(items[..it]) + [tables[i].table[it].key]
              && Listed(items[..n]) <= Listed(items)
      ensures Went(rib, first, log', Spots(log) + Markers(i, tables[i].table[it].key, 0, 127), ok)
      ensures old(Calm(rib, i, DoneKeys(i, it), NONE, 0, 127)) && Lossless(log) ==>
                ok && Lossless(log') && Calm(rib, i, DoneKeys(i, n), NONE, 0, 127)
    {
      hide Valid, Went, Replayed, Counts, Calm, Content, Level, OnlyRoutes, Occupied, DoneKeys, NoneOccupied, Lossless,
           Listed, Markers, Spots;
      ghost var done := DoneKeys(i, it);
      UsedItems(i);
      ItemIsRoute(i, it);
      ItemIsNew(i, it);
      Untouched(i);
      var r := tables[i].table[it].key;
      ok, log' := PlaceRoute(rib, i, r, done, first, log);
      assert OnlyBelow(i);
      hide OnlyBelow, Unbuilt;
      StillUnbuilt(i);
      n := NextRoute(i, it);
      MoreDone(i, it, n);
      MoreListed(i, it, n);
    }

    /** The iterator loop of `build` over table `i`. */
    method PlaceTable(ghost rib: Levels, ghost orders: Orders, i: nat, ghost first: seq<nat>, ghost log: seq<Write>)
      returns (ok: bool, ghost log': seq<Write>)
      requires Valid() && i < LEVELS && Unbuilt(rib, orders, i) && Replayed(rib, log) && Counts(first, true, log)
      modifies tables[..i], set t | t in tables[..i] :: t.table
      ensures Valid() && Unbuilt(rib, orders, i)
      ensures Went(rib, first, log', Spots(log) + LevelMarkers(i, orders[i]), ok)
      ensures old(Calm(rib, i, {}, NONE, 0, 127)) && Lossless(log) ==>
                ok && Lossless(log') && Calm(rib, i + 1, {}, NONE, 0, 127)
    {
      hide Ok, Contents, Mask, Calm, Tight, Losses, Lossless, Replayed, Counts, Stuck, Spots, Listed, Markers,
           LevelMarkers;
      ghost var calm := Calm(rib, i, {}, NONE, 0, 127) && Lossless(log);
      log' := log;
      var it := FirstRoute(i);
      UsedItems(i);
      assert DoneKeys(i, it) == {};
      NoneListed(i, it);
      NoLevelMarkers(Spots(log), i);
      while it != tables[i].nextChain
        invariant Valid() && Unbuilt(rib, orders, i)
        invariant it <= tables[i].nextChain == |tables[i].Used()| && (it < tables[i].nextChain ==> Occupied(i, it))
        invariant Replayed(rib, log') && Counts(first, true, log')
        invariant Spots(log') == Spots(log) + LevelMarkers(i, Listed(tables[i].Used()[..it]))
        invariant calm ==> Lossless(log') && Calm(rib, i, DoneKeys(i, it), NONE, 0, 127)
        decreases tables[i].nextChain - it
      {
        ghost var key, before := tables[i].table[it].key, Spots(log');
        ghost var listed := Listed(tables[i].Used()[..it]);
        ok, log', it := PlaceItem(rib, orders, i, it, first, log');
        SpotsNext(Spots(log), i, listed, key, orders[i]);
        if !ok {
          WentMore(rib, first, log', before + Markers(i, key, 0, 127), Spots(log) + LevelMarkers(i, orders[i]));
          return;
        }
      }
      assert tables[i].Used()[..it] == tables[i].Used();
      if calm { CalmLevel(rib, i, DoneKeys(i, it)); }
      ok := true;
    }

    /** The outer loop of `build`. */
    method PlaceTables(ghost rib: Levels, ghost orders: Orders) returns (ok: bool, ghost log: seq<Write>)
      requires Valid() && Unbuilt(rib, orders, 0) && Content() == rib
      modifies tables, set t | t in tables :: t.table
      ensures Valid() && Went(rib, old(Losses()), log, AllMarkers(orders, LEVELS), ok)
      ensures old(Calm(rib, 0, {}, NONE, 0, 127)) ==> ok && Lossless(log)
    {
      hide Ok, Contents, Mask, Calm, Tight, OnlyRoutes, Losses, Lossless, Replayed, Counts, Stuck, LevelMarkers, Spots;
      ghost var first := Losses();
      ghost var calm := Calm(rib, 0, {}, NONE, 0, 127);
      log := [];
      RunStarts(rib);
      var i := 0;
      while i < 128
        invariant i <= LEVELS && Valid() && Unbuilt(rib, orders, i)
        invariant Replayed(rib, log) && Counts(first, true, log) && Spots(log) == AllMarkers(orders, i)
        invariant calm ==> Lossless(log) && Calm(rib, i, {}, NONE, 0, 127)
      {
        ok, log := PlaceTable(rib, orders, i, first, log);
        if !ok {
          AllMarkersPart(orders, i + 1, LEVELS);
          WentMore(rib, first, log, AllMarkers(orders, i + 1), AllMarkers(orders, LEVELS));
          return;
        }
        i := i + 1;
      }
      ok := true;
    }

    lemma RunStarts(rib: Levels)
      requires Valid() && Content() == rib
      ensures Replayed(rib, []) && Counts(Losses(), true, []) && Spots([]) == [] && Lossless([])
    {
      hide Ok;
      LossesStart(Losses());
    }

    /** `build`: the markers of all routes are written in the order in which the tables list the routes, each
        with what a lookup finds at that moment, up to the end, or, when `ok` is false, to the first one for
        which an assertion of the insertion fails. Nothing is cut off exactly if no table counted a loss,
        which is so for spread tables; then the tables serve the routes. An address that depends on no key
        ever cut off, and on covered and quiet markers only, is answered rightly in any case. The lock of
        the source only serialises callers. */
    method Build() returns (ok: bool, ghost log: seq<Write>)
      requires Valid() && (!isBuilt ==> Loaded())
      modifies this, tables, set t | t in tables :: t.table
      ensures Valid() && isBuilt == (old(isBuilt) || ok)
      ensures old(isBuilt) ==> ok && Content() == old(Content())
      ensures !old(isBuilt) ==>
                Went(old(Content()), old(Losses()), log, AllMarkers(old(Orders()), LEVELS), ok)
      ensures !old(isBuilt) ==> Proven(old(Content()), log, ok)
      ensures !old(isBuilt) && old(SpreadNow()) ==> ok && Lossless(log)
    {
      hide Separate, Unbuilt, Loaded, SpreadNow, Went, Proven;
      if isBuilt {
        return true, [];
      }
      ok, log := BuildLoaded();
      if ok {
        isBuilt := true;
      }
    }

    /** What the tables are worth after a run for the routes `rib`. */
    ghost predicate Proven(rib: Levels, log: seq<Write>, ok: bool)
      reads tables, set t | t in tables :: t.table
      requires Valid()
    {
      Proper(rib) && ok ==>
        && (Lossless(log) ==> Serves(Content(), rib))
        && forall ip :: Reliable(rib, ip) && Spared(log, ip) ==> Search(Content(), ip, 0, 127, 0) == Lpm(rib, ip)
    }

    method BuildLoaded() returns (ok: bool, ghost log: seq<Write>)
      requires Valid() && Loaded()
      modifies tables, set t | t in tables :: t.table
      ensures Valid() && Went(old(Content()), old(Losses()), log, AllMarkers(old(Orders()), LEVELS), ok)
      ensures Proven(old(Content()), log, ok)
      ensures old(SpreadNow()) ==> ok && Lossless(log)
    {
      ghost var rib, orders := Content(), Orders();
      LoadedStart();
      hide Ok, Contents, Mask, Serves, Proper, AllSpread, SpreadNow, Calm, Tight, OnlyRoutes, Separate, Unbuilt, Loaded,
           Went, Proven, Lists;
      ok, log := PlaceTables(rib, orders);
      RunIsProven(rib, orders, log, ok);
    }

    lemma RunIsProven(rib: Levels, orders: Orders, log: seq<Write>, ok: bool)
      requires Valid() && Lists(rib, orders)
      requires exists first :: Went(rib, first, log, AllMarkers(orders, LEVELS), ok)
      ensures Proven(rib, log, ok)
    {
      hide Valid, Content, Hashes, Counts, Stuck, Lists, Proper, Serves, Lossless, Spots, AllMarkers, Reliable, Spared,
           Search, Lpm, Replay, Fits;
      if Proper(rib) && ok {
        if Lossless(log) { LosslessServes(rib, Hashes(), log, orders); }
        forall ip | Reliable(rib, ip) && Spared(log, ip) ensures Search(Content(), ip, 0, 127, 0) == Lpm(rib, ip) {
          SparedIsAnswered(rib, Hashes(), log, orders, ip);
        }
      }
    }

    lemma LoadedStart()
      requires Valid() && Loaded()
      ensures Unbuilt(Content(), Orders(), 0) && Lists(Content(), Orders())
      ensures SpreadNow() ==> Calm(Content(), 0, {}, NONE, 0, 127)
    {
      hide Ok, Contents, Tight, Spread, Enumerates;
      forall l | 0 <= l < LEVELS ensures tables[l].NoGarbage() && Enumerates(Content()[l].Keys, Orders()[l]) {
        assert OnlyRoutes(l);
        ListedAll(l);
      }
    }

    /** A table of routes lists each of them once. */
    lemma ListedAll(l: nat)
      requires Valid() && l < LEVELS && OnlyRoutes(l)
      ensures Enumerates(Level(l).Keys, ListedAt(l))
    {
      hide Ok, Contents, Tight;
      UsedItems(l);
      var items := tables[l].Used();
      assert items[..|items|] == items;
      forall i, j | 0 <= i < j < |items| && items[i].state != EMPTY && items[j].state != EMPTY
        ensures items[i].key != items[j].key
      {
        ItemsDiffer(l, i, j);
      }
      ListedOnce(items, |items|);
      var q := ListedAt(l);
      assert q == Listed(items[..|items|]);
      hide Listed, Level, ListedAt;
      forall k | k in Level(l).Keys ensures k in q {
        var j := RouteHasItem(l, k);
        assert items[j].key == k;
      }
      forall k | k in q ensures k in Level(l).Keys {
        var j :| 0 <= j < |items| && items[j].state != EMPTY && items[j].key == k;
        ItemIsRoute(l, j);
      }
    }

    lemma ItemsDiffer(l: nat, i: nat, j: nat)
      requires Valid() && l < LEVELS && OnlyRoutes(l) && i < j && Occupied(l, i) && Occupied(l, j)
      ensures tables[l].table[i].key != tables[l].table[j].key
    {
      hide ChainOk, KeyOk;
    }
  }
}
