/** The event loop's watchers: the pending queues by priority and the timer heap, in place. */
module EvLoop {
  import opened Heap4
  import opened Pending

  const MINPRI: int := -2
  const EV_TIMER: bv32 := 0x100

  class Watcher {
    var active: nat
    var pending: nat
    var priority: int
    var at: real
    var repeat: real

    constructor (priority: int, at: real, repeat: real)
      ensures active == 0 && pending == 0
      ensures this.priority == priority && this.at == at && this.repeat == repeat
    {
      active, pending := 0, 0;
      this.priority, this.at, this.repeat := priority, at, repeat;
    }
  }

  type Timer = Entry<Watcher>

  /** The watchers in the part of the heap array that is in use. */
  ghost function HeapWatchers(h: seq<Timer>, n: nat): set<Watcher>
    requires n + HEAP0 <= |h|
  {
    set i | HEAP0 <= i < n + HEAP0 :: h[i].w
  }

  /** Every watcher but the one at `k` knows its index. */
  ghost predicate BackPointers(h: seq<Timer>, n: nat, k: nat)
    reads HeapWatchers(h, n)`active
    requires n + HEAP0 <= |h|
  {
    forall i :: HEAP0 <= i < n + HEAP0 && i != k ==> h[i].w.active == i
  }

  lemma SameWatchers(before: seq<Timer>, after: seq<Timer>, n: nat)
    requires n + HEAP0 <= |before| && Rearranged(before, after, n)
    ensures HeapWatchers(before, n) == HeapWatchers(after, n)
  {
    forall i | HEAP0 <= i < n + HEAP0 ensures after[i].w in HeapWatchers(before, n) {
      var j := RearrangedMember(before, after, n, i);
    }
    var a, b := before[HEAP0..n + HEAP0], after[HEAP0..n + HEAP0];
    forall i | HEAP0 <= i < n + HEAP0 ensures before[i].w in HeapWatchers(after, n) {
      assert a[i - HEAP0] in multiset(a);
      assert before[i] in b;
      var m :| 0 <= m < |b| && b[m] == before[i];
      assert after[m + HEAP0].w == before[i].w;
    }
  }

  /** The entry at `from` moves into the hole at `k`, where `he` is to be put in the end, and its
      watcher learns its new index; the hole is now at `from`. */
  method MoveInto(heap: array<Timer>, k: nat, from: nat, ghost he: Timer, ghost n: nat)
    requires HEAP0 <= k < n + HEAP0 <= heap.Length && HEAP0 <= from < n + HEAP0 && k != from
    requires Distinct(heap[..][k := he], n) && BackPointers(heap[..][k := he], n, k)
    modifies heap, heap[from].w`active
    ensures heap[..][from := he] == Swap(old(heap[..])[k := he], k, from)
    ensures BackPointers(heap[..][from := he], n, from)
  {
    ghost var v := heap[..][k := he];
    heap[k] := heap[from];
    heap[k].w.active := k;
    assert heap[..][from := he] == Swap(v, k, from);
    forall i | HEAP0 <= i < n + HEAP0 && i != k && i != from ensures heap[i].w.active == i {
      assert v[i].w != v[from].w;
    }
  }

  /** The moving entry is finally stored at `k`. */
  method Settle(heap: array<Timer>, k: nat, he: Timer, ghost n: nat)
    requires HEAP0 <= k < n + HEAP0 <= heap.Length
    requires Distinct(heap[..][k := he], n) && BackPointers(heap[..][k := he], n, k)
    modifies heap, he.w`active
    ensures heap[..] == old(heap[..])[k := he] && BackPointers(heap[..], n, 0)
  {
    ghost var v := heap[..][k := he];
    heap[k] := he;
    he.w.active := k;
    forall i | HEAP0 <= i < n + HEAP0 && i != k ensures heap[i].w.active == i {
      assert v[i].w != v[k].w;
    }
  }

  /** `v` is the heap with the moving entry put back at `k`; it holds the watchers of the start heap. */
  ghost predicate Moving(h: seq<Timer>, v: seq<Timer>, n: nat)
    requires n + HEAP0 <= |h|
  {
    |v| == |h| && Distinct(v, n) && HeapWatchers(v, n) == HeapWatchers(h, n)
  }

  lemma MovingStart(h: seq<Timer>, n: nat, k: nat)
    requires HEAP0 <= k < n + HEAP0 <= |h| && Distinct(h, n)
    ensures Moving(h, h, n) && h[k := h[k]] == h
  {
    assert h[k := h[k]] == h;
  }

  lemma MovingStep(h: seq<Timer>, v: seq<Timer>, n: nat, i: nat, j: nat)
    requires n + HEAP0 <= |h| && Moving(h, v, n)
    requires HEAP0 <= i < n + HEAP0 <= |v| && HEAP0 <= j < n + HEAP0
    ensures Moving(h, Swap(v, i, j), n)
  {
    hide Rearranged;
    SwapRearranges(v, n, i, j);
    SameWatchers(v, Swap(v, i, j), n);
    DistinctAfter(v, Swap(v, i, j), n);
  }

  lemma DistinctAfter(h: seq<Timer>, v: seq<Timer>, n: nat)
    requires n + HEAP0 <= |h| && Rearranged(h, v, n) && Distinct(h, n)
    ensures |v| == |h| && Distinct(v, n)
  {
  }

  lemma InHeap(h: seq<Timer>, n: nat, i: nat)
    requires HEAP0 <= i < n + HEAP0 <= |h|
    ensures h[i].w in HeapWatchers(h, n)
  {
  }

  /** `upheap`: the hole at `k` moves up, each parent passed comes down. */
  method UpHeap(heap: array<Timer>, start: nat, ghost n: nat)
    requires HEAP0 <= start < n + HEAP0 <= heap.Length
    requires Distinct(heap[..], n) && BackPointers(heap[..], n, start)
    modifies heap, HeapWatchers(heap[..], n)`active
    ensures heap[..] == Up(old(heap[..]), start)
    ensures Rearranged(old(heap[..]), heap[..], n) && BackPointers(heap[..], n, 0)
  {
    hide Up, Rearranged, BackPointers, HeapWatchers, Swap;
    ghost var h := heap[..];
    var k, he := start, heap[start];
    MovingStart(h, n, start);
    while true
      invariant HEAP0 <= k < n + HEAP0
      invariant Up(heap[..][k := he], k) == Up(h, start)
      invariant Moving(h, heap[..][k := he], n) && BackPointers(heap[..][k := he], n, k)
      decreases k
    {
      var p := Parent(k);
      ghost var v := heap[..][k := he];
      UpUnfold(v, k);
      if p == k || heap[p].at <= he.at {
        break;
      }
      MovingStep(h, v, n, k, p);
      InHeap(v, n, p);
      MoveInto(heap, k, p, he, n);
      k := p;
    }
    InHeap(heap[..][k := he], n, k);
    Settle(heap, k, he, n);
    UpRearranges(h, n, start);
  }

  /** The smallest child of `k`: with all four children in use, and otherwise, where the fourth
      comparison of the source never applies. */
  method SmallestChild(heap: array<Timer>, n: nat, k: nat, ghost v: seq<Timer>) returns (m: nat)
    requires HEAP0 <= k && FirstChild(k) < n + HEAP0 <= heap.Length == |v|
    requires forall i :: 0 <= i < |v| && i != k ==> heap[i] == v[i]
    ensures m == MinChild(v, n, k)
  {
    var pos, end := FirstChild(k), n + HEAP0;
    m := pos;
    var minat := heap[m].at;
    if pos + DHEAP - 1 < end {
      if heap[pos + 1].at < minat { m := pos + 1; minat := heap[m].at; }
      if heap[pos + 2].at < minat { m := pos + 2; minat := heap[m].at; }
      if heap[pos + 3].at < minat { m := pos + 3; }
    } else {
      if pos + 1 < end && heap[pos + 1].at < minat { m := pos + 1; minat := heap[m].at; }
      if pos + 2 < end && heap[pos + 2].at < minat { m := pos + 2; }
    }
  }

  /** `downheap`: the hole at `k` moves down, each smallest child passed goes up. */
  method DownHeap(heap: array<Timer>, n: nat, start: nat)
    requires HEAP0 <= start < n + HEAP0 <= heap.Length
    requires Distinct(heap[..], n) && BackPointers(heap[..], n, start)
    modifies heap, HeapWatchers(heap[..], n)`active
    ensures heap[..] == Down(old(heap[..]), n, start)
    ensures Rearranged(old(heap[..]), heap[..], n) && BackPointers(heap[..], n, 0)
  {
    hide Down, Rearranged, Swap, MinChild;
    ghost var h := heap[..];
    var k, he := start, heap[start];
    MovingStart(h, n, start);
    while true
      invariant HEAP0 <= k < n + HEAP0
      invariant Down(heap[..][k := he], n, k) == Down(h, n, start)
      invariant Moving(h, heap[..][k := he], n) && BackPointers(heap[..][k := he], n, k)
      decreases n + HEAP0 - k
    {
      ghost var v := heap[..][k := he];
      DownUnfold(v, n, k);
      if FirstChild(k) >= n + HEAP0 {
        break;
      }
      var m := SmallestChild(heap, n, k, v);
      if he.at <= heap[m].at {
        break;
      }
      MovingStep(h, v, n, k, m);
      InHeap(v, n, m);
      MoveInto(heap, k, m, he, n);
      k := m;
    }
    InHeap(heap[..][k := he], n, k);
    Settle(heap, k, he, n);
    DownRearranges(h, n, start);
  }

  /** `adjustheap`: a replaced entry of a heap moves to where it belongs. */
  method AdjustHeap(heap: array<Timer>, n: nat, k: nat)
    requires HEAP0 <= k < n + HEAP0 <= heap.Length
    requires Distinct(heap[..], n) && BackPointers(heap[..], n, k)
    modifies heap, HeapWatchers(heap[..], n)`active
    ensures heap[..] == Adjust(old(heap[..]), n, k)
    ensures Rearranged(old(heap[..]), heap[..], n) && BackPointers(heap[..], n, 0)
  {
    hide Rearranged, Up, Down;
    if k > HEAP0 && heap[k].at <= heap[Parent(k)].at {
      UpHeap(heap, k, n);
    } else {
      DownHeap(heap, n, k);
    }
  }

  /** `reheap`: from any order of the entries to a heap of the same entries. */
  method Reheap(heap: array<Timer>, n: nat)
    requires n + HEAP0 <= heap.Length && Distinct(heap[..], n) && BackPointers(heap[..], n, 0)
    modifies heap, HeapWatchers(heap[..], n)`active
    ensures Rearranged(old(heap[..]), heap[..], n) && IsHeap(heap[..], n) && BackPointers(heap[..], n, 0)
  {
    hide Rearranged, Up, HeapWatchers, IsHeap;
    ghost var h := heap[..];
    Unchanged(h, n);
    HeapOfOne(h);
    var i := 0;
    while i < n
      invariant 0 <= i <= n && Rearranged(h, heap[..], n) && heap.Length == |h|
      invariant HeapWatchers(heap[..], n) == HeapWatchers(h, n)
      invariant Distinct(heap[..], n) && BackPointers(heap[..], n, 0) && IsHeap(heap[..], i)
    {
      ghost var v := heap[..];
      ReheapStep(v, i);
      UpHeap(heap, i + HEAP0, n);
      RearrangedTwice(h, v, heap[..], n);
      SameWatchers(h, heap[..], n);
      DistinctAfter(h, heap[..], n);
      i := i + 1;
    }
  }

  lemma Unchanged(h: seq<Timer>, n: nat)
    requires n + HEAP0 <= |h|
    ensures Rearranged(h, h, n)
  {
  }

  lemma HeapOfOne(h: seq<Timer>)
    requires HEAP0 <= |h|
    ensures IsHeap(h, 0)
  {
  }

  lemma ReheapStep(h: seq<Timer>, i: nat)
    requires i + HEAP0 < |h| && IsHeap(h, i)
    ensures |Up(h, i + HEAP0)| == |h| && IsHeap(Up(h, i + HEAP0), i + 1)
  {
    hide Parent, Up;
    assert forall j :: HEAP0 < j < i + 1 + HEAP0 ==> Parent(j) < j;
    UpOrders(h, i + 1, i + HEAP0);
  }

  lemma HeapPrefix(h: seq<Timer>, n: nat)
    requires 0 < n && n + HEAP0 <= |h| && IsHeap(h, n) && Distinct(h, n)
    ensures IsHeap(h, n - 1) && Distinct(h, n - 1)
    ensures HeapWatchers(h, n - 1) == HeapWatchers(h, n) - {h[n - 1 + HEAP0].w}
  {
  }

  /** Overwriting the entry of a stopped timer with the last one. */
  lemma LastReplaces(h: seq<Timer>, n: nat, k: nat)
    requires 0 < n && n + HEAP0 <= |h| && Distinct(h, n) && HEAP0 <= k < n - 1 + HEAP0
    ensures Distinct(h[k := h[n - 1 + HEAP0]], n - 1)
    ensures HeapWatchers(h[k := h[n - 1 + HEAP0]], n - 1) == HeapWatchers(h, n) - {h[k].w}
  {
    var last := n - 1 + HEAP0;
    var s := h[k := h[last]];
    forall w | w in HeapWatchers(h, n) - {h[k].w} ensures w in HeapWatchers(s, n - 1) {
      var i :| HEAP0 <= i < n + HEAP0 && h[i].w == w;
      assert s[if i == last then k else i].w == w;
    }
  }

  lemma EntryChanged(h: seq<Timer>, n: nat, k: nat, e: Timer)
    requires HEAP0 <= k < n + HEAP0 <= |h| && Distinct(h, n) && e.w == h[k].w
    ensures Distinct(h[k := e], n) && HeapWatchers(h[k := e], n) == HeapWatchers(h, n)
  {
    var s := h[k := e];
    assert forall i :: HEAP0 <= i < n + HEAP0 ==> s[i].w == h[i].w;
  }

  lemma EntryAppended(h: seq<Timer>, n: nat, e: Timer)
    requires n + HEAP0 < |h| && Distinct(h, n) && e.w !in HeapWatchers(h, n) && h[n + HEAP0] == e
    ensures Distinct(h, n + 1) && HeapWatchers(h, n + 1) == HeapWatchers(h, n) + {e.w}
  {
    forall i | HEAP0 <= i < n + HEAP0 ensures h[i].w != e.w {
      InHeap(h, n, i);
    }
  }

  /** What is observed of a watcher: its times, its slot, whether it is active, its pending events. */
  datatype Snap = Snap(at: real, repeat: real, pri: int, pending: nat, active: bool, events: bv32)

  function Later(a: real, b: real): real {
    if a < b then b else a
  }

  predicate Due(s: Snap, now: real) {
    s.active && s.at < now
  }

  /** A due timer after its round: rescheduled no earlier than now, or stopped and not pending. */
  function ExpiredSnap(s: Snap, now: real): Snap {
    if s.repeat > 0.0 then s.(at := Later(s.at + s.repeat, now)) else Snap(s.at - now, s.repeat, s.pri, 0, false, 0)
  }

  lemma ExpiredPri(s: Snap, now: real)
    ensures ExpiredSnap(s, now).pri == s.pri
  {
  }

  /** A round in the numbers: a repeating timer is due one interval after it was due before, or now if
      that has passed; another one keeps its distance from now and is inactive. */
  lemma ExpiredIs(s: Snap, now: real)
    ensures ExpiredSnap(s, now).repeat == s.repeat
    ensures s.repeat > 0.0 ==> ExpiredSnap(s, now).at == if s.at + s.repeat < now then now else s.at + s.repeat
    ensures s.repeat > 0.0 ==>
              var e := ExpiredSnap(s, now); e.active == s.active && e.pending == s.pending && e.events == s.events
    ensures s.repeat <= 0.0 ==>
              var e := ExpiredSnap(s, now); e.at == s.at - now && !e.active && e.pending == 0 && e.events == 0
  {
  }

  /** A timer after rounds at these times. */
  function Rounds(s: Snap, nows: seq<real>): Snap {
    if nows == [] then s else ExpiredSnap(Rounds(s, nows[..|nows| - 1]), nows[|nows| - 1])
  }

  /** Every round comes while the timer is due and not a whole interval late. */
  ghost predicate InTime(s: Snap, nows: seq<real>) {
    nows == [] ||
    (InTime(s, nows[..|nows| - 1]) &&
     var at := Rounds(s, nows[..|nows| - 1]).at; at < nows[|nows| - 1] <= at + s.repeat)
  }

  lemma OneInterval(n: nat, x: real)
    ensures (n + 1) as real * x == n as real * x + x
  {
  }

  /** `n` intervals, added up. */
  function Intervals(n: nat, x: real): (r: real) {
    if n == 0 then 0.0 else Intervals(n - 1, x) + x
  }

  lemma {:induction false} IntervalsMultiply(n: nat, x: real)
    ensures Intervals(n, x) == n as real * x
  {
    if n > 0 {
      IntervalsMultiply(n - 1, x);
      OneInterval(n - 1, x);
    }
  }

  lemma {:induction false} RoundsInTime(s: Snap, nows: seq<real>)
    requires s.repeat > 0.0 && InTime(s, nows)
    ensures Rounds(s, nows) == s.(at := s.at + Intervals(|nows|, s.repeat))
    decreases |nows|
  {
    hide ExpiredSnap;
    if nows != [] {
      RoundsInTime(s, nows[..|nows| - 1]);
      ExpiredIs(Rounds(s, nows[..|nows| - 1]), nows[|nows| - 1]);
      ExpiredPri(Rounds(s, nows[..|nows| - 1]), nows[|nows| - 1]);
    }
  }

  /** While no round is late a repeating timer does not drift: after `n` rounds it is due `n` intervals
      after the first time, whenever within their intervals the rounds took place. */
  lemma NoDrift(s: Snap, nows: seq<real>)
    requires s.repeat > 0.0 && InTime(s, nows)
    ensures Rounds(s, nows) == s.(at := s.at + |nows| as real * s.repeat)
  {
    hide Rounds, InTime;
    RoundsInTime(s, nows);
    IntervalsMultiply(|nows|, s.repeat);
  }

  /** The watchers `ws` in the order of their times, each once. */
  ghost predicate Collected(rfeeds: seq<Watcher>, s: map<Watcher, Snap>, ws: set<Watcher>)
    requires ws <= s.Keys
  {
    && (forall w :: w in rfeeds ==> w in ws) && (forall w :: w in ws ==> w in rfeeds)
    && (forall i, j :: 0 <= i < j < |rfeeds| ==> rfeeds[i] != rfeeds[j] && s[rfeeds[i]].at <= s[rfeeds[j]].at)
  }

  /** Midway: the watchers `left` are as in `s`, the others were due and expired, earliest first. */
  ghost predicate Collecting(cur: map<Watcher, Snap>, s: map<Watcher, Snap>, left: set<Watcher>, rfeeds: seq<Watcher>,
                             now: real) {
    && cur.Keys == s.Keys && left <= s.Keys
    && Collected(rfeeds, s, s.Keys - left)
    && (forall v :: v in left ==> cur[v] == s[v])
    && (forall v :: v in s && v !in left ==> Due(s[v], now) && cur[v] == ExpiredSnap(s[v], now))
    && (forall v, e :: v in left && s[v].active && e in s && e !in left ==> s[e].at <= s[v].at)
  }

  lemma CollectStep(cur: map<Watcher, Snap>, s: map<Watcher, Snap>, left: set<Watcher>, rfeeds: seq<Watcher>, now: real,
                    w: Watcher)
    requires Collecting(cur, s, left, rfeeds, now) && w in cur && Due(cur[w], now)
    requires forall v :: v in cur && cur[v].active ==> cur[w].at <= cur[v].at
    ensures w in left
    ensures Collecting(cur[w := ExpiredSnap(cur[w], now)], s, left - {w}, rfeeds + [w], now)
  {
    assert w in left;
    var rfeeds' := rfeeds + [w];
    forall v | v in s.Keys - (left - {w}) ensures v in rfeeds' {
      if v == w { assert rfeeds'[|rfeeds|] == w; }
    }
    forall i | 0 <= i < |rfeeds| ensures rfeeds[i] in s && rfeeds[i] != w && s[rfeeds[i]].at <= s[w].at {
      assert rfeeds[i] in rfeeds;
    }
  }

  /** Fed with `revents`: the events are collected, the slot is the one it has now. */
  function FedSnap(s: Snap, pending: nat, revents: bv32): Snap {
    s.(pending := pending, events := Or(s.events, revents))
  }

  /** Midway through feeding: the watchers from `k` on are fed; one that was not pending lies
      behind every later one of its priority. */
  ghost predicate Feeding(cur: map<Watcher, Snap>, s: map<Watcher, Snap>, rfeeds: seq<Watcher>, k: nat, revents: bv32) {
    && k <= |rfeeds| && cur.Keys == s.Keys && (forall w :: w in rfeeds ==> w in s)
    && (forall i :: k <= i < |rfeeds| ==>
          cur[rfeeds[i]].pending > 0 && cur[rfeeds[i]] == FedSnap(s[rfeeds[i]], cur[rfeeds[i]].pending, revents))
    && (forall v :: v in s && v !in rfeeds[k..] ==> cur[v] == s[v])
    && (forall i, j :: k <= i < j < |rfeeds| ==> Behind(cur, s, rfeeds[i], rfeeds[j]))
  }

  ghost predicate Behind(cur: map<Watcher, Snap>, s: map<Watcher, Snap>, v: Watcher, w: Watcher)
    requires v in s && w in s && cur.Keys == s.Keys
  {
    s[v].pending == 0 && s[v].pri == s[w].pri ==> cur[v].pending > cur[w].pending
  }

  lemma FeedStep(cur: map<Watcher, Snap>, s: map<Watcher, Snap>, rfeeds: seq<Watcher>, k: nat, revents: bv32,
                 pending: nat)
    requires 0 < k && Feeding(cur, s, rfeeds, k, revents) && pending > 0
    requires forall i, j :: 0 <= i < j < |rfeeds| ==> rfeeds[i] != rfeeds[j]
    requires cur[rfeeds[k - 1]].pending == 0 ==>
               forall v :: v in cur && v != rfeeds[k - 1] && cur[v].pri == cur[rfeeds[k - 1]].pri ==>
                   cur[v].pending < pending
    ensures var w := rfeeds[k - 1];
            Feeding(cur[w := FedSnap(cur[w], pending, revents)], s, rfeeds, k - 1, revents)
  {
    hide Or, FedSnap, Behind;
    var w := rfeeds[k - 1];
    FeedRest(cur, s, rfeeds, k, revents);
    FedSnapOf(cur[w], pending, revents);
    FeedOrder(cur, s, rfeeds, k, revents, FedSnap(cur[w], pending, revents));
  }

  /** The next watcher to feed has not been touched; nor have those that remain. */
  lemma FeedRest(cur: map<Watcher, Snap>, s: map<Watcher, Snap>, rfeeds: seq<Watcher>, k: nat, revents: bv32)
    requires 0 < k && Feeding(cur, s, rfeeds, k, revents)
    requires forall i, j :: 0 <= i < j < |rfeeds| ==> rfeeds[i] != rfeeds[j]
    ensures cur[rfeeds[k - 1]] == s[rfeeds[k - 1]]
    ensures forall v :: v in s && v !in rfeeds[k - 1..] ==> v != rfeeds[k - 1] && cur[v] == s[v]
  {
    hide Or, FedSnap, Behind;
    assert rfeeds[k - 1] !in rfeeds[k..] && rfeeds[k - 1..] == [rfeeds[k - 1]] + rfeeds[k..];
  }

  lemma FeedOrder(cur: map<Watcher, Snap>, s: map<Watcher, Snap>, rfeeds: seq<Watcher>, k: nat, revents: bv32, c: Snap)
    requires 0 < k && Feeding(cur, s, rfeeds, k, revents) && cur[rfeeds[k - 1]] == s[rfeeds[k - 1]]
    requires forall i, j :: 0 <= i < j < |rfeeds| ==> rfeeds[i] != rfeeds[j]
    requires cur[rfeeds[k - 1]].pending == 0 ==>
               forall v :: v in cur && v != rfeeds[k - 1] && cur[v].pri == cur[rfeeds[k - 1]].pri ==>
                   cur[v].pending < c.pending
    ensures forall i, j :: k - 1 <= i < j < |rfeeds| ==> Behind(cur[rfeeds[k - 1] := c], s, rfeeds[i], rfeeds[j])
  {
    hide Or, FedSnap, Behind;
    forall i, j | k - 1 <= i < j < |rfeeds| ensures Behind(cur[rfeeds[k - 1] := c], s, rfeeds[i], rfeeds[j]) {
      FedSnapOf(s[rfeeds[j]], cur[rfeeds[j]].pending, revents);
      FeedBehindStep(cur, s, rfeeds[k - 1], c, rfeeds[i], rfeeds[j]);
    }
  }

  lemma FedSnapOf(s: Snap, pending: nat, revents: bv32)
    ensures FedSnap(s, pending, revents).pending == pending && FedSnap(s, pending, revents).pri == s.pri
  {
  }

  lemma FeedBehindStep(cur: map<Watcher, Snap>, s: map<Watcher, Snap>, w: Watcher, c: Snap, v: Watcher, u: Watcher)
    requires cur.Keys == s.Keys && {w, v, u} <= s.Keys && u != w && v != u && cur[w] == s[w]
    requires cur[u].pri == s[u].pri
    requires v == w || Behind(cur, s, v, u)
    requires cur[w].pending == 0 ==> forall x :: x in cur && x != w && cur[x].pri == cur[w].pri ==>
               cur[x].pending < c.pending
    ensures Behind(cur[w := c], s, v, u)
  {
  }

  /** What `timers_reify` promises, from the watchers before (`s`) to those after (`cur`): `due` are
      the due timers in the order of their times, no active timer is due any more, each due one was
      rescheduled or stopped and is pending with the timer event, the others are as before, and of two
      due timers of one priority the earlier one is in a later slot, unless it was pending already. */
  ghost predicate Reified(cur: map<Watcher, Snap>, s: map<Watcher, Snap>, due: seq<Watcher>, now: real) {
    && cur.Keys == s.Keys && (forall w :: w in due ==> w in s && Due(s[w], now)) &&
       (forall w :: w in s && Due(s[w], now) ==> w in due)
    && (forall i, j :: 0 <= i < j < |due| ==> due[i] != due[j] && s[due[i]].at <= s[due[j]].at)
    && (forall w :: w in cur ==> !Due(cur[w], now))
    && (forall w :: w in cur && w !in due ==> cur[w] == s[w])
    && (forall w :: w in due ==>
          cur[w].pending > 0 && cur[w] == FedSnap(ExpiredSnap(s[w], now), cur[w].pending, EV_TIMER))
    && (forall i, j :: 0 <= i < j < |due| && s[due[i]].pri == s[due[j]].pri ==>
          ExpiredSnap(s[due[i]], now).pending == 0 ==> cur[due[i]].pending > cur[due[j]].pending)
  }

  /** `due` are the due timers, each once, in the order of their times; each has had its round, the
      other watchers are as before, and no active timer is due any more. */
  ghost predicate Expired(cur: map<Watcher, Snap>, s: map<Watcher, Snap>, due: seq<Watcher>, now: real) {
    && cur.Keys == s.Keys && (forall w :: w in due ==> w in s && Due(s[w], now)) &&
       (forall w :: w in s && Due(s[w], now) ==> w in due)
    && (forall i, j :: 0 <= i < j < |due| ==> due[i] != due[j] && s[due[i]].at <= s[due[j]].at)
    && (forall w :: w in s ==> cur[w] == if w in due then ExpiredSnap(s[w], now) else s[w])
    && (forall w :: w in cur ==> !Due(cur[w], now))
  }

  lemma CollectEnd(cur: map<Watcher, Snap>, s: map<Watcher, Snap>, left: set<Watcher>, due: seq<Watcher>, now: real)
    requires Collecting(cur, s, left, due, now)
    requires forall v :: v in cur ==> !Due(cur[v], now)
    ensures Expired(cur, s, due, now)
  {
    hide ExpiredSnap;
  }

  ghost predicate OpsKnown(ops: seq<Op<Watcher>>, ws: set<Watcher>) {
    forall op :: op in ops && !op.Invoke? ==> op.w in ws
  }

  ghost predicate ScriptKnown(script: Script<Watcher>, ws: set<Watcher>) {
    forall ops :: ops in script ==> OpsKnown(ops, ws)
  }

  lemma ScriptHead(script: Script<Watcher>, ws: set<Watcher>)
    requires ScriptKnown(script, ws) && script != []
    ensures OpsKnown(script[0], ws) && ScriptKnown(script[1..], ws)
  {
  }

  lemma ScriptPart(script: Script<Watcher>, ws: set<Watcher>)
    requires ScriptKnown(script, ws)
    ensures forall rest :: LeftOf(script, rest) ==> ScriptKnown(rest, ws)
  {
  }

  function NoSlots(): Queues<Watcher> {
    [[], [], [], [], []]
  }

  class Loop {
    ghost const universe: set<Watcher>
    const pendingW: Watcher
    var pendings: Queues<Watcher>
    var pendingpri: nat
    ghost var history: seq<Event<Watcher>>
    var timers: array<Timer>
    var timercnt: nat
    var mnNow: real
    var activecnt: int

    /** A loop for any finite set of stopped watchers with legal priorities. */
    constructor (ghost watchers: set<Watcher>, dummy: Watcher)
      requires dummy !in watchers
      requires forall w :: w in watchers ==> MINPRI <= w.priority < MINPRI + NUMPRI && w.pending == 0 && w.active == 0
      ensures PendingOk() && universe == watchers && pendingW == dummy && pendings == NoSlots() && history == []
      ensures TimersOk() && fresh(timers) && timercnt == 0 && Active() == {}
    {
      timers := new Timer[HEAP0](_ => Entry(dummy, 0.0));
      timercnt, mnNow, activecnt := 0, 0.0, 0;
      universe := watchers;
      pendingW := dummy;
      pendings := NoSlots();
      pendingpri := 0;
      history := [];
    }

    function Pri(w: Watcher): int
      reads w`priority
    {
      w.priority - MINPRI
    }

    /** Slot `i` of queue `p` belongs to the dummy watcher or to the watcher pointing back to it. */
    ghost predicate SlotOk(p: nat, i: nat)
      reads this`pendings, universe`pending, universe`priority
      requires p < NUMPRI && i < |pendings[p]|
    {
      var w := pendings[p][i].w;
      w == pendingW || (w in universe && Pri(w) == p && w.pending == i + 1)
    }

    ghost predicate WatcherOk(w: Watcher)
      reads this`pendings, w`pending, w`priority
    {
      && 0 <= Pri(w) < NUMPRI
      && (w.pending > 0 ==> w.pending <= |pendings[Pri(w)]| && pendings[Pri(w)][w.pending - 1].w == w)
    }

    /** The queues are what the whole history of feeds, clears and calls made of the empty ones, and
        every event of it was possible. */
    ghost predicate HistoryOk()
      reads this`pendings, this`history
    {
      Legal(NoSlots(), history, pendingW) && Replay(NoSlots(), history, pendingW) == pendings
    }

    /** The pending queues and the watchers agree, nothing waits above `pendingpri`, and the history is right. */
    ghost predicate PendingOk()
      reads this`pendings, this`pendingpri, this`history, universe`pending, universe`priority
    {
      && pendingW !in universe
      && HistoryOk()
      && pendingpri <= NUMPRI
      && (forall p, i :: 0 <= p < NUMPRI && 0 <= i < |pendings[p]| ==> SlotOk(p, i))
      && (forall w :: w in universe ==> WatcherOk(w))
      && (forall p :: pendingpri < p < NUMPRI ==> pendings[p] == [])
    }

    /** The events `w` is pending with, 0 if it is not. */
    ghost function EventsOf(w: Watcher): bv32
      reads this`pendings, w`pending, w`priority
      requires WatcherOk(w)
    {
      if w.pending == 0 then 0 else pendings[Pri(w)][w.pending - 1].events
    }

    /** `ev_feed_event`: a pending watcher collects the events, another one is queued. */
    method FeedEvent(w: Watcher, revents: bv32)
      requires PendingOk() && w in universe
      modifies this`pendings, this`pendingpri, this`history, w`pending
      ensures PendingOk() && pendingpri == NUMPRI - 1 && w.pending > 0
      ensures history == old(history) + [Fed(w, Pri(w), revents)] &&
              pendings == After(old(pendings), Fed(w, Pri(w), revents), pendingW)
      ensures EventsOf(w) == Or(old(EventsOf(w)), revents)
      ensures forall b :: Has(EventsOf(w), b) <==> Has(old(EventsOf(w)), b) || Has(revents, b)
      ensures forall v :: v in universe && v != w ==> EventsOf(v) == old(EventsOf(v))
      ensures old(w.pending) == 0 ==>
                pendings == old(pendings)[Pri(w) := old(pendings[Pri(w)]) + [Slot(w, revents)]]
      ensures old(w.pending) > 0 ==>
                w.pending == old(w.pending) &&
                pendings == old(pendings)[Pri(w) := old(pendings[Pri(w)])[w.pending - 1 := Slot(w, EventsOf(w))]]
    {
      hide Or, Has, Legal, Replay, PendingOk, HistoryOk, SlotOk;
      PendingParts(w);
      OrBits(EventsOf(w), revents);
      SlotPlace(w);
      var pri := Pri(w);
      ghost var q := pendings;
      var queue := pendings[pri];
      OrZero(revents);
      if w.pending > 0 {
        var slot := queue[w.pending - 1];
        pendings := pendings[pri := queue[w.pending - 1 := slot.(events := Or(slot.events, revents))]];
      } else {
        w.pending := |queue| + 1;
        pendings := pendings[pri := queue + [Slot(w, revents)]];
      }
      pendingpri := NUMPRI - 1;
      history := history + [Fed(w, pri, revents)];
      HistoryStep(old(history), q, Fed(w, pri, revents));
      FedOk(w);
    }

    lemma PendingParts(w: Watcher)
      requires PendingOk() && w in universe
      ensures HistoryOk() && WatcherOk(w) && w != pendingW
    {
    }

    /** Only the watcher and its slot changed, which is a new last one if it was not pending. */
    twostate lemma FedOk(w: Watcher)
      requires old(PendingOk()) && HistoryOk() && pendingpri == NUMPRI - 1 && w in universe
      requires forall v :: v in universe ==> v.priority == old(v.priority) && (v != w ==> v.pending == old(v.pending))
      requires old(WatcherOk(w)) && w.pending == if old(w.pending) == 0 then old(|pendings[Pri(w)]|) + 1
               else old(w.pending)
      requires 0 <= Pri(w) < NUMPRI && 0 < w.pending <= |pendings[Pri(w)]| && pendings[Pri(w)][w.pending - 1].w == w
      requires var slot := pendings[Pri(w)][w.pending - 1];
               pendings == old(pendings)[Pri(w) := if old(w.pending) == 0 then old(pendings[Pri(w)]) + [slot]
                                                   else old(pendings[Pri(w)])[w.pending - 1 := slot]]
      ensures PendingOk() && forall v :: v in universe && v != w ==> EventsOf(v) == old(EventsOf(v))
    {
      hide HistoryOk;
      forall p, i | 0 <= p < NUMPRI && 0 <= i < |pendings[p]| ensures SlotOk(p, i) {
        assert i < |old(pendings)[p]| ==> old(SlotOk(p, i));
      }
      forall v | v in universe ensures WatcherOk(v) {
        assert old(WatcherOk(v));
      }
    }

    /** The slot of a watcher is the one found by search. */
    lemma SlotPlace(w: Watcher)
      requires PendingOk() && w in universe
      ensures 0 <= Pri(w) < NUMPRI && PosOf(pendings[Pri(w)], w) == if w.pending > 0 then w.pending - 1
              else |pendings[Pri(w)]|
      ensures EventsIn(pendings[Pri(w)], w) == EventsOf(w)
    {
      assert WatcherOk(w);
      var queue := pendings[Pri(w)];
      forall j | 0 <= j < |queue| && queue[j].w == w ensures w.pending == j + 1 {
        assert SlotOk(Pri(w), j);
      }
    }

    /** The history `h` that made the queues `q` goes on with one more event, possible there. */
    lemma HistoryStep(h: seq<Event<Watcher>>, q: Queues<Watcher>, e: Event<Watcher>)
      requires Legal(NoSlots(), h, pendingW) && Replay(NoSlots(), h, pendingW) == q && Possible(q, e, pendingW)
      requires history == h + [e] && pendings == After(q, e, pendingW)
      ensures HistoryOk()
    {
      LegalNext(NoSlots(), h, e, pendingW);
    }

    lemma OrBits(a: bv32, c: bv32)
      ensures forall b :: Has(Or(a, c), b) <==> Has(a, b) || Has(c, b)
    {
      hide Or, Has;
      forall b ensures Has(Or(a, c), b) <==> Has(a, b) || Has(c, b) {
        OrHas(a, c, b);
      }
    }

    lemma OrZero(e: bv32)
      ensures Or(0, e) == e
    {
    }

    /** `ev_clear_pending`: the slot is left to the dummy watcher. */
    method ClearPending(w: Watcher) returns (events: bv32)
      requires PendingOk() && w in universe
      modifies this`pendings, this`history, w`pending
      ensures PendingOk() && w.pending == 0
      ensures events == old(EventsOf(w)) == EventsIn(old(pendings)[Pri(w)], w) &&
              history == old(history) + [Cleared(w, Pri(w), events)]
      ensures pendings == After(old(pendings), Cleared(w, Pri(w), events), pendingW)
      ensures forall v :: v in universe && v != w ==> EventsOf(v) == old(EventsOf(v)) && v.pending == old(v.pending)
      ensures forall p :: 0 <= p < NUMPRI ==> |pendings[p]| == |old(pendings)[p]|
      ensures old(w.pending) == 0 ==> pendings == old(pendings)
      ensures old(w.pending) > 0 ==>
                pendings == old(pendings)[Pri(w) := old(pendings[Pri(w)])[old(w.pending) - 1 := Slot(pendingW, events)]]
    {
      hide Legal, Replay, PendingOk, HistoryOk, SlotOk;
      PendingParts(w);
      SlotPlace(w);
      events := 0;
      ghost var q := pendings;
      if w.pending > 0 {
        var pri, i := Pri(w), w.pending - 1;
        events := pendings[pri][i].events;
        pendings := pendings[pri := pendings[pri][i := Slot(pendingW, events)]];
        w.pending := 0;
      }
      history := history + [Cleared(w, Pri(w), events)];
      HistoryStep(old(history), q, Cleared(w, Pri(w), events));
      ClearedOk(w);
    }

    twostate lemma ClearedOk(w: Watcher)
      requires old(PendingOk()) && HistoryOk() && pendingpri == old(pendingpri) && w in universe && w.pending == 0
      requires forall v :: v in universe ==> v.priority == old(v.priority) && (v != w ==> v.pending == old(v.pending))
      requires old(WatcherOk(w))
      requires pendings == if old(w.pending) == 0 then old(pendings)
                           else old(pendings)[Pri(w) := old(pendings[Pri(w)])[old(w.pending) - 1 := Slot(pendingW,
                                 old(EventsOf(w)))]]
      ensures PendingOk() && forall v :: v in universe && v != w ==> EventsOf(v) == old(EventsOf(v))
    {
      hide HistoryOk;
      forall p, j | 0 <= p < NUMPRI && 0 <= j < |pendings[p]| ensures SlotOk(p, j) {
        assert old(SlotOk(p, j));
      }
      forall v | v in universe ensures WatcherOk(v) {
        assert old(WatcherOk(v));
      }
    }

    /** The inner step of `ev_invoke_pending`: the event taken has the highest nonempty priority. */
    method TakePending() returns (w: Watcher, events: bv32)
      requires PendingOk() && pendingpri < NUMPRI && pendings[pendingpri] != []
      modifies this`pendings, this`history, universe`pending, pendingW`pending
      ensures PendingOk() && pendingpri == old(pendingpri)
      ensures history == old(history) + [Called(w, pendingpri, events)]
      ensures Slot(w, events) == old(pendings[pendingpri][|pendings[pendingpri]| - 1])
      ensures pendings == Pops(old(pendings), pendingpri)
      ensures forall p :: pendingpri < p < NUMPRI ==> old(pendings)[p] == []
      ensures w.pending == 0 && (w == pendingW || (w in universe && Pri(w) == pendingpri && events == old(EventsOf(w))))
      ensures forall v :: v in universe && v != w ==> EventsOf(v) == old(EventsOf(v)) && v.pending == old(v.pending)
    {
      hide Legal, Replay, PendingOk, HistoryOk, SlotOk, EventsOf;
      ghost var q := pendings;
      var queue := pendings[pendingpri];
      var last := queue[|queue| - 1];
      LastOk();
      pendings := pendings[pendingpri := queue[..|queue| - 1]];
      last.w.pending := 0;
      w, events := last.w, last.events;
      history := history + [Called(w, pendingpri, events)];
      HistoryStep(old(history), q, Called(w, pendingpri, events));
      TakenOk(w);
    }

    lemma LastOk()
      requires PendingOk() && pendingpri < NUMPRI && pendings[pendingpri] != []
      ensures HistoryOk() && forall p :: pendingpri < p < NUMPRI ==> pendings[p] == []
      ensures var slot := pendings[pendingpri][|pendings[pendingpri]| - 1];
              slot.w == pendingW || (slot.w in universe && Pri(slot.w) == pendingpri && WatcherOk(slot.w) &&
                                     slot.w.pending == |pendings[pendingpri]| && EventsOf(slot.w) == slot.events)
    {
      var i := |pendings[pendingpri]| - 1;
      assert SlotOk(pendingpri, i);
      assert pendings[pendingpri][i].w in universe ==> WatcherOk(pendings[pendingpri][i].w);
    }

    twostate lemma TakenOk(w: Watcher)
      requires old(PendingOk()) && HistoryOk() && pendingpri == old(pendingpri) < NUMPRI && w.pending == 0
      requires old(pendings[pendingpri]) != []
      requires forall v :: v in universe ==> v.priority == old(v.priority) && (v != w ==> v.pending == old(v.pending))
      requires pendings[pendingpri] == old(pendings[pendingpri][..|pendings[pendingpri]| - 1])
      requires pendings == old(pendings)[pendingpri := pendings[pendingpri]]
      requires w == old(pendings[pendingpri][|pendings[pendingpri]| - 1].w)
      ensures PendingOk() && forall v :: v in universe && v != w ==> EventsOf(v) == old(EventsOf(v))
    {
      hide HistoryOk;
      assert old(SlotOk(pendingpri, |pendings[pendingpri]| - 1));
      forall p, j | 0 <= p < NUMPRI && 0 <= j < |pendings[p]| ensures SlotOk(p, j) {
        assert old(SlotOk(p, j));
      }
      forall v | v in universe ensures WatcherOk(v) {
        assert old(WatcherOk(v));
      }
    }

    /** The priorities of the watchers, counted from 0. */
    ghost function Pris(): map<Watcher, nat>
      reads universe`priority
    {
      map w | w in universe :: if Pri(w) >= 0 then Pri(w) else 0
    }

    /** From the history `h0` and the queues `q0` the run went as `Driven` says. */
    ghost predicate Ran(h0: seq<Event<Watcher>>, q0: Queues<Watcher>, script: Script<Watcher>, rest: Script<Watcher>)
      reads this`pendings, this`history, universe`priority
    {
      Went(h0, Driven(q0, script, Pris(), pendingW), rest)
    }

    ghost predicate Went(h0: seq<Event<Watcher>>, o: Outcome<Watcher>, rest: Script<Watcher>)
      reads this`pendings, this`history
    {
      history == h0 + o.events && pendings == o.queues && rest == o.rest
    }

    /** Midway through a run: `done` was done since the history `h0`, and the rest is still to come. */
    ghost predicate Running(h0: seq<Event<Watcher>>, o: Outcome<Watcher>, done: seq<Event<Watcher>>,
                            rest: Script<Watcher>)
      reads this`pendings, this`history, universe`priority
    {
      history == h0 + done && o == Before(done, Driven(pendings, rest, Pris(), pendingW))
    }

    lemma RunningStart(script: Script<Watcher>)
      ensures Running(history, Driven(pendings, script, Pris(), pendingW), [], script)
    {
      BeforeBefore([], [], Driven(pendings, script, Pris(), pendingW));
    }

    lemma RunningOn(h0: seq<Event<Watcher>>, h: seq<Event<Watcher>>, o: Outcome<Watcher>, o': Outcome<Watcher>,
                    done: seq<Event<Watcher>>, more: seq<Event<Watcher>>, rest: Script<Watcher>)
      requires h == h0 + done && o == Before(done, o') && Running(h, o', more, rest)
      ensures Running(h0, o, done + more, rest)
    {
      BeforeBefore(done, more, Driven(pendings, rest, Pris(), pendingW));
    }

    lemma RunningEnd(h0: seq<Event<Watcher>>, q0: Queues<Watcher>, script: Script<Watcher>, done: seq<Event<Watcher>>,
                     rest: Script<Watcher>)
      requires Running(h0, Driven(q0, script, Pris(), pendingW), done, rest) && pendings == NoSlots()
      ensures Ran(h0, q0, script, rest)
    {
      DrivenDone(pendings, rest, Pris(), pendingW);
    }

    lemma LeftTwice(a: Script<Watcher>, b: Script<Watcher>, c: Script<Watcher>)
      requires LeftOf(a, b) && LeftOf(b, c)
      ensures LeftOf(a, c)
    {
    }

    /** `ev_invoke_pending`, with callbacks doing what `script` says while it lasts: everything happens as
        `Driven` says, in that order; every event of the history is possible, all that was ever fed is
        settled, and all queues are empty on return. */
    method InvokePending(script: Script<Watcher>) returns (rest: Script<Watcher>)
      requires PendingOk() && ScriptKnown(script, universe)
      modifies this`pendings, this`pendingpri, this`history, universe`pending, pendingW`pending
      ensures PendingOk() && pendingpri == 0 && pendings == NoSlots()
      ensures forall w :: w in universe ==> w.pending == 0
      ensures Ran(old(history), old(pendings), script, rest) && LeftOf(script, rest)
      ensures forall i :: 0 <= i < |history| && history[i].Fed? ==> SettledAfter(history, i)
      ensures script == [] ==> history == old(history) + Drained(old(pendings))
      decreases |script|, 3
    {
      hide SlotOk, WatcherOk, LeftOf, HistoryOk, Drained, ScriptKnown, Running, Ran, Driven;
      ScriptPart(script, universe);
      ghost var h0, q0, o := history, pendings, Driven(pendings, script, Pris(), pendingW);
      RunningStart(script);
      LeftAll(script);
      rest := script;
      ghost var done: seq<Event<Watcher>> := [];
      pendingpri := NUMPRI;
      while pendingpri > 0
        invariant PendingOk() && LeftOf(script, rest) && ScriptKnown(rest, universe)
        invariant pendingpri == 0 ==> pendings[0] == []
        invariant Running(h0, o, done, rest)
        invariant pendingpri < NUMPRI ==> pendings[pendingpri] == []
        decreases |rest|, Total(pendings), pendingpri
      {
        pendingpri := pendingpri - 1;
        ghost var rest0, total0, pri0 := |rest|, Total(pendings), pendingpri;
        while pendings[pendingpri] != []
          invariant PendingOk() && LeftOf(script, rest) && ScriptKnown(rest, universe) && pendingpri < NUMPRI
          invariant Running(h0, o, done, rest)
          invariant |rest| < rest0 || (|rest| == rest0 && Total(pendings) < total0) ||
                    (|rest| == rest0 && Total(pendings) == total0 && pendingpri == pri0)
          decreases |rest|, Total(pendings)
        {
          ghost var left := rest;
          rest, done := InvokeOne(rest, h0, o, done);
          LeftTwice(script, left, rest);
          ScriptPart(script, universe);
        }
      }
      NobodyPending();
      HistorySettled();
      RunningEnd(h0, q0, script, done, rest);
      if script == [] { RanByNothing(h0, q0, rest); }
    }

    lemma LeftAll(script: Script<Watcher>)
      ensures LeftOf(script, script)
    {
    }

    lemma RanByNothing(h0: seq<Event<Watcher>>, q0: Queues<Watcher>, rest: Script<Watcher>)
      requires Ran(h0, q0, [], rest)
      ensures history == h0 + Drained(q0)
    {
      hide Drained, Driven;
      DrivenByNothing(q0, Pris(), pendingW);
    }

    lemma HistorySettled()
      requires HistoryOk() && pendings == NoSlots()
      ensures forall i :: 0 <= i < |history| && history[i].Fed? ==> SettledAfter(history, i)
    {
      EveryFeedSettled(NoSlots(), history, pendingW);
    }

    /** One callback: that of the dummy watcher does nothing. */
    method InvokeOne(rest: Script<Watcher>, ghost h0: seq<Event<Watcher>>, ghost o: Outcome<Watcher>,
                     ghost done: seq<Event<Watcher>>)
      returns (rest': Script<Watcher>, ghost done': seq<Event<Watcher>>)
      requires PendingOk() && ScriptKnown(rest, universe) && pendingpri < NUMPRI && pendings[pendingpri] != []
      requires Running(h0, o, done, rest)
      modifies this`pendings, this`pendingpri, this`history, universe`pending, pendingW`pending
      ensures PendingOk() && LeftOf(rest, rest') && pendingpri < NUMPRI
      ensures Running(h0, o, done', rest')
      ensures |rest'| < |rest| ||
              (rest' == rest && Total(pendings) < Total(old(pendings)) && pendingpri == old(pendingpri))
      decreases |rest|, 2
    {
      hide PendingOk, HistoryOk, SlotOk, WatcherOk, EventsOf, ScriptKnown, Driven, Performed;
      LastOk();
      PopsLess(pendings, pendingpri);
      DrivenStep(pendings, pendingpri, rest, Pris(), pendingW);
      ghost var h, o' := history, Driven(pendings, rest, Pris(), pendingW);
      var w, events := TakePending();
      ghost var call := history[|h|];
      rest' := rest;
      if w != pendingW && rest != [] {
        ScriptHead(rest, universe);
        ghost var ran := Performed(pendings, rest[0], rest[1..], Pris(), pendingW);
        rest' := RunOps(rest[0], rest[1..]);
        assert history == h + ([call] + ran.events);
        RunningOn(h0, h, o, o', done, [call] + ran.events, rest');
        done' := done + ([call] + ran.events);
      } else {
        RunningOn(h0, h, o, o', done, [call], rest');
        done' := done + [call];
      }
    }

    lemma NobodyPending()
      requires PendingOk() && forall p :: 0 <= p < NUMPRI ==> pendings[p] == []
      ensures forall w :: w in universe ==> w.pending == 0
    {
      forall w | w in universe ensures w.pending == 0 {
        assert WatcherOk(w);
      }
    }

    /** One operation of a callback. */
    method RunOp(op: Op<Watcher>, script: Script<Watcher>) returns (rest: Script<Watcher>)
      requires PendingOk() && pendingpri < NUMPRI && (op.Invoke? || op.w in universe) && ScriptKnown(script, universe)
      modifies this`pendings, this`pendingpri, this`history, universe`pending, pendingW`pending
      ensures PendingOk() && pendingpri < NUMPRI && LeftOf(script, rest)
      ensures Went(old(history), Operated(old(pendings), op, script, Pris(), pendingW), rest)
      decreases |script|, 4
    {
      hide PendingOk, HistoryOk, SlotOk, WatcherOk, EventsOf, Driven, After, EventsIn;
      LeftAll(script);
      rest := script;
      match op {
        case Feed(w, revents) =>
          KnownPri(w);
          FeedEvent(w, revents);
        case Clear(w) =>
          KnownPri(w);
          var _ := ClearPending(w);
        case Invoke =>
          rest := InvokePending(script);
      }
    }

    /** The body of one callback does its operations in their order. */
    method RunOps(ops: seq<Op<Watcher>>, script: Script<Watcher>) returns (rest: Script<Watcher>)
      requires PendingOk() && pendingpri < NUMPRI && OpsKnown(ops, universe) && ScriptKnown(script, universe)
      modifies this`pendings, this`pendingpri, this`history, universe`pending, pendingW`pending
      ensures PendingOk() && pendingpri < NUMPRI && LeftOf(script, rest)
      ensures Went(old(history), Performed(old(pendings), ops, script, Pris(), pendingW), rest)
      decreases |script|, 5
    {
      hide PendingOk, Performed, Operated, ScriptKnown, LeftOf;
      ghost var h0, o := history, Performed(pendings, ops, script, Pris(), pendingW);
      ghost var done: seq<Event<Watcher>> := [];
      BeforeBefore([], [], o);
      assert ops[0..] == ops;
      LeftAll(script);
      rest := script;
      var k := 0;
      while k < |ops|
        invariant 0 <= k <= |ops| && PendingOk() && pendingpri < NUMPRI && LeftOf(script, rest)
        invariant history == h0 + done && o == Before(done, Performed(pendings, ops[k..], rest, Pris(), pendingW))
        decreases |ops| - k
      {
        ghost var q, left, more := pendings, rest, Operated(pendings, ops[k], rest, Pris(), pendingW).events;
        PerformedStep(q, ops[k..], rest, Pris(), pendingW);
        LeftShorter(script, rest);
        ScriptPart(script, universe);
        rest := RunOp(ops[k], rest);
        assert ops[k..][1..] == ops[k + 1..];
        BeforeBefore(done, more, Performed(pendings, ops[k + 1..], rest, Pris(), pendingW));
        LeftTwice(script, left, rest);
        assert h0 + done + more == h0 + (done + more);
        done := done + more;
        k := k + 1;
      }
      assert ops[k..] == [] && done + [] == done;
      PerformedDone(pendings, rest, Pris(), pendingW);
    }

    lemma LeftShorter(script: Script<Watcher>, rest: Script<Watcher>)
      requires LeftOf(script, rest)
      ensures |rest| <= |script|
    {
    }

    lemma KnownPri(w: Watcher)
      requires PendingOk() && w in universe
      ensures 0 <= Pri(w) < NUMPRI && Pris()[w] == Pri(w)
    {
      assert WatcherOk(w);
    }

    // ---------- timers ----------

    /** The cached times are those of the watchers. */
    ghost predicate EntriesOk(h: seq<Timer>, n: nat)
      reads universe`at
      requires n + HEAP0 <= |h|
    {
      forall i :: HEAP0 <= i < n + HEAP0 ==> h[i].w in universe && h[i].w.at == h[i].at
    }

    /** The active watchers are exactly those in the heap. */
    ghost predicate Members(h: seq<Timer>, n: nat)
      reads universe`active
      requires n + HEAP0 <= |h|
    {
      forall w :: w in universe ==> (w.active > 0 <==> w in HeapWatchers(h, n))
    }

    ghost predicate TimersOk()
      reads this`timers, this`timercnt, timers, universe`active, universe`at
    {
      && timercnt + HEAP0 <= timers.Length
      && IsHeap(timers[..], timercnt)
      && EntriesOk(timers[..], timercnt)
      && (forall i :: HEAP0 <= i < timercnt + HEAP0 ==> timers[i].w.active == i)
      && Members(timers[..], timercnt)
    }

    ghost function Active(): set<Watcher>
      reads universe`active
    {
      set w | w in universe && w.active > 0
    }

    lemma TimersDistinct()
      requires TimersOk()
      ensures Distinct(timers[..], timercnt) && BackPointers(timers[..], timercnt, 0)
      ensures HeapWatchers(timers[..], timercnt) == Active()
      ensures HeapWatchers(timers[..], timercnt) <= universe
      ensures timercnt + HEAP0 <= timers.Length && EntriesOk(timers[..], timercnt) && IsHeap(timers[..], timercnt)
    {
    }

    lemma EntriesRearranged(h: seq<Timer>, v: seq<Timer>, n: nat)
      requires n + HEAP0 <= |h| && EntriesOk(h, n) && Rearranged(h, v, n)
      ensures EntriesOk(v, n)
    {
      forall i | HEAP0 <= i < n + HEAP0 ensures v[i].w in universe && v[i].w.at == v[i].at {
        var j := RearrangedMember(h, v, n, i);
      }
    }

    /** A position of the heap array determines the active watchers. */
    lemma ActiveIndex(w: Watcher)
      requires TimersOk() && w in universe && w.active > 0
      ensures HEAP0 <= w.active < timercnt + HEAP0 && timers[w.active].w == w
    {
      assert w in HeapWatchers(timers[..], timercnt);
    }

    /** After the in-place heap methods, the loop invariant is back. */
    lemma TimersRestored(h: seq<Timer>)
      requires timercnt + HEAP0 <= timers.Length && timers.Length == |h|
      requires IsHeap(timers[..], timercnt) && Rearranged(h, timers[..], timercnt) &&
               BackPointers(timers[..], timercnt, 0)
      requires EntriesOk(h, timercnt)
      requires forall w :: w in universe && w !in HeapWatchers(h, timercnt) ==> w.active == 0
      ensures TimersOk() && Active() == HeapWatchers(h, timercnt)
    {
      hide Rearranged, IsHeap;
      EntriesRearranged(h, timers[..], timercnt);
      SameWatchers(h, timers[..], timercnt);
    }

    /** `array_needsize`. */
    method NeedSize(cnt: nat)
      modifies this`timers
      ensures timers.Length >= cnt && timers.Length >= old(timers.Length)
      ensures timers == old(timers) || fresh(timers)
      ensures forall i :: 0 <= i < old(timers.Length) ==> timers[i] == old(timers[i])
    {
      if cnt > timers.Length {
        var a := new Timer[2 * cnt](_ => Entry(pendingW, 0.0));
        forall i | 0 <= i < timers.Length {
          a[i] := timers[i];
        }
        timers := a;
      }
    }

    /** `ev_timer_start`. */
    method TimerStart(w: Watcher)
      requires TimersOk() && w in universe && w.repeat >= 0.0
      modifies this`timers, this`timercnt, this`activecnt, timers, universe`active, w`at
      ensures TimersOk() && (timers == old(timers) || fresh(timers))
      ensures Active() == old(Active()) + {w}
      ensures old(w.active) > 0 ==> w.at == old(w.at) && activecnt == old(activecnt)
      ensures old(w.active) == 0 ==> w.at == old(w.at) + mnNow && activecnt == old(activecnt) + 1
    {
      hide Rearranged, Up, IsHeap, Distinct, HeapWatchers, TimersOk;
      if w.active > 0 {
        return;
      }
      ghost var h0, n := timers[..], timercnt;
      TimersDistinct();
      w.at := w.at + mnNow;
      assert EntriesOk(h0, n);
      hide EntriesOk;
      timercnt := timercnt + 1;
      w.active, activecnt := timercnt + HEAP0 - 1, activecnt + 1;
      NeedSize(w.active + 1);
      timers[w.active] := Entry(w, w.at);
      ghost var h := timers[..];
      assert h[..n + HEAP0] == h0[..n + HEAP0];
      StartedHeap(h0, h, n, w);
      StartedEntries(h0, h, n, w);
      UpHeap(timers, w.active, timercnt);
      TimersRestored(h);
    }

    lemma StartedEntries(h0: seq<Timer>, h: seq<Timer>, n: nat, w: Watcher)
      requires n + HEAP0 <= |h0| && n + 1 + HEAP0 <= |h| && h[..n + HEAP0] == h0[..n + HEAP0]
      requires EntriesOk(h0, n) && w in universe && h[n + HEAP0] == Entry(w, w.at)
      ensures EntriesOk(h, n + 1)
    {
      assert forall i :: 0 <= i < n + HEAP0 ==> h[i] == h[..n + HEAP0][i] && h0[i] == h0[..n + HEAP0][i];
    }

    lemma StartedHeap(h0: seq<Timer>, h: seq<Timer>, n: nat, w: Watcher)
      requires n + HEAP0 <= |h0| && n + 1 + HEAP0 <= |h| && h[..n + HEAP0] == h0[..n + HEAP0]
      requires IsHeap(h0, n) && Distinct(h0, n) && w !in HeapWatchers(h0, n) && h[n + HEAP0].w == w
      ensures Distinct(h, n + 1) && HeapWatchers(h, n + 1) == HeapWatchers(h0, n) + {w}
      ensures |Up(h, n + HEAP0)| == |h| && IsHeap(Up(h, n + HEAP0), n + 1)
    {
      assert forall i :: 0 <= i < n + HEAP0 ==> h[i] == h[..n + HEAP0][i] && h0[i] == h0[..n + HEAP0][i];
      assert HeapWatchers(h, n) == HeapWatchers(h0, n);
      EntryAppended(h, n, h[n + HEAP0]);
      ReheapStep(h, n);
    }

    /** The array part of `ev_timer_stop`: the last entry takes the place of the stopped one. */
    method LeaveHeap(w: Watcher)
      requires TimersOk() && w in universe && w.active > 0
      modifies this`timercnt, timers, universe`active
      ensures TimersOk() && Active() == old(Active()) - {w}
    {
      hide Rearranged, Adjust, IsHeap, Distinct, HeapWatchers;
      TimersDistinct();
      ActiveIndex(w);
      var active := w.active;
      ghost var h0, n := timers[..], timercnt;
      timercnt := timercnt - 1;
      w.active := 0;
      StoppedHeap(h0, n, active);
      if active < timercnt + HEAP0 {
        timers[active] := timers[timercnt + HEAP0];
        ghost var h := timers[..];
        assert h == h0[active := h0[n - 1 + HEAP0]];
        AdjustHeap(timers, timercnt, active);
        TimersRestored(h);
      } else {
        Unchanged(h0, timercnt);
        TimersRestored(h0);
      }
    }

    lemma StoppedHeap(h: seq<Timer>, n: nat, k: nat)
      requires 0 < n && n + HEAP0 <= |h| && IsHeap(h, n) && Distinct(h, n) && HEAP0 <= k < n + HEAP0
      ensures IsHeap(h, n - 1)
      ensures k == n - 1 + HEAP0 ==> HeapWatchers(h, n - 1) == HeapWatchers(h, n) - {h[k].w}
      ensures k < n - 1 + HEAP0 ==>
                var s := h[k := h[n - 1 + HEAP0]];
                Distinct(s, n - 1) && HeapWatchers(s, n - 1) == HeapWatchers(h, n) - {h[k].w} &&
                |Adjust(s, n - 1, k)| == |h| && IsHeap(Adjust(s, n - 1, k), n - 1)
    {
      hide HeapWatchers, Adjust;
      HeapPrefix(h, n);
      if k < n - 1 + HEAP0 {
        LastReplaces(h, n, k);
        AdjustOrders(h, n - 1, k, h[n - 1 + HEAP0]);
      }
    }

    /** `ev_timer_stop`. */
    method TimerStop(w: Watcher)
      requires TimersOk() && PendingOk() && w in universe
      modifies this`timercnt, this`activecnt, this`pendings, this`history, timers, universe`active, w`at, w`pending
      ensures TimersOk() && PendingOk() && Active() == old(Active()) - {w}
      ensures w.pending == 0
      ensures forall v :: v in universe && v != w ==> EventsOf(v) == old(EventsOf(v)) && v.pending == old(v.pending)
      ensures old(w.active) > 0 ==> w.at == old(w.at) - mnNow && activecnt == old(activecnt) - 1
      ensures old(w.active) == 0 ==> w.at == old(w.at) && activecnt == old(activecnt)
    {
      hide PendingOk, TimersOk, WatcherOk, EventsOf;
      var _ := ClearPending(w);
      if w.active == 0 {
        return;
      }
      LeaveHeap(w);
      SetStoppedTime(w, w.at - mnNow);
      activecnt := activecnt - 1;
    }

    /** A new time for an active timer, and its move to where that belongs. */
    method Retime(w: Watcher, at: real)
      requires TimersOk() && w in universe && w.active > 0
      modifies timers, universe`active, w`at
      ensures TimersOk() && Active() == old(Active()) && w.at == at
    {
      hide Rearranged, Adjust, IsHeap, Distinct, HeapWatchers;
      TimersDistinct();
      ActiveIndex(w);
      ghost var h0 := timers[..];
      w.at := at;
      timers[w.active] := Entry(timers[w.active].w, w.at);
      ghost var h := timers[..];
      assert h == h0[w.active := Entry(w, at)];
      EntryChanged(h0, timercnt, w.active, Entry(w, at));
      AdjustOrders(h0, timercnt, w.active, Entry(w, at));
      AdjustHeap(timers, timercnt, w.active);
      TimersRestored(h);
    }

    /** The time of a stopped timer is free to change. */
    method SetStoppedTime(w: Watcher, at: real)
      requires TimersOk() && w in universe && w.active == 0
      modifies w`at
      ensures TimersOk() && w.at == at
    {
      hide IsHeap, HeapWatchers;
      w.at := at;
    }

    /** `ev_timer_again`: restart a repeating timer, stop another one. */
    method TimerAgain(w: Watcher)
      requires TimersOk() && PendingOk() && w in universe && w.repeat >= 0.0
      modifies this`timers, this`timercnt, this`activecnt, this`pendings, this`history, timers, universe`active, w`at,
               w`pending
      ensures TimersOk() && PendingOk() && w.pending == 0
      ensures w.repeat > 0.0 ==> Active() == old(Active()) + {w} && w.at == mnNow + w.repeat
      ensures w.repeat == 0.0 ==> Active() == old(Active()) - {w}
      ensures w.repeat == 0.0 && old(w.active) > 0 ==> w.at == old(w.at) - mnNow
      ensures w.repeat == 0.0 && old(w.active) == 0 ==> w.at == old(w.at)
    {
      hide PendingOk, WatcherOk, TimersOk, EventsOf;
      var _ := ClearPending(w);
      if w.active > 0 {
        if w.repeat != 0.0 {
          Retime(w, mnNow + w.repeat);
        } else {
          TimerStop(w);
        }
      } else if w.repeat != 0.0 {
        SetStoppedTime(w, w.repeat);
        TimerStart(w);
      }
    }

    /** `timers_reschedule`: a uniform shift keeps the heap. */
    method TimersReschedule(adjust: real)
      requires TimersOk()
      modifies timers, universe`at
      ensures TimersOk() && Active() == old(Active())
      ensures forall w :: w in universe ==> w.at == if w in Active() then old(w.at) + adjust else old(w.at)
    {
      hide HeapWatchers, Parent;
      ghost var h := timers[..];
      forall w | w in universe && w.active > 0 ensures HEAP0 <= w.active < timercnt + HEAP0 && h[w.active].w == w {
        ActiveIndex(w);
      }
      var i := 0;
      while i < timercnt
        invariant 0 <= i <= timercnt
        invariant forall j :: 0 <= j < timers.Length ==>
          timers[j] == if HEAP0 <= j < i + HEAP0 then Entry(h[j].w, h[j].at + adjust) else h[j]
        invariant forall w :: w in universe ==>
                    w.at == if 0 < w.active < i + HEAP0 then old(w.at) + adjust else old(w.at)
      {
        var k := i + HEAP0;
        timers[k].w.at := timers[k].w.at + adjust;
        timers[k] := Entry(timers[k].w, timers[k].w.at);
        i := i + 1;
      }
      SameEntries(h, timers[..], timercnt);
    }

    lemma SameEntries(h: seq<Timer>, v: seq<Timer>, n: nat)
      requires n + HEAP0 <= |h| == |v| && forall i :: HEAP0 <= i < n + HEAP0 ==> h[i].w == v[i].w
      ensures HeapWatchers(h, n) == HeapWatchers(v, n)
    {
    }

    /** The root timer is a due one that is earliest. */
    lemma RootIsEarliest()
      requires TimersOk() && timercnt > 0
      ensures timercnt + HEAP0 <= timers.Length
      ensures var w := timers[HEAP0].w; w in Active() && w.at == timers[HEAP0].at
      ensures forall v :: v in Active() ==> timers[HEAP0].w.at <= v.at
    {
      forall v | v in Active() ensures timers[HEAP0].w.at <= v.at {
        ActiveIndex(v);
        RootIsLeast(timers[..], timercnt, v.active);
      }
    }

    ghost function SnapOf(w: Watcher): Snap
      reads this`pendings, this`history, w
      requires WatcherOk(w)
    {
      Snap(w.at, w.repeat, Pri(w), w.pending, w.active > 0, EventsOf(w))
    }

    ghost function Snaps(): map<Watcher, Snap>
      reads this`pendings, this`pendingpri, this`history, universe
      requires PendingOk()
    {
      map w | w in universe :: SnapOf(w)
    }

    lemma SnapsActive(w: Watcher)
      requires PendingOk() && w in universe
      ensures Snaps()[w].active <==> w in Active()
      ensures Snaps()[w].at == w.at && Snaps()[w].pending == w.pending && Snaps()[w].pri == Pri(w)
      ensures WatcherOk(w) && Snaps()[w].events == EventsOf(w)
    {
    }

    lemma SnapsAre()
      requires PendingOk()
      ensures Snaps().Keys == universe && forall w :: w in universe ==>
                WatcherOk(w) && Snaps()[w] == Snap(w.at, w.repeat, Pri(w), w.pending, w in Active(), EventsOf(w)) &&
                (w.pending == 0 ==> EventsOf(w) == 0)
    {
    }

    lemma ActiveKnown()
      ensures Active() <= universe
      ensures forall w :: w in universe ==> (w in Active() <==> w.active > 0)
    {
    }

    /** One round of `timers_reify`: the due timer at the root is rescheduled past now, or stopped. */
    method ExpireRoot() returns (w: Watcher)
      requires TimersOk() && PendingOk() && timercnt > 0 && timers[HEAP0].at < mnNow
      requires timers[HEAP0].w.repeat >= 0.0
      modifies this`timercnt, this`activecnt, this`pendings, this`history, timers, universe`active, universe`at,
               universe`pending
      ensures TimersOk() && PendingOk()
      ensures w in universe && old(Snaps())[w].active && old(Snaps())[w].at < mnNow
      ensures forall v :: v in universe && old(Snaps())[v].active ==> old(Snaps())[w].at <= old(Snaps())[v].at
      ensures Snaps() == old(Snaps())[w := ExpiredSnap(old(Snaps())[w], mnNow)]
      ensures w.repeat > 0.0 ==>
                w.active > 0 && w.at == (if old(w.at) + w.repeat < mnNow then mnNow else old(w.at) + w.repeat) &&
                w.pending == old(w.pending)
      ensures w.repeat == 0.0 ==> w.active == 0 && w.at == old(w.at) - mnNow && w.pending == 0
      ensures forall v :: v in universe && v != w ==>
                v.at == old(v.at) && v.pending == old(v.pending) && (v.active > 0 <==> old(v.active) > 0)
    {
      hide PendingOk, TimersOk, WatcherOk, EventsOf, SnapOf, Snaps, Active, ExpiredSnap, Pri;
      RootIsEarliest();
      w := timers[HEAP0].w;
      ghost var s := Snaps();
      SnapsAre();
      ActiveKnown();
      ExpiredIs(s[w], mnNow);
      ExpiredPri(s[w], mnNow);
      if w.repeat != 0.0 {
        Repeat(w);
      } else {
        StopDue(w);
      }
      SnapsAre();
      ActiveKnown();
      assert forall v :: v in universe && v != w ==> Snaps()[v] == s[v];
    }

    /** The two statements for a repeating timer. */
    method Repeat(w: Watcher)
      requires TimersOk() && PendingOk() && w in universe && w.active > 0 && w.repeat > 0.0
      modifies timers, universe`active, w`at
      ensures TimersOk() && PendingOk() && Snaps() == old(Snaps())[w := ExpiredSnap(old(Snaps())[w], mnNow)]
      ensures w.active > 0 && w.at == if old(w.at) + w.repeat < mnNow then mnNow else old(w.at) + w.repeat
    {
      hide PendingOk, TimersOk, WatcherOk, EventsOf, SnapOf, Snaps, Active, ExpiredSnap, Pri;
      ghost var s := Snaps();
      SnapsAre();
      ActiveKnown();
      ExpiredIs(s[w], mnNow);
      ExpiredPri(s[w], mnNow);
      Retime(w, Later(w.at + w.repeat, mnNow));
      SnapsAre();
      ActiveKnown();
      assert forall v :: v in universe ==> Snaps()[v] == s[w := ExpiredSnap(s[w], mnNow)][v];
    }

    method StopDue(w: Watcher)
      requires TimersOk() && PendingOk() && w in universe && w.active > 0 && w.repeat == 0.0
      modifies this`timercnt, this`activecnt, this`pendings, this`history, timers, universe`active, w`at, w`pending
      ensures TimersOk() && PendingOk() && Snaps() == old(Snaps())[w := ExpiredSnap(old(Snaps())[w], mnNow)]
      ensures w.active == 0 && w.at == old(w.at) - mnNow && w.pending == 0
    {
      hide PendingOk, TimersOk, WatcherOk, EventsOf, SnapOf, Snaps, Active, ExpiredSnap, Pri;
      ghost var s := Snaps();
      SnapsAre();
      ActiveKnown();
      ExpiredIs(s[w], mnNow);
      ExpiredPri(s[w], mnNow);
      TimerStop(w);
      SnapsAre();
      ActiveKnown();
      assert forall v :: v in universe ==> Snaps()[v] == s[w := ExpiredSnap(s[w], mnNow)][v];
    }

    /** The loop of `timers_reify`: it terminates, takes each due timer once and earliest first, and
        leaves no active timer that is due. */
    method CollectDue() returns (rfeeds: seq<Watcher>)
      requires TimersOk() && PendingOk() && forall w :: w in universe ==> w.repeat >= 0.0
      requires timercnt > 0 && timers[HEAP0].at < mnNow
      modifies this`timercnt, this`activecnt, this`pendings, this`history, timers, universe`active, universe`at,
               universe`pending
      ensures TimersOk() && PendingOk() && rfeeds != [] && Expired(Snaps(), old(Snaps()), rfeeds, mnNow)
    {
      hide PendingOk, WatcherOk, TimersOk, Collecting, Expired, ExpiredSnap, SnapOf, Snaps, EventsOf, Active;
      SnapsAre();
      rfeeds := [];
      ghost var left := universe;
      ghost var s := Snaps();
      CollectStart(s);
      assert s.Keys == universe;
      RootKnown();
      while true
        invariant TimersOk() && PendingOk() && timercnt > 0 && timercnt + HEAP0 <= timers.Length &&
                  timers[HEAP0].at < mnNow
        invariant timers[HEAP0].w in universe && Collecting(Snaps(), s, left, rfeeds, mnNow)
        decreases left
      {
        ghost var cur := Snaps();
        SnapsAre();
        var w := ExpireRoot();
        CollectStep(cur, s, left, rfeeds, mnNow, w);
        rfeeds := rfeeds + [w];
        left := left - {w};
        RootKnown();
        if !(timercnt > 0 && timers[HEAP0].at < mnNow) {
          break;
        }
      }
      SnapsAre();
      CollectEnd(Snaps(), s, left, rfeeds, mnNow);
    }

    lemma CollectStart(s: map<Watcher, Snap>)
      ensures Collecting(s, s, s.Keys, [], mnNow)
    {
    }

    lemma RootKnown()
      requires TimersOk() && PendingOk()
      ensures timercnt + HEAP0 <= timers.Length
      ensures timercnt > 0 ==> timers[HEAP0].w in universe
      ensures forall v :: v in universe && Snaps()[v].active ==> timercnt > 0 && timers[HEAP0].at <= Snaps()[v].at
    {
      TimersDistinct();
      if timercnt > 0 {
        RootIsEarliest();
      }
    }

    /** `feed_reverse_done`: the collected watchers are fed last to first. */
    method FeedReverseDone(rfeeds: seq<Watcher>, revents: bv32)
      requires PendingOk() && rfeeds != [] && forall w :: w in rfeeds ==> w in universe
      requires forall i, j :: 0 <= i < j < |rfeeds| ==> rfeeds[i] != rfeeds[j]
      modifies this`pendings, this`history, this`pendingpri, universe`pending
      ensures PendingOk() && Feeding(Snaps(), old(Snaps()), rfeeds, 0, revents)
    {
      hide PendingOk, WatcherOk, Feeding, FedSnap, SnapOf, Snaps, EventsOf;
      ghost var s := Snaps();
      SnapsAre();
      var k := |rfeeds|;
      FeedStart(s, rfeeds, revents);
      while true
        invariant 0 < k <= |rfeeds| && PendingOk() && Feeding(Snaps(), s, rfeeds, k, revents)
        decreases k
      {
        k := k - 1;
        ghost var cur := Snaps();
        SnapsAre();
        FeedBehind(rfeeds[k], revents);
        FeedStep(cur, s, rfeeds, k + 1, revents, rfeeds[k].pending);
        if k == 0 {
          break;
        }
      }
    }

    lemma FeedStart(s: map<Watcher, Snap>, rfeeds: seq<Watcher>, revents: bv32)
      requires forall w :: w in rfeeds ==> w in s
      ensures Feeding(s, s, rfeeds, |rfeeds|, revents)
    {
    }

    lemma SlotsBefore()
      requires PendingOk()
      ensures forall v :: v in universe ==> 0 <= Pri(v) < NUMPRI && v.pending <= |pendings[Pri(v)]|
    {
      assert forall v :: v in universe ==> WatcherOk(v);
    }

    lemma LastSlot(w: Watcher)
      requires PendingOk() && w in universe && 0 <= Pri(w) < NUMPRI && pendings[Pri(w)] != []
      requires pendings[Pri(w)][|pendings[Pri(w)]| - 1].w == w
      ensures w.pending == |pendings[Pri(w)]|
    {
      assert SlotOk(Pri(w), |pendings[Pri(w)]| - 1);
    }

    /** Feeding a watcher that is not pending puts it behind all pending ones of its priority. */
    method FeedBehind(w: Watcher, revents: bv32)
      requires PendingOk() && w in universe
      modifies this`pendings, this`history, this`pendingpri, w`pending
      ensures PendingOk() && w.pending > 0
      ensures Snaps() == old(Snaps())[w := FedSnap(old(Snaps())[w], w.pending, revents)]
      ensures old(Snaps())[w].pending == 0 ==>
                forall v :: v in universe && v != w && old(Snaps())[v].pri == old(Snaps())[w].pri ==>
                    old(Snaps())[v].pending < w.pending
    {
      hide Or, PendingOk, WatcherOk, EventsOf, SnapOf, Snaps, Active, HistoryOk;
      ghost var s := Snaps();
      SnapsAre();
      ActiveKnown();
      SlotsBefore();
      ghost var n := |pendings[Pri(w)]|;
      FeedEvent(w, revents);
      if old(w.pending) == 0 {
        LastSlot(w);
      }
      SnapsAre();
      assert forall v :: v in universe ==> Snaps()[v] == s[w := FedSnap(s[w], w.pending, revents)][v];
    }

    /** `timers_reify`. */
    method TimersReify() returns (ghost due: seq<Watcher>)
      requires TimersOk() && PendingOk() && forall w :: w in universe ==> w.repeat >= 0.0
      modifies this`timercnt, this`activecnt, this`pendings, this`history, this`pendingpri, timers, universe`active,
               universe`at, universe`pending
      ensures TimersOk() && PendingOk() && Reified(Snaps(), old(Snaps()), due, mnNow)
      ensures forall w :: w in due ==> w in universe
      ensures DueDone(due) && OthersAsBefore(due) && EarlierLater(due)
    {
      hide PendingOk, WatcherOk, TimersOk, Reified, ExpiredSnap, FedSnap, Feeding, SnapOf, Snaps, EventsOf,
           DueDone, OthersAsBefore, EarlierLater, Behind, Active, HistoryOk;
      SnapsAre();
      due := [];
      RootKnown();
      if timercnt > 0 && timers[HEAP0].at < mnNow {
        var rfeeds := CollectDue();
        ghost var s := Snaps();
        SnapsAre();
        FeedReverseDone(rfeeds, EV_TIMER);
        due := rfeeds;
        FeedEnd(Snaps(), s, due, EV_TIMER);
        ReifyEnd(Snaps(), s, old(Snaps()), due, mnNow);
      } else {
        ReifyNone(Snaps(), mnNow);
      }
      ReifiedFields(due);
    }

    twostate lemma ReifiedFields(new due: seq<Watcher>)
      requires old(PendingOk()) && PendingOk() && mnNow == old(mnNow)
      requires forall w :: w in universe ==> w.priority == old(w.priority) && w.repeat == old(w.repeat)
      requires Reified(Snaps(), old(Snaps()), due, mnNow)
      ensures (forall w :: w in due ==> w in universe) && DueDone(due) && OthersAsBefore(due) && EarlierLater(due)
    {
      hide PendingOk, DueDone, OthersAsBefore, EarlierLater, Snaps, Reified;
      ReifiedDue(due);
      ReifiedOthers(due);
      ReifiedOrder(due);
    }

    /** In the fields: the watchers `due` are those that were active and due. A repeating one is active and
        due one interval after its time, or now if that has passed; another one is inactive and keeps its
        distance from now. Each is pending with the timer event, and, if it repeats, with what it was
        pending with before. */
    twostate predicate DueDone(new due: seq<Watcher>)
      requires old(PendingOk()) && PendingOk()
      reads this, universe
    {
      && (forall w :: w in due ==> w in universe && old(w.active) > 0 && old(w.at) < mnNow)
      && (forall w :: w in universe && old(w.active) > 0 && old(w.at) < mnNow ==> w in due)
      && (forall w :: w in universe && w in due && w.repeat > 0.0 ==>
            w.active > 0 && w.at == if old(w.at) + w.repeat < mnNow then mnNow else old(w.at) + w.repeat)
      && (forall w :: w in universe && w in due && w.repeat <= 0.0 ==> w.active == 0 && w.at == old(w.at) - mnNow)
      && (forall w :: w in universe && w in due ==> w.pending > 0 && WatcherOk(w) && old(WatcherOk(w)))
      && (forall w, b :: w in universe && w in due ==>
            (Has(EventsOf(w), b) <==> Has(EV_TIMER, b) || (w.repeat > 0.0 && Has(old(EventsOf(w)), b))))
    }

    twostate predicate OthersAsBefore(new due: seq<Watcher>)
      requires old(PendingOk()) && PendingOk()
      reads this, universe
    {
      forall w :: w in universe && w !in due ==>
        w.at == old(w.at) && w.pending == old(w.pending) && (w.active > 0 <==> old(w.active) > 0) &&
        WatcherOk(w) && old(WatcherOk(w)) && EventsOf(w) == old(EventsOf(w))
    }

    /** The due timers are in the order of their times; of two of one priority the earlier one is in the
        later slot, unless it repeats and was pending before. */
    twostate predicate EarlierLater(new due: seq<Watcher>)
      requires forall w :: w in due ==> w in universe
      reads this, universe
    {
      && (forall i, j :: 0 <= i < j < |due| ==> due[i] != due[j])
      && (forall i, j :: 0 <= i < j < |due| && due[i] in universe && due[j] in universe ==>
            old(due[i].at) <= old(due[j].at))
      && (forall i, j :: 0 <= i < j < |due| && Pri(due[i]) == Pri(due[j]) ==>
            due[i].repeat <= 0.0 || old(due[i].pending) == 0 ==> due[i].pending > due[j].pending)
    }

    /** What is observed now, and was before, in the fields. */
    twostate lemma SnapsWere()
      requires old(PendingOk()) && PendingOk()
      ensures Snaps().Keys == old(Snaps()).Keys == universe
      ensures forall w :: w in universe ==> WatcherOk(w) && old(WatcherOk(w))
      ensures forall w :: w in universe ==>
                old(Snaps())[w] == Snap(old(w.at), old(w.repeat), old(Pri(w)), old(w.pending), old(w.active > 0),
                                        old(EventsOf(w)))
      ensures forall w :: w in universe ==>
                Snaps()[w] == Snap(w.at, w.repeat, Pri(w), w.pending, w.active > 0, EventsOf(w))
    {
      hide HistoryOk, SlotOk;
    }

    twostate lemma ReifiedDue(new due: seq<Watcher>)
      requires old(PendingOk()) && PendingOk() && mnNow == old(mnNow)
      requires Reified(Snaps(), old(Snaps()), due, mnNow)
      ensures DueDone(due)
    {
      hide PendingOk, EventsOf, WatcherOk, Snaps, SnapOf, Or, Has, ExpiredSnap;
      SnapsWere();
      forall w | w in due
        ensures w in universe && w.pending > 0 && ExpiredSnap(old(Snaps())[w], mnNow).repeat == w.repeat
        ensures w.at == ExpiredSnap(old(Snaps())[w], mnNow).at
        ensures w.active > 0 <==> ExpiredSnap(old(Snaps())[w], mnNow).active
        ensures EventsOf(w) == Or(ExpiredSnap(old(Snaps())[w], mnNow).events, EV_TIMER)
      {
      }
      forall w | w in due
        ensures w.repeat > 0.0 ==>
                  w.active > 0 && w.at == if old(w.at) + w.repeat < mnNow then mnNow else old(w.at) + w.repeat
        ensures w.repeat <= 0.0 ==> w.active == 0 && w.at == old(w.at) - mnNow
        ensures forall b :: Has(EventsOf(w), b) <==> Has(EV_TIMER, b) || (w.repeat > 0.0 && Has(old(EventsOf(w)), b))
      {
        ExpiredIs(old(Snaps())[w], mnNow);
        OrBits(ExpiredSnap(old(Snaps())[w], mnNow).events, EV_TIMER);
        HasNothing();
      }
    }

    lemma HasNothing()
      ensures forall b :: !Has(0, b)
    {
    }

    twostate lemma ReifiedOthers(new due: seq<Watcher>)
      requires old(PendingOk()) && PendingOk() && Reified(Snaps(), old(Snaps()), due, mnNow)
      ensures OthersAsBefore(due)
    {
      hide PendingOk, EventsOf, WatcherOk, Snaps, SnapOf, ExpiredSnap, FedSnap;
      SnapsWere();
    }

    twostate lemma ReifiedOrder(new due: seq<Watcher>)
      requires old(PendingOk()) && PendingOk() && Reified(Snaps(), old(Snaps()), due, mnNow)
      requires forall w :: w in universe ==> w.priority == old(w.priority) && w.repeat == old(w.repeat)
      ensures (forall w :: w in due ==> w in universe) && EarlierLater(due)
    {
      hide PendingOk, EventsOf, WatcherOk, Snaps, SnapOf, ExpiredSnap, FedSnap;
      SnapsWere();
      forall i | 0 <= i < |due|
        ensures due[i].repeat <= 0.0 || old(due[i].pending) == 0 ==>
                  ExpiredSnap(old(Snaps())[due[i]], mnNow).pending == 0
      {
        assert due[i] in due;
        ExpiredIs(old(Snaps())[due[i]], mnNow);
      }
    }

    lemma ReifyNone(s: map<Watcher, Snap>, now: real)
      requires forall v :: v in s ==> !Due(s[v], now)
      ensures Reified(s, s, [], now)
    {
    }

    /** From the watchers at first (`s0`) over the time when all due ones were collected (`s`) to when
        they were fed (`cur`). */
    lemma ReifyEnd(cur: map<Watcher, Snap>, s: map<Watcher, Snap>, s0: map<Watcher, Snap>, due: seq<Watcher>, now: real)
      requires Expired(s, s0, due, now) && cur.Keys == s.Keys
      requires forall v :: v in s ==>
                 if v in due then cur[v].pending > 0 && cur[v] == FedSnap(s[v], cur[v].pending, EV_TIMER)
                   else cur[v] == s[v]
      requires forall i, j :: 0 <= i < j < |due| ==> Behind(cur, s, due[i], due[j])
      ensures Reified(cur, s0, due, now)
    {
      hide Or, ExpiredSnap;
      forall v | v in s ensures s[v].pri == s0[v].pri {
        ExpiredPri(s0[v], now);
      }
    }

    lemma FeedEnd(cur: map<Watcher, Snap>, s: map<Watcher, Snap>, rfeeds: seq<Watcher>, revents: bv32)
      requires Feeding(cur, s, rfeeds, 0, revents)
      ensures cur.Keys == s.Keys && forall w :: w in rfeeds ==> w in s
      ensures forall v :: v in s ==>
                if v in rfeeds then cur[v].pending > 0 && cur[v] == FedSnap(s[v], cur[v].pending, revents)
                  else cur[v] == s[v]
      ensures forall i, j :: 0 <= i < j < |rfeeds| ==> Behind(cur, s, rfeeds[i], rfeeds[j])
      ensures forall v :: v in s ==> cur[v].pri == s[v].pri && cur[v].active == s[v].active && cur[v].at == s[v].at
    {
      hide Or;
      assert rfeeds[0..] == rfeeds;
      forall v | v in s
        ensures if v in rfeeds then cur[v].pending > 0 && cur[v] == FedSnap(s[v], cur[v].pending, revents)
                else cur[v] == s[v]
      {
        if v in rfeeds {
          var i :| 0 <= i < |rfeeds| && rfeeds[i] == v;
        }
      }
    }

    lemma QueuesTidy(p: nat)
      requires PendingOk() && p < NUMPRI
      ensures Tidy(pendings[p], pendingW)
    {
      forall i, j | 0 <= i < j < |pendings[p]| && pendings[p][i].w == pendings[p][j].w
        ensures pendings[p][i].w == pendingW
      {
        assert SlotOk(p, i) && SlotOk(p, j);
      }
    }

    /** The watcher is called, or cleared, with these events among others. */
    ghost predicate SettlesWith(e: Event<Watcher>, w: Watcher, p: nat, events: bv32) {
      Settles(e, w, p) && Holds(e.events, events)
    }

    /** From `base` on that happened. */
    ghost predicate SettledFrom(base: nat, w: Watcher, events: bv32)
      reads this`history, w`priority
    {
      0 <= Pri(w) &&
      exists m :: base <= m < |history| && SettlesWith(history[m], w, Pri(w), events)
    }

    ghost predicate CallOf(e: Event<Watcher>, w: Watcher, p: nat) {
      e.Called? && Settles(e, w, p)
    }

    /** From `base` on the callback of `w` is invoked only after `v` was called or cleared, unless `w`
        itself was called or cleared before. */
    ghost predicate ComesAfter(base: nat, v: Watcher, w: Watcher)
      reads this`history, v`priority, w`priority
    {
      forall m :: base <= m < |history| && 0 <= Pri(w) == Pri(v) && CallOf(history[m], w, Pri(w)) ==>
        SettledIn(history[base..m], w, Pri(w)) || SettledIn(history[base..m], v, Pri(v))
    }

    /** What a watcher pending in the queues `q` can rely on, from `base` on. */
    lemma PendingSettled(base: nat, q: Queues<Watcher>, w: Watcher)
      requires HistoryOk() && pendings == NoSlots() && base <= |history| &&
               Replay(NoSlots(), history[..base], pendingW) == q
      requires 0 <= Pri(w) < NUMPRI && w != pendingW && Waits(q[Pri(w)], w) && Tidy(q[Pri(w)], pendingW)
      ensures SettledFrom(base, w, EventsIn(q[Pri(w)], w))
    {
      hide Tidy, Legal, Replay, EventsIn, Holds, Waits;
      var later := history[base..];
      assert history == history[..base] + later;
      LegalParts(NoSlots(), history[..base], later, pendingW);
      var m := WaitingIsSettled(q, later, w, Pri(w), pendingW);
      assert history[base + m] == later[m];
    }

    lemma PendingInOrder(base: nat, q: Queues<Watcher>, v: Watcher, w: Watcher, i: nat, j: nat)
      requires HistoryOk() && base <= |history| && Replay(NoSlots(), history[..base], pendingW) == q
      requires 0 <= Pri(w) == Pri(v) < NUMPRI && v != pendingW && w != pendingW
      requires BothWait(q[Pri(w)], i, j, w, v) && Tidy(q[Pri(w)], pendingW)
      ensures ComesAfter(base, v, w)
    {
      hide Tidy, Legal, Replay, BothWait, Settles, SettledIn;
      var later := history[base..];
      assert history == history[..base] + later;
      LegalParts(NoSlots(), history[..base], later, pendingW);
      forall m | base <= m < |history| && history[m].Called? && Settles(history[m], w, Pri(w)) &&
        !SettledIn(history[base..m], w, Pri(w))
        ensures SettledIn(history[base..m], v, Pri(v))
      {
        assert later[..m - base] == history[base..m] && later[m - base] == history[m];
        LaterSlotFirst(q, later, m - base, Pri(w), i, j, w, v, pendingW);
      }
    }

    /** The watcher is in slot `pending - 1` of its queue. */
    ghost predicate WaitsAt(q: Queues<Watcher>, w: Watcher, pending: nat)
      reads w`priority
    {
      && 0 <= Pri(w) < NUMPRI && w != pendingW && Tidy(q[Pri(w)], pendingW) && Waits(q[Pri(w)], w)
      && 0 < pending <= |q[Pri(w)]| && q[Pri(w)][pending - 1].w == w
    }

    lemma PendingWaits(w: Watcher)
      requires PendingOk() && w in universe && w.pending > 0
      ensures WaitsAt(pendings, w, w.pending) && EventsIn(pendings[Pri(w)], w) == EventsOf(w)
    {
      hide HistoryOk, Tidy;
      assert WatcherOk(w);
      SlotPlace(w);
      QueuesTidy(Pri(w));
    }

    lemma ReplayIs()
      requires PendingOk()
      ensures Replay(NoSlots(), history, pendingW) == pendings
    {
    }

    lemma HistoryIs()
      requires HistoryOk()
      ensures Replay(NoSlots(), history, pendingW) == pendings
    {
    }

    /** `ev_invoke_pending` seen from the watchers pending at first: each is called, or cleared, with its
        events; those of one priority come in the reverse order of their slots. */
    method InvokeWaiting(script: Script<Watcher>, ghost ws: seq<Watcher>) returns (rest: Script<Watcher>)
      requires PendingOk() && ScriptKnown(script, universe) && forall w :: w in ws ==> w in universe && w.pending > 0
      modifies this`pendings, this`pendingpri, this`history, universe`pending, pendingW`pending
      ensures PendingOk() && pendings == NoSlots() && old(history) <= history
      ensures Ran(old(history), old(pendings), script, rest)
      ensures forall w :: w in ws ==> SettledFrom(|old(history)|, w, old(Snaps())[w].events)
      ensures forall v, w :: v in ws && w in ws && Pri(v) == Pri(w) ==>
                old(Snaps())[v].pending > old(Snaps())[w].pending ==> ComesAfter(|old(history)|, v, w)
    {
      hide SlotOk, WatcherOk, Or, Driven, Legal, Replay, Tidy, SettledFrom, ComesAfter, Waits, EventsIn;
      ghost var q, h, s := pendings, history, Snaps();
      HistoryIs();
      forall w | w in ws ensures WaitsAt(q, w, s[w].pending) && EventsIn(q[Pri(w)], w) == s[w].events {
        PendingWaits(w);
        SnapsActive(w);
      }
      rest := InvokePending(script);
      forall w | w in ws ensures SettledFrom(|h|, w, s[w].events) {
        PendingSettled(|h|, q, w);
      }
      forall v, w | v in ws && w in ws && Pri(v) == Pri(w) && s[v].pending > s[w].pending
        ensures ComesAfter(|h|, v, w)
      {
        PendingInOrder(|h|, q, v, w, s[w].pending - 1, s[v].pending - 1);
      }
    }

    /** `timers_reify` followed by `EV_INVOKE_PENDING`, whatever the callbacks do: from `base` on each
        due timer is called, or cleared, with the timer event; and of two due timers of one priority,
        the earlier one not repeating or not pending before, the later one is not called before the earlier
        one was called or cleared, unless it was itself settled and fed anew. */
    method ReifyAndInvoke(script: Script<Watcher>)
      returns (rest: Script<Watcher>, ghost due: seq<Watcher>, ghost base: nat)
      requires TimersOk() && PendingOk() && ScriptKnown(script, universe)
      requires forall w :: w in universe ==> w.repeat >= 0.0
      modifies this`timercnt, this`activecnt, this`pendings, this`history, this`pendingpri, timers, universe`active,
               universe`at, universe`pending, pendingW`pending
      ensures TimersOk() && PendingOk() && pendings == NoSlots()
      ensures forall w :: w in due ==> w in universe
      ensures forall w :: w in universe ==> (w in due <==> old(w.active) > 0 && old(w.at) < mnNow)
      ensures forall i, j :: 0 <= i < j < |due| ==> due[i] != due[j]
      ensures forall i, j :: 0 <= i < j < |due| && due[i] in universe && due[j] in universe ==>
                old(due[i].at) <= old(due[j].at)
      ensures base <= |history| && Ran(history[..base], Replay(NoSlots(), history[..base], pendingW), script, rest)
      ensures forall w :: w in due ==> SettledFrom(base, w, EV_TIMER)
      ensures forall i, j :: 0 <= i < j < |due| && due[i] in universe && Pri(due[i]) == Pri(due[j]) ==>
                due[i].repeat <= 0.0 || old(due[i].pending) == 0 ==> ComesAfter(base, due[i], due[j])
    {
      hide PendingOk, WatcherOk, TimersOk, Or, ExpiredSnap, Ran, SettledFrom, ComesAfter, SnapOf, Snaps, EventsOf,
           DueDone, OthersAsBefore, EarlierLater, Reified, Holds;
      due := TimersReify();
      base := |history|;
      ReplayIs();
      ghost var s, h := Snaps(), history;
      DueFields(due);
      rest := InvokeWaiting(script, due);
      assert history[..base] == h;
      forall w | w in due ensures SettledFrom(base, w, EV_TIMER) {
        TimerAmong(base, w, s[w].events);
      }
    }

    twostate lemma DueFields(new due: seq<Watcher>)
      requires old(PendingOk()) && PendingOk() && forall w :: w in due ==> w in universe
      requires DueDone(due) && EarlierLater(due)
      ensures forall w :: w in universe ==> (w in due <==> old(w.active) > 0 && old(w.at) < mnNow)
      ensures Snaps().Keys == universe
      ensures forall w :: w in due ==> w.pending > 0 && Snaps()[w].pending == w.pending
      ensures forall w :: w in due ==> Holds(Snaps()[w].events, EV_TIMER)
      ensures forall i, j :: 0 <= i < j < |due| ==> due[i] != due[j]
      ensures forall i, j :: 0 <= i < j < |due| && due[i] in universe && due[j] in universe ==>
                old(due[i].at) <= old(due[j].at)
      ensures forall i, j :: 0 <= i < j < |due| && due[i] in universe && Pri(due[i]) == Pri(due[j]) ==>
                due[i].repeat <= 0.0 || old(due[i].pending) == 0 ==> due[i].pending > due[j].pending
    {
      hide PendingOk, EventsOf, WatcherOk, Snaps, SnapOf, Or, Has;
      SnapsWere();
      forall w | w in due ensures Holds(Snaps()[w].events, EV_TIMER) {
        assert forall b :: Has(EV_TIMER, b) ==> Has(EventsOf(w), b);
      }
    }

    lemma TimerAmong(base: nat, w: Watcher, events: bv32)
      requires SettledFrom(base, w, events) && Holds(events, EV_TIMER)
      ensures SettledFrom(base, w, EV_TIMER)
    {
      hide Settles, Has;
      var m :| base <= m < |history| && SettlesWith(history[m], w, Pri(w), events);
      assert SettlesWith(history[m], w, Pri(w), EV_TIMER);
    }
  }
}
