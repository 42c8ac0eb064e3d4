/** Compaction of a packet batch: excluded packets are swapped behind the live ones. */
module PacketBatch {
  datatype Slots<Packet> = Slots(packets: seq<Packet>, excluded: seq<bool>, results: seq<int>)

  ghost predicate SlotsOk<Packet>(s: Slots<Packet>, n: nat) {
    |s.packets| == |s.excluded| == |s.results| && n <= |s.packets|
  }

  /** The swap of the excluded slot `p` with the last live slot `q`. */
  function SwapOut<Packet>(s: Slots<Packet>, p: nat, q: nat): Slots<Packet>
    requires SlotsOk(s, q + 1) && p <= q
  {
    Slots(s.packets[p := s.packets[q]][q := s.packets[p]], s.excluded[p := false][q := true],
          s.results[p := s.results[q]][q := -1])
  }

  /** The rest of the loop from slot `p`, with `n` slots live: the slots and the number live at the end. */
  function Sweep<Packet>(s: Slots<Packet>, p: nat, n: nat): (Slots<Packet>, nat)
    requires SlotsOk(s, n)
    decreases n - p
  {
    if p >= n then (s, n)
    else if s.excluded[p] then Sweep(SwapOut(s, p, n - 1), p + 1, n - 1)
    else Sweep(s, p + 1, n)
  }

  lemma SweepUnfold<Packet>(s: Slots<Packet>, p: nat, n: nat)
    requires SlotsOk(s, n)
    ensures Sweep(s, p, n) ==
            if p >= n then (s, n)
            else if s.excluded[p] then Sweep(SwapOut(s, p, n - 1), p + 1, n - 1)
            else Sweep(s, p + 1, n)
  {
  }

  lemma Swapped<Packet>(s: Slots<Packet>, p: nat, q: nat)
    requires SlotsOk(s, q + 1) && p <= q
    ensures var s' := SwapOut(s, p, q);
            && SlotsOk(s', q + 1) && |s'.packets| == |s.packets| && multiset(s'.packets) == multiset(s.packets)
            && s'.packets[p] == s.packets[q] && s'.packets[q] == s.packets[p] && s'.excluded[q] && s'.results[q] == -1
            && (p < q ==> !s'.excluded[p] && s'.results[p] == s.results[q])
            && forall i :: 0 <= i < |s.packets| && i != p && i != q ==>
                 s'.packets[i] == s.packets[i] && s'.excluded[i] == s.excluded[i] && s'.results[i] == s.results[i]
  {
  }

  /** How many of the slots from `p` to below `n` are excluded. */
  function Excluded(excluded: seq<bool>, p: nat, n: nat): nat
    requires n <= |excluded|
    decreases n - p
  {
    if p >= n then 0 else (if excluded[p] then 1 else 0) + Excluded(excluded, p + 1, n)
  }

  /** The packets are permuted, and slots from `n` on stay. */
  lemma {:induction false} SweepPermutes<Packet>(s: Slots<Packet>, p: nat, n: nat)
    requires SlotsOk(s, n)
    ensures var (s', n') := Sweep(s, p, n);
            && SlotsOk(s', n) && |s'.packets| == |s.packets| && n' <= n
            && multiset(s'.packets) == multiset(s.packets)
            && (forall i :: n <= i < |s.packets| ==>
                  s'.packets[i] == s.packets[i] && s'.excluded[i] == s.excluded[i] && s'.results[i] == s.results[i])
            && (forall i :: 0 <= i < p && i < n ==>
                  s'.packets[i] == s.packets[i] && s'.excluded[i] == s.excluded[i] && s'.results[i] == s.results[i])
    decreases n - p
  {
    hide Sweep, SwapOut;
    SweepUnfold(s, p, n);
    if p < n {
      Swapped(s, p, n - 1);
    }
    if p < n && s.excluded[p] {
      SweepPermutes(SwapOut(s, p, n - 1), p + 1, n - 1);
    } else if p < n {
      SweepPermutes(s, p + 1, n);
    }
  }

  /** Afterwards no live slot is flagged, every slot swapped out is. */
  lemma {:induction false} SweepFlags<Packet>(s: Slots<Packet>, p: nat, n: nat)
    requires SlotsOk(s, n)
    ensures var (s', n') := Sweep(s, p, n);
            && SlotsOk(s', n) && n' <= n
            && (forall i :: p <= i < n' ==> !s'.excluded[i])
            && (forall i :: n' <= i < n ==> s'.excluded[i] && s'.results[i] == -1)
    decreases n - p
  {
    hide Sweep, SwapOut;
    SweepUnfold(s, p, n);
    if p < n {
      Swapped(s, p, n - 1);
    }
    SweepPermutes(s, p, n);
    if p < n && s.excluded[p] {
      SweepPermutes(SwapOut(s, p, n - 1), p + 1, n - 1);
      SweepFlags(SwapOut(s, p, n - 1), p + 1, n - 1);
    } else if p < n {
      SweepPermutes(s, p + 1, n);
      SweepFlags(s, p + 1, n);
    }
  }

  lemma {:induction false} ExcludedSame(a: seq<bool>, b: seq<bool>, p: nat, n: nat)
    requires n <= |a| && n <= |b| && forall i :: p <= i < n ==> a[i] == b[i]
    ensures Excluded(a, p, n) == Excluded(b, p, n)
    decreases n - p
  {
    if p < n {
      ExcludedSame(a, b, p + 1, n);
    }
  }

  lemma {:induction false} ExcludedLast(a: seq<bool>, p: nat, n: nat)
    requires p < n <= |a|
    ensures Excluded(a, p, n) == Excluded(a, p, n - 1) + if a[n - 1] then 1 else 0
    ensures Excluded(a, p, n) <= n - p
    decreases n - p
  {
    if p + 1 < n {
      ExcludedLast(a, p + 1, n);
    }
  }

  /** After a swap, one excluded slot less is left to do, or two when the last one was excluded too. */
  lemma ExcludedSwapped<Packet>(s: Slots<Packet>, p: nat, q: nat)
    requires SlotsOk(s, q + 1) && p <= q && s.excluded[p]
    ensures var s' := SwapOut(s, p, q);
            Excluded(s.excluded, p, q + 1) == Excluded(s'.excluded, p + 1, q) + if p < q && s.excluded[q] then 2 else 1
  {
    ExcludedSame(s.excluded, SwapOut(s, p, q).excluded, p + 1, q);
    if p < q {
      ExcludedLast(s.excluded, p + 1, q + 1);
    }
  }

  /** No more packets are dropped than were excluded; and all of these are dropped if and only if, when
      there are `m`, the last `m - 1` slots hold none. */
  lemma {:induction false} SweepDropsAll<Packet>(s: Slots<Packet>, p: nat, n: nat)
    requires SlotsOk(s, n)
    ensures var n', m := Sweep(s, p, n).1, Excluded(s.excluded, p, n);
            && n - m <= n' <= n
            && (n' == n - m <==> forall i :: p <= i < n && n - m < i ==> !s.excluded[i])
    decreases n - p
  {
    if p < n && s.excluded[p] {
      var s' := SwapOut(s, p, n - 1);
      var m, m' := Excluded(s.excluded, p, n), Excluded(s'.excluded, p + 1, n - 1);
      ExcludedSwapped(s, p, n - 1);
      SweepDropsAll(s', p + 1, n - 1);
      if p < n - 1 {
        ExcludedLast(s.excluded, p, n);
        assert forall i :: p + 1 <= i < n - 1 ==> s'.excluded[i] == s.excluded[i];
      }
    } else if p < n {
      SweepDropsAll(s, p + 1, n);
    }
  }

  /** The smallest batch in which an excluded packet survives, unflagged. */
  lemma ExcludedSurvives<Packet>(a: Packet, b: Packet)
    ensures var s := Slots([a, b], [true, true], [0, 0]);
            Sweep(s, 0, 2) == (Slots([b, a], [false, true], [0, -1]), 1)
  {
    var s := Slots([a, b], [true, true], [0, 0]);
    assert SwapOut(s, 0, 1) == Slots([b, a], [false, true], [0, -1]);
  }

  /** A packet that was excluded is in slot `j`, between `p` and `n`. */
  ghost predicate WasExcluded<Packet>(s: Slots<Packet>, p: nat, n: nat, packet: Packet, j: nat) {
    SlotsOk(s, n) && p <= j < n && s.excluded[j] && s.packets[j] == packet
  }

  /** Only excluded packets are dropped. */
  lemma {:induction false} SweepDropsExcluded<Packet>(s: Slots<Packet>, p: nat, n: nat, i: nat) returns (j: nat)
    requires SlotsOk(s, n) && Sweep(s, p, n).1 <= i < n
    ensures |Sweep(s, p, n).0.packets| == |s.packets| && WasExcluded(s, p, n, Sweep(s, p, n).0.packets[i], j)
    decreases n - p
  {
    hide Sweep, SwapOut;
    SweepUnfold(s, p, n);
    if p < n {
      Swapped(s, p, n - 1);
    }
    SweepPermutes(s, p, n);
    if p < n && s.excluded[p] {
      var s' := SwapOut(s, p, n - 1);
      SweepPermutes(s', p + 1, n - 1);
      j := p;
      if i < n - 1 {
        j := SweepDropsExcluded(s', p + 1, n - 1, i);
      }
    } else {
      j := SweepDropsExcluded(s, p + 1, n, i);
    }
  }

  /** Live packets keep their results: those of a live slot come from one slot. */
  lemma {:induction false} SweepKeepsResults<Packet>(s: Slots<Packet>, p: nat, n: nat, i: nat) returns (j: nat)
    requires SlotsOk(s, n) && p <= i < Sweep(s, p, n).1
    ensures p <= j < n && SlotsOk(Sweep(s, p, n).0, n) && i < n
    ensures Sweep(s, p, n).0.packets[i] == s.packets[j] && Sweep(s, p, n).0.results[i] == s.results[j]
    decreases n - p
  {
    hide Sweep, SwapOut;
    SweepUnfold(s, p, n);
    if p < n {
      Swapped(s, p, n - 1);
    }
    SweepPermutes(s, p, n);
    if p < n && s.excluded[p] {
      var s' := SwapOut(s, p, n - 1);
      SweepPermutes(s', p + 1, n - 1);
      j := n - 1;
      if i > p {
        j := SweepKeepsResults(s', p + 1, n - 1, i);
      }
    } else {
      SweepPermutes(s, p + 1, n);
      j := i;
      if i > p {
        j := SweepKeepsResults(s, p + 1, n, i);
      }
    }
  }

  /** Live packets come first, `drop` dropped ones directly behind; no packet is lost or doubled; only
      killed packets are flagged, dropped or handed over. */
  ghost predicate Sound<Packet>(s: Slots<Packet>, count: nat, drop: nat, all: multiset<Packet>, killed: set<Packet>,
                                handed: seq<Packet>) {
    && SlotsOk(s, count + drop)
    && multiset(s.packets[..count + drop]) + multiset(handed) == all
    && (forall i :: 0 <= i < count && s.excluded[i] ==> s.packets[i] in killed)
    && (forall i :: count <= i < count + drop ==> s.packets[i] in killed)
    && (forall p :: p in handed ==> p in killed)
  }

  /** The finished loop keeps this, and leaves no live slot flagged. */
  lemma SweepKeepsSound<Packet>(s: Slots<Packet>, n: nat, drop: nat, all: multiset<Packet>, killed: set<Packet>,
                                handed: seq<Packet>)
    requires Sound(s, n, drop, all, killed, handed)
    ensures var (s', n') := Sweep(s, 0, n);
            && n' <= n && Sound(s', n', drop + n - n', all, killed, handed)
            && (forall i :: 0 <= i < n' ==> !s'.excluded[i])
  {
    hide Sweep;
    SweepPermutes(s, 0, n);
    SweepFlags(s, 0, n);
    var s', n', total := Sweep(s, 0, n).0, Sweep(s, 0, n).1, n + drop;
    forall i | n' <= i < n ensures s'.packets[i] in killed {
      var j := SweepDropsExcluded(s, 0, n, i);
    }
    PrefixPermuted(s.packets, s'.packets, total);
  }

  lemma PrefixPermuted<T>(a: seq<T>, b: seq<T>, n: nat)
    requires n <= |a| == |b| && multiset(a) == multiset(b) && forall i :: n <= i < |a| ==> a[i] == b[i]
    ensures multiset(a[..n]) == multiset(b[..n])
  {
    assert a[n..] == b[n..];
    PrefixMultiset(a, n);
    PrefixMultiset(b, n);
  }

  lemma PrefixMultiset<T>(s: seq<T>, n: nat)
    requires n <= |s|
    ensures multiset(s[..n]) == multiset(s) - multiset(s[n..])
  {
    assert s == s[..n] + s[n..];
  }

  /** A packet buffer; its contents do not matter here. */
  class Mbuf {
  }

  /** `PacketBatch`. The ghost fields tell the packets of the batch from the beginning, those killed,
      and those handed to the drop queue. */
  class PacketBatch {
    const packets: array<Mbuf>
    const excluded: array<bool>
    const results: array<int>
    var count: nat
    var dropCount: nat
    var hasDropped: bool
    ghost const all: multiset<Mbuf>
    ghost var killed: set<Mbuf>
    ghost var handed: seq<Mbuf>

    ghost predicate Shape()
      reads this, packets, excluded, results
    {
      && packets.Length == excluded.Length == results.Length && count + dropCount <= packets.Length
    }

    ghost function View(): Slots<Mbuf>
      reads this, packets, excluded, results
    {
      Slots(packets[..], excluded[..], results[..])
    }

    ghost predicate Valid()
      reads this, packets, excluded, results
    {
      Shape() && Sound(View(), count, dropCount, all, killed, handed)
    }

    constructor (packets: array<Mbuf>, excluded: array<bool>, results: array<int>, count: nat)
      requires packets.Length == excluded.Length == results.Length && count <= packets.Length
      requires forall i :: 0 <= i < count ==> !excluded[i]
      ensures Valid() && this.packets == packets && this.excluded == excluded && this.results == results
      ensures this.count == count && dropCount == 0 && killed == {} && handed == []
    {
      this.packets, this.excluded, this.results, this.count := packets, excluded, results, count;
      dropCount, hasDropped := 0, false;
      all, killed, handed := multiset(packets[..count]), {}, [];
      new;
      assert packets[..count + dropCount] == packets[..count];
    }

    /** `Packet::kill`; `drop` is the number that stands for dropping in the results. */
    method Kill(i: nat, drop: int)
      requires Valid() && i < count
      modifies this`hasDropped, this`killed, excluded, results
      ensures Valid() && killed == old(killed) + {packets[i]}
      ensures View() == Slots(old(packets[..]), old(excluded[..])[i := true], old(results[..])[i := drop])
    {
      results[i] := drop;
      excluded[i] := true;
      hasDropped := true;
      killed := killed + {packets[i]};
    }

    /** The exchange in the loop below. */
    method SwapSlots(p: nat, q: nat)
      requires Shape() && p <= q < packets.Length
      modifies packets, excluded, results
      ensures View() == SwapOut(old(View()), p, q)
    {
      var t := packets[p];
      packets[p] := packets[q];
      packets[q] := t;
      excluded[p] := false;
      excluded[q] := true;
      results[p] := results[q];
      results[q] := -1;
    }

    /** `collect_excluded_packets`. */
    method CollectExcludedPackets()
      requires Valid()
      modifies this`count, this`dropCount, packets, excluded, results
      ensures Valid() && (View(), count) == Sweep(old(View()), 0, old(count))
      ensures count + dropCount == old(count + dropCount)
      ensures forall i :: 0 <= i < count ==> !excluded[i]
      ensures var m := Excluded(old(excluded[..]), 0, old(count));
              && 0 <= dropCount - old(dropCount) <= m
              && (dropCount - old(dropCount) == m <==>
                  forall i :: 0 <= i < old(count) && old(count) - m < i ==> !old(excluded[..])[i])
    {
      hide Sweep, SwapOut, Excluded, Sound;
      ghost var s := View();
      SweepKeepsSound(s, count, dropCount, all, killed, handed);
      SweepDropsAll(s, 0, count);
      var droppedCnt: nat := 0;
      var p := 0;
      while p < count - droppedCnt
        invariant count == old(count) && dropCount == old(dropCount) && droppedCnt <= count && SlotsOk(View(), count)
        invariant Sweep(View(), p, count - droppedCnt) == Sweep(s, 0, count)
        decreases count - droppedCnt - p
      {
        SweepUnfold(View(), p, count - droppedCnt);
        if excluded[p] {
          var q := count - droppedCnt - 1;
          SwapSlots(p, q);
          droppedCnt := droppedCnt + 1;
        }
        p := p + 1;
      }
      SweepUnfold(View(), p, count - droppedCnt);
      count := count - droppedCnt;
      dropCount := dropCount + droppedCnt;
    }

    /** `clean_drops`: the dropped packets are offered to the drop queue, all at once. */
    method CleanDrops() returns (offered: seq<Mbuf>)
      requires Valid()
      modifies this`dropCount, this`handed
      ensures Valid() && dropCount == 0
      ensures offered == old(packets[count..count + dropCount]) && handed == old(handed) + offered
    {
      offered := [];
      if dropCount > 0 {
        offered := packets[count..count + dropCount];
        ghost var live := packets[..count];
        assert packets[..count + dropCount] == live + offered;
        dropCount := 0;
        handed := handed + offered;
      }
      assert packets[..count + dropCount] == packets[..count];
    }
  }
}
