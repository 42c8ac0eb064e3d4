/** The pending queues on values, with the history of what was fed, cleared and called. */
module Pending {
  import opened Collections

  const NUMPRI: nat := 5

  /** `ANPENDING`. */
  datatype Slot<W> = Slot(w: W, events: bv32)

  type Queues<W> = q: seq<seq<Slot<W>>> | |q| == NUMPRI witness seq(NUMPRI, _ => [])

  function Or(a: bv32, b: bv32): bv32 {
    a | b
  }

  /** One of the bits `b` is among the events. */
  predicate Has(events: bv32, b: bv32) {
    events & b != 0
  }

  /** Every bit of `some` is among the events. */
  ghost predicate Holds(events: bv32, some: bv32) {
    forall b :: Has(some, b) ==> Has(events, b)
  }

  lemma OrHas(a: bv32, c: bv32, b: bv32)
    ensures Has(Or(a, c), b) <==> Has(a, b) || Has(c, b)
  {
    assert (a | c) & b == (a & b) | (c & b);
  }

  function Total<W>(q: Queues<W>): nat {
    |q[0]| + |q[1]| + |q[2]| + |q[3]| + |q[4]|
  }

  /** What happened to a watcher: events fed, a pending slot cleared, or its callback invoked. */
  datatype Event<W> =
    | Fed(w: W, pri: nat, events: bv32)
    | Cleared(w: W, pri: nat, events: bv32)
    | Called(w: W, pri: nat, events: bv32)

  /** The position of the slot of `w`, the length if there is none. */
  ghost function PosOf<W>(s: seq<Slot<W>>, w: W): (i: nat)
    ensures i <= |s| && (i < |s| ==> s[i].w == w) && forall j :: 0 <= j < i ==> s[j].w != w
  {
    if s == [] || s[0].w == w then 0 else 1 + PosOf(s[1..], w)
  }

  ghost predicate Waits<W>(s: seq<Slot<W>>, w: W) {
    PosOf(s, w) < |s|
  }

  /** The events `w` is pending with, 0 if it is not. */
  ghost function EventsIn<W>(s: seq<Slot<W>>, w: W): bv32 {
    if Waits(s, w) then s[PosOf(s, w)].events else 0
  }

  /** The event can happen: what is called has the highest nonempty priority and comes last in it,
      with the events collected; what is cleared gives up its events, if it was pending. */
  ghost predicate Possible<W>(q: Queues<W>, e: Event<W>, dummy: W) {
    && e.pri < NUMPRI
    && match e
       case Fed(w, p, _) => w != dummy
       case Cleared(w, p, events) => w != dummy && events == EventsIn(q[p], w)
       case Called(w, p, events) =>
         q[p] != [] && q[p][|q[p]| - 1] == Slot(w, events) && forall r :: p < r < NUMPRI ==> q[r] == []
  }

  /** The queue of its priority after the event. */
  ghost function QueueAfter<W>(s: seq<Slot<W>>, e: Event<W>, dummy: W): seq<Slot<W>> {
    var i := PosOf(s, e.w);
    match e
    case Fed(w, _, events) => if i < |s| then s[i := Slot(w, Or(s[i].events, events))] else s + [Slot(w, events)]
    case Cleared(w, _, events) => if i < |s| then s[i := Slot(dummy, events)] else s
    case Called(_, _, _) => if s == [] then [] else s[..|s| - 1]
  }

  ghost function After<W>(q: Queues<W>, e: Event<W>, dummy: W): Queues<W> {
    if e.pri < NUMPRI then q[e.pri := QueueAfter(q[e.pri], e, dummy)] else q
  }

  /** The queues after the history `h`, from the queues `q`. */
  ghost function Replay<W>(q: Queues<W>, h: seq<Event<W>>, dummy: W): Queues<W>
    decreases |h|
  {
    if h == [] then q else After(Replay(q, h[..|h| - 1], dummy), h[|h| - 1], dummy)
  }

  /** Every event of the history is possible when it happens. */
  ghost predicate Legal<W>(q: Queues<W>, h: seq<Event<W>>, dummy: W)
    decreases |h|
  {
    h == [] || (Legal(q, h[..|h| - 1], dummy) && Possible(Replay(q, h[..|h| - 1], dummy), h[|h| - 1], dummy))
  }

  lemma LegalNext<W>(q: Queues<W>, h: seq<Event<W>>, e: Event<W>, dummy: W)
    requires Legal(q, h, dummy) && Possible(Replay(q, h, dummy), e, dummy)
    ensures Legal(q, h + [e], dummy) && Replay(q, h + [e], dummy) == After(Replay(q, h, dummy), e, dummy)
  {
    assert (h + [e])[..|h|] == h;
  }

  lemma {:induction false} LegalParts<W>(q: Queues<W>, a: seq<Event<W>>, b: seq<Event<W>>, dummy: W)
    requires Legal(q, a + b, dummy)
    ensures Legal(q, a, dummy) && Legal(Replay(q, a, dummy), b, dummy)
    ensures Replay(Replay(q, a, dummy), b, dummy) == Replay(q, a + b, dummy)
    decreases |b|
  {
    if b == [] {
      assert a + b == a;
    } else {
      var c, e := b[..|b| - 1], b[|b| - 1];
      assert (a + b)[..|a + b| - 1] == a + c && (a + b)[|a + b| - 1] == e;
      LegalParts(q, a, c, dummy);
    }
  }

  /** Only the dummy watcher has more than one slot in a queue. */
  ghost predicate Tidy<W>(s: seq<Slot<W>>, dummy: W) {
    forall i, j :: 0 <= i < j < |s| && s[i].w == s[j].w ==> s[i].w == dummy
  }

  lemma {:induction false} TidyKept<W>(q: Queues<W>, h: seq<Event<W>>, p: nat, dummy: W)
    requires p < NUMPRI && Legal(q, h, dummy) && Tidy(q[p], dummy)
    ensures Tidy(Replay(q, h, dummy)[p], dummy)
    decreases |h|
  {
    if h != [] {
      TidyKept(q, h[..|h| - 1], p, dummy);
    }
  }

  lemma PosIs<W>(s: seq<Slot<W>>, w: W, i: nat)
    requires i < |s| && s[i].w == w && forall j :: 0 <= j < i ==> s[j].w != w
    ensures PosOf(s, w) == i
  {
  }

  /** The watcher's callback is invoked, or its slot is cleared. */
  predicate Settles<W(==)>(e: Event<W>, w: W, p: nat) {
    e.w == w && e.pri == p && !e.Fed?
  }

  /** The events `w` is waited for with, from those in the queue at first, by what was fed since it was
      last called or cleared; none if it is not pending. */
  ghost function Collected<W>(q: Queues<W>, h: seq<Event<W>>, w: W, p: nat): Option<bv32>
    requires p < NUMPRI
    decreases |h|
  {
    if h == [] then if Waits(q[p], w) then Some(q[p][PosOf(q[p], w)].events) else None
    else
      var e, before := h[|h| - 1], Collected(q, h[..|h| - 1], w, p);
      if e.w != w || e.pri != p then before
      else if e.Fed? then Some(if before.Some? then Or(before.value, e.events) else e.events)
      else None
  }

  ghost function InQueue<W>(s: seq<Slot<W>>, w: W): Option<bv32> {
    if Waits(s, w) then Some(s[PosOf(s, w)].events) else None
  }

  /** The queue has `w` with these events, or not at all. */
  lemma InQueueIs<W>(s: seq<Slot<W>>, w: W, o: Option<bv32>)
    requires o.Some? ==> exists i :: 0 <= i < |s| && s[i] == Slot(w, o.value) && forall j :: 0 <= j < |s| && j != i ==>
               s[j].w != w
    requires o.None? ==> forall j :: 0 <= j < |s| ==> s[j].w != w
    ensures InQueue(s, w) == o
  {
    if o.Some? {
      var i :| 0 <= i < |s| && s[i] == Slot(w, o.value) && forall j :: 0 <= j < |s| && j != i ==> s[j].w != w;
      PosIs(s, w, i);
    }
  }

  lemma PlaceOf<W>(s: seq<Slot<W>>, w: W, dummy: W) returns (i: nat)
    requires Tidy(s, dummy) && w != dummy
    ensures InQueue(s, w).None? ==> forall j :: 0 <= j < |s| ==> s[j].w != w
    ensures InQueue(s, w).Some? ==> i < |s| && s[i] == Slot(w, InQueue(s, w).value) && i == PosOf(s, w)
    ensures InQueue(s, w).Some? ==> forall j :: 0 <= j < |s| && j != i ==> s[j].w != w
  {
    i := PosOf(s, w);
  }

  lemma FedInQueue<W>(s: seq<Slot<W>>, e: Event<W>, w: W, dummy: W)
    requires w != dummy && Tidy(s, dummy) && e.Fed? && e.w != dummy
    ensures InQueue(QueueAfter(s, e, dummy), w) ==
            if e.w != w then InQueue(s, w)
            else Some(if InQueue(s, w).Some? then Or(InQueue(s, w).value, e.events) else e.events)
  {
    hide InQueue, PosOf, Tidy, Or;
    var i := PlaceOf(s, w, dummy);
    var _ := PlaceOf(s, e.w, dummy);
    var s' := QueueAfter(s, e, dummy);
    FedQueue(s, e, dummy);
    if e.w == w {
      var o := if InQueue(s, w).Some? then Or(InQueue(s, w).value, e.events) else e.events;
      assert s'[if InQueue(s, w).Some? then i else |s|] == Slot(w, o);
      InQueueIs(s', w, Some(o));
    } else {
      assert InQueue(s, w).Some? ==> s'[i] == s[i];
      InQueueIs(s', w, InQueue(s, w));
    }
  }

  lemma FedQueue<W>(s: seq<Slot<W>>, e: Event<W>, dummy: W)
    requires e.Fed?
    ensures QueueAfter(s, e, dummy) ==
            if InQueue(s, e.w).Some? then s[PosOf(s, e.w) := Slot(e.w, Or(InQueue(s, e.w).value, e.events))]
            else s + [Slot(e.w, e.events)]
  {
  }

  lemma ClearedInQueue<W>(s: seq<Slot<W>>, e: Event<W>, w: W, dummy: W)
    requires w != dummy && Tidy(s, dummy) && e.Cleared? && e.w != dummy
    ensures InQueue(QueueAfter(s, e, dummy), w) == if e.w != w then InQueue(s, w) else None
  {
    hide InQueue, PosOf, Tidy;
    var i := PlaceOf(s, w, dummy);
    var k := PlaceOf(s, e.w, dummy);
    var s' := QueueAfter(s, e, dummy);
    ClearedQueue(s, e, dummy);
    if e.w == w {
      InQueueIs(s', w, None);
    } else {
      assert InQueue(s, w).Some? ==> s'[i] == s[i];
      InQueueIs(s', w, InQueue(s, w));
    }
  }

  lemma ClearedQueue<W>(s: seq<Slot<W>>, e: Event<W>, dummy: W)
    requires e.Cleared?
    ensures QueueAfter(s, e, dummy) == if InQueue(s, e.w).Some? then s[PosOf(s, e.w) := Slot(dummy, e.events)] else s
  {
  }

  lemma CalledInQueue<W>(s: seq<Slot<W>>, e: Event<W>, w: W, dummy: W)
    requires w != dummy && Tidy(s, dummy) && e.Called? && s != [] && s[|s| - 1] == Slot(e.w, e.events)
    ensures InQueue(QueueAfter(s, e, dummy), w) == if e.w != w then InQueue(s, w) else None
    ensures e.w == w ==> InQueue(s, w) == Some(e.events)
  {
    hide InQueue, PosOf, Tidy;
    var i := PlaceOf(s, w, dummy);
    var s' := QueueAfter(s, e, dummy);
    assert s' == s[..|s| - 1] && s[|s| - 1].w == e.w;
    if e.w == w {
      InQueueIs(s', w, None);
    } else {
      assert InQueue(s, w).Some? ==> s'[i] == s[i];
      InQueueIs(s', w, InQueue(s, w));
    }
  }

  /** A watcher is in its queue with exactly the events collected. */
  lemma {:induction false} QueueTells<W>(q: Queues<W>, h: seq<Event<W>>, w: W, p: nat, dummy: W)
    requires p < NUMPRI && w != dummy && Legal(q, h, dummy) && Tidy(q[p], dummy)
    ensures InQueue(Replay(q, h, dummy)[p], w) == Collected(q, h, w, p)
    decreases |h|
  {
    hide Tidy, QueueAfter, PosOf;
    if h != [] {
      var g, e := h[..|h| - 1], h[|h| - 1];
      QueueTells(q, g, w, p, dummy);
      TidyKept(q, g, p, dummy);
      var s := Replay(q, g, dummy)[p];
      if e.pri == p {
        match e
        case Fed(_, _, _) => FedInQueue(s, e, w, dummy);
        case Cleared(_, _, _) => ClearedInQueue(s, e, w, dummy);
        case Called(_, _, _) => CalledInQueue(s, e, w, dummy);
      }
    }
  }

  /** One of the bits `b` was fed since the watcher was last called or cleared, or has been in the queue
      from the beginning. */
  ghost predicate FedBit<W>(q: Queues<W>, h: seq<Event<W>>, w: W, p: nat, b: bv32)
    requires p < NUMPRI
  {
    || (!SettledIn(h, w, p) && Has(EventsIn(q[p], w), b))
    || exists i :: 0 <= i < |h| && FedAt(h, i, w, p, b)
  }

  ghost predicate FedAt<W>(h: seq<Event<W>>, i: nat, w: W, p: nat, b: bv32)
    requires i < |h|
  {
    h[i].Fed? && h[i].w == w && h[i].pri == p && Has(h[i].events, b) && !SettledIn(h[i + 1..], w, p)
  }

  lemma FedBitNext<W>(q: Queues<W>, h: seq<Event<W>>, e: Event<W>, w: W, p: nat, b: bv32)
    requires p < NUMPRI
    ensures FedBit(q, h + [e], w, p, b) <==>
              if Settles(e, w, p) then false
              else FedBit(q, h, w, p, b) || (e.Fed? && e.w == w && e.pri == p && Has(e.events, b))
  {
    hide Has, EventsIn;
    var g := h + [e];
    SettledNext(h, e, w, p);
    assert g[|h| + 1..] == [];
    assert !SettledIn(g[|h| + 1..], w, p);
    forall i | 0 <= i < |h| ensures FedAt(g, i, w, p, b) <==> FedAt(h, i, w, p, b) && !Settles(e, w, p) {
      assert g[i + 1..] == h[i + 1..] + [e];
      SettledNext(h[i + 1..], e, w, p);
    }
    assert g[|h|] == e;
    if i :| 0 <= i < |h| && FedAt(h, i, w, p, b) {
      assert FedAt(g, i, w, p, b) <==> !Settles(e, w, p);
    }
    if !Settles(e, w, p) && e.Fed? && e.w == w && e.pri == p && Has(e.events, b) {
      assert FedAt(g, |h|, w, p, b);
    }
  }

  lemma SettledNext<W>(h: seq<Event<W>>, e: Event<W>, w: W, p: nat)
    ensures SettledIn(h + [e], w, p) <==> SettledIn(h, w, p) || Settles(e, w, p)
  {
    hide Settles;
    assert (h + [e])[|h|] == e;
    SettledMore(h, h + [e], w, p);
  }

  /** What is collected is, bit by bit, what was fed, and nothing else. */
  lemma {:induction false} CollectedBits<W>(q: Queues<W>, h: seq<Event<W>>, w: W, p: nat, b: bv32)
    requires p < NUMPRI
    ensures var o := Collected(q, h, w, p); FedBit(q, h, w, p, b) <==> o.Some? && Has(o.value, b)
    decreases |h|
  {
    hide Has, Or, FedBit;
    if h == [] {
      NothingFed(q, w, p, b);
    } else {
      var g, e := h[..|h| - 1], h[|h| - 1];
      assert h == g + [e];
      CollectedBits(q, g, w, p, b);
      FedBitNext(q, g, e, w, p, b);
      var o := Collected(q, g, w, p);
      if o.Some? { OrHas(o.value, e.events, b); }
    }
  }

  lemma NothingFed<W>(q: Queues<W>, w: W, p: nat, b: bv32)
    requires p < NUMPRI
    ensures FedBit(q, [], w, p, b) <==> Waits(q[p], w) && Has(q[p][PosOf(q[p], w)].events, b)
  {
    assert !SettledIn<W>([], w, p);
  }

  /** A callback is invoked with exactly the events fed since the watcher was last called or cleared,
      bit by bit, and only if there were any; clearing gives up the same. */
  lemma CallCarries<W>(q: Queues<W>, h: seq<Event<W>>, e: Event<W>, dummy: W)
    requires Legal(q, h + [e], dummy) && e.w != dummy && e.pri < NUMPRI && Tidy(q[e.pri], dummy)
    ensures e.Called? ==> Collected(q, h, e.w, e.pri) == Some(e.events)
    ensures e.Cleared? && Collected(q, h, e.w, e.pri).Some? ==> Collected(q, h, e.w, e.pri) == Some(e.events)
    ensures e.Called? ==> forall b :: Has(e.events, b) <==> FedBit(q, h, e.w, e.pri, b)
  {
    hide Tidy, FedBit, Has;
    forall b ensures FedBit(q, h, e.w, e.pri, b) <==>
                       Collected(q, h, e.w, e.pri).Some? && Has(Collected(q, h, e.w, e.pri).value, b)
    {
      CollectedBits(q, h, e.w, e.pri, b);
    }
    assert (h + [e])[..|h|] == h;
    QueueTells(q, h, e.w, e.pri, dummy);
    TidyKept(q, h, e.pri, dummy);
    if e.Called? {
      CalledInQueue(Replay(q, h, dummy)[e.pri], e, e.w, dummy);
    }
  }

  ghost predicate SettledIn<W>(h: seq<Event<W>>, w: W, p: nat) {
    exists j :: 0 <= j < |h| && Settles(h[j], w, p)
  }

  lemma SettledMore<W>(a: seq<Event<W>>, b: seq<Event<W>>, w: W, p: nat)
    requires a <= b
    ensures SettledIn(a, w, p) ==> SettledIn(b, w, p)
  {
    if SettledIn(a, w, p) {
      var j :| 0 <= j < |a| && Settles(a[j], w, p);
      assert b[j] == a[j];
    }
  }

  /** While a watcher is neither called nor cleared, what was fed stays collected. */
  lemma {:induction false} FedStays<W>(q: Queues<W>, h: seq<Event<W>>, i: nat)
    requires i < |h| && h[i].Fed? && h[i].pri < NUMPRI && !SettledIn(h[i + 1..], h[i].w, h[i].pri)
    ensures var o := Collected(q, h, h[i].w, h[i].pri); o.Some? && Holds(o.value, h[i].events)
    decreases |h|
  {
    var g := h[..|h| - 1];
    if i < |h| - 1 {
      SettledMore(g[i + 1..], h[i + 1..], h[i].w, h[i].pri);
      FedStays(q, g, i);
      assert h[i + 1..][|h| - 1 - (i + 1)] == h[|h| - 1];
      OrStays(Collected(q, g, h[i].w, h[i].pri).value, h[|h| - 1].events, h[i].events);
    } else {
      var o := Collected(q, g, h[i].w, h[i].pri);
      OrStays(h[i].events, if o.Some? then o.value else 0, h[i].events);
    }
  }

  lemma OrStays(a: bv32, b: bv32, e: bv32)
    requires Holds(a, e)
    ensures Holds(Or(a, b), e) && Holds(Or(b, a), e)
  {
    hide Or, Has;
    forall c | Has(e, c) ensures Has(Or(a, b), c) && Has(Or(b, a), c) {
      OrHas(a, b, c);
      OrHas(b, a, c);
    }
  }

  /** Once the queues are empty, whatever was fed was afterwards passed to the callback, or cleared,
      with all its events. */
  lemma FedIsSettled<W>(q: Queues<W>, h: seq<Event<W>>, i: nat, dummy: W) returns (j: nat)
    requires Legal(q, h, dummy) && i < |h| && h[i].Fed? && h[i].pri < NUMPRI && h[i].w != dummy
    requires Tidy(q[h[i].pri], dummy) && Replay(q, h, dummy)[h[i].pri] == []
    ensures i < j < |h| && Settles(h[j], h[i].w, h[i].pri) && Holds(h[j].events, h[i].events)
  {
    hide Tidy, Legal, Replay, Holds, Collected;
    var w, p := h[i].w, h[i].pri;
    if !SettledIn(h[i + 1..], w, p) {
      FedStays(q, h, i);
      QueueTells(q, h, w, p, dummy);
    }
    j := FirstSettle(h, i + 1, w, p);
    assert h == h[..j + 1] + h[j + 1..];
    LegalParts(q, h[..j + 1], h[j + 1..], dummy);
    assert h[..j + 1] == h[..j] + [h[j]];
    CallCarries(q, h[..j], h[j], dummy);
    assert h[..j][i] == h[i];
    FedStays(q, h[..j], i);
  }

  /** The events fed at `i` were later passed to the callback, or cleared. */
  ghost predicate SettledAfter<W>(h: seq<Event<W>>, i: nat)
    requires i < |h|
  {
    exists j :: i < j < |h| && Settles(h[j], h[i].w, h[i].pri) && Holds(h[j].events, h[i].events)
  }

  lemma FedIsLegal<W>(q: Queues<W>, h: seq<Event<W>>, i: nat, dummy: W)
    requires Legal(q, h, dummy) && i < |h| && h[i].Fed?
    ensures h[i].pri < NUMPRI && h[i].w != dummy
  {
    hide Replay;
    assert h == h[..i + 1] + h[i + 1..];
    LegalParts(q, h[..i + 1], h[i + 1..], dummy);
    assert h[..i + 1][..i] == h[..i];
  }

  lemma NothingTidy<W>(dummy: W)
    ensures Tidy([], dummy)
  {
  }

  lemma SettledBy<W>(h: seq<Event<W>>, i: nat, j: nat)
    requires i < j < |h| && Settles(h[j], h[i].w, h[i].pri) && Holds(h[j].events, h[i].events)
    ensures SettledAfter(h, i)
  {
    hide Holds;
  }

  lemma EveryFeedSettled<W>(q: Queues<W>, h: seq<Event<W>>, dummy: W)
    requires Legal(q, h, dummy) && forall p :: 0 <= p < NUMPRI ==> q[p] == [] && Replay(q, h, dummy)[p] == []
    ensures forall i :: 0 <= i < |h| && h[i].Fed? ==> SettledAfter(h, i)
  {
    hide Replay, Holds, Legal, Settles, SettledAfter, Tidy;
    forall i | 0 <= i < |h| && h[i].Fed? ensures SettledAfter(h, i) {
      FedIsLegal(q, h, i, dummy);
      NothingTidy(dummy);
      var j := FedIsSettled(q, h, i, dummy);
      SettledBy(h, i, j);
    }
  }

  /** While a watcher is neither called nor cleared, what it was pending with stays collected. */
  lemma {:induction false} WaitingStays<W>(q: Queues<W>, h: seq<Event<W>>, w: W, p: nat)
    requires p < NUMPRI && Waits(q[p], w) && !SettledIn(h, w, p)
    ensures var o := Collected(q, h, w, p); o.Some? && Holds(o.value, EventsIn(q[p], w))
    decreases |h|
  {
    if h == [] {
      OrStays(EventsIn(q[p], w), 0, EventsIn(q[p], w));
    } else {
      SettledMore(h[..|h| - 1], h, w, p);
      WaitingStays(q, h[..|h| - 1], w, p);
      assert !Settles(h[|h| - 1], w, p);
      OrStays(Collected(q, h[..|h| - 1], w, p).value, h[|h| - 1].events, EventsIn(q[p], w));
    }
  }

  /** Once the queues are empty, whatever was pending at first was passed to the callback, or cleared,
      with all its events. */
  lemma WaitingIsSettled<W>(q: Queues<W>, h: seq<Event<W>>, w: W, p: nat, dummy: W) returns (j: nat)
    requires Legal(q, h, dummy) && p < NUMPRI && w != dummy && Waits(q[p], w)
    requires Tidy(q[p], dummy) && Replay(q, h, dummy)[p] == []
    ensures j < |h| && Settles(h[j], w, p) && Holds(h[j].events, EventsIn(q[p], w))
  {
    hide Tidy, Legal, Replay, Holds, Collected, EventsIn;
    if !SettledIn(h, w, p) {
      WaitingStays(q, h, w, p);
      QueueTells(q, h, w, p, dummy);
    }
    assert h[0..] == h;
    j := FirstSettle(h, 0, w, p);
    assert h == h[..j + 1] + h[j + 1..];
    LegalParts(q, h[..j + 1], h[j + 1..], dummy);
    assert h[..j + 1] == h[..j] + [h[j]];
    CallCarries(q, h[..j], h[j], dummy);
    assert h[0..j] == h[..j];
    WaitingStays(q, h[..j], w, p);
  }

  lemma {:induction false} FirstSettle<W>(h: seq<Event<W>>, i: nat, w: W, p: nat) returns (j: nat)
    requires i <= |h| && SettledIn(h[i..], w, p)
    ensures i <= j < |h| && Settles(h[j], w, p) && !SettledIn(h[i..j], w, p)
    decreases |h| - i
  {
    var k :| 0 <= k < |h[i..]| && Settles(h[i..][k], w, p);
    j := i;
    if !Settles(h[i], w, p) {
      assert h[i + 1..][k - 1] == h[i..][k];
      j := FirstSettle(h, i + 1, w, p);
      assert h[i..j] == [h[i]] + h[i + 1..j];
    }
  }

  /** Slots `i` and `j` of queue `p` are as they were, and `j` has not been reached from above. */
  ghost predicate BothWait<W>(s: seq<Slot<W>>, i: nat, j: nat, w: W, v: W) {
    i < j < |s| && s[i].w == w && s[j].w == v
  }

  lemma {:induction false} BothKept<W>(q: Queues<W>, h: seq<Event<W>>, p: nat, i: nat, j: nat, w: W, v: W, dummy: W)
    requires p < NUMPRI && Legal(q, h, dummy) && Tidy(q[p], dummy) && BothWait(q[p], i, j, w, v) && w != dummy &&
             v != dummy
    requires !SettledIn(h, w, p) && !SettledIn(h, v, p)
    ensures BothWait(Replay(q, h, dummy)[p], i, j, w, v)
    decreases |h|
  {
    hide Tidy, Settles, SettledIn, BothWait, Legal, Possible, After;
    if h != [] {
      var g, e := h[..|h| - 1], h[|h| - 1];
      SettledMore(g, h, w, p);
      SettledMore(g, h, v, p);
      LastIsPossible(q, h, dummy);
      NotSettling(h, w, p);
      NotSettling(h, v, p);
      BothKept(q, g, p, i, j, w, v, dummy);
      TidyKept(q, g, p, dummy);
      BothAfter(Replay(q, g, dummy), e, p, i, j, w, v, dummy);
    }
  }

  lemma LastIsPossible<W>(q: Queues<W>, h: seq<Event<W>>, dummy: W)
    requires Legal(q, h, dummy) && h != []
    ensures Legal(q, h[..|h| - 1], dummy) && Possible(Replay(q, h[..|h| - 1], dummy), h[|h| - 1], dummy)
  {
    hide Possible, Replay;
  }

  lemma NotSettling<W>(h: seq<Event<W>>, w: W, p: nat)
    requires !SettledIn(h, w, p) && h != []
    ensures !Settles(h[|h| - 1], w, p)
  {
    hide Settles;
  }

  lemma BothAfter<W>(q: Queues<W>, e: Event<W>, p: nat, i: nat, j: nat, w: W, v: W, dummy: W)
    requires p < NUMPRI && Possible(q, e, dummy) && Tidy(q[p], dummy) && BothWait(q[p], i, j, w, v)
    requires w != dummy && v != dummy && !Settles(e, w, p) && !Settles(e, v, p)
    ensures BothWait(After(q, e, dummy)[p], i, j, w, v)
  {
    hide Tidy;
  }

  /** Of two watchers of one priority that wait in a queue, the one in the later slot comes first: the
      other's callback is not invoked before the later one was called or cleared, unless the other
      was itself cleared, and fed anew, in between. */
  lemma LaterSlotFirst<W>(q: Queues<W>, h: seq<Event<W>>, m: nat, p: nat, i: nat, j: nat, w: W, v: W, dummy: W)
    requires p < NUMPRI && Legal(q, h, dummy) && Tidy(q[p], dummy) && BothWait(q[p], i, j, w, v) && w != dummy &&
             v != dummy
    requires m < |h| && Settles(h[m], w, p) && h[m].Called? && !SettledIn(h[..m], w, p)
    ensures SettledIn(h[..m], v, p)
  {
    hide Legal, Replay, Tidy, Possible;
    if !SettledIn(h[..m], v, p) {
      BeforeEvent(q, h, m, dummy);
      BothKept(q, h[..m], p, i, j, w, v, dummy);
      TidyKept(q, h[..m], p, dummy);
      CallIsLast(Replay(q, h[..m], dummy), h[m], p, i, j, w, v, dummy);
    }
  }

  lemma BeforeEvent<W>(q: Queues<W>, h: seq<Event<W>>, m: nat, dummy: W)
    requires Legal(q, h, dummy) && m < |h|
    ensures Legal(q, h[..m], dummy) && Possible(Replay(q, h[..m], dummy), h[m], dummy)
  {
    hide Possible;
    assert h == h[..m + 1] + h[m + 1..];
    LegalParts(q, h[..m + 1], h[m + 1..], dummy);
    assert h[..m + 1][..m] == h[..m] && h[..m + 1][m] == h[m];
  }

  /** The watcher called comes last in its queue. */
  lemma CallIsLast<W>(q: Queues<W>, e: Event<W>, p: nat, i: nat, j: nat, w: W, v: W, dummy: W)
    requires p < NUMPRI && Possible(q, e, dummy) && e.Called? && Settles(e, w, p) && Tidy(q[p], dummy) && w != dummy
    ensures !BothWait(q[p], i, j, w, v)
  {
  }

  // ---------- what callbacks do ----------

  /** What a callback does before it returns: feed or clear watchers, or invoke pending events itself. */
  datatype Op<W> = Feed(w: W, revents: bv32) | Clear(w: W) | Invoke

  /** What the callbacks of a run do, one list of operations per invocation. */
  type Script<W> = seq<seq<Op<W>>>

  /** `rest` is what is left of the script. */
  predicate LeftOf<W(==)>(script: Script<W>, rest: Script<W>) {
    |rest| <= |script| && rest == script[|script| - |rest|..]
  }

  // ---------- the drain order ----------

  function Calls<W>(s: seq<Slot<W>>, p: nat): (r: seq<Event<W>>)
    ensures |r| == |s|
  {
    if s == [] then [] else [Called(s[|s| - 1].w, p, s[|s| - 1].events)] + Calls(s[..|s| - 1], p)
  }

  /** The order in which undisturbed callbacks run: highest priority first, last fed first. */
  function Drained<W>(q: Queues<W>): seq<Event<W>> {
    DrainedBelow(q, NUMPRI)
  }

  function DrainedBelow<W>(q: Queues<W>, n: nat): seq<Event<W>>
    requires n <= NUMPRI
  {
    if n == 0 then [] else Calls(q[n - 1], n - 1) + DrainedBelow(q, n - 1)
  }

  lemma {:induction false} DrainedFrom<W>(q: Queues<W>, p: nat, n: nat)
    requires p < n <= NUMPRI && forall r :: p < r < n ==> q[r] == []
    ensures DrainedBelow(q, n) == Calls(q[p], p) + DrainedBelow(q, p)
    decreases n
  {
    hide Calls;
    if p < n - 1 {
      CallsPop(q[n - 1], n - 1);
      DrainedFrom(q, p, n - 1);
    }
  }

  lemma {:induction false} SameBelow<W>(q: Queues<W>, q': Queues<W>, n: nat)
    requires n <= NUMPRI && forall r :: 0 <= r < n ==> q[r] == q'[r]
    ensures DrainedBelow(q, n) == DrainedBelow(q', n)
    decreases n
  {
    if n > 0 {
      SameBelow(q, q', n - 1);
    }
  }

  function Pops<W>(q: Queues<W>, p: nat): Queues<W>
    requires p < NUMPRI && q[p] != []
  {
    q[p := q[p][..|q[p]| - 1]]
  }

  /** Taking the last event of the highest nonempty priority starts the drain order. */
  lemma DrainedStep<W>(q: Queues<W>, p: nat)
    requires p < NUMPRI && q[p] != [] && forall r :: p < r < NUMPRI ==> q[r] == []
    ensures Drained(q) == [Called(q[p][|q[p]| - 1].w, p, q[p][|q[p]| - 1].events)] + Drained(Pops(q, p))
    ensures Total(Pops(q, p)) == Total(q) - 1
  {
    hide Calls, DrainedBelow;
    var first, q' := Called(q[p][|q[p]| - 1].w, p, q[p][|q[p]| - 1].events), Pops(q, p);
    CallsPop(q[p], p);
    DrainedFrom(q, p, NUMPRI);
    DrainedFrom(q', p, NUMPRI);
    SameBelow(q, q', p);
    assert [first] + Calls(q'[p], p) + DrainedBelow(q, p) == [first] + (Calls(q'[p], p) + DrainedBelow(q, p));
  }

  lemma CallsPop<W>(s: seq<Slot<W>>, p: nat)
    ensures Calls(s, p) ==
            if s == [] then [] else [Called(s[|s| - 1].w, p, s[|s| - 1].events)] + Calls(s[..|s| - 1], p)
  {
  }

  /** How many wait in the queues above `p`. */
  function WaitingAbove<W>(q: Queues<W>, p: nat, n: nat): nat
    requires p < n <= NUMPRI
  {
    if n == p + 1 then 0 else |q[n - 1]| + WaitingAbove(q, p, n - 1)
  }

  /** Where slot `i` of queue `p` comes in the drain order. */
  function DrainIndex<W>(q: Queues<W>, p: nat, i: nat): nat
    requires p < NUMPRI && i < |q[p]|
  {
    WaitingAbove(q, p, NUMPRI) + |q[p]| - 1 - i
  }

  lemma {:induction false} CallsAt<W>(s: seq<Slot<W>>, p: nat, i: nat)
    requires i < |s|
    ensures Calls(s, p)[|s| - 1 - i] == Called(s[i].w, p, s[i].events)
    decreases |s|
  {
    if i < |s| - 1 {
      CallsAt(s[..|s| - 1], p, i);
    }
  }

  lemma DrainedAt<W>(q: Queues<W>, p: nat, i: nat)
    requires p < NUMPRI && i < |q[p]|
    ensures DrainIndex(q, p, i) < |Drained(q)|
    ensures Drained(q)[DrainIndex(q, p, i)] == Called(q[p][i].w, p, q[p][i].events)
  {
    hide DrainedBelow, WaitingAbove;
    BelowAt(q, p, i, NUMPRI);
  }

  lemma {:induction false} BelowAt<W>(q: Queues<W>, p: nat, i: nat, n: nat)
    requires p < n <= NUMPRI && i < |q[p]|
    ensures var j := WaitingAbove(q, p, n) + |q[p]| - 1 - i;
            j < |DrainedBelow(q, n)| && DrainedBelow(q, n)[j] == Called(q[p][i].w, p, q[p][i].events)
    decreases n
  {
    hide Calls;
    if n == p + 1 {
      CallsAt(q[p], p, i);
    } else {
      BelowAt(q, p, i, n - 1);
    }
  }

  lemma DrainedEmpty<W>(q: Queues<W>)
    requires forall r :: 0 <= r < NUMPRI ==> q[r] == []
    ensures Drained(q) == [] && Total(q) == 0
  {
    hide DrainedBelow;
    EmptyBelow(q, NUMPRI);
  }

  lemma {:induction false} EmptyBelow<W>(q: Queues<W>, n: nat)
    requires n <= NUMPRI && forall r :: 0 <= r < n ==> q[r] == []
    ensures DrainedBelow(q, n) == []
    decreases n
  {
    if n > 0 {
      EmptyBelow(q, n - 1);
    }
  }

  // ---------- runs with callbacks ----------

  /** What a run does, in order, and what it leaves. */
  datatype Outcome<W> = Outcome(events: seq<Event<W>>, queues: Queues<W>, rest: Script<W>)

  function Before<W>(events: seq<Event<W>>, o: Outcome<W>): Outcome<W> {
    o.(events := events + o.events)
  }

  lemma BeforeBefore<W>(a: seq<Event<W>>, b: seq<Event<W>>, o: Outcome<W>)
    ensures Before(a, Before(b, o)) == Before(a + b, o) && Before([], o) == o
  {
    assert a + (b + o.events) == a + b + o.events;
  }

  /** The highest nonempty priority. */
  function Top<W>(q: Queues<W>): (p: nat)
    requires Total(q) > 0
    ensures p < NUMPRI && q[p] != [] && forall r :: p < r < NUMPRI ==> q[r] == []
  {
    if q[4] != [] then 4 else if q[3] != [] then 3 else if q[2] != [] then 2 else if q[1] != [] then 1 else 0
  }

  /** The feed or clear of an operation on the queues `q`. */
  ghost function EventOf<W>(q: Queues<W>, op: Op<W>, pri: map<W, nat>): Event<W>
    requires !op.Invoke?
  {
    var p := if op.w in pri then pri[op.w] else 0;
    match op
    case Feed(w, revents) => Fed(w, p, revents)
    case Clear(w) => Cleared(w, p, if p < NUMPRI then EventsIn(q[p], w) else 0)
  }

  /** Invoking all that is pending: the last slot of the highest nonempty priority is taken and its
      callback runs, until nothing is left. The callback of a watcher other than the dummy one does what
      the next part of the script says. */
  ghost function Driven<W>(q: Queues<W>, script: Script<W>, pri: map<W, nat>, dummy: W): (o: Outcome<W>)
    ensures |o.rest| <= |script|
    decreases |script|, 0, Total(q)
  {
    if Total(q) == 0 then Outcome([], q, script)
    else
      var p := Top(q);
      var slot := q[p][|q[p]| - 1];
      var call := Called(slot.w, p, slot.events);
      PopsLess(q, p);
      if slot.w == dummy || script == [] then Before([call], Driven(Pops(q, p), script, pri, dummy))
      else
        var o := Performed(Pops(q, p), script[0], script[1..], pri, dummy);
        Before([call] + o.events, Driven(o.queues, o.rest, pri, dummy))
  }

  /** One operation of a callback. */
  ghost function Operated<W>(q: Queues<W>, op: Op<W>, script: Script<W>, pri: map<W, nat>, dummy: W): (o: Outcome<W>)
    ensures |o.rest| <= |script|
    decreases |script|, 1, 0
  {
    if op.Invoke? then Driven(q, script, pri, dummy)
    else
      var e := EventOf(q, op, pri);
      Outcome([e], After(q, e, dummy), script)
  }

  /** What one callback does, operation by operation. */
  ghost function Performed<W>(q: Queues<W>, ops: seq<Op<W>>, script: Script<W>, pri: map<W, nat>,
                              dummy: W): (o: Outcome<W>)
    ensures |o.rest| <= |script|
    decreases |script|, 2, |ops|
  {
    if ops == [] then Outcome([], q, script)
    else
      var o := Operated(q, ops[0], script, pri, dummy);
      Before(o.events, Performed(o.queues, ops[1..], o.rest, pri, dummy))
  }

  lemma PopsLess<W>(q: Queues<W>, p: nat)
    requires p < NUMPRI && q[p] != []
    ensures Total(Pops(q, p)) == Total(q) - 1
  {
  }

  /** One turn of the run, at the highest nonempty priority. */
  lemma DrivenStep<W>(q: Queues<W>, p: nat, script: Script<W>, pri: map<W, nat>, dummy: W)
    requires p < NUMPRI && q[p] != [] && forall r :: p < r < NUMPRI ==> q[r] == []
    ensures var slot := q[p][|q[p]| - 1]; var call := Called(slot.w, p, slot.events);
            Driven(q, script, pri, dummy) ==
              if slot.w == dummy || script == [] then Before([call], Driven(Pops(q, p), script, pri, dummy))
              else var o := Performed(Pops(q, p), script[0], script[1..], pri, dummy);
                   Before([call] + o.events, Driven(o.queues, o.rest, pri, dummy))
  {
    assert Total(q) > 0 && Top(q) == p;
  }

  lemma DrivenDone<W>(q: Queues<W>, script: Script<W>, pri: map<W, nat>, dummy: W)
    requires forall r :: 0 <= r < NUMPRI ==> q[r] == []
    ensures Driven(q, script, pri, dummy) == Outcome([], q, script)
  {
  }

  lemma PerformedDone<W>(q: Queues<W>, script: Script<W>, pri: map<W, nat>, dummy: W)
    ensures Performed(q, [], script, pri, dummy) == Outcome([], q, script)
  {
  }

  lemma PerformedStep<W>(q: Queues<W>, ops: seq<Op<W>>, script: Script<W>, pri: map<W, nat>, dummy: W)
    requires ops != []
    ensures var o := Operated(q, ops[0], script, pri, dummy);
            Performed(q, ops, script, pri, dummy) == Before(o.events, Performed(o.queues, ops[1..], o.rest, pri, dummy))
  {
  }

  /** Callbacks that do nothing run in the drain order. */
  lemma {:induction false} DrivenByNothing<W>(q: Queues<W>, pri: map<W, nat>, dummy: W)
    ensures Driven(q, [], pri, dummy).events == Drained(q)
    decreases Total(q)
  {
    hide Drained;
    if Total(q) == 0 {
      DrainedEmpty(q);
    } else {
      DrainedStep(q, Top(q));
      DrivenByNothing(Pops(q, Top(q)), pri, dummy);
    }
  }

  /** A run leaves nothing pending. */
  lemma {:induction false} DrivenLeavesNothing<W>(q: Queues<W>, script: Script<W>, pri: map<W, nat>, dummy: W)
    ensures Total(Driven(q, script, pri, dummy).queues) == 0
    decreases |script|, Total(q)
  {
    if Total(q) > 0 {
      var p := Top(q);
      DrivenStep(q, p, script, pri, dummy);
      if q[p][|q[p]| - 1].w == dummy || script == [] {
        PopsLess(q, p);
        DrivenLeavesNothing(Pops(q, p), script, pri, dummy);
      } else {
        var o := Performed(Pops(q, p), script[0], script[1..], pri, dummy);
        DrivenLeavesNothing(o.queues, o.rest, pri, dummy);
      }
    }
  }

  /** The watchers of a script have legal priorities, and the dummy watcher is none of them. */
  ghost predicate KnownOps<W>(ops: seq<Op<W>>, pri: map<W, nat>, dummy: W) {
    forall op :: op in ops && !op.Invoke? ==> op.w in pri && pri[op.w] < NUMPRI && op.w != dummy
  }

  ghost predicate Known<W>(script: Script<W>, pri: map<W, nat>, dummy: W) {
    forall ops :: ops in script ==> KnownOps(ops, pri, dummy)
  }

  lemma KnownLeft<W>(script: Script<W>, rest: Script<W>, rest': Script<W>, pri: map<W, nat>, dummy: W)
    requires LeftOf(script, rest) && LeftOf(rest, rest')
    ensures LeftOf(script, rest') && (Known(script, pri, dummy) ==> Known(rest, pri, dummy))
  {
  }

  lemma {:induction false} LegalJoin<W>(q: Queues<W>, a: seq<Event<W>>, b: seq<Event<W>>, dummy: W)
    requires Legal(q, a, dummy) && Legal(Replay(q, a, dummy), b, dummy)
    ensures Legal(q, a + b, dummy) && Replay(q, a + b, dummy) == Replay(Replay(q, a, dummy), b, dummy)
    decreases |b|
  {
    if b == [] {
      assert a + b == a;
    } else {
      var c, e := b[..|b| - 1], b[|b| - 1];
      assert (a + b)[..|a + b| - 1] == a + c && (a + b)[|a + b| - 1] == e;
      LegalJoin(q, a, c, dummy);
    }
  }

  /** The events of an outcome are possible one after the other, and make the queues it leaves. */
  ghost predicate Sequel<W>(q: Queues<W>, o: Outcome<W>, script: Script<W>, dummy: W) {
    Legal(q, o.events, dummy) && Replay(q, o.events, dummy) == o.queues && LeftOf(script, o.rest)
  }

  lemma SequelJoin<W>(q: Queues<W>, a: Outcome<W>, b: Outcome<W>, script: Script<W>, dummy: W)
    requires Sequel(q, a, script, dummy) && Sequel(a.queues, b, a.rest, dummy)
    ensures Sequel(q, Before(a.events, b), script, dummy)
  {
    hide Legal, Replay;
    LegalJoin(q, a.events, b.events, dummy);
  }

  lemma SequelOne<W>(q: Queues<W>, e: Event<W>, script: Script<W>, dummy: W)
    requires Possible(q, e, dummy)
    ensures Sequel(q, Outcome([e], After(q, e, dummy), script), script, dummy)
  {
    hide Possible, After;
    assert Legal(q, [], dummy) && Replay(q, [], dummy) == q;
    LegalNext(q, [], e, dummy);
    assert [] + [e] == [e];
  }

  /** A run is a possible history: every call has the highest nonempty priority when it comes, and
      carries what was collected. */
  lemma {:induction false} DrivenIsPossible<W>(q: Queues<W>, script: Script<W>, pri: map<W, nat>, dummy: W)
    requires Known(script, pri, dummy)
    ensures Sequel(q, Driven(q, script, pri, dummy), script, dummy)
    decreases |script|, 0, Total(q)
  {
    hide Possible, After, Known;
    if Total(q) > 0 {
      var p := Top(q);
      var slot := q[p][|q[p]| - 1];
      var call := Called(slot.w, p, slot.events);
      PopsLess(q, p);
      CallIsPossible(q, p, dummy);
      SequelOne(q, call, script, dummy);
      DrivenStep(q, p, script, pri, dummy);
      if slot.w == dummy || script == [] {
        DrivenIsPossible(Pops(q, p), script, pri, dummy);
        SequelJoin(q, Outcome([call], Pops(q, p), script), Driven(Pops(q, p), script, pri, dummy), script, dummy);
      } else {
        var o := Performed(Pops(q, p), script[0], script[1..], pri, dummy);
        KnownHead(script, pri, dummy);
        PerformedIsPossible(Pops(q, p), script[0], script[1..], pri, dummy);
        KnownLeft(script[1..], o.rest, o.rest, pri, dummy);
        DrivenIsPossible(o.queues, o.rest, pri, dummy);
        var d := Driven(o.queues, o.rest, pri, dummy);
        SequelJoin(Pops(q, p), o, d, script[1..], dummy);
        assert LeftOf(script, script[1..]);
        KnownLeft(script, script[1..], Before(o.events, d).rest, pri, dummy);
        SequelJoin(q, Outcome([call], Pops(q, p), script), Before(o.events, d).(rest := d.rest), script, dummy);
        BeforeBefore([call], o.events, d);
      }
    }
  }

  lemma KnownHead<W>(script: Script<W>, pri: map<W, nat>, dummy: W)
    requires Known(script, pri, dummy) && script != []
    ensures KnownOps(script[0], pri, dummy) && Known(script[1..], pri, dummy)
  {
  }

  lemma CallIsPossible<W>(q: Queues<W>, p: nat, dummy: W)
    requires p < NUMPRI && q[p] != [] && forall r :: p < r < NUMPRI ==> q[r] == []
    ensures var slot := q[p][|q[p]| - 1]; var call := Called(slot.w, p, slot.events);
            Possible(q, call, dummy) && After(q, call, dummy) == Pops(q, p)
  {
  }

  lemma {:induction false} PerformedIsPossible<W>(q: Queues<W>, ops: seq<Op<W>>, script: Script<W>, pri: map<W, nat>,
                                                  dummy: W)
    requires KnownOps(ops, pri, dummy) && Known(script, pri, dummy)
    ensures Sequel(q, Performed(q, ops, script, pri, dummy), script, dummy)
    decreases |script|, 2, |ops|
  {
    hide Possible, After, Known;
    if ops == [] {
      PerformedDone(q, script, pri, dummy);
    } else {
      PerformedStep(q, ops, script, pri, dummy);
      OperatedIsPossible(q, ops[0], script, pri, dummy);
      var o := Operated(q, ops[0], script, pri, dummy);
      KnownLeft(script, o.rest, o.rest, pri, dummy);
      PerformedIsPossible(o.queues, ops[1..], o.rest, pri, dummy);
      SequelJoin(q, o, Performed(o.queues, ops[1..], o.rest, pri, dummy), script, dummy);
    }
  }

  lemma {:induction false} OperatedIsPossible<W>(q: Queues<W>, op: Op<W>, script: Script<W>, pri: map<W, nat>, dummy: W)
    requires KnownOps([op], pri, dummy) && Known(script, pri, dummy)
    ensures Sequel(q, Operated(q, op, script, pri, dummy), script, dummy)
    decreases |script|, 1, 0
  {
    hide After, Known;
    if op.Invoke? {
      DrivenIsPossible(q, script, pri, dummy);
    } else {
      assert op in [op];
      SequelOne(q, EventOf(q, op, pri), script, dummy);
    }
  }

  // ---------- the script is followed ----------

  /** The callback of a watcher other than the dummy one is invoked. */
  predicate IsCallback<W(==)>(e: Event<W>, dummy: W) {
    e.Called? && e.w != dummy
  }

  function Callbacks<W(==)>(h: seq<Event<W>>, dummy: W): nat {
    if h == [] then 0 else Callbacks(h[..|h| - 1], dummy) + if IsCallback(h[|h| - 1], dummy) then 1 else 0
  }

  lemma {:induction false} CallbacksJoin<W>(a: seq<Event<W>>, b: seq<Event<W>>, dummy: W)
    ensures Callbacks(a + b, dummy) == Callbacks(a, dummy) + Callbacks(b, dummy)
    decreases |b|
  {
    if b == [] {
      assert a + b == a;
    } else {
      CallbacksJoin(a, b[..|b| - 1], dummy);
      assert (a + b)[..|a + b| - 1] == a + b[..|b| - 1];
    }
  }

  /** The event is what the operation does. */
  predicate Does<W(==)>(e: Event<W>, op: Op<W>) {
    match op
    case Feed(w, revents) => e.Fed? && e.w == w && e.events == revents
    case Clear(w) => e.Cleared? && e.w == w
    case Invoke => false
  }

  /** How often a feed or clear happens, and how often it is asked for. */
  function Times<W(==)>(h: seq<Event<W>>, op: Op<W>): nat {
    if h == [] then 0 else Times(h[..|h| - 1], op) + if Does(h[|h| - 1], op) then 1 else 0
  }

  lemma {:induction false} TimesJoin<W>(a: seq<Event<W>>, b: seq<Event<W>>, op: Op<W>)
    ensures Times(a + b, op) == Times(a, op) + Times(b, op)
    decreases |b|
  {
    if b == [] {
      assert a + b == a;
    } else {
      TimesJoin(a, b[..|b| - 1], op);
      assert (a + b)[..|a + b| - 1] == a + b[..|b| - 1];
    }
  }

  function Asked<W(==)>(ops: seq<Op<W>>, op: Op<W>): nat {
    if ops == [] then 0 else (if ops[0] == op then 1 else 0) + Asked(ops[1..], op)
  }

  /** How often the first `n` callbacks ask for it. */
  function AskedBy<W(==)>(script: Script<W>, n: nat, op: Op<W>): nat
    requires n <= |script|
  {
    if n == 0 then 0 else Asked(script[0], op) + AskedBy(script[1..], n - 1, op)
  }

  lemma {:induction false} AskedJoin<W>(script: Script<W>, n: nat, m: nat, op: Op<W>)
    requires n + m <= |script|
    ensures AskedBy(script, n + m, op) == AskedBy(script, n, op) + AskedBy(script[n..], m, op)
    decreases n
  {
    if n == 0 {
      assert script[0..] == script;
    } else {
      AskedJoin(script[1..], n - 1, m, op);
      assert script[1..][n - 1..] == script[n..];
    }
  }

  /** None of the operations up to `j` invokes pending events itself. */
  ghost predicate NoneInvokes<W>(ops: seq<Op<W>>, j: nat) {
    forall k :: 0 <= k <= j && k < |ops| ==> !ops[k].Invoke?
  }

  /** The events start with what the operations do, up to the first that invokes pending events itself. */
  ghost predicate Starts<W>(events: seq<Event<W>>, ops: seq<Op<W>>) {
    forall j :: 0 <= j < |ops| && NoneInvokes(ops, j) ==> j < |events| && Does(events[j], ops[j])
  }

  /** Every callback that has a part of the script is followed by what that part asks for, in its order. */
  ghost predicate InOrder<W>(events: seq<Event<W>>, script: Script<W>, dummy: W) {
    forall i :: 0 <= i < |events| && IsCallback(events[i], dummy) && Callbacks(events[..i], dummy) < |script| ==>
      Starts(events[i + 1..], script[Callbacks(events[..i], dummy)])
  }

  /** The callbacks use the script up part by part. */
  ghost predicate UsesUp<W>(o: Outcome<W>, script: Script<W>, dummy: W) {
    var n := Callbacks(o.events, dummy);
    o.rest == script[if n < |script| then n else |script|..]
  }

  /** The feed or clear `x` happens exactly as often as the part of the script used up asks for it, besides
      the operations `ops` that happen anyway. */
  ghost predicate Counted<W>(o: Outcome<W>, ops: seq<Op<W>>, script: Script<W>, x: Op<W>) {
    |o.rest| <= |script| &&
    (!x.Invoke? ==> Times(o.events, x) == Asked(ops, x) + AskedBy(script, |script| - |o.rest|, x))
  }

  ghost predicate Follows<W>(o: Outcome<W>, ops: seq<Op<W>>, script: Script<W>, dummy: W, x: Op<W>) {
    UsesUp(o, script, dummy) && InOrder(o.events, script, dummy) && Counted(o, ops, script, x)
  }

  lemma StartsMore<W>(a: seq<Event<W>>, b: seq<Event<W>>, ops: seq<Op<W>>)
    requires Starts(a, ops)
    ensures Starts(a + b, ops)
  {
    hide Does, NoneInvokes;
    forall j | 0 <= j < |ops| && NoneInvokes(ops, j) ensures j < |a + b| && Does((a + b)[j], ops[j]) {
      assert j < |a| && Does(a[j], ops[j]);
    }
  }

  lemma UsesUpJoin<W>(a: Outcome<W>, b: Outcome<W>, script: Script<W>, dummy: W)
    requires UsesUp(a, script, dummy) && UsesUp(b, a.rest, dummy)
    ensures UsesUp(Before(a.events, b), script, dummy)
  {
    CallbacksJoin(a.events, b.events, dummy);
    hide Callbacks;
    var n, m := Callbacks(a.events, dummy), Callbacks(b.events, dummy);
    if n + m < |script| {
      assert script[n..][m..] == script[n + m..];
    }
  }

  lemma InOrderJoin<W>(a: Outcome<W>, b: Outcome<W>, script: Script<W>, dummy: W)
    requires UsesUp(a, script, dummy) && InOrder(a.events, script, dummy) && InOrder(b.events, a.rest, dummy)
    ensures InOrder(a.events + b.events, script, dummy)
  {
    hide Callbacks, Starts, IsCallback;
    var h, n := a.events + b.events, |a.events|;
    forall i | 0 <= i < |h| && IsCallback(h[i], dummy) && Callbacks(h[..i], dummy) < |script|
      ensures Starts(h[i + 1..], script[Callbacks(h[..i], dummy)])
    {
      if i < n {
        assert h[..i] == a.events[..i] && h[i + 1..] == a.events[i + 1..] + b.events;
        StartsMore(a.events[i + 1..], b.events, script[Callbacks(h[..i], dummy)]);
      } else {
        assert h[..i] == a.events + b.events[..i - n] && h[i + 1..] == b.events[i - n + 1..];
        CallbacksJoin(a.events, b.events[..i - n], dummy);
      }
    }
  }

  lemma CountedJoin<W>(a: Outcome<W>, b: Outcome<W>, ops: seq<Op<W>>, more: seq<Op<W>>, all: seq<Op<W>>,
                       script: Script<W>, x: Op<W>)
    requires LeftOf(script, a.rest) && Counted(a, ops, script, x) && Counted(b, more, a.rest, x)
    requires Asked(all, x) == Asked(ops, x) + Asked(more, x)
    ensures Counted(Before(a.events, b), all, script, x)
  {
    hide Times, Asked, AskedBy;
    TimesJoin(a.events, b.events, x);
    AskedJoin(script, |script| - |a.rest|, |a.rest| - |b.rest|, x);
  }

  lemma UsesUpLeaves<W>(o: Outcome<W>, script: Script<W>, dummy: W)
    requires UsesUp(o, script, dummy)
    ensures LeftOf(script, o.rest)
  {
    hide Callbacks;
  }

  lemma FollowsJoin<W>(a: Outcome<W>, b: Outcome<W>, ops: seq<Op<W>>, more: seq<Op<W>>, all: seq<Op<W>>,
                       script: Script<W>, dummy: W, x: Op<W>)
    requires Follows(a, ops, script, dummy, x) && Follows(b, more, a.rest, dummy, x)
    requires Asked(all, x) == Asked(ops, x) + Asked(more, x)
    ensures Follows(Before(a.events, b), all, script, dummy, x)
  {
    hide UsesUp, InOrder, Counted, Asked;
    UsesUpLeaves(a, script, dummy);
    UsesUpJoin(a, b, script, dummy);
    InOrderJoin(a, b, script, dummy);
    CountedJoin(a, b, ops, more, all, script, x);
  }

  /** A call of the dummy watcher, or one for which no script is left. */
  lemma FollowsCall<W>(call: Event<W>, q: Queues<W>, script: Script<W>, dummy: W, x: Op<W>)
    requires call.Called? && (call.w == dummy || script == [])
    ensures Follows(Outcome([call], q, script), [], script, dummy, x)
  {
    hide Callbacks, Times, Starts;
    OneEvent(call, dummy, x);
    assert [call][..0] == [] && script[0..] == script;
    NothingAsked(x);
  }

  lemma OneEvent<W>(e: Event<W>, dummy: W, x: Op<W>)
    ensures Callbacks([e], dummy) == (if IsCallback(e, dummy) then 1 else 0) && Callbacks([], dummy) == 0
    ensures Times([e], x) == (if Does(e, x) then 1 else 0) && Times([], x) == 0
  {
    assert [e][..0] == [];
  }

  /** A call with the operations that its part of the script asks for. */
  lemma FollowsScript<W>(call: Event<W>, o: Outcome<W>, script: Script<W>, dummy: W, x: Op<W>)
    requires IsCallback(call, dummy) && script != []
    requires Follows(o, script[0], script[1..], dummy, x) && Starts(o.events, script[0])
    ensures Follows(Before([call], o), [], script, dummy, x)
  {
    CallFirst(call, o, script, dummy);
    CallInOrder(call, o, script, dummy);
    CallCounted(call, o, script, x);
  }

  lemma CallFirst<W>(call: Event<W>, o: Outcome<W>, script: Script<W>, dummy: W)
    requires IsCallback(call, dummy) && script != [] && UsesUp(o, script[1..], dummy)
    ensures UsesUp(Before([call], o), script, dummy)
  {
    OneEvent(call, dummy, Invoke);
    CallbacksJoin([call], o.events, dummy);
    hide Callbacks;
    var n := Callbacks(o.events, dummy);
    if n < |script| - 1 {
      assert script[1..][n..] == script[n + 1..];
    }
  }

  lemma CallInOrder<W>(call: Event<W>, o: Outcome<W>, script: Script<W>, dummy: W)
    requires IsCallback(call, dummy) && script != [] && InOrder(o.events, script[1..], dummy)
    requires Starts(o.events, script[0])
    ensures InOrder([call] + o.events, script, dummy)
  {
    OneEvent(call, dummy, Invoke);
    hide Callbacks, Starts, IsCallback;
    var h := [call] + o.events;
    forall i | 0 <= i < |h| && IsCallback(h[i], dummy) && Callbacks(h[..i], dummy) < |script|
      ensures Starts(h[i + 1..], script[Callbacks(h[..i], dummy)])
    {
      if i == 0 {
        assert h[..0] == [] && h[1..] == o.events;
      } else {
        assert h[..i] == [call] + o.events[..i - 1] && h[i + 1..] == o.events[i..];
        CallbacksJoin([call], o.events[..i - 1], dummy);
      }
    }
  }

  lemma CallCounted<W>(call: Event<W>, o: Outcome<W>, script: Script<W>, x: Op<W>)
    requires call.Called? && script != [] && Counted(o, script[0], script[1..], x)
    ensures Counted(Before([call], o), [], script, x)
  {
    hide Asked;
    TimesJoin([call], o.events, x);
    OneEvent(call, call.w, x);
    NothingAsked(x);
  }

  lemma NothingAsked<W>(x: Op<W>)
    ensures Asked([], x) == 0
  {
  }

  lemma FollowsNothing<W>(q: Queues<W>, script: Script<W>, dummy: W, x: Op<W>)
    ensures Follows(Outcome([], q, script), [], script, dummy, x)
  {
  }

  /** A run invokes every callback with its part of the script, which it follows: what a part asks for up to
      its first nested run happens right after the call, in the order of the script; and all feeds and
      clears of the parts used up happen, each as often as asked for, and no others. */
  lemma {:induction false} DrivenFollows<W>(q: Queues<W>, script: Script<W>, pri: map<W, nat>, dummy: W, x: Op<W>)
    ensures Follows(Driven(q, script, pri, dummy), [], script, dummy, x)
    decreases |script|, 0, Total(q)
  {
    hide Follows;
    if Total(q) == 0 {
      FollowsNothing(q, script, dummy, x);
    } else {
      var p := Top(q);
      var slot := q[p][|q[p]| - 1];
      var call := Called(slot.w, p, slot.events);
      PopsLess(q, p);
      DrivenStep(q, p, script, pri, dummy);
      NothingAsked(x);
      if slot.w == dummy || script == [] {
        FollowsCall(call, Pops(q, p), script, dummy, x);
        DrivenFollows(Pops(q, p), script, pri, dummy, x);
        FollowsJoin(Outcome([call], Pops(q, p), script), Driven(Pops(q, p), script, pri, dummy), [], [], [], script,
                    dummy, x);
      } else {
        var o := Performed(Pops(q, p), script[0], script[1..], pri, dummy);
        PerformedFollows(Pops(q, p), script[0], script[1..], pri, dummy, x);
        FollowsScript(call, o, script, dummy, x);
        DrivenFollows(o.queues, o.rest, pri, dummy, x);
        FollowsJoin(Before([call], o), Driven(o.queues, o.rest, pri, dummy), [], [], [], script, dummy, x);
      }
    }
  }

  lemma {:induction false} PerformedFollows<W>(q: Queues<W>, ops: seq<Op<W>>, script: Script<W>, pri: map<W, nat>,
                                               dummy: W, x: Op<W>)
    ensures Follows(Performed(q, ops, script, pri, dummy), ops, script, dummy, x)
    ensures Starts(Performed(q, ops, script, pri, dummy).events, ops)
    decreases |script|, 2, |ops|
  {
    hide Follows, Starts, Operated, Asked;
    if ops == [] {
      PerformedDone(q, script, pri, dummy);
      FollowsNothing(q, script, dummy, x);
      StartsNothing<W>();
    } else {
      PerformedStep(q, ops, script, pri, dummy);
      var o := Operated(q, ops[0], script, pri, dummy);
      OperatedFollows(q, ops[0], script, pri, dummy, x);
      PerformedFollows(o.queues, ops[1..], o.rest, pri, dummy, x);
      var d := Performed(o.queues, ops[1..], o.rest, pri, dummy);
      AskedFirst(ops, x);
      FollowsJoin(o, d, [ops[0]], ops[1..], ops, script, dummy, x);
      StartsNext(o.events, d.events, ops);
    }
  }

  lemma StartsNothing<W>()
    ensures Starts<W>([], [])
  {
  }

  lemma AskedFirst<W>(ops: seq<Op<W>>, x: Op<W>)
    requires ops != []
    ensures Asked(ops, x) == Asked([ops[0]], x) + Asked(ops[1..], x)
  {
    assert [ops[0]][1..] == [];
  }

  lemma StartsNext<W>(a: seq<Event<W>>, b: seq<Event<W>>, ops: seq<Op<W>>)
    requires ops != [] && Starts(b, ops[1..])
    requires !ops[0].Invoke? ==> |a| == 1 && Does(a[0], ops[0])
    ensures Starts(a + b, ops)
  {
    hide Does;
    forall j | 0 <= j < |ops| && NoneInvokes(ops, j) ensures j < |a + b| && Does((a + b)[j], ops[j]) {
      assert !ops[0].Invoke?;
      if j > 0 {
        assert NoneInvokes(ops[1..], j - 1) && ops[1..][j - 1] == ops[j];
        assert Does(b[j - 1], ops[1..][j - 1]);
      }
    }
  }

  lemma {:induction false} OperatedFollows<W>(q: Queues<W>, op: Op<W>, script: Script<W>, pri: map<W, nat>, dummy: W,
                                              x: Op<W>)
    ensures var o := Operated(q, op, script, pri, dummy);
            Follows(o, [op], script, dummy, x) && (!op.Invoke? ==> |o.events| == 1 && Does(o.events[0], op))
    decreases |script|, 1, 0
  {
    if op.Invoke? {
      hide Follows, Driven;
      DrivenFollows(q, script, pri, dummy, x);
      InvokeAsksNothing(Driven(q, script, pri, dummy), script, dummy, x);
    } else {
      hide After;
      EventFollows(EventOf(q, op, pri), op, After(q, EventOf(q, op, pri), dummy), script, dummy, x);
    }
  }

  lemma InvokeAsksNothing<W>(o: Outcome<W>, script: Script<W>, dummy: W, x: Op<W>)
    requires Follows(o, [], script, dummy, x)
    ensures Follows(o, [Invoke], script, dummy, x)
  {
    hide UsesUp, InOrder, Times, AskedBy;
    assert [Op<W>.Invoke][1..] == [];
  }

  lemma EventFollows<W>(e: Event<W>, op: Op<W>, q: Queues<W>, script: Script<W>, dummy: W, x: Op<W>)
    requires Does(e, op)
    ensures Follows(Outcome([e], q, script), [op], script, dummy, x)
  {
    OneEvent(e, dummy, x);
    assert [op][1..] == [];
    assert !x.Invoke? ==> (Does(e, x) <==> x == op);
  }
}
