/** I/O watchers in linked lists by file descriptor, and the deferred update of the poll backend. */
module FdReify {
  import opened Collections
  import opened PollBackend

  const EV__IOFDSET: bv8 := 0x80
  const EV_ANFD_REIFY: bv8 := 1

  class Io {
    var fd: int
    var events: bv8
    var active: bool
    var next: Io?

    constructor (fd: int, events: bv8)
      ensures this.fd == fd && this.events == events && !active
    {
      this.fd, this.events, active, next := fd, events, false, null;
    }
  }

  /** `ANFD`: the watchers of a file descriptor, what the backend was last told, what changed since. */
  datatype Anfd = Anfd(head: Io?, events: bv8, reify: bv8)

  function Or(a: bv8, b: bv8): bv8 {
    a | b
  }

  function At(ws: seq<Io>, i: nat): Io? {
    if i < |ws| then ws[i] else null
  }

  /** From `head` the `next` fields run through `ws`. */
  ghost predicate Chain(head: Io?, ws: seq<Io>)
    reads ws`next
  {
    head == At(ws, 0) && forall i :: 0 <= i < |ws| ==> ws[i].next == At(ws, i + 1)
  }

  function Without<T>(s: seq<T>, k: nat): seq<T>
    requires k < |s|
  {
    s[..k] + s[k + 1..]
  }

  lemma TailStep<T>(s: seq<T>, i: nat)
    requires i < |s| && Distinct(s)
    ensures s[i] in s && s[i] !in s[i + 1..] && forall v :: v in s[i..] <==> v == s[i] || v in s[i + 1..]
  {
  }

  lemma WithoutMembers<T>(s: seq<T>, k: nat)
    requires k < |s| && Distinct(s)
    ensures Distinct(Without(s, k))
    ensures forall v :: v in Without(s, k) <==> v in s && v != s[k]
  {
    forall v | v in s && v != s[k] ensures v in Without(s, k) {
      var i :| 0 <= i < |s| && s[i] == v;
      assert Without(s, k)[if i < k then i else i - 1] == v;
    }
  }

  /** The link to element `k` is led past it. */
  lemma LedPast(head: Io?, ws: seq<Io>, k: nat)
    requires k < |ws|
    requires if k == 0 then head == At(ws, 1) else head == ws[0] && ws[k - 1].next == At(ws, k + 1)
    requires forall i :: 0 <= i < |ws| && i != k - 1 ==> ws[i].next == At(ws, i + 1)
    ensures Chain(head, Without(ws, k))
  {
  }

  /** The events of all watchers of a list together. */
  ghost function Mask(ws: seq<Io>): bv8
    reads ws`events
  {
    if ws == [] then 0 else Or(Mask(ws[..|ws| - 1]), ws[|ws| - 1].events)
  }

  lemma OrBit(a: bv8, c: bv8, b: bv8)
    ensures Or(a, c) & b != 0 <==> a & b != 0 || c & b != 0
  {
    assert (a | c) & b == (a & b) | (c & b);
  }

  lemma {:induction false} MaskBit(ws: seq<Io>, b: bv8)
    ensures Mask(ws) & b != 0 <==> exists w :: w in ws && w.events & b != 0
  {
    if ws != [] {
      var last := ws[|ws| - 1];
      MaskBit(ws[..|ws| - 1], b);
      OrBit(Mask(ws[..|ws| - 1]), last.events, b);
      assert forall w :: w in ws <==> w in ws[..|ws| - 1] || w == last;
    }
  }

  lemma AnyBit(m: bv8)
    ensures m & 0xff == m
    ensures (m & EV_READ != 0 ==> m != 0) && (m & EV_WRITE != 0 ==> m != 0)
  {
  }

  /** What the backend asks for when it was told of the recorded events. */
  ghost function Recorded(anfds: seq<Anfd>): map<nat, bv16> {
    map fd: nat | fd < |anfds| && anfds[fd].events != 0 :: PollEvents(anfds[fd].events)
  }

  lemma RecordedStep(anfds: seq<Anfd>, fd: nat, a: Anfd)
    requires fd < |anfds|
    ensures Recorded(anfds[fd := a]) ==
            if a.events == 0 then Recorded(anfds) - {fd} else Recorded(anfds)[fd := PollEvents(a.events)]
  {
    hide PollEvents;
  }

  lemma RecordedSame(a: seq<Anfd>, b: seq<Anfd>)
    requires |a| <= |b|
    requires forall fd :: 0 <= fd < |b| ==> b[fd].events == if fd < |a| then a[fd].events else 0
    ensures Recorded(b) == Recorded(a)
  {
    hide PollEvents;
  }

  class Loop {
    var anfds: seq<Anfd>
    var fdchanges: seq<nat>
    const backend: Backend
    ghost const universe: set<Io>
    ghost var lists: seq<seq<Io>>

    ghost function Active(): set<Io>
      reads universe`active
    {
      set w | w in universe && w.active
    }

    /** The list of `fd` holds its active watchers, each once, and is linked from `head`. */
    ghost predicate ListOk(fd: nat, head: Io?, ws: seq<Io>)
      reads universe`active, universe`fd, universe`next
    {
      && (forall w :: w in ws ==> w in universe && w.active && w.fd == fd)
      && (forall w :: w in Active() && w.fd == fd ==> w in ws)
      && Distinct(ws)
      && Chain(head, ws)
    }

    ghost predicate ListsOk()
      reads this`anfds, this`lists, universe`active, universe`fd, universe`next
    {
      && |lists| == |anfds|
      && (forall fd :: 0 <= fd < |lists| ==> ListOk(fd, anfds[fd].head, lists[fd]))
      && (forall w :: w in Active() ==> 0 <= w.fd < |lists|)
    }

    /** The pending changes are the file descriptors marked for it, each once. */
    ghost predicate ChangesOk()
      reads this`anfds, this`fdchanges
    {
      && Distinct(fdchanges)
      && (forall fd :: 0 <= fd < |anfds| ==> (anfds[fd].reify != 0 <==> fd in fdchanges))
      && (forall fd :: fd in fdchanges ==> fd < |anfds|)
    }

    ghost predicate UpToDate(fd: nat)
      reads this`anfds, this`lists, universe
      requires ListsOk() && fd < |lists|
    {
      anfds[fd].events == Mask(lists[fd])
    }

    /** Where no change is pending, the recorded events are those of the active watchers. */
    ghost predicate EventsOk()
      reads this`anfds, this`lists, universe
      requires ListsOk()
    {
      forall fd :: 0 <= fd < |lists| && anfds[fd].reify == 0 ==> UpToDate(fd)
    }

    /** The same for every file descriptor but one. */
    ghost predicate EventsBut(fd: nat)
      reads this`anfds, this`lists, universe
      requires ListsOk()
    {
      forall f :: 0 <= f < |lists| && f != fd && anfds[f].reify == 0 ==> UpToDate(f)
    }

    ghost predicate BackendOk()
      reads this`anfds, backend, backend.polls, backend.pollidxs
    {
      backend.Valid() && backend.Asks() == Recorded(anfds)
    }

    ghost predicate Valid()
      reads this, universe, backend, backend.polls, backend.pollidxs
    {
      ListsOk() && ChangesOk() && EventsOk() && BackendOk()
    }

    constructor (ghost universe: set<Io>)
      requires forall w :: w in universe ==> !w.active
      ensures Valid() && Active() == {} && fdchanges == []
      ensures this.universe == universe
    {
      backend := new Backend();
      anfds, fdchanges := [], [];
      this.universe, lists := universe, [];
    }

    /** `array_needsize` with `array_init_zero`. */
    method NeedAnfds(cnt: nat)
      requires Valid()
      modifies this`anfds, this`lists
      ensures Valid() && |anfds| >= cnt && |anfds| >= |old(anfds)|
      ensures anfds[..|old(anfds)|] == old(anfds)
    {
      if cnt > |anfds| {
        var more := 2 * cnt - |anfds|;
        RecordedSame(anfds, anfds + seq(more, _ => Anfd(null, 0, 0)));
        ghost var was := lists;
        anfds := anfds + seq(more, _ => Anfd(null, 0, 0));
        lists := lists + seq(more, _ => []);
        assert forall fd :: |was| <= fd < |lists| ==> Mask(lists[fd]) == 0;
      }
    }

    /** `fd_change`: recorded at the first change only. */
    method FdChange(fd: nat, flags: bv8)
      requires fd < |anfds| && ChangesOk() && flags != 0
      modifies this`anfds, this`fdchanges
      ensures ChangesOk()
      ensures anfds == old(anfds)[fd := old(anfds)[fd].(reify := Or(old(anfds)[fd].reify, flags))] &&
              anfds[fd].reify != 0
      ensures fdchanges == if fd in old(fdchanges) then old(fdchanges) else old(fdchanges) + [fd]
    {
      var reify := anfds[fd].reify;
      OrNonzero(reify, flags);
      anfds := anfds[fd := anfds[fd].(reify := Or(reify, flags))];
      if reify == 0 {
        fdchanges := fdchanges + [fd];
      }
    }

    lemma OrNonzero(a: bv8, b: bv8)
      requires b != 0
      ensures Or(a, b) != 0
    {
    }

    /** `wlist_add`. */
    method ListAdd(fd: nat, w: Io)
      requires ListsOk() && fd < |anfds| && w in universe && !w.active && w.fd == fd
      modifies this`anfds, this`lists, w`active, w`next
      ensures ListsOk() && Active() == old(Active()) + {w} && lists == old(lists)[fd := [w] + old(lists)[fd]]
      ensures anfds == old(anfds)[fd := old(anfds)[fd].(head := w)] && (old(ChangesOk()) ==> ChangesOk())
    {
      hide ListOk;
      w.active := true;
      w.next := anfds[fd].head;
      anfds := anfds[fd := anfds[fd].(head := w)];
      lists := lists[fd := [w] + lists[fd]];
      Lengthened(fd);
      OtherListsKept(fd);
    }

    /** A watcher is put before the list of its file descriptor. */
    twostate lemma Lengthened(fd: nat)
      requires fd < |old(lists)| && |lists| == |old(lists)| == |old(anfds)| == |anfds|
      requires lists[fd] != [] && lists[fd][1..] == old(lists)[fd] && old(ListOk(fd, anfds[fd].head, lists[fd]))
      requires var w := lists[fd][0];
               && w in universe && w.fd == fd && !old(w.active) && w.active
               && anfds[fd].head == w && w.next == old(anfds)[fd].head
               && forall v :: v in universe && v != w ==> v.active == old(v.active) && v.next == old(v.next)
      requires forall v :: v in universe ==> v.fd == old(v.fd)
      ensures ListOk(fd, anfds[fd].head, lists[fd])
    {
      var ws := lists[fd];
      assert forall i :: 0 < i < |ws| ==> ws[i] == old(lists)[fd][i - 1];
    }

    /** The search of `wlist_del`: the watcher linked to `w`, or null when the head is. */
    method FindLink(fd: nat, w: Io) returns (link: Io?, ghost k: nat)
      requires ListsOk() && w in Active() && w.fd == fd
      ensures fd < |lists| && k < |lists[fd]| && lists[fd][k] == w && link == if k == 0 then null else lists[fd][k - 1]
    {
      hide ListOk, Chain, Distinct;
      ListFacts(fd, anfds[fd].head, lists[fd]);
      InList(fd, w);
      ghost var ws := lists[fd];
      var cur: Io?;
      link, cur, k := null, anfds[fd].head, 0;
      while cur != w
        invariant 0 <= k < |ws| && cur == At(ws, k) && w in ws[k..]
        invariant link == if k == 0 then null else ws[k - 1]
        decreases |ws| - k
      {
        link, cur, k := cur, cur.next, k + 1;
      }
    }

    /** `wlist_del`: the links pass over the watcher. */
    method Unlink(fd: nat, w: Io) returns (ghost k: nat)
      requires ListsOk() && w in Active() && w.fd == fd
      modifies this`anfds, universe`next
      ensures fd < |lists| && k < |lists[fd]| && lists[fd][k] == w && |anfds| == |old(anfds)| == |lists|
      ensures Chain(anfds[fd].head, Without(lists[fd], k))
      ensures anfds == old(anfds)[fd := old(anfds)[fd].(head := anfds[fd].head)]
      ensures forall v :: v in universe && v !in lists[fd] ==> v.next == old(v.next)
    {
      hide Without, ListOk, Chain, ListsOk, Distinct, Active;
      ListAt(fd, w);
      var link: Io?;
      link, k := FindLink(fd, w);
      ListFacts(fd, anfds[fd].head, lists[fd]);
      if link == null {
        anfds := anfds[fd := anfds[fd].(head := w.next)];
      } else {
        link.next := w.next;
      }
      LedPast(anfds[fd].head, lists[fd], k);
    }

    /** `wlist_del`, and the watcher is stopped. */
    method ListDel(fd: nat, w: Io)
      requires ListsOk() && w in Active() && w.fd == fd
      modifies this`anfds, this`lists, universe`next, w`active
      ensures ListsOk() && Active() == old(Active()) - {w} && |lists| == |old(lists)| && fd < |lists|
      ensures forall f :: 0 <= f < |lists| ==> anfds[f] == old(anfds)[f].(head := anfds[f].head)
      ensures old(ChangesOk()) ==> ChangesOk()
      ensures forall f :: 0 <= f < |lists| && f != fd ==> lists[f] == old(lists)[f]
    {
      hide Without, ListOk, Chain, ListsOk, ChangesOk, Distinct;
      ListAt(fd, w);
      ListFacts(fd, anfds[fd].head, lists[fd]);
      ListWhole(fd, anfds[fd].head, lists[fd]);
      ghost var k := Unlink(fd, w);
      w.active := false;
      WithoutMembers(lists[fd], k);
      lists := lists[fd := Without(lists[fd], k)];
      Shortened(fd);
      OtherListsKept(fd);
      ChangesKept();
    }

    lemma ListWhole(fd: nat, head: Io?, ws: seq<Io>)
      requires ListOk(fd, head, ws)
      ensures forall v :: v in universe && v.active && v.fd == fd ==> v in ws
    {
    }

    lemma ListAt(fd: nat, w: Io)
      requires ListsOk() && w in Active() && w.fd == fd
      ensures |lists| == |anfds| && fd < |lists| && ListOk(fd, anfds[fd].head, lists[fd])
    {
      hide ListOk;
    }

    twostate lemma ChangesKept()
      requires |anfds| == |old(anfds)| && fdchanges == old(fdchanges)
      requires forall f :: 0 <= f < |anfds| ==> anfds[f].reify == old(anfds)[f].reify
      ensures old(ChangesOk()) ==> ChangesOk()
    {
    }

    lemma InList(fd: nat, w: Io)
      requires ListsOk() && w in Active() && w.fd == fd
      ensures fd < |lists| && w in lists[fd]
    {
      assert ListOk(fd, anfds[fd].head, lists[fd]);
    }

    lemma ListFacts(fd: nat, head: Io?, ws: seq<Io>)
      requires ListOk(fd, head, ws)
      ensures head == At(ws, 0) && Distinct(ws) && forall v :: v in ws ==> v in universe && v.active
      ensures forall i :: 0 <= i < |ws| ==> ws[i] in universe && ws[i].fd == fd && ws[i].next == At(ws, i + 1)
    {
    }

    /** The list of a file descriptor keeps the watchers that are still active. */
    twostate lemma Shortened(fd: nat)
      requires fd < |old(lists)| && |lists| == |old(lists)| == |old(anfds)| == |anfds|
      requires old(ListOk(fd, anfds[fd].head, lists[fd])) && Chain(anfds[fd].head, lists[fd]) && Distinct(lists[fd])
      requires forall v :: v in lists[fd] ==> v in old(lists)[fd] && v.active
      requires forall v :: v in old(lists)[fd] && v.active ==> v in lists[fd]
      requires forall v :: v in universe ==> v.fd == old(v.fd) && (v.active ==> old(v.active))
      ensures ListOk(fd, anfds[fd].head, lists[fd])
    {
      hide Chain, Distinct;
    }

    /** What happens to the watchers of one file descriptor leaves the other lists alone. */
    twostate lemma OtherListsKept(fd: nat)
      requires old(ListsOk()) && |lists| == |old(lists)| == |anfds|
      requires fd < |lists| && ListOk(fd, anfds[fd].head, lists[fd])
      requires forall f :: 0 <= f < |lists| && f != fd ==>
                 lists[f] == old(lists)[f] && anfds[f].head == old(anfds)[f].head
      requires forall v :: v in universe ==> v.fd == old(v.fd)
      requires forall v :: v in universe && v.fd != fd ==> v.active == old(v.active) && v.next == old(v.next)
      ensures ListsOk()
    {
      forall f | 0 <= f < |lists| && f != fd ensures ListOk(f, anfds[f].head, lists[f]) {
        assert old(ListOk(f, anfds[f].head, lists[f]));
      }
    }

    lemma SameLength()
      requires ListsOk()
      ensures |lists| == |anfds|
    {
    }

    /** When all is up to date, the backend asks for what the active watchers wait for. */
    lemma Current(fd: nat)
      requires ListsOk() && BackendOk()
      requires forall f :: 0 <= f < |lists| ==> UpToDate(f)
      ensures AskedRight(fd)
    {
      hide PollEvents;
      assert forall w :: w in Active() ==> w.fd < |lists|;
      if fd < |lists| {
        assert ListOk(fd, anfds[fd].head, lists[fd]) && UpToDate(fd);
        WaitedBits(fd, EV_READ);
        WaitedBits(fd, EV_WRITE);
        WaitedBits(fd, 0xff);
        AnyBit(Mask(lists[fd]));
        PollEventsBits(Mask(lists[fd]));
      }
    }

    lemma WaitedBits(fd: nat, b: bv8)
      requires ListsOk() && fd < |lists|
      ensures Mask(lists[fd]) & b != 0 <==> Waited(fd, b)
    {
      hide Mask;
      assert ListOk(fd, anfds[fd].head, lists[fd]);
      MaskBit(lists[fd], b);
    }

    /** Some active watcher of the descriptor waits for one of the bits `b`. */
    ghost predicate Waited(fd: nat, b: bv8)
      reads universe
    {
      exists w :: w in Active() && w.fd == fd && w.events & b != 0
    }

    /** The backend asks the kernel for this descriptor as its active watchers want: for input if and only
        if one reads, for output if and only if one writes, for nothing else, and not at all if none
        waits for anything. */
    ghost predicate AskedRight(fd: nat)
      reads universe, backend, backend.polls, backend.pollidxs
      requires backend.Valid()
    {
      var asks := backend.Asks();
      && (fd in asks <==> Waited(fd, 0xff))
      && (fd in asks && asks[fd] & POLLIN != 0 <==> Waited(fd, EV_READ))
      && (fd in asks && asks[fd] & POLLOUT != 0 <==> Waited(fd, EV_WRITE))
      && (fd in asks ==> asks[fd] & !(POLLIN | POLLOUT) == 0)
    }

    twostate lemma ListsKept()
      requires old(ListsOk()) && lists == old(lists) && |anfds| == |lists|
      requires forall fd :: 0 <= fd < |lists| ==> anfds[fd].head == old(anfds)[fd].head
      requires forall w :: w in universe ==> w.fd == old(w.fd) && w.active == old(w.active) && w.next == old(w.next)
      ensures ListsOk() && Active() == old(Active())
    {
      forall fd | 0 <= fd < |lists| ensures ListOk(fd, anfds[fd].head, lists[fd]) {
        assert old(ListOk(fd, anfds[fd].head, lists[fd]));
      }
    }

    /** What is recorded of every file descriptor but `fd` stays up to date. */
    twostate lemma OthersKept(fd: nat)
      requires old(ListsOk()) && ListsOk() && old(EventsBut(fd)) && |lists| == |old(lists)|
      requires forall f :: 0 <= f < |lists| && f != fd ==>
                 lists[f] == old(lists)[f] && anfds[f].events == old(anfds)[f].events &&
                   anfds[f].reify == old(anfds)[f].reify
      requires forall w :: w in universe && w.fd != fd ==> w.events == old(w.events)
      ensures EventsBut(fd)
    {
      forall f | 0 <= f < |lists| && f != fd && anfds[f].reify == 0 ensures UpToDate(f) {
        assert old(UpToDate(f));
        assert ListOk(f, anfds[f].head, lists[f]);
        assert Mask(lists[f]) == old(Mask(lists[f]));
      }
    }

    lemma EventsPart(fd: nat)
      requires ListsOk() && EventsOk()
      ensures EventsBut(fd)
    {
      hide ListsOk, UpToDate;
    }

    lemma EventsWhole(fd: nat)
      requires ListsOk() && fd < |anfds| && EventsBut(fd) && (fd < |lists| ==> anfds[fd].reify != 0 || UpToDate(fd))
      ensures EventsOk()
    {
      hide UpToDate;
    }

    lemma ValidParts()
      requires Valid()
      ensures ListsOk() && ChangesOk() && EventsOk() && BackendOk() && |lists| == |anfds|
    {
    }

    lemma ValidWhole()
      requires ListsOk() && ChangesOk() && EventsOk() && BackendOk()
      ensures Valid()
    {
    }

    /** The backend is right as long as neither it nor the recorded events change. */
    twostate lemma BackendKept()
      requires old(BackendOk()) && unchanged(backend) && unchanged(backend.polls) && unchanged(backend.pollidxs)
      requires |anfds| == |old(anfds)| && forall f :: 0 <= f < |anfds| ==> anfds[f].events == old(anfds)[f].events
      ensures BackendOk()
    {
      hide Recorded;
      RecordedSame(old(anfds), anfds);
    }

    /** `fd_change` after the list of `fd` was changed. */
    method MarkChanged(fd: nat, flags: bv8)
      requires ListsOk() && ChangesOk() && EventsBut(fd) && BackendOk() && fd < |anfds| == |lists| && flags != 0
      modifies this`anfds, this`fdchanges
      ensures Valid() && fd in fdchanges && |anfds| == |old(anfds)| && anfds[fd].reify != 0
    {
      hide Valid, ListsOk, EventsOk, EventsBut, BackendOk, Or, ChangesOk;
      FdChange(fd, flags);
      ListsKept();
      OthersKept(fd);
      BackendKept();
      EventsWhole(fd);
      ValidWhole();
    }

    /** `ev_io_start`. */
    method IoStart(w: Io)
      requires Valid() && w in universe && w.fd >= 0
      modifies this`anfds, this`fdchanges, this`lists, w`active, w`next, w`events
      ensures Valid() && Active() == old(Active()) + {w}
      ensures old(w.active) ==> unchanged(this) && unchanged(w)
      ensures !old(w.active) ==> w.fd in fdchanges && w.events == old(w.events) & !EV__IOFDSET
    {
      hide ListsOk, EventsOk, BackendOk, ChangesOk;
      if w.active {
        return;
      }
      NeedAnfds(w.fd + 1);
      Register(w);
    }

    /** The rest of `ev_io_start`, when the table is large enough. */
    method Register(w: Io)
      requires Valid() && w in universe && 0 <= w.fd < |anfds| && !w.active
      modifies this`anfds, this`fdchanges, this`lists, w`active, w`next, w`events
      ensures Valid() && Active() == old(Active()) + {w} && w.fd in fdchanges
      ensures w.events == old(w.events) & !EV__IOFDSET
    {
      hide Valid, ListsOk, EventsOk, EventsBut, UpToDate, BackendOk, Or, ChangesOk, Active;
      var fd := w.fd;
      ValidParts();
      EventsPart(fd);
      ListAdd(fd, w);
      OthersKept(fd);
      BackendKept();
      OrNonzero(w.events & EV__IOFDSET, EV_ANFD_REIFY);
      MarkChanged(fd, Or(w.events & EV__IOFDSET, EV_ANFD_REIFY));
      label changed:
      w.events := w.events & !EV__IOFDSET;
      StillValid@changed(fd);
    }

    /** The events of the watchers of a marked file descriptor are free to change. */
    twostate lemma StillValid(fd: nat)
      requires old(Valid()) && unchanged(this) && unchanged(backend) && unchanged(backend.polls) &&
               unchanged(backend.pollidxs)
      requires fd < |anfds| && anfds[fd].reify != 0
      requires forall v :: v in universe ==> v.fd == old(v.fd) && v.active == old(v.active) && v.next == old(v.next)
      requires forall v :: v in universe && v.fd != fd ==> v.events == old(v.events)
      ensures Valid() && Active() == old(Active())
    {
      hide ListOk, BackendOk, UpToDate;
      assert old(EventsBut(fd));
      ListsKept();
      OthersKept(fd);
      BackendKept();
      EventsWhole(fd);
    }

    /** `ev_io_stop`. */
    method IoStop(w: Io)
      requires Valid() && w in universe
      modifies this`anfds, this`fdchanges, this`lists, universe`next, w`active
      ensures Valid() && Active() == old(Active()) - {w}
      ensures !old(w.active) ==> unchanged(this) && unchanged(universe)
      ensures old(w.active) ==> w.fd in fdchanges
    {
      if !w.active {
        return;
      }
      hide Valid, ListsOk, EventsOk, EventsBut, UpToDate, BackendOk, ChangesOk;
      ValidParts();
      ListAt(w.fd, w);
      EventsPart(w.fd);
      ListDel(w.fd, w);
      OthersKept(w.fd);
      BackendKept();
      MarkChanged(w.fd, EV_ANFD_REIFY);
    }

    /** The inner loop of `fd_reify`. */
    method Collect(fd: nat)
      requires ListsOk() && fd < |anfds| && anfds[fd].events == 0
      modifies this`anfds
      ensures |lists| == |anfds| && anfds == old(anfds)[fd := old(anfds)[fd].(events := Mask(lists[fd]))]
    {
      assert ListOk(fd, anfds[fd].head, lists[fd]);
      ghost var ws, k := lists[fd], 0;
      var w := anfds[fd].head;
      while w != null
        invariant 0 <= k <= |ws| && w == At(ws, k)
        invariant anfds == old(anfds)[fd := old(anfds)[fd].(events := Mask(ws[..k]))]
        decreases |ws| - k
      {
        assert ws[..k + 1][..k] == ws[..k];
        anfds := anfds[fd := anfds[fd].(events := Or(anfds[fd].events, w.events))];
        w, k := w.next, k + 1;
      }
      assert ws[..k] == ws;
    }

    /** One round of `fd_reify`. */
    method Reify(fd: nat)
      requires fd < |anfds| && ListsOk() && EventsOk() && BackendOk()
      modifies this`anfds, backend, backend.pollidxs, backend.polls
      ensures ListsOk() && EventsOk() && BackendOk()
      ensures |lists| == |anfds| == |old(anfds)| && anfds == old(anfds)[fd := anfds[fd].(reify := 0)]
      ensures backend.pollidxs == old(backend.pollidxs) || fresh(backend.pollidxs)
      ensures backend.polls == old(backend.polls) || fresh(backend.polls)
    {
      hide Recorded, PollEvents, Mask, EventsOk, EventsBut;
      EventsPart(fd);
      var oEvents, oReify := anfds[fd].events, anfds[fd].reify;
      anfds := anfds[fd := anfds[fd].(reify := 0, events := 0)];
      ListsKept();
      Collect(fd);
      assert anfds == old(anfds)[fd := anfds[fd]];
      RecordedStep(old(anfds), fd, anfds[fd]);
      if oEvents != anfds[fd].events {
        oReify := EV__IOFDSET;
      } else {
        RecordedSame(old(anfds), anfds);
      }
      if oReify & EV__IOFDSET != 0 {
        backend.Modify(fd, oEvents, anfds[fd].events);
      }
      ListsKept();
      OthersKept(fd);
      EventsWhole(fd);
    }

    /** `fd_reify`: the backend asks for exactly the events of the active watchers. */
    method FdReify()
      requires Valid()
      modifies this`anfds, this`fdchanges, backend, backend.pollidxs, backend.polls
      ensures Valid() && fdchanges == []
      ensures forall fd: nat :: AskedRight(fd)
    {
      ReifyAll();
      fdchanges := [];
      hide ListsOk, EventsOk, BackendOk, PollEvents, AskedRight;
      forall fd | 0 <= fd < |lists| ensures UpToDate(fd) {
        OneUpToDate(fd);
      }
      forall fd: nat ensures AskedRight(fd) {
        Current(fd);
      }
    }

    /** The loop of `fd_reify`. */
    method ReifyAll()
      requires Valid()
      modifies this`anfds, backend, backend.pollidxs, backend.polls
      ensures ListsOk() && EventsOk() && BackendOk() && |lists| == |anfds|
      ensures forall fd :: 0 <= fd < |anfds| ==> anfds[fd].reify == 0
      ensures backend.pollidxs == old(backend.pollidxs) || fresh(backend.pollidxs)
      ensures backend.polls == old(backend.polls) || fresh(backend.polls)
    {
      hide ListsOk, EventsOk, BackendOk, Distinct;
      SameLength();
      var i := 0;
      while i < |fdchanges|
        invariant 0 <= i <= |fdchanges| && |lists| == |anfds| == |old(anfds)|
        invariant ListsOk() && EventsOk() && BackendOk()
        invariant forall fd :: 0 <= fd < |anfds| ==> (anfds[fd].reify != 0 <==> fd in fdchanges[i..])
        invariant backend.pollidxs == old(backend.pollidxs) || fresh(backend.pollidxs)
        invariant backend.polls == old(backend.polls) || fresh(backend.polls)
      {
        TailStep(fdchanges, i);
        Reify(fdchanges[i]);
        i := i + 1;
      }
    }

    lemma OneUpToDate(fd: nat)
      requires ListsOk() && EventsOk() && fd < |lists| && anfds[fd].reify == 0
      ensures UpToDate(fd)
    {
    }
  }
}
