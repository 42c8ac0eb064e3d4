/** The poll backend: a dense array of poll entries with an index by file descriptor. */
module PollBackend {
  const EV_READ: bv8 := 1
  const EV_WRITE: bv8 := 2
  const POLLIN: bv16 := 1
  const POLLOUT: bv16 := 4

  datatype PollFd = PollFd(fd: nat, events: bv16)

  /** The events asked of the kernel for an event mask. */
  function PollEvents(ev: bv8): bv16 {
    (if ev & EV_READ != 0 then POLLIN else 0) | (if ev & EV_WRITE != 0 then POLLOUT else 0)
  }

  /** The kernel is asked for input exactly when reading is wanted, for output exactly when writing is,
      and for nothing else. */
  predicate KernelBits(asked: bv16, ev: bv8) {
    && (asked & POLLIN != 0 <==> ev & EV_READ != 0)
    && (asked & POLLOUT != 0 <==> ev & EV_WRITE != 0)
    && asked & !(POLLIN | POLLOUT) == 0
  }

  lemma PollEventsBits(ev: bv8)
    ensures KernelBits(PollEvents(ev), ev)
  {
  }

  /** The index `ix` of the first `n` entries of `ps` is their inverse, and -1 elsewhere. */
  ghost predicate Inverse(ix: seq<int>, ps: seq<PollFd>, n: nat) {
    && n <= |ps|
    && (forall i :: 0 <= i < n ==> ps[i].fd < |ix| && ix[ps[i].fd] == i)
    && (forall fd :: 0 <= fd < |ix| && ix[fd] != -1 ==> 0 <= ix[fd] < n && ps[ix[fd]].fd == fd)
  }

  /** The events asked for, by file descriptor. */
  ghost function Asked(ix: seq<int>, ps: seq<PollFd>, n: nat): map<nat, bv16>
    requires Inverse(ix, ps, n)
  {
    map fd | 0 <= fd < |ix| && ix[fd] != -1 :: ps[ix[fd]].events
  }

  ghost predicate HasEntry(ps: seq<PollFd>, n: nat, fd: nat, events: bv16)
    requires n <= |ps|
  {
    exists i :: 0 <= i < n && ps[i] == PollFd(fd, events)
  }

  /** The entries in use are those requests, one each. */
  lemma EntriesAreAsked(ix: seq<int>, ps: seq<PollFd>, n: nat)
    requires Inverse(ix, ps, n)
    ensures forall fd: nat, e: bv16 :: HasEntry(ps, n, fd, e) <==> fd in Asked(ix, ps, n) && Asked(ix, ps, n)[fd] == e
    ensures forall i, j :: 0 <= i < j < n ==> ps[i].fd != ps[j].fd
  {
    forall fd: nat, e: bv16 ensures HasEntry(ps, n, fd, e) <==> fd in Asked(ix, ps, n) && Asked(ix, ps, n)[fd] == e {
      if fd in Asked(ix, ps, n) && Asked(ix, ps, n)[fd] == e {
        assert ps[ix[fd]] == PollFd(fd, e);
      }
    }
    forall i, j | 0 <= i < j < n ensures ps[i].fd != ps[j].fd {
      assert ix[ps[i].fd] == i && ix[ps[j].fd] == j;
    }
  }

  lemma EntrySet(ix: seq<int>, ps: seq<PollFd>, n: nat, fd: nat, events: bv16)
    requires Inverse(ix, ps, n) && fd in Asked(ix, ps, n)
    ensures var ps' := ps[ix[fd] := PollFd(fd, events)];
            Inverse(ix, ps', n) && Asked(ix, ps', n) == Asked(ix, ps, n)[fd := events]
  {
  }

  lemma EntryAdded(ix: seq<int>, ps: seq<PollFd>, n: nat, fd: nat)
    requires Inverse(ix, ps, n) && n < |ps| && fd < |ix| && ix[fd] == -1
    ensures var ix', ps' := ix[fd := n], ps[n := PollFd(fd, ps[n].events)];
            Inverse(ix', ps', n + 1) && Asked(ix', ps', n + 1) == Asked(ix, ps, n)[fd := ps[n].events]
  {
  }

  /** The last entry takes the place of the removed one, or the last one itself goes. */
  lemma EntryRemoved(ix: seq<int>, ps: seq<PollFd>, n: nat, fd: nat)
    requires Inverse(ix, ps, n) && fd in Asked(ix, ps, n)
    ensures ix[fd] < n
    ensures var ix1, i := ix[fd := -1], ix[fd];
            if i < n - 1 then
              var ps', ix' := ps[i := ps[n - 1]], ix1[ps[n - 1].fd := i];
              Inverse(ix', ps', n - 1) && Asked(ix', ps', n - 1) == Asked(ix, ps, n) - {fd}
            else
              Inverse(ix1, ps, n - 1) && Asked(ix1, ps, n - 1) == Asked(ix, ps, n) - {fd}
  {
  }

  lemma MoreIdxs(ix: seq<int>, ix': seq<int>, ps: seq<PollFd>, n: nat)
    requires Inverse(ix, ps, n) && |ix| <= |ix'|
    requires forall fd :: 0 <= fd < |ix'| ==> ix'[fd] == if fd < |ix| then ix[fd] else -1
    ensures Inverse(ix', ps, n) && Asked(ix', ps, n) == Asked(ix, ps, n)
  {
  }

  lemma MorePolls(ix: seq<int>, ps: seq<PollFd>, ps': seq<PollFd>, n: nat)
    requires Inverse(ix, ps, n) && |ps| <= |ps'| && forall i :: 0 <= i < |ps| ==> ps'[i] == ps[i]
    ensures Inverse(ix, ps', n) && Asked(ix, ps', n) == Asked(ix, ps, n)
  {
  }

  lemma AskedIndex(ix: seq<int>, ps: seq<PollFd>, n: nat, fd: nat)
    requires Inverse(ix, ps, n) && fd < |ix|
    ensures n <= |ps| && (forall i :: 0 <= i < n ==> ps[i].fd < |ix|)
    ensures if fd in Asked(ix, ps, n) then 0 <= ix[fd] < n && ps[ix[fd]].fd == fd else ix[fd] == -1
  {
  }

  class Backend {
    var pollidxs: array<int>
    var polls: array<PollFd>
    var pollcnt: nat

    ghost predicate Valid()
      reads this, pollidxs, polls
    {
      Inverse(pollidxs[..], polls[..], pollcnt)
    }

    ghost function Asks(): map<nat, bv16>
      reads this, pollidxs, polls
      requires Valid()
    {
      Asked(pollidxs[..], polls[..], pollcnt)
    }

    constructor ()
      ensures Valid() && Asks() == map[] && fresh(pollidxs) && fresh(polls)
    {
      pollidxs, polls, pollcnt := new int[0], new PollFd[0], 0;
    }

    /** `array_needsize` with `pollidx_init`. */
    method NeedIdxs(cnt: nat)
      requires Valid()
      modifies this`pollidxs
      ensures Valid() && Asks() == old(Asks()) && pollidxs.Length >= cnt &&
              (pollidxs == old(pollidxs) || fresh(pollidxs))
    {
      hide Inverse, Asked;
      if cnt > pollidxs.Length {
        ghost var ix, ps := pollidxs[..], polls[..];
        var a := new int[2 * cnt](_ => -1);
        forall i | 0 <= i < pollidxs.Length {
          a[i] := pollidxs[i];
        }
        pollidxs := a;
        assert polls[..] == ps;
        MoreIdxs(ix, pollidxs[..], ps, pollcnt);
      }
    }

    /** `array_needsize`; new entries are arbitrary. */
    method NeedPolls(cnt: nat)
      requires Valid()
      modifies this`polls
      ensures Valid() && Asks() == old(Asks()) && polls.Length >= cnt && (polls == old(polls) || fresh(polls))
    {
      hide Inverse, Asked;
      if cnt > polls.Length {
        ghost var ix, ps := pollidxs[..], polls[..];
        var a := new PollFd[2 * cnt](_ => PollFd(0, 0));
        forall i | 0 <= i < polls.Length {
          a[i] := polls[i];
        }
        polls := a;
        assert pollidxs[..] == ix;
        MorePolls(ix, ps, polls[..], pollcnt);
      }
    }

    /** The first part of `poll_modify`: the entry of `fd`, appended if there is none. */
    method EntryOf(fd: nat) returns (idx: int)
      requires Valid()
      modifies this, pollidxs, polls
      ensures Valid() && (pollidxs == old(pollidxs) || fresh(pollidxs)) && (polls == old(polls) || fresh(polls))
      ensures fd < pollidxs.Length && idx == pollidxs[fd] && 0 <= idx < pollcnt <= polls.Length && polls[idx].fd == fd
      ensures fd in Asks() && Asks() == old(Asks())[fd := Asks()[fd]]
    {
      hide Inverse, Asked;
      NeedIdxs(fd + 1);
      idx := pollidxs[fd];
      AskedIndex(pollidxs[..], polls[..], pollcnt, fd);
      if idx < 0 {
        NeedPolls(pollcnt + 1);
        EntryAdded(pollidxs[..], polls[..], pollcnt, fd);
        idx := pollcnt;
        pollidxs[fd], pollcnt := idx, pollcnt + 1;
        polls[idx] := PollFd(fd, polls[idx].events);
      }
      AskedIndex(pollidxs[..], polls[..], pollcnt, fd);
    }

    /** `poll_modify`: whatever was asked before, `nev` replaces it unless it equals `oev`. */
    method Modify(fd: nat, oev: bv8, nev: bv8)
      requires Valid()
      modifies this, pollidxs, polls
      ensures Valid() && (pollidxs == old(pollidxs) || fresh(pollidxs)) && (polls == old(polls) || fresh(polls))
      ensures Asks() == if oev == nev then old(Asks())
                        else if nev == 0 then old(Asks()) - {fd}
                        else old(Asks())[fd := PollEvents(nev)]
      ensures oev != nev && nev != 0 ==> fd in Asks() && KernelBits(Asks()[fd], nev)
    {
      hide Inverse, Asked, PollEvents, KernelBits;
      PollEventsBits(nev);
      if oev == nev {
        return;
      }
      var idx := EntryOf(fd);
      ghost var ix, ps, n := pollidxs[..], polls[..], pollcnt;
      AskedIndex(ix, ps, n, fd);
      if nev != 0 {
        EntrySet(ix, ps, n, fd, PollEvents(nev));
        polls[idx] := PollFd(polls[idx].fd, PollEvents(nev));
      } else {
        EntryRemoved(ix, ps, n, fd);
        pollidxs[fd] := -1;
        pollcnt := pollcnt - 1;
        if idx < pollcnt {
          polls[idx] := polls[pollcnt];
          pollidxs[polls[idx].fd] := idx;
        }
      }
    }
  }
}
