/** The 4-ary heap on sequences: what moving one entry down or up does, and that it restores the
    heap order. `EvLoop` proves the in-place loops equal to these functions. */
module Heap4 {

  const DHEAP: nat := 4
  const HEAP0: nat := 3

  /** A heap entry: the watcher and its cached time. */
  datatype Entry<W> = Entry(w: W, at: real)

  /** `HPARENT`, with C's division: the parent of the first entry is itself. */
  function Parent(k: nat): (p: nat)
    requires k >= HEAP0
    ensures HEAP0 <= p <= k && (k > HEAP0 ==> p < k)
  {
    TruncatedQuotient(k - HEAP0 - 1, DHEAP) + HEAP0
  }

  /** C's division rounds towards zero. */
  function TruncatedQuotient(a: int, b: nat): int
    requires b > 0
  {
    if a >= 0 then a / b else -(-a / b)
  }

  function FirstChild(k: nat): (c: nat)
    requires k >= HEAP0
    ensures c > k
  {
    DHEAP * (k - HEAP0) + HEAP0 + 1
  }

  lemma ChildrenOf(k: nat, i: nat)
    requires k >= HEAP0 && i > HEAP0
    ensures Parent(i) == k <==> FirstChild(k) <= i < FirstChild(k) + DHEAP
  {
  }

  predicate IsHeap<W>(h: seq<Entry<W>>, n: nat)
    requires n + HEAP0 <= |h|
  {
    forall i :: HEAP0 < i < n + HEAP0 ==> h[Parent(i)].at <= h[i].at
  }

  /** No watcher occurs twice. */
  ghost predicate Distinct<W>(h: seq<Entry<W>>, n: nat)
    requires n + HEAP0 <= |h|
  {
    forall i, j :: HEAP0 <= i < j < n + HEAP0 ==> h[i].w != h[j].w
  }

  function Swap<W>(h: seq<Entry<W>>, i: nat, j: nat): seq<Entry<W>>
    requires i < |h| && j < |h|
  {
    h[i := h[j]][j := h[i]]
  }

  /** The first of the smallest children of `k`. */
  function MinChild<W>(h: seq<Entry<W>>, n: nat, k: nat): (m: nat)
    requires HEAP0 <= k && FirstChild(k) < n + HEAP0 <= |h|
    ensures FirstChild(k) <= m < FirstChild(k) + DHEAP && m < n + HEAP0
    ensures forall i :: FirstChild(k) <= i < FirstChild(k) + DHEAP && i < n + HEAP0 ==> h[m].at <= h[i].at
  {
    var p := FirstChild(k);
    var m1 := Smaller(h, n, p, p + 1);
    var m2 := Smaller(h, n, m1, p + 2);
    Smaller(h, n, m2, p + 3)
  }

  function Smaller<W>(h: seq<Entry<W>>, n: nat, m: nat, c: nat): nat
    requires m < n + HEAP0 <= |h|
  {
    if c < n + HEAP0 && h[c].at < h[m].at then c else m
  }

  /** `downheap`: the entry at `k` trades places with its smallest child until it is no larger. */
  function Down<W>(h: seq<Entry<W>>, n: nat, k: nat): seq<Entry<W>>
    requires HEAP0 <= k < n + HEAP0 <= |h|
    decreases n + HEAP0 - k
  {
    if FirstChild(k) >= n + HEAP0 || h[k].at <= h[MinChild(h, n, k)].at then h
    else Down(Swap(h, k, MinChild(h, n, k)), n, MinChild(h, n, k))
  }

  /** `upheap`: the entry at `k` trades places with its parent until that is no larger. */
  function Up<W>(h: seq<Entry<W>>, k: nat): seq<Entry<W>>
    requires HEAP0 <= k < |h|
    decreases k
  {
    if Parent(k) == k || h[Parent(k)].at <= h[k].at then h
    else Up(Swap(h, k, Parent(k)), Parent(k))
  }

  function Adjust<W>(h: seq<Entry<W>>, n: nat, k: nat): seq<Entry<W>>
    requires HEAP0 <= k < n + HEAP0 <= |h|
  {
    if k > HEAP0 && h[k].at <= h[Parent(k)].at then Up(h, k) else Down(h, n, k)
  }

  // ---------- order ----------

  /** Ordered but for the entry at `k`, whose surroundings are ordered without it. */
  ghost predicate AlmostHeap<W>(h: seq<Entry<W>>, n: nat, k: nat)
    requires n + HEAP0 <= |h| && HEAP0 <= k
  {
    && (forall i :: HEAP0 < i < n + HEAP0 && i != k && Parent(i) != k ==> h[Parent(i)].at <= h[i].at)
    && (forall i :: HEAP0 < i < n + HEAP0 && Parent(i) == k && k < n + HEAP0 ==>
          h[Parent(k)].at <= h[i].at || k == HEAP0)
  }

  lemma {:induction false} DownOrders<W>(h: seq<Entry<W>>, n: nat, k: nat)
    requires HEAP0 <= k < n + HEAP0 <= |h| && AlmostHeap(h, n, k)
    requires k > HEAP0 ==> h[Parent(k)].at <= h[k].at
    ensures |Down(h, n, k)| == |h| && IsHeap(Down(h, n, k), n)
    decreases n + HEAP0 - k
  {
    if FirstChild(k) < n + HEAP0 && !(h[k].at <= h[MinChild(h, n, k)].at) {
      var m := MinChild(h, n, k);
      ChildrenOf(k, m);
      DownStep(h, n, k);
      DownOrders(Swap(h, k, m), n, m);
    } else {
      forall i | HEAP0 < i < n + HEAP0 ensures h[Parent(i)].at <= h[i].at {
        ChildrenOf(k, i);
      }
    }
  }

  lemma DownStep<W>(h: seq<Entry<W>>, n: nat, k: nat)
    requires HEAP0 <= k && FirstChild(k) < n + HEAP0 <= |h| && AlmostHeap(h, n, k)
    requires k > HEAP0 ==> h[Parent(k)].at <= h[k].at
    requires h[MinChild(h, n, k)].at < h[k].at
    ensures var m := MinChild(h, n, k);
            Parent(m) == k && AlmostHeap(Swap(h, k, m), n, m) && Swap(h, k, m)[Parent(m)].at <= Swap(h, k, m)[m].at
  {
    hide MinChild;
    var m := MinChild(h, n, k);
    ChildrenOf(k, m);
    var s := Swap(h, k, m);
    forall i | HEAP0 < i < n + HEAP0 ensures i != m && Parent(i) != m ==> s[Parent(i)].at <= s[i].at
      ensures Parent(i) == m ==> s[Parent(m)].at <= s[i].at
    {
      ChildrenOf(k, i);
      ChildrenOf(m, i);
    }
  }

  lemma {:induction false} UpOrders<W>(h: seq<Entry<W>>, n: nat, k: nat)
    requires HEAP0 <= k < n + HEAP0 <= |h| && AlmostHeap(h, n, k)
    requires forall i :: HEAP0 < i < n + HEAP0 && Parent(i) == k ==> h[k].at <= h[i].at
    ensures |Up(h, k)| == |h| && IsHeap(Up(h, k), n)
    decreases k
  {
    if Parent(k) != k && !(h[Parent(k)].at <= h[k].at) {
      UpStep(h, n, k);
      UpOrders(Swap(h, k, Parent(k)), n, Parent(k));
    }
  }

  lemma UpStep<W>(h: seq<Entry<W>>, n: nat, k: nat)
    requires HEAP0 < k < n + HEAP0 <= |h| && AlmostHeap(h, n, k)
    requires forall i :: HEAP0 < i < n + HEAP0 && Parent(i) == k ==> h[k].at <= h[i].at
    requires h[k].at < h[Parent(k)].at
    ensures var p := Parent(k); var s := Swap(h, k, p);
            AlmostHeap(s, n, p) && forall i :: HEAP0 < i < n + HEAP0 && Parent(i) == p ==> s[p].at <= s[i].at
  {
    hide Parent;
    var p := Parent(k);
    var s := Swap(h, k, p);
    assert p < k;
  }

  /** Replacing one entry of a heap and adjusting it gives a heap. */
  lemma AdjustOrders<W>(h: seq<Entry<W>>, n: nat, k: nat, e: Entry<W>)
    requires HEAP0 <= k < n + HEAP0 <= |h| && IsHeap(h, n)
    ensures |Adjust(h[k := e], n, k)| == |h| && IsHeap(Adjust(h[k := e], n, k), n)
  {
    hide Parent;
    var s := h[k := e];
    forall i | HEAP0 < i < n + HEAP0 && Parent(i) == k && k > HEAP0 ensures s[Parent(k)].at <= s[i].at {
      assert h[Parent(k)].at <= h[k].at <= h[i].at;
    }
    assert AlmostHeap(s, n, k);
    if k > HEAP0 && s[k].at <= s[Parent(k)].at {
      forall i | HEAP0 < i < n + HEAP0 && Parent(i) == k ensures s[k].at <= s[i].at {
        assert i != k;
      }
      UpOrders(s, n, k);
    } else {
      DownOrders(s, n, k);
    }
  }

  // ---------- contents ----------

  /** `after` rearranges the entries of `before` in use and leaves the others alone. */
  ghost predicate Rearranged<W>(before: seq<Entry<W>>, after: seq<Entry<W>>, n: nat)
    requires n + HEAP0 <= |before|
  {
    && |after| == |before|
    && (forall i :: 0 <= i < |before| && !(HEAP0 <= i < n + HEAP0) ==> after[i] == before[i])
    && multiset(after[HEAP0..n + HEAP0]) == multiset(before[HEAP0..n + HEAP0])
    && (Distinct(before, n) ==> Distinct(after, n))
  }

  lemma SwapDistinct<W>(h: seq<Entry<W>>, n: nat, i: nat, j: nat)
    requires HEAP0 <= i < n + HEAP0 <= |h| && HEAP0 <= j < n + HEAP0
    ensures Distinct(h, n) ==> Distinct(Swap(h, i, j), n)
  {
  }

  lemma SwapRearranges<W>(h: seq<Entry<W>>, n: nat, i: nat, j: nat)
    requires HEAP0 <= i < n + HEAP0 <= |h| && HEAP0 <= j < n + HEAP0
    ensures Rearranged(h, Swap(h, i, j), n)
  {
    hide Distinct;
    SwapDistinct(h, n, i, j);
    var s := Swap(h, i, j);
    var a, b := h[HEAP0..n + HEAP0], s[HEAP0..n + HEAP0];
    assert b == a[i - HEAP0 := a[j - HEAP0]][j - HEAP0 := a[i - HEAP0]];
  }

  lemma RearrangedTwice<W>(a: seq<Entry<W>>, b: seq<Entry<W>>, c: seq<Entry<W>>, n: nat)
    requires n + HEAP0 <= |a| && Rearranged(a, b, n) && Rearranged(b, c, n)
    ensures Rearranged(a, c, n)
  {
  }

  lemma {:induction false} DownRearranges<W>(h: seq<Entry<W>>, n: nat, k: nat)
    requires HEAP0 <= k < n + HEAP0 <= |h|
    ensures Rearranged(h, Down(h, n, k), n)
    decreases n + HEAP0 - k
  {
    hide Rearranged;
    if FirstChild(k) < n + HEAP0 && !(h[k].at <= h[MinChild(h, n, k)].at) {
      var m := MinChild(h, n, k);
      SwapRearranges(h, n, k, m);
      DownRearranges(Swap(h, k, m), n, m);
      RearrangedTwice(h, Swap(h, k, m), Down(h, n, k), n);
    } else {
      SwapRearranges(h, n, k, k);
      assert Swap(h, k, k) == h;
    }
  }

  lemma {:induction false} UpRearranges<W>(h: seq<Entry<W>>, n: nat, k: nat)
    requires HEAP0 <= k < n + HEAP0 <= |h|
    ensures Rearranged(h, Up(h, k), n)
    decreases k
  {
    hide Rearranged;
    if Parent(k) != k && !(h[Parent(k)].at <= h[k].at) {
      var p := Parent(k);
      SwapRearranges(h, n, k, p);
      UpRearranges(Swap(h, k, p), n, p);
      RearrangedTwice(h, Swap(h, k, p), Up(h, k), n);
    } else {
      SwapRearranges(h, n, k, k);
      assert Swap(h, k, k) == h;
    }
  }

  /** The entry at the root is a smallest one. */
  lemma {:induction false} RootIsLeast<W>(h: seq<Entry<W>>, n: nat, i: nat)
    requires HEAP0 <= i < n + HEAP0 <= |h| && IsHeap(h, n)
    ensures h[HEAP0].at <= h[i].at
    decreases i
  {
    if i > HEAP0 {
      RootIsLeast(h, n, Parent(i));
    }
  }

  lemma RearrangedMember<W>(before: seq<Entry<W>>, after: seq<Entry<W>>, n: nat, i: nat) returns (j: nat)
    requires n + HEAP0 <= |before| && Rearranged(before, after, n) && HEAP0 <= i < n + HEAP0
    ensures HEAP0 <= j < n + HEAP0 && before[j] == after[i]
  {
    var a, b := before[HEAP0..n + HEAP0], after[HEAP0..n + HEAP0];
    assert b[i - HEAP0] in multiset(b);
    assert after[i] in a;
    var m :| 0 <= m < |a| && a[m] == after[i];
    j := m + HEAP0;
  }

  lemma DownUnfold<W>(h: seq<Entry<W>>, n: nat, k: nat)
    requires HEAP0 <= k < n + HEAP0 <= |h|
    ensures FirstChild(k) >= n + HEAP0 ==> Down(h, n, k) == h
    ensures FirstChild(k) < n + HEAP0 ==>
              var m := MinChild(h, n, k);
              Down(h, n, k) == if h[k].at <= h[m].at then h else Down(Swap(h, k, m), n, m)
  {
  }

  lemma UpUnfold<W>(h: seq<Entry<W>>, k: nat)
    requires HEAP0 <= k < |h|
    ensures Up(h, k) == if Parent(k) == k || h[Parent(k)].at <= h[k].at then h else Up(Swap(h, k, Parent(k)), Parent(k))
  {
  }
}
