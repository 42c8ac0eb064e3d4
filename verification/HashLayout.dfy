/** The memory layout of the chained hash table and the exact effect of one insertion on it,
    on sequences of items. `HashTable` proves its methods against these functions. */
module HashLayout {
  import opened Address128

  const EMPTY: bv16 := 0
  const PREFIX: bv16 := 1
  const MARKER: bv16 := 2

  function Join(a: bv16, b: bv16): bv16 {
    a | b
  }

  predicate Has(state: bv16, flag: bv16) {
    state & flag != 0
  }

  /** A joined state has the flags of both, and no other. */
  lemma JoinHas(a: bv16, b: bv16)
    ensures forall flag :: Has(Join(a, b), flag) <==> Has(a, flag) || Has(b, flag)
  {
    hide Has, Join;
    forall flag ensures Has(Join(a, b), flag) <==> Has(a, flag) || Has(b, flag) {
      FlagOfJoin(a, b, flag);
    }
  }

  lemma FlagOfJoin(a: bv16, b: bv16, flag: bv16)
    ensures Has(Join(a, b), flag) <==> Has(a, flag) || Has(b, flag)
  {
    assert (a | b) & flag == (a & flag) | (b & flag);
  }

  datatype Item = Item(key: U128, val: nat, state: bv16, next: nat)

  datatype Entry = Entry(val: nat, state: bv16)

  /** The first `size` items are the buckets, the next ones up to `free` are used for chaining. */
  datatype Memory = Memory(items: seq<Item>, size: nat, free: nat)

  /** The chain of item indices of every bucket, and the position of every key in its chain. */
  datatype Layout = Layout(chains: seq<seq<nat>>, at: map<U128, nat>)

  ghost predicate Ok(bucket: U128 -> nat, m: Memory, y: Layout) {
    && 1 <= m.size <= m.free < 2 * m.size <= |m.items|
    && |y.chains| == m.size
    && (forall k :: bucket(k) < m.size)
    && (forall h :: 0 <= h < m.size ==> ChainOk(bucket, m, y, h))
    && (forall k :: k in y.at ==> KeyOk(bucket, m, y, k))
    && (forall i :: m.size <= i < 2 * m.size ==> (m.items[i].state == EMPTY <==> m.free <= i))
  }

  /** The chain of bucket `h` is linked by `next`, ends in 0, and holds keys of that bucket. */
  ghost predicate ChainOk(bucket: U128 -> nat, m: Memory, y: Layout, h: nat)
    requires 1 <= m.size <= m.free < 2 * m.size <= |m.items| && h < m.size == |y.chains|
  {
    var c := y.chains[h];
    && |c| >= 1 && c[0] == h
    && (forall j :: 1 <= j < |c| ==> m.size <= c[j] < m.free)
    && (forall j :: 0 <= j < |c| - 1 ==> m.items[c[j]].next == c[j + 1])
    && m.items[c[|c| - 1]].next == 0
    && (m.items[h].state == EMPTY ==> |c| == 1)
    && (m.items[h].state != EMPTY ==> forall j :: 0 <= j < |c| ==> SlotOk(bucket, m, y, h, c[j], j))
  }

  ghost predicate SlotOk(bucket: U128 -> nat, m: Memory, y: Layout, h: nat, i: nat, j: nat)
    requires 1 <= m.size && i < |m.items|
  {
    var k := m.items[i].key;
    m.items[i].state != EMPTY && bucket(k) == h && k in y.at && y.at[k] == j
  }

  ghost predicate KeyOk(bucket: U128 -> nat, m: Memory, y: Layout, k: U128)
    requires m.size <= |m.items| && m.size == |y.chains|
    requires k in y.at && bucket(k) < m.size
  {
    var c := y.chains[bucket(k)];
    && m.items[bucket(k)].state != EMPTY
    && y.at[k] < |c| && c[y.at[k]] < |m.items| && m.items[c[y.at[k]]].key == k
  }

  /** The item index where `k` is stored. */
  ghost function Slot(bucket: U128 -> nat, m: Memory, y: Layout, k: U128): (i: nat)
    requires Ok(bucket, m, y) && k in y.at
    ensures i < m.free && m.items[i].key == k && m.items[i].state != EMPTY
  {
    assert KeyOk(bucket, m, y, k);
    var h := bucket(k);
    assert ChainOk(bucket, m, y, h);
    assert SlotOk(bucket, m, y, h, y.chains[h][y.at[k]], y.at[k]);
    y.chains[h][y.at[k]]
  }

  /** The abstract map the memory stands for. */
  ghost function Contents(bucket: U128 -> nat, m: Memory, y: Layout): map<U128, Entry>
    requires Ok(bucket, m, y)
  {
    map k | k in y.at :: Entry(m.items[Slot(bucket, m, y, k)].val, m.items[Slot(bucket, m, y, k)].state)
  }

  /** The keys that come after `key` in its chain. */
  ghost function Followers(bucket: U128 -> nat, m: Memory, y: Layout, key: U128): set<U128>
    requires Ok(bucket, m, y)
  {
    if key !in y.at then {}
    else set k | k in y.at && bucket(k) == bucket(key) && y.at[k] > y.at[key]
  }

  lemma SizesOk(bucket: U128 -> nat, m: Memory, y: Layout)
    requires Ok(bucket, m, y)
    ensures 1 <= m.size <= m.free < 2 * m.size <= |m.items| && |y.chains| == m.size
    ensures forall k :: bucket(k) < m.size
  {
    hide ChainOk, KeyOk;
  }

  lemma ChainIsOk(bucket: U128 -> nat, m: Memory, y: Layout, h: nat)
    requires Ok(bucket, m, y) && h < m.size
    ensures ChainOk(bucket, m, y, h)
  {
    hide KeyOk;
  }

  lemma ChainsDisjoint(bucket: U128 -> nat, m: Memory, y: Layout, h: nat, j: nat, h': nat, j': nat)
    requires Ok(bucket, m, y) && h < m.size && h' < m.size && j < |y.chains[h]| && j' < |y.chains[h']|
    requires y.chains[h][j] == y.chains[h'][j']
    ensures h == h' && j == j'
  {
    assert ChainOk(bucket, m, y, h) && ChainOk(bucket, m, y, h');
    if m.items[h].state != EMPTY && m.items[h'].state != EMPTY {
      assert SlotOk(bucket, m, y, h, y.chains[h][j], j);
      assert SlotOk(bucket, m, y, h', y.chains[h'][j'], j');
    }
  }

  // ---------- the three ways an insertion can go ----------

  /** The bucket was empty: its head takes the key. */
  function PutHead(m: Memory, h: nat, key: U128, val: nat, state: bv16): Memory
    requires h < |m.items|
  {
    m.(items := m.items[h := Item(key, val, state, 0)])
  }

  lemma PutHeadOk(bucket: U128 -> nat, m: Memory, y: Layout, key: U128, val: nat, state: bv16)
    requires Ok(bucket, m, y) && state != EMPTY
    requires m.items[bucket(key)].state == EMPTY
    ensures var m' := PutHead(m, bucket(key), key, val, state);
            var y' := y.(at := y.at[key := 0]);
            key !in y.at && Ok(bucket, m', y')
  {
    var h := bucket(key);
    var m' := PutHead(m, h, key, val, state);
    var y' := y.(at := y.at[key := 0]);
    assert key in y.at ==> KeyOk(bucket, m, y, key);
    forall g | 0 <= g < m.size ensures ChainOk(bucket, m', y', g) {
      PutHeadChain(bucket, m, y, key, val, state, g);
    }
    assert ChainOk(bucket, m', y', h);
    forall k | k in y'.at ensures KeyOk(bucket, m', y', k) {
      if k != key { PutHeadKeeps(bucket, m, y, key, k); }
    }
  }

  lemma PutHeadContents(bucket: U128 -> nat, m: Memory, y: Layout, key: U128, val: nat, state: bv16)
    requires Ok(bucket, m, y) && m.items[bucket(key)].state == EMPTY
    requires Ok(bucket, PutHead(m, bucket(key), key, val, state), y.(at := y.at[key := 0]))
    ensures Contents(bucket, PutHead(m, bucket(key), key, val, state), y.(at := y.at[key := 0])) ==
              Contents(bucket, m, y)[key := Entry(val, state)]
  {
    hide SlotOk;
    var h := bucket(key);
    var m' := PutHead(m, h, key, val, state);
    var y' := y.(at := y.at[key := 0]);
    forall k | k in y.at ensures Slot(bucket, m', y', k) == Slot(bucket, m, y, k) != h {
      PutHeadKeeps(bucket, m, y, key, k);
    }
    assert ChainOk(bucket, m, y, h);
  }

  lemma PutHeadSlot(bucket: U128 -> nat, m: Memory, y: Layout, key: U128, val: nat, state: bv16, g: nat, j: nat)
    requires Ok(bucket, m, y) && state != EMPTY && g < m.size && key !in y.at && j < |y.chains[g]|
    requires m.items[bucket(key)].state == EMPTY && (g == bucket(key) || m.items[g].state != EMPTY)
    ensures y.chains[g][j] < |m.items|
    ensures SlotOk(bucket, PutHead(m, bucket(key), key, val, state), y.(at := y.at[key := 0]), g, y.chains[g][j], j)
  {
    assert ChainOk(bucket, m, y, g);
    if g != bucket(key) { assert SlotOk(bucket, m, y, g, y.chains[g][j], j); }
  }

  lemma PutHeadChain(bucket: U128 -> nat, m: Memory, y: Layout, key: U128, val: nat, state: bv16, g: nat)
    requires Ok(bucket, m, y) && state != EMPTY && g < m.size && key !in y.at
    requires m.items[bucket(key)].state == EMPTY
    ensures ChainOk(bucket, PutHead(m, bucket(key), key, val, state), y.(at := y.at[key := 0]), g)
  {
    hide Ok, SlotOk;
    SizesOk(bucket, m, y);
    var m', c := PutHead(m, bucket(key), key, val, state), y.chains[g];
    ChainIsOk(bucket, m, y, g);
    if g == bucket(key) {
      PutHeadSlot(bucket, m, y, key, val, state, g, 0);
    } else {
      assert forall j :: 0 <= j < |c| ==> m'.items[c[j]] == m.items[c[j]];
      forall j | 0 <= j < |c| && m.items[g].state != EMPTY
        ensures SlotOk(bucket, m', y.(at := y.at[key := 0]), g, c[j], j)
      {
        PutHeadSlot(bucket, m, y, key, val, state, g, j);
      }
    }
  }

  lemma PutHeadKeeps(bucket: U128 -> nat, m: Memory, y: Layout, key: U128, k: U128)
    requires Ok(bucket, m, y) && k in y.at && m.items[bucket(key)].state == EMPTY
    ensures KeyOk(bucket, m, y, k) && k != key
    ensures bucket(k) != bucket(key)
    ensures y.chains[bucket(k)][y.at[k]] != bucket(key)
  {
    assert KeyOk(bucket, m, y, k);
    assert ChainOk(bucket, m, y, bucket(key));
    assert ChainOk(bucket, m, y, bucket(k));
  }

  /** The key was found at item `i`: its value is replaced, its states are joined, and the chain
      is cut behind it. */
  function PutFound(m: Memory, i: nat, val: nat, state: bv16): Memory
    requires i < |m.items|
  {
    m.(items := m.items[i := Item(m.items[i].key, val, Join(m.items[i].state, state), 0)])
  }

  ghost function CutLayout(bucket: U128 -> nat, m: Memory, y: Layout, key: U128): Layout
    requires Ok(bucket, m, y) && key in y.at
  {
    var h := bucket(key);
    assert KeyOk(bucket, m, y, key);
    Layout(y.chains[h := y.chains[h][..y.at[key] + 1]], y.at - Followers(bucket, m, y, key))
  }

  lemma OrNonzero(a: bv16, b: bv16)
    requires a != 0
    ensures Join(a, b) != 0
  {
  }

  lemma PutFoundChain(bucket: U128 -> nat, m: Memory, y: Layout, key: U128, val: nat, state: bv16, g: nat)
    requires Ok(bucket, m, y) && key in y.at && g < m.size
    ensures ChainOk(bucket, PutFound(m, Slot(bucket, m, y, key), val, state), CutLayout(bucket, m, y, key), g)
  {
    hide SlotOk;
    var h, i := bucket(key), Slot(bucket, m, y, key);
    var m', y' := PutFound(m, i, val, state), CutLayout(bucket, m, y, key);
    assert KeyOk(bucket, m, y, key) && ChainOk(bucket, m, y, g);
    var c, c' := y.chains[g], y'.chains[g];
    forall j | 0 <= j < |c| && c[j] == i ensures g == h && j == y.at[key] {
      ChainsDisjoint(bucket, m, y, g, j, h, y.at[key]);
    }
    assert c' <= c;
    forall j | 0 <= j < |c'| && m'.items[g].state != EMPTY ensures SlotOk(bucket, m', y', g, c'[j], j) {
      PutFoundSlot(bucket, m, y, key, val, state, g, j);
    }
  }

  lemma PutFoundSlot(bucket: U128 -> nat, m: Memory, y: Layout, key: U128, val: nat, state: bv16, g: nat, j: nat)
    requires Ok(bucket, m, y) && key in y.at && g < m.size && m.items[g].state != EMPTY
    requires j < |CutLayout(bucket, m, y, key).chains[g]| <= |y.chains[g]|
    ensures y.chains[g][j] < m.free
    ensures SlotOk(bucket, PutFound(m, Slot(bucket, m, y, key), val, state), CutLayout(bucket, m, y, key), g,
                   y.chains[g][j], j)
  {
    assert KeyOk(bucket, m, y, key) && ChainOk(bucket, m, y, g);
    OrNonzero(m.items[Slot(bucket, m, y, key)].state, state);
    assert SlotOk(bucket, m, y, g, y.chains[g][j], j);
  }

  lemma PutFoundKey(bucket: U128 -> nat, m: Memory, y: Layout, key: U128, k: U128)
    requires Ok(bucket, m, y) && key in y.at && k in CutLayout(bucket, m, y, key).at
    ensures var y' := CutLayout(bucket, m, y, key);
            k in y.at && KeyOk(bucket, m, y, k) &&
            y.at[k] < |y'.chains[bucket(k)]| && y'.chains[bucket(k)][y.at[k]] == y.chains[bucket(k)][y.at[k]]
  {
    assert KeyOk(bucket, m, y, k) && KeyOk(bucket, m, y, key);
  }

  lemma PutFoundOk(bucket: U128 -> nat, m: Memory, y: Layout, key: U128, val: nat, state: bv16)
    requires Ok(bucket, m, y) && key in y.at
    ensures Ok(bucket, PutFound(m, Slot(bucket, m, y, key), val, state), CutLayout(bucket, m, y, key))
  {
    hide SlotOk, Join, ChainOk;
    var i := Slot(bucket, m, y, key);
    var m' := PutFound(m, i, val, state);
    var y' := CutLayout(bucket, m, y, key);
    forall g | 0 <= g < m.size ensures ChainOk(bucket, m', y', g) {
      PutFoundChain(bucket, m, y, key, val, state, g);
    }
    OrNonzero(m.items[i].state, state);
    forall k | k in y'.at ensures KeyOk(bucket, m', y', k) {
      PutFoundKey(bucket, m, y, key, k);
    }
  }

  lemma PutFoundContents(bucket: U128 -> nat, m: Memory, y: Layout, key: U128, val: nat, state: bv16)
    requires Ok(bucket, m, y) && key in y.at
    requires Ok(bucket, PutFound(m, Slot(bucket, m, y, key), val, state), CutLayout(bucket, m, y, key))
    ensures var i := Slot(bucket, m, y, key);
            Contents(bucket, PutFound(m, i, val, state), CutLayout(bucket, m, y, key)) ==
              (Contents(bucket, m, y) - Followers(bucket, m, y, key))[key := Entry(val, Join(m.items[i].state, state))]
  {
    hide Ok, Slot, CutLayout, Contents, Followers, Join, PutFound;
    SizesOk(bucket, m, y);
    var i := Slot(bucket, m, y, key);
    var c := (Contents(bucket, m, y) - Followers(bucket, m, y, key))[key := Entry(val, Join(m.items[i].state, state))];
    var c' := Contents(bucket, PutFound(m, i, val, state), CutLayout(bucket, m, y, key));
    forall k: U128 ensures (k in c' <==> k in c) && (k in c ==> c'[k] == c[k]) {
      PutFoundEntry(bucket, m, y, key, val, state, k);
    }
    assert c'.Keys == c.Keys;
  }

  lemma PutFoundEntry(bucket: U128 -> nat, m: Memory, y: Layout, key: U128, val: nat, state: bv16, k: U128)
    requires Ok(bucket, m, y) && key in y.at
    requires Ok(bucket, PutFound(m, Slot(bucket, m, y, key), val, state), CutLayout(bucket, m, y, key))
    ensures var i := Slot(bucket, m, y, key);
            var e := Entry(val, Join(m.items[i].state, state));
            var c := (Contents(bucket, m, y) - Followers(bucket, m, y, key))[key := e];
            var c' := Contents(bucket, PutFound(m, i, val, state), CutLayout(bucket, m, y, key));
            (k in c' <==> k in c) && (k in c ==> c'[k] == c[k])
  {
    hide ChainOk, SlotOk;
    if k in CutLayout(bucket, m, y, key).at {
      PutFoundKey(bucket, m, y, key, k);
    }
  }

  /** The key was not in the chain ending at item `last`: the free item is linked and takes it. */
  function PutLast(m: Memory, last: nat, key: U128, val: nat, state: bv16): (m': Memory)
    requires last < m.free < |m.items|
    ensures m'.size == m.size && m'.free == m.free + 1 && |m'.items| == |m.items|
    ensures m'.items[m.free] == Item(key, val, state, 0)
    ensures forall i :: 0 <= i < |m.items| && i != m.free ==>
              m'.items[i] == m.items[i].(next := if i == last then m.free else m.items[i].next)
  {
    Memory(m.items[last := m.items[last].(next := m.free)][m.free := Item(key, val, state, 0)], m.size, m.free + 1)
  }

  ghost function LinkedLayout(bucket: U128 -> nat, m: Memory, y: Layout, key: U128): Layout
    requires Ok(bucket, m, y)
  {
    var h := bucket(key);
    var longer: seq<nat> := y.chains[h] + [m.free];
    Layout(y.chains[h := longer], y.at[key := |y.chains[h]|])
  }

  ghost function Last(bucket: U128 -> nat, m: Memory, y: Layout, h: nat): (i: nat)
    requires Ok(bucket, m, y) && h < m.size
    ensures i < m.free
  {
    assert ChainOk(bucket, m, y, h);
    y.chains[h][|y.chains[h]| - 1]
  }

  lemma PutLastChain(bucket: U128 -> nat, m: Memory, y: Layout, key: U128, val: nat, state: bv16, g: nat)
    requires Ok(bucket, m, y) && key !in y.at && state != EMPTY && m.free < 2 * m.size - 1 && g < m.size
    requires m.items[bucket(key)].state != EMPTY
    ensures ChainOk(bucket, PutLast(m, Last(bucket, m, y, bucket(key)), key, val, state),
                    LinkedLayout(bucket, m, y, key), g)
  {
    if g == bucket(key) {
      PutLastOwnChain(bucket, m, y, key, val, state);
    } else {
      PutLastOtherChain(bucket, m, y, key, val, state, g);
    }
  }

  lemma PutLastOwnChain(bucket: U128 -> nat, m: Memory, y: Layout, key: U128, val: nat, state: bv16)
    requires Ok(bucket, m, y) && key !in y.at && state != EMPTY && m.free < 2 * m.size - 1
    requires m.items[bucket(key)].state != EMPTY
    ensures ChainOk(bucket, PutLast(m, Last(bucket, m, y, bucket(key)), key, val, state),
                    LinkedLayout(bucket, m, y, key), bucket(key))
  {
    hide KeyOk;
    var h := bucket(key);
    assert ChainOk(bucket, m, y, h);
    var c, last := y.chains[h], Last(bucket, m, y, h);
    var m', y' := PutLast(m, last, key, val, state), LinkedLayout(bucket, m, y, key);
    forall j | 0 <= j < |c| && c[j] == last ensures j == |c| - 1 {
      ChainsDisjoint(bucket, m, y, h, j, h, |c| - 1);
    }
    forall j | 0 <= j < |c| ensures SlotOk(bucket, m', y', h, c[j], j) {
      assert SlotOk(bucket, m, y, h, c[j], j);
    }
    assert SlotOk(bucket, m', y', h, m.free, |c|);
  }

  lemma PutLastOtherChain(bucket: U128 -> nat, m: Memory, y: Layout, key: U128, val: nat, state: bv16, g: nat)
    requires Ok(bucket, m, y) && key !in y.at && m.free < 2 * m.size - 1 && g < m.size && g != bucket(key)
    ensures ChainOk(bucket, PutLast(m, Last(bucket, m, y, bucket(key)), key, val, state),
                    LinkedLayout(bucket, m, y, key), g)
  {
    hide KeyOk;
    var h := bucket(key);
    assert ChainOk(bucket, m, y, h) && ChainOk(bucket, m, y, g);
    var c, last := y.chains[g], Last(bucket, m, y, h);
    var m', y' := PutLast(m, last, key, val, state), LinkedLayout(bucket, m, y, key);
    forall j | 0 <= j < |c| ensures c[j] != last {
      if c[j] == last { ChainsDisjoint(bucket, m, y, g, j, h, |y.chains[h]| - 1); }
    }
    forall j | 0 <= j < |c| && m.items[g].state != EMPTY ensures SlotOk(bucket, m', y', g, c[j], j) {
      assert SlotOk(bucket, m, y, g, c[j], j);
    }
  }

  lemma PutLastOk(bucket: U128 -> nat, m: Memory, y: Layout, key: U128, val: nat, state: bv16)
    requires Ok(bucket, m, y) && key !in y.at && state != EMPTY && m.free < 2 * m.size - 1
    requires m.items[bucket(key)].state != EMPTY
    ensures Ok(bucket, PutLast(m, Last(bucket, m, y, bucket(key)), key, val, state), LinkedLayout(bucket, m, y, key))
  {
    var m' := PutLast(m, Last(bucket, m, y, bucket(key)), key, val, state);
    var y' := LinkedLayout(bucket, m, y, key);
    forall g | 0 <= g < m.size ensures ChainOk(bucket, m', y', g) {
      PutLastChain(bucket, m, y, key, val, state, g);
    }
    forall k | k in y'.at ensures KeyOk(bucket, m', y', k) {
      if k != key { PutLastKey(bucket, m, y, key, k); }
    }
  }

  lemma PutLastKey(bucket: U128 -> nat, m: Memory, y: Layout, key: U128, k: U128)
    requires Ok(bucket, m, y) && k in y.at && k != key
    ensures var y' := LinkedLayout(bucket, m, y, key);
            KeyOk(bucket, m, y, k) && y'.at[k] == y.at[k] && Slot(bucket, m, y, k) < m.free &&
            y.at[k] < |y'.chains[bucket(k)]| && y'.chains[bucket(k)][y.at[k]] == Slot(bucket, m, y, k)
  {
    assert KeyOk(bucket, m, y, k);
  }

  lemma PutLastSlot(bucket: U128 -> nat, m: Memory, y: Layout, key: U128, val: nat, state: bv16, k: U128)
    requires Ok(bucket, m, y) && key !in y.at && m.items[bucket(key)].state != EMPTY && (k == key || k in y.at)
    requires m.free < |m.items|
    requires Ok(bucket, PutLast(m, Last(bucket, m, y, bucket(key)), key, val, state), LinkedLayout(bucket, m, y, key))
    ensures Slot(bucket, PutLast(m, Last(bucket, m, y, bucket(key)), key, val, state), LinkedLayout(bucket, m, y, key),
                 k) ==
              if k == key then m.free else Slot(bucket, m, y, k)
  {
    hide ChainOk, SlotOk;
    if k != key { PutLastKey(bucket, m, y, key, k); }
  }

  lemma PutLastEntry(bucket: U128 -> nat, m: Memory, y: Layout, key: U128, val: nat, state: bv16, k: U128)
    requires Ok(bucket, m, y) && key !in y.at && m.items[bucket(key)].state != EMPTY && m.free < |m.items|
    requires Ok(bucket, PutLast(m, Last(bucket, m, y, bucket(key)), key, val, state), LinkedLayout(bucket, m, y, key))
    ensures var c := Contents(bucket, m, y)[key := Entry(val, state)];
            var c' := Contents(bucket, PutLast(m, Last(bucket, m, y, bucket(key)), key, val, state),
                               LinkedLayout(bucket, m, y, key));
            (k in c' <==> k in c) && (k in c ==> c'[k] == c[k])
  {
    hide Ok, Slot;
    SizesOk(bucket, m, y);
    if k == key || k in y.at {
      PutLastSlot(bucket, m, y, key, val, state, k);
    }
  }

  lemma PutLastContents(bucket: U128 -> nat, m: Memory, y: Layout, key: U128, val: nat, state: bv16)
    requires Ok(bucket, m, y) && key !in y.at && m.items[bucket(key)].state != EMPTY
    requires m.free < |m.items|
    requires Ok(bucket, PutLast(m, Last(bucket, m, y, bucket(key)), key, val, state), LinkedLayout(bucket, m, y, key))
    ensures Contents(bucket, PutLast(m, Last(bucket, m, y, bucket(key)), key, val, state),
                     LinkedLayout(bucket, m, y, key)) ==
              Contents(bucket, m, y)[key := Entry(val, state)]
  {
    hide Ok, Contents, PutLast, Last, LinkedLayout;
    SizesOk(bucket, m, y);
    var c := Contents(bucket, m, y)[key := Entry(val, state)];
    var c' := Contents(bucket, PutLast(m, Last(bucket, m, y, bucket(key)), key, val, state),
                       LinkedLayout(bucket, m, y, key));
    forall k: U128 ensures (k in c' <==> k in c) && (k in c ==> c'[k] == c[k]) {
      PutLastEntry(bucket, m, y, key, val, state, k);
    }
    assert c'.Keys == c.Keys;
  }

  /** Every occupied item belongs to a chain: nothing was cut off before. */
  ghost predicate Tight(bucket: U128 -> nat, m: Memory, y: Layout)
    requires Ok(bucket, m, y)
  {
    forall i :: 0 <= i < m.free && m.items[i].state != EMPTY ==>
      m.items[i].key in y.at && Slot(bucket, m, y, m.items[i].key) == i
  }

  /** The keys of the items that are not empty, in the order of the items. */
  function Listed(items: seq<Item>): seq<U128> {
    if items == [] then []
    else
      var last := items[|items| - 1];
      Listed(items[..|items| - 1]) + if last.state != EMPTY then [last.key] else []
  }

  lemma ListedNext(items: seq<Item>, i: nat)
    requires i < |items|
    ensures Listed(items[..i + 1]) == Listed(items[..i]) + if items[i].state != EMPTY then [items[i].key] else []
  {
    assert items[..i + 1][..i] == items[..i];
  }

  /** Empty items add nothing. */
  lemma {:induction false} ListedSkips(items: seq<Item>, i: nat, n: nat)
    requires i <= n <= |items| && forall j :: i <= j < n ==> items[j].state == EMPTY
    ensures Listed(items[..n]) == Listed(items[..i])
    decreases n
  {
    if i < n {
      ListedSkips(items, i, n - 1);
      ListedNext(items, n - 1);
    }
  }

  lemma {:induction false} ListedPart(items: seq<Item>, i: nat, n: nat)
    requires i <= n <= |items|
    ensures Listed(items[..i]) <= Listed(items[..n])
    decreases n
  {
    if i < n {
      ListedPart(items, i, n - 1);
      ListedNext(items, n - 1);
    }
  }

  /** Items with different keys are listed once each. */
  lemma {:induction false} ListedOnce(items: seq<Item>, n: nat)
    requires n <= |items|
    requires forall i, j :: 0 <= i < j < n && items[i].state != EMPTY && items[j].state != EMPTY ==>
               items[i].key != items[j].key
    ensures forall k :: k in Listed(items[..n]) <==>
              exists i :: 0 <= i < n && items[i].state != EMPTY && items[i].key == k
    ensures var q := Listed(items[..n]); forall i, j :: 0 <= i < j < |q| ==> q[i] != q[j]
    decreases n
  {
    if n > 0 {
      ListedOnce(items, n - 1);
      ListedNext(items, n - 1);
      assert items[n - 1].state != EMPTY ==> items[n - 1].key !in Listed(items[..n - 1]);
    }
  }

  lemma PutHeadTight(bucket: U128 -> nat, m: Memory, y: Layout, key: U128, val: nat, state: bv16)
    requires Ok(bucket, m, y) && Tight(bucket, m, y) && m.items[bucket(key)].state == EMPTY
    requires Ok(bucket, PutHead(m, bucket(key), key, val, state), y.(at := y.at[key := 0]))
    ensures Tight(bucket, PutHead(m, bucket(key), key, val, state), y.(at := y.at[key := 0]))
  {
    var h := bucket(key);
    var m' := PutHead(m, h, key, val, state);
    var y' := y.(at := y.at[key := 0]);
    assert ChainOk(bucket, m, y, h);
    forall i | 0 <= i < m.free && m'.items[i].state != EMPTY
      ensures m'.items[i].key in y'.at && Slot(bucket, m', y', m'.items[i].key) == i
    {
      if i != h { PutHeadKeeps(bucket, m, y, key, m.items[i].key); }
    }
  }

  lemma PutFoundTight(bucket: U128 -> nat, m: Memory, y: Layout, key: U128, val: nat, state: bv16)
    requires Ok(bucket, m, y) && Tight(bucket, m, y) && key in y.at && Followers(bucket, m, y, key) == {}
    requires Ok(bucket, PutFound(m, Slot(bucket, m, y, key), val, state), CutLayout(bucket, m, y, key))
    ensures Tight(bucket, PutFound(m, Slot(bucket, m, y, key), val, state), CutLayout(bucket, m, y, key))
  {
    hide Ok, Slot, CutLayout;
    SizesOk(bucket, m, y);
    var m' := PutFound(m, Slot(bucket, m, y, key), val, state);
    var y' := CutLayout(bucket, m, y, key);
    forall i | 0 <= i < m.free && m'.items[i].state != EMPTY
      ensures m'.items[i].key in y'.at && Slot(bucket, m', y', m'.items[i].key) == i
    {
      assert m.items[i].key == m'.items[i].key;
      assert m.items[i].state != EMPTY;
      PutFoundKeepsSlot(bucket, m, y, key, val, state, m.items[i].key);
    }
  }

  lemma PutFoundKeepsSlot(bucket: U128 -> nat, m: Memory, y: Layout, key: U128, val: nat, state: bv16, k: U128)
    requires Ok(bucket, m, y) && key in y.at && Followers(bucket, m, y, key) == {} && k in y.at
    requires Ok(bucket, PutFound(m, Slot(bucket, m, y, key), val, state), CutLayout(bucket, m, y, key))
    ensures k in CutLayout(bucket, m, y, key).at
    ensures Slot(bucket, PutFound(m, Slot(bucket, m, y, key), val, state), CutLayout(bucket, m, y, key), k) ==
              Slot(bucket, m, y, k)
  {
    hide ChainOk, SlotOk, Join;
    assert CutLayout(bucket, m, y, key).at == y.at;
    PutFoundKey(bucket, m, y, key, k);
  }

  lemma PutLastTight(bucket: U128 -> nat, m: Memory, y: Layout, key: U128, val: nat, state: bv16)
    requires Ok(bucket, m, y) && Tight(bucket, m, y) && key !in y.at
    requires m.free < |m.items|
    requires Ok(bucket, PutLast(m, Last(bucket, m, y, bucket(key)), key, val, state), LinkedLayout(bucket, m, y, key))
    ensures Tight(bucket, PutLast(m, Last(bucket, m, y, bucket(key)), key, val, state), LinkedLayout(bucket, m, y, key))
  {
    var m' := PutLast(m, Last(bucket, m, y, bucket(key)), key, val, state);
    var y' := LinkedLayout(bucket, m, y, key);
    forall i | 0 <= i < m'.free && m'.items[i].state != EMPTY
      ensures m'.items[i].key in y'.at && Slot(bucket, m', y', m'.items[i].key) == i
    {
      if i != m.free { PutLastKey(bucket, m, y, key, m.items[i].key); }
    }
  }

  // ---------- summaries used by the in-place insertion ----------

  function Linked(m: Memory, last: nat, key: U128): seq<Item>
    requires last < |m.items| && m.free < |m.items|
  {
    var linked := m.items[last := m.items[last].(next := m.free)];
    linked[m.free := linked[m.free].(key := key)]
  }

  /** One item of the chain of a nonempty bucket, as a walk meets it. */
  lemma ChainStep(bucket: U128 -> nat, m: Memory, y: Layout, h: nat, j: nat)
    requires Ok(bucket, m, y) && h < m.size && m.items[h].state != EMPTY && j < |y.chains[h]|
    ensures m.free < 2 * m.size <= |m.items| && y.chains[h][j] < m.free && y.chains[h][0] == h
    ensures var i := y.chains[h][j];
            && (if j + 1 < |y.chains[h]| then m.items[i].next == y.chains[h][j + 1] != 0 else m.items[i].next == 0)
            && m.items[i].key in y.at && Slot(bucket, m, y, m.items[i].key) == i
  {
    hide KeyOk;
    assert ChainOk(bucket, m, y, h);
    assert SlotOk(bucket, m, y, h, y.chains[h][j], j);
  }

  lemma ChainStarts(bucket: U128 -> nat, m: Memory, y: Layout, h: nat)
    requires Ok(bucket, m, y) && h < m.size
    ensures 1 <= |y.chains[h]| && y.chains[h][0] == h
  {
    hide KeyOk;
    assert ChainOk(bucket, m, y, h);
  }

  /** The key is not in the first `n` items of the chain `c`. */
  ghost predicate NotAmong(m: Memory, c: seq<nat>, n: nat, key: U128) {
    forall i :: 0 <= i < n && i < |c| && c[i] < |m.items| ==> m.items[c[i]].key != key
  }

  lemma NoneAmong(m: Memory, c: seq<nat>, key: U128)
    ensures NotAmong(m, c, 0, key)
  {
  }

  lemma NotHere(m: Memory, c: seq<nat>, n: nat, key: U128)
    requires NotAmong(m, c, n, key) && (n < |c| && c[n] < |m.items| ==> m.items[c[n]].key != key)
    ensures NotAmong(m, c, n + 1, key)
  {
  }

  lemma NotInChain(bucket: U128 -> nat, m: Memory, y: Layout, key: U128)
    requires Ok(bucket, m, y) && NotAmong(m, y.chains[bucket(key)], |y.chains[bucket(key)]|, key)
    ensures key !in y.at
  {
    assert key in y.at ==> KeyOk(bucket, m, y, key);
  }

  /** The insertion finds its key, an empty bucket, or a free item to chain. */
  ghost predicate Room(bucket: U128 -> nat, m: Memory, y: Layout, key: U128)
    requires Ok(bucket, m, y)
  {
    key in y.at || m.items[bucket(key)].state == EMPTY || m.free < 2 * m.size - 1
  }

  ghost function InsertedMemory(bucket: U128 -> nat, m: Memory, y: Layout, key: U128, val: nat, state: bv16): Memory
    requires Ok(bucket, m, y)
  {
    if m.items[bucket(key)].state == EMPTY then PutHead(m, bucket(key), key, val, state)
    else if key in y.at then PutFound(m, Slot(bucket, m, y, key), val, state)
    else PutLast(m, Last(bucket, m, y, bucket(key)), key, val, state)
  }

  ghost function InsertedLayout(bucket: U128 -> nat, m: Memory, y: Layout, key: U128): Layout
    requires Ok(bucket, m, y)
  {
    if m.items[bucket(key)].state == EMPTY then y.(at := y.at[key := 0])
    else if key in y.at then CutLayout(bucket, m, y, key)
    else LinkedLayout(bucket, m, y, key)
  }

  /** What writing the item at the end of the walk makes of the memory: the walk stopped at the
      bucket, at the item of the key, or at a free item it linked to the chain. */
  lemma InsertedIs(bucket: U128 -> nat, m: Memory, y: Layout, key: U128, val: nat, state: bv16, items: seq<Item>,
                   i: nat, free: nat)
    requires Ok(bucket, m, y) && Room(bucket, m, y, key) && i < |items|
    requires m.items[bucket(key)].state == EMPTY || key in y.at ==> items == m.items && free == m.free
    requires m.items[bucket(key)].state == EMPTY ==> i == bucket(key)
    requires m.items[bucket(key)].state != EMPTY && key in y.at ==> i == Slot(bucket, m, y, key)
    requires m.items[bucket(key)].state != EMPTY && key !in y.at ==>
               i == m.free && free == m.free + 1 && i < |m.items| &&
                 items == Linked(m, Last(bucket, m, y, bucket(key)), key)
    ensures Memory(items[i := Item(key, val, Join(items[i].state, state), 0)], m.size, free) ==
              InsertedMemory(bucket, m, y, key, val, state)
  {
    hide ChainOk, SlotOk, KeyOk, Join;
    OrEmpty(state);
  }

  /** The exact effect of an insertion on the abstract map: the key gets the value and the joined
      states, and exactly the keys chained behind it are lost. */
  lemma InsertedOk(bucket: U128 -> nat, m: Memory, y: Layout, key: U128, val: nat, state: bv16)
    requires Ok(bucket, m, y) && state != EMPTY && Room(bucket, m, y, key)
    ensures var m' := InsertedMemory(bucket, m, y, key, val, state);
            var y' := InsertedLayout(bucket, m, y, key);
            var old' := Contents(bucket, m, y);
            Ok(bucket, m', y') &&
            var joined := Join(if key in old' then old'[key].state else EMPTY, state);
            Contents(bucket, m', y') == (old' - Followers(bucket, m, y, key))[key := Entry(val, joined)] &&
            (Tight(bucket, m, y) && Followers(bucket, m, y, key) == {} ==> Tight(bucket, m', y'))
  {
    hide Tight, ChainOk, SlotOk, KeyOk, InsertedMemory, InsertedLayout, Join;
    var old' := Contents(bucket, m, y);
    assert key in old' <==> key in y.at;
    assert key !in y.at ==> Followers(bucket, m, y, key) == {};
    assert old' - {} == old';
    hide Contents, Followers;
    if m.items[bucket(key)].state == EMPTY {
      InsertedAtHead(bucket, m, y, key, val, state);
    } else if key in y.at {
      InsertedFound(bucket, m, y, key, val, state);
    } else {
      InsertedLast(bucket, m, y, key, val, state);
    }
  }

  lemma InsertedAtHead(bucket: U128 -> nat, m: Memory, y: Layout, key: U128, val: nat, state: bv16)
    requires Ok(bucket, m, y) && state != EMPTY && m.items[bucket(key)].state == EMPTY
    ensures var m', y' := InsertedMemory(bucket, m, y, key, val, state), InsertedLayout(bucket, m, y, key);
            key !in y.at && Ok(bucket, m', y') &&
            Contents(bucket, m', y') == Contents(bucket, m, y)[key := Entry(val, Join(EMPTY, state))] &&
            (Tight(bucket, m, y) ==> Tight(bucket, m', y'))
  {
    hide Tight, ChainOk, SlotOk, KeyOk;
    OrEmpty(state);
    PutHeadOk(bucket, m, y, key, val, state);
    PutHeadContents(bucket, m, y, key, val, state);
    if Tight(bucket, m, y) { PutHeadTight(bucket, m, y, key, val, state); }
  }

  lemma InsertedFound(bucket: U128 -> nat, m: Memory, y: Layout, key: U128, val: nat, state: bv16)
    requires Ok(bucket, m, y) && key in y.at && m.items[bucket(key)].state != EMPTY
    ensures var m', y' := InsertedMemory(bucket, m, y, key, val, state), InsertedLayout(bucket, m, y, key);
            Ok(bucket, m', y') &&
            var joined := Join(Contents(bucket, m, y)[key].state, state);
            Contents(bucket, m', y') ==
              (Contents(bucket, m, y) - Followers(bucket, m, y, key))[key := Entry(val, joined)] &&
            (Tight(bucket, m, y) && Followers(bucket, m, y, key) == {} ==> Tight(bucket, m', y'))
  {
    hide Tight, ChainOk, SlotOk, KeyOk, Followers;
    PutFoundOk(bucket, m, y, key, val, state);
    PutFoundContents(bucket, m, y, key, val, state);
    if Tight(bucket, m, y) && Followers(bucket, m, y, key) == {} { PutFoundTight(bucket, m, y, key, val, state); }
  }

  lemma InsertedLast(bucket: U128 -> nat, m: Memory, y: Layout, key: U128, val: nat, state: bv16)
    requires Ok(bucket, m, y) && key !in y.at && state != EMPTY && m.free < 2 * m.size - 1
    requires m.items[bucket(key)].state != EMPTY
    ensures var m', y' := InsertedMemory(bucket, m, y, key, val, state), InsertedLayout(bucket, m, y, key);
            Ok(bucket, m', y') &&
            Contents(bucket, m', y') == Contents(bucket, m, y)[key := Entry(val, Join(EMPTY, state))] &&
            (Tight(bucket, m, y) ==> Tight(bucket, m', y'))
  {
    hide Tight, ChainOk, SlotOk, KeyOk;
    OrEmpty(state);
    PutLastOk(bucket, m, y, key, val, state);
    PutLastContents(bucket, m, y, key, val, state);
    if Tight(bucket, m, y) { PutLastTight(bucket, m, y, key, val, state); }
  }

  lemma OrEmpty(state: bv16)
    ensures Join(EMPTY, state) == state
  {
  }

  /** Items beyond the used half do not matter. */
  lemma CopyStandsForSame(bucket: U128 -> nat, m: Memory, m': Memory, y: Layout)
    requires Ok(bucket, m, y) && m'.size == m.size && m'.free == m.free && 2 * m.size <= |m'.items|
    requires forall i :: 0 <= i < 2 * m.size ==> m'.items[i] == m.items[i]
    ensures Ok(bucket, m', y) && Contents(bucket, m', y) == Contents(bucket, m, y)
    ensures Tight(bucket, m, y) ==> Tight(bucket, m', y)
  {
    hide Contents, Tight;
    forall h | 0 <= h < m.size ensures ChainOk(bucket, m', y, h) {
      assert ChainOk(bucket, m, y, h);
      forall j | 0 <= j < |y.chains[h]| && m.items[h].state != EMPTY
        ensures SlotOk(bucket, m', y, h, y.chains[h][j], j)
      {
        assert SlotOk(bucket, m, y, h, y.chains[h][j], j);
      }
    }
    forall k | k in y.at ensures KeyOk(bucket, m', y, k) && bucket(k) < m.size {
      assert KeyOk(bucket, m, y, k) && ChainOk(bucket, m, y, bucket(k));
    }
    CopySlots(bucket, m, m', y);
  }

  lemma CopySlots(bucket: U128 -> nat, m: Memory, m': Memory, y: Layout)
    requires Ok(bucket, m, y) && Ok(bucket, m', y) && m'.size == m.size && m'.free == m.free
    requires forall i :: 0 <= i < 2 * m.size ==> m'.items[i] == m.items[i]
    ensures Contents(bucket, m', y) == Contents(bucket, m, y)
    ensures Tight(bucket, m, y) ==> Tight(bucket, m', y)
  {
    hide ChainOk, SlotOk, KeyOk;
    forall k | k in y.at ensures Slot(bucket, m', y, k) == Slot(bucket, m, y, k) {}
  }

  /** Other keys all survive an insertion exactly when the key is new or last in its chain. */
  lemma OthersSurvive(bucket: U128 -> nat, m: Memory, y: Layout, key: U128)
    requires Ok(bucket, m, y)
    ensures Followers(bucket, m, y, key) == {} <==>
            (key in y.at ==> y.at[key] == |y.chains[bucket(key)]| - 1)
  {
    if key in y.at {
      var h := bucket(key);
      assert KeyOk(bucket, m, y, key) && ChainOk(bucket, m, y, h);
      var c := y.chains[h];
      if y.at[key] < |c| - 1 {
        assert SlotOk(bucket, m, y, h, c[|c| - 1], |c| - 1);
        assert m.items[c[|c| - 1]].key in Followers(bucket, m, y, key);
      }
      if k :| k in Followers(bucket, m, y, key) {
        assert KeyOk(bucket, m, y, k);
      }
    }
  }

  // ---------- when there is room ----------

  /** The keys of `stored` that share their bucket with another one. */
  ghost function Crowded(bucket: U128 -> nat, stored: set<U128>): set<U128> {
    set j, k | j in stored && k in stored && j != k && bucket(j) == bucket(k) :: k
  }

  /** The keys that are not at the head of their chain. */
  ghost function Chained(y: Layout): set<U128> {
    set k | k in y.at && y.at[k] > 0
  }

  ghost function ChainedBelow(bucket: U128 -> nat, m: Memory, y: Layout, n: nat): set<U128>
    requires Ok(bucket, m, y)
  {
    set k | k in Chained(y) && Slot(bucket, m, y, k) < n
  }

  /** Each item used for chaining holds another chained key. */
  lemma {:induction false} ChainedItems(bucket: U128 -> nat, m: Memory, y: Layout, n: nat)
    requires Ok(bucket, m, y) && Tight(bucket, m, y) && m.size <= n <= m.free
    ensures n - m.size <= |ChainedBelow(bucket, m, y, n)|
    decreases n
  {
    hide Tight, Slot, Chained, ChainOk, KeyOk;
    if n > m.size {
      var key, below := m.items[n - 1].key, ChainedBelow(bucket, m, y, n - 1);
      ChainedItems(bucket, m, y, n - 1);
      ItemIsChained(bucket, m, y, n - 1);
      SubsetSize(below + {key}, ChainedBelow(bucket, m, y, n));
    }
  }

  lemma ItemIsChained(bucket: U128 -> nat, m: Memory, y: Layout, i: nat)
    requires Ok(bucket, m, y) && Tight(bucket, m, y) && m.size <= i < m.free
    ensures m.items[i].key in Chained(y) && Slot(bucket, m, y, m.items[i].key) == i
  {
    var k := m.items[i].key;
    assert ChainOk(bucket, m, y, bucket(k));
  }

  lemma SubsetSize<T>(a: set<T>, b: set<T>)
    requires a <= b
    ensures |a| <= |b|
  {
    if a != {} {
      var x :| x in a;
      SubsetSize(a - {x}, b - {x});
    }
  }

  /** The head of a nonempty bucket is a key of the bucket. */
  lemma HeadKey(bucket: U128 -> nat, m: Memory, y: Layout, h: nat) returns (k: U128)
    requires Ok(bucket, m, y) && h < m.size && m.items[h].state != EMPTY
    ensures k in y.at && y.at[k] == 0 && bucket(k) == h
  {
    assert ChainOk(bucket, m, y, h);
    k := m.items[h].key;
    assert SlotOk(bucket, m, y, h, y.chains[h][0], 0);
  }

  lemma ChainedIsCrowded(bucket: U128 -> nat, m: Memory, y: Layout, stored: set<U128>)
    requires Ok(bucket, m, y) && y.at.Keys <= stored
    ensures Chained(y) <= Crowded(bucket, stored)
  {
    forall k | k in Chained(y) ensures k in Crowded(bucket, stored) {
      assert KeyOk(bucket, m, y, k);
      var j := HeadKey(bucket, m, y, bucket(k));
    }
  }

  /** As long as no more keys share buckets than there are buckets, a new key finds room. */
  lemma RoomWhenCrowdFits(bucket: U128 -> nat, m: Memory, y: Layout, key: U128, stored: set<U128>)
    requires Ok(bucket, m, y) && Tight(bucket, m, y) && y.at.Keys <= stored && key in stored
    requires |Crowded(bucket, stored)| <= m.size
    ensures Room(bucket, m, y, key)
  {
    hide ChainOk, KeyOk, Tight;
    if key !in y.at && m.items[bucket(key)].state != EMPTY {
      ChainedIsCrowded(bucket, m, y, stored);
      var head := HeadKey(bucket, m, y, bucket(key));
      assert Chained(y) + {key, head} <= Crowded(bucket, stored);
      SubsetSize(Chained(y) + {key, head}, Crowded(bucket, stored));
      ChainedItems(bucket, m, y, m.free);
      SubsetSize(ChainedBelow(bucket, m, y, m.free), Chained(y));
    }
  }

  /** A key alone in its bucket has none behind it. */
  lemma AloneHasNoFollowers(bucket: U128 -> nat, m: Memory, y: Layout, key: U128)
    requires Ok(bucket, m, y) && forall k :: k in y.at && bucket(k) == bucket(key) ==> k == key
    ensures Followers(bucket, m, y, key) == {}
  {
  }

  // ---------- a key is lost ----------

  /** All keys fall into the first of two buckets. */
  ghost function OneBucket(): U128 -> nat {
    _ => 0
  }

  /** A table of two buckets with none, one and two keys, the second one chained behind the first. */
  function Holding(a: U128, b: U128, n: nat): Memory {
    var free := Item(a, 0, EMPTY, 0);
    if n == 0 then Memory([free, free, free, free], 2, 2)
    else if n == 1 then Memory([Item(a, 5, PREFIX, 0), free, free, free], 2, 2)
    else Memory([Item(a, 5, PREFIX, 2), free, Item(b, 6, PREFIX, 0), free], 2, 3)
  }

  function HoldingLayout(a: U128, b: U128, n: nat): Layout {
    if n == 0 then Layout([[0], [1]], map[])
    else if n == 1 then Layout([[0], [1]], map[a := 0])
    else Layout([[0, 2], [1]], map[a := 0, b := 1])
  }

  lemma HoldingOk(a: U128, b: U128, n: nat)
    requires a != b
    ensures Ok(OneBucket(), Holding(a, b, n), HoldingLayout(a, b, n))
    ensures Contents(OneBucket(), Holding(a, b, n), HoldingLayout(a, b, n)).Keys == HoldingLayout(a, b, n).at.Keys
  {
  }

  /** The insertions that lead there. */
  lemma HoldingInserted(a: U128, b: U128)
    requires a != b
    ensures Ok(OneBucket(), Holding(a, b, 0), HoldingLayout(a, b, 0)) &&
            Ok(OneBucket(), Holding(a, b, 1), HoldingLayout(a, b, 1))
    ensures Holding(a, b, 1) == InsertedMemory(OneBucket(), Holding(a, b, 0), HoldingLayout(a, b, 0), a, 5, PREFIX)
    ensures HoldingLayout(a, b, 1) == InsertedLayout(OneBucket(), Holding(a, b, 0), HoldingLayout(a, b, 0), a)
    ensures Holding(a, b, 2) == InsertedMemory(OneBucket(), Holding(a, b, 1), HoldingLayout(a, b, 1), b, 6, PREFIX)
    ensures HoldingLayout(a, b, 2) == InsertedLayout(OneBucket(), Holding(a, b, 1), HoldingLayout(a, b, 1), b)
  {
    HoldingOk(a, b, 0);
    HoldingOk(a, b, 1);
    hide Ok, Contents;
    var y := HoldingLayout(a, b, 1);
    var longer: seq<nat> := y.chains[0] + [2];
    assert longer == [0, 2];
    assert y.chains[0 := longer] == [[0, 2], [1]];
  }

  /** The first key inserted again: the second one, chained behind it, is lost. */
  lemma SecondKeyIsLost(a: U128, b: U128)
    requires a != b
    ensures var f, m, y := OneBucket(), Holding(a, b, 2), HoldingLayout(a, b, 2);
            && Ok(f, m, y) && Contents(f, m, y).Keys == {a, b}
            && var m', y' := InsertedMemory(f, m, y, a, 7, PREFIX), InsertedLayout(f, m, y, a);
               Ok(f, m', y') && Contents(f, m', y').Keys == {a}
  {
    var f, m, y := OneBucket(), Holding(a, b, 2), HoldingLayout(a, b, 2);
    HoldingOk(a, b, 2);
    assert Followers(f, m, y, a) == {b};
    hide Ok, Contents, Followers, InsertedMemory, InsertedLayout, Holding;
    InsertedOk(f, m, y, a, 7, PREFIX);
  }
}
