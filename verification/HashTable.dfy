/** `HashTable128`: insertion, search and iteration over the item array in place. */
module HashTable {
  import opened Address128
  import opened HashLayout

  /** The macro `HASH(key, size)` for an arbitrary hash function. */
  function BucketOf(hash: U128 -> nat, size: nat): U128 -> nat
    requires size > 0
  {
    key => hash(key) % size
  }

  class HashTable128 {
    const hash: U128 -> nat
    const table: array<Item>
    var tableSize: nat
    var nextChain: nat
    ghost var layout: Layout
    /** How many insertions failed or cut keys off a chain. */
    ghost var losses: nat

    ghost function Mem(): Memory
      reads this, table
    {
      Memory(table[..], tableSize, nextChain)
    }

    /** The items in use. */
    ghost function Used(): seq<Item>
      reads this, table
      requires Valid()
    {
      table[..nextChain]
    }

    ghost function Bucket(): U128 -> nat
      reads this
      requires tableSize > 0
    {
      BucketOf(hash, tableSize)
    }

    ghost predicate Valid()
      reads this, table
    {
      tableSize > 0 && Ok(Bucket(), Mem(), layout)
    }

    /** The abstract map of the table. */
    ghost function Map(): map<U128, Entry>
      reads this, table
      requires Valid()
    {
      Contents(Bucket(), Mem(), layout)
    }

    /** The keys chained behind `key`. */
    ghost function Behind(key: U128): set<U128>
      reads this, table
      requires Valid()
    {
      Followers(Bucket(), Mem(), layout, key)
    }

    ghost predicate NoGarbage()
      reads this, table
      requires Valid()
    {
      Tight(Bucket(), Mem(), layout)
    }

    ghost predicate HasRoom(key: U128)
      reads this, table
      requires Valid()
    {
      Room(Bucket(), Mem(), layout, key)
    }

    constructor (hash: U128 -> nat, size: nat)
      requires size > 0
      ensures Valid() && fresh(table) && losses == 0
      ensures tableSize == size && this.hash == hash && Map() == map[] && NoGarbage()
    {
      this.hash := hash;
      tableSize := size;
      nextChain, losses := size, 0;
      table := new Item[2 * size](_ => Item(U128(0, 0), 0, EMPTY, 0));
      layout := Layout(seq(size, i requires 0 <= i => [i]), map[]);
    }

    /** Walks the chain of a nonempty bucket to the item of `key`; if the key is not there, links
        the free item to the end of the chain under that key, which ends the walk as well. */
    method Walk(key: U128, start: nat) returns (ok: bool, index: nat)
      requires Valid() && start == Bucket()(key) && table[start].state != EMPTY
      modifies this`nextChain, table
      ensures ok == old(HasRoom(key))
      ensures !ok || key in layout.at ==> Mem() == old(Mem())
      ensures ok && key in layout.at ==> index == old(Slot(Bucket(), Mem(), layout, key))
      ensures ok && key !in layout.at ==>
                index == old(nextChain) < 2 * tableSize - 1 && nextChain == index + 1 &&
                table[..] == old(Linked(Mem(), Last(Bucket(), Mem(), layout, start), key))
    {
      hide Ok, Slot, Contents, Tight, Followers, NotAmong;
      index := start;
      ghost var m, y, bucket, j := Mem(), layout, Bucket(), 0;
      SizesOk(bucket, m, y);
      ChainStarts(bucket, m, y, start);
      ghost var c := y.chains[start];
      ChainStep(bucket, m, y, start, 0);
      NoneAmong(m, c, key);
      while table[index].key != key
        invariant Mem() == m && j < |c| && index == c[j] < nextChain
        invariant NotAmong(m, c, j, key)
        decreases |c| - j
      {
        ChainStep(bucket, m, y, start, j);
        NotHere(m, c, j, key);
        if table[index].next == 0 {
          NotInChain(bucket, m, y, key);
          if !(nextChain < tableSize * 2 - 1) {
            return false, index;
          }
          table[index] := table[index].(next := nextChain);
          table[nextChain] := table[nextChain].(key := key);
          index, nextChain := nextChain, nextChain + 1;
          return true, index;
        }
        index := table[index].next;
        j := j + 1;
        ChainStep(bucket, m, y, start, j);
      }
      ChainStep(bucket, m, y, start, j);
      ok := true;
    }

    /** Inserts, or overwrites the value, joins the states and cuts the chain behind the key.
        `ok` is false where the source's assertion on the chaining space fails. */
    method Insert(key: U128, val: nat, state: bv16) returns (ok: bool)
      requires Valid() && state != EMPTY
      modifies this, table
      ensures tableSize == old(tableSize) && Valid()
      ensures ok == old(HasRoom(key))
      ensures !ok ==> Mem() == old(Mem()) && layout == old(layout)
      ensures ok ==>
                var joined := Join(if key in old(Map()) then old(Map())[key].state else EMPTY, state);
                Map() == (old(Map()) - old(Behind(key)))[key := Entry(val, joined)]
      ensures ok ==> key in Map() && forall flag ::
                Has(Map()[key].state, flag) <==>
                Has(state, flag) || (key in old(Map()) && Has(old(Map())[key].state, flag))
      ensures ok && old(NoGarbage()) && old(Behind(key)) == {} ==> NoGarbage()
      ensures losses == old(losses) + if !ok || old(Behind(key)) != {} then 1 else 0
    {
      hide Ok, InsertedMemory, InsertedLayout, Join, Contents, Tight, Followers, Room, PutHead, PutFound, PutLast,
           Linked;
      NoFlags();
      var index := hash(key) % tableSize;
      ghost var m, y, bucket := Mem(), layout, Bucket();
      BucketKnown(key);
      if table[index].state != EMPTY {
        ok, index := Walk(key, index);
        if !ok {
          losses := losses + 1;
          return;
        }
      }
      ghost var items := table[..];
      table[index] := Item(key, val, Join(table[index].state, state), 0);
      InsertedIs(bucket, m, y, key, val, state, items, index, nextChain);
      assert Mem() == InsertedMemory(bucket, m, y, key, val, state);
      layout := InsertedLayout(bucket, m, y, key);
      losses := losses + if Followers(bucket, m, y, key) != {} then 1 else 0;
      InsertedOk(bucket, m, y, key, val, state);
      JoinHas(if key in old(Map()) then old(Map())[key].state else EMPTY, state);
      ok := true;
    }

    lemma NoFlags()
      ensures forall flag :: !Has(EMPTY, flag)
    {
    }

    lemma BucketKnown(key: U128)
      requires Valid()
      ensures Bucket()(key) == hash(key) % tableSize < tableSize <= table.Length
      ensures tableSize <= nextChain < table.Length
      ensures key in layout.at ==> table[hash(key) % tableSize].state != EMPTY
      ensures Map().Keys == layout.at.Keys
      ensures table[hash(key) % tableSize].state == EMPTY ==> HasRoom(key) && key !in layout.at
    {
      assert key in layout.at ==> KeyOk(Bucket(), Mem(), layout, key);
    }

    /** The value and the state stored for `key`, both 0 if there is none. */
    method Find(key: U128) returns (val: nat, state: bv16)
      requires Valid()
      ensures key in Map() ==> Entry(val, state) == Map()[key]
      ensures key !in Map() ==> val == 0 && state == EMPTY
    {
      var index := hash(key) % tableSize;
      ghost var m, y, bucket := Mem(), layout, Bucket();
      ghost var c := y.chains[index];
      assert ChainOk(bucket, m, y, index);
      val, state := 0, EMPTY;
      if table[index].state != EMPTY {
        if table[index].key == key {
          assert SlotOk(bucket, m, y, bucket(key), c[0], 0);
          return table[index].val, table[index].state;
        }
        index := table[index].next;
        ghost var j := 1;
        while index != 0
          invariant 1 <= j <= |c| && (if j < |c| then index == c[j] else index == 0)
          invariant NotAmong(m, c, j, key)
          decreases |c| - j
        {
          assert SlotOk(bucket, m, y, bucket(key), c[j], j);
          if table[index].key == key {
            return table[index].val, table[index].state;
          }
          index := table[index].next;
          j := j + 1;
        }
        NotInChain(bucket, m, y, key);
      } else {
        BucketKnown(key);
      }
    }

    // ---------- Iterator ----------

    /** The iterator may stop at item `i`: in the buckets it looks for a plain prefix, in the
        chaining half for anything that is not a marker. */
    ghost predicate Stops(i: nat)
      reads this, table
      requires Valid() && i < 2 * tableSize
    {
      if i < tableSize then table[i].state == PREFIX else table[i].state & MARKER == 0
    }

    /** `begin()`. */
    method Begin() returns (i: nat)
      requires Valid()
      ensures i <= tableSize
      ensures forall j :: 0 <= j < i ==> table[j].state & PREFIX == 0
      ensures i < tableSize ==> table[i].state & PREFIX != 0
    {
      i := 0;
      while table[i].state & PREFIX == 0 && i < tableSize
        invariant i <= tableSize
        invariant forall j :: 0 <= j < i ==> table[j].state & PREFIX == 0
        decreases tableSize - i
      {
        i := i + 1;
      }
    }

    /** `operator++` from item `i`: the next item the iterator may stop at. It stays within the
        items in use or stops on the first free one. */
    method Next(i: nat) returns (n: nat)
      requires Valid() && i < nextChain
      ensures i <= n <= nextChain
      ensures table[i].state & PREFIX != 0 ==> i < n
      ensures Stops(n) && forall j :: i < j < n ==> !Stops(j)
    {
      assert table[nextChain].state & MARKER == 0;
      n := i;
      if table[n].state & PREFIX != 0 {
        n := n + 1;
      }
      while n < tableSize
        invariant i <= n <= nextChain && (n == i ==> table[i].state & PREFIX == 0)
        invariant forall j :: i < j < n ==> !Stops(j)
      {
        if table[n].state == PREFIX {
          break;
        }
        n := n + 1;
      }
      while n >= tableSize && n < 2 * tableSize
        invariant i <= n <= nextChain && (n == i ==> table[i].state & PREFIX == 0)
        invariant n < tableSize ==> Stops(n)
        invariant forall j :: i < j < n ==> !Stops(j)
        decreases 2 * tableSize - n
      {
        if table[n].state & MARKER == 0 {
          break;
        }
        n := n + 1;
      }
    }

    /** `clone_from`: the copy stands for the same map. `ok` is false where the assertion on the
        table sizes fails. */
    method CloneFrom(that: HashTable128) returns (ok: bool)
      requires Valid() && that.Valid() && that.hash == hash
      requires that != this && that.table != table
      modifies this, table
      ensures ok == (old(tableSize) >= that.tableSize) && Valid()
      ensures ok ==> Map() == that.Map() && tableSize == that.tableSize
      ensures ok && that.NoGarbage() ==> NoGarbage()
      ensures !ok ==> Map() == old(Map())
    {
      if tableSize < that.tableSize {
        return false;
      }
      tableSize := that.tableSize;
      nextChain := that.nextChain;
      forall i | 0 <= i < 2 * tableSize {
        table[i] := that.table[i];
      }
      layout := that.layout;
      CopyStandsForSame(Bucket(), that.Mem(), Mem(), layout);
      ok := true;
    }
  }
}
