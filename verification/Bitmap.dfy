/** The bitmap, packed in words with the first bit highest: what each operation does to the set of bits. */
module Bitmap {
  import opened Words

  const ZERO: Word := 0

  class Bitmap {
    const buckets: array<Word>
    const size: nat

    ghost predicate Valid()
      reads this
    {
      buckets.Length == (size + BITS - 1) / BITS
    }

    /** The number of bits there is room for. */
    ghost function Room(): nat {
      BITS * buckets.Length
    }

    ghost predicate Has(i: nat)
      reads this, buckets
      requires i < Room()
    {
      At(buckets[i / BITS], i % BITS)
    }

    constructor (bits: nat)
      ensures Valid() && size == bits && fresh(buckets)
      ensures forall i :: 0 <= i < Room() ==> !Has(i)
    {
      buckets := new Word[(bits + BITS - 1) / BITS](_ => ZERO);
      size := bits;
      new;
      forall i | 0 <= i < Room() ensures !Has(i) {
        ZeroBits(BITS - 1 - i % BITS);
      }
    }

    method SetBit(value: bool, index: nat)
      requires index < Room()
      modifies buckets
      ensures forall i :: 0 <= i < Room() ==> (Has(i) <==> if i == index then value else old(Has(i)))
    {
      var k, mark := index / BITS, MarkBit(index % BITS);
      var w := buckets[k];
      buckets[k] := Mask(value, w, mark);
      hide At, Mask, MarkBit;
      forall i | 0 <= i < Room() ensures Has(i) <==> if i == index then value else old(Has(i)) {
        if i / BITS == k {
          Masked(value, w, mark, i % BITS);
          MarkBitAt(index % BITS, i % BITS);
        }
      }
    }

    method GetBit(index: nat) returns (b: bool)
      requires index < Room()
      ensures b <==> Has(index)
    {
      hide At, And, MarkBit;
      b := And(buckets[index / BITS], MarkBit(index % BITS)) != 0;
      Marked(buckets[index / BITS], index % BITS);
    }

    /** `setRange`: also when the end lies at the end of the room, where there is no word. */
    method SetRange(value: bool, start: nat, end: nat)
      requires start <= end <= Room() && start < Room()
      modifies buckets
      ensures forall i :: 0 <= i < Room() ==> (Has(i) <==> if start <= i < end then value else old(Has(i)))
    {
      hide At, Mask, And, FillLow, FillHigh;
      var startBucket, endBucket := start / BITS, end / BITS;
      var startMask, endMask := FillLow(BITS - start % BITS), FillHigh(end % BITS);
      if startBucket == endBucket {
        buckets[startBucket] := Mask(value, buckets[startBucket], And(startMask, endMask));
        forall i | 0 <= i < Room() ensures Has(i) <==> if start <= i < end then value else old(Has(i)) {
          if i / BITS == startBucket {
            SameBucket(value, old(buckets[startBucket]), start, end, i);
          }
        }
      } else {
        buckets[startBucket] := Mask(value, buckets[startBucket], startMask);
        if endMask != 0 {
          HighNonzero(end);
          buckets[endBucket] := Mask(value, buckets[endBucket], endMask);
        }
        var k := startBucket + 1;
        while k < endBucket
          invariant startBucket < k <= endBucket
          invariant forall m :: 0 <= m < buckets.Length ==>
                      buckets[m] == if startBucket < m < k then Whole(value)
                                    else if m == startBucket then Mask(value, old(buckets[m]), startMask)
                                    else if m == endBucket && endMask != 0 then Mask(value, old(buckets[m]), endMask)
                                    else old(buckets[m])
        {
          buckets[k] := Whole(value);
          k := k + 1;
        }
        forall i | 0 <= i < Room() ensures Has(i) <==> if start <= i < end then value else old(Has(i)) {
          OtherBucket(value, old(buckets[i / BITS]), start, end, i);
        }
      }
    }

    /** `getFirstBit`: zero also when there is none. */
    method GetFirstBit() returns (first: nat)
      ensures (exists i :: 0 <= i < Room() && Has(i)) ==> first < Room() && Has(first)
      ensures forall i :: 0 <= i < first && i < Room() ==> !Has(i)
      ensures (forall i :: 0 <= i < Room() ==> !Has(i)) ==> first == 0
    {
      hide At, And, MarkBit;
      var k := 0;
      while k < buckets.Length
        invariant 0 <= k <= buckets.Length
        invariant forall i :: 0 <= i < BITS * k ==> !Has(i)
      {
        var bucket := buckets[k];
        if bucket != 0 {
          var sub := 0;
          while sub < BITS
            invariant 0 <= sub <= BITS
            invariant forall i :: 0 <= i < BITS * k + sub ==> !Has(i)
          {
            Marked(bucket, sub);
            AndCommutes(bucket, MarkBit(sub));
            if And(MarkBit(sub), bucket) != 0 {
              assert Has(BITS * k + sub);
              return k * BITS + sub;
            }
            sub := sub + 1;
          }
        }
        ZeroBucket(bucket);
        k := k + 1;
      }
      first := 0;
    }

    /** `getLastBit`. */
    method GetLastBit() returns (last: nat)
      requires buckets.Length > 0
      ensures (exists i :: 0 <= i < Room() && Has(i)) ==> last < Room() && Has(last)
      ensures forall i :: last < i < Room() ==> !Has(i)
      ensures (forall i :: 0 <= i < Room() ==> !Has(i)) ==> last == 0
    {
      hide At, And, MarkBit;
      var k := buckets.Length;
      while true
        invariant 0 < k <= buckets.Length
        invariant forall i :: BITS * k <= i < Room() ==> !Has(i)
        decreases k
      {
        k := k - 1;
        var bucket := buckets[k];
        if bucket != 0 {
          var sub := BITS;
          while true
            invariant 0 < sub <= BITS
            invariant forall i :: BITS * k + sub <= i < Room() ==> !Has(i)
            decreases sub
          {
            sub := sub - 1;
            Marked(bucket, sub);
            AndCommutes(bucket, MarkBit(sub));
            if And(MarkBit(sub), bucket) != 0 {
              assert Has(BITS * k + sub);
              return k * BITS + sub;
            }
            if sub == 0 {
              break;
            }
          }
        }
        ZeroBucket(bucket);
        if k == 0 {
          break;
        }
      }
      last := 0;
    }

    /** `isCollide`: the words both have are compared. */
    method IsCollide(other: Bitmap) returns (b: bool)
      ensures b <==> exists i :: 0 <= i < Room() && i < other.Room() && Has(i) && other.Has(i)
    {
      hide At, And;
      var k := 0;
      while k < other.buckets.Length && k < buckets.Length
        invariant 0 <= k <= other.buckets.Length && k <= buckets.Length
        invariant forall i :: 0 <= i < BITS * k ==> !(Has(i) && other.Has(i))
      {
        AndMeets(buckets[k], other.buckets[k]);
        if And(buckets[k], other.buckets[k]) != 0 {
          ghost var sub :| 0 <= sub < BITS && At(buckets[k], sub) && At(other.buckets[k], sub);
          assert Has(BITS * k + sub) && other.Has(BITS * k + sub);
          return true;
        }
        k := k + 1;
      }
      b := false;
    }

    /** `merge`: the union. */
    method Merge(other: Bitmap)
      requires Valid() && other.Valid() && size >= other.size
      modifies buckets
      ensures forall i :: 0 <= i < Room() ==> (Has(i) <==> old(Has(i)) || (i < other.Room() && old(other.Has(i))))
    {
      hide At, Or;
      var k := 0;
      while k < other.buckets.Length
        invariant 0 <= k <= other.buckets.Length <= buckets.Length
        invariant forall m :: 0 <= m < k ==> buckets[m] == Or(old(buckets[m]), old(other.buckets[m]))
        invariant forall m :: k <= m < buckets.Length ==> buckets[m] == old(buckets[m])
        invariant forall m :: k <= m < other.buckets.Length ==> other.buckets[m] == old(other.buckets[m])
      {
        buckets[k] := Or(buckets[k], other.buckets[k]);
        k := k + 1;
      }
      forall i | 0 <= i < Room() ensures Has(i) <==> old(Has(i)) || (i < other.Room() && old(other.Has(i))) {
        if i < other.Room() {
          OrAt(old(buckets[i / BITS]), old(other.buckets[i / BITS]), i % BITS);
        }
      }
    }

    /** `intersect`, when both have the same number of words. */
    method Intersect(other: Bitmap)
      requires buckets.Length == other.buckets.Length
      modifies buckets
      ensures forall i :: 0 <= i < Room() ==> (Has(i) <==> old(Has(i)) && old(other.Has(i)))
    {
      hide At, And;
      var k := 0;
      while k < other.buckets.Length
        invariant 0 <= k <= buckets.Length
        invariant forall m :: 0 <= m < k ==> buckets[m] == And(old(buckets[m]), old(other.buckets[m]))
        invariant forall m :: k <= m < buckets.Length ==> buckets[m] == old(buckets[m])
        invariant forall m :: k <= m < buckets.Length ==> other.buckets[m] == old(other.buckets[m])
      {
        buckets[k] := And(buckets[k], other.buckets[k]);
        k := k + 1;
      }
      forall i | 0 <= i < Room() ensures Has(i) <==> old(Has(i)) && old(other.Has(i)) {
        AndAt(old(buckets[i / BITS]), old(other.buckets[i / BITS]), i % BITS);
      }
    }
  }

  /** Setting or clearing the bits of a mask. */
  function Mask(value: bool, w: Word, mask: Word): Word {
    if value then Or(w, mask) else And(w, Not(mask))
  }

  lemma Masked(value: bool, w: Word, mask: Word, i: nat)
    requires i < BITS
    ensures At(Mask(value, w, mask), i) <==> if At(mask, i) then value else At(w, i)
  {
    OrAt(w, mask, i);
    AndAt(w, Not(mask), i);
    NotAt(mask, i);
  }

  lemma Marked(w: Word, i: nat)
    requires i < BITS
    ensures And(w, MarkBit(i)) != 0 <==> At(w, i)
  {
    hide At, And, MarkBit;
    AndMeets(w, MarkBit(i));
    forall k | 0 <= k < BITS ensures At(MarkBit(i), k) <==> k == i {
      MarkBitAt(i, k);
    }
  }

  function Whole(value: bool): Word {
    if value then 0xFFFF_FFFF_FFFF_FFFF else 0
  }

  lemma WholeAt(value: bool, i: nat)
    requires i < BITS
    ensures At(Whole(value), i) <==> value
  {
    ZeroBits(BITS - 1 - i);
    NotAt(0, i);
  }

  lemma ZeroBucket(w: Word)
    ensures w == 0 ==> forall i :: 0 <= i < BITS ==> !At(w, i)
  {
    forall i | 0 <= i < BITS ensures !At(0, i) {
      WholeAt(false, i);
    }
  }

  lemma AndCommutes(a: Word, b: Word)
    ensures And(a, b) != 0 <==> And(b, a) != 0
  {
    hide And;
    AndMeets(a, b);
    AndMeets(b, a);
  }

  lemma HighNonzero(end: nat)
    requires FillHigh(end % BITS) != 0
    ensures end % BITS != 0
  {
  }

  /** A bit of the only word of a range. */
  lemma SameBucket(value: bool, w: Word, start: nat, end: nat, i: nat)
    requires start <= end && start / BITS == end / BITS == i / BITS
    ensures var mask := And(FillLow(BITS - start % BITS), FillHigh(end % BITS));
            At(Mask(value, w, mask), i % BITS) <==> if start <= i < end then value else At(w, i % BITS)
  {
    hide At, Mask, And, FillLow, FillHigh;
    var low, high := FillLow(BITS - start % BITS), FillHigh(end % BITS);
    Masked(value, w, And(low, high), i % BITS);
    AndAt(low, high, i % BITS);
    FillLowAt(BITS - start % BITS, i % BITS);
    FillHighAt(end % BITS, i % BITS);
  }

  /** A bit when the range crosses words: in its first word, its last one, between or outside. */
  lemma OtherBucket(value: bool, w: Word, start: nat, end: nat, i: nat)
    requires start / BITS < end / BITS
    ensures var k := i / BITS;
            var w' := if start / BITS < k < end / BITS then Whole(value)
                      else if k == start / BITS then Mask(value, w, FillLow(BITS - start % BITS))
                      else if k == end / BITS && FillHigh(end % BITS) != 0 then Mask(value, w, FillHigh(end % BITS))
                      else w;
            At(w', i % BITS) <==> if start <= i < end then value else At(w, i % BITS)
  {
    hide At, Mask, FillLow, FillHigh, Whole;
    WholeAt(value, i % BITS);
    Masked(value, w, FillLow(BITS - start % BITS), i % BITS);
    Masked(value, w, FillHigh(end % BITS), i % BITS);
    FillLowAt(BITS - start % BITS, i % BITS);
    FillHighAt(end % BITS, i % BITS);
    ZeroBucket(FillHigh(end % BITS));
  }
}
