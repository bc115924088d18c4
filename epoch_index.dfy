/**
 * Epoch and batch index bookkeeping of the two Keras `Sequence` adapters in
 * src/datagenerator.py. Both classes keep one ordering `indexes` of the
 * positions 0..n-1 of their ID list, reset it once per epoch and cut it into
 * batches of `batchSize` consecutive entries; this module models that logic
 * once, on sequences, and proves what an epoch serves.
 */
module EpochIndex {

  /** The positions 0, 1, ..., n-1 in order: the value of np.arange(n). */
  function Range(n: nat): (r: seq<int>)
    ensures |r| == n && forall i :: 0 <= i < n ==> r[i] == i
  {
    seq(n, i => i)
  }

  /**
   * `s` holds every position 0..n-1 exactly once, in some order. The
   * multiset equality is the definition; the length and the range of the
   * entries follow from it (PermutationShape) and are spelled out so that
   * contracts may index with the entries of `s`.
   */
  ghost predicate IsPermutationOf(s: seq<int>, n: nat) {
    multiset(s) == multiset(Range(n)) &&
    |s| == n && forall i :: 0 <= i < |s| ==> 0 <= s[i] < n
  }

  /** No entry of `s` occurs twice. */
  ghost predicate Distinct(s: seq<int>) {
    forall i, j :: 0 <= i < j < |s| ==> s[i] != s[j]
  }

  lemma {:induction false} RangeCountsOnce(n: nat, v: int)
    ensures multiset(Range(n))[v] == if 0 <= v < n then 1 else 0
  {
    if n > 0 {
      RangeCountsOnce(n - 1, v);
      assert Range(n) == Range(n - 1) + [n - 1];
    }
  }

  lemma TwoOccurrences(s: seq<int>, i: nat, j: nat)
    requires i < j < |s|
    ensures s[i] == s[j] ==> multiset(s)[s[i]] >= 2
  {
    assert s == s[..j] + s[j..];
    assert s[i] in s[..j];
    assert s[j] == s[j..][0];
  }

  /** The multiset of 0..n-1 fixes the length and the range of the entries. */
  lemma PermutationShape(s: seq<int>, n: nat)
    requires multiset(s) == multiset(Range(n))
    ensures IsPermutationOf(s, n)
  {
    assert |s| == |multiset(s)| == |multiset(Range(n))| == n;
    forall i | 0 <= i < |s|
      ensures 0 <= s[i] < n
    {
      assert s[i] in multiset(s);
      RangeCountsOnce(n, s[i]);
    }
  }

  /** A permutation of 0..n-1 repeats no position. */
  lemma PermutationDistinct(s: seq<int>, n: nat)
    requires IsPermutationOf(s, n)
    ensures Distinct(s)
  {
    forall i, j | 0 <= i < j < |s|
      ensures s[i] != s[j]
    {
      TwoOccurrences(s, i, j);
      RangeCountsOnce(n, s[i]);
    }
  }

  /** A permutation of 0..n-1 contains every position. */
  lemma PermutationCovers(s: seq<int>, n: nat)
    requires IsPermutationOf(s, n)
    ensures forall v :: 0 <= v < n ==> v in s
  {
    forall v | 0 <= v < n
      ensures v in s
    {
      RangeCountsOnce(n, v);
      assert v in multiset(s);
    }
  }

  /** In a permutation, the entry at `slot` is in no slice that leaves `slot` out. */
  lemma NotInOtherSlice(s: seq<int>, n: nat, lo: nat, hi: nat, slot: nat)
    requires IsPermutationOf(s, n) && lo <= hi <= |s| && slot < |s| && (slot < lo || hi <= slot)
    ensures s[slot] !in s[lo..hi]
  {
    PermutationDistinct(s, n);
    forall k | 0 <= k < hi - lo
      ensures s[lo..hi][k] != s[slot]
    {
      assert s[lo..hi][k] == s[lo + k];
    }
  }

  /**
   * np.random.shuffle: rearranges `a` in place. The random draw is a
   * nondeterministic choice, so the contract admits every permutation.
   */
  method Shuffle(a: array<int>)
    modifies a
    ensures multiset(a[..]) == multiset(old(a[..]))
  {
    var i := 0;
    while i < a.Length
      invariant 0 <= i <= a.Length
      invariant multiset(a[..]) == multiset(old(a[..]))
    {
      var j :| i <= j < a.Length;
      a[i], a[j] := a[j], a[i];
      i := i + 1;
    }
  }

  /**
   * The body of on_epoch_end: a fresh np.arange(n), shuffled in place when
   * `shuffle` holds.
   */
  method ResetIndexes(n: nat, shuffle: bool) returns (a: array<int>)
    ensures fresh(a)
    ensures IsPermutationOf(a[..], n)
    ensures !shuffle ==> a[..] == Range(n)
  {
    a := new int[n](i => i);
    assert a[..] == Range(n);
    if shuffle {
      Shuffle(a);
    }
    PermutationShape(a[..], n);
  }

  /** __len__: the number of full batches, floor(n / batchSize). */
  function NumBatches(n: nat, batchSize: nat): (r: nat)
    requires batchSize > 0
    ensures r * batchSize <= n < r * batchSize + batchSize
  {
    n / batchSize
  }

  function Min(a: int, b: int): int {
    if a <= b then a else b
  }

  /**
   * The slice indexes[index*batchSize : (index+1)*batchSize], with Python's
   * clamping of slice bounds that run past the end.
   */
  function BatchPositions(indexes: seq<int>, index: nat, batchSize: nat): (positions: seq<int>)
    ensures |positions| == if |indexes| <= index * batchSize then 0 else Min(batchSize, |indexes| - index * batchSize)
    ensures index * batchSize < |indexes| ==>
      positions == indexes[index * batchSize..index * batchSize + |positions|]
  {
    var lo := Min(index * batchSize, |indexes|);
    var hi := Min((index + 1) * batchSize, |indexes|);
    assert (index + 1) * batchSize == index * batchSize + batchSize;
    indexes[lo..hi]
  }

  /** Any batch, in range or not, holds at most batchSize positions, each below n. */
  lemma BatchPositionsBounded(indexes: seq<int>, n: nat, index: nat, batchSize: nat)
    requires IsPermutationOf(indexes, n)
    ensures |BatchPositions(indexes, index, batchSize)| <= batchSize
    ensures forall k :: 0 <= k < |BatchPositions(indexes, index, batchSize)| ==>
      0 <= BatchPositions(indexes, index, batchSize)[k] < n
  {
    var lo := Min(index * batchSize, |indexes|);
    var hi := Min((index + 1) * batchSize, |indexes|);
    assert (index + 1) * batchSize == index * batchSize + batchSize;
    forall k | 0 <= k < |BatchPositions(indexes, index, batchSize)|
      ensures 0 <= BatchPositions(indexes, index, batchSize)[k] < n
    {
      assert BatchPositions(indexes, index, batchSize)[k] == indexes[lo + k];
    }
  }

  /** [list_IDs[k] for k in positions]. */
  function BatchIDs(listIDs: seq<int>, positions: seq<int>): (ids: seq<int>)
    requires forall k :: 0 <= k < |positions| ==> 0 <= positions[k] < |listIDs|
    ensures |ids| == |positions|
    ensures forall k :: 0 <= k < |positions| ==> ids[k] == listIDs[positions[k]]
  {
    seq(|positions|, k requires 0 <= k < |positions| => listIDs[positions[k]])
  }

  lemma MulMonotone(a: nat, b: nat, c: nat)
    requires a <= b
    ensures a * c <= b * c
  {
  }

  /** A batch b below r ends no later than r*batchSize. */
  lemma BatchEndsBy(b: nat, r: nat, batchSize: nat)
    requires b < r
    ensures b * batchSize + batchSize <= r * batchSize
  {
    MulMonotone(b + 1, r, batchSize);
    assert (b + 1) * batchSize == b * batchSize + batchSize;
  }

  /** An in-range batch is the plain slice of batchSize entries starting at index*batchSize. */
  lemma BatchSlice(indexes: seq<int>, index: nat, batchSize: nat)
    requires batchSize > 0 && index < NumBatches(|indexes|, batchSize)
    ensures index * batchSize + batchSize <= |indexes|
    ensures BatchPositions(indexes, index, batchSize) == indexes[index * batchSize..index * batchSize + batchSize]
  {
    BatchEndsBy(index, NumBatches(|indexes|, batchSize), batchSize);
  }

  /** Batch `index` of an epoch, for an index below the batch count. */
  lemma BatchInRange(indexes: seq<int>, index: nat, batchSize: nat)
    requires batchSize > 0 && index < NumBatches(|indexes|, batchSize)
    ensures index * batchSize + batchSize <= |indexes|
    ensures |BatchPositions(indexes, index, batchSize)| == batchSize
    ensures forall i :: 0 <= i < batchSize ==>
      BatchPositions(indexes, index, batchSize)[i] == indexes[index * batchSize + i]
  {
    BatchSlice(indexes, index, batchSize);
  }

  /** The slice at index __len__() is exactly the dropped tail of n mod batchSize entries. */
  lemma TailBatch(indexes: seq<int>, batchSize: nat)
    requires batchSize > 0
    ensures var r := NumBatches(|indexes|, batchSize);
      BatchPositions(indexes, r, batchSize) == indexes[r * batchSize..] &&
      |BatchPositions(indexes, r, batchSize)| == |indexes| % batchSize
  {
  }

  /** Past __len__(), the clamped slice is empty. */
  lemma BeyondTail(indexes: seq<int>, index: nat, batchSize: nat)
    requires batchSize > 0 && index > NumBatches(|indexes|, batchSize)
    ensures BatchPositions(indexes, index, batchSize) == []
  {
    BatchEndsBy(NumBatches(|indexes|, batchSize), index, batchSize);
  }

  /** Slot i of batch b1 lies outside batch b2 when b1 != b2. */
  lemma SlotOutsideBatch(b1: nat, b2: nat, i: nat, batchSize: nat)
    requires b1 != b2 && i < batchSize
    ensures b1 * batchSize + i < b2 * batchSize || b2 * batchSize + batchSize <= b1 * batchSize + i
  {
    if b1 < b2 {
      BatchEndsBy(b1, b2, batchSize);
    } else {
      BatchEndsBy(b2, b1, batchSize);
    }
  }

  /** Slot i of in-range batch b1 holds a position that in-range batch b2 does not serve. */
  lemma SlotNotInOtherBatch(indexes: seq<int>, n: nat, batchSize: nat, r: nat, b1: nat, b2: nat, i: nat)
    requires batchSize > 0 && IsPermutationOf(indexes, n) && r * batchSize <= n
    requires b1 < r && b2 < r && b1 != b2 && i < batchSize
    ensures b1 * batchSize + i < n && b2 * batchSize + batchSize <= n
    ensures indexes[b1 * batchSize + i] !in indexes[b2 * batchSize..b2 * batchSize + batchSize]
  {
    BatchEndsBy(b1, r, batchSize);
    BatchEndsBy(b2, r, batchSize);
    SlotOutsideBatch(b1, b2, i, batchSize);
    NotInOtherSlice(indexes, n, b2 * batchSize, b2 * batchSize + batchSize, b1 * batchSize + i);
  }

  /** Slot `i` of batch `b1` and slot `j` of batch `b2 != b1` hold different positions. */
  lemma SlotsHoldDifferentPositions(indexes: seq<int>, n: nat, batchSize: nat, r: nat, b1: nat, b2: nat, i: nat, j: nat)
    requires batchSize > 0 && IsPermutationOf(indexes, n) && r * batchSize <= n
    requires b1 < r && b2 < r && b1 != b2 && i < batchSize && j < batchSize
    ensures b1 * batchSize + i < n && b2 * batchSize + j < n
    ensures indexes[b1 * batchSize + i] != indexes[b2 * batchSize + j]
  {
    SlotNotInOtherBatch(indexes, n, batchSize, r, b1, b2, i);
    var lo2 := b2 * batchSize;
    assert indexes[lo2..lo2 + batchSize][j] == indexes[lo2 + j];
  }

  /** Two distinct in-range batches of one epoch share no position. */
  lemma BatchesDisjoint(indexes: seq<int>, n: nat, batchSize: nat, b1: nat, b2: nat)
    requires batchSize > 0 && IsPermutationOf(indexes, n)
    requires b1 < NumBatches(n, batchSize) && b2 < NumBatches(n, batchSize) && b1 != b2
    ensures forall p :: p in BatchPositions(indexes, b1, batchSize) ==>
      p !in BatchPositions(indexes, b2, batchSize)
  {
    BatchInRange(indexes, b1, batchSize);
    BatchSlice(indexes, b2, batchSize);
    var s1 := BatchPositions(indexes, b1, batchSize);
    forall p | p in s1
      ensures p !in BatchPositions(indexes, b2, batchSize)
    {
      var i :| 0 <= i < batchSize && s1[i] == p;
      SlotNotInOtherBatch(indexes, n, batchSize, NumBatches(n, batchSize), b1, b2, i);
    }
  }

  /** The batches 0..k-1 of an epoch, one after another. */
  function Served(indexes: seq<int>, batchSize: nat, k: nat): seq<int> {
    if k == 0 then [] else Served(indexes, batchSize, k - 1) + BatchPositions(indexes, k - 1, batchSize)
  }

  /** The first k batches together are exactly the first k*batchSize entries of indexes. */
  lemma {:induction false} ServedIsPrefix(indexes: seq<int>, batchSize: nat, k: nat)
    requires batchSize > 0 && k <= NumBatches(|indexes|, batchSize)
    ensures k * batchSize <= |indexes|
    ensures Served(indexes, batchSize, k) == indexes[..k * batchSize]
  {
    MulMonotone(k, NumBatches(|indexes|, batchSize), batchSize);
    if k > 0 {
      ServedIsPrefix(indexes, batchSize, k - 1);
      PrefixThenBatch(indexes, batchSize, k - 1);
    }
  }

  /** The prefix before batch b, followed by batch b, is the prefix up to the end of batch b. */
  lemma PrefixThenBatch(indexes: seq<int>, batchSize: nat, b: nat)
    requires batchSize > 0 && b < NumBatches(|indexes|, batchSize)
    ensures (b + 1) * batchSize <= |indexes|
    ensures indexes[..b * batchSize] + BatchPositions(indexes, b, batchSize) == indexes[..(b + 1) * batchSize]
  {
    BatchSlice(indexes, b, batchSize);
    var lo := b * batchSize;
    assert (b + 1) * batchSize == lo + batchSize;
    assert indexes[..lo] + indexes[lo..lo + batchSize] == indexes[..lo + batchSize];
  }

  /**
   * A whole epoch serves the first __len__()*batchSize entries of indexes,
   * no position twice, and no position of the dropped tail.
   */
  lemma EpochServesEachPositionOnce(indexes: seq<int>, n: nat, batchSize: nat)
    requires batchSize > 0 && IsPermutationOf(indexes, n)
    ensures var r := NumBatches(n, batchSize);
      var served := Served(indexes, batchSize, r);
      |served| == r * batchSize && served == indexes[..r * batchSize] && Distinct(served) &&
      forall slot :: r * batchSize <= slot < n ==> indexes[slot] !in served
  {
    var r := NumBatches(n, batchSize);
    ServedIsPrefix(indexes, batchSize, r);
    PermutationDistinct(indexes, n);
    var m := r * batchSize;
    var served := indexes[..m];
    forall i, j | 0 <= i < j < m
      ensures served[i] != served[j]
    {
      assert served[i] == indexes[i] && served[j] == indexes[j];
    }
    forall slot | m <= slot < n
      ensures indexes[slot] !in served
    {
      assert served == indexes[0..m];
      NotInOtherSlice(indexes, n, 0, m, slot);
    }
  }

  /** The entries of the dropped tail belong to no in-range batch. */
  lemma DroppedTail(indexes: seq<int>, n: nat, batchSize: nat, slot: nat, b: nat)
    requires batchSize > 0 && IsPermutationOf(indexes, n)
    requires NumBatches(n, batchSize) * batchSize <= slot < n && b < NumBatches(n, batchSize)
    ensures indexes[slot] !in BatchPositions(indexes, b, batchSize)
  {
    BatchSlice(indexes, b, batchSize);
    BatchEndsBy(b, NumBatches(n, batchSize), batchSize);
    NotInOtherSlice(indexes, n, b * batchSize, b * batchSize + batchSize, slot);
  }

  /**
   * __getitem__'s IDs for an in-range batch: exactly batchSize of them, the
   * i-th being list_IDs[indexes[index*batchSize + i]].
   */
  function BatchIDsAt(listIDs: seq<int>, indexes: seq<int>, index: nat, batchSize: nat): (ids: seq<int>)
    requires batchSize > 0 && IsPermutationOf(indexes, |listIDs|)
    requires index < NumBatches(|listIDs|, batchSize)
    ensures index * batchSize + batchSize <= |indexes|
    ensures |ids| == batchSize
    ensures forall i :: 0 <= i < batchSize ==> ids[i] == listIDs[indexes[index * batchSize + i]]
  {
    BatchInRange(indexes, index, batchSize);
    BatchIDs(listIDs, BatchPositions(indexes, index, batchSize))
  }

  /** With distinct IDs, slot i of batch b1 and slot j of batch b2 != b1 hold different IDs. */
  lemma SlotsHoldDifferentIDs(listIDs: seq<int>, indexes: seq<int>, batchSize: nat, r: nat, b1: nat, b2: nat, i: nat, j: nat)
    requires batchSize > 0 && IsPermutationOf(indexes, |listIDs|) && Distinct(listIDs)
    requires r * batchSize <= |listIDs| && b1 < r && b2 < r && b1 != b2 && i < batchSize && j < batchSize
    ensures b1 * batchSize + i < |indexes| && b2 * batchSize + j < |indexes|
    ensures listIDs[indexes[b1 * batchSize + i]] != listIDs[indexes[b2 * batchSize + j]]
  {
    SlotsHoldDifferentPositions(indexes, |listIDs|, batchSize, r, b1, b2, i, j);
    var p1, p2 := indexes[b1 * batchSize + i], indexes[b2 * batchSize + j];
    if p1 < p2 {
      assert listIDs[p1] != listIDs[p2];
    } else {
      assert listIDs[p2] != listIDs[p1];
    }
  }

  /** With distinct IDs, two distinct in-range batches of one epoch share no ID. */
  lemma BatchIDsDisjoint(listIDs: seq<int>, indexes: seq<int>, batchSize: nat, b1: nat, b2: nat)
    requires batchSize > 0 && IsPermutationOf(indexes, |listIDs|) && Distinct(listIDs)
    requires b1 < NumBatches(|listIDs|, batchSize) && b2 < NumBatches(|listIDs|, batchSize) && b1 != b2
    ensures forall i, j :: 0 <= i < batchSize && 0 <= j < batchSize ==>
      BatchIDsAt(listIDs, indexes, b1, batchSize)[i] != BatchIDsAt(listIDs, indexes, b2, batchSize)[j]
  {
    var ids1 := BatchIDsAt(listIDs, indexes, b1, batchSize);
    var ids2 := BatchIDsAt(listIDs, indexes, b2, batchSize);
    var r := NumBatches(|listIDs|, batchSize);
    forall i, j | 0 <= i < batchSize && 0 <= j < batchSize
      ensures ids1[i] != ids2[j]
    {
      SlotsHoldDifferentIDs(listIDs, indexes, batchSize, r, b1, b2, i, j);
    }
  }
}
