/** Merging pairs of neighbouring blocks level by level. */
module Levels {
  import opened Records
  import opened Merging
  import opened Windows

  function MergePair(w: seq<Index>, p: nat, size: nat): (r: seq<Index>)
    ensures |r| == |w|
  {
    SetSlot(w, p, 2 * size, MergeRuns(Slot(w, 2 * p, size), Slot(w, 2 * p + 1, size)))
  }

  /** The window once the first `pairs` pairs of a level are merged, one after another. */
  function LevelStep(w: seq<Index>, pairs: nat, size: nat): (r: seq<Index>)
    ensures |r| == |w|
  {
    if pairs == 0 then w else MergePair(LevelStep(w, pairs - 1, size), pairs - 1, size)
  }

  /** All levels: `blocks` halves, dropping an odd block, until one is left. */
  function AllLevels(w: seq<Index>, blocks: nat, size: nat): (r: seq<Index>)
    ensures |r| == |w|
    decreases blocks
  {
    if blocks <= 1 then w else AllLevels(LevelStep(w, blocks / 2, size), blocks / 2, 2 * size)
  }

  ghost predicate PairMerged(r: seq<Index>, w: seq<Index>, p: nat, size: nat) {
    Slot(r, p, 2 * size) == MergeRuns(Slot(w, 2 * p, size), Slot(w, 2 * p + 1, size))
  }

  /** The window `v` while a level that began as `w` has merged its first `pairs` pairs. */
  ghost predicate PairsMerged(v: seq<Index>, w: seq<Index>, pairs: nat, size: nat) {
    && |v| == |w| && Off(pairs, 2 * size) <= |w|
    && v[Off(pairs, 2 * size)..] == w[Off(pairs, 2 * size)..]
    && forall p: nat | p < pairs :: PairMerged(v, w, p, size)
  }

  /** A level merges each pair out of the window it started from and leaves the rest alone. */
  lemma {:induction false} LevelStepSlots(w: seq<Index>, pairs: nat, size: nat)
    requires Off(pairs, 2 * size) <= |w|
    ensures PairsMerged(LevelStep(w, pairs, size), w, pairs, size)
    ensures LevelStep(w, pairs, size)[Off(pairs, 2 * size)..] == w[Off(pairs, 2 * size)..]
    ensures forall p: nat | p < pairs :: PairMerged(LevelStep(w, pairs, size), w, p, size)
  {
    hide PairMerged;
    hide MergePair;
    if pairs > 0 {
      SlotFits(pairs - 1, pairs, 2 * size);
      LevelStepSlots(w, pairs - 1, size);
      OnePairMore(w, LevelStep(w, pairs - 1, size), pairs - 1, pairs, size);
    }
  }

  lemma OnePairMore(w: seq<Index>, v: seq<Index>, q: nat, pairs: nat, size: nat)
    requires pairs == q + 1 && Off(pairs, 2 * size) == Off(q, 2 * size) + 2 * size <= |w|
    requires PairsMerged(v, w, q, size)
    ensures PairsMerged(MergePair(v, q, size), w, pairs, size)
  {
    hide Off;
    hide MergePair;
    hide PairMerged;
    MergePairSlots(w, v, q, size);
  }

  /** The runs of pair `q`, merged into it. */
  lemma MergePairIs(v: seq<Index>, q: nat, size: nat, x: seq<Index>)
    requires Off(q, 2 * size) + 2 * size <= |v|
    requires x == MergeRuns(Slot(v, 2 * q, size), Slot(v, 2 * q + 1, size))
    ensures |x| == 2 * size && MergePair(v, q, size) == SetSlot(v, q, 2 * size, x)
  {
    PairSlot(v, q, size);
    hide Off;
    hide Slot;
    hide SetSlot;
  }

  lemma PairMergedBy(r: seq<Index>, w: seq<Index>, p: nat, size: nat)
    requires Slot(r, p, 2 * size) == MergeRuns(Slot(w, 2 * p, size), Slot(w, 2 * p + 1, size))
    ensures PairMerged(r, w, p, size)
  {
  }

  lemma PairStillMerged(r: seq<Index>, v: seq<Index>, w: seq<Index>, p: nat, size: nat)
    requires Slot(r, p, 2 * size) == Slot(v, p, 2 * size) && PairMerged(v, w, p, size)
    ensures PairMerged(r, w, p, size)
  {
    hide Slot;
    hide MergeRuns;
  }

  lemma MergePairSlots(w: seq<Index>, v: seq<Index>, q: nat, size: nat)
    requires |v| == |w| && Off(q, 2 * size) + 2 * size <= |w|
    requires v[Off(q, 2 * size)..] == w[Off(q, 2 * size)..]
    ensures PairMerged(MergePair(v, q, size), w, q, size)
    ensures forall p: nat | p != q && PairMerged(v, w, p, size) :: PairMerged(MergePair(v, q, size), w, p, size)
    ensures MergePair(v, q, size)[Off(q, 2 * size) + 2 * size..] == w[Off(q, 2 * size) + 2 * size..]
  {
    hide *;
    var x := MergeRuns(Slot(v, 2 * q, size), Slot(v, 2 * q + 1, size));
    MergePairIs(v, q, size, x);
    SamePair(w, v, q, size);
    SetSlotSame(v, q, 2 * size, x);
    PairMergedBy(MergePair(v, q, size), w, q, size);
    SlotFits(q, q + 1, 2 * size);
    SetSlotTail(v, q, 2 * size, x, q + 1);
    DropDrop(w, v, Off(q, 2 * size), Off(q, 2 * size) + 2 * size);
    forall p: nat | p != q && PairMerged(v, w, p, size) ensures PairMerged(MergePair(v, q, size), w, p, size) {
      SetSlotOther(v, q, 2 * size, x, p);
      PairStillMerged(MergePair(v, q, size), v, w, p, size);
    }
  }

  /** Windows that agree from a pair on hold the same runs there. */
  lemma SamePair(w: seq<Index>, v: seq<Index>, q: nat, size: nat)
    requires |v| == |w| && Off(q, 2 * size) + 2 * size <= |w|
    requires v[Off(q, 2 * size)..] == w[Off(q, 2 * size)..]
    ensures Slot(v, 2 * q, size) == Slot(w, 2 * q, size) && Slot(v, 2 * q + 1, size) == Slot(w, 2 * q + 1, size)
  {
    hide *;
    OffDouble(q, size);
    TailSlot(w, v, Off(q, 2 * size), 2 * q, size);
    TailSlot(w, v, Off(q, 2 * size), 2 * q + 1, size);
  }

  lemma TailSlot(w: seq<Index>, v: seq<Index>, from: nat, i: nat, n: nat)
    requires |w| == |v| && from <= Off(i, n) && Off(i, n) + n <= |w| && w[from..] == v[from..]
    ensures Slot(w, i, n) == Slot(v, i, n)
  {
    hide *;
    SlotIs(w, i, n);
    SlotIs(v, i, n);
    DropSlice(w, from, Off(i, n), n);
    DropSlice(v, from, Off(i, n), n);
  }

  lemma DropSlice(w: seq<Index>, from: nat, o: nat, n: nat)
    requires from <= o && o + n <= |w|
    ensures w[o..o + n] == w[from..][o - from..o - from + n]
  {
  }

  lemma DropDrop(w: seq<Index>, v: seq<Index>, from: nat, to: nat)
    requires |w| == |v| && from <= to <= |w| && w[from..] == v[from..]
    ensures w[to..] == v[to..]
  {
    assert w[from..][to - from..] == w[to..] && v[from..][to - from..] == v[to..];
  }

  // ----- the same levels, counted from the first one

  function Log2(blocks: nat): (k: nat)
  {
    if blocks <= 1 then 0 else 1 + Log2(blocks / 2)
  }

  /** It is the logarithm rounded down. */
  lemma {:induction false} Log2Floor(blocks: nat)
    requires blocks >= 1
    ensures LevelSize(1, Log2(blocks)) <= blocks < 2 * LevelSize(1, Log2(blocks))
  {
    if blocks > 1 {
      Log2Floor(blocks / 2);
    }
  }

  function LevelBlocks(blocks: nat, k: nat): nat {
    if k == 0 then blocks else LevelBlocks(blocks, k - 1) / 2
  }

  function LevelSize(size: nat, k: nat): nat {
    if k == 0 then size else 2 * LevelSize(size, k - 1)
  }

  /** The window as it stands when level `k` begins. */
  function LevelBase(w: seq<Index>, blocks: nat, size: nat, k: nat): (r: seq<Index>)
    ensures |r| == |w|
  {
    if k == 0 then w
    else LevelStep(LevelBase(w, blocks, size, k - 1), LevelBlocks(blocks, k - 1) / 2, LevelSize(size, k - 1))
  }

  /** The pairs of every level lie inside the window. */
  lemma {:induction false} LevelFits(blocks: nat, size: nat, k: nat)
    ensures Off(LevelBlocks(blocks, k) / 2, 2 * LevelSize(size, k)) <= Off(LevelBlocks(blocks, k), LevelSize(size, k))
    ensures Off(LevelBlocks(blocks, k), LevelSize(size, k)) <= Off(blocks, size)
  {
    if k > 0 {
      LevelFits(blocks, size, k - 1);
    }
    OffHalved(LevelBlocks(blocks, k), LevelSize(size, k));
  }

  /** Blocks are left to pair up before level `Log2(blocks)` and not from there on. */
  lemma {:induction false} LevelCount(blocks: nat, k: nat)
    requires blocks >= 1
    ensures LevelBlocks(blocks, k) > 1 <==> k < Log2(blocks)
    ensures LevelBlocks(blocks, k) >= 1 <==> k <= Log2(blocks)
    decreases k, blocks
  {
    if k > 0 {
      HalveFirst(blocks, k);
      if blocks > 1 {
        LevelCount(blocks / 2, k - 1);
      } else {
        assert LevelBlocks(blocks / 2, k - 1) == 0 by { LevelBlocksZero(k - 1); }
      }
    }
  }

  lemma {:induction false} HalveFirst(blocks: nat, k: nat)
    requires k > 0
    ensures LevelBlocks(blocks, k) == LevelBlocks(blocks / 2, k - 1)
  {
    if k > 1 {
      HalveFirst(blocks, k - 1);
    }
  }

  lemma LevelBlocksZero(k: nat)
    ensures LevelBlocks(0, k) == 0
  {
  }

  lemma {:induction false} LevelsFromBase(w: seq<Index>, blocks: nat, size: nat, k: nat,
                                          base: seq<Index>, m: nat, s: nat)
    requires base == LevelBase(w, blocks, size, k) && m == LevelBlocks(blocks, k) && s == LevelSize(size, k)
    ensures AllLevels(base, m, s) == AllLevels(w, blocks, size)
  {
    if k > 0 {
      var base', m', s' := LevelBase(w, blocks, size, k - 1), LevelBlocks(blocks, k - 1), LevelSize(size, k - 1);
      LevelsFromBase(w, blocks, size, k - 1, base', m', s');
      OneLevel(base', m', s');
    }
  }

  lemma OneLevel(w: seq<Index>, blocks: nat, size: nat)
    ensures AllLevels(w, blocks, size) == AllLevels(LevelStep(w, blocks / 2, size), blocks / 2, 2 * size)
  {
    if blocks <= 1 {
      assert blocks / 2 == 0;
    }
  }

  /** Once no pair is left, the window is the result of all levels. */
  lemma LevelsAtEnd(w: seq<Index>, blocks: nat, size: nat, k: nat)
    requires LevelBlocks(blocks, k) <= 1
    ensures LevelBase(w, blocks, size, k) == AllLevels(w, blocks, size)
  {
    LevelsFromBase(w, blocks, size, k, LevelBase(w, blocks, size, k), LevelBlocks(blocks, k), LevelSize(size, k));
  }

  // ----- the blocks before the first level

  /** The window with its first `n` blocks each sorted on its own. */
  function SortBlocks(qsort: Qsort, w: seq<Index>, n: nat, size: nat): (r: seq<Index>)
    ensures |r| == |w|
  {
    if n == 0 then w
    else SetSlot(SortBlocks(qsort, w, n - 1, size), n - 1, size, qsort(Slot(w, n - 1, size)))
  }

  lemma QsortLength(qsort: Qsort, s: seq<Index>)
    ensures SortsTo(s, qsort(s)) && |qsort(s)| == |s|
  {
    assert SortsTo(s, qsort(s));
    SameLength(s, qsort(s));
  }

  lemma SlotLength(w: seq<Index>, i: nat, n: nat)
    requires Off(i, n) + n <= |w|
    ensures |Slot(w, i, n)| == n
  {
  }

  ghost predicate BlockSorted(qsort: Qsort, r: seq<Index>, w: seq<Index>, b: nat, size: nat) {
    Slot(r, b, size) == qsort(Slot(w, b, size))
  }

  /** The window `v` once the first `n` blocks of `w` are sorted. */
  ghost predicate BlocksSorted(qsort: Qsort, v: seq<Index>, w: seq<Index>, n: nat, size: nat) {
    && |v| == |w| && Off(n, size) <= |w|
    && v[Off(n, size)..] == w[Off(n, size)..]
    && forall b: nat | b < n :: BlockSorted(qsort, v, w, b, size)
  }

  lemma {:induction false} SortBlocksSlots(qsort: Qsort, w: seq<Index>, n: nat, size: nat)
    requires Off(n, size) <= |w|
    ensures BlocksSorted(qsort, SortBlocks(qsort, w, n, size), w, n, size)
    ensures SortBlocks(qsort, w, n, size)[Off(n, size)..] == w[Off(n, size)..]
    ensures forall b: nat | b < n :: BlockSorted(qsort, SortBlocks(qsort, w, n, size), w, b, size)
  {
    hide Slot;
    hide SetSlot;
    hide BlockSorted;
    if n > 0 {
      SlotFits(n - 1, n, size);
      SortBlocksSlots(qsort, w, n - 1, size);
      OneBlockMore(qsort, w, SortBlocks(qsort, w, n - 1, size), n - 1, n, size);
    }
  }

  lemma OneBlockMore(qsort: Qsort, w: seq<Index>, v: seq<Index>, q: nat, n: nat, size: nat)
    requires n == q + 1 && Off(n, size) == Off(q, size) + size <= |w|
    requires BlocksSorted(qsort, v, w, q, size)
    ensures BlocksSorted(qsort, SetSlot(v, q, size, qsort(Slot(w, q, size))), w, n, size)
  {
    hide Off;
    hide Slot;
    hide SetSlot;
    hide BlockSorted;
    var x := qsort(Slot(w, q, size));
    var r := SetSlot(v, q, size, x);
    SlotLength(w, q, size);
    QsortLength(qsort, Slot(w, q, size));
    SetSlotSame(v, q, size, x);
    SetSlotTail(v, q, size, x, n);
    DropDrop(w, v, Off(q, size), Off(n, size));
    BlockIsSorted(qsort, r, w, q, size);
    forall b: nat | b < q ensures BlockSorted(qsort, r, w, b, size) {
      SetSlotOther(v, q, size, x, b);
      BlockStillSorted(qsort, r, v, w, b, size);
    }
  }

  lemma BlockIsSorted(qsort: Qsort, r: seq<Index>, w: seq<Index>, b: nat, size: nat)
    requires Slot(r, b, size) == qsort(Slot(w, b, size))
    ensures BlockSorted(qsort, r, w, b, size)
  {
  }

  lemma BlockStillSorted(qsort: Qsort, r: seq<Index>, v: seq<Index>, w: seq<Index>, b: nat, size: nat)
    requires Slot(r, b, size) == Slot(v, b, size) && BlockSorted(qsort, v, w, b, size)
    ensures BlockSorted(qsort, r, w, b, size)
  {
    hide Slot;
  }

  /** What one window becomes: its blocks sorted, then merged level by level. */
  function WindowResult(qsort: Qsort, w: seq<Index>, blocks: nat, size: nat): (r: seq<Index>)
    ensures |r| == |w|
  {
    AllLevels(SortBlocks(qsort, w, blocks, size), blocks, size)
  }
}
