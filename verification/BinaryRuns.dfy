/** Which sorted runs are left when an odd block is dropped at every level. */
module BinaryRuns {
  import opened Records
  import opened Merging
  import opened Windows
  import opened Levels

  /** A binary digit of `n`; digit 0 is the lowest. */
  predicate Bit(n: nat, j: nat) {
    if j == 0 then n % 2 == 1 else Bit(n / 2, j - 1)
  }

  predicate IsPow2(n: nat) {
    n == 1 || (n > 1 && n % 2 == 0 && IsPow2(n / 2))
  }

  /** The powers of two are 1 doubled any number of times. */
  lemma {:induction false} IsPow2Iff(n: nat)
    ensures IsPow2(n) <==> exists e: nat :: n == LevelSize(1, e)
  {
    if IsPow2(n) {
      var e := Exponent(n);
    } else {
      forall e: nat ensures n != LevelSize(1, e) {
        DoublesToPow2(e);
      }
    }
  }

  lemma {:induction false} Exponent(n: nat) returns (e: nat)
    requires IsPow2(n)
    ensures n == LevelSize(1, e)
  {
    e := 0;
    if n > 1 {
      e := Exponent(n / 2);
      e := e + 1;
    }
  }

  lemma {:induction false} DoublesToPow2(e: nat)
    ensures LevelSize(1, e) > 0 && IsPow2(LevelSize(1, e))
  {
    if e > 0 {
      DoublesToPow2(e - 1);
      DoublePow2(LevelSize(1, e - 1));
    }
  }

  lemma DoublePow2(n: nat)
    requires n > 0 && IsPow2(n)
    ensures IsPow2(2 * n)
  {
    var m := 2 * n;
    assert m > 1 && m % 2 == 0 && m / 2 == n;
  }

  /** The runs from left to right, each given by how often a block of size `LevelSize(size, 0)` doubled. */
  function RunExps(blocks: nat, e: nat): seq<nat>
    decreases blocks
  {
    if blocks == 0 then []
    else RunExps(blocks / 2, e + 1) + (if blocks % 2 == 1 then [e] else [])
  }

  /** The runs are exactly the binary digits of the block count, from high to low. */
  lemma {:induction false} RunsAreBinaryDigits(blocks: nat, e: nat)
    ensures forall i: nat :: i in RunExps(blocks, e) <==> i >= e && Bit(blocks, i - e)
    ensures forall a, b | 0 <= a < b < |RunExps(blocks, e)| :: RunExps(blocks, e)[a] > RunExps(blocks, e)[b]
    decreases blocks
  {
    if blocks == 0 {
      forall i: nat ensures !Bit(0, i) {
        NoBits(i);
      }
    } else {
      RunsAreBinaryDigits(blocks / 2, e + 1);
      var high := RunExps(blocks / 2, e + 1);
      assert forall a | 0 <= a < |high| :: high[a] in high;
      forall i: nat ensures i in RunExps(blocks, e) <==> i >= e && Bit(blocks, i - e) {
        assert i in RunExps(blocks, e) <==> i in high || (blocks % 2 == 1 && i == e);
      }
    }
  }

  lemma NoBits(i: nat)
    ensures !Bit(0, i)
  {
  }

  /** There is a single run exactly when the block count is a power of two. */
  lemma {:induction false} SingleRun(blocks: nat, e: nat)
    requires blocks > 0
    ensures |RunExps(blocks, e)| >= 1
    ensures |RunExps(blocks, e)| == 1 <==> IsPow2(blocks)
    decreases blocks
  {
    if blocks > 1 {
      SingleRun(blocks / 2, e + 1);
    } else {
      assert RunExps(0, e + 1) == [];
    }
  }

  /**
   * Records 0 to `to` of `r` are cut into the runs `exps`, each a permutation of the
   * same stretch of `o`, and sorted if `sorted` is set.
   */
  ghost predicate RunsTo(r: seq<Index>, o: seq<Index>, to: int, exps: seq<nat>, size: nat, sorted: bool)
    decreases |exps|
  {
    if exps == [] then to == 0
    else
      var from := to - LevelSize(size, exps[|exps| - 1]);
      && 0 <= from && to <= |r| == |o|
      && RunOf(r[from..to], o[from..to], sorted)
      && RunsTo(r, o, from, exps[..|exps| - 1], size, sorted)
  }

  ghost predicate RunOf(r: seq<Index>, o: seq<Index>, sorted: bool) {
    multiset(r) == multiset(o) && (sorted ==> Sorted(r))
  }

  ghost predicate SlotsOf(r: seq<Index>, o: seq<Index>, m: nat, size: nat, sorted: bool) {
    forall i: nat | i < m :: RunOf(Slot(r, i, size), Slot(o, i, size), sorted)
  }

  lemma PairRun(r: seq<Index>, base: seq<Index>, o: seq<Index>, m: nat, p: nat, size: nat, sorted: bool)
    requires |base| == |o| == |r| && p < m / 2 && Off(p, 2 * size) + 2 * size <= |o|
    requires SlotsOf(base, o, m, size, sorted) && PairMerged(r, base, p, size)
    ensures RunOf(Slot(r, p, 2 * size), Slot(o, p, 2 * size), sorted)
  {
    hide Slot;
    PairSlot(o, p, size);
    var x, y := Slot(base, 2 * p, size), Slot(base, 2 * p + 1, size);
    assert RunOf(x, Slot(o, 2 * p, size), sorted) && RunOf(y, Slot(o, 2 * p + 1, size), sorted);
    MergePermutes(x, y);
    if sorted {
      MergeSorts(x, y);
    }
  }

  /** One level keeps "a permutation of the same slot, and sorted", for slots of twice the size. */
  lemma LevelKeepsSlots(base: seq<Index>, o: seq<Index>, m: nat, size: nat, sorted: bool)
    requires |base| == |o| && Off(m, size) <= |o| && SlotsOf(base, o, m, size, sorted)
    ensures SlotsOf(LevelStep(base, m / 2, size), o, m / 2, 2 * size, sorted)
  {
    hide LevelStep;
    var r := LevelStep(base, m / 2, size);
    OffHalved(m, size);
    LevelStepSlots(base, m / 2, size);
    forall p: nat | p < m / 2 ensures RunOf(Slot(r, p, 2 * size), Slot(o, p, 2 * size), sorted) {
      SlotFits(p, m / 2, 2 * size);
      assert PairMerged(r, base, p, size);
      PairRun(r, base, o, m, p, size, sorted);
    }
  }

  /** The window `r` that all levels make of `m` blocks of size `LevelSize(size, e)` in `base`. */
  ghost predicate RunsLeft(r: seq<Index>, base: seq<Index>, o: seq<Index>, m: nat, e: nat, size: nat, sorted: bool) {
    var to := Off(m, LevelSize(size, e));
    && |r| == |base| == |o| && to <= |o| && r[to..] == base[to..]
    && RunsTo(r, o, to, RunExps(m, e), size, sorted)
  }

  /** The runs left by all levels that start from `m` blocks of size `LevelSize(size, e)`. */
  lemma {:induction false} LevelRuns(base: seq<Index>, o: seq<Index>, m: nat, e: nat, size: nat, sorted: bool)
    requires |base| == |o| && Off(m, LevelSize(size, e)) <= |o|
    requires SlotsOf(base, o, m, LevelSize(size, e), sorted)
    ensures RunsLeft(AllLevels(base, m, LevelSize(size, e)), base, o, m, e, size, sorted)
    decreases m
  {
    hide *;
    var s, s2 := LevelSize(size, e), LevelSize(size, e + 1);
    if m <= 1 {
      FewBlocks(base, o, m, e, size, sorted);
    } else {
      var h := m / 2;
      var half := LevelStep(base, h, s);
      NextSize(size, e);
      OneLevel(base, m, s);
      OffHalved(m, s);
      LevelKeepsSlots(base, o, m, s, sorted);
      LevelRuns(half, o, h, e + 1, size, sorted);
      HalvedRuns(base, o, half, AllLevels(half, h, s2), m, h, e, s, s2, size, sorted);
    }
  }

  lemma NextSize(size: nat, e: nat)
    ensures LevelSize(size, e + 1) == 2 * LevelSize(size, e)
  {
  }

  lemma FewBlocks(base: seq<Index>, o: seq<Index>, m: nat, e: nat, size: nat, sorted: bool)
    requires m <= 1 && |base| == |o| && Off(m, LevelSize(size, e)) <= |o|
    requires SlotsOf(base, o, m, LevelSize(size, e), sorted)
    ensures RunsLeft(AllLevels(base, m, LevelSize(size, e)), base, o, m, e, size, sorted)
  {
    hide RunsTo;
    hide SlotsOf;
    hide LevelSize;
    hide LevelStep;
    NoRuns(base, o, size, sorted);
    if m == 1 {
      assert RunExps(1, e) == RunExps(0, e + 1) + [e] == [e];
      LastRun(base, base, o, 1, e, [], size, sorted);
      assert [] + [e] == [e];
    }
  }

  /** What a level leaves, once the levels after it are done: their runs, and a dropped odd block. */
  lemma HalvedRuns(base: seq<Index>, o: seq<Index>, half: seq<Index>, r: seq<Index>, m: nat, h: nat, e: nat,
                   s: nat, s2: nat, size: nat, sorted: bool)
    requires m > 1 && h == m / 2 && s == LevelSize(size, e) && s2 == LevelSize(size, e + 1) == 2 * s
    requires |base| == |o| && Off(m, s) <= |o| && SlotsOf(base, o, m, s, sorted)
    requires half == LevelStep(base, h, s) && RunsLeft(r, half, o, h, e + 1, size, sorted)
    ensures RunsLeft(r, base, o, m, e, size, sorted)
  {
    hide Slot;
    hide SlotsOf;
    hide LevelStep;
    hide RunsTo;
    hide RunExps;
    hide LevelSize;
    hide Off;
    hide PairMerged;
    OffHalved(m, s);
    LevelStepSlots(base, h, s);
    DropDrop(base, r, Off(h, s2), Off(m, s));
    if m % 2 == 1 {
      OddEnd(m, h, s);
      TailSlot(base, r, Off(h, s2), m - 1, s);
      OddExps(m, e);
      LastRun(r, base, o, m, e, RunExps(h, e + 1), size, sorted);
    } else {
      OffDouble(h, s);
      EvenExps(m, e);
    }
  }

  lemma OddEnd(m: nat, h: nat, s: nat)
    requires m == 2 * h + 1
    ensures Off(h, 2 * s) == Off(m - 1, s) && Off(m - 1, s) + s == Off(m, s)
  {
    OffDouble(h, s);
  }

  lemma OddExps(m: nat, e: nat)
    requires m % 2 == 1
    ensures RunExps(m, e) == RunExps(m / 2, e + 1) + [e]
  {
  }

  lemma EvenExps(m: nat, e: nat)
    requires m > 0 && m % 2 == 0
    ensures RunExps(m, e) == RunExps(m / 2, e + 1)
  {
  }

  lemma NoRuns(r: seq<Index>, o: seq<Index>, size: nat, sorted: bool)
    ensures RunsTo(r, o, 0, [], size, sorted)
  {
  }

  /** An odd block that is dropped becomes the run at the right end. */
  lemma LastRun(r: seq<Index>, base: seq<Index>, o: seq<Index>, m: nat, e: nat, exps: seq<nat>, size: nat, sorted: bool)
    requires m > 0 && |r| == |base| == |o| && Off(m, LevelSize(size, e)) <= |o|
    requires Slot(r, m - 1, LevelSize(size, e)) == Slot(base, m - 1, LevelSize(size, e))
    requires SlotsOf(base, o, m, LevelSize(size, e), sorted)
    requires RunsTo(r, o, Off(m - 1, LevelSize(size, e)), exps, size, sorted)
    ensures RunsTo(r, o, Off(m, LevelSize(size, e)), exps + [e], size, sorted)
  {
    hide RunsTo;
    hide RunOf;
    hide Slot;
    hide LevelSize;
    var s := LevelSize(size, e);
    var from, to := Off(m - 1, s), Off(m, s);
    assert to == from + s;
    assert RunOf(Slot(base, m - 1, s), Slot(o, m - 1, s), sorted);
    SlotIs(r, m - 1, s);
    SlotIs(o, m - 1, s);
    hide *;
    AddRun(r, o, from, to, exps, e, size, sorted);
  }

  lemma AddRun(r: seq<Index>, o: seq<Index>, from: nat, to: nat, exps: seq<nat>, e: nat, size: nat, sorted: bool)
    requires to == from + LevelSize(size, e) <= |r| == |o|
    requires RunOf(r[from..to], o[from..to], sorted) && RunsTo(r, o, from, exps, size, sorted)
    ensures RunsTo(r, o, to, exps + [e], size, sorted)
  {
    hide RunOf;
    hide LevelSize;
    assert (exps + [e])[..|exps|] == exps;
  }

  /** The window a thread team leaves behind, for every block count. */
  lemma WindowRuns(qsort: Qsort, w: seq<Index>, blocks: nat, size: nat)
    requires |w| == blocks * size
    ensures RunsTo(WindowResult(qsort, w, blocks, size), w, |w|, RunExps(blocks, 0), size, true)
  {
    OffIsProduct(blocks, size);
    var base := SortBlocks(qsort, w, blocks, size);
    SortBlocksSlots(qsort, w, blocks, size);
    forall i: nat | i < blocks ensures RunOf(Slot(base, i, size), Slot(w, i, size), true) {
      QsortLength(qsort, Slot(w, i, size));
      assert BlockSorted(qsort, base, w, i, size);
    }
    assert LevelSize(size, 0) == size;
    LevelRuns(base, w, blocks, 0, size, true);
  }

  /** With a single run the whole of it is one permutation, sorted if its parts were. */
  lemma OneRun(r: seq<Index>, o: seq<Index>, exps: seq<nat>, size: nat, sorted: bool)
    requires |r| == |o| && |exps| == 1 && RunsTo(r, o, |o|, exps, size, sorted)
    ensures RunOf(r, o, sorted)
  {
    var from := |o| - LevelSize(size, exps[0]);
    assert exps[..0] == [];
    assert from == 0;
    assert r[0..|o|] == r && o[0..|o|] == o;
  }

  /** However many runs there are, together they are a permutation. */
  lemma {:induction false} RunsPermute(r: seq<Index>, o: seq<Index>, to: int, exps: seq<nat>, size: nat, sorted: bool)
    requires |r| == |o| && RunsTo(r, o, to, exps, size, sorted)
    ensures 0 <= to <= |o| && multiset(r[..to]) == multiset(o[..to])
    decreases |exps|
  {
    if exps != [] {
      var from := to - LevelSize(size, exps[|exps| - 1]);
      RunsPermute(r, o, from, exps[..|exps| - 1], size, sorted);
      assert r[..to] == r[..from] + r[from..to] && o[..to] == o[..from] + o[from..to];
    }
  }

  // ----- what happens for other block counts

  ghost predicate StrictlyFalling(o: seq<Index>) {
    forall i, j | 0 <= i < j < |o| :: o[i].timeMark > o[j].timeMark
  }

  /** Records in falling order, `n` of them, the last with key `low`. */
  function Falling(n: nat, low: real): (o: seq<Index>)
    ensures |o| == n
    ensures forall i | 0 <= i < n :: o[i].timeMark == low + (n - 1 - i) as real
  {
    seq(n, i requires 0 <= i < n => Index(low + (n - 1 - i) as real, i))
  }

  lemma LevelSizePositive(size: nat, e: nat)
    requires size > 0
    ensures LevelSize(size, e) > 0
  {
  }

  /** Falling records stay unsorted whenever two runs or more are left. */
  lemma TwoRunsUnsorted(r: seq<Index>, o: seq<Index>, exps: seq<nat>, size: nat, sorted: bool)
    requires size > 0 && |exps| >= 2 && |r| == |o| && RunsTo(r, o, |o|, exps, size, sorted)
    requires StrictlyFalling(o)
    ensures !Sorted(r)
  {
    var exps', from := exps[..|exps| - 1], |o| - LevelSize(size, exps[|exps| - 1]);
    LevelSizePositive(size, exps[|exps| - 1]);
    LevelSizePositive(size, exps'[|exps'| - 1]);
    hide LevelSize;
    RunsPermute(r, o, from, exps', size, sorted);
    assert 0 < from < |o|;
    assert multiset(r[from..|o|]) == multiset(o[from..|o|]);
    hide *;
    SplitUnsorted(r, o, from);
  }

  /** Falling records of which two neighbouring stretches are permuted stay unsorted. */
  lemma SplitUnsorted(r: seq<Index>, o: seq<Index>, from: nat)
    requires 0 < from < |o| == |r| && StrictlyFalling(o)
    requires multiset(r[..from]) == multiset(o[..from]) && multiset(r[from..|o|]) == multiset(o[from..|o|])
    ensures !Sorted(r)
  {
    var i := Origin(r[..from], o[..from], from - 1);
    var j := Origin(r[from..|o|], o[from..|o|], 0);
    assert r[from - 1] == o[i] && r[from] == o[from + j];
    assert o[i].timeMark > o[from + j].timeMark;
    assert Compare(r[from - 1], r[from]) > 0;
  }

  lemma Origin(r: seq<Index>, o: seq<Index>, k: nat) returns (i: nat)
    requires multiset(r) == multiset(o) && k < |r|
    ensures i < |o| && o[i] == r[k]
  {
    assert r[k] in multiset(r);
    assert r[k] in o;
    i :| i < |o| && o[i] == r[k];
  }
}
