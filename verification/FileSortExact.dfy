/** For which block and window counts the program sorts every file. */
module FileSortExact {
  import opened Records
  import opened Merging
  import opened Windows
  import opened Levels
  import opened BinaryRuns
  import opened ParallelSort
  import opened FileSort

  // ----- slots that are already in order stay where they are

  /** Every record before boundary `b` has a key below `b`, every one behind it a key of at least `b`. */
  ghost predicate SplitAt(w: seq<Index>, b: nat) {
    && (forall x | 0 <= x < b && x < |w| :: w[x].timeMark < b as real)
    && (forall x | b <= x < |w| :: w[x].timeMark >= b as real)
  }

  ghost predicate SplitAtSlots(w: seq<Index>, m: nat, size: nat) {
    forall i: nat | 0 < i <= m :: SplitAt(w, Off(i, size))
  }

  lemma OneSplit(w: seq<Index>, m: nat, size: nat, i: nat)
    requires SplitAtSlots(w, m, size) && 0 < i <= m
    ensures SplitAt(w, Off(i, size))
  {
    hide SplitAt;
  }

  lemma PairStays(w: seq<Index>, p: nat, m: nat, size: nat)
    requires Off(m, size) <= |w| && SplitAtSlots(w, m, size) && p < m / 2
    ensures MergeRuns(Slot(w, 2 * p, size), Slot(w, 2 * p + 1, size)) == Slot(w, p, 2 * size)
  {
    hide *;
    var a, b := Off(2 * p, size), Off(2 * p + 1, size);
    var x, y := Slot(w, 2 * p, size), Slot(w, 2 * p + 1, size);
    SlotFits(p, m / 2, 2 * size);
    OffHalved(m, size);
    OffDouble(p, size);
    OneSplit(w, m, size, 2 * p + 1);
    SlotIs(w, 2 * p, size);
    SlotIs(w, 2 * p + 1, size);
    SplitRuns(w, a, b, b + size);
    MergeOfOrderedRuns(x, y);
    PairSlot(w, p, size);
  }

  lemma SplitRuns(w: seq<Index>, a: nat, b: nat, c: nat)
    requires a <= b <= c <= |w| && SplitAt(w, b)
    ensures forall i, j | 0 <= i < b - a && 0 <= j < c - b :: w[a..b][i].timeMark < w[b..c][j].timeMark
  {
    forall i, j | 0 <= i < b - a && 0 <= j < c - b ensures w[a..b][i].timeMark < w[b..c][j].timeMark {
      assert w[a..b][i] == w[a + i] && w[b..c][j] == w[b + j];
    }
  }

  lemma {:induction false} OrderedStays(w: seq<Index>, m: nat, size: nat)
    requires Off(m, size) <= |w| && SplitAtSlots(w, m, size)
    ensures AllLevels(w, m, size) == w
    decreases m
  {
    hide Slot;
    hide LevelStep;
    hide SplitAt;
    if m > 1 {
      var r := LevelStep(w, m / 2, size);
      OffHalved(m, size);
      LevelStepSlots(w, m / 2, size);
      forall p: nat | p < m / 2 ensures Slot(r, p, 2 * size) == Slot(w, p, 2 * size) {
        assert PairMerged(r, w, p, size);
        PairStays(w, p, m, size);
      }
      EqualBySlots(r, w, m / 2, 2 * size);
      forall i: nat | 0 < i <= m / 2 ensures SplitAt(w, Off(i, 2 * size)) {
        OffDouble(i, size);
      }
      OrderedStays(w, m / 2, 2 * size);
      OneLevel(w, m, size);
    }
  }

  // ----- a file whose first window is left unsorted

  /** The first window falling, every later record in place: keys are record positions. */
  function Worst(m: nat, n: nat): (r: seq<Index>)
    ensures |r| == n
  {
    seq(n, x requires 0 <= x < n => Index((if x < m then m - 1 - x else x) as real, x))
  }

  lemma WorstSplit(m: nat, n: nat, windows: nat)
    requires m > 0 && n == Off(windows, m)
    ensures SplitAtSlots(Worst(m, n), windows, m)
  {
    var r := Worst(m, n);
    forall i: nat | 0 < i <= windows ensures SplitAt(r, Off(i, m)) {
      var b := Off(i, m);
      if i > 1 {
        SlotFits(1, i, m);
      }
      assert b >= m;
      forall x | 0 <= x < b && x < n ensures r[x].timeMark < b as real {
        assert r[x].timeMark == (if x < m then m - 1 - x else x) as real;
      }
      forall x | b <= x < n ensures r[x].timeMark >= b as real {
        assert r[x].timeMark == x as real;
      }
    }
  }

  /** A record of a slot that was only permuted inside came from that slot. */
  lemma SlotMember(w: seq<Index>, o: seq<Index>, j: nat, m: nat, x: nat) returns (y: nat)
    requires |w| == |o| && Off(j, m) <= x < Off(j, m) + m <= |w|
    requires RunOf(Slot(w, j, m), Slot(o, j, m), false)
    ensures Off(j, m) <= y < Off(j, m) + m && o[y] == w[x]
  {
    var a := Off(j, m);
    assert w[x] == Slot(w, j, m)[x - a];
    assert w[x] in multiset(Slot(o, j, m));
    assert w[x] in Slot(o, j, m);
    var k :| 0 <= k < m && Slot(o, j, m)[k] == w[x];
    y := a + k;
  }

  lemma SlotOfRecord(x: nat, windows: nat, m: nat) returns (j: nat)
    requires m > 0 && x < Off(windows, m)
    ensures j < windows && Off(j, m) <= x < Off(j, m) + m
  {
    j := 0;
    while Off(j, m) + m <= x
      invariant j < windows && Off(j, m) <= x
      decreases x - Off(j, m)
    {
      assert Off(j + 1, m) == Off(j, m) + m;
      j := j + 1;
    }
  }

  lemma PermutedSplit(w: seq<Index>, o: seq<Index>, windows: nat, m: nat)
    requires m > 0 && |w| == |o| == Off(windows, m)
    requires SlotsOf(w, o, windows, m, false) && SplitAtSlots(o, windows, m)
    ensures SplitAtSlots(w, windows, m)
  {
    hide Slot;
    forall i: nat | 0 < i <= windows ensures SplitAt(w, Off(i, m)) {
      var b := Off(i, m);
      assert SplitAt(o, b);
      forall x: nat | x < |w|
        ensures x < b ==> w[x].timeMark < b as real
        ensures b <= x ==> w[x].timeMark >= b as real
      {
        var j := SlotOfRecord(x, windows, m);
        assert RunOf(Slot(w, j, m), Slot(o, j, m), false);
        SlotFits(j, windows, m);
        var y := SlotMember(w, o, j, m, x);
        if j < i { SlotFits(j, i, m); } else if i < j { SlotFits(i, j, m); }
      }
    }
  }

  lemma WorstUnsorted(c: Config, windows: nat)
    requires ValidConfig(c) && c.size > 0 && windows > 0 && !IsPow2(c.blocks)
    ensures !Sorted(AllLevels(SortedWindows(c, Worst(Memsize(c), windows * Memsize(c)), windows), windows, Memsize(c)))
  {
    hide AllLevels;
    hide WindowResult;
    hide RunsTo;
    hide RunExps;
    hide SortedWindows;
    var m := Memsize(c);
    var o := Worst(m, windows * m);
    OffIsProduct(windows, m);
    var w := SortedWindows(c, o, windows);
    PositiveProduct(c.blocks, c.size);
    WorstSplit(m, windows * m, windows);
    SortedWindowsRuns(c, o, windows);
    assert SlotsOf(w, o, windows, m, false);
    PermutedSplit(w, o, windows, m);
    OrderedStays(w, windows, m);
    SortedWindowsSlots(c, o, windows, 0);
    SlotFits(0, windows, m);
    var first, r := Slot(o, 0, m), Slot(w, 0, m);
    assert first == o[..m] && r == w[..m];
    WindowRuns(c.qsort, first, c.blocks, c.size);
    SingleRun(c.blocks, 0);
    FirstFalls(o, m);
    TwoRunsUnsorted(r, first, RunExps(c.blocks, 0), c.size, true);
    SortedPrefix(w, m);
  }

  lemma SortedPrefix(w: seq<Index>, m: nat)
    requires m <= |w|
    ensures Sorted(w) ==> Sorted(w[..m])
  {
  }

  lemma PositiveProduct(a: nat, b: nat)
    requires a > 0 && b > 0
    ensures a * b > 0
  {
  }

  lemma FirstFalls(o: seq<Index>, m: nat)
    requires m <= |o| && o == Worst(m, |o|)
    ensures StrictlyFalling(o[..m])
  {
  }

  /** Records in falling order leave two runs or more whenever the windows do not pair up. */
  lemma FallingUnsorted(c: Config, windows: nat)
    requires ValidConfig(c) && c.size > 0 && windows > 0 && !IsPow2(windows)
    ensures !Sorted(AllLevels(SortedWindows(c, Falling(windows * Memsize(c), 0.0), windows), windows, Memsize(c)))
  {
    hide AllLevels;
    hide SortedWindows;
    hide RunsTo;
    hide RunExps;
    var m := Memsize(c);
    var o := Falling(windows * m, 0.0);
    OffIsProduct(windows, m);
    SortedWindowsRuns(c, o, windows);
    var w := SortedWindows(c, o, windows);
    assert LevelSize(m, 0) == m;
    LevelRuns(w, o, windows, 0, m, IsPow2(c.blocks));
    SingleRun(windows, 0);
    PositiveProduct(c.blocks, c.size);
    TwoRunsUnsorted(AllLevels(w, windows, m), o, RunExps(windows, 0), m, IsPow2(c.blocks));
  }

  // ----- the exact condition

  ghost predicate SortsEveryFile(c: Config, windows: nat) {
    forall file | ValidFile(c, file, windows) :: Sorted(FileResult(c, file, windows)[1..])
  }

  /** Every file comes out sorted exactly when both counts are powers of two. */
  lemma SortsEveryFileIff(c: Config, windows: nat)
    requires ValidConfig(c) && c.size > 0 && windows > 0
    ensures SortsEveryFile(c, windows) <==> IsPow2(c.blocks) && IsPow2(windows)
  {
    hide FileResult;
    hide Sorted;
    hide AllLevels;
    hide SortedWindows;
    hide Memsize;
    hide IsPow2;
    if IsPow2(c.blocks) && IsPow2(windows) {
      forall file | ValidFile(c, file, windows) ensures Sorted(FileResult(c, file, windows)[1..]) {
        ResultSorted(c, file, windows);
      }
    } else {
      var m := Memsize(c);
      var records := if IsPow2(windows) then Worst(m, windows * m) else Falling(windows * m, 0.0);
      if IsPow2(windows) {
        WorstUnsorted(c, windows);
      } else {
        FallingUnsorted(c, windows);
      }
      Refutes(c, windows, records);
    }
  }

  lemma Refutes(c: Config, windows: nat, records: seq<Index>)
    requires ValidConfig(c) && c.size > 0 && windows > 0 && |records| == windows * Memsize(c)
    requires !Sorted(AllLevels(SortedWindows(c, records, windows), windows, Memsize(c)))
    ensures !SortsEveryFile(c, windows)
  {
    hide FileResult;
    hide AllLevels;
    hide SortedWindows;
    hide Sorted;
    var file := [Index(0.0, 0)] + records;
    assert ValidFile(c, file, windows);
    ResultRecords(c, [Index(0.0, 0)], records, windows);
  }

  lemma ResultRecords(c: Config, header: seq<Index>, records: seq<Index>, windows: nat)
    requires |header| == 1
    ensures |FileResult(c, header + records, windows)| == 1 + |records|
    ensures FileResult(c, header + records, windows)[1..]
         == AllLevels(SortedWindows(c, records, windows), windows, Memsize(c))
  {
    hide AllLevels;
    hide SortedWindows;
    assert (header + records)[1..] == records;
  }
}
