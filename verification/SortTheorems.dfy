/** What every run of the thread team does. */
module SortTheorems {
  import opened Records
  import opened Windows
  import opened Levels
  import opened BinaryRuns
  import opened ParallelSort
  import opened SortInvariant
  import opened SortThreads
  import opened SortRecords

  ghost predicate Reachable(c: Config, w: seq<Index>, s: State) {
    exists run: seq<State> :: IsRun(c, w, run) && run[|run| - 1] == s
  }

  lemma {:induction false} RunInv(c: Config, w: seq<Index>, run: seq<State>, i: nat)
    requires IsRun(c, w, run) && i < |run|
    ensures Inv(c, w, run[i])
  {
    hide Inv;
    hide Step;
    if i == 0 {
      StartOk(c, w);
    } else {
      RunInv(c, w, run, i - 1);
      assert Next(c, run[i - 1], run[i - 1 + 1]);
      var t: nat, junk: seq<Index> :| Enabled(c, run[i - 1], t) && run[i] == Step(c, run[i - 1], t, junk);
      StepInv(c, w, run[i - 1], t, junk);
    }
  }

  lemma ReachableInv(c: Config, w: seq<Index>, s: State)
    requires Reachable(c, w, s)
    ensures Inv(c, w, s)
  {
    var run :| IsRun(c, w, run) && run[|run| - 1] == s;
    RunInv(c, w, run, |run| - 1);
  }

  // ----- the result does not depend on the schedule

  /**
   * Whatever the number of threads and the interleaving, the finished window is
   * the one the sequential merge loop makes of the sorted blocks, and every thread
   * has waited at the barrier `Log2(blocks) + 3` times.
   */
  lemma ScheduleIndependence(c: Config, w: seq<Index>, s: State)
    requires Reachable(c, w, s) && AllFinished(s)
    ensures s.window == AllLevels(SortBlocks(c.qsort, w, c.blocks, c.size), c.blocks, c.size)
    ensures |s.waits| == c.threads && forall t | 0 <= t < c.threads :: s.waits[t] == Log2(c.blocks) + 3
  {
    hide AllLevels;
    hide SortBlocks;
    hide LevelBase;
    hide Off;
    hide Reachable;
    hide ClaimsOk;
    hide MapOk;
    ReachableInv(c, w, s);
    assert PcOk(c, s, 0);
    var k := Log2(c.blocks) + 1;
    assert s.gen - 2 == k;
    LevelCount(c.blocks, k);
    LevelsAtEnd(SortBlocks(c.qsort, w, c.blocks, c.size), c.blocks, c.size, k);
    OffIsProduct(0, 2 * LevelSize(c.size, k));
    assert s.window[0..] == s.window && Base(c, w, k)[0..] == Base(c, w, k);
  }

  /** Two teams, of whatever sizes and however scheduled, leave the same window. */
  lemma SameWindow(c: Config, d: Config, w: seq<Index>, s: State, t: State)
    requires d == c.(threads := d.threads)
    requires Reachable(c, w, s) && Reachable(d, w, t) && AllFinished(s) && AllFinished(t)
    ensures s.window == t.window
  {
    hide *;
    ScheduleIndependence(c, w, s);
    ScheduleIndependence(d, w, t);
  }

  lemma ReachableLength(c: Config, w: seq<Index>, s: State)
    requires Reachable(c, w, s)
    ensures ValidConfig(c) && |w| == c.blocks * c.size == |s.window|
  {
    hide Next;
    ReachableInv(c, w, s);
    var run :| IsRun(c, w, run) && run[|run| - 1] == s;
  }

  /** The finished window is cut into sorted runs whose lengths are the binary digits of `blocks`. */
  lemma FinishedRuns(c: Config, w: seq<Index>, s: State)
    requires Reachable(c, w, s) && AllFinished(s)
    ensures RunsTo(s.window, w, |w|, RunExps(c.blocks, 0), c.size, true)
    ensures IsPow2(c.blocks) ==> SortsTo(w, s.window)
  {
    hide RunsTo;
    hide RunExps;
    hide AllLevels;
    hide SortBlocks;
    hide Reachable;
    ReachableLength(c, w, s);
    ScheduleIndependence(c, w, s);
    WindowRuns(c.qsort, w, c.blocks, c.size);
    SingleRun(c.blocks, 0);
    if IsPow2(c.blocks) {
      OneRun(s.window, w, RunExps(c.blocks, 0), c.size, true);
    }
  }

  // ----- no two threads on the same records

  /** The records a thread inside qsort or merge works on. */
  function WorkRange(c: Config, pc: PC): (nat, nat) {
    match pc
    case Sorting(block, _) => (block * c.size, block * c.size + c.size)
    case Merging(_, size, id, _, _) => (id * (2 * size), id * (2 * size) + 2 * size)
    case _ => (0, 0)
  }

  ghost predicate Working(pc: PC) {
    pc.Sorting? || pc.Merging?
  }

  lemma DisjointSlots(i: nat, j: nat, n: nat)
    requires i != j
    ensures i * n + n <= j * n || j * n + n <= i * n
  {
    OffIsProduct(i, n);
    OffIsProduct(j, n);
    if i < j { SlotFits(i, j, n); } else { SlotFits(j, i, n); }
  }

  lemma HeldBlock(c: Config, s: State, t: nat, b: nat)
    requires WellFormed(c, s) && ClaimsOk(c, s) && t < c.threads && Holds(s.pc[t], t, b)
    ensures b < c.blocks && b in s.claimedBy && s.claimedBy[b] == t && b !in s.sortedBy
  {
    assert b in s.claimedBy && s.claimedBy[b] == t;
  }

  lemma WorkInWindow(c: Config, w: seq<Index>, s: State, t: nat)
    requires Inv(c, w, s) && t < c.threads
    ensures WorkRange(c, s.pc[t]).0 <= WorkRange(c, s.pc[t]).1 <= |s.window|
  {
    hide LevelOk;
    hide BlockOk;
    hide MapOk;
    assert PcOk(c, s, t) && Off(c.blocks, c.size) == |s.window|;
    if s.pc[t].Sorting? {
      HeldBlock(c, s, t, s.pc[t].block);
      hide *;
      SlotInside(s.pc[t].block, c.blocks, c.size, |s.window|);
    } else if s.pc[t].Merging? {
      assert AtLevel(c, s.gen, s.pc[t].blocks, s.pc[t].size) && s.pc[t].id < s.pc[t].blocks / 2;
      PairInside(c, s.gen, s.pc[t].blocks, s.pc[t].size, s.pc[t].id);
    }
  }

  lemma PairInside(c: Config, g: nat, blocks: nat, size: nat, id: nat)
    requires AtLevel(c, g, blocks, size) && id < blocks / 2
    ensures id * (2 * size) + 2 * size <= Off(c.blocks, c.size)
  {
    LevelFits(c.blocks, c.size, g - 2);
    SlotInside(id, blocks / 2, 2 * size, Off(c.blocks, c.size));
  }

  lemma SlotInside(i: nat, m: nat, n: nat, length: nat)
    requires i < m && Off(m, n) <= length
    ensures i * n <= i * n + n <= length
  {
    SlotFits(i, m, n);
    OffIsProduct(i, n);
  }

  /** Two threads at work are in the same phase, on disjoint stretches inside the window. */
  lemma RaceFreedom(c: Config, w: seq<Index>, s: State, t: nat, u: nat)
    requires Reachable(c, w, s) && t < c.threads && u < c.threads && t != u && |s.pc| == c.threads
    requires Working(s.pc[t]) && Working(s.pc[u])
    ensures WorkRange(c, s.pc[t]).1 <= WorkRange(c, s.pc[u]).0 || WorkRange(c, s.pc[u]).1 <= WorkRange(c, s.pc[t]).0
    ensures WorkRange(c, s.pc[t]).1 <= |s.window|
    ensures s.pc[t].Sorting? <==> s.pc[u].Sorting?
    ensures s.pc[t].Merging? ==> s.pc[t].blocks == s.pc[u].blocks && s.pc[t].size == s.pc[u].size
  {
    hide WindowOk;
    hide ClaimsOk;
    hide MapOk;
    hide Reachable;
    ReachableInv(c, w, s);
    WorkInWindow(c, w, s, t);
    assert PcOk(c, s, t) && PcOk(c, s, u);
    if s.pc[t].Sorting? {
      ClaimOnce(c, w, s, t);
      DisjointSlots(s.pc[t].block, s.pc[u].block, c.size);
    } else {
      DisjointSlots(s.pc[t].id, s.pc[u].id, 2 * s.pc[t].size);
    }
  }

  /** Still to sort, or sorting. */
  ghost predicate InSortPhase(pc: PC) {
    pc.SortOwn? || pc.TryLock? || InCritical(pc) || pc.SortNext? || pc.Sorting?
  }

  /**
   * While one thread merges a level, no other is in another level or still sorting;
   * barrier counts differ by at most one.
   */
  lemma PhasesApart(c: Config, w: seq<Index>, s: State, t: nat, u: nat)
    requires Reachable(c, w, s) && t < c.threads && u < c.threads && |s.pc| == |s.waits| == c.threads
    ensures s.pc[t].Merging? ==> !InSortPhase(s.pc[u]) && s.pc[u] != Finished
    ensures s.pc[t].Merging? && (s.pc[u].MergeTest? || s.pc[u].Merging?) ==> s.pc[u].blocks == s.pc[t].blocks
    ensures s.waits[t] <= s.waits[u] + 1 && s.waits[u] <= s.waits[t] + 1
  {
    hide *;
    ReachableInv(c, w, s);
    InvConfig(c, w, s);
    InvThreads(c, w, s, t);
    InvThreads(c, w, s, u);
    WaitsClose(c, w, s, t, u);
    if s.pc[t].Merging? {
      MergingAlone(c, s, t, u);
    }
  }

  lemma WaitsClose(c: Config, w: seq<Index>, s: State, t: nat, u: nat)
    requires Inv(c, w, s) && t < c.threads && u < c.threads
    ensures |s.waits| == c.threads && s.waits[t] <= s.waits[u] + 1 && s.waits[u] <= s.waits[t] + 1
  {
    hide WindowOk;
    hide ClaimsOk;
    hide MapOk;
    hide PcOk;
    hide CountAt;
  }

  lemma MergingAlone(c: Config, s: State, t: nat, u: nat)
    requires ValidConfig(c) && |s.pc| == c.threads && t < c.threads && u < c.threads
    requires PcOk(c, s, t) && PcOk(c, s, u) && s.pc[t].Merging?
    ensures !InSortPhase(s.pc[u]) && s.pc[u] != Finished
    ensures s.pc[u].MergeTest? || s.pc[u].Merging? ==> s.pc[u].blocks == s.pc[t].blocks
  {
    LevelCount(c.blocks, s.gen - 2);
  }

  // ----- every block exactly once

  /** The block main marks next: that of the thread it is about to create, its own at last. */
  function SpawnBlock(c: Config, pc: PC, t: nat): nat {
    if pc.Spawn? && pc.next < c.threads then pc.next else t
  }

  /**
   * A block is marked, by main or by a claimer, only while nobody has it, and sorted
   * only by the thread that has it.
   */
  lemma ClaimOnce(c: Config, w: seq<Index>, s: State, t: nat)
    requires Reachable(c, w, s) && t < c.threads && |s.pc| == c.threads
    ensures s.pc[t].Spawn? ==> SpawnBlock(c, s.pc[t], t) !in s.claimedBy && SpawnBlock(c, s.pc[t], t) !in s.sortedBy
    ensures s.pc[t].Claim? ==> s.pc[t].block !in s.claimedBy && s.pc[t].block !in s.sortedBy
    ensures s.pc[t].Sorting? ==>
      && s.pc[t].block in s.claimedBy && s.claimedBy[s.pc[t].block] == t && s.pc[t].block !in s.sortedBy
      && forall u: nat | u < c.threads && s.pc[u].Sorting? && s.pc[u].block == s.pc[t].block :: u == t
  {
    hide WindowOk;
    hide ThreadsOk;
    hide Reachable;
    ReachableInv(c, w, s);
    InvThreads(c, w, s, t);
    if s.pc[t].Spawn? {
      SpawnFresh(c, w, s, t);
    } else if s.pc[t].Claim? {
      ClaimFresh(c, w, s, t);
    }
    if s.pc[t].Sorting? {
      HeldBlock(c, s, t, s.pc[t].block);
      forall u: nat | u < c.threads && s.pc[u].Sorting? && s.pc[u].block == s.pc[t].block ensures u == t {
        HeldBlock(c, s, u, s.pc[u].block);
      }
    }
  }

  lemma SpawnFresh(c: Config, w: seq<Index>, s: State, t: nat)
    requires Inv(c, w, s) && t < c.threads && s.pc[t].Spawn?
    ensures SpawnBlock(c, s.pc[t], t) !in s.claimedBy && SpawnBlock(c, s.pc[t], t) !in s.sortedBy
  {
    hide WindowOk;
    hide MapOk;
    hide CountAt;
    hide WaitOf;
    var b := SpawnBlock(c, s.pc[t], t);
    assert PcOk(c, s, t);
    forall u: nat | u < c.threads ensures !Holds(s.pc[u], u, b) {
      assert PcOk(c, s, u);
    }
  }

  lemma InvThreads(c: Config, w: seq<Index>, s: State, t: nat)
    requires Inv(c, w, s) && t < c.threads
    ensures WellFormed(c, s) && PcOk(c, s, t)
  {
  }

  /** No entry of `m` is taken away or changed in `n`. */
  ghost predicate Keeps(m: map<nat, nat>, n: map<nat, nat>) {
    forall b | b in m :: b in n && n[b] == m[b]
  }

  lemma StepKeeps(c: Config, w: seq<Index>, s: State, t: nat, junk: seq<Index>)
    requires Inv(c, w, s) && Enabled(c, s, t)
    ensures Keeps(s.claimedBy, Step(c, s, t, junk).claimedBy)
    ensures Keeps(s.sortedBy, Step(c, s, t, junk).sortedBy)
  {
    hide *;
    InvConfig(c, w, s);
    EnabledThread(c, s, t);
    KeepsItself(s.claimedBy);
    KeepsItself(s.sortedBy);
    if s.pc[t].Spawn? {
      SpawnFresh(c, w, s, t);
      SpawnIs(c, s, t, junk);
      KeepsMore(s.claimedBy, SpawnBlock(c, s.pc[t], t), SpawnBlock(c, s.pc[t], t));
    } else if s.pc[t].Claim? {
      ClaimFresh(c, w, s, t);
      MarkIs(c, s, t, junk);
      KeepsMore(s.claimedBy, s.pc[t].block, t);
    } else {
      StepKeepsClaims(c, s, t, junk);
    }
    if s.pc[t].Sorting? {
      SortingFresh(c, w, s, t);
      EndSortIs(c, s, t, junk);
      KeepsMore(s.sortedBy, s.pc[t].block, t);
    } else {
      StepKeepsSorted(c, s, t, junk);
    }
  }

  lemma KeepsItself(m: map<nat, nat>)
    ensures Keeps(m, m)
  {
  }

  lemma KeepsMore(m: map<nat, nat>, b: nat, t: nat)
    requires b !in m
    ensures Keeps(m, m[b := t])
  {
  }

  lemma EnabledThread(c: Config, s: State, t: nat)
    requires Enabled(c, s, t) && WellFormed(c, s)
    ensures t < |s.pc| == c.threads
  {
  }

  lemma SpawnIs(c: Config, s: State, t: nat, junk: seq<Index>)
    requires ValidConfig(c) && WellFormed(c, s) && Enabled(c, s, t) && s.pc[t].Spawn?
    ensures Step(c, s, t, junk).claimedBy == s.claimedBy[SpawnBlock(c, s.pc[t], t) := SpawnBlock(c, s.pc[t], t)]
  {
  }

  lemma MarkIs(c: Config, s: State, t: nat, junk: seq<Index>)
    requires ValidConfig(c) && WellFormed(c, s) && Enabled(c, s, t) && s.pc[t].Claim?
    ensures Step(c, s, t, junk).claimedBy == s.claimedBy[s.pc[t].block := t]
  {
  }

  lemma EndSortIs(c: Config, s: State, t: nat, junk: seq<Index>)
    requires ValidConfig(c) && WellFormed(c, s) && Enabled(c, s, t) && s.pc[t].Sorting?
    ensures Step(c, s, t, junk).sortedBy == s.sortedBy[s.pc[t].block := t]
  {
    hide SetSlot;
  }

  lemma ClaimFresh(c: Config, w: seq<Index>, s: State, t: nat)
    requires Inv(c, w, s) && t < c.threads && s.pc[t].Claim?
    ensures s.pc[t].block !in s.claimedBy && s.pc[t].block !in s.sortedBy
  {
    hide WindowOk;
    hide ThreadsOk;
    InvConfig(c, w, s);
    assert ScanOk(s.blockMap, s.pc[t]);
  }

  lemma SortingFresh(c: Config, w: seq<Index>, s: State, t: nat)
    requires Inv(c, w, s) && t < c.threads && s.pc[t].Sorting?
    ensures s.pc[t].block !in s.sortedBy
  {
    hide WindowOk;
    hide ThreadsOk;
    hide MapOk;
    InvConfig(c, w, s);
    HeldBlock(c, s, t, s.pc[t].block);
  }

  lemma InvConfig(c: Config, w: seq<Index>, s: State)
    requires Inv(c, w, s)
    ensures ValidConfig(c) && WellFormed(c, s)
  {
  }

  /**
   * Over a run a block that has been marked stays with the thread it was marked for,
   * and one that has been sorted counts as sorted by that thread ever after. With
   * `ClaimOnce`, by which both are recorded for a block only while it has no entry
   * yet, and `BlocksCovered`, every block is marked and sorted by exactly one thread.
   */
  lemma {:induction false} ClaimsStand(c: Config, w: seq<Index>, run: seq<State>, i: nat, j: nat)
    requires IsRun(c, w, run) && i <= j < |run|
    ensures Keeps(run[i].claimedBy, run[j].claimedBy) && Keeps(run[i].sortedBy, run[j].sortedBy)
  {
    hide Inv;
    hide Step;
    if i < j {
      ClaimsStand(c, w, run, i, j - 1);
      RunInv(c, w, run, j - 1);
      assert Next(c, run[j - 1], run[j - 1 + 1]);
      var t: nat, junk: seq<Index> :| Enabled(c, run[j - 1], t) && run[j] == Step(c, run[j - 1], t, junk);
      StepKeeps(c, w, run[j - 1], t, junk);
    }
  }

  /**
   * From the first barrier on the marked blocks are a prefix; from the second on
   * every block is sorted, by its claimer.
   */
  lemma BlocksCovered(c: Config, w: seq<Index>, s: State)
    requires Reachable(c, w, s)
    ensures s.gen >= 1 ==> forall i, j | 0 <= i < j < |s.blockMap| && s.blockMap[j] != 0 :: s.blockMap[i] != 0
    ensures s.gen >= 2 ==> forall b: nat | b < c.blocks ::
              b in s.claimedBy && b in s.sortedBy && s.sortedBy[b] == s.claimedBy[b]
    ensures s.sortedBy.Keys <= s.claimedBy.Keys
  {
    hide *;
    ReachableInv(c, w, s);
    InvConfig(c, w, s);
    MapFacts(c, w, s);
    if s.gen >= 2 {
      forall b: nat | b < c.blocks ensures b in s.claimedBy && b in s.sortedBy && s.sortedBy[b] == s.claimedBy[b] {
        BlockDone(c, w, s, b);
      }
    }
  }

  lemma MapFacts(c: Config, w: seq<Index>, s: State)
    requires Inv(c, w, s)
    ensures s.gen >= 1 ==> forall i, j | 0 <= i < j < |s.blockMap| && s.blockMap[j] != 0 :: s.blockMap[i] != 0
    ensures s.gen >= 2 ==> forall b | 0 <= b < |s.blockMap| :: s.blockMap[b] != 0
    ensures s.sortedBy.Keys <= s.claimedBy.Keys
  {
    hide WindowOk;
    hide ThreadsOk;
    hide HeldOk;
    hide OpenOk;
    InvConfig(c, w, s);
  }

  lemma BlockDone(c: Config, w: seq<Index>, s: State, b: nat)
    requires Inv(c, w, s) && s.gen >= 2 && b < c.blocks
    ensures b in s.claimedBy && b in s.sortedBy && s.sortedBy[b] == s.claimedBy[b]
  {
    hide WindowOk;
    hide HeldOk;
    hide CountAt;
    MapFacts(c, w, s);
    assert s.blockMap[b] != 0;
    var t := s.claimedBy[b];
    assert PcOk(c, s, t);
    HoldsNothing(c, s, t, b);
  }

  /** After the second barrier nobody has anything to sort. */
  lemma HoldsNothing(c: Config, s: State, t: nat, b: nat)
    requires ValidConfig(c) && |s.pc| == c.threads && t < c.threads && PcOk(c, s, t) && s.gen >= 2
    ensures !Holds(s.pc[t], t, b)
  {
  }

  // ----- byte offsets

  /** Whether or not a thread has a pair in a level, the size it is about to double fits twice. */
  lemma SizeFits(c: Config, w: seq<Index>, s: State, t: nat)
    requires Inv(c, w, s) && t < c.threads
    ensures s.pc[t].MergeTest? ==> 2 * s.pc[t].size <= |w|
  {
    hide LevelOk;
    hide BlockOk;
    hide MapOk;
    hide ClaimsOk;
    assert PcOk(c, s, t) && Off(c.blocks, c.size) == |w|;
    if s.pc[t].MergeTest? {
      TwoFit(c, s.gen, s.pc[t].blocks, s.pc[t].size);
    }
  }

  lemma TwoFit(c: Config, g: nat, blocks: nat, size: nat)
    requires AtLevel(c, g, blocks, size)
    ensures 2 * size <= Off(c.blocks, c.size)
  {
    LevelFits(c.blocks, c.size, g - 2);
    SlotFits(1, blocks, size);
  }

  lemma SixteenTimes(id: nat, size: nat)
    ensures id * (16 * size) == 16 * (id * size)
    ensures (2 * id) * (16 * size) == 16 * (id * (2 * size)) >= 0
    ensures (2 * id + 1) * (16 * size) == 16 * (id * (2 * size)) + 16 * size
  {
  }

  /** With at most 2^31-1 bytes in the window, the int offsets of every thread stay in range. */
  lemma ThreadOffsetsFit(c: Config, w: seq<Index>, s: State, t: nat)
    requires Reachable(c, w, s) && t < c.threads && |s.pc| == c.threads
    requires 16 * |w| < 0x8000_0000
    ensures s.pc[t].Sorting? ==> 0 <= s.pc[t].block * (16 * c.size) <= 16 * |w| - 16 * c.size < 0x8000_0000
    ensures s.pc[t].Merging? ==>
      var id, bytes := s.pc[t].id, 16 * s.pc[t].size;
      && 0 <= (2 * id) * bytes <= (2 * id + 1) * bytes <= 16 * |w| - bytes < 0x8000_0000
      && 2 * bytes <= 16 * |w|
    ensures s.pc[t].MergeTest? ==> 0 <= 2 * (16 * s.pc[t].size) <= 16 * |w|
  {
    hide Inv;
    hide Reachable;
    ReachableInv(c, w, s);
    ReachableLength(c, w, s);
    SizeFits(c, w, s, t);
    WorkInWindow(c, w, s, t);
    if s.pc[t].Sorting? {
      SixteenTimes(s.pc[t].block, c.size);
    } else if s.pc[t].Merging? {
      SixteenTimes(s.pc[t].id, s.pc[t].size);
    }
  }
}
