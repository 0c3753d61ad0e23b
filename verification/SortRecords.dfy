/** Every step keeps the records of the window as the phase demands. */
module SortRecords {
  import opened Records
  import opened Merging
  import opened Windows
  import opened Levels
  import opened ParallelSort
  import opened SortInvariant
  import opened SortThreads

  // ----- while blocks are sorted

  /** Steps of the sort phase that touch no record. */
  lemma QuietSort(c: Config, w: seq<Index>, s: State, s': State, t: nat, v: PC)
    requires c.threads > 0 && WellFormed(c, s) && ClaimsOk(c, s) && WindowOk(c, w, s)
    requires s.gen == s'.gen == 1 && t < c.threads
    requires s'.window == s.window && s'.sortedBy == s.sortedBy
    requires s'.pc == s.pc[t := v] && |s'.waits| == |s.waits| && |s'.blockMap| == |s.blockMap|
    requires !s.pc[t].Sorting? && !v.Sorting?
    requires s'.claimedBy == s.claimedBy
          || exists b: nat :: b !in s.claimedBy && s'.claimedBy == s.claimedBy[b := t]
    ensures WindowOk(c, w, s')
  {
    forall b: nat | b < c.blocks ensures BlockOk(c, w, s', b) {
      assert BlockOk(c, w, s, b);
    }
  }

  lemma BlockFits(c: Config, w: seq<Index>, b: nat)
    requires |w| == Off(c.blocks, c.size) && b < c.blocks
    ensures Off(b, c.size) + c.size <= |w| && |Slot(w, b, c.size)| == c.size
  {
    SlotFits(b, c.blocks, c.size);
  }

  lemma BeginSortOk(c: Config, w: seq<Index>, s: State, t: nat, block: nat, junk: seq<Index>)
    requires c.threads > 0 && WellFormed(c, s) && ClaimsOk(c, s) && WindowOk(c, w, s)
    requires s.gen == 1 && t < c.threads && Holds(s.pc[t], t, block) && !s.pc[t].Sorting?
    ensures WindowOk(c, w, BeginSort(c, s, t, block, junk))
  {
    hide Slot;
    hide SetSlot;
    var s' := BeginSort(c, s, t, block, junk);
    forall b: nat | b < c.blocks ensures BlockOk(c, w, s', b) {
      assert BlockOk(c, w, s, b);
      if b != block {
        SetSlotOther(s.window, block, c.size, junk, b);
        if b in s.claimedBy && b !in s.sortedBy {
          assert Holds(s.pc[s.claimedBy[b]], s.claimedBy[b], b);
        }
      }
    }
  }

  lemma EndSortOk(c: Config, w: seq<Index>, s: State, t: nat)
    requires c.threads > 0 && WellFormed(c, s) && ClaimsOk(c, s) && WindowOk(c, w, s)
    requires s.gen == 1 && t < c.threads && s.pc[t].Sorting?
    ensures WindowOk(c, w, EndSort(c, s, t, s.pc[t].block, s.pc[t].input))
  {
    hide Slot;
    hide SetSlot;
    var block, input := s.pc[t].block, s.pc[t].input;
    var s' := EndSort(c, s, t, block, input);
    assert Holds(s.pc[t], t, block);
    assert BlockOk(c, w, s, block);
    BlockFits(c, w, block);
    QsortLength(c.qsort, input);
    forall b: nat | b < c.blocks ensures BlockOk(c, w, s', b) {
      assert BlockOk(c, w, s, b);
      if b == block {
        SetSlotSame(s.window, block, c.size, c.qsort(input));
      } else {
        SetSlotOther(s.window, block, c.size, c.qsort(input), b);
        if b in s.claimedBy && b !in s.sortedBy {
          assert Holds(s.pc[s.claimedBy[b]], s.claimedBy[b], b);
        }
      }
    }
  }

  // ----- while a level is merged

  /** Steps of a merge level that touch no record and finish no pair. */
  lemma QuietLevel(c: Config, base: seq<Index>, s: State, s': State, t: nat, v: PC, blocks: nat, size: nat)
    requires c.threads > 0 && WellFormed(c, s) && LevelOk(c, base, s, blocks, size)
    requires s'.gen == s.gen && t < c.threads && s'.window == s.window
    requires s'.pc == s.pc[t := v] && |s'.waits| == |s.waits| && |s'.blockMap| == |s.blockMap|
    requires !s.pc[t].Merging? && !v.Merging?
    requires forall p: nat | p < blocks / 2 && Owner(p, c.threads) == t ::
               PairDone(s.gen, v, p) <==> PairDone(s.gen, s.pc[t], p)
    ensures LevelOk(c, base, s', blocks, size)
  {
    hide Slot;
    forall p: nat | p < blocks / 2 ensures PairOk(c, base, size, s', p) {
      assert PairOk(c, base, size, s, p);
    }
  }

  lemma BeginMergeOk(c: Config, base: seq<Index>, s: State, t: nat, blocks: nat, size: nat, id: nat, junk: seq<Index>)
    requires c.threads > 0 && WellFormed(c, s) && LevelOk(c, base, s, blocks, size)
    requires t < c.threads && s.pc[t] == MergeTest(blocks, size, id) && Owner(id, c.threads) == t && id < blocks / 2
    ensures LevelOk(c, base, MergeTestStep(c, s, t, blocks, size, id, junk), blocks, size)
  {
    hide Slot;
    hide SetSlot;
    var s' := MergeTestStep(c, s, t, blocks, size, id, junk);
    SlotFits(id, blocks / 2, 2 * size);
    SetSlotTail(s.window, id, 2 * size, junk, blocks / 2);
    assert PairOk(c, base, size, s, id);
    SameHalves(s.window, base, id, size);
    forall p: nat | p < blocks / 2 ensures PairOk(c, base, size, s', p) {
      assert PairOk(c, base, size, s, p);
      if p != id {
        SetSlotOther(s.window, id, 2 * size, junk, p);
      }
    }
  }

  lemma SameHalves(w: seq<Index>, base: seq<Index>, p: nat, size: nat)
    requires |w| == |base| && Off(p, 2 * size) + 2 * size <= |w|
    requires Slot(w, p, 2 * size) == Slot(base, p, 2 * size)
    ensures Slot(w, 2 * p, size) == Slot(base, 2 * p, size)
    ensures Slot(w, 2 * p + 1, size) == Slot(base, 2 * p + 1, size)
  {
    hide Slot;
    PairSlot(w, p, size);
    PairSlot(base, p, size);
    assert Slot(w, 2 * p, size) == Slot(w, p, 2 * size)[..size];
    assert Slot(w, 2 * p + 1, size) == Slot(w, p, 2 * size)[size..];
    assert Slot(base, 2 * p, size) == Slot(base, p, 2 * size)[..size];
    assert Slot(base, 2 * p + 1, size) == Slot(base, p, 2 * size)[size..];
  }

  lemma EndMergeOk(c: Config, base: seq<Index>, s: State, t: nat, blocks: nat, size: nat, id: nat,
                   left: seq<Index>, right: seq<Index>)
    requires c.threads > 0 && WellFormed(c, s) && LevelOk(c, base, s, blocks, size)
    requires t < c.threads && s.pc[t] == Merging(blocks, size, id, left, right)
    requires Owner(id, c.threads) == t && id < blocks / 2
    ensures LevelOk(c, base, EndMerge(c, s, t, blocks, size, id, left, right), blocks, size)
  {
    hide Slot;
    hide SetSlot;
    hide MergeRuns;
    var x := MergeRuns(left, right);
    var s' := EndMerge(c, s, t, blocks, size, id, left, right);
    SlotFits(id, blocks / 2, 2 * size);
    assert PairOk(c, base, size, s, id);
    PairSlot(base, id, size);
    SetSlotTail(s.window, id, 2 * size, x, blocks / 2);
    forall p: nat | p < blocks / 2 ensures PairOk(c, base, size, s', p) {
      assert PairOk(c, base, size, s, p);
      if p == id {
        SetSlotSame(s.window, id, 2 * size, x);
      } else {
        SetSlotOther(s.window, id, 2 * size, x, p);
        if Owner(p, c.threads) == t {
          NextTurn(p, id, c.threads);
        }
      }
    }
  }

  // ----- when a barrier opens

  lemma OpenFirst(c: Config, w: seq<Index>, s: State, s': State)
    requires c.threads > 0 && WellFormed(c, s) && WellFormed(c, s') && WindowOk(c, w, s)
    requires s.gen == 0 && s'.gen == 1 && s'.window == s.window && s'.sortedBy == map[]
    requires forall u: nat | u < c.threads :: s'.pc[u].Blocked?
    ensures WindowOk(c, w, s')
  {
  }

  /** With no block held and all taken, every block has been sorted. */
  lemma AllSorted(c: Config, s: State)
    requires c.threads > 0 && WellFormed(c, s) && ClaimsOk(c, s) && TakenTo(s.blockMap, |s.blockMap|)
    requires forall u: nat | u < c.threads :: s.pc[u].Blocked? && s.pc[u].wait != First
    ensures forall b: nat | b < c.blocks :: b in s.claimedBy && b in s.sortedBy
  {
    forall b: nat | b < c.blocks ensures b in s.claimedBy && b in s.sortedBy {
      assert s.blockMap[b] != 0;
      assert !Holds(s.pc[s.claimedBy[b]], s.claimedBy[b], b);
    }
  }

  lemma OpenPreMerge(c: Config, w: seq<Index>, s: State, s': State)
    requires c.threads > 0 && WellFormed(c, s) && WellFormed(c, s') && WindowOk(c, w, s)
    requires s.gen == 1 && s'.gen == 2 && s'.window == s.window
    requires forall b: nat | b < c.blocks :: b in s.sortedBy
    requires forall u: nat | u < c.threads :: s'.pc[u].Blocked? && s'.pc[u].at == 1
    ensures WindowOk(c, w, s')
  {
    hide Slot;
    hide SetSlot;
    var base := Base(c, w, 0);
    assert base == SortBlocks(c.qsort, w, c.blocks, c.size);
    SortBlocksSlots(c.qsort, w, c.blocks, c.size);
    forall b: nat | b < c.blocks ensures Slot(s.window, b, c.size) == Slot(base, b, c.size) {
      assert BlockOk(c, w, s, b);
      assert BlockSorted(c.qsort, base, w, b, c.size);
    }
    EqualBySlots(s.window, base, c.blocks, c.size);
    LevelFits(c.blocks, c.size, 0);
    FreshLevel(c, base, s', c.blocks, c.size);
  }

  /** A level that nobody has begun. */
  lemma FreshLevel(c: Config, base: seq<Index>, s: State, blocks: nat, size: nat)
    requires c.threads > 0 && WellFormed(c, s) && s.window == base && Off(blocks / 2, 2 * size) <= |base|
    requires forall u: nat | u < c.threads :: s.pc[u].Blocked? && s.pc[u].at != s.gen
    ensures LevelOk(c, base, s, blocks, size)
  {
    hide Slot;
    hide Off;
  }

  /** Once every thread has left a level behind, the window is the level's result. */
  lemma LevelDone(c: Config, base: seq<Index>, s: State, blocks: nat, size: nat)
    requires c.threads > 0 && WellFormed(c, s) && LevelOk(c, base, s, blocks, size)
    requires forall p: nat | p < blocks / 2 :: PairDone(s.gen, s.pc[Owner(p, c.threads)], p)
    ensures s.window == LevelStep(base, blocks / 2, size)
  {
    hide Slot;
    hide LevelStep;
    var r := LevelStep(base, blocks / 2, size);
    LevelStepSlots(base, blocks / 2, size);
    forall p: nat | p < blocks / 2 ensures Slot(s.window, p, 2 * size) == Slot(r, p, 2 * size) {
      assert PairOk(c, base, size, s, p);
      assert PairMerged(r, base, p, size);
    }
    EqualBySlots(s.window, r, blocks / 2, 2 * size);
  }

  lemma OpenLevel(c: Config, w: seq<Index>, s0: State, s': State)
    requires c.threads > 0 && WellFormed(c, s0) && WellFormed(c, s') && WindowOk(c, w, s0)
    requires s0.gen >= 2 && s'.gen == s0.gen + 1 && s'.window == s0.window && s'.pc == s0.pc
    requires forall u: nat | u < c.threads :: s0.pc[u].Blocked? && s0.pc[u].at == s0.gen
    ensures WindowOk(c, w, s')
  {
    hide Slot;
    hide LevelStep;
    hide LevelOk;
    var k := s0.gen - 2;
    LevelDone(c, Base(c, w, k), s0, LevelBlocks(c.blocks, k), LevelSize(c.size, k));
    assert Base(c, w, k + 1) == s'.window;
    LevelFits(c.blocks, c.size, k + 1);
    FreshLevel(c, Base(c, w, k + 1), s', LevelBlocks(c.blocks, k + 1), LevelSize(c.size, k + 1));
  }

  // ----- all steps

  lemma ArriveWindow(c: Config, w: seq<Index>, s: State, t: nat)
    requires Inv(c, w, s) && t < c.threads && s.pc[t].Ready?
    ensures WindowOk(c, w, ArriveStep(c, s, t, s.pc[t].wait))
  {
    hide WindowOk;
    hide LevelOk;
    hide ClaimsOk;
    hide PcOk;
    hide CountAt;
    hide FinalGen;
    var s' := ArriveStep(c, s, t, s.pc[t].wait);
    ArriveThreads(c, s, t);
    if s'.gen == s.gen {
      HalfOpen(c, w, s, t);
    } else {
      ArriveOpens(c, w, s, t);
    }
  }

  lemma ArriveOpens(c: Config, w: seq<Index>, s: State, t: nat)
    requires Inv(c, w, s) && t < c.threads && s.pc[t].Ready?
    requires ArriveStep(c, s, t, s.pc[t].wait).gen == s.gen + 1
    ensures WindowOk(c, w, ArriveStep(c, s, t, s.pc[t].wait))
  {
    hide LevelOk;
    hide BlockOk;
    hide Base;
    hide Holds;
    hide WindowOk;
    var s' := ArriveStep(c, s, t, s.pc[t].wait);
    var s0 := s'.(gen := s.gen);
    ArriveThreads(c, s, t);
    assert ScanOk(s.blockMap, s.pc[t]) && PcOk(c, s, t);
    assert WindowOk(c, w, s0) by {
      HalfOpen(c, w, s, t);
    }
    if s.gen == 0 {
      OpenFirst(c, w, s0, s');
    } else if s.gen == 1 {
      assert ClaimsOk(c, s0) by {
        SameHoldsOpen(c, s, s0, t);
      }
      AllSorted(c, s0);
      OpenPreMerge(c, w, s0, s');
    } else {
      OpenLevel(c, w, s0, s');
    }
  }

  lemma SameHoldsOpen(c: Config, s: State, s0: State, t: nat)
    requires ThreadsOk(c, s) && ClaimsOk(c, s) && t < c.threads && s.pc[t].Ready?
    requires s0 == ArriveStep(c, s, t, s.pc[t].wait).(gen := s.gen)
    ensures ClaimsOk(c, s0)
  {
    hide ClaimsOk;
    SameHolds(c, s, s0, t, s0.pc[t]);
  }

  /** A thread enters the barrier, which has not opened yet. */
  lemma HalfOpen(c: Config, w: seq<Index>, s: State, t: nat)
    requires Inv(c, w, s) && t < c.threads && s.pc[t].Ready?
    ensures WindowOk(c, w, ArriveStep(c, s, t, s.pc[t].wait).(gen := s.gen))
  {
    hide LevelOk;
    hide ClaimsOk;
    hide BlockOk;
    hide Base;
    var s' := ArriveStep(c, s, t, s.pc[t].wait).(gen := s.gen);
    if s.gen == 1 {
      QuietSort(c, w, s, s', t, s'.pc[t]);
    } else if s.gen >= 2 {
      QuietLevel(c, Base(c, w, s.gen - 2), s, s', t, s'.pc[t],
                 LevelBlocks(c.blocks, s.gen - 2), LevelSize(c.size, s.gen - 2));
    }
  }

  lemma LeaveWindow(c: Config, w: seq<Index>, s: State, t: nat)
    requires Inv(c, w, s) && t < c.threads && s.pc[t].Blocked? && s.pc[t].at < s.gen
    ensures WindowOk(c, w, SetPC(s, t, AfterWait(c, t, s.pc[t].wait)))
  {
    hide LevelOk;
    hide ClaimsOk;
    hide BlockOk;
    hide Base;
    hide MapOk;
    hide FinalGen;
    var s' := SetPC(s, t, AfterWait(c, t, s.pc[t].wait));
    assert PcOk(c, s, t);
    LeaveOk(c, s, t);
    assert PcOk(c, s', t);
    if s.gen == 1 {
      QuietSort(c, w, s, s', t, s'.pc[t]);
    } else {
      QuietLevel(c, Base(c, w, s.gen - 2), s, s', t, s'.pc[t],
                 LevelBlocks(c.blocks, s.gen - 2), LevelSize(c.size, s.gen - 2));
    }
  }

  lemma MergeWindow(c: Config, w: seq<Index>, s: State, t: nat, junk: seq<Index>)
    requires Inv(c, w, s) && t < c.threads && s.pc[t].MergeTest?
    ensures WindowOk(c, w, MergeTestStep(c, s, t, s.pc[t].blocks, s.pc[t].size, s.pc[t].id, junk))
  {
    hide LevelOk;
    hide ClaimsOk;
    hide MapOk;
    hide Base;
    hide Slot;
    hide SetSlot;
    var blocks, size, id := s.pc[t].blocks, s.pc[t].size, s.pc[t].id;
    var s' := MergeTestStep(c, s, t, blocks, size, id, junk);
    assert PcOk(c, s, t);
    assert t <= id;
    if id < blocks / 2 {
      BeginMergeOk(c, Base(c, w, s.gen - 2), s, t, blocks, size, id, junk);
    } else {
      QuietLevel(c, Base(c, w, s.gen - 2), s, s', t, s'.pc[t], blocks, size);
    }
  }

  lemma EndMergeWindow(c: Config, w: seq<Index>, s: State, t: nat)
    requires Inv(c, w, s) && t < c.threads && s.pc[t].Merging?
    ensures WindowOk(c, w, EndMerge(c, s, t, s.pc[t].blocks, s.pc[t].size, s.pc[t].id, s.pc[t].left, s.pc[t].right))
  {
    hide LevelOk;
    hide ClaimsOk;
    hide MapOk;
    hide Base;
    hide SetSlot;
    assert PcOk(c, s, t);
    EndMergeOk(c, Base(c, w, s.gen - 2), s, t, s.pc[t].blocks, s.pc[t].size, s.pc[t].id, s.pc[t].left, s.pc[t].right);
  }

  lemma SpawnWindow(c: Config, w: seq<Index>, s: State, t: nat, junk: seq<Index>)
    requires Inv(c, w, s) && Enabled(c, s, t) && s.pc[t].Spawn?
    ensures WindowOk(c, w, Step(c, s, t, junk))
  {
    hide ClaimsOk;
    hide MapOk;
    hide CountAt;
    assert PcOk(c, s, t);
  }

  /** In the critical section: only the claims may grow, and only by a block nobody had. */
  lemma LockedStep(c: Config, s: State, t: nat, junk: seq<Index>)
    requires ValidConfig(c) && WellFormed(c, s) && Enabled(c, s, t) && (s.pc[t].TryLock? || InCritical(s.pc[t]))
    ensures var s' := Step(c, s, t, junk);
      && s'.window == s.window && s'.gen == s.gen && !s'.pc[t].Sorting?
      && (s.pc[t].Claim? ==> s'.claimedBy == s.claimedBy[s.pc[t].block := t])
  {
  }

  lemma NewClaim(c: Config, s: State, t: nat)
    requires WellFormed(c, s) && HistoryOk(c, s) && MapOk(c, s) && t < c.threads && s.pc[t].Claim?
    ensures s.pc[t].block !in s.claimedBy
  {
    hide TakenTo;
    hide Prefix;
    assert ScanOk(s.blockMap, s.pc[t]);
  }

  lemma CriticalPhase(c: Config, s: State, t: nat)
    requires ThreadsOk(c, s) && t < c.threads && (s.pc[t].TryLock? || InCritical(s.pc[t]))
    ensures s.gen == 1 && !s.pc[t].Sorting?
  {
    assert PcOk(c, s, t);
  }

  /** Scanning, claiming, locking and creating threads: no record is touched. */
  lemma OtherWindow(c: Config, w: seq<Index>, s: State, t: nat, junk: seq<Index>)
    requires Inv(c, w, s) && Enabled(c, s, t)
    requires s.pc[t].Spawn? || s.pc[t].TryLock? || InCritical(s.pc[t])
    ensures WindowOk(c, w, Step(c, s, t, junk))
  {
    hide LevelOk;
    hide BlockOk;
    hide HeldOk;
    hide OpenOk;
    hide PcOk;
    hide Step;
    if s.pc[t].Spawn? {
      SpawnWindow(c, w, s, t, junk);
    } else {
      QuietCritical(c, w, s, t, junk);
    }
  }

  lemma QuietCritical(c: Config, w: seq<Index>, s: State, t: nat, junk: seq<Index>)
    requires ThreadsOk(c, s) && ValidConfig(c) && WellFormed(c, s) && HistoryOk(c, s) && ClaimsOk(c, s) && MapOk(c, s)
    requires WindowOk(c, w, s) && Enabled(c, s, t) && t < c.threads && (s.pc[t].TryLock? || InCritical(s.pc[t]))
    ensures WindowOk(c, w, Step(c, s, t, junk))
  {
    hide Inv;
    hide ThreadsOk;
    hide ClaimsOk;
    hide HistoryOk;
    hide MapOk;
    hide WindowOk;
    hide Step;
    var s' := Step(c, s, t, junk);
    CriticalPhase(c, s, t);
    LockedStep(c, s, t, junk);
    StepFrame(c, s, t, junk);
    if s.pc[t].Claim? {
      NewClaim(c, s, t);
    }
    QuietSort(c, w, s, s', t, s'.pc[t]);
  }

  lemma StepWindow(c: Config, w: seq<Index>, s: State, t: nat, junk: seq<Index>)
    requires Inv(c, w, s) && Enabled(c, s, t)
    ensures WindowOk(c, w, Step(c, s, t, junk))
  {
    hide WindowOk;
    hide ClaimsOk;
    hide MapOk;
    hide Slot;
    hide SetSlot;
    hide CountAt;
    assert PcOk(c, s, t);
    if s.pc[t].Ready? {
      ArriveWindow(c, w, s, t);
    } else if s.pc[t].Blocked? {
      LeaveWindow(c, w, s, t);
    } else if s.pc[t].SortOwn? {
      BeginSortOk(c, w, s, t, t, junk);
    } else if s.pc[t].SortNext? {
      BeginSortOk(c, w, s, t, s.pc[t].block, junk);
    } else if s.pc[t].Sorting? {
      EndSortOk(c, w, s, t);
    } else if s.pc[t].MergeTest? {
      MergeWindow(c, w, s, t, junk);
    } else if s.pc[t].Merging? {
      EndMergeWindow(c, w, s, t);
    } else {
      OtherWindow(c, w, s, t, junk);
    }
  }

  lemma StepInv(c: Config, w: seq<Index>, s: State, t: nat, junk: seq<Index>)
    requires Inv(c, w, s) && Enabled(c, s, t)
    ensures Inv(c, w, Step(c, s, t, junk))
  {
    hide Step;
    hide ThreadsOk;
    hide ClaimsOk;
    hide MapOk;
    hide WindowOk;
    assert ThreadsOk(c, s);
    StepThreads(c, s, t, junk);
    StepClaims(c, s, t, junk);
    StepMap(c, s, t, junk);
    StepWindow(c, w, s, t, junk);
  }
}
