/** The thread team never gets stuck and always comes to an end. */
module SortProgress {
  import opened Options
  import opened Records
  import opened Windows
  import opened ParallelSort
  import opened SortInvariant
  import opened SortThreads
  import opened SortTheorems

  // ----- some thread can always go on

  lemma HolderRuns(c: Config, s: State)
    requires ThreadsOk(c, s) && MapOk(c, s) && s.mutex.Some?
    ensures Enabled(c, s, s.mutex.value)
  {
    assert InCritical(s.pc[s.mutex.value]) && PcOk(c, s, s.mutex.value);
  }

  lemma FreeThreadRuns(c: Config, s: State, u: nat) returns (t: nat)
    requires ThreadsOk(c, s) && MapOk(c, s) && u < c.threads && s.mutex == None
    requires s.pc[u] != Finished && !WaitsAt(s.pc[u], s.gen)
    ensures Enabled(c, s, t)
  {
    assert PcOk(c, s, u) && ScanOk(s.blockMap, s.pc[u]);
    t := if s.pc[u] == Unborn then 0 else u;
  }

  /** A team that has not finished does not all wait in the same barrier generation. */
  lemma NotAllWaiting(c: Config, s: State) returns (u: nat)
    requires ThreadsOk(c, s) && !AllFinished(s)
    ensures u < c.threads && s.pc[u] != Finished && !WaitsAt(s.pc[u], s.gen)
  {
    CountAll(s.pc, s.gen);
    var v: nat :| v < c.threads && !WaitsAt(s.pc[v], s.gen);
    if s.pc[v] == Finished {
      u :| 0 <= u < c.threads && s.pc[u] != Finished;
      assert PcOk(c, s, u) && PcOk(c, s, v);
    } else {
      u := v;
    }
  }

  /** In every reachable state but the final ones some thread has a step. */
  lemma NoDeadlock(c: Config, w: seq<Index>, s: State) returns (t: nat)
    requires Reachable(c, w, s) && !AllFinished(s)
    ensures Enabled(c, s, t)
  {
    hide WindowOk;
    hide ClaimsOk;
    hide Reachable;
    ReachableInv(c, w, s);
    if s.mutex.Some? {
      HolderRuns(c, s);
      t := s.mutex.value;
    } else {
      var u := NotAllWaiting(c, s);
      t := FreeThreadRuns(c, s, u);
    }
  }

  // ----- every step brings the end nearer

  /** Steps a thread still makes once `blocks` are left to merge and it is at the loop test. */
  function MergeRank(blocks: nat): nat {
    if blocks <= 1 then 2 else 2 * (blocks / 2) + 3 + MergeRank(blocks / 2)
  }

  function PairsLeft(blocks: nat, id: nat): nat {
    if id < blocks / 2 then blocks / 2 - id else 0
  }

  /** Steps left to a thread, if it claims no further block. */
  function Rank(c: Config, pc: PC): nat {
    var a := MergeRank(c.blocks);
    match pc
    case Unborn => 10 + a + c.blocks
    case Spawn(next) => 10 + a + c.blocks + (if next < c.threads then c.threads - next else 0)
    case Ready(First) => 9 + a + c.blocks
    case Blocked(First, _) => 8 + a + c.blocks
    case Marked(_) => 8 + a + c.blocks
    case SortOwn => 7 + a + c.blocks
    case SortNext(_) => 7 + a + c.blocks
    case Sorting(_, _) => 6 + a + c.blocks
    case TryLock => 5 + a + c.blocks
    case Scan(i) => 4 + a + (if i < c.blocks then c.blocks - i else 0)
    case Claim(_) => 3 + a
    case NoneFree => 3 + a
    case Ready(PreMerge) => 2 + a
    case Blocked(PreMerge, _) => 1 + a
    case MergeTest(blocks, _, id) => 2 * PairsLeft(blocks, id) + 3 + MergeRank(blocks / 2)
    case Merging(blocks, _, id, _, _) =>
      (if id < blocks / 2 then 2 * PairsLeft(blocks, id) - 1 else 0) + 3 + MergeRank(blocks / 2)
    case Ready(AfterLevel(blocks, _)) => 2 + MergeRank(blocks / 2)
    case Blocked(AfterLevel(blocks, _), _) => 1 + MergeRank(blocks / 2)
    case Ready(Last) => 2
    case Blocked(Last, _) => 1
    case Finished => 0
  }

  function SumRank(c: Config, pc: seq<PC>): nat {
    if pc == [] then 0 else SumRank(c, pc[..|pc| - 1]) + Rank(c, pc[|pc| - 1])
  }

  function Free(m: seq<int>): nat {
    if m == [] then 0 else Free(m[..|m| - 1]) + if m[|m| - 1] == 0 then 1 else 0
  }

  /** Claiming a block buys at most `blocks + 6` more steps. */
  function Measure(c: Config, s: State): nat {
    Off(Free(s.blockMap), c.blocks + 6) + SumRank(c, s.pc)
  }

  lemma {:induction false} SumUpdate(c: Config, pc: seq<PC>, t: nat, v: PC)
    requires t < |pc|
    ensures SumRank(c, pc[t := v]) + Rank(c, pc[t]) == SumRank(c, pc) + Rank(c, v)
  {
    hide Rank;
    var n := |pc| - 1;
    if t < n {
      SumUpdate(c, pc[..n], t, v);
      assert pc[t := v][..n] == pc[..n][t := v];
    } else {
      assert pc[t := v][..n] == pc[..n];
    }
  }

  lemma {:induction false} FreeUpdate(m: seq<int>, b: nat)
    requires b < |m|
    ensures Free(m[b := 1]) == Free(m) - (if m[b] == 0 then 1 else 0)
  {
    var n := |m| - 1;
    if b < n {
      FreeUpdate(m[..n], b);
      assert m[b := 1][..n] == m[..n][b := 1];
    } else {
      assert m[b := 1][..n] == m[..n];
    }
  }

  lemma LocalRank(c: Config, s: State, t: nat, junk: seq<Index>)
    requires ThreadsOk(c, s) && Enabled(c, s, t) && !s.pc[t].Spawn? && !s.pc[t].Claim?
    ensures Rank(c, Step(c, s, t, junk).pc[t]) < Rank(c, s.pc[t])
  {
    hide Slot;
    hide SetSlot;
    hide CountAt;
    hide MergeRank;
    hide Rank;
    if s.pc[t].Blocked? {
      LeaveRank(c, t, s.pc[t].wait, s.pc[t].at);
    } else if s.pc[t].MergeTest? || s.pc[t].Merging? {
      MergeStepRank(c, s, t, junk);
    } else if s.pc[t].Ready? {
      ArriveRank(c, s.pc[t].wait, s.gen);
    } else if s.pc[t].SortOwn? || s.pc[t].SortNext? || s.pc[t].Sorting? {
      SortStepRank(c, s, t, junk);
    } else {
      LockStepRank(c, s, t, junk);
    }
  }

  lemma ArriveRank(c: Config, wait: Wait, g: nat)
    ensures Rank(c, Blocked(wait, g)) < Rank(c, Ready(wait))
  {
  }

  lemma LeaveRank(c: Config, t: nat, wait: Wait, at: nat)
    ensures Rank(c, AfterWait(c, t, wait)) < Rank(c, Blocked(wait, at))
  {
    if wait.PreMerge? {
      LoopRank(c, t, c.blocks, c.size);
    } else if wait.AfterLevel? {
      LoopRank(c, t, wait.blocks / 2, 2 * wait.size);
    }
  }

  lemma LoopRank(c: Config, t: nat, blocks: nat, size: nat)
    ensures Rank(c, LoopTest(t, blocks, size)) <= MergeRank(blocks)
  {
  }

  lemma MergeStepRank(c: Config, s: State, t: nat, junk: seq<Index>)
    requires ThreadsOk(c, s) && t < c.threads && (s.pc[t].MergeTest? || s.pc[t].Merging?)
    ensures Rank(c, Step(c, s, t, junk).pc[t]) < Rank(c, s.pc[t])
  {
    hide Slot;
    hide SetSlot;
    hide CountAt;
    hide MergeRank;
    assert PcOk(c, s, t);
  }

  lemma LockStepRank(c: Config, s: State, t: nat, junk: seq<Index>)
    requires ValidConfig(c) && WellFormed(c, s) && Enabled(c, s, t)
    requires s.pc[t].TryLock? || s.pc[t].Scan? || s.pc[t].NoneFree? || s.pc[t].Marked?
    ensures Rank(c, Step(c, s, t, junk).pc[t]) < Rank(c, s.pc[t])
  {
    hide MergeRank;
  }

  lemma SortStepRank(c: Config, s: State, t: nat, junk: seq<Index>)
    requires ValidConfig(c) && WellFormed(c, s) && Enabled(c, s, t)
    requires s.pc[t].SortOwn? || s.pc[t].SortNext? || s.pc[t].Sorting?
    ensures Rank(c, Step(c, s, t, junk).pc[t]) < Rank(c, s.pc[t])
  {
    hide Slot;
    hide SetSlot;
    hide MergeRank;
  }

  lemma SpawnRanks(c: Config, s: State, t: nat)
    requires ThreadsOk(c, s) && t < c.threads && s.pc[t].Spawn?
    ensures SumRank(c, SpawnStep(c, s, t, s.pc[t].next).pc) < SumRank(c, s.pc)
  {
    hide MergeRank;
    hide SumRank;
    var next := s.pc[t].next;
    assert PcOk(c, s, t);
    if next < c.threads {
      SumUpdate(c, s.pc, t, Spawn(next + 1));
      SumUpdate(c, s.pc[t := Spawn(next + 1)], next, Ready(First));
    } else {
      SumUpdate(c, s.pc, t, Ready(First));
    }
  }

  lemma SpawnMeasure(c: Config, s: State, t: nat)
    requires ThreadsOk(c, s) && t < c.threads && s.pc[t].Spawn?
    ensures Measure(c, SpawnStep(c, s, t, s.pc[t].next)) < Measure(c, s)
  {
    hide Rank;
    SpawnRanks(c, s, t);
    var b := if s.pc[t].next < c.threads then s.pc[t].next else t;
    assert PcOk(c, s, t);
    FreeUpdate(s.blockMap, b);
    if s.blockMap[b] == 0 {
      SlotFits(Free(s.blockMap) - 1, Free(s.blockMap), c.blocks + 6);
    }
  }

  lemma MarkRank(c: Config, block: nat)
    ensures Rank(c, Marked(block)) == Rank(c, Claim(block)) + c.blocks + 5
  {
    hide MergeRank;
  }

  lemma MarkMeasure(c: Config, s: State, t: nat)
    requires ThreadsOk(c, s) && MapOk(c, s) && t < c.threads && s.pc[t].Claim?
    requires s.pc[t].block < c.blocks
    ensures Measure(c, MarkStep(c, s, t, s.pc[t].block)) < Measure(c, s)
  {
    hide Rank;
    hide SumRank;
    hide PcOk;
    hide CountAt;
    hide Free;
    var block := s.pc[t].block;
    assert ScanOk(s.blockMap, s.pc[t]);
    FreeUpdate(s.blockMap, block);
    SumUpdate(c, s.pc, t, Marked(block));
    MarkRank(c, block);
    var free := Free(s.blockMap);
    assert Free(s.blockMap[block := 1]) == free - 1;
    SlotFits(free - 1, free, c.blocks + 6);
  }

  lemma StepMeasure(c: Config, s: State, t: nat, junk: seq<Index>)
    requires ThreadsOk(c, s) && MapOk(c, s) && Enabled(c, s, t)
    ensures Measure(c, Step(c, s, t, junk)) < Measure(c, s)
  {
    hide Slot;
    hide SetSlot;
    hide CountAt;
    hide MapOk;
    hide Rank;
    hide Measure;
    if s.pc[t].Spawn? {
      SpawnMeasure(c, s, t);
    } else if s.pc[t].Claim? {
      assert PcOk(c, s, t);
      MarkMeasure(c, s, t);
    } else {
      OtherMeasure(c, s, t, junk);
    }
  }

  lemma OtherMeasure(c: Config, s: State, t: nat, junk: seq<Index>)
    requires ThreadsOk(c, s) && MapOk(c, s) && Enabled(c, s, t) && !s.pc[t].Spawn? && !s.pc[t].Claim?
    ensures Measure(c, Step(c, s, t, junk)) < Measure(c, s)
  {
    hide Step;
    hide Rank;
    hide ThreadsOk;
    hide MapOk;
    LocalRank(c, s, t, junk);
    assert ValidConfig(c) && WellFormed(c, s) by { InvShape(c, s); }
    StepFrame(c, s, t, junk);
    SumUpdate(c, s.pc, t, Step(c, s, t, junk).pc[t]);
  }

  lemma InvShape(c: Config, s: State)
    requires ThreadsOk(c, s)
    ensures ValidConfig(c) && WellFormed(c, s)
  {
  }

  /** Every step of a run lowers the measure, so no run is longer than its start allows. */
  lemma {:induction false} RunsEnd(c: Config, w: seq<Index>, run: seq<State>)
    requires IsRun(c, w, run)
    ensures |run| - 1 + Measure(c, run[|run| - 1]) <= Measure(c, Start(c, w))
    decreases |run|
  {
    hide Step;
    hide Measure;
    hide Inv;
    var n := |run| - 1;
    if n > 0 {
      var shorter := run[..n];
      forall i | 0 <= i < |shorter| - 1 ensures Next(c, shorter[i], shorter[i + 1]) {
        assert Next(c, run[i], run[i + 1]);
      }
      RunsEnd(c, w, shorter);
      assert Next(c, run[n - 1], run[n - 1 + 1]);
      var t: nat, junk: seq<Index> :| Enabled(c, run[n - 1], t) && run[n] == Step(c, run[n - 1], t, junk);
      RunInv(c, w, run, n - 1);
      InvParts(c, w, run[n - 1]);
      StepMeasure(c, run[n - 1], t, junk);
    }
  }

  lemma InvParts(c: Config, w: seq<Index>, s: State)
    requires Inv(c, w, s)
    ensures ThreadsOk(c, s) && MapOk(c, s)
  {
  }
}
