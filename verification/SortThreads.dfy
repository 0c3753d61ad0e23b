/** Every step keeps the threads, the barrier, the claims and the block map in order. */
module SortThreads {
  import opened Options
  import opened Records
  import opened Levels
  import opened Windows
  import opened ParallelSort
  import opened SortInvariant

  /** Between one pair of a thread and its next there is no other of its own. */
  lemma {:induction false} NextTurn(p: nat, id: nat, n: nat)
    requires n > 0 && Owner(p, n) == Owner(id, n)
    ensures p < id + n <==> p < id || p == id
    ensures Owner(id + n, n) == Owner(id, n)
  {
    if p >= n && id >= n {
      NextTurn(p - n, id - n, n);
    }
  }

  // ----- threads and barrier

  /** Steps of `t` that only set its own program point, apart from other fields. */
  ghost predicate StepsAlone(s: State, s': State, t: nat) {
    t < |s.pc| == |s'.pc| && s'.pc == s.pc[t := s'.pc[t]]
  }

  lemma SortStepsAlone(c: Config, s: State, t: nat, junk: seq<Index>)
    requires ValidConfig(c) && WellFormed(c, s) && Enabled(c, s, t)
    requires s.pc[t].SortOwn? || s.pc[t].SortNext? || s.pc[t].Sorting? || s.pc[t].MergeTest? || s.pc[t].Merging?
    ensures StepsAlone(s, Step(c, s, t, junk), t)
  {
    hide Slot;
    hide SetSlot;
  }

  lemma LockStepsAlone(c: Config, s: State, t: nat, junk: seq<Index>)
    requires ValidConfig(c) && WellFormed(c, s) && Enabled(c, s, t) && !s.pc[t].Spawn?
    requires !s.pc[t].SortOwn? && !s.pc[t].SortNext? && !s.pc[t].Sorting? && !s.pc[t].MergeTest? && !s.pc[t].Merging?
    ensures StepsAlone(s, Step(c, s, t, junk), t)
  {
    hide LoopTest;
  }

  lemma StepsOneThread(c: Config, s: State, t: nat, junk: seq<Index>)
    requires ValidConfig(c) && WellFormed(c, s) && Enabled(c, s, t) && !s.pc[t].Spawn?
    ensures StepsAlone(s, Step(c, s, t, junk), t)
  {
    hide Step;
    hide StepsAlone;
    if s.pc[t].SortOwn? || s.pc[t].SortNext? || s.pc[t].Sorting? || s.pc[t].MergeTest? || s.pc[t].Merging? {
      SortStepsAlone(c, s, t, junk);
    } else {
      LockStepsAlone(c, s, t, junk);
    }
  }

  lemma StepKeepsBarrier(c: Config, s: State, t: nat, junk: seq<Index>)
    requires ValidConfig(c) && WellFormed(c, s) && Enabled(c, s, t) && !s.pc[t].Ready?
    ensures var s' := Step(c, s, t, junk); s'.gen == s.gen && s'.arrived == s.arrived && s'.waits == s.waits
  {
    hide Slot;
    hide SetSlot;
    hide LoopTest;
  }

  lemma StepKeepsClaims(c: Config, s: State, t: nat, junk: seq<Index>)
    requires ValidConfig(c) && WellFormed(c, s) && Enabled(c, s, t) && !s.pc[t].Spawn? && !s.pc[t].Claim?
    ensures var s' := Step(c, s, t, junk); s'.blockMap == s.blockMap && s'.claimedBy == s.claimedBy
  {
    hide Slot;
    hide SetSlot;
    hide LoopTest;
  }

  lemma StepKeepsSorted(c: Config, s: State, t: nat, junk: seq<Index>)
    requires ValidConfig(c) && WellFormed(c, s) && Enabled(c, s, t) && !s.pc[t].Sorting?
    ensures Step(c, s, t, junk).sortedBy == s.sortedBy
  {
    hide Slot;
    hide SetSlot;
    hide LoopTest;
  }

  /** What every step outside thread creation and the barrier leaves alone. */
  lemma StepFrame(c: Config, s: State, t: nat, junk: seq<Index>)
    requires ValidConfig(c) && WellFormed(c, s) && Enabled(c, s, t) && !s.pc[t].Spawn?
    ensures var s' := Step(c, s, t, junk);
            && s'.pc == s.pc[t := s'.pc[t]]
            && (!s.pc[t].Ready? ==> s'.gen == s.gen && s'.arrived == s.arrived && s'.waits == s.waits)
            && (!s.pc[t].Claim? ==> s'.blockMap == s.blockMap && s'.claimedBy == s.claimedBy)
            && (!s.pc[t].Sorting? ==> s'.sortedBy == s.sortedBy)
  {
    hide Step;
    StepsOneThread(c, s, t, junk);
    if !s.pc[t].Ready? { StepKeepsBarrier(c, s, t, junk); }
    if !s.pc[t].Claim? { StepKeepsClaims(c, s, t, junk); }
    if !s.pc[t].Sorting? { StepKeepsSorted(c, s, t, junk); }
  }

  /** A step that leaves the barrier alone only has to put its own thread in order. */
  lemma LocalThreads(c: Config, s: State, s': State, t: nat, v: PC)
    requires ThreadsOk(c, s) && s.gen >= 1 && t < c.threads
    requires s'.gen == s.gen && s'.arrived == s.arrived && s'.waits == s.waits
    requires s'.pc == s.pc[t := v] && |s'.blockMap| == |s.blockMap|
    requires !WaitsAt(s.pc[t], s.gen) && !WaitsAt(v, s.gen) && PcOk(c, s', t)
    ensures ThreadsOk(c, s')
  {
    CountUpdate(s.pc, t, v, s.gen);
    forall u: nat | u < c.threads ensures PcOk(c, s', u) {
      assert PcOk(c, s, u);
    }
  }

  /** The loop test of a released thread agrees with the level its barrier opened. */
  lemma NextWait(c: Config, g: nat)
    requires ValidConfig(c) && 1 <= g <= FinalGen(c)
    ensures WaitOf(c, g - 1) == First <==> g == 1
    ensures WaitOf(c, g - 1) == Last <==> g == FinalGen(c)
    ensures WaitOf(c, g - 1) == PreMerge ==> g == 2
    ensures g >= 2 && WaitOf(c, g) == Last ==> LevelBlocks(c.blocks, g - 2) <= 1
    ensures g >= 3 && g < FinalGen(c) ==>
      WaitOf(c, g - 1) == AfterLevel(LevelBlocks(c.blocks, g - 3), LevelSize(c.size, g - 3))
  {
    if g >= 2 {
      LevelCount(c.blocks, g - 2);
    }
    if g >= 3 {
      LevelCount(c.blocks, g - 3);
    }
  }

  lemma LeaveOk(c: Config, s: State, t: nat)
    requires ThreadsOk(c, s) && t < c.threads && s.pc[t].Blocked? && s.pc[t].at < s.gen
    ensures PcOk(c, SetPC(s, t, AfterWait(c, t, s.pc[t].wait)), t)
    ensures s.pc[t].wait == First <==> s.gen == 1
    ensures s.gen >= 2 && !SetPC(s, t, AfterWait(c, t, s.pc[t].wait)).pc[t].MergeTest? ==>
      LevelBlocks(c.blocks, s.gen - 2) <= 1
  {
    hide Log2;
    assert PcOk(c, s, t);
    NextWait(c, s.gen);
    LevelCount(c.blocks, s.gen - if s.gen >= 2 then 2 else 0);
  }

  lemma SpawnThreads(c: Config, s: State, t: nat)
    requires ThreadsOk(c, s) && t < c.threads && s.pc[t].Spawn?
    ensures ThreadsOk(c, SpawnStep(c, s, t, s.pc[t].next))
  {
    hide CountAt;
    hide WaitOf;
    hide FinalGen;
    var next := s.pc[t].next;
    var s' := SpawnStep(c, s, t, next);
    assert PcOk(c, s, t);
    FirstWait(c);
    SpawnCount(s.pc, t, next, s'.pc);
    forall u: nat | u < c.threads ensures PcOk(c, s', u) {
      assert PcOk(c, s, u);
    }
  }

  lemma FirstWait(c: Config)
    ensures WaitOf(c, 0) == First && 0 < FinalGen(c)
  {
  }

  /** Creating a thread puts none into the barrier. */
  lemma SpawnCount(pc: seq<PC>, t: nat, next: nat, pc': seq<PC>)
    requires t < |pc| && !pc[t].Blocked?
    requires if next < |pc| then
               next != t && !pc[next].Blocked? && pc' == pc[t := Spawn(next + 1)][next := Ready(First)]
             else pc' == pc[t := Ready(First)]
    ensures CountAt(pc', 0) == CountAt(pc, 0)
  {
    if next < |pc| {
      CountUpdate(pc, t, Spawn(next + 1), 0);
      CountUpdate(pc[t := Spawn(next + 1)], next, Ready(First), 0);
    } else {
      CountUpdate(pc, t, Ready(First), 0);
    }
  }

  /** The barrier opens exactly when the whole team waits in it. */
  lemma ArriveThreads(c: Config, s: State, t: nat)
    requires ThreadsOk(c, s) && t < c.threads && s.pc[t].Ready?
    ensures ThreadsOk(c, ArriveStep(c, s, t, s.pc[t].wait))
    ensures var s' := ArriveStep(c, s, t, s.pc[t].wait);
            s'.gen == s.gen || (s'.gen == s.gen + 1
                                && forall u: nat | u < c.threads :: s'.pc[u] == Blocked(WaitOf(c, s.gen), s.gen))
  {
    hide WaitOf;
    hide FinalGen;
    hide CountAt;
    assert PcOk(c, s, t);
    var s' := ArriveStep(c, s, t, s.pc[t].wait);
    CountUpdate(s.pc, t, s'.pc[t], s.gen);
    CountAll(s'.pc, s.gen);
    if s.arrived + 1 == c.threads {
      forall u: nat | u < c.threads
        ensures s'.pc[u] == Blocked(WaitOf(c, s.gen), s.gen) && PcOk(c, s', u)
      {
        assert PcOk(c, s, u) && WaitsAt(s'.pc[u], s.gen);
      }
      CountAll(s'.pc, s.gen + 1);
    } else {
      forall u: nat | u < c.threads ensures PcOk(c, s', u) {
        assert PcOk(c, s, u);
      }
    }
  }

  lemma MergeStepOk(c: Config, s: State, t: nat, junk: seq<Index>)
    requires ThreadsOk(c, s) && t < c.threads && (s.pc[t].MergeTest? || s.pc[t].Merging?)
    ensures PcOk(c, Step(c, s, t, junk), t)
  {
    hide Slot;
    hide SetSlot;
    hide CountAt;
    assert PcOk(c, s, t);
    NextTurn(s.pc[t].id, s.pc[t].id, c.threads);
    LevelCount(c.blocks, s.gen - 2);
  }

  lemma SimpleStepOk(c: Config, s: State, t: nat, junk: seq<Index>)
    requires ThreadsOk(c, s) && Enabled(c, s, t)
    requires !s.pc[t].Spawn? && !s.pc[t].Ready? && !s.pc[t].Blocked? && !s.pc[t].MergeTest? && !s.pc[t].Merging?
    ensures PcOk(c, Step(c, s, t, junk), t)
  {
    hide Slot;
    hide SetSlot;
    hide CountAt;
    hide Log2;
    assert PcOk(c, s, t);
  }

  lemma OtherThreads(c: Config, s: State, t: nat, junk: seq<Index>)
    requires ThreadsOk(c, s) && Enabled(c, s, t) && !s.pc[t].Spawn? && !s.pc[t].Ready?
    requires PcOk(c, Step(c, s, t, junk), t)
    ensures ThreadsOk(c, Step(c, s, t, junk))
  {
    hide Step;
    hide FinalGen;
    hide CountAt;
    var s' := Step(c, s, t, junk);
    StepFrame(c, s, t, junk);
    assert PcOk(c, s, t);
    assert !WaitsAt(s'.pc[t], s.gen) by {
      NoNewWait(c, s, t, junk);
    }
    LocalThreads(c, s, s', t, s'.pc[t]);
  }

  lemma NoNewWait(c: Config, s: State, t: nat, junk: seq<Index>)
    requires ValidConfig(c) && WellFormed(c, s) && Enabled(c, s, t) && !s.pc[t].Spawn? && !s.pc[t].Ready?
    ensures !Step(c, s, t, junk).pc[t].Blocked?
  {
    hide Slot;
    hide SetSlot;
  }

  lemma StepThreads(c: Config, s: State, t: nat, junk: seq<Index>)
    requires ThreadsOk(c, s) && Enabled(c, s, t)
    ensures ThreadsOk(c, Step(c, s, t, junk))
  {
    hide Slot;
    hide SetSlot;
    hide CountAt;
    hide Log2;
    var s' := Step(c, s, t, junk);
    assert PcOk(c, s, t);
    if s.pc[t].Spawn? {
      SpawnThreads(c, s, t);
    } else if s.pc[t].Ready? {
      ArriveThreads(c, s, t);
    } else {
      if s.pc[t].Blocked? {
        LeaveOk(c, s, t);
      } else if s.pc[t].MergeTest? || s.pc[t].Merging? {
        MergeStepOk(c, s, t, junk);
      } else {
        SimpleStepOk(c, s, t, junk);
      }
      OtherThreads(c, s, t, junk);
    }
  }

  // ----- claims

  /** Two program points at which a thread has the same blocks to sort. */
  ghost predicate SameBlocks(v: PC, pc: PC, t: nat) {
    forall b: nat :: Holds(v, t, b) <==> Holds(pc, t, b)
  }

  /** A step that keeps the block its thread holds, if any, keeps all claims. */
  lemma SameHolds(c: Config, s: State, s': State, t: nat, v: PC)
    requires WellFormed(c, s) && ClaimsOk(c, s) && t < c.threads
    requires s'.blockMap == s.blockMap && s'.claimedBy == s.claimedBy && s'.sortedBy == s.sortedBy
    requires s'.pc == s.pc[t := v] && |s'.waits| == |s.waits|
    requires s'.gen == 0 ==> s.gen == 0
    requires SameBlocks(v, s.pc[t], t)
    ensures ClaimsOk(c, s')
  {
    SameHeld(c, s, s', t, v);
    SameOpen(c, s, s', t, v);
    hide HeldOk;
    hide OpenOk;
    hide SameBlocks;
  }

  lemma SameHeld(c: Config, s: State, s': State, t: nat, v: PC)
    requires WellFormed(c, s) && WellFormed(c, s') && HeldOk(c, s) && t < c.threads && SameBlocks(v, s.pc[t], t)
    requires s'.claimedBy == s.claimedBy && s'.sortedBy == s.sortedBy && s'.pc == s.pc[t := v]
    ensures HeldOk(c, s')
  {
    hide Holds;
  }

  lemma SameOpen(c: Config, s: State, s': State, t: nat, v: PC)
    requires WellFormed(c, s) && WellFormed(c, s') && OpenOk(c, s) && t < c.threads && SameBlocks(v, s.pc[t], t)
    requires s'.claimedBy == s.claimedBy && s'.sortedBy == s.sortedBy && s'.pc == s.pc[t := v]
    ensures OpenOk(c, s')
  {
    hide Holds;
  }

  lemma SpawnHeld(c: Config, s: State, t: nat)
    requires ThreadsOk(c, s) && ClaimsOk(c, s) && t < c.threads && s.pc[t].Spawn?
    ensures HeldOk(c, SpawnStep(c, s, t, s.pc[t].next))
  {
    hide CountAt;
    hide WaitOf;
    hide OpenOk;
    var next := s.pc[t].next;
    var s' := SpawnStep(c, s, t, next);
    assert PcOk(c, s, t);
    var b0 := if next < c.threads then next else t;
    forall u: nat, b: nat | u < c.threads && Holds(s'.pc[u], u, b)
      ensures b in s'.claimedBy && s'.claimedBy[b] == u && b !in s'.sortedBy
    {
      assert PcOk(c, s, u);
      assert u != b0 ==> Holds(s.pc[u], u, b);
    }
  }

  lemma SpawnOpen(c: Config, s: State, t: nat)
    requires ThreadsOk(c, s) && ClaimsOk(c, s) && t < c.threads && s.pc[t].Spawn?
    ensures OpenOk(c, SpawnStep(c, s, t, s.pc[t].next))
  {
    hide CountAt;
    hide WaitOf;
    hide HeldOk;
    var next := s.pc[t].next;
    var s' := SpawnStep(c, s, t, next);
    assert PcOk(c, s, t);
    var b0 := if next < c.threads then next else t;
    forall b | b in s'.claimedBy && b !in s'.sortedBy && s'.claimedBy[b] < c.threads
      ensures Holds(s'.pc[s'.claimedBy[b]], s'.claimedBy[b], b)
    {
      if b != b0 {
        assert Holds(s.pc[s.claimedBy[b]], s.claimedBy[b], b);
      }
    }
  }

  lemma SpawnHistory(c: Config, s: State, t: nat)
    requires ThreadsOk(c, s) && HistoryOk(c, s) && t < c.threads && s.pc[t].Spawn?
    ensures HistoryOk(c, SpawnStep(c, s, t, s.pc[t].next))
  {
    hide CountAt;
    hide WaitOf;
    assert PcOk(c, s, t);
  }

  lemma SpawnClaims(c: Config, s: State, t: nat)
    requires ThreadsOk(c, s) && ClaimsOk(c, s) && t < c.threads && s.pc[t].Spawn?
    ensures ClaimsOk(c, SpawnStep(c, s, t, s.pc[t].next))
  {
    SpawnHeld(c, s, t);
    SpawnOpen(c, s, t);
    SpawnHistory(c, s, t);
    hide HistoryOk;
    hide HeldOk;
    hide OpenOk;
    hide PcOk;
  }

  lemma MarkHeld(c: Config, s: State, t: nat)
    requires WellFormed(c, s) && HistoryOk(c, s) && HeldOk(c, s) && t < c.threads && s.pc[t].Claim?
    requires s.pc[t].block < c.blocks && s.blockMap[s.pc[t].block] == 0
    ensures HeldOk(c, MarkStep(c, s, t, s.pc[t].block))
  {
    var block := s.pc[t].block;
    var s' := MarkStep(c, s, t, block);
    assert block !in s.claimedBy;
    forall u: nat, b: nat | u < c.threads && Holds(s'.pc[u], u, b)
      ensures b in s'.claimedBy && s'.claimedBy[b] == u && b !in s'.sortedBy
    {
      if u != t {
        assert Holds(s.pc[u], u, b);
      }
    }
  }

  lemma MarkOpen(c: Config, s: State, t: nat)
    requires WellFormed(c, s) && HistoryOk(c, s) && OpenOk(c, s) && t < c.threads && s.pc[t].Claim?
    requires s.pc[t].block < c.blocks && s.blockMap[s.pc[t].block] == 0
    ensures OpenOk(c, MarkStep(c, s, t, s.pc[t].block))
  {
    var block := s.pc[t].block;
    var s' := MarkStep(c, s, t, block);
    forall b | b in s'.claimedBy && b !in s'.sortedBy && s'.claimedBy[b] < c.threads
      ensures Holds(s'.pc[s'.claimedBy[b]], s'.claimedBy[b], b)
    {
      if b != block {
        assert Holds(s.pc[s.claimedBy[b]], s.claimedBy[b], b);
      }
    }
  }

  lemma MarkHistory(c: Config, s: State, t: nat)
    requires WellFormed(c, s) && HistoryOk(c, s) && t < c.threads && s.pc[t].Claim?
    requires s.pc[t].block < c.blocks && s.blockMap[s.pc[t].block] == 0
    ensures HistoryOk(c, MarkStep(c, s, t, s.pc[t].block))
  {
  }

  lemma MarkClaims(c: Config, s: State, t: nat)
    requires WellFormed(c, s) && ClaimsOk(c, s) && t < c.threads && s.pc[t].Claim?
    requires s.pc[t].block < c.blocks && s.blockMap[s.pc[t].block] == 0
    ensures ClaimsOk(c, MarkStep(c, s, t, s.pc[t].block))
  {
    hide HistoryOk;
    hide HeldOk;
    hide OpenOk;
    MarkHeld(c, s, t);
    MarkOpen(c, s, t);
    MarkHistory(c, s, t);
  }

  lemma EndSortClaims(c: Config, s: State, t: nat)
    requires WellFormed(c, s) && ClaimsOk(c, s) && t < c.threads && s.pc[t].Sorting? && s.gen > 0
    ensures ClaimsOk(c, EndSort(c, s, t, s.pc[t].block, s.pc[t].input))
  {
    var block := s.pc[t].block;
    var s' := EndSort(c, s, t, block, s.pc[t].input);
    assert Holds(s.pc[t], t, block);
    forall u: nat, b: nat | u < c.threads && Holds(s'.pc[u], u, b)
      ensures b in s'.claimedBy && s'.claimedBy[b] == u && b !in s'.sortedBy
    {
      assert u != t && Holds(s.pc[u], u, b);
    }
    forall b | b in s'.claimedBy && b !in s'.sortedBy
      ensures Holds(s'.pc[s'.claimedBy[b]], s'.claimedBy[b], b)
    {
      assert Holds(s.pc[s.claimedBy[b]], s.claimedBy[b], b);
    }
  }

  lemma WaitHolding(c: Config, s: State, t: nat, junk: seq<Index>)
    requires ThreadsOk(c, s) && Enabled(c, s, t) && (s.pc[t].Ready? || s.pc[t].Blocked?)
    ensures SameBlocks(Step(c, s, t, junk).pc[t], s.pc[t], t)
    ensures Step(c, s, t, junk).gen >= s.gen
  {
    hide CountAt;
    hide WaitOf;
    hide PcOk;
  }

  lemma SortHolding(c: Config, s: State, t: nat, junk: seq<Index>)
    requires ThreadsOk(c, s) && Enabled(c, s, t)
    requires s.pc[t].SortOwn? || s.pc[t].TryLock? || s.pc[t].Scan? || s.pc[t].Marked?
          || s.pc[t].NoneFree? || s.pc[t].SortNext?
    ensures SameBlocks(Step(c, s, t, junk).pc[t], s.pc[t], t)
    ensures Step(c, s, t, junk).gen >= s.gen
  {
    hide Slot;
    hide SetSlot;
    hide CountAt;
    hide WaitOf;
    hide PcOk;
  }

  lemma MergeHolding(c: Config, s: State, t: nat, junk: seq<Index>)
    requires ThreadsOk(c, s) && Enabled(c, s, t) && (s.pc[t].MergeTest? || s.pc[t].Merging?)
    ensures SameBlocks(Step(c, s, t, junk).pc[t], s.pc[t], t)
    ensures Step(c, s, t, junk).gen >= s.gen
  {
    hide Slot;
    hide SetSlot;
    hide CountAt;
    hide WaitOf;
    hide PcOk;
  }

  /** Steps that neither create, nor claim, nor finish a block keep what their thread holds. */
  lemma SameHolding(c: Config, s: State, t: nat, junk: seq<Index>)
    requires ThreadsOk(c, s) && Enabled(c, s, t)
    requires !s.pc[t].Spawn? && !s.pc[t].Claim? && !s.pc[t].Sorting?
    ensures SameBlocks(Step(c, s, t, junk).pc[t], s.pc[t], t)
    ensures Step(c, s, t, junk).gen == 0 ==> s.gen == 0
  {
    hide Step;
    hide ThreadsOk;
    hide SameBlocks;
    if s.pc[t].Ready? || s.pc[t].Blocked? {
      WaitHolding(c, s, t, junk);
    } else if s.pc[t].MergeTest? || s.pc[t].Merging? {
      MergeHolding(c, s, t, junk);
    } else {
      SortHolding(c, s, t, junk);
    }
  }

  lemma OtherClaims(c: Config, s: State, t: nat, junk: seq<Index>)
    requires ThreadsOk(c, s) && ClaimsOk(c, s) && Enabled(c, s, t)
    requires !s.pc[t].Spawn? && !s.pc[t].Claim? && !s.pc[t].Sorting?
    ensures ClaimsOk(c, Step(c, s, t, junk))
  {
    hide Step;
    hide Holds;
    hide ClaimsOk;
    var s' := Step(c, s, t, junk);
    StepFrame(c, s, t, junk);
    SameHolding(c, s, t, junk);
    SameHolds(c, s, s', t, s'.pc[t]);
  }

  lemma StepClaims(c: Config, s: State, t: nat, junk: seq<Index>)
    requires ThreadsOk(c, s) && ClaimsOk(c, s) && MapOk(c, s) && Enabled(c, s, t)
    ensures ClaimsOk(c, Step(c, s, t, junk))
  {
    hide Slot;
    hide SetSlot;
    hide ClaimsOk;
    hide WaitOf;
    hide CountAt;
    hide TakenTo;
    hide Prefix;
    var s' := Step(c, s, t, junk);
    assert PcOk(c, s, t) && ScanOk(s.blockMap, s.pc[t]);
    if s.pc[t].Spawn? {
      SpawnClaims(c, s, t);
    } else if s.pc[t].Claim? {
      MarkClaims(c, s, t);
    } else if s.pc[t].Sorting? {
      EndSortClaims(c, s, t);
    } else {
      OtherClaims(c, s, t, junk);
    }
  }

  // ----- the block map

  lemma LocalMap(c: Config, s: State, s': State, t: nat, v: PC)
    requires WellFormed(c, s) && MapOk(c, s) && t < c.threads
    requires s'.blockMap == s.blockMap && s'.mutex == s.mutex
    requires s'.pc == s.pc[t := v] && |s'.waits| == |s.waits|
    requires InCritical(v) <==> InCritical(s.pc[t])
    requires ScanOk(s.blockMap, v)
    requires s'.gen == s.gen || (s'.gen == 1 && Prefix(s.blockMap))
          || (s'.gen > 1 && Prefix(s.blockMap) && TakenTo(s.blockMap, |s.blockMap|))
    ensures MapOk(c, s')
  {
  }

  /** When the first barrier opens, exactly the blocks of the team are taken. */
  lemma TeamBlocks(c: Config, s: State)
    requires WellFormed(c, s) && ClaimsOk(c, s) && s.gen == 0
    requires forall u: nat | u < c.threads :: s.pc[u].Blocked? && s.pc[u].wait == First
    requires c.threads <= c.blocks
    ensures forall b: nat | b < c.blocks :: s.blockMap[b] != 0 <==> b < c.threads
    ensures Prefix(s.blockMap)
  {
    forall b: nat | b < c.blocks ensures s.blockMap[b] != 0 <==> b < c.threads {
      if b in s.claimedBy {
        assert Holds(s.pc[s.claimedBy[b]], s.claimedBy[b], b);
      }
      if b < c.threads {
        assert Holds(s.pc[b], b, b);
      }
    }
  }

  lemma ArriveMap(c: Config, s: State, t: nat)
    requires ThreadsOk(c, s) && ClaimsOk(c, s) && MapOk(c, s) && t < c.threads && s.pc[t].Ready?
    ensures MapOk(c, ArriveStep(c, s, t, s.pc[t].wait))
  {
    var s' := ArriveStep(c, s, t, s.pc[t].wait);
    assert PcOk(c, s, t) && ScanOk(s.blockMap, s.pc[t]);
    ArriveThreads(c, s, t);
    if s'.gen == 1 && s.gen == 0 {
      var s0 := s'.(gen := 0);
      SameHolds(c, s, s0, t, s0.pc[t]);
      TeamBlocks(c, s0);
    }
    LocalMap(c, s, s', t, s'.pc[t]);
  }

  lemma MarkMap(c: Config, s: State, t: nat)
    requires ThreadsOk(c, s) && MapOk(c, s) && t < c.threads && s.pc[t].Claim?
    requires s.pc[t].block < c.blocks
    ensures MapOk(c, MarkStep(c, s, t, s.pc[t].block))
  {
    var block := s.pc[t].block;
    var s' := MarkStep(c, s, t, block);
    assert PcOk(c, s, t) && ScanOk(s.blockMap, s.pc[t]) && InCritical(s.pc[t]);
    forall u: nat | u < c.threads ensures ScanOk(s'.blockMap, s'.pc[u]) {
      assert ScanOk(s.blockMap, s.pc[u]);
      if u != t {
        assert !InCritical(s.pc[u]);
      }
    }
  }

  lemma ScanMap(c: Config, s: State, t: nat)
    requires ThreadsOk(c, s) && MapOk(c, s) && t < c.threads && s.pc[t].Scan?
    ensures MapOk(c, ScanStep(c, s, t, s.pc[t].i))
  {
    var s' := ScanStep(c, s, t, s.pc[t].i);
    assert PcOk(c, s, t) && ScanOk(s.blockMap, s.pc[t]);
    LocalMap(c, s, s', t, s'.pc[t]);
  }

  /** Taking or giving back the mutex. */
  lemma MutexMap(c: Config, s: State, s': State, t: nat, v: PC)
    requires WellFormed(c, s) && MapOk(c, s) && t < c.threads
    requires s' == SetPC(s, t, v).(mutex := if InCritical(v) then Some(t) else None)
    requires s.mutex == None || InCritical(s.pc[t])
    requires ScanOk(s.blockMap, v)
    ensures MapOk(c, s')
  {
    hide TakenTo;
    hide Prefix;
    forall u: nat | u < c.threads && u != t ensures !InCritical(s.pc[u]) {
      assert InCritical(s.pc[u]) ==> s.mutex == Some(u);
      assert InCritical(s.pc[t]) ==> s.mutex == Some(t);
    }
  }

  lemma SpawnMap(c: Config, s: State, t: nat)
    requires ThreadsOk(c, s) && MapOk(c, s) && t < c.threads && s.pc[t].Spawn?
    ensures MapOk(c, SpawnStep(c, s, t, s.pc[t].next))
  {
    hide TakenTo;
    hide Prefix;
    var s' := SpawnStep(c, s, t, s.pc[t].next);
    assert PcOk(c, s, t);
    forall u: nat | u < c.threads
      ensures ScanOk(s'.blockMap, s'.pc[u]) && !InCritical(s'.pc[u]) && !InCritical(s.pc[u])
    {
      assert PcOk(c, s, u);
    }
  }

  lemma MutexStep(c: Config, s: State, t: nat, junk: seq<Index>)
    requires ThreadsOk(c, s) && MapOk(c, s) && Enabled(c, s, t)
    requires s.pc[t].TryLock? || s.pc[t].Marked? || s.pc[t].NoneFree?
    ensures MapOk(c, Step(c, s, t, junk))
  {
    assert TakenTo(s.blockMap, 0);
    hide CountAt;
    hide Prefix;
    hide TakenTo;
    var s' := Step(c, s, t, junk);
    assert PcOk(c, s, t) && ScanOk(s.blockMap, s.pc[t]);
    MutexMap(c, s, s', t, s'.pc[t]);
  }

  lemma StepKeepsMutex(c: Config, s: State, t: nat, junk: seq<Index>)
    requires ValidConfig(c) && WellFormed(c, s) && Enabled(c, s, t)
    requires !s.pc[t].TryLock? && !s.pc[t].Marked? && !s.pc[t].NoneFree?
    ensures Step(c, s, t, junk).mutex == s.mutex
  {
    hide Slot;
    hide SetSlot;
    hide LoopTest;
  }

  /** A thread outside the critical section and the barrier stays outside of both, or is about to enter. */
  lemma OtherPc(c: Config, s: State, t: nat, junk: seq<Index>)
    requires ValidConfig(c) && WellFormed(c, s) && Enabled(c, s, t)
    requires s.pc[t].Blocked? || s.pc[t].SortOwn? || s.pc[t].SortNext? || s.pc[t].Sorting?
          || s.pc[t].MergeTest? || s.pc[t].Merging?
    ensures var pc := Step(c, s, t, junk).pc[t]; !InCritical(pc) && ScanOk(s.blockMap, pc)
  {
    hide Slot;
    hide SetSlot;
  }

  /** Steps outside the critical section that leave the barrier and the map alone. */
  lemma OtherMap(c: Config, s: State, t: nat, junk: seq<Index>)
    requires ThreadsOk(c, s) && MapOk(c, s) && Enabled(c, s, t)
    requires s.pc[t].Blocked? || s.pc[t].SortOwn? || s.pc[t].SortNext? || s.pc[t].Sorting?
          || s.pc[t].MergeTest? || s.pc[t].Merging?
    ensures MapOk(c, Step(c, s, t, junk))
  {
    assert ValidConfig(c) && WellFormed(c, s);
    hide Step;
    hide ThreadsOk;
    hide MapOk;
    hide ScanOk;
    hide Prefix;
    hide TakenTo;
    var s' := Step(c, s, t, junk);
    StepFrame(c, s, t, junk);
    StepKeepsMutex(c, s, t, junk);
    OtherPc(c, s, t, junk);
    LocalMap(c, s, s', t, s'.pc[t]);
  }

  lemma StepMap(c: Config, s: State, t: nat, junk: seq<Index>)
    requires ThreadsOk(c, s) && ClaimsOk(c, s) && MapOk(c, s) && Enabled(c, s, t)
    ensures MapOk(c, Step(c, s, t, junk))
  {
    hide Slot;
    hide SetSlot;
    hide ClaimsOk;
    hide MapOk;
    hide CountAt;
    assert PcOk(c, s, t);
    if s.pc[t].Spawn? {
      SpawnMap(c, s, t);
    } else if s.pc[t].Claim? {
      MarkMap(c, s, t);
    } else if s.pc[t].Ready? {
      ArriveMap(c, s, t);
    } else if s.pc[t].Scan? {
      ScanMap(c, s, t);
    } else if s.pc[t].TryLock? || s.pc[t].Marked? || s.pc[t].NoneFree? {
      MutexStep(c, s, t, junk);
    } else {
      OtherMap(c, s, t, junk);
    }
  }
}
