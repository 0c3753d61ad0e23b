/**
 * One window sorted by a team of threads, as a step system.
 *
 * A qsort or a merge is not one step: it begins by taking what it reads and
 * leaving arbitrary records in the stretch it works on, and ends by storing its
 * result, with any steps of other threads in between.
 */
module ParallelSort {
  import opened Options
  import opened Records
  import opened Merging
  import opened Windows

  /** `threads`, `blockNum`, `blockSize` in records, and the library sort. */
  datatype Config = Config(threads: nat, blocks: nat, size: nat, qsort: Qsort)

  /** The range the program needs: `blockMap[i]` is set for every thread `i`. */
  ghost predicate ValidConfig(c: Config) {
    1 <= c.threads <= c.blocks
  }

  /** The calls of `pthread_barrier_wait`, in program order. */
  datatype Wait = First | PreMerge | AfterLevel(blocks: nat, size: nat) | Last

  datatype PC =
    | Unborn                            // not created yet
    | Spawn(next: nat)                  // main, about to mark and create thread `next`
    | Ready(wait: Wait)                 // about to call pthread_barrier_wait
    | Blocked(wait: Wait, at: nat)      // inside it since barrier generation `at`
    | SortOwn                           // about to sort block `threadId`
    | TryLock                           // about to lock map_mutex
    | Scan(i: nat)                      // in find_next_free_block, blocks below `i` are taken
    | Claim(block: nat)                 // block found free, not yet marked
    | Marked(block: nat)                // block marked, mutex still held
    | NoneFree                          // no free block, mutex still held
    | SortNext(block: nat)              // mutex released, about to sort the claimed block
    | Sorting(block: nat, input: seq<Index>)
    | MergeTest(blocks: nat, size: nat, id: nat)
    | Merging(blocks: nat, size: nat, id: nat, left: seq<Index>, right: seq<Index>)
    | Finished

  /**
   * `arrived` and `gen` are the barrier: how many threads wait in the current
   * generation, and how often it has opened. `claimedBy`, `sortedBy` and `waits`
   * record history only.
   */
  datatype State = State(
    window: seq<Index>,
    blockMap: seq<int>,
    mutex: Option<nat>,
    arrived: nat,
    gen: nat,
    pc: seq<PC>,
    claimedBy: map<nat, nat>,
    sortedBy: map<nat, nat>,
    waits: seq<nat>)

  /** Main has cleared `blockMap` and is about to create thread 1. */
  function Start(c: Config, window: seq<Index>): State
    requires ValidConfig(c)
  {
    State(window, seq(c.blocks, _ => 0), None, 0, 0,
          [Spawn(1)] + seq(c.threads - 1, _ => Unborn),
          map[], map[], seq(c.threads, _ => 0))
  }

  ghost predicate WellFormed(c: Config, s: State) {
    |s.pc| == |s.waits| == c.threads && |s.blockMap| == c.blocks
  }

  ghost predicate Enabled(c: Config, s: State, t: nat) {
    && t < |s.pc|
    && match s.pc[t]
       case Unborn => false
       case Blocked(_, at) => at < s.gen
       case TryLock => s.mutex == None
       case Claim(block) => block < c.blocks
       case Finished => false
       case _ => true
  }

  function SetPC(s: State, t: nat, pc: PC): State
    requires t < |s.pc|
  {
    s.(pc := s.pc[t := pc])
  }

  /** Main marks the block of the thread it creates; its own block comes last. */
  function SpawnStep(c: Config, s: State, t: nat, next: nat): State
    requires WellFormed(c, s) && t < c.threads <= c.blocks
  {
    if next < c.threads then
      s.(blockMap := s.blockMap[next := 1], claimedBy := s.claimedBy[next := next],
         pc := s.pc[t := Spawn(next + 1)][next := Ready(First)])
    else
      s.(blockMap := s.blockMap[t := 1], claimedBy := s.claimedBy[t := t], pc := s.pc[t := Ready(First)])
  }

  /** Entering `pthread_barrier_wait`: the last of the team opens the barrier. */
  function ArriveStep(c: Config, s: State, t: nat, wait: Wait): State
    requires WellFormed(c, s) && t < c.threads
  {
    var s' := SetPC(s, t, Blocked(wait, s.gen)).(waits := s.waits[t := s.waits[t] + 1]);
    if s.arrived + 1 == c.threads then s'.(arrived := 0, gen := s.gen + 1)
    else s'.(arrived := s.arrived + 1)
  }

  /** Where a thread goes on when a barrier has let it through. */
  function AfterWait(c: Config, t: nat, wait: Wait): PC {
    match wait
    case First => SortOwn
    case PreMerge => LoopTest(t, c.blocks, c.size)
    case AfterLevel(blocks, size) => LoopTest(t, blocks / 2, 2 * size)
    case Last => Finished
  }

  /** The test of `while (merge_blocks > 1)`. */
  function LoopTest(t: nat, blocks: nat, size: nat): PC {
    if blocks > 1 then MergeTest(blocks, size, t) else Ready(Last)
  }

  function BeginSort(c: Config, s: State, t: nat, block: nat, junk: seq<Index>): State
    requires t < |s.pc|
  {
    SetPC(s, t, Sorting(block, Slot(s.window, block, c.size)))
    .(window := SetSlot(s.window, block, c.size, junk))
  }

  function EndSort(c: Config, s: State, t: nat, block: nat, input: seq<Index>): State
    requires t < |s.pc|
  {
    SetPC(s, t, TryLock)
    .(window := SetSlot(s.window, block, c.size, c.qsort(input)), sortedBy := s.sortedBy[block := t])
  }

  /** One turn of the loop in `find_next_free_block`. */
  function ScanStep(c: Config, s: State, t: nat, i: nat): State
    requires WellFormed(c, s) && t < c.threads
  {
    SetPC(s, t, if i >= c.blocks then NoneFree else if s.blockMap[i] == 0 then Claim(i) else Scan(i + 1))
  }

  function MarkStep(c: Config, s: State, t: nat, block: nat): State
    requires WellFormed(c, s) && t < c.threads && block < c.blocks
  {
    SetPC(s, t, Marked(block)).(blockMap := s.blockMap[block := 1], claimedBy := s.claimedBy[block := t])
  }

  /** One turn of the loop over pairs: merge, skip, or leave for the barrier. */
  function MergeTestStep(c: Config, s: State, t: nat, blocks: nat, size: nat, id: nat, junk: seq<Index>): State
    requires t < |s.pc|
  {
    if id >= blocks / 2 then SetPC(s, t, Ready(AfterLevel(blocks, size)))
    else if t < blocks / 2 then
      SetPC(s, t, Merging(blocks, size, id, Slot(s.window, 2 * id, size), Slot(s.window, 2 * id + 1, size)))
      .(window := SetSlot(s.window, id, 2 * size, junk))
    else SetPC(s, t, MergeTest(blocks, size, id + c.threads))
  }

  function EndMerge(c: Config, s: State, t: nat, blocks: nat, size: nat, id: nat,
                    left: seq<Index>, right: seq<Index>): State
    requires t < |s.pc|
  {
    SetPC(s, t, MergeTest(blocks, size, id + c.threads))
    .(window := SetSlot(s.window, id, 2 * size, MergeRuns(left, right)))
  }

  /** What thread `t` does next; `junk` is what a sort or merge leaves behind while it runs. */
  function Step(c: Config, s: State, t: nat, junk: seq<Index>): (s': State)
    requires ValidConfig(c) && WellFormed(c, s) && Enabled(c, s, t)
    ensures WellFormed(c, s')
  {
    match s.pc[t]
    case Spawn(next) => SpawnStep(c, s, t, next)
    case Ready(wait) => ArriveStep(c, s, t, wait)
    case Blocked(wait, _) => SetPC(s, t, AfterWait(c, t, wait))
    case SortOwn => BeginSort(c, s, t, t, junk)
    case TryLock => SetPC(s, t, Scan(0)).(mutex := Some(t))
    case Scan(i) => ScanStep(c, s, t, i)
    case Claim(block) => MarkStep(c, s, t, block)
    case Marked(block) => SetPC(s, t, SortNext(block)).(mutex := None)
    case NoneFree => SetPC(s, t, Ready(PreMerge)).(mutex := None)
    case SortNext(block) => BeginSort(c, s, t, block, junk)
    case Sorting(block, input) => EndSort(c, s, t, block, input)
    case MergeTest(blocks, size, id) => MergeTestStep(c, s, t, blocks, size, id, junk)
    case Merging(blocks, size, id, left, right) => EndMerge(c, s, t, blocks, size, id, left, right)
  }

  ghost predicate Next(c: Config, s: State, s': State)
    requires ValidConfig(c)
  {
    WellFormed(c, s) && exists t: nat, junk: seq<Index> :: Enabled(c, s, t) && s' == Step(c, s, t, junk)
  }

  /** A run of the team from the moment main starts to create it. */
  ghost predicate IsRun(c: Config, window: seq<Index>, run: seq<State>) {
    && ValidConfig(c) && |window| == c.blocks * c.size
    && run != [] && run[0] == Start(c, window)
    && forall i | 0 <= i < |run| - 1 :: Next(c, run[i], run[i + 1])
  }

  ghost predicate AllFinished(s: State) {
    forall t | 0 <= t < |s.pc| :: s.pc[t] == Finished
  }
}
