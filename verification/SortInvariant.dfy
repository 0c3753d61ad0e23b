/** What holds in every reachable state of the thread team. */
module SortInvariant {
  import opened Options
  import opened Records
  import opened Windows
  import opened Levels
  import opened ParallelSort

  /** How often the barrier opens for one window: once before, once after sorting, once a level, once at the end. */
  function FinalGen(c: Config): nat {
    Log2(c.blocks) + 3
  }

  /** The barrier call that belongs to generation `g`. */
  function WaitOf(c: Config, g: nat): Wait {
    if g == 0 then First
    else if g == 1 then PreMerge
    else if LevelBlocks(c.blocks, g - 2) > 1 then
      AfterLevel(LevelBlocks(c.blocks, g - 2), LevelSize(c.size, g - 2))
    else Last
  }

  ghost predicate AtLevel(c: Config, g: nat, blocks: nat, size: nat) {
    g >= 2 && blocks == LevelBlocks(c.blocks, g - 2) && size == LevelSize(c.size, g - 2) && blocks > 1
  }

  // ----- threads and the barrier

  /** The thread whose turn pair `p` is: thread t takes t, t + threads, t + 2 threads, and so on. */
  function Owner(p: nat, threads: nat): (t: nat)
    requires threads > 0
    ensures t < threads && t <= p
  {
    if p < threads then p else Owner(p - threads, threads)
  }

  /** Which program points belong to which barrier generation. */
  ghost predicate PcOk(c: Config, s: State, t: nat)
    requires c.threads > 0 && |s.pc| == c.threads && t < c.threads
  {
    match s.pc[t]
    case Unborn => s.gen == 0 && t > 0 && s.pc[0].Spawn? && s.pc[0].next <= t
    case Spawn(next) =>
      && s.gen == 0 && t == 0 && 1 <= next <= c.threads
      && forall u | next <= u < c.threads :: s.pc[u] == Unborn
    case Ready(wait) => s.gen < FinalGen(c) && wait == WaitOf(c, s.gen)
    case Blocked(wait, at) => at < FinalGen(c) && wait == WaitOf(c, at) && (at == s.gen || at + 1 == s.gen)
    case MergeTest(blocks, size, id) => AtLevel(c, s.gen, blocks, size) && Owner(id, c.threads) == t
    case Merging(blocks, size, id, _, _) =>
      AtLevel(c, s.gen, blocks, size) && Owner(id, c.threads) == t && id < blocks / 2
    case Finished => s.gen == FinalGen(c)
    case Scan(i) => s.gen == 1 && i <= c.blocks
    case _ => s.gen == 1
  }

  ghost predicate WaitsAt(pc: PC, g: nat) {
    pc.Blocked? && pc.at == g
  }

  function CountAt(pc: seq<PC>, g: nat): (n: nat)
    ensures n <= |pc|
  {
    if pc == [] then 0
    else CountAt(pc[..|pc| - 1], g) + if pc[|pc| - 1].Blocked? && pc[|pc| - 1].at == g then 1 else 0
  }

  ghost predicate ThreadsOk(c: Config, s: State) {
    && ValidConfig(c) && WellFormed(c, s)
    && s.gen <= FinalGen(c)
    && s.arrived == CountAt(s.pc, s.gen) < c.threads
    && (forall t: nat | t < c.threads :: PcOk(c, s, t))
    && (forall t: nat | t < c.threads :: s.waits[t] == if WaitsAt(s.pc[t], s.gen) then s.gen + 1 else s.gen)
  }

  lemma {:induction false} CountUpdate(pc: seq<PC>, t: nat, v: PC, g: nat)
    requires t < |pc|
    ensures CountAt(pc[t := v], g) + (if WaitsAt(pc[t], g) then 1 else 0)
         == CountAt(pc, g) + (if WaitsAt(v, g) then 1 else 0)
  {
    var n := |pc| - 1;
    var r := pc[t := v];
    if t < n {
      CountUpdate(pc[..n], t, v, g);
      assert r[..n] == pc[..n][t := v];
    } else {
      assert r[..n] == pc[..n];
    }
  }

  lemma {:induction false} CountAll(pc: seq<PC>, g: nat)
    ensures CountAt(pc, g) == |pc| <==> forall t | 0 <= t < |pc| :: WaitsAt(pc[t], g)
    ensures CountAt(pc, g) == 0 <==> forall t | 0 <= t < |pc| :: !WaitsAt(pc[t], g)
  {
    if pc != [] {
      var n := |pc| - 1;
      CountAll(pc[..n], g);
      assert forall t | 0 <= t < n :: pc[..n][t] == pc[t];
    }
  }

  // ----- which thread is responsible for which block

  /** Thread `t` has block `b` to sort and has not finished it. */
  ghost predicate Holds(pc: PC, t: nat, b: nat) {
    match pc
    case Ready(First) => b == t
    case Blocked(First, _) => b == t
    case SortOwn => b == t
    case Marked(block) => b == block
    case SortNext(block) => b == block
    case Sorting(block, _) => b == block
    case _ => false
  }

  /** Claims are marked in the map, and sorted blocks are claimed by whoever sorted them. */
  ghost predicate HistoryOk(c: Config, s: State)
    requires WellFormed(c, s)
  {
    && (forall b: nat | b < c.blocks :: s.blockMap[b] != 0 <==> b in s.claimedBy)
    && (forall b | b in s.claimedBy :: b < c.blocks && s.claimedBy[b] < c.threads)
    && (forall b | b in s.sortedBy :: b in s.claimedBy && s.sortedBy[b] == s.claimedBy[b])
    && (s.gen == 0 ==> s.sortedBy == map[])
  }

  /** A thread has to sort only what is claimed for it. */
  ghost predicate HeldOk(c: Config, s: State)
    requires WellFormed(c, s)
  {
    forall t: nat, b: nat | t < c.threads && Holds(s.pc[t], t, b) ::
      b in s.claimedBy && s.claimedBy[b] == t && b !in s.sortedBy
  }

  /** What is claimed for a thread and not sorted, it has to sort. */
  ghost predicate OpenOk(c: Config, s: State)
    requires WellFormed(c, s)
  {
    forall b | b in s.claimedBy && b !in s.sortedBy && s.claimedBy[b] < c.threads ::
      Holds(s.pc[s.claimedBy[b]], s.claimedBy[b], b)
  }

  ghost predicate ClaimsOk(c: Config, s: State)
    requires WellFormed(c, s)
  {
    HistoryOk(c, s) && HeldOk(c, s) && OpenOk(c, s)
  }

  // ----- the block map and its mutex

  ghost predicate InCritical(pc: PC) {
    pc.Scan? || pc.Claim? || pc.Marked? || pc.NoneFree?
  }

  ghost predicate TakenTo(m: seq<int>, n: nat) {
    n <= |m| && forall j | 0 <= j < n :: m[j] != 0
  }

  ghost predicate Prefix(m: seq<int>) {
    forall i, j | 0 <= i < j < |m| && m[j] != 0 :: m[i] != 0
  }

  ghost predicate ScanOk(m: seq<int>, pc: PC) {
    match pc
    case Scan(i) => TakenTo(m, i)
    case Claim(b) => b < |m| && m[b] == 0 && TakenTo(m, b)
    case NoneFree => TakenTo(m, |m|)
    case Ready(PreMerge) => TakenTo(m, |m|)
    case Blocked(PreMerge, _) => TakenTo(m, |m|)
    case _ => true
  }

  ghost predicate MapOk(c: Config, s: State)
    requires WellFormed(c, s)
  {
    && (s.mutex.Some? ==> s.mutex.value < c.threads && InCritical(s.pc[s.mutex.value]))
    && (forall t: nat | t < c.threads && InCritical(s.pc[t]) :: s.mutex == Some(t))
    && (forall t: nat | t < c.threads :: ScanOk(s.blockMap, s.pc[t]))
    && (s.gen >= 1 ==> Prefix(s.blockMap))
    && (s.gen >= 2 ==> TakenTo(s.blockMap, |s.blockMap|))
  }

  // ----- the records

  /** A block while the team sorts: as it was, being worked on, or sorted. */
  ghost predicate BlockOk(c: Config, w: seq<Index>, s: State, b: nat)
    requires WellFormed(c, s)
  {
    if b in s.sortedBy then BlockSorted(c.qsort, s.window, w, b, c.size)
    else if b in s.claimedBy && s.claimedBy[b] < c.threads && s.pc[s.claimedBy[b]].Sorting? then
      s.pc[s.claimedBy[b]].input == Slot(w, b, c.size)
    else Slot(s.window, b, c.size) == Slot(w, b, c.size)
  }

  /** Whether the thread whose turn pair `p` is has merged it in this level. */
  ghost predicate PairDone(g: nat, pc: PC, p: nat) {
    match pc
    case MergeTest(_, _, id) => p < id
    case Merging(_, _, id, _, _) => p < id
    case Ready(_) => true
    case Blocked(_, at) => at == g
    case _ => false
  }

  /** A pair of blocks while the team merges a level that began as `base`. */
  ghost predicate PairOk(c: Config, base: seq<Index>, size: nat, s: State, p: nat)
    requires c.threads > 0 && WellFormed(c, s)
  {
    var pc := s.pc[Owner(p, c.threads)];
    if PairDone(s.gen, pc, p) then PairMerged(s.window, base, p, size)
    else if pc.Merging? && pc.id == p then
      pc.left == Slot(base, 2 * p, size) && pc.right == Slot(base, 2 * p + 1, size)
    else Slot(s.window, p, 2 * size) == Slot(base, p, 2 * size)
  }

  /** The window as it stood when merge level `k` began. */
  function Base(c: Config, w: seq<Index>, k: nat): (r: seq<Index>)
    ensures |r| == |w|
  {
    LevelBase(SortBlocks(c.qsort, w, c.blocks, c.size), c.blocks, c.size, k)
  }

  ghost predicate LevelOk(c: Config, base: seq<Index>, s: State, blocks: nat, size: nat)
    requires c.threads > 0 && WellFormed(c, s)
  {
    && |base| == |s.window| && Off(blocks / 2, 2 * size) <= |base|
    && s.window[Off(blocks / 2, 2 * size)..] == base[Off(blocks / 2, 2 * size)..]
    && forall p: nat | p < blocks / 2 :: PairOk(c, base, size, s, p)
  }

  ghost predicate WindowOk(c: Config, w: seq<Index>, s: State)
    requires c.threads > 0 && WellFormed(c, s)
  {
    && |s.window| == |w| == Off(c.blocks, c.size)
    && (s.gen == 0 ==> s.window == w)
    && (s.gen == 1 ==> forall b: nat | b < c.blocks :: BlockOk(c, w, s, b))
    && (s.gen >= 2 ==>
          LevelOk(c, Base(c, w, s.gen - 2), s, LevelBlocks(c.blocks, s.gen - 2), LevelSize(c.size, s.gen - 2)))
  }

  ghost predicate Inv(c: Config, w: seq<Index>, s: State) {
    ThreadsOk(c, s) && ClaimsOk(c, s) && MapOk(c, s) && WindowOk(c, w, s)
  }

  lemma StartOk(c: Config, w: seq<Index>)
    requires ValidConfig(c) && |w| == c.blocks * c.size
    ensures Inv(c, w, Start(c, w))
  {
    hide Off;
    var s := Start(c, w);
    CountAll(s.pc, 0);
    OffIsProduct(c.blocks, c.size);
  }
}
