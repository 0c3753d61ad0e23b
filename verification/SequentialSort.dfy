/** The program with a team of one: its loops over the file as an array. */
module SequentialSort {
  import opened Records
  import opened Merging
  import opened Windows
  import opened Levels
  import opened ParallelSort
  import opened SortInvariant
  import opened FileSort
  import opened MergePhases

  /** `find_next_free_block`: the first free block, or -1. */
  method FindNextFreeBlock(blockMap: array<int>) returns (next: int)
    ensures -1 <= next < blockMap.Length
    ensures next == -1 ==> TakenTo(blockMap[..], blockMap.Length)
    ensures next >= 0 ==> blockMap[next] == 0 && TakenTo(blockMap[..], next)
  {
    for i := 0 to blockMap.Length
      invariant TakenTo(blockMap[..], i)
    {
      if blockMap[i] == 0 {
        return i;
      }
    }
    return -1;
  }

  /** The library sort, in place on `n` records from `lo`. */
  method QsortInPlace(a: array<Index>, lo: nat, n: nat, qsort: Qsort)
    requires lo + n <= a.Length
    modifies a
    ensures a[..] == old(a[..lo]) + qsort(old(a[lo..lo + n])) + old(a[lo + n..])
  {
    hide *;
    ghost var was := a[..];
    var sorted := qsort(a[lo..lo + n]);
    QsortLength(qsort, a[lo..lo + n]);
    forall i | 0 <= i < n {
      a[lo + i] := sorted[i];
    }
    Spliced(was, a[..], lo, n, sorted);
  }

  lemma Spliced(was: seq<Index>, now: seq<Index>, lo: nat, n: nat, v: seq<Index>)
    requires |now| == |was| && |v| == n && lo + n <= |was|
    requires forall i | 0 <= i < n :: now[lo + i] == v[i]
    requires forall i | 0 <= i < |was| && !(lo <= i < lo + n) :: now[i] == was[i]
    ensures now == was[..lo] + v + was[lo + n..]
  {
    var r := was[..lo] + v + was[lo + n..];
    forall i | 0 <= i < |was| ensures now[i] == r[i] {
      if lo <= i < lo + n {
        assert now[lo + (i - lo)] == v[i - lo];
      }
    }
  }

  lemma Replaced(head: seq<Index>, w: seq<Index>, lo: nat, o: nat, n: nat, v: seq<Index>)
    requires o + n <= |w| && |v| == n && lo == |head| + o
    ensures (head + w)[lo..lo + n] == w[o..o + n]
    ensures (head + w)[..lo] + v + (head + w)[lo + n..] == head + (w[..o] + v + w[o + n..])
  {
    assert (head + w)[..lo] == head + w[..o];
    assert (head + w)[lo + n..] == w[o + n..];
    assert head + w[..o] + v + w[o + n..] == head + (w[..o] + v + w[o + n..]);
  }

  /** A block of a window `w` behind `head`, sorted in place. */
  lemma Placed(s: seq<Index>, head: seq<Index>, w: seq<Index>, lo: nat, b: nat, n: nat, v: seq<Index>)
    requires s == head + w && Off(b, n) + n <= |w| && |v| == n && lo == |head| + b * n
    ensures lo + n <= |s| && s[lo..lo + n] == Slot(w, b, n)
    ensures s[..lo] + v + s[lo + n..] == head + SetSlot(w, b, n, v)
  {
    hide *;
    OffIsProduct(b, n);
    SlotIs(w, b, n);
    SetSlotIs(w, b, n, v);
    Replaced(head, w, lo, Off(b, n), n, v);
  }

  /** Sorting one more block of the window; those before it are sorted already. */
  method QsortBlock(a: array<Index>, start: nat, b: nat, size: nat, qsort: Qsort,
                    ghost head: seq<Index>, ghost w: seq<Index>)
    requires |head| == start && a[..] == head + SortBlocks(qsort, w, b, size) && Off(b, size) + size <= |w|
    modifies a
    ensures a[..] == head + SortBlocks(qsort, w, b + 1, size)
  {
    hide *;
    ghost var v, x := SortBlocks(qsort, w, b, size), qsort(Slot(w, b, size));
    BlockInPlace(qsort, w, b, size);
    var lo := start + b * size;
    Placed(a[..], head, v, lo, b, size, x);
    QsortInPlace(a, lo, size, qsort);
  }

  /** The blocks before `b` sorted, block `b` is as it was, and sorting it is the next step. */
  lemma BlockInPlace(qsort: Qsort, w: seq<Index>, b: nat, size: nat)
    requires Off(b, size) + size <= |w|
    ensures Slot(SortBlocks(qsort, w, b, size), b, size) == Slot(w, b, size)
    ensures |qsort(Slot(w, b, size))| == size
    ensures SortBlocks(qsort, w, b + 1, size)
         == SetSlot(SortBlocks(qsort, w, b, size), b, size, qsort(Slot(w, b, size)))
  {
    hide Off;
    hide Slot;
    hide SetSlot;
    SlotLength(w, b, size);
    QsortLength(qsort, Slot(w, b, size));
    SortBlocksSlots(qsort, w, b, size);
    TailSlot(w, SortBlocks(qsort, w, b, size), Off(b, size), b, size);
  }

  /** Exactly the first `n` blocks are marked. */
  ghost predicate MarkedTo(m: seq<int>, n: nat) {
    n <= |m| && forall b | 0 <= b < |m| :: m[b] != 0 <==> b < n
  }

  lemma FirstFree(m: seq<int>, n: nat, next: nat)
    requires MarkedTo(m, n) && next <= |m| && TakenTo(m, next)
    requires next < |m| ==> m[next] == 0
    ensures next == n
  {
    assert TakenTo(m, n);
    forall k: nat | n < k <= |m| ensures !TakenTo(m, k) {
      assert m[n] == 0;
    }
  }

  /** The section of `sort_thread` under `map_mutex`: find a free block and mark it. */
  method ClaimNext(blockMap: array<int>, ghost n: nat) returns (next: int)
    requires MarkedTo(blockMap[..], n)
    modifies blockMap
    ensures next == if n < blockMap.Length then n else -1
    ensures MarkedTo(blockMap[..], if n < blockMap.Length then n + 1 else n)
  {
    next := FindNextFreeBlock(blockMap);
    FirstFree(blockMap[..], n, if next == -1 then blockMap.Length else next);
    if next == -1 {
      return;
    }
    blockMap[next] := 1;
  }

  lemma NoBlockYet(qsort: Qsort, w: seq<Index>, size: nat)
    ensures SortBlocks(qsort, w, 0, size) == w
  {
  }

  /** The block loop of `sort_thread`: its own block, then every block still free. */
  method SortLoop(a: array<Index>, blockMap: array<int>, start: nat, size: nat, qsort: Qsort,
                  ghost head: seq<Index>, ghost w: seq<Index>)
    requires |head| == start && a[..] == head + w && Off(blockMap.Length, size) <= |w|
    requires blockMap.Length > 0 && MarkedTo(blockMap[..], 1)
    modifies a, blockMap
    ensures a[..] == head + SortBlocks(qsort, w, blockMap.Length, size)
  {
    hide *;
    ghost var blocks := blockMap.Length;
    NoBlockYet(qsort, w, size);
    SlotFits(0, blocks, size);
    QsortBlock(a, start, 0, size, qsort, head, w);
    ghost var n := 1;
    var next := ClaimNext(blockMap, n);
    while next != -1
      invariant 1 <= n <= blocks && next == if n < blocks then n else -1
      invariant MarkedTo(blockMap[..], if n < blocks then n + 1 else n)
      invariant a[..] == head + SortBlocks(qsort, w, n, size)
      decreases blocks - n
    {
      SlotFits(n, blocks, size);
      assert next == n;
      QsortBlock(a, start, next, size, qsort, head, w);
      n := next + 1;
      next := ClaimNext(blockMap, n);
    }
  }

  // ----- what lies behind a window does not matter to it

  lemma SlotPrefix(x: seq<Index>, y: seq<Index>, i: nat, n: nat)
    requires Off(i, n) + n <= |x|
    ensures Slot(x + y, i, n) == Slot(x, i, n)
  {
    hide Off;
  }

  lemma SetSlotPrefix(x: seq<Index>, y: seq<Index>, i: nat, n: nat, v: seq<Index>)
    requires Off(i, n) + n <= |x|
    ensures SetSlot(x + y, i, n, v) == SetSlot(x, i, n, v) + y
  {
    hide Off;
    ReplacedPrefix(x, y, Off(i, n), n, v);
  }

  lemma ReplacedPrefix(x: seq<Index>, y: seq<Index>, o: nat, n: nat, v: seq<Index>)
    requires o + n <= |x|
    ensures (x + y)[..o] + v + (x + y)[o + n..] == x[..o] + v + x[o + n..] + y
  {
    assert (x + y)[..o] == x[..o];
    assert (x + y)[o + n..] == x[o + n..] + y;
    assert x[..o] + v + (x[o + n..] + y) == x[..o] + v + x[o + n..] + y;
  }

  lemma {:induction false} SortBlocksPrefix(qsort: Qsort, x: seq<Index>, y: seq<Index>, n: nat, size: nat)
    requires Off(n, size) <= |x|
    ensures SortBlocks(qsort, x + y, n, size) == SortBlocks(qsort, x, n, size) + y
  {
    hide SetSlot;
    hide Slot;
    if n > 0 {
      SortBlocksPrefix(qsort, x, y, n - 1, size);
      SlotPrefix(x, y, n - 1, size);
      SetSlotPrefix(SortBlocks(qsort, x, n - 1, size), y, n - 1, size, qsort(Slot(x, n - 1, size)));
    }
  }

  lemma {:induction false} LevelStepPrefix(x: seq<Index>, y: seq<Index>, pairs: nat, size: nat)
    requires Off(pairs, 2 * size) <= |x|
    ensures LevelStep(x + y, pairs, size) == LevelStep(x, pairs, size) + y
  {
    hide SetSlot;
    hide Slot;
    hide MergeRuns;
    if pairs > 0 {
      var p, v := pairs - 1, LevelStep(x, pairs - 1, size);
      LevelStepPrefix(x, y, p, size);
      OffDouble(p, size);
      SlotPrefix(v, y, 2 * p, size);
      SlotPrefix(v, y, 2 * p + 1, size);
      SetSlotPrefix(v, y, p, 2 * size, MergeRuns(Slot(v, 2 * p, size), Slot(v, 2 * p + 1, size)));
    }
  }

  lemma {:induction false} AllLevelsPrefix(x: seq<Index>, y: seq<Index>, blocks: nat, size: nat)
    requires Off(blocks, size) <= |x|
    ensures AllLevels(x + y, blocks, size) == AllLevels(x, blocks, size) + y
    decreases blocks
  {
    hide LevelStep;
    if blocks > 1 {
      OffHalved(blocks, size);
      LevelStepPrefix(x, y, blocks / 2, size);
      AllLevelsPrefix(LevelStep(x, blocks / 2, size), y, blocks / 2, 2 * size);
    }
  }

  // ----- the merge loops of `sort_thread`

  /** Its inner loop, with the stride `threads`, for a team of one. */
  method ThreadPairs(file: array<Index>, tmpStart: int64, threadId: int32, threads: int32,
                     mergeBlocks: int32, tmpBlockSize: int32,
                     ghost m: nat, ghost size: nat, ghost head: seq<Index>, ghost w: seq<Index>)
    requires threadId == 0 && threads == 1
    requires mergeBlocks as int == m && tmpBlockSize as int == size * RECORD_BYTES && size > 0
    requires Off(m, size) <= |w| && Off(m, size) * RECORD_BYTES < 0x8000_0000
    requires tmpStart as int == RECORD_BYTES * |head| <= 0x7FFF_FFFF_0000_0000 && file[..] == head + w
    modifies file
    ensures file[..] == head + LevelStep(w, m / 2, size)
  {
    assert LevelStep(w, 0, size) == w;
    hide *;
    var tmpId := threadId;
    ghost var n := 0;
    while tmpId < mergeBlocks / 2
      invariant 0 <= tmpId as int == n <= m / 2
      invariant file[..] == head + LevelStep(w, n, size)
    {
      if threadId < mergeBlocks / 2 {
        MergePairInBytes(file, tmpStart, tmpId, tmpBlockSize, n, m, size, head, w);
      }
      tmpId, n := tmpId + threads, n + 1;
    }
    assert n == m / 2;
  }

  /** Its outer loop; the barriers hold up nobody. */
  method MergePhase(file: array<Index>, tmpStart: int64, threadId: int32, threads: int32,
                    blockNum: int32, blockSize: int32,
                    ghost blocks: nat, ghost size: nat, ghost head: seq<Index>, ghost w: seq<Index>)
    requires threadId == 0 && threads == 1
    requires blockNum as int == blocks && blockSize as int == size * RECORD_BYTES && size > 0
    requires Off(blocks, size) <= |w| && Off(blocks, size) * RECORD_BYTES < 0x8000_0000
    requires tmpStart as int == RECORD_BYTES * |head| <= 0x7FFF_FFFF_0000_0000 && file[..] == head + w
    modifies file
    ensures file[..] == head + AllLevels(w, blocks, size)
  {
    hide *;
    var mergeBlocks, tmpBlockSize := blockNum, blockSize;
    ghost var m, s, v := blocks, size, w;
    while mergeBlocks > 1
      invariant mergeBlocks as int == m && tmpBlockSize as int == s * RECORD_BYTES && s > 0
      invariant Off(m, s) <= Off(blocks, size) && |v| == |w|
      invariant file[..] == head + v
      invariant AllLevels(v, m, s) == AllLevels(w, blocks, size)
      decreases m
    {
      OneLevel(v, m, s);
      DoubledFits(m, s, Off(blocks, size), tmpBlockSize as int);
      ThreadPairs(file, tmpStart, threadId, threads, mergeBlocks, tmpBlockSize, m, s, head, v);
      v := LevelStep(v, m / 2, s);
      OffHalved(m, s);
      tmpBlockSize := tmpBlockSize * 2;
      mergeBlocks := mergeBlocks / 2;
      m, s := m / 2, 2 * s;
    }
    NoLevel(v, m, s);
  }

  lemma DoubledFits(m: nat, size: nat, records: nat, bytes: int)
    requires m > 1 && Off(m, size) <= records && records * RECORD_BYTES < 0x8000_0000 && bytes == size * RECORD_BYTES
    ensures Off(m, size) * RECORD_BYTES < 0x8000_0000
    ensures 0 <= bytes * 2 == (2 * size) * RECORD_BYTES < 0x8000_0000
  {
    SlotFits(1, m, size);
  }

  lemma NoLevel(w: seq<Index>, m: nat, size: nat)
    requires m <= 1
    ensures AllLevels(w, m, size) == w
  {
  }

  /** What a team of one makes of the window `x` between `head` and `y`. */
  method SortWindow(c: Config, file: array<Index>, blockMap: array<int>, start: nat,
                    ghost head: seq<Index>, ghost x: seq<Index>, ghost y: seq<Index>)
    requires blockMap.Length == c.blocks > 0 && MarkedTo(blockMap[..], 1)
    requires |head| == start && |x| == Memsize(c) && file[..] == head + (x + y) && c.size > 0
    requires |x| * RECORD_BYTES < 0x8000_0000 && start * RECORD_BYTES <= 0x7FFF_FFFF_0000_0000
    modifies file, blockMap
    ensures file[..] == head + (WindowResult(c.qsort, x, c.blocks, c.size) + y)
  {
    WindowWidths(c, |x|);
    ghost var sorted := SortBlocks(c.qsort, x, c.blocks, c.size);
    assert WindowResult(c.qsort, x, c.blocks, c.size) == AllLevels(sorted, c.blocks, c.size);
    assert start * RECORD_BYTES == start * 16;
    hide *;
    SortLoop(file, blockMap, start, c.size, c.qsort, head, x + y);
    SortBlocksPrefix(c.qsort, x, y, c.blocks, c.size);
    MergePhase(file, (start * 16) as int64, 0, 1, c.blocks as int32, (c.size * 16) as int32,
               c.blocks, c.size, head, sorted + y);
    AllLevelsPrefix(sorted, y, c.blocks, c.size);
  }

  /** The block count and the block size in bytes are int values. */
  lemma WindowWidths(c: Config, records: nat)
    requires c.blocks > 0 && c.size > 0 && records == Memsize(c) && records * RECORD_BYTES < 0x8000_0000
    ensures Off(c.blocks, c.size) == records
    ensures c.blocks < 0x8000_0000 && c.size * 16 == c.size * RECORD_BYTES < 0x8000_0000
  {
    OffIsProduct(c.blocks, c.size);
    OffGrows(c.blocks, c.size);
    SlotFits(0, c.blocks, c.size);
  }

  // ----- main's loop over the windows

  lemma {:induction false} SortedWindowsTail(c: Config, records: seq<Index>, n: nat)
    requires Off(n, Memsize(c)) <= |records|
    ensures SortedWindows(c, records, n)[Off(n, Memsize(c))..] == records[Off(n, Memsize(c))..]
  {
    hide SetSlot;
    hide Slot;
    hide WindowResult;
    if n > 0 {
      var m, v := Memsize(c), SortedWindows(c, records, n - 1);
      SortedWindowsTail(c, records, n - 1);
      SetSlotTail(v, n - 1, m, WindowResult(c.qsort, Slot(records, n - 1, m), c.blocks, c.size), n);
      DropDrop(records, v, Off(n - 1, m), Off(n, m));
    }
  }

  /** The records `w` around window `n`, before and after a team worked on it. */
  lemma NextWindow(c: Config, records: seq<Index>, n: nat, m: nat, o: nat,
                   w: seq<Index>, x: seq<Index>, y: seq<Index>, r: seq<Index>)
    requires m == Memsize(c) && o == Off(n, m) && o + m <= |records|
    requires w == SortedWindows(c, records, n) && x == records[o..o + m] && y == records[o + m..]
    requires r == WindowResult(c.qsort, x, c.blocks, c.size)
    ensures w == w[..o] + (x + y)
    ensures SortedWindows(c, records, n + 1) == w[..o] + (r + y)
  {
    hide WindowResult;
    assert SortedWindows(c, records, n + 1) == SetSlot(w, n, m, r);
    SortedWindowsTail(c, records, n);
    hide *;
    SetSlotIs(w, n, m, r);
    DropDrop(records, w, o, o + m);
    Around(records, w, o, m, r);
  }

  lemma Around(records: seq<Index>, w: seq<Index>, o: nat, m: nat, r: seq<Index>)
    requires o + m <= |records| == |w| && w[o..] == records[o..]
    ensures w == w[..o] + (records[o..o + m] + records[o + m..])
    ensures w[..o] + r + records[o + m..] == w[..o] + (r + records[o + m..])
  {
    assert records[o..] == records[o..o + m] + records[o + m..];
    assert w == w[..o] + w[o..];
  }

  method ClearMap(blockMap: array<int>)
    requires blockMap.Length > 0
    modifies blockMap
    ensures MarkedTo(blockMap[..], 1)
  {
    for i := 0 to blockMap.Length
      invariant forall b | 0 <= b < i :: blockMap[b] == 0
    {
      blockMap[i] := 0;
    }
    blockMap[0] := 1;
  }

  /** One turn of main's loop. */
  method NextTurn(c: Config, file: array<Index>, blockMap: array<int>, start: nat, ghost win: nat,
                  ghost head: seq<Index>, ghost records: seq<Index>)
    requires blockMap.Length == c.blocks > 0
    requires |head| == 1 && start == 1 + Off(win, Memsize(c)) && Off(win, Memsize(c)) + Memsize(c) <= |records|
    requires file[..] == head + SortedWindows(c, records, win)
    requires c.size > 0 && Memsize(c) * RECORD_BYTES < 0x8000_0000
    requires (1 + |records|) * RECORD_BYTES <= 0x7FFF_FFFF_0000_0000
    modifies file, blockMap
    ensures file[..] == head + SortedWindows(c, records, win + 1)
  {
    hide Slot;
    hide SortedWindows;
    hide WindowResult;
    hide MarkedTo;
    ghost var m, w := Memsize(c), SortedWindows(c, records, win);
    ghost var o := Off(win, m);
    ghost var x, y := records[o..o + m], records[o + m..];
    ghost var r := WindowResult(c.qsort, x, c.blocks, c.size);
    NextWindow(c, records, win, m, o, w, x, y, r);
    ClearMap(blockMap);
    assert head + (w[..o] + (x + y)) == head + w[..o] + (x + y);
    SortWindow(c, file, blockMap, start, head + w[..o], x, y);
    assert head + (w[..o] + (r + y)) == head + w[..o] + (r + y);
  }

  lemma NoWindowYet(c: Config, records: seq<Index>, m: nat)
    requires c.blocks > 0 && c.size > 0 && m == Memsize(c)
    ensures SortedWindows(c, records, 0) == records && Off(0, m) == 0 < m
  {
  }

  /** Main's do-while loop. */
  method SortWindows(c: Config, file: array<Index>, blockMap: array<int>, ghost windows: nat,
                     ghost head: seq<Index>, ghost records: seq<Index>)
    requires blockMap.Length == c.blocks > 0 && c.size > 0 && windows > 0
    requires |head| == 1 && |records| == Off(windows, Memsize(c)) && file[..] == head + records
    requires Memsize(c) * RECORD_BYTES < 0x8000_0000 && (1 + |records|) * RECORD_BYTES <= 0x7FFF_FFFF_0000_0000
    modifies file, blockMap
    ensures file[..] == head + SortedWindows(c, records, windows)
  {
    ghost var m, win := Memsize(c), 0;
    NoWindowYet(c, records, m);
    assert |file[..]| == file.Length;
    hide *;
    var tmpStart, countSortIndex := 1, 0;
    while true
      invariant win < windows && countSortIndex == Off(win, m) && tmpStart == 1 + countSortIndex
      invariant file[..] == head + SortedWindows(c, records, win)
      decreases windows - win
    {
      SlotFits(win, windows, m);
      NextTurn(c, file, blockMap, tmpStart, win, head, records);
      LastWindow(win, windows, m);
      win := win + 1;
      countSortIndex, tmpStart := countSortIndex + Memsize(c), tmpStart + Memsize(c);
      if countSortIndex == file.Length - 1 {
        assert win == windows;
        return;
      }
    }
  }

  /** The lengths of a file of whole windows. */
  lemma FileShape(c: Config, file: seq<Index>, windows: nat, m: nat)
    requires ValidFile(c, file, windows) && m == Memsize(c)
    ensures c.blocks > 0 && c.size > 0 && windows > 0 && m > 0
    ensures |file[1..]| == Off(windows, m) && file == file[..1] + file[1..]
    ensures m <= |file| - 1 && (m == |file| - 1 <==> windows == 1)
  {
    assert c.blocks * c.size > 0;
    hide Memsize;
    OffIsProduct(windows, m);
    OneWindow([], windows, m);
  }

  /** What the last merge starts from, and what it leaves. */
  lemma Ends(c: Config, file: seq<Index>, windows: nat, m: nat, whole: seq<Index>)
    requires |file| > 0 && windows > 0 && m == Memsize(c)
    requires whole == file[..1] + SortedWindows(c, file[1..], windows)
    ensures |whole| == |file|
    ensures FileResult(c, file, windows) == whole[..1] + AllLevels(whole[1..], windows, m)
    ensures windows == 1 ==> FileResult(c, file, windows) == whole
  {
    hide SortedWindows;
    hide Memsize;
    assert whole[..1] == file[..1] && whole[1..] == SortedWindows(c, file[1..], windows);
  }

  /** The last merge of `windows` windows. */
  method MergeWindows(file: array<Index>, filesize: int64, memsize: int64, ghost windows: nat, ghost m: nat)
    requires file.Length >= 1 && filesize as int == RECORD_BYTES * file.Length && m == memsize as int
    requires 0 < m <= file.Length - 1 && (file.Length - 1) * RECORD_BYTES < 0x8000_0000
    requires windows > 0 && file.Length - 1 == Off(windows, m)
    modifies file
    ensures file[..] == old(file[..1]) + AllLevels(old(file[1..]), windows, m)
  {
    OffIsProduct(windows, m);
    OneWindow([], windows, m);
    assert (file.Length - 1) / memsize as int == windows;
    LastMerge(file, filesize, memsize);
  }

  /** `main` from the first window to the last merge. */
  method SortFile(c: Config, file: array<Index>, blockMap: array<int>, filesize: int64, memsize: int64,
                  ghost windows: nat)
    requires ValidFile(c, file[..], windows) && memsize as int == Memsize(c) && blockMap.Length == c.blocks
    requires filesize as int == RECORD_BYTES * file.Length && (file.Length - 1) * RECORD_BYTES < 0x8000_0000
    modifies file, blockMap
    ensures file[..] == FileResult(c, old(file[..]), windows)
  {
    ghost var was, m: nat := file[..], memsize as int;
    assert |was| == file.Length && filesize as int == 16 * file.Length;
    FileShape(c, was, windows, m);
    hide *;
    SortWindows(c, file, blockMap, windows, was[..1], was[1..]);
    Ends(c, was, windows, m, file[..]);
    if memsize as int * 16 != filesize as int - 16 {
      MergeWindows(file, filesize, memsize, windows, m);
    }
  }
}
