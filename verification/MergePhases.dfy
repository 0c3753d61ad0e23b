/** The two sequential merge loops, over record positions and over byte offsets. */
module MergePhases {
  import opened Records
  import opened Merging
  import opened Windows
  import opened Levels

  newtype int32 = x: int | -0x8000_0000 <= x < 0x8000_0000
  newtype int64 = x: int | -0x8000_0000_0000_0000 <= x < 0x8000_0000_0000_0000

  /** `sizeof(index_s)`; the header `index_hdr_s` has the same size. */
  const RECORD_BYTES := 16

  /** The pair that begins at record `o`, merged in place. */
  function MergeAt(v: seq<Index>, o: nat, size: nat): seq<Index>
    requires o + 2 * size <= |v|
  {
    v[..o] + MergeRuns(v[o..o + size], v[o + size..o + 2 * size]) + v[o + 2 * size..]
  }

  lemma MergeAtIs(v: seq<Index>, o: nat, size: nat)
    requires o + 2 * size <= |v|
    ensures MergeAt(v, o, size)
         == v[..o] + MergeRuns(v[o..o + size], v[o + size..o + 2 * size]) + v[o + 2 * size..]
  {
  }

  lemma MergePairAt(v: seq<Index>, p: nat, size: nat)
    requires Off(p, 2 * size) + 2 * size <= |v|
    ensures MergePair(v, p, size) == MergeAt(v, Off(p, 2 * size), size)
  {
    hide *;
    var o, x := Off(p, 2 * size), MergeRuns(Slot(v, 2 * p, size), Slot(v, 2 * p + 1, size));
    MergeAtIs(v, o, size);
    HalfSlots(v, p, size);
    MergePairIs(v, p, size, x);
    SetSlotIs(v, p, 2 * size, x);
  }

  /** One more pair of a level. */
  lemma NextPair(w: seq<Index>, p: nat, size: nat, m: nat)
    requires p < m / 2 && Off(m, size) <= |w|
    ensures Off(p, 2 * size) + 2 * size <= |w|
    ensures LevelStep(w, p + 1, size) == MergeAt(LevelStep(w, p, size), Off(p, 2 * size), size)
  {
    SlotFits(p, m / 2, 2 * size);
    OffHalved(m, size);
    MergePairAt(LevelStep(w, p, size), p, size);
  }

  /** The record positions the loops compute for a pair. */
  lemma PairPositions(p: nat, size: nat)
    ensures p * 2 * size == Off(p, 2 * size)
    ensures (p * 2 + 1) * size == Off(p, 2 * size) + size
  {
    OffIsProduct(p, 2 * size);
    assert p * 2 * size == p * (2 * size);
    assert (p * 2 + 1) * size == p * 2 * size + size;
  }

  lemma Neighbours(s: seq<Index>, start1: nat, start2: nat, count: nat, head: seq<Index>, v: seq<Index>, o: nat)
    requires s == head + v && o + 2 * count <= |v|
    requires start1 == |head| + o && start2 == |head| + o + count
    ensures s[..start1] + MergeRuns(s[start1..start1 + count], s[start2..start2 + count]) + s[start1 + 2 * count..]
         == head + MergeAt(v, o, count)
  {
    hide MergeRuns;
    var r := MergeRuns(v[o..o + count], v[o + count..o + 2 * count]);
    assert s[start1..start1 + count] == v[o..o + count] && s[start2..start2 + count] == v[o + count..o + 2 * count];
    assert s[..start1] == head + v[..o] && s[start1 + 2 * count..] == v[o + 2 * count..];
    assert head + v[..o] + r + v[o + 2 * count..] == head + (v[..o] + r + v[o + 2 * count..]);
  }

  /** A call of `Merge` on neighbouring runs of the records behind `head`. */
  method MergeNeighbours(a: array<Index>, start1: nat, start2: nat, count: nat,
                         ghost head: seq<Index>, ghost v: seq<Index>, ghost o: nat)
    requires a[..] == head + v && o + 2 * count <= |v|
    requires start1 == |head| + o && start2 == |head| + o + count
    modifies a
    ensures a[..] == head + MergeAt(v, o, count)
  {
    Neighbours(a[..], start1, start2, count, head, v, o);
    assert |a[..]| == a.Length;
    hide *;
    Merge(a, start1, start2, count);
  }

  /** `merge_all`: positions and sizes count records. */
  method MergeAll(a: array<Index>, start: nat, blocks: nat, blockSize: nat)
    requires start + blocks * blockSize <= a.Length
    modifies a
    ensures a[..] == old(a[..start]) + AllLevels(old(a[start..]), blocks, blockSize)
  {
    var m, mergeSize := blocks, blockSize;
    ghost var head, w := a[..start], a[start..];
    assert a[..] == head + w;
    OffIsProduct(blocks, blockSize);
    while m > 1
      invariant a[..] == head + w && |w| == a.Length - start
      invariant 0 <= m && 0 <= mergeSize && Off(m, mergeSize) <= |w|
      invariant AllLevels(w, m, mergeSize) == AllLevels(old(a[start..]), blocks, blockSize)
    {
      OneLevel(w, m, mergeSize);
      MergeLevel(a, start, m, mergeSize, head, w);
      w := LevelStep(w, m / 2, mergeSize);
      OffHalved(m, mergeSize);
      m, mergeSize := m / 2, 2 * mergeSize;
    }
  }

  /** The inner loop of `merge_all`. */
  method MergeLevel(a: array<Index>, start: nat, blocks: nat, mergeSize: nat,
                    ghost head: seq<Index>, ghost w: seq<Index>)
    requires |head| == start && a[..] == head + w && Off(blocks, mergeSize) <= |w|
    modifies a
    ensures a[..] == head + LevelStep(w, blocks / 2, mergeSize)
  {
    for i := 0 to blocks / 2
      invariant a[..] == head + LevelStep(w, i, mergeSize)
    {
      NextPair(w, i, mergeSize, blocks);
      PairPositions(i, mergeSize);
      MergeNeighbours(a, start + i * 2 * mergeSize, start + (i * 2 + 1) * mergeSize, mergeSize,
                      head, LevelStep(w, i, mergeSize), Off(i, 2 * mergeSize));
    }
  }

  lemma InBytes(i: nat, size: nat)
    ensures i * (size * RECORD_BYTES) == (i * size) * RECORD_BYTES
  {
  }

  /** The byte offsets of a pair stay inside the data, and so does the doubled size. */
  lemma OffsetsFit(id: nat, m: nat, size: nat, records: nat)
    requires Off(m, size) <= records && id < m / 2
    ensures Off(id, 2 * size) + 2 * size <= records
    ensures (2 * id) * (size * RECORD_BYTES) == RECORD_BYTES * Off(id, 2 * size)
    ensures (2 * id + 1) * (size * RECORD_BYTES) == RECORD_BYTES * (Off(id, 2 * size) + size)
    ensures size > 0 ==> 2 * id < records
  {
    OffHalved(m, size);
    SlotFits(id, m / 2, 2 * size);
    PairPositions(id, size);
    InBytes(2 * id, size);
    InBytes(2 * id + 1, size);
    if size > 0 {
      OffDouble(id, size);
      OffGrows(2 * id, size);
    }
  }

  lemma {:induction false} OffGrows(i: nat, size: nat)
    requires size > 0
    ensures i <= Off(i, size)
  {
    if i > 0 {
      OffGrows(i - 1, size);
    }
  }

  /** Where a pair begins, in bytes from `start`: int products, then pointer arithmetic. */
  method PairOffsets(start: int64, id: int32, bytes: int32, ghost m: nat, ghost size: nat, ghost records: nat)
    returns (startMerge1: int64, startMerge2: int64)
    requires 0 <= id as int < m / 2 && bytes as int == size * RECORD_BYTES && size > 0
    requires Off(m, size) <= records && records * RECORD_BYTES < 0x8000_0000
    requires 0 <= start as int <= 0x7FFF_FFFF_0000_0000
    ensures startMerge1 as int == start as int + RECORD_BYTES * Off(id as int, 2 * size)
    ensures startMerge2 as int == start as int + RECORD_BYTES * (Off(id as int, 2 * size) + size)
  {
    OffsetsFit(id as int, m, size, records);
    var block1: int32 := id * 2;
    var block2: int32 := block1 + 1;
    startMerge1 := start + (block1 * bytes) as int64;
    startMerge2 := start + (block2 * bytes) as int64;
  }

  /** One pair of a level of the records behind `head`, found by byte offsets as the program finds it. */
  method MergePairInBytes(file: array<Index>, start: int64, id: int32, bytes: int32,
                          ghost i: nat, ghost m: nat, ghost size: nat, ghost head: seq<Index>, ghost w: seq<Index>)
    requires id as int == i < m / 2 && bytes as int == size * RECORD_BYTES && size > 0
    requires Off(m, size) <= |w| && Off(m, size) * RECORD_BYTES < 0x8000_0000
    requires start as int == RECORD_BYTES * |head| <= 0x7FFF_FFFF_0000_0000
    requires file[..] == head + LevelStep(w, i, size)
    modifies file
    ensures file[..] == head + LevelStep(w, i + 1, size)
  {
    assert start >= 0;
    hide *;
    NextPair(w, i, size, m);
    var startMerge1, startMerge2 := PairOffsets(start, id, bytes, m, size, Off(m, size));
    InRecords(start as int, |head|, Off(i, 2 * size), startMerge1 as int);
    InRecords(start as int, |head|, Off(i, 2 * size) + size, startMerge2 as int);
    InRecords(0, 0, size, bytes as int);
    MergeNeighbours(file, startMerge1 as int / 16, startMerge2 as int / 16, bytes as int / 16,
                    head, LevelStep(w, i, size), Off(i, 2 * size));
  }

  lemma InRecords(start: int, n: nat, o: nat, bytes: int)
    requires start == RECORD_BYTES * n && bytes == start + RECORD_BYTES * o
    ensures bytes / 16 == n + o
  {
  }

  /** The inner loop of `lastMerge`. */
  method LastMergeLevel(file: array<Index>, blocks: int32, bytes: int32, ghost m: nat, ghost size: nat,
                        ghost head: seq<Index>, ghost w: seq<Index>)
    requires blocks as int == m && bytes as int == size * RECORD_BYTES && size > 0
    requires |head| == 1 && file[..] == head + w && Off(m, size) <= |w| && |w| * RECORD_BYTES < 0x8000_0000
    modifies file
    ensures file[..] == head + LevelStep(w, m / 2, size)
  {
    assert LevelStep(w, 0, size) == w;
    hide *;
    var id: int32 := 0;
    ghost var n := 0;
    while id < blocks / 2
      invariant 0 <= id as int == n <= m / 2
      invariant file[..] == head + LevelStep(w, n, size)
    {
      MergePairInBytes(file, 16, id, bytes, n, m, size, head, w);
      id, n := id + 1, n + 1;
    }
    assert n == m / 2;
  }

  /** How many whole windows the file holds, and the size of one, narrowed to int. */
  method WindowBytes(filesize: int64, memsize: int64, ghost records: nat) returns (blocks: int32, bytes: int32)
    requires filesize as int == RECORD_BYTES * (1 + records)
    requires 0 < memsize as int <= records && records * RECORD_BYTES < 0x8000_0000
    ensures blocks as int == records / memsize as int
    ensures bytes as int == memsize as int * RECORD_BYTES
    ensures Off(blocks as int, memsize as int) <= records
  {
    ghost var n, size: nat := records / memsize as int, memsize as int;
    assert n * size <= records < n * size + size;
    assert n * (size * 16) == (n * size) * 16;
    QuotientUnique(records * 16, size * 16, n);
    OffIsProduct(n, size);
    OffGrows(n, size);
    assert ((filesize - 16) / (memsize * 16)) as int == n;
    blocks := ((filesize - 16) / (memsize * 16)) as int32;
    bytes := (memsize * 16) as int32;
  }

  lemma QuotientUnique(a: nat, b: nat, q: nat)
    requires b > 0 && q * b <= a < q * b + b
    ensures a / b == q
  {
    var d := a / b;
    assert d * b <= a < d * b + b;
    assert d < q ==> (d + 1) * b <= q * b;
    assert q < d ==> (q + 1) * b <= d * b;
  }

  /**
   * `lastMerge`: offsets count bytes, and every intermediate value has the width
   * the program gives it. With at most 2^31-1 bytes of data none leaves its range.
   */
  method LastMerge(file: array<Index>, filesize: int64, memsize: int64)
    requires file.Length >= 1 && filesize as int == RECORD_BYTES * file.Length
    requires 0 < memsize as int <= file.Length - 1 && (file.Length - 1) * RECORD_BYTES < 0x8000_0000
    modifies file
    ensures file[..] == old(file[..1]) + AllLevels(old(file[1..]), (file.Length - 1) / memsize as int, memsize as int)
  {
    ghost var records := file.Length - 1;
    var blocks, bytes := WindowBytes(filesize, memsize, records);
    ghost var m, size: nat := records / memsize as int, memsize as int;
    ghost var head, w := file[..1], file[1..];
    assert file[..] == head + w;
    while blocks > 1
      invariant 0 <= m == blocks as int && 0 < size && bytes as int == size * RECORD_BYTES && Off(m, size) <= records
      invariant file[..] == head + w && |w| == records
      invariant AllLevels(w, m, size) == AllLevels(old(file[1..]), records / memsize as int, memsize as int)
      decreases m
    {
      OneLevel(w, m, size);
      LastMergeLevel(file, blocks, bytes, m, size, head, w);
      w := LevelStep(w, m / 2, size);
      OffHalved(m, size);
      OffsetsFit(0, m, size, records);
      bytes := bytes * 2;
      blocks := blocks / 2;
      m, size := m / 2, 2 * size;
    }
  }
}
