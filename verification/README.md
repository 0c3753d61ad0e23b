# Verified models of the labs

Dafny models of the three concurrent programs of this repository, with proofs of
what they are for:

* **The index file sorter** (`Lab6/main.c`). A team of threads sorts the blocks of
  one window, claims further blocks from a shared map under a mutex, and merges
  pairs of blocks level by level between barriers; `main` slides the window over
  the file and `lastMerge` merges the windows. The files `Records` to
  `SequentialSort` hold, from bottom to top: the merge routine on an array, the
  two sequential merge loops (record positions and byte offsets), the runs left by
  dropping odd blocks, the thread team as a step system with its invariant,
  schedule independence, race freedom and progress, the whole program and that it
  always ends, the exact condition under which it sorts, and the same program
  written as loops over an array for a team of one. A qsort or a merge is not
  atomic in the step system: it begins by taking its input and leaving arbitrary
  records in its stretch, and ends later by storing its result.
* **The resizable message queue** (`Lab5`). `Rings` is the ring buffer as a value
  with its plain queue, `MessageQueue` and `SlotQueue` the same code on objects whose
  fields and buffer change in place, `Monitor` the mutex and condition variables with
  sleeping, woken and running threads, `SemaphoreQueue` the semaphore variant, and
  `Messages` the padded length and the checksum.
* **The record editor** (`Lab7/main.c`). `RecordLocks` is a step system over
  records, lock table and processes in which records travel byte by byte;
  `RecordLocksProofs` holds its invariant and results, `RecordSources` where the
  record a writer remembers came from and since when it has held the lock, and
  `RecordExits` what each operation has done by the time it is over; `RecordFile` is the same three operations on the bytes of the file, in place.

Three promises of the code turn out to hold only under a condition, and the exact
condition is proved each time: a file comes out sorted whatever it holds if and
only if the block count and the window count are powers of two
(`SortsEveryFileIff`); growing the queue keeps its contents unless the ring is
full with at least one slot, and only then (`GrowExact`); shrinking keeps them unless
the messages start at slot 0 of a ring of two slots or more and exactly the last slot
is free, and only then (`ShrinkExact`).

## Conventions

* `qsort` is any function from a block to a sorted permutation of it; nothing is
  said about the order of equal keys, only that equal blocks give equal results.
  `time_mark` is a real number, `recno` an integer.
* Header and record are both 16 bytes, so a file is a sequence whose cell 0 is the
  header. `Off(i, n)` is `i * n` by repeated addition.
* The sorter relies on `1 <= threads <= blockNum` (the range check at
  `Lab6/main.c:214-217` is commented out and line 237 indexes `blockMap[i]`) and on
  a positive whole number of windows (the loop at line 253 tests with `!=`). Both
  are preconditions; nothing else is.
* The record editor relies on valid record numbers (`Lab7/main.c:146` stores the
  number before it is rejected) and on `g` and `r` before `s`. Any answer but `n`
  saves, although the prompt asks for `y` (`Lab7/main.c:98-104`).
* `merge_all` is not called by the program; the thread team and `lastMerge` are
  both proved to compute what it computes.
* The fields `empty` and `full` of `Lab5/lab5_2.c:17-18` are condition variables,
  not the semaphores their comments speak of.
* `produced`, `consumed`, `claimedBy`, `sortedBy`, `waits`, `versions`, `saves`, `got`,
  `source` and `version` record history; no step depends on them.

## Model

| member | source | states |
|---|---|---|
| Merging.Merge | Lab6/main.c:70-89 | in place on an array: the stretch of both runs becomes their merge, everything before and behind it is unchanged |
| Merging.MergeIntoTemp | Lab6/main.c:71-85 | the three index loops fill `temp` with exactly the merge of the two runs, wherever they lie |
| Merging.Drain | Lab6/main.c:80-85 | what is left of one run is appended to what `temp` already holds |
| Merging.CopyBack | Lab6/main.c:87 | only the copied stretch changes |
| Merging.MergePermutes | Lab6/main.c:70-89 | no record is lost or made up |
| Merging.MergeSorts | Lab6/main.c:70-89 | two runs sorted by `compare_index_s` merge into a sorted one |
| Merging.MergeIsRightBiased | Lab6/main.c:73-79 | the records of each key come from the second run first, each run keeping its own order |
| Records.ComparesByKey | Lab6/main.c:49-56 | swapping the records turns the comparison round, and a sequence is sorted by it if and only if its keys never fall |
| Merging.SortedUnique | Lab6/main.c:49-56 | a sorted sequence is fixed by its records of each key, so sortedness and the right bias determine the merge completely |
| Levels.LevelStepSlots | Lab6/main.c:94-96 | merging the pairs of a level one after another gives each pair the merge of the runs it held when the level began, and leaves the rest alone |
| Levels.LevelFits | Lab6/main.c:134-150 | the pairs of every level lie inside the window, for every block count |
| Levels.LevelCount | Lab6/main.c:134-150 | the loop makes exactly `Log2(blockNum)` turns |
| Levels.Log2Floor | Lab6/main.c:134-150 | and that is the logarithm rounded down |
| MergePhases.MergeAll | Lab6/main.c:91-100 | the loop in record positions computes all levels and touches nothing before its start |
| MergePhases.MergeLevel | Lab6/main.c:94-96 | the inner loop computes one level |
| MergePhases.PairOffsets | Lab6/main.c:163-167 | from any start of the data, the int products and the pointer arithmetic give the byte positions of the two runs, without overflow |
| MergePhases.MergePairInBytes | Lab6/main.c:139-145 | one pair found by byte offsets, in `sort_thread` as in `lastMerge`, is the next pair of the level |
| MergePhases.OffsetsFit | Lab6/main.c:163-171 | each pair and each doubled size stays inside the data in bytes |
| MergePhases.LastMergeLevel | Lab6/main.c:162-170 | one level in byte offsets is the same level in records |
| MergePhases.WindowBytes | Lab6/main.c:159-160 | the quotient is the number of whole windows and both narrowings to int lose nothing |
| MergePhases.LastMerge | Lab6/main.c:158-174 | with at most 2^31-1 bytes of data: the header stays, and the records become what `merge_all` makes of them; every int and long value is in range |
| BinaryRuns.RunsAreBinaryDigits | Lab6/main.c:97 | the runs left by halving with an odd block dropped are the binary digits of the block count, from high to low |
| BinaryRuns.SingleRun | Lab6/main.c:97 | one run is left if and only if the block count is a power of two |
| BinaryRuns.IsPow2Iff | Lab6/main.c:150 | those are the numbers that doubling 1 gives |
| BinaryRuns.LevelRuns | Lab6/main.c:93-99 | all levels cut the window into sorted permutations of those lengths |
| BinaryRuns.WindowRuns | Lab6/main.c:111-151 | the same for blocks first sorted one by one |
| BinaryRuns.TwoRunsUnsorted | Lab6/main.c:97 | records in falling order stay unsorted whenever two runs or more are left |
| SortThreads.ArriveThreads | Lab6/main.c:108-153 | a barrier opens exactly when the whole team waits in it, all at the same call |
| SortThreads.TeamBlocks | Lab6/main.c:230-247 | when the first barrier opens, exactly the blocks of the team are marked |
| SortRecords.StepInv | Lab6/main.c:103-155 | every step of every thread keeps the full invariant of team, claims, map and window |
| SortTheorems.ScheduleIndependence | Lab6/main.c:91-155 | for every team size and interleaving the finished window is `merge_all` of the sorted blocks, and each thread has waited floor(log2 blockNum) + 3 times |
| SortTheorems.SameWindow | Lab6/main.c:103-155 | two teams of different sizes under different schedules leave the same window |
| SortTheorems.FinishedRuns | Lab6/main.c:134-151 | the finished window is cut into sorted runs that are the binary digits of blockNum; sorted as a whole for a power of two |
| SortTheorems.RaceFreedom | Lab6/main.c:111-147 | two threads inside qsort or merge are in the same phase and level, on disjoint stretches inside the window |
| SortTheorems.PhasesApart | Lab6/main.c:108-151 | while one thread merges a level no other is in another level, still sorting or done; barrier counts differ by at most one |
| SortTheorems.ClaimOnce | Lab6/main.c:112-243 | a block is marked, by a claimer as by main for each thread it creates and for itself, only while nobody has it, and sorted only by the one thread that has it |
| SortTheorems.ClaimsStand | Lab6/main.c:112-128 | over a run a marked block stays with its thread and a sorted one stays sorted by that thread; with `ClaimOnce` and `BlocksCovered`, every block is marked and sorted by exactly one thread |
| SortTheorems.BlocksCovered | Lab6/main.c:58-131 | from the first barrier on the marked blocks are a prefix; once the second opens every block has been sorted by its claimer |
| SortTheorems.ThreadOffsetsFit | Lab6/main.c:111-150 | with at most 2^31-1 bytes in the window every int offset of every thread stays in range, and so does every doubled size, also of a thread without a pair |
| SortProgress.NoDeadlock | Lab6/main.c:103-155 | in every reachable unfinished state some thread has a step |
| SortProgress.StepMeasure | Lab6/main.c:103-155 | every step lowers a natural number |
| SortProgress.RunsEnd | Lab6/main.c:103-155 | so the number of steps is bounded by the measure of the start |
| FileSort.ProgramRunInv | Lab6/main.c:229-255 | in every state the finished windows are as their teams left them, the others untouched, and at the end the file is `FileResult` |
| FileSort.ClosedResult | Lab6/main.c:195-255 | at the end of a run the header is kept and the records are a permutation of the old ones, sorted if both counts are powers of two |
| ProgramProgress.NeverStuck | Lab6/main.c:229-255 | as long as the file is not closed, some thread, the next turn of the loop or the last merge has a step |
| ProgramProgress.ProgramRunsEnd | Lab6/main.c:229-255 | the length of every run of the program is bounded by a number fixed by the configuration and the window count |
| ProgramProgress.EndToEnd | Lab6/main.c:195-255 | every run is bounded and can go on until the file is closed, and then `ClosedResult` holds |
| ProgramProgress.Completes | Lab6/main.c:229-255 | every run can be carried on to one that closes the file |
| FileSort.SameFile | Lab6/main.c:195-255 | two runs of the program on one file end with the same file, whatever their team sizes and schedules |
| FileSort.FileRuns | Lab6/main.c:254-255 | for any window count the records are cut into runs that are its binary digits |
| FileSortExact.SortsEveryFileIff | Lab6/main.c:229-255 | every file comes out sorted if and only if both counts are powers of two |
| FileSortExact.WorstUnsorted | Lab6/main.c:150 | a file that stays unsorted for every other block count |
| FileSortExact.FallingUnsorted | Lab6/main.c:172 | a file that stays unsorted for every other window count |
| SequentialSort.FindNextFreeBlock | Lab6/main.c:58-67 | the first free block, or -1 if and only if there is none |
| SequentialSort.ClaimNext | Lab6/main.c:115-126 | under the mutex the first free block is found and marked |
| SequentialSort.SortLoop | Lab6/main.c:111-131 | for a team of one: all blocks sorted, nothing else changed |
| SequentialSort.ThreadPairs | Lab6/main.c:137-147 | for a team of one: the pair loop with its stride `threads` and its int byte offsets computes one level |
| SequentialSort.MergePhase | Lab6/main.c:134-151 | for a team of one: the loop over the levels computes what `merge_all` computes, without overflow |
| SequentialSort.SortWindow | Lab6/main.c:103-155 | for a team of one: the window becomes what every team makes of it, the rest of the file stays |
| SequentialSort.SortWindows | Lab6/main.c:229-253 | the do-while loop visits every window once, in order |
| SequentialSort.SortFile | Lab6/main.c:195-255 | the whole program on the file in place leaves `FileResult`, the value every run of the step system ends in |
| Messages.PaddedLength | Lab5/functions.c:22-24 | the length allocated is the least multiple of four that holds the size, 256 for size byte 0 |
| Messages.GenerateDataMessage | Lab5/functions.c:21-29 | the buffer has the padded length and holds bytes 33 to 125 |
| Messages.GenerateMessage | Lab5/functions.c:39-51 | the 16-bit loop yields the plain sum of type, size and padded data |
| Messages.SumOfParts | Lab5/functions.c:46-48 | the sum counts every byte once, wherever the data is cut |
| Messages.ChecksumNeverWraps | Lab5/functions.c:45-49 | that sum is at most 32338, and no finished message looks like a cleared slot |
| Rings.PutAppends | Lab5/lab5_2.c:52-58 | storing a message appends it to the queue |
| Rings.GetTakesOldest | Lab5/lab5_2.c:88-96 | taking one hands out the oldest, leaves the rest, and clears its slot to zeros and no other |
| Rings.GrowExact | Lab5/lab5_2.c:126-137 | growing keeps the queue if and only if the ring is not full (or has no slot) |
| Rings.ShrinkExact | Lab5/lab5_2.c:139-166 | shrinking keeps the queue if and only if it is not the state with head 0 and only the last slot free, sizes down to 0 included |
| Rings.GrowThenShrink | Lab5/lab5_2.c:126-166 | growing and then shrinking gives back the same queue and size, from every ring that may grow |
| Rings.ShrinkThenGrow | Lab5/lab5_2.c:126-166 | shrinking and then growing does so exactly when the shrunk ring is not full |
| Monitor.GrowBreaksRun | Lab5/lab5_2.c:126-137 | a run that fills a queue of one slot and then grows it breaks the queue |
| Monitor.ShrinkBreaksRun | Lab5/lab5_2.c:139-166 | a run that puts one message into a queue of two slots and then shrinks it breaks the queue |
| Rings.GrowFullExample | Lab5/lab5_2.c:131 | a full ring of two, grown, next hands out a slot nobody wrote |
| Rings.ShrinkExample | Lab5/lab5_2.c:144-151 | a ring of two, shrunk, has its `tail` behind the buffer |
| MessageQueues.MessageQueue.constructor | Lab5/lab5_2.c:29-39 | an empty queue of the given size, whatever the buffer holds |
| MessageQueues.MessageQueue.Add | Lab5/lab5_2.c:51-58 | in place: the ring becomes `Put` of the old one, the queue has the message at its end |
| MessageQueues.MessageQueue.Take | Lab5/lab5_2.c:87-96 | in place: the oldest message is returned and gone, its slot cleared |
| MessageQueues.MessageQueue.ShiftUp | Lab5/lab5_2.c:132-133 | the loop shifts the slots from `head` on into the new last slot |
| MessageQueues.MessageQueue.IncremSize | Lab5/lab5_2.c:126-137 | in place: one slot more; the queue is kept if and only if the ring was not full |
| MessageQueues.MessageQueue.CopyToFront | Lab5/lab5_2.c:145-146 | the overlapping copy loop moves the messages to slot 0 |
| MessageQueues.MessageQueue.MoveToFront | Lab5/lab5_2.c:147-150 | the loop ends with `head` 0 and `tail` moved by as much |
| MessageQueues.MessageQueue.CloseGap | Lab5/lab5_2.c:156-159 | the loop moves the messages behind the gap one slot down |
| MessageQueues.MessageQueue.DiscrSize | Lab5/lab5_2.c:139-166 | in place: one slot less unless full; the queue is kept if and only if it did not start in the bad state |
| Monitor.CountersAlways | Lab5/lab5_2.c:41-166 | over every run, wherever resizes happen: countAdd and countGet are the numbers of messages put in and taken, countAdd = countGet + countMsg, countMsg within the size, and no lost wakeup on either condition |
| Monitor.AsleepOnlyAtSizeZero | Lab5/lab5_2.c:46-60 | with producers and consumers present, all of them sleep only at size 0 |
| Monitor.ExclusiveAlways | Lab5/lab5_2.c:46-60 | at most one thread is inside the critical sections, waits and resizes included |
| Monitor.Linearizable | Lab5/lab5_2.c:41-166 | outside the two bad resizes: consumed messages followed by the ring are the produced ones in order |
| Monitor.Traffic | Lab5/lab5_2.c:43-100 | over every run: the messages put in are those the producers made, each once and by its producer, and those consumed are those handed out |
| Monitor.FirstInFirstOut | Lab5/lab5_2.c:41-166 | outside the two bad resizes, told by the events alone: messages handed out followed by the ring are those put in, in order |
| Monitor.ChecksumCarried | Lab5/lab5_2.c:87-96 | every message taken carries its right checksum and none is a cleared slot |
| Monitor.BadResizeBreaks | Lab5/lab5_2.c:126-166 | at any resize of a run so far free of bad ones, the queue is kept if and only if that resize is not a bad one |
| Monitor.NotStuck | Lab5/lab5_2.c:41-166 | in every run, bad resizes included: while there is a slot and both kinds of worker, some thread goes on without spurious wakeup or user |
| SlotQueues.SlotQueue.constructor | Lab5/lab5_1.c:27-36 | an empty queue, whatever the buffer holds |
| SlotQueues.SlotQueue.Store | Lab5/lab5_1.c:46-51 | in place, without a counter: the ring becomes `Put` of the old one and the message stands at the end of the queue |
| SlotQueues.SlotQueue.Load | Lab5/lab5_1.c:85-91 | in place, without a counter: the oldest message is returned and gone, its slot cleared |
| SemaphoreQueue.SlotsConserved | Lab5/lab5_1.c:27-94 | empty + full + threads in flight on both sides is the queue size, always |
| SemaphoreQueue.ExclusiveAlways | Lab5/lab5_1.c:45-54 | only the holder of the mutex touches the ring, and the mutex is held only to do so |
| SemaphoreQueue.NotStuck | Lab5/lab5_1.c:38-94 | with producers and consumers present some thread can always go on |
| SemaphoreQueue.AccessesAreSafe | Lab5/lab5_1.c:43-94 | each write lands in a free slot and does what `Store` does, each read takes the oldest unread message and does what `Load` does |
| SemaphoreQueue.Traffic | Lab5/lab5_1.c:40-94 | over every run: the messages written are those the producers made, each once and by its producer, and each read consumes one |
| SemaphoreQueue.FirstInFirstOut | Lab5/lab5_1.c:38-94 | told by the events alone: what was read is the beginning of what was written |
| SemaphoreQueue.Linearizable | Lab5/lab5_1.c:38-94 | the ring holds exactly the messages produced and not yet consumed, in order, and never more than its size |
| RecordLocks.SameFieldsIff | Lab7/main.c:93-95 | the comparison holds if and only if name and address agree byte by byte up to and with the first terminator, and the semester too |
| RecordLocksProofs.NoLostUpdate | Lab7/main.c:77-118 | the completed writes of a record form one chain; each replaced the version before it, which was shown to the writer and not refused if and only if its fields differed from what the writer remembered |
| RecordExits.SaveEnds | Lab7/main.c:106-107 | at the end of a save the file holds the text of the writer's session, there is exactly one save more, by this writer and of this text, and none of another record |
| RecordExits.SaveLeaves | Lab7/main.c:84-118 | the only other ways out of a save are a refusal, which takes over what was shown, and a lock that could not be had |
| RecordExits.WaitEnds | Lab7/main.c:25-87 | a wait for a lock ends in the operation it is for, or, if the lock cannot be had, with nothing changed |
| RecordExits.SaveUnlocks | Lab7/main.c:109-117 | after the write the lock is given back, unless that fails |
| RecordExits.SessionIs | Lab7/main.c:144-159 | record number, remembered record and text are those of the last `g`, of what was read or shown last, and of the last edit or refusal |
| RecordExits.MenuBegins | Lab7/main.c:140-163 | each choice begins the operation it names, a save on the current record; leaving drops all locks |
| RecordExits.ReadEnds | Lab7/main.c:52-66 | a single-record read ends only with the whole record, in its last completed version, and gives its lock back unless that fails |
| RecordExits.PrintEnds | Lab7/main.c:30-43 | the whole-file read keeps its lines and ends only with all records of the file, each in its last completed version, and gives its locks back unless that fails |
| RecordExits.OperationsEnd | Lab7/main.c:17-118 | every step of its own brings an operation nearer to its end |
| RecordExits.CanGoOn | Lab7/main.c:17-118 | a process can always go on, or, waiting for a lock, as soon as nobody holds one against it |
| RecordExits.OnlyWhenFree | Lab7/main.c:25-84 | a lock is granted only then |
| RecordSources.RememberedVersion | Lab7/main.c:45-66 | what a writer remembered is a completed version of some record; of the record it writes, and no later than what it replaces, if its last `g` got its lock |
| RecordSources.GetDecides | Lab7/main.c:144-152 | a `g` with its lock leaves number and record together; one without leaves the new number and the old record |
| RecordSources.LockHeldSince | Lab7/main.c:77-107 | over a run: a process inside a save has held the write lock without a break since the first byte it compared, and replaces what it found then |
| RecordLocksProofs.WriterIsAlone | Lab7/main.c:80-107 | while a process writes a record nobody else holds a lock there, reads it, compares it or writes it |
| RecordLocksProofs.ReadIsOneVersion | Lab7/main.c:45-66 | a single-record read, byte by byte, is one completed version, the current one |
| RecordLocksProofs.PrintIsSnapshot | Lab7/main.c:17-43 | the whole-file read is all records as they stand at one instant, each a completed version |
| RecordFiles.RangeOf | Lab7/main.c:46-51 | the range locked for record r starts at byte 161 r and is 161 bytes long |
| RecordFiles.RangesDisjoint | Lab7/main.c:46-51 | the ranges of different records do not meet |
| RecordFiles.ByteOfRecord | Lab7/main.c:46-56 | byte i of the file is byte i mod 161 of record i / 161 |
| RecordFiles.RecordFile.PrintAllFile | Lab7/main.c:30-34 | the read loop returns every record once, in order |
| RecordFiles.RecordFile.GetRecordNumb | Lab7/main.c:45-66 | the record at that number; the range unlocked relative to the moved offset is the range locked |
| RecordFiles.RecordFile.SaveRecord | Lab7/main.c:77-118 | refused exactly when the fields differ and the answer is 'n', then both copies take over the file's record and the lock stays; otherwise that record and no other byte is overwritten |

## Left out

- Thread cancellation and `cleanup_handler` in `Lab5`: the handler may unlock a mutex its thread does not hold. The set of workers is fixed over a run, as those that exist at its last state.
- Resizing in `Lab5/lab5_1.c`: the queue there is modelled at a fixed size. The rings of `Lab5/lab5_2.c` are the ones that grow and shrink.
- After an access outside the buffer nothing is said about the ring; the counters and wakeups are still followed. The counters are unbounded.
- `SemaphoreQueue`, `Monitor`, `ParallelSort` and `RecordLocks` are step systems on values: interleaving is captured there, update in place in the classes and array methods beside them.
- The random generators and `generateRandSize` with its zero case (`Lab5/functions.c:15`): any size byte 0 to 255 and any random numbers are allowed.
- Failing or under-sized allocation, shared mapping, NaN keys, and the fixed thread arrays (`MAX_THREADS`, `MAX_CHILD`).
- The checks of arguments at `Lab6/main.c:180-208`, which only reject; what they let through is in the preconditions.
- SequentialSort.QsortInPlace: the library sort is one assignment of its result, because its inner steps are not part of this model.
- RecordLocks: a string without terminator within its 80 bytes compares by those 80 bytes, where `strcmp` would read on; a short `read` or `write` does not occur.
- RecordLocksProofs.NoLostUpdate: safety only; the answer 'n' returns with the lock held (`Lab7/main.c:101-104`), so other processes may wait for ever.
- Lab1 to Lab4, Lab8, the file generators and readers, menus, printing and sleeps.
