/** The whole program: a team for each window of the file, then `lastMerge`. */
module FileSort {
  import opened Records
  import opened Windows
  import opened Levels
  import opened BinaryRuns
  import opened ParallelSort
  import opened SortTheorems
  import MergePhases

  /** `memsize`: records in a window. */
  function Memsize(c: Config): nat {
    c.blocks * c.size
  }

  /**
   * Cell 0 of the file is the header. While a team works, `before` holds the header
   * and the `win` finished windows, `after` the windows to come.
   */
  datatype Program =
    | Team(win: nat, before: seq<Index>, team: State, after: seq<Index>)
    | Closed(file: seq<Index>)

  /** A header and a positive whole number of windows. */
  ghost predicate ValidFile(c: Config, file: seq<Index>, windows: nat) {
    ValidConfig(c) && c.size > 0 && windows > 0 && |file| > 0 && |file| - 1 == windows * Memsize(c)
  }

  /** Window by window: the first `n` windows of `records` as their teams leave them. */
  function SortedWindows(c: Config, records: seq<Index>, n: nat): (r: seq<Index>)
    ensures |r| == |records|
  {
    if n == 0 then records
    else SetSlot(SortedWindows(c, records, n - 1), n - 1, Memsize(c),
                 WindowResult(c.qsort, Slot(records, n - 1, Memsize(c)), c.blocks, c.size))
  }

  /** What the program makes of a file. */
  function FileResult(c: Config, file: seq<Index>, windows: nat): (r: seq<Index>)
    ensures |r| == |file|
  {
    if file == [] then []
    else file[..1] + AllLevels(SortedWindows(c, file[1..], windows), windows, Memsize(c))
  }

  ghost predicate Begins(c: Config, file: seq<Index>, p: Program)
    requires ValidConfig(c)
  {
    var m := Memsize(c);
    1 + m <= |file| && p == Team(0, file[..1], Start(c, file[1..1 + m]), file[1 + m..])
  }

  /** A step of the running team, the next turn of main's loop, or the last merge. */
  ghost predicate ProgramNext(c: Config, p: Program, p': Program)
    requires ValidConfig(c)
  {
    var m := Memsize(c);
    && p.Team?
    && (|| (&& p'.Team? && Next(c, p.team, p'.team)
            && p'.win == p.win && p'.before == p.before && p'.after == p.after)
        || (&& AllFinished(p.team) && p.after != [] && m <= |p.after|
            && p' == Team(p.win + 1, p.before + p.team.window, Start(c, p.after[..m]), p.after[m..]))
        || (AllFinished(p.team) && p.after == [] && p' == Closed(Finish(c, p.before + p.team.window))))
  }

  /** `lastMerge` runs unless there is one window only. */
  function Finish(c: Config, file: seq<Index>): seq<Index> {
    var m := Memsize(c);
    if |file| > 0 && m > 0 && |file| - 1 != m then
      file[..1] + AllLevels(file[1..], (|file| - 1) / m, m)
    else file
  }

  ghost predicate IsProgramRun(c: Config, file: seq<Index>, windows: nat, run: seq<Program>) {
    && ValidFile(c, file, windows) && run != [] && Begins(c, file, run[0])
    && forall i | 0 <= i < |run| - 1 :: ProgramNext(c, run[i], run[i + 1])
  }

  ghost predicate ProgramInv(c: Config, file: seq<Index>, windows: nat, p: Program) {
    && ValidFile(c, file, windows)
    && match p
       case Team(win, before, team, after) =>
         var m, records := Memsize(c), file[1..];
         && win < windows && Off(win, m) + m <= |records| == Off(windows, m)
         && before == file[..1] + SortedWindows(c, records, win)[..Off(win, m)]
         && after == records[Off(win, m) + m..]
         && Reachable(c, Slot(records, win, m), team)
       case Closed(result) => result == FileResult(c, file, windows)
  }

  lemma RunStep(c: Config, w: seq<Index>, s: State, s': State)
    requires Reachable(c, w, s) && ValidConfig(c) && Next(c, s, s')
    ensures Reachable(c, w, s')
  {
    hide Next;
    var run :| IsRun(c, w, run) && run[|run| - 1] == s;
    var longer := run + [s'];
    forall i | 0 <= i < |longer| - 1 ensures Next(c, longer[i], longer[i + 1]) {
      if i < |run| - 1 {
        assert Next(c, run[i], run[i + 1]);
      }
    }
    assert IsRun(c, w, longer) && longer[|longer| - 1] == s';
  }

  lemma StartReachable(c: Config, w: seq<Index>)
    requires ValidConfig(c) && |w| == Memsize(c)
    ensures Reachable(c, w, Start(c, w))
  {
    assert IsRun(c, w, [Start(c, w)]);
  }

  lemma BeginsOk(c: Config, file: seq<Index>, windows: nat, p: Program)
    requires ValidFile(c, file, windows) && Begins(c, file, p)
    ensures ProgramInv(c, file, windows, p)
  {
    hide Reachable;
    var m, records := Memsize(c), file[1..];
    OffIsProduct(windows, m);
    SlotFits(0, windows, m);
    assert Slot(records, 0, m) == file[1..1 + m];
    assert records[m..] == file[1 + m..];
    StartReachable(c, file[1..1 + m]);
  }

  /** A finished team has put its window where `SortedWindows` has it. */
  lemma WindowDone(c: Config, records: seq<Index>, win: nat, next: nat, s: State)
    requires next == win + 1 && Off(win, Memsize(c)) + Memsize(c) <= |records|
    requires Reachable(c, Slot(records, win, Memsize(c)), s) && AllFinished(s)
    ensures Off(next, Memsize(c)) == Off(win, Memsize(c)) + Memsize(c) <= |records|
    ensures SortedWindows(c, records, next)[..Off(next, Memsize(c))]
         == SortedWindows(c, records, win)[..Off(win, Memsize(c))] + s.window
  {
    hide *;
    var m := Memsize(c);
    var w, was := Slot(records, win, m), SortedWindows(c, records, win);
    SlotFits(win, next, m);
    SlotLength(records, win, m);
    ScheduleIndependence(c, w, s);
    OneWindowMore(c, records, win, next);
    SetSlotIs(was, win, m, s.window);
    assert (was[..Off(win, m)] + s.window + was[Off(win, m) + m..])[..Off(win, m) + m] == was[..Off(win, m)] + s.window;
  }

  lemma OneWindowMore(c: Config, records: seq<Index>, win: nat, next: nat)
    requires next == win + 1
    ensures SortedWindows(c, records, next)
         == SetSlot(SortedWindows(c, records, win), win, Memsize(c),
                    AllLevels(SortBlocks(c.qsort, Slot(records, win, Memsize(c)), c.blocks, c.size), c.blocks, c.size))
  {
    hide SetSlot;
    hide Slot;
    hide SortBlocks;
    hide AllLevels;
  }

  lemma LastWindow(win: nat, windows: nat, m: nat)
    requires win < windows && m > 0
    ensures win + 1 == windows <==> Off(win, m) + m == Off(windows, m)
  {
    if win + 1 < windows {
      SlotFits(win + 1, windows, m);
    }
  }

  lemma NextSlot(records: seq<Index>, o: nat, i: nat, m: nat)
    requires o == Off(i, m) && o + m <= |records|
    ensures records[o..][..m] == Slot(records, i, m) && records[o..][m..] == records[o + m..]
    ensures |Slot(records, i, m)| == m
  {
  }

  lemma PositiveMemsize(c: Config)
    requires c.blocks > 0 && c.size > 0
    ensures Memsize(c) > 0
  {
  }

  /** What the invariant says while a team works. */
  lemma TeamFacts(c: Config, file: seq<Index>, windows: nat, p: Program)
    requires ProgramInv(c, file, windows, p) && p.Team?
    ensures ValidConfig(c) && |file| > 0 && windows > 0 && Memsize(c) > 0
    ensures var m, records := Memsize(c), file[1..];
      && p.win < windows && Off(p.win, m) + m <= |records| == Off(windows, m)
      && p.before == file[..1] + SortedWindows(c, records, p.win)[..Off(p.win, m)]
      && p.after == records[Off(p.win, m) + m..]
      && Reachable(c, Slot(records, p.win, m), p.team)
  {
    hide Reachable;
    hide SortedWindows;
    hide Slot;
    hide Off;
    hide Memsize;
    PositiveMemsize(c);
  }

  lemma TeamInv(c: Config, file: seq<Index>, windows: nat, p: Program, records: seq<Index>, m: nat, o: nat)
    requires ValidFile(c, file, windows) && p.Team? && m == Memsize(c) && records == file[1..]
    requires p.win < windows && o == Off(p.win, m) && o + m <= |records| == Off(windows, m)
    requires p.before == file[..1] + SortedWindows(c, records, p.win)[..o]
    requires p.after == records[o + m..]
    requires Reachable(c, Slot(records, p.win, m), p.team)
    ensures ProgramInv(c, file, windows, p)
  {
    hide Memsize;
    hide Reachable;
    hide SortedWindows;
    hide Slot;
    hide Off;
  }

  lemma InvValid(c: Config, file: seq<Index>, windows: nat, p: Program)
    requires ProgramInv(c, file, windows, p)
    ensures ValidFile(c, file, windows) && |file| > 0
  {
    hide Reachable;
    hide SortedWindows;
  }

  lemma NextWindowOk(c: Config, file: seq<Index>, windows: nat, p: Program, p': Program)
    requires ProgramInv(c, file, windows, p) && p.Team? && AllFinished(p.team) && p.after != []
    requires ValidConfig(c) && Memsize(c) <= |p.after|
    requires p' == Team(p.win + 1, p.before + p.team.window, Start(c, p.after[..Memsize(c)]), p.after[Memsize(c)..])
    ensures ProgramInv(c, file, windows, p')
  {
    hide *;
    InvValid(c, file, windows, p);
    TeamFacts(c, file, windows, p);
    var m, records, next := Memsize(c), file[1..], p.win + 1;
    WindowDone(c, records, p.win, next, p.team);
    LastWindow(p.win, windows, m);
    SlotFits(next, windows, m);
    var o := Off(next, m);
    assert (file[..1] + SortedWindows(c, records, p.win)[..Off(p.win, m)]) + p.team.window
        == file[..1] + (SortedWindows(c, records, p.win)[..Off(p.win, m)] + p.team.window);
    NextSlot(records, o, next, m);
    StartReachable(c, p.after[..m]);
    TeamInv(c, file, windows, p', records, m, o);
  }

  lemma FinishOk(c: Config, file: seq<Index>, windows: nat, p: Program)
    requires ProgramInv(c, file, windows, p) && p.Team? && AllFinished(p.team) && p.after == []
    ensures Finish(c, p.before + p.team.window) == FileResult(c, file, windows)
  {
    hide *;
    InvValid(c, file, windows, p);
    TeamFacts(c, file, windows, p);
    var m, records := Memsize(c), file[1..];
    WindowDone(c, records, p.win, p.win + 1, p.team);
    LastWindow(p.win, windows, m);
    var r := SortedWindows(c, records, windows);
    assert r[..Off(windows, m)] == r;
    assert (file[..1] + SortedWindows(c, records, p.win)[..Off(p.win, m)]) + p.team.window == file[..1] + r;
    FinishIs(c, file, windows, r, p.before + p.team.window);
  }

  lemma FinishIs(c: Config, file: seq<Index>, windows: nat, r: seq<Index>, whole: seq<Index>)
    requires ValidFile(c, file, windows) && |file| > 0
    requires r == SortedWindows(c, file[1..], windows) && whole == file[..1] + r
    ensures Finish(c, whole) == FileResult(c, file, windows)
  {
    hide SortedWindows;
    hide AllLevels;
    hide Memsize;
    PositiveMemsize(c);
    assert whole[..1] == file[..1] && whole[1..] == r;
    OneWindow(r, windows, Memsize(c));
  }

  lemma OneWindow(r: seq<Index>, windows: nat, m: nat)
    requires windows > 0 && m > 0
    ensures windows * m == m <==> windows == 1
    ensures windows == 1 ==> AllLevels(r, windows, m) == r
    ensures (windows * m) / m == windows
  {
    MergePhases.QuotientUnique(windows * m, m, windows);
    assert windows > 1 ==> windows * m >= 2 * m;
  }

  lemma ProgramStep(c: Config, file: seq<Index>, windows: nat, p: Program, p': Program)
    requires ProgramInv(c, file, windows, p) && ProgramNext(c, p, p')
    ensures ProgramInv(c, file, windows, p')
  {
    hide Reachable;
    hide Next;
    hide SortedWindows;
    hide FileResult;
    hide Finish;
    if AllFinished(p.team) && p.after == [] && p'.Closed? {
      FinishOk(c, file, windows, p);
    } else if p'.Team? && Next(c, p.team, p'.team) && p'.win == p.win && p'.before == p.before && p'.after == p.after {
      RunStep(c, Slot(file[1..], p.win, Memsize(c)), p.team, p'.team);
    } else {
      NextWindowOk(c, file, windows, p, p');
    }
  }

  lemma {:induction false} ProgramRunInv(c: Config, file: seq<Index>, windows: nat, run: seq<Program>, i: nat)
    requires IsProgramRun(c, file, windows, run) && i < |run|
    ensures ProgramInv(c, file, windows, run[i])
  {
    hide ProgramInv;
    hide ProgramNext;
    if i == 0 {
      BeginsOk(c, file, windows, run[0]);
    } else {
      ProgramRunInv(c, file, windows, run, i - 1);
      assert ProgramNext(c, run[i - 1], run[i - 1 + 1]);
      ProgramStep(c, file, windows, run[i - 1], run[i]);
    }
  }

  // ----- end to end

  lemma {:induction false} SortedWindowsSlots(c: Config, records: seq<Index>, n: nat, w: nat)
    requires Off(n, Memsize(c)) <= |records| && w < n
    ensures Slot(SortedWindows(c, records, n), w, Memsize(c))
         == WindowResult(c.qsort, Slot(records, w, Memsize(c)), c.blocks, c.size)
  {
    hide Slot;
    hide SetSlot;
    hide WindowResult;
    var m := Memsize(c);
    var x := WindowResult(c.qsort, Slot(records, n - 1, m), c.blocks, c.size);
    SlotLength(records, n - 1, m);
    if w == n - 1 {
      SetSlotSame(SortedWindows(c, records, n - 1), n - 1, m, x);
    } else {
      SortedWindowsSlots(c, records, n - 1, w);
      SetSlotOther(SortedWindows(c, records, n - 1), n - 1, m, x, w);
    }
  }

  /** Each window is left as a permutation of itself, sorted if the block count is a power of two. */
  lemma SortedWindowsRuns(c: Config, records: seq<Index>, windows: nat)
    requires ValidConfig(c) && |records| == Off(windows, Memsize(c))
    ensures SlotsOf(SortedWindows(c, records, windows), records, windows, Memsize(c), IsPow2(c.blocks))
  {
    hide Slot;
    hide WindowResult;
    hide SortedWindows;
    hide RunsTo;
    hide RunExps;
    var m := Memsize(c);
    forall w: nat | w < windows
      ensures RunOf(Slot(SortedWindows(c, records, windows), w, m), Slot(records, w, m), IsPow2(c.blocks))
    {
      SlotFits(w, windows, m);
      SlotLength(records, w, m);
      SortedWindowsSlots(c, records, windows, w);
      var o := Slot(records, w, m);
      var r := WindowResult(c.qsort, o, c.blocks, c.size);
      WindowRuns(c.qsort, o, c.blocks, c.size);
      RunsPermute(r, o, |o|, RunExps(c.blocks, 0), c.size, true);
      assert r[..|o|] == r && o[..|o|] == o;
      SingleRun(c.blocks, 0);
      if IsPow2(c.blocks) {
        OneRun(r, o, RunExps(c.blocks, 0), c.size, true);
      }
    }
  }

  lemma SameResult(c: Config, d: Config, file: seq<Index>, windows: nat)
    requires d == c.(threads := d.threads)
    ensures FileResult(c, file, windows) == FileResult(d, file, windows)
  {
    hide AllLevels;
    SameWindows(c, d, file[if file == [] then 0 else 1..], windows);
  }

  lemma {:induction false} SameWindows(c: Config, d: Config, records: seq<Index>, n: nat)
    requires d == c.(threads := d.threads)
    ensures SortedWindows(c, records, n) == SortedWindows(d, records, n)
  {
    hide Slot;
    hide SetSlot;
    hide WindowResult;
    if n > 0 {
      SameWindows(c, d, records, n - 1);
    }
  }

  /** Two runs of the program on one file end with the same file, whatever their teams and schedules. */
  lemma SameFile(c: Config, d: Config, file: seq<Index>, windows: nat,
                 run: seq<Program>, i: nat, other: seq<Program>, j: nat)
    requires d == c.(threads := d.threads)
    requires IsProgramRun(c, file, windows, run) && i < |run| && run[i].Closed?
    requires IsProgramRun(d, file, windows, other) && j < |other| && other[j].Closed?
    ensures run[i].file == other[j].file
  {
    hide IsProgramRun;
    hide FileResult;
    hide Reachable;
    ProgramRunInv(c, file, windows, run, i);
    ProgramRunInv(d, file, windows, other, j);
    SameResult(c, d, file, windows);
  }

  /** The runs `lastMerge` leaves, in windows. */
  lemma FileRuns(c: Config, file: seq<Index>, windows: nat)
    requires ValidFile(c, file, windows)
    ensures FileResult(c, file, windows)[..1] == file[..1]
    ensures RunsTo(FileResult(c, file, windows)[1..], file[1..], |file| - 1, RunExps(windows, 0), Memsize(c),
                   IsPow2(c.blocks))
  {
    hide SortedWindows;
    hide AllLevels;
    hide RunsTo;
    hide RunExps;
    hide SlotsOf;
    var m, records := Memsize(c), file[1..];
    OffIsProduct(windows, m);
    SortedWindowsRuns(c, records, windows);
    var base := SortedWindows(c, records, windows);
    assert LevelSize(m, 0) == m;
    LevelRuns(base, records, windows, 0, m, IsPow2(c.blocks));
    assert FileResult(c, file, windows)[1..] == AllLevels(base, windows, m);
  }

  /**
   * At the end of a run the header is untouched and the records are a permutation of
   * the old ones, sorted when both counts are powers of two.
   */
  lemma ClosedResult(c: Config, file: seq<Index>, windows: nat, run: seq<Program>, i: nat)
    requires IsProgramRun(c, file, windows, run) && i < |run| && run[i].Closed?
    ensures run[i].file == FileResult(c, file, windows)
    ensures |run[i].file| == |file| && run[i].file[0] == file[0]
    ensures multiset(run[i].file[1..]) == multiset(file[1..])
    ensures IsPow2(c.blocks) && IsPow2(windows) ==> Sorted(run[i].file[1..])
  {
    hide FileResult;
    hide RunsTo;
    hide RunExps;
    hide ProgramNext;
    ProgramRunInv(c, file, windows, run, i);
    ResultPermutes(c, file, windows);
    if IsPow2(c.blocks) && IsPow2(windows) {
      ResultSorted(c, file, windows);
    }
  }

  lemma ResultSorted(c: Config, file: seq<Index>, windows: nat)
    requires ValidFile(c, file, windows) && IsPow2(c.blocks) && IsPow2(windows)
    ensures |FileResult(c, file, windows)| == |file| && Sorted(FileResult(c, file, windows)[1..])
  {
    hide FileResult;
    hide RunsTo;
    hide RunExps;
    ResultPermutes(c, file, windows);
    FileRuns(c, file, windows);
    SingleRun(windows, 0);
    OneRun(FileResult(c, file, windows)[1..], file[1..], RunExps(windows, 0), Memsize(c), true);
  }

  lemma ResultPermutes(c: Config, file: seq<Index>, windows: nat)
    requires ValidFile(c, file, windows)
    ensures |FileResult(c, file, windows)| == |file| && FileResult(c, file, windows)[0] == file[0]
    ensures multiset(FileResult(c, file, windows)[1..]) == multiset(file[1..])
  {
    hide SortedWindows;
    hide AllLevels;
    hide RunsTo;
    hide RunExps;
    FileRuns(c, file, windows);
    var r, o := FileResult(c, file, windows)[1..], file[1..];
    RunsPermute(r, o, |o|, RunExps(windows, 0), Memsize(c), IsPow2(c.blocks));
    assert r[..|o|] == r && o[..|o|] == o;
    assert FileResult(c, file, windows)[..1][0] == file[..1][0];
  }
}
