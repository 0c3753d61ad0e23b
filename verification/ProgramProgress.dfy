/** The whole program never gets stuck, always comes to an end, and what it has done by then. */
module ProgramProgress {
  import opened Records
  import opened Windows
  import opened BinaryRuns
  import opened ParallelSort
  import opened SortInvariant
  import opened SortTheorems
  import opened SortProgress
  import opened FileSort

  // ----- some step can always be made

  /** A window is left over exactly as long as there is one more to sort, and then the whole of it. */
  lemma RestOfFile(c: Config, file: seq<Index>, windows: nat, p: Program)
    requires ProgramInv(c, file, windows, p) && p.Team?
    ensures p.after == [] <==> p.win + 1 == windows
    ensures p.after != [] ==> Memsize(c) <= |p.after|
  {
    hide Reachable;
    hide SortedWindows;
    PositiveMemsize(c);
    var m := Memsize(c);
    hide Memsize;
    LastWindow(p.win, windows, m);
    if p.win + 1 < windows {
      SlotFits(p.win + 1, windows, m);
    }
  }

  lemma TeamStep(c: Config, w: seq<Index>, p: Program) returns (p': Program)
    requires ValidConfig(c) && p.Team? && Reachable(c, w, p.team) && !AllFinished(p.team)
    ensures ProgramNext(c, p, p')
  {
    hide Reachable;
    hide Inv;
    hide AllFinished;
    hide Enabled;
    hide Step;
    var t := NoDeadlock(c, w, p.team);
    ReachableInv(c, w, p.team);
    InvConfig(c, w, p.team);
    p' := p.(team := Step(c, p.team, t, []));
    assert Next(c, p.team, p'.team);
  }

  lemma LastStep(c: Config, p: Program) returns (p': Program)
    requires ValidConfig(c) && p.Team? && AllFinished(p.team) && p.after == []
    ensures ProgramNext(c, p, p')
  {
    hide Next;
    hide Finish;
    hide AllFinished;
    p' := Closed(Finish(c, p.before + p.team.window));
  }

  lemma NextTeam(c: Config, p: Program) returns (p': Program)
    requires ValidConfig(c) && p.Team? && AllFinished(p.team) && p.after != [] && Memsize(c) <= |p.after|
    ensures ProgramNext(c, p, p')
  {
    hide Next;
    hide Start;
    hide AllFinished;
    var m := Memsize(c);
    hide Memsize;
    p' := Team(p.win + 1, p.before + p.team.window, Start(c, p.after[..m]), p.after[m..]);
  }

  lemma TeamReachable(c: Config, file: seq<Index>, windows: nat, p: Program)
    requires ProgramInv(c, file, windows, p) && p.Team?
    ensures ValidConfig(c) && Reachable(c, Slot(file[1..], p.win, Memsize(c)), p.team)
  {
    hide Reachable;
    hide SortedWindows;
    hide Slot;
  }

  /** A program that has not closed its file has a next step. */
  lemma NeverStuck(c: Config, file: seq<Index>, windows: nat, p: Program) returns (p': Program)
    requires ProgramInv(c, file, windows, p) && p.Team?
    ensures ProgramNext(c, p, p')
  {
    assert |file| > 0;
    hide *;
    TeamReachable(c, file, windows, p);
    RestOfFile(c, file, windows, p);
    if !AllFinished(p.team) {
      p' := TeamStep(c, Slot(file[1..], p.win, Memsize(c)), p);
    } else if p.after == [] {
      p' := LastStep(c, p);
    } else {
      p' := NextTeam(c, p);
    }
  }

  // ----- every step brings the end nearer

  /** Steps left to a team that has not begun; the records do not matter. */
  function TeamSteps(c: Config): nat
    requires ValidConfig(c)
  {
    Measure(c, Start(c, []))
  }

  /** Steps left to the program. */
  function ProgramMeasure(c: Config, windows: nat, p: Program): nat
    requires ValidConfig(c)
  {
    match p
    case Team(win, _, team, _) =>
      (if win < windows then Off(windows - 1 - win, TeamSteps(c) + 1) else 0) + Measure(c, team) + 1
    case Closed(_) => 0
  }

  lemma StartMeasure(c: Config, w: seq<Index>)
    requires ValidConfig(c)
    ensures Measure(c, Start(c, w)) == TeamSteps(c)
  {
    assert Start(c, w).pc == Start(c, []).pc && Start(c, w).blockMap == Start(c, []).blockMap;
  }

  lemma TeamMeasure(c: Config, w: seq<Index>, s: State, s': State)
    requires ValidConfig(c) && Reachable(c, w, s) && Next(c, s, s')
    ensures Measure(c, s') < Measure(c, s)
  {
    hide Reachable;
    hide Inv;
    hide Enabled;
    hide Step;
    hide Measure;
    ReachableInv(c, w, s);
    InvParts(c, w, s);
    var t: nat, junk: seq<Index> :| Enabled(c, s, t) && s' == Step(c, s, t, junk);
    StepMeasure(c, s, t, junk);
  }

  lemma ProgramStepMeasure(c: Config, file: seq<Index>, windows: nat, p: Program, p': Program)
    requires ProgramInv(c, file, windows, p) && ProgramNext(c, p, p')
    ensures ProgramMeasure(c, windows, p') < ProgramMeasure(c, windows, p)
  {
    hide Reachable;
    hide Next;
    hide SortedWindows;
    hide Finish;
    hide Measure;
    hide Start;
    hide TeamSteps;
    if p'.Team? && p'.win == p.win {
      TeamMeasure(c, Slot(file[1..], p.win, Memsize(c)), p.team, p'.team);
    } else if p'.Team? {
      RestOfFile(c, file, windows, p);
      StartMeasure(c, p.after[..Memsize(c)]);
    }
  }

  /** Every step lowers the measure, so no run is longer than its beginning allows. */
  lemma {:induction false} ProgramRunsEnd(c: Config, file: seq<Index>, windows: nat, run: seq<Program>, i: nat)
    requires IsProgramRun(c, file, windows, run) && i < |run|
    ensures i + ProgramMeasure(c, windows, run[i]) <= Off(windows, TeamSteps(c) + 1)
  {
    hide *;
    RunShape(c, file, windows, run);
    if i == 0 {
      FirstMeasure(c, file, windows, run);
    } else {
      var k := i - 1;
      ProgramRunsEnd(c, file, windows, run, k);
      ProgramRunInv(c, file, windows, run, k);
      RunMakesStep(c, file, windows, run, k, i);
      ProgramStepMeasure(c, file, windows, run[k], run[i]);
    }
  }

  lemma RunShape(c: Config, file: seq<Index>, windows: nat, run: seq<Program>)
    requires IsProgramRun(c, file, windows, run)
    ensures ValidConfig(c) && windows > 0
  {
    hide ProgramNext;
  }

  lemma RunMakesStep(c: Config, file: seq<Index>, windows: nat, run: seq<Program>, k: nat, i: nat)
    requires IsProgramRun(c, file, windows, run) && ValidConfig(c) && i == k + 1 < |run|
    ensures ProgramNext(c, run[k], run[i])
  {
    hide ProgramNext;
  }

  lemma FirstMeasure(c: Config, file: seq<Index>, windows: nat, run: seq<Program>)
    requires IsProgramRun(c, file, windows, run) && ValidConfig(c) && windows > 0
    ensures ProgramMeasure(c, windows, run[0]) <= Off(windows, TeamSteps(c) + 1)
  {
    hide ProgramNext;
    hide TeamSteps;
    hide Measure;
    hide Start;
    StartMeasure(c, file[1..1 + Memsize(c)]);
    SlotFits(windows - 1, windows, TeamSteps(c) + 1);
  }

  // ----- end to end

  /**
   * Every run of the program is bounded in length; as long as the file is not closed
   * there is a next step; and once it is closed the header is untouched and the records
   * are a permutation of the old ones, sorted when both counts are powers of two.
   */
  lemma EndToEnd(c: Config, file: seq<Index>, windows: nat, run: seq<Program>, i: nat)
    requires IsProgramRun(c, file, windows, run) && i < |run|
    ensures i <= Off(windows, TeamSteps(c) + 1)
    ensures run[i].Team? ==> exists p' :: ProgramNext(c, run[i], p')
    ensures run[i].Closed? ==>
      && run[i].file == FileResult(c, file, windows)
      && |run[i].file| == |file| && run[i].file[0] == file[0]
      && multiset(run[i].file[1..]) == multiset(file[1..])
      && (IsPow2(c.blocks) && IsPow2(windows) ==> Sorted(run[i].file[1..]))
  {
    hide IsProgramRun;
    hide ProgramInv;
    hide ProgramNext;
    hide FileResult;
    hide TeamSteps;
    ProgramRunsEnd(c, file, windows, run, i);
    ProgramRunInv(c, file, windows, run, i);
    if run[i].Team? {
      var p' := NeverStuck(c, file, windows, run[i]);
    } else {
      ClosedResult(c, file, windows, run, i);
    }
  }

  /** Every run can be carried on until the file is closed. */
  lemma {:induction false} Completes(c: Config, file: seq<Index>, windows: nat, run: seq<Program>)
    returns (whole: seq<Program>)
    requires IsProgramRun(c, file, windows, run)
    ensures IsProgramRun(c, file, windows, whole) && run <= whole && whole[|whole| - 1].Closed?
    decreases Off(windows, TeamSteps(c) + 1) - |run| + 1
  {
    hide ProgramInv;
    hide ProgramNext;
    hide TeamSteps;
    var last := run[|run| - 1];
    whole := run;
    if last.Team? {
      ProgramRunInv(c, file, windows, run, |run| - 1);
      var p' := NeverStuck(c, file, windows, last);
      var longer := run + [p'];
      forall i | 0 <= i < |longer| - 1 ensures ProgramNext(c, longer[i], longer[i + 1]) {
        if i < |run| - 1 {
          assert ProgramNext(c, run[i], run[i + 1]);
        }
      }
      ProgramRunsEnd(c, file, windows, longer, |longer| - 1);
      whole := Completes(c, file, windows, longer);
    }
  }
}
