/** No save is lost and no read is torn, in every run of the record editors. */
module RecordLocksProofs {
  import opened RecordLocks

  /** A lock on a record one is not writing means that nobody is. */
  lemma NotWritten(s: State, p: nat, r: nat)
    requires Inv(s) && p < |s.procs| && r < |s.file|
    requires s.locks[p][r] != NoLock && !WritesTo(s.procs[p].pc, r)
    ensures !BeingWritten(s, r)
    ensures s.file[r] == Last(s.versions[r])
  {
    forall q: nat | q < |s.procs| ensures !WritesTo(s.procs[q].pc, r) {
      assert ProcOk(s, q);
      assert q != p ==> s.locks[q][r] != WriteLock;
    }
  }

  /** No writer gives up but by completing its version. */
  lemma WritersKept(s: State, s': State, r: nat)
    requires |s'.procs| == |s.procs| && !BeingWritten(s', r)
    requires forall q: nat | q < |s.procs| && WritesTo(s.procs[q].pc, r) :: WritesTo(s'.procs[q].pc, r)
    ensures !BeingWritten(s, r)
  {
    forall q: nat | q < |s.procs| ensures !WritesTo(s.procs[q].pc, r) {
      assert !WritesTo(s'.procs[q].pc, r);
    }
  }

  lemma BeginsOk(s: State)
    requires Begins(s)
    ensures Inv(s)
  {
  }

  // ----- steps that change no byte of the file

  /** A step of `p` that changes its own state and its own locks only. */
  lemma OwnStep(s: State, s': State, p: nat, me': Process)
    requires Inv(s) && Shape(s') && p < |s.procs|
    requires s'.file == s.file && s'.versions == s.versions && s'.saves == s.saves
    requires s'.procs == s.procs[p := me']
    requires forall q: nat | q < |s.locks| && q != p :: s'.locks[q] == s.locks[q]
    requires forall r: nat | r < |s.file| :: s'.locks[p][r] == WriteLock ==>
               forall q: nat | q < |s.locks| && q != p :: s.locks[q][r] == NoLock
    requires forall q: nat, r: nat | q < |s.locks| && q != p && r < |s.file| && s.locks[q][r] == WriteLock ::
               s'.locks[p][r] == NoLock
    requires ProcOk(s', p)
    requires forall r: nat | r < |s.file| && WritesTo(s.procs[p].pc, r) :: WritesTo(me'.pc, r)
    ensures Inv(s')
  {
    hide SameFields;
    hide HistoryOk;
    forall q: nat | q < |s.procs| ensures ProcOk(s', q) {
      assert ProcOk(s, q);
    }
    forall r: nat | r < |s.file| && !BeingWritten(s', r) ensures s'.file[r] == Last(s'.versions[r]) {
      WritersKept(s, s', r);
    }
  }

  /** With its locks unchanged, too. */
  lemma QuietStep(s: State, s': State, p: nat, me': Process)
    requires Inv(s) && p < |s.procs| && s' == SetProc(s, p, me')
    requires |me'.record| == |me'.newRecord| == RECORD_SIZE
    requires ProcOk(s', p)
    requires forall r: nat | r < |s.file| && WritesTo(s.procs[p].pc, r) :: WritesTo(me'.pc, r)
    ensures Inv(s')
  {
    hide SameFields;
    hide HistoryOk;
    hide ProcOk;
    OwnStep(s, s', p, me');
  }

  lemma MenuOk(s: State, p: nat, c: Choice, s': State)
    requires Inv(s) && p < |s.procs| && s.procs[p].pc == Menu && MenuStep(s, p, c, s')
    ensures Inv(s')
  {
    hide SameFields;
    hide HistoryOk;
    hide LocksOk;
    hide FileOk;
    if c == Quit {
      ReleaseOk(s, s', p, s'.procs[p]);
    } else {
      QuietStep(s, s', p, s'.procs[p]);
    }
  }

  /** Giving locks back. */
  lemma ReleaseOk(s: State, s': State, p: nat, me': Process)
    requires Inv(s) && Shape(s') && p < |s.procs|
    requires s'.file == s.file && s'.versions == s.versions && s'.saves == s.saves
    requires s'.procs == s.procs[p := me'] && (me'.pc == Menu || me'.pc == Exited) && !s.procs[p].pc.Writing?
    requires forall q: nat | q < |s.locks| && q != p :: s'.locks[q] == s.locks[q]
    requires forall r: nat | r < |s.file| :: s'.locks[p][r] == NoLock || s'.locks[p][r] == s.locks[p][r]
    ensures Inv(s')
  {
    hide SameFields;
    hide HistoryOk;
    hide FileOk;
    forall r: nat | r < |s.file| && s'.locks[p][r] == WriteLock
      ensures forall q: nat | q < |s.locks| && q != p :: s.locks[q][r] == NoLock
    {
      assert s.locks[p][r] == WriteLock;
    }
    OwnStep(s, s', p, me');
  }

  lemma LockOk(s: State, p: nat, c: Choice, s': State)
    requires Inv(s) && p < |s.procs| && LockStep(s, p, c, s')
    requires s.procs[p].pc.GetLock? || s.procs[p].pc.PrintLock? || s.procs[p].pc.SaveLock?
    ensures Inv(s')
  {
    hide SameFields;
    hide HistoryOk;
    hide FileOk;
    if c == LockError {
      QuietStep(s, s', p, s'.procs[p]);
    } else {
      forall r: nat | r < |s.file| && s'.locks[p][r] == WriteLock
        ensures forall q: nat | q < |s.locks| && q != p :: s.locks[q][r] == NoLock
      {
        if s.locks[p][r] != WriteLock {
          forall q: nat | q < |s.locks| && q != p ensures s.locks[q][r] == NoLock {
            assert s.locks[q][r] != WriteLock && s.locks[q][r] != ReadLock;
          }
        }
      }
      forall q: nat, r: nat | q < |s.locks| && q != p && r < |s.file| && s.locks[q][r] == WriteLock
        ensures s'.locks[p][r] == NoLock
      {
        assert s.locks[p][r] == NoLock;
        assert s.procs[p].pc.PrintLock? ==> OthersHoldNo(s, p, r, WriteLock);
      }
      assert ProcOk(s', p) by {
        FirstByte(s, p, c, s');
      }
      OwnStep(s, s', p, s'.procs[p]);
    }
  }

  lemma FirstByte(s: State, p: nat, c: Choice, s': State)
    requires Shape(s) && p < |s.procs| && LockStep(s, p, c, s') && c == Go && Shape(s')
    ensures ProcOk(s', p)
  {
    hide SameFields;
  }

  lemma ReadOk(s: State, p: nat, c: Choice, s': State)
    requires Inv(s) && p < |s.procs| && s.procs[p].pc.Reading? && ReadStep(s, p, c, s')
    ensures Inv(s')
  {
    hide SameFields;
    hide HistoryOk;
    hide FileOk;
    hide LocksOk;
    assert ProcOk(s, p);
    var acc := s.procs[p].pc.acc;
    if |acc| < RECORD_SIZE {
      QuietStep(s, s', p, s'.procs[p]);
    } else {
      ReleaseOk(s, s', p, s'.procs[p]);
    }
  }

  lemma PrintOk(s: State, p: nat, c: Choice, s': State)
    requires Inv(s) && p < |s.procs| && s.procs[p].pc.Printing? && PrintStep(s, p, c, s')
    ensures Inv(s')
  {
    hide SameFields;
    hide HistoryOk;
    hide FileOk;
    hide LocksOk;
    assert ProcOk(s, p);
    var lines, acc := s.procs[p].pc.lines, s.procs[p].pc.acc;
    if |acc| == RECORD_SIZE {
      assert acc == s.file[|lines|];
      assert s.file[..|lines| + 1] == lines + [acc];
      QuietStep(s, s', p, s'.procs[p]);
    } else if |lines| < |s.file| {
      QuietStep(s, s', p, s'.procs[p]);
    } else {
      ReleaseOk(s, s', p, s'.procs[p]);
    }
  }

  lemma CompareOk(s: State, p: nat, s': State)
    requires Inv(s) && p < |s.procs| && s.procs[p].pc.Comparing? && CompareStep(s, p, s')
    ensures Inv(s')
  {
    hide SameFields;
    hide HistoryOk;
    hide FileOk;
    hide LocksOk;
    assert ProcOk(s, p);
    NotWritten(s, p, s.procs[p].pc.r);
    var acc := s.procs[p].pc.acc;
    if |acc| == RECORD_SIZE {
      assert acc == s.file[s.procs[p].pc.r];
      assert s'.procs[p].newRecord[..0] + acc[0..] == acc;
    }
    QuietStep(s, s', p, s'.procs[p]);
  }

  lemma AnswerOk(s: State, p: nat, c: Choice, s': State)
    requires Inv(s) && p < |s.procs| && s.procs[p].pc.Asking? && AnswerStep(s, p, c, s')
    ensures Inv(s')
  {
    hide SameFields;
    hide HistoryOk;
    hide FileOk;
    hide LocksOk;
    assert ProcOk(s, p);
    NotWritten(s, p, s.procs[p].pc.r);
    var tmp := s.procs[p].pc.tmp;
    assert s'.procs[p].newRecord[..0] + tmp[0..] == tmp;
    QuietStep(s, s', p, s'.procs[p]);
  }

  lemma UnlockOk(s: State, p: nat, c: Choice, s': State)
    requires Inv(s) && p < |s.procs| && s.procs[p].pc.Unlocking? && s.procs[p].pc.r < |s.file|
    requires s' == Unlock(SetProc(s, p, s.procs[p].(pc := Menu)), p, s.procs[p].pc.r, c)
    ensures Inv(s')
  {
    hide SameFields;
    hide HistoryOk;
    hide FileOk;
    hide LocksOk;
    ReleaseOk(s, s', p, s'.procs[p]);
  }

  // ----- the write

  /** Every other process stands off the record that `p` has write-locked. */
  lemma OthersOk(s: State, s': State, p: nat, r: nat, q: nat)
    requires Inv(s) && Shape(s') && p < |s.procs| && q < |s.procs| && q != p && r < |s.file|
    requires s.locks[p][r] == WriteLock && s'.locks == s.locks && |s'.procs| == |s.procs| && s'.procs[q] == s.procs[q]
    requires |s'.file| == |s.file|
    requires forall x: nat | x < |s.file| && x != r :: s'.file[x] == s.file[x] && s'.versions[x] == s.versions[x]
    ensures ProcOk(s', q)
    ensures !WritesTo(s.procs[q].pc, r)
  {
    hide SameFields;
    hide HistoryOk;
    hide FileOk;
    assert ProcOk(s, q);
    assert s.locks[q][r] == NoLock;
  }

  lemma WriteByteOk(s: State, p: nat, s': State)
    requires Inv(s) && p < |s.procs| && s.procs[p].pc.Writing? && WriteStep(s, p, s')
    requires s.procs[p].pc.i < RECORD_SIZE
    ensures Inv(s')
  {
    hide SameFields;
    hide HistoryOk;
    hide FileOk;
    hide ProcOk;
    var me := s.procs[p];
    var r := me.pc.r;
    assert Shape(s');
    WriterByte(s, p, s');
    forall q: nat | q < |s.procs| ensures ProcOk(s', q) {
      if q != p {
        OthersOk(s, s', p, r, q);
      }
    }
    FileByte(s, p, s');
  }

  lemma WriterByte(s: State, p: nat, s': State)
    requires Inv(s) && p < |s.procs| && s.procs[p].pc.Writing? && WriteStep(s, p, s') && Shape(s')
    requires s.procs[p].pc.i < RECORD_SIZE
    ensures ProcOk(s', p) && s.locks[p][s.procs[p].pc.r] == WriteLock
  {
    hide SameFields;
    hide HistoryOk;
    hide FileOk;
    hide LocksOk;
    assert ProcOk(s, p);
    var me := s.procs[p];
    var i, before := me.pc.i, me.pc.before;
    assert (me.newRecord[..i] + before[i..])[i := me.newRecord[i]] == me.newRecord[..i + 1] + before[i + 1..];
  }

  lemma FileByte(s: State, p: nat, s': State)
    requires Inv(s) && p < |s.procs| && s.procs[p].pc.Writing? && WriteStep(s, p, s') && Shape(s')
    requires s.procs[p].pc.i < RECORD_SIZE
    ensures FileOk(s')
  {
    hide SameFields;
    hide HistoryOk;
    hide ProcOk;
    hide LocksOk;
    var r := s.procs[p].pc.r;
    assert WritesTo(s'.procs[p].pc, r);
    forall x: nat | x < |s.file| && !BeingWritten(s', x) ensures s'.file[x] == Last(s'.versions[x]) {
      assert x != r;
      WritersKept(s, s', x);
    }
  }

  /** The last byte is out: what the file holds becomes the record's next version. */
  lemma CommitOk(s: State, p: nat, s': State)
    requires Inv(s) && p < |s.procs| && s.procs[p].pc.Writing? && WriteStep(s, p, s')
    requires s.procs[p].pc.i == RECORD_SIZE
    ensures Inv(s')
  {
    hide SameFields;
    hide HistoryOk;
    hide FileOk;
    var me := s.procs[p];
    var r := me.pc.r;
    assert ProcOk(s, p);
    assert Shape(s');
    forall q: nat | q < |s.procs| ensures ProcOk(s', q) {
      if q != p {
        OthersOk(s, s', p, r, q);
      }
    }
    CommitFile(s, p, s');
    forall x: nat | x < |s.file| ensures HistoryOk(s'.versions[x], s'.saves[x]) {
      assert HistoryOk(s.versions[x], s.saves[x]);
      if x == r {
        CommitHistory(s, p, s');
      }
    }
  }

  lemma CommitFile(s: State, p: nat, s': State)
    requires Inv(s) && p < |s.procs| && s.procs[p].pc.Writing? && WriteStep(s, p, s') && Shape(s')
    requires s.procs[p].pc.i == RECORD_SIZE
    ensures FileOk(s')
  {
    hide SameFields;
    hide HistoryOk;
    hide LocksOk;
    assert ProcOk(s, p);
    var me := s.procs[p];
    var r := me.pc.r;
    assert s.file[r] == me.newRecord;
    forall x: nat | x < |s.file| && !BeingWritten(s', x) ensures s'.file[x] == Last(s'.versions[x]) {
      if x != r {
        WritersKept(s, s', x);
      }
    }
  }

  lemma CommitHistory(s: State, p: nat, s': State)
    requires Inv(s) && p < |s.procs| && s.procs[p].pc.Writing? && WriteStep(s, p, s')
    requires s.procs[p].pc.i == RECORD_SIZE
    ensures HistoryOk(s'.versions[s.procs[p].pc.r], s'.saves[s.procs[p].pc.r])
  {
    hide SameFields;
    hide LocksOk;
    hide FileOk;
    assert ProcOk(s, p);
    assert HistoryOk(s.versions[s.procs[p].pc.r], s.saves[s.procs[p].pc.r]);
  }

  lemma StepOk(s: State, p: nat, c: Choice, s': State)
    requires Inv(s) && Next(s, p, c, s')
    ensures Inv(s')
  {
    hide Inv;
    hide MenuStep;
    hide LockStep;
    hide ReadStep;
    hide PrintStep;
    hide CompareStep;
    hide AnswerStep;
    hide WriteStep;
    hide Shape;
    var pc := s.procs[p].pc;
    if pc == Menu {
      MenuOk(s, p, c, s');
    } else if pc.GetLock? || pc.PrintLock? || pc.SaveLock? {
      LockOk(s, p, c, s');
    } else if pc.Reading? {
      ReadOk(s, p, c, s');
    } else if pc.Printing? {
      PrintOk(s, p, c, s');
    } else if pc.Comparing? {
      CompareOk(s, p, s');
    } else if pc.Asking? {
      AnswerOk(s, p, c, s');
    } else if pc.Unlocking? {
      UnlockOk(s, p, c, s');
    } else {
      assert pc.i <= RECORD_SIZE by { WriterAt(s, p, s'); }
      if pc.i < RECORD_SIZE {
        WriteByteOk(s, p, s');
      } else {
        CommitOk(s, p, s');
      }
    }
  }

  lemma WriterAt(s: State, p: nat, s': State)
    requires Shape(s) && p < |s.procs| && s.procs[p].pc.Writing? && WriteStep(s, p, s')
    ensures s.procs[p].pc.i <= RECORD_SIZE
  {
  }

  lemma {:induction false} RunInv(run: seq<State>, moves: seq<Move>, k: nat)
    requires IsRun(run, moves) && k < |run|
    ensures Inv(run[k])
  {
    hide Inv;
    hide Next;
    if k == 0 {
      BeginsOk(run[0]);
    } else {
      RunInv(run, moves, k - 1);
      assert Next(run[k - 1], moves[k - 1].p, moves[k - 1].c, run[k - 1 + 1]);
      StepOk(run[k - 1], moves[k - 1].p, moves[k - 1].c, run[k]);
    }
  }

  // ----- main results

  /**
   * The versions of a record form one chain: the save that stored version i + 1
   * replaced exactly version i, which was shown to the writer, and not refused, if and
   * only if its fields differed from those of the record the writer remembered.
   */
  lemma NoLostUpdate(run: seq<State>, moves: seq<Move>, k: nat, r: nat, i: nat)
    requires IsRun(run, moves) && k < |run| && r < |run[k].saves| && i < |run[k].saves[r]|
    ensures r < |run[k].versions| && |run[k].versions[r]| == |run[k].saves[r]| + 1
    ensures run[k].saves[r][i].before == run[k].versions[r][i] && run[k].saves[r][i].after == run[k].versions[r][i + 1]
    ensures |run[k].saves[r][i].before| == |run[k].saves[r][i].remembered| == RECORD_SIZE
    ensures run[k].saves[r][i].shown <==> !SameFields(run[k].saves[r][i].before, run[k].saves[r][i].remembered)
  {
    hide IsRun;
    hide SameFields;
    RunInv(run, moves, k);
    assert HistoryOk(run[k].versions[r], run[k].saves[r]);
  }

  /** While a process overwrites a record nobody else has any lock there, reads it, compares it or writes it. */
  lemma WriterIsAlone(run: seq<State>, moves: seq<Move>, k: nat, p: nat, q: nat)
    requires IsRun(run, moves) && k < |run| && p < |run[k].procs| && q < |run[k].procs| && p != q
    requires run[k].procs[p].pc.Writing?
    ensures var s, r := run[k], run[k].procs[p].pc.r;
            && r < |s.file| && |s.locks| == |s.procs| && |s.locks[q]| == |s.file|
            && s.locks[q][r] == NoLock
            && !s.procs[q].pc.Printing?
            && (s.procs[q].pc.Reading? || s.procs[q].pc.Comparing? || s.procs[q].pc.Writing? ==> s.procs[q].pc.r != r)
  {
    hide IsRun;
    hide SameFields;
    RunInv(run, moves, k);
    assert ProcOk(run[k], p) && ProcOk(run[k], q);
    assert run[k].locks[q][run[k].procs[p].pc.r] == NoLock;
  }

  /** A single-record read ends with one completed version of the record, the current one. */
  lemma ReadIsOneVersion(run: seq<State>, moves: seq<Move>, k: nat, p: nat)
    requires IsRun(run, moves) && k < |run| && p < |run[k].procs|
    requires run[k].procs[p].pc.Reading? && |run[k].procs[p].pc.acc| == RECORD_SIZE
    ensures var s, pc := run[k], run[k].procs[p].pc;
            pc.r < |s.versions| && s.versions[pc.r] != [] && pc.acc == s.versions[pc.r][|s.versions[pc.r]| - 1]
  {
    hide IsRun;
    hide SameFields;
    RunInv(run, moves, k);
    var s, pc := run[k], run[k].procs[p].pc;
    assert ProcOk(s, p);
    NotWritten(s, p, pc.r);
    assert HistoryOk(s.versions[pc.r], s.saves[pc.r]);
    assert s.file[pc.r][..RECORD_SIZE] == s.file[pc.r];
  }

  /** The whole-file read ends with all records as they stand at that instant, each a completed version. */
  lemma PrintIsSnapshot(run: seq<State>, moves: seq<Move>, k: nat, p: nat)
    requires IsRun(run, moves) && k < |run| && p < |run[k].procs|
    requires run[k].procs[p].pc.Printing? && |run[k].procs[p].pc.lines| == |run[k].file|
    ensures var s, lines := run[k], run[k].procs[p].pc.lines;
            && lines == s.file && |s.versions| == |s.file|
            && forall r: nat | r < |lines| :: s.versions[r] != [] && lines[r] == s.versions[r][|s.versions[r]| - 1]
  {
    hide IsRun;
    hide SameFields;
    RunInv(run, moves, k);
    var s, lines := run[k], run[k].procs[p].pc.lines;
    assert ProcOk(s, p);
    assert s.file[..|lines|] == s.file;
    forall r: nat | r < |lines| ensures s.versions[r] != [] && lines[r] == s.versions[r][|s.versions[r]| - 1] {
      NotWritten(s, p, r);
      assert HistoryOk(s.versions[r], s.saves[r]);
    }
  }
}
