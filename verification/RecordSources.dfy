/** Where the remembered record of a save comes from, and since when its writer has held the lock. */
module RecordSources {
  import opened RecordLocks
  import opened RecordLocksProofs

  // ----- what a step leaves alone

  /** Inside a save of record `r` with the lock on it. */
  ghost predicate Editing(pc: PC, r: nat) {
    (pc.Comparing? || pc.Asking? || pc.Writing?) && pc.r == r
  }

  /** On the way to or inside a save. */
  ghost predicate Saving(pc: PC) {
    pc.SaveLock? || pc.Comparing? || pc.Asking? || pc.Writing?
  }

  /** The last byte of a write: the one step that adds a version and a save. */
  ghost predicate Commits(s: State, p: nat) {
    p < |s.procs| && s.procs[p].pc.Writing? && s.procs[p].pc.i == RECORD_SIZE
  }

  /**
   * A step of `p` is its own: other processes stay, the file changes only while `p`
   * writes, the history only when it commits, and a save of `r` is entered only
   * through the lock, at its first byte.
   */
  ghost predicate Effects(s: State, p: nat, s': State, r: nat) {
    && p < |s.procs| == |s'.procs|
    && (forall q: nat | q < |s.procs| && q != p :: s'.procs[q] == s.procs[q])
    && (!Commits(s, p) ==> s'.saves == s.saves && s'.versions == s.versions)
    && (!s.procs[p].pc.Writing? ==> s'.file == s.file)
    && (Editing(s'.procs[p].pc, r) && !Editing(s.procs[p].pc, r) ==> s'.procs[p].pc == Comparing(r, []))
    && (LeavesRecord(s.procs[p].pc) ==> MovesOn(s.procs[p], s'.procs[p]))
  }

  ghost predicate LeavesRecord(pc: PC) {
    pc.Printing? || pc.Comparing? || pc.Writing? || pc.Unlocking?
  }

  /** Only the program point changes, and not to another record. */
  ghost predicate MovesOn(me: Process, me': Process) {
    && me' == me.(pc := me'.pc)
    && (|| me'.pc == Menu || me'.pc.Printing? || me'.pc.Unlocking?
        || (Saving(me'.pc) && Saving(me.pc) && me'.pc.r == me.pc.r))
  }

  lemma UnlockKeeps(s: State, p: nat, r: nat, c: Choice)
    requires p < |s.locks| && r < |s.locks[p]|
    ensures var s' := Unlock(s, p, r, c);
            s'.file == s.file && s'.procs == s.procs && s'.versions == s.versions && s'.saves == s.saves
  {
  }

  lemma MenuEffects(s: State, p: nat, c: Choice, s': State, r: nat)
    requires Shape(s) && p < |s.procs| && s.procs[p].pc == Menu && MenuStep(s, p, c, s')
    ensures Effects(s, p, s', r)
  {
    hide SameFields;
    hide OthersHoldNo;
    hide Latest;
  }

  lemma LockEffects(s: State, p: nat, c: Choice, s': State, r: nat)
    requires Shape(s) && p < |s.procs| && LockStep(s, p, c, s')
    requires s.procs[p].pc.GetLock? || s.procs[p].pc.PrintLock? || s.procs[p].pc.SaveLock?
    ensures Effects(s, p, s', r)
  {
    hide SameFields;
    hide OthersHoldNo;
    hide Latest;
  }

  lemma ReadEffects(s: State, p: nat, c: Choice, s': State, r: nat)
    requires Shape(s) && p < |s.procs| && s.procs[p].pc.Reading? && ReadStep(s, p, c, s')
    ensures Effects(s, p, s', r)
  {
    var me := s.procs[p];
    var done := me.(pc := Menu, record := me.pc.acc, loaded := true,
                    got := true, source := me.pc.r, version := Latest(s.versions[me.pc.r]));
    UnlockKeeps(SetProc(s, p, done), p, me.pc.r, c);
    hide Latest;
    hide Unlock;
  }

  lemma PrintEffects(s: State, p: nat, c: Choice, s': State, r: nat)
    requires Shape(s) && p < |s.procs| && s.procs[p].pc.Printing? && PrintStep(s, p, c, s')
    ensures Effects(s, p, s', r)
  {
    hide SameFields;
    hide OthersHoldNo;
    hide Latest;
  }

  lemma CompareEffects(s: State, p: nat, s': State, r: nat)
    requires Shape(s) && p < |s.procs| && s.procs[p].pc.Comparing? && CompareStep(s, p, s')
    ensures Effects(s, p, s', r)
  {
    hide SameFields;
    hide OthersHoldNo;
    hide Latest;
  }

  lemma AnswerEffects(s: State, p: nat, c: Choice, s': State, r: nat)
    requires Shape(s) && p < |s.procs| && s.procs[p].pc.Asking? && AnswerStep(s, p, c, s')
    ensures Effects(s, p, s', r)
  {
    hide SameFields;
    hide OthersHoldNo;
    hide Latest;
  }

  lemma WriteEffects(s: State, p: nat, s': State, r: nat)
    requires Shape(s) && p < |s.procs| && s.procs[p].pc.Writing? && WriteStep(s, p, s')
    ensures Effects(s, p, s', r)
  {
    hide SameFields;
    hide OthersHoldNo;
    hide Latest;
  }

  lemma UnlockEffects(s: State, p: nat, c: Choice, s': State, r: nat)
    requires Shape(s) && p < |s.procs| && s.procs[p].pc.Unlocking? && s.procs[p].pc.r < |s.file|
    requires s' == Unlock(SetProc(s, p, s.procs[p].(pc := Menu)), p, s.procs[p].pc.r, c)
    ensures Effects(s, p, s', r)
  {
    hide SameFields;
    hide OthersHoldNo;
    hide Latest;
  }

  lemma StepEffects(s: State, p: nat, c: Choice, s': State, r: nat)
    requires Next(s, p, c, s')
    ensures Effects(s, p, s', r)
  {
    hide Shape;
    hide Effects;
    hide MenuStep;
    hide LockStep;
    hide ReadStep;
    hide PrintStep;
    hide CompareStep;
    hide AnswerStep;
    hide WriteStep;
    hide Unlock;
    var pc := s.procs[p].pc;
    if pc == Menu {
      MenuEffects(s, p, c, s', r);
    } else if pc.GetLock? || pc.PrintLock? || pc.SaveLock? {
      LockEffects(s, p, c, s', r);
    } else if pc.Reading? {
      ReadEffects(s, p, c, s', r);
    } else if pc.Printing? {
      PrintEffects(s, p, c, s', r);
    } else if pc.Comparing? {
      CompareEffects(s, p, s', r);
    } else if pc.Asking? {
      AnswerEffects(s, p, c, s', r);
    } else if pc.Writing? {
      WriteEffects(s, p, s', r);
    } else {
      UnlockEffects(s, p, c, s', r);
    }
  }

  // ----- every remembered record is a version of some record

  /** `record` is version `version` of record `source`. */
  ghost predicate IsVersion(versions: seq<seq<Record>>, source: nat, version: nat, record: Record) {
    source < |versions| && version < |versions[source]| && versions[source][version] == record
  }

  ghost predicate ProcSourced(s: State, p: nat)
    requires p < |s.procs|
  {
    var me := s.procs[p];
    && (me.edited || Saving(me.pc) ==> me.loaded)
    && (me.loaded ==> IsVersion(s.versions, me.source, me.version, me.record))
    && (me.got ==> me.loaded && me.source == me.current && !me.pc.GetLock? && !me.pc.Reading?)
    && (me.pc.GetLock? || me.pc.Reading? || Saving(me.pc) ==> me.pc.r == me.current)
  }

  ghost predicate SaveSourced(s: State, r: nat, i: nat)
    requires r < |s.saves| && i < |s.saves[r]|
  {
    var save := s.saves[r][i];
    && IsVersion(s.versions, save.source, save.version, save.remembered)
    && (save.got ==> save.source == r)
    && (save.source == r ==> save.version <= i)
  }

  ghost predicate Sourced(s: State) {
    && (forall p: nat | p < |s.procs| :: ProcSourced(s, p))
    && (forall r: nat, i: nat | r < |s.saves| && i < |s.saves[r]| :: SaveSourced(s, r, i))
  }

  /** Versions are only added. */
  ghost predicate Grows(v: seq<seq<Record>>, v': seq<seq<Record>>) {
    |v| == |v'| && forall r | 0 <= r < |v| :: v[r] <= v'[r]
  }

  lemma GrowsKeeps(v: seq<seq<Record>>, v': seq<seq<Record>>)
    requires Grows(v, v')
    ensures forall source, version, record | IsVersion(v, source, version, record) ::
              IsVersion(v', source, version, record)
  {
  }

  lemma StepGrows(s: State, p: nat, c: Choice, s': State)
    requires Next(s, p, c, s')
    ensures Grows(s.versions, s'.versions) && |s'.procs| == |s.procs|
    ensures forall q: nat | q < |s.procs| && q != p :: s'.procs[q] == s.procs[q]
  {
    hide Grows;
    hide MenuStep;
    hide LockStep;
    hide ReadStep;
    hide PrintStep;
    hide CompareStep;
    hide AnswerStep;
    hide WriteStep;
    StepEffects(s, p, c, s', 0);
    if Commits(s, p) {
      CommitGrows(s, p, s');
    } else {
      GrowsItself(s.versions);
    }
  }

  lemma GrowsItself(v: seq<seq<Record>>)
    ensures Grows(v, v)
  {
  }

  lemma CommitGrows(s: State, p: nat, s': State)
    requires Shape(s) && Commits(s, p) && WriteStep(s, p, s')
    ensures Grows(s.versions, s'.versions)
  {
  }

  /** The end of a read takes over the current version of the record. */
  lemma TakesVersion(s: State, p: nat)
    requires Inv(s) && p < |s.procs|
    requires s.procs[p].pc.Reading? && |s.procs[p].pc.acc| >= RECORD_SIZE
    ensures var pc := s.procs[p].pc;
            pc.r < |s.versions| && IsVersion(s.versions, pc.r, Latest(s.versions[pc.r]), pc.acc)
  {
    hide SameFields;
    assert ProcOk(s, p);
    var r := s.procs[p].pc.r;
    NotWritten(s, p, r);
    assert HistoryOk(s.versions[r], s.saves[r]);
    assert s.file[r][..RECORD_SIZE] == s.file[r];
  }

  lemma ShowsVersion(s: State, p: nat)
    requires Inv(s) && p < |s.procs| && s.procs[p].pc.Asking?
    ensures var pc := s.procs[p].pc;
            pc.r < |s.versions| && IsVersion(s.versions, pc.r, Latest(s.versions[pc.r]), pc.tmp)
  {
    hide SameFields;
    assert ProcOk(s, p);
    var r := s.procs[p].pc.r;
    NotWritten(s, p, r);
    assert HistoryOk(s.versions[r], s.saves[r]);
  }

  lemma MenuSourced(s: State, p: nat, c: Choice, s': State)
    requires Shape(s) && p < |s.procs| && s.procs[p].pc == Menu && MenuStep(s, p, c, s') && ProcSourced(s, p)
    ensures p < |s'.procs| && ProcSourced(s', p)
  {
    hide Shape;
    hide IsVersion;
  }

  lemma LockSourced(s: State, p: nat, c: Choice, s': State)
    requires Shape(s) && p < |s.procs| && LockStep(s, p, c, s') && ProcSourced(s, p)
    requires s.procs[p].pc.GetLock? || s.procs[p].pc.PrintLock? || s.procs[p].pc.SaveLock?
    ensures p < |s'.procs| && ProcSourced(s', p)
  {
    hide Shape;
    hide OthersHoldNo;
    hide IsVersion;
  }

  lemma ReadSourced(s: State, p: nat, c: Choice, s': State)
    requires Inv(s) && p < |s.procs| && s.procs[p].pc.Reading? && ReadStep(s, p, c, s') && ProcSourced(s, p)
    ensures p < |s'.procs| && ProcSourced(s', p)
  {
    if |s.procs[p].pc.acc| >= RECORD_SIZE {
      TakesVersion(s, p);
    }
    hide Inv;
    hide Shape;
    hide IsVersion;
  }

  lemma AnswerSourced(s: State, p: nat, c: Choice, s': State)
    requires Inv(s) && p < |s.procs| && s.procs[p].pc.Asking? && AnswerStep(s, p, c, s') && ProcSourced(s, p)
    ensures p < |s'.procs| && ProcSourced(s', p)
  {
    ShowsVersion(s, p);
    hide Inv;
    hide Shape;
    hide IsVersion;
  }

  /** Steps that leave `record` alone. */
  lemma OtherSourced(s: State, p: nat, c: Choice, s': State)
    requires p < |s.procs| && Next(s, p, c, s') && ProcSourced(s, p) && Grows(s.versions, s'.versions)
    requires LeavesRecord(s.procs[p].pc)
    ensures p < |s'.procs| && ProcSourced(s', p)
  {
    StepEffects(s, p, c, s', 0);
    hide Next;
    GrowsKeeps(s.versions, s'.versions);
    hide Grows;
    hide IsVersion;
  }

  lemma StepProc(s: State, p: nat, c: Choice, s': State)
    requires Inv(s) && Next(s, p, c, s') && ProcSourced(s, p)
    ensures p < |s'.procs| && ProcSourced(s', p)
  {
    hide Inv;
    hide ProcSourced;
    hide MenuStep;
    hide LockStep;
    hide ReadStep;
    hide AnswerStep;
    var pc := s.procs[p].pc;
    if pc == Menu {
      MenuSourced(s, p, c, s');
    } else if pc.GetLock? || pc.PrintLock? || pc.SaveLock? {
      LockSourced(s, p, c, s');
    } else if pc.Reading? {
      ReadSourced(s, p, c, s');
    } else if pc.Asking? {
      AnswerSourced(s, p, c, s');
    } else {
      StepGrows(s, p, c, s');
      OtherSourced(s, p, c, s');
    }
  }

  lemma CommitSaves(s: State, p: nat, s': State)
    requires Inv(s) && Commits(s, p) && WriteStep(s, p, s') && ProcSourced(s, p)
    ensures var r := s.procs[p].pc.r;
      && r < |s.saves| == |s'.saves| && |s'.saves[r]| == |s.saves[r]| + 1
      && (forall x | 0 <= x < |s.saves| && x != r :: s'.saves[x] == s.saves[x])
      && s'.saves[r][..|s.saves[r]|] == s.saves[r] && SaveSourced(s', r, |s.saves[r]|)
  {
    hide SameFields;
    hide ProcOk;
    var r := s.procs[p].pc.r;
    assert HistoryOk(s.versions[r], s.saves[r]);
  }

  lemma OldSave(s: State, s': State, r: nat, i: nat)
    requires Grows(s.versions, s'.versions) && r < |s.saves| == |s'.saves| && i < |s.saves[r]| <= |s'.saves[r]|
    requires s'.saves[r][..|s.saves[r]|] == s.saves[r] && SaveSourced(s, r, i)
    ensures SaveSourced(s', r, i)
  {
    assert s'.saves[r][..|s.saves[r]|][i] == s'.saves[r][i];
  }

  lemma StepSaves(s: State, p: nat, c: Choice, s': State)
    requires Inv(s) && Next(s, p, c, s') && Sourced(s)
    ensures forall r: nat, i: nat | r < |s'.saves| && i < |s'.saves[r]| :: SaveSourced(s', r, i)
  {
    hide Inv;
    hide ProcSourced;
    hide SaveSourced;
    hide Grows;
    hide MenuStep;
    hide LockStep;
    hide ReadStep;
    hide PrintStep;
    hide CompareStep;
    hide AnswerStep;
    hide WriteStep;
    StepGrows(s, p, c, s');
    if Commits(s, p) {
      assert ProcSourced(s, p);
      CommitSaves(s, p, s');
    } else {
      StepEffects(s, p, c, s', 0);
    }
    forall r: nat, i: nat | r < |s'.saves| && i < |s'.saves[r]| ensures SaveSourced(s', r, i) {
      if i < |s.saves[r]| {
        OldSave(s, s', r, i);
      }
    }
  }

  lemma StepSourced(s: State, p: nat, c: Choice, s': State)
    requires Inv(s) && Next(s, p, c, s') && Sourced(s)
    ensures Sourced(s')
  {
    StepSaves(s, p, c, s');
    StepGrows(s, p, c, s');
    assert p < |s.procs|;
    hide Inv;
    hide Next;
    hide SaveSourced;
    forall q: nat | q < |s'.procs| ensures ProcSourced(s', q) {
      assert ProcSourced(s, q);
      if q == p {
        StepProc(s, p, c, s');
      } else {
        GrowsKeeps(s.versions, s'.versions);
      }
    }
  }

  lemma BeginsSourced(s: State)
    requires Begins(s)
    ensures Sourced(s)
  {
  }

  lemma {:induction false} RunSourced(run: seq<State>, moves: seq<Move>, k: nat)
    requires IsRun(run, moves) && k < |run|
    ensures Sourced(run[k])
  {
    hide Inv;
    hide Next;
    hide Sourced;
    if k == 0 {
      BeginsSourced(run[0]);
    } else {
      RunInv(run, moves, k - 1);
      RunSourced(run, moves, k - 1);
      assert Next(run[k - 1], moves[k - 1].p, moves[k - 1].c, run[k - 1 + 1]);
      StepSourced(run[k - 1], moves[k - 1].p, moves[k - 1].c, run[k]);
    }
  }

  /**
   * What a writer remembered is a completed version of some record: of the record it
   * writes whenever its last `g` got its lock, and then no later one than it replaced.
   */
  lemma RememberedVersion(run: seq<State>, moves: seq<Move>, k: nat, r: nat, i: nat)
    requires IsRun(run, moves) && k < |run| && r < |run[k].saves| && i < |run[k].saves[r]|
    ensures var s, save := run[k], run[k].saves[r][i];
      && save.source < |s.versions| && save.version < |s.versions[save.source]|
      && save.remembered == s.versions[save.source][save.version]
      && (save.got ==> save.source == r)
      && (save.source == r ==> save.version <= i)
  {
    hide IsRun;
    RunSourced(run, moves, k);
    assert SaveSourced(run[k], r, i);
  }

  /**
   * What a `g` for record `n` leaves behind, exactly: with its lock, the record that
   * number names; after a failed lock, the number is new and the record the old one, so
   * they belong together if and only if they would have without this `g`.
   */
  lemma GetDecides(run: seq<State>, moves: seq<Move>, k: nat)
    requires IsRun(run, moves) && k < |moves| && moves[k].p < |run[k].procs| && moves[k].p < |run[k + 1].procs|
    ensures var me, me' := run[k].procs[moves[k].p], run[k + 1].procs[moves[k].p];
      && (me.pc.Reading? && |me.pc.acc| == RECORD_SIZE ==>
            me'.got && me'.source == me'.current == me.pc.r && me'.record == me.pc.acc)
      && (me.pc.GetLock? && moves[k].c == LockError ==>
            && !me'.got && me'.current == me.pc.r && me'.record == me.record
            && me'.source == me.source && me'.version == me.version)
  {
    RunSourced(run, moves, k);
    assert Next(run[k], moves[k].p, moves[k].c, run[k + 1]);
    hide IsRun;
    hide SameFields;
    assert ProcSourced(run[k], moves[k].p);
  }

  // ----- the lock is held from the first byte compared to the last one written

  /** Process `p` has been inside a save of `r` since state `j`, which found `before` in the file. */
  ghost predicate EditsSince(run: seq<State>, p: nat, r: nat, j: nat, k: nat, before: Record) {
    && j <= k < |run|
    && (forall i | j <= i <= k :: HoldsForEdit(run[i], p, r))
    && p < |run[j].procs| && run[j].procs[p].pc == Comparing(r, [])
    && r < |run[j].file| && run[j].file[r] == before
  }

  ghost predicate HoldsForEdit(s: State, p: nat, r: nat) {
    && p < |s.procs| == |s.locks| && r < |s.locks[p]| && Editing(s.procs[p].pc, r) && s.locks[p][r] == WriteLock
  }

  /** What a process inside a save found in the file when it got the lock. */
  ghost predicate Found(s: State, p: nat, r: nat, before: Record) {
    && p < |s.procs| && r < |s.file| && Editing(s.procs[p].pc, r)
    && if s.procs[p].pc.Writing? then s.procs[p].pc.before == before else s.file[r] == before
  }

  lemma EditingHolds(s: State, p: nat, r: nat)
    requires Inv(s) && p < |s.procs| && Editing(s.procs[p].pc, r)
    ensures HoldsForEdit(s, p, r) && r < |s.file|
  {
    hide SameFields;
    assert ProcOk(s, p);
  }

  /** A step inside a save, or of another process, keeps what was found. */
  lemma StepFound(s: State, q: nat, c: Choice, s': State, p: nat, r: nat, before: Record)
    requires Inv(s) && Next(s, q, c, s') && Found(s, p, r, before)
    requires p < |s'.procs| && Editing(s'.procs[p].pc, r)
    ensures Found(s', p, r, before)
  {
    if q == p {
      FoundOwn(s, c, s', p, r, before);
    } else {
      hide Inv;
      hide Next;
      hide Editing;
      StepEffects(s, q, c, s', r);
      EditingHolds(s, p, r);
      FileStays(s, q, c, s', p, r);
    }
  }

  /** Nobody changes a record on which another process has a write lock. */
  lemma FileStays(s: State, q: nat, c: Choice, s': State, p: nat, r: nat)
    requires Inv(s) && Next(s, q, c, s') && q != p && HoldsForEdit(s, p, r)
    ensures |s'.file| == |s.file| && r < |s.file| && s'.file[r] == s.file[r]
  {
    if s.procs[q].pc.Writing? {
      hide SameFields;
      hide FileOk;
      hide HistoryOk;
      assert ProcOk(s, q);
      assert s.locks[q][r] == NoLock;
    } else {
      StepEffects(s, q, c, s', r);
    }
  }

  lemma FoundOwn(s: State, c: Choice, s': State, p: nat, r: nat, before: Record)
    requires Inv(s) && Next(s, p, c, s') && Found(s, p, r, before)
    requires p < |s'.procs| && Editing(s'.procs[p].pc, r)
    ensures Found(s', p, r, before)
  {
    hide SameFields;
    assert ProcOk(s, p);
    if s.procs[p].pc.Comparing? && |s.procs[p].pc.acc| == RECORD_SIZE {
      assert s.file[r][..RECORD_SIZE] == s.file[r];
    }
  }

  /**
   * A process inside a save has held the write lock without a break since it began to
   * read what it is about to replace, and what it replaces is what it read then.
   */
  lemma {:induction false} LockHeldSince(run: seq<State>, moves: seq<Move>, k: nat, p: nat, r: nat)
    returns (j: nat, before: Record)
    requires IsRun(run, moves) && k < |run| && p < |run[k].procs| && Editing(run[k].procs[p].pc, r)
    ensures EditsSince(run, p, r, j, k, before) && Found(run[k], p, r, before)
  {
    hide Inv;
    hide Next;
    hide Begins;
    hide HoldsForEdit;
    RunInv(run, moves, k);
    EditingHolds(run[k], p, r);
    if k == 0 {
      NobodyEdits(run[0], p, r);
    } else {
      var q, c := moves[k - 1].p, moves[k - 1].c;
      assert Next(run[k - 1], q, c, run[k - 1 + 1]);
      RunInv(run, moves, k - 1);
      StepGrows(run[k - 1], q, c, run[k]);
      if Editing(run[k - 1].procs[p].pc, r) {
        j, before := LockHeldSince(run, moves, k - 1, p, r);
        StepFound(run[k - 1], q, c, run[k], p, r, before);
      } else {
        StepEffects(run[k - 1], q, c, run[k], r);
        j, before := k, run[k].file[r];
      }
    }
  }

  lemma NobodyEdits(s: State, p: nat, r: nat)
    requires Begins(s) && p < |s.procs|
    ensures !Editing(s.procs[p].pc, r)
  {
  }
}
