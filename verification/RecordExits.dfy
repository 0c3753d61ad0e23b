/** What each operation of an editor does by the time it is over, over whole runs. */
module RecordExits {
  import opened RecordLocks
  import opened RecordLocksProofs
  import opened RecordSources

  // ----- what a user has asked for, read off the moves alone

  /** The record number, the record and the text a session stands at. */
  datatype Session = Session(current: nat, record: Record, text: Record)

  /**
   * The number of the last `g`; what was read or shown last; the text of the last edit,
   * or what was shown at a refusal since.
   */
  ghost function SessionOf(run: seq<State>, moves: seq<Move>, p: nat, k: nat): Session
    requires k < |run| && k <= |moves| && forall i | 0 <= i <= k :: p < |run[i].procs|
  {
    if k == 0 then StandsAt(run[0].procs[p])
    else
      var was := SessionOf(run, moves, p, k - 1);
      if moves[k - 1].p == p then Moved(was, run[k - 1].procs[p].pc, moves[k - 1].c) else was
  }

  function Moved(was: Session, pc: PC, c: Choice): Session {
    if pc == Menu && c.Get? then was.(current := c.n)
    else if pc == Menu && c.Edit? then was.(text := c.text)
    else if pc.Reading? && |pc.acc| == RECORD_SIZE then was.(record := pc.acc)
    else if pc.Asking? && c == Refuse then was.(record := pc.tmp, text := pc.tmp)
    else was
  }

  function StandsAt(me: Process): Session {
    Session(me.current, me.record, me.newRecord)
  }

  /** A step of its own changes what a process stands at as its session says. */
  ghost predicate Follows(me: Process, c: Choice, me': Process) {
    StandsAt(me') == Moved(StandsAt(me), me.pc, c)
  }

  // ----- how an operation goes on, step by step

  /** The choice made in the menu decides what comes next. */
  ghost predicate MenuGoes(s: State, p: nat, c: Choice, s': State)
    requires p < |s.procs| && p < |s'.procs|
  {
    var me, pc' := s.procs[p], s'.procs[p].pc;
    match c
    case Get(n) => pc' == GetLock(n)
    case Print => pc' == PrintLock
    case Edit(_) => pc' == Menu
    case SaveIt => pc' == SaveLock(me.current)
    case Quit => pc' == Exited && p < |s'.locks| && forall r | 0 <= r < |s'.locks[p]| :: s'.locks[p][r] == NoLock
    case _ => false
  }

  /** With its lock an operation begins at the first byte; without, it is over. */
  ghost predicate LockGoes(pc: PC, c: Choice, pc': PC) {
    if c == LockError then pc' == Menu
    else match pc
         case GetLock(r) => pc' == Reading(r, [])
         case PrintLock => pc' == Printing([], [])
         case SaveLock(r) => pc' == Comparing(r, [])
         case _ => false
  }

  /** The lock on `r` is given back, unless that fails. */
  ghost predicate GivesBack(s: State, p: nat, r: nat, c: Choice, s': State) {
    && p < |s.locks| == |s'.locks| && r < |s.locks[p]| == |s'.locks[p]|
    && s'.locks[p][r] == if c == LockError then s.locks[p][r] else NoLock
  }

  /** A read collects bytes and ends with the record as the file holds it. */
  ghost predicate ReadGoes(s: State, p: nat, c: Choice, s': State)
    requires p < |s.procs| && p < |s'.procs| && s.procs[p].pc.Reading?
  {
    var pc, me' := s.procs[p].pc, s'.procs[p];
    if me'.pc.Reading? then
      me'.pc.r == pc.r && pc.acc < me'.pc.acc && |me'.pc.acc| == |pc.acc| + 1
    else
      && me'.pc == Menu && me'.loaded && pc.r < |s.file| == |s.versions| && s.versions[pc.r] != []
      && me'.record == s.file[pc.r] == Last(s.versions[pc.r])
      && GivesBack(s, p, pc.r, c, s')
  }

  /** The whole-file read keeps what it has and ends only with every record, each a completed version. */
  ghost predicate PrintGoes(s: State, p: nat, c: Choice, s': State)
    requires p < |s.procs| && p < |s'.procs| && s.procs[p].pc.Printing?
  {
    var pc, pc' := s.procs[p].pc, s'.procs[p].pc;
    if pc'.Printing? then
      if pc'.lines == pc.lines then pc.acc < pc'.acc && |pc'.acc| == |pc.acc| + 1
      else pc'.lines == pc.lines + [pc.acc] && |pc.acc| == RECORD_SIZE && pc'.acc == []
    else
      && pc' == Menu && pc.lines == s.file && |s.versions| == |s.file|
      && (forall r | 0 <= r < |s.file| :: s.versions[r] != [] && pc.lines[r] == Last(s.versions[r]))
      && (forall r: nat | r < |s.file| :: GivesBack(s, p, r, c, s'))
  }

  /** The comparison reads the record to its end; then it asks if the fields differ, and writes if not. */
  ghost predicate CompareGoes(s: State, p: nat, s': State)
    requires p < |s.procs| && p < |s'.procs| && s.procs[p].pc.Comparing?
  {
    var me, pc, pc' := s.procs[p], s.procs[p].pc, s'.procs[p].pc;
    if pc'.Comparing? then
      pc'.r == pc.r && pc.acc < pc'.acc && |pc'.acc| == |pc.acc| + 1
    else
      && pc.r < |s.file| && |s.file[pc.r]| == |me.record| == RECORD_SIZE
      && pc' == if SameFields(s.file[pc.r], me.record) then Writing(pc.r, s.file[pc.r], false, 0)
                else Asking(pc.r, s.file[pc.r])
  }

  /** An answer leads to the write, or, if it is a refusal, back to the menu with the lock still held. */
  ghost predicate AnswerGoes(s: State, p: nat, c: Choice, s': State)
    requires p < |s.procs| && p < |s'.procs| && s.procs[p].pc.Asking?
  {
    var pc, me' := s.procs[p].pc, s'.procs[p];
    if c == Refuse then
      me'.pc == Menu && me'.record == me'.newRecord == pc.tmp && s'.file == s.file && s'.locks == s.locks
    else me'.pc == Writing(pc.r, pc.tmp, true, 0)
  }

  /** A write stores one byte after the other; when it is over the file holds the text, and one save says so. */
  ghost predicate WriteGoes(s: State, p: nat, s': State)
    requires p < |s.procs| && p < |s'.procs| && s.procs[p].pc.Writing?
  {
    var me, pc, pc' := s.procs[p], s.procs[p].pc, s'.procs[p].pc;
    if pc'.Writing? then pc' == pc.(i := pc.i + 1)
    else pc' == Unlocking(pc.r) && Stored(s, p, pc.r, me.newRecord, s')
  }

  /** One save more, by `p`, of `text`; the file holds `text`; other records have no new save. */
  ghost predicate Stored(s: State, p: nat, r: nat, text: Record, s': State) {
    && r < |s.saves| == |s'.saves| == |s'.file| == |s'.versions|
    && |s'.saves[r]| == |s.saves[r]| + 1 && s'.saves[r][..|s.saves[r]|] == s.saves[r]
    && s'.saves[r][|s.saves[r]|].p == p && s'.saves[r][|s.saves[r]|].after == text
    && s'.file[r] == text == Last(s'.versions[r])
    && forall x | 0 <= x < |s.saves| && x != r :: s'.saves[x] == s.saves[x]
  }

  /** A step of `p`, whatever it is about. */
  ghost predicate Goes(s: State, p: nat, c: Choice, s': State)
    requires p < |s.procs| && p < |s'.procs|
  {
    match s.procs[p].pc
    case Menu => MenuGoes(s, p, c, s')
    case GetLock(_) => LockGoes(s.procs[p].pc, c, s'.procs[p].pc)
    case PrintLock => LockGoes(s.procs[p].pc, c, s'.procs[p].pc)
    case SaveLock(_) => LockGoes(s.procs[p].pc, c, s'.procs[p].pc)
    case Reading(_, _) => ReadGoes(s, p, c, s')
    case Printing(_, _) => PrintGoes(s, p, c, s')
    case Comparing(_, _) => CompareGoes(s, p, s')
    case Asking(_, _) => AnswerGoes(s, p, c, s')
    case Writing(_, _, _, _) => WriteGoes(s, p, s')
    case Unlocking(r) => s'.procs[p].pc == Menu && GivesBack(s, p, r, c, s')
    case Exited => false
  }

  // ----- every step goes that way

  lemma MenuStepGoes(s: State, p: nat, c: Choice, s': State)
    requires Shape(s) && p < |s.procs| && s.procs[p].pc == Menu && MenuStep(s, p, c, s')
    ensures p < |s'.procs| && MenuGoes(s, p, c, s') && Follows(s.procs[p], c, s'.procs[p])
  {
  }

  lemma LockStepGoes(s: State, p: nat, c: Choice, s': State)
    requires Shape(s) && p < |s.procs| && LockStep(s, p, c, s')
    requires s.procs[p].pc.GetLock? || s.procs[p].pc.PrintLock? || s.procs[p].pc.SaveLock?
    ensures p < |s'.procs| && LockGoes(s.procs[p].pc, c, s'.procs[p].pc) && Follows(s.procs[p], c, s'.procs[p])
  {
    hide Shape;
    hide OthersHoldNo;
  }

  lemma UnlockGives(s: State, p: nat, r: nat, c: Choice)
    requires p < |s.locks| && r < |s.locks[p]|
    ensures GivesBack(s, p, r, c, Unlock(s, p, r, c))
    ensures Unlock(s, p, r, c).procs == s.procs
  {
  }

  /** What a process holds of a record it has locked and is not writing. */
  lemma HeldRecord(s: State, p: nat, r: nat)
    requires Inv(s) && p < |s.procs| && r < |s.file|
    requires s.locks[p][r] != NoLock && !WritesTo(s.procs[p].pc, r)
    ensures |s.versions| == |s.file| && s.versions[r] != [] && s.file[r] == Last(s.versions[r])
    ensures |s.file[r]| == RECORD_SIZE
  {
    NotWritten(s, p, r);
    hide SameFields;
    hide ProcOk;
    hide LocksOk;
    assert HistoryOk(s.versions[r], s.saves[r]);
  }

  lemma ProcFacts(s: State, p: nat)
    requires Inv(s) && p < |s.procs|
    ensures Shape(s) && ProcOk(s, p)
  {
    hide ProcOk;
    hide Shape;
  }

  lemma ReadStepGoes(s: State, p: nat, c: Choice, s': State)
    requires Inv(s) && p < |s.procs| && s.procs[p].pc.Reading? && ReadStep(s, p, c, s')
    ensures p < |s'.procs| && ReadGoes(s, p, c, s') && Follows(s.procs[p], c, s'.procs[p])
  {
    ProcFacts(s, p);
    var me := s.procs[p];
    var r, acc := me.pc.r, me.pc.acc;
    HeldRecord(s, p, r);
    hide Inv;
    hide Latest;
    if |acc| >= RECORD_SIZE {
      assert s.file[r][..RECORD_SIZE] == s.file[r];
      var done := me.(pc := Menu, record := acc, loaded := true,
                      got := true, source := r, version := Latest(s.versions[r]));
      UnlockGives(SetProc(s, p, done), p, r, c);
      hide Unlock;
    }
  }

  /** The whole file is read: lines, lock and all. */
  lemma PrintEnd(s: State, p: nat)
    requires Inv(s) && p < |s.procs| && s.procs[p].pc.Printing?
    ensures |s.procs[p].pc.lines| >= |s.file| ==> s.procs[p].pc.lines == s.file
    ensures |s.versions| == |s.file| && |s.locks| == |s.procs| && |s.locks[p]| == |s.file|
    ensures forall r | 0 <= r < |s.file| :: s.versions[r] != [] && s.file[r] == Last(s.versions[r])
  {
    ProcFacts(s, p);
    assert |s.procs[p].pc.lines| == |s.file| ==> s.file[..|s.procs[p].pc.lines|] == s.file;
    forall r: nat | r < |s.file| ensures s.versions[r] != [] && s.file[r] == Last(s.versions[r]) {
      HeldRecord(s, p, r);
    }
    hide Inv;
    hide Last;
  }

  lemma SetAllGives(s: State, p: nat)
    requires p < |s.locks|
    ensures forall r: nat | r < |s.locks[p]| :: GivesBack(s, p, r, Go, SetAll(s, p, NoLock))
    ensures SetAll(s, p, NoLock).procs == s.procs
  {
  }

  lemma KeepsAll(s: State, p: nat, procs: seq<Process>)
    requires p < |s.locks|
    ensures forall r: nat | r < |s.locks[p]| :: GivesBack(s, p, r, LockError, s.(procs := procs))
  {
  }

  /** Only the lock table and an error matter to giving back. */
  lemma GivesBackAgain(s: State, t: State, p: nat, r: nat, c: Choice, c': Choice, s': State)
    requires s.locks == t.locks && (c == LockError <==> c' == LockError) && GivesBack(s, p, r, c, s')
    ensures GivesBack(t, p, r, c', s')
  {
  }

  lemma PrintDone(s: State, p: nat, c: Choice, s': State)
    requires Inv(s) && p < |s.procs| && s.procs[p].pc.Printing? && |s.procs[p].pc.acc| != RECORD_SIZE
    requires |s.procs[p].pc.lines| >= |s.file|
    requires var done := SetProc(s, p, s.procs[p].(pc := Menu));
             s' == if c == LockError then done else SetAll(done, p, NoLock)
    ensures |s'.procs| == |s.procs| && s'.procs[p] == s.procs[p].(pc := Menu) && PrintGoes(s, p, c, s')
  {
    PrintEnd(s, p);
    hide Inv;
    hide Last;
    hide GivesBack;
    hide SetAll;
    var done := SetProc(s, p, s.procs[p].(pc := Menu));
    SetAllGives(done, p);
    KeepsAll(s, p, done.procs);
    forall r: nat | r < |s.file| ensures GivesBack(s, p, r, c, s') {
      if c == LockError {
        GivesBackAgain(s, s, p, r, LockError, c, s');
      } else {
        GivesBackAgain(done, s, p, r, Go, c, s');
      }
    }
  }

  lemma PrintOnGoes(s: State, p: nat, c: Choice, s': State)
    requires Shape(s) && p < |s.procs| && s.procs[p].pc.Printing? && PrintStep(s, p, c, s')
    requires |s.procs[p].pc.acc| == RECORD_SIZE || |s.procs[p].pc.lines| < |s.file|
    ensures p < |s'.procs| && PrintGoes(s, p, c, s') && Follows(s.procs[p], c, s'.procs[p])
  {
    hide Shape;
    hide GivesBack;
    hide Last;
  }

  lemma PrintStepGoes(s: State, p: nat, c: Choice, s': State)
    requires Inv(s) && Shape(s) && p < |s.procs| && s.procs[p].pc.Printing? && PrintStep(s, p, c, s')
    ensures p < |s'.procs| && PrintGoes(s, p, c, s') && Follows(s.procs[p], c, s'.procs[p])
  {
    if |s.procs[p].pc.acc| != RECORD_SIZE && |s.procs[p].pc.lines| >= |s.file| {
      hide Inv;
      hide Shape;
      hide PrintGoes;
      hide SetAll;
      PrintDone(s, p, c, s');
    } else {
      hide *;
      PrintOnGoes(s, p, c, s');
    }
  }

  lemma CompareStepGoes(s: State, p: nat, c: Choice, s': State)
    requires Inv(s) && p < |s.procs| && s.procs[p].pc.Comparing? && CompareStep(s, p, s')
    ensures p < |s'.procs| && CompareGoes(s, p, s') && Follows(s.procs[p], c, s'.procs[p])
  {
    ProcFacts(s, p);
    hide Inv;
    hide SameFields;
    var r := s.procs[p].pc.r;
    assert |s.file[r]| == RECORD_SIZE;
    assert s.file[r][..RECORD_SIZE] == s.file[r];
  }

  lemma AnswerStepGoes(s: State, p: nat, c: Choice, s': State)
    requires Shape(s) && p < |s.procs| && s.procs[p].pc.Asking? && AnswerStep(s, p, c, s')
    ensures p < |s'.procs| && AnswerGoes(s, p, c, s') && Follows(s.procs[p], c, s'.procs[p])
  {
    hide Shape;
    hide Latest;
  }

  /** With the last byte out the file holds the text. */
  lemma WriteEnd(s: State, p: nat)
    requires Inv(s) && p < |s.procs| && s.procs[p].pc.Writing? && s.procs[p].pc.i == RECORD_SIZE
    ensures s.procs[p].pc.r < |s.file| == |s.versions| == |s.saves|
    ensures s.file[s.procs[p].pc.r] == s.procs[p].newRecord
  {
    ProcFacts(s, p);
    hide Inv;
    hide SameFields;
    var me := s.procs[p];
    assert me.newRecord[..RECORD_SIZE] + me.pc.before[RECORD_SIZE..] == me.newRecord;
  }

  lemma WriteDone(s: State, p: nat, s': State)
    requires Inv(s) && p < |s.procs| && s.procs[p].pc.Writing? && WriteStep(s, p, s') && s.procs[p].pc.i == RECORD_SIZE
    ensures |s'.procs| == |s.procs| && s'.procs[p] == s.procs[p].(pc := Unlocking(s.procs[p].pc.r))
    ensures Stored(s, p, s.procs[p].pc.r, s.procs[p].newRecord, s')
  {
    WriteEnd(s, p);
    hide Inv;
    hide Shape;
  }

  lemma WriteByteGoes(s: State, p: nat, c: Choice, s': State)
    requires Shape(s) && p < |s.procs| && s.procs[p].pc.Writing? && WriteStep(s, p, s')
    requires s.procs[p].pc.i != RECORD_SIZE
    ensures p < |s'.procs| && WriteGoes(s, p, s') && Follows(s.procs[p], c, s'.procs[p])
  {
    hide Shape;
  }

  lemma WriteDoneGoes(s: State, p: nat, c: Choice, s': State)
    requires p < |s.procs| == |s'.procs| && s.procs[p].pc.Writing?
    requires s'.procs[p] == s.procs[p].(pc := Unlocking(s.procs[p].pc.r))
    requires Stored(s, p, s.procs[p].pc.r, s.procs[p].newRecord, s')
    ensures WriteGoes(s, p, s') && Follows(s.procs[p], c, s'.procs[p])
  {
    hide Stored;
  }

  lemma WriteStepGoes(s: State, p: nat, c: Choice, s': State)
    requires Inv(s) && p < |s.procs| && s.procs[p].pc.Writing? && Shape(s) && WriteStep(s, p, s')
    ensures p < |s'.procs| && WriteGoes(s, p, s') && Follows(s.procs[p], c, s'.procs[p])
  {
    hide *;
    if s.procs[p].pc.i == RECORD_SIZE {
      WriteDone(s, p, s');
      WriteDoneGoes(s, p, c, s');
    } else {
      WriteByteGoes(s, p, c, s');
    }
  }

  lemma UnlockStepGoes(s: State, p: nat, c: Choice, s': State)
    requires Shape(s) && p < |s.procs| && s.procs[p].pc.Unlocking? && s.procs[p].pc.r < |s.file|
    requires s' == Unlock(SetProc(s, p, s.procs[p].(pc := Menu)), p, s.procs[p].pc.r, c)
    ensures p < |s'.procs| && Goes(s, p, c, s') && Follows(s.procs[p], c, s'.procs[p])
  {
    UnlockGives(SetProc(s, p, s.procs[p].(pc := Menu)), p, s.procs[p].pc.r, c);
    hide Unlock;
  }

  lemma StepGoes(s: State, p: nat, c: Choice, s': State)
    requires Inv(s) && Next(s, p, c, s')
    ensures p < |s.procs| && p < |s'.procs| && Goes(s, p, c, s') && Follows(s.procs[p], c, s'.procs[p])
  {
    hide Inv;
    hide Follows;
    hide MenuStep;
    hide LockStep;
    hide ReadStep;
    hide PrintStep;
    hide CompareStep;
    hide AnswerStep;
    hide WriteStep;
    hide Unlock;
    hide Shape;
    hide MenuGoes;
    hide LockGoes;
    hide ReadGoes;
    hide PrintGoes;
    hide CompareGoes;
    hide AnswerGoes;
    hide WriteGoes;
    hide GivesBack;
    var pc := s.procs[p].pc;
    if pc == Menu {
      MenuStepGoes(s, p, c, s');
    } else if pc.GetLock? || pc.PrintLock? || pc.SaveLock? {
      LockStepGoes(s, p, c, s');
    } else if pc.Reading? {
      ReadStepGoes(s, p, c, s');
    } else if pc.Printing? {
      PrintStepGoes(s, p, c, s');
    } else if pc.Comparing? {
      CompareStepGoes(s, p, c, s');
    } else if pc.Asking? {
      AnswerStepGoes(s, p, c, s');
    } else if pc.Writing? {
      WriteStepGoes(s, p, c, s');
    } else {
      UnlockStepGoes(s, p, c, s');
    }
  }

  // ----- main results

  lemma RunGoes(run: seq<State>, moves: seq<Move>, k: nat)
    requires IsRun(run, moves) && k < |moves|
    ensures |run| == |moves| + 1 && Inv(run[k]) && Next(run[k], moves[k].p, moves[k].c, run[k + 1])
    ensures |run[k].procs| == |run[k + 1].procs| && moves[k].p < |run[k].procs|
    ensures forall q: nat | q < |run[k].procs| && q != moves[k].p :: run[k + 1].procs[q] == run[k].procs[q]
    ensures Goes(run[k], moves[k].p, moves[k].c, run[k + 1])
    ensures Follows(run[k].procs[moves[k].p], moves[k].c, run[k + 1].procs[moves[k].p])
  {
    hide Inv;
    hide Next;
    hide Begins;
    hide Goes;
    hide Follows;
    assert Next(run[k], moves[k].p, moves[k].c, run[k + 1]);
    RunInv(run, moves, k);
    StepGoes(run[k], moves[k].p, moves[k].c, run[k + 1]);
    StepGrows(run[k], moves[k].p, moves[k].c, run[k + 1]);
  }

  lemma {:induction false} SameTeam(run: seq<State>, moves: seq<Move>, k: nat)
    requires IsRun(run, moves) && k < |run|
    ensures forall i | 0 <= i <= k :: |run[i].procs| == |run[k].procs|
  {
    hide Goes;
    hide Follows;
    hide Inv;
    hide Next;
    hide Begins;
    if k > 0 {
      SameTeam(run, moves, k - 1);
      RunGoes(run, moves, k - 1);
    }
  }

  /**
   * Record number, remembered record and text of every process are what its moves say:
   * the number of the last `g`, what it read or was shown last, and the text of its last
   * edit or what it was shown at a refusal since.
   */
  lemma {:induction false} SessionIs(run: seq<State>, moves: seq<Move>, p: nat, k: nat)
    requires IsRun(run, moves) && k < |run| && k <= |moves| && forall i | 0 <= i <= k :: p < |run[i].procs|
    ensures StandsAt(run[k].procs[p]) == SessionOf(run, moves, p, k)
  {
    hide *;
    if k == 0 {
      FirstSession(run, moves, p);
    } else {
      var i := k - 1;
      SessionIs(run, moves, p, i);
      RunGoes(run, moves, i);
      NextSession(run, moves, p, i, k);
    }
  }

  lemma FirstSession(run: seq<State>, moves: seq<Move>, p: nat)
    requires run != [] && p < |run[0].procs|
    ensures SessionOf(run, moves, p, 0) == StandsAt(run[0].procs[p])
  {
    hide Moved;
  }

  lemma {:induction false} NextSession(run: seq<State>, moves: seq<Move>, p: nat, i: nat, k: nat)
    requires k == i + 1 < |run| && k <= |moves| && forall j | 0 <= j <= k :: p < |run[j].procs|
    requires StandsAt(run[i].procs[p]) == SessionOf(run, moves, p, i)
    requires moves[i].p == p ==> Follows(run[i].procs[p], moves[i].c, run[k].procs[p])
    requires moves[i].p != p ==> run[k].procs[p] == run[i].procs[p]
    ensures StandsAt(run[k].procs[p]) == SessionOf(run, moves, p, k)
  {
    var was := SessionOf(run, moves, p, i);
    assert SessionOf(run, moves, p, k)
        == if moves[i].p == p then Moved(was, run[i].procs[p].pc, moves[i].c) else was;
  }

  /**
   * A process that comes to the end of a save has stored the text of its session: one
   * save more of that record, by this process, the file holds the text, and no other
   * record has a new save.
   */
  lemma SaveEnds(run: seq<State>, moves: seq<Move>, p: nat, r: nat, k: nat)
    requires IsRun(run, moves) && k < |moves| && forall i | 0 <= i <= k + 1 :: p < |run[i].procs|
    requires run[k].procs[p].pc != Unlocking(r) && run[k + 1].procs[p].pc == Unlocking(r)
    ensures var s, s', text := run[k], run[k + 1], SessionOf(run, moves, p, k).text;
      && r < |s.saves| == |s'.saves| == |s'.file| && s.procs[p].newRecord == text
      && |s'.saves[r]| == |s.saves[r]| + 1 && s'.saves[r][..|s.saves[r]|] == s.saves[r]
      && s'.saves[r][|s.saves[r]|].p == p && s'.saves[r][|s.saves[r]|].after == text
      && s'.file[r] == text
      && forall x | 0 <= x < |s.saves| && x != r :: s'.saves[x] == s.saves[x]
  {
    RunGoes(run, moves, k);
    SessionIs(run, moves, p, k);
    hide IsRun;
    hide SessionOf;
    hide Inv;
    hide Next;
  }

  /**
   * A save is left only at its end, by a refusal, which takes over what was shown and
   * leaves the file alone, or by a lock that could not be had.
   */
  lemma SaveLeaves(run: seq<State>, moves: seq<Move>, p: nat, k: nat)
    requires IsRun(run, moves) && k < |moves| && p < |run[k].procs| && p < |run[k + 1].procs|
    requires Saving(run[k].procs[p].pc) && !Saving(run[k + 1].procs[p].pc)
    ensures var s, s', pc, me' := run[k], run[k + 1], run[k].procs[p].pc, run[k + 1].procs[p];
      || (pc.Writing? && me'.pc == Unlocking(pc.r))
      || (pc.Asking? && moves[k] == Move(p, Refuse) && me'.pc == Menu && s'.file == s.file
          && me'.record == me'.newRecord == pc.tmp)
      || (pc.SaveLock? && moves[k] == Move(p, LockError) && me'.pc == Menu && me'.newRecord == s.procs[p].newRecord)
  {
    RunGoes(run, moves, k);
    hide IsRun;
    hide Inv;
    hide Next;
  }

  /**
   * A wait for a lock ends in the operation, at its first byte, or, if the lock could
   * not be had, in the menu with nothing changed.
   */
  lemma WaitEnds(run: seq<State>, moves: seq<Move>, p: nat, k: nat)
    requires IsRun(run, moves) && k < |moves| && moves[k].p == p < |run[k].procs| && p < |run[k + 1].procs|
    requires run[k].procs[p].pc.GetLock? || run[k].procs[p].pc.PrintLock? || run[k].procs[p].pc.SaveLock?
    ensures var me, me' := run[k].procs[p], run[k + 1].procs[p];
      if moves[k].c == LockError then
        me'.pc == Menu && StandsAt(me') == StandsAt(me)
      else
        && (me.pc.GetLock? ==> me'.pc == Reading(me.pc.r, []))
        && (me.pc.PrintLock? ==> me'.pc == Printing([], []))
        && (me.pc.SaveLock? ==> me'.pc == Comparing(me.pc.r, []))
  {
    RunGoes(run, moves, k);
    hide IsRun;
    hide Inv;
    hide Next;
  }

  /** A single-record read is left only with the whole record, in its last completed version. */
  lemma ReadEnds(run: seq<State>, moves: seq<Move>, p: nat, k: nat)
    requires IsRun(run, moves) && k < |moves| && p < |run[k].procs| && p < |run[k + 1].procs|
    requires run[k].procs[p].pc.Reading? && !run[k + 1].procs[p].pc.Reading?
    ensures var s, r, me' := run[k], run[k].procs[p].pc.r, run[k + 1].procs[p];
      && me'.pc == Menu && me'.loaded && r < |s.file| == |s.versions| && s.versions[r] != []
      && me'.record == s.file[r] == s.versions[r][|s.versions[r]| - 1]
      && GivesBack(s, p, r, moves[k].c, run[k + 1])
  {
    RunGoes(run, moves, k);
    hide IsRun;
    hide Inv;
    hide Next;
  }

  /**
   * The whole-file read keeps the lines it has from step to step, and is left only with
   * all records as they stand at that instant, each in its last completed version.
   */
  lemma PrintEnds(run: seq<State>, moves: seq<Move>, p: nat, k: nat)
    requires IsRun(run, moves) && k < |moves| && p < |run[k].procs| && p < |run[k + 1].procs|
    requires run[k].procs[p].pc.Printing?
    ensures run[k + 1].procs[p].pc.Printing? ==> run[k].procs[p].pc.lines <= run[k + 1].procs[p].pc.lines
    ensures !run[k + 1].procs[p].pc.Printing? ==>
      var s, s', lines := run[k], run[k + 1], run[k].procs[p].pc.lines;
      && run[k + 1].procs[p].pc == Menu && lines == s.file && |s.versions| == |s.file|
      && (forall r | 0 <= r < |s.file| :: s.versions[r] != [] && lines[r] == s.versions[r][|s.versions[r]| - 1])
      && (forall r: nat | r < |s.file| :: GivesBack(s, p, r, moves[k].c, s'))
  {
    RunGoes(run, moves, k);
    hide IsRun;
    hide Inv;
    hide Next;
  }

  /** A process that has come to the end of a save gives its lock back, unless that fails. */
  lemma SaveUnlocks(run: seq<State>, moves: seq<Move>, p: nat, k: nat)
    requires IsRun(run, moves) && k < |moves| && moves[k].p == p < |run[k].procs| && p < |run[k + 1].procs|
    requires run[k].procs[p].pc.Unlocking?
    ensures run[k + 1].procs[p].pc == Menu
    ensures GivesBack(run[k], p, run[k].procs[p].pc.r, moves[k].c, run[k + 1])
  {
    RunGoes(run, moves, k);
    hide IsRun;
    hide Inv;
    hide Next;
  }

  /** The menu: a choice begins the operation it names, on the record of the session. */
  lemma MenuBegins(run: seq<State>, moves: seq<Move>, p: nat, k: nat)
    requires IsRun(run, moves) && k < |moves| && moves[k].p == p && forall i | 0 <= i <= k + 1 :: p < |run[i].procs|
    requires run[k].procs[p].pc == Menu
    ensures var c, pc', s' := moves[k].c, run[k + 1].procs[p].pc, run[k + 1];
      && (c.Get? ==> pc' == GetLock(c.n)) && (c == Print ==> pc' == PrintLock) && (c.Edit? ==> pc' == Menu)
      && (c == SaveIt ==> pc' == SaveLock(SessionOf(run, moves, p, k).current))
      && (c == Quit ==> pc' == Exited && p < |s'.locks|
                        && forall r | 0 <= r < |s'.locks[p]| :: s'.locks[p][r] == NoLock)
      && (c.Get? || c == Print || c.Edit? || c == SaveIt || c == Quit)
  {
    RunGoes(run, moves, k);
    SessionIs(run, moves, p, k);
    hide IsRun;
    hide SessionOf;
    hide Inv;
    hide Next;
  }

  // ----- operations come to an end

  /** Steps an operation has before it, on a file of `n` records. */
  function StepsLeft(n: nat, pc: PC): int {
    match pc
    case Menu => 0
    case Exited => 0
    case GetLock(_) => RECORD_SIZE + 2
    case Reading(_, acc) => RECORD_SIZE + 1 - |acc|
    case PrintLock => 2 + n * (RECORD_SIZE + 2)
    case Printing(lines, acc) => 1 + (n - |lines|) * (RECORD_SIZE + 2) - |acc|
    case SaveLock(_) => 2 * RECORD_SIZE + 5
    case Comparing(_, acc) => 2 * RECORD_SIZE + 4 - |acc|
    case Asking(_, _) => RECORD_SIZE + 3
    case Writing(_, _, _, i) => RECORD_SIZE + 2 - i
    case Unlocking(_) => 1
  }

  /** Every step of its own brings an operation nearer to its end; the steps of others do not matter to it. */
  lemma OperationsEnd(run: seq<State>, moves: seq<Move>, p: nat, k: nat)
    requires IsRun(run, moves) && k < |moves| && p < |run[k].procs| && p < |run[k + 1].procs|
    requires run[k].procs[p].pc != Menu
    ensures var n, left, left' := |run[k].file|, run[k].procs[p].pc, run[k + 1].procs[p].pc;
      if moves[k].p == p then 0 <= StepsLeft(n, left') < StepsLeft(n, left) else left' == left
    ensures |run[k + 1].file| == |run[k].file|
  {
    hide *;
    RunGoes(run, moves, k);
    SameFile(run[k], moves[k].p, moves[k].c, run[k + 1]);
    if moves[k].p == p {
      RunInv(run, moves, k + 1);
      Nearer(run[k], p, moves[k].c, run[k + 1]);
    }
  }

  lemma SameFile(s: State, p: nat, c: Choice, s': State)
    requires Next(s, p, c, s')
    ensures |s'.file| == |s.file|
  {
    hide *;
    StepEffects(s, p, c, s', 0);
    FileSize(s, p, c, s');
  }

  lemma FileSize(s: State, p: nat, c: Choice, s': State)
    requires Next(s, p, c, s') && Effects(s, p, s', 0)
    ensures |s'.file| == |s.file|
  {
    hide Shape;
    hide MenuStep;
    hide LockStep;
    hide ReadStep;
    hide PrintStep;
    hide CompareStep;
    hide AnswerStep;
  }

  /** An operation under way has at least one step before it; none is left in the menu. */
  lemma SomeLeft(s: State, p: nat)
    requires Shape(s) && p < |s.procs| && ProcOk(s, p)
    ensures StepsLeft(|s.file|, s.procs[p].pc) >= 0
    ensures s.procs[p].pc != Menu && s.procs[p].pc != Exited ==> StepsLeft(|s.file|, s.procs[p].pc) > 0
    ensures s.procs[p].pc.Printing? ==> |s.procs[p].pc.acc| <= RECORD_SIZE && |s.procs[p].pc.lines| <= |s.file|
  {
    hide Shape;
    hide SameFields;
  }

  lemma PrintNearer(n: nat, pc: PC, pc': PC)
    requires pc.Printing? && pc'.Printing?
    requires if pc'.lines == pc.lines then |pc'.acc| == |pc.acc| + 1
             else pc'.lines == pc.lines + [pc.acc] && |pc.acc| == RECORD_SIZE && pc'.acc == []
    ensures StepsLeft(n, pc') < StepsLeft(n, pc)
  {
  }

  lemma ReadersNearer(s: State, p: nat, c: Choice, s': State)
    requires p < |s.procs| == |s'.procs| && Goes(s, p, c, s')
    requires s.procs[p].pc.Reading? || s.procs[p].pc.Printing?
    ensures s'.procs[p].pc == Menu || StepsLeft(|s.file|, s'.procs[p].pc) < StepsLeft(|s.file|, s.procs[p].pc)
  {
    hide GivesBack;
    hide Last;
    if s.procs[p].pc.Printing? {
      hide StepsLeft;
      if s'.procs[p].pc.Printing? {
        PrintNearer(|s.file|, s.procs[p].pc, s'.procs[p].pc);
      }
    }
  }

  lemma SaversNearer(s: State, p: nat, c: Choice, s': State)
    requires p < |s.procs| == |s'.procs| && Goes(s, p, c, s')
    requires Shape(s) && ProcOk(s, p)
    requires s.procs[p].pc.Comparing? || s.procs[p].pc.Asking? || s.procs[p].pc.Writing? || s.procs[p].pc.Unlocking?
    ensures s'.procs[p].pc == Menu || StepsLeft(|s.file|, s'.procs[p].pc) < StepsLeft(|s.file|, s.procs[p].pc)
  {
    hide Shape;
    hide GivesBack;
    hide SameFields;
    hide Stored;
  }

  lemma WaitersNearer(n: nat, pc: PC, c: Choice, pc': PC)
    requires LockGoes(pc, c, pc') && (pc.GetLock? || pc.PrintLock? || pc.SaveLock?)
    ensures 0 <= StepsLeft(n, pc') < StepsLeft(n, pc)
  {
  }

  lemma Nearer(s: State, p: nat, c: Choice, s': State)
    requires Inv(s) && Inv(s') && p < |s.procs| == |s'.procs| && s.procs[p].pc != Menu && Goes(s, p, c, s')
    requires |s'.file| == |s.file|
    ensures 0 <= StepsLeft(|s.file|, s'.procs[p].pc) < StepsLeft(|s.file|, s.procs[p].pc)
  {
    ProcFacts(s, p);
    ProcFacts(s', p);
    SomeLeft(s, p);
    SomeLeft(s', p);
    hide Inv;
    hide Shape;
    hide ProcOk;
    hide MenuGoes;
    hide LockGoes;
    hide ReadGoes;
    hide PrintGoes;
    hide CompareGoes;
    hide AnswerGoes;
    hide WriteGoes;
    hide GivesBack;
    var pc, pc' := s.procs[p].pc, s'.procs[p].pc;
    assert StepsLeft(|s.file|, Menu) == 0;
    hide StepsLeft;
    if pc.GetLock? || pc.PrintLock? || pc.SaveLock? {
      WaitersNearer(|s.file|, pc, c, pc');
    } else if pc.Reading? || pc.Printing? {
      ReadersNearer(s, p, c, s');
    } else if pc != Exited {
      SaversNearer(s, p, c, s');
    }
  }

  /** Whether the lock a process waits for can be had. */
  ghost predicate LockFree(s: State, p: nat)
    requires p < |s.procs|
  {
    match s.procs[p].pc
    case GetLock(r) => OthersHoldNo(s, p, r, WriteLock)
    case PrintLock => forall r: nat | r < |s.file| :: OthersHoldNo(s, p, r, WriteLock)
    case SaveLock(r) => OthersHoldNo(s, p, r, WriteLock) && OthersHoldNo(s, p, r, ReadLock)
    case _ => true
  }

  /** A lock is granted only then. */
  lemma OnlyWhenFree(s: State, p: nat, s': State)
    requires Next(s, p, Go, s') && (s.procs[p].pc.GetLock? || s.procs[p].pc.PrintLock? || s.procs[p].pc.SaveLock?)
    ensures LockFree(s, p)
  {
    hide Shape;
    hide OthersHoldNo;
    hide SetLock;
    hide SetAll;
  }

  lemma LockCan(s: State, p: nat) returns (s': State)
    requires Shape(s) && p < |s.procs| && ProcOk(s, p) && LockFree(s, p)
    requires s.procs[p].pc.GetLock? || s.procs[p].pc.PrintLock? || s.procs[p].pc.SaveLock?
    ensures LockStep(s, p, Go, s')
  {
    hide OthersHoldNo;
    hide SameFields;
    var me := s.procs[p];
    if me.pc.GetLock? {
      s' := SetLock(SetProc(s, p, me.(pc := Reading(me.pc.r, []))), p, me.pc.r, ReadLock);
    } else if me.pc.PrintLock? {
      s' := SetAll(SetProc(s, p, me.(pc := Printing([], []))), p, ReadLock);
    } else {
      s' := SetLock(SetProc(s, p, me.(pc := Comparing(me.pc.r, []))), p, me.pc.r, WriteLock);
    }
  }

  lemma ReadCan(s: State, p: nat) returns (s': State)
    requires Shape(s) && p < |s.procs| && ProcOk(s, p) && s.procs[p].pc.Reading?
    ensures ReadStep(s, p, Go, s')
  {
    var me := s.procs[p];
    var r, acc := me.pc.r, me.pc.acc;
    if |acc| < RECORD_SIZE {
      s' := SetProc(s, p, me.(pc := Reading(r, acc + [s.file[r][|acc|]])));
    } else {
      s' := Unlock(SetProc(s, p, me.(pc := Menu, record := acc, loaded := true,
                                     got := true, source := r, version := Latest(s.versions[r]))), p, r, Go);
    }
  }

  lemma PrintCan(s: State, p: nat) returns (s': State)
    requires Shape(s) && p < |s.procs| && ProcOk(s, p) && s.procs[p].pc.Printing?
    ensures PrintStep(s, p, Go, s')
  {
    var me := s.procs[p];
    var lines, acc := me.pc.lines, me.pc.acc;
    if |acc| == RECORD_SIZE {
      s' := SetProc(s, p, me.(pc := Printing(lines + [acc], [])));
    } else if |lines| < |s.file| {
      s' := SetProc(s, p, me.(pc := Printing(lines, acc + [s.file[|lines|][|acc|]])));
    } else {
      s' := SetAll(SetProc(s, p, me.(pc := Menu)), p, NoLock);
    }
  }

  lemma CompareCan(s: State, p: nat) returns (s': State)
    requires Shape(s) && p < |s.procs| && ProcOk(s, p) && s.procs[p].pc.Comparing?
    ensures CompareStep(s, p, s')
  {
    hide Str;
    var me := s.procs[p];
    var r, acc := me.pc.r, me.pc.acc;
    s' := SetProc(s, p, me.(pc :=
      if |acc| < RECORD_SIZE then Comparing(r, acc + [s.file[r][|acc|]])
      else if SameFields(acc, me.record) then Writing(r, acc, false, 0)
      else Asking(r, acc)));
  }

  lemma AnswerCan(s: State, p: nat) returns (s': State)
    requires Shape(s) && p < |s.procs| && ProcOk(s, p) && s.procs[p].pc.Asking?
    ensures AnswerStep(s, p, Insist, s')
  {
    hide SameFields;
    var me := s.procs[p];
    s' := SetProc(s, p, me.(pc := Writing(me.pc.r, me.pc.tmp, true, 0)));
  }

  lemma WriteCan(s: State, p: nat) returns (s': State)
    requires Shape(s) && p < |s.procs| && ProcOk(s, p) && s.procs[p].pc.Writing?
    ensures WriteStep(s, p, s')
  {
    hide SameFields;
    var me := s.procs[p];
    var r, before, shown, i := me.pc.r, me.pc.before, me.pc.shown, me.pc.i;
    if i < RECORD_SIZE {
      s' := SetProc(s, p, me.(pc := Writing(r, before, shown, i + 1)))
            .(file := s.file[r := s.file[r][i := me.newRecord[i]]]);
    } else {
      var save := Save(p, before, me.newRecord, me.record, shown, me.got, me.source, me.version);
      s' := SetProc(s, p, me.(pc := Unlocking(r)))
            .(versions := s.versions[r := s.versions[r] + [me.newRecord]], saves := s.saves[r := s.saves[r] + [save]]);
    }
  }

  /** What a process in a state of the invariant can do. */
  lemma Can(s: State, p: nat) returns (c: Choice, s': State)
    requires Shape(s) && p < |s.procs| && ProcOk(s, p) && LockFree(s, p) && s.procs[p].pc != Exited
    ensures c != LockError && Next(s, p, c, s')
  {
    hide Shape;
    hide LockFree;
    hide MenuStep;
    hide LockStep;
    hide ReadStep;
    hide PrintStep;
    hide CompareStep;
    hide AnswerStep;
    hide WriteStep;
    hide Unlock;
    var pc := s.procs[p].pc;
    c := Go;
    if pc == Menu {
      c, s' := Print, SetProc(s, p, s.procs[p].(pc := PrintLock));
      assert MenuStep(s, p, c, s') by { PrintChosen(s, p); }
    } else if pc.GetLock? || pc.PrintLock? || pc.SaveLock? {
      s' := LockCan(s, p);
    } else if pc.Reading? {
      s' := ReadCan(s, p);
    } else if pc.Printing? {
      s' := PrintCan(s, p);
    } else if pc.Comparing? {
      s' := CompareCan(s, p);
    } else if pc.Asking? {
      s' := AnswerCan(s, p);
      c := Insist;
    } else if pc.Writing? {
      s' := WriteCan(s, p);
    } else {
      assert pc.r < |s.file| && |s.locks| == |s.procs| && |s.locks[p]| == |s.file| by { UnlockingAt(s, p); }
      s' := Unlock(SetProc(s, p, s.procs[p].(pc := Menu)), p, pc.r, c);
    }
  }

  lemma PrintChosen(s: State, p: nat)
    requires Shape(s) && p < |s.procs|
    ensures MenuStep(s, p, Print, SetProc(s, p, s.procs[p].(pc := PrintLock)))
  {
  }

  lemma UnlockingAt(s: State, p: nat)
    requires Shape(s) && p < |s.procs| && ProcOk(s, p) && s.procs[p].pc.Unlocking?
    ensures s.procs[p].pc.r < |s.file| && |s.locks| == |s.procs| && |s.locks[p]| == |s.file|
  {
  }

  /**
   * A process that has not left can always go on; one that waits for a lock, as soon as
   * nobody holds a lock against it.
   */
  lemma CanGoOn(run: seq<State>, moves: seq<Move>, p: nat, k: nat) returns (c: Choice, s': State)
    requires IsRun(run, moves) && k < |run| && p < |run[k].procs| && run[k].procs[p].pc != Exited
    requires LockFree(run[k], p)
    ensures c != LockError && Next(run[k], p, c, s')
  {
    hide *;
    RunInv(run, moves, k);
    ProcFacts(run[k], p);
    c, s' := Can(run[k], p);
  }
}
