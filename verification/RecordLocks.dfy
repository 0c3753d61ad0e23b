/**
 * Several processes reading and editing fixed-size records of one file under
 * advisory record locks, as a step system. Records travel byte by byte.
 */
module RecordLocks {

  type Byte = b: int | 0 <= b < 256

  /** name[80], address[80], semester. */
  type Record = seq<Byte>

  const FIELD := 80
  const RECORD_SIZE := 2 * FIELD + 1

  /** The bytes of a char array up to its terminator. */
  function Str(s: seq<Byte>): seq<Byte> {
    if s == [] || s[0] == 0 then [] else [s[0]] + Str(s[1..])
  }

  /** The comparison before overwriting: two `strcmp` calls and one byte. */
  predicate SameFields(a: Record, b: Record)
    requires |a| == |b| == RECORD_SIZE
  {
    && Str(a[..FIELD]) == Str(b[..FIELD])
    && Str(a[FIELD..2 * FIELD]) == Str(b[FIELD..2 * FIELD])
    && a[2 * FIELD] == b[2 * FIELD]
  }

  /** No byte from `from` up to `to` is a terminator. */
  predicate NoZero(a: seq<Byte>, from: nat, to: nat)
    requires to <= |a|
  {
    forall j | from <= j < to :: a[j] != 0
  }

  /** Strings in char arrays of one length agree byte by byte, up to and with the first terminator. */
  ghost predicate Agree(a: seq<Byte>, b: seq<Byte>)
    requires |a| == |b|
  {
    forall i | 0 <= i < |a| && NoZero(a, 0, i) :: a[i] == b[i]
  }

  lemma {:induction false} SameStr(a: seq<Byte>, b: seq<Byte>)
    requires |a| == |b|
    ensures Str(a) == Str(b) <==> Agree(a, b)
  {
    if a != [] {
      assert NoZero(a, 0, 0);
      if a[0] == b[0] != 0 {
        SameStr(a[1..], b[1..]);
        SameTail(a, b);
      } else if a[0] == b[0] {
        forall i | 0 < i < |a| ensures !NoZero(a, 0, i) {
          assert a[0] == 0;
        }
      } else {
        assert !Agree(a, b);
        assert Str(a) != [] && Str(b) != [] ==> Str(a)[0] == a[0] && Str(b)[0] == b[0];
      }
    }
  }

  lemma SameTail(a: seq<Byte>, b: seq<Byte>)
    requires a != [] && |a| == |b| && a[0] == b[0] != 0
    ensures Str(a) == Str(b) <==> Str(a[1..]) == Str(b[1..])
    ensures Agree(a, b) <==> Agree(a[1..], b[1..])
  {
    assert Str(a)[1..] == Str(a[1..]) && Str(b)[1..] == Str(b[1..]);
    if Agree(a, b) {
      forall i | 0 <= i < |a| - 1 && NoZero(a[1..], 0, i) ensures a[1..][i] == b[1..][i] {
        assert forall j | 1 <= j < i + 1 :: a[j] == a[1..][j - 1];
        assert NoZero(a, 0, i + 1);
      }
    }
    if Agree(a[1..], b[1..]) {
      forall i | 0 <= i < |a| && NoZero(a, 0, i) ensures a[i] == b[i] {
        if i > 0 {
          assert NoZero(a[1..], 0, i - 1);
          assert a[1..][i - 1] == b[1..][i - 1];
        }
      }
    }
  }

  /** The comparison, byte by byte: name and address up to and with their first terminator, and the semester. */
  lemma SameFieldsIff(a: Record, b: Record)
    requires |a| == |b| == RECORD_SIZE
    ensures SameFields(a, b) <==>
      && a[160] == b[160]
      && (forall i | 0 <= i < 80 && NoZero(a, 0, i) :: a[i] == b[i])
      && (forall i | 80 <= i < 160 && NoZero(a, 80, i) :: a[i] == b[i])
  {
    FieldAgrees(a, b, 0);
    FieldAgrees(a, b, 80);
  }

  lemma FieldAgrees(a: Record, b: Record, f: nat)
    requires f + 80 <= |a| == |b|
    ensures Str(a[f..f + 80]) == Str(b[f..f + 80]) <==>
            forall i | f <= i < f + 80 && NoZero(a, f, i) :: a[i] == b[i]
  {
    var x, y := a[f..f + 80], b[f..f + 80];
    SameStr(x, y);
    forall i | f <= i < f + 80 ensures NoZero(a, f, i) <==> NoZero(x, 0, i - f) {
      assert forall j | f <= j < i :: a[j] == x[j - f];
      assert forall j | 0 <= j < i - f :: x[j] == a[f + j];
    }
    assert forall i | f <= i < f + 80 :: a[i] == x[i - f] && b[i] == y[i - f];
    assert forall i | 0 <= i < 80 :: x[i] == a[f + i] && y[i] == b[f + i];
  }

  datatype Mode = NoLock | ReadLock | WriteLock

  datatype PC =
    | Menu
    | GetLock(r: nat)                                        // getRecordNumb: waiting for the read lock
    | Reading(r: nat, acc: Record)                           // reading byte |acc|
    | PrintLock                                              // printAllFile: waiting for the whole file
    | Printing(lines: seq<Record>, acc: Record)
    | SaveLock(r: nat)                                       // saveRecord: waiting for the write lock
    | Comparing(r: nat, acc: Record)                         // reading what the file holds now
    | Asking(r: nat, tmp: Record)                            // changed: shown to the user
    | Writing(r: nat, before: Record, shown: bool, i: nat)   // bytes below i are written
    | Unlocking(r: nat)
    | Exited

  /**
   * `record` and `newRecord` of main; `loaded` and `edited` say that they have been
   * filled. History only: `got` says that the last `g` got its lock, `source` and
   * `version` which version of which record `record` is.
   */
  datatype Process = Process(
    pc: PC, record: Record, loaded: bool, newRecord: Record, edited: bool, current: nat,
    got: bool, source: nat, version: nat)

  /**
   * One completed write: what it replaced, what the writer remembered, whether the
   * change was shown to it, and where what it remembered came from.
   */
  datatype Save = Save(
    p: nat, before: Record, after: Record, remembered: Record, shown: bool,
    got: bool, source: nat, version: nat)

  /** `versions` and `saves` record, for each record of the file, its completed contents and the writes between them. */
  datatype State = State(
    file: seq<Record>, locks: seq<seq<Mode>>, procs: seq<Process>,
    versions: seq<seq<Record>>, saves: seq<seq<Save>>)

  /** What the user or the kernel decides. */
  datatype Choice =
    | Get(n: nat) | Print | Edit(text: Record) | SaveIt | Quit
    | Refuse      // answer 'n'
    | Insist      // any other answer
    | LockError   // fcntl returns -1
    | Go

  ghost predicate OthersHoldNo(s: State, p: nat, r: nat, mode: Mode) {
    forall q: nat | q < |s.locks| && q != p && r < |s.locks[q]| :: s.locks[q][r] != mode
  }

  function SetProc(s: State, p: nat, proc: Process): State
    requires p < |s.procs|
  {
    s.(procs := s.procs[p := proc])
  }

  function SetLock(s: State, p: nat, r: nat, mode: Mode): State
    requires p < |s.locks| && r < |s.locks[p]|
  {
    s.(locks := s.locks[p := s.locks[p][r := mode]])
  }

  function SetAll(s: State, p: nat, mode: Mode): State
    requires p < |s.locks|
  {
    s.(locks := s.locks[p := seq(|s.locks[p]|, _ => mode)])
  }

  ghost predicate Shape(s: State) {
    && |s.locks| == |s.procs| && |s.versions| == |s.saves| == |s.file|
    && (forall p | 0 <= p < |s.locks| :: |s.locks[p]| == |s.file|)
    && (forall r | 0 <= r < |s.file| :: |s.file[r]| == RECORD_SIZE)
    && (forall p | 0 <= p < |s.procs| :: |s.procs[p].record| == |s.procs[p].newRecord| == RECORD_SIZE)
  }

  // ----- the steps

  /** A choice from the menu. A record number has to exist, and `s` comes after `g` and `r`. */
  ghost predicate MenuStep(s: State, p: nat, c: Choice, s': State)
    requires Shape(s) && p < |s.procs|
  {
    var me := s.procs[p];
    match c
    case Get(n) => n < |s.file| && s' == SetProc(s, p, me.(current := n, got := false, pc := GetLock(n)))
    case Print => s' == SetProc(s, p, me.(pc := PrintLock))
    case Edit(text) => me.loaded && |text| == RECORD_SIZE && s' == SetProc(s, p, me.(newRecord := text, edited := true))
    case SaveIt => me.edited && me.current < |s.file| && s' == SetProc(s, p, me.(pc := SaveLock(me.current)))
    case Quit => s' == SetAll(SetProc(s, p, me.(pc := Exited)), p, NoLock)
    case _ => false
  }

  /** Granting a lock: own locks on the same bytes are replaced, others must not conflict. */
  ghost predicate LockStep(s: State, p: nat, c: Choice, s': State)
    requires Shape(s) && p < |s.procs|
  {
    var me := s.procs[p];
    if c == LockError then s' == SetProc(s, p, me.(pc := Menu))
    else
      c == Go &&
      match me.pc
      case GetLock(r) =>
        && r < |s.file| && OthersHoldNo(s, p, r, WriteLock)
        && s' == SetLock(SetProc(s, p, me.(pc := Reading(r, []))), p, r, ReadLock)
      case PrintLock =>
        && (forall r: nat | r < |s.file| :: OthersHoldNo(s, p, r, WriteLock))
        && s' == SetAll(SetProc(s, p, me.(pc := Printing([], []))), p, ReadLock)
      case SaveLock(r) =>
        && r < |s.file| && OthersHoldNo(s, p, r, WriteLock) && OthersHoldNo(s, p, r, ReadLock)
        && s' == SetLock(SetProc(s, p, me.(pc := Comparing(r, []))), p, r, WriteLock)
      case _ => false
  }

  /** The number of the last completed version. */
  function Latest(v: seq<Record>): nat {
    if v == [] then 0 else |v| - 1
  }

  /** Giving back a lock, which can fail like taking it. */
  function Unlock(s: State, p: nat, r: nat, c: Choice): State
    requires p < |s.locks| && r < |s.locks[p]|
  {
    if c == LockError then s else SetLock(s, p, r, NoLock)
  }

  /** `getRecordNumb` with its lock: one byte, or the end. */
  ghost predicate ReadStep(s: State, p: nat, c: Choice, s': State)
    requires Shape(s) && p < |s.procs| && s.procs[p].pc.Reading?
  {
    var me := s.procs[p];
    var r, acc := me.pc.r, me.pc.acc;
    && r < |s.file|
    && if |acc| < RECORD_SIZE then s' == SetProc(s, p, me.(pc := Reading(r, acc + [s.file[r][|acc|]])))
       else s' == Unlock(SetProc(s, p, me.(pc := Menu, record := acc, loaded := true,
                                           got := true, source := r, version := Latest(s.versions[r]))), p, r, c)
  }

  /** `printAllFile` with its lock: one byte, the next record, or the end of the file. */
  ghost predicate PrintStep(s: State, p: nat, c: Choice, s': State)
    requires Shape(s) && p < |s.procs| && s.procs[p].pc.Printing?
  {
    var me := s.procs[p];
    var lines, acc := me.pc.lines, me.pc.acc;
    if |acc| == RECORD_SIZE then s' == SetProc(s, p, me.(pc := Printing(lines + [acc], [])))
    else if |lines| < |s.file| then
      |acc| < RECORD_SIZE && s' == SetProc(s, p, me.(pc := Printing(lines, acc + [s.file[|lines|][|acc|]])))
    else if c == LockError then s' == SetProc(s, p, me.(pc := Menu))
    else s' == SetAll(SetProc(s, p, me.(pc := Menu)), p, NoLock)
  }

  /** `saveRecord` with its lock, up to the decision to write. */
  ghost predicate CompareStep(s: State, p: nat, s': State)
    requires Shape(s) && p < |s.procs| && s.procs[p].pc.Comparing?
  {
    var me := s.procs[p];
    var r, acc := me.pc.r, me.pc.acc;
    && r < |s.file| && |acc| <= RECORD_SIZE
    && s' == SetProc(s, p, me.(pc :=
         if |acc| < RECORD_SIZE then Comparing(r, acc + [s.file[r][|acc|]])
         else if SameFields(acc, me.record) then Writing(r, acc, false, 0)
         else Asking(r, acc)))
  }

  /** The answer: 'n' takes over what was shown and returns with the lock still held. */
  ghost predicate AnswerStep(s: State, p: nat, c: Choice, s': State)
    requires Shape(s) && p < |s.procs| && s.procs[p].pc.Asking?
  {
    var me := s.procs[p];
    var r, tmp := me.pc.r, me.pc.tmp;
    && r < |s.file| && |tmp| == RECORD_SIZE
    && match c
       case Refuse =>
         s' == SetProc(s, p, me.(pc := Menu, record := tmp, newRecord := tmp,
                                 source := r, version := Latest(s.versions[r])))
       case Insist => s' == SetProc(s, p, me.(pc := Writing(r, tmp, true, 0)))
       case _ => false
  }

  /** One byte of the write; the last one completes a version. */
  ghost predicate WriteStep(s: State, p: nat, s': State)
    requires Shape(s) && p < |s.procs| && s.procs[p].pc.Writing?
  {
    var me := s.procs[p];
    var r, before, shown, i := me.pc.r, me.pc.before, me.pc.shown, me.pc.i;
    && r < |s.file| && i <= RECORD_SIZE
    && if i < RECORD_SIZE then
         s' == SetProc(s, p, me.(pc := Writing(r, before, shown, i + 1)))
               .(file := s.file[r := s.file[r][i := me.newRecord[i]]])
       else
         s' == SetProc(s, p, me.(pc := Unlocking(r)))
               .(versions := s.versions[r := s.versions[r] + [me.newRecord]],
                 saves := s.saves[r := s.saves[r] + [
                   Save(p, before, me.newRecord, me.record, shown, me.got, me.source, me.version)]])
  }

  ghost predicate Next(s: State, p: nat, c: Choice, s': State) {
    && Shape(s) && p < |s.procs|
    && match s.procs[p].pc
       case Menu => MenuStep(s, p, c, s')
       case GetLock(_) => LockStep(s, p, c, s')
       case PrintLock => LockStep(s, p, c, s')
       case SaveLock(_) => LockStep(s, p, c, s')
       case Reading(_, _) => ReadStep(s, p, c, s')
       case Printing(_, _) => PrintStep(s, p, c, s')
       case Comparing(_, _) => CompareStep(s, p, s')
       case Asking(_, _) => AnswerStep(s, p, c, s')
       case Writing(_, _, _, _) => WriteStep(s, p, s')
       case Unlocking(r) =>
         r < |s.file| && s' == Unlock(SetProc(s, p, s.procs[p].(pc := Menu)), p, r, c)
       case Exited => false
  }

  ghost predicate Begins(s: State) {
    && Shape(s)
    && (forall p, r | 0 <= p < |s.locks| && 0 <= r < |s.file| :: s.locks[p][r] == NoLock)
    && (forall p | 0 <= p < |s.procs| ::
           s.procs[p].pc == Menu && !s.procs[p].loaded && !s.procs[p].edited && !s.procs[p].got)
    && (forall r | 0 <= r < |s.file| :: s.versions[r] == [s.file[r]] && s.saves[r] == [])
  }

  datatype Move = Move(p: nat, c: Choice)

  ghost predicate IsRun(run: seq<State>, moves: seq<Move>) {
    && |run| == |moves| + 1 && Begins(run[0])
    && forall i | 0 <= i < |moves| :: Next(run[i], moves[i].p, moves[i].c, run[i + 1])
  }

  // ----- the invariant

  /** A write lock excludes every lock of every other process. */
  ghost predicate LocksOk(s: State)
    requires Shape(s)
  {
    forall p: nat, q: nat, r: nat | p < |s.locks| && q < |s.locks| && p != q && r < |s.file| ::
      s.locks[p][r] == WriteLock ==> s.locks[q][r] == NoLock
  }

  function Last(v: seq<Record>): Record {
    if v == [] then [] else v[|v| - 1]
  }

  /** What a process has done so far agrees with the file, and it holds the lock for it. */
  ghost predicate ProcOk(s: State, p: nat)
    requires Shape(s) && p < |s.procs|
  {
    var me := s.procs[p];
    match me.pc
    case Reading(r, acc) =>
      r < |s.file| && s.locks[p][r] == ReadLock && |acc| <= RECORD_SIZE && acc == s.file[r][..|acc|]
    case Printing(lines, acc) =>
      && (forall r | 0 <= r < |s.file| :: s.locks[p][r] == ReadLock)
      && |lines| <= |s.file| && lines == s.file[..|lines|] && |acc| <= RECORD_SIZE
      && (if |lines| < |s.file| then acc == s.file[|lines|][..|acc|] else acc == [])
    case Comparing(r, acc) =>
      r < |s.file| && s.locks[p][r] == WriteLock && |acc| <= RECORD_SIZE && acc == s.file[r][..|acc|]
    case Asking(r, tmp) =>
      r < |s.file| && s.locks[p][r] == WriteLock && tmp == s.file[r] && !SameFields(tmp, me.record)
    case Writing(r, before, shown, i) =>
      && r < |s.file| && s.locks[p][r] == WriteLock && i <= RECORD_SIZE
      && |before| == RECORD_SIZE && before == Last(s.versions[r])
      && s.file[r] == me.newRecord[..i] + before[i..]
      && (shown <==> !SameFields(before, me.record))
    case Unlocking(r) => r < |s.file| && s.locks[p][r] == WriteLock
    case GetLock(r) => r < |s.file|
    case SaveLock(r) => r < |s.file|
    case _ => true
  }

  ghost predicate WritesTo(pc: PC, r: nat) {
    pc.Writing? && pc.r == r
  }

  ghost predicate BeingWritten(s: State, r: nat) {
    exists p: nat :: p < |s.procs| && WritesTo(s.procs[p].pc, r)
  }

  /** A record nobody is writing holds its last completed version. */
  ghost predicate FileOk(s: State)
    requires Shape(s)
  {
    forall r: nat | r < |s.file| && !BeingWritten(s, r) :: s.file[r] == Last(s.versions[r])
  }

  /** Each version after the first was stored by one save, over the version before it, knowingly. */
  ghost predicate HistoryOk(versions: seq<Record>, saves: seq<Save>) {
    && |versions| == |saves| + 1
    && forall i | 0 <= i < |saves| ::
         && saves[i].before == versions[i] && saves[i].after == versions[i + 1]
         && |saves[i].before| == |saves[i].remembered| == RECORD_SIZE
         && (saves[i].shown <==> !SameFields(saves[i].before, saves[i].remembered))
  }

  ghost predicate Inv(s: State) {
    && Shape(s) && LocksOk(s) && FileOk(s)
    && (forall p: nat | p < |s.procs| :: ProcOk(s, p))
    && (forall r: nat | r < |s.file| :: HistoryOk(s.versions[r], s.saves[r]))
  }
}
