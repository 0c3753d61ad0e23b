/**
 * The semaphore variant of the queue: `empty` and `full` count slots, the mutex
 * guards the ring, and no message counter exists. No resizing, no cancellation.
 */
module SemaphoreQueue {
  import opened Options
  import opened Messages
  import opened Rings

  datatype PC =
    | Idle       // producer only: about to make a message
    | Want       // about to wait on its semaphore
    | Granted    // has decremented it, about to lock the mutex
    | Locked     // holds the mutex, slot not touched yet
    | Done       // slot written or read, other semaphore not posted yet
    | Posted     // about to unlock

  datatype Thread = Producer(i: nat) | Consumer(i: nat)

  datatype State = State(
    empty: nat, full: nat, buf: seq<Message>, head: nat, tail: nat,
    mutex: Option<Thread>, prod: seq<PC>, cons: seq<PC>, msg: seq<Message>,
    produced: seq<Message>, consumed: seq<Message>)

  datatype Event =
    | Generate(i: nat, m: Message)
    | WaitEmpty(i: nat) | LockP(i: nat) | Write(i: nat) | PostFull(i: nat) | UnlockP(i: nat)
    | WaitFull(i: nat) | LockC(i: nat) | Read(i: nat) | PostEmpty(i: nat) | UnlockC(i: nat)

  ghost predicate At(pcs: seq<PC>, i: nat, pc: PC) {
    i < |pcs| && pcs[i] == pc
  }

  ghost predicate Next(s: State, e: Event, s': State) {
    match e
    case Generate(i, m) =>
      && At(s.prod, i, Idle) && i < |s.msg| && WellFormed(m)
      && s' == s.(prod := s.prod[i := Want], msg := s.msg[i := m])
    case WaitEmpty(i) =>
      At(s.prod, i, Want) && s.empty > 0 && s' == s.(empty := s.empty - 1, prod := s.prod[i := Granted])
    case LockP(i) =>
      At(s.prod, i, Granted) && s.mutex == None && s' == s.(mutex := Some(Producer(i)), prod := s.prod[i := Locked])
    case Write(i) =>
      && At(s.prod, i, Locked) && i < |s.msg|
      && (s.tail < |s.buf| ==> s'.buf == s.buf[s.tail := s.msg[i]])
      && s' == s.(buf := s'.buf, tail := Wrap(s.tail + 1, |s.buf|), prod := s.prod[i := Done],
                  produced := s.produced + [s.msg[i]])
    case PostFull(i) =>
      At(s.prod, i, Done) && s' == s.(full := s.full + 1, prod := s.prod[i := Posted])
    case UnlockP(i) =>
      At(s.prod, i, Posted) && s' == s.(mutex := None, prod := s.prod[i := Idle])
    case WaitFull(i) =>
      At(s.cons, i, Want) && s.full > 0 && s' == s.(full := s.full - 1, cons := s.cons[i := Granted])
    case LockC(i) =>
      At(s.cons, i, Granted) && s.mutex == None && s' == s.(mutex := Some(Consumer(i)), cons := s.cons[i := Locked])
    case Read(i) =>
      && At(s.cons, i, Locked)
      && |s'.consumed| > 0
      && (s.head < |s.buf| ==> s'.consumed[|s'.consumed| - 1] == s.buf[s.head] && s'.buf == s.buf[s.head := CLEARED])
      && s' == s.(buf := s'.buf, head := Wrap(s.head + 1, |s.buf|), cons := s.cons[i := Done],
                  consumed := s.consumed + [s'.consumed[|s'.consumed| - 1]])
    case PostEmpty(i) =>
      At(s.cons, i, Done) && s' == s.(empty := s.empty + 1, cons := s.cons[i := Posted])
    case UnlockC(i) =>
      At(s.cons, i, Posted) && s' == s.(mutex := None, cons := s.cons[i := Want])
  }

  /** `init_queue`: `empty` starts at the queue size, which is 10 in the program. */
  ghost predicate Begins(s: State) {
    && s.empty == |s.buf| > 0 && s.full == 0 && s.head == s.tail == 0 && s.mutex == None
    && s.produced == s.consumed == [] && |s.msg| == |s.prod|
    && (forall i | 0 <= i < |s.prod| :: s.prod[i] == Idle)
    && (forall i | 0 <= i < |s.cons| :: s.cons[i] == Want)
  }

  ghost predicate IsRun(run: seq<State>, events: seq<Event>) {
    && |run| == |events| + 1 && Begins(run[0])
    && forall i | 0 <= i < |events| :: Next(run[i], events[i], run[i + 1])
  }

  // ----- counting threads between their two semaphore calls

  /** 1: semaphore taken, slot not touched; 2: slot touched, other semaphore not posted; 0 otherwise. */
  function Stage(pc: PC): nat {
    match pc
    case Granted => 1
    case Locked => 1
    case Done => 2
    case _ => 0
  }

  function InStage(pcs: seq<PC>, k: nat): nat {
    if pcs == [] then 0 else InStage(pcs[..|pcs| - 1], k) + if Stage(pcs[|pcs| - 1]) == k then 1 else 0
  }

  /** Threads between taking one semaphore and posting the other. */
  function InFlight(pcs: seq<PC>): nat {
    InStage(pcs, 1) + InStage(pcs, 2)
  }

  lemma {:induction false} StageUpdate(pcs: seq<PC>, i: nat, v: PC, k: nat)
    requires i < |pcs|
    ensures InStage(pcs[i := v], k) + (if Stage(pcs[i]) == k then 1 else 0)
         == InStage(pcs, k) + (if Stage(v) == k then 1 else 0)
  {
    hide Stage;
    var n := |pcs| - 1;
    if i < n {
      StageUpdate(pcs[..n], i, v, k);
      assert pcs[i := v][..n] == pcs[..n][i := v];
    } else {
      assert pcs[i := v][..n] == pcs[..n];
    }
  }

  lemma {:induction false} StageOnce(pcs: seq<PC>, i: nat)
    requires i < |pcs|
    ensures InStage(pcs, Stage(pcs[i])) > 0
  {
    hide Stage;
    var n := |pcs| - 1;
    if i < n {
      StageOnce(pcs[..n], i);
    }
  }

  lemma {:induction false} NoStage(pcs: seq<PC>, k: nat)
    requires k > 0 && forall i | 0 <= i < |pcs| :: Stage(pcs[i]) == 0
    ensures InStage(pcs, k) == 0
  {
    if pcs != [] {
      NoStage(pcs[..|pcs| - 1], k);
    }
  }

  // ----- the invariant

  /** The ring with the number of messages in it, which the program keeps in no variable. */
  function RingOf(s: State): Ring {
    Ring(s.buf, s.head, s.tail, if |s.consumed| <= |s.produced| then |s.produced| - |s.consumed| else 0)
  }

  /** Slots holding a message, and free slots, as the semaphores and the threads in flight account for them. */
  ghost predicate SlotsOk(s: State) {
    && |s.consumed| <= |s.produced|
    && |s.produced| - |s.consumed| == s.full + InStage(s.cons, 1) + InStage(s.prod, 2)
    && |s.buf| - (|s.produced| - |s.consumed|) == s.empty + InStage(s.prod, 1) + InStage(s.cons, 2)
  }

  ghost predicate QueueOk(s: State) {
    && |s.buf| > 0 && Sound(RingOf(s)) && s.consumed + Contents(RingOf(s)) == s.produced
    && (forall m | m in s.produced :: WellFormed(m))
    && |s.msg| == |s.prod|
    && (forall i | 0 <= i < |s.prod| && (s.prod[i] == Want || Stage(s.prod[i]) == 1) :: WellFormed(s.msg[i]))
  }

  /** The write of `m` from `s` to `s'` finds a free slot, and is the store of the queue object. */
  ghost predicate FindsRoom(s: State, m: Message, s': State) {
    && |s.consumed| <= |s.produced| && |s.produced| - |s.consumed| < |s.buf| && InBounds(RingOf(s))
    && RingOf(s') == Put(RingOf(s), m)
  }

  /** The read from `s` to `s'` takes the oldest message not yet read, and is the load of the queue object. */
  ghost predicate TakesOldest(s: State, s': State) {
    && |s.consumed| < |s.produced| && InBounds(RingOf(s)) && RingOf(s') == Get(RingOf(s))
    && s'.buf == s.buf[s.head := Message(0, 0, 0, [])]
    && s'.consumed == s.consumed + [s.produced[|s.consumed|]]
    && WellFormed(s.produced[|s.consumed|])
  }

  lemma WriteNeeds(s: State, e: Event, s': State)
    requires Next(s, e, s') && e.Write?
    ensures e.i < |s.msg|
  {
  }

  lemma WriteOk(s: State, e: Event, s': State)
    requires SlotsOk(s) && QueueOk(s) && Next(s, e, s') && e.Write?
    ensures FindsRoom(s, s.msg[e.i], s') && QueueOk(s')
  {
    hide WellFormed;
    hide InStage;
    StageOnce(s.prod, e.i);
    assert Stage(s.prod[e.i]) == 1;
    PutAppends(RingOf(s), s.msg[e.i]);
    assert RingOf(s') == Put(RingOf(s), s.msg[e.i]);
    assert s.consumed + (Contents(RingOf(s)) + [s.msg[e.i]]) == s.produced + [s.msg[e.i]];
  }

  lemma ReadOk(s: State, e: Event, s': State)
    requires SlotsOk(s) && QueueOk(s) && Next(s, e, s') && e.Read?
    ensures TakesOldest(s, s') && QueueOk(s')
  {
    hide WellFormed;
    hide InStage;
    StageOnce(s.cons, e.i);
    assert Stage(s.cons[e.i]) == 1;
    GetTakesOldest(RingOf(s));
    assert RingOf(s') == Get(RingOf(s));
    MoveFirst(s.consumed, Contents(RingOf(s)));
    assert s.produced[|s.consumed|] == Contents(RingOf(s))[0];
    assert s.produced[|s.consumed|] in s.produced;
  }

  lemma ProducerSlots(s: State, e: Event, s': State)
    requires SlotsOk(s) && QueueOk(s) && Next(s, e, s')
    requires e.Generate? || e.WaitEmpty? || e.LockP? || e.Write? || e.PostFull? || e.UnlockP?
    ensures SlotsOk(s')
  {
    hide WellFormed;
    hide InStage;
    hide QueueOk;
    StageUpdate(s.prod, e.i, s'.prod[e.i], 1);
    StageUpdate(s.prod, e.i, s'.prod[e.i], 2);
    if e.Write? {
      WriteOk(s, e, s');
    }
  }

  lemma ConsumerSlots(s: State, e: Event, s': State)
    requires SlotsOk(s) && QueueOk(s) && Next(s, e, s')
    requires e.WaitFull? || e.LockC? || e.Read? || e.PostEmpty? || e.UnlockC?
    ensures SlotsOk(s')
  {
    hide WellFormed;
    hide InStage;
    hide QueueOk;
    StageUpdate(s.cons, e.i, s'.cons[e.i], 1);
    StageUpdate(s.cons, e.i, s'.cons[e.i], 2);
    if e.Read? {
      ReadOk(s, e, s');
    }
  }

  lemma StepSlots(s: State, e: Event, s': State)
    requires SlotsOk(s) && QueueOk(s) && Next(s, e, s')
    ensures SlotsOk(s')
  {
    hide *;
    if e.Generate? || e.WaitEmpty? || e.LockP? || e.Write? || e.PostFull? || e.UnlockP? {
      ProducerSlots(s, e, s');
    } else {
      ConsumerSlots(s, e, s');
    }
  }

  lemma StepQueue(s: State, e: Event, s': State)
    requires SlotsOk(s) && QueueOk(s) && Next(s, e, s')
    ensures QueueOk(s')
  {
    hide WellFormed;
    hide InStage;
    hide Contents;
    if e.Write? {
      WriteOk(s, e, s');
    } else if e.Read? {
      ReadOk(s, e, s');
    }
  }

  lemma BeginsOk(s: State)
    requires Begins(s)
    ensures SlotsOk(s) && QueueOk(s)
  {
    NoStage(s.prod, 1);
    NoStage(s.prod, 2);
    NoStage(s.cons, 1);
    NoStage(s.cons, 2);
  }

  lemma {:induction false} RunInv(run: seq<State>, events: seq<Event>, k: nat)
    requires IsRun(run, events) && k < |run|
    ensures SlotsOk(run[k]) && QueueOk(run[k]) && |run[k].buf| == |run[0].buf|
  {
    hide Next;
    hide SlotsOk;
    hide QueueOk;
    if k > 0 {
      RunInv(run, events, k - 1);
      assert Next(run[k - 1], events[k - 1], run[k - 1 + 1]);
      StepSlots(run[k - 1], events[k - 1], run[k]);
      StepQueue(run[k - 1], events[k - 1], run[k]);
      SameSize(run[k - 1], events[k - 1], run[k]);
    } else {
      BeginsOk(run[0]);
    }
  }

  lemma SameSize(s: State, e: Event, s': State)
    requires QueueOk(s) && Next(s, e, s')
    ensures |s'.buf| == |s.buf|
  {
    hide WellFormed;
    hide Contents;
  }

  // ----- mutual exclusion

  ghost predicate InCritical(pc: PC) {
    pc == Locked || pc == Done || pc == Posted
  }

  ghost predicate Exclusive(s: State) {
    && (forall i: nat | i < |s.prod| && InCritical(s.prod[i]) :: s.mutex == Some(Producer(i)))
    && (forall i: nat | i < |s.cons| && InCritical(s.cons[i]) :: s.mutex == Some(Consumer(i)))
    && match s.mutex
       case None => true
       case Some(Producer(i)) => i < |s.prod| && InCritical(s.prod[i])
       case Some(Consumer(i)) => i < |s.cons| && InCritical(s.cons[i])
  }

  /** Only the holder of the mutex touches the ring, and the mutex is held only to do so. */
  lemma {:induction false} ExclusiveAlways(run: seq<State>, events: seq<Event>, k: nat)
    requires IsRun(run, events) && k < |run|
    ensures Exclusive(run[k])
  {
    assert |run| == |events| + 1;
    hide *;
    if k > 0 {
      ExclusiveAlways(run, events, k - 1);
      RunStep(run, events, k - 1);
      assert run[k - 1 + 1] == run[k];
      StepExclusive(run[k - 1], events[k - 1], run[k]);
    } else {
      BeginsExclusive(run, events);
    }
  }

  lemma BeginsExclusive(run: seq<State>, events: seq<Event>)
    requires IsRun(run, events)
    ensures |run| > 0 && Exclusive(run[0])
  {
  }

  lemma ProducerExclusive(s: State, e: Event, s': State)
    requires Exclusive(s) && Next(s, e, s')
    requires e.Generate? || e.WaitEmpty? || e.LockP? || e.Write? || e.PostFull? || e.UnlockP?
    ensures Exclusive(s')
  {
    hide WellFormed;
  }

  lemma ConsumerExclusive(s: State, e: Event, s': State)
    requires Exclusive(s) && Next(s, e, s')
    requires e.WaitFull? || e.LockC? || e.Read? || e.PostEmpty? || e.UnlockC?
    ensures Exclusive(s')
  {
  }

  lemma StepExclusive(s: State, e: Event, s': State)
    requires Exclusive(s) && Next(s, e, s')
    ensures Exclusive(s')
  {
    hide *;
    if e.Generate? || e.WaitEmpty? || e.LockP? || e.Write? || e.PostFull? || e.UnlockP? {
      ProducerExclusive(s, e, s');
    } else {
      ConsumerExclusive(s, e, s');
    }
  }

  // ----- main results

  /** Every slot is accounted for: free, filled, or in the hands of one thread in flight. */
  lemma SlotsConserved(run: seq<State>, events: seq<Event>, k: nat)
    requires IsRun(run, events) && k < |run|
    ensures run[k].empty + run[k].full + InFlight(run[k].prod) + InFlight(run[k].cons) == |run[0].buf|
  {
    hide IsRun;
    hide InStage;
    RunInv(run, events, k);
  }

  /** The variant is a bounded first-in first-out queue of the same size. */
  lemma Linearizable(run: seq<State>, events: seq<Event>, k: nat)
    requires IsRun(run, events) && k < |run|
    ensures run[k].consumed <= run[k].produced
    ensures |run[k].produced| - |run[k].consumed| <= |run[0].buf|
    ensures HoldsQueue(RingOf(run[k]), run[k].produced[|run[k].consumed|..])
  {
    hide IsRun;
    hide InStage;
    RunInv(run, events, k);
    var s := run[k];
    assert s.produced[|s.consumed|..] == Contents(RingOf(s));
  }

  /** A write finds a free slot and a read a filled one; the message read is the oldest not yet read. */
  lemma AccessesAreSafe(run: seq<State>, events: seq<Event>, k: nat)
    requires IsRun(run, events) && k < |events|
    ensures events[k].Write? ==>
      events[k].i < |run[k].msg| && FindsRoom(run[k], run[k].msg[events[k].i], run[k + 1])
    ensures events[k].Read? ==> TakesOldest(run[k], run[k + 1])
  {
    hide *;
    RunStep(run, events, k);
    RunInv(run, events, k);
    if events[k].Write? {
      WriteNeeds(run[k], events[k], run[k + 1]);
      WriteOk(run[k], events[k], run[k + 1]);
    } else if events[k].Read? {
      ReadOk(run[k], events[k], run[k + 1]);
    }
  }

  lemma RunStep(run: seq<State>, events: seq<Event>, k: nat)
    requires IsRun(run, events) && k < |events|
    ensures |run| == |events| + 1 && Next(run[k], events[k], run[k + 1])
  {
    hide Next;
  }

  // ----- what goes in and out, read off the events alone

  /** The message producer `i` has made and not written yet. */
  function Pending(events: seq<Event>, k: nat, i: nat): Option<Message>
    requires k <= |events|
  {
    if k == 0 then None
    else match events[k - 1]
         case Generate(j, m) => if j == i then Some(m) else Pending(events, k - 1, i)
         case Write(j) => if j == i then None else Pending(events, k - 1, i)
         case _ => Pending(events, k - 1, i)
  }

  /** The messages written, in order: at each `Write` the one its producer had made. */
  function Sent(events: seq<Event>, k: nat): seq<Message>
    requires k <= |events|
  {
    if k == 0 then []
    else Sent(events, k - 1)
         + if events[k - 1].Write? && Pending(events, k - 1, events[k - 1].i).Some?
           then [Pending(events, k - 1, events[k - 1].i).value] else []
  }

  function Reads(events: seq<Event>, k: nat): nat
    requires k <= |events|
  {
    if k == 0 then 0 else Reads(events, k - 1) + if events[k - 1].Read? then 1 else 0
  }

  /** A producer that has a message to write. */
  ghost predicate HoldsMessage(pc: PC) {
    pc == Want || pc == Granted || pc == Locked
  }

  lemma StepRecords(s: State, e: Event, s': State)
    requires Next(s, e, s')
    ensures |s'.prod| == |s.prod| && |s'.msg| == |s.msg|
    ensures e.Write? ==> e.i < |s.msg| && e.i < |s.prod| && HoldsMessage(s.prod[e.i])
    ensures s'.produced == s.produced + (if e.Write? && e.i < |s.msg| then [s.msg[e.i]] else [])
    ensures |s'.consumed| == |s.consumed| + if e.Read? then 1 else 0
  {
    hide WellFormed;
    assert s.produced + [] == s.produced;
  }

  ghost predicate PendingIs(events: seq<Event>, k: nat, s: State, i: nat)
    requires k <= |events| && i < |s.prod| == |s.msg|
  {
    Pending(events, k, i) == if HoldsMessage(s.prod[i]) then Some(s.msg[i]) else None
  }

  lemma StepPending(s: State, e: Event, s': State, i: nat)
    requires Next(s, e, s') && i < |s.prod| == |s.msg| == |s'.prod| == |s'.msg|
    ensures if e.Generate? && e.i == i then HoldsMessage(s'.prod[i]) && s'.msg[i] == e.m
            else if e.Write? && e.i == i then !HoldsMessage(s'.prod[i])
            else s'.msg[i] == s.msg[i] && (HoldsMessage(s'.prod[i]) <==> HoldsMessage(s.prod[i]))
  {
    hide WellFormed;
  }

  /**
   * Over every run: what is recorded as produced is what the producers made, each message
   * written once and by its producer, and one message is consumed at each read.
   */
  lemma {:induction false} Traffic(run: seq<State>, events: seq<Event>, k: nat)
    requires IsRun(run, events) && k < |run|
    ensures k <= |events| && run[k].produced == Sent(events, k) && |run[k].consumed| == Reads(events, k)
    ensures |run[k].prod| == |run[k].msg|
    ensures forall i: nat | i < |run[k].prod| :: PendingIs(events, k, run[k], i)
  {
    hide Next;
    hide HoldsMessage;
    if k == 0 {
      BeginsIdle(run, events);
    } else {
      var j := k - 1;
      Traffic(run, events, j);
      assert Next(run[j], events[j], run[j + 1]);
      StepRecords(run[j], events[j], run[k]);
      hide IsRun;
      TrafficStep(events, j, k, run[j], run[k]);
    }
  }

  /** First in, first out: what was read is the beginning of what was written. */
  lemma FirstInFirstOut(run: seq<State>, events: seq<Event>, k: nat)
    requires IsRun(run, events) && k < |run|
    ensures k <= |events| && |run[k].consumed| == Reads(events, k) <= |Sent(events, k)|
    ensures run[k].consumed == Sent(events, k)[..Reads(events, k)]
  {
    hide *;
    Traffic(run, events, k);
    Linearizable(run, events, k);
  }

  lemma BeginsIdle(run: seq<State>, events: seq<Event>)
    requires IsRun(run, events)
    ensures run[0].produced == Sent(events, 0) && |run[0].consumed| == Reads(events, 0)
    ensures |run[0].prod| == |run[0].msg| && forall i: nat | i < |run[0].prod| :: PendingIs(events, 0, run[0], i)
  {
    hide Next;
  }

  lemma {:induction false} TrafficStep(events: seq<Event>, j: nat, k: nat, s: State, s': State)
    requires k == j + 1 <= |events| && Next(s, events[j], s') && |s'.prod| == |s.prod| && |s'.msg| == |s.msg|
    requires events[j].Write? ==> events[j].i < |s.msg| && events[j].i < |s.prod| && HoldsMessage(s.prod[events[j].i])
    requires s'.produced == s.produced
               + (if events[j].Write? && events[j].i < |s.msg| then [s.msg[events[j].i]] else [])
    requires |s'.consumed| == |s.consumed| + if events[j].Read? then 1 else 0
    requires s.produced == Sent(events, j) && |s.consumed| == Reads(events, j) && |s.prod| == |s.msg|
    requires forall i: nat | i < |s.prod| :: PendingIs(events, j, s, i)
    ensures s'.produced == Sent(events, k) && |s'.consumed| == Reads(events, k) && |s'.prod| == |s'.msg|
    ensures forall i: nat | i < |s'.prod| :: PendingIs(events, k, s', i)
  {
    hide Next;
    hide HoldsMessage;
    var e := events[j];
    assert e.Write? ==> PendingIs(events, j, s, e.i);
    forall i: nat | i < |s'.prod| ensures PendingIs(events, k, s', i) {
      assert PendingIs(events, j, s, i);
      StepPending(s, e, s', i);
    }
  }

  // ----- somebody can go on

  /** A producer past its semaphore, or one that finds it open. */
  lemma ProducerRuns(s: State, i: nat) returns (e: Event, s': State)
    requires |s.msg| == |s.prod| && i < |s.prod|
    requires s.prod[i] == Want ==> s.empty > 0
    requires s.prod[i] == Granted ==> s.mutex == None
    ensures Next(s, e, s')
  {
    hide WellFormed;
    var pc := s.prod[i];
    if pc == Idle {
      var m := SampleMessage();
      e, s' := Generate(i, m), s.(prod := s.prod[i := Want], msg := s.msg[i := m]);
    } else if pc == Want {
      e, s' := WaitEmpty(i), s.(empty := s.empty - 1, prod := s.prod[i := Granted]);
    } else if pc == Granted {
      e, s' := LockP(i), s.(mutex := Some(Producer(i)), prod := s.prod[i := Locked]);
    } else if pc == Locked {
      e := Write(i);
      s' := s.(buf := if s.tail < |s.buf| then s.buf[s.tail := s.msg[i]] else s.buf, tail := Wrap(s.tail + 1, |s.buf|),
               prod := s.prod[i := Done], produced := s.produced + [s.msg[i]]);
    } else if pc == Done {
      e, s' := PostFull(i), s.(full := s.full + 1, prod := s.prod[i := Posted]);
    } else {
      e, s' := UnlockP(i), s.(mutex := None, prod := s.prod[i := Idle]);
    }
  }

  lemma ConsumerRuns(s: State, i: nat) returns (e: Event, s': State)
    requires i < |s.cons| && s.cons[i] != Idle
    requires s.cons[i] == Want ==> s.full > 0
    requires s.cons[i] == Granted ==> s.mutex == None
    ensures Next(s, e, s')
  {
    var pc := s.cons[i];
    if pc == Want {
      e, s' := WaitFull(i), s.(full := s.full - 1, cons := s.cons[i := Granted]);
    } else if pc == Granted {
      e, s' := LockC(i), s.(mutex := Some(Consumer(i)), cons := s.cons[i := Locked]);
    } else if pc == Locked {
      var m := if s.head < |s.buf| then s.buf[s.head] else CLEARED;
      e := Read(i);
      s' := s.(buf := if s.head < |s.buf| then s.buf[s.head := CLEARED] else s.buf, head := Wrap(s.head + 1, |s.buf|),
               cons := s.cons[i := Done], consumed := s.consumed + [m]);
    } else if pc == Done {
      e, s' := PostEmpty(i), s.(empty := s.empty + 1, cons := s.cons[i := Posted]);
    } else {
      e, s' := UnlockC(i), s.(mutex := None, cons := s.cons[i := Want]);
    }
  }

  lemma {:induction false} NoIdleConsumer(run: seq<State>, events: seq<Event>, k: nat)
    requires IsRun(run, events) && k < |run|
    ensures forall i | 0 <= i < |run[k].cons| :: run[k].cons[i] != Idle
    ensures |run[k].msg| == |run[k].prod|
  {
    if k > 0 {
      NoIdleConsumer(run, events, k - 1);
      assert Next(run[k - 1], events[k - 1], run[k - 1 + 1]);
    }
  }

  /** With every thread about to wait on its semaphore, one of the two semaphores is open. */
  lemma SemaphoreOpen(run: seq<State>, events: seq<Event>, k: nat)
    requires IsRun(run, events) && k < |run|
    requires forall i | 0 <= i < |run[k].prod| :: run[k].prod[i] == Want
    requires forall i | 0 <= i < |run[k].cons| :: run[k].cons[i] == Want
    ensures run[k].empty > 0 || run[k].full > 0
  {
    assert |run[0].buf| > 0;
    hide IsRun;
    SlotsConserved(run, events, k);
    NoStage(run[k].prod, 1);
    NoStage(run[k].prod, 2);
    NoStage(run[k].cons, 1);
    NoStage(run[k].cons, 2);
  }

  /** With producers and consumers both present, some thread can go on, in every state of every run. */
  lemma NotStuck(run: seq<State>, events: seq<Event>, k: nat) returns (e: Event, s': State)
    requires IsRun(run, events) && k < |run| && |run[k].prod| > 0 && |run[k].cons| > 0
    ensures Next(run[k], e, s')
  {
    hide Next;
    hide IsRun;
    var s := run[k];
    ExclusiveAlways(run, events, k);
    NoIdleConsumer(run, events, k);
    if s.mutex.Some? && s.mutex.value.Producer? {
      e, s' := ProducerRuns(s, s.mutex.value.i);
    } else if s.mutex.Some? {
      e, s' := ConsumerRuns(s, s.mutex.value.i);
    } else if i: nat :| i < |s.prod| && s.prod[i] != Want {
      e, s' := ProducerRuns(s, i);
    } else if i: nat :| i < |s.cons| && s.cons[i] != Want {
      e, s' := ConsumerRuns(s, i);
    } else {
      SemaphoreOpen(run, events, k);
      if s.empty > 0 {
        e, s' := ProducerRuns(s, 0);
      } else {
        e, s' := ConsumerRuns(s, 0);
      }
    }
  }
}
