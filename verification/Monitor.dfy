/**
 * Producers, consumers and resizes on the shared queue: a mutex and two
 * condition variables, as a step system. There is no thread cancellation.
 */
module Monitor {
  import opened Options
  import opened Messages
  import opened Rings

  /** A worker thread. `woken` remembers that it has been in `pthread_cond_wait`. */
  datatype PC =
    | Idle                  // producer only: about to make a message
    | Want                  // about to lock the mutex
    | Waiting               // asleep in pthread_cond_wait, mutex released
    | Woken                 // woken, about to get the mutex back
    | Inside(woken: bool)   // holds the mutex, at the test of the while loop
    | Leaving               // holds the mutex, queue operation done

  /** The main thread and its resize requests. */
  datatype MainPC = Menu | Asked(grow: bool) | Resizing(grow: bool) | Resized

  datatype Thread = Producer(i: nat) | Consumer(i: nat) | Main

  /** `size` is `sizeQueue`, `count` is `countMsg`; `produced` and `consumed` record history only. */
  datatype State = State(
    size: nat, count: nat, countAdd: nat, countGet: nat, ring: Ring,
    mutex: Option<Thread>, prod: seq<PC>, cons: seq<PC>, main: MainPC, msg: seq<Message>,
    produced: seq<Message>, consumed: seq<Message>)

  /** `wake` names the thread `pthread_cond_signal` wakes; further ones count as spurious. */
  datatype Event =
    | Generate(i: nat, m: Message)
    | LockP(i: nat) | SleepP(i: nat) | SpuriousP(i: nat) | AddMsg(i: nat, wake: Option<nat>) | UnlockP(i: nat)
    | LockC(i: nat) | SleepC(i: nat) | SpuriousC(i: nat)
    | TakeMsg(i: nat, wake: Option<nat>, m: Message) | UnlockC(i: nat)
    | Ask(grow: bool) | LockM | GrowSize(slot: Message, wake: Option<nat>) | ShrinkSize | UnlockM

  ghost predicate WantsIn(pcs: seq<PC>, i: nat) {
    i < |pcs| && (pcs[i] == Want || pcs[i] == Woken)
  }

  ghost predicate IsInside(pcs: seq<PC>, i: nat) {
    i < |pcs| && pcs[i].Inside?
  }

  ghost predicate HasWaiting(pcs: seq<PC>) {
    exists i :: 0 <= i < |pcs| && pcs[i] == Waiting
  }

  /** `pthread_cond_signal` wakes a waiting thread if there is one. */
  ghost predicate SignalOk(pcs: seq<PC>, wake: Option<nat>) {
    match wake
    case None => !HasWaiting(pcs)
    case Some(j) => j < |pcs| && pcs[j] == Waiting
  }

  function Signal(pcs: seq<PC>, wake: Option<nat>): seq<PC> {
    if wake.Some? && wake.value < |pcs| then pcs[wake.value := Woken] else pcs
  }

  /** The memory operations below stay inside the buffer. */
  ghost predicate Usable(s: State) {
    InBounds(s.ring) && s.ring.count == s.count && |s.ring.buf| == s.size
  }

  /**
   * One step. Where an operation would reach outside the buffer nothing is said
   * about the ring afterwards, but the counters still move as the code moves them.
   */
  ghost predicate Next(s: State, e: Event, s': State) {
    match e
    case Generate(i, m) =>
      && i < |s.prod| == |s.msg| && s.prod[i] == Idle && WellFormed(m)
      && s' == s.(prod := s.prod[i := Want], msg := s.msg[i := m])
    case LockP(i) =>
      && WantsIn(s.prod, i) && s.mutex == None
      && s' == s.(prod := s.prod[i := Inside(s.prod[i] == Woken)], mutex := Some(Producer(i)))
    case SleepP(i) =>
      && IsInside(s.prod, i) && s.count >= s.size
      && s' == s.(prod := s.prod[i := Waiting], mutex := None)
    case SpuriousP(i) =>
      i < |s.prod| && s.prod[i] == Waiting && s' == s.(prod := s.prod[i := Woken])
    case AddMsg(i, wake) =>
      && IsInside(s.prod, i) && i < |s.msg| && s.count < s.size && SignalOk(s.cons, wake)
      && (Usable(s) ==> s'.ring == Put(s.ring, s.msg[i]))
      && s' == s.(countAdd := s.countAdd + 1, ring := s'.ring, count := s.count + 1,
                  cons := Signal(s.cons, wake), prod := s.prod[i := Leaving], produced := s.produced + [s.msg[i]])
    case UnlockP(i) =>
      i < |s.prod| && s.prod[i] == Leaving && s' == s.(prod := s.prod[i := Idle], mutex := None)
    case LockC(i) =>
      && WantsIn(s.cons, i) && s.mutex == None
      && s' == s.(cons := s.cons[i := Inside(s.cons[i] == Woken)], mutex := Some(Consumer(i)))
    case SleepC(i) =>
      && IsInside(s.cons, i) && s.count == 0
      && s' == s.(cons := s.cons[i := Waiting], mutex := None)
    case SpuriousC(i) =>
      i < |s.cons| && s.cons[i] == Waiting && s' == s.(cons := s.cons[i := Woken])
    case TakeMsg(i, wake, m) =>
      && IsInside(s.cons, i) && s.count > 0 && SignalOk(s.prod, wake)
      && (Usable(s) ==> s'.ring == Get(s.ring) && m == s.ring.buf[s.ring.head])
      && s' == s.(countGet := s.countGet + 1, ring := s'.ring, count := s.count - 1,
                  prod := Signal(s.prod, wake), cons := s.cons[i := Leaving], consumed := s.consumed + [m])
    case UnlockC(i) =>
      i < |s.cons| && s.cons[i] == Leaving && s' == s.(cons := s.cons[i := Want], mutex := None)
    case Ask(grow) => s.main == Menu && s' == s.(main := Asked(grow))
    case LockM =>
      s.main.Asked? && s.mutex == None && s' == s.(main := Resizing(s.main.grow), mutex := Some(Main))
    case GrowSize(slot, wake) =>
      && s.main == Resizing(true) && SignalOk(s.prod, wake)
      && (Usable(s) ==> s'.ring == Grow(s.ring, slot))
      && s' == s.(size := s.size + 1, ring := s'.ring, prod := Signal(s.prod, wake), main := Resized)
    case ShrinkSize =>
      && s.main == Resizing(false)
      && (Usable(s) ==> s'.ring == Shrink(s.ring))
      && s' == s.(size := if s.count < s.size then s.size - 1 else s.size, ring := s'.ring, main := Resized)
    case UnlockM => s.main == Resized && s' == s.(main := Menu, mutex := None)
  }

  /** `init_queue`, and any number of workers at the start of their loops. */
  ghost predicate Begins(s: State) {
    && s.count == s.countAdd == s.countGet == 0 && s.produced == s.consumed == []
    && |s.ring.buf| == s.size && s.ring.head == s.ring.tail == s.ring.count == 0
    && s.mutex == None && s.main == Menu && |s.msg| == |s.prod|
    && (forall i | 0 <= i < |s.prod| :: s.prod[i] == Idle)
    && (forall i | 0 <= i < |s.cons| :: s.cons[i] == Want)
  }

  ghost predicate IsRun(run: seq<State>, events: seq<Event>) {
    && |run| == |events| + 1 && Begins(run[0])
    && forall i | 0 <= i < |events| :: Next(run[i], events[i], run[i + 1])
  }

  // ----- counters and wakeups, wherever resizes happen

  ghost predicate CountersOk(s: State) {
    && s.countAdd == s.countGet + s.count && s.count <= s.size && |s.msg| == |s.prod|
    && s.countAdd == |s.produced| && s.countGet == |s.consumed|
  }

  ghost predicate IsAwake(pc: PC) {
    pc == Woken || pc == Inside(true)
  }

  /** Threads that have been woken and have not yet looked at the queue again. */
  function Awake(pcs: seq<PC>): nat {
    if pcs == [] then 0
    else Awake(pcs[..|pcs| - 1]) + if pcs[|pcs| - 1] == Woken || pcs[|pcs| - 1] == Inside(true) then 1 else 0
  }

  lemma {:induction false} AwakeUpdate(pcs: seq<PC>, i: nat, v: PC)
    requires i < |pcs|
    ensures Awake(pcs[i := v]) + (if IsAwake(pcs[i]) then 1 else 0) == Awake(pcs) + (if IsAwake(v) then 1 else 0)
  {
    var n := |pcs| - 1;
    if i < n {
      AwakeUpdate(pcs[..n], i, v);
      assert pcs[i := v][..n] == pcs[..n][i := v];
    } else {
      assert pcs[i := v][..n] == pcs[..n];
    }
  }

  lemma {:induction false} NoneAwake(pcs: seq<PC>)
    requires forall i | 0 <= i < |pcs| :: !IsAwake(pcs[i])
    ensures Awake(pcs) == 0
  {
    if pcs != [] {
      NoneAwake(pcs[..|pcs| - 1]);
    }
  }

  /** No wakeup is lost: a thread sleeps on only while the woken ones suffice for what is there. */
  ghost predicate WakeupsOk(s: State) {
    && (HasWaiting(s.cons) ==> s.count <= Awake(s.cons))
    && (HasWaiting(s.prod) ==> s.size - s.count <= Awake(s.prod))
  }

  lemma SignalWakes(pcs: seq<PC>, wake: Option<nat>)
    requires SignalOk(pcs, wake)
    ensures HasWaiting(Signal(pcs, wake)) ==> HasWaiting(pcs) && Awake(Signal(pcs, wake)) == Awake(pcs) + 1
  {
    if wake.Some? {
      AwakeUpdate(pcs, wake.value, Woken);
    }
  }

  /** A thread that does not go to sleep adds no sleeper. */
  lemma StillWaiting(pcs: seq<PC>, i: nat, v: PC)
    requires i < |pcs| && v != Waiting && HasWaiting(pcs[i := v])
    ensures HasWaiting(pcs)
  {
    var j :| 0 <= j < |pcs| && pcs[i := v][j] == Waiting;
    assert pcs[j] == Waiting;
  }

  lemma ProducerStep(s: State, e: Event, s': State)
    requires CountersOk(s) && WakeupsOk(s) && Next(s, e, s')
    requires e.LockP? || e.SleepP? || e.SpuriousP? || e.UnlockP? || e.Generate? || e.AddMsg?
    ensures WakeupsOk(s')
  {
    AwakeUpdate(s.prod, e.i, s'.prod[e.i]);
    if HasWaiting(s'.prod) && s'.prod[e.i] != Waiting {
      StillWaiting(s.prod, e.i, s'.prod[e.i]);
    }
    if e.AddMsg? {
      SignalWakes(s.cons, e.wake);
    }
  }

  lemma ConsumerStep(s: State, e: Event, s': State)
    requires CountersOk(s) && WakeupsOk(s) && Next(s, e, s')
    requires e.LockC? || e.SleepC? || e.SpuriousC? || e.UnlockC? || e.TakeMsg?
    ensures WakeupsOk(s')
  {
    AwakeUpdate(s.cons, e.i, s'.cons[e.i]);
    if HasWaiting(s'.cons) && s'.cons[e.i] != Waiting {
      StillWaiting(s.cons, e.i, s'.cons[e.i]);
    }
    if e.TakeMsg? {
      SignalWakes(s.prod, e.wake);
    }
  }

  lemma StepCounters(s: State, e: Event, s': State)
    requires CountersOk(s) && WakeupsOk(s) && Next(s, e, s')
    ensures CountersOk(s') && WakeupsOk(s')
  {
    hide Awake;
    hide Usable;
    if e.LockP? || e.SleepP? || e.SpuriousP? || e.UnlockP? || e.Generate? || e.AddMsg? {
      ProducerStep(s, e, s');
    } else if e.LockC? || e.SleepC? || e.SpuriousC? || e.UnlockC? || e.TakeMsg? {
      ConsumerStep(s, e, s');
    } else if e.GrowSize? {
      SignalWakes(s.prod, e.wake);
    }
  }

  /** Over every run, wherever resizes happen: the counters count, conservation, and no lost wakeup. */
  lemma {:induction false} CountersAlways(run: seq<State>, events: seq<Event>, k: nat)
    requires IsRun(run, events) && k < |run|
    ensures run[k].countAdd == |run[k].produced| && run[k].countGet == |run[k].consumed|
    ensures run[k].countAdd == run[k].countGet + run[k].count && run[k].count <= run[k].size
    ensures HasWaiting(run[k].cons) ==> run[k].count <= Awake(run[k].cons)
    ensures HasWaiting(run[k].prod) ==> run[k].size - run[k].count <= Awake(run[k].prod)
    ensures |run[k].msg| == |run[k].prod|
  {
    hide Next;
    hide Awake;
    if k > 0 {
      CountersAlways(run, events, k - 1);
      assert Next(run[k - 1], events[k - 1], run[k - 1 + 1]);
      StepCounters(run[k - 1], events[k - 1], run[k]);
    }
  }

  ghost predicate AllAsleep(s: State) {
    && (forall i | 0 <= i < |s.prod| :: s.prod[i] == Waiting)
    && (forall i | 0 <= i < |s.cons| :: s.cons[i] == Waiting)
  }

  /** With producers and consumers both present, all of them sleep only when the queue has no slot at all. */
  lemma AsleepOnlyAtSizeZero(run: seq<State>, events: seq<Event>, k: nat)
    requires IsRun(run, events) && k < |run|
    requires |run[k].prod| > 0 && |run[k].cons| > 0 && AllAsleep(run[k])
    ensures run[k].size == 0 && run[k].count == 0
  {
    hide IsRun;
    CountersAlways(run, events, k);
    NoneAwake(run[k].prod);
    NoneAwake(run[k].cons);
    assert run[k].prod[0] == Waiting && run[k].cons[0] == Waiting;
  }

  // ----- mutual exclusion

  ghost predicate Exclusive(s: State) {
    && (forall i: nat | i < |s.prod| && (s.prod[i].Inside? || s.prod[i] == Leaving) :: s.mutex == Some(Producer(i)))
    && (forall i: nat | i < |s.cons| && (s.cons[i].Inside? || s.cons[i] == Leaving) :: s.mutex == Some(Consumer(i)))
    && (s.main.Resizing? || s.main == Resized ==> s.mutex == Some(Main))
    && match s.mutex
       case None => true
       case Some(Producer(i)) => i < |s.prod| && (s.prod[i].Inside? || s.prod[i] == Leaving)
       case Some(Consumer(i)) => i < |s.cons| && (s.cons[i].Inside? || s.cons[i] == Leaving)
       case Some(Main) => s.main.Resizing? || s.main == Resized
  }

  lemma ProducerExclusive(s: State, e: Event, s': State)
    requires Exclusive(s) && Next(s, e, s')
    requires e.LockP? || e.SleepP? || e.SpuriousP? || e.UnlockP? || e.Generate? || e.AddMsg?
    ensures Exclusive(s')
  {
    hide Usable;
    hide WellFormed;
    hide HasWaiting;
  }

  lemma ConsumerExclusive(s: State, e: Event, s': State)
    requires Exclusive(s) && Next(s, e, s')
    requires e.LockC? || e.SleepC? || e.SpuriousC? || e.UnlockC? || e.TakeMsg?
    ensures Exclusive(s')
  {
    hide Usable;
    hide HasWaiting;
  }

  lemma MainExclusive(s: State, e: Event, s': State)
    requires Exclusive(s) && Next(s, e, s')
    requires e.Ask? || e.LockM? || e.GrowSize? || e.ShrinkSize? || e.UnlockM?
    ensures Exclusive(s')
  {
    hide Usable;
    hide HasWaiting;
  }

  lemma StepExclusive(s: State, e: Event, s': State)
    requires Exclusive(s) && Next(s, e, s')
    ensures Exclusive(s')
  {
    hide *;
    if e.LockP? || e.SleepP? || e.SpuriousP? || e.UnlockP? || e.Generate? || e.AddMsg? {
      ProducerExclusive(s, e, s');
    } else if e.LockC? || e.SleepC? || e.SpuriousC? || e.UnlockC? || e.TakeMsg? {
      ConsumerExclusive(s, e, s');
    } else {
      MainExclusive(s, e, s');
    }
  }

  /** At most one thread is inside the critical sections, in every state of every run. */
  lemma {:induction false} ExclusiveAlways(run: seq<State>, events: seq<Event>, k: nat)
    requires IsRun(run, events) && k < |run|
    ensures Exclusive(run[k])
  {
    hide Next;
    hide Exclusive;
    if k > 0 {
      ExclusiveAlways(run, events, k - 1);
      assert Next(run[k - 1], events[k - 1], run[k - 1 + 1]);
      StepExclusive(run[k - 1], events[k - 1], run[k]);
    } else {
      assert Exclusive(run[0]) by { BeginsExclusive(run[0]); }
    }
  }

  lemma BeginsExclusive(s: State)
    requires Begins(s)
    ensures Exclusive(s)
  {
  }

  // ----- the queue itself

  /** The resize `e` starts in one of the two states in which it goes wrong. */
  ghost predicate BadResize(s: State, e: Event) {
    (e.GrowSize? && GrowFails(s.ring)) || (e.ShrinkSize? && ShrinkFails(s.ring))
  }

  /** A run none of whose resizes starts in a state in which it goes wrong. */
  ghost predicate IsCalmRun(run: seq<State>, events: seq<Event>) {
    IsRun(run, events) && forall i | 0 <= i < |events| :: !BadResize(run[i], events[i])
  }

  ghost predicate HoldsMessage(pc: PC) {
    pc != Idle && pc != Leaving
  }

  ghost predicate QueueOk(s: State) {
    && Usable(s) && Sound(s.ring)
    && s.consumed + Contents(s.ring) == s.produced
    && (forall m | m in s.produced :: WellFormed(m))
    && |s.msg| == |s.prod|
    && (forall i | 0 <= i < |s.prod| && HoldsMessage(s.prod[i]) :: WellFormed(s.msg[i]))
  }

  lemma AddQueue(s: State, e: Event, s': State)
    requires QueueOk(s) && Next(s, e, s') && e.AddMsg?
    ensures QueueOk(s')
  {
    hide WellFormed;
    PutAppends(s.ring, s.msg[e.i]);
    assert s.consumed + (Contents(s.ring) + [s.msg[e.i]]) == s.produced + [s.msg[e.i]];
    assert HoldsMessage(s.prod[e.i]);
  }

  lemma TakeQueue(s: State, e: Event, s': State)
    requires QueueOk(s) && Next(s, e, s') && e.TakeMsg?
    ensures QueueOk(s')
  {
    hide WellFormed;
    GetTakesOldest(s.ring);
    hide Contents;
    MoveFirst(s.consumed, Contents(s.ring));
  }

  lemma ResizeQueue(s: State, e: Event, s': State)
    requires QueueOk(s) && Next(s, e, s') && (e.GrowSize? || e.ShrinkSize?) && !BadResize(s, e)
    ensures QueueOk(s')
  {
    hide WellFormed;
    hide Contents;
    hide Grow;
    hide Shrink;
    if e.GrowSize? {
      GrowExact(s.ring, e.slot);
    } else {
      ShrinkExact(s.ring);
    }
  }

  lemma StepQueue(s: State, e: Event, s': State)
    requires QueueOk(s) && Next(s, e, s') && !BadResize(s, e)
    ensures QueueOk(s')
  {
    hide WellFormed;
    hide Contents;
    if e.AddMsg? {
      AddQueue(s, e, s');
    } else if e.TakeMsg? {
      TakeQueue(s, e, s');
    } else if e.GrowSize? || e.ShrinkSize? {
      ResizeQueue(s, e, s');
    }
  }

  lemma {:induction false} QueueAlways(run: seq<State>, events: seq<Event>, k: nat)
    requires IsCalmRun(run, events) && k < |run|
    ensures QueueOk(run[k])
  {
    hide Next;
    hide QueueOk;
    if k > 0 {
      QueueAlways(run, events, k - 1);
      assert Next(run[k - 1], events[k - 1], run[k - 1 + 1]);
      StepQueue(run[k - 1], events[k - 1], run[k]);
    } else {
      BeginsQueue(run[0]);
    }
  }

  lemma BeginsQueue(s: State)
    requires Begins(s)
    ensures QueueOk(s)
  {
  }

  /** What has been taken, followed by what is in the ring, is what has been put in, in that order. */
  lemma Linearizable(run: seq<State>, events: seq<Event>, k: nat)
    requires IsCalmRun(run, events) && k < |run|
    ensures InBounds(run[k].ring) && run[k].ring.count == run[k].count && |run[k].ring.buf| == run[k].size
    ensures run[k].consumed + Contents(run[k].ring) == run[k].produced
    ensures run[k].consumed <= run[k].produced
  {
    hide IsCalmRun;
    QueueAlways(run, events, k);
  }

  /** Every message a consumer takes carries its checksum, and none is a cleared slot. */
  lemma ChecksumCarried(run: seq<State>, events: seq<Event>, k: nat, i: nat)
    requires IsCalmRun(run, events) && k < |run| && i < |run[k].consumed|
    ensures var m := run[k].consumed[i];
            && m != CLEARED && m.kind == TYPE_S && 0 <= m.size <= 255
            && |m.data| == PaddedLength(m.size)
            && m.hash == m.kind + m.size + Sum(m.data) <= 32338
  {
    hide IsCalmRun;
    QueueAlways(run, events, k);
    Linearizable(run, events, k);
    var m := run[k].consumed[i];
    assert run[k].produced[i] == m;
    ChecksumNeverWraps(m);
  }

  /** A resize that starts in a bad state does break the queue: the condition of `IsCalmRun` is not too strict. */
  lemma BadResizeBreaks(run: seq<State>, events: seq<Event>, s: State, e: Event, s': State)
    requires IsCalmRun(run, events) && s == run[|events|] && Next(s, e, s') && (e.GrowSize? || e.ShrinkSize?)
    requires s.ring.count <= |s.ring.buf| && s.ring.head <= |s.ring.buf|
    ensures HoldsQueue(s'.ring, Contents(s.ring)) <==> !BadResize(s, e)
  {
    hide Next;
    hide Contents;
    QueueAlways(run, events, |events|);
    BadResizeStep(s, e, s');
  }

  lemma ResizeIs(s: State, e: Event, s': State)
    requires QueueOk(s) && Next(s, e, s') && (e.GrowSize? || e.ShrinkSize?)
    ensures Sound(s.ring) && s'.ring == if e.GrowSize? then Grow(s.ring, e.slot) else Shrink(s.ring)
    ensures BadResize(s, e) == if e.GrowSize? then GrowFails(s.ring) else ShrinkFails(s.ring)
  {
    hide WellFormed;
    hide Contents;
    hide Linked;
    hide Grow;
    hide Shrink;
  }

  lemma BadResizeStep(s: State, e: Event, s': State)
    requires QueueOk(s) && Next(s, e, s') && (e.GrowSize? || e.ShrinkSize?)
    requires s.ring.count <= |s.ring.buf| && s.ring.head <= |s.ring.buf|
    ensures HoldsQueue(s'.ring, Contents(s.ring)) <==> !BadResize(s, e)
  {
    hide *;
    ResizeIs(s, e, s');
    if e.GrowSize? {
      GrowExact(s.ring, e.slot);
    } else {
      ShrinkExact(s.ring);
    }
  }

  // ----- what goes in and out, read off the events alone

  /** The message producer `i` has made and not put in yet. */
  function Pending(events: seq<Event>, k: nat, i: nat): Option<Message>
    requires k <= |events|
  {
    if k == 0 then None
    else match events[k - 1]
         case Generate(j, m) => if j == i then Some(m) else Pending(events, k - 1, i)
         case AddMsg(j, _) => if j == i then None else Pending(events, k - 1, i)
         case _ => Pending(events, k - 1, i)
  }

  /** The messages put in, in order: at each `AddMsg` the one its producer had made. */
  function Sent(events: seq<Event>, k: nat): seq<Message>
    requires k <= |events|
  {
    if k == 0 then []
    else Sent(events, k - 1)
         + if events[k - 1].AddMsg? && Pending(events, k - 1, events[k - 1].i).Some?
           then [Pending(events, k - 1, events[k - 1].i).value] else []
  }

  /** The messages handed out, in order. */
  function Received(events: seq<Event>, k: nat): seq<Message>
    requires k <= |events|
  {
    if k == 0 then [] else Received(events, k - 1) + if events[k - 1].TakeMsg? then [events[k - 1].m] else []
  }

  /** What a step adds to the history, and which message a producer holds after it. */
  ghost predicate Records(s: State, e: Event, s': State) {
    && s'.produced == s.produced + (if e.AddMsg? && e.i < |s.msg| then [s.msg[e.i]] else [])
    && s'.consumed == s.consumed + (if e.TakeMsg? then [e.m] else [])
    && |s'.prod| == |s.prod| && |s'.msg| == |s.msg|
  }

  lemma StepRecords(s: State, e: Event, s': State)
    requires Next(s, e, s')
    ensures Records(s, e, s') && (e.AddMsg? ==> e.i < |s.msg| && e.i < |s.prod| && HoldsMessage(s.prod[e.i]))
  {
    hide Usable;
    hide WellFormed;
    hide HasWaiting;
    assert s.produced + [] == s.produced && s.consumed + [] == s.consumed;
  }

  ghost predicate PendingIs(events: seq<Event>, k: nat, s: State, i: nat)
    requires k <= |events| && i < |s.prod| == |s.msg|
  {
    Pending(events, k, i) == if HoldsMessage(s.prod[i]) then Some(s.msg[i]) else None
  }

  lemma StepPending(s: State, e: Event, s': State, i: nat)
    requires Next(s, e, s') && i < |s.prod| == |s.msg| == |s'.prod| == |s'.msg|
    ensures if e.Generate? && e.i == i then HoldsMessage(s'.prod[i]) && s'.msg[i] == e.m
            else if e.AddMsg? && e.i == i then !HoldsMessage(s'.prod[i])
            else s'.msg[i] == s.msg[i] && (HoldsMessage(s'.prod[i]) <==> HoldsMessage(s.prod[i]))
  {
    hide Usable;
    hide WellFormed;
  }

  /**
   * Over every run: what is recorded as produced is what the producers made, each message
   * put in once and by its producer, and what is recorded as consumed is what was handed
   * out. With `Linearizable`, what was handed out and what the ring holds is what was made.
   */
  lemma {:induction false} Traffic(run: seq<State>, events: seq<Event>, k: nat)
    requires IsRun(run, events) && k < |run|
    ensures k <= |events| && run[k].produced == Sent(events, k) && run[k].consumed == Received(events, k)
    ensures |run[k].prod| == |run[k].msg|
    ensures forall i: nat | i < |run[k].prod| :: PendingIs(events, k, run[k], i)
  {
    hide Next;
    hide HoldsMessage;
    hide Records;
    if k == 0 {
      BeginsIdle(run, events);
    } else {
      var j := k - 1;
      Traffic(run, events, j);
      assert Next(run[j], events[j], run[j + 1]);
      StepRecords(run[j], events[j], run[k]);
      hide IsRun;
      TrafficStep(events, j, k, run[j], run[k]);
    }
  }

  /** First in, first out, told by the events: what was handed out, then the ring, is what was put in. */
  lemma FirstInFirstOut(run: seq<State>, events: seq<Event>, k: nat)
    requires IsCalmRun(run, events) && k < |run|
    ensures k <= |events| && run[k].ring.count <= |run[k].ring.buf| && run[k].ring.head <= |run[k].ring.buf|
    ensures Received(events, k) + Contents(run[k].ring) == Sent(events, k)
    ensures Received(events, k) <= Sent(events, k)
  {
    hide *;
    CalmIsRun(run, events);
    Traffic(run, events, k);
    Linearizable(run, events, k);
    InBoundsBoth(run[k].ring);
  }

  lemma CalmIsRun(run: seq<State>, events: seq<Event>)
    requires IsCalmRun(run, events)
    ensures IsRun(run, events)
  {
    hide IsRun;
  }

  lemma InBoundsBoth(r: Ring)
    requires InBounds(r)
    ensures r.count <= |r.buf| && r.head <= |r.buf|
  {
  }

  lemma BeginsIdle(run: seq<State>, events: seq<Event>)
    requires IsRun(run, events)
    ensures run[0].produced == Sent(events, 0) && run[0].consumed == Received(events, 0)
    ensures |run[0].prod| == |run[0].msg| && forall i: nat | i < |run[0].prod| :: PendingIs(events, 0, run[0], i)
  {
    hide Next;
  }

  lemma {:induction false} TrafficStep(events: seq<Event>, j: nat, k: nat, s: State, s': State)
    requires k == j + 1 <= |events| && Next(s, events[j], s') && Records(s, events[j], s')
    requires events[j].AddMsg? ==> events[j].i < |s.msg| && events[j].i < |s.prod| && HoldsMessage(s.prod[events[j].i])
    requires s.produced == Sent(events, j) && s.consumed == Received(events, j) && |s.prod| == |s.msg|
    requires forall i: nat | i < |s.prod| :: PendingIs(events, j, s, i)
    ensures s'.produced == Sent(events, k) && s'.consumed == Received(events, k) && |s'.prod| == |s'.msg|
    ensures forall i: nat | i < |s'.prod| :: PendingIs(events, k, s', i)
  {
    hide Next;
    hide HoldsMessage;
    var e := events[j];
    assert e.AddMsg? ==> PendingIs(events, j, s, e.i);
    forall i: nat | i < |s'.prod| ensures PendingIs(events, k, s', i) {
      assert PendingIs(events, j, s, i);
      StepPending(s, e, s', i);
    }
  }

  // ----- runs that reach a bad resize

  lemma Extend(run: seq<State>, events: seq<Event>, s: State, e: Event, s': State)
    returns (longer: seq<State>, all: seq<Event>)
    requires IsCalmRun(run, events) && run[|events|] == s && Next(s, e, s') && !BadResize(s, e)
    ensures IsCalmRun(longer, all) && longer[|all|] == s' && longer[0] == run[0]
  {
    hide Next;
    hide BadResize;
    longer, all := run + [s'], events + [e];
    forall i | 0 <= i < |all| ensures Next(longer[i], all[i], longer[i + 1]) && !BadResize(longer[i], all[i]) {
      if i < |events| {
        assert Next(run[i], events[i], run[i + 1]);
      }
    }
  }

  /** One producer, no consumer, and a resize asked for once the only message is in. */
  function StateAt(ring: Ring, pc: PC, main: MainPC, mutex: Option<Thread>, msg: Message, put: bool): State {
    var n := if put then 1 else 0;
    State(|ring.buf|, n, n, 0, ring, mutex, [pc], [], main, [msg], if put then [msg] else [], [])
  }

  /** From an empty queue: a producer puts one message in. */
  lemma AddRun(buf: seq<Message>, m: Message) returns (run: seq<State>, events: seq<Event>)
    requires |buf| >= 1 && WellFormed(m)
    ensures IsCalmRun(run, events) && run[0].ring.buf == buf
    ensures run[|events|] == StateAt(Put(Ring(buf, 0, 0, 0), m), Leaving, Menu, Some(Producer(0)), m, true)
  {
    hide WellFormed;
    var r0 := Ring(buf, 0, 0, 0);
    var s0 := StateAt(r0, Idle, Menu, None, m, false);
    var s1 := StateAt(r0, Want, Menu, None, m, false);
    var s2 := StateAt(r0, Inside(false), Menu, Some(Producer(0)), m, false);
    var s3 := StateAt(Put(r0, m), Leaving, Menu, Some(Producer(0)), m, true);
    run, events := [s0], [];
    FreshRun(buf, m);
    GenerateLock(r0, m);
    FirstAdd(r0, m);
    hide *;
    run, events := Extend(run, events, s0, Generate(0, m), s1);
    run, events := Extend(run, events, s1, LockP(0), s2);
    run, events := Extend(run, events, s2, AddMsg(0, None), s3);
  }

  lemma FreshRun(buf: seq<Message>, m: Message)
    ensures IsCalmRun([StateAt(Ring(buf, 0, 0, 0), Idle, Menu, None, m, false)], [])
  {
  }

  lemma GenerateLock(r: Ring, m: Message)
    requires WellFormed(m)
    ensures Next(StateAt(r, Idle, Menu, None, m, false), Generate(0, m), StateAt(r, Want, Menu, None, m, false))
    ensures Next(StateAt(r, Want, Menu, None, m, false), LockP(0),
                 StateAt(r, Inside(false), Menu, Some(Producer(0)), m, false))
    ensures forall s :: !BadResize(s, Generate(0, m)) && !BadResize(s, LockP(0))
  {
    hide WellFormed;
    assert [m][0 := m] == [m];
  }

  lemma FirstAdd(r: Ring, m: Message)
    requires r.head == r.tail == r.count == 0 && |r.buf| >= 1
    ensures Next(StateAt(r, Inside(false), Menu, Some(Producer(0)), m, false), AddMsg(0, None),
                 StateAt(Put(r, m), Leaving, Menu, Some(Producer(0)), m, true))
    ensures forall s :: !BadResize(s, AddMsg(0, None))
  {
    assert [] + [m] == [m] && !HasWaiting([]);
  }

  lemma UnlockAsk(r: Ring, m: Message, grow: bool)
    ensures Next(StateAt(r, Leaving, Menu, Some(Producer(0)), m, true), UnlockP(0),
                 StateAt(r, Idle, Menu, None, m, true))
    ensures Next(StateAt(r, Idle, Menu, None, m, true), Ask(grow), StateAt(r, Idle, Asked(grow), None, m, true))
    ensures Next(StateAt(r, Idle, Asked(grow), None, m, true), LockM,
                 StateAt(r, Idle, Resizing(grow), Some(Main), m, true))
    ensures forall s :: !BadResize(s, UnlockP(0)) && !BadResize(s, Ask(grow)) && !BadResize(s, LockM)
  {
    assert [Leaving][0 := Idle] == [Idle];
  }

  /** Then main holds the mutex to resize. */
  lemma OneMessageRun(buf: seq<Message>, m: Message, grow: bool) returns (run: seq<State>, events: seq<Event>)
    requires |buf| >= 1 && WellFormed(m)
    ensures IsCalmRun(run, events)
    ensures run[0].ring.buf == buf
    ensures run[|events|] == StateAt(Put(Ring(buf, 0, 0, 0), m), Idle, Resizing(grow), Some(Main), m, true)
  {
    hide WellFormed;
    var r := Put(Ring(buf, 0, 0, 0), m);
    run, events := AddRun(buf, m);
    UnlockAsk(r, m, grow);
    hide *;
    var s3 := StateAt(r, Leaving, Menu, Some(Producer(0)), m, true);
    var s4, s5 := StateAt(r, Idle, Menu, None, m, true), StateAt(r, Idle, Asked(grow), None, m, true);
    run, events := Extend(run, events, s3, UnlockP(0), s4);
    run, events := Extend(run, events, s4, Ask(grow), s5);
    run, events := Extend(run, events, s5, LockM, StateAt(r, Idle, Resizing(grow), Some(Main), m, true));
  }

  /** A queue of one slot, filled and then grown: a run in which the queue is broken, whatever the new slot holds. */
  lemma GrowBreaksRun(buf: seq<Message>, slot: Message)
    returns (run: seq<State>, events: seq<Event>, e: Event, s': State)
    requires |buf| == 1
    ensures IsCalmRun(run, events) && run[0].ring.buf == buf
    ensures e == GrowSize(slot, None) && Next(run[|events|], e, s') && BadResize(run[|events|], e)
    ensures InBounds(run[|events|].ring) && !HoldsQueue(s'.ring, Contents(run[|events|].ring))
  {
    var m := SampleMessage();
    run, events := OneMessageRun(buf, m, true);
    var s := run[|events|];
    hide IsCalmRun;
    assert !HasWaiting([Idle]);
    e := GrowSize(slot, None);
    s' := s.(size := s.size + 1, ring := Grow(s.ring, slot), main := Resized);
  }

  /** A queue of two slots, with one message in it, shrunk: the other one. */
  lemma ShrinkBreaksRun(buf: seq<Message>)
    returns (run: seq<State>, events: seq<Event>, s': State)
    requires |buf| == 2
    ensures IsCalmRun(run, events) && run[0].ring.buf == buf
    ensures Next(run[|events|], ShrinkSize, s') && BadResize(run[|events|], ShrinkSize)
    ensures InBounds(run[|events|].ring) && !HoldsQueue(s'.ring, Contents(run[|events|].ring))
  {
    var m := SampleMessage();
    run, events := OneMessageRun(buf, m, false);
    var s := run[|events|];
    hide IsCalmRun;
    s' := s.(size := s.size - 1, ring := Shrink(s.ring), main := Resized);
  }

  // ----- somebody can go on

  /** A step a thread takes on its own: no spurious wakeup, no request from the menu. */
  ghost predicate IsOwnStep(e: Event) {
    !e.SpuriousP? && !e.SpuriousC? && !e.Ask?
  }

  lemma ChooseWake(pcs: seq<PC>) returns (wake: Option<nat>)
    ensures SignalOk(pcs, wake)
  {
    if i: nat :| i < |pcs| && pcs[i] == Waiting {
      wake := Some(i);
    } else {
      wake := None;
    }
  }

  lemma ProducerRuns(s: State, i: nat) returns (e: Event, s': State)
    requires |s.msg| == |s.prod| && i < |s.prod| && s.prod[i] != Waiting
    requires s.mutex == None || s.prod[i].Inside? || s.prod[i] == Leaving
    ensures Next(s, e, s') && IsOwnStep(e)
  {
    hide WellFormed;
    if s.prod[i] == Idle {
      var m := SampleMessage();
      e, s' := Generate(i, m), s.(prod := s.prod[i := Want], msg := s.msg[i := m]);
    } else if s.prod[i] == Leaving {
      e, s' := UnlockP(i), s.(prod := s.prod[i := Idle], mutex := None);
    } else if !s.prod[i].Inside? {
      e, s' := LockP(i), s.(prod := s.prod[i := Inside(s.prod[i] == Woken)], mutex := Some(Producer(i)));
    } else if s.count >= s.size {
      e, s' := SleepP(i), s.(prod := s.prod[i := Waiting], mutex := None);
    } else {
      var wake := ChooseWake(s.cons);
      var ring := if Usable(s) then Put(s.ring, s.msg[i]) else s.ring;
      e := AddMsg(i, wake);
      s' := s.(countAdd := s.countAdd + 1, ring := ring, count := s.count + 1,
               cons := Signal(s.cons, wake), prod := s.prod[i := Leaving], produced := s.produced + [s.msg[i]]);
    }
  }

  lemma ConsumerRuns(s: State, i: nat) returns (e: Event, s': State)
    requires i < |s.cons| && s.cons[i] != Waiting && s.cons[i] != Idle
    requires s.mutex == None || s.cons[i].Inside? || s.cons[i] == Leaving
    ensures Next(s, e, s') && IsOwnStep(e)
  {
    if s.cons[i] == Leaving {
      e, s' := UnlockC(i), s.(cons := s.cons[i := Want], mutex := None);
    } else if !s.cons[i].Inside? {
      e, s' := LockC(i), s.(cons := s.cons[i := Inside(s.cons[i] == Woken)], mutex := Some(Consumer(i)));
    } else if s.count == 0 {
      e, s' := SleepC(i), s.(cons := s.cons[i := Waiting], mutex := None);
    } else {
      var wake := ChooseWake(s.prod);
      var m := if Usable(s) then s.ring.buf[s.ring.head] else CLEARED;
      var ring := if Usable(s) then Get(s.ring) else s.ring;
      e := TakeMsg(i, wake, m);
      s' := s.(countGet := s.countGet + 1, ring := ring, count := s.count - 1,
               prod := Signal(s.prod, wake), cons := s.cons[i := Leaving], consumed := s.consumed + [m]);
    }
  }

  lemma MainRuns(s: State) returns (e: Event, s': State)
    requires s.count <= s.size && (s.main.Resizing? || s.main == Resized)
    ensures Next(s, e, s') && IsOwnStep(e)
  {
    if s.main == Resized {
      e, s' := UnlockM, s.(main := Menu, mutex := None);
    } else if s.main.grow {
      var wake := ChooseWake(s.prod);
      e := GrowSize(CLEARED, wake);
      var ring := if Usable(s) then Grow(s.ring, CLEARED) else s.ring;
      s' := s.(size := s.size + 1, ring := ring, prod := Signal(s.prod, wake), main := Resized);
    } else {
      var ring := if Usable(s) then Shrink(s.ring) else s.ring;
      e := ShrinkSize;
      s' := s.(size := if s.count < s.size then s.size - 1 else s.size, ring := ring, main := Resized);
    }
  }

  lemma {:induction false} NoIdleConsumer(run: seq<State>, events: seq<Event>, k: nat)
    requires IsRun(run, events) && k < |run|
    ensures forall i | 0 <= i < |run[k].cons| :: run[k].cons[i] != Idle
  {
    hide Usable;
    if k > 0 {
      NoIdleConsumer(run, events, k - 1);
      assert Next(run[k - 1], events[k - 1], run[k - 1 + 1]);
    }
  }

  /**
   * While there is a slot, and producers and consumers both exist, some thread goes on
   * without outside help, in every state of every run, whatever became of the ring.
   */
  lemma NotStuck(run: seq<State>, events: seq<Event>, k: nat) returns (e: Event, s': State)
    requires IsRun(run, events) && k < |run|
    requires |run[k].prod| > 0 && |run[k].cons| > 0 && run[k].size > 0
    ensures Next(run[k], e, s') && IsOwnStep(e)
  {
    hide Next;
    hide IsRun;
    var s := run[k];
    CountersAlways(run, events, k);
    ExclusiveAlways(run, events, k);
    NoIdleConsumer(run, events, k);
    if s.mutex == None {
      if AllAsleep(s) {
        AsleepOnlyAtSizeZero(run, events, k);
      }
      if i: nat :| i < |s.prod| && s.prod[i] != Waiting {
        e, s' := ProducerRuns(s, i);
      } else {
        var i: nat :| i < |s.cons| && s.cons[i] != Waiting;
        e, s' := ConsumerRuns(s, i);
      }
    } else if s.mutex.value.Producer? {
      e, s' := ProducerRuns(s, s.mutex.value.i);
    } else if s.mutex.value.Consumer? {
      e, s' := ConsumerRuns(s, s.mutex.value.i);
    } else {
      e, s' := MainRuns(s);
    }
  }
}
