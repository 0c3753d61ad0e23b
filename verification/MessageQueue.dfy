/** The shared queue object and the code run on it under the mutex. */
module MessageQueues {
  import opened Messages
  import opened Rings

  /** `x` is `b` once the slots from `head` up to `k` are copied to its front, `i` of them. */
  ghost predicate CopiedDown(x: seq<Message>, b: seq<Message>, head: nat, k: nat, i: nat) {
    k == head + i && k <= |b| && x == b[head..k] + b[i..]
  }

  lemma CopyNone(b: seq<Message>, head: nat)
    requires head <= |b|
    ensures CopiedDown(b, b, head, head, 0)
  {
  }

  lemma CopyOne(x: seq<Message>, b: seq<Message>, head: nat, k: nat, i: nat)
    requires CopiedDown(x, b, head, k, i) && k < |b|
    ensures |x| == |b| && i < |b| && CopiedDown(x[i := x[k]], b, head, k + 1, i + 1)
  {
    assert b[head..k + 1] == b[head..k] + [b[k]];
    assert x[i := x[k]] == b[head..k + 1] + b[i + 1..];
  }

  lemma CopiedAll(x: seq<Message>, b: seq<Message>, head: nat, tail: nat, k: nat, i: nat)
    requires k == tail && CopiedDown(x, b, head, k, i)
    ensures tail <= |b| && x == b[head..tail] + b[tail - head..]
  {
  }

  /** `x` is `b` once the slots from `head` up to `k` are moved down by one. */
  ghost predicate MovedDown(x: seq<Message>, b: seq<Message>, head: nat, k: nat) {
    0 < head <= k <= |b| && x == b[..head - 1] + b[head..k] + b[k - 1..]
  }

  lemma MoveNone(b: seq<Message>, head: nat)
    requires 0 < head < |b|
    ensures MovedDown(b, b, head, head)
  {
  }

  lemma MoveOne(x: seq<Message>, b: seq<Message>, head: nat, k: nat)
    requires MovedDown(x, b, head, k) && k < |b|
    ensures |x| == |b| && 0 < k && MovedDown(x[k - 1 := x[k]], b, head, k + 1)
  {
    assert b[head..k + 1] == b[head..k] + [b[k]];
    assert x[k - 1 := x[k]] == b[..head - 1] + b[head..k + 1] + b[k..];
  }

  lemma MovedAll(x: seq<Message>, b: seq<Message>, head: int, size: int)
    requires 0 < head <= size == |b| && MovedDown(x, b, head, size)
    ensures x == (b[..head - 1] + b[head..]) + [b[size - 1]]
  {
    assert b[head..size] == b[head..] && b[size - 1..] == [b[size - 1]];
  }

  /** One assignment of the loops below. */
  method CopySlot(buffer: array<Message>, to: nat, from: nat)
    requires to < buffer.Length && from < buffer.Length
    modifies buffer
    ensures buffer[..] == old(buffer[..])[to := old(buffer[..])[from]]
  {
    buffer[to] := buffer[from];
  }

  /** The body of the loop that copies messages to the front. */
  method CopyMessage(buffer: array<Message>, i: nat, k: nat, ghost head: nat, ghost b: seq<Message>)
    requires k < buffer.Length == |b| && CopiedDown(buffer[..], b, head, k, i)
    modifies buffer
    ensures CopiedDown(buffer[..], b, head, k + 1, i + 1)
  {
    hide *;
    CopyOne(buffer[..], b, head, k, i);
    CopySlot(buffer, i, k);
  }

  /** The body of the loop that moves messages down by one slot. */
  method MoveMessage(buffer: array<Message>, k: nat, ghost head: nat, ghost b: seq<Message>)
    requires k < buffer.Length == |b| && MovedDown(buffer[..], b, head, k)
    modifies buffer
    ensures MovedDown(buffer[..], b, head, k + 1)
  {
    hide *;
    MoveOne(buffer[..], b, head, k);
    CopySlot(buffer, k - 1, k);
  }

  /** Copy the messages from `head` to `tail` to the front. */
  method CopyDown(buffer: array<Message>, head: nat, tail: nat, ghost b: seq<Message>)
    requires head < tail <= buffer.Length && buffer[..] == b
    modifies buffer
    ensures buffer[..] == b[head..tail] + b[tail - head..]
  {
    hide *;
    assert |b| == buffer.Length;
    CopyNone(b, head);
    var i: nat, k: nat := 0, head;
    while tail - head - i > 0
      invariant k == head + i <= tail && CopiedDown(buffer[..], b, head, k, i)
    {
      CopyMessage(buffer, i, k, head, b);
      i, k := i + 1, k + 1;
    }
    assert k == tail;
    CopiedAll(buffer[..], b, head, tail, k, i);
  }

  /** Move the messages from `head` on down by one slot. */
  method MoveDown(buffer: array<Message>, head: nat, sizeQueue: nat, ghost b: seq<Message>)
    requires 0 < head < sizeQueue == buffer.Length && buffer[..] == b
    modifies buffer
    ensures buffer[..] == (b[..head - 1] + b[head..]) + [b[sizeQueue - 1]]
  {
    hide *;
    assert |b| == buffer.Length;
    MoveNone(b, head);
    var i: nat, k: nat := 0, head;
    while head + i < sizeQueue
      invariant head + i == k <= sizeQueue && MovedDown(buffer[..], b, head, k)
    {
      MoveMessage(buffer, k, head, b);
      i, k := i + 1, k + 1;
    }
    assert k == sizeQueue;
    MovedAll(buffer[..], b, head, sizeQueue);
  }

  lemma FirstAndRest(q: seq<Message>)
    requires q != []
    ensures [q[0]] + q[1..] == q
  {
  }

  class MessageQueue {
    var buffer: array<Message>
    var head: int
    var tail: int
    var countAdd: int
    var countGet: int
    var countMsg: int
    var sizeQueue: int

    /** The ring the fields describe. */
    ghost function View(): Ring
      requires 0 <= head && 0 <= tail && 0 <= countMsg
      reads this, buffer
    {
      Ring(buffer[..], head, tail, countMsg)
    }

    ghost predicate Valid()
      reads this, buffer
    {
      && 0 <= head && 0 <= tail && 0 <= countMsg
      && buffer.Length == sizeQueue && InBounds(View())
    }

    lemma InBuffer()
      requires Valid()
      ensures 0 <= head && 0 <= tail && buffer.Length == sizeQueue
      ensures if sizeQueue == 0 then head == tail == 0 else head < sizeQueue && tail < sizeQueue
    {
    }

    /** `init_queue`: what the new buffer holds is not specified. */
    constructor (size: nat)
      ensures Valid() && fresh(buffer) && sizeQueue == size
      ensures HoldsQueue(View(), []) && countAdd == 0 && countGet == 0
    {
      buffer := new Message[size];
      head, tail, countAdd, countGet, countMsg := 0, 0, 0, 0, 0;
      sizeQueue := size;
    }

    /** A producer's critical section once there is room. */
    method Add(msg: Message)
      requires Valid() && countMsg < sizeQueue
      modifies this, buffer
      ensures Valid() && buffer == old(buffer) && sizeQueue == old(sizeQueue)
      ensures View() == Put(old(View()), msg)
      ensures old(Sound(View())) ==> HoldsQueue(View(), old(Contents(View())) + [msg])
      ensures countAdd == old(countAdd) + 1 && countGet == old(countGet)
    {
      hide Contents;
      hide HoldsQueue;
      if Sound(View()) {
        PutAppends(View(), msg);
      }
      countAdd := countAdd + 1;
      buffer[tail] := msg;
      tail := tail + 1;
      if tail == sizeQueue {
        tail := 0;
      }
      countMsg := countMsg + 1;
    }

    /** A consumer's critical section once there is a message. */
    method Take() returns (msg: Message)
      requires Valid() && countMsg > 0
      modifies this, buffer
      ensures Valid() && buffer == old(buffer) && sizeQueue == old(sizeQueue)
      ensures msg == old(buffer[head]) && View() == Get(old(View()))
      ensures buffer[..] == old(buffer[..][head := Message(0, 0, 0, [])])
      ensures old(Sound(View())) ==> [msg] + Contents(View()) == old(Contents(View())) && Sound(View())
      ensures countGet == old(countGet) + 1 && countAdd == old(countAdd)
    {
      if Sound(View()) {
        GetTakesOldest(View());
        FirstAndRest(Contents(View()));
      }
      hide Contents;
      countGet := countGet + 1;
      msg := buffer[head];
      buffer[head] := CLEARED;
      head := head + 1;
      if head == sizeQueue {
        head := 0;
      }
      countMsg := countMsg - 1;
    }

    /** `realloc`: as many old slots as fit, then `slot`. */
    method Realloc(size: nat, slot: Message)
      modifies this`buffer
      ensures fresh(buffer) && buffer.Length == size
      ensures size <= old(buffer.Length) ==> buffer[..] == old(buffer[..size])
      ensures size == old(buffer.Length) + 1 ==> buffer[..] == old(buffer[..]) + [slot]
    {
      var was := buffer;
      buffer := new Message[size](i requires 0 <= i reads was => if i < was.Length then was[i] else slot);
    }

    /** The loop of `incremSize` for messages that wrap: shift them into the new slot. */
    method ShiftUp(ghost b: seq<Message>)
      requires 0 <= head < |b| && sizeQueue == buffer.Length == |b| + 1 && buffer[..|b|] == b
      modifies buffer
      ensures buffer[..] == b[..head + 1] + b[head..]
    {
      var i := sizeQueue - 1;
      assert forall j | 0 <= j < |b| :: buffer[j] == buffer[..|b|][j];
      while i > head
        invariant head <= i <= sizeQueue - 1 == |b|
        invariant forall j | 0 <= j <= i && j < |b| :: buffer[j] == b[j]
        invariant forall j | i < j < sizeQueue :: buffer[j] == b[j - 1]
      {
        buffer[i] := buffer[i - 1];
        i := i - 1;
      }
    }

    /** `incremSize`; `slot` is what the new slot happens to hold. */
    method IncremSize(slot: Message)
      requires Valid()
      modifies this, buffer
      ensures buffer.Length == sizeQueue == old(sizeQueue) + 1 && fresh(buffer)
      ensures 0 <= head && 0 <= tail && 0 <= countMsg && View() == Grow(old(View()), slot)
      ensures old(Sound(View())) ==> (HoldsQueue(View(), old(Contents(View()))) <==> !GrowFails(old(View())))
      ensures countAdd == old(countAdd) && countGet == old(countGet)
    {
      hide HoldsQueue;
      hide Contents;
      if Sound(View()) {
        GrowExact(View(), slot);
      }
      ghost var b := buffer[..];
      sizeQueue := sizeQueue + 1;
      Realloc(sizeQueue, slot);
      if head > tail {
        ShiftUp(b);
        head := head + 1;
      }
    }

    /** The first loop of `discrSize` for messages that do not wrap. */
    method CopyToFront()
      requires Valid() && head < tail
      modifies buffer
      ensures buffer[..] == old(buffer[head..tail] + buffer[tail - head..])
    {
      hide *;
      InBuffer();
      CopyDown(buffer, head, tail, buffer[..]);
    }

    /** The second loop: count `head` down to 0 and `tail` with it. */
    method MoveToFront()
      requires 0 <= head
      modifies this`head, this`tail
      ensures head == 0 && tail == old(tail - head)
    {
      while head != 0
        invariant 0 <= head && tail - head == old(tail - head)
        decreases head
      {
        head := head - 1;
        tail := tail - 1;
      }
    }

    /** `discrSize` for messages that wrap: close the gap before `head`. */
    method CloseGap()
      requires Valid() && head > tail
      modifies this`head, buffer
      ensures buffer[..] == old((buffer[..head - 1] + buffer[head..]) + [buffer[sizeQueue - 1]])
      ensures head == old(head) - 1
    {
      hide *;
      InBuffer();
      MoveDown(buffer, head, sizeQueue, buffer[..]);
      head := head - 1;
    }

    /** The branches of `discrSize` that move messages. */
    method MoveMessages()
      requires Valid()
      modifies this`head, this`tail, buffer
      ensures 0 <= head && 0 <= tail && View() == Compact(old(View()))
    {
      if head < tail {
        CopyToFront();
        MoveToFront();
      } else if head == tail {
        head, tail := 0, 0;
      } else if head > tail {
        CloseGap();
      }
    }

    /** `discrSize`. */
    method DiscrSize()
      requires Valid()
      modifies this, buffer
      ensures buffer.Length == sizeQueue == (if old(countMsg < sizeQueue) then old(sizeQueue) - 1 else old(sizeQueue))
      ensures 0 <= head && 0 <= tail && 0 <= countMsg && View() == Shrink(old(View()))
      ensures old(Sound(View())) ==> (HoldsQueue(View(), old(Contents(View()))) <==> !ShrinkFails(old(View())))
      ensures countAdd == old(countAdd) && countGet == old(countGet)
    {
      hide HoldsQueue;
      hide Contents;
      hide Compact;
      if Sound(View()) {
        ShrinkExact(View());
      }
      if countMsg < sizeQueue {
        MoveMessages();
        sizeQueue := sizeQueue - 1;
        Realloc(sizeQueue, CLEARED);
      }
    }
  }
}
