/** The queue object of the semaphore variant: the same ring, and no message counter in it. */
module SlotQueues {
  import opened Messages
  import opened Rings

  class SlotQueue {
    var buffer: array<Message>
    var head: nat
    var tail: nat
    var countAdd: int
    var countGet: int

    /** The ring when it holds `count` messages, which only the semaphores know. */
    ghost function View(count: nat): Ring
      reads this, buffer
    {
      Ring(buffer[..], head, tail, count)
    }

    /** `init_queue`; the buffer has `sizeQueue` slots. */
    constructor (sizeQueue: nat)
      ensures fresh(buffer) && buffer.Length == sizeQueue
      ensures HoldsQueue(View(0), []) && countAdd == countGet == 0
    {
      buffer := new Message[sizeQueue];
      head, tail, countAdd, countGet := 0, 0, 0, 0;
    }

    /** A producer's critical section, up to the post of `full`. */
    method Store(msg: Message, ghost count: nat)
      requires Sound(View(count)) && count < buffer.Length
      modifies this, buffer
      ensures buffer == old(buffer) && View(count + 1) == Put(old(View(count)), msg)
      ensures HoldsQueue(View(count + 1), old(Contents(View(count))) + [msg])
      ensures countAdd == old(countAdd) + 1 && countGet == old(countGet)
    {
      PutAppends(View(count), msg);
      countAdd := countAdd + 1;
      buffer[tail] := msg;
      tail := tail + 1;
      if tail == buffer.Length {
        tail := 0;
      }
    }

    /** A consumer's critical section, up to the post of `empty`. */
    method Load(ghost count: nat) returns (msg: Message)
      requires Sound(View(count)) && count > 0
      modifies this, buffer
      ensures buffer == old(buffer) && View(count - 1) == Get(old(View(count)))
      ensures buffer[..] == old(buffer[..][head := Message(0, 0, 0, [])])
      ensures Sound(View(count - 1)) && [msg] + Contents(View(count - 1)) == old(Contents(View(count)))
      ensures countGet == old(countGet) + 1 && countAdd == old(countAdd)
    {
      GetTakesOldest(View(count));
      countGet := countGet + 1;
      msg := buffer[head];
      buffer[head] := CLEARED;
      head := head + 1;
      if head == buffer.Length {
        head := 0;
      }
    }
  }
}
