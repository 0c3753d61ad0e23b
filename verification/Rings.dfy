/** The ring buffer as a value, and the plain queue it stands for. */
module Rings {
  import opened Messages

  /** `|buf|` is the queue size; `count` is the number of messages held. */
  datatype Ring = Ring(buf: seq<Message>, head: nat, tail: nat, count: nat)

  ghost predicate InBounds(r: Ring) {
    && r.count <= |r.buf|
    && if |r.buf| == 0 then r.head == 0 && r.tail == 0 else r.head < |r.buf| && r.tail < |r.buf|
  }

  /** `tail` is `(head + count) mod size`. */
  ghost predicate Linked(r: Ring) {
    r.tail == if r.head + r.count < |r.buf| || |r.buf| == 0 then r.head + r.count else r.head + r.count - |r.buf|
  }

  /** The messages from `head` on, oldest first. */
  function Contents(r: Ring): (s: seq<Message>)
    requires r.count <= |r.buf| && r.head <= |r.buf|
    ensures |s| == r.count
  {
    if r.head + r.count <= |r.buf| then r.buf[r.head..r.head + r.count]
    else r.buf[r.head..] + r.buf[..r.head + r.count - |r.buf|]
  }

  ghost predicate Sound(r: Ring) {
    InBounds(r) && Linked(r)
  }

  /** What the operations leave is the queue `q`, held soundly. */
  ghost predicate HoldsQueue(r: Ring, q: seq<Message>) {
    Sound(r) && Contents(r) == q
  }

  function Wrap(i: nat, size: nat): nat {
    if i == size then 0 else i
  }

  function Put(r: Ring, m: Message): Ring
    requires InBounds(r) && r.count < |r.buf|
  {
    Ring(r.buf[r.tail := m], r.head, Wrap(r.tail + 1, |r.buf|), r.count + 1)
  }

  function Get(r: Ring): Ring
    requires InBounds(r) && r.count > 0
  {
    Ring(r.buf[r.head := CLEARED], Wrap(r.head + 1, |r.buf|), r.tail, r.count - 1)
  }

  /** One slot more; `slot` is whatever `realloc` finds behind the old buffer. */
  function Grow(r: Ring, slot: Message): Ring
    requires InBounds(r)
  {
    if r.head > r.tail then Ring(r.buf[..r.head + 1] + r.buf[r.head..], r.head + 1, r.tail, r.count)
    else r.(buf := r.buf + [slot])
  }

  /** The messages moved so that the last slot can go. */
  function Compact(r: Ring): (s: Ring)
    requires InBounds(r)
    ensures |s.buf| == |r.buf| && s.count == r.count
  {
    if r.head < r.tail then
      var k := r.tail - r.head;
      Ring(r.buf[r.head..r.tail] + r.buf[k..], 0, k, r.count)
    else if r.head == r.tail then r.(head := 0, tail := 0)
    else r.(buf := r.buf[..r.head - 1] + r.buf[r.head..] + [r.buf[|r.buf| - 1]], head := r.head - 1)
  }

  /** One slot less, unless the ring is full. */
  function Shrink(r: Ring): Ring
    requires InBounds(r)
  {
    if r.count >= |r.buf| then r
    else var s := Compact(r); s.(buf := s.buf[..|s.buf| - 1])
  }

  // ----- the plain queue

  lemma PutAppends(r: Ring, m: Message)
    requires Sound(r) && r.count < |r.buf|
    ensures HoldsQueue(Put(r, m), Contents(r) + [m])
  {
    var s := Put(r, m);
    assert Contents(s) == Contents(r) + [m];
  }

  lemma GetTakesOldest(r: Ring)
    requires Sound(r) && r.count > 0
    ensures r.buf[r.head] == Contents(r)[0]
    ensures HoldsQueue(Get(r), Contents(r)[1..])
    ensures Get(r).buf == r.buf[r.head := Message(0, 0, 0, [])]
  {
    var s := Get(r);
    assert Contents(s) == Contents(r)[1..];
  }

  /** Handing the oldest message of `q` over to `done` loses nothing. */
  lemma MoveFirst(done: seq<Message>, q: seq<Message>)
    requires q != []
    ensures (done + [q[0]]) + q[1..] == done + q
  {
    assert q == [q[0]] + q[1..];
  }

  /** The state in which growing goes wrong: a full ring of at least one slot. */
  predicate GrowFails(r: Ring) {
    r.count == |r.buf| && |r.buf| >= 1
  }

  /** The state in which shrinking goes wrong: one free slot, and it is the last one. */
  predicate ShrinkFails(r: Ring) {
    r.head == 0 && |r.buf| >= 2 && r.tail == |r.buf| - 1
  }

  /** Messages that wrap lie in two stretches, which growing shifts apart. */
  lemma GrowWrapped(r: Ring, slot: Message)
    requires Sound(r) && r.head > r.tail
    ensures Contents(Grow(r, slot)) == Contents(r)
  {
    var s := Grow(r, slot);
    assert s.buf[s.head..] == r.buf[r.head..];
    assert s.buf[..r.tail] == r.buf[..r.tail];
  }

  lemma GrowStraight(r: Ring, slot: Message)
    requires Sound(r) && r.head <= r.tail && !GrowFails(r)
    ensures Contents(Grow(r, slot)) == Contents(r)
  {
    assert (r.buf + [slot])[r.head..r.head + r.count] == r.buf[r.head..r.head + r.count];
  }

  /** Growing keeps the queue exactly when the ring is not full; whatever the new slot holds. */
  lemma GrowExact(r: Ring, slot: Message)
    requires Sound(r)
    ensures HoldsQueue(Grow(r, slot), Contents(r)) <==> !GrowFails(r)
    ensures |Grow(r, slot).buf| == |r.buf| + 1 && Grow(r, slot).count == r.count
  {
    hide Contents;
    if r.head > r.tail {
      GrowWrapped(r, slot);
    } else if !GrowFails(r) {
      GrowStraight(r, slot);
    }
  }

  lemma ShrinkWrapped(r: Ring)
    requires Sound(r) && r.head > r.tail && r.count < |r.buf|
    ensures Contents(Shrink(r)) == Contents(r)
  {
    var s := Shrink(r);
    assert s.buf[s.head..] == r.buf[r.head..];
    assert s.buf[..r.tail] == r.buf[..r.tail];
  }

  lemma ShrinkStraight(r: Ring)
    requires Sound(r) && r.head <= r.tail && r.count < |r.buf|
    ensures Contents(Shrink(r)) == Contents(r)
  {
    if r.head < r.tail {
      assert (r.buf[r.head..r.tail] + r.buf[r.tail - r.head..])[..|r.buf| - 1][..r.count] == r.buf[r.head..r.tail];
    }
  }

  /** Shrinking keeps the queue exactly outside the unwrapped state with the last slot free. */
  lemma ShrinkExact(r: Ring)
    requires Sound(r)
    ensures HoldsQueue(Shrink(r), Contents(r)) <==> !ShrinkFails(r)
    ensures |Shrink(r).buf| == (if r.count < |r.buf| then |r.buf| - 1 else |r.buf|) && Shrink(r).count == r.count
  {
    hide Contents;
    if r.count < |r.buf| {
      if r.head > r.tail {
        ShrinkWrapped(r);
      } else {
        ShrinkStraight(r);
      }
    }
  }

  /** Growing and then shrinking gives the same queue back, wherever growing is right. */
  lemma GrowThenShrink(r: Ring, slot: Message)
    requires Sound(r) && !GrowFails(r)
    ensures HoldsQueue(Shrink(Grow(r, slot)), Contents(r)) && |Shrink(Grow(r, slot)).buf| == |r.buf|
  {
    GrowExact(r, slot);
    ShrinkExact(Grow(r, slot));
  }

  /** Shrinking and then growing does too, unless shrinking goes wrong or leaves the ring full. */
  lemma ShrinkThenGrow(r: Ring, slot: Message)
    requires Sound(r) && r.count < |r.buf| && !ShrinkFails(r)
    ensures HoldsQueue(Grow(Shrink(r), slot), Contents(r)) <==> r.count + 1 < |r.buf| || |r.buf| == 1
    ensures |Grow(Shrink(r), slot).buf| == |r.buf|
  {
    ShrinkExact(r);
    GrowExact(Shrink(r), slot);
  }

  /** A full ring of two, grown: the reader is next handed the slot nobody wrote. */
  lemma GrowFullExample(a: Message, b: Message, slot: Message)
    requires slot != a
    ensures var r := Ring([a, b], 1, 1, 2);
            Sound(r) && Contents(r) == [b, a] && Contents(Grow(r, slot)) == [b, slot]
  {
  }

  /** A ring of two with one message at its start, shrunk: the next write lands behind the buffer. */
  lemma ShrinkExample(a: Message, free: Message)
    ensures var r := Ring([a, free], 0, 1, 1);
            Sound(r) && Shrink(r) == Ring([a], 0, 1, 1) && !InBounds(Shrink(r))
  {
    assert [a] + [free] == [a, free];
    assert ([a, free][0..1] + [a, free][1..])[..1] == [a];
  }
}
