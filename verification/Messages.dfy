/** The messages that producers make. */
module Messages {

  /** `data` is the buffer the message points to; it is never written again. */
  datatype Message = Message(kind: int, hash: int, size: int, data: seq<int>)

  /** What `memset` to zero leaves in a slot. */
  const CLEARED := Message(0, 0, 0, [])

  const TYPE_S := 'S' as int
  const USHORT := 0x1_0000

  /** Bytes allocated for a size byte: the next multiple of four, 0 standing for 256. */
  function PaddedLength(size: int): (n: nat)
    requires 0 <= size <= 255
    ensures n % 4 == 0 && 0 < n <= 256
    ensures if size == 0 then n == 256 else size <= n < size + 4
  {
    if size == 0 then 256 else (size + 3) / 4 * 4
  }

  function Sum(data: seq<int>): int {
    if data == [] then 0 else Sum(data[..|data| - 1]) + data[|data| - 1]
  }

  /** `Sum` adds up every element once, wherever the data is cut. */
  lemma {:induction false} SumOfParts(a: seq<int>, b: seq<int>)
    ensures Sum(a + b) == Sum(a) + Sum(b)
    ensures forall x :: Sum([x]) == x
  {
    if b == [] {
      assert a + b == a;
    } else {
      var n := |b| - 1;
      SumOfParts(a, b[..n]);
      assert (a + b)[..|a| + n] == a + b[..n];
    }
    forall x ensures Sum([x]) == x {
      assert [x][..0] == [];
    }
  }

  ghost predicate Printable(data: seq<int>) {
    forall i | 0 <= i < |data| :: 33 <= data[i] <= 125
  }

  /** A finished message: its 16-bit checksum is the plain sum of its fields and padded data. */
  ghost predicate WellFormed(m: Message) {
    && m.kind == TYPE_S && 0 <= m.size <= 255
    && |m.data| == PaddedLength(m.size) && Printable(m.data)
    && m.hash == m.kind + m.size + Sum(m.data)
  }

  lemma {:induction false} SumBounds(data: seq<int>)
    requires Printable(data)
    ensures 33 * |data| <= Sum(data) <= 125 * |data|
  {
    if data != [] {
      SumBounds(data[..|data| - 1]);
    }
  }

  /** The sum never reaches the width of `unsigned short`. */
  lemma ChecksumNeverWraps(m: Message)
    requires WellFormed(m)
    ensures 0 < m.hash <= 32338 < USHORT
    ensures m != CLEARED
  {
    SumBounds(m.data);
  }

  /** There is a finished message. */
  lemma SampleMessage() returns (m: Message)
    ensures WellFormed(m)
  {
    m := Message(TYPE_S, 219, 4, [33, 33, 33, 33]);
    assert m.data[..3] == [33, 33, 33] && [33, 33, 33][..2] == [33, 33] && [33, 33][..1] == [33];
    assert Sum([33]) == 33;
    assert Sum([33, 33]) == 66;
    assert Sum([33, 33, 33]) == 99;
  }

  /** Fills the padded buffer with bytes 33 to 125; `rand` stands for the library generator. */
  method GenerateDataMessage(size: int, rand: nat -> nat) returns (newMsg: array<int>)
    requires 0 <= size <= 255
    ensures fresh(newMsg) && newMsg.Length == PaddedLength(size)
    ensures Printable(newMsg[..])
    ensures forall i: nat | i < newMsg.Length :: newMsg[i] == 33 + rand(i) % 93
  {
    var size := if size == 0 then 256 else size;
    newMsg := new int[(size + 3) / 4 * 4];
    var i := 0;
    while i < (size + 3) / 4 * 4
      invariant 0 <= i <= newMsg.Length
      invariant forall j: nat | j < i :: newMsg[j] == 33 + rand(j) % 93
    {
      newMsg[i] := 33 + rand(i) % 93;
      i := i + 1;
    }
  }

  /** The summing loop, with its `unsigned short` accumulator. */
  method GenerateMessage(size: int, rand: nat -> nat) returns (m: Message)
    requires 0 <= size <= 255
    ensures WellFormed(m) && m.size == size
  {
    var buffer := GenerateDataMessage(size, rand);
    var data := buffer[..];
    var count := if size != 0 then (size + 3) / 4 * 4 else 256;
    var hash := SumUp(data, count, (TYPE_S + size) % USHORT);
    m := Message(TYPE_S, hash, size, data);
  }

  /** The summing loop: `hash` is an `unsigned short` and keeps its low 16 bits. */
  method SumUp(data: seq<int>, count: nat, start: int) returns (hash: int)
    requires count == |data| <= 256 && Printable(data) && 0 <= start < USHORT - 32000
    ensures hash == start + Sum(data)
  {
    assert USHORT == 0x1_0000 && Sum(data[..0]) == 0;
    hide *;
    hash := start;
    var i := 0;
    while i < count
      invariant 0 <= i <= count && hash == start + Sum(data[..i])
    {
      SumGrows(data, i);
      hash := (hash + data[i]) % 0x1_0000;
      i := i + 1;
    }
    assert data[..i] == data;
  }

  /** One more byte of at most 256, with the sum still far from the width of `unsigned short`. */
  lemma SumGrows(data: seq<int>, i: nat)
    requires Printable(data) && i < |data| <= 256
    ensures Sum(data[..i + 1]) == Sum(data[..i]) + data[i]
    ensures 0 <= Sum(data[..i]) <= Sum(data[..i + 1]) <= 32000
  {
    assert data[..i + 1][..i] == data[..i];
    SumBounds(data[..i]);
    SumBounds(data[..i + 1]);
  }
}
