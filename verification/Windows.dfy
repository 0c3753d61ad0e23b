/** Cutting a window of records into equal slots. */
module Windows {
  import opened Records

  /**
   * Where slot `i` of size `n` begins, by repeated addition: `OffIsProduct` says
   * it is the product the program computes.
   */
  function Off(i: nat, n: nat): nat {
    if i == 0 then 0 else Off(i - 1, n) + n
  }

  lemma {:induction false} OffIsProduct(i: nat, n: nat)
    ensures Off(i, n) == i * n
  {
    if i > 0 {
      OffIsProduct(i - 1, n);
    }
  }

  /** The `i`-th slot lies inside anything that holds `m > i` slots. */
  lemma {:induction false} SlotFits(i: nat, m: nat, n: nat)
    requires i < m
    ensures Off(i, n) + n == Off(i + 1, n) <= Off(m, n)
  {
    if i < m - 1 {
      SlotFits(i, m - 1, n);
    }
  }

  lemma {:induction false} OffDouble(p: nat, n: nat)
    ensures Off(p, 2 * n) == Off(2 * p, n)
    ensures Off(2 * p + 1, n) == Off(2 * p, n) + n
  {
    if p > 0 {
      OffDouble(p - 1, n);
      assert Off(2 * p, n) == Off(2 * p - 1, n) + n;
    }
  }

  /** Half the slots, each of twice the size, still fit. */
  lemma OffHalved(m: nat, n: nat)
    ensures Off(m / 2, 2 * n) <= Off(m, n)
  {
    OffDouble(m / 2, n);
    if 2 * (m / 2) < m {
      SlotFits(2 * (m / 2), m, n);
    }
  }

  /** Records `i * n` up to `(i + 1) * n`; empty when the window is too short for it. */
  function Slot(w: seq<Index>, i: nat, n: nat): seq<Index> {
    if Off(i, n) + n <= |w| then w[Off(i, n)..Off(i, n) + n] else []
  }

  /** The window with slot `i` overwritten. */
  function SetSlot(w: seq<Index>, i: nat, n: nat, v: seq<Index>): (r: seq<Index>)
    ensures |r| == |w|
  {
    if Off(i, n) + n <= |w| && |v| == n then w[..Off(i, n)] + v + w[Off(i, n) + n..] else w
  }

  /** `w` with the records from `o` on replaced by `v`. */
  function Splice(w: seq<Index>, o: nat, v: seq<Index>): (r: seq<Index>)
    requires o + |v| <= |w|
    ensures |r| == |w|
  {
    w[..o] + v + w[o + |v|..]
  }

  lemma SpliceSame(w: seq<Index>, o: nat, v: seq<Index>)
    requires o + |v| <= |w|
    ensures Splice(w, o, v)[o..o + |v|] == v
  {
    var r := Splice(w, o, v);
    forall i | 0 <= i < |v| ensures r[o..o + |v|][i] == v[i] {
      assert r[o + i] == v[i];
    }
  }

  lemma SpliceOther(w: seq<Index>, o: nat, v: seq<Index>, a: nat, b: nat)
    requires o + |v| <= |w| && a <= b <= |w| && (b <= o || o + |v| <= a)
    ensures Splice(w, o, v)[a..b] == w[a..b]
  {
    var r := Splice(w, o, v);
    forall i | 0 <= i < b - a ensures r[a..b][i] == w[a..b][i] {
      assert r[a + i] == w[a + i];
    }
  }

  lemma SetSlotIs(w: seq<Index>, i: nat, n: nat, v: seq<Index>)
    requires Off(i, n) + n <= |w| && |v| == n
    ensures SetSlot(w, i, n, v) == Splice(w, Off(i, n), v)
    ensures SetSlot(w, i, n, v) == w[..Off(i, n)] + v + w[Off(i, n) + n..]
  {
    hide Off;
  }

  lemma SlotIs(w: seq<Index>, i: nat, n: nat)
    requires Off(i, n) + n <= |w|
    ensures Slot(w, i, n) == w[Off(i, n)..Off(i, n) + n]
  {
    hide Off;
  }

  /** A slot that does not fit, or a value that does not, changes nothing. */
  lemma SetSlotNot(w: seq<Index>, i: nat, n: nat, v: seq<Index>)
    requires !(Off(i, n) + n <= |w| && |v| == n)
    ensures SetSlot(w, i, n, v) == w
  {
    hide Off;
  }

  lemma SetSlotSame(w: seq<Index>, i: nat, n: nat, v: seq<Index>)
    requires Off(i, n) + n <= |w| && |v| == n
    ensures Slot(SetSlot(w, i, n, v), i, n) == v
  {
    hide *;
    SetSlotIs(w, i, n, v);
    SlotIs(SetSlot(w, i, n, v), i, n);
    SpliceSame(w, Off(i, n), v);
  }

  lemma SetSlotOther(w: seq<Index>, i: nat, n: nat, v: seq<Index>, j: nat)
    requires i != j
    ensures Slot(SetSlot(w, i, n, v), j, n) == Slot(w, j, n)
  {
    assert Off(j, n) + n > |w| ==> Slot(SetSlot(w, i, n, v), j, n) == Slot(w, j, n) == [];
    hide *;
    if Off(i, n) + n <= |w| && |v| == n {
      if Off(j, n) + n <= |w| {
        if i < j { SlotFits(i, j, n); } else { SlotFits(j, i, n); }
        SetSlotIs(w, i, n, v);
        SlotIs(w, j, n);
        SlotIs(SetSlot(w, i, n, v), j, n);
        SpliceOther(w, Off(i, n), v, Off(j, n), Off(j, n) + n);
      }
    } else {
      SetSlotNot(w, i, n, v);
    }
  }

  lemma SetSlotTail(w: seq<Index>, i: nat, n: nat, v: seq<Index>, m: nat)
    requires i < m && Off(m, n) <= |w|
    ensures SetSlot(w, i, n, v)[Off(m, n)..] == w[Off(m, n)..]
  {
    hide *;
    SlotFits(i, m, n);
    if |v| == n {
      SetSlotIs(w, i, n, v);
      SpliceOther(w, Off(i, n), v, Off(m, n), |w|);
    } else {
      SetSlotNot(w, i, n, v);
    }
  }

  /** Windows that agree slot by slot agree up to the end of the last slot. */
  lemma {:induction false} SlotsAgree(w: seq<Index>, v: seq<Index>, m: nat, n: nat)
    requires |w| == |v| && Off(m, n) <= |w|
    requires forall i: nat | i < m :: Slot(w, i, n) == Slot(v, i, n)
    ensures w[..Off(m, n)] == v[..Off(m, n)]
  {
    if m > 0 {
      hide *;
      SlotFits(m - 1, m, n);
      SlotsAgree(w, v, m - 1, n);
      assert Slot(w, m - 1, n) == Slot(v, m - 1, n);
      SlotIs(w, m - 1, n);
      SlotIs(v, m - 1, n);
      TakeMore(w, Off(m - 1, n), Off(m, n));
      TakeMore(v, Off(m - 1, n), Off(m, n));
    }
  }

  lemma TakeMore(w: seq<Index>, a: nat, b: nat)
    requires a <= b <= |w|
    ensures w[..b] == w[..a] + w[a..b]
  {
  }

  /** Windows that agree slot by slot and behind the slots are equal. */
  lemma EqualBySlots(w: seq<Index>, v: seq<Index>, m: nat, n: nat)
    requires |w| == |v| && Off(m, n) <= |w| && w[Off(m, n)..] == v[Off(m, n)..]
    requires forall i: nat | i < m :: Slot(w, i, n) == Slot(v, i, n)
    ensures w == v
  {
    hide *;
    SlotsAgree(w, v, m, n);
    assert w == w[..Off(m, n)] + w[Off(m, n)..] && v == v[..Off(m, n)] + v[Off(m, n)..];
  }

  /** Where the two halves of a slot of twice the size lie. */
  lemma HalfSlots(w: seq<Index>, p: nat, n: nat)
    requires Off(p, 2 * n) + 2 * n <= |w|
    ensures Slot(w, 2 * p, n) == w[Off(p, 2 * n)..Off(p, 2 * n) + n]
    ensures Slot(w, 2 * p + 1, n) == w[Off(p, 2 * n) + n..Off(p, 2 * n) + 2 * n]
  {
    hide *;
    OffDouble(p, n);
    SlotIs(w, 2 * p, n);
    SlotIs(w, 2 * p + 1, n);
  }

  /** A slot of twice the size is two neighbouring slots. */
  lemma PairSlot(w: seq<Index>, p: nat, n: nat)
    requires Off(p, 2 * n) + 2 * n <= |w|
    ensures |Slot(w, 2 * p, n)| == |Slot(w, 2 * p + 1, n)| == n
    ensures Slot(w, p, 2 * n) == Slot(w, 2 * p, n) + Slot(w, 2 * p + 1, n)
  {
    hide *;
    HalfSlots(w, p, n);
    SlotIs(w, p, 2 * n);
    var o := Off(p, 2 * n);
    assert w[o..o + 2 * n] == w[o..o + n] + w[o + n..o + 2 * n];
  }
}
