/** The two-way merge of equal runs. */
module Merging {
  import opened Records

  /** The merge as a function: ties are taken from the second run. */
  function MergeRuns(x: seq<Index>, y: seq<Index>): (r: seq<Index>)
    ensures |r| == |x| + |y|
    decreases |x| + |y|
  {
    if x == [] then y
    else if y == [] then x
    else if x[0].timeMark < y[0].timeMark then [x[0]] + MergeRuns(x[1..], y)
    else [y[0]] + MergeRuns(x, y[1..])
  }

  lemma MergeTakes(x: seq<Index>, y: seq<Index>)
    requires x != [] && y != []
    ensures MergeRuns(x, y) == if x[0].timeMark < y[0].timeMark then [x[0]] + MergeRuns(x[1..], y)
                               else [y[0]] + MergeRuns(x, y[1..])
  {
  }

  lemma MergeEnds(x: seq<Index>, y: seq<Index>)
    requires x == [] || y == []
    ensures MergeRuns(x, y) == x + y && multiset(x + y) == multiset(x) + multiset(y)
  {
  }

  lemma MultisetCons(x: Index, s: seq<Index>)
    ensures multiset([x] + s) == multiset{x} + multiset(s)
  {
  }

  lemma {:induction false} MergePermutes(x: seq<Index>, y: seq<Index>)
    ensures multiset(MergeRuns(x, y)) == multiset(x) + multiset(y)
    decreases |x| + |y|
  {
    hide *;
    if x == [] || y == [] {
      MergeEnds(x, y);
    } else if x[0].timeMark < y[0].timeMark {
      MergeTakes(x, y);
      MergePermutes(x[1..], y);
      MultisetCons(x[0], MergeRuns(x[1..], y));
      MultisetCons(x[0], x[1..]);
      assert x == [x[0]] + x[1..];
    } else {
      MergeTakes(x, y);
      MergePermutes(x, y[1..]);
      MultisetCons(y[0], MergeRuns(x, y[1..]));
      MultisetCons(y[0], y[1..]);
      assert y == [y[0]] + y[1..];
    }
  }

  lemma {:induction false} MergeFirst(z: Index, x: seq<Index>, y: seq<Index>)
    requires First(z, x) && First(z, y)
    ensures First(z, MergeRuns(x, y))
    decreases |x| + |y|
  {
    if x != [] && y != [] {
      if x[0].timeMark < y[0].timeMark {
        MergeFirst(z, x[1..], y);
      } else {
        MergeFirst(z, x, y[1..]);
      }
    }
  }

  lemma FirstThrough(z: Index, y: seq<Index>)
    requires y != [] && Sorted(y) && Compare(z, y[0]) <= 0
    ensures First(z, y)
  {
    SortedTail(y);
    FirstCons(z, y[0], y[1..]);
    assert y == [y[0]] + y[1..];
  }

  lemma {:induction false} MergeSorts(x: seq<Index>, y: seq<Index>)
    requires Sorted(x) && Sorted(y)
    ensures Sorted(MergeRuns(x, y))
    decreases |x| + |y|
  {
    hide First;
    hide Sorted;
    if x != [] && y != [] {
      if x[0].timeMark < y[0].timeMark {
        SortedTail(x);
        FirstThrough(x[0], y);
        MergeSorts(x[1..], y);
        MergeFirst(x[0], x[1..], y);
        SortedCons(x[0], MergeRuns(x[1..], y));
      } else {
        SortedTail(y);
        FirstThrough(y[0], x);
        MergeSorts(x, y[1..]);
        MergeFirst(y[0], x, y[1..]);
        SortedCons(y[0], MergeRuns(x, y[1..]));
      }
    }
  }

  /**
   * Among equal keys the second run comes first, each run keeping its own order.
   * Together with `MergeSorts` this fixes the result completely.
   */
  lemma {:induction false} MergeIsRightBiased(x: seq<Index>, y: seq<Index>, k: real)
    requires Sorted(x) && Sorted(y)
    ensures WithKey(MergeRuns(x, y), k) == WithKey(y, k) + WithKey(x, k)
    decreases |x| + |y|
  {
    if x != [] && y != [] {
      hide Sorted;
      hide WithKey;
      if x[0].timeMark < y[0].timeMark {
        SortedTail(x);
        MergeIsRightBiased(x[1..], y, k);
        FirstBiased(x, y, MergeRuns(x[1..], y), k);
      } else {
        SortedTail(y);
        MergeIsRightBiased(x, y[1..], k);
        SecondBiased(x, y, MergeRuns(x, y[1..]), k);
      }
    }
  }

  lemma FirstBiased(x: seq<Index>, y: seq<Index>, r: seq<Index>, k: real)
    requires x != [] && y != [] && Sorted(y) && x[0].timeMark < y[0].timeMark
    requires WithKey(r, k) == WithKey(y, k) + WithKey(x[1..], k)
    ensures WithKey([x[0]] + r, k) == WithKey(y, k) + WithKey(x, k)
  {
    hide WithKey;
    WithKeyCons(x[0], r, k);
    WithKeyCons(x[0], x[1..], k);
    assert x == [x[0]] + x[1..];
    if x[0].timeMark == k {
      BelowAll(x[0], y);
      hide *;
      var s := WithKey(x[1..], k);
      assert [] + s == s && [] + ([x[0]] + s) == [x[0]] + s;
    }
  }

  lemma SecondBiased(x: seq<Index>, y: seq<Index>, r: seq<Index>, k: real)
    requires y != [] && WithKey(r, k) == WithKey(y[1..], k) + WithKey(x, k)
    ensures WithKey([y[0]] + r, k) == WithKey(y, k) + WithKey(x, k)
  {
    hide WithKey;
    WithKeyCons(y[0], r, k);
    WithKeyCons(y[0], y[1..], k);
    assert y == [y[0]] + y[1..];
    assert [y[0]] + (WithKey(y[1..], k) + WithKey(x, k)) == [y[0]] + WithKey(y[1..], k) + WithKey(x, k);
  }

  lemma WithKeyCons(x: Index, s: seq<Index>, k: real)
    ensures WithKey([x] + s, k) == if x.timeMark == k then [x] + WithKey(s, k) else WithKey(s, k)
  {
    assert ([x] + s)[1..] == s;
  }

  /** A key below the first one of a sorted sequence does not occur in it. */
  lemma BelowAll(x: Index, y: seq<Index>)
    requires y != [] && Sorted(y) && x.timeMark < y[0].timeMark
    ensures WithKey(y, x.timeMark) == []
  {
    forall i | 0 <= i < |y| ensures y[i].timeMark != x.timeMark {
      assert i == 0 || Compare(y[0], y[i]) <= 0;
    }
    WithKeyNone(y, x.timeMark);
  }

  ghost predicate SameByKey(r: seq<Index>, s: seq<Index>) {
    forall k :: WithKey(r, k) == WithKey(s, k)
  }

  /** A sorted sequence is fixed by its records of each key. */
  lemma {:induction false} SortedUnique(r: seq<Index>, s: seq<Index>)
    requires Sorted(r) && Sorted(s) && SameByKey(r, s)
    ensures r == s
    decreases |r| + |s|
  {
    hide Sorted;
    if r == [] || s == [] {
      var k := if r != [] then r[0].timeMark else if s != [] then s[0].timeMark else 0.0;
      assert WithKey(r, k) == WithKey(s, k);
    } else {
      SameHead(r, s);
      forall k ensures WithKey(r[1..], k) == WithKey(s[1..], k) {
        TailByKey(r, s, k);
      }
      SortedTail(r);
      SortedTail(s);
      SortedUnique(r[1..], s[1..]);
      assert r == [r[0]] + r[1..] && s == [s[0]] + s[1..];
    }
  }

  lemma SameHead(r: seq<Index>, s: seq<Index>)
    requires r != [] && s != [] && Sorted(r) && Sorted(s) && SameByKey(r, s)
    ensures r[0] == s[0]
  {
    HeadKey(r, s);
    HeadKey(s, r);
    var k := r[0].timeMark;
    assert WithKey(r, k)[0] == r[0] && WithKey(s, k)[0] == s[0];
  }

  lemma TailByKey(r: seq<Index>, s: seq<Index>, k: real)
    requires r != [] && s != [] && r[0].timeMark == s[0].timeMark
    requires WithKey(r, k) == WithKey(s, k)
    ensures WithKey(r[1..], k) == WithKey(s[1..], k)
  {
    if k == r[0].timeMark {
      assert WithKey(r[1..], k) == WithKey(r, k)[1..];
      assert WithKey(s[1..], k) == WithKey(s, k)[1..];
    } else {
      assert WithKey(r[1..], k) == WithKey(r, k);
      assert WithKey(s[1..], k) == WithKey(s, k);
    }
  }

  lemma HeadKey(r: seq<Index>, s: seq<Index>)
    requires r != [] && s != [] && Sorted(s) && SameByKey(r, s)
    ensures s[0].timeMark <= r[0].timeMark
  {
    assert WithKey(s, r[0].timeMark) == WithKey(r, r[0].timeMark) != [];
    if r[0].timeMark < s[0].timeMark {
      BelowAll(r[0], s);
    }
  }

  /** Runs that are already in order, with no tie across them, are only concatenated. */
  lemma {:induction false} MergeOfOrderedRuns(x: seq<Index>, y: seq<Index>)
    requires forall i, j | 0 <= i < |x| && 0 <= j < |y| :: x[i].timeMark < y[j].timeMark
    ensures MergeRuns(x, y) == x + y
  {
    if x != [] && y != [] {
      assert x[0].timeMark < y[0].timeMark;
      MergeOfOrderedRuns(x[1..], y);
      assert x == [x[0]] + x[1..];
    }
  }

  /** `done` is what has been merged once `i` and `j` records of the runs are taken. */
  ghost predicate Merged(done: seq<Index>, x: seq<Index>, y: seq<Index>, i: nat, j: nat) {
    i <= |x| && j <= |y| && done + MergeRuns(x[i..], y[j..]) == MergeRuns(x, y)
  }

  lemma TakeFirst(done: seq<Index>, x: seq<Index>, y: seq<Index>, i: nat, j: nat)
    requires Merged(done, x, y, i, j) && i < |x|
    requires j == |y| || x[i].timeMark < y[j].timeMark
    ensures Merged(done + [x[i]], x, y, i + 1, j)
  {
    assert x[i..] == [x[i]] + x[i + 1..];
    assert done + ([x[i]] + MergeRuns(x[i + 1..], y[j..])) == done + [x[i]] + MergeRuns(x[i + 1..], y[j..]);
    assert j == |y| ==> MergeRuns(x[i + 1..], y[j..]) == x[i + 1..];
  }

  lemma TakeSecond(done: seq<Index>, x: seq<Index>, y: seq<Index>, i: nat, j: nat)
    requires Merged(done, x, y, i, j) && j < |y|
    requires i == |x| || !(x[i].timeMark < y[j].timeMark)
    ensures Merged(done + [y[j]], x, y, i, j + 1)
  {
    assert y[j..] == [y[j]] + y[j + 1..];
    assert done + ([y[j]] + MergeRuns(x[i..], y[j + 1..])) == done + [y[j]] + MergeRuns(x[i..], y[j + 1..]);
    assert j + 1 == |y| ==> MergeRuns(x[i..], y[j + 1..]) == x[i..];
  }

  lemma MergedEnd(done: seq<Index>, x: seq<Index>, y: seq<Index>, i: nat, j: nat)
    requires Merged(done, x, y, i, j) && (i == |x| || j == |y|)
    ensures done + x[i..] + y[j..] == MergeRuns(x, y)
  {
    assert x[|x|..] == [] && y[|y|..] == [];
    assert done + x[i..] + y[j..] == done + (x[i..] + y[j..]);
    assert x[i..] + [] == x[i..] && [] + y[j..] == y[j..];
  }

  method Put(temp: array<Index>, k: nat, x: Index)
    requires k < temp.Length
    modifies temp
    ensures temp[..k + 1] == old(temp[..k]) + [x]
  {
    temp[k] := x;
  }

  /** One of the two loops that copy what is left of a run. */
  method Drain(a: array<Index>, start: nat, from: nat, count: nat, temp: array<Index>, at: nat)
    requires from <= count && start + count <= a.Length && at + (count - from) <= temp.Length && a != temp
    modifies temp
    ensures temp[..at + (count - from)] == old(temp[..at]) + a[start + from..start + count]
  {
    var i, k := from, at;
    while i < count
      invariant from <= i <= count && k == at + (i - from)
      invariant temp[..k] == old(temp[..at]) + a[start + from..start + i]
    {
      Put(temp, k, a[start + i]);
      i, k := i + 1, k + 1;
    }
  }

  lemma NothingMerged(x: seq<Index>, y: seq<Index>)
    ensures Merged([], x, y, 0, 0)
  {
    assert x[0..] == x && y[0..] == y;
    hide MergeRuns;
    assert [] + MergeRuns(x, y) == MergeRuns(x, y);
  }

  /** The two loops that copy what is left of the runs, of which only one has anything left. */
  method DrainBoth(a: array<Index>, start1: nat, start2: nat, i: nat, j: nat, count: nat, temp: array<Index>, k: nat,
                   ghost done: seq<Index>, ghost x: seq<Index>, ghost y: seq<Index>)
    requires i <= count && j <= count && start1 + count <= a.Length && start2 + count <= a.Length && a != temp
    requires x == a[start1..start1 + count] && y == a[start2..start2 + count] && (i == count || j == count)
    requires k == i + j && temp.Length == count + count && temp[..k] == done && Merged(done, x, y, i, j)
    modifies temp
    ensures temp[..] == MergeRuns(x, y)
  {
    hide *;
    MergedEnd(done, x, y, i, j);
    LeftOver(a[..], x, start1, i, count);
    LeftOver(a[..], y, start2, j, count);
    Drain(a, start1, i, count, temp, k);
    Drain(a, start2, j, count, temp, k + (count - i));
    assert k + (count - i) + (count - j) == temp.Length;
    assert temp[..] == temp[..temp.Length];
  }

  lemma LeftOver(s: seq<Index>, x: seq<Index>, start: nat, i: nat, count: nat)
    requires i <= count && start + count <= |s| && x == s[start..start + count]
    ensures s[start + i..start + count] == x[i..]
  {
  }

  /** The three loops that read both runs into `temp`. */
  method MergeIntoTemp(a: array<Index>, start1: nat, start2: nat, count: nat) returns (temp: array<Index>)
    requires start1 + count <= a.Length && start2 + count <= a.Length
    ensures fresh(temp)
    ensures temp[..] == MergeRuns(a[start1..start1 + count], a[start2..start2 + count])
  {
    hide *;
    temp := new Index[2 * count];
    ghost var x, y := a[start1..start1 + count], a[start2..start2 + count];
    ghost var done: seq<Index> := [];
    var i, j, k := 0, 0, 0;
    NothingMerged(x, y);
    while i < count && j < count
      invariant i <= count && j <= count && k == i + j
      invariant temp[..k] == done && Merged(done, x, y, i, j)
    {
      if a[start1 + i].timeMark < a[start2 + j].timeMark {
        TakeFirst(done, x, y, i, j);
        done := done + [x[i]];
        Put(temp, k, a[start1 + i]);
        i, k := i + 1, k + 1;
      } else {
        TakeSecond(done, x, y, i, j);
        done := done + [y[j]];
        Put(temp, k, a[start2 + j]);
        j, k := j + 1, k + 1;
      }
    }
    DrainBoth(a, start1, start2, i, j, count, temp, k, done, x, y);
  }

  lemma Overwrite(was: seq<Index>, t: seq<Index>, start: nat, m: nat)
    requires start + |t| <= |was| && m < |t|
    ensures (was[..start] + t[..m] + was[start + m..])[start + m := t[m]]
         == was[..start] + t[..m + 1] + was[start + m + 1..]
  {
    assert t[..m + 1] == t[..m] + [t[m]];
  }

  /** `memcpy` of the whole of `temp` to position `start`. */
  method CopyBack(a: array<Index>, start: nat, temp: array<Index>)
    requires start + temp.Length <= a.Length && a != temp
    modifies a
    ensures a[..] == old(a[..start]) + temp[..] + old(a[start + temp.Length..])
  {
    ghost var was := a[..];
    assert a[..] == was[..start] + temp[..0] + was[start..];
    for m := 0 to temp.Length
      invariant a[..] == was[..start] + temp[..m] + was[start + m..]
    {
      Overwrite(was, temp[..], start, m);
      a[start + m] := temp[m];
    }
    assert temp[..temp.Length] == temp[..];
  }

  /**
   * The merge routine: read both runs into `temp`, then copy `temp` over the
   * first run and the `count` records behind it.
   */
  method Merge(a: array<Index>, start1: nat, start2: nat, count: nat)
    requires start1 + 2 * count <= a.Length && start2 + count <= a.Length
    modifies a
    ensures a[..] == old(a[..start1])
                     + MergeRuns(old(a[start1..start1 + count]), old(a[start2..start2 + count]))
                     + old(a[start1 + 2 * count..])
  {
    var temp := MergeIntoTemp(a, start1, start2, count);
    CopyBack(a, start1, temp);
  }
}
