/** Index records and their order. */
module Records {

  /** One entry of the index file: the sort key and the row it refers to. */
  datatype Index = Index(timeMark: real, recno: int)

  /** The three-way comparison handed to `qsort`. */
  function Compare(a: Index, b: Index): (c: int)
    ensures -1 <= c <= 1
    ensures c < 0 <==> a.timeMark < b.timeMark
    ensures c > 0 <==> a.timeMark > b.timeMark
  {
    if a.timeMark < b.timeMark then -1
    else if a.timeMark > b.timeMark then 1
    else 0
  }

  ghost predicate Sorted(s: seq<Index>) {
    forall i, j | 0 <= i < j < |s| :: Compare(s[i], s[j]) <= 0
  }

  /** Swapping the records turns the comparison round, and a sorted sequence is one whose keys never fall. */
  lemma ComparesByKey(a: Index, b: Index, s: seq<Index>)
    ensures Compare(b, a) == -Compare(a, b)
    ensures Sorted(s) <==> forall i | 0 < i < |s| :: s[i - 1].timeMark <= s[i].timeMark
  {
    if forall i | 0 < i < |s| :: s[i - 1].timeMark <= s[i].timeMark {
      forall i, j | 0 <= i < j < |s| ensures Compare(s[i], s[j]) <= 0 {
        KeysRise(s, i, j);
      }
    } else {
      var i :| 0 < i < |s| && s[i - 1].timeMark > s[i].timeMark;
      assert Compare(s[i - 1], s[i]) > 0;
    }
  }

  lemma {:induction false} KeysRise(s: seq<Index>, i: nat, j: nat)
    requires i <= j < |s| && forall k | 0 < k < |s| :: s[k - 1].timeMark <= s[k].timeMark
    ensures s[i].timeMark <= s[j].timeMark
  {
    if i < j {
      KeysRise(s, i, j - 1);
    }
  }

  ghost predicate SortsTo(s: seq<Index>, r: seq<Index>) {
    Sorted(r) && multiset(r) == multiset(s)
  }

  /**
   * The C library's `qsort` on a block: nothing is assumed about the order it
   * gives to equal keys, only that the same block always gives the same result.
   */
  type Qsort = f: seq<Index> -> seq<Index> | forall s {:trigger f(s)} :: SortsTo(s, f(s)) witness InsertionSort

  /** No record of `s` comes before `x`. */
  ghost predicate First(x: Index, s: seq<Index>) {
    forall i | 0 <= i < |s| :: Compare(x, s[i]) <= 0
  }

  lemma SortedCons(x: Index, s: seq<Index>)
    requires Sorted(s) && First(x, s)
    ensures Sorted([x] + s)
  {
    var r := [x] + s;
    forall i, j | 0 <= i < j < |r| ensures Compare(r[i], r[j]) <= 0 {
      assert r[j] == s[j - 1];
    }
  }

  lemma SortedTail(s: seq<Index>)
    requires Sorted(s) && s != []
    ensures Sorted(s[1..]) && First(s[0], s[1..])
  {
  }

  /** What comes first stays first when the records are reordered. */
  lemma FirstOf(x: Index, s: seq<Index>, r: seq<Index>)
    requires First(x, s) && multiset(r) == multiset(s)
    ensures First(x, r)
  {
    forall i | 0 <= i < |r| ensures Compare(x, r[i]) <= 0 {
      assert r[i] in multiset(r);
      assert r[i] in s;
    }
  }

  lemma FirstCons(x: Index, y: Index, s: seq<Index>)
    requires Compare(x, y) <= 0 && First(y, s)
    ensures First(x, [y] + s)
  {
  }

  /** `x` belongs at the front. */
  lemma InsertFirst(x: Index, s: seq<Index>)
    requires Sorted(s) && (s == [] || Compare(x, s[0]) <= 0)
    ensures SortsTo([x] + s, [x] + s)
  {
    if s != [] {
      SortedTail(s);
      FirstCons(x, s[0], s[1..]);
      assert s == [s[0]] + s[1..];
    }
    SortedCons(x, s);
  }

  /** `x` belongs behind the first record. */
  lemma InsertLater(x: Index, s: seq<Index>, t: seq<Index>)
    requires Sorted(s) && s != [] && Compare(s[0], x) <= 0 && SortsTo([x] + s[1..], t)
    ensures SortsTo([x] + s, [s[0]] + t)
  {
    SortedTail(s);
    assert First(s[0], [x] + s[1..]);
    FirstOf(s[0], [x] + s[1..], t);
    SortedCons(s[0], t);
    hide Sorted;
    assert s == [s[0]] + s[1..];
    calc {
      multiset([s[0]] + t);
      multiset([s[0]]) + multiset([x] + s[1..]);
      multiset([x]) + multiset([s[0]] + s[1..]);
      multiset([x] + s);
    }
  }

  function Insert(x: Index, s: seq<Index>): (r: seq<Index>)
    requires Sorted(s)
    ensures SortsTo([x] + s, r)
  {
    hide SortsTo;
    if s == [] || Compare(x, s[0]) <= 0 then
      InsertFirst(x, s);
      [x] + s
    else
      SortedTail(s);
      var t := Insert(x, s[1..]);
      InsertLater(x, s, t);
      [s[0]] + t
  }

  /** One function that meets `Qsort`, so the type is not empty. */
  function InsertionSort(s: seq<Index>): (r: seq<Index>)
    ensures SortsTo(s, r)
  {
    if s == [] then [] else
      assert s == [s[0]] + s[1..];
      Insert(s[0], InsertionSort(s[1..]))
  }

  lemma SameLength(s: seq<Index>, r: seq<Index>)
    requires multiset(r) == multiset(s)
    ensures |r| == |s|
  {
    assert |multiset(r)| == |r| && |multiset(s)| == |s|;
  }

  /** Records with key `k`, in the order in which they stand. */
  ghost function WithKey(s: seq<Index>, k: real): seq<Index> {
    if s == [] then []
    else (if s[0].timeMark == k then [s[0]] else []) + WithKey(s[1..], k)
  }

  lemma WithKeyNone(s: seq<Index>, k: real)
    requires forall i | 0 <= i < |s| :: s[i].timeMark != k
    ensures WithKey(s, k) == []
  {
  }
}
