/** The three file operations of one editor, on the bytes of the file, as they run inside their locks. */
module RecordFiles {
  import opened Options
  import opened RecordLocks

  /** A byte range handed to `fcntl`. */
  datatype Range = Range(start: int, length: int)

  /** The bytes of record `r`. */
  function RangeOf(r: nat): (range: Range)
    ensures range.start == r * 161 && range.length == 161
  {
    Range(r * RECORD_SIZE, RECORD_SIZE)
  }

  ghost predicate Overlap(a: Range, b: Range) {
    a.start < b.start + b.length && b.start < a.start + a.length
  }

  /** Locks of different records do not meet. */
  lemma RangesDisjoint(r: nat, q: nat)
    ensures Overlap(RangeOf(r), RangeOf(q)) <==> r == q
  {
  }

  /** Record `r` of a file given as bytes. */
  function BytesOf(bytes: seq<Byte>, r: nat): Record {
    if r * RECORD_SIZE + RECORD_SIZE <= |bytes| then bytes[r * RECORD_SIZE..r * RECORD_SIZE + RECORD_SIZE] else []
  }

  function RecordsOf(bytes: seq<Byte>): (records: seq<Record>)
    ensures |records| == |bytes| / RECORD_SIZE
  {
    seq(|bytes| / RECORD_SIZE, r requires r >= 0 => BytesOf(bytes, r))
  }

  /** Byte `i` of the file is byte `i % 161` of record `i / 161`. */
  lemma ByteOfRecord(bytes: seq<Byte>, i: nat)
    requires |bytes| % RECORD_SIZE == 0 && i < |bytes|
    ensures i / 161 < |RecordsOf(bytes)| && |RecordsOf(bytes)[i / 161]| == 161
    ensures RecordsOf(bytes)[i / 161][i % 161] == bytes[i]
  {
    var r := i / RECORD_SIZE;
    assert r * RECORD_SIZE + RECORD_SIZE <= |bytes|;
    assert BytesOf(bytes, r) == bytes[r * RECORD_SIZE..r * RECORD_SIZE + RECORD_SIZE];
  }

  /** Overwriting the bytes of one record changes that record and no other. */
  lemma Written(was: seq<Byte>, bytes: seq<Byte>, n: nat, record: Record)
    requires |bytes| == |was| && n * RECORD_SIZE + RECORD_SIZE <= |was| && |record| == RECORD_SIZE
    requires forall i | 0 <= i < RECORD_SIZE :: bytes[n * RECORD_SIZE + i] == record[i]
    requires forall i | 0 <= i < |was| && !(n * RECORD_SIZE <= i < n * RECORD_SIZE + RECORD_SIZE) :: bytes[i] == was[i]
    ensures RecordsOf(bytes) == RecordsOf(was)[n := record]
  {
    assert BytesOf(bytes, n) == record;
    forall r: nat | r != n ensures BytesOf(bytes, r) == BytesOf(was, r) {
      assert r * RECORD_SIZE + RECORD_SIZE <= n * RECORD_SIZE || n * RECORD_SIZE + RECORD_SIZE <= r * RECORD_SIZE;
    }
  }

  lemma TakeNext(all: seq<Record>, n: nat)
    requires n < |all|
    ensures all[..n] + [all[n]] == all[..n + 1]
  {
  }

  class RecordFile {
    var data: array<Byte>
    var offset: nat

    ghost predicate Valid()
      reads this, data
    {
      data.Length % RECORD_SIZE == 0 && offset <= data.Length
    }

    /** The records in the file. */
    ghost function Records(): seq<Record>
      reads this, data
    {
      RecordsOf(data[..])
    }

    /** `lseek` to a record. */
    method Seek(numb: nat)
      requires Valid() && numb < |Records()|
      modifies this`offset
      ensures offset == numb * RECORD_SIZE && Valid()
    {
      offset := numb * RECORD_SIZE;
    }

    /** `read` of record `n`, or of nothing at the end of the file. */
    method Read(ghost n: nat) returns (record: Record)
      requires Valid() && offset == n * RECORD_SIZE && n <= |Records()|
      modifies this`offset
      ensures Valid() && offset == old(offset) + |record|
      ensures record == if n < |Records()| then Records()[n] else []
      ensures n < |Records()| ==> |record| == RECORD_SIZE
    {
      if offset < data.Length {
        record := data[offset..offset + RECORD_SIZE];
        offset := offset + RECORD_SIZE;
      } else {
        record := [];
      }
    }

    /** `write` of record `n`. */
    method Write(record: Record, ghost n: nat)
      requires Valid() && |record| == RECORD_SIZE && offset == n * RECORD_SIZE && n < |Records()|
      modifies this`offset, data
      ensures Valid() && offset == old(offset) + RECORD_SIZE
      ensures Records() == old(Records())[n := record]
    {
      forall i | 0 <= i < RECORD_SIZE {
        data[offset + i] := record[i];
      }
      offset := offset + RECORD_SIZE;
      Written(old(data[..]), data[..], n, record);
    }

    /** `printAllFile`. */
    method PrintAllFile() returns (lines: seq<Record>)
      requires Valid()
      modifies this`offset
      ensures Valid() && lines == Records()
    {
      ghost var all, n := Records(), 0;
      assert data.Length % RECORD_SIZE == 0 && |all| * RECORD_SIZE == data.Length;
      offset := 0;
      lines := [];
      var record := Read(0);
      while |record| > 0
        invariant Valid() && Records() == all && n <= |all| && lines == all[..n]
        invariant record == if n < |all| then all[n] else []
        invariant n < |all| ==> |record| == RECORD_SIZE
        invariant offset == n * RECORD_SIZE + |record|
        decreases |all| - n
      {
        TakeNext(all, n);
        lines := lines + [record];
        n := n + 1;
        record := Read(n);
      }
    }

    /** `getRecordNumb`: the range unlocked, counted back from the offset, is the range locked. */
    method GetRecordNumb(numb: nat) returns (record: Record, locked: Range, unlocked: Range)
      requires Valid() && numb < |Records()|
      modifies this`offset
      ensures Valid() && record == Records()[numb]
      ensures locked == unlocked == RangeOf(numb)
    {
      Seek(numb);
      locked := Range(offset, RECORD_SIZE);
      record := Read(numb);
      unlocked := Range(offset - RECORD_SIZE, RECORD_SIZE);
    }

    /** `saveRecord`; `answer` is what the user types when the record has changed. */
    method SaveRecord(numb: nat, record: Record, oldRecord: Record, answer: char)
      returns (record': Record, oldRecord': Record, refused: bool, locked: Range, unlocked: Option<Range>)
      requires Valid() && numb < |Records()| && |record| == |oldRecord| == RECORD_SIZE
      modifies this`offset, data
      ensures Valid() && data == old(data)
      ensures refused <==> !SameFields(old(Records())[numb], oldRecord) && answer == 'n'
      ensures refused ==> Records() == old(Records()) && record' == oldRecord' == old(Records())[numb]
      ensures !refused ==> Records() == old(Records())[numb := record] && record' == record && oldRecord' == oldRecord
      ensures locked == RangeOf(numb) && unlocked == if refused then None else Some(locked)
    {
      record', oldRecord', refused := record, oldRecord, false;
      Seek(numb);
      locked := Range(offset, RECORD_SIZE);
      unlocked := None;
      var tmpRecord := Read(numb);
      if !SameFields(tmpRecord, oldRecord) {
        if answer == 'n' {
          return tmpRecord, tmpRecord, true, locked, unlocked;
        }
      }
      Seek(numb);
      Write(record, numb);
      Seek(numb);
      unlocked := Some(Range(offset, RECORD_SIZE));
    }
  }
}
