/** One direction of the runner_messages table (app/storage.py): rows in insertion order, unique by sequence number. */
module MessageLog {
  import opened Common
  import opened Envelopes

  ghost predicate Recorded(rows: seq<Envelope>, num: int) {
    exists i :: 0 <= i < |rows| && rows[i].num == num
  }

  function MaxSeq(rows: seq<Envelope>): nat {
    if rows == [] then 0 else
      var rest := MaxSeq(rows[..|rows| - 1]);
      var last := rows[|rows| - 1].num;
      if rest < last then last else rest
  }

  /** INSERT ... ON CONFLICT DO NOTHING. */
  ghost function Insert(rows: seq<Envelope>, e: Envelope): seq<Envelope> {
    if Recorded(rows, e.num) then rows else rows + [e]
  }

  function InsertSorted(e: Envelope, sorted: seq<Envelope>): seq<Envelope> {
    if sorted == [] || e.num <= sorted[0].num then [e] + sorted
    else [sorted[0]] + InsertSorted(e, sorted[1..])
  }

  /** SELECT ... WHERE seq > after ORDER BY seq. */
  function ListAfter(rows: seq<Envelope>, after: nat): seq<Envelope> {
    if rows == [] then []
    else if rows[0].num > after then InsertSorted(rows[0], ListAfter(rows[1..], after))
    else ListAfter(rows[1..], after)
  }

  /** The rows are numbered 1, 2, 3, ... in insertion order. */
  ghost predicate Dense(rows: seq<Envelope>) {
    forall i | 0 <= i < |rows| :: rows[i].num == i + 1
  }

  ghost predicate Unique(rows: seq<Envelope>) {
    forall i, j | 0 <= i < j < |rows| :: rows[i].num != rows[j].num
  }

  lemma {:induction false} MaxSeqBounds(rows: seq<Envelope>)
    ensures forall e | e in rows :: e.num <= MaxSeq(rows)
  {
    if rows != [] {
      MaxSeqBounds(rows[..|rows| - 1]);
      assert rows == rows[..|rows| - 1] + [rows[|rows| - 1]];
    }
  }

  /** The next sequence number is never one that is already in the table. */
  lemma NextSeqIsFresh(rows: seq<Envelope>)
    ensures !Recorded(rows, MaxSeq(rows) + 1)
  {
    MaxSeqBounds(rows);
    forall i | 0 <= i < |rows| ensures rows[i].num != MaxSeq(rows) + 1 {
      assert rows[i] in rows;
    }
  }

  lemma {:induction false} DenseMax(rows: seq<Envelope>)
    requires Dense(rows)
    ensures MaxSeq(rows) == |rows|
  {
    if rows != [] {
      DenseMax(rows[..|rows| - 1]);
    }
  }

  /** A table filled by MAX(seq) + 1 alone stays dense. */
  lemma DenseAppend(rows: seq<Envelope>, e: Envelope)
    requires Dense(rows) && e.num == MaxSeq(rows) + 1
    ensures Insert(rows, e) == rows + [e] && Dense(rows + [e])
  {
    DenseMax(rows);
    NextSeqIsFresh(rows);
  }

  /** Replay from a watermark is exactly the tail of a dense table, in order. */
  lemma {:induction false} DenseReplay(rows: seq<Envelope>, base: nat, after: nat)
    requires forall i | 0 <= i < |rows| :: rows[i].num == base + i + 1
    ensures ListAfter(rows, after) ==
            if after <= base then rows else if after - base <= |rows| then rows[after - base..] else []
  {
    if rows != [] {
      DenseReplay(rows[1..], base + 1, after);
      if rows[0].num > after {
        assert ListAfter(rows[1..], after) == rows[1..];
        assert [rows[0]] + rows[1..] == rows;
      } else if after - base <= |rows| {
        assert rows[1..][after - base - 1..] == rows[after - base..];
      }
    }
  }

  /** For any table, replay lists exactly the rows above the watermark, in ascending order. */
  lemma {:induction false} ReplayContents(rows: seq<Envelope>, after: nat)
    ensures forall e :: e in ListAfter(rows, after) <==> e in rows && e.num > after
    ensures forall i, j | 0 <= i < j < |ListAfter(rows, after)| ::
              ListAfter(rows, after)[i].num <= ListAfter(rows, after)[j].num
  {
    if rows != [] {
      ReplayContents(rows[1..], after);
      assert rows == [rows[0]] + rows[1..];
      if rows[0].num > after {
        InsertSortedContents(rows[0], ListAfter(rows[1..], after));
      }
    }
  }

  lemma {:induction false} InsertSortedContents(e: Envelope, sorted: seq<Envelope>)
    requires forall i, j | 0 <= i < j < |sorted| :: sorted[i].num <= sorted[j].num
    ensures forall x :: x in InsertSorted(e, sorted) <==> x == e || x in sorted
    ensures forall i, j | 0 <= i < j < |InsertSorted(e, sorted)| ::
              InsertSorted(e, sorted)[i].num <= InsertSorted(e, sorted)[j].num
  {
    if sorted != [] && e.num > sorted[0].num {
      InsertSortedContents(e, sorted[1..]);
      assert sorted == [sorted[0]] + sorted[1..];
      var rest := InsertSorted(e, sorted[1..]);
      forall j | 0 <= j < |rest| ensures sorted[0].num <= rest[j].num {
        assert rest[j] in rest;
        if rest[j] != e {
          assert rest[j] in sorted[1..];
          var k :| 0 <= k < |sorted[1..]| && sorted[1..][k] == rest[j];
          assert sorted[k + 1] == rest[j];
        }
      }
    }
  }

  class RunnerMessages {
    var rows: seq<Envelope>

    constructor ()
      ensures rows == []
    {
      rows := [];
    }

    method NextSequence() returns (num: nat)
      ensures num == MaxSeq(rows) + 1
      ensures !Recorded(rows, num)
    {
      num := MaxSeq(rows) + 1;
      NextSeqIsFresh(rows);
    }

    /** Returns whether the row was new. */
    method Record(e: Envelope) returns (isNew: bool)
      modifies this
      ensures isNew <==> !Recorded(old(rows), e.num)
      ensures isNew <==> forall i | 0 <= i < |old(rows)| :: old(rows)[i].num != e.num
      ensures rows == if isNew then old(rows) + [e] else old(rows)
      ensures rows == Insert(old(rows), e)
    {
      isNew := forall i | 0 <= i < |rows| :: rows[i].num != e.num;
      if isNew {
        rows := rows + [e];
      }
    }

    method List(after: nat) returns (found: seq<Envelope>)
      ensures found == ListAfter(rows, after)
      ensures forall e :: e in found <==> e in rows && e.num > after
      ensures forall i, j | 0 <= i < j < |found| :: found[i].num <= found[j].num
    {
      ReplayContents(rows, after);
      found := ListAfter(rows, after);
    }
  }
}
