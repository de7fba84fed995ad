/** The append-only event log: global numbers, per-run numbers, and the durable watermark. */
module EventLog {

  datatype Row = Row(global: nat, run: string, runSeq: nat)

  /** The largest number given to an event of the run so far, or zero. */
  function MaxRunSeq(rows: seq<Row>, run: string): nat {
    if rows == [] then 0
    else
      var before, last := MaxRunSeq(rows[..|rows| - 1], run), rows[|rows| - 1];
      if last.run == run && last.runSeq > before then last.runSeq else before
  }

  function CountRun(rows: seq<Row>, run: string): nat {
    if rows == [] then 0 else CountRun(rows[..|rows| - 1], run) + if rows[|rows| - 1].run == run then 1 else 0
  }

  /** Each event carries how many events of its run there are up to and including itself. */
  predicate Contiguous(rows: seq<Row>) {
    forall k :: 0 <= k < |rows| ==> rows[k].runSeq == CountRun(rows[..k], rows[k].run) + 1
  }

  predicate Increasing(rows: seq<Row>) {
    (forall k :: 0 <= k < |rows| ==> rows[k].global > 0) && forall i, j :: 0 <= i < j < |rows| ==> rows[i].global < rows[j].global
  }

  predicate AllBelow(rows: seq<Row>, bound: nat) {
    forall k :: 0 <= k < |rows| ==> rows[k].global <= bound
  }

  /** Numbering on from the maximum is counting: the events of a run are numbered 1, 2, 3, ... */
  lemma {:induction false} MaxIsCount(rows: seq<Row>, run: string)
    requires Contiguous(rows)
    ensures MaxRunSeq(rows, run) == CountRun(rows, run)
  {
    if rows != [] {
      var n := |rows| - 1;
      assert forall k :: 0 <= k < n ==> rows[..n][..k] == rows[..k];
      MaxIsCount(rows[..n], run);
    }
  }

  lemma ContiguousNext(rows: seq<Row>, row: Row)
    requires Contiguous(rows) && row.runSeq == CountRun(rows, row.run) + 1
    ensures Contiguous(rows + [row])
  {
    var more := rows + [row];
    forall k | 0 <= k < |more| ensures more[k].runSeq == CountRun(more[..k], more[k].run) + 1 {
      assert more[..k] == rows[..k];
    }
    assert rows[..|rows|] == rows;
  }

  predicate Numbered(rows: seq<Row>, bound: nat) {
    Increasing(rows) && Contiguous(rows) && AllBelow(rows, bound)
  }

  lemma NumberedNext(rows: seq<Row>, bound: nat, row: Row)
    requires Numbered(rows, bound) && row.global == bound + 1 && row.runSeq == MaxRunSeq(rows, row.run) + 1
    ensures Numbered(rows + [row], bound + 1)
  {
    MaxIsCount(rows, row.run);
    ContiguousNext(rows, row);
    hide Contiguous;
  }

  class LiveLog {
    var rows: seq<Row>
    var lastId: nat
    var watermark: nat

    constructor ()
      ensures Valid() && rows == [] && watermark == 0
    {
      rows, lastId, watermark := [], 0, 0;
    }

    ghost predicate Valid()
      reads this
    {
      Numbered(rows, lastId) && AllBelow(rows, watermark)
    }

    /** Insert one event under the next row number and the next number of its run. */
    method Insert(run: string) returns (row: Row)
      requires Numbered(rows, lastId)
      modifies this`rows, this`lastId
      ensures rows == old(rows) + [row] && row.run == run && row.global == lastId
      ensures Numbered(rows, lastId)
    {
      row := Row(lastId + 1, run, MaxRunSeq(rows, run) + 1);
      NumberedNext(rows, lastId, row);
      rows := rows + [row];
      lastId := lastId + 1;
    }

    /** Append events in one transaction; the watermark moves with the rows. */
    method Append(runs: seq<string>) returns (numbered: seq<Row>)
      requires Valid()
      modifies this
      ensures Valid() && rows == old(rows) + numbered
      ensures |numbered| == |runs| && forall k :: 0 <= k < |runs| ==> numbered[k].run == runs[k]
      ensures watermark >= old(watermark) && (numbered == [] ==> watermark == old(watermark))
    {
      hide Numbered;
      numbered := [];
      var top := 0;
      for i := 0 to |runs|
        invariant Numbered(rows, lastId) && rows == old(rows) + numbered && |numbered| == i
        invariant watermark == old(watermark) && AllBelow(old(rows), watermark) && AllBelow(numbered, top)
        invariant forall k :: 0 <= k < i ==> numbered[k].run == runs[k]
      {
        var row := Insert(runs[i]);
        numbered := numbered + [row];
        if row.global > top { top := row.global; }
      }
      if numbered != [] { Bump(top); }
    }

    /** Raise the watermark; it never goes back. */
    method Bump(seqNo: nat)
      modifies this`watermark
      ensures watermark == if seqNo > old(watermark) then seqNo else old(watermark)
    {
      if seqNo > watermark { watermark := seqNo; }
    }
  }
}
