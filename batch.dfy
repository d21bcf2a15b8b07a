/**
 * The batch policy of `Process`: every record is processed on its own, the
 * successes are kept in input order and the failures are dropped.
 */
module Batch {
  import opened Types
  import opened Backends
  import opened Pipeline

  /** The outcome of processing one record. */
  type Outcome = Result<Record, Error>

  /** Number of successful outcomes. */
  function CountOk(os: seq<Outcome>): (n: nat)
    ensures n <= |os|
  {
    if os == [] then 0 else (if os[0].Ok? then 1 else 0) + CountOk(os[1..])
  }

  /** The values of the successful outcomes, in order. */
  function Survivors(os: seq<Outcome>): (out: seq<Record>)
    ensures |out| == CountOk(os) <= |os|
    ensures forall x :: x in out <==> Ok(x) in os
  {
    if os == [] then []
    else
      assert os == [os[0]] + os[1..];
      (if os[0].Ok? then [os[0].value] else []) + Survivors(os[1..])
  }

  /** Outcomes of two consecutive parts of a batch are filtered independently. */
  lemma {:induction false} SurvivorsAppend(a: seq<Outcome>, c: seq<Outcome>)
    ensures Survivors(a + c) == Survivors(a) + Survivors(c)
    decreases |a|
  {
    if a != [] {
      assert (a + c)[0] == a[0] && (a + c)[1..] == a[1..] + c;
      SurvivorsAppend(a[1..], c);
    } else {
      assert a + c == c;
    }
  }

  /**
   * The success at index i lands at the position given by the number of
   * successes before it; together with the length this says the output is
   * exactly the successes, each once, in input order.
   */
  lemma {:induction false} SurvivorPosition(os: seq<Outcome>, i: nat)
    requires i < |os| && os[i].Ok?
    ensures CountOk(os[..i]) < |Survivors(os)|
    ensures Survivors(os)[CountOk(os[..i])] == os[i].value
    decreases i
  {
    if i > 0 {
      assert os[1..][..i - 1] == os[..i][1..];
      SurvivorPosition(os[1..], i - 1);
    }
  }

  /** Successes at increasing input positions keep their relative order. */
  lemma {:induction false} SurvivorsKeepOrder(os: seq<Outcome>, i: nat, j: nat)
    requires i < j < |os| && os[i].Ok? && os[j].Ok?
    ensures CountOk(os[..i]) < CountOk(os[..j])
  {
    CountOkPrefix(os, i, j);
  }

  lemma {:induction false} CountOkPrefix(os: seq<Outcome>, i: nat, j: nat)
    requires i < j <= |os| && os[i].Ok?
    ensures CountOk(os[..i]) < CountOk(os[..j])
    decreases j - i
  {
    if j == i + 1 {
      CountOkSnoc(os[..i], os[i]);
      assert os[..i] + [os[i]] == os[..j];
    } else {
      CountOkPrefix(os, i, j - 1);
      CountOkSnoc(os[..j - 1], os[j - 1]);
      assert os[..j - 1] + [os[j - 1]] == os[..j];
    }
  }

  lemma {:induction false} CountOkSnoc(os: seq<Outcome>, o: Outcome)
    ensures CountOk(os + [o]) == CountOk(os) + (if o.Ok? then 1 else 0)
    decreases |os|
  {
    if os != [] {
      assert (os + [o])[1..] == os[1..] + [o];
      CountOkSnoc(os[1..], o);
    }
  }

  /** The outcome of every record of a batch, position by position. */
  function Outcomes(st: ProcessorState, b: Backends, records: seq<Record>): (os: seq<Outcome>)
    requires Ready(st)
    ensures |os| == |records|
  {
    seq(|records|, i requires 0 <= i < |records| => ProcessRecord(st, b, records[i]))
  }

  /** What `Process` returns for a batch. */
  function ProcessBatch(st: ProcessorState, b: Backends, records: seq<Record>): (out: seq<Record>)
    requires Ready(st)
    // one output per successful record, never more than came in
    ensures |out| == CountOk(Outcomes(st, b, records)) <= |records|
    // exactly the successfully processed records are output
    ensures forall x :: x in out <==> Ok(x) in Outcomes(st, b, records)
  {
    Survivors(Outcomes(st, b, records))
  }

  /** An empty batch gives an empty result. */
  lemma ProcessEmptyBatch(st: ProcessorState, b: Backends)
    requires Ready(st)
    ensures ProcessBatch(st, b, []) == []
  {
  }

  /**
   * One output per successful record, never more records than came in, and
   * every output is the successful processing of some input record.
   */
  lemma ProcessBatchOutputs(st: ProcessorState, b: Backends, records: seq<Record>)
    requires Ready(st)
    ensures |ProcessBatch(st, b, records)| == CountOk(Outcomes(st, b, records)) <= |records|
    ensures forall x :: x in ProcessBatch(st, b, records) <==>
      exists i :: 0 <= i < |records| && ProcessRecord(st, b, records[i]) == Ok(x)
  {
    var os := Outcomes(st, b, records);
    forall x ensures Ok(x) in os <==> exists i :: 0 <= i < |records| && ProcessRecord(st, b, records[i]) == Ok(x) {
      if Ok(x) in os {
        var i :| 0 <= i < |os| && os[i] == Ok(x);
        assert ProcessRecord(st, b, records[i]) == Ok(x);
      }
      if exists i :: 0 <= i < |records| && ProcessRecord(st, b, records[i]) == Ok(x) {
        var i :| 0 <= i < |records| && ProcessRecord(st, b, records[i]) == Ok(x);
        assert os[i] == Ok(x);
      }
    }
  }

  /**
   * Records are processed independently: the result for a batch is the
   * result for its first part followed by the result for the rest.
   */
  lemma ProcessBatchSplit(st: ProcessorState, b: Backends, a: seq<Record>, c: seq<Record>)
    requires Ready(st)
    ensures ProcessBatch(st, b, a + c) == ProcessBatch(st, b, a) + ProcessBatch(st, b, c)
  {
    assert Outcomes(st, b, a + c) == Outcomes(st, b, a) + Outcomes(st, b, c);
    SurvivorsAppend(Outcomes(st, b, a), Outcomes(st, b, c));
  }

  /** A record that fails is dropped and leaves its siblings' results as they are. */
  lemma FailedRecordDropped(st: ProcessorState, b: Backends, a: seq<Record>, rec: Record, c: seq<Record>)
    requires Ready(st)
    requires ProcessRecord(st, b, rec).Err?
    ensures ProcessBatch(st, b, a + [rec] + c) == ProcessBatch(st, b, a) + ProcessBatch(st, b, c)
  {
    ProcessBatchSplit(st, b, a + [rec], c);
    ProcessBatchSplit(st, b, a, [rec]);
    assert ProcessBatch(st, b, [rec]) == [];
  }

  /**
   * The k-th output is the processed form of the k-th successful input:
   * the record at index i, when it succeeds, appears at the position counting
   * the successes before it.
   */
  lemma ProcessBatchInOrder(st: ProcessorState, b: Backends, records: seq<Record>, i: nat)
    requires Ready(st)
    requires i < |records| && ProcessRecord(st, b, records[i]).Ok?
    ensures var k := CountOk(Outcomes(st, b, records)[..i]);
      k < |ProcessBatch(st, b, records)| &&
      ProcessBatch(st, b, records)[k] == ProcessRecord(st, b, records[i]).value
  {
    SurvivorPosition(Outcomes(st, b, records), i);
  }
}
