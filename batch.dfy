/** A batch of records, each processed on its own. */
module Batches {
  import opened Routing

  /** How a batch loop sees a record's processing: from the record's
      position and the record to its run. */
  type Handler = (nat, Record) -> Run

  /** The routing of `send_to_sqs` and `add`, as a handler. */
  function Handle(env: Services): Handler
  {
    (j: nat, rec: Record) => Step(env, j, rec)
  }

  /** Every record of the batch, processed at its own position. */
  function RunsOf(handle: Handler, records: seq<Record>): seq<Run>
  {
    seq(|records|, j requires 0 <= j < |records| => handle(j, records[j]))
  }

  function Runs(env: Services, records: seq<Record>): seq<Run>
  {
    RunsOf(Handle(env), records)
  }

  /** The calls of several runs, one run after another. */
  function Flatten(runs: seq<Run>): seq<Action>
  {
    if runs == [] then [] else runs[0].actions + Flatten(runs[1..])
  }

  /** Flattening a suffix of the runs peels off its first run. */
  lemma FlattenFrom(runs: seq<Run>, i: nat)
    requires i < |runs|
    ensures Flatten(runs[i..]) == runs[i].actions + Flatten(runs[i + 1..])
  {
    assert runs[i..][1..] == runs[i + 1..];
  }

  /** Flattening distributes over concatenation of run lists. */
  lemma {:induction false} FlattenAppend(a: seq<Run>, b: seq<Run>)
    ensures Flatten(a + b) == Flatten(a) + Flatten(b)
  {
    if a == [] {
      assert a + b == b;
    } else {
      assert (a + b)[1..] == a[1..] + b;
      FlattenAppend(a[1..], b);
    }
  }
}
