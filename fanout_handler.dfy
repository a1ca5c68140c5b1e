/** The fan-out handler (src/bin/lambda/handler.rs): one task per record,
    each failure or panic kept inside its task, and the batch always
    succeeds. */
module FanoutHandler {
  import opened Wrappers
  import opened Errors
  import opened Products
  import opened Dtos
  import opened GetProductById
  import opened Routing
  import opened Batches

  /** `execute`: spawn one task per record into `tasks`, join them all and
      drop their results, then return `Ok(())`. Each task's run is what the
      record does on its own; the interleaving of tasks is not modelled. */
  method Execute(env: Services, records: seq<Record>) returns (result: Result<(), Error>, tasks: seq<Run>)
    ensures result == Success(())
    ensures |tasks| == |records|
    ensures forall j :: 0 <= j < |records| ==> tasks[j] == Step(env, j, records[j])
    ensures tasks == Runs(env, records)
  {
    tasks := [];
    for i := 0 to |records|
      invariant |tasks| == i
      invariant forall j :: 0 <= j < i ==> tasks[j] == Step(env, j, records[j])
    {
      tasks := tasks + [Step(env, i, records[i])];
    }
    // join_all: every task has finished; its outcome is discarded.
    result := Success(());
  }

  /** Records do not affect each other: replacing record `k` by anything,
      a malformed body included, leaves every other record's run as it was.
      This holds by construction of `Runs`, whose services are indexed by
      position; it is not a statement about the shared store, whose state
      across records is not modelled. */
  lemma {:induction false} RecordsAreIsolated(env: Services, records: seq<Record>, k: nat, other: Record, j: nat)
    requires k < |records| && j < |records| && j != k
    ensures Runs(env, records[k := other])[j] == Runs(env, records)[j]
  {
    assert records[k := other][j] == records[j];
  }

  /** A batch of a lookup of an absent key and a create request: the lookup
      still sends one message, holding the serialisation of `None`; the create
      puts one item that decodes to the fresh id, the name and the price. */
  lemma {:induction false} AbsentLookupAndCreate(env: Services, records: seq<Record>, price: Price)
    requires |records| == 2
    requires RequestOf(env, records[0]) == Some(Request(Some("abc"), None, None))
    requires RequestOf(env, records[1]) == Some(Request(None, Some("Widget"), Some(price)))
    requires TableNameVar in env.vars && OutputQueueVar in env.vars
    requires env.store(0)(env.vars[TableNameVar], KeyOf("abc")) == Success(None)
    requires RoundTrips(env.text, price)
    ensures var runs := Runs(env, records);
            && runs[0].actions == [Get(env.vars[TableNameVar], KeyOf("abc")),
                                   Send(env.vars[OutputQueueVar], env.serialize(None))]
            && |runs[1].actions| == 1 && runs[1].actions[0].Put?
            && FromDynamoDb(runs[1].actions[0].item, env.text) == Ok(Product(env.uuid(1), "Widget", price))
  {
    LookupForwardsOption(env, 0, records[0], "abc", None);
    CreatePutsRequestedProduct(env, 1, records[1], "Widget", price);
  }

  /** A create request without a price panics inside its own task: nothing is
      put, and every other record still runs as it would alone. The second
      part holds for any record by the definition of `Runs`; that the panic
      does not fail the batch is `Execute`'s unconditional `Success(())`. */
  lemma {:induction false} MissingPriceIsContained(env: Services, records: seq<Record>, k: nat, name: string)
    requires k < |records|
    requires RequestOf(env, records[k]) == Some(Request(None, Some(name), None))
    ensures Runs(env, records)[k] == Run([], Panicked(MissingPrice))
    ensures forall j :: 0 <= j < |records| && j != k ==> Runs(env, records)[j] == Step(env, j, records[j])
  {
    CreateWithoutFieldsPanics(env, k, records[k]);
  }
}
