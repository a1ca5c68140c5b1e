/** The sequential handler (src/library/lambda.rs): records one at a time,
    in order, and the first error or panic ends the invocation. */
module SequentialHandler {
  import opened Wrappers
  import opened Errors
  import opened Products
  import opened Routing
  import opened Batches
  import Dtos
  import opened GetProductById

  /** What an invocation returns, and the calls it made, in order. */
  datatype Invocation = Invocation(outcome: Outcome<Option<Product>>, actions: seq<Action>)

  /** The invocation from record `i` on, given each record's run: each
      record runs in turn; a failed record's error is returned and a
      panicking record's panic unwinds, both leaving the later records
      untouched; when every record finishes the result is `Ok(None)`. */
  function SequentialFrom(runs: seq<Run>, i: nat): (r: Invocation)
    requires i <= |runs|
    ensures r.outcome.Ok? ==> r.outcome.value == None
    decreases |runs| - i
  {
    if i == |runs| then Invocation(Ok(None), [])
    else
      match runs[i].status
      case Failed(e) => Invocation(Err(e), runs[i].actions)
      case Panicked(site) => Invocation(Panic(site), runs[i].actions)
      case _ =>
        var rest := SequentialFrom(runs, i + 1);
        Invocation(rest.outcome, runs[i].actions + rest.actions)
  }

  /** The sequential invocation of a whole batch. */
  function Sequential(env: Services, records: seq<Record>): Invocation
  {
    SequentialFrom(Runs(env, records), 0)
  }

  /** The `while let` loop of `execute` over the record stream, with each
      record handled by `handle`; it returns early on the first error (`?`)
      or panic. */
  method ExecuteWith(handle: Handler, records: seq<Record>) returns (outcome: Outcome<Option<Product>>, actions: seq<Action>)
    ensures Invocation(outcome, actions) == SequentialFrom(RunsOf(handle, records), 0)
  {
    ghost var runs := RunsOf(handle, records);
    actions := [];
    var i := 0;
    while i < |records|
      invariant 0 <= i <= |records|
      invariant SequentialFrom(runs, 0)
                  == Invocation(SequentialFrom(runs, i).outcome, actions + SequentialFrom(runs, i).actions)
    {
      var run := handle(i, records[i]);
      ghost var rest := SequentialFrom(runs, i + 1);
      assert actions + (run.actions + rest.actions) == (actions + run.actions) + rest.actions;
      actions := actions + run.actions;
      if run.status.Failed? {
        outcome := Err(run.status.error);
        return;
      } else if run.status.Panicked? {
        outcome := Panic(run.status.site);
        return;
      }
      i := i + 1;
    }
    outcome := Ok(None);
  }

  /** `execute`: the loop with `send_to_sqs` and `add` as the record
      handling. */
  method Execute(env: Services, records: seq<Record>) returns (outcome: Outcome<Option<Product>>, actions: seq<Action>)
    ensures Invocation(outcome, actions) == Sequential(env, records)
    ensures outcome.Ok? ==> outcome.value == None
  {
    outcome, actions := ExecuteWith(Handle(env), records);
  }

  /** The sequential handler makes a prefix of the calls that processing
      every record would make, in input order. */
  lemma {:induction false} ActionsArePrefix(runs: seq<Run>, i: nat)
    requires i <= |runs|
    ensures SequentialFrom(runs, i).actions <= Flatten(runs[i..])
    decreases |runs| - i
  {
    if i < |runs| {
      FlattenFrom(runs, i);
      if !Stops(runs[i].status) {
        ActionsArePrefix(runs, i + 1);
      }
    }
  }

  /** The invocation succeeds exactly when no record from `i` on fails or
      panics, and then it has made every record's calls. */
  lemma {:induction false} CompletesIff(runs: seq<Run>, i: nat)
    requires i <= |runs|
    ensures SequentialFrom(runs, i).outcome.Ok? <==> forall j :: i <= j < |runs| ==> !Stops(runs[j].status)
    ensures SequentialFrom(runs, i).outcome.Ok? ==> SequentialFrom(runs, i).actions == Flatten(runs[i..])
    decreases |runs| - i
  {
    if i < |runs| {
      FlattenFrom(runs, i);
      CompletesIff(runs, i + 1);
    }
  }

  /** When record `k` is the first to fail or panic, its error or panic is
      the outcome, and the calls made are those of records up to `k`:
      the records after it get none. */
  lemma {:induction false} StopsAtFirst(runs: seq<Run>, i: nat, k: nat)
    requires i <= k < |runs|
    requires Stops(runs[k].status)
    requires forall j :: i <= j < k ==> !Stops(runs[j].status)
    ensures var r := SequentialFrom(runs, i);
            var s := runs[k].status;
            && r.actions == Flatten(runs[i..k + 1])
            && (s.Failed? ==> r.outcome == Err(s.error))
            && (s.Panicked? ==> r.outcome == Panic(s.site))
    decreases k - i
  {
    assert runs[i..k + 1][0] == runs[i];
    assert runs[i..k + 1][1..] == runs[i + 1..k + 1];
    if i < k {
      StopsAtFirst(runs, i + 1, k);
    } else {
      assert runs[i + 1..k + 1] == [];
    }
  }

  /** Unlike the fan-out handler, a create request without a price panics
      the whole invocation: once every earlier record has gone through, the
      panic is the outcome and no later record is processed. */
  lemma MissingPriceAbortsBatch(env: Services, records: seq<Record>, k: nat, name: string)
    requires k < |records|
    requires RequestOf(env, records[k]) == Some(Dtos.Request(None, Some(name), None))
    requires forall j :: 0 <= j < k ==> !Stops(Step(env, j, records[j]).status)
    ensures Sequential(env, records).outcome == Panic(MissingPrice)
    ensures Sequential(env, records).actions == Flatten(Runs(env, records)[..k])
  {
    var runs := Runs(env, records);
    CreateWithoutFieldsPanics(env, k, records[k]);
    StopsAtFirst(runs, 0, k);
    FlattenAppend(runs[..k], [runs[k]]);
    assert runs[0..k + 1] == runs[..k] + [runs[k]];
    assert Flatten([runs[k]]) == [];
  }

  /** A lookup whose `get_item` fails ends the invocation with that store
      error: the failed get is the last call made, and no later record is
      processed. */
  lemma StoreFailureAbortsBatch(env: Services, records: seq<Record>, k: nat, pk: string, reason: string)
    requires k < |records|
    requires RequestOf(env, records[k]).Some? && RequestOf(env, records[k]).value.pk == Some(pk)
    requires TableNameVar in env.vars
    requires env.store(k)(env.vars[TableNameVar], KeyOf(pk)) == Failure(reason)
    requires forall j :: 0 <= j < k ==> !Stops(Step(env, j, records[j]).status)
    ensures Sequential(env, records).outcome == Err(Store(reason))
    ensures Sequential(env, records).actions
              == Flatten(Runs(env, records)[..k]) + [Get(env.vars[TableNameVar], KeyOf(pk))]
  {
    var runs := Runs(env, records);
    assert runs[k] == Run([Get(env.vars[TableNameVar], KeyOf(pk))], Failed(Store(reason)));
    StopsAtFirst(runs, 0, k);
    FlattenAppend(runs[..k], [runs[k]]);
    assert runs[0..k + 1] == runs[..k] + [runs[k]];
    assert Flatten([runs[k]]) == runs[k].actions;
  }
}
