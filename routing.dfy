/** What one SQS record does: the routing shared by both handlers, with
    `send_to_sqs` and `add` (src/library/lambda.rs; src/bin/lambda/handler.rs
    holds identical copies). */
module Routing {
  import opened Wrappers
  import opened Dynamo
  import opened Errors
  import opened Products
  import opened Dtos
  import opened GetProductById

  /** An SQS record: only its optional body matters here. */
  datatype Record = Record(body: Option<string>)

  /** A call into a service, with what it was asked. */
  datatype Action =
    | Get(table: string, key: Item)        // DynamoDB get_item
    | Send(queue: string, body: string)    // SQS send_message
    | Put(table: string, item: Item)       // DynamoDB put_item (AddProduct)

  const OutputQueueVar: string := "OUTPUT_SQS"

  /** Everything a record's processing consults that is not its own code:
      environment variables, the JSON codecs, UUIDs and the AWS services.
      UUIDs and service responses are indexed by the record's position in
      the batch, so each record sees its own view of them. */
  datatype Services = Services(
    vars: map<string, string>,
    text: PriceText,
    parseRequest: string -> Option<Request>,     // JSON decoding of a request body
    serialize: Option<Product> -> string,        // JSON encoding of the lookup result
    uuid: nat -> string,                         // a fresh v4 UUID as text
    store: nat -> Store,                         // get_item
    put: nat -> (string, Item) -> Result<(), string>,
    send: nat -> (string, string) -> Result<(), string>)

  /** How a record's processing ends. */
  datatype Status =
    | Skipped              // no body: logged, nothing done
    | Done
    | Failed(error: Error)
    | Panicked(site: PanicSite)

  /** The calls a record made, in order, and how it ended. */
  datatype Run = Run(actions: seq<Action>, status: Status)

  /** The status ends a sequential batch early. */
  predicate Stops(s: Status)
  {
    s.Failed? || s.Panicked?
  }

  predicate OnlyLookups(actions: seq<Action>)
  {
    forall a :: a in actions ==> a.Get? || a.Send?
  }

  predicate OnlyPuts(actions: seq<Action>)
  {
    forall a :: a in actions ==> a.Put?
  }

  /** `send_to_sqs`: get the product, then forward the serialised
      `Option<Product>`, absent or not. */
  function SendToSqs(env: Services, i: nat, pk: string): (r: Run)
    ensures OnlyLookups(r.actions) && |r.actions| <= 2
    ensures |r.actions| >= 1 ==> TableNameVar in env.vars && r.actions[0] == Get(env.vars[TableNameVar], KeyOf(pk))
    ensures |r.actions| == 2 ==> OutputQueueVar in env.vars && r.actions[1].Send? && r.actions[1].queue == env.vars[OutputQueueVar]
    ensures r.status.Done? ==> |r.actions| == 2
    ensures !r.status.Skipped?
    ensures TableNameVar !in env.vars ==> r == Run([], Panicked(NoTableName))
    ensures TableNameVar in env.vars ==>
              var get := Get(env.vars[TableNameVar], KeyOf(pk));
              var found := Execute(GetById(env.vars[TableNameVar]), env.store(i), pk, env.text);
              && (found.Err? ==> r == Run([get], Failed(found.error)))
              && (found.Panic? ==> r == Run([get], Panicked(found.site)))
              && (found.Ok? && OutputQueueVar !in env.vars ==> r == Run([get], Panicked(NoOutputQueue)))
              && (found.Ok? && OutputQueueVar in env.vars ==>
                    var send := Send(env.vars[OutputQueueVar], env.serialize(found.value));
                    var sent := env.send(i)(send.queue, send.body);
                    && r.actions == [get, send]
                    && (r.status == Done <==> sent.Success?)
                    && (sent.Failure? ==> r.status == Failed(Queue(sent.error))))
  {
    var q := New(env.vars);
    if !q.Ok? then Run([], Panicked(NoTableName))
    else
      var get := Get(q.value.tableName, KeyOf(pk));
      match Execute(q.value, env.store(i), pk, env.text)
      case Err(e) => Run([get], Failed(e))
      case Panic(site) => Run([get], Panicked(site))
      case Ok(product) =>
        if OutputQueueVar !in env.vars then Run([get], Panicked(NoOutputQueue))
        else
          var queue := env.vars[OutputQueueVar];
          var body := env.serialize(product);
          match env.send(i)(queue, body)
          case Failure(reason) => Run([get, Send(queue, body)], Failed(Queue(reason)))
          case Success(_) => Run([get, Send(queue, body)], Done)
  }

  /** `add`: a product with a fresh id and the request's name and price,
      written with `put_item`. */
  function Add(env: Services, i: nat, req: Request): (r: Run)
    ensures OnlyPuts(r.actions) && |r.actions| <= 1
    ensures |r.actions| == 1 <==> req.name.Some? && req.price.Some? && TableNameVar in env.vars
    ensures |r.actions| == 1 ==>
              r.actions[0] == Put(env.vars[TableNameVar],
                                  Encoded(Product(env.uuid(i), req.name.value, req.price.value), env.text))
    ensures r.status.Done? ==> |r.actions| == 1
    ensures !r.status.Skipped?
    ensures req.name.None? ==> r == Run([], Panicked(MissingName))
    ensures req.name.Some? && req.price.None? ==> r == Run([], Panicked(MissingPrice))
    ensures req.name.Some? && req.price.Some? && TableNameVar !in env.vars ==> r == Run([], Panicked(NoTableName))
    ensures |r.actions| == 1 ==>
              var put := env.put(i)(r.actions[0].table, r.actions[0].item);
              && (r.status == Done <==> put.Success?)
              && (put.Failure? ==> r.status == Failed(Store(put.error)))
  {
    var pk := env.uuid(i);
    if req.name.None? then Run([], Panicked(MissingName))
    else if req.price.None? then Run([], Panicked(MissingPrice))
    else
      var product := Product(pk, req.name.value, req.price.value);
      if TableNameVar !in env.vars then Run([], Panicked(NoTableName))
      else
        var table := env.vars[TableNameVar];
        var item := Encoded(product, env.text);
        match env.put(i)(table, item)
        case Failure(reason) => Run([Put(table, item)], Failed(Store(reason)))
        case Success(_) => Run([Put(table, item)], Done)
  }

  /** The request a record carries, when it has a body that parses. */
  function RequestOf(env: Services, rec: Record): Option<Request>
  {
    if rec.body.Some? then env.parseRequest(rec.body.value) else None
  }

  /** One record: no body is logged and skipped, a body that is not a
      request panics, a `pk` selects lookup-and-forward and its absence
      selects create. */
  function Step(env: Services, i: nat, rec: Record): (r: Run)
    ensures r.status.Skipped? <==> rec.body.None?
    ensures rec.body.Some? && RequestOf(env, rec).None? ==> r == Run([], Panicked(BadJson))
    ensures r.actions != [] ==> RequestOf(env, rec).Some?
    ensures RequestOf(env, rec).Some? && RequestOf(env, rec).value.pk.Some? ==> OnlyLookups(r.actions)
    ensures RequestOf(env, rec).Some? && RequestOf(env, rec).value.pk.None? ==> OnlyPuts(r.actions)
    ensures RequestOf(env, rec).Some? ==>
              r == match RequestOf(env, rec).value.pk
                   case Some(pk) => SendToSqs(env, i, pk)
                   case None => Add(env, i, RequestOf(env, rec).value)
  {
    match rec.body
    case None => Run([], Skipped)
    case Some(body) =>
      match env.parseRequest(body)
      case None => Run([], Panicked(BadJson))
      case Some(req) =>
        match req.pk
        case Some(pk) => SendToSqs(env, i, pk)
        case None => Add(env, i, req)
  }

  /** With both variables set and a store that answers with no item or with
      an item that decodes, a lookup gets the key and sends exactly one
      message: the serialised `Option<Product>`, `None` included when the key
      holds no item. (An item that does not decode stops the lookup after
      the get; see `SendToSqs`.) */
  lemma LookupForwardsOption(env: Services, i: nat, rec: Record, pk: string, found: Option<Item>)
    requires RequestOf(env, rec).Some? && RequestOf(env, rec).value.pk == Some(pk)
    requires TableNameVar in env.vars && OutputQueueVar in env.vars
    requires env.store(i)(env.vars[TableNameVar], KeyOf(pk)) == Success(found)
    requires found.Some? ==> FromDynamoDb(found.value, env.text).Ok?
    ensures var sent := if found.Some? then Some(FromDynamoDb(found.value, env.text).value) else None;
            Step(env, i, rec).actions
              == [Get(env.vars[TableNameVar], KeyOf(pk)), Send(env.vars[OutputQueueVar], env.serialize(sent))]
  {
    var q := New(env.vars).value;
    if found.Some? {
      assert Execute(q, env.store(i), pk, env.text) == Ok(Some(FromDynamoDb(found.value, env.text).value));
    } else {
      assert Execute(q, env.store(i), pk, env.text) == Ok(None);
    }
  }

  /** With both variables set, a lookup whose key holds a product written by
      `add`'s encoding, with a price that round-trips, forwards that very
      product. */
  lemma LookupForwardsStoredProduct(env: Services, i: nat, rec: Record, p: Product)
    requires RequestOf(env, rec).Some? && RequestOf(env, rec).value.pk == Some(p.pk)
    requires TableNameVar in env.vars && OutputQueueVar in env.vars
    requires env.store(i)(env.vars[TableNameVar], KeyOf(p.pk)) == Success(Some(Encoded(p, env.text)))
    requires RoundTrips(env.text, p.price)
    ensures Step(env, i, rec).actions
              == [Get(env.vars[TableNameVar], KeyOf(p.pk)), Send(env.vars[OutputQueueVar], env.serialize(Some(p)))]
  {
    RoundTripExact(p, env.text);
    LookupForwardsOption(env, i, rec, p.pk, Some(Encoded(p, env.text)));
  }

  /** A `pk` wins over `name` and `price`: the create path never runs, so
      nothing is put. */
  lemma PkNeverCreates(env: Services, i: nat, rec: Record)
    requires RequestOf(env, rec).Some? && RequestOf(env, rec).value.pk.Some?
    ensures forall a :: a in Step(env, i, rec).actions ==> !a.Put?
  {
  }

  /** With `TABLE_NAME` set, a create request with name and price puts
      exactly one item, which decodes back to a product with the fresh id
      and the request's name and price. */
  lemma CreatePutsRequestedProduct(env: Services, i: nat, rec: Record, name: string, price: Price)
    requires RequestOf(env, rec) == Some(Request(None, Some(name), Some(price)))
    requires TableNameVar in env.vars
    requires RoundTrips(env.text, price)
    ensures |Step(env, i, rec).actions| == 1
    ensures var a := Step(env, i, rec).actions[0];
            a.Put? && a.table == env.vars[TableNameVar]
            && FromDynamoDb(a.item, env.text) == Ok(Product(env.uuid(i), name, price))
  {
    RoundTripExact(Product(env.uuid(i), name, price), env.text);
  }

  /** A create request without a name or a price panics before any call. */
  lemma CreateWithoutFieldsPanics(env: Services, i: nat, rec: Record)
    requires RequestOf(env, rec).Some? && RequestOf(env, rec).value.pk.None?
    requires RequestOf(env, rec).value.name.None? || RequestOf(env, rec).value.price.None?
    ensures Step(env, i, rec).actions == []
    ensures Step(env, i, rec).status.Panicked?
    ensures Step(env, i, rec).status.site
              == if RequestOf(env, rec).value.name.None? then MissingName else MissingPrice
  {
  }
}
