# rust_sqs in Dafny

A model of the core of `rust_sqs`, an AWS Lambda function triggered by SQS.
For each record of a batch it either looks a product up in DynamoDB by its
`pk` and forwards it to an output SQS queue, or it creates a product with a
fresh UUID and puts it in DynamoDB. The model covers:

- the `Product` codec to and from a DynamoDB attribute map (`product.dfy`,
  module `Products`), with its error cases and its round trip;
- the get-by-id query and how it maps the store's answer
  (`get_product_by_id.dfy`, module `GetProductById`);
- the per-record routing shared by both handlers, with `send_to_sqs` and
  `add` (`routing.dfy`, module `Routing`);
- the two batch handlers: the sequential loop of `src/library/lambda.rs`,
  where the first error or panic ends the invocation
  (`sequential_handler.dfy`), and the one-task-per-record fan-out of
  `src/bin/lambda/handler.rs`, where every record is attempted and the
  batch always succeeds (`fanout_handler.dfy`).

Both handler loops are methods, each proved against a specification
function (`SequentialFrom`, and `Runs` in `batch.dfy`). The properties of
those functions are proved as lemmas. The sequential loop (`ExecuteWith`)
takes the per-record handling as a parameter, and `Execute` supplies the
routing of `send_to_sqs` and `add`. Its lemmas are stated over the list of
per-record runs.

Conventions:

- A Rust call ends in a value, an `Err` that `?` passes on, or a panic.
  `Errors.Outcome` has all three, and `PanicSite` names the `unwrap` or
  `expect` that panicked.
- A run of a record is the list of service calls it made (`Get`, `Send`,
  `Put`, each with its table or queue and its payload) plus how it ended.
- Everything outside the code is a parameter in `Routing.Services`:
  environment variables, the JSON codecs, UUIDs and the service responses.
  UUIDs and service responses are indexed by the record's position in the
  batch.

What the code does at its edges, which the model follows:

- When the key holds no item, a lookup still sends one message: the
  serialisation of `None`.
- A create request without `name` or `price` panics (`unwrap`), and so does
  a body that is not valid JSON. In the fan-out handler the panic stays
  inside its task. In the sequential handler it ends the invocation.
- The sequential handler (`src/library/lambda.rs`) stops at the first
  error and returns it, so one failing record fails the batch. The fan-out
  handler (`src/bin/lambda/handler.rs`) always returns `Ok(())`.
- `TABLE_NAME` is read on every `GetById::new` / `AddProduct::new`, so once
  per lookup or create. A missing variable panics (`expect`). `OUTPUT_SQS` is read
  only after the get, so a missing `OUTPUT_SQS` panics after the `Get`
  call has been made.
- A stored `N` text that does not parse panics (`unwrap`) rather than
  returning an error.

## Model

| member | source | states |
|---|---|---|
| `Products.ToDynamoDb` | src/models/product.rs:19-29 | the item has exactly the keys pk, name, price; pk and name are `S` of the fields, price is `N` of the price's display text |
| `Products.GetKey` | src/models/product.rs:41-54 | an absent key fails with the message `Missing '<key>'`; a present key succeeds iff its value has the asked kind, with that value's text, and otherwise fails with the value itself |
| `Products.FromDynamoDb` | src/models/product.rs:31-39 | succeeds iff pk and name are `S`, price is `N` and its text parses, and the product's fields are those texts; panics iff only the price parse fails |
| `Products.FirstBadFieldDecides` | src/models/product.rs:32-35 | fields are read in the order pk, name, price: the first that is missing or of the wrong kind decides the error, whatever the later ones hold |
| `Products.DecodeIgnoresOtherKeys` | src/models/product.rs:46-48 | two items that agree on pk, name and price decode alike: other attributes are ignored |
| `Products.RoundTrip` | src/models/product.rs:19-39 | decoding an encoded product gives its pk and name with the price its text parses to, and panics only when that text does not parse |
| `Products.RoundTripExact` | src/models/product.rs:19-39 | when the price's text parses back to the same price, decoding inverts encoding exactly |
| `GetProductById.New` | src/queries/get_product_by_id_query.rs:20-23 | the query is built iff `TABLE_NAME` is set, with that table name; otherwise it panics |
| `GetProductById.KeyOf` | src/queries/get_product_by_id_query.rs:30 | the lookup key is the single attribute pk holding an `S` of the argument |
| `GetProductById.Execute` | src/queries/get_product_by_id_query.rs:25-38 | a store failure is returned as a store error; `Ok(None)` iff the store holds no item; a stored item that decodes to `p` gives `Ok(Some(p))`, and its decode error or panic is passed on unchanged; a product is returned only when the stored item decodes to it |
| `GetProductById.StoreFailureSkipsDecoding` | src/queries/get_product_by_id_query.rs:27-32 | on a store failure the outcome is an error and does not depend on the price conversions: nothing is decoded |
| `GetProductById.MalformedItemPropagates` | src/queries/get_product_by_id_query.rs:36 | a decode error or panic on the stored item is passed on unchanged |
| `GetProductById.FindsStoredProduct` | src/queries/get_product_by_id_query.rs:25-38 | a product stored under its own key with `to_dynamodb` is returned as it was |
| `Routing.SendToSqs` | src/library/lambda.rs:36-55 | without `TABLE_NAME` it panics with no call; otherwise it first gets the key on that table; a store error or decode panic ends the run there; without `OUTPUT_SQS` it panics after the get; otherwise it sends the serialised `Option<Product>` that the query returned to `OUTPUT_SQS`, and ends `Done` iff the send succeeds, else with the queue's error |
| `Routing.Add` | src/library/lambda.rs:57-69 | panics with no call at a missing name, then a missing price, then a missing `TABLE_NAME`; otherwise puts exactly the encoding of a product with the record's UUID and the request's name and price, and ends `Done` iff the put succeeds, else with the store's error |
| `Routing.Step` | src/library/lambda.rs:21-30 | a record is skipped iff it has no body; an unparsable body panics with no call; a parsed request with a `pk` runs `send_to_sqs` of that pk, one without runs `add` of the request |
| `Routing.LookupForwardsOption` | src/library/lambda.rs:36-51 | with `TABLE_NAME` and `OUTPUT_SQS` set, when the store answers with no item or with an item that decodes, a lookup makes exactly a get and one send whose body is the serialised `Option<Product>`, `None` included |
| `Routing.LookupForwardsStoredProduct` | src/library/lambda.rs:36-51 | with `TABLE_NAME` and `OUTPUT_SQS` set, a lookup of a key holding an encoded product whose price text parses back to the same price sends the serialisation of that same product |
| `Routing.PkNeverCreates` | src/library/lambda.rs:23-27 | with `pk` present, nothing is put even when name and price are also present |
| `Routing.CreatePutsRequestedProduct` | src/library/lambda.rs:57-66 | with `TABLE_NAME` set, a create request with name and price puts one item, which decodes to the fresh id, that name and that price |
| `Routing.CreateWithoutFieldsPanics` | src/library/lambda.rs:57-62 | a create request missing name or price panics at the first missing field, before any call |
| `SequentialHandler.SequentialFrom` | src/library/lambda.rs:14-34 | the records run in order, and the first failure or panic ends the invocation with that outcome; a successful invocation returns `Ok(None)`, never a product |
| `SequentialHandler.ExecuteWith` | src/library/lambda.rs:16-33 | the `while let` loop, for any per-record handling, returns exactly the outcome and the calls of the sequential specification over the records' runs |
| `SequentialHandler.Execute` | src/library/lambda.rs:14-34 | with `send_to_sqs` and `add` as the per-record handling, the invocation is the sequential specification of the batch, and it never returns `Ok(Some(_))` |
| `SequentialHandler.ActionsArePrefix` | src/library/lambda.rs:16-31 | the calls made are a prefix, in input order, of the calls every record would make |
| `SequentialHandler.CompletesIff` | src/library/lambda.rs:20-33 | the invocation succeeds iff no record fails or panics, and then it has made every record's calls |
| `SequentialHandler.StopsAtFirst` | src/library/lambda.rs:24-26 | the first failing or panicking record decides the outcome, and the records after it make no calls |
| `SequentialHandler.MissingPriceAbortsBatch` | src/library/lambda.rs:20-31 | a create request without a price panics the whole invocation, and no later record runs |
| `SequentialHandler.StoreFailureAbortsBatch` | src/library/lambda.rs:20-25 | a lookup whose `get_item` fails ends the invocation with that store error after the failed get, and no later record runs |
| `FanoutHandler.Execute` | src/bin/lambda/handler.rs:42-69 | one task per record, each running that record on its own, and the batch result is `Ok(())` whatever the tasks did |
| `FanoutHandler.RecordsAreIsolated` | src/bin/lambda/handler.rs:46-63 | replacing one record, even by a malformed one, leaves every other record's run unchanged; this holds by construction, since services are indexed by position, and says nothing about the shared store |
| `FanoutHandler.AbsentLookupAndCreate` | src/bin/lambda/handler.rs:49-59 | a lookup of an absent key still sends the serialisation of `None`, and a create puts an item that decodes to the fresh id, the name and the price |
| `FanoutHandler.MissingPriceIsContained` | src/bin/lambda/handler.rs:92-97 | a create request without a price panics inside its own task with no call, and every other record's run is its own; the batch still returns `Ok(())` by `FanoutHandler.Execute` |

## Left out

- Concurrency (`tokio::spawn`, `Arc`, `join_all`): each task is modelled as
  its record's run on its own. How tasks interleave is not modelled, and
  neither is the order of their calls across records.
- Store state shared between records: a put by one record and a get by
  another are not connected. Each record sees whatever the service
  responses at its position say.
- Floating point: `Price` is an abstract type. `format!("{:}")` and
  `parse::<f64>` are the parameters `PriceText.format` and
  `PriceText.parse`. That the two round-trip for every non-NaN value is
  assumed where it is used (`RoundTrips`), not proved.
- JSON: `serde_json::from_str::<Request>` and
  `serde_json::to_string(&Option<Product>)` are the parameters
  `parseRequest` and `serialize`.
- UUIDs: `Uuid::new_v4` is the oracle `uuid`. That ids are non-empty and
  distinct is not modelled, and the code never checks it.
- Environment variables are a given map. Reading them has no other effect.
- Logging (`log::info!`, `log::error!`) is left out. It has no effect on
  the model.
- The AWS SDK, its error types, and the crate's `error` module are not
  part of this model. Errors are the small `Errors.Error` datatype, and the
  conversions done by `?` are not modelled.
- `src/queries/add_product_query.rs` is not modelled as its own module.
  Its `TABLE_NAME` read and its `put_item` of `to_dynamodb` appear inline
  in `Routing.Add` as one `Put` action.
- `src/aws/client.rs`, `src/main.rs` and the `main` of
  `src/bin/lambda/handler.rs` are client construction and runtime
  bootstrap. They are not part of this model.
- What the Lambda runtime does with a returned error or a panic
  (redelivering the batch) is outside the code and is not modelled.
