/** Errors that `?` propagates, and panics that unwind instead. */
module Errors {
  import opened Dynamo

  /** A recoverable error. `Internal` is the crate's own error with its
      message; `WrongType` is what `as_s`/`as_n` give back (the attribute
      value that was not of the asked kind); `Store` and `Queue` are the
      SDK failures of DynamoDB and SQS, carrying the service's reason. */
  datatype Error =
    | Internal(message: string)
    | WrongType(found: AttributeValue)
    | Store(reason: string)
    | Queue(reason: string)

  /** Where an `unwrap` or `expect` panicked. */
  datatype PanicSite =
    | BadJson          // the record body is not a JSON request
    | MissingName      // a create request has no name
    | MissingPrice     // a create request has no price
    | BadPrice         // a stored `N` text is not a float
    | NoTableName      // TABLE_NAME is unset
    | NoOutputQueue    // OUTPUT_SQS is unset

  /** The three ways a Rust call can end: a value, an `Err` propagated by
      `?`, or a panic. */
  datatype Outcome<+T> = Ok(value: T) | Err(error: Error) | Panic(site: PanicSite)

  /** The message `get_key` builds for an absent attribute: Missing '<key>'. */
  function MissingMessage(key: string): string
  {
    "Missing '" + key + "'"
  }
}
