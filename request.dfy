/** The decoded shape of an inbound message body. */
module Dtos {
  import opened Wrappers
  import opened Products

  datatype Request = Request(pk: Option<string>, name: Option<string>, price: Option<Price>)
}
