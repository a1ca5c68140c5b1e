/** The part of the DynamoDB data model that the product codec touches. */
module Dynamo {

  /** An attribute value of a DynamoDB item. `S` holds a string, `N` holds a
      number in its textual form; the remaining kinds are never produced by
      this system and only matter as "not the expected kind". */
  datatype AttributeValue =
    | S(s: string)
    | N(n: string)
    | Bool(b: bool)
    | Null
    | Other(kind: string)

  /** An item: attribute name to attribute value. */
  type Item = map<string, AttributeValue>
}
