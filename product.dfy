/** The `Product` entity and its codec to and from a DynamoDB item
    (src/models/product.rs). */
module Products {
  import opened Wrappers
  import opened Dynamo
  import opened Errors

  /** An `f64`. Its bits are never inspected here. */
  type Price(==)

  /** The two float conversions the codec relies on: the `Display` text of a
      price (`format!("{:}", price)`) and `parse::<f64>` of a text. */
  datatype PriceText = PriceText(format: Price -> string, parse: string -> Option<Price>)

  /** The conversions give the price back from its text. Rust's `Display`
      for `f64` prints the shortest text that parses back to the same value,
      so this holds of every price except NaN. */
  predicate RoundTrips(text: PriceText, x: Price)
  {
    text.parse(text.format(x)) == Some(x)
  }

  datatype Product = Product(pk: string, name: string, price: Price)

  /** Which accessor `get_key` applies: `as_n` or `as_s`. */
  datatype ValueType = N | S

  /** The attribute names of a stored product. */
  const Fields: seq<string> := ["pk", "name", "price"]

  /** The kind each field must have, in the order `from_dynamodb` reads them. */
  function KindOf(field: string): ValueType
  {
    if field == "price" then ValueType.N else ValueType.S
  }

  predicate HasKind(v: AttributeValue, t: ValueType)
  {
    match t
    case N => v.N?
    case S => v.S?
  }

  /** The text inside an attribute value of the kind `t`. */
  function TextOf(v: AttributeValue, t: ValueType): string
    requires HasKind(v, t)
  {
    match t
    case N => v.n
    case S => v.s
  }

  /** The item `to_dynamodb` produces, as a value. */
  function Encoded(p: Product, text: PriceText): Item
  {
    map["pk" := AttributeValue.S(p.pk),
        "name" := AttributeValue.S(p.name),
        "price" := AttributeValue.N(text.format(p.price))]
  }

  /** `to_dynamodb`: three successive inserts into a fresh map. */
  method ToDynamoDb(p: Product, text: PriceText) returns (retval: Item)
    ensures retval.Keys == {"pk", "name", "price"}
    ensures retval["pk"] == AttributeValue.S(p.pk)
    ensures retval["name"] == AttributeValue.S(p.name)
    ensures retval["price"] == AttributeValue.N(text.format(p.price))
    ensures retval == Encoded(p, text)
  {
    retval := map[];
    retval := retval["pk" := AttributeValue.S(p.pk)];
    retval := retval["name" := AttributeValue.S(p.name)];
    retval := retval["price" := AttributeValue.N(text.format(p.price))];
  }

  /** `get_key`: the text of attribute `key` when it is present and of kind `t`. */
  function GetKey(key: string, t: ValueType, item: Item): (r: Result<string, Error>)
    ensures key !in item ==> r == Failure(Internal(MissingMessage(key)))
    ensures key in item ==> (r.Success? <==> HasKind(item[key], t))
    ensures r.Success? ==> key in item && HasKind(item[key], t) && r.value == TextOf(item[key], t)
    ensures key in item && r.Failure? ==> r.error == WrongType(item[key])
  {
    if key !in item then
      Failure(Internal(MissingMessage(key)))
    else
      var v := item[key];
      match t
      case N => if v.N? then Success(v.n) else Failure(WrongType(v))
      case S => if v.S? then Success(v.s) else Failure(WrongType(v))
  }

  /** Field `field` is present with the kind `from_dynamodb` asks of it. */
  predicate FieldFits(item: Item, field: string)
  {
    field in item && HasKind(item[field], KindOf(field))
  }

  /** An independent description of the items `from_dynamodb` accepts:
      `pk` and `name` strings, `price` a number whose text parses. */
  predicate Decodable(item: Item, text: PriceText)
  {
    && FieldFits(item, "pk")
    && FieldFits(item, "name")
    && FieldFits(item, "price")
    && text.parse(item["price"].n).Some?
  }

  /** `from_dynamodb`: read `pk`, `name`, then `price`, each with `?`, and
      `unwrap` the parse of the price text. */
  function FromDynamoDb(item: Item, text: PriceText): (r: Outcome<Product>)
    ensures r.Ok? <==> Decodable(item, text)
    ensures r.Ok? ==> && item["pk"] == AttributeValue.S(r.value.pk)
                      && item["name"] == AttributeValue.S(r.value.name)
                      && text.parse(item["price"].n) == Some(r.value.price)
    ensures r.Panic? <==> (FieldFits(item, "pk") && FieldFits(item, "name") && FieldFits(item, "price")
                           && text.parse(item["price"].n).None?)
    ensures r.Panic? ==> r.site == BadPrice
  {
    match GetKey("pk", ValueType.S, item)
    case Failure(e) => Err(e)
    case Success(pk) =>
      match GetKey("name", ValueType.S, item)
      case Failure(e) => Err(e)
      case Success(name) =>
        match GetKey("price", ValueType.N, item)
        case Failure(e) => Err(e)
        case Success(price) =>
          match text.parse(price)
          case None => Panic(BadPrice)
          case Some(v) => Ok(Product(pk, name, v))
  }

  /** The error `get_key` reports for a field that does not fit. */
  function FieldError(item: Item, field: string): Error
  {
    if field !in item then Internal(MissingMessage(field)) else WrongType(item[field])
  }

  /** Fields are checked in the order pk, name, price: the first one that
      does not fit decides the error, whatever the later fields hold. */
  lemma FirstBadFieldDecides(item: Item, text: PriceText, k: nat)
    requires k < |Fields|
    requires forall j :: 0 <= j < k ==> FieldFits(item, Fields[j])
    requires !FieldFits(item, Fields[k])
    ensures FromDynamoDb(item, text) == Err(FieldError(item, Fields[k]))
  {
    if k == 0 {
    } else if k == 1 {
      assert FieldFits(item, Fields[0]);
    } else {
      assert FieldFits(item, Fields[0]) && FieldFits(item, Fields[1]);
    }
  }

  /** Items a and b hold the same thing under `field`. */
  predicate AgreeOn(a: Item, b: Item, field: string)
  {
    (field in a <==> field in b) && (field in a ==> a[field] == b[field])
  }

  /** Decoding looks at `pk`, `name` and `price` only: attributes beyond them
      are ignored. */
  lemma DecodeIgnoresOtherKeys(a: Item, b: Item, text: PriceText)
    requires AgreeOn(a, b, "pk") && AgreeOn(a, b, "name") && AgreeOn(a, b, "price")
    ensures FromDynamoDb(a, text) == FromDynamoDb(b, text)
  {
    assert GetKey("pk", ValueType.S, a) == GetKey("pk", ValueType.S, b);
    assert GetKey("name", ValueType.S, a) == GetKey("name", ValueType.S, b);
    assert GetKey("price", ValueType.N, a) == GetKey("price", ValueType.N, b);
  }

  /** Round trip: decoding an encoded product gives back its `pk` and `name`
      and the price its text parses to; it panics only when that text does
      not parse. */
  lemma RoundTrip(p: Product, text: PriceText)
    ensures var r := FromDynamoDb(Encoded(p, text), text);
            match text.parse(text.format(p.price))
            case Some(v) => r == Ok(Product(p.pk, p.name, v))
            case None => r == Panic(BadPrice)
  {
    var item := Encoded(p, text);
    assert GetKey("pk", ValueType.S, item) == Success(p.pk);
    assert GetKey("name", ValueType.S, item) == Success(p.name);
    assert GetKey("price", ValueType.N, item) == Success(text.format(p.price));
  }

  /** Where the price text round-trips, decoding inverts encoding exactly. */
  lemma RoundTripExact(p: Product, text: PriceText)
    requires RoundTrips(text, p.price)
    ensures FromDynamoDb(Encoded(p, text), text) == Ok(p)
  {
    RoundTrip(p, text);
  }
}
