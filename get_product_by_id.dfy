/** Fetching one product by its key (src/queries/get_product_by_id_query.rs). */
module GetProductById {
  import opened Wrappers
  import opened Dynamo
  import opened Errors
  import opened Products

  /** The store's `get_item`: from a table name and a key item to the item
      held under that key (`None` when there is none), or the SDK's failure
      reason. */
  type Store = (string, Item) -> Result<Option<Item>, string>

  const TableNameVar: string := "TABLE_NAME"

  /** The query object; its table name is fixed when it is built. */
  datatype GetById = GetById(tableName: string)

  /** `new`: read `TABLE_NAME` from the environment, panicking when it is unset. */
  function New(vars: map<string, string>): (r: Outcome<GetById>)
    ensures r.Ok? <==> TableNameVar in vars
    ensures r.Ok? ==> r.value.tableName == vars[TableNameVar]
    ensures !r.Ok? ==> r == Panic(NoTableName)
  {
    if TableNameVar in vars then Ok(GetById(vars[TableNameVar])) else Panic(NoTableName)
  }

  /** The key `execute` asks for: the single attribute `pk`, a string. */
  function KeyOf(pk: string): (key: Item)
    ensures key.Keys == {"pk"}
    ensures key["pk"] == AttributeValue.S(pk)
  {
    map["pk" := AttributeValue.S(pk)]
  }

  /** `execute`: one `get_item` on the configured table, then no product for
      no item, or the decoded item, its decode error or its panic. */
  function Execute(q: GetById, store: Store, pk: string, text: PriceText): (r: Outcome<Option<Product>>)
    ensures var res := store(q.tableName, KeyOf(pk));
            && (res.Failure? ==> r == Err(Store(res.error)))
            && (r == Ok(None) <==> res == Success(None))
            && (r.Ok? && r.value.Some? ==>
                  res.Success? && res.value.Some? && FromDynamoDb(res.value.value, text) == Ok(r.value.value))
            && (res.Success? && res.value.Some? && !Decodable(res.value.value, text) ==> !r.Ok?)
    ensures var res := store(q.tableName, KeyOf(pk));
            res.Success? && res.value.Some? ==>
              var d := FromDynamoDb(res.value.value, text);
              && (d.Ok? ==> r == Ok(Some(d.value)))
              && (d.Err? ==> r == Err(d.error))
              && (d.Panic? ==> r == Panic(d.site))
  {
    match store(q.tableName, KeyOf(pk))
    case Failure(reason) => Err(Store(reason))
    case Success(None) => Ok(None)
    case Success(Some(item)) =>
      match FromDynamoDb(item, text)
      case Ok(product) => Ok(Some(product))
      case Err(e) => Err(e)
      case Panic(site) => Panic(site)
  }

  /** A store failure is reported before anything is decoded: the price
      conversions play no part in it. */
  lemma StoreFailureSkipsDecoding(q: GetById, store: Store, pk: string, text1: PriceText, text2: PriceText)
    requires store(q.tableName, KeyOf(pk)).Failure?
    ensures Execute(q, store, pk, text1) == Execute(q, store, pk, text2)
    ensures Execute(q, store, pk, text1).Err?
  {
  }

  /** A malformed stored item: the decode error (or panic) is passed on as it
      is, and no product is returned. */
  lemma MalformedItemPropagates(q: GetById, store: Store, pk: string, text: PriceText, item: Item)
    requires store(q.tableName, KeyOf(pk)) == Success(Some(item))
    requires !FromDynamoDb(item, text).Ok?
    ensures var d := FromDynamoDb(item, text);
            && (d.Err? ==> Execute(q, store, pk, text) == Err(d.error))
            && (d.Panic? ==> Execute(q, store, pk, text) == Panic(d.site))
  {
  }

  /** A product stored by `to_dynamodb` under its own key is found again:
      `execute` inverts the put. */
  lemma FindsStoredProduct(q: GetById, store: Store, p: Product, text: PriceText)
    requires store(q.tableName, KeyOf(p.pk)) == Success(Some(Encoded(p, text)))
    requires RoundTrips(text, p.price)
    ensures Execute(q, store, p.pk, text) == Ok(Some(p))
  {
    RoundTripExact(p, text);
  }
}
