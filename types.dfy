/** The records the back office passes between the WooCommerce client, the
    cache store, the server endpoints and the browser state.

    Prices, costs and percentages are `real`. Where the program keeps a
    number as text and runs `parseFloat` on it (`total`, `price`), the model
    holds the parsed number; `parseFloat` itself is not modelled. */
module Types {
  import opened Wrappers

  /** A scalar value as it arrives in a JSON body or a spreadsheet cell. */
  datatype Value = Num(n: real) | Text(s: string) | Bool(b: bool)

  /** JavaScript truthiness of a value that may be `undefined`. */
  predicate Truthy(v: Option<Value>) {
    match v
    case None => false
    case Some(Num(n)) => n != 0.0
    case Some(Text(s)) => s != ""
    case Some(Bool(b)) => b
  }

  /** `a || b` on values that may be `undefined`. */
  function Or(a: Option<Value>, b: Option<Value>): Option<Value> {
    if Truthy(a) then a else b
  }

  /** `s || fallback` on a string that may be `undefined` or `null`. */
  function OrText(s: Option<string>, fallback: string): string {
    if s.Some? && s.value != "" then s.value else fallback
  }

  /** `x || fallback` on a number that may be `undefined` or `null`. */
  function OrNumber(x: Option<real>, fallback: real): real {
    if x.Some? && x.value != 0.0 then x.value else fallback
  }

  /** The store settings row. */
  datatype StoreConfig = StoreConfig(
    url: string,
    consumerKey: string,
    consumerSecret: string,
    taxRate: real,     // percent of the order total
    gatewayFee: real,  // percent of the order total
    fixedFee: real)    // per order

  /** A product as the browser holds it: the cached row plus its manual cost. */
  datatype Product = Product(
    id: int,
    name: string,
    price: real,
    regularPrice: string,
    salePrice: string,
    cost: real,
    images: seq<string>,
    permalink: string)

  /** One order line: which product, how many. */
  datatype LineItem = LineItem(productId: int, quantity: int)

  /** An order with its derived figures, as `/api/orders` emits it. The fee
      field is `gatewayFees`, the name the server writes. */
  datatype Order = Order(
    id: int,
    number: string,
    status: string,
    dateCreated: Option<string>,
    total: real,
    customerName: string,
    customerEmail: string,
    customerPhone: string,
    totalCost: real,
    taxes: real,
    gatewayFees: real,
    profit: real,
    itemsCount: nat)

  /** A product as the WooCommerce REST API returns it. */
  datatype RemoteProduct = RemoteProduct(
    id: int,
    name: string,
    price: real,
    regularPrice: string,
    salePrice: string,
    images: Option<seq<string>>,
    permalink: string)

  /** The billing contact of a WooCommerce order; any part may be missing. */
  datatype Billing = Billing(
    firstName: Option<string>,
    lastName: Option<string>,
    email: Option<string>,
    phone: Option<string>)

  /** An order as the WooCommerce REST API returns it. */
  datatype RemoteOrder = RemoteOrder(
    id: int,
    number: string,
    status: string,
    dateCreated: Option<string>,
    total: Option<real>,
    billing: Option<Billing>,
    lineItems: Option<seq<LineItem>>)
}
