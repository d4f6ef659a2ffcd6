/** The cache store (server/db.ts): four tables kept in the database, each
    modelled as a map from primary key to row.

    - `sale_store_config`: one settings row, id 1;
    - `sale_product_costs`: product id to manual cost, owned by the operator;
    - `sale_products_cache`, `sale_orders_cache`: mirrors of the remote store.

    Every row written to a mirror table carries `last_sync`, the time of the
    write; the model takes that time as the parameter `now`. */
module Db {
  import opened Wrappers
  import opened Types
  import opened JsString

  /** A row of `sale_products_cache`. */
  datatype ProductRow = ProductRow(
    id: int,
    name: string,
    price: real,
    regularPrice: string,
    salePrice: string,
    images: seq<string>,
    permalink: string,
    lastSync: int)

  /** A row of `sale_orders_cache`. `lineItems` is None for a NULL column. */
  datatype OrderRow = OrderRow(
    id: int,
    number: string,
    status: string,
    dateCreated: Option<string>,
    total: Option<real>,
    customerName: string,
    customerEmail: string,
    customerPhone: string,
    lineItems: Option<seq<LineItem>>,
    lastSync: int)

  /** The body `saveStoreConfig` receives; every field may be missing. */
  datatype ConfigInput = ConfigInput(
    url: Option<string>,
    consumerKey: Option<string>,
    consumerSecret: Option<string>,
    taxRate: Option<real>,
    gatewayFee: Option<real>,
    fixedFee: Option<real>)

  /** The id of the one settings row. */
  const ConfigId := 1

  /** The settings row `saveStoreConfig` writes. Because `""` and `0` are the
      falsy values of their types, `x || ""` and `x || 0` simply replace a
      missing field by its default. */
  function ConfigRow(input: ConfigInput): (c: StoreConfig)
    ensures c.url == input.url.GetOr("")
    ensures c.consumerKey == input.consumerKey.GetOr("")
    ensures c.consumerSecret == input.consumerSecret.GetOr("")
    ensures c.taxRate == input.taxRate.GetOr(0.0)
    ensures c.gatewayFee == input.gatewayFee.GetOr(0.0)
    ensures c.fixedFee == input.fixedFee.GetOr(0.0)
  {
    StoreConfig(
      OrText(input.url, ""), OrText(input.consumerKey, ""), OrText(input.consumerSecret, ""),
      OrNumber(input.taxRate, 0.0), OrNumber(input.gatewayFee, 0.0), OrNumber(input.fixedFee, 0.0))
  }

  /** `Number(productId)` as a primary key: an integral number, a string in
      integer notation, or a boolean (1 or 0). Anything else is NaN or a
      fraction, which the database rejects (None). */
  function ProductKey(v: Value): Option<int> {
    match v
    case Num(n) => if n == n.Floor as real then Some(n.Floor) else None
    case Text(s) => NumberOfText(s)
    case Bool(b) => Some(if b then 1 else 0)
  }

  /** The decimal text of an integer, as a template string writes it. */
  function IntString(i: int): string {
    if i < 0 then "-" + DecimalString(-i) else DecimalString(i)
  }

  /** An id written into a URL path reads back as the same key. */
  lemma ProductKeyOfPath(id: int)
    ensures ProductKey(Text(IntString(id))) == Some(id)
  {
    var n: nat := if id < 0 then -id else id;
    NumberOfDecimal(n);
    var d := DecimalString(n);
    if id < 0 {
      assert IntString(id) == "-" + d;
    } else {
      assert IntString(id) == d;
    }
  }

  /** A batch upsert: the rows are written in order, so for a key that
      occurs several times the last row wins. */
  function Upsert<R>(table: map<int, R>, rows: seq<R>, key: R -> int): map<int, R> {
    if rows == [] then table
    else Upsert(table, rows[..|rows| - 1], key)[key(rows[|rows| - 1]) := rows[|rows| - 1]]
  }

  /** The index of the last row with key `k`, or -1. */
  function LastWithKey<R>(rows: seq<R>, key: R -> int, k: int): (j: int)
    ensures -1 <= j < |rows|
    ensures 0 <= j ==> key(rows[j]) == k
    ensures forall i :: j < i < |rows| ==> key(rows[i]) != k
  {
    if rows == [] then -1
    else if key(rows[|rows| - 1]) == k then |rows| - 1
    else LastWithKey(rows[..|rows| - 1], key, k)
  }

  /** After an upsert a key holds its last written row; a key no row
      mentions keeps what it had, or stays absent. */
  lemma {:induction false} UpsertLookup<R>(table: map<int, R>, rows: seq<R>, key: R -> int, k: int)
    ensures var u, j := Upsert(table, rows, key), LastWithKey(rows, key, k);
      if 0 <= j then k in u && u[k] == rows[j]
      else (k in u <==> k in table) && (k in table ==> u[k] == table[k])
  {
    if rows != [] {
      UpsertLookup(table, rows[..|rows| - 1], key, k);
    }
  }

  /** Upserting the same batch of rows again changes nothing. */
  lemma UpsertIdempotent<R>(table: map<int, R>, rows: seq<R>, key: R -> int)
    ensures Upsert(Upsert(table, rows, key), rows, key) == Upsert(table, rows, key)
  {
    var once := Upsert(table, rows, key);
    var twice := Upsert(once, rows, key);
    forall k ensures (k in twice <==> k in once) && (k in once ==> twice[k] == once[k]) {
      UpsertLookup(table, rows, key, k);
      UpsertLookup(once, rows, key, k);
    }
  }

  /** Two batches that list the same keys in the same order name each key
      last at the same position. */
  lemma {:induction false} LastWithKeySameKeys<R>(a: seq<R>, b: seq<R>, key: R -> int, k: int)
    requires |a| == |b| && forall i :: 0 <= i < |a| ==> key(a[i]) == key(b[i])
    ensures LastWithKey(a, key, k) == LastWithKey(b, key, k)
  {
    if a != [] {
      LastWithKeySameKeys(a[..|a| - 1], b[..|b| - 1], key, k);
    }
  }

  /** Upserting a second batch with the same keys, in the same order, over
      the first: every key the first batch wrote now holds the second
      batch's row at the same position; every other key is as before. */
  lemma UpsertOverSameKeys<R>(table: map<int, R>, a: seq<R>, b: seq<R>, key: R -> int, k: int)
    requires |a| == |b| && forall i :: 0 <= i < |a| ==> key(a[i]) == key(b[i])
    ensures var once := Upsert(table, a, key);
      var twice := Upsert(once, b, key);
      var j := LastWithKey(a, key, k);
      && (k in twice <==> k in once)
      && (0 <= j ==> k in once && once[k] == a[j] && twice[k] == b[j])
      && (j < 0 && k in once ==> twice[k] == once[k])
  {
    LastWithKeySameKeys(a, b, key, k);
    UpsertLookup(table, a, key, k);
    UpsertLookup(Upsert(table, a, key), b, key, k);
  }

  function ProductRowKey(r: ProductRow): int { r.id }
  function OrderRowKey(r: OrderRow): int { r.id }

  /** The mirror row of one WooCommerce product; missing images become []. */
  function ProductRowOf(p: RemoteProduct, now: int): ProductRow {
    ProductRow(p.id, p.name, p.price, p.regularPrice, p.salePrice, p.images.GetOr([]), p.permalink, now)
  }

  datatype BillingField = FirstName | LastName | Email | Phone

  /** `order.billing?.<field> || ""`. */
  function BillingPart(b: Option<Billing>, field: BillingField): string {
    if b.None? then ""
    else
      var v := match field
        case FirstName => b.value.firstName
        case LastName => b.value.lastName
        case Email => b.value.email
        case Phone => b.value.phone;
      OrText(v, "")
  }

  /** The customer name the mirror stores: first and last name joined by a
      space, then trimmed. */
  function CustomerName(b: Option<Billing>): string {
    Trim(BillingPart(b, FirstName) + " " + BillingPart(b, LastName))
  }

  /** `includes("T")` with a one-letter text is membership of that letter. */
  lemma IncludesLetter(s: string, c: char)
    ensures Includes(s, [c]) <==> c in s
  {
    IncludesIff(s, [c]);
    if c in s {
      var i :| 0 <= i < |s| && s[i] == c;
      assert OccursAt(s, [c], i);
    }
    if Includes(s, [c]) {
      var i :| OccursAt(s, [c], i);
      assert s[i] == s[i..i + 1][0];
    }
  }

  /** The stored `date_created`: its first 'T' becomes a space. */
  function StoredDate(d: Option<string>): (r: Option<string>)
    ensures r.None? <==> d.None?
    ensures d.Some? ==> |r.value| == |d.value|
    ensures d.Some? ==> forall i :: 0 <= i < |d.value| ==>
      r.value[i] == if i == IndexOf(d.value, 'T') then ' ' else d.value[i]
  {
    if d.None? then d
    else
      IncludesLetter(d.value, 'T');
      if Includes(d.value, "T") then Some(ReplaceFirst(d.value, 'T', ' ')) else d
  }

  /** The mirror row of one WooCommerce order. */
  function OrderRowOf(o: RemoteOrder, now: int): (r: OrderRow)
    ensures r.id == o.id && r.number == o.number && r.status == o.status && r.total == o.total
    ensures r.dateCreated == StoredDate(o.dateCreated) && r.customerName == CustomerName(o.billing)
    ensures r.customerEmail == BillingPart(o.billing, Email)
    ensures r.customerPhone == BillingPart(o.billing, Phone)
    ensures r.lineItems == Some(o.lineItems.GetOr([]))
    ensures r.lastSync == now
  {
    var phone := BillingPart(o.billing, Phone);
    OrderRow(o.id, o.number, o.status, StoredDate(o.dateCreated), o.total, CustomerName(o.billing),
             BillingPart(o.billing, Email), phone, Some(o.lineItems.GetOr([])), now)
  }

  /** The customer name drops the separating space when a part is missing
      and joins both parts with one space otherwise. */
  lemma CustomerNameParts(b: Option<Billing>, first: string, last: string)
    requires first == [] || (!IsWhitespace(first[0]) && !IsWhitespace(first[|first| - 1]))
    requires last == [] || (!IsWhitespace(last[0]) && !IsWhitespace(last[|last| - 1]))
    requires BillingPart(b, FirstName) == first && BillingPart(b, LastName) == last
    ensures first == [] && last == [] ==> CustomerName(b) == ""
    ensures first != [] && last == [] ==> CustomerName(b) == first
    ensures first == [] && last != [] ==> CustomerName(b) == last
    ensures first != [] && last != [] ==> CustomerName(b) == first + " " + last
  {
    var joined := first + " " + last;
    if first == [] && last == [] {
      assert TrimStart(joined) == "";
    } else if first != [] && last == [] {
      assert TrimStart(joined) == joined;
      assert joined[..|joined| - 1] == first;
      assert TrimEnd(joined) == TrimEnd(first);
      TrimOfTrimmed(first);
    } else if first == [] && last != [] {
      assert joined[1..] == last;
      assert TrimStart(joined) == TrimStart(last);
      TrimOfTrimmed(last);
    } else {
      TrimOfTrimmed(joined);
    }
  }

  /** `costMap.get(id) || 0`: the recorded cost, or 0 when there is none. */
  function CostOf(costs: map<int, real>, id: int): real {
    if id in costs then costs[id] else 0.0
  }

  /** The product `getCachedProducts` returns for one mirror row. */
  function WithRecordedCost(row: ProductRow, costs: map<int, real>): Product {
    Product(row.id, row.name, row.price, row.regularPrice, row.salePrice,
            CostOf(costs, row.id), row.images, row.permalink)
  }

  /** The cost overlay of `getCachedProducts`: one product per row, in the
      same order, each with its recorded cost (0 if none) and its other
      fields as in the row. */
  function OverlayCosts(rows: seq<ProductRow>, costs: map<int, real>): (r: seq<Product>)
    ensures |r| == |rows|
    ensures forall i :: 0 <= i < |rows| ==>
      && r[i].cost == (if rows[i].id in costs then costs[rows[i].id] else 0.0)
      && r[i].id == rows[i].id && r[i].name == rows[i].name && r[i].price == rows[i].price
      && r[i].regularPrice == rows[i].regularPrice && r[i].salePrice == rows[i].salePrice
      && r[i].images == rows[i].images && r[i].permalink == rows[i].permalink
  {
    seq(|rows|, i requires 0 <= i < |rows| => WithRecordedCost(rows[i], costs))
  }

  /** `scan` lists every key of `keys` exactly once: the order in which the
      database hands back the rows of a table, which the program does not fix. */
  predicate IsEnumeration(scan: seq<int>, keys: set<int>) {
    && (forall i :: 0 <= i < |scan| ==> scan[i] in keys)
    && (forall k :: k in keys ==> k in scan)
    && (forall i, j :: 0 <= i < j < |scan| ==> scan[i] != scan[j])
  }

  /** `r` is the newest `last_sync` of the table, or None when it is empty
      (the single-row query then fails with "no rows" and yields null). */
  predicate IsLatest<R>(r: Option<int>, table: map<int, R>, stamp: R -> int) {
    && (r.None? <==> table == map[])
    && (r.Some? ==> exists k :: k in table && stamp(table[k]) == r.value)
    && (r.Some? ==> forall k :: k in table ==> stamp(table[k]) <= r.value)
  }

  /** The largest of a list of stamps, or None for an empty list. */
  function MaxStamp(s: seq<int>): (r: Option<int>)
    ensures r.None? <==> s == []
    ensures r.Some? ==> r.value in s
    ensures r.Some? ==> forall i :: 0 <= i < |s| ==> s[i] <= r.value
  {
    if s == [] then None
    else
      var m := MaxStamp(s[..|s| - 1]);
      if m.None? || m.value < s[|s| - 1] then Some(s[|s| - 1]) else m
  }

  /** The stamps of a table's rows, in the order `scan` lists their keys. */
  function StampsOf<R>(table: map<int, R>, scan: seq<int>, stamp: R -> int): (s: seq<int>)
    requires forall i :: 0 <= i < |scan| ==> scan[i] in table
    ensures |s| == |scan|
  {
    seq(|scan|, i requires 0 <= i < |scan| => stamp(table[scan[i]]))
  }

  /** Whatever order the database reads the rows in, the largest stamp it
      finds is the newest `last_sync` of the table. */
  lemma MaxStampIsLatest<R>(table: map<int, R>, scan: seq<int>, stamp: R -> int)
    requires IsEnumeration(scan, table.Keys)
    ensures IsLatest(MaxStamp(StampsOf(table, scan, stamp)), table, stamp)
  {
    var s := StampsOf(table, scan, stamp);
    var r := MaxStamp(s);
    if r.Some? {
      var i :| 0 <= i < |s| && s[i] == r.value;
      assert scan[i] in table && stamp(table[scan[i]]) == r.value;
      forall k | k in table ensures stamp(table[k]) <= r.value {
        var j :| 0 <= j < |scan| && scan[j] == k;
        assert s[j] == stamp(table[k]);
      }
    } else {
      assert scan == [];
      assert forall k :: k !in table.Keys;
      assert table.Keys == {};
    }
  }

  /** The newest stamp is unique. */
  lemma LatestUnique<R>(a: Option<int>, b: Option<int>, table: map<int, R>, stamp: R -> int)
    requires IsLatest(a, table, stamp) && IsLatest(b, table, stamp)
    ensures a == b
  {
    if a.Some? {
      var ka :| ka in table && stamp(table[ka]) == a.value;
      var kb :| kb in table && stamp(table[kb]) == b.value;
      assert a.value <= b.value && b.value <= a.value;
    }
  }

  /** `ORDER BY last_sync DESC LIMIT 1`: scans the rows in the order the
      database reads them and keeps the newest stamp seen. */
  method Latest<R>(table: map<int, R>, scan: seq<int>, stamp: R -> int) returns (r: Option<int>)
    requires IsEnumeration(scan, table.Keys)
    ensures r == MaxStamp(StampsOf(table, scan, stamp))
    ensures IsLatest(r, table, stamp)
  {
    r := ScanNewest(table, scan, stamp);
    MaxStampIsLatest(table, scan, stamp);
  }

  /** The scan itself: the newest stamp among the rows `scan` visits. */
  method ScanNewest<R>(table: map<int, R>, scan: seq<int>, stamp: R -> int) returns (r: Option<int>)
    requires forall i :: 0 <= i < |scan| ==> scan[i] in table
    ensures r == MaxStamp(StampsOf(table, scan, stamp))
  {
    ghost var s := StampsOf(table, scan, stamp);
    r := None;
    var i := 0;
    while i < |scan|
      invariant 0 <= i <= |scan|
      invariant r == MaxStamp(s[..i])
    {
      var t := stamp(table[scan[i]]);
      assert t == s[i];
      assert s[..i + 1][..i] == s[..i];
      if r.None? || r.value < t {
        r := Some(t);
      }
      i := i + 1;
    }
    assert s[..i] == s;
  }

  class CacheStore {
    var config: map<int, StoreConfig>
    var costs: map<int, real>
    var products: map<int, ProductRow>
    var orders: map<int, OrderRow>

    constructor()
      ensures config == map[] && costs == map[] && products == map[] && orders == map[]
    {
      config, costs, products, orders := map[], map[], map[], map[];
    }

    /** `getStoreConfig`: the settings row, or null when none was saved or
        when the read fails (`failed`); the error is only logged. */
    function StoreConfigRow(failed: bool): (r: Option<StoreConfig>)
      reads this
      ensures failed ==> r == None
      ensures !failed ==> (r.Some? <==> ConfigId in config) && (r.Some? ==> r.value == config[ConfigId])
    {
      if !failed && ConfigId in config then Some(config[ConfigId]) else None
    }

    /** `saveStoreConfig`: (re)writes row 1 with defaults filled in. A
        failed write (`failed`) changes nothing and throws, reported as
        `ok == false`. */
    method SaveStoreConfig(input: ConfigInput, failed: bool) returns (ok: bool)
      modifies this
      ensures ok == !failed
      ensures !failed ==> config == old(config)[ConfigId := ConfigRow(input)]
      ensures !failed ==> StoreConfigRow(false) == Some(ConfigRow(input))
      ensures failed ==> config == old(config)
      ensures costs == old(costs) && products == old(products) && orders == old(orders)
    {
      if failed {
        return false;
      }
      config := config[ConfigId := ConfigRow(input)];
      ok := true;
    }

    /** `updateProductCost`: upserts (Number(productId), cost). A key that is
        not a number is rejected by the database and nothing changes. */
    method UpdateProductCost(productId: Value, cost: real)
      modifies this
      ensures ProductKey(productId).Some? ==> costs == old(costs)[ProductKey(productId).value := cost]
      ensures ProductKey(productId).None? ==> costs == old(costs)
      ensures config == old(config) && products == old(products) && orders == old(orders)
    {
      var key := ProductKey(productId);
      if key.Some? {
        costs := costs[key.value := cost];
      }
    }

    /** `upsertProductsCache`: an empty batch writes nothing; otherwise every
        product's mirror row is written, stamped `now`. */
    method UpsertProductsCache(items: seq<RemoteProduct>, now: int)
      modifies this
      ensures items == [] ==> products == old(products)
      ensures products == Upsert(old(products), ProductRows(items, now), ProductRowKey)
      ensures config == old(config) && costs == old(costs) && orders == old(orders)
    {
      if items == [] {
        return;
      }
      products := Upsert(products, ProductRows(items, now), ProductRowKey);
    }

    /** `upsertOrdersCache`: an empty batch writes nothing; otherwise every
        order's mirror row is written, stamped `now`. */
    method UpsertOrdersCache(items: seq<RemoteOrder>, now: int)
      modifies this
      ensures items == [] ==> orders == old(orders)
      ensures orders == Upsert(old(orders), OrderRows(items, now), OrderRowKey)
      ensures config == old(config) && costs == old(costs) && products == old(products)
    {
      if items == [] {
        return;
      }
      orders := Upsert(orders, OrderRows(items, now), OrderRowKey);
    }

    /** `getCachedProducts`: the mirror rows in the order the database
        returns them (`scan`), each with its cost; if reading either table
        fails the result is empty. */
    method GetCachedProducts(scan: seq<int>, productsFailed: bool, costsFailed: bool)
      returns (r: seq<Product>)
      requires IsEnumeration(scan, products.Keys)
      ensures productsFailed || costsFailed ==> r == []
      ensures !productsFailed && !costsFailed ==> r == OverlayCosts(RowsOf(products, scan), costs)
    {
      if productsFailed || costsFailed {
        return [];
      }
      r := OverlayCosts(RowsOf(products, scan), costs);
    }

    /** `clearCache`: deletes every mirror row whose id is not 0; the cost
        table and the settings are left alone. */
    method ClearCache()
      modifies this
      ensures products == map k | k in old(products) && k == 0 :: old(products)[k]
      ensures orders == map k | k in old(orders) && k == 0 :: old(orders)[k]
      ensures costs == old(costs) && config == old(config)
    {
      products := map k | k in products && k == 0 :: products[k];
      orders := map k | k in orders && k == 0 :: orders[k];
    }

    /** `getLastProductSyncDate`: the newest `last_sync` of the product
        mirror, or null when it is empty or the read fails (`failed`). */
    method LastProductSyncDate(scan: seq<int>, failed: bool) returns (r: Option<int>)
      requires IsEnumeration(scan, products.Keys)
      ensures failed ==> r == None
      ensures !failed ==> r == MaxStamp(StampsOf(products, scan, ProductStamp))
      ensures !failed ==> IsLatest(r, products, ProductStamp)
    {
      if failed {
        return None;
      }
      r := Latest(products, scan, ProductStamp);
    }

    /** `getLastOrderSyncDate`: the newest `last_sync` of the order mirror,
        or null when it is empty or the read fails (`failed`). */
    method LastOrderSyncDate(scan: seq<int>, failed: bool) returns (r: Option<int>)
      requires IsEnumeration(scan, orders.Keys)
      ensures failed ==> r == None
      ensures !failed ==> r == MaxStamp(StampsOf(orders, scan, OrderStamp))
      ensures !failed ==> IsLatest(r, orders, OrderStamp)
    {
      if failed {
        return None;
      }
      r := Latest(orders, scan, OrderStamp);
    }
  }

  function ProductStamp(r: ProductRow): int { r.lastSync }
  function OrderStamp(r: OrderRow): int { r.lastSync }

  function ProductRows(items: seq<RemoteProduct>, now: int): seq<ProductRow> {
    seq(|items|, i requires 0 <= i < |items| => ProductRowOf(items[i], now))
  }

  function OrderRows(items: seq<RemoteOrder>, now: int): seq<OrderRow> {
    seq(|items|, i requires 0 <= i < |items| => OrderRowOf(items[i], now))
  }

  /** Syncing unchanged remote products a second time, at a later `now`,
      leaves the same keys and the same rows apart from their `last_sync`. */
  lemma ResyncProductsSameData(table: map<int, ProductRow>, items: seq<RemoteProduct>, first: int, second: int)
    ensures var once := Upsert(table, ProductRows(items, first), ProductRowKey);
      var twice := Upsert(once, ProductRows(items, second), ProductRowKey);
      && twice.Keys == once.Keys
      && forall k :: k in once ==> twice[k].(lastSync := once[k].lastSync) == once[k]
  {
    var a, b := ProductRows(items, first), ProductRows(items, second);
    var once := Upsert(table, a, ProductRowKey);
    var twice := Upsert(once, b, ProductRowKey);
    forall k ensures (k in twice <==> k in once) && (k in once ==> twice[k].(lastSync := once[k].lastSync) == once[k]) {
      UpsertOverSameKeys(table, a, b, ProductRowKey, k);
    }
  }

  /** Syncing unchanged remote orders a second time, at a later `now`,
      leaves the same keys and the same rows apart from their `last_sync`. */
  lemma ResyncOrdersSameData(table: map<int, OrderRow>, items: seq<RemoteOrder>, first: int, second: int)
    ensures var once := Upsert(table, OrderRows(items, first), OrderRowKey);
      var twice := Upsert(once, OrderRows(items, second), OrderRowKey);
      && twice.Keys == once.Keys
      && forall k :: k in once ==> twice[k].(lastSync := once[k].lastSync) == once[k]
  {
    var a, b := OrderRows(items, first), OrderRows(items, second);
    var once := Upsert(table, a, OrderRowKey);
    var twice := Upsert(once, b, OrderRowKey);
    forall k ensures (k in twice <==> k in once) && (k in once ==> twice[k].(lastSync := once[k].lastSync) == once[k]) {
      UpsertOverSameKeys(table, a, b, OrderRowKey, k);
    }
  }

  /** The rows of a table in the order `scan` lists their keys. */
  function RowsOf<R>(table: map<int, R>, scan: seq<int>): seq<R>
    requires forall i :: 0 <= i < |scan| ==> scan[i] in table
  {
    seq(|scan|, i requires 0 <= i < |scan| => table[scan[i]])
  }
}
