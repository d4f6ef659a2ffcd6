/** The HTTP endpoints of the back office (server/app.ts) that compute
    something: the order list with its cost, tax, fee and profit figures,
    the products page, the sync handler and the cost import.

    Each handler is a method over the `CacheStore`; request data arrive as
    parameters, and what the database returns in an unspecified order is
    an enumeration `scan` of the table's keys. */
module App {
  import opened Wrappers
  import opened Types
  import opened JsString
  import opened JsArray
  import opened Db
  import opened WooCommerce

  // ---------------------------------------------------------------------
  // GET /api/orders

  /** Σ quantity × recorded unit cost over the line items; a product with no
      recorded cost costs 0. */
  function LineCost(items: seq<LineItem>, costs: map<int, real>): real {
    if items == [] then 0.0
    else
      var last := items[|items| - 1];
      LineCost(items[..|items| - 1], costs) + CostOf(costs, last.productId) * last.quantity as real
  }

  /** The cost of two lists of lines is the sum of their costs. */
  lemma {:induction false} LineCostAppend(a: seq<LineItem>, b: seq<LineItem>, costs: map<int, real>)
    ensures LineCost(a + b, costs) == LineCost(a, costs) + LineCost(b, costs)
    decreases |b|
  {
    if b == [] {
      assert a + b == a;
    } else {
      assert (a + b)[..|a + b| - 1] == a + b[..|b| - 1];
      LineCostAppend(a, b[..|b| - 1], costs);
    }
  }

  /** Lines of products without a recorded cost add nothing. */
  lemma {:induction false} LineCostOfUnknown(items: seq<LineItem>, costs: map<int, real>)
    requires forall i :: 0 <= i < |items| ==> items[i].productId !in costs
    ensures LineCost(items, costs) == 0.0
  {
    if items != [] {
      LineCostOfUnknown(items[..|items| - 1], costs);
    }
  }

  /** With non-negative costs and quantities the order cost is non-negative,
      and raising recorded costs never lowers it. */
  lemma {:induction false} LineCostMonotone(items: seq<LineItem>, costs: map<int, real>, more: map<int, real>)
    requires forall i :: 0 <= i < |items| ==> items[i].quantity >= 0
    requires forall k :: k in costs ==> k in more && costs[k] <= more[k]
    requires forall k :: k in more ==> 0.0 <= more[k]
    ensures LineCost(items, costs) <= LineCost(items, more)
  {
    if items != [] {
      LineCostMonotone(items[..|items| - 1], costs, more);
      var last := items[|items| - 1];
      assert CostOf(costs, last.productId) <= CostOf(more, last.productId);
      assert CostOf(costs, last.productId) * last.quantity as real <= CostOf(more, last.productId) * last.quantity as real;
    }
  }

  /** `config?.tax_rate || 0` and its two siblings. */
  function TaxRate(config: Option<StoreConfig>): real {
    if config.None? then 0.0 else config.value.taxRate
  }

  function GatewayRate(config: Option<StoreConfig>): real {
    if config.None? then 0.0 else config.value.gatewayFee
  }

  function FixedFee(config: Option<StoreConfig>): real {
    if config.None? then 0.0 else config.value.fixedFee
  }

  /** `s || "N/A"` for a stored customer field. */
  function OrNA(s: string): (r: string)
    ensures r == (if s == "" then "N/A" else s)
    ensures r != ""
  {
    OrText(Some(s), "N/A")
  }

  /** The order `/api/orders` emits for one cached order row. */
  function OrderOf(row: OrderRow, config: Option<StoreConfig>, costs: map<int, real>): (o: Order)
    ensures o.id == row.id && o.number == row.number && o.status == row.status
    ensures o.dateCreated == row.dateCreated
    ensures o.total == row.total.GetOr(0.0)
    ensures o.customerName == OrNA(row.customerName)
    ensures o.customerEmail == OrNA(row.customerEmail)
    ensures o.customerPhone == OrNA(row.customerPhone)
    ensures o.itemsCount == |row.lineItems.GetOr([])|
    ensures o.totalCost == LineCost(row.lineItems.GetOr([]), costs)
    ensures o.profit + o.totalCost + o.taxes + o.gatewayFees == o.total
  {
    var items := row.lineItems.GetOr([]);
    var subtotal := OrNumber(row.total, 0.0);
    var taxes := subtotal * (TaxRate(config) / 100.0);
    var fees := subtotal * (GatewayRate(config) / 100.0) + FixedFee(config);
    var totalCost := LineCost(items, costs);
    Order(row.id, row.number, row.status, row.dateCreated, subtotal,
          OrNA(row.customerName), OrNA(row.customerEmail), OrNA(row.customerPhone),
          totalCost, taxes, fees, subtotal - totalCost - taxes - fees, |items|)
  }

  /** Taxes are a share of the total, fees a share plus the fixed amount;
      without settings both are 0 and the profit is total minus cost. */
  lemma OrderCharges(row: OrderRow, config: Option<StoreConfig>, costs: map<int, real>)
    ensures var o := OrderOf(row, config, costs);
      && o.taxes == o.total * TaxRate(config) / 100.0
      && o.gatewayFees == o.total * GatewayRate(config) / 100.0 + FixedFee(config)
      && (config.None? ==> o.taxes == 0.0 && o.gatewayFees == 0.0 && o.profit == o.total - o.totalCost)
  {
  }

  /** Total 200, one line costing 50, 10 % tax, a 5 % + 2 fee: profit 118. */
  lemma ProfitExample(costs: map<int, real>)
    requires 7 in costs && costs[7] == 50.0
    ensures var row := OrderRow(1, "1001", "completed", None, Some(200.0), "", "", "",
                                Some([LineItem(7, 1)]), 0);
      var config := Some(StoreConfig("https://shop", "ck", "cs", 10.0, 5.0, 2.0));
      var o := OrderOf(row, config, costs);
      o.totalCost == 50.0 && o.taxes == 20.0 && o.gatewayFees == 12.0 && o.profit == 118.0
  {
    var items := [LineItem(7, 1)];
    assert items[..0] == [];
    assert LineCost(items, costs) == 50.0;
  }

  /** A dearer cost table never raises an order's profit. */
  lemma ProfitFallsWithCost(row: OrderRow, config: Option<StoreConfig>, costs: map<int, real>, more: map<int, real>)
    requires forall i :: 0 <= i < |row.lineItems.GetOr([])| ==> row.lineItems.GetOr([])[i].quantity >= 0
    requires forall k :: k in costs ==> k in more && costs[k] <= more[k]
    requires forall k :: k in more ==> 0.0 <= more[k]
    ensures OrderOf(row, config, more).profit <= OrderOf(row, config, costs).profit
  {
    LineCostMonotone(row.lineItems.GetOr([]), costs, more);
  }

  /** The derivation of one order; the line-item cost is accumulated by a
      `forEach` loop. */
  method DeriveOrder(row: OrderRow, config: Option<StoreConfig>, costs: map<int, real>) returns (o: Order)
    ensures o == OrderOf(row, config, costs)
  {
    var items := row.lineItems.GetOr([]);
    var totalCost := 0.0;
    for i := 0 to |items|
      invariant totalCost == LineCost(items[..i], costs)
    {
      assert items[..i + 1][..i] == items[..i];
      var unitCost := CostOf(costs, items[i].productId);
      totalCost := totalCost + unitCost * items[i].quantity as real;
    }
    assert items[..|items|] == items;
    var subtotal := OrNumber(row.total, 0.0);
    var taxes := subtotal * (TaxRate(config) / 100.0);
    var fees := subtotal * (GatewayRate(config) / 100.0) + FixedFee(config);
    var profit := subtotal - totalCost - taxes - fees;
    o := Order(row.id, row.number, row.status, row.dateCreated, subtotal,
               OrNA(row.customerName), OrNA(row.customerEmail), OrNA(row.customerPhone),
               totalCost, taxes, fees, profit, |items|);
  }

  /** `GET /api/orders`: one derived order per cached order, in the order
      the database returns them. A failed read of the orders gives an empty
      list, a failed read of the costs an empty cost table, and a failed
      read of the settings no settings (so no taxes or fees). */
  method ListOrders(store: CacheStore, scan: seq<int>, ordersFailed: bool, costsFailed: bool, configFailed: bool)
    returns (r: seq<Order>)
    requires IsEnumeration(scan, store.orders.Keys)
    ensures var rows := if ordersFailed then [] else RowsOf(store.orders, scan);
      var costs := if costsFailed then map[] else store.costs;
      && |r| == |rows|
      && forall i :: 0 <= i < |rows| ==> r[i] == OrderOf(rows[i], store.StoreConfigRow(configFailed), costs)
  {
    var rows := if ordersFailed then [] else RowsOf(store.orders, scan);
    var costs := if costsFailed then map[] else store.costs;
    r := DeriveOrders(rows, store.StoreConfigRow(configFailed), costs);
  }

  /** The mapping step of `GET /api/orders`: each row becomes its order. */
  method DeriveOrders(rows: seq<OrderRow>, config: Option<StoreConfig>, costs: map<int, real>)
    returns (r: seq<Order>)
    ensures |r| == |rows|
    ensures forall i :: 0 <= i < |rows| ==> r[i] == OrderOf(rows[i], config, costs)
  {
    r := [];
    for i := 0 to |rows|
      invariant |r| == i
      invariant forall j :: 0 <= j < i ==> r[j] == OrderOf(rows[j], config, costs)
    {
      var o := DeriveOrder(rows[i], config, costs);
      r := r + [o];
    }
  }

  // ---------------------------------------------------------------------
  // GET /api/products

  /** `cached.slice((page − 1)·per_page, (page − 1)·per_page + per_page)`
      with the query defaults page = 1 and per_page = 20. */
  function ProductsPage(cached: seq<Product>, page: Option<int>, perPage: Option<int>): seq<Product> {
    var p, n := page.GetOr(1), perPage.GetOr(20);
    PageSlice(cached, (p - 1) * n, n)
  }

  /** The `perPage` products from position `start` on, as far as they exist. */
  function PageSlice(cached: seq<Product>, start: int, perPage: int): seq<Product> {
    JsSlice(cached, start, start + perPage)
  }

  lemma MulNonNegative(a: int, b: int)
    requires 0 <= a && 0 <= b
    ensures 0 <= a * b
  {
  }

  /** A page holds at most `per_page` products, taken in order from
      position (page − 1)·per_page on. */
  lemma ProductsPageWindow(cached: seq<Product>, page: int, perPage: int)
    requires 1 <= page && 0 <= perPage
    ensures var r, start := ProductsPage(cached, Some(page), Some(perPage)), (page - 1) * perPage;
      && 0 <= start
      && |r| <= perPage
      && r == cached[Min(start, |cached|)..Min(start + perPage, |cached|)]
      && forall k :: 0 <= k < |r| ==> r[k] == cached[start + k]
  {
    var start := (page - 1) * perPage;
    MulNonNegative(page - 1, perPage);
    assert ProductsPage(cached, Some(page), Some(perPage)) == PageSlice(cached, start, perPage);
    SliceNonNegative(cached, start, start + perPage);
  }

  /** Without a query the first twenty products are returned. */
  lemma ProductsPageDefault(cached: seq<Product>)
    ensures ProductsPage(cached, None, None) == cached[..Min(20, |cached|)]
  {
    assert ProductsPage(cached, None, None) == JsSlice(cached, 0, 20);
    SlicePrefix(cached, 20);
  }

  /** The pages 1 .. n laid end to end are the first n·per_page products:
      paging neither skips nor repeats a product. */
  lemma {:induction false} ProductsPagesTile(cached: seq<Product>, perPage: int, n: nat)
    requires 0 <= perPage
    ensures Flatten(seq(n, i => ProductsPage(cached, Some(i + 1), Some(perPage))))
            == cached[..Min(n * perPage, |cached|)]
  {
    var pages := seq(n, i => ProductsPage(cached, Some(i + 1), Some(perPage)));
    if n == 0 {
      assert pages == [];
    } else {
      var before := seq(n - 1, i => ProductsPage(cached, Some(i + 1), Some(perPage)));
      assert pages[..n - 1] == before;
      ProductsPagesTile(cached, perPage, n - 1);
      ProductsPageWindow(cached, n, perPage);
      var lo, hi := (n - 1) * perPage, n * perPage;
      assert hi == lo + perPage;
      MulNonNegative(n - 1, perPage);
      var a, b := Min(lo, |cached|), Min(hi, |cached|);
      assert pages[n - 1] == cached[a..b];
      assert cached[..a] + cached[a..b] == cached[..b];
    }
  }

  /** `GET /api/products`: the requested page of the cached products with
      their costs. */
  method ListProducts(store: CacheStore, scan: seq<int>, productsFailed: bool, costsFailed: bool,
                      page: Option<int>, perPage: Option<int>)
    returns (r: seq<Product>)
    requires IsEnumeration(scan, store.products.Keys)
    ensures productsFailed || costsFailed ==> r == []
    ensures !productsFailed && !costsFailed ==>
      r == ProductsPage(OverlayCosts(RowsOf(store.products, scan), store.costs), page, perPage)
  {
    var cached := store.GetCachedProducts(scan, productsFailed, costsFailed);
    r := ProductsPage(cached, page, perPage);
  }

  // ---------------------------------------------------------------------
  // POST /api/sync

  const NotConfigured := "Store not configured"

  datatype SyncReply = SyncOk(productsCount: nat, ordersCount: nat) | SyncError(status: nat, error: string)

  /** The bounds a sync passes on: none when forced, otherwise the newest
      `last_sync` of each mirror (None for an empty mirror). */
  function SyncOptionsFor(force: bool, lastProducts: Option<int>, lastOrders: Option<int>): (o: SyncOptions)
    ensures force ==> o.modifiedAfterProducts.None? && o.modifiedAfterOrders.None?
    ensures !force ==> o.modifiedAfterProducts == lastProducts && o.modifiedAfterOrders == lastOrders
  {
    if force then SyncOptions(None, None) else SyncOptions(lastProducts, lastOrders)
  }

  /** The incremental bounds: `getLastProductSyncDate` and
      `getLastOrderSyncDate`, each the newest stamp of its mirror (see
      `Db.MaxStampIsLatest`), or no bound when its read fails. */
  method LastSyncOptions(store: CacheStore, productScan: seq<int>, orderScan: seq<int>,
                         productStampFailed: bool, orderStampFailed: bool) returns (o: SyncOptions)
    requires IsEnumeration(productScan, store.products.Keys)
    requires IsEnumeration(orderScan, store.orders.Keys)
    ensures o == SyncOptions(if productStampFailed then None else MaxStamp(StampsOf(store.products, productScan, ProductStamp)),
                             if orderStampFailed then None else MaxStamp(StampsOf(store.orders, orderScan, OrderStamp)))
  {
    var lastProducts := store.LastProductSyncDate(productScan, productStampFailed);
    var lastOrders := store.LastOrderSyncDate(orderScan, orderStampFailed);
    o := SyncOptions(lastProducts, lastOrders);
  }

  /** The download part of `POST /api/sync`: a client for the stored
      settings runs `syncAll` with the chosen bounds. The progress messages
      go to the event stream, which is not part of this model. */
  method Fetch(config: StoreConfig, options: SyncOptions,
               productSrc: PageSource<RemoteProduct>, orderSrc: PageSource<RemoteOrder>)
    returns (result: Result<Synced, string>, sent: seq<Request>)
    ensures var dp, dq := DrainFrom(productSrc, 1), DrainFrom(orderSrc, 1);
      && (dp.failed ==> result == Failure(ProductsError))
      && (!dp.failed && dq.failed ==> result == Failure(OrdersError))
      && (!dp.failed && !dq.failed ==> result == Success(Synced(Flatten(dp.chunks), Flatten(dq.chunks))))
    ensures var dp, dq := DrainFrom(productSrc, 1), DrainFrom(orderSrc, 1);
      IsSyncPlan(sent, config, options, |dp.chunks| + 1, if dp.failed then 0 else |dq.chunks| + 1)
    ensures |sent| > 0 && sent[0].params == PagedParams(1, options.modifiedAfterProducts)
    ensures options == SyncOptions(None, None) ==> forall i :: 0 <= i < |sent| ==> "modified_after" !in sent[i].params
  {
    var service := new WooCommerceService(config);
    var progress;
    result, progress, sent := service.SyncAll(options, productSrc, orderSrc);
    ghost var dp, dq := DrainFrom(productSrc, 1), DrainFrom(orderSrc, 1);
    service.SyncRequests(sent, |dp.chunks| + 1, |dq.chunks| + 1, options, dp.failed, config);
  }

  /** The download and write-back part of `POST /api/sync`, once the
      settings and the bounds are known. */
  method Download(store: CacheStore, config: StoreConfig, options: SyncOptions,
                  productSrc: PageSource<RemoteProduct>, orderSrc: PageSource<RemoteOrder>, now: int)
    returns (reply: SyncReply, sent: seq<Request>)
    modifies store
    ensures store.config == old(store.config) && store.costs == old(store.costs)
    ensures var dp, dq := DrainFrom(productSrc, 1), DrainFrom(orderSrc, 1);
      IsSyncPlan(sent, config, options, |dp.chunks| + 1, if dp.failed then 0 else |dq.chunks| + 1)
    ensures |sent| > 0 && sent[0].params == PagedParams(1, options.modifiedAfterProducts)
    ensures options == SyncOptions(None, None) ==> forall i :: 0 <= i < |sent| ==> "modified_after" !in sent[i].params
    ensures var dp, dq := DrainFrom(productSrc, 1), DrainFrom(orderSrc, 1);
      (dp.failed || dq.failed) ==>
        && reply == SyncError(500, if dp.failed then ProductsError else OrdersError)
        && store.products == old(store.products) && store.orders == old(store.orders)
    ensures var dp, dq := DrainFrom(productSrc, 1), DrainFrom(orderSrc, 1);
      !dp.failed && !dq.failed ==>
        && reply == SyncOk(|Flatten(dp.chunks)|, |Flatten(dq.chunks)|)
        && store.products == Upsert(old(store.products), ProductRows(Flatten(dp.chunks), now), ProductRowKey)
        && store.orders == Upsert(old(store.orders), OrderRows(Flatten(dq.chunks), now), OrderRowKey)
  {
    var result;
    result, sent := Fetch(config, options, productSrc, orderSrc);
    if result.Failure? {
      return SyncError(500, result.error), sent;
    }
    var synced := result.value;
    if |synced.products| > 0 {
      store.UpsertProductsCache(synced.products, now);
    }
    if |synced.orders| > 0 {
      store.UpsertOrdersCache(synced.orders, now);
    }
    reply := SyncOk(|synced.products|, |synced.orders|);
  }

  /** `POST /api/sync`: without settings (none saved, or the read failed),
      a 400 before any request; else a download (full when forced,
      incremental otherwise), the non-empty lists written to the mirrors,
      and the two counts. A failed download is a 500 carrying the client's
      message, and nothing is written. A failed read of a last-sync date
      leaves that list without a bound. */
  method Sync(store: CacheStore, force: bool, productSrc: PageSource<RemoteProduct>, orderSrc: PageSource<RemoteOrder>,
              productScan: seq<int>, orderScan: seq<int>, now: int,
              configFailed: bool, productStampFailed: bool, orderStampFailed: bool)
    returns (reply: SyncReply, options: SyncOptions, sent: seq<Request>)
    requires IsEnumeration(productScan, store.products.Keys)
    requires IsEnumeration(orderScan, store.orders.Keys)
    modifies store
    ensures store.config == old(store.config) && store.costs == old(store.costs)
    ensures old(store.StoreConfigRow(configFailed)).None? ==>
      && reply == SyncError(400, NotConfigured) && sent == []
      && store.products == old(store.products) && store.orders == old(store.orders)
    ensures old(store.StoreConfigRow(configFailed)).Some? ==>
      options == SyncOptionsFor(force,
        if productStampFailed then None else MaxStamp(StampsOf(old(store.products), productScan, ProductStamp)),
        if orderStampFailed then None else MaxStamp(StampsOf(old(store.orders), orderScan, OrderStamp)))
    ensures var dp, dq := DrainFrom(productSrc, 1), DrainFrom(orderSrc, 1);
      old(store.StoreConfigRow(configFailed)).Some? ==>
        IsSyncPlan(sent, old(store.StoreConfigRow(configFailed)).value, options,
                   |dp.chunks| + 1, if dp.failed then 0 else |dq.chunks| + 1)
    ensures old(store.StoreConfigRow(configFailed)).Some? ==>
      && |sent| > 0 && sent[0].params == PagedParams(1, options.modifiedAfterProducts)
      && (force ==> forall i :: 0 <= i < |sent| ==> "modified_after" !in sent[i].params)
    ensures var dp, dq := DrainFrom(productSrc, 1), DrainFrom(orderSrc, 1);
      old(store.StoreConfigRow(configFailed)).Some? && (dp.failed || dq.failed) ==>
        && reply == SyncError(500, if dp.failed then ProductsError else OrdersError)
        && store.products == old(store.products) && store.orders == old(store.orders)
    ensures var dp, dq := DrainFrom(productSrc, 1), DrainFrom(orderSrc, 1);
      old(store.StoreConfigRow(configFailed)).Some? && !dp.failed && !dq.failed ==>
        && reply == SyncOk(|Flatten(dp.chunks)|, |Flatten(dq.chunks)|)
        && store.products == Upsert(old(store.products), ProductRows(Flatten(dp.chunks), now), ProductRowKey)
        && store.orders == Upsert(old(store.orders), OrderRows(Flatten(dq.chunks), now), OrderRowKey)
  {
    var config := store.StoreConfigRow(configFailed);
    options := SyncOptions(None, None);
    if config.None? {
      return SyncError(400, NotConfigured), options, [];
    }
    if !force {
      options := LastSyncOptions(store, productScan, orderScan, productStampFailed, orderStampFailed);
    }
    reply, sent := Download(store, config.value, options, productSrc, orderSrc, now);
  }

  // ---------------------------------------------------------------------
  // POST /api/import/costs

  /** A spreadsheet row as `sheet_to_json` gives it: column header to cell. */
  type Row = map<string, Value>

  /** `row[column]`, undefined when the row has no such cell. */
  function Cell(row: Row, column: string): Option<Value> {
    if column in row then Some(row[column]) else None
  }

  /** `row.id || row.product_id || row.ID`. */
  function RowId(row: Row): Option<Value> {
    Or(Or(Cell(row, "id"), Cell(row, "product_id")), Cell(row, "ID"))
  }

  /** `row.cost || row.custo || row.Custo`. */
  function RowCost(row: Row): Option<Value> {
    Or(Or(Cell(row, "cost"), Cell(row, "custo")), Cell(row, "Custo"))
  }

  /** A row is applied when its id is truthy and its cost is defined. */
  predicate RowApplies(row: Row) {
    Truthy(RowId(row)) && RowCost(row).Some?
  }

  /** The id column used is the first truthy one of `id`, `product_id`,
      `ID`; the cost column the first truthy one of `cost`, `custo`, falling
      back to `Custo` as it is. */
  lemma RowColumns(row: Row)
    ensures Truthy(Cell(row, "id")) ==> RowId(row) == Cell(row, "id")
    ensures !Truthy(Cell(row, "id")) && Truthy(Cell(row, "product_id")) ==> RowId(row) == Cell(row, "product_id")
    ensures !Truthy(Cell(row, "id")) && !Truthy(Cell(row, "product_id")) ==> RowId(row) == Cell(row, "ID")
    ensures Truthy(Cell(row, "cost")) ==> RowCost(row) == Cell(row, "cost")
    ensures !Truthy(Cell(row, "cost")) && Truthy(Cell(row, "custo")) ==> RowCost(row) == Cell(row, "custo")
    ensures !Truthy(Cell(row, "cost")) && !Truthy(Cell(row, "custo")) ==> RowCost(row) == Cell(row, "Custo")
    ensures RowApplies(row) <==> Truthy(RowId(row)) && (Truthy(Cell(row, "cost")) || Truthy(Cell(row, "custo")) || "Custo" in row)
  {
  }

  /** One `updateProductCost` call the import makes. */
  datatype CostUpdate = CostUpdate(id: Value, cost: real)

  /** The calls the import makes: one per applied row, in row order, with
      the cost read by `parseCost` (the program's `parseFloat`). */
  function ImportCalls(rows: seq<Row>, parseCost: Value -> real): (calls: seq<CostUpdate>)
    ensures |calls| == |Filter(rows, RowApplies)|
  {
    var applied := Filter(rows, RowApplies);
    seq(|applied|, i requires 0 <= i < |applied| => CostUpdate(RowId(applied[i]).value, parseCost(RowCost(applied[i]).value)))
  }

  /** Every call comes from an applied row, and every applied row leads to
      a call; no more calls are made than there are rows. */
  lemma ImportCallsFromRows(rows: seq<Row>, parseCost: Value -> real)
    ensures |ImportCalls(rows, parseCost)| <= |rows|
    ensures forall r :: r in rows && RowApplies(r) ==>
      CostUpdate(RowId(r).value, parseCost(RowCost(r).value)) in ImportCalls(rows, parseCost)
    ensures forall c :: c in ImportCalls(rows, parseCost) ==>
      exists r :: r in rows && RowApplies(r) && c == CostUpdate(RowId(r).value, parseCost(RowCost(r).value))
  {
    var applied := Filter(rows, RowApplies);
    var calls := ImportCalls(rows, parseCost);
    forall r | r in rows && RowApplies(r)
      ensures CostUpdate(RowId(r).value, parseCost(RowCost(r).value)) in calls
    {
      FilterMembership(rows, RowApplies, r);
      var i :| 0 <= i < |applied| && applied[i] == r;
      assert calls[i] == CostUpdate(RowId(r).value, parseCost(RowCost(r).value));
    }
    forall c | c in calls
      ensures exists r :: r in rows && RowApplies(r) && c == CostUpdate(RowId(r).value, parseCost(RowCost(r).value))
    {
      var i :| 0 <= i < |calls| && calls[i] == c;
      FilterMembership(rows, RowApplies, applied[i]);
    }
  }

  /** One more row adds at most one call, at the end. */
  lemma ImportCallsSnoc(rows: seq<Row>, row: Row, parseCost: Value -> real)
    ensures ImportCalls(rows + [row], parseCost) == ImportCalls(rows, parseCost)
      + (if RowApplies(row) then [CostUpdate(RowId(row).value, parseCost(RowCost(row).value))] else [])
  {
    FilterSnoc(rows, row, RowApplies);
  }

  /** The cost table after the calls, made in order. */
  function ApplyCalls(costs: map<int, real>, calls: seq<CostUpdate>): map<int, real> {
    if calls == [] then costs
    else
      var prev := ApplyCalls(costs, calls[..|calls| - 1]);
      var last := calls[|calls| - 1];
      if ProductKey(last.id).Some? then prev[ProductKey(last.id).value := last.cost] else prev
  }

  /** One more call updates the table the earlier calls left. */
  lemma ApplyCallsSnoc(costs: map<int, real>, calls: seq<CostUpdate>, c: CostUpdate)
    ensures var prev := ApplyCalls(costs, calls);
      ApplyCalls(costs, calls + [c]) == if ProductKey(c.id).Some? then prev[ProductKey(c.id).value := c.cost] else prev
  {
    assert (calls + [c])[..|calls|] == calls;
  }

  /** A product that no call names keeps its cost (or its lack of one). */
  lemma {:induction false} ApplyCallsUntouched(costs: map<int, real>, calls: seq<CostUpdate>, k: int)
    requires forall i :: 0 <= i < |calls| ==> ProductKey(calls[i].id) != Some(k)
    ensures var after := ApplyCalls(costs, calls);
      (k in after <==> k in costs) && (k in costs ==> after[k] == costs[k])
  {
    if calls != [] {
      ApplyCallsUntouched(costs, calls[..|calls| - 1], k);
    }
  }

  /** A product ends with the cost of the last call that names it. */
  lemma {:induction false} ApplyCallsLastWins(costs: map<int, real>, calls: seq<CostUpdate>, j: int, k: int)
    requires 0 <= j < |calls| && ProductKey(calls[j].id) == Some(k)
    requires forall i :: j < i < |calls| ==> ProductKey(calls[i].id) != Some(k)
    ensures k in ApplyCalls(costs, calls) && ApplyCalls(costs, calls)[k] == calls[j].cost
  {
    if j < |calls| - 1 {
      ApplyCallsLastWins(costs, calls[..|calls| - 1], j, k);
    }
  }

  const NoFile := "Nenhum arquivo enviado"

  datatype ImportReply = ImportOk(count: nat) | ImportError(status: nat, error: string)

  /** `POST /api/import/costs`: without a file, a 400. Otherwise every
      applied row becomes one `updateProductCost` call, and the reply
      counts exactly those calls. */
  method ImportCosts(store: CacheStore, file: Option<seq<Row>>, parseCost: Value -> real)
    returns (reply: ImportReply, calls: seq<CostUpdate>)
    modifies store
    ensures store.config == old(store.config) && store.products == old(store.products) && store.orders == old(store.orders)
    ensures file.None? ==> reply == ImportError(400, NoFile) && calls == [] && store.costs == old(store.costs)
    ensures file.Some? ==>
      && calls == ImportCalls(file.value, parseCost)
      && reply == ImportOk(|calls|)
      && store.costs == ApplyCalls(old(store.costs), calls)
  {
    if file.None? {
      return ImportError(400, NoFile), [];
    }
    var rows := file.value;
    var count := 0;
    calls := [];
    for i := 0 to |rows|
      invariant calls == ImportCalls(rows[..i], parseCost)
      invariant count == |calls|
      invariant store.costs == ApplyCalls(old(store.costs), calls)
      invariant store.config == old(store.config) && store.products == old(store.products) && store.orders == old(store.orders)
    {
      var row := rows[i];
      var id, cost := RowId(row), RowCost(row);
      ImportCallsSnoc(rows[..i], row, parseCost);
      assert rows[..i + 1] == rows[..i] + [row];
      if Truthy(id) && cost.Some? {
        var update := CostUpdate(id.value, parseCost(cost.value));
        ApplyCallsSnoc(old(store.costs), calls, update);
        store.UpdateProductCost(update.id, update.cost);
        calls := calls + [update];
        count := count + 1;
      }
    }
    assert rows[..|rows|] == rows;
    reply := ImportOk(count);
  }
}
