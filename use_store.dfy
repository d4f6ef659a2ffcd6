/** The browser-side state of the back office (src/hooks/useStore.ts): the
    product list loaded page by page, cost edits, the margin and markup of a
    product, the health statistics of the catalogue, and the order views
    (filtered, paginated, dashboard period).

    The server replies are parameters (`None` for a failed request or a body
    that is not a list); `Date` parsing is a parameter `time` from an
    optional date text to milliseconds, `None` standing for an invalid date
    (`NaN`), and the current time is the parameter `now`. */
module UseStore {
  import opened Wrappers
  import opened Types
  import opened JsString
  import opened JsArray
  import opened Db
  import opened App

  /** The page size the client asks for and compares against. */
  const PageSize := 20

  // ---------------------------------------------------------------------
  // Product list

  /** `prev.map(p => p.id === id ? { ...p, cost } : p)`. */
  function WithCost(products: seq<Product>, id: int, cost: real): (r: seq<Product>)
    ensures |r| == |products|
    ensures forall i :: 0 <= i < |products| ==>
      r[i] == if products[i].id == id then products[i].(cost := cost) else products[i]
  {
    seq(|products|, i requires 0 <= i < |products| =>
      if products[i].id == id then products[i].(cost := cost) else products[i])
  }

  /** Editing the same cost twice is the same as editing it once, and an
      edit of a product that is not listed changes nothing. */
  lemma WithCostProperties(products: seq<Product>, id: int, cost: real)
    ensures WithCost(WithCost(products, id, cost), id, cost) == WithCost(products, id, cost)
    ensures (forall i :: 0 <= i < |products| ==> products[i].id != id) ==> WithCost(products, id, cost) == products
  {
  }

  /** The client's local edit agrees with the server: after
      `POST /api/products/<id>/cost` stores the cost under the key read back
      from the path, the cost overlay of the next `getCachedProducts` is the
      client's edited list. */
  lemma ClientEditMatchesServer(rows: seq<ProductRow>, costs: map<int, real>, id: int, cost: real)
    ensures ProductKey(Text(IntString(id))) == Some(id)
    ensures OverlayCosts(rows, costs[id := cost]) == WithCost(OverlayCosts(rows, costs), id, cost)
  {
    ProductKeyOfPath(id);
    var after := OverlayCosts(rows, costs[id := cost]);
    var edited := WithCost(OverlayCosts(rows, costs), id, cost);
    forall i | 0 <= i < |rows| ensures after[i] == edited[i] {
    }
  }

  /** The state `useStore` keeps for the product list. */
  class ProductList {
    var products: seq<Product>
    var page: int
    var hasMore: bool
    var loading: bool

    constructor()
      ensures products == [] && page == 1 && hasMore && !loading
    {
      products, page, hasMore, loading := [], 1, true, false;
    }

    /** The list holds the first `page` pages of the catalogue `cached`, and
        `hasMore` says whether the last of them was full. */
    ghost predicate Mirrors(cached: seq<Product>)
      reads this
    {
      && page >= 1
      && products == cached[..Min(PageSize * page, |cached|)]
      && (hasMore <==> PageSize * page <= |cached|)
    }

    /** The start of `fetchProducts`: `setLoading(true)`. */
    method BeginFetch()
      modifies this
      ensures loading
      ensures products == old(products) && page == old(page) && hasMore == old(hasMore)
    {
      loading := true;
    }

    /** The end of `fetchProducts(pageNum, reset)`: a list reply replaces
        (reset) or extends the products, sets `hasMore` to whether it was a
        full page and records the page; anything else changes nothing.
        Either way `loading` ends false. */
    method CompleteFetch(pageNum: int, reset: bool, reply: Option<seq<Product>>)
      modifies this
      ensures !loading
      ensures reply.None? ==> products == old(products) && page == old(page) && hasMore == old(hasMore)
      ensures reply.Some? ==>
        && products == (if reset then reply.value else old(products) + reply.value)
        && hasMore == (|reply.value| == PageSize)
        && page == pageNum
    {
      if reply.Some? {
        if reset {
          products := reply.value;
        } else {
          products := products + reply.value;
        }
        hasMore := |reply.value| == PageSize;
        page := pageNum;
      }
      loading := false;
    }

    /** `fetchProducts(pageNum, reset)` with the reply it receives. */
    method FetchProducts(pageNum: int, reset: bool, reply: Option<seq<Product>>)
      modifies this
      ensures !loading
      ensures reply.None? ==> products == old(products) && page == old(page) && hasMore == old(hasMore)
      ensures reply.Some? ==>
        && products == (if reset then reply.value else old(products) + reply.value)
        && hasMore == (|reply.value| == PageSize)
        && page == pageNum
    {
      BeginFetch();
      CompleteFetch(pageNum, reset, reply);
    }

    /** `refreshProducts`: `fetchProducts(1, true)`. Receiving the server's
        first page of the catalogue makes the list mirror it. */
    method Refresh(reply: Option<seq<Product>>, ghost cached: seq<Product>)
      modifies this
      ensures !loading
      ensures reply.None? ==> products == old(products) && page == old(page) && hasMore == old(hasMore)
      ensures reply.Some? ==> products == reply.value && hasMore == (|reply.value| == PageSize) && page == 1
      ensures reply == Some(ProductsPage(cached, Some(1), Some(PageSize))) ==> Mirrors(cached)
    {
      ProductsPageWindow(cached, 1, PageSize);
      FetchProducts(1, true, reply);
    }

    /** `loadMore`: asks for the next page only when no fetch is running and
        the last page was full; the page requested is returned. Loading the
        server's next page keeps the list a mirror of the catalogue. */
    method LoadMore(reply: Option<seq<Product>>, ghost cached: seq<Product>) returns (requested: Option<int>)
      modifies this
      ensures old(!loading && hasMore) ==>
        && requested == Some(old(page) + 1)
        && !loading
        && (reply.None? ==> products == old(products) && page == old(page) && hasMore == old(hasMore))
        && (reply.Some? ==> products == old(products) + reply.value && page == old(page) + 1
                            && hasMore == (|reply.value| == PageSize))
      ensures !old(!loading && hasMore) ==>
        requested == None && products == old(products) && page == old(page)
        && hasMore == old(hasMore) && loading == old(loading)
      ensures old(Mirrors(cached)) && (reply.None? || reply == Some(ProductsPage(cached, Some(old(page) + 1), Some(PageSize))))
        ==> Mirrors(cached)
    {
      if !loading && hasMore {
        requested := Some(page + 1);
        ghost var before := page;
        if reply.Some? && reply == Some(ProductsPage(cached, Some(page + 1), Some(PageSize))) && Mirrors(cached) {
          NextPageExtends(cached, before);
        }
        FetchProducts(page + 1, false, reply);
      } else {
        requested := None;
      }
    }

    /** `updateCost`: once `fetch` resolves, the matching product gets the
        new cost, whatever HTTP status came back (an error status still
        edits the local list); only a rejected `fetch` (a network failure)
        leaves the list as it was. */
    method UpdateCost(id: int, cost: real, fetchRejected: bool)
      modifies this
      ensures products == if fetchRejected then old(products) else WithCost(old(products), id, cost)
      ensures page == old(page) && hasMore == old(hasMore) && loading == old(loading)
    {
      if !fetchRejected {
        products := WithCost(products, id, cost);
      }
    }
  }

  /** Appending the server's page p + 1 to the first p pages gives the first
      p + 1 pages, and the new page is full exactly when the catalogue
      reaches past it. */
  lemma NextPageExtends(cached: seq<Product>, p: int)
    requires 1 <= p && PageSize * p <= |cached|
    ensures var next := ProductsPage(cached, Some(p + 1), Some(PageSize));
      && cached[..Min(PageSize * p, |cached|)] + next == cached[..Min(PageSize * (p + 1), |cached|)]
      && (|next| == PageSize <==> PageSize * (p + 1) <= |cached|)
  {
    ProductsPageWindow(cached, p + 1, PageSize);
    var a, b := PageSize * p, Min(PageSize * (p + 1), |cached|);
    assert cached[..a] + cached[a..b] == cached[..b];
  }

  // ---------------------------------------------------------------------
  // Margin, markup and health

  /** A figure that may be −∞: the margin of a product priced 0 with a
      positive cost is −cost / 0 · 100. */
  datatype Figure = Finite(v: real) | NegInfinity

  /** `cost > 0 ? ((price − cost) / price) · 100 : 0`. */
  function Margin(price: real, cost: real): (m: Figure)
    ensures cost <= 0.0 ==> m == Finite(0.0)
    ensures cost > 0.0 && price == 0.0 ==> m == NegInfinity
    ensures cost > 0.0 && price != 0.0 ==> m == Finite((price - cost) / price * 100.0)
  {
    if cost > 0.0 then (if price == 0.0 then NegInfinity else Finite((price - cost) / price * 100.0))
    else Finite(0.0)
  }

  /** `cost > 0 ? price / cost : 0`. */
  function Markup(price: real, cost: real): (k: real)
    ensures cost <= 0.0 ==> k == 0.0
    ensures cost > 0.0 ==> k * cost == price
  {
    if cost > 0.0 then price / cost else 0.0
  }

  /** The quotient a / b is the one number that gives a when multiplied by b. */
  lemma QuotientUnique(a: real, b: real, x: real)
    requires b != 0.0 && x * b == a
    ensures x == a / b
  {
  }

  /** Margin and markup describe the same ratio: margin = 100 − 100 / markup. */
  lemma MarginFromMarkup(price: real, cost: real)
    requires cost > 0.0 && price != 0.0
    ensures Markup(price, cost) != 0.0
    ensures Margin(price, cost) == Finite(100.0 - 100.0 / Markup(price, cost))
  {
    var k := price / cost;
    var y := cost / price;
    assert k * cost == price;
    assert y * price == cost;
    assert (1.0 - y) * price == price - cost;
    QuotientUnique(price - cost, price, 1.0 - y);
    assert (y * k - 1.0) * cost == y * price - cost;
    assert y * k == 1.0;
    QuotientUnique(100.0, k, 100.0 * y);
  }

  /** Scaling by a positive number keeps the side of 0 and of 1. */
  lemma ScaleBounds(x: real, p: real)
    requires p > 0.0
    ensures x >= 1.0 ==> x * p >= p
    ensures x <= 1.0 ==> x * p <= p
    ensures x <= 0.0 ==> x * p <= 0.0
  {
  }

  /** Selling above cost gives a margin strictly between 0 and 100 and a
      markup above 1; a price of 100 over a cost of 70 is a 30 % margin. */
  lemma MarginRange(price: real, cost: real)
    requires 0.0 < cost < price
    ensures var m := Margin(price, cost);
      m.Finite? && 0.0 < m.v < 100.0 && Markup(price, cost) > 1.0
    ensures Margin(100.0, 70.0) == Finite(30.0)
  {
    var x := (price - cost) / price;
    assert x * price == price - cost;
    assert price - cost < price;
    ScaleBounds(x, price);
    var k := price / cost;
    assert k * cost == price;
    ScaleBounds(k, cost);
  }

  predicate HasCost(p: Product) {
    p.cost > 0.0
  }

  /** `cost > 0 && margin >= 30`. */
  predicate IsHealthy(p: Product) {
    p.cost > 0.0 && Margin(p.price, p.cost).Finite? && Margin(p.price, p.cost).v >= 30.0
  }

  /** `cost > 0 && margin < 30 && margin > 0`. */
  predicate IsWarning(p: Product) {
    p.cost > 0.0 && Margin(p.price, p.cost).Finite? && 0.0 < Margin(p.price, p.cost).v < 30.0
  }

  /** `cost > 0 && margin <= 0`; a −∞ margin is critical. */
  predicate IsCritical(p: Product) {
    p.cost > 0.0 && (Margin(p.price, p.cost).NegInfinity? || Margin(p.price, p.cost).v <= 0.0)
  }

  /** Every product with a cost is in exactly one health bucket. */
  lemma BucketsPartition(p: Product)
    ensures HasCost(p) <==> IsHealthy(p) || IsWarning(p) || IsCritical(p)
    ensures !(IsHealthy(p) && IsWarning(p)) && !(IsHealthy(p) && IsCritical(p)) && !(IsWarning(p) && IsCritical(p))
  {
  }

  /** The sum of the margins of the products with a cost; −∞ as soon as
      one of them is −∞. */
  function SumMargins(products: seq<Product>): Figure {
    if products == [] then Finite(0.0)
    else
      var rest := SumMargins(products[..|products| - 1]);
      var p := products[|products| - 1];
      if !HasCost(p) then rest
      else match (rest, Margin(p.price, p.cost))
        case (Finite(a), Finite(b)) => Finite(a + b)
        case _ => NegInfinity
  }

  /** A product with a cost whose price is 0: its margin is −∞. */
  predicate PricedZero(p: Product) {
    HasCost(p) && p.price == 0.0
  }

  /** The average margin is −∞ exactly when some product with a cost has
      price 0. */
  lemma {:induction false} SumMarginsInfinite(products: seq<Product>)
    ensures SumMargins(products).NegInfinity? <==> exists i :: 0 <= i < |products| && PricedZero(products[i])
  {
    if products != [] {
      var n := |products|;
      var init := products[..n - 1];
      SumMarginsInfinite(init);
      if exists i :: 0 <= i < |init| && PricedZero(init[i]) {
        var i :| 0 <= i < |init| && PricedZero(init[i]);
        assert products[i] == init[i];
      }
      if exists i :: 0 <= i < n && PricedZero(products[i]) {
        var i :| 0 <= i < n && PricedZero(products[i]);
        if i < n - 1 {
          assert init[i] == products[i];
        }
      }
    }
  }

  /** `Σ price / cost` over the products with a cost. */
  function SumMarkups(products: seq<Product>): real {
    if products == [] then 0.0
    else
      var p := products[|products| - 1];
      SumMarkups(products[..|products| - 1]) + (if HasCost(p) then Markup(p.price, p.cost) else 0.0)
  }

  function OrderTotal(o: Order): real { o.total }
  function OrderProfit(o: Order): real { o.profit }
  function OrderCost(o: Order): real { o.totalCost }
  function OrderTaxes(o: Order): real { o.taxes }
  function OrderFees(o: Order): real { o.gatewayFees }

  /** The `stats` object. */
  datatype Stats = Stats(
    total: nat,
    withCost: nat,
    avgMargin: Figure,
    avgMarkup: real,
    healthy: nat,
    warning: nat,
    critical: nat,
    totalSales: real,
    totalProfit: real,
    avgOrderProfit: real)

  /** `x / (n || 1)`. */
  function Average(sum: real, n: nat): real {
    sum / (if n == 0 then 1 else n) as real
  }

  /** The catalogue statistics over the product list and the dashboard
      orders. The three health buckets split the products with a cost. */
  function StatsOf(products: seq<Product>, orders: seq<Order>): (s: Stats)
    ensures s.total == |products|
    ensures s.withCost == |Filter(products, HasCost)| <= s.total
    ensures s.healthy == |Filter(products, IsHealthy)| && s.warning == |Filter(products, IsWarning)|
      && s.critical == |Filter(products, IsCritical)|
    ensures s.healthy + s.warning + s.critical == s.withCost
    ensures s.avgMargin.NegInfinity? <==> exists i :: 0 <= i < |products| && PricedZero(products[i])
    ensures SumMargins(products).Finite? ==> s.avgMargin == Finite(Average(SumMargins(products).v, s.withCost))
    ensures s.avgMarkup == Average(SumMarkups(products), s.withCost)
    ensures s.totalSales == Sum(orders, OrderTotal) && s.totalProfit == Sum(orders, OrderProfit)
    ensures orders == [] ==> s.totalSales == 0.0 && s.totalProfit == 0.0 && s.avgOrderProfit == 0.0
    ensures orders != [] ==> s.avgOrderProfit * |orders| as real == s.totalProfit
  {
    var withCost := |Filter(products, HasCost)|;
    forall i | 0 <= i < |products| ensures
      && (HasCost(products[i]) <==> IsHealthy(products[i]) || IsWarning(products[i]) || IsCritical(products[i]))
      && !(IsHealthy(products[i]) && IsWarning(products[i])) && !(IsHealthy(products[i]) && IsCritical(products[i]))
      && !(IsWarning(products[i]) && IsCritical(products[i]))
    {
      BucketsPartition(products[i]);
    }
    FilterPartition(products, HasCost, IsHealthy, IsWarning, IsCritical);
    SumMarginsInfinite(products);
    var margins := SumMargins(products);
    var profit := Sum(orders, OrderProfit);
    Stats(
      |products|,
      withCost,
      if margins.NegInfinity? then NegInfinity else Finite(Average(margins.v, withCost)),
      Average(SumMarkups(products), withCost),
      |Filter(products, IsHealthy)|,
      |Filter(products, IsWarning)|,
      |Filter(products, IsCritical)|,
      Sum(orders, OrderTotal),
      profit,
      Average(profit, |orders|))
  }

  /** The orders the server derives satisfy the profit identity. */
  predicate ProfitBalanced(o: Order) {
    o.profit + o.totalCost + o.taxes + o.gatewayFees == o.total
  }

  /** For balanced orders, total profit is total sales minus the summed
      costs, taxes and fees. */
  lemma {:induction false} TotalProfitBalance(orders: seq<Order>)
    requires forall i :: 0 <= i < |orders| ==> ProfitBalanced(orders[i])
    ensures Sum(orders, OrderProfit)
      == Sum(orders, OrderTotal) - Sum(orders, OrderCost) - Sum(orders, OrderTaxes) - Sum(orders, OrderFees)
  {
    if orders != [] {
      TotalProfitBalance(orders[..|orders| - 1]);
    }
  }

  /** Every order `/api/orders` emits is balanced, so the dashboard's
      profit total decomposes as above. */
  lemma ServerOrdersBalanced(row: OrderRow, config: Option<StoreConfig>, costs: map<int, real>)
    ensures ProfitBalanced(OrderOf(row, config, costs))
  {
  }

  // ---------------------------------------------------------------------
  // Orders: filter, pagination, dashboard period

  /** The order filters: search text, date range (texts, "" for no bound)
      and value range (0 for no bound). */
  datatype OrderQuery = OrderQuery(search: string, start: string, end: string, min: real, max: real)

  /** Whether an order passes the filters. A date that does not parse is
      `NaN`, which fails every comparison; an empty start is the epoch and
      an empty end is +∞. */
  predicate Keeps(q: OrderQuery, time: Option<string> -> Option<int>, o: Order) {
    var date := time(o.dateCreated);
    var start := if q.start == "" then Some(0) else time(Some(q.start));
    var end := if q.end == "" then None else time(Some(q.end));
    && Includes(o.number, q.search)
    && date.Some? && start.Some? && start.value <= date.value
    && (q.end == "" || (end.Some? && date.value <= end.value))
    && (q.min == 0.0 || o.total >= q.min)
    && (q.max == 0.0 || o.total <= q.max)
  }

  function Keeper(q: OrderQuery, time: Option<string> -> Option<int>): Order -> bool {
    o => Keeps(q, time, o)
  }

  /** `filteredOrders`. */
  function FilterOrders(orders: seq<Order>, q: OrderQuery, time: Option<string> -> Option<int>): seq<Order> {
    Filter(orders, Keeper(q, time))
  }

  /** The filtered orders keep their order, and an order is listed exactly
      when it is one of the orders and passes every filter. */
  lemma FilterOrdersSpec(orders: seq<Order>, q: OrderQuery, time: Option<string> -> Option<int>, o: Order)
    ensures IsSubsequence(FilterOrders(orders, q, time), orders)
    ensures o in FilterOrders(orders, q, time) <==> o in orders && Keeps(q, time, o)
  {
    FilterIsSubsequence(orders, Keeper(q, time));
    FilterMembership(orders, Keeper(q, time), o);
  }

  /** With no search text, no date bounds and no value bounds, exactly the
      orders whose date parses to a time at or after the epoch are listed. */
  lemma EmptyQueryKeeps(q: OrderQuery, time: Option<string> -> Option<int>, o: Order)
    requires q == OrderQuery("", "", "", 0.0, 0.0)
    ensures Keeps(q, time, o) <==> time(o.dateCreated).Some? && time(o.dateCreated).value >= 0
  {
    IncludesEmpty(o.number);
  }

  /** Setting a minimum value only removes orders. */
  lemma MinimumNarrows(orders: seq<Order>, q: OrderQuery, min: real, time: Option<string> -> Option<int>)
    requires q.min == 0.0
    ensures IsSubsequence(FilterOrders(orders, q.(min := min), time), FilterOrders(orders, q, time))
  {
    FilterMonotone(orders, Keeper(q.(min := min), time), Keeper(q, time));
  }

  /** `filteredOrders.slice(0, orderPage * 20)`. */
  function PaginatedOrders(filtered: seq<Order>, orderPage: int): seq<Order> {
    JsSlice(filtered, 0, orderPage * PageSize)
  }

  /** `paginatedOrders.length < filteredOrders.length`. */
  predicate HasMoreOrders(filtered: seq<Order>, orderPage: int) {
    |PaginatedOrders(filtered, orderPage)| < |filtered|
  }

  /** The shown orders are the first orderPage·20 filtered ones, and more
      remain exactly when the filtered list is longer. */
  lemma PaginationSpec(filtered: seq<Order>, orderPage: int)
    requires 0 <= orderPage
    ensures PaginatedOrders(filtered, orderPage) == filtered[..Min(orderPage * PageSize, |filtered|)]
    ensures HasMoreOrders(filtered, orderPage) <==> orderPage * PageSize < |filtered|
  {
    SlicePrefix(filtered, orderPage * PageSize);
  }

  /** The dashboard period. */
  datatype Period = Last30 | Last90 | AllTime

  /** Milliseconds in a period of `days` days. */
  function Span(days: nat): int {
    days * 24 * 60 * 60 * 1000
  }

  /** Whether an order counts for the dashboard at time `now`. */
  predicate InPeriod(period: Period, now: int, time: Option<string> -> Option<int>, o: Order) {
    match period
    case AllTime => true
    case Last30 => time(o.dateCreated).Some? && now - time(o.dateCreated).value <= Span(30)
    case Last90 => time(o.dateCreated).Some? && now - time(o.dateCreated).value <= Span(90)
  }

  function PeriodKeeper(period: Period, now: int, time: Option<string> -> Option<int>): Order -> bool {
    o => InPeriod(period, now, time, o)
  }

  /** `dashboardOrders`. */
  function DashboardOrders(orders: seq<Order>, period: Period, now: int, time: Option<string> -> Option<int>): seq<Order> {
    Filter(orders, PeriodKeeper(period, now, time))
  }

  /** "all" keeps every order; the 30-day view is part of the 90-day view. */
  lemma DashboardPeriods(orders: seq<Order>, now: int, time: Option<string> -> Option<int>)
    ensures DashboardOrders(orders, AllTime, now, time) == orders
    ensures IsSubsequence(DashboardOrders(orders, Last30, now, time), DashboardOrders(orders, Last90, now, time))
  {
    FilterKeepsAll(orders, PeriodKeeper(AllTime, now, time));
    FilterMonotone(orders, PeriodKeeper(Last30, now, time), PeriodKeeper(Last90, now, time));
  }

  // ---------------------------------------------------------------------
  // Settings

  /** The settings form; a rate is None when `parseFloat` finds no number. */
  datatype ConfigForm = ConfigForm(
    url: string,
    consumerKey: string,
    consumerSecret: string,
    taxRate: Option<real>,
    gatewayFee: Option<real>,
    fixedFee: Option<real>)

  /** `saveConfig`'s local copy: each rate is the parsed number, 0 when it
      is not a number. */
  function ClientConfig(form: ConfigForm): (c: StoreConfig)
    ensures c.url == form.url && c.consumerKey == form.consumerKey && c.consumerSecret == form.consumerSecret
    ensures c.taxRate == form.taxRate.GetOr(0.0)
    ensures c.gatewayFee == form.gatewayFee.GetOr(0.0)
    ensures c.fixedFee == form.fixedFee.GetOr(0.0)
  {
    StoreConfig(form.url, form.consumerKey, form.consumerSecret,
                OrNumber(form.taxRate, 0.0), OrNumber(form.gatewayFee, 0.0), OrNumber(form.fixedFee, 0.0))
  }

  /** The client's copy equals the row the server stores for the same form. */
  lemma ClientConfigMatchesServer(form: ConfigForm)
    ensures ConfigRow(ConfigInput(Some(form.url), Some(form.consumerKey), Some(form.consumerSecret),
                                  form.taxRate, form.gatewayFee, form.fixedFee)) == ClientConfig(form)
  {
  }
}
