# Sales manager back office — verified model

This project models the computing core of a small back office for a
WooCommerce shop. The back office mirrors the shop's products and orders
into a database, keeps a manual cost per product and derives each order's
cost, taxes, gateway fees and profit. In the browser it shows a paged
product list with margins and health buckets, filtered and paginated
orders, and dashboard statistics.

The model has one module per part of the program:

- `Db` (`db.dfy`) is the cache store, server/db.ts. The four tables
  (settings, costs, product mirror, order mirror) are maps from key to row,
  held by the class `CacheStore`. Its methods update the maps in place.
  The module also holds the pure row builders (order row, customer name,
  stored date, cost overlay) and the newest-`last_sync` scan.
- `WooCommerce` (`woocommerce.dfy`) is the REST client,
  server/services/woocommerce.ts. The class `WooCommerceService` stores
  the cleaned store URL. Its `syncAll` runs two paging loops, each proved
  against `DrainFrom`, the functional description of "request pages 1, 2,
  … until one is empty or fails". HTTP is a `PageSource`, a finite table
  of replies by page number.
- `App` (`app.dfy`) holds the server endpoints, server/app.ts. These are
  the order derivation (its `forEach` loop over the line items is a `for`
  loop), the products page, the sync handler with its full and incremental
  modes, and the cost-import row loop.
- `UseStore` (`use_store.dfy`) is the browser state, src/hooks/useStore.ts.
  The class `ProductList` holds the products, `page`, `hasMore` and
  `loading`. The module also defines margin and markup, the health buckets,
  the statistics, the order filter, the pagination and the dashboard period.
- `JsString`, `JsArray`, `Types` and `Wrappers` hold the JavaScript
  operations the program relies on, the shared records and
  `Option`/`Result`:
  - `trim`, the trailing-slash strip, `includes`, one-character `replace`
    and `Number` on integer text;
  - `slice`, `filter`, `push(...chunk)` and `reduce`.

Prices, costs and percentages are `real`, and timestamps are `int`. The
database, the HTTP client, `Date` parsing and the clock are parameters:
- `scan` is the order in which the database returns a table's keys;
- a `PageSource` stands for the shop's replies;
- `time` maps a date text to milliseconds, with `None` for an invalid date;
- `now` is the current time;
- the `*Failed` flags mark database reads that return an error.

## Model

| member | source | states |
|---|---|---|
| JsString.TrimIsInfix | server/services/woocommerce.ts:9 | `trim` returns the infix between the leading and the trailing whitespace, and removes nothing else |
| JsString.TrimEnds | server/db.ts:102 | neither end of a trimmed string is whitespace |
| JsString.TrimIdempotent | server/services/woocommerce.ts:9 | trimming twice is trimming once |
| JsString.StripTrailing | server/services/woocommerce.ts:9 | `replace(/\/+$/, "")` keeps a prefix, removes only the character, and leaves none of it at the end |
| JsString.IncludesIff | src/hooks/useStore.ts:264 | `includes` holds exactly when the text occurs at some position |
| JsString.IndexOf | server/db.ts:94 | the first position of the character, or -1 exactly when it is absent |
| JsString.ReplaceFirst | server/db.ts:94 | a one-character `replace` changes only the first occurrence and keeps the length |
| JsString.DecimalRoundTrip | server/services/woocommerce.ts:69 | the digits written for a count read back as that count |
| JsString.NumberOfDecimal | server/db.ts:62 | `Number` of the decimal text of an integer, with or without '-', is that integer |
| JsArray.SliceNonNegative | server/app.ts:146 | `slice(start, end)` with non-negative bounds returns the existing elements from `start`, at most `end - start` of them |
| JsArray.SlicePrefix | src/hooks/useStore.ts:284 | `slice(0, k)` is the prefix of length min(k, length) |
| JsArray.Filter | src/hooks/useStore.ts:263-274 | a filter result is no longer than its input and every element passes |
| JsArray.FilterIsSubsequence | src/hooks/useStore.ts:263-274 | filtering keeps the order: the result is a subsequence of the input |
| JsArray.FilterMembership | src/hooks/useStore.ts:263-274 | an element is kept exactly when it is in the input and passes |
| JsArray.FilterKeepsAll | src/hooks/useStore.ts:277 | a filter that accepts every element returns its input |
| JsArray.FilterMonotone | src/hooks/useStore.ts:270-271 | a stronger condition keeps a subsequence of what the weaker keeps |
| JsArray.FilterPartition | src/hooks/useStore.ts:289-294 | three disjoint conditions that cover a fourth give counts that add up to the fourth's |
| JsArray.FlattenAppend | server/services/woocommerce.ts:68 | pushing chunk after chunk concatenates them in order |
| Db.ConfigRow | server/db.ts:33-42 | the saved settings take each given field and fill a missing one with "" or 0 |
| Db.CacheStore.SaveStoreConfig | server/db.ts:31-48 | a successful write puts the defaulted settings in row 1 and reads back as them; a failed write reports the failure (the thrown error) and changes nothing; no other table changes |
| Db.CacheStore.StoreConfigRow | server/db.ts:18-29 | `getStoreConfig` gives row 1 when it exists, and null when it is missing or the read fails |
| Db.ProductKeyOfPath | server/app.ts:158-161 | an id written into the URL path reads back, through `Number`, as the same key |
| Db.CacheStore.UpdateProductCost | server/db.ts:59-65 | `Number(productId)` is mapped to the cost and every other product keeps its cost; a key that is not a number changes nothing |
| Db.Upsert | server/db.ts:80-82 | `upsert(rows)` row by row, a later row of the batch replacing an earlier one with the same key (see `UpsertLookup`) |
| Db.LastWithKey | server/db.ts:80-82 | the last row of a batch carrying a key, or -1 when none does |
| Db.UpsertLookup | server/db.ts:80-82 | after a batch upsert a key holds its last row in the batch; a key the batch does not mention keeps its row or stays absent |
| Db.UpsertIdempotent | server/db.ts:80-82 | upserting the same batch twice gives the same table as once |
| Db.UpsertOverSameKeys | server/db.ts:80-82 | a second batch with the same keys in the same order leaves the same key set; each key written holds the second batch's row at the position of its last row in the first |
| Db.ResyncProductsSameData | server/db.ts:67-85 | syncing unchanged products again at a later time leaves the same keys and the same rows apart from `last_sync` |
| Db.ResyncOrdersSameData | server/db.ts:87-114 | syncing unchanged orders again at a later time leaves the same keys and the same rows apart from `last_sync` |
| Db.ProductRowOf | server/db.ts:70-78 | the product mirror row: the remote fields as given, missing images as [], stamped with the sync time |
| Db.CacheStore.UpsertProductsCache | server/db.ts:67-85 | an empty list writes nothing; otherwise every product's mirror row is upserted; no other table changes |
| Db.StoredDate | server/db.ts:93-94 | the stored date has its first 'T' replaced by a space and is otherwise the same text; a missing date stays missing |
| Db.IncludesLetter | server/db.ts:94 | `includes("T")` is membership of the letter |
| Db.OrderRowOf | server/db.ts:90-106 | the mirror row keeps id, number, status and total; the date is the stored date (see `StoredDate`) and the name the joined billing name (see `CustomerNameParts`); a missing email or phone becomes ""; missing line items become [] |
| Db.CustomerNameParts | server/db.ts:102 | for name parts without surrounding whitespace, the customer name is "first last" when both parts are given, the one part when only one is, and "" when neither is (in general it is the trimmed join, see `OrderRowOf`) |
| Db.CacheStore.UpsertOrdersCache | server/db.ts:87-114 | an empty list writes nothing; otherwise every order's mirror row is upserted; no other table changes |
| Db.OverlayCosts | server/db.ts:130-135 | one product per cached row, in the same order, with its recorded cost or 0 and every other field unchanged |
| Db.CacheStore.GetCachedProducts | server/db.ts:116-136 | a failed read of either table gives []; otherwise the cached rows in read order with their costs overlaid |
| Db.CacheStore.ClearCache | server/db.ts:151-154 | deletes every mirror row whose id is not 0 and keeps the costs and the settings |
| Db.MaxStamp | server/db.ts:157-162 | the largest stamp, present in the list, or None exactly for an empty list |
| Db.ScanNewest | server/db.ts:157-162 | the loop over the rows keeps the largest stamp seen |
| Db.MaxStampIsLatest | server/db.ts:156-168 | whatever order the rows are read in, the largest stamp is the newest `last_sync`, and it is null exactly for an empty table |
| Db.LatestUnique | server/db.ts:156-168 | the newest stamp of a table is unique |
| Db.Latest | server/db.ts:157-162 | `ORDER BY last_sync DESC LIMIT 1` gives the newest stamp of the table |
| Db.CacheStore.LastProductSyncDate | server/db.ts:156-168 | the newest `last_sync` of the product mirror, null when it is empty or the read fails |
| Db.CacheStore.LastOrderSyncDate | server/db.ts:170-182 | the newest `last_sync` of the order mirror, null when it is empty or the read fails |
| WooCommerce.PageSource.At | server/services/woocommerce.ts:66 | every page past the known replies is an empty list |
| WooCommerce.OrderParams | server/services/woocommerce.ts:28-32 | the caller's query spread over the defaults `per_page=50` and the status list (see `OrderParamsShape`) |
| WooCommerce.OrderParamsShape | server/services/woocommerce.ts:28-32 | the order query has the caller's keys plus `per_page` and `status`; the caller's values win, and the defaults 50 and the status list fill the rest |
| WooCommerce.PagedParams | server/services/woocommerce.ts:62-63 | the loop query: page, `per_page=100`, and `modified_after` when a bound is given (see `PagedParamsShape`) |
| WooCommerce.PagedParamsShape | server/services/woocommerce.ts:62-63 | a loop query names its page, asks for 100 items, has `modified_after` exactly when a bound is given, and has nothing else |
| WooCommerce.NormalizeUrl | server/services/woocommerce.ts:9-12 | the URL cleaning as written: trim, strip trailing slashes, add "https://" unless the text starts with "http" (see `NormalizeUrlShape`) |
| WooCommerce.NormalizeUrlShape | server/services/woocommerce.ts:9-12 | the stored URL always starts with "http"; it is the trimmed input without its trailing slashes, prefixed with "https://" exactly when that does not start with "http" |
| WooCommerce.NormalizeUrlKeepsCleanUrl | server/services/woocommerce.ts:9-12 | a URL with a scheme, no surrounding whitespace and no trailing slash is kept as it is |
| WooCommerce.NormalizeUrlIdempotent | server/services/woocommerce.ts:9-12 | cleaning a cleaned URL again changes nothing, provided the trimmed, slash-stripped input is non-empty and does not end in whitespace; otherwise it can change (see `NormalizeUrlOfEmpty`) |
| WooCommerce.NormalizeUrlOfEmpty | server/services/woocommerce.ts:9-12 | as written, the empty URL cleans to "https://", which cleans again to "https:" |
| WooCommerce.NormalizeUrlKeepsBareHost | server/services/woocommerce.ts:10 | as written, the bare host "httpbin.org" is kept with no scheme, because it starts with "http" |
| WooCommerce.StoreUrlHasScheme | server/services/woocommerce.ts:9-12 | the corrected cleaning always yields a URL that starts with "http://" or "https://", and agrees with the code as written whenever the cleaned text names a scheme or does not start with "http" |
| WooCommerce.StoreUrlOfBareHost | server/services/woocommerce.ts:10 | the corrected cleaning gives "https://httpbin.org" for the bare host |
| WooCommerce.WooCommerceService.constructor | server/services/woocommerce.ts:8-16 | stores the cleaned URL (the corrected cleaning, see "## Findings"), which starts with "http://" or "https://", and the two credentials |
| WooCommerce.WooCommerceService.GetProducts | server/services/woocommerce.ts:42-53 | one GET of `/wp-json/wc/v3/products` with the caller's query and basic auth; a failure becomes exactly the fixed products error |
| WooCommerce.WooCommerceService.GetOrders | server/services/woocommerce.ts:25-40 | one GET of `/wp-json/wc/v3/orders` with the caller's query spread over the defaults; a failure becomes exactly the fixed orders error |
| WooCommerce.DrainFrom | server/services/woocommerce.ts:65-71 | the pages one paging loop gathers from a page on, and whether it ended on a failure (see `DrainFromShape` and `DrainUnique`) |
| WooCommerce.DrainFromShape | server/services/woocommerce.ts:65-71 | the pages gathered are non-empty replies of consecutive pages, ended by the first page that failed or was empty |
| WooCommerce.DrainUnique | server/services/woocommerce.ts:65-71 | any such run of pages, with its stopping page, is the drain |
| WooCommerce.FullSourceDrains | server/services/woocommerce.ts:65-71 | when every known page is a non-empty list, all of them are gathered and the loop ends normally |
| WooCommerce.FailureIsFatal | server/services/woocommerce.ts:49-52 | a failure on page k after k-1 good pages makes the whole loop fail |
| WooCommerce.RunningCounts | server/services/woocommerce.ts:69 | the i-th progress message reports the size of the first i+1 pages together |
| WooCommerce.FlattenGrows | server/services/woocommerce.ts:68-69 | each page raises the reported total by its own size |
| WooCommerce.WooCommerceService.SyncRequestShape | server/services/woocommerce.ts:62-63 | every sync request asks for 100 items and carries `modified_after` exactly when its option is set; order requests keep the default status list |
| WooCommerce.WooCommerceService.ProductLoop | server/services/woocommerce.ts:60-71 | the product loop returns the concatenation of the pages of the drain from page 1, or the products error; it sends one request per page up to the stopping page and one progress message per page |
| WooCommerce.WooCommerceService.OrderLoop | server/services/woocommerce.ts:74-85 | the order loop, starting again from page 1, returns the concatenation of the order pages or the orders error, with the same requests and messages |
| WooCommerce.WooCommerceService.SyncRequests | server/services/woocommerce.ts:62-77 | the requests of a sync follow the sync plan for the settings, addressed to the corrected store URL (see "## Findings"): product pages 1 … n, then, unless the product loop failed, order pages 1 … m, each with its own bound; a sync without bounds sends `modified_after` in no request |
| WooCommerce.SyncPlanBounds | server/services/woocommerce.ts:62-77 | in a sync plan every product request carries `modified_after` exactly when the product bound is set, and then that bound; likewise every order request with the order bound; every request asks for 100 items |
| WooCommerce.WooCommerceService.SyncAll | server/services/woocommerce.ts:55-88 | products first, then orders only when the products loop ended normally; the first failure is the error and discards all pages gathered; progress is a start message plus the running counts for each loop |
| App.LineCost | server/app.ts:104-108 | the `forEach` sum of unit cost × quantity, an unknown product costing 0 (see `LineCostAppend`, `LineCostOfUnknown`) |
| App.LineCostAppend | server/app.ts:105-108 | the cost of two runs of lines is the sum of their costs |
| App.LineCostOfUnknown | server/app.ts:106 | lines of products without a recorded cost add nothing |
| App.LineCostMonotone | server/app.ts:105-108 | raising recorded costs never lowers an order's cost |
| App.OrderOf | server/app.ts:102-129 | the emitted order keeps id, number, status and date; "N/A" replaces an empty customer field; items_count is the number of lines; the cost is the line cost; profit + cost + taxes + fees = total |
| App.OrderCharges | server/app.ts:110-112 | taxes are total × tax_rate/100 and fees total × gateway_fee/100 + fixed_fee, both 0 without settings |
| App.ProfitExample | server/app.ts:110-113 | total 200, one line costing 50, tax 10 %, fee 5 % + 2 give profit 118 |
| App.ProfitFallsWithCost | server/app.ts:113 | a dearer cost table never raises an order's profit |
| App.DeriveOrder | server/app.ts:103-129 | the `forEach` accumulation and the formulas give the order `OrderOf` describes |
| App.DeriveOrders | server/app.ts:102-130 | exactly one derived order per cached order, in the same order |
| App.ListOrders | server/app.ts:94-136 | one derived order per cached order, in read order; a failed read of the orders gives [], a failed read of the costs gives every line cost 0, and a failed read of the settings gives taxes and fees 0 |
| App.ProductsPage | server/app.ts:142-146 | `slice((page−1)·per_page, page·per_page)` with defaults 1 and 20 (see `ProductsPageWindow`) |
| App.ProductsPageWindow | server/app.ts:142-146 | a page holds at most per_page products, taken in order from (page−1)·per_page |
| App.ProductsPageDefault | server/app.ts:142 | with no query the first 20 products are returned |
| App.ProductsPagesTile | server/app.ts:143-146 | pages 1 … n laid end to end are the first n·per_page products: paging neither skips nor repeats |
| App.ListProducts | server/app.ts:138-156 | the requested page of the cached products with their costs, or [] when a read failed |
| App.SyncOptionsFor | server/app.ts:69-75 | a forced sync has no bounds; otherwise the last recorded sync dates are the bounds |
| App.LastSyncOptions | server/app.ts:71-74 | the incremental bounds are the newest stamps of the two mirrors; a failed read leaves that entity without a bound |
| App.Fetch | server/app.ts:67-81 | the sync result is the products and orders gathered, or the first error; the requests follow the sync plan for the settings and bounds, addressed to the corrected store URL, so every product page carries the product bound and every order page the order bound; a forced sync sends no `modified_after` |
| App.Download | server/app.ts:78-91 | the requests follow the sync plan, addressed to the corrected store URL; on success each list is upserted and the counts are the lists' lengths; on failure a 500 carries the error and no mirror changes; settings and costs never change |
| App.Sync | server/app.ts:60-92 | without settings (none saved or the read failed) a 400 before any request; else no bounds when forced and the last recorded sync dates otherwise, sent with every request of the sync plan (addressed to the corrected store URL), then the download |
| App.RowColumns | server/app.ts:244-247 | the id is the first truthy of `id`, `product_id`, `ID`; the cost is the first truthy of `cost`, `custo`, else `Custo`; a row applies exactly when the id is truthy and a cost is defined |
| App.ImportCalls | server/app.ts:243-251 | one cost update per applied row |
| App.ImportCallsFromRows | server/app.ts:243-251 | every applied row leads to an update and every update comes from an applied row |
| App.ApplyCalls | server/app.ts:248 | the cost table after the import's `updateProductCost` calls, one after another (see `ApplyCallsLastWins`) |
| App.ApplyCallsUntouched | server/app.ts:248 | a product no row names keeps its cost |
| App.ApplyCallsLastWins | server/app.ts:248 | for any product, the last call that names it decides its cost |
| App.ImportCosts | server/app.ts:234-257 | without a file a 400; otherwise the updates are those of the applied rows in order, the count equals the number of updates, and the cost table is the result of applying them |
| UseStore.WithCost | src/hooks/useStore.ts:91 | the list keeps its length and order; only entries with the id get the cost |
| UseStore.WithCostProperties | src/hooks/useStore.ts:91 | editing a cost twice is editing it once; editing an unlisted id changes nothing |
| UseStore.ClientEditMatchesServer | src/hooks/useStore.ts:84-91 | the client's local edit equals what the server's cost overlay returns after the same update |
| UseStore.ProductList.constructor | src/hooks/useStore.ts:7-11 | an empty list on page 1, `hasMore` set, not loading |
| UseStore.ProductList.BeginFetch | src/hooks/useStore.ts:26 | sets `loading` and nothing else |
| UseStore.ProductList.CompleteFetch | src/hooks/useStore.ts:29-43 | a list reply replaces or extends the products, `hasMore` says whether it was a full page of 20, `page` is the requested one; anything else changes nothing; `loading` ends false |
| UseStore.ProductList.FetchProducts | src/hooks/useStore.ts:25-44 | the whole `fetchProducts`, with the same outcome |
| UseStore.ProductList.Refresh | src/hooks/useStore.ts:339 | `fetchProducts(1, true)`; receiving the server's first page makes the list mirror the catalogue |
| UseStore.ProductList.LoadMore | src/hooks/useStore.ts:78-82 | requests page+1 only when not loading and `hasMore`, otherwise changes nothing; loading the server's next page keeps the list a mirror of the catalogue |
| UseStore.ProductList.UpdateCost | src/hooks/useStore.ts:84-95 | once `fetch` resolves, whatever the HTTP status, only matching entries get the new cost; a rejected `fetch` (network failure) changes nothing |
| UseStore.NextPageExtends | src/hooks/useStore.ts:36 | appending page p+1 to the first p pages gives the first p+1 pages, and it is full exactly when the catalogue reaches past it |
| UseStore.Margin | src/hooks/useStore.ts:102 | (price − cost)/price × 100 when cost > 0, 0 otherwise, −∞ for price 0 |
| UseStore.Markup | src/hooks/useStore.ts:103 | the markup times the cost is the price when cost > 0, 0 otherwise |
| UseStore.MarginFromMarkup | src/hooks/useStore.ts:102-103 | margin = 100 − 100/markup |
| UseStore.MarginRange | src/hooks/useStore.ts:102-103 | selling above cost gives a margin strictly between 0 and 100 and a markup above 1; 100 over 70 is a 30 % margin |
| UseStore.BucketsPartition | src/hooks/useStore.ts:292-294 | a product has a cost exactly when it is in one of healthy, warning, critical, and it is in only one |
| UseStore.SumMarginsInfinite | src/hooks/useStore.ts:290 | the margin sum is −∞ exactly when some product with a cost has price 0 |
| UseStore.StatsOf | src/hooks/useStore.ts:287-298 | healthy, warning and critical count the products in each health bucket (≥ 30, between 0 and 30, ≤ 0) and add up to withCost ≤ total; the average margin is −∞ exactly when a product with a cost has price 0, and otherwise the margin sum over `withCost || 1`; the average markup is the markup sum over `withCost || 1`; totalSales and totalProfit are the sums of the orders' totals and profits, the order average times the count is the profit total, and everything is 0 without orders |
| UseStore.TotalProfitBalance | src/hooks/useStore.ts:295-297 | for balanced orders the profit total is sales minus costs, taxes and fees |
| UseStore.ServerOrdersBalanced | server/app.ts:113 | every order the server emits is balanced |
| UseStore.FilterOrders | src/hooks/useStore.ts:263-274 | `filteredOrders`: search, date range and value range (see `FilterOrdersSpec`) |
| UseStore.FilterOrdersSpec | src/hooks/useStore.ts:263-274 | the filtered orders keep their order, and an order is listed exactly when it passes search, date and value checks |
| UseStore.EmptyQueryKeeps | src/hooks/useStore.ts:263-274 | with no filters, exactly the orders with a valid date at or after the epoch are listed |
| UseStore.MinimumNarrows | src/hooks/useStore.ts:270 | setting a minimum value only removes orders |
| UseStore.PaginatedOrders | src/hooks/useStore.ts:284 | the first orderPage·20 filtered orders (see `PaginationSpec`) |
| UseStore.PaginationSpec | src/hooks/useStore.ts:284-285 | the shown orders are the first orderPage·20 filtered ones, and more remain exactly when the list is longer |
| UseStore.DashboardOrders | src/hooks/useStore.ts:276-282 | the orders of the chosen period (see `DashboardPeriods`) |
| UseStore.DashboardPeriods | src/hooks/useStore.ts:276-282 | "all" keeps every order; the 30-day view is part of the 90-day view |
| UseStore.ClientConfig | src/hooks/useStore.ts:132-137 | the local settings copy keeps the texts and makes each rate the parsed number, or 0 |
| UseStore.ClientConfigMatchesServer | src/hooks/useStore.ts:132-137 | the client's copy equals the row the server saves for the same form |

## Findings

| source | as written | input that shows it | evidently intended | confidence | as-written member | corrected member |
|---|---|---|---|---|---|---|
| server/services/woocommerce.ts:10 | `!cleanUrl.startsWith("http")` decides whether to put "https://" in front | the store URL "httpbin.org" is kept with no scheme | put "https://" in front unless the URL starts with "http://" or "https://" | medium, not executed | WooCommerce.NormalizeUrlKeepsBareHost | WooCommerce.StoreUrlHasScheme |

The client (`WooCommerce.WooCommerceService.constructor`) uses the
corrected `WooCommerce.StoreUrl`. The code as written stays modelled as
`WooCommerce.NormalizeUrl`, with its properties. A related quirk of the
same line: cleaning is not idempotent on an empty or whitespace-ended
URL (`WooCommerce.NormalizeUrlOfEmpty`).

## Left out

- `parseFloat`, `toFixed` and IEEE arithmetic are not modelled. Numbers that
  the program keeps as text (`total`, `price`, the spreadsheet cost) arrive
  already parsed, or through the parameter `parseCost`. NaN is not modelled.
  +∞ cannot arise. The −∞ margin of a product priced 0 with a cost is
  modelled.
- Dates are `int` milliseconds. `new Date(...)` is the parameter `time`,
  and the current time is `now`.
- `last_sync` and `modified_after` are integers, not timestamp text.
- `last_sync` is taken to be set to `now` on every mirror write, updates
  included. The code does not write it: a column default in the schema
  fills inserts only, and the conflict-update path of `.upsert(rows)`
  (server/db.ts:80-82, 109-111) keeps the old stamp unless a trigger
  renews it. The schema is not part of this model. The incremental bounds
  of `App.Sync` rest on this assumption.
- WooCommerce.WooCommerceService.constructor, WooCommerce.WooCommerceService.SyncRequests,
  App.Fetch, App.Download, App.Sync: the request URL is the corrected one,
  `StoreUrl` (see "## Findings"), not the cleaning as written in
  server/services/woocommerce.ts:9-12. The two differ only for a
  scheme-less host that begins with "http", such as "httpbin.org" or
  "httpshop.com.br". There the program keeps the bare host, so its
  requests go to no valid absolute address, while the model's go to
  "https://" followed by the host.
- Db.Upsert: a batch that names one key twice is given last-row-wins
  semantics. PostgreSQL rejects such a batch, and the whole batch is then
  lost and only logged.
- getCachedOrders: the `date_created` descending order is not modelled.
  The order rows arrive in any enumeration `scan`, as products do.
- Db.CacheStore.UpdateProductCost, UpsertProductsCache, UpsertOrdersCache
  and ClearCache: write errors are not modelled. The program only logs
  them, so `POST /api/products/:id/cost` answers success even when the
  cost write failed (server/app.ts:158-162, server/db.ts:64). A failed
  `saveStoreConfig` is modelled: it throws, and `POST /api/config` has no
  handler for it, so the client gets no success reply.
- App.ProductsPage: `Number(page)` and `Number(per_page)` on the query
  text are not modelled. The page and page size arrive as integers or
  absent, so a query such as `?page=abc` (NaN, which gives []) or
  `?page=1.5` (a fractional start) is outside the model.
- `JSON.parse` and `JSON.stringify` of images and line items are not
  modelled: the rows hold the parsed lists.
- The progress event stream is not modelled: the SSE subscriber list and
  `broadcastSyncProgress`. `SyncAll` returns its messages, and `Fetch`
  discards them.
- UseStore.ProductList.UpdateCost: the HTTP status is not inspected, as in
  the code; the server's reply to a failed cost write is success anyway.
- HTTP error details are not modelled. A failed call is the service's
  fixed message, and a 500 reply carries that message.
- A truthy non-list reply body is not modelled: the loops treat every
  reply body as a list or as a falsy value.
- XLSX reading and writing, multer uploads, the export endpoints and the
  AI analysis endpoint (`geminiService`) are not modelled. They are
  library and foreign-service work. The import is modelled from the rows
  `sheet_to_json` yields.
- The client flows `fetchOrders`, `fetchConfig`, `syncData`, `importCosts`,
  the exports and `analyzeProduct`'s request are not modelled. They are
  fetch and state plumbing around the server replies modelled above;
  `analyzeProduct`'s margin and markup are `Margin` and `Markup`.
- `filteredProducts` (`toLowerCase` search) is not modelled: case folding
  is not modelled.
- Asynchrony and interleaving of React state updates are not modelled.
  Each client method runs to completion.
- `Number(...)` on a key is modelled for integer notations only: decimal
  digits with an optional sign, surrounding whitespace, the empty string,
  integral numbers and booleans. Hexadecimal, exponent and fraction
  notations are treated as not a number.
- App.ProductsPagesTile, UseStore.NextPageExtends, UseStore.ProductList.Refresh,
  UseStore.ProductList.LoadMore, UseStore.ProductList.Mirrors: these assume the product mirror comes back
  in the same row order on every `/api/products` request, because one list
  `cached` stands for all of them. The program does not ask for an order:
  `getCachedProducts` reads with `select("*")` and no `order`
  (server/db.ts:116-119). PostgreSQL may return the rows in another order
  on a later request, for example after an upsert rewrites rows, and then
  "Load more" can skip or repeat products.
- The empty start date of the order filter is the epoch (0), following
  the code (src/hooks/useStore.ts:266). It is not an open bound, so orders
  dated before 1970 are excluded.
- The server emits the fee field as `gatewayFees`, as written. The client
  type declares `gateway_fees`, which does not affect anything modelled.
- React views, server bootstrapping and environment reading are not
  modelled.
