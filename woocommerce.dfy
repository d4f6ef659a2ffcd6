/** The WooCommerce REST client: the store URL it talks to, the two list
    requests it makes, and `syncAll`, which pages through the product list
    and then the order list until a page comes back empty.

    HTTP is replaced by a `PageSource`: a finite table of replies by page
    number, beyond which every page is empty. */
module WooCommerce {
  import opened Wrappers
  import opened Types
  import opened JsString
  import opened JsArray

  /** A query-string parameter value. */
  datatype Param = Int(i: int) | Str(s: string)

  type Params = map<string, Param>

  /** One GET request: address, query parameters and basic-auth credentials. */
  datatype Request = Request(url: string, params: Params, username: string, password: string)

  /** A reply body: a JSON list, or a falsy body (null, empty). */
  datatype Body<T> = Items(items: seq<T>) | Nothing {
    /** `!chunk || chunk.length === 0`: the paging loops stop on this. */
    predicate IsEnd() {
      Nothing? || items == []
    }
  }

  /** What the server does with a request: answers, or the call fails
      (network error, non-2xx status). */
  datatype Reply<T> = Ok(body: Body<T>) | Failed

  /** The replies for pages 1, 2, ..., |pages|; every later page is an empty list. */
  datatype PageSource<T> = PageSource(pages: seq<Reply<T>>) {
    function At(page: int): (r: Reply<T>)
      ensures (page < 1 || |pages| < page) ==> r == Ok(Items([]))
    {
      if 1 <= page <= |pages| then pages[page - 1] else Ok(Items([]))
    }
  }

  /** The page a request asks for: its `page` parameter, 1 when absent. */
  function PageOf(params: Params): int {
    if "page" in params && params["page"].Int? then params["page"].i else 1
  }

  /** One request and what came of it: the body, or the error thrown. */
  datatype Call<T> = Call(request: Request, result: Result<Body<T>, string>)

  const ProductsPath := "/wp-json/wc/v3/products"
  const OrdersPath := "/wp-json/wc/v3/orders"
  const ProductsError := "Failed to fetch products from WooCommerce"
  const OrdersError := "Failed to fetch orders from WooCommerce"
  const DefaultOrderStatus := "processing,on-hold,completed"

  /** The query of `getOrders`: the defaults `per_page=50` and the status list,
      with the caller's parameters spread over them. */
  function OrderParams(params: Params): Params {
    map["per_page" := Int(50), "status" := Str(DefaultOrderStatus)] + params
  }

  /** The order query has the caller's keys plus the two defaults; the
      caller's values win, and a default fills each key the caller left out. */
  lemma OrderParamsShape(params: Params)
    ensures var q := OrderParams(params);
      && q.Keys == params.Keys + {"per_page", "status"}
      && (forall k :: k in params ==> q[k] == params[k])
      && ("per_page" !in params ==> q["per_page"] == Int(50))
      && ("status" !in params ==> q["status"] == Str(DefaultOrderStatus))
  {
  }

  /** `{ page, per_page: 100, modified_after? }`: the query of one page of a
      sync loop. */
  function PagedParams(page: int, modifiedAfter: Option<int>): Params {
    var base := map["page" := Int(page), "per_page" := Int(100)];
    if modifiedAfter.Some? then base["modified_after" := Int(modifiedAfter.value)] else base
  }

  /** A loop query names its page, asks for 100 items, and carries
      `modified_after` exactly when a bound is given; nothing else. */
  lemma PagedParamsShape(page: int, modifiedAfter: Option<int>)
    ensures var q := PagedParams(page, modifiedAfter);
      && "page" in q && q["page"] == Int(page)
      && "per_page" in q && q["per_page"] == Int(100)
      && ("modified_after" in q <==> modifiedAfter.Some?)
      && (modifiedAfter.Some? ==> q["modified_after"] == Int(modifiedAfter.value))
      && q.Keys <= {"page", "per_page", "modified_after"}
  {
  }

  const Http := "http"
  const Https := "https://"

  /** The store URL as the constructor cleans it: trimmed, trailing slashes
      removed, and `https://` put in front unless it already starts with
      "http". */
  function NormalizeUrl(raw: string): string {
    var clean := StripTrailing(Trim(raw), '/');
    if StartsWith(clean, Http) then clean else Https + clean
  }

  /** The added prefix starts with "http" and leaves the last character alone. */
  lemma PrefixedUrl(clean: string)
    ensures StartsWith(Https + clean, Http)
    ensures clean != [] ==> (Https + clean)[|Https + clean| - 1] == clean[|clean| - 1]
  {
    assert (Https + clean)[..4] == Http;
  }

  /** Every stored URL starts with "http", and what follows the prefix (if
      one was added) is the trimmed input up to its trailing slashes. */
  lemma NormalizeUrlShape(raw: string)
    ensures StartsWith(NormalizeUrl(raw), Http)
    ensures var t := Trim(raw); var clean := StripTrailing(t, '/');
      && clean == t[..|clean|]
      && (forall i :: |clean| <= i < |t| ==> t[i] == '/')
      && (NormalizeUrl(raw) == clean <==> StartsWith(clean, Http))
      && (!StartsWith(clean, Http) ==> NormalizeUrl(raw) == Https + clean)
  {
    var clean := StripTrailing(Trim(raw), '/');
    PrefixedUrl(clean);
    if !StartsWith(clean, Http) {
      assert |Https + clean| != |clean|;
    }
  }

  /** Cleaning a URL that is already clean, with a scheme, no surrounding
      whitespace and no trailing slash, leaves it as it is. */
  lemma NormalizeUrlKeepsCleanUrl(url: string)
    requires StartsWith(url, Http)
    requires !IsWhitespace(url[|url| - 1]) && url[|url| - 1] != '/'
    ensures NormalizeUrl(url) == url
  {
    TrimOfTrimmed(url);
  }

  /** Cleaning is idempotent whenever the cleaned text is non-empty and ends
      in something other than whitespace: a second pass changes nothing. */
  lemma NormalizeUrlIdempotent(raw: string)
    requires var clean := StripTrailing(Trim(raw), '/');
      clean != [] && !IsWhitespace(clean[|clean| - 1])
    ensures NormalizeUrl(NormalizeUrl(raw)) == NormalizeUrl(raw)
  {
    var clean := StripTrailing(Trim(raw), '/');
    PrefixedUrl(clean);
    NormalizeUrlKeepsCleanUrl(NormalizeUrl(raw));
  }

  const HttpScheme := "http://"

  /** The URL names its scheme. */
  predicate HasScheme(s: string) {
    StartsWith(s, HttpScheme) || StartsWith(s, Https)
  }

  /** As written, a host whose name starts with "http" is taken for a URL
      with a scheme and kept bare. */
  lemma NormalizeUrlKeepsBareHost()
    ensures NormalizeUrl("httpbin.org") == "httpbin.org"
    ensures !HasScheme(NormalizeUrl("httpbin.org"))
  {
    var host := "httpbin.org";
    TrimOfTrimmed(host);
    assert StripTrailing(host, '/') == host;
    assert host[..4] == Http;
    assert host[..7][4] != HttpScheme[4] && host[..8][4] != Https[4];
  }

  /** As written, cleaning is not idempotent on the empty URL: the added
      "https://" loses its slashes on a second pass. */
  lemma NormalizeUrlOfEmpty()
    ensures NormalizeUrl("") == Https
    ensures NormalizeUrl(Https) == "https:"
  {
    assert StripTrailing(Trim(""), '/') == "";
    TrimOfTrimmed(Https);
    assert StripTrailing(Https, '/') == StripTrailing("https:/", '/') == StripTrailing("https:", '/');
    assert "https:"[..4] == Http;
  }

  /** The store URL as evidently intended: `https://` is put in front
      unless the cleaned URL already names the http or https scheme. */
  function StoreUrl(raw: string): string {
    var clean := StripTrailing(Trim(raw), '/');
    if HasScheme(clean) then clean else Https + clean
  }

  /** The intended store URL always names a scheme, and it differs from the
      code as written only for a bare host whose name starts with "http". */
  lemma StoreUrlHasScheme(raw: string)
    ensures HasScheme(StoreUrl(raw)) && StartsWith(StoreUrl(raw), Http)
    ensures var clean := StripTrailing(Trim(raw), '/');
      HasScheme(clean) || !StartsWith(clean, Http) ==> StoreUrl(raw) == NormalizeUrl(raw)
  {
    var clean := StripTrailing(Trim(raw), '/');
    if HasScheme(clean) {
      SchemeStartsWithHttp(clean);
    } else {
      PrefixedHasScheme(clean);
    }
  }

  /** The host the code as written leaves bare gets its scheme. */
  lemma StoreUrlOfBareHost()
    ensures StoreUrl("httpbin.org") == Https + "httpbin.org"
  {
    NormalizeUrlKeepsBareHost();
  }

  /** Either scheme begins with "http". */
  lemma SchemeStartsWithHttp(s: string)
    requires HasScheme(s)
    ensures StartsWith(s, Http)
  {
    if StartsWith(s, HttpScheme) {
      assert s[..4] == s[..|HttpScheme|][..4];
    } else {
      assert s[..4] == s[..|Https|][..4];
    }
  }

  /** Putting "https://" in front gives a URL that names its scheme. */
  lemma PrefixedHasScheme(s: string)
    ensures HasScheme(Https + s) && StartsWith(Https + s, Http)
  {
    assert (Https + s)[..|Https|] == Https;
    assert (Https + s)[..4] == Http;
  }

  /** The outcome of paging through one list from `page` on: the non-empty
      pages received, and whether the page that ended the loop failed. */
  datatype Drain<T> = Drain(chunks: seq<seq<T>>, failed: bool)

  /** Requests `page`, `page + 1`, ... until a page is empty, falsy or fails. */
  function DrainFrom<T>(src: PageSource<T>, page: int): Drain<T>
    decreases |src.pages| + 1 - page
  {
    match src.At(page)
    case Failed => Drain([], true)
    case Ok(body) =>
      if body.IsEnd() then Drain([], false)
      else
        var rest := DrainFrom(src, page + 1);
        Drain([body.items] + rest.chunks, rest.failed)
  }

  /** The drain from `page` is a run of non-empty lists on consecutive
      pages, ended by the first page that failed or was empty. */
  lemma {:induction false} DrainFromShape<T>(src: PageSource<T>, page: int)
    ensures var d := DrainFrom(src, page);
      && (forall i :: 0 <= i < |d.chunks| ==> d.chunks[i] != [] && src.At(page + i) == Ok(Items(d.chunks[i])))
      && (d.failed <==> src.At(page + |d.chunks|).Failed?)
      && (!d.failed ==> src.At(page + |d.chunks|).body.IsEnd())
    decreases |src.pages| + 1 - page
  {
    var d := DrainFrom(src, page);
    if src.At(page).Ok? && !src.At(page).body.IsEnd() {
      DrainFromShape(src, page + 1);
      var rest := DrainFrom(src, page + 1);
      forall i | 0 <= i < |d.chunks| ensures d.chunks[i] != [] && src.At(page + i) == Ok(Items(d.chunks[i])) {
        if i > 0 {
          assert d.chunks[i] == rest.chunks[i - 1];
        }
      }
    }
  }

  /** A non-empty page is the first chunk of the drain from it. */
  lemma DrainStep<T>(src: PageSource<T>, page: int, items: seq<T>)
    requires src.At(page) == Ok(Items(items)) && items != []
    ensures var rest := DrainFrom(src, page + 1);
      DrainFrom(src, page) == Drain([items] + rest.chunks, rest.failed)
  {
  }

  /** The loop's step: a non-empty page moves from the drain still to come
      to the chunks already gathered. */
  lemma DrainAdvance<T>(src: PageSource<T>, page: int, chunks: seq<seq<T>>, items: seq<T>, d: Drain<T>)
    requires src.At(page) == Ok(Items(items)) && items != []
    requires d.chunks == chunks + DrainFrom(src, page).chunks && d.failed == DrainFrom(src, page).failed
    ensures d.chunks == (chunks + [items]) + DrainFrom(src, page + 1).chunks
    ensures d.failed == DrainFrom(src, page + 1).failed
  {
    DrainStep(src, page, items);
    var rest := DrainFrom(src, page + 1).chunks;
    assert chunks + ([items] + rest) == (chunks + [items]) + rest;
  }

  /** The pages that ended a drain are the first that are not non-empty
      lists: two drains from the same page are identical, whatever way they
      are described. Any list of non-empty consecutive pages followed by a
      stopping page is the drain. */
  lemma {:induction false} DrainUnique<T>(src: PageSource<T>, page: int, d: Drain<T>)
    requires forall i :: 0 <= i < |d.chunks| ==> d.chunks[i] != [] && src.At(page + i) == Ok(Items(d.chunks[i]))
    requires src.At(page + |d.chunks|).Failed? || src.At(page + |d.chunks|).body.IsEnd()
    requires d.failed <==> src.At(page + |d.chunks|).Failed?
    ensures DrainFrom(src, page) == d
    decreases |d.chunks|
  {
    if d.chunks != [] {
      var tail := Drain(d.chunks[1..], d.failed);
      forall i | 0 <= i < |tail.chunks|
        ensures tail.chunks[i] != [] && src.At(page + 1 + i) == Ok(Items(tail.chunks[i]))
      {
        assert tail.chunks[i] == d.chunks[i + 1];
      }
      DrainUnique(src, page + 1, tail);
      assert src.At(page) == Ok(Items(d.chunks[0]));
      assert d.chunks == [d.chunks[0]] + tail.chunks;
    }
  }

  /** A source whose every reply is a non-empty list drains completely. */
  lemma FullSourceDrains<T>(src: PageSource<T>)
    requires forall i :: 0 <= i < |src.pages| ==> src.pages[i].Ok? && src.pages[i].body.Items? && src.pages[i].body.items != []
    ensures var d := DrainFrom(src, 1);
      && !d.failed
      && |d.chunks| == |src.pages|
      && forall i :: 0 <= i < |d.chunks| ==> Ok(Items(d.chunks[i])) == src.pages[i]
  {
    var d := Drain(seq(|src.pages|, i requires 0 <= i < |src.pages| => src.pages[i].body.items), false);
    forall i | 0 <= i < |d.chunks|
      ensures d.chunks[i] != [] && src.At(1 + i) == Ok(Items(d.chunks[i]))
    {
      assert src.At(1 + i) == src.pages[i];
    }
    DrainUnique(src, 1, d);
  }

  /** A failure on page `k` (with pages before it non-empty) makes the whole
      drain fail. */
  lemma FailureIsFatal<T>(src: PageSource<T>, k: nat)
    requires 1 <= k <= |src.pages| && src.pages[k - 1].Failed?
    requires forall i :: 0 <= i < k - 1 ==> src.pages[i].Ok? && src.pages[i].body.Items? && src.pages[i].body.items != []
    ensures DrainFrom(src, 1).failed
    ensures |DrainFrom(src, 1).chunks| == k - 1
  {
    var d := Drain(seq(k - 1, i requires 0 <= i < k - 1 => src.pages[i].body.items), true);
    forall i | 0 <= i < |d.chunks|
      ensures d.chunks[i] != [] && src.At(1 + i) == Ok(Items(d.chunks[i]))
    {
      assert src.At(1 + i) == src.pages[i];
    }
    assert src.At(1 + |d.chunks|) == src.pages[k - 1];
    DrainUnique(src, 1, d);
  }

  /** What the sync returns when both loops end normally. */
  datatype Synced = Synced(products: seq<RemoteProduct>, orders: seq<RemoteOrder>)

  /** The last-sync bounds handed to `syncAll`; None means a full download. */
  datatype SyncOptions = SyncOptions(modifiedAfterProducts: Option<int>, modifiedAfterOrders: Option<int>)

  const StartProducts := "Iniciando sincronização de produtos..."
  const StartOrders := "Iniciando sincronização de pedidos..."

  const ProductsNoun := "produtos"
  const OrdersNoun := "pedidos"
  const DownloadedPrefix := "Baixados "
  const Ellipsis := "..."

  /** `Baixados ${n} <noun>...` */
  function Downloaded(n: nat, noun: string): string {
    DownloadedPrefix + DecimalString(n) + " " + noun + Ellipsis
  }

  /** The progress messages of a loop that received `chunks`: after each
      page, the number of items accumulated so far. */
  function Running<T>(chunks: seq<seq<T>>, noun: string): (m: seq<string>)
    ensures |m| == |chunks|
  {
    if chunks == [] then []
    else Running(chunks[..|chunks| - 1], noun) + [Downloaded(|Flatten(chunks)|, noun)]
  }

  /** One more page adds one message, reporting the new total. */
  lemma RunningSnoc<T>(chunks: seq<seq<T>>, chunk: seq<T>, noun: string)
    ensures Running(chunks + [chunk], noun) == Running(chunks, noun) + [Downloaded(|Flatten(chunks + [chunk])|, noun)]
  {
    assert (chunks + [chunk])[..|chunks|] == chunks;
  }

  /** The `i`-th message reports the size of the first `i + 1` pages
      together, and the counts grow strictly when no page is empty. */
  lemma {:induction false} RunningCounts<T>(chunks: seq<seq<T>>, noun: string, i: nat)
    requires i < |chunks|
    ensures Running(chunks, noun)[i] == Downloaded(|Flatten(chunks[..i + 1])|, noun)
    decreases |chunks|
  {
    var n := |chunks|;
    if i < n - 1 {
      RunningCounts(chunks[..n - 1], noun, i);
      assert chunks[..n - 1][..i + 1] == chunks[..i + 1];
    } else {
      assert chunks[..i + 1] == chunks;
    }
  }

  /** Each non-empty page raises the reported total by its own size. */
  lemma FlattenGrows<T>(chunks: seq<seq<T>>, i: nat)
    requires i + 1 < |chunks|
    ensures |Flatten(chunks[..i + 2])| == |Flatten(chunks[..i + 1])| + |chunks[i + 1]|
  {
    assert chunks[..i + 2][..i + 1] == chunks[..i + 1];
  }

  /** The requests a sync sends for the given settings and bounds: product
      pages 1 .. np, then order pages 1 .. nq, each to the store's address,
      with its entity's bound and the store's credentials. */
  predicate IsSyncPlan(sent: seq<Request>, config: StoreConfig, options: SyncOptions, np: nat, nq: nat) {
    && |sent| == np + nq
    && (forall i :: 0 <= i < np ==>
          sent[i] == Request(StoreUrl(config.url) + ProductsPath, PagedParams(i + 1, options.modifiedAfterProducts),
                             config.consumerKey, config.consumerSecret))
    && (forall i :: np <= i < np + nq ==>
          sent[i] == Request(StoreUrl(config.url) + OrdersPath, OrderParams(PagedParams(i - np + 1, options.modifiedAfterOrders)),
                             config.consumerKey, config.consumerSecret))
  }

  /** In a sync plan every product request carries exactly the product bound
      and every order request exactly the order bound, as `modified_after`. */
  lemma SyncPlanBounds(sent: seq<Request>, config: StoreConfig, options: SyncOptions, np: nat, nq: nat, i: nat)
    requires IsSyncPlan(sent, config, options, np, nq) && i < |sent|
    ensures var b := if i < np then options.modifiedAfterProducts else options.modifiedAfterOrders;
      && ("modified_after" in sent[i].params <==> b.Some?)
      && (b.Some? ==> sent[i].params["modified_after"] == Int(b.value))
      && sent[i].params["per_page"] == Int(100)
  {
    if i < np {
      PagedParamsShape(i + 1, options.modifiedAfterProducts);
    } else {
      PagedParamsShape(i - np + 1, options.modifiedAfterOrders);
      OrderParamsShape(PagedParams(i - np + 1, options.modifiedAfterOrders));
    }
  }

  class WooCommerceService {
    const url: string
    const consumerKey: string
    const consumerSecret: string

    /** Stores the cleaned URL, which names its scheme, and the API
        credentials. */
    constructor(config: StoreConfig)
      ensures url == StoreUrl(config.url)
      ensures HasScheme(url) && StartsWith(url, Http)
      ensures consumerKey == config.consumerKey && consumerSecret == config.consumerSecret
    {
      StoreUrlHasScheme(config.url);
      url := StoreUrl(config.url);
      consumerKey := config.consumerKey;
      consumerSecret := config.consumerSecret;
    }

    /** `getProducts(params)`: one GET of the product list with the caller's
        query; a failed call becomes the fixed products error. */
    function GetProducts(params: Params, src: PageSource<RemoteProduct>): (c: Call<RemoteProduct>)
      ensures c.request == Request(url + ProductsPath, params, consumerKey, consumerSecret)
      ensures src.At(PageOf(params)).Failed? <==> c.result == Failure(ProductsError)
      ensures src.At(PageOf(params)).Ok? ==> c.result == Success(src.At(PageOf(params)).body)
    {
      var request := Request(url + ProductsPath, params, consumerKey, consumerSecret);
      match src.At(PageOf(request.params))
      case Failed => Call(request, Failure(ProductsError))
      case Ok(body) => Call(request, Success(body))
    }

    /** `getOrders(params)`: one GET of the order list; the caller's query is
        spread over the defaults, and a failed call becomes the fixed orders
        error. */
    function GetOrders(params: Params, src: PageSource<RemoteOrder>): (c: Call<RemoteOrder>)
      ensures c.request == Request(url + OrdersPath, OrderParams(params), consumerKey, consumerSecret)
      ensures src.At(PageOf(OrderParams(params))).Failed? <==> c.result == Failure(OrdersError)
      ensures src.At(PageOf(OrderParams(params))).Ok? ==> c.result == Success(src.At(PageOf(OrderParams(params))).body)
    {
      var request := Request(url + OrdersPath, OrderParams(params), consumerKey, consumerSecret);
      match src.At(PageOf(request.params))
      case Failed => Call(request, Failure(OrdersError))
      case Ok(body) => Call(request, Success(body))
    }

    /** The request the product loop sends for `page`. */
    function ProductPageRequest(page: int, options: SyncOptions): Request {
      Request(url + ProductsPath, PagedParams(page, options.modifiedAfterProducts), consumerKey, consumerSecret)
    }

    /** The request the order loop sends for `page`. */
    function OrderPageRequest(page: int, options: SyncOptions): Request {
      Request(url + OrdersPath, OrderParams(PagedParams(page, options.modifiedAfterOrders)), consumerKey, consumerSecret)
    }

    /** The product requests for pages 1 .. n. */
    function ProductRequests(n: nat, options: SyncOptions): (rs: seq<Request>)
      ensures |rs| == n
      ensures forall i :: 0 <= i < n ==> rs[i] == ProductPageRequest(i + 1, options)
    {
      seq(n, i => ProductPageRequest(i + 1, options))
    }

    /** The order requests for pages 1 .. n. */
    function OrderRequests(n: nat, options: SyncOptions): (rs: seq<Request>)
      ensures |rs| == n
      ensures forall i :: 0 <= i < n ==> rs[i] == OrderPageRequest(i + 1, options)
    {
      seq(n, i => OrderPageRequest(i + 1, options))
    }

    lemma ProductRequestsSnoc(n: nat, options: SyncOptions)
      ensures ProductRequests(n + 1, options) == ProductRequests(n, options) + [ProductPageRequest(n + 1, options)]
    {
    }

    lemma OrderRequestsSnoc(n: nat, options: SyncOptions)
      ensures OrderRequests(n + 1, options) == OrderRequests(n, options) + [OrderPageRequest(n + 1, options)]
    {
    }

    /** Each sync request asks for 100 items, carries `modified_after` exactly
        when the matching option is set, and an order request keeps the
        default status list. */
    lemma SyncRequestShape(page: int, options: SyncOptions)
      ensures var q := ProductPageRequest(page, options).params;
        && q["page"] == Int(page) && q["per_page"] == Int(100)
        && ("modified_after" in q <==> options.modifiedAfterProducts.Some?)
        && "status" !in q
      ensures var q := OrderPageRequest(page, options).params;
        && q["page"] == Int(page) && q["per_page"] == Int(100)
        && ("modified_after" in q <==> options.modifiedAfterOrders.Some?)
        && q["status"] == Str(DefaultOrderStatus)
    {
    }

    /** What the product loop's request for `page` is and what it gets. */
    lemma ProductPageCall(page: int, modifiedAfter: Option<int>, src: PageSource<RemoteProduct>)
      ensures var c := GetProducts(PagedParams(page, modifiedAfter), src);
        && c.request == ProductPageRequest(page, SyncOptions(modifiedAfter, None))
        && (src.At(page).Failed? ==> c.result == Failure(ProductsError))
        && (src.At(page).Ok? ==> c.result == Success(src.At(page).body))
    {
      assert PageOf(PagedParams(page, modifiedAfter)) == page;
    }

    /** What the order loop's request for `page` is and what it gets. */
    lemma OrderPageCall(page: int, modifiedAfter: Option<int>, src: PageSource<RemoteOrder>)
      ensures var c := GetOrders(PagedParams(page, modifiedAfter), src);
        && c.request == OrderPageRequest(page, SyncOptions(None, modifiedAfter))
        && (src.At(page).Failed? ==> c.result == Failure(OrdersError))
        && (src.At(page).Ok? ==> c.result == Success(src.At(page).body))
    {
      assert PageOf(OrderParams(PagedParams(page, modifiedAfter))) == page;
    }

    /** The product loop of `syncAll`: requests pages 1, 2, ... with
        `per_page=100` (and `modified_after` when set) until a page is
        empty, appending each page and reporting the running count. */
    method ProductLoop(modifiedAfter: Option<int>, src: PageSource<RemoteProduct>)
      returns (r: Result<seq<RemoteProduct>, string>, progress: seq<string>, sent: seq<Request>)
      ensures var d := DrainFrom(src, 1);
        && r == (if d.failed then Failure(ProductsError) else Success(Flatten(d.chunks)))
        && progress == Running(d.chunks, ProductsNoun)
        && sent == ProductRequests(|d.chunks| + 1, SyncOptions(modifiedAfter, None))
    {
      progress, sent := [], [];
      var page := 1;
      var products: seq<RemoteProduct> := [];
      ghost var chunks: seq<seq<RemoteProduct>> := [];
      ghost var d := DrainFrom(src, 1);
      while true
        invariant page == |chunks| + 1
        invariant d.chunks == chunks + DrainFrom(src, page).chunks
        invariant d.failed == DrainFrom(src, page).failed
        invariant products == Flatten(chunks)
        invariant progress == Running(chunks, ProductsNoun)
        invariant sent == ProductRequests(|chunks|, SyncOptions(modifiedAfter, None))
        decreases |src.pages| + 1 - page
      {
        var call := GetProducts(PagedParams(page, modifiedAfter), src);
        ProductPageCall(page, modifiedAfter, src);
        ProductRequestsSnoc(|chunks|, SyncOptions(modifiedAfter, None));
        sent := sent + [call.request];
        if call.result.Failure? {
          assert d.chunks == chunks;
          r := Failure(call.result.error);
          return;
        }
        var chunk := call.result.value;
        if chunk.IsEnd() {
          break;
        }
        DrainAdvance(src, page, chunks, chunk.items, d);
        FlattenAppend(chunks, [chunk.items]);
        RunningSnoc(chunks, chunk.items, ProductsNoun);
        products := products + chunk.items;
        chunks := chunks + [chunk.items];
        progress := progress + [Downloaded(|products|, ProductsNoun)];
        page := page + 1;
      }
      assert d.chunks == chunks;
      r := Success(products);
    }

    /** The order loop of `syncAll`: the same paging over `getOrders`, whose
        defaults the loop's `per_page=100` overrides. */
    method OrderLoop(modifiedAfter: Option<int>, src: PageSource<RemoteOrder>)
      returns (r: Result<seq<RemoteOrder>, string>, progress: seq<string>, sent: seq<Request>)
      ensures var d := DrainFrom(src, 1);
        && r == (if d.failed then Failure(OrdersError) else Success(Flatten(d.chunks)))
        && progress == Running(d.chunks, OrdersNoun)
        && sent == OrderRequests(|d.chunks| + 1, SyncOptions(None, modifiedAfter))
    {
      progress, sent := [], [];
      var page := 1;
      var orders: seq<RemoteOrder> := [];
      ghost var chunks: seq<seq<RemoteOrder>> := [];
      ghost var d := DrainFrom(src, 1);
      while true
        invariant page == |chunks| + 1
        invariant d.chunks == chunks + DrainFrom(src, page).chunks
        invariant d.failed == DrainFrom(src, page).failed
        invariant orders == Flatten(chunks)
        invariant progress == Running(chunks, OrdersNoun)
        invariant sent == OrderRequests(|chunks|, SyncOptions(None, modifiedAfter))
        decreases |src.pages| + 1 - page
      {
        var call := GetOrders(PagedParams(page, modifiedAfter), src);
        OrderPageCall(page, modifiedAfter, src);
        OrderRequestsSnoc(|chunks|, SyncOptions(None, modifiedAfter));
        sent := sent + [call.request];
        if call.result.Failure? {
          assert d.chunks == chunks;
          r := Failure(call.result.error);
          return;
        }
        var chunk := call.result.value;
        if chunk.IsEnd() {
          break;
        }
        DrainAdvance(src, page, chunks, chunk.items, d);
        FlattenAppend(chunks, [chunk.items]);
        RunningSnoc(chunks, chunk.items, OrdersNoun);
        orders := orders + chunk.items;
        chunks := chunks + [chunk.items];
        progress := progress + [Downloaded(|orders|, OrdersNoun)];
        page := page + 1;
      }
      assert d.chunks == chunks;
      r := Success(orders);
    }

    /** The requests of a sync, seen from the settings: they follow the
        sync plan; the first asks for product page 1 with the product bound;
        and a sync without bounds sends `modified_after` in none of its
        requests, whether or not the order loop runs. */
    lemma SyncRequests(sent: seq<Request>, n: nat, m: nat, options: SyncOptions, productsFailed: bool, config: StoreConfig)
      requires n >= 1
      requires url == StoreUrl(config.url) && consumerKey == config.consumerKey && consumerSecret == config.consumerSecret
      requires sent == ProductRequests(n, options) + (if productsFailed then [] else OrderRequests(m, options))
      ensures IsSyncPlan(sent, config, options, n, if productsFailed then 0 else m)
      ensures |sent| > 0 && sent[0].params == PagedParams(1, options.modifiedAfterProducts)
      ensures options == SyncOptions(None, None) ==> forall i :: 0 <= i < |sent| ==> "modified_after" !in sent[i].params
    {
      var products, orders := ProductRequests(n, options), OrderRequests(m, options);
      assert sent[0] == products[0];
      forall i | 0 <= i < n
        ensures sent[i] == Request(StoreUrl(config.url) + ProductsPath, PagedParams(i + 1, options.modifiedAfterProducts),
                                   config.consumerKey, config.consumerSecret)
      {
        assert sent[i] == products[i];
      }
      if !productsFailed {
        forall i | n <= i < n + m
          ensures sent[i] == Request(StoreUrl(config.url) + OrdersPath, OrderParams(PagedParams(i - n + 1, options.modifiedAfterOrders)),
                                     config.consumerKey, config.consumerSecret)
        {
          assert sent[i] == orders[i - n];
        }
      }
      if options == SyncOptions(None, None) {
        forall i | 0 <= i < |sent| ensures "modified_after" !in sent[i].params {
          if i < n {
            assert sent[i] == products[i];
          } else {
            assert sent[i] == orders[i - n];
          }
        }
      }
    }

    /** `syncAll`: the product loop, then (only if it ended normally) the
        order loop, each announced by a start message. The first failed
        request throws its error, and the lists gathered so far are lost. */
    method SyncAll(options: SyncOptions, productSrc: PageSource<RemoteProduct>, orderSrc: PageSource<RemoteOrder>)
      returns (r: Result<Synced, string>, progress: seq<string>, sent: seq<Request>)
      ensures var dp, dq := DrainFrom(productSrc, 1), DrainFrom(orderSrc, 1);
        && (dp.failed ==> r == Failure(ProductsError))
        && (!dp.failed && dq.failed ==> r == Failure(OrdersError))
        && (!dp.failed && !dq.failed ==> r == Success(Synced(Flatten(dp.chunks), Flatten(dq.chunks))))
      ensures var dp, dq := DrainFrom(productSrc, 1), DrainFrom(orderSrc, 1);
        sent == ProductRequests(|dp.chunks| + 1, options)
                + (if dp.failed then [] else OrderRequests(|dq.chunks| + 1, options))
      ensures var dp, dq := DrainFrom(productSrc, 1), DrainFrom(orderSrc, 1);
        progress == [StartProducts] + Running(dp.chunks, ProductsNoun)
                    + (if dp.failed then [] else [StartOrders] + Running(dq.chunks, OrdersNoun))
    {
      var products, told, asked := ProductLoop(options.modifiedAfterProducts, productSrc);
      progress := [StartProducts] + told;
      sent := asked;
      assert asked == ProductRequests(|asked|, options);
      if products.Failure? {
        r := Failure(products.error);
        return;
      }
      progress := progress + [StartOrders];
      var orders, told', asked' := OrderLoop(options.modifiedAfterOrders, orderSrc);
      progress := progress + told';
      sent := sent + asked';
      assert asked' == OrderRequests(|asked'|, options);
      if orders.Failure? {
        r := Failure(orders.error);
        return;
      }
      r := Success(Synced(products.value, orders.value));
    }
  }
}
