/**
 * The paginator of the client (`_request_paged`): it requests pages 1, 2, 3, ...
 * of a list endpoint, each with `page` and `per_page` merged into a copy of the
 * caller's parameters, yields the items of each page, and stops after the
 * first page that yields none.
 *
 * The generator is modelled drained: the method returns every item it yields,
 * the parameters of every request it made, and the exception that ended it, if
 * one did.
 */
module ApiPaging {
  import opened Wrappers
  import opened PyDict
  import opened PyInt
  import opened ApiRequest

  const RequestPageSize := 20

  /** A processor turns one decoded page into the items to yield, or raises. */
  type ItemProcessor = Json -> Result<seq<Json>, Error>

  /** The arguments of one `_request_paged` call. */
  datatype PagedQuery = PagedQuery(
    authToken: string,
    apiPath: string,
    params: Params,
    itemProcessor: Option<ItemProcessor>)

  /** `default_item_processor`: what iterating a decoded JSON value yields in Python. */
  function DefaultItems(data: Json): (r: Result<seq<Json>, Error>)
    ensures data.JArray? ==> r == Success(data.items)
    ensures data.JObject? ==>
      && r.Success? && |r.value| == |data.fields|
      && forall i :: 0 <= i < |data.fields| ==> r.value[i] == JString(data.fields[i].0)
    ensures data.JString? ==>
      && r.Success? && |r.value| == |data.s|
      && forall i :: 0 <= i < |data.s| ==> r.value[i] == JString([data.s[i]])
    ensures r.Failure? <==> data.JNull? || data.JBool? || data.JNumber?
  {
    match data
    case JArray(items) => Success(items)
    case JObject(fields) => Success(seq(|fields|, i requires 0 <= i < |fields| => JString(fields[i].0)))
    case JString(s) => Success(seq(|s|, i requires 0 <= i < |s| => JString([s[i]])))
    case _ => Failure(NotIterable(data))
  }

  /** The processor a query uses: its own, or the default one. */
  function ProcessorOf(q: PagedQuery): ItemProcessor
  {
    if q.itemProcessor.None? then DefaultItems else q.itemProcessor.value
  }

  /** `parameter_collection.copy()` updated with `page=str(page)` and `per_page=str(20)`. */
  function PagedParams(params: Params, page: nat): (r: Params)
    ensures Get(r, "page") == Some(Str(NatToString(page)))
    ensures Get(r, "per_page") == Some(Str("20"))
    ensures forall k :: k != "page" && k != "per_page" ==> Get(r, k) == Get(params, k)
    ensures Keys(r) == Keys(params) + {"page", "per_page"}
    ensures |KeyOrder(params)| <= |KeyOrder(r)| && KeyOrder(r)[..|KeyOrder(params)|] == KeyOrder(params)
    ensures "page" !in Keys(params) && "per_page" !in Keys(params) ==>
      KeyOrder(r) == KeyOrder(params) + ["page", "per_page"]
  {
    assert NatToString(RequestPageSize) == "20";
    var withPage := Set(params, "page", Str(NatToString(page)));
    Set(withPage, "per_page", Str(NatToString(RequestPageSize)))
  }

  /** What each page yields: its items, or the exception its request or its processing raises. */
  type PageSource = nat -> Result<seq<Json>, Error>

  /**
   * One pass of the loop body of `_request_paged` for page `page`: a GET of
   * `q.apiPath` with `PagedParams(q.params, page)`, then the item processor.
   * The GET goes through the corrected `Request`, so an HTTP error carries the
   * body's text (`ErrorFromHttp`), not the `repr` line 71 builds.
   */
  function PagesOf(env: Env, q: PagedQuery): PageSource
  {
    (page: nat) =>
      match Request(env, Some(q.authToken), q.apiPath, None, PagedParams(q.params, page))
      case Failure(e) => Failure(e)
      case Success(data) => ProcessorOf(q)(data)
  }

  /** The paginator stops after this page: it yields nothing, or it raises. */
  predicate LastPage(pages: PageSource, page: nat)
  {
    pages(page).Failure? || pages(page).value == []
  }

  /** The items of pages 1 .. `page` - 1, in order. */
  function ItemsBefore(pages: PageSource, page: nat): seq<Json>
    requires forall j :: 1 <= j < page ==> !LastPage(pages, j)
  {
    if page <= 1 then []
    else
      assert !LastPage(pages, page - 1);
      ItemsBefore(pages, page - 1) + pages(page - 1).value
  }

  /**
   * The loop of `_request_paged`, drained: for page 1, 2, 3, ... fetch the page
   * (its request with `PagedParams` and its processing, `PagesOf`), yield its
   * items, and stop after the first page that yields none or raises.
   * `requested` lists the page numbers fetched, in order. The source loops
   * for ever when no page is ever last; the precondition names that case.
   */
  method RequestPaged(fetchPage: PageSource) returns (items: seq<Json>, requested: seq<nat>, err: Option<Error>)
    requires exists k: nat :: 1 <= k && LastPage(fetchPage, k)
    ensures |requested| >= 1
    ensures forall i :: 0 <= i < |requested| ==> requested[i] == i + 1
    ensures LastPage(fetchPage, |requested|)
    ensures forall j :: 1 <= j < |requested| ==> !LastPage(fetchPage, j)
    ensures items == ItemsBefore(fetchPage, |requested|)
    ensures err.Some? <==> fetchPage(|requested|).Failure?
    ensures err.Some? ==> err.value == fetchPage(|requested|).error
  {
    ghost var stop: nat :| 1 <= stop && LastPage(fetchPage, stop);
    var requestPage := 1;
    var active := true;
    items, requested, err := [], [], None;
    while active
      invariant 1 <= requestPage && |requested| == requestPage - 1
      invariant forall i :: 0 <= i < |requested| ==> requested[i] == i + 1
      invariant err.None?
      invariant active ==> requestPage <= stop
      invariant active ==> forall j :: 1 <= j < requestPage ==> !LastPage(fetchPage, j)
      invariant active ==> items == ItemsBefore(fetchPage, requestPage)
      invariant !active ==> 2 <= requestPage
      invariant !active ==> forall j :: 1 <= j < requestPage - 1 ==> !LastPage(fetchPage, j)
      invariant !active ==> LastPage(fetchPage, requestPage - 1) && fetchPage(requestPage - 1).Success?
      invariant !active ==> items == ItemsBefore(fetchPage, requestPage - 1)
      decreases if active then stop - requestPage + 1 else 0
    {
      var processed := fetchPage(requestPage);
      requested := requested + [requestPage];
      if processed.Failure? {
        err := Some(processed.error);
        return;
      }
      items, active := YieldItems(items, processed.value);
      if active {
        ItemsBeforeNext(fetchPage, requestPage);
      }
      requestPage := requestPage + 1;
    }
  }

  /**
   * The inner loop of `_request_paged`: yield each item of one processed page
   * in order, and stay active exactly when the page yielded something.
   */
  method YieldItems(items: seq<Json>, batch: seq<Json>) returns (yielded: seq<Json>, active: bool)
    ensures yielded == items + batch
    ensures active <==> batch != []
  {
    active := false;
    yielded := items;
    for i := 0 to |batch|
      invariant active == (i > 0)
      invariant yielded == items + batch[..i]
    {
      active := true;
      yielded := yielded + [batch[i]];
    }
  }

  /** A page that does not end the loop adds its items after those of the pages before it. */
  lemma ItemsBeforeNext(fetchPage: PageSource, page: nat)
    requires 1 <= page
    requires forall j :: 1 <= j < page ==> !LastPage(fetchPage, j)
    requires !LastPage(fetchPage, page)
    ensures ItemsBefore(fetchPage, page + 1) == ItemsBefore(fetchPage, page) + fetchPage(page).value
  {
  }

  /**
   * What one pass of the loop body gets for page `page`: the exception of its
   * request, or what the processor makes of the decoded page; with the default
   * processor a JSON array page yields its items.
   */
  lemma PagesOfPage(env: Env, q: PagedQuery, page: nat)
    ensures var outcome := env.transport(
        BuildRequest(env.codec, Some(q.authToken), q.apiPath, None, PagedParams(q.params, page)));
      && (outcome.HttpError? ==> PagesOf(env, q)(page) == Failure(ErrorFromHttp(outcome.code, outcome.body)))
      && (outcome.Response? ==> PagesOf(env, q)(page) == ProcessorOf(q)(outcome.data))
      && (outcome.Response? && q.itemProcessor.None? && outcome.data.JArray? ==>
            PagesOf(env, q)(page) == Success(outcome.data.items))
  {
    var params := PagedParams(q.params, page);
    var result := Request(env, Some(q.authToken), q.apiPath, None, params);
    assert PagesOf(env, q)(page) == if result.Failure? then Failure(result.error) else ProcessorOf(q)(result.value);
  }

  /**
   * `_request_paged` put together: the drained loop of `RequestPaged` over the
   * pages that `_request` and the query's item processor give.
   */
  method RequestPagedQuery(env: Env, q: PagedQuery) returns (items: seq<Json>, requested: seq<nat>, err: Option<Error>)
    requires exists k: nat :: 1 <= k && LastPage(PagesOf(env, q), k)
    ensures |requested| >= 1
    ensures forall i :: 0 <= i < |requested| ==> requested[i] == i + 1
    ensures LastPage(PagesOf(env, q), |requested|)
    ensures forall j :: 1 <= j < |requested| ==> !LastPage(PagesOf(env, q), j)
    ensures items == ItemsBefore(PagesOf(env, q), |requested|)
    ensures err.Some? <==> PagesOf(env, q)(|requested|).Failure?
    ensures err.Some? ==> err.value == PagesOf(env, q)(|requested|).error
  {
    items, requested, err := RequestPaged(PagesOf(env, q));
  }

  /** Page `page` is a GET of `apiPath` whose query carries the paged parameters, with the token header and no body. */
  lemma PageRequestIsQueryGet(codec: Codec, q: PagedQuery, page: nat)
    ensures var r := BuildRequest(codec, Some(q.authToken), q.apiPath, None, PagedParams(q.params, page));
      && r.url == ApiBaseUrl + "/" + q.apiPath + "?" + codec.urlencode(PagedParams(q.params, page))
      && r.httpMethod.None? && r.data.None?
      && Get(r.headers, "Authorization") == Some("token " + q.authToken)
  {
    assert "page" in Keys(PagedParams(q.params, page));
  }

  /** Two different pages are never requested with the same parameters. */
  lemma PagedParamsDistinct(params: Params, m: nat, n: nat)
    requires m != n
    ensures PagedParams(params, m) != PagedParams(params, n)
  {
    NatToStringInjective(m, n);
  }

  /** The items of earlier pages come first, in order: `ItemsBefore` only grows at its end. */
  lemma {:induction false} ItemsBeforePrefix(fetchPage: PageSource, m: nat, n: nat)
    requires m <= n
    requires forall j :: 1 <= j < n ==> !LastPage(fetchPage, j)
    ensures |ItemsBefore(fetchPage, m)| <= |ItemsBefore(fetchPage, n)|
    ensures ItemsBefore(fetchPage, n)[..|ItemsBefore(fetchPage, m)|] == ItemsBefore(fetchPage, m)
    decreases n - m
  {
    if m < n {
      ItemsBeforePrefix(fetchPage, m, n - 1);
      var before := ItemsBefore(fetchPage, n - 1);
      if n > 1 {
        assert !LastPage(fetchPage, n - 1);
        assert ItemsBefore(fetchPage, n) == before + fetchPage(n - 1).value;
        assert (before + fetchPage(n - 1).value)[..|before|] == before;
      }
    }
  }

  /** Pages of exactly `RequestPageSize` items before page `n` give `RequestPageSize` items each. */
  lemma {:induction false} ItemsBeforeFullPages(fetchPage: PageSource, n: nat)
    requires 1 <= n
    requires forall j :: 1 <= j < n ==> fetchPage(j).Success? && |fetchPage(j).value| == RequestPageSize
    ensures forall j :: 1 <= j < n ==> !LastPage(fetchPage, j)
    ensures |ItemsBefore(fetchPage, n)| == RequestPageSize * (n - 1)
  {
    if n > 1 {
      ItemsBeforeFullPages(fetchPage, n - 1);
    }
  }

  /** A first page that yields nothing ends the sequence at once: no items, one request. */
  method EmptyFirstPage(fetchPage: PageSource) returns (items: seq<Json>, requested: seq<nat>)
    requires fetchPage(1) == Success([])
    ensures items == [] && requested == [1]
  {
    assert LastPage(fetchPage, 1);
    var err;
    items, requested, err := RequestPaged(fetchPage);
  }

  /** `n` full pages then an empty one: `20 * n` items, in page order, after `n + 1` requests. */
  method FullPagesThenEmpty(fetchPage: PageSource, n: nat) returns (items: seq<Json>, requested: seq<nat>)
    requires forall j :: 1 <= j <= n ==> fetchPage(j).Success? && |fetchPage(j).value| == RequestPageSize
    requires fetchPage(n + 1) == Success([])
    ensures |requested| == n + 1
    ensures |items| == RequestPageSize * n
    ensures forall j :: 1 <= j <= n ==> items[RequestPageSize * (j - 1)..RequestPageSize * j] == fetchPage(j).value
  {
    assert LastPage(fetchPage, n + 1);
    var err;
    items, requested, err := RequestPaged(fetchPage);
    ItemsBeforeFullPages(fetchPage, n + 1);
    forall j | 1 <= j <= n
      ensures items[RequestPageSize * (j - 1)..RequestPageSize * j] == fetchPage(j).value
    {
      ItemsBeforeFullPages(fetchPage, j);
      ItemsBeforePrefix(fetchPage, j + 1, n + 1);
    }
  }
}
