/** The news service: a search client that may or may not be configured, a
    three-way classification of its answer (success / empty / error), and
    the mapping of every search hit onto a fixed-shape news record. */
module NewsService {
  import opened PyValues
  import opened Strings

  /** One hit of the search client. `title` and `url` are always attributes
      of a hit; `published_date` and `text` may be missing. */
  datatype Hit = Hit(title: Value, url: Value, publishedDate: Option<Value>, text: Option<Value>)

  /** The arguments of `client.search(...)`; the window start is a clock
      reading in seconds. */
  datatype SearchQuery = SearchQuery(query: string, numResults: int, startPublished: int)

  /** What `client.search(...)` returns: a falsy object, an object without a
      `results` attribute, or a list of hits. */
  datatype Response = NoResponse | NoResultsAttribute | Hits(results: seq<Hit>)

  /** The configured search client; `None` when the API key is unset. */
  type SearchClient = SearchQuery -> Result<Response>

  /** One day, in the seconds the clock is read in. */
  const OneDay: int := 86400

  /** The `message` of a non-success answer. */
  datatype Note =
    | NotInitialized(withKeyHint: bool) // "Exa API가 초기화되지 않았습니다." (+ " EXA_API_KEY를 설정해주세요.")
    | NoTickerNews(ticker: string)      // "{ticker}에 대한 뉴스 검색 결과가 없습니다."
    | NoMarketNews                      // "시장 뉴스 검색 결과가 없습니다."
    | Failure(msg: Msg)                 // str(e)

  /** The dictionary a search returns. An error answer carries `data: None`
      and an empty one `data: []`; `errorType` is absent from the market
      news errors. */
  datatype NewsSearch =
    | SearchSuccess(ticker: Option<string>, query: string, count: int, news: seq<map<string, Value>>)
    | SearchEmpty(message: Note)
    | SearchError(errorType: Option<string>, message: Note)

  const NewsKeys: set<string> := {"title", "url", "published_date", "summary"}

  /** The news record of one hit: a missing publication date or text
      becomes "N/A". */
  function HitRecord(h: Hit): (d: map<string, Value>)
    ensures d.Keys == NewsKeys
    ensures d["title"] == h.title && d["url"] == h.url
    ensures h.publishedDate.Some? ==> d["published_date"] == h.publishedDate.value
    ensures h.publishedDate.None? ==> d["published_date"] == Str("N/A")
    ensures h.text.Some? ==> d["summary"] == h.text.value
    ensures h.text.None? ==> d["summary"] == Str("N/A")
  {
    map["title" := h.title, "url" := h.url,
        "published_date" := (if h.publishedDate.Some? then h.publishedDate.value else Str("N/A")),
        "summary" := (if h.text.Some? then h.text.value else Str("N/A"))]
  }

  /** The records of all hits, one per hit, in the provider's order. */
  function HitRecords(hs: seq<Hit>): (news: seq<map<string, Value>>)
    ensures |news| == |hs|
    ensures forall k :: 0 <= k < |hs| ==> news[k] == HitRecord(hs[k])
  {
    if hs == [] then [] else [HitRecord(hs[0])] + HitRecords(hs[1..])
  }

  /** The `for item in results.results` loop of both searches. */
  method CollectHits(hs: seq<Hit>) returns (news: seq<map<string, Value>>)
    ensures news == HitRecords(hs)
  {
    news := [];
    for i := 0 to |hs|
      invariant |news| == i
      invariant forall k :: 0 <= k < i ==> news[k] == HitRecord(hs[k])
    {
      news := news + [HitRecord(hs[i])];
    }
  }

  /** The `error_type` of an exception caught around the search: `ValueError`
      is a validation error, anything else its class name. */
  function ErrorType(e: Exc): (t: string)
    ensures e.kind == ValueError ==> t == "validation_error"
    ensures e.kind.ProviderFailure? ==> t == e.kind.className
  {
    if e.kind == ValueError then "validation_error" else KindName(e.kind)
  }

  /** Whether a response counts as "no result": falsy, without `results`, or
      with zero hits. */
  predicate NoHits(resp: Response) {
    !resp.Hits? || |resp.results| == 0
  }

  /** `NewsService.search_stock_news`. Validation comes before the client
      check; the query is the normalised ticker followed by " stock news",
      over the last day. */
  function SearchStockNewsOf(ticker: Value, limit: int, now: int, client: Option<SearchClient>): (r: NewsSearch)
    ensures !IsNonEmptyStr(ticker) ==>
              r == SearchError(Some("validation_error"), Failure(InvalidTicker(ticker)))
    ensures IsNonEmptyStr(ticker) && client.None? ==>
              r == SearchError(Some("api_not_initialized"), NotInitialized(true))
    ensures r.SearchEmpty? ==> r.message == NoTickerNews(Normalize(ticker.s))
    ensures r.SearchSuccess? ==>
              && ticker.Str? && client.Some?
              && r.ticker == Some(Normalize(ticker.s))
              && r.query == Normalize(ticker.s) + " stock news"
              && r.count == |r.news| > 0
    ensures r.SearchError? ==> r.errorType.Some?
  {
    if !IsNonEmptyStr(ticker) then
      SearchError(Some("validation_error"), Failure(InvalidTicker(ticker)))
    else if client.None? then
      SearchError(Some("api_not_initialized"), NotInitialized(true))
    else
      var t := Normalize(ticker.s);
      TickerAnswer(t, client.value(SearchQuery(t + " stock news", limit, now - OneDay)))
  }

  /** How the ticker search classifies what the client answered for the
      normalised ticker `t`. */
  function TickerAnswer(t: string, answer: Result<Response>): (r: NewsSearch)
    ensures r.SearchError? <==> answer.Raise?
    ensures r.SearchEmpty? <==> answer.Ok? && NoHits(answer.value)
    ensures r.SearchSuccess? ==> r.news == HitRecords(answer.value.results) && r.count == |r.news| > 0
  {
    match answer
    case Raise(e) => SearchError(Some(ErrorType(e)), Failure(e.msg))
    case Ok(resp) =>
      if NoHits(resp) then SearchEmpty(NoTickerNews(t))
      else SearchSuccess(Some(t), t + " stock news", |resp.results|, HitRecords(resp.results))
  }

  /** The `try` block of `search_stock_news` after the client call. */
  method ClassifyTickerAnswer(t: string, answer: Result<Response>) returns (r: NewsSearch)
    ensures r == TickerAnswer(t, answer)
  {
    if answer.Raise? {
      return SearchError(Some(ErrorType(answer.exc)), Failure(answer.exc.msg));
    }
    if NoHits(answer.value) {
      return SearchEmpty(NoTickerNews(t));
    }
    var newsList := CollectHits(answer.value.results);
    r := SearchSuccess(Some(t), t + " stock news", |newsList|, newsList);
  }

  method SearchStockNews(ticker: Value, limit: int, now: int, client: Option<SearchClient>) returns (r: NewsSearch)
    ensures r == SearchStockNewsOf(ticker, limit, now, client)
  {
    if !IsNonEmptyStr(ticker) {
      return SearchError(Some("validation_error"), Failure(InvalidTicker(ticker)));
    }
    if client.None? {
      return SearchError(Some("api_not_initialized"), NotInitialized(true));
    }
    var t := Normalize(ticker.s);
    var results := client.value(SearchQuery(t + " stock news", limit, now - OneDay));
    r := ClassifyTickerAnswer(t, results);
  }

  /** `NewsService.get_market_news`: the fixed query "stock market news" and
      the same classification, without `error_type`. */
  function MarketNewsOf(limit: int, now: int, client: Option<SearchClient>): (r: NewsSearch)
    ensures client.None? ==> r == SearchError(None, NotInitialized(false))
    ensures r.SearchError? ==> r.errorType.None?
    ensures r.SearchEmpty? ==> r.message == NoMarketNews
    ensures r.SearchSuccess? ==>
              r.ticker.None? && r.query == "stock market news" && r.count == |r.news| > 0
  {
    if client.None? then SearchError(None, NotInitialized(false))
    else
      match client.value(SearchQuery("stock market news", limit, now - OneDay))
      case Raise(e) => SearchError(None, Failure(e.msg))
      case Ok(resp) =>
        if NoHits(resp) then SearchEmpty(NoMarketNews)
        else SearchSuccess(None, "stock market news", |resp.results|, HitRecords(resp.results))
  }

  method GetMarketNews(limit: int, now: int, client: Option<SearchClient>) returns (r: NewsSearch)
    ensures r == MarketNewsOf(limit, now, client)
  {
    if client.None? {
      return SearchError(None, NotInitialized(false));
    }
    var query := "stock market news";
    var results := client.value(SearchQuery(query, limit, now - OneDay));
    if results.Raise? {
      return SearchError(None, Failure(results.exc.msg));
    }
    if NoHits(results.value) {
      return SearchEmpty(NoMarketNews);
    }
    var newsList := CollectHits(results.value.results);
    r := SearchSuccess(None, query, |newsList|, newsList);
  }

  /** The query a valid ticker search sends. */
  function TickerQuery(ticker: string, limit: int, now: int): SearchQuery {
    SearchQuery(Normalize(ticker) + " stock news", limit, now - OneDay)
  }

  /** The search sends exactly one query: the normalised ticker with
      " stock news", `limit` as the number of results, and a window that
      opens one day before now. Two clients that answer that query alike
      give the same answer, whatever they do on any other query. */
  lemma SearchSendsTickerQuery(ticker: string, limit: int, now: int, c1: SearchClient, c2: SearchClient)
    requires c1(TickerQuery(ticker, limit, now)) == c2(TickerQuery(ticker, limit, now))
    ensures SearchStockNewsOf(Str(ticker), limit, now, Some(c1))
         == SearchStockNewsOf(Str(ticker), limit, now, Some(c2))
  {
  }

  lemma MarketSendsFixedQuery(limit: int, now: int, c1: SearchClient, c2: SearchClient)
    requires c1(SearchQuery("stock market news", limit, now - OneDay))
          == c2(SearchQuery("stock market news", limit, now - OneDay))
    ensures MarketNewsOf(limit, now, Some(c1)) == MarketNewsOf(limit, now, Some(c2))
  {
  }

  /** The three-way classification: for a valid ticker and a configured
      client, the answer is empty exactly when the response has no hits,
      an error exactly when the search raised, and a success carrying one
      record per hit, in order, otherwise. */
  lemma SearchClassification(ticker: string, limit: int, now: int, client: SearchClient)
    requires |ticker| > 0
    ensures var resp := client(TickerQuery(ticker, limit, now));
            var r := SearchStockNewsOf(Str(ticker), limit, now, Some(client));
      && (r.SearchError? <==> resp.Raise?)
      && (r.SearchEmpty? <==> resp.Ok? && NoHits(resp.value))
      && (r.SearchSuccess? ==>
            && r.news == HitRecords(resp.value.results)
            && r.count == |resp.value.results|)
      && (resp.Raise? ==> r == SearchError(Some(ErrorType(resp.exc)), Failure(resp.exc.msg)))
  {
  }

  // ---------------------------------------------------------------------
  // get_stock_news

  const StockNewsKeys: set<string> := {"title", "summary", "source", "url", "published_at"}

  /** The normalised item of `get_stock_news`: missing fields become "" and
      a missing source "Exa". */
  function StockNewsItem(n: map<string, Value>): (d: map<string, Value>)
    ensures d.Keys == StockNewsKeys
    ensures d["title"] == Get(n, "title", Str("")) && d["summary"] == Get(n, "summary", Str(""))
    ensures d["source"] == Get(n, "source", Str("Exa")) && d["url"] == Get(n, "url", Str(""))
    ensures d["published_at"] == Get(n, "published_date", Str(""))
  {
    map["title" := Get(n, "title", Str("")), "summary" := Get(n, "summary", Str("")),
        "source" := Get(n, "source", Str("Exa")), "url" := Get(n, "url", Str("")),
        "published_at" := Get(n, "published_date", Str(""))]
  }

  function StockNewsItems(news: seq<map<string, Value>>): (r: seq<map<string, Value>>)
    ensures |r| == |news|
    ensures forall k :: 0 <= k < |news| ==> r[k] == StockNewsItem(news[k])
  {
    if news == [] then [] else [StockNewsItem(news[0])] + StockNewsItems(news[1..])
  }

  /** `NewsService.get_stock_news`: a plain list, never an exception; the
      list is empty unless the search succeeded. */
  function StockNewsOf(ticker: Value, limit: int, now: int, client: Option<SearchClient>): (r: seq<map<string, Value>>)
    ensures client.None? || !IsNonEmptyStr(ticker) ==> r == []
    ensures !SearchStockNewsOf(ticker, limit, now, client).SearchSuccess? ==> r == []
  {
    if client.None? || !IsNonEmptyStr(ticker) then []
    else match SearchStockNewsOf(ticker, limit, now, client)
      case SearchSuccess(_, _, _, news) => StockNewsItems(news)
      case _ => []
  }

  method GetStockNews(ticker: Value, limit: int, now: int, client: Option<SearchClient>)
    returns (formatted: seq<map<string, Value>>)
    ensures formatted == StockNewsOf(ticker, limit, now, client)
  {
    if client.None? || !IsNonEmptyStr(ticker) {
      return [];
    }
    var result := SearchStockNews(ticker, limit, now, client);
    if !result.SearchSuccess? {
      return [];
    }
    formatted := FormatStockNews(result.news);
  }

  /** The `for`/`append` loop of `get_stock_news` over the found news: one
      item per hit, in order. The per-item `try` never fires, since every
      hit is already a dict. */
  method FormatStockNews(news: seq<map<string, Value>>) returns (formatted: seq<map<string, Value>>)
    ensures formatted == StockNewsItems(news)
  {
    formatted := [];
    for i := 0 to |news|
      invariant |formatted| == i
      invariant forall k :: 0 <= k < i ==> formatted[k] == StockNewsItem(news[k])
    {
      formatted := formatted + [StockNewsItem(news[i])];
    }
  }

  /** The item made from the record of one hit: the hit has no source, so
      the item's is "Exa". */
  lemma ItemOfHit(h: Hit)
    ensures var d := StockNewsItem(HitRecord(h));
      && d["source"] == Str("Exa") && d["title"] == h.title && d["url"] == h.url
      && d["published_at"] == HitRecord(h)["published_date"]
      && d["summary"] == HitRecord(h)["summary"]
  {
    assert "source" !in HitRecord(h);
  }

  /** Every item the service returns comes from the search hit at the same
      position: five keys, source "Exa", the hit's title and url, and its
      publication date or "N/A". Nothing is dropped, so there are as many
      items as hits. */
  lemma StockNewsFromHits(ticker: string, limit: int, now: int, client: SearchClient)
    requires |ticker| > 0
    ensures var resp := client(TickerQuery(ticker, limit, now));
            var r := StockNewsOf(Str(ticker), limit, now, Some(client));
      && (resp.Ok? && resp.value.Hits? ==> |r| == |resp.value.results|)
      && (resp.Raise? || NoHits(resp.value) ==> r == [])
      && forall k :: 0 <= k < |r| ==>
           && resp.Ok? && resp.value.Hits? && k < |resp.value.results|
           && r[k].Keys == StockNewsKeys
           && r[k]["source"] == Str("Exa")
           && r[k]["title"] == resp.value.results[k].title
           && r[k]["url"] == resp.value.results[k].url
           && r[k]["published_at"] == HitRecord(resp.value.results[k])["published_date"]
           && r[k]["summary"] == HitRecord(resp.value.results[k])["summary"]
  {
    var resp := client(TickerQuery(ticker, limit, now));
    var r := StockNewsOf(Str(ticker), limit, now, Some(client));
    SearchClassification(ticker, limit, now, client);
    if resp.Ok? && !NoHits(resp.value) {
      var news := HitRecords(resp.value.results);
      assert r == StockNewsItems(news);
      forall k | 0 <= k < |r|
        ensures r[k] == StockNewsItem(HitRecord(resp.value.results[k]))
      {
        assert news[k] == HitRecord(resp.value.results[k]);
      }
      forall h | h in resp.value.results {
        ItemOfHit(h);
      }
    }
  }
}
