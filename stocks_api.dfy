/** The two stock routes: the trending route (top stock plus its news) and
    the ticker route (snapshot plus its news). Each turns the service
    answers into an HTTP status, parses every news hit into a `NewsItem`
    and skips the hits that do not validate. */
module StocksApi {
  import opened PyValues
  import opened Strings
  import opened StockService
  import opened NewsService

  /** `datetime.fromisoformat`: the instant it reads, or `None` where it
      raises `ValueError`. */
  type IsoParser = string -> Option<int>

  /** The `NewsItem` model; `published_at` is an instant in seconds. */
  datatype NewsItem = NewsItem(
    title: string, summary: string, source: string, url: string,
    publishedAt: int, relatedTickers: seq<string>)

  /** The `detail` of an `HTTPException`. */
  datatype Detail =
    | Message(msg: Msg)      // the service's message or error text
    | InvalidCode            // "유효한 종목 코드를 입력하세요."
    | Unprocessable          // the framework's rejection of a query value

  datatype Http<+T> = Response(body: T) | HttpError(status: int, detail: Detail)

  /** `published_at`: a non-empty string is read as ISO 8601 with a trailing
      `Z` spelled `+00:00`; anything else, or a string that does not parse,
      is the current time. */
  function PublishedAt(pub: Value, parse: IsoParser, now: int): (t: int)
    ensures !(pub.Str? && |pub.s| > 0) ==> t == now
    ensures pub.Str? && |pub.s| > 0 && parse(ReplaceZ(pub.s)).Some? ==> t == parse(ReplaceZ(pub.s)).value
    ensures pub.Str? && |pub.s| > 0 && parse(ReplaceZ(pub.s)).None? ==> t == now
  {
    if pub.Str? && |pub.s| > 0 then
      match parse(ReplaceZ(pub.s))
      case Some(t) => t
      case None => now
    else now
  }

  /** One iteration of the news loop: `NewsItem(...)` validates only when
      title, summary and url are strings and the ticker is a string;
      otherwise it raises a validation error (a `ValueError`) and the hit is
      skipped. */
  function ToNewsItem(news: map<string, Value>, ticker: Value, parse: IsoParser, now: int): (r: Option<NewsItem>)
    ensures r.Some? <==>
              Get(news, "title", Str("")).Str? && Get(news, "summary", Str("")).Str?
              && Get(news, "url", Str("")).Str? && ticker.Str?
    ensures r.Some? ==>
              && r.value.source == "Exa"
              && r.value.relatedTickers == [ticker.s]
              && r.value.title == Get(news, "title", Str("")).s
              && r.value.summary == Get(news, "summary", Str("")).s
              && r.value.url == Get(news, "url", Str("")).s
              && r.value.publishedAt == PublishedAt(Get(news, "published_date", Str("")), parse, now)
  {
    var title, summary, url := Get(news, "title", Str("")), Get(news, "summary", Str("")), Get(news, "url", Str(""));
    if title.Str? && summary.Str? && url.Str? && ticker.Str? then
      Some(NewsItem(title.s, summary.s, "Exa", url.s,
                    PublishedAt(Get(news, "published_date", Str("")), parse, now), [ticker.s]))
    else None
  }

  /** The items that validate, in the order of the hits. */
  function ParsedNews(hits: seq<map<string, Value>>, ticker: Value, parse: IsoParser, now: int): (r: seq<NewsItem>)
    ensures |r| <= |hits|
    ensures forall k :: 0 <= k < |r| ==> r[k].source == "Exa" && ticker.Str? && r[k].relatedTickers == [ticker.s]
  {
    if hits == [] then []
    else
      var item := ToNewsItem(hits[0], ticker, parse, now);
      var first := if item.Some? then [item.value] else [];
      var rest := ParsedNews(hits[1..], ticker, parse, now);
      var r := first + rest;
      assert forall k :: 0 <= k < |r| ==> r[k] == (if k < |first| then item.value else rest[k - |first|]);
      r
  }

  /** Skipping is done hit by hit: the items of two runs of hits are the
      items of the first run followed by the items of the second. */
  lemma {:induction false} ParsedNewsAppend(a: seq<map<string, Value>>, b: seq<map<string, Value>>, ticker: Value, parse: IsoParser, now: int)
    ensures ParsedNews(a + b, ticker, parse, now) == ParsedNews(a, ticker, parse, now) + ParsedNews(b, ticker, parse, now)
  {
    if a != [] {
      var first := ParsedNews([a[0]], ticker, parse, now);
      var restA, restB := ParsedNews(a[1..], ticker, parse, now), ParsedNews(b, ticker, parse, now);
      assert (a + b)[0] == a[0];
      assert (a + b)[1..] == a[1..] + b;
      ParsedNewsFirst(a, ticker, parse, now);
      ParsedNewsFirst(a + b, ticker, parse, now);
      ParsedNewsAppend(a[1..], b, ticker, parse, now);
      assert first + (restA + restB) == (first + restA) + restB;
    } else {
      assert a + b == b;
    }
  }

  /** The items of a run of hits: those of its first hit, then those of
      the rest. */
  lemma ParsedNewsFirst(hits: seq<map<string, Value>>, ticker: Value, parse: IsoParser, now: int)
    requires hits != []
    ensures ParsedNews(hits, ticker, parse, now)
         == ParsedNews([hits[0]], ticker, parse, now) + ParsedNews(hits[1..], ticker, parse, now)
  {
    assert [hits[0]][1..] == [];
  }

  /** One more hit adds its item, when it validates, at the end. */
  lemma ParsedNewsSnoc(hits: seq<map<string, Value>>, i: int, ticker: Value, parse: IsoParser, now: int)
    requires 0 <= i < |hits|
    ensures var item := ToNewsItem(hits[i], ticker, parse, now);
      ParsedNews(hits[..i + 1], ticker, parse, now)
      == ParsedNews(hits[..i], ticker, parse, now) + (if item.Some? then [item.value] else [])
  {
    ParsedNewsAppend(hits[..i], [hits[i]], ticker, parse, now);
    assert hits[..i + 1] == hits[..i] + [hits[i]];
    ParsedNewsFirst([hits[i]], ticker, parse, now);
    assert [hits[i]][1..] == [];
  }

  /** When every hit validates, nothing is skipped and item `k` is built
      from hit `k`. */
  lemma {:induction false} ParsedNewsKeepsValid(hits: seq<map<string, Value>>, ticker: Value, parse: IsoParser, now: int)
    requires forall k :: 0 <= k < |hits| ==> ToNewsItem(hits[k], ticker, parse, now).Some?
    ensures var r := ParsedNews(hits, ticker, parse, now);
      |r| == |hits| && forall k :: 0 <= k < |hits| ==> r[k] == ToNewsItem(hits[k], ticker, parse, now).value
  {
    if hits != [] {
      ParsedNewsKeepsValid(hits[1..], ticker, parse, now);
    }
  }

  /** The news of a route: none unless the search succeeded. */
  function RouteNewsOf(search: NewsSearch, ticker: Value, parse: IsoParser, now: int): (r: seq<NewsItem>)
    ensures !search.SearchSuccess? ==> r == []
    ensures search.SearchSuccess? ==> |r| <= |search.news|
  {
    if search.SearchSuccess? then ParsedNews(search.news, ticker, parse, now) else []
  }

  /** The news loop shared by both routes. */
  method CollectNewsItems(search: NewsSearch, ticker: Value, parse: IsoParser, now: int) returns (newsList: seq<NewsItem>)
    ensures newsList == RouteNewsOf(search, ticker, parse, now)
  {
    newsList := [];
    if !search.SearchSuccess? {
      return;
    }
    var hits := search.news;
    for i := 0 to |hits|
      invariant newsList == ParsedNews(hits[..i], ticker, parse, now)
    {
      ParsedNewsSnoc(hits, i, ticker, parse, now);
      var item := ToNewsItem(hits[i], ticker, parse, now);
      if item.Some? {
        newsList := newsList + [item.value];
      }
    }
    assert hits[..|hits|] == hits;
  }

  // ---------------------------------------------------------------------
  // GET /trending

  /** The body of the trending route; `status` is always "success".
      `topStock` is `None` for the empty `{}` of an empty screener result,
      and the news list is nested inside it. */
  datatype TrendingBody = TrendingBody(screenerType: string, topStock: Option<StockInfo>, news: seq<NewsItem>)

  /** `top_stock.get("ticker")`. */
  function TickerField(info: StockInfo): (v: Value)
    ensures info.InfoSuccess? ==> v == Str(info.snap.ticker)
    ensures info.InfoError? ==> v == info.ticker
  {
    match info
    case InfoSuccess(s) => Str(s.ticker)
    case InfoError(t, _) => t
  }

  /** The trending route: a category outside the literal type is refused
      by the framework, an error answer is a 400 with its message, and an
      empty one is still a success with no top stock and no news. */
  function TrendingRouteOf(
    screenerType: string, screened: Result<Value>, provider: QuoteProvider,
    client: Option<SearchClient>, parse: IsoParser, now: int): (r: Http<TrendingBody>)
    ensures screenerType !in ScreenerTypes ==> r == HttpError(422, Unprocessable)
    ensures r.HttpError? ==> r.status == 400 || r.status == 422
  {
    if screenerType !in ScreenerTypes then HttpError(422, Unprocessable)
    else
      var stockResult := TrendingOf(screenerType, screened, provider);
      if stockResult.TrendingError? then HttpError(400, Message(stockResult.message))
      else
        var top := if stockResult.TrendingSuccess? then Some(stockResult.topStock) else None;
        var ticker := if top.Some? then TickerField(top.value) else Null;
        var newsResult := SearchStockNewsOf(ticker, 5, now, client);
        Response(TrendingBody(screenerType, top, RouteNewsOf(newsResult, ticker, parse, now)))
  }

  method TrendingRoute(
    screenerType: string, screened: Result<Value>, provider: QuoteProvider,
    client: Option<SearchClient>, parse: IsoParser, now: int) returns (r: Http<TrendingBody>)
    ensures r == TrendingRouteOf(screenerType, screened, provider, client, parse, now)
  {
    if screenerType !in ScreenerTypes {
      return HttpError(422, Unprocessable);
    }
    var stockResult := TrendingOf(screenerType, screened, provider);
    if stockResult.TrendingError? {
      return HttpError(400, Message(stockResult.message));
    }
    var topStock: Option<StockInfo> := None;
    var ticker := Null;
    if stockResult.TrendingSuccess? {
      topStock := Some(stockResult.topStock);
      ticker := TickerField(stockResult.topStock);
    }
    var newsResult := SearchStockNews(ticker, 5, now, client);
    var newsList := CollectNewsItems(newsResult, ticker, parse, now);
    r := Response(TrendingBody(screenerType, topStock, newsList));
  }

  /** The trending route answers 400 exactly when the selector reports an
      error, with the selector's message; an empty selection is a success
      without a top stock and without news. */
  lemma TrendingRouteStatus(
    screenerType: string, screened: Result<Value>, provider: QuoteProvider,
    client: Option<SearchClient>, parse: IsoParser, now: int)
    requires screenerType in ScreenerTypes
    ensures var s := TrendingOf(screenerType, screened, provider);
            var r := TrendingRouteOf(screenerType, screened, provider, client, parse, now);
      && (r.HttpError? <==> s.TrendingError?)
      && (s.TrendingError? ==> r == HttpError(400, Message(s.message)))
      && (s.TrendingEmpty? ==> r == Response(TrendingBody(screenerType, None, [])))
      && (s.TrendingSuccess? ==> r.Response? && r.body.topStock == Some(s.topStock))
  {
  }

  /** Every news item of the trending route is tagged with the top stock's
      normalised ticker. */
  lemma TrendingNewsTagged(
    screenerType: string, screened: Result<Value>, provider: QuoteProvider,
    client: Option<SearchClient>, parse: IsoParser, now: int)
    ensures var r := TrendingRouteOf(screenerType, screened, provider, client, parse, now);
      r.Response? ==> forall k :: 0 <= k < |r.body.news| ==>
        && r.body.topStock.Some?
        && TickerField(r.body.topStock.value).Str?
        && r.body.news[k].source == "Exa"
        && r.body.news[k].relatedTickers == [TickerField(r.body.topStock.value).s]
  {
  }

  // ---------------------------------------------------------------------
  // GET /{ticker}

  /** The body of the ticker route: the snapshot's fields and `news`. */
  datatype StockBody = StockBody(snap: Snapshot, news: seq<NewsItem>)

  /** A value of the ticker route's JSON body. */
  datatype BodyField = InfoField(f: Field) | NewsField(items: seq<NewsItem>)

  /** `{**stock_info, "news": news_list}`: the snapshot's record with `news`
      added. */
  function StockBodyDict(b: StockBody): (d: map<string, BodyField>)
    ensures d.Keys == SnapshotKeys + {"news"}
    ensures d["news"] == NewsField(b.news)
    ensures forall k :: k in SnapshotKeys ==> d[k] == InfoField(SnapshotDict(b.snap)[k])
  {
    var info := SnapshotDict(b.snap);
    (map k | k in info :: InfoField(info[k]))["news" := NewsField(b.news)]
  }

  /** The ticker route: an empty or blank path segment is a 400 before any
      fetch, an error record a 400 carrying its error text, and the news is
      tagged with the path segment as written. */
  function StockRouteOf(
    ticker: string, provider: QuoteProvider, client: Option<SearchClient>,
    parse: IsoParser, now: int): (r: Http<StockBody>)
    ensures AllSpace(ticker) ==> r == HttpError(400, InvalidCode)
    ensures r.HttpError? ==> r.status == 400
    ensures r.Response? ==>
              && StockInfoOf(Str(ticker), provider) == InfoSuccess(r.body.snap)
              && forall k :: 0 <= k < |r.body.news| ==> r.body.news[k].relatedTickers == [ticker]
  {
    StripEmptyIffAllSpace(ticker);
    if |ticker| == 0 || |Strip(ticker)| == 0 then HttpError(400, InvalidCode)
    else
      var stockResult := StockInfoOf(Str(ticker), provider);
      if stockResult.InfoError? then HttpError(400, Message(stockResult.error.msg))
      else
        var newsResult := SearchStockNewsOf(Str(ticker), 5, now, client);
        Response(StockBody(stockResult.snap, RouteNewsOf(newsResult, Str(ticker), parse, now)))
  }

  method StockRoute(
    ticker: string, provider: QuoteProvider, client: Option<SearchClient>,
    parse: IsoParser, now: int) returns (r: Http<StockBody>)
    ensures r == StockRouteOf(ticker, provider, client, parse, now)
  {
    if |ticker| == 0 || |Strip(ticker)| == 0 {
      return HttpError(400, InvalidCode);
    }
    var stockResult := GetStockInfo(Str(ticker), provider);
    if stockResult.InfoError? {
      return HttpError(400, Message(stockResult.error.msg));
    }
    var newsResult := SearchStockNews(Str(ticker), 5, now, client);
    var newsList := CollectNewsItems(newsResult, Str(ticker), parse, now);
    r := Response(StockBody(stockResult.snap, newsList));
  }

  /** The ticker route answers 400 exactly for a blank segment or an error
      record, and in the second case the detail is the record's error text. */
  lemma StockRouteStatus(ticker: string, provider: QuoteProvider, client: Option<SearchClient>, parse: IsoParser, now: int)
    ensures var info := StockInfoOf(Str(ticker), provider);
            var r := StockRouteOf(ticker, provider, client, parse, now);
      && (r.HttpError? <==> AllSpace(ticker) || info.InfoError?)
      && (!AllSpace(ticker) && info.InfoError? ==> r == HttpError(400, Message(info.error.msg)))
  {
    StripEmptyIffAllSpace(ticker);
  }

  /** A segment without surrounding whitespace is looked up upper-cased,
      yet its news items keep the segment as written. */
  lemma SegmentTagsRawTicker(seg: string, provider: QuoteProvider, client: Option<SearchClient>, parse: IsoParser, now: int)
    requires |seg| > 0 && !IsSpace(seg[0]) && !IsSpace(seg[|seg| - 1])
    requires StockRouteOf(seg, provider, client, parse, now).Response?
    ensures var r := StockRouteOf(seg, provider, client, parse, now);
      && r.body.snap.ticker == Upper(seg)
      && forall k :: 0 <= k < |r.body.news| ==> r.body.news[k].relatedTickers == [seg]
  {
    UnpaddedTickerIsUpperCased(seg, provider);
  }
}
