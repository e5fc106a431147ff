/** The briefing routes, `POST /api/briefing/generate` and
    `GET /api/briefing/generate`: normalise the ticker, check the category,
    call the briefing service and map its exceptions onto HTTP statuses. */
module BriefingsApi {
  import opened PyValues
  import opened Strings
  import opened Text
  import opened StockService
  import opened NewsService
  import opened BriefingService

  /** The `detail` of a refused request. */
  datatype Detail =
    | TooShort          // the framework's `min_length=1` check on `ticker`
    | BadValue(msg: Msg) // "요청 값 오류: {e}"
    | Failed(exc: Exc)  // "브리핑 생성 중 오류 발생: {e}"

  /** `GenerateBriefingResponse`; `status` is "success" and `message` is
      "{ticker} 브리핑이 생성되었습니다.". */
  datatype Generated = Generated(ticker: string, content: Doc, message: string)

  datatype Reply = Success(body: Generated) | Refused(status: int, detail: Detail)

  /** The shared body of both routes; `param` is the name the category
      has in the "invalid value" message ("screener_type" for POST, "type"
      for GET). */
  function GenerateWith(param: string, rawTicker: string, screenerType: string, provider: QuoteProvider,
                        client: Option<SearchClient>, now: int): (r: Reply)
    ensures |rawTicker| == 0 ==> r == Refused(422, TooShort)
    ensures |rawTicker| > 0 && AllSpace(rawTicker) ==> r == Refused(400, BadValue(EmptyTickerCode))
    ensures |rawTicker| > 0 && !AllSpace(rawTicker) && screenerType !in ScreenerTypes ==>
              r == Refused(400, BadValue(InvalidRequestType(param, screenerType)))
    ensures r.Success? ==>
              && r.body.ticker == Normalize(rawTicker) != ""
              && r.body.message == r.body.ticker + " 브리핑이 생성되었습니다."
              && BriefingContentOf(Str(r.body.ticker), screenerType, provider, client, now) == Ok(r.body.content)
    ensures r.Refused? ==> r.status in {400, 422, 500}
    ensures |rawTicker| > 0 && !AllSpace(rawTicker) && screenerType in ScreenerTypes ==>
              var t := Normalize(rawTicker);
              var c := BriefingContentOf(Str(t), screenerType, provider, client, now);
              && (c.Ok? ==> r == Success(Generated(t, c.value, t + " 브리핑이 생성되었습니다.")))
              && (c.Raise? && c.exc.kind == ValueError ==> r == Refused(400, BadValue(c.exc.msg)))
              && (c.Raise? && c.exc.kind != ValueError ==> r == Refused(500, Failed(c.exc)))
  {
    if |rawTicker| == 0 then Refused(422, TooShort)
    else
      var ticker := Upper(Strip(rawTicker));
      StripEmptyIffAllSpace(rawTicker);
      UpperStripCommute(rawTicker);
      if ticker == "" then Refused(400, BadValue(EmptyTickerCode))
      else if screenerType !in ScreenerTypes then Refused(400, BadValue(InvalidRequestType(param, screenerType)))
      else match BriefingContentOf(Str(ticker), screenerType, provider, client, now)
        case Ok(content) => Success(Generated(ticker, content, ticker + " 브리핑이 생성되었습니다."))
        case Raise(e) =>
          if e.kind == ValueError then Refused(400, BadValue(e.msg)) else Refused(500, Failed(e))
  }

  /** `generate_briefing` (POST). */
  function GenerateBriefingOf(ticker: string, screenerType: string, provider: QuoteProvider,
                              client: Option<SearchClient>, now: int): Reply
  {
    GenerateWith("screener_type", ticker, screenerType, provider, client, now)
  }

  /** `generate_briefing_get` (GET). */
  function GenerateBriefingGetOf(ticker: string, screenerType: string, provider: QuoteProvider,
                                 client: Option<SearchClient>, now: int): Reply
  {
    GenerateWith("type", ticker, screenerType, provider, client, now)
  }

  /** The two routes differ only in the parameter name the "invalid
      category" message mentions. */
  lemma GetMatchesPost(ticker: string, screenerType: string, provider: QuoteProvider,
                       client: Option<SearchClient>, now: int)
    ensures var post := GenerateBriefingOf(ticker, screenerType, provider, client, now);
            var get := GenerateBriefingGetOf(ticker, screenerType, provider, client, now);
      && post.Success? == get.Success?
      && (post.Refused? ==> get.Refused? && post.status == get.status)
      && (screenerType in ScreenerTypes || AllSpace(ticker) ==> post == get)
  {
  }

  /** A snapshot that cannot be read is a bad request, not a server error,
      and the detail names the normalised ticker. */
  lemma SnapshotErrorIsBadRequest(ticker: string, screenerType: string, provider: QuoteProvider,
                                  client: Option<SearchClient>, now: int)
    requires !AllSpace(ticker) && screenerType in ScreenerTypes
    requires StockInfoOf(Str(Normalize(ticker)), provider).InfoError?
    ensures GenerateBriefingOf(ticker, screenerType, provider, client, now)
         == Refused(400, BadValue(StockInfoUnavailable(Normalize(ticker))))
  {
    StripEmptyIffAllSpace(ticker);
    UpperStripCommute(ticker);
    NormalizeIdempotent(ticker);
    StripEmptyIffAllSpace(Upper(ticker));
  }

  /** The route answers 500 exactly when the service raised something other
      than a `ValueError`, which in this model is a volume that is not a
      number; the detail then carries the service's `TypeError`. */
  lemma ServerErrorOnlyFromVolume(ticker: string, screenerType: string, provider: QuoteProvider,
                                  client: Option<SearchClient>, now: int)
    ensures var r := GenerateBriefingOf(ticker, screenerType, provider, client, now);
      r.Refused? && r.status == 500 ==>
        && StockInfoOf(Str(Normalize(ticker)), provider).InfoSuccess?
        && !StockInfoOf(Str(Normalize(ticker)), provider).snap.volume.Num?
    ensures var r := GenerateBriefingOf(ticker, screenerType, provider, client, now);
      !AllSpace(ticker) && screenerType in ScreenerTypes
      && StockInfoOf(Str(Normalize(ticker)), provider).InfoSuccess?
      && !StockInfoOf(Str(Normalize(ticker)), provider).snap.volume.Num? ==>
        r.Refused? && r.status == 500 && r.detail.Failed? && r.detail.exc.kind == TypeError
  {
    var r := GenerateBriefingOf(ticker, screenerType, provider, client, now);
    UpperStripCommute(ticker);
    NormalizeIdempotent(ticker);
    if r.Refused? && r.status == 500 {
      OnlyVolumeRaisesOtherwise(Str(Normalize(ticker)), screenerType, provider, client, now);
    }
    if !AllSpace(ticker) && screenerType in ScreenerTypes {
      StripEmptyIffAllSpace(ticker);
      StripEmptyIffAllSpace(Upper(ticker));
      var t := Normalize(ticker);
      var info := StockInfoOf(Str(t), provider);
      if info.InfoSuccess? && !info.snap.volume.Num? {
        assert FormatVolume(info.snap.volume).Raise?;
      }
    }
  }

  /** A well-formed request whose snapshot has a numeric volume always
      succeeds, with or without news, and the body holds the service's
      briefing for the normalised ticker. */
  lemma NumericVolumeSucceeds(ticker: string, screenerType: string, provider: QuoteProvider,
                              client: Option<SearchClient>, now: int)
    requires !AllSpace(ticker) && screenerType in ScreenerTypes
    requires StockInfoOf(Str(Normalize(ticker)), provider).InfoSuccess?
    requires StockInfoOf(Str(Normalize(ticker)), provider).snap.volume.Num?
    ensures var r := GenerateBriefingOf(ticker, screenerType, provider, client, now);
      && r.Success? && r.body.ticker == Normalize(ticker)
      && Ok(r.body.content) == BriefingContentOf(Str(ticker), screenerType, provider, client, now)
  {
    UpperStripCommute(ticker);
    NormalizeIdempotent(ticker);
    StripEmptyIffAllSpace(ticker);
    StripEmptyIffAllSpace(Upper(ticker));
    var t := Normalize(ticker);
    SucceedsWithoutNews(t, screenerType, provider, client, now);
    ServiceRenormalizes(ticker, screenerType, provider, client, now);
  }
}
