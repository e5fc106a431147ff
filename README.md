# Stock briefing backend: normalisation and decision logic

This project models the backend of "While You Were Sleeping", a daily stock
briefing service, in Dafny. The model covers the part of the backend that
makes decisions.

The backend reads loosely shaped payloads from a quote provider (yahooquery)
and a news search (Exa). It turns them into fixed-shape records and HTTP
statuses, and then into text: a markdown briefing, two social-media captions
and an HTML e-mail. The model covers:

- **Quote normalisation** (`StockService`, `stock_service.dfy`):
  - `get_stock_info` starts every field at its default and overwrites it
    inside two independently failing `try` blocks;
  - the price fallback chain;
  - the guarded change percent;
  - the market-cap buckets and the P/E;
  - the error record.
- **Trending selection** (`StockService`): `get_trending_stocks` validates
  the category, tells "empty" apart from "error", and delegates the
  first-ranked symbol.
- **News search** (`NewsService`, `news_service.dfy`): the three-way
  success / empty / error classification of `search_stock_news` and
  `get_market_news`, the mapping of every hit onto a record, and the
  never-raising `get_stock_news`.
- **Briefing assembly** (`BriefingService`, `briefing_service.dfy`):
  validation, the fatal error snapshot, the markdown with at most five
  numbered news blocks, and `_format_volume`.
- **Stock routes** (`StocksApi`, `stocks_api.dfy`): the trending and ticker
  routes, their news loop with timestamp fallback and item skipping, and the
  status mapping.
- **Briefing routes** (`BriefingsApi`, `briefings_api.dfy`): normalisation,
  validation and the mapping of a `ValueError` to 400 and of anything else
  to 500, for POST and GET.
- **Captions** (`ThreadsCaption`, `InstagramCaption`): the Threads and
  Instagram `create_caption`.
- **E-mail** (`EmailService`, `email_service.dfy`): the `SMTP_PORT` parse,
  the credential check and `_create_html_content`.

`py_values.dfy` gives Python's dynamic values, truthiness, `dict.get`, and
the comparisons that raise on a non-number. `strings.dfy` gives `upper()`,
`strip()` and `replace('Z', '+00:00')`. `text.dfy` gives rendered text as a
sequence of segments: literal text, plus values handed to the formatter with
a format spec. Digit strings are not modelled, so properties say which value
is formatted, with which spec, and what surrounds it.

The quote provider, the screener answer, the search client, the ISO
timestamp parser, the clock and the environment are parameters. Every loop
of the source is a method proved equal to a specification function, and the
properties the source promises are proved about those functions.

## Model

| member | source | states |
|---|---|---|
| StockService.PositiveAt | backend/services/stock_service.py:160 | `k in s and s[k] and s[k] > 0` is true exactly for a present positive number; it raises exactly for a present truthy non-number |
| StockService.BothPositive | backend/services/stock_service.py:163 | the bid/ask guard is true exactly when both are present positive numbers; it raises exactly when a non-number bid, or a non-number ask after a positive bid, is compared |
| StockService.ResolvePrice | backend/services/stock_service.py:160-170 | price is a positive last price, else the mean of positive bid and ask, else a positive open, else 0; it raises exactly when a guard reached in that order raises; never negative |
| StockService.ChangePercent | backend/services/stock_service.py:193-199 | `(price-prev)/prev*100` when prev is a positive number and price is non-zero, otherwise exactly 0; raises exactly for a truthy non-number previous close |
| StockService.ChangePercentInverse | backend/services/stock_service.py:195-196 | applying the change percent to the previous close gives back the price; the change is non-negative iff the price did not fall |
| StockService.CapOf | backend/services/stock_service.py:179-186 | missing, falsy or non-positive gives "N/A"; otherwise scaled × unit factor equals the raw value; T iff ≥ 1e12, B iff in [1e9, 1e12); the scaled value of B and M is below 1000; raises iff the value is a truthy non-number |
| StockService.PeOf | backend/services/stock_service.py:187-189 | a falsy P/E gives "N/A", a truthy number is formatted as itself, a truthy non-number raises |
| StockService.ProfileOf | backend/services/stock_service.py:142-152 | without a dict entry for the ticker, name, sector and industry are all "N/A"; otherwise each is read with default "N/A", and name falls back to `website` |
| StockService.ReadSummary | backend/services/stock_service.py:154-191 | without a dict entry for the ticker, or when a price guard raises, every field keeps its default; otherwise the price is `ResolvePrice`'s, previous close and volume are the entry's value or 0 when missing or falsy, the cap is `CapOf`'s, and the P/E is `PeOf`'s unless the cap or the P/E raised |
| StockService.SnapshotDict | backend/services/stock_service.py:204-215 | the success record has exactly the ten keys, `status` "success", and each other key holds the snapshot field of that name |
| StockService.SuccessSnapshotFields | backend/services/stock_service.py:154-215 | read from the ticker's summary entry: the record carries the resolved price, the volume or 0, the guarded change percent, the cap and the profile fields; a raising price guard still succeeds with every summary field at its default; a truthy non-number previous close is an error record |
| StockService.ReadProfileBlock | backend/services/stock_service.py:127-152 | the imperative profile block (defaults, then overwrite) computes `ProfileOf` |
| StockService.ReadSummaryBlock | backend/services/stock_service.py:131-191 | the imperative summary block, which leaves the block at its first exception, computes `ReadSummary` |
| StockService.GetStockInfo | backend/services/stock_service.py:107-223 | the method equals `StockInfoOf`, the validation, one provider call, two blocks and the guarded change percent |
| StockService.StockInfoErrorCases | backend/services/stock_service.py:117-223 | the record is an error iff the ticker is not a non-empty string, `Ticker(...)` raises, or the previous close is a truthy non-number; a failed payload read alone never is; the error carries the raw argument before normalisation and the normalised ticker after |
| StockService.SuccessTickerIsNormalized | backend/services/stock_service.py:204-215 | a success record's ticker is the argument upper-cased then stripped, has no lower-case letter, and is its own normal form |
| StockService.UnpaddedTickerIsUpperCased | backend/services/stock_service.py:121 | a success for any ticker without surrounding whitespace carries that ticker upper-cased |
| StockService.UnpaddedNormalizes | backend/services/stock_service.py:121 | normalising a ticker without surrounding whitespace only upper-cases it |
| StockService.BlankTickerBecomesEmpty | backend/services/stock_service.py:118-121 | a whitespace-only ticker passes validation, normalises to "", and the provider is asked about "" |
| StockService.ProfileFailureIsHarmless | backend/services/stock_service.py:142-152 | a raising `asset_profile` leaves the status and every summary field unchanged and sets name, sector and industry to "N/A" |
| StockService.NonNumericBidDiscardsSummary | backend/services/stock_service.py:163-191 | with no last price, a string bid makes the guard raise and every summary field stays at its default |
| StockService.BidAskBeatsOpen | backend/services/stock_service.py:160-168 | with positive bid and ask and no positive last price, the price is their mean whatever the open is |
| StockService.Caught | backend/services/stock_service.py:88-105 | the except clauses give an error carrying the message; the type is "validation_error" for a `ValueError`, otherwise the class name |
| StockService.TopSymbol | backend/services/stock_service.py:71-72 | `quotes[0].get('symbol')` succeeds iff quotes is a list whose first entry is a dict, and then is that entry's symbol or None |
| StockService.TrendingOf | backend/services/stock_service.py:37-105 | an unknown category is a validation error; `None` is empty; a raising screener is caught; success only with a valid category and a dict result |
| StockService.EmptyQuotesAreEmpty | backend/services/stock_service.py:58-68 | an empty quote list, a missing `quotes` key and a missing category all give "empty" |
| StockService.OnlyFirstQuoteMatters | backend/services/stock_service.py:70-86 | rankings agreeing on their first quote give the same answer; a truthy first symbol is delegated to `get_stock_info` as is, and a missing one is a validation error |
| NewsService.HitRecord | backend/services/news_service.py:84-89 | a hit's record has exactly title, url, published_date and summary; a missing date or text becomes "N/A" |
| NewsService.HitRecords | backend/services/news_service.py:82-90 | one record per hit, in provider order |
| NewsService.CollectHits | backend/services/news_service.py:82-90 | the append loop computes `HitRecords` |
| NewsService.ErrorType | backend/services/news_service.py:102-119 | `ValueError` maps to "validation_error" and a provider exception to its class name |
| NewsService.SearchStockNewsOf | backend/services/news_service.py:29-119 | validation before the client check; no client gives "api_not_initialized"; empty carries the normalised ticker; success carries the normalised ticker, the query `"{TICKER} stock news"` and count == number of news > 0 |
| NewsService.TickerAnswer | backend/services/news_service.py:66-100 | error iff the search raised; empty iff the response has no hits; success carries one record per hit |
| NewsService.ClassifyTickerAnswer | backend/services/news_service.py:72-100 | the branching after the client call computes `TickerAnswer` |
| NewsService.SearchStockNews | backend/services/news_service.py:40-119 | the method equals `SearchStockNewsOf` |
| NewsService.MarketNewsOf | backend/services/news_service.py:121-185 | no client is an error without `error_type`; empty has the market message; success has the query "stock market news" and count == number of news > 0 |
| NewsService.GetMarketNews | backend/services/news_service.py:131-185 | the method equals `MarketNewsOf` |
| NewsService.SearchSendsTickerQuery | backend/services/news_service.py:53-70 | the search depends only on the client's answer to the query (normalised ticker + " stock news", `limit`, now − 1 day) |
| NewsService.MarketSendsFixedQuery | backend/services/news_service.py:143-150 | the market search depends only on the answer to the fixed query "stock market news" over the last day |
| NewsService.SearchClassification | backend/services/news_service.py:73-100 | for a valid ticker and a client: error iff the search raised, empty iff no hits, and success holds the records of all hits with count == number of hits |
| NewsService.StockNewsItem | backend/services/news_service.py:217-223 | an item has exactly title, summary, source, url and published_at; the defaults are "" and source "Exa" |
| NewsService.StockNewsItems | backend/services/news_service.py:214-227 | one item per news record, in order |
| NewsService.StockNewsOf | backend/services/news_service.py:198-237 | `[]` without a client, for an invalid ticker, or whenever the search did not succeed |
| NewsService.GetStockNews | backend/services/news_service.py:198-237 | the method equals `StockNewsOf` |
| NewsService.FormatStockNews | backend/services/news_service.py:214-227 | the `for`/`append` loop computes `StockNewsItems`, one item per hit in order |
| NewsService.ItemOfHit | backend/services/news_service.py:217-223 | the item of a hit has source "Exa", the hit's title and url, and the hit's date and summary or "N/A" |
| NewsService.StockNewsFromHits | backend/services/news_service.py:208-227 | there are as many items as hits, none if the search raised or found nothing, and item k comes from hit k |
| BriefingService.FormatVolume | backend/services/briefing_service.py:180-187 | ≥ 1e6 gives v/1e6 with ".1f" and "M"; ≥ 1e3 gives v/1e3 with "K"; otherwise `str(v)`; a non-number raises `TypeError` |
| BriefingService.CapText | backend/services/stock_service.py:179-186 | the market-cap text is "N/A" exactly for no cap; otherwise it is "$", the scaled value with ".1f" and the letter T, B or M of its unit |
| BriefingService.PeText | backend/services/stock_service.py:187-189 | the P/E text is "N/A" exactly for no P/E, and otherwise the P/E value formatted with ".2f" |
| BriefingService.ChangeWording | backend/services/briefing_service.py:107-109 | sign "+" and "상승" iff change ≥ 0; no sign and "하락" iff change < 0 |
| BriefingService.NewsSection | backend/services/briefing_service.py:139-157 | no news renders the "현재 관련 뉴스가 없습니다." line |
| BriefingService.BriefingMarkdownOf | backend/services/briefing_service.py:84-178 | the markdown raises exactly when the volume is not a number |
| BriefingService.AppendNews | backend/services/briefing_service.py:139-157 | the `md +=` loop over at most five items appends exactly the news section |
| BriefingService.FormatBriefingMarkdown | backend/services/briefing_service.py:84-178 | the method equals `BriefingMarkdownOf` |
| BriefingService.NewsBlockNumber | backend/services/briefing_service.py:147 | each news block carries its own number and no other |
| BriefingService.HeaderHasNoNumbers | backend/services/briefing_service.py:112-137 | the text before the news holds no block number |
| BriefingService.FooterHasNoNumbers | backend/services/briefing_service.py:160-176 | the summary after the news holds no block number |
| BriefingService.NewsNumbering | backend/services/briefing_service.py:139-155 | the briefing numbers min(n, 5) news blocks 1, 2, …, and block k + 1 is news item k with its per-field defaults, right after the header and the k blocks before it, so the items appear in input order |
| BriefingService.NewsBlockAt | backend/services/briefing_service.py:140-155 | the news section is 13 segments per shown item, and its k-th block is the block of item k numbered k + 1 |
| BriefingService.BriefingNewsAt | backend/services/briefing_service.py:139-155 | in the whole briefing, item k's block sits right after the header and the k blocks before it |
| BriefingService.NewsSectionNumbers | backend/services/briefing_service.py:139-157 | the news section is numbered 1..min(n, 5) |
| BriefingService.OnlyFirstFiveShown | backend/services/briefing_service.py:140 | news after the fifth item never changes the briefing |
| BriefingService.TableShowsSignedChange | backend/services/briefing_service.py:126 | the table row shows "+" before the change iff it is ≥ 0 and the matching "상승"/"하락" after it |
| BriefingService.BriefingContentOf | backend/services/briefing_service.py:23-82 | an invalid ticker, then an invalid category, raise `ValueError`; an error snapshot raises "{ticker} 종목 정보를 조회할 수 없습니다."; success needs a valid ticker and category and a success snapshot, and then the result is the markdown of that snapshot with the news found for the normalised ticker |
| BriefingService.SucceedsWithoutNews | backend/services/briefing_service.py:56-82 | zero news is allowed: with a valid ticker and category and a numeric volume the service succeeds whatever the search does, and without a client the briefing is header, no-news line and summary |
| BriefingService.GenerateBriefingContent | backend/services/briefing_service.py:38-82 | the method equals `BriefingContentOf` |
| BriefingService.ServiceRenormalizes | backend/services/briefing_service.py:43 | passing an already normalised ticker gives the same result as the raw one |
| BriefingService.OnlyVolumeRaisesOtherwise | backend/services/briefing_service.py:75-82 | any exception other than `ValueError` is a `TypeError` from a non-numeric volume in a success snapshot |
| StocksApi.PublishedAt | backend/api/stocks.py:56-63 | an empty or non-string date is now; a parseable one (after `Z`→`+00:00`) is its instant; an unparseable one is now |
| StocksApi.ToNewsItem | backend/api/stocks.py:54-76 | an item validates iff title, summary, url and ticker are strings; it then has source "Exa", related tickers `[ticker]`, the hit's title and url, and its summary, and its parsed date |
| StocksApi.ParsedNews | backend/api/stocks.py:52-76 | at most one item per hit; every item has source "Exa" and related tickers `[ticker]` |
| StocksApi.ParsedNewsAppend | backend/api/stocks.py:53-76 | skipping is per hit: the items of `a + b` are those of `a`, then those of `b` |
| StocksApi.ParsedNewsFirst | backend/api/stocks.py:53-76 | the items of a run of hits are those of its first hit, then those of the rest |
| StocksApi.ParsedNewsSnoc | backend/api/stocks.py:53-76 | one more hit appends its item at the end when it validates |
| StocksApi.ParsedNewsKeepsValid | backend/api/stocks.py:53-76 | when every hit validates, nothing is skipped and item k comes from hit k |
| StocksApi.RouteNewsOf | backend/api/stocks.py:49-76 | no news unless the search status is success; never more items than hits |
| StocksApi.CollectNewsItems | backend/api/stocks.py:50-76 | the loop with per-item skip computes `RouteNewsOf` |
| StocksApi.TickerField | backend/api/stocks.py:45-46 | `top_stock.get("ticker")` is the snapshot's ticker, or the error record's ticker |
| StocksApi.TrendingRouteOf | backend/api/stocks.py:26-95 | a category outside the literal type is 422; every refusal is 400 or 422 |
| StocksApi.TrendingRoute | backend/api/stocks.py:37-95 | the method equals `TrendingRouteOf` |
| StocksApi.TrendingRouteStatus | backend/api/stocks.py:41-88 | 400 with the selector's message iff it reports an error; "empty" is a success with no top stock and no news; a success nests the selector's top stock |
| StocksApi.TrendingNewsTagged | backend/api/stocks.py:65-72 | every trending news item has source "Exa" and is tagged with the top stock's ticker |
| StocksApi.StockBodyDict | backend/api/stocks.py:159-163 | `{**stock_info, "news": …}`: the snapshot's ten keys plus `news`, each snapshot key holding the record's value and `news` the parsed items |
| StocksApi.StockRouteOf | backend/api/stocks.py:108-172 | a blank segment is 400 before any fetch; every refusal is 400; a response carries the success snapshot and news tagged with the raw segment |
| StocksApi.StockRoute | backend/api/stocks.py:119-172 | the method equals `StockRouteOf` |
| StocksApi.StockRouteStatus | backend/api/stocks.py:120-127 | 400 iff the segment is blank or the snapshot is an error, and then the detail is the record's error text |
| StocksApi.SegmentTagsRawTicker | backend/api/stocks.py:146-153 | for any segment without surrounding whitespace the snapshot carries it upper-cased, while every news item is tagged with the segment as written |
| BriefingsApi.GenerateWith | backend/api/briefings.py:62-101 | an empty ticker is 422; a blank one is 400 "empty code"; an unknown type is 400; success carries the normalised ticker, the service's content and "{ticker} 브리핑이 생성되었습니다."; statuses are 400, 422 or 500; for a non-blank ticker and a valid type, a service result gives success, a service `ValueError` gives 400 with its message, and any other exception gives 500 with it |
| BriefingsApi.GetMatchesPost | backend/api/briefings.py:118-156 | POST and GET agree on success and on every status, and are identical except for the parameter name in the invalid-type message |
| BriefingsApi.SnapshotErrorIsBadRequest | backend/api/briefings.py:91-93 | an error snapshot gives 400 with the service's "cannot look up {ticker}" message for the normalised ticker |
| BriefingsApi.ServerErrorOnlyFromVolume | backend/api/briefings.py:94-101 | a 500 happens exactly for a well-formed request whose success snapshot has a volume that is not a number, and carries the `TypeError` |
| BriefingsApi.NumericVolumeSucceeds | backend/api/briefings.py:62-88 | a well-formed request whose snapshot has a numeric volume is answered with success, whatever the news, carrying the service's briefing |
| Strings.UpperStripCommute | backend/api/briefings.py:64 | the routes' `strip().upper()` and the services' `upper().strip()` give the same ticker |
| Strings.NormalizeIdempotent | backend/services/briefing_service.py:43 | normalising a normalised ticker changes nothing |
| Strings.NormalizedIsUpper | backend/services/stock_service.py:121 | a normalised ticker holds no lower-case ASCII letter |
| Strings.StripEmptyIffAllSpace | backend/api/stocks.py:120 | `len(ticker.strip()) == 0` iff the ticker is all whitespace |
| Strings.BlankNormalizesToEmpty | backend/services/stock_service.py:121 | a whitespace-only ticker normalises to "" |
| Strings.ReplaceZ | backend/api/stocks.py:59 | `replace('Z', '+00:00')` leaves no `Z`, changes nothing without one, and never shortens |
| Strings.ReplaceZAppend | backend/api/stocks.py:59 | the replacement distributes over concatenation |
| Strings.ReplaceZChar | backend/api/stocks.py:59 | a `Z` becomes "+00:00" and any other character stays as it is |
| Strings.ReplaceTrailingZ | backend/api/stocks.py:59 | a timestamp ending in `Z` ends in "+00:00" instead, with the rest unchanged |
| ThreadsCaption.StockLine | backend/services/threads_service.py:154-158 | a line renders iff the stock is a dict whose change (default '0') is a number; it carries its number, the symbol and the price (each "N/A" when missing), the change formatted with "+.2f", and "%" with a line break |
| ThreadsCaption.Section | backend/services/threads_service.py:141-160 | a falsy category adds nothing; a truthy non-list raises; a list gives its title first, the lines of its first three stocks, and a closing blank line, raising exactly when a line does |
| ThreadsCaption.Sections | backend/services/threads_service.py:141-160 | one section per category, in the mapping's order |
| ThreadsCaption.ThreadsCaptionOf | backend/services/threads_service.py:135-168 | the caption is the fallback iff some section raises; otherwise it is the dated header, the sections in the order of the categories, and the hashtag line |
| ThreadsCaption.AppendSection | backend/services/threads_service.py:142-160 | one pass of the outer loop appends that category's section or raises as it does |
| ThreadsCaption.AppendSections | backend/services/threads_service.py:141-160 | the outer loop appends every section in order, stopping at the first exception |
| ThreadsCaption.CreateCaption | backend/services/threads_service.py:135-168 | the method equals `ThreadsCaptionOf` |
| ThreadsCaption.SkipsFalsyCategory | backend/services/threads_service.py:142-143 | inserting a falsy category anywhere leaves the caption unchanged |
| ThreadsCaption.SectionNumbering | backend/services/threads_service.py:154-158 | a listed category shows min(n, 3) lines numbered 1, 2, 3 |
| ThreadsCaption.OnlyFirstThreeRead | backend/services/threads_service.py:154 | stocks after the third never change a section |
| ThreadsCaption.MissingChangeFallsBack | backend/services/threads_service.py:157-168 | a first stock without `change_percent` makes the whole caption the fallback |
| ThreadsCaption.UnsliceableFallsBack | backend/services/threads_service.py:154-168 | a truthy category value that is not a list makes the caption the fallback |
| InstagramCaption.StockLine | backend/services/meta_instagram_service.py:92-96 | a line renders iff the stock is a dict; it carries its number and symbol, price and change, each "N/A" when missing |
| InstagramCaption.Section | backend/services/meta_instagram_service.py:90-97 | a category that is missing or falsy adds nothing; a truthy non-list raises; a list gives its title, the lines of its first three stocks with line k from item k − 1, and the blank line when the category has one; it raises exactly when one of those three stocks is not a dict |
| InstagramCaption.InstagramCaptionOf | backend/services/meta_instagram_service.py:84-119 | empty data gives header + hashtags; otherwise it renders iff all three sections do, as header, most_actives, day_gainers, day_losers, hashtags |
| InstagramCaption.AppendSection | backend/services/meta_instagram_service.py:88-116 | one block appends that category's section or raises as it does |
| InstagramCaption.CreateCaption | backend/services/meta_instagram_service.py:84-119 | the method equals `InstagramCaptionOf` |
| InstagramCaption.OtherKeysIgnored | backend/services/meta_instagram_service.py:88-116 | keys other than the three categories do not change a non-empty caption |
| InstagramCaption.BlankLineIffBlankAfter | backend/services/meta_instagram_service.py:97-116 | a shown block ends with a blank line iff it is most_actives or day_gainers, not day_losers |
| InstagramCaption.SectionNumbering | backend/services/meta_instagram_service.py:92-96 | a shown block lists min(n, 3) stocks numbered 1, 2, 3 |
| EmailService.IntLiteral | backend/services/email_service.py:40 | `int()` on unpadded text refuses the empty text |
| EmailService.PyInt | backend/services/email_service.py:40 | `int()` refuses blank text |
| EmailService.SmtpPort | backend/services/email_service.py:39-43 | "" gives 587; text `int()` accepts gives its value; text it refuses gives 587 |
| EmailService.SignedTextValue | backend/services/email_service.py:40 | `int()` reads a signed decimal text back as its number |
| EmailService.PaddingIgnored | backend/services/email_service.py:40 | whitespace around the text does not change what `int()` reads |
| EmailService.PortTextRoundTrip | backend/services/email_service.py:38-43 | a decimal number, with optional sign and padding, is read back as the port |
| EmailService.DefaultPortText | backend/services/email_service.py:38 | the default text "587" gives port 587 |
| EmailService.LetterPortFallsBack | backend/services/email_service.py:39-43 | a letter anywhere in `SMTP_PORT` gives 587 |
| EmailService.Getenv | backend/services/email_service.py:45-47 | `os.getenv(key)` is the variable when set, else None |
| EmailService.GetenvOr | backend/services/email_service.py:35-38 | `os.getenv(key, default)` is the variable when set, else the default |
| EmailService.PortOf | backend/services/email_service.py:38-43 | unset or empty `SMTP_PORT` gives 587; text `int()` accepts gives its value |
| EmailService.StockBlock | backend/services/email_service.py:253-266 | the change is shown with class "positive" and sign "+" iff change ≥ 0, else with class "negative" and no sign |
| EmailService.StockSection | backend/services/email_service.py:247-266 | the stock renders iff the top stock is a dict whose price, change and volume (default 0) are numbers; it then shows name default 'Unknown' and the values |
| EmailService.Section | backend/services/email_service.py:237-266 | a briefing with "error" renders the no-data paragraph with that text; otherwise the top stock under ticker default 'N/A'; it renders iff well formed |
| EmailService.CategorySections | backend/services/email_service.py:229-237 | exactly three sections in the order most_actives, day_gainers, day_losers; a missing key reads as `{}` |
| EmailService.RendersExactly | backend/services/email_service.py:236-266 | the HTML renders iff none of the three briefings is malformed |
| EmailService.SectionsInOrder | backend/services/email_service.py:229-277 | the HTML is head, the three sections in fixed order, then the footer |
| EmailService.FooterLast | backend/services/email_service.py:268-277 | the HTML always ends with the footer |
| EmailService.OtherKeysIgnored | backend/services/email_service.py:236-237 | keys other than the three categories never change the HTML |
| EmailService.MissingCategoryShowsDefaults | backend/services/email_service.py:237-263 | a missing category shows ticker 'N/A', name 'Unknown', price, change and volume 0, with class "positive" |
| EmailService.ErrorHidesStock | backend/services/email_service.py:239-245 | an "error" key decides the section whatever the top stock is |
| EmailService.NonNumericChangeRaises | backend/services/email_service.py:250-254 | a non-numeric change of a top stock makes the HTML raise |
| EmailService.EmailService.constructor | backend/services/email_service.py:33-47 | server default "smtp.gmail.com", the parsed port, and the three optional credentials read from the environment |
| EmailService.EmailService.CreateHtmlContent | backend/services/email_service.py:130-277 | the `html +=` loop over the three labels, then the footer, computes `HtmlContentOf` |
| EmailService.EmailService.SendBriefingEmail | backend/services/email_service.py:56-128 | without all three credentials it returns False before building anything; it returns True iff configured, the HTML renders and the delivery succeeds |

## Left out

- Provider calls are not modelled: yahooquery `Ticker`/`Screener` and Exa `search`. Their answers are parameters: `QuoteProvider`, `screened`, `SearchClient`.
- `async`/`await` is not modelled. Every path is sequential.
- Logging is not modelled.
- The clock is not read: `now` is a parameter. `datetime.fromisoformat` is the parameter `parse`.
- The `isoformat()` text of the search window is not modelled. The window start is `now − 86400` seconds.
- Digit-level formatting is not modelled: `:.1f`, `:.2f`, `:+.2f`, `:,`, `str()` and `strftime`. These are opaque `Number`, `Show` and `Clock` segments.
- Floats are mathematical reals. Python `bool` values are not distinguished from numbers.
- The texts of Python's built-in exception messages are approximated by constants.
- The "allowed values" list in the invalid-type messages is not modelled, because its order is set iteration order.
- The HTML e-mail's whitespace and the rules of its style sheet are not reproduced. The page is its literal markup, and the style sheet is reduced to its selectors.
- `day_high`, `day_low`, the 52-week values and `avg_volume` are not modelled. `get_stock_info` computes them but never returns them, and they cannot raise.
- `StockService.screen_stocks` is not modelled. It is a stub that returns `[]`.
- The `/search` route, the list/get briefing routes and `generate_daily_briefing` are not modelled. They are stubs that return constant empty structures.
- The `__init__` methods of the stock, news and briefing services are not modelled; they only build clients.
- E-mail plumbing is not modelled: MIME assembly, the attachment, SMTP, TLS and login. The uploads and logins of the Instagram and Threads services are not modelled either.
- `EmailService.EmailService.SendBriefingEmail`: the outcome of the SMTP exchange is the parameter `delivered`. Every SMTP or attachment failure is folded into it.
- `Strings.Upper`: only ASCII letters are upper-cased. Python's `str.upper()` also maps other scripts, for example 'ß' to "SS".
- `EmailService.PyInt`: only ASCII digits are read. Python's `int()` also accepts other Unicode decimal digits.
- `StocksApi.TrendingRouteOf`: the 500 branch (backend/api/stocks.py:92-95) is not modelled. Nothing on the modelled path raises outside an HTTP exception.
- `StocksApi.StockRouteOf`: the same holds for the 500 branch at backend/api/stocks.py:169-172.
- `NewsService.StockNewsOf`: the per-item skip (backend/services/news_service.py:224-226) and the outer `except` cannot trigger, because the search hands over dict records only. The model therefore never skips.
- Search hits always have `title` and `url` attributes, as the search client's result objects do.
- Arguments of the wrong container type are not modelled. The e-mail briefings and the Instagram data are dicts. The Threads data is an insertion-ordered sequence of key/value pairs.
- Dicts are keyed by strings only.
