/** The briefing service: validate a ticker and a screener category, fetch
    the snapshot (fatal when it is an error record) and the news (an empty
    list is fine), and assemble the markdown briefing. */
module BriefingService {
  import opened PyValues
  import opened Strings
  import opened Text
  import opened StockService
  import opened NewsService

  // ---------------------------------------------------------------------
  // Pieces of text

  /** `_format_volume`: millions and thousands get one decimal and a
      suffix, smaller volumes are shown as they are; comparing a non-number
      raises `TypeError`. */
  function FormatVolume(v: Value): (r: Result<Doc>)
    ensures r.Ok? <==> v.Num?
    ensures r.Raise? ==> r.exc.kind == TypeError
    ensures v.Num? && v.x >= 1000000.0 ==>
              r.value == [Number(OneDecimal, v.x / 1000000.0), Lit("M")] && v.x / 1000000.0 >= 1.0
    ensures v.Num? && 1000.0 <= v.x < 1000000.0 ==>
              r.value == [Number(OneDecimal, v.x / 1000.0), Lit("K")] && 1.0 <= v.x / 1000.0 < 1000.0
    ensures v.Num? && v.x < 1000.0 ==> r.value == [Show(v)]
  {
    match Compare(v, 1000000.0, true)
    case Raise(e) => Raise(e)
    case Ok(millions) =>
      if millions then Ok([Number(OneDecimal, v.x / 1000000.0), Lit("M")])
      else if v.x >= 1000.0 then Ok([Number(OneDecimal, v.x / 1000.0), Lit("K")])
      else Ok([Show(v)])
  }

  /** The `market_cap` string of a snapshot: "N/A", or "$", the scaled
      figure with one decimal and the letter of its unit. */
  function CapText(c: MarketCap): (d: Doc)
    ensures c.CapNA? <==> d == [Lit("N/A")]
    ensures c.Cap? ==> |d| == 3 && d[0] == Lit("$") && d[1] == Number(OneDecimal, c.scaled)
    ensures c.Cap? ==> && (d[2] == Lit("T") <==> c.unit == Trillions)
                       && (d[2] == Lit("B") <==> c.unit == Billions)
                       && (d[2] == Lit("M") <==> c.unit == Millions)
  {
    match c
    case CapNA => [Lit("N/A")]
    case Cap(x, u) =>
      [Lit("$"), Number(OneDecimal, x),
       Lit(match u case Trillions => "T" case Billions => "B" case Millions => "M")]
  }

  /** The `pe_ratio` string of a snapshot. */
  function PeText(p: PeRatio): (d: Doc)
    ensures p.PeNA? <==> d == [Lit("N/A")]
    ensures p.Pe? ==> d == [Number(TwoDecimals, p.x)]
  {
    match p
    case PeNA => [Lit("N/A")]
    case Pe(x) => [Number(TwoDecimals, x)]
  }

  /** The sign and the word of a change: "+" and "상승" exactly when the
      change is not negative, no sign and "하락" otherwise. */
  function ChangeWording(cp: real): (w: (string, string))
    ensures w.0 == "+" <==> cp >= 0.0
    ensures w.0 == "" <==> cp < 0.0
    ensures w.1 == "상승" <==> cp >= 0.0
    ensures w.1 == "하락" <==> cp < 0.0
  {
    if cp >= 0.0 then ("+", "상승") else ("", "하락")
  }

  // The fixed runs of text of the briefing template, in the order they
  // appear.
  const TitleTail := " 브리핑\n\n**생성 시간**: "
  const CategoryLead := "  \n**분류**: "
  const InfoTableTop := "\n\n---\n\n## 📊 종목 정보\n\n| 항목 | 값 |\n|------|-----|\n| 티커 | "
  const NameRow := " |\n| 회사명 | "
  const PriceRow := " |\n| 현재 가격 | $"
  const ChangeRow := " |\n| 변동률 | "
  const VolumeRow := ") |\n| 거래량 | "
  const CapRow := " |\n| 시가총액 | "
  const SectorRow := " |\n| 섹터 | "
  const IndustryRow := " |\n| 산업 | "
  const PeRow := " |\n| PER | "
  const NewsHeading := " |\n\n---\n\n## 📰 관련 뉴스\n\n"
  const SummaryHeading := "---\n\n## 💡 분석 요약\n\n"
  const SelectedBy := " 스크리너에서 선정된 종목입니다.\n\n- **가격 동향**: $"
  const ActivityLead := "\n- **거래 활동**: 거래량 "
  const BasicsLead := "\n- **기본 정보**: "
  const SectorTail := " 섹터, "
  const ValuationLead := " 산업\n- **밸류에이션**: PER "
  const Closing := "\n\n이 브리핑은 실시간 시장 데이터를 기반으로 자동 생성되었습니다.\n\n---\n\n*자동 생성: While You Were Sleeping Dashboard*\n"

  /** Everything up to and including the news heading. */
  function Header(ticker: string, s: Snapshot, screenerType: string, now: int, vol: Doc): Doc {
    var w := ChangeWording(s.changePercent);
    [Lit("# " + ticker + " - "), Show(s.name), Lit(TitleTail), Clock(now, true),
     Lit(CategoryLead + screenerType + InfoTableTop + ticker + NameRow),
     Show(s.name), Lit(PriceRow), Number(TwoDecimals, s.price),
     Lit(ChangeRow + w.0), Number(TwoDecimals, s.changePercent),
     Lit("% (" + w.1 + VolumeRow)]
    + vol + [Lit(CapRow)] + CapText(s.marketCap)
    + [Lit(SectorRow), Show(s.sector), Lit(IndustryRow), Show(s.industry), Lit(PeRow)]
    + PeText(s.peRatio) + [Lit(NewsHeading)]
  }

  /** The analysis summary and the closing line. */
  function Footer(ticker: string, s: Snapshot, screenerType: string, vol: Doc): Doc {
    var w := ChangeWording(s.changePercent);
    [Lit(SummaryHeading), Show(s.name),
     Lit("(" + ticker + ")은 " + screenerType + SelectedBy),
     Number(TwoDecimals, s.price), Lit("에서 " + w.0), Number(TwoDecimals, s.changePercent),
     Lit("% " + w.1 + ActivityLead)]
    + vol + [Lit(BasicsLead), Show(s.sector), Lit(SectorTail), Show(s.industry),
             Lit(ValuationLead)]
    + PeText(s.peRatio)
    + [Lit(Closing)]
  }

  /** The news block numbered `i`, with the per-field defaults. */
  function NewsBlock(i: int, n: map<string, Value>): Doc {
    [Lit("### "), Int(i), Lit(". "), Show(Get(n, "title", Str(UntitledNews))),
     Lit(SourceLead), Show(Get(n, "source", Str("Unknown Source"))),
     Lit(TimeLead), Show(Get(n, "published_at", Str(""))),
     Lit(SummaryLead), Show(Get(n, "summary", Str(""))),
     Lit(LinkLead), Show(Get(n, "url", Str("#"))), Lit(")\n\n")]
  }

  const UntitledNews := "제목 없음"
  const SourceLead := "\n\n**출처**: "
  const TimeLead := "  \n**시간**: "
  const SummaryLead := "  \n**요약**: "
  const LinkLead := "\n\n[원문 보기]("

  const NoNewsLine := "현재 관련 뉴스가 없습니다.\n\n"

  /** The news part of the briefing. */
  function NewsSection(items: seq<map<string, Value>>): (d: Doc)
    ensures items == [] ==> d == [Lit(NoNewsLine)]
  {
    if items == [] then [Lit(NoNewsLine)] else Blocks(NewsBlock, Take(items, 5), 1)
  }

  /** `_format_briefing_markdown` as a value: it raises only where the
      volume cannot be compared. */
  function BriefingMarkdownOf(ticker: string, s: Snapshot, news: seq<map<string, Value>>, screenerType: string, now: int): (r: Result<Doc>)
    ensures r.Ok? <==> s.volume.Num?
  {
    match FormatVolume(s.volume)
    case Raise(e) => Raise(e)
    case Ok(vol) => Ok(Header(ticker, s, screenerType, now, vol) + NewsSection(news) + Footer(ticker, s, screenerType, vol))
  }

  /** The news part of `_format_briefing_markdown`: `md` grows by one block
      per news item, for at most five items. */
  method AppendNews(md0: Doc, news: seq<map<string, Value>>) returns (md: Doc)
    ensures md == md0 + NewsSection(news)
  {
    md := md0;
    if |news| > 0 {
      var shown := Take(news, 5);
      for i := 0 to |shown|
        invariant md == md0 + Blocks(NewsBlock, shown[..i], 1)
      {
        BlocksAppend(NewsBlock, shown[..i], shown[i], 1);
        assert shown[..i + 1] == shown[..i] + [shown[i]];
        RegroupThree(md0, Blocks(NewsBlock, shown[..i], 1), NewsBlock(i + 1, shown[i]));
        md := md + NewsBlock(i + 1, shown[i]);
      }
      assert shown[..|shown|] == shown;
    } else {
      md := md + [Lit(NoNewsLine)];
    }
  }

  /** `BriefingService._format_briefing_markdown`. */
  method FormatBriefingMarkdown(ticker: string, s: Snapshot, news: seq<map<string, Value>>, screenerType: string, now: int)
    returns (r: Result<Doc>)
    ensures r == BriefingMarkdownOf(ticker, s, news, screenerType, now)
  {
    var vol := FormatVolume(s.volume);
    if vol.Raise? {
      return Raise(vol.exc);
    }
    var md := Header(ticker, s, screenerType, now, vol.value);
    md := AppendNews(md, news);
    md := md + Footer(ticker, s, screenerType, vol.value);
    r := Ok(md);
  }

  // ---------------------------------------------------------------------
  // Numbering of the news blocks

  /** Each news block carries its own number and no other. */
  lemma NewsBlockNumber(i: int, n: map<string, Value>)
    ensures Numbers(NewsBlock(i, n)) == [i]
  {
    var b := NewsBlock(i, n);
    NumbersAppend([Lit("### "), Int(i)], b[2..]);
    assert b == [Lit("### "), Int(i)] + b[2..];
    NoNumbers(b[2..]);
    assert Numbers([Lit("### "), Int(i)]) == [i] by {
      assert [Lit("### "), Int(i)][1..] == [Int(i)];
    }
  }

  lemma HeaderHasNoNumbers(ticker: string, s: Snapshot, screenerType: string, now: int, vol: Doc)
    requires forall k :: 0 <= k < |vol| ==> !vol[k].Int?
    ensures Numbers(Header(ticker, s, screenerType, now, vol)) == []
  {
    NoNumbers(Header(ticker, s, screenerType, now, vol));
  }

  lemma FooterHasNoNumbers(ticker: string, s: Snapshot, screenerType: string, vol: Doc)
    requires forall k :: 0 <= k < |vol| ==> !vol[k].Int?
    ensures Numbers(Footer(ticker, s, screenerType, vol)) == []
  {
    NoNumbers(Footer(ticker, s, screenerType, vol));
  }

  /** A news block is thirteen segments long. */
  lemma NewsBlockLength(i: int, n: map<string, Value>)
    ensures |NewsBlock(i, n)| == 13
  {
  }

  lemma {:induction false} NewsBlocksLength(items: seq<map<string, Value>>, start: int)
    ensures |Blocks(NewsBlock, items, start)| == 13 * |items|
  {
    if items != [] {
      NewsBlockLength(start, items[0]);
      NewsBlocksLength(items[1..], start + 1);
    }
  }

  /** Block `k + 1` of the news section shows item `k` of the input, with
      the per-field defaults, at the `k`-th place. */
  lemma NewsBlockAt(news: seq<map<string, Value>>, k: int)
    requires 0 <= k < |news| && k < 5
    ensures |NewsSection(news)| == 13 * |Take(news, 5)|
    ensures NewsSection(news)[13 * k .. 13 * k + 13] == NewsBlock(k + 1, news[k])
  {
    var shown := Take(news, 5);
    BlocksSplit(NewsBlock, shown, k, 1);
    NewsBlocksLength(shown, 1);
    NewsBlocksLength(shown[..k], 1);
    NewsBlockLength(k + 1, shown[k]);
    var pre, mid, post := Blocks(NewsBlock, shown[..k], 1), NewsBlock(k + 1, shown[k]),
                          Blocks(NewsBlock, shown[k + 1..], k + 2);
    assert NewsSection(news) == pre + mid + post;
    assert (pre + mid + post)[|pre| .. |pre| + |mid|] == mid;
  }

  /** The briefing shows news item `k` as block `k + 1`, right after the
      header and the `k` blocks before it. */
  predicate ShowsNewsAt(ticker: string, s: Snapshot, news: seq<map<string, Value>>, screenerType: string, now: int, k: int)
    requires s.volume.Num? && 0 <= k < |news|
  {
    var md := BriefingMarkdownOf(ticker, s, news, screenerType, now).value;
    var h := |Header(ticker, s, screenerType, now, FormatVolume(s.volume).value)|;
    h + 13 * k + 13 <= |md| && md[h + 13 * k .. h + 13 * k + 13] == NewsBlock(k + 1, news[k])
  }

  /** In the whole briefing, block `k + 1` sits right after the header and
      the `k` blocks before it, and shows item `k`. */
  lemma BriefingNewsAt(ticker: string, s: Snapshot, news: seq<map<string, Value>>, screenerType: string, now: int, k: int)
    requires s.volume.Num? && 0 <= k < |news| && k < 5
    ensures ShowsNewsAt(ticker, s, news, screenerType, now, k)
  {
    var vol := FormatVolume(s.volume).value;
    var head, section, foot := Header(ticker, s, screenerType, now, vol), NewsSection(news), Footer(ticker, s, screenerType, vol);
    NewsBlockAt(news, k);
    var md := head + section + foot;
    assert md[|head| + 13 * k .. |head| + 13 * k + 13] == section[13 * k .. 13 * k + 13];
  }

  /** The briefing numbers its news 1, 2, … in input order and shows at
      most five of them; with no news it has no numbered block at all. Block
      `k + 1` shows item `k`, right after the header and the blocks before
      it. */
  lemma NewsNumbering(ticker: string, s: Snapshot, news: seq<map<string, Value>>, screenerType: string, now: int)
    requires s.volume.Num?
    ensures var h := Numbers(BriefingMarkdownOf(ticker, s, news, screenerType, now).value);
      && |h| == (if |news| < 5 then |news| else 5)
      && forall k :: 0 <= k < |h| ==> h[k] == k + 1
    ensures forall k :: 0 <= k < |news| && k < 5 ==> ShowsNewsAt(ticker, s, news, screenerType, now, k)
  {
    BriefingNumbers(ticker, s, news, screenerType, now);
    BriefingNewsInOrder(ticker, s, news, screenerType, now);
  }

  lemma BriefingNewsInOrder(ticker: string, s: Snapshot, news: seq<map<string, Value>>, screenerType: string, now: int)
    requires s.volume.Num?
    ensures forall k :: 0 <= k < |news| && k < 5 ==> ShowsNewsAt(ticker, s, news, screenerType, now, k)
  {
    forall k | 0 <= k < |news| && k < 5
      ensures ShowsNewsAt(ticker, s, news, screenerType, now, k)
    {
      BriefingNewsAt(ticker, s, news, screenerType, now, k);
    }
  }

  lemma BriefingNumbers(ticker: string, s: Snapshot, news: seq<map<string, Value>>, screenerType: string, now: int)
    requires s.volume.Num?
    ensures var h := Numbers(BriefingMarkdownOf(ticker, s, news, screenerType, now).value);
      && |h| == (if |news| < 5 then |news| else 5)
      && forall k :: 0 <= k < |h| ==> h[k] == k + 1
  {
    var vol := FormatVolume(s.volume).value;
    var head, foot := Header(ticker, s, screenerType, now, vol), Footer(ticker, s, screenerType, vol);
    var section := NewsSection(news);
    HeaderHasNoNumbers(ticker, s, screenerType, now, vol);
    FooterHasNoNumbers(ticker, s, screenerType, vol);
    NewsSectionNumbers(news);
    RegroupThree(head, section, foot);
    FramedNumbers(head, section, foot);
  }

  /** The news section numbers its blocks 1, 2, … and has at most five. */
  lemma NewsSectionNumbers(news: seq<map<string, Value>>)
    ensures var h := Numbers(NewsSection(news));
      && |h| == (if |news| < 5 then |news| else 5)
      && forall k :: 0 <= k < |h| ==> h[k] == k + 1
  {
    if news == [] {
      NoNumbers(NewsSection(news));
    } else {
      forall i, n ensures Numbers(NewsBlock(i, n)) == [i] {
        NewsBlockNumber(i, n);
      }
      BlocksNumbers(NewsBlock, Take(news, 5), 1);
    }
  }

  /** Items after the fifth never reach the briefing. */
  lemma OnlyFirstFiveShown(ticker: string, s: Snapshot, news: seq<map<string, Value>>, extra: seq<map<string, Value>>, screenerType: string, now: int)
    requires |news| >= 5
    ensures BriefingMarkdownOf(ticker, s, news + extra, screenerType, now)
         == BriefingMarkdownOf(ticker, s, news, screenerType, now)
  {
    assert Take(news + extra, 5) == Take(news, 5);
    assert NewsSection(news + extra) == NewsSection(news);
  }

  /** The change wording appears next to the change in the table: the sign
      segment is "+" exactly when the change is not negative. */
  lemma TableShowsSignedChange(ticker: string, s: Snapshot, screenerType: string, now: int, vol: Doc)
    ensures var h := Header(ticker, s, screenerType, now, vol);
      && h[8] == Lit(ChangeRow + (if s.changePercent >= 0.0 then "+" else ""))
      && h[9] == Number(TwoDecimals, s.changePercent)
      && h[10] == Lit("% (" + (if s.changePercent >= 0.0 then "상승" else "하락") + VolumeRow)
  {
  }

  // ---------------------------------------------------------------------
  // generate_briefing_content

  /** `BriefingService.generate_briefing_content`: the ticker is validated
      first and normalised, then the category; an error snapshot is fatal,
      while the news may be empty. Every exception reaches the caller
      unchanged. */
  function BriefingContentOf(ticker: Value, screenerType: string, provider: QuoteProvider,
                             client: Option<SearchClient>, now: int): (r: Result<Doc>)
    ensures !IsNonEmptyStr(ticker) ==> r == Raise(Exc(ValueError, InvalidTicker(ticker)))
    ensures IsNonEmptyStr(ticker) && screenerType !in ScreenerTypes ==>
              r == Raise(Exc(ValueError, InvalidBriefingType(screenerType)))
    ensures IsNonEmptyStr(ticker) && screenerType in ScreenerTypes
            && StockInfoOf(Str(Normalize(ticker.s)), provider).InfoError? ==>
              r == Raise(Exc(ValueError, StockInfoUnavailable(Normalize(ticker.s))))
    ensures r.Ok? ==> screenerType in ScreenerTypes && IsNonEmptyStr(ticker)
                      && StockInfoOf(Str(Normalize(ticker.s)), provider).InfoSuccess?
    ensures IsNonEmptyStr(ticker) && screenerType in ScreenerTypes
            && StockInfoOf(Str(Normalize(ticker.s)), provider).InfoSuccess? ==>
              var t := Normalize(ticker.s);
              r == BriefingMarkdownOf(t, StockInfoOf(Str(t), provider).snap,
                                      StockNewsOf(Str(t), 10, now, client), screenerType, now)
  {
    if !IsNonEmptyStr(ticker) then Raise(Exc(ValueError, InvalidTicker(ticker)))
    else
      var t := Normalize(ticker.s);
      if screenerType !in ScreenerTypes then Raise(Exc(ValueError, InvalidBriefingType(screenerType)))
      else match StockInfoOf(Str(t), provider)
        case InfoError(_, _) => Raise(Exc(ValueError, StockInfoUnavailable(t)))
        case InfoSuccess(s) =>
          BriefingMarkdownOf(t, s, StockNewsOf(Str(t), 10, now, client), screenerType, now)
  }

  method GenerateBriefingContent(ticker: Value, screenerType: string, provider: QuoteProvider,
                                 client: Option<SearchClient>, now: int) returns (r: Result<Doc>)
    ensures r == BriefingContentOf(ticker, screenerType, provider, client, now)
  {
    if !IsNonEmptyStr(ticker) {
      return Raise(Exc(ValueError, InvalidTicker(ticker)));
    }
    var t := Normalize(ticker.s);
    if screenerType !in ScreenerTypes {
      return Raise(Exc(ValueError, InvalidBriefingType(screenerType)));
    }
    var stockInfo := GetStockInfo(Str(t), provider);
    if stockInfo.InfoError? {
      return Raise(Exc(ValueError, StockInfoUnavailable(t)));
    }
    var newsItems := GetStockNews(Str(t), 10, now, client);
    r := FormatBriefingMarkdown(t, stockInfo.snap, newsItems, screenerType, now);
  }

  /** Zero news items is allowed: with a valid ticker and category and a
      success snapshot whose volume is a number, the service succeeds
      whatever the search does, and without a search client the briefing
      is the header, the no-news line and the summary. */
  lemma SucceedsWithoutNews(ticker: string, screenerType: string, provider: QuoteProvider,
                            client: Option<SearchClient>, now: int)
    requires |ticker| > 0 && screenerType in ScreenerTypes
    requires StockInfoOf(Str(Normalize(ticker)), provider).InfoSuccess?
    requires StockInfoOf(Str(Normalize(ticker)), provider).snap.volume.Num?
    ensures BriefingContentOf(Str(ticker), screenerType, provider, client, now).Ok?
    ensures var t := Normalize(ticker);
            var s := StockInfoOf(Str(t), provider).snap;
            var vol := FormatVolume(s.volume).value;
      BriefingContentOf(Str(ticker), screenerType, provider, None, now)
      == Ok(Header(t, s, screenerType, now, vol) + [Lit(NoNewsLine)] + Footer(t, s, screenerType, vol))
  {
    var t := Normalize(ticker);
    assert StockNewsOf(Str(t), 10, now, None) == [];
  }

  /** Normalising the ticker a second time changes nothing: the service
      asks for the same snapshot whether its caller normalised or not. */
  lemma ServiceRenormalizes(ticker: string, screenerType: string, provider: QuoteProvider,
                            client: Option<SearchClient>, now: int)
    requires |Normalize(ticker)| > 0
    ensures BriefingContentOf(Str(Normalize(ticker)), screenerType, provider, client, now)
         == BriefingContentOf(Str(ticker), screenerType, provider, client, now)
  {
    NormalizeIdempotent(ticker);
  }

  /** An exception other than the service's own `ValueError`s can only come
      from a volume that is not a number, and it is a `TypeError`. */
  lemma OnlyVolumeRaisesOtherwise(ticker: Value, screenerType: string, provider: QuoteProvider,
                                  client: Option<SearchClient>, now: int)
    ensures var r := BriefingContentOf(ticker, screenerType, provider, client, now);
      r.Raise? && r.exc.kind != ValueError ==>
        && r.exc.kind == TypeError
        && IsNonEmptyStr(ticker)
        && var info := StockInfoOf(Str(Normalize(ticker.s)), provider);
           info.InfoSuccess? && !info.snap.volume.Num?
  {
  }
}
