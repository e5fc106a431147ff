/** The caption of a Threads post (`ThreadsService.create_caption`): a dated
    header, one section per non-empty screener category in the order the
    categories come, at most three numbered lines per section and a hashtag
    line; any exception gives a fixed fallback caption instead. */
module ThreadsCaption {
  import opened PyValues
  import opened Text

  /** The caption returned from the `except` clause. */
  const Fallback: Doc := [Lit("📈 주식 브리핑\n\n#주식 #투자 #트렌드주")]

  const Hashtags := "\n#주식 #투자 #트렌드주 #화제종목 #주식시장 #주식정보"

  /** `"📈 {date} 주식 브리핑\n\n"`, the date read from the clock. */
  function Header(now: int): Doc {
    [Lit("📈 "), Clock(now, false), Lit(" 주식 브리핑\n\n")]
  }

  /** The section title of a category: the three screener categories have
      fixed titles, any other key is its own title. */
  function Label(key: string): string {
    if key == "most_actives" then "🔥 거래량 많은 종목\n"
    else if key == "day_gainers" then "📈 오늘의 상승 종목\n"
    else if key == "day_losers" then "📉 오늘의 하락 종목\n"
    else key + "\n"
  }

  /** Line `i` of a section: `"{i}. {symbol} ${price} {change:+.2f}%\n"`.
      A stock that is not a dict has no `.get`; a missing change defaults to
      the string '0', which the signed numeric spec refuses. */
  function StockLine(i: int, stock: Value): (r: Result<Doc>)
    ensures r.Ok? <==> stock.Dict? && Get(stock.entries, "change_percent", Str("0")).Num?
    ensures r.Ok? ==> Numbers(r.value) == [i]
    ensures r.Ok? ==> Number(SignedTwoDecimals, Get(stock.entries, "change_percent", Str("0")).x) in r.value
    ensures r.Ok? ==>
              && |r.value| == 8 && r.value[7] == Lit("%\n")
              && r.value[2] == Show(Get(stock.entries, "symbol", Str("N/A")))
              && r.value[4] == Show(Get(stock.entries, "price", Str("N/A")))
              && r.value[6] == Number(SignedTwoDecimals, Get(stock.entries, "change_percent", Str("0")).x)
  {
    if !stock.Dict? then Raise(Exc(AttributeError, ProviderText(NoGetMethod)))
    else
      var e := stock.entries;
      match FormatNum(Get(e, "change_percent", Str("0")), SignedTwoDecimals)
      case Raise(x) => Raise(x)
      case Ok(change) =>
        var d := [Int(i), Lit(". "), Show(Get(e, "symbol", Str("N/A"))), Lit(" $"),
                  Show(Get(e, "price", Str("N/A"))), Lit(" "), change, Lit("%\n")];
        NoNumbers(d[1..]);
        NumbersAppend([Int(i)], d[1..]);
        assert d == [Int(i)] + d[1..];
        assert d[6] == change;
        Ok(d)
  }

  /** The section of one category: nothing for a falsy value; a title, the
      first three stocks and a blank line for a list; any other truthy value
      cannot be sliced into stocks and raises. */
  function Section(key: string, stocks: Value): (r: Result<Doc>)
    ensures !Truthy(stocks) ==> r == Ok([])
    ensures Truthy(stocks) && !stocks.List? ==> r.Raise?
    ensures stocks.List? && Truthy(stocks) ==>
              var lines := Join(Enumerate(StockLine, Take(stocks.items, 3), 1));
              && (r.Ok? <==> lines.Ok?)
              && (r.Ok? ==> && |r.value| >= 2
                            && r.value[0] == Lit(Label(key))
                            && r.value[1..|r.value| - 1] == lines.value
                            && r.value[|r.value| - 1] == Lit("\n"))
  {
    if !Truthy(stocks) then Ok([])
    else match stocks
      case List(items) =>
        Then(Ok([Lit(Label(key))]), Then(Join(Enumerate(StockLine, Take(items, 3), 1)), Ok([Lit("\n")])))
      case Str(_) => Raise(Exc(AttributeError, ProviderText(StrNoGetMethod)))
      case _ => Raise(Exc(TypeError, ProviderText(NotSubscriptable)))
  }

  /** The sections of all categories, in the order they come. */
  function Sections(entries: seq<(string, Value)>): (r: seq<Result<Doc>>)
    ensures |r| == |entries|
    ensures forall k :: 0 <= k < |entries| ==> r[k] == Section(entries[k].0, entries[k].1)
  {
    Map((e: (string, Value)) => Section(e.0, e.1), entries)
  }

  /** `create_caption` as a value: header, sections and hashtags, or the
      fallback when any section raises. */
  function ThreadsCaptionOf(entries: seq<(string, Value)>, now: int): (c: Doc)
    ensures c == Fallback || (|c| >= 4 && c[..3] == Header(now) && c[|c| - 1] == Lit(Hashtags))
    ensures c == Fallback <==> Join(Sections(entries)).Raise?
    ensures Join(Sections(entries)).Ok? ==>
              c == Header(now) + Join(Sections(entries)).value + [Lit(Hashtags)]
  {
    match Join(Sections(entries))
    case Ok(d) => Header(now) + d + [Lit(Hashtags)]
    case Raise(_) => Fallback
  }

  /** One pass of the outer loop of `create_caption`: a falsy category is
      skipped, a listed one adds its title, its lines and a blank line. */
  method AppendSection(caption0: Doc, key: string, stocks: Value) returns (r: Result<Doc>)
    ensures r == Then(Ok(caption0), Section(key, stocks))
  {
    if !Truthy(stocks) {
      assert caption0 + [] == caption0;
      return Ok(caption0);
    }
    if !stocks.List? {
      return Raise(Section(key, stocks).exc);
    }
    var title := [Lit(Label(key))];
    var lines := AppendEnumerated(caption0 + title, StockLine, Take(stocks.items, 3));
    if lines.Raise? {
      return lines;
    }
    ghost var body := Join(Enumerate(StockLine, Take(stocks.items, 3), 1)).value;
    Regroup(caption0, title, body, [Lit("\n")]);
    r := Ok(lines.value + [Lit("\n")]);
  }

  /** The outer loop of `create_caption`: `caption` grows section by
      section; the first exception ends the loop. */
  method AppendSections(caption0: Doc, entries: seq<(string, Value)>) returns (r: Result<Doc>)
    ensures r == Then(Ok(caption0), Join(Sections(entries)))
  {
    ghost var parts := Sections(entries);
    var caption := caption0;
    for i := 0 to |entries|
      invariant Join(parts[..i]).Ok?
      invariant caption == caption0 + Join(parts[..i]).value
    {
      var next := AppendSection(caption, entries[i].0, entries[i].1);
      JoinStep(caption0, parts, i, next);
      if next.Raise? {
        return next;
      }
      caption := next.value;
    }
    assert parts[..|entries|] == parts;
    r := Ok(caption);
  }

  /** `ThreadsService.create_caption`: the header, the sections and the
      hashtags, or the fallback once a section raises. */
  method CreateCaption(entries: seq<(string, Value)>, now: int) returns (caption: Doc)
    ensures caption == ThreadsCaptionOf(entries, now)
  {
    var built := AppendSections(Header(now), entries);
    if built.Raise? {
      return Fallback;
    }
    caption := built.value + [Lit(Hashtags)];
  }

  /** A falsy category leaves no trace: the caption is the one of the
      categories around it. */
  lemma SkipsFalsyCategory(a: seq<(string, Value)>, key: string, stocks: Value, b: seq<(string, Value)>, now: int)
    requires !Truthy(stocks)
    ensures ThreadsCaptionOf(a + [(key, stocks)] + b, now) == ThreadsCaptionOf(a + b, now)
  {
    var f := (e: (string, Value)) => Section(e.0, e.1);
    MapAppend(f, a + [(key, stocks)], b);
    MapAppend(f, a, [(key, stocks)]);
    MapAppend(f, a, b);
    var sa, sb := Sections(a), Sections(b);
    assert Sections([(key, stocks)]) == [Ok([])];
    JoinAppend(sa + [Ok([])], sb);
    JoinAppend(sa, [Ok([])]);
    JoinAppend(sa, sb);
    var none: seq<Result<Doc>> := [Ok([])];
    assert none[1..] == [];
    assert Join(none) == Then(Ok([]), Join([]));
    assert Join([]) == Ok([]);
    assert Then(Ok([]), Ok([])) == Ok([] + []);
    if Join(sa).Ok? {
      assert Join(sa).value + [] == Join(sa).value;
    }
    assert Join(Sections(a + [(key, stocks)] + b)) == Join(Sections(a + b));
  }

  /** A listed category shows at most three lines, numbered 1, 2, 3 in the
      order of its stocks. */
  lemma SectionNumbering(key: string, items: seq<Value>)
    requires |items| > 0
    ensures var r := Section(key, List(items));
      r.Ok? ==>
        var n := Numbers(r.value);
        && |n| == (if |items| < 3 then |items| else 3)
        && forall k :: 0 <= k < |n| ==> n[k] == k + 1
  {
    var lines := Enumerate(StockLine, Take(items, 3), 1);
    var r := Section(key, List(items));
    if r.Ok? {
      var body := Join(lines).value;
      assert r.value == [Lit(Label(key))] + (body + [Lit("\n")]);
      EnumerateNumbers(StockLine, Take(items, 3), 1);
      NoNumbers([Lit(Label(key))]);
      NoNumbers([Lit("\n")]);
      FramedNumbers([Lit(Label(key))], body, [Lit("\n")]);
    }
  }

  /** Stocks after the third are never read. */
  lemma OnlyFirstThreeRead(key: string, items: seq<Value>, extra: seq<Value>)
    requires |items| >= 3
    ensures Section(key, List(items + extra)) == Section(key, List(items))
  {
    assert Take(items + extra, 3) == Take(items, 3);
  }

  /** A first stock without a change percent makes the whole caption the
      fallback: its default '0' is a string. */
  lemma MissingChangeFallsBack(entries: seq<(string, Value)>, i: int, items: seq<Value>, now: int)
    requires 0 <= i < |entries| && entries[i].1 == List(items)
    requires |items| > 0 && items[0].Dict? && "change_percent" !in items[0].entries
    ensures ThreadsCaptionOf(entries, now) == Fallback
  {
    var lines := Enumerate(StockLine, Take(items, 3), 1);
    assert lines[0].Raise?;
    assert Sections(entries)[i].Raise?;
  }

  /** So does a category whose value is truthy but not a list. */
  lemma UnsliceableFallsBack(entries: seq<(string, Value)>, i: int, now: int)
    requires 0 <= i < |entries| && Truthy(entries[i].1) && !entries[i].1.List?
    ensures ThreadsCaptionOf(entries, now) == Fallback
  {
    assert Sections(entries)[i].Raise?;
  }
}
