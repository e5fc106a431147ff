/** The caption of an Instagram post (`MetaInstagramService.create_caption`):
    a fixed header, the three screener categories in a fixed order, each
    shown only when present and non-empty with at most three numbered
    lines, and a hashtag line. Nothing is caught: an exception reaches the
    caller. */
module InstagramCaption {
  import opened PyValues
  import opened Text

  const Header: Doc := [Lit("📈 와일유어슬립 주식 브리핑\n\n")]

  const Hashtags := "\n#주식 #투자 #트렌드주 #화제종목 #주식시장"

  /** A category block: its key, its title, and whether a blank line
      follows it. */
  datatype Category = Category(key: string, title: string, blankAfter: bool)

  const MostActives := Category("most_actives", "🔥 거래량 많은 종목\n", true)
  const DayGainers := Category("day_gainers", "📈 오늘의 상승 종목\n", true)
  const DayLosers := Category("day_losers", "📉 오늘의 하락 종목\n", false)

  /** Line `i` of a section: `"{i}. {symbol} ${price} {change}%\n"`, each
      field "N/A" when missing; a stock that is not a dict has no `.get`. */
  function StockLine(i: int, stock: Value): (r: Result<Doc>)
    ensures r.Ok? <==> stock.Dict?
    ensures r.Ok? ==> Numbers(r.value) == [i] && |r.value| == 8 && r.value[7] == Lit("%\n")
    ensures r.Ok? ==>
              && r.value[2] == Show(Get(stock.entries, "symbol", Str("N/A")))
              && r.value[4] == Show(Get(stock.entries, "price", Str("N/A")))
              && r.value[6] == Show(Get(stock.entries, "change", Str("N/A")))
  {
    if !stock.Dict? then Raise(Exc(AttributeError, ProviderText(NoGetMethod)))
    else
      var e := stock.entries;
      var d := [Int(i), Lit(". "), Show(Get(e, "symbol", Str("N/A"))), Lit(" $"),
                Show(Get(e, "price", Str("N/A"))), Lit(" "), Show(Get(e, "change", Str("N/A"))), Lit("%\n")];
      NoNumbers(d[1..]);
      NumbersAppend([Int(i)], d[1..]);
      assert d == [Int(i)] + d[1..];
      Ok(d)
  }

  /** Whether a category is shown: its key is present and its value truthy. */
  predicate Shown(c: Category, data: map<string, Value>) {
    c.key in data && Truthy(data[c.key])
  }

  /** One category block. A truthy value that is not a list cannot be
      sliced into stocks and raises. */
  function Section(c: Category, data: map<string, Value>): (r: Result<Doc>)
    ensures !Shown(c, data) ==> r == Ok([])
    ensures Shown(c, data) && !data[c.key].List? ==> r.Raise?
    ensures Shown(c, data) && r.Ok? ==> |r.value| > 0 && r.value[0] == Lit(c.title)
    ensures Shown(c, data) && data[c.key].List? ==>
              var lines := Join(Enumerate(StockLine, Take(data[c.key].items, 3), 1));
              && (r.Ok? <==> lines.Ok?)
              && (r.Ok? ==> r.value == [Lit(c.title)] + lines.value + (if c.blankAfter then [Lit("\n")] else []))
    ensures Shown(c, data) && data[c.key].List? ==>
              (r.Ok? <==> forall k :: 0 <= k < |data[c.key].items| && k < 3 ==> data[c.key].items[k].Dict?)
  {
    if !Shown(c, data) then Ok([])
    else match data[c.key]
      case List(items) =>
        Then(Ok([Lit(c.title)]),
             Then(Join(Enumerate(StockLine, Take(items, 3), 1)),
                  Ok(if c.blankAfter then [Lit("\n")] else [])))
      case Str(_) => Raise(Exc(AttributeError, ProviderText(StrNoGetMethod)))
      case _ => Raise(Exc(TypeError, ProviderText(NotSubscriptable)))
  }

  /** `create_caption` as a value. */
  function InstagramCaptionOf(data: map<string, Value>): (r: Result<Doc>)
    ensures |data| == 0 ==> r == Ok(Header + [Lit(Hashtags)])
    ensures r.Ok? <==> Section(MostActives, data).Ok? && Section(DayGainers, data).Ok? && Section(DayLosers, data).Ok?
    ensures r.Ok? ==>
              r.value == Header + Section(MostActives, data).value + Section(DayGainers, data).value
                         + Section(DayLosers, data).value + [Lit(Hashtags)]
  {
    if |data| == 0 then Ok(Header + [Lit(Hashtags)])
    else
      var a, b, c := Section(MostActives, data), Section(DayGainers, data), Section(DayLosers, data);
      var r := Then(Ok(Header), Then(a, Then(b, Then(c, Ok([Lit(Hashtags)])))));
      if r.Ok? then
        RegroupFive(Header, a.value, b.value, c.value, [Lit(Hashtags)]);
        r
      else r
  }

  /** One of the three blocks of `create_caption`. */
  method AppendSection(caption0: Doc, c: Category, data: map<string, Value>) returns (r: Result<Doc>)
    ensures r == Then(Ok(caption0), Section(c, data))
  {
    if !(c.key in data && Truthy(data[c.key])) {
      assert caption0 + [] == caption0;
      return Ok(caption0);
    }
    var stocks := data[c.key];
    if !stocks.List? {
      return Raise(Section(c, data).exc);
    }
    var title := [Lit(c.title)];
    var lines := AppendEnumerated(caption0 + title, StockLine, Take(stocks.items, 3));
    if lines.Raise? {
      return lines;
    }
    var tail: Doc := if c.blankAfter then [Lit("\n")] else [];
    ghost var body := Join(Enumerate(StockLine, Take(stocks.items, 3), 1)).value;
    Regroup(caption0, title, body, tail);
    r := Ok(lines.value + tail);
  }

  /** `MetaInstagramService.create_caption`. */
  method CreateCaption(data: map<string, Value>) returns (r: Result<Doc>)
    ensures r == InstagramCaptionOf(data)
  {
    var caption := Header;
    if |data| > 0 {
      var next := AppendSection(caption, MostActives, data);
      if next.Raise? {
        return next;
      }
      next := AppendSection(next.value, DayGainers, data);
      if next.Raise? {
        return next;
      }
      next := AppendSection(next.value, DayLosers, data);
      if next.Raise? {
        return next;
      }
      caption := next.value;
    }
    caption := caption + [Lit(Hashtags)];
    r := Ok(caption);
  }

  /** Only the three category keys matter: other keys change nothing, as
      long as the argument stays non-empty. */
  lemma OtherKeysIgnored(data: map<string, Value>, key: string, v: Value)
    requires key !in {"most_actives", "day_gainers", "day_losers"}
    requires |data| > 0
    ensures InstagramCaptionOf(data[key := v]) == InstagramCaptionOf(data)
  {
    var data' := data[key := v];
    assert Section(MostActives, data') == Section(MostActives, data);
    assert Section(DayGainers, data') == Section(DayGainers, data);
    assert Section(DayLosers, data') == Section(DayLosers, data);
  }

  /** A shown block ends with a blank line exactly when its category has
      one after it: the first two do, the last one does not. */
  lemma BlankLineIffBlankAfter(c: Category, data: map<string, Value>, items: seq<Value>)
    requires c.key in data && data[c.key] == List(items) && |items| > 0
    requires Section(c, data).Ok?
    ensures var s := Section(c, data).value; s[|s| - 1] == Lit("\n") <==> c.blankAfter
  {
    var lines := Enumerate(StockLine, Take(items, 3), 1);
    var tail: Doc := if c.blankAfter then [Lit("\n")] else [];
    var body := Join(lines).value;
    assert Section(c, data).value == [Lit(c.title)] + (body + tail);
    JoinLast(lines);
    var last := lines[|lines| - 1].value;
    assert body[|body| - 1] == last[|last| - 1] == Lit("%\n");
  }

  /** A shown block lists at most three stocks, numbered 1, 2, 3 in the
      order they come. */
  lemma SectionNumbering(c: Category, data: map<string, Value>, items: seq<Value>)
    requires c.key in data && data[c.key] == List(items) && |items| > 0
    ensures var r := Section(c, data);
      r.Ok? ==>
        var n := Numbers(r.value);
        && |n| == (if |items| < 3 then |items| else 3)
        && forall k :: 0 <= k < |n| ==> n[k] == k + 1
  {
    var lines := Enumerate(StockLine, Take(items, 3), 1);
    var r := Section(c, data);
    if r.Ok? {
      var body := Join(lines).value;
      var tail: Doc := if c.blankAfter then [Lit("\n")] else [];
      assert r.value == [Lit(c.title)] + (body + tail);
      EnumerateNumbers(StockLine, Take(items, 3), 1);
      NoNumbers([Lit(c.title)]);
      NoNumbers(tail);
      FramedNumbers([Lit(c.title)], body, tail);
    }
  }
}
