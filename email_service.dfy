/** The e-mail delivery of the daily briefing (`EmailService`): the SMTP
    settings read once from the environment, the credential check that
    refuses to send, and the HTML body with one section per screener
    category. */
module EmailService {
  import opened PyValues
  import opened Strings
  import opened Text

  // ---------------------------------------------------------------------
  // `int()` on the text of `SMTP_PORT`
  // ---------------------------------------------------------------------

  predicate IsDigit(c: char) {
    '0' <= c <= '9'
  }

  function DigitValue(c: char): (d: nat)
    ensures IsDigit(c) ==> d == c as int - '0' as int
  {
    if IsDigit(c) then c as int - '0' as int else 0
  }

  /** The body of a decimal `int()` literal: ASCII digits, where a single
      underscore may separate two digits. */
  predicate DigitGroups(s: string) {
    && |s| > 0 && IsDigit(s[0]) && IsDigit(s[|s| - 1])
    && (forall k :: 0 <= k < |s| ==> IsDigit(s[k]) || s[k] == '_')
    && (forall k :: 0 <= k < |s| - 1 ==> IsDigit(s[k]) || IsDigit(s[k + 1]))
  }

  /** The number the digits of `s` spell, underscores skipped. */
  function DigitsValue(s: string): nat {
    if s == [] then 0
    else if s[|s| - 1] == '_' then DigitsValue(s[..|s| - 1])
    else DigitsValue(s[..|s| - 1]) * 10 + DigitValue(s[|s| - 1])
  }

  /** `int()` on text that has no whitespace around it: an optional sign
      and a group of digits; anything else is a `ValueError`, here `None`. */
  function IntLiteral(t: string): (r: Option<int>)
    ensures t == [] ==> r == None
  {
    if |t| > 0 && (t[0] == '+' || t[0] == '-') then
      if DigitGroups(t[1..]) then
        var magnitude: int := DigitsValue(t[1..]);
        Some(if t[0] == '-' then -magnitude else magnitude)
      else None
    else if DigitGroups(t) then Some(DigitsValue(t))
    else None
  }

  /** `int(s)` on a string: surrounding whitespace is ignored. */
  function PyInt(s: string): (r: Option<int>)
    ensures AllSpace(s) ==> r == None
  {
    StripEmptyIffAllSpace(s);
    IntLiteral(Strip(s))
  }

  /** `int(s) if s else 587`, with 587 again when `int` refuses `s`. */
  function SmtpPort(s: string): (port: int)
    ensures s == "" ==> port == 587
    ensures PyInt(s).Some? ==> port == PyInt(s).value
    ensures PyInt(s).None? ==> port == 587
  {
    if s == "" then 587
    else match PyInt(s)
      case Some(n) => n
      case None => 587
  }

  /** The decimal digits of `n`, the way `str(n)` writes them. */
  function DecimalText(n: nat): (s: string)
    ensures |s| > 0
    ensures forall k :: 0 <= k < |s| ==> IsDigit(s[k])
  {
    var last := ['0' + (n % 10) as char];
    if n < 10 then last else DecimalText(n / 10) + last
  }

  lemma {:induction false} DecimalTextValue(n: nat)
    ensures DigitsValue(DecimalText(n)) == n
  {
    var s := DecimalText(n);
    assert s[..|s| - 1] == if n < 10 then [] else DecimalText(n / 10);
    if n >= 10 {
      DecimalTextValue(n / 10);
    }
  }

  lemma DecimalTextIsDigitGroups(n: nat)
    ensures DigitGroups(DecimalText(n))
  {
    var s := DecimalText(n);
    assert IsDigit(s[0]) && IsDigit(s[|s| - 1]);
  }

  /** `int()` reads a signed decimal text back as its number. */
  lemma SignedTextValue(sign: string, n: nat)
    requires sign in {"", "+", "-"}
    ensures IntLiteral(sign + DecimalText(n)) == Some(if sign == "-" then -(n as int) else n)
  {
    var d := DecimalText(n);
    DecimalTextValue(n);
    DecimalTextIsDigitGroups(n);
    if sign == "" {
      assert sign + d == d;
      assert !(d[0] == '+' || d[0] == '-');
    } else {
      assert (sign + d)[1..] == d;
    }
  }

  /** Whitespace around the text does not change what `int()` reads. */
  lemma PaddingIgnored(pre: string, body: string, post: string)
    requires AllSpace(pre) && AllSpace(post)
    requires |body| > 0 && !IsSpace(body[0]) && !IsSpace(body[|body| - 1])
    ensures PyInt(pre + body + post) == IntLiteral(body)
  {
    StripPadded(pre, body, post);
  }

  /** A number written in decimal, with an optional sign and surrounding
      whitespace, is the port `int()` reads back. */
  lemma PortTextRoundTrip(pre: string, sign: string, n: nat, post: string)
    requires AllSpace(pre) && AllSpace(post)
    requires sign in {"", "+", "-"}
    ensures SmtpPort(pre + (sign + DecimalText(n)) + post) == if sign == "-" then -(n as int) else n
  {
    var body := sign + DecimalText(n);
    assert !IsSpace(body[0]) && !IsSpace(body[|body| - 1]);
    PaddingIgnored(pre, body, post);
    SignedTextValue(sign, n);
  }

  /** `SMTP_PORT` unset reads as "587". */
  lemma DefaultPortText()
    ensures SmtpPort("587") == 587
  {
    assert DecimalText(587) == "587";
    PortTextRoundTrip("", "", 587, "");
    assert "" + ("" + "587") + "" == "587";
  }

  /** A letter anywhere in the text makes `int()` refuse it: the port
      falls back to 587. */
  lemma LetterPortFallsBack(s: string, k: int)
    requires 0 <= k < |s| && 'a' <= s[k] <= 'z'
    ensures SmtpPort(s) == 587
  {
    var i, j := StripStart(s), StripEnd(s);
    StripStartSpec(s);
    StripEndSpec(s);
    assert !IsSpace(s[k]);
    assert i <= k < j;
    var t := Strip(s);
    assert t == s[i..j] && t[k - i] == s[k];
    assert !DigitGroups(t);
    if t[0] == '+' || t[0] == '-' {
      assert t[1..][k - i - 1] == s[k];
      assert !DigitGroups(t[1..]);
    }
  }

  // ---------------------------------------------------------------------
  // The HTML body
  // ---------------------------------------------------------------------

  /** The screener categories in the order their sections appear, each with
      its section title. */
  const Categories: seq<(string, string)> := [
    ("most_actives", "🔥 가장 거래량이 많은 종목"),
    ("day_gainers", "📈 당일 상승 종목"),
    ("day_losers", "📉 당일 하락 종목")
  ]

  /** The selectors the page's style sheet styles; their rules are not
      reproduced. */
  const StyleSheet := "body .container .header .date .section .stock-info .ticker .price .positive .negative .footer .no-data"

  /** The page up to the date line, stamped with the time of the call. */
  function Head(now: int): Doc {
    [Lit(PageTop), Clock(now, true), Lit("</p></div>")]
  }

  const PageTop := "<html><head><meta charset=\"utf-8\"><style>" + StyleSheet + "</style></head><body>"
    + "<div class=\"container\"><div class=\"header\"><h1>📈 당신이 잠든 사이</h1>"
    + "<p class=\"date\">일일 주식 브리핑 - "

  const Footer: Doc := [Lit(FooterMarkup)]

  const FooterMarkup := "<div class=\"footer\">"
    + "<p>This email was automatically generated by While You Were Sleeping Stock Briefing Service</p>"
    + "<p>© 2025 Stock Daily Briefing. All rights reserved.</p></div></div></body></html>"

  /** The markup before the change percent: its class and its sign. */
  const Rising := "<strong class=\"positive\">+"
  const Falling := "<strong class=\"negative\">"

  // The markup around a section's fields.
  const SectionTop := "<div class=\"section\"><h2>"
  const NoDataLead := "</h2><p class=\"no-data\">데이터를 조회할 수 없습니다: "
  const StockInfoTop := "</h2><div class=\"stock-info\"><div class=\"ticker\">"
  const PriceLead := "</div><div class=\"price\">현재가: <strong>$"
  const ChangeLead := "</strong></div><div class=\"price\">변동률: "
  const VolumeLead := "%</strong></div><div class=\"price\">거래량: "

  /** The section of a category whose briefing reports an error. */
  function NoData(title: string, error: Value): Doc {
    [Lit(SectionTop + title + NoDataLead),
     Show(error),
     Lit("</p></div>")]
  }

  /** The section of a category with a top stock. */
  function StockBlock(title: string, ticker: Value, name: Value, price: real, change: real, volume: real): (d: Doc)
    ensures |d| == 12
    ensures d[7] == Lit(Rising) <==> change >= 0.0
    ensures d[7] == Lit(Falling) <==> change < 0.0
  {
    [Lit(SectionTop + title + StockInfoTop),
     Show(ticker), Lit(" - "), Show(name),
     Lit(PriceLead), Number(TwoDecimals, price),
     Lit(ChangeLead),
     Lit(if change >= 0.0 then Rising else Falling), Number(TwoDecimals, change),
     Lit(VolumeLead), Number(Grouped, volume),
     Lit("</div></div></div>")]
  }

  /** `{}`, what a missing category reads as. */
  const NoBriefing := Dict(map[])

  /** The top stock of a briefing without an error. */
  function TopStock(e: map<string, Value>): Value {
    Get(e, "top_stock", NoBriefing)
  }

  /** The top stock fields the section formats as numbers hold numbers
      (their defaults are 0). */
  predicate StockRenders(top: Value) {
    && top.Dict?
    && Get(top.entries, "price", Num(0.0)).Num?
    && Get(top.entries, "change_percent", Num(0.0)).Num?
    && Get(top.entries, "volume", Num(0.0)).Num?
  }

  /** When a briefing renders without raising. */
  predicate Renders(briefing: Value) {
    briefing.Dict? && ("error" in briefing.entries || StockRenders(TopStock(briefing.entries)))
  }

  /** The section of a briefing without an error: the top stock with its
      defaults ('Unknown' name, 0 for the numbers). A top stock that is not a
      dict has no `.get`; comparing the change with 0 or formatting the price
      or the volume raises on a non-number, in that order. */
  function StockSection(title: string, ticker: Value, top: Value): (r: Result<Doc>)
    ensures r.Ok? <==> StockRenders(top)
    ensures r.Ok? ==>
              var t := top.entries;
              r.value == StockBlock(title, ticker, Get(t, "name", Str("Unknown")), Get(t, "price", Num(0.0)).x,
                                    Get(t, "change_percent", Num(0.0)).x, Get(t, "volume", Num(0.0)).x)
  {
    if !top.Dict? then Raise(Exc(AttributeError, ProviderText(NoGetMethod)))
    else
      var t := top.entries;
      var price, change, volume := Get(t, "price", Num(0.0)), Get(t, "change_percent", Num(0.0)),
                                   Get(t, "volume", Num(0.0));
      if !change.Num? then Raise(Compare(change, 0.0, true).exc)
      else if !price.Num? then Raise(FormatNum(price, TwoDecimals).exc)
      else if !volume.Num? then Raise(FormatNum(volume, Grouped).exc)
      else Ok(StockBlock(title, ticker, Get(t, "name", Str("Unknown")), price.x, change.x, volume.x))
  }

  /** One pass of the loop over the categories: the no-data paragraph for a
      briefing with an "error" key, otherwise the top stock under a 'N/A'
      default ticker. A briefing that is not a dict has no `.get` (or, for
      `None` and numbers, no `in`). */
  function Section(title: string, briefing: Value): (r: Result<Doc>)
    ensures r.Ok? <==> Renders(briefing)
    ensures briefing.Dict? && "error" in briefing.entries ==>
              r == Ok(NoData(title, briefing.entries["error"]))
    ensures briefing.Dict? && "error" !in briefing.entries ==>
              r == StockSection(title, Get(briefing.entries, "ticker", Str("N/A")), TopStock(briefing.entries))
  {
    if !briefing.Dict? then
      if briefing.Null? || briefing.Num? then
        Raise(Exc(TypeError, ProviderText(NotIterable)))
      else Raise(Exc(AttributeError, ProviderText(NoGetMethod)))
    else
      var e := briefing.entries;
      if "error" in e then Ok(NoData(title, Get(e, "error", Str("Unknown error"))))
      else StockSection(title, Get(e, "ticker", Str("N/A")), TopStock(e))
  }

  /** The sections of the three categories, a missing one read as `{}`. */
  function CategorySections(briefings: map<string, Value>): (r: seq<Result<Doc>>)
    ensures |r| == 3
    ensures forall k :: 0 <= k < 3 ==> r[k] == Section(Categories[k].1, Get(briefings, Categories[k].0, NoBriefing))
  {
    Map(CategorySection(briefings), Categories)
  }

  /** The section of category `c`, whose briefing is looked up in
      `briefings`. */
  function CategorySection(briefings: map<string, Value>): ((string, string)) -> Result<Doc> {
    (c: (string, string)) => Section(c.1, Get(briefings, c.0, NoBriefing))
  }

  /** `_create_html_content` as a value: head, three sections and footer, or
      the first exception a section raises. */
  function HtmlContentOf(briefings: map<string, Value>, now: int): Result<Doc> {
    Then(Ok(Head(now)), Then(Join(CategorySections(briefings)), Ok(Footer)))
  }

  /** The body renders exactly when none of the three categories holds a
      malformed briefing. */
  lemma RendersExactly(briefings: map<string, Value>, now: int)
    ensures HtmlContentOf(briefings, now).Ok? <==>
              forall k :: 0 <= k < 3 ==> Renders(Get(briefings, Categories[k].0, NoBriefing))
  {
    var s := CategorySections(briefings);
    JoinThreeOk(s);
  }

  /** The three sections come in the fixed order, between the head and the
      footer. */
  lemma SectionsInOrder(briefings: map<string, Value>, now: int)
    requires HtmlContentOf(briefings, now).Ok?
    ensures var s := CategorySections(briefings);
      HtmlContentOf(briefings, now).value == Head(now) + s[0].value + s[1].value + s[2].value + Footer
  {
    var s := CategorySections(briefings);
    JoinThree(s);
    RegroupMiddle(Head(now), s[0].value, s[1].value, s[2].value, Footer);
  }

  /** The body always ends with the footer. */
  lemma FooterLast(briefings: map<string, Value>, now: int)
    requires HtmlContentOf(briefings, now).Ok?
    ensures var h := HtmlContentOf(briefings, now).value;
      |h| > |Footer| && h[|h| - |Footer|..] == Footer
  {
    SectionsInOrder(briefings, now);
  }

  /** Keys other than the three categories are never read. */
  lemma OtherKeysIgnored(briefings: map<string, Value>, key: string, v: Value, now: int)
    requires forall k :: 0 <= k < 3 ==> key != Categories[k].0
    ensures HtmlContentOf(briefings[key := v], now) == HtmlContentOf(briefings, now)
  {
    var f, g := CategorySection(briefings[key := v]), CategorySection(briefings);
    forall k | 0 <= k < 3
      ensures f(Categories[k]) == g(Categories[k])
    {
      assert Get(briefings[key := v], Categories[k].0, NoBriefing) == Get(briefings, Categories[k].0, NoBriefing);
    }
    MapAgree(f, g, Categories);
  }

  /** A category missing from the briefings shows the defaults: ticker
      'N/A', name 'Unknown', price, change and volume 0, and a change of 0
      counts as rising. */
  lemma MissingCategoryShowsDefaults(briefings: map<string, Value>, k: int)
    requires 0 <= k < 3 && Categories[k].0 !in briefings
    ensures var d := StockBlock(Categories[k].1, Str("N/A"), Str("Unknown"), 0.0, 0.0, 0.0);
      && CategorySections(briefings)[k] == Ok(d)
      && d[7] == Lit(Rising)
  {
  }

  /** An "error" key decides the section whatever else the briefing holds. */
  lemma ErrorHidesStock(title: string, e: map<string, Value>, top: Value)
    requires "error" in e
    ensures Section(title, Dict(e["top_stock" := top])) == Ok(NoData(title, e["error"]))
  {
  }

  /** The body renders exactly when no category's briefing is malformed;
      a non-numeric change of a top stock is enough to make it raise. */
  lemma NonNumericChangeRaises(briefings: map<string, Value>, k: int, now: int)
    requires 0 <= k < 3 && Categories[k].0 in briefings
    requires var b := briefings[Categories[k].0];
      b.Dict? && "error" !in b.entries && TopStock(b.entries).Dict?
      && "change_percent" in TopStock(b.entries).entries
      && !TopStock(b.entries).entries["change_percent"].Num?
    ensures HtmlContentOf(briefings, now).Raise?
  {
  }

  // ---------------------------------------------------------------------
  // The service
  // ---------------------------------------------------------------------

  /** `os.getenv(key)`. */
  function Getenv(env: map<string, string>, key: string): (r: Option<string>)
    ensures key in env <==> r.Some?
    ensures key in env ==> r.value == env[key]
  {
    if key in env then Some(env[key]) else None
  }

  /** `os.getenv(key, default)`. */
  function GetenvOr(env: map<string, string>, key: string, default: string): (r: string)
    ensures key in env ==> r == env[key]
    ensures key !in env ==> r == default
  {
    match Getenv(env, key)
    case Some(v) => v
    case None => default
  }

  /** Truthiness of an optional setting: set and not empty. */
  predicate Filled(setting: Option<string>) {
    setting.Some? && |setting.value| > 0
  }

  /** The port `__init__` settles on for an environment. */
  function PortOf(env: map<string, string>): (port: int)
    ensures "SMTP_PORT" !in env ==> port == 587
    ensures "SMTP_PORT" in env && env["SMTP_PORT"] == "" ==> port == 587
    ensures "SMTP_PORT" in env && PyInt(env["SMTP_PORT"]).Some? ==> port == PyInt(env["SMTP_PORT"]).value
  {
    DefaultPortText();
    SmtpPort(GetenvOr(env, "SMTP_PORT", "587"))
  }

  class EmailService {
    const smtpServer: string
    const smtpPort: int
    const senderEmail: Option<string>
    const senderPassword: Option<string>
    const recipientEmail: Option<string>

    /** `EmailService()`, reading its settings from the environment `env`. */
    constructor (env: map<string, string>)
      ensures smtpServer == GetenvOr(env, "SMTP_SERVER", "smtp.gmail.com")
      ensures smtpPort == PortOf(env)
      ensures senderEmail == Getenv(env, "SENDER_EMAIL")
      ensures senderPassword == Getenv(env, "SENDER_PASSWORD")
      ensures recipientEmail == Getenv(env, "RECIPIENT_EMAIL")
    {
      smtpServer := GetenvOr(env, "SMTP_SERVER", "smtp.gmail.com");
      var portText := GetenvOr(env, "SMTP_PORT", "587");
      smtpPort := SmtpPort(portText);
      senderEmail := Getenv(env, "SENDER_EMAIL");
      senderPassword := Getenv(env, "SENDER_PASSWORD");
      recipientEmail := Getenv(env, "RECIPIENT_EMAIL");
    }

    /** `all([sender_email, sender_password, recipient_email])`. */
    predicate Configured() {
      Filled(senderEmail) && Filled(senderPassword) && Filled(recipientEmail)
    }

    /** `_create_html_content`: `html` starts with the head, grows by one
        section per category and ends with the footer; the first section
        that raises ends it. */
    method CreateHtmlContent(briefings: map<string, Value>, now: int) returns (html: Result<Doc>)
      ensures html == HtmlContentOf(briefings, now)
    {
      html := AppendMapped(Head(now), CategorySection(briefings), Categories);
      ThenTail(Head(now), CategorySections(briefings), html, Footer);
      if html.Ok? {
        html := Ok(html.value + Footer);
      }
    }

    /** `send_briefing_email`: `delivered` stands for the outcome of the
        SMTP exchange. Without all three credentials it refuses at once;
        a body that raises is a failure too. */
    method SendBriefingEmail(briefings: map<string, Value>, now: int, delivered: bool) returns (sent: bool)
      ensures !Configured() ==> !sent
      ensures sent <==> Configured() && HtmlContentOf(briefings, now).Ok? && delivered
    {
      if !Configured() {
        return false;
      }
      var html := CreateHtmlContent(briefings, now);
      if html.Raise? {
        return false;
      }
      sent := delivered;
    }
  }
}
