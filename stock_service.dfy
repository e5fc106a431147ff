/** The quote normaliser and the trending selector of the stock service:
    `StockService.get_stock_info` turns the provider's loosely shaped profile
    and summary payloads into a fixed-shape snapshot, and
    `StockService.get_trending_stocks` picks the first-ranked symbol of a
    screener and delegates to it. */
module StockService {
  import opened PyValues
  import opened Strings

  /** The three screener categories every entry point accepts. */
  const ScreenerTypes: set<string> := {"most_actives", "day_gainers", "day_losers"}

  /** What `Ticker(symbol)` exposes: reading `asset_profile` or
      `summary_detail` goes to the network and may raise. */
  datatype Quote = Quote(assetProfile: Result<Value>, summaryDetail: Result<Value>)

  /** `Ticker(symbol)`, which may itself raise. */
  type QuoteProvider = string -> Result<Quote>

  datatype CapUnit = Trillions | Billions | Millions

  /** `market_cap`: "N/A", or `"${scaled:.1f}<unit>"`. */
  datatype MarketCap = CapNA | Cap(scaled: real, unit: CapUnit)

  /** `pe_ratio`: "N/A", or `"{x:.2f}"`. */
  datatype PeRatio = PeNA | Pe(x: real)

  /** The ten keys of a successful `get_stock_info` record; `status` is
      "success". */
  datatype Snapshot = Snapshot(
    ticker: string, name: Value, price: real, changePercent: real, volume: Value,
    marketCap: MarketCap, sector: Value, industry: Value, peRatio: PeRatio)

  /** `{"ticker": …, "error": str(e), "status": "error"}` or a snapshot. */
  datatype StockInfo = InfoSuccess(snap: Snapshot) | InfoError(ticker: Value, error: Exc)

  const SnapshotKeys: set<string> :=
    {"ticker", "name", "price", "change_percent", "volume", "market_cap",
     "sector", "industry", "pe_ratio", "status"}
  const ErrorKeys: set<string> := {"ticker", "error", "status"}

  /** A value of the record `get_stock_info` returns. */
  datatype Field = FieldValue(v: Value) | FieldCap(cap: MarketCap) | FieldPe(pe: PeRatio)

  /** The success record as a dict: its ten keys, `status` "success", and
      every other key holding the snapshot field of the same name. */
  function SnapshotDict(snap: Snapshot): (d: map<string, Field>)
    ensures d.Keys == SnapshotKeys
    ensures d["status"] == FieldValue(Str("success"))
    ensures d["ticker"] == FieldValue(Str(snap.ticker)) && d["name"] == FieldValue(snap.name)
    ensures d["price"] == FieldValue(Num(snap.price))
    ensures d["change_percent"] == FieldValue(Num(snap.changePercent))
    ensures d["volume"] == FieldValue(snap.volume) && d["market_cap"] == FieldCap(snap.marketCap)
    ensures d["sector"] == FieldValue(snap.sector) && d["industry"] == FieldValue(snap.industry)
    ensures d["pe_ratio"] == FieldPe(snap.peRatio)
  {
    map["ticker" := FieldValue(Str(snap.ticker)), "name" := FieldValue(snap.name),
        "price" := FieldValue(Num(snap.price)), "change_percent" := FieldValue(Num(snap.changePercent)),
        "volume" := FieldValue(snap.volume), "market_cap" := FieldCap(snap.marketCap),
        "sector" := FieldValue(snap.sector), "industry" := FieldValue(snap.industry),
        "pe_ratio" := FieldPe(snap.peRatio), "status" := FieldValue(Str("success"))]
  }

  /** The keys of the dict `get_stock_info` returns. */
  function InfoKeys(info: StockInfo): set<string> {
    if info.InfoSuccess? then SnapshotKeys else ErrorKeys
  }

  function UnitFactor(u: CapUnit): (f: real)
    ensures f >= 1000000.0
  {
    match u
    case Trillions => 1000000000000.0
    case Billions => 1000000000.0
    case Millions => 1000000.0
  }

  // ---------------------------------------------------------------------
  // The summary fields, one decision at a time

  /** `k in s and s[k] and s[k] > 0`. */
  function PositiveAt(s: map<string, Value>, k: string): (r: Result<bool>)
    ensures r == Ok(true) <==> k in s && s[k].Num? && s[k].x > 0.0
    ensures r.Raise? <==> k in s && Truthy(s[k]) && !s[k].Num?
  {
    if k in s && Truthy(s[k]) then Compare(s[k], 0.0, false) else Ok(false)
  }

  /** `"bid" in s and "ask" in s and s.get("bid", 0) > 0 and s.get("ask", 0) > 0`. */
  function BothPositive(s: map<string, Value>): (r: Result<bool>)
    ensures r == Ok(true) <==> "bid" in s && "ask" in s && s["bid"].Num? && s["ask"].Num?
                                && s["bid"].x > 0.0 && s["ask"].x > 0.0
    ensures r.Raise? <==> "bid" in s && "ask" in s
                          && (!s["bid"].Num? || (s["bid"].x > 0.0 && !s["ask"].Num?))
  {
    if "bid" in s && "ask" in s then
      match Compare(s["bid"], 0.0, false)
      case Raise(e) => Raise(e)
      case Ok(bidPositive) => if bidPositive then Compare(s["ask"], 0.0, false) else Ok(false)
    else Ok(false)
  }

  /** The price fallback chain: a positive last price, else the mean of a
      positive bid and a positive ask, else a positive open, else 0. A
      condition that orders a non-number raises. */
  function ResolvePrice(s: map<string, Value>): (r: Result<real>)
    ensures r.Ok? ==> r.value >= 0.0
    ensures PositiveAt(s, "regularMarketPrice") == Ok(true)
            ==> r == Ok(s["regularMarketPrice"].x)
    ensures PositiveAt(s, "regularMarketPrice") == Ok(false) && BothPositive(s) == Ok(true)
            ==> r == Ok((s["bid"].x + s["ask"].x) / 2.0)
    ensures PositiveAt(s, "regularMarketPrice") == Ok(false) && BothPositive(s) == Ok(false)
            && PositiveAt(s, "regularMarketOpen") == Ok(true)
            ==> r == Ok(s["regularMarketOpen"].x)
    ensures PositiveAt(s, "regularMarketPrice") == Ok(false) && BothPositive(s) == Ok(false)
            && PositiveAt(s, "regularMarketOpen") == Ok(false)
            ==> r == Ok(0.0)
    ensures r.Raise? <==>
              (|| PositiveAt(s, "regularMarketPrice").Raise?
               || (PositiveAt(s, "regularMarketPrice") == Ok(false) && BothPositive(s).Raise?)
               || (PositiveAt(s, "regularMarketPrice") == Ok(false) && BothPositive(s) == Ok(false)
                   && PositiveAt(s, "regularMarketOpen").Raise?))
  {
    match PositiveAt(s, "regularMarketPrice")
    case Raise(e) => Raise(e)
    case Ok(last) =>
      if last then Ok(s["regularMarketPrice"].x)
      else match BothPositive(s)
        case Raise(e) => Raise(e)
        case Ok(quoted) =>
          if quoted then Ok((s["bid"].x + s["ask"].x) / 2.0)
          else match PositiveAt(s, "regularMarketOpen")
            case Raise(e) => Raise(e)
            case Ok(atOpen) => if atOpen then Ok(s["regularMarketOpen"].x) else Ok(0.0)
  }

  /** `market_cap`: a truthy positive number is scaled to trillions,
      billions or millions; the displayed figure times its unit is the raw
      value and lies in the unit's range. A truthy non-number raises. */
  function CapOf(v: Value): (r: Result<MarketCap>)
    ensures r.Raise? <==> Truthy(v) && !v.Num?
    ensures r == Ok(CapNA) <==> !Truthy(v) || (v.Num? && v.x <= 0.0)
    ensures r.Ok? && r.value.Cap? ==>
              v.Num? && r.value.scaled * UnitFactor(r.value.unit) == v.x
              && r.value.scaled > 0.0
              && (r.value.unit == Trillions <==> v.x >= 1000000000000.0)
              && (r.value.unit == Billions <==> 1000000000.0 <= v.x < 1000000000000.0)
              && (r.value.unit != Trillions ==> r.value.scaled < 1000.0)
              && (r.value.unit != Millions ==> r.value.scaled >= 1.0)
  {
    if !Truthy(v) then Ok(CapNA)
    else match Compare(v, 0.0, false)
      case Raise(e) => Raise(e)
      case Ok(positive) =>
        if !positive then Ok(CapNA)
        else if v.x >= 1000000000000.0 then Ok(Cap(v.x / 1000000000000.0, Trillions))
        else if v.x >= 1000000000.0 then Ok(Cap(v.x / 1000000000.0, Billions))
        else Ok(Cap(v.x / 1000000.0, Millions))
  }

  /** `pe_ratio`: a truthy number is shown to two decimals, a falsy value
      leaves "N/A", and formatting a truthy non-number raises. */
  function PeOf(v: Value): (r: Result<PeRatio>)
    ensures r.Raise? <==> Truthy(v) && !v.Num?
    ensures r == Ok(PeNA) <==> !Truthy(v)
    ensures r.Ok? && r.value.Pe? ==> v == Num(r.value.x) && r.value.x != 0.0
  {
    if !Truthy(v) then Ok(PeNA)
    else if v.Num? then Ok(Pe(v.x))
    else Raise(Exc(if v.Str? then ValueError else TypeError,
                   ProviderText("Unknown format code 'f'")))
  }

  /** `change_percent`, guarded against a zero previous close; ordering a
      truthy non-number previous close raises. */
  function ChangePercent(price: real, previousClose: Value): (r: Result<real>)
    ensures r.Raise? <==> Truthy(previousClose) && !previousClose.Num?
    ensures r.Ok? && previousClose.Num? && previousClose.x > 0.0 && price != 0.0
            ==> r.value == (price - previousClose.x) / previousClose.x * 100.0
    ensures r.Ok? && !(previousClose.Num? && previousClose.x > 0.0 && price != 0.0)
            ==> r.value == 0.0
  {
    if !Truthy(previousClose) then Ok(0.0)
    else match Compare(previousClose, 0.0, false)
      case Raise(e) => Raise(e)
      case Ok(positive) =>
        if positive && price != 0.0 then
          Ok((price - previousClose.x) / previousClose.x * 100.0)
        else Ok(0.0)
  }

  /** The change percent is the relative move: applied to the previous close
      it gives back the price, and it is non-negative exactly when the price
      did not fall. */
  lemma ChangePercentInverse(price: real, prev: real)
    requires prev > 0.0 && price != 0.0
    ensures ChangePercent(price, Num(prev)).Ok?
    ensures prev * (1.0 + ChangePercent(price, Num(prev)).value / 100.0) == price
    ensures ChangePercent(price, Num(prev)).value >= 0.0 <==> price >= prev
  {
    var cp := ChangePercent(price, Num(prev)).value;
    var q := (price - prev) / prev;
    assert cp == q * 100.0;
    assert cp / 100.0 == q;
    assert prev * q == price - prev;
    assert q >= 0.0 <==> price - prev >= 0.0 by {
      if price - prev >= 0.0 {
        assert q >= 0.0;
      } else {
        assert q < 0.0;
      }
    }
  }

  // ---------------------------------------------------------------------
  // The two payloads

  /** The payload is a dict holding a dict for ticker `t`. */
  predicate HasEntry(t: string, data: Result<Value>) {
    data.Ok? && data.value.Dict? && t in data.value.entries && data.value.entries[t].Dict?
  }

  datatype Profile = Profile(name: Value, sector: Value, industry: Value)

  const DefaultProfile := Profile(Str("N/A"), Str("N/A"), Str("N/A"))

  /** name, sector and industry from `asset_profile`: the entry for the
      ticker, with "N/A" defaults and `website` standing in for a missing
      `longName`; a failed read or a non-dict payload leaves all three
      "N/A". */
  function ProfileOf(t: string, data: Result<Value>): (p: Profile)
    ensures !HasEntry(t, data) ==> p == DefaultProfile
    ensures HasEntry(t, data) ==>
              var e := data.value.entries[t].entries;
              && p.name == (if "longName" in e then e["longName"]
                            else if "website" in e then e["website"] else Str("N/A"))
              && p.sector == Get(e, "sector", Str("N/A"))
              && p.industry == Get(e, "industry", Str("N/A"))
  {
    if data.Ok? && data.value.Dict? then
      var profile := Get(data.value.entries, t, Dict(map[]));
      if profile.Dict? then
        var e := profile.entries;
        Profile(Get(e, "longName", Get(e, "website", Str("N/A"))),
                Get(e, "sector", Str("N/A")), Get(e, "industry", Str("N/A")))
      else DefaultProfile
    else DefaultProfile
  }

  /** What the `summary_detail` block leaves in the locals it assigns. */
  datatype SummaryFields = SummaryFields(
    price: real, previousClose: Value, volume: Value, marketCap: MarketCap, peRatio: PeRatio)

  const DefaultSummary := SummaryFields(0.0, Num(0.0), Num(0.0), CapNA, PeNA)

  /** The `summary_detail` block: the fields are assigned in order, and an
      exception part-way leaves every later field at its default. */
  function ReadSummary(t: string, data: Result<Value>): (f: SummaryFields)
    ensures f.price >= 0.0
    ensures f.previousClose == Num(0.0) || Truthy(f.previousClose)
    ensures !HasEntry(t, data) ==> f == DefaultSummary
    ensures HasEntry(t, data) ==>
              var s := data.value.entries[t].entries;
              && (ResolvePrice(s).Raise? ==> f == DefaultSummary)
              && (ResolvePrice(s).Ok? ==>
                    && f.price == ResolvePrice(s).value
                    && f.previousClose
                       == (if "regularMarketPreviousClose" in s && Truthy(s["regularMarketPreviousClose"])
                           then s["regularMarketPreviousClose"] else Num(0.0))
                    && f.volume
                       == (if "regularMarketVolume" in s && Truthy(s["regularMarketVolume"])
                           then s["regularMarketVolume"] else Num(0.0))
                    && (CapOf(Get(s, "marketCap", Num(0.0))).Ok? ==>
                          f.marketCap == CapOf(Get(s, "marketCap", Num(0.0))).value)
                    && (CapOf(Get(s, "marketCap", Num(0.0))).Raise? ==>
                          f.marketCap == CapNA && f.peRatio == PeNA)
                    && (CapOf(Get(s, "marketCap", Num(0.0))).Ok? && PeOf(Get(s, "trailingPE", Null)).Ok? ==>
                          f.peRatio == PeOf(Get(s, "trailingPE", Null)).value)
                    && (PeOf(Get(s, "trailingPE", Null)).Raise? ==> f.peRatio == PeNA))
  {
    if !(data.Ok? && data.value.Dict? && t in data.value.entries) then DefaultSummary
    else
      var entry := data.value.entries[t];
      if !entry.Dict? then DefaultSummary
      else
        var s := entry.entries;
        match ResolvePrice(s)
        case Raise(_) => DefaultSummary
        case Ok(price) =>
          var prev := OrZero(Get(s, "regularMarketPreviousClose", Num(0.0)));
          var volume := OrZero(Get(s, "regularMarketVolume", Num(0.0)));
          match CapOf(Get(s, "marketCap", Num(0.0)))
          case Raise(_) => SummaryFields(price, prev, volume, CapNA, PeNA)
          case Ok(cap) =>
            match PeOf(Get(s, "trailingPE", Null))
            case Raise(_) => SummaryFields(price, prev, volume, cap, PeNA)
            case Ok(pe) => SummaryFields(price, prev, volume, cap, pe)
  }

  /** `get_stock_info` as a value: validation, normalisation, the two
      independently failing payload reads and the guarded change percent. */
  function StockInfoOf(ticker: Value, provider: QuoteProvider): StockInfo {
    if !IsNonEmptyStr(ticker) then InfoError(ticker, Exc(ValueError, InvalidTicker(ticker)))
    else
      var t := Normalize(ticker.s);
      match provider(t)
      case Raise(e) => InfoError(Str(t), e)
      case Ok(q) =>
        var p := ProfileOf(t, q.assetProfile);
        var f := ReadSummary(t, q.summaryDetail);
        match ChangePercent(f.price, f.previousClose)
        case Raise(e) => InfoError(Str(t), e)
        case Ok(cp) =>
          InfoSuccess(Snapshot(t, p.name, f.price, cp, f.volume, f.marketCap,
                               p.sector, p.industry, f.peRatio))
  }

  /** The `asset_profile` block of `get_stock_info`: name, sector and
      industry start at "N/A" and are overwritten from the ticker's entry. */
  method ReadProfileBlock(t: string, profileData: Result<Value>) returns (p: Profile)
    ensures p == ProfileOf(t, profileData)
  {
    var name, sector, industry := Str("N/A"), Str("N/A"), Str("N/A");
    if profileData.Ok? && profileData.value.Dict? {
      var profile := Get(profileData.value.entries, t, Dict(map[]));
      if profile.Dict? {
        var e := profile.entries;
        name := Get(e, "longName", Get(e, "website", Str("N/A")));
        sector := Get(e, "sector", Str("N/A"));
        industry := Get(e, "industry", Str("N/A"));
      }
    }
    p := Profile(name, sector, industry);
  }

  /** The `summary_detail` block of `get_stock_info`: the price, previous
      close, volume, market cap and P/E start at their defaults and are
      overwritten in order; the first exception leaves the block, as its
      `try` does. */
  method ReadSummaryBlock(t: string, summaryData: Result<Value>) returns (f: SummaryFields)
    ensures f == ReadSummary(t, summaryData)
  {
    var price: real := 0.0;
    var previousClose, volume := Num(0.0), Num(0.0);
    var marketCap, peRatio := CapNA, PeNA;
    label summary: {
      if !(summaryData.Ok? && summaryData.value.Dict? && t in summaryData.value.entries) {
        break summary;
      }
      var entry := summaryData.value.entries[t];
      if !entry.Dict? {
        break summary;
      }
      var s := entry.entries;
      var last := PositiveAt(s, "regularMarketPrice");
      if last.Raise? {
        break summary;
      }
      if last.value {
        price := s["regularMarketPrice"].x;
      } else {
        var quoted := BothPositive(s);
        if quoted.Raise? {
          break summary;
        }
        if quoted.value {
          price := (s["bid"].x + s["ask"].x) / 2.0;
        } else {
          var atOpen := PositiveAt(s, "regularMarketOpen");
          if atOpen.Raise? {
            break summary;
          }
          if atOpen.value {
            price := s["regularMarketOpen"].x;
          }
        }
      }
      previousClose := OrZero(Get(s, "regularMarketPreviousClose", Num(0.0)));
      volume := OrZero(Get(s, "regularMarketVolume", Num(0.0)));
      var cap := CapOf(Get(s, "marketCap", Num(0.0)));
      if cap.Raise? {
        break summary;
      }
      marketCap := cap.value;
      var pe := PeOf(Get(s, "trailingPE", Null));
      if pe.Raise? {
        break summary;
      }
      peRatio := pe.value;
    }
    f := SummaryFields(price, previousClose, volume, marketCap, peRatio);
  }

  /** `StockService.get_stock_info`: validation, one `Ticker(...)` call, the
      two payload blocks, each left at its first exception, and the guarded
      change percent. */
  method GetStockInfo(ticker: Value, provider: QuoteProvider) returns (r: StockInfo)
    ensures r == StockInfoOf(ticker, provider)
  {
    if !IsNonEmptyStr(ticker) {
      return InfoError(ticker, Exc(ValueError, InvalidTicker(ticker)));
    }
    var t := Normalize(ticker.s);
    var stock := provider(t);
    if stock.Raise? {
      return InfoError(Str(t), stock.exc);
    }
    var p := ReadProfileBlock(t, stock.value.assetProfile);
    var f := ReadSummaryBlock(t, stock.value.summaryDetail);
    var change := ChangePercent(f.price, f.previousClose);
    if change.Raise? {
      return InfoError(Str(t), change.exc);
    }
    r := InfoSuccess(Snapshot(t, p.name, f.price, change.value, f.volume, f.marketCap,
                              p.sector, p.industry, f.peRatio));
  }

  // ---------------------------------------------------------------------
  // What get_stock_info promises

  /** The status is "error" exactly when the ticker is not a non-empty
      string, `Ticker(...)` raises, or the previous close read from the
      summary is a truthy non-number; a failed profile or summary read on its
      own never turns the record into an error. The error record carries the
      raw argument when validation fails and the normalised ticker after. */
  lemma StockInfoErrorCases(ticker: Value, provider: QuoteProvider)
    ensures var r := StockInfoOf(ticker, provider);
      && (!IsNonEmptyStr(ticker) ==> r == InfoError(ticker, Exc(ValueError, InvalidTicker(ticker))))
      && (IsNonEmptyStr(ticker) ==>
            var t := Normalize(ticker.s);
            && (r.InfoError? <==>
                  (|| provider(t).Raise?
                   || (var f := ReadSummary(t, provider(t).value.summaryDetail);
                       Truthy(f.previousClose) && !f.previousClose.Num?)))
            && (provider(t).Raise? ==> r == InfoError(Str(t), provider(t).exc))
            && (r.InfoError? ==> r.ticker == Str(t)))
  {
  }

  /** The fields of the record, read from the ticker's `summary_detail`
      entry `s`: with a price from the fallback chain, the record carries
      that price, the volume or 0 when it is missing or falsy, and the change
      against the previous close when that is positive; a price guard that
      raises leaves every summary field at its default and still succeeds;
      a truthy non-number previous close turns the record into an error. */
  lemma SuccessSnapshotFields(
    ticker: string, provider: QuoteProvider, profile: Result<Value>,
    summary: map<string, Value>, s: map<string, Value>)
    requires |ticker| > 0
    requires Normalize(ticker) in summary && summary[Normalize(ticker)] == Dict(s)
    requires provider(Normalize(ticker)) == Ok(Quote(profile, Ok(Dict(summary))))
    ensures var r := StockInfoOf(Str(ticker), provider);
            var prev := Get(s, "regularMarketPreviousClose", Num(0.0));
            var vol := Get(s, "regularMarketVolume", Num(0.0));
            var p := ProfileOf(Normalize(ticker), profile);
      && (ResolvePrice(s).Ok? && !(Truthy(prev) && !prev.Num?) ==>
            && r.InfoSuccess?
            && r.snap.ticker == Normalize(ticker)
            && r.snap.price == ResolvePrice(s).value
            && r.snap.volume == (if Truthy(vol) then vol else Num(0.0))
            && (prev.Num? && prev.x > 0.0 && r.snap.price != 0.0 ==>
                  r.snap.changePercent == (r.snap.price - prev.x) / prev.x * 100.0)
            && (!(prev.Num? && prev.x > 0.0) || r.snap.price == 0.0 ==> r.snap.changePercent == 0.0)
            && (CapOf(Get(s, "marketCap", Num(0.0))).Ok? ==>
                  r.snap.marketCap == CapOf(Get(s, "marketCap", Num(0.0))).value)
            && r.snap.name == p.name && r.snap.sector == p.sector && r.snap.industry == p.industry)
      && (ResolvePrice(s).Ok? && Truthy(prev) && !prev.Num? ==> r.InfoError? && r.ticker == Str(Normalize(ticker)))
      && (ResolvePrice(s).Raise? ==>
            && r.InfoSuccess?
            && r.snap.price == 0.0 && r.snap.changePercent == 0.0 && r.snap.volume == Num(0.0)
            && r.snap.marketCap == CapNA && r.snap.peRatio == PeNA)
  {
    var t := Normalize(ticker);
    assert HasEntry(t, Ok(Dict(summary)));
  }

  /** A success record's ticker is the argument upper-cased then stripped: a
      normal form with no lower-case letter, which normalising again keeps. */
  lemma SuccessTickerIsNormalized(ticker: Value, provider: QuoteProvider)
    requires StockInfoOf(ticker, provider).InfoSuccess?
    ensures ticker.Str? && |ticker.s| > 0
    ensures var t := StockInfoOf(ticker, provider).snap.ticker;
      && t == Normalize(ticker.s)
      && Normalize(t) == t
      && forall k :: 0 <= k < |t| ==> !('a' <= t[k] <= 'z')
  {
    NormalizeIdempotent(ticker.s);
    NormalizedIsUpper(ticker.s);
  }

  /** A ticker that neither starts nor ends with whitespace, "tsla" say,
      comes back upper-cased and otherwise as it was sent. */
  lemma UnpaddedTickerIsUpperCased(s: string, provider: QuoteProvider)
    requires |s| > 0 && !IsSpace(s[0]) && !IsSpace(s[|s| - 1])
    requires StockInfoOf(Str(s), provider).InfoSuccess?
    ensures StockInfoOf(Str(s), provider).snap.ticker == Upper(s)
  {
    UnpaddedNormalizes(s);
  }

  /** Normalising a ticker without surrounding whitespace only upper-cases it. */
  lemma UnpaddedNormalizes(s: string)
    requires |s| > 0 && !IsSpace(s[0]) && !IsSpace(s[|s| - 1])
    ensures Normalize(s) == Upper(s)
  {
    var u := Upper(s);
    UpperCharSpace(s[0]);
    UpperCharSpace(s[|s| - 1]);
    StripPadded("", u, "");
    assert "" + u + "" == u;
  }

  /** A whitespace-only ticker passes the truthiness check, is normalised to
      "", and the provider is asked about "". */
  lemma BlankTickerBecomesEmpty(blank: string, provider: QuoteProvider)
    requires |blank| > 0 && AllSpace(blank)
    ensures var r := StockInfoOf(Str(blank), provider);
      && r != InfoError(Str(blank), Exc(ValueError, InvalidTicker(Str(blank))))
      && (r.InfoSuccess? ==> r.snap.ticker == "")
      && (provider("").Raise? ==> r == InfoError(Str(""), provider("").exc))
  {
    BlankNormalizesToEmpty(blank);
  }

  /** The profile read is independent of everything else: whatever
      `asset_profile` does, the status and every summary-derived field stay
      the same, and a failed read leaves name, sector and industry "N/A". */
  lemma ProfileFailureIsHarmless(t: string, summary: Result<Value>, profile: Result<Value>, e: Exc)
    requires |t| > 0 && Normalize(t) == t
    ensures var good := StockInfoOf(Str(t), _ => Ok(Quote(profile, summary)));
            var bad := StockInfoOf(Str(t), _ => Ok(Quote(Raise(e), summary)));
      && good.InfoSuccess? == bad.InfoSuccess?
      && (bad.InfoSuccess? ==>
            && bad.snap.name == Str("N/A") && bad.snap.sector == Str("N/A")
            && bad.snap.industry == Str("N/A")
            && bad.snap.price == good.snap.price
            && bad.snap.changePercent == good.snap.changePercent
            && bad.snap.volume == good.snap.volume
            && bad.snap.marketCap == good.snap.marketCap
            && bad.snap.peRatio == good.snap.peRatio)
  {
  }

  /** A non-numeric bid, reached when there is no positive last price, makes
      the bid comparison raise: the summary block is abandoned before any
      assignment, so even a present previous close, volume or market cap is
      left at its default. */
  lemma NonNumericBidDiscardsSummary(t: string, s: map<string, Value>)
    requires "regularMarketPrice" !in s
    requires "bid" in s && "ask" in s && s["bid"].Str?
    ensures ReadSummary(t, Ok(Dict(map[t := Dict(s)]))) == DefaultSummary
  {
    assert BothPositive(s).Raise?;
  }

  /** The bid/ask mean wins over the open whenever both quotes are positive
      and there is no positive last price. */
  lemma BidAskBeatsOpen(s: map<string, Value>, bid: real, ask: real, open: real)
    requires bid > 0.0 && ask > 0.0
    requires "regularMarketPrice" !in s || s["regularMarketPrice"] == Num(0.0)
    requires "bid" in s && "ask" in s && s["bid"] == Num(bid) && s["ask"] == Num(ask)
    ensures ResolvePrice(s) == Ok((bid + ask) / 2.0)
    ensures ResolvePrice(s["regularMarketOpen" := Num(open)]) == Ok((bid + ask) / 2.0)
  {
    var s' := s["regularMarketOpen" := Num(open)];
    assert s'["bid"] == Num(bid) && s'["ask"] == Num(ask);
  }

  // ---------------------------------------------------------------------
  // get_trending_stocks

  datatype Trending =
    | TrendingSuccess(screenerType: string, topStock: StockInfo)
    | TrendingEmpty(screenerType: string)   // message "{type}에 대한 결과가 없습니다."
    | TrendingError(errorType: string, message: Msg)

  /** The two `except` clauses: a `ValueError` is a validation error, any
      other exception is reported under its class name. */
  function Caught(e: Exc): (r: Trending)
    ensures r.TrendingError? && r.message == e.msg
    ensures r.errorType == "validation_error" <==> e.kind == ValueError || e.kind == ProviderFailure("validation_error")
    ensures e.kind != ValueError ==> r.errorType == KindName(e.kind)
  {
    if e.kind == ValueError then TrendingError("validation_error", e.msg)
    else TrendingError(KindName(e.kind), e.msg)
  }

  /** `quotes[0].get('symbol')` for a truthy `quotes`, after `len(quotes)`. */
  function TopSymbol(quotes: Value): (r: Result<Value>)
    requires Truthy(quotes)
    ensures r.Ok? <==> quotes.List? && quotes.items[0].Dict?
    ensures r.Ok? ==> r.value == Get(quotes.items[0].entries, "symbol", Null)
  {
    match quotes
    case List(items) => GetOn(items[0], "symbol", Null)
    case Str(s) => GetOn(Str([s[0]]), "symbol", Null)
    case Dict(_) => Raise(Exc(KeyError, ProviderText("0")))
    case _ => Raise(Exc(TypeError, ProviderText("object has no len()")))
  }

  /** `StockService.get_trending_stocks`: validate the category, tell "no
      result" apart from failure, take the first-ranked symbol and delegate to
      `get_stock_info`, whose record is passed on as it is. */
  function TrendingOf(screenerType: string, screened: Result<Value>, provider: QuoteProvider): (r: Trending)
    ensures screenerType !in ScreenerTypes ==>
              r == TrendingError("validation_error", InvalidScreenerType(screenerType))
    ensures r.TrendingSuccess? ==>
              r.screenerType == screenerType && screenerType in ScreenerTypes
              && screened.Ok? && screened.value.Dict?
    ensures r.TrendingEmpty? ==> r.screenerType == screenerType && screenerType in ScreenerTypes
    ensures screenerType in ScreenerTypes && screened == Ok(Null) ==> r == TrendingEmpty(screenerType)
    ensures screenerType in ScreenerTypes && screened.Raise? ==> r == Caught(screened.exc)
  {
    if screenerType !in ScreenerTypes then
      TrendingError("validation_error", InvalidScreenerType(screenerType))
    else match screened
      case Raise(e) => Caught(e)
      case Ok(result) =>
        if result.Null? then TrendingEmpty(screenerType)
        else match GetOn(result, screenerType, Dict(map[]))
          case Raise(e) => Caught(e)
          case Ok(data) =>
            match GetOn(data, "quotes", List([]))
            case Raise(e) => Caught(e)
            case Ok(quotes) =>
              if !Truthy(quotes) then TrendingEmpty(screenerType)
              else match TopSymbol(quotes)
                case Raise(e) => Caught(e)
                case Ok(symbol) =>
                  if !Truthy(symbol) then TrendingError("validation_error", SymbolNotFound)
                  else TrendingSuccess(screenerType, StockInfoOf(symbol, provider))
  }

  /** The screener payload `{type: {"quotes": quotes}}`. */
  function Screened(screenerType: string, quotes: seq<Value>): Value {
    Dict(map[screenerType := Dict(map["quotes" := List(quotes)])])
  }

  /** An empty quote list, a missing `quotes` key and a missing category are
      all "empty", not "error". */
  lemma EmptyQuotesAreEmpty(screenerType: string, provider: QuoteProvider)
    requires screenerType in ScreenerTypes
    ensures TrendingOf(screenerType, Ok(Screened(screenerType, [])), provider) == TrendingEmpty(screenerType)
    ensures TrendingOf(screenerType, Ok(Dict(map[screenerType := Dict(map[])])), provider)
            == TrendingEmpty(screenerType)
    ensures TrendingOf(screenerType, Ok(Dict(map[])), provider) == TrendingEmpty(screenerType)
  {
  }

  /** Only the first-ranked quote is looked at: two rankings that agree on
      their first entry give the same answer, and a first entry with a
      truthy symbol is delegated to `get_stock_info` whatever that returns. */
  lemma OnlyFirstQuoteMatters(screenerType: string, q1: seq<Value>, q2: seq<Value>, provider: QuoteProvider)
    requires screenerType in ScreenerTypes
    requires |q1| > 0 && |q2| > 0 && q1[0] == q2[0]
    ensures TrendingOf(screenerType, Ok(Screened(screenerType, q1)), provider)
         == TrendingOf(screenerType, Ok(Screened(screenerType, q2)), provider)
    ensures q1[0].Dict? && "symbol" in q1[0].entries && Truthy(q1[0].entries["symbol"]) ==>
              TrendingOf(screenerType, Ok(Screened(screenerType, q1)), provider)
              == TrendingSuccess(screenerType, StockInfoOf(q1[0].entries["symbol"], provider))
    ensures q1[0].Dict? && "symbol" !in q1[0].entries ==>
              TrendingOf(screenerType, Ok(Screened(screenerType, q1)), provider)
              == TrendingError("validation_error", SymbolNotFound)
  {
  }
}
