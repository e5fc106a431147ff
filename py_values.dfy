/** Python's dynamically typed values as they reach the core: JSON-like payloads
    from the quote and news providers, Python truthiness, `dict.get` with a
    default, and the comparisons that raise `TypeError` on a non-number. */
module PyValues {

  datatype Option<+T> = None | Some(value: T)

  /** A Python value as the core sees it. `Dict` is a `dict` with string keys. */
  datatype Value =
    | Null
    | Num(x: real)
    | Str(s: string)
    | List(items: seq<Value>)
    | Dict(entries: map<string, Value>)

  /** The class of an exception, as `type(e).__name__` reports it. */
  datatype ExcKind =
    | ValueError
    | TypeError
    | AttributeError
    | KeyError
    | ProviderFailure(className: string)

  /** The message of an exception: the f-string templates the core raises, or
      the text of an exception raised by a provider. */
  datatype Msg =
    | InvalidTicker(ticker: Value)
    | InvalidScreenerType(screenerType: string)       // the stock service's template
    | InvalidBriefingType(screenerType: string)       // the briefing service's template
    | InvalidRequestType(param: string, value: string) // the briefing routes' template
    | SymbolNotFound
    | StockInfoUnavailable(symbol: string)
    | EmptyTickerCode
    | ProviderText(text: string)

  // The texts of the exceptions Python raises on the core's paths.
  const NoGetMethod := "object has no attribute 'get'"
  const StrNoGetMethod := "'str' object has no attribute 'get'"
  const NotSubscriptable := "object is not subscriptable"
  const NotIterable := "argument of type is not iterable"
  const NotComparable := "'>' not supported between instances"
  const StrFormatCode := "Unknown format code for object of type 'str'"
  const UnsupportedFormat := "unsupported format string passed to __format__"

  datatype Exc = Exc(kind: ExcKind, msg: Msg)

  /** The outcome of a Python expression that may raise. */
  datatype Result<+T> = Ok(value: T) | Raise(exc: Exc)

  function KindName(k: ExcKind): (name: string)
    ensures k.ProviderFailure? ==> name == k.className
  {
    match k
    case ValueError => "ValueError"
    case TypeError => "TypeError"
    case AttributeError => "AttributeError"
    case KeyError => "KeyError"
    case ProviderFailure(n) => n
  }

  /** Python truthiness: `None`, `0`, `""`, `[]` and `{}` are false. */
  predicate Truthy(v: Value) {
    match v
    case Null => false
    case Num(x) => x != 0.0
    case Str(s) => |s| > 0
    case List(items) => |items| > 0
    case Dict(entries) => |entries| > 0
  }

  /** `d.get(k, default)` on a dict. */
  function Get(d: map<string, Value>, k: string, default: Value): (r: Value)
    ensures k in d ==> r == d[k]
    ensures k !in d ==> r == default
  {
    if k in d then d[k] else default
  }

  /** `v.get(k, default)` on any value: only a dict has `.get`. */
  function GetOn(v: Value, k: string, default: Value): (r: Result<Value>)
    ensures r.Ok? <==> v.Dict?
    ensures v.Dict? ==> r.value == Get(v.entries, k, default)
  {
    if v.Dict? then Ok(Get(v.entries, k, default))
    else Raise(Exc(AttributeError, ProviderText(NoGetMethod)))
  }

  /** `v or 0`: a falsy value is replaced by the integer 0. */
  function OrZero(v: Value): (r: Value)
    ensures Truthy(v) ==> r == v
    ensures !Truthy(v) ==> r == Num(0.0)
  {
    if Truthy(v) then v else Num(0.0)
  }

  /** `v > bound` (or `v >= bound` when `orEqual`): ordering a non-number
      against a number raises `TypeError` in Python 3. */
  function Compare(v: Value, bound: real, orEqual: bool): (r: Result<bool>)
    ensures r.Ok? <==> v.Num?
    ensures v.Num? ==> r.value == if orEqual then v.x >= bound else v.x > bound
  {
    if v.Num? then Ok(if orEqual then v.x >= bound else v.x > bound)
    else Raise(Exc(TypeError, ProviderText(NotComparable)))
  }

  /** `not ticker or not isinstance(ticker, str)` fails exactly for these. */
  predicate IsNonEmptyStr(v: Value) {
    v.Str? && |v.s| > 0
  }
}
