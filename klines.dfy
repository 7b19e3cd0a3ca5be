/**
 * The pull half of the Binance client (binance.go): decoding of the venue's
 * number-or-string fields, the `GET /api/v3/klines` request, and the mapping
 * of raw rows to candlesticks.
 *
 * The HTTP client and the JSON decoder are not modelled: a request is handed
 * to a `Venue`, a function that answers it with decoded rows or an error.
 * `strconv.ParseFloat` and Go's float64-to-int64 conversion are not modelled
 * either: they are the two functions of a `Numerics` value.
 */
module Klines {
  import opened Wrappers
  import opened Model

  /** A value of Go's `any` as `encoding/json` produces it. */
  datatype Dynamic =
    | DFloat(f: Float64)   // a JSON number
    | DString(s: string)   // a JSON string
    | DOther               // a JSON boolean, null, array or object

  /**
   * The floating-point services the client relies on:
   * `parse` is `strconv.ParseFloat(s, 64)` (None when it reports an error),
   * `toInt64` is the conversion `int64(f)`.
   */
  datatype Numerics = Numerics(parse: string -> Option<Float64>, toInt64: Float64 -> int)

  /**
   * SafeParseFloat: a number passes through, a string is parsed, and a
   * string that does not parse or a value of any other kind becomes 0.
   */
  function SafeParseFloat(v: Dynamic, parse: string -> Option<Float64>): (f: Float64)
    ensures v.DFloat? ==> f == v.f
    ensures v.DString? && parse(v.s).Some? ==> f == parse(v.s).value
    ensures v.DString? && parse(v.s).None? ==> f == Zero
    ensures v.DOther? ==> f == Zero
    ensures f != Zero ==> (v.DFloat? && v.f == f) || (v.DString? && parse(v.s) == Some(f))
  {
    match v
    case DFloat(x) => x
    case DString(s) => if parse(s).Some? then parse(s).value else Zero
    case DOther => Zero
  }

  /** The two encodings of one number decode to the same value. */
  lemma NumberAndStringAgree(x: Float64, s: string, parse: string -> Option<Float64>)
    requires parse(s) == Some(x)
    ensures SafeParseFloat(DString(s), parse) == SafeParseFloat(DFloat(x), parse)
  {
  }

  // ---------------------------------------------------------------------
  // Rows of the klines response

  /** One kline as the venue sends it: `[openTime, open, high, low, close, volume, ...]`. */
  type Row = seq<Dynamic>

  /**
   * A row the mapping can read without panicking: at least six fields, the
   * first a JSON number (the code asserts `row[0].(float64)`).
   */
  predicate WellFormedRow(row: Row)
  {
    |row| >= 6 && row[0].DFloat?
  }

  predicate WellFormedRows(rows: seq<Row>)
  {
    forall i :: 0 <= i < |rows| ==> WellFormedRow(rows[i])
  }

  /** The candlestick one raw row stands for, stamped with the requested symbol. */
  function RowToCandlestick(symbol: string, row: Row, num: Numerics): Candlestick
    requires WellFormedRow(row)
  {
    Candlestick(
      num.toInt64(row[0].f),
      symbol,
      SafeParseFloat(row[1], num.parse),
      SafeParseFloat(row[2], num.parse),
      SafeParseFloat(row[3], num.parse),
      SafeParseFloat(row[4], num.parse),
      SafeParseFloat(row[5], num.parse))
  }

  /** The candlesticks FetchCandlestick1m makes of the raw rows: one per row, in row order, each stamped with `symbol`. */
  function Page(symbol: string, raw: seq<Row>, num: Numerics): (page: seq<Candlestick>)
    requires WellFormedRows(raw)
    ensures |page| == |raw|
    ensures forall i :: 0 <= i < |page| ==> page[i].symbol == symbol && page[i].time == num.toInt64(raw[i][0].f)
  {
    seq(|raw|, i requires 0 <= i < |raw| => RowToCandlestick(symbol, raw[i], num))
  }

  /**
   * The loop of FetchCandlestick1m that fills `candlesticks` by index:
   * one candlestick per row, in row order, each carrying `symbol`, the
   * row's open time and the decoded OHLCV fields.
   */
  method MapRows(symbol: string, raw: seq<Row>, num: Numerics) returns (sticks: seq<Candlestick>)
    requires WellFormedRows(raw)
    ensures sticks == Page(symbol, raw, num)
    ensures |sticks| == |raw|
    ensures forall i :: 0 <= i < |raw| ==>
      && sticks[i].symbol == symbol
      && sticks[i].time == num.toInt64(raw[i][0].f)
      && sticks[i].open == SafeParseFloat(raw[i][1], num.parse)
      && sticks[i].high == SafeParseFloat(raw[i][2], num.parse)
      && sticks[i].low == SafeParseFloat(raw[i][3], num.parse)
      && sticks[i].close == SafeParseFloat(raw[i][4], num.parse)
      && sticks[i].volume == SafeParseFloat(raw[i][5], num.parse)
  {
    var a := new Candlestick[|raw|];
    for i := 0 to |raw|
      invariant forall j :: 0 <= j < i ==> a[j] == RowToCandlestick(symbol, raw[j], num)
    {
      a[i] := RowToCandlestick(symbol, raw[i], num);
    }
    sticks := a[..];
  }

  // ---------------------------------------------------------------------
  // Decimal rendering of the start time (strconv.FormatInt(n, 10))

  predicate IsDigit(c: char)
  {
    '0' <= c <= '9'
  }

  predicate AllDigits(s: string)
  {
    forall i :: 0 <= i < |s| ==> IsDigit(s[i])
  }

  function DigitChar(d: nat): (c: char)
    requires d < 10
    ensures IsDigit(c) && c as int - '0' as int == d
  {
    (d + '0' as int) as char
  }

  /** The base-10 digits of `n`, most significant first, without leading zeros. */
  function FormatNat(n: nat): (s: string)
    ensures |s| > 0 && AllDigits(s)
    ensures n > 0 ==> s[0] != '0'
    decreases n
  {
    if n < 10 then [DigitChar(n)] else FormatNat(n / 10) + [DigitChar(n % 10)]
  }

  /** strconv.FormatInt(n, 10). */
  function FormatInt(n: int): string
  {
    if n < 0 then "-" + FormatNat(-n) else FormatNat(n)
  }

  /** The value of a string of decimal digits. */
  function DigitsValue(s: string): nat
    requires AllDigits(s)
    decreases |s|
  {
    if s == [] then 0
    else DigitsValue(s[..|s| - 1]) * 10 + (s[|s| - 1] as int - '0' as int)
  }

  /** Reading back a decimal integer, as the venue does with `startTime`. */
  function ParseInt(s: string): Option<int>
  {
    if |s| > 1 && s[0] == '-' && AllDigits(s[1..]) then Some(0 - DigitsValue(s[1..]) as int)
    else if |s| > 0 && AllDigits(s) then Some(DigitsValue(s))
    else None
  }

  lemma {:induction false} DigitsOfFormatNat(n: nat)
    ensures DigitsValue(FormatNat(n)) == n
    decreases n
  {
    if n >= 10 {
      var s := FormatNat(n);
      assert s[..|s| - 1] == FormatNat(n / 10);
      DigitsOfFormatNat(n / 10);
    }
  }

  /** The rendered start time reads back as the same number. */
  lemma FormatIntRoundTrip(n: int)
    ensures ParseInt(FormatInt(n)) == Some(n)
  {
    if n < 0 {
      assert FormatInt(n)[1..] == FormatNat(-n);
      DigitsOfFormatNat(-n);
    } else {
      DigitsOfFormatNat(n);
    }
  }

  // ---------------------------------------------------------------------
  // The request and the fetch

  /** A GET request: the path and the query parameters. */
  datatype KlinesRequest = KlinesRequest(path: string, query: map<string, string>)

  /** The failures FetchCandlestick1m passes on: a transport error or a body that is not JSON rows. */
  datatype FetchError = TransportError | DecodeError

  /** The venue together with the HTTP client and JSON decoder. */
  type Venue = KlinesRequest -> Result<seq<Row>, FetchError>

  /** The request FetchCandlestick1m sends for `symbol` from `start` (Unix ms). */
  function KlinesQuery(symbol: string, start: int): (req: KlinesRequest)
    ensures req.path == "/api/v3/klines"
    ensures req.query.Keys == {"symbol", "interval", "startTime", "limit"}
    ensures req.query["symbol"] == symbol
    ensures req.query["interval"] == "1m"
    ensures req.query["limit"] == "1000"
    ensures req.query["startTime"] == FormatInt(start)
  {
    KlinesRequest("/api/v3/klines",
      map["symbol" := symbol, "interval" := "1m", "startTime" := FormatInt(start), "limit" := "1000"])
  }

  /** The `startTime` parameter of the request reads back as the requested start, in milliseconds. */
  lemma KlinesQueryStartTime(symbol: string, start: int)
    ensures ParseInt(KlinesQuery(symbol, start).query["startTime"]) == Some(start)
  {
    FormatIntRoundTrip(start);
  }

  /** What the venue makes of the one request FetchCandlestick1m sends. */
  function Answer(venue: Venue, symbol: string, start: int): Result<seq<Row>, FetchError>
  {
    venue(KlinesQuery(symbol, start))
  }

  /**
   * FetchCandlestick1m: one page of candlesticks from `start`, or the error
   * of the request, unchanged and with no candlesticks.
   */
  method FetchCandlestick1m(symbol: string, start: int, venue: Venue, num: Numerics)
    returns (r: Result<seq<Candlestick>, FetchError>)
    requires Answer(venue, symbol, start).Success? ==> WellFormedRows(Answer(venue, symbol, start).value)
    ensures Answer(venue, symbol, start).Failure? ==> r == Failure(Answer(venue, symbol, start).error)
    ensures Answer(venue, symbol, start).Success? ==> r == Success(Page(symbol, Answer(venue, symbol, start).value, num))
  {
    var response := venue(KlinesQuery(symbol, start));
    if response.Failure? {
      return Failure(response.error);
    }
    var sticks := MapRows(symbol, response.value, num);
    return Success(sticks);
  }
}
