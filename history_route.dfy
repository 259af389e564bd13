/**
 * `GET /api/history?symbol=<SYM>&interval=<iv>&limit=<n>`: normalises the
 * parameters, asks Binance's klines endpoint and maps each upstream row to a
 * candle record. Every exception inside the handler is caught and answered
 * with status 500.
 */
module HistoryRoute {
  import opened Wrappers
  import opened Strings
  import opened Http

  const Origin: string := "https://api.binance.com"
  const Base: string := Origin + "/api/v3/klines"

  const FetchFailed: string := "Failed to fetch history"
  const FetchError: string := "Error fetching history"

  /**
   * One JSON value inside an upstream row, `Undefined` past the row's end. A cell keeps only its
   * text: it does not tell a number from a string, so the date conversion below cannot follow the
   * difference between `new Date(1700000000000)` (a valid date) and `new Date("1700000000000")`
   * (an invalid one); that difference is left to the `isoTime` parameter.
   */
  datatype Cell = Undefined | Defined(text: string)

  /** One kline row: `[openTime, open, high, low, close, ...]`. */
  type Row = seq<Cell>

  /**
   * One candle of the answer. `time` is the ISO-8601 text of the row's open time; the four prices
   * are the cells `parseFloat` is applied to (float parsing is not modelled).
   */
  datatype Candle = Candle(time: string, open: Cell, high: Cell, low: Cell, close: Cell)

  /** The JSON body of a successful answer: `{ symbol, interval, candles }`. */
  datatype History = History(symbol: string, interval: string, candles: seq<Candle>)

  /**
   * `new Date(cell).toISOString()` for a defined cell: the ISO-8601 text of a time cell, `None`
   * where `toISOString` throws (an invalid date). Date arithmetic is not modelled.
   */
  type IsoTime = Cell -> Option<string>

  // ---------------------------------------------------------------------------
  // Query parameters
  // ---------------------------------------------------------------------------

  /** The symbol: `BTCUSDT` when absent or empty, otherwise the given one upper-cased. */
  function Symbol(q: Query): (s: string)
    ensures s != "" && NoLower(s)
    ensures Param(q, "symbol") in {None, Some("")} ==> s == "BTCUSDT"
    ensures Param(q, "symbol") !in {None, Some("")} ==>
              |s| == |Param(q, "symbol").value|
              && forall i :: 0 <= i < |s| ==> s[i] == UpperChar(Param(q, "symbol").value[i])
  {
    var given := ParamOr(q, "symbol", "BTCUSDT");
    ToUpperFixesNoLower("BTCUSDT");
    forall i | 0 <= i < |given| ensures ToUpper(given)[i] == UpperChar(given[i]) {
      ToUpperAt(given, i);
    }
    ToUpper(given)
  }

  /** A symbol given already in upper case is passed on unchanged. */
  lemma SymbolKeepsUpperCase(q: Query, v: string)
    requires Param(q, "symbol") == Some(v) && v != "" && NoLower(v)
    ensures Symbol(q) == v
  {
    ToUpperFixesNoLower(v);
  }

  /** Normalising the symbol twice changes nothing. */
  lemma SymbolIdempotent(q: Query)
    ensures Symbol([("symbol", Symbol(q))]) == Symbol(q)
  {
    var s := Symbol(q);
    assert Param([("symbol", s)], "symbol") == Some(s);
    SymbolKeepsUpperCase([("symbol", s)], s);
  }

  /** The interval: `5m` when absent or empty, otherwise passed on as given. */
  function Interval(q: Query): (iv: string)
    ensures iv != ""
    ensures Param(q, "interval") in {None, Some("")} ==> iv == "5m"
    ensures Param(q, "interval") !in {None, Some("")} ==> Param(q, "interval") == Some(iv)
  {
    ParamOr(q, "interval", "5m")
  }

  /** The limit: `parseInt` of the given text, of `288` when absent or empty; `None` is `NaN`. */
  function Limit(q: Query): (n: Option<int>)
    ensures Param(q, "limit") in {None, Some("")} ==> n == Some(288)
    ensures Param(q, "limit") !in {None, Some("")} ==> n == ParseInt(Param(q, "limit").value)
  {
    assert Decimal(288) == "288" by {
      assert Decimal(2) == "2";
      assert Decimal(28) == Decimal(2) + [DigitChar(8)];
    }
    ParseIntDecimal(288);
    ParseInt(ParamOr(q, "limit", "288"))
  }

  /** A limit given as the decimal digits of a number is that number. */
  lemma LimitOfDecimal(q: Query, n: nat)
    requires Param(q, "limit") == Some(Decimal(n))
    ensures Limit(q) == Some(n)
  {
    ParseIntDecimal(n);
  }

  // ---------------------------------------------------------------------------
  // Upstream request
  // ---------------------------------------------------------------------------

  /** The klines request for the normalised parameters. */
  function UpstreamUrl(symbol: string, interval: string, limit: Option<int>): (url: string)
    ensures url == Base + "?" + RenderQuery([("symbol", symbol), ("interval", interval),
                                             ("limit", NumberText(limit))])
  {
    RenderThree("symbol", symbol, "interval", interval, "limit", NumberText(limit));
    Base + "?" + ("symbol" + "=" + symbol + "&" + "interval" + "=" + interval + "&" + "limit" + "=" + NumberText(limit))
  }

  lemma BaseHasNoQuery()
    ensures '?' !in Base
  {
  }

  /** Binance reads the upstream URL's query back as exactly the three normalised parameters. */
  lemma UpstreamQuery(symbol: string, interval: string, limit: Option<int>)
    requires QuerySafe(symbol) && QuerySafe(interval)
    ensures ParseQuery(UpstreamUrl(symbol, interval, limit))
         == [("symbol", symbol), ("interval", interval), ("limit", NumberText(limit))]
  {
    BaseHasNoQuery();
    NumberTextSafe(limit);
    var pairs := [("symbol", symbol), ("interval", interval), ("limit", NumberText(limit))];
    assert SafePairs(pairs) by {
      assert QuerySafe("symbol") && QuerySafe("interval") && QuerySafe("limit");
    }
    ParseRenderedQuery(Base, pairs);
  }

  /**
   * The `limit` text forwarded in the klines URL (see `UpstreamQuery`) reads back, with
   * `parseInt`, as the route's own limit.
   */
  lemma LimitForwarded(q: Query)
    ensures ParseInt(NumberText(Limit(q))) == Limit(q)
  {
    match Limit(q)
    case Some(n) => ParseIntText(n);
    case None =>
      assert TrimStart("NaN") == "NaN" by { assert !IsJsWhiteSpace('N'); }
      assert DigitRun("NaN", 10) == [];
  }

  // ---------------------------------------------------------------------------
  // Rows to candles
  // ---------------------------------------------------------------------------

  /** `c[i]` of a row: `undefined` past its end. */
  function At(row: Row, i: nat): Cell {
    if i < |row| then row[i] else Undefined
  }

  /**
   * `new Date(c[0]).toISOString()`: `new Date(undefined)` is an invalid date, so a row without
   * cell 0 always throws; any other cell is converted by `isoTime`.
   */
  function TimeOf(cell: Cell, isoTime: IsoTime): (t: Option<string>)
    ensures cell.Undefined? ==> t.None?
    ensures cell.Defined? ==> t == isoTime(cell)
  {
    if cell.Undefined? then None else isoTime(cell)
  }

  /** One row as a candle: time from cell 0, open/high/low/close from cells 1 to 4. */
  function CandleOf(row: Row, isoTime: IsoTime): Option<Candle> {
    match TimeOf(At(row, 0), isoTime)
    case None => None
    case Some(t) => Some(Candle(t, At(row, 1), At(row, 2), At(row, 3), At(row, 4)))
  }

  /** `data.map(...)`: every row becomes one candle, in order; the map throws at the first bad time. */
  function ToCandles(rows: seq<Row>, isoTime: IsoTime): (r: Option<seq<Candle>>)
    ensures r.None? <==> exists i :: 0 <= i < |rows| && TimeOf(At(rows[i], 0), isoTime).None?
    ensures (exists i :: 0 <= i < |rows| && |rows[i]| == 0) ==> r.None?
    ensures r.Some? ==> |r.value| == |rows|
    ensures r.Some? ==> forall i :: 0 <= i < |rows| ==>
              r.value[i] == Candle(TimeOf(At(rows[i], 0), isoTime).value,
                                   At(rows[i], 1), At(rows[i], 2), At(rows[i], 3), At(rows[i], 4))
  {
    if rows == [] then Some([])
    else
      match CandleOf(rows[0], isoTime)
      case None => None
      case Some(c) =>
        match ToCandles(rows[1..], isoTime)
        case None => None
        case Some(cs) => Some([c] + cs)
  }

  // ---------------------------------------------------------------------------
  // The handler
  // ---------------------------------------------------------------------------

  /** The status decision and the body: the fetch outcome, then the mapping of its rows. */
  function Respond(u: Upstream<seq<Row>>, symbol: string, interval: string, isoTime: IsoTime)
    : (r: Response<History>)
    ensures !r.Rejected?
    ensures r.Json? <==> u.Answered? && u.ok && u.body.Some? && ToCandles(u.body.value, isoTime).Some?
    ensures r.Json? ==> r.body == History(symbol, interval, ToCandles(u.body.value, isoTime).value)
    ensures u.Answered? && !u.ok ==> r == Text(500, FetchFailed)
    ensures !r.Json? && !(u.Answered? && !u.ok) ==> r == Text(500, FetchError)
  {
    match u
    case Threw => Text(500, FetchError)
    case Answered(ok, body) =>
      if !ok then Text(500, FetchFailed)
      else match body
        case None => Text(500, FetchError)
        case Some(rows) =>
          match ToCandles(rows, isoTime)
          case None => Text(500, FetchError)
          case Some(candles) => Json(History(symbol, interval, candles))
  }

  /** The handler for one request; `fetch` stands for the upstream, `isoTime` for the date conversion. */
  function Get(q: Query, fetch: string -> Upstream<seq<Row>>, isoTime: IsoTime): (x: Exchange<History>)
    ensures x.upstreamRequest == Some(UpstreamUrl(Symbol(q), Interval(q), Limit(q)))
    ensures x.response == Respond(fetch(x.upstreamRequest.value), Symbol(q), Interval(q), isoTime)
  {
    var url := UpstreamUrl(Symbol(q), Interval(q), Limit(q));
    Exchange(Some(url), Respond(fetch(url), Symbol(q), Interval(q), isoTime))
  }

  /** A successful answer has one candle per upstream row and echoes the normalised symbol and interval. */
  lemma SuccessEchoesParameters(q: Query, fetch: string -> Upstream<seq<Row>>, isoTime: IsoTime)
    requires Get(q, fetch, isoTime).response.Json?
    ensures var h := Get(q, fetch, isoTime).response.body;
            var u := fetch(Get(q, fetch, isoTime).upstreamRequest.value);
            h.symbol == Symbol(q) && h.interval == Interval(q)
            && u.Answered? && u.ok && u.body.Some? && |h.candles| == |u.body.value|
  {
  }

  /** With no parameters at all the upstream request is for 288 five-minute BTCUSDT candles. */
  lemma DefaultRequest()
    ensures Symbol([]) == "BTCUSDT" && Interval([]) == "5m" && Limit([]) == Some(288)
  {
  }
}
