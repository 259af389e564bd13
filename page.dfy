/**
 * The dashboard page (`HomePage`): the coin selection, the interval and the
 * mode, the history record per selected symbol and the live series per
 * symbol, as the page's state hooks hold them, with the two effects that ask
 * the routes for data and the live-message handler that updates the series.
 */
module Page {
  import opened Wrappers
  import opened Strings
  import opened Http
  import HistoryRoute

  /** The dashboard shows either candle history or the live stream. */
  datatype Mode = HistoryMode | LiveMode

  /** A JavaScript number; the page does no arithmetic on prices. */
  type Price = real

  /** What the page keeps of one history candle. */
  datatype Candle = Candle(time: string, close: Price)

  /** One point of a live series; `time` is the already formatted time label. */
  datatype LivePoint = LivePoint(time: string, price: Price)

  /** At most this many coins are selected at a time. */
  const MaxSelected: nat := 2

  /** A live update keeps this many earlier points before appending the new one. */
  const KeptPoints: nat := 20

  // ---------------------------------------------------------------------------
  // Selection
  // ---------------------------------------------------------------------------

  predicate NoDuplicates(s: seq<string>) {
    forall i, j :: 0 <= i < j < |s| ==> s[i] != s[j]
  }

  /** The selection invariant: at most two ids, none twice. */
  predicate ValidSelection(s: seq<string>) {
    |s| <= MaxSelected && NoDuplicates(s)
  }

  /** `s.filter(id => id !== x)`. */
  function Without(s: seq<string>, x: string): (r: seq<string>)
    ensures x !in r
    ensures forall y :: y != x ==> (y in r <==> y in s)
    ensures |r| <= |s|
  {
    if s == [] then [] else (if s[0] == x then [] else [s[0]]) + Without(s[1..], x)
  }

  /** Filtering out an id that is not there changes nothing. */
  lemma {:induction false} WithoutAbsent(s: seq<string>, x: string)
    requires x !in s
    ensures Without(s, x) == s
  {
    if s != [] { WithoutAbsent(s[1..], x); }
  }

  /** In a selection without duplicates, filtering removes exactly the one place the id is at. */
  lemma {:induction false} WithoutAt(s: seq<string>, i: nat)
    requires NoDuplicates(s) && i < |s|
    ensures Without(s, s[i]) == s[..i] + s[i + 1..]
  {
    if i == 0 {
      assert s[0] !in s[1..] by {
        forall k | 0 <= k < |s[1..]| ensures s[1..][k] != s[0] { assert s[1..][k] == s[k + 1]; }
      }
      WithoutAbsent(s[1..], s[0]);
    } else {
      assert NoDuplicates(s[1..]) by {
        forall a, b | 0 <= a < b < |s[1..]| ensures s[1..][a] != s[1..][b] {
          assert s[1..][a] == s[a + 1] && s[1..][b] == s[b + 1];
        }
      }
      assert s[0] != s[i];
      WithoutAt(s[1..], i - 1);
      assert s[1..][i - 1] == s[i];
      assert s[1..][..i - 1] + s[1..][i..] == s[1..i] + s[i + 1..];
      assert [s[0]] + s[1..i] == s[..i];
    }
  }

  /** Filtering keeps a selection free of duplicates. */
  lemma {:induction false} WithoutNoDuplicates(s: seq<string>, x: string)
    requires NoDuplicates(s)
    ensures NoDuplicates(Without(s, x))
  {
    if s != [] {
      assert NoDuplicates(s[1..]) by {
        forall a, b | 0 <= a < b < |s[1..]| ensures s[1..][a] != s[1..][b] {
          assert s[1..][a] == s[a + 1] && s[1..][b] == s[b + 1];
        }
      }
      WithoutNoDuplicates(s[1..], x);
      assert s[0] !in s[1..] by {
        forall k | 0 <= k < |s[1..]| ensures s[1..][k] != s[0] { assert s[1..][k] == s[k + 1]; }
      }
      assert s[0] !in Without(s[1..], x);
    }
  }

  /**
   * `toggleCoin`'s new selection: an id already selected is filtered out; a new id is
   * appended while fewer than two are selected and ignored otherwise.
   */
  function Toggle(selected: seq<string>, coinId: string): (r: seq<string>)
    ensures coinId in selected ==> coinId !in r && forall y :: y != coinId ==> (y in r <==> y in selected)
    ensures coinId !in selected && |selected| < MaxSelected ==> r == selected + [coinId]
    ensures coinId !in selected && |selected| >= MaxSelected ==> r == selected
  {
    if coinId in selected then Without(selected, coinId)
    else if |selected| < MaxSelected then selected + [coinId]
    else selected
  }

  /** Removing a selected id keeps the other ids in their order. */
  lemma ToggleRemovesInPlace(selected: seq<string>, i: nat)
    requires ValidSelection(selected) && i < |selected|
    ensures Toggle(selected, selected[i]) == selected[..i] + selected[i + 1..]
  {
    WithoutAt(selected, i);
  }

  /** Every toggle keeps the selection invariant. */
  lemma ToggleValid(selected: seq<string>, coinId: string)
    requires ValidSelection(selected)
    ensures ValidSelection(Toggle(selected, coinId))
  {
    if coinId in selected {
      WithoutNoDuplicates(selected, coinId);
    }
  }

  /** Toggling a newly added id again takes it back out. */
  lemma ToggleTwice(selected: seq<string>, coinId: string)
    requires coinId !in selected && |selected| < MaxSelected
    ensures Toggle(Toggle(selected, coinId), coinId) == selected
  {
    var t := selected + [coinId];
    WithoutAbsent(selected, coinId);
    assert t == selected + [coinId];
    assert Without(t, coinId) == Without(selected, coinId) by {
      WithoutAppend(selected, coinId);
    }
  }

  lemma {:induction false} WithoutAppend(s: seq<string>, x: string)
    ensures Without(s + [x], x) == Without(s, x)
  {
    if s == [] {
      assert [x][1..] == [];
    } else {
      assert (s + [x])[1..] == s[1..] + [x];
      WithoutAppend(s[1..], x);
    }
  }

  // ---------------------------------------------------------------------------
  // History requests
  // ---------------------------------------------------------------------------

  /** The candle count the page asks for: an hour of minutes, a week of hours, otherwise a day of 5 minutes. */
  function LimitFor(interval: string): nat {
    if interval == "1h" then 168 else if interval == "1m" then 60 else 288
  }

  /** The page's `let limit = 288` with its two reassignments. */
  method HistoryLimit(interval: string) returns (limit: nat)
    ensures interval == "1m" ==> limit == 60
    ensures interval == "1h" ==> limit == 168
    ensures interval != "1m" && interval != "1h" ==> limit == 288
    ensures limit == LimitFor(interval)
  {
    limit := 288;
    if interval == "1m" {
      limit := 60;
    }
    if interval == "1h" {
      limit := 168;
    }
  }

  /** The page's own history route. */
  const HistoryPath := "/api/history"

  /** `/api/history?symbol=${symbol.toUpperCase()}&interval=${interval}&limit=${limit}`. */
  function HistoryRequestUrl(symbol: string, interval: string, limit: nat): (url: string)
    ensures url == HistoryPath + "?" + RenderQuery([("symbol", ToUpper(symbol)), ("interval", interval),
                                                     ("limit", Decimal(limit))])
  {
    var sym, lim := ToUpper(symbol), Decimal(limit);
    RenderThree("symbol", sym, "interval", interval, "limit", lim);
    HistoryPath + "?" + ("symbol" + "=" + sym + "&" + "interval" + "=" + interval + "&" + "limit" + "=" + lim)
  }

  lemma ToUpperQuerySafe(s: string)
    requires QuerySafe(s)
    ensures QuerySafe(ToUpper(s))
  {
    forall i | 0 <= i < |s| ensures ToUpper(s)[i] == UpperChar(s[i]) { ToUpperAt(s, i); }
  }

  lemma DecimalQuerySafe(n: nat)
    ensures QuerySafe(Decimal(n))
  {
  }

  /** The page's history request carries exactly its three parameters. */
  lemma HistoryRequestQuery(symbol: string, interval: string, limit: nat)
    requires QuerySafe(symbol) && QuerySafe(interval)
    ensures ParseQuery(HistoryRequestUrl(symbol, interval, limit))
         == [("symbol", ToUpper(symbol)), ("interval", interval), ("limit", Decimal(limit))]
  {
    var pairs := [("symbol", ToUpper(symbol)), ("interval", interval), ("limit", Decimal(limit))];
    ToUpperQuerySafe(symbol);
    DecimalQuerySafe(limit);
    assert SafePairs(pairs) by {
      assert QuerySafe("symbol") && QuerySafe("interval") && QuerySafe("limit");
    }
    assert '?' !in HistoryPath;
    ParseRenderedQuery(HistoryPath, pairs);
  }

  /**
   * The history route reads the page's request back as the page meant it: the upper-cased
   * symbol, the interval (the route's own `5m` when the page's is empty) and the page's limit.
   */
  lemma HistoryRequestReadBack(symbol: string, interval: string)
    requires symbol != "" && QuerySafe(symbol) && QuerySafe(interval)
    ensures var q := ParseQuery(HistoryRequestUrl(symbol, interval, LimitFor(interval)));
            && HistoryRoute.Symbol(q) == ToUpper(symbol)
            && HistoryRoute.Interval(q) == (if interval == "" then "5m" else interval)
            && HistoryRoute.Limit(q) == Some(LimitFor(interval))
  {
    var limit := LimitFor(interval);
    HistoryRequestQuery(symbol, interval, limit);
    ReadThree(ToUpper(symbol), interval, Decimal(limit));
    ParseIntDecimal(limit);
  }

  /** How the history route reads a query of the page's shape. */
  lemma ReadThree(symbol: string, interval: string, limit: string)
    requires symbol != "" && NoLower(symbol)
    requires limit != ""
    ensures var q := [("symbol", symbol), ("interval", interval), ("limit", limit)];
            && HistoryRoute.Symbol(q) == symbol
            && HistoryRoute.Interval(q) == (if interval == "" then "5m" else interval)
            && HistoryRoute.Limit(q) == ParseInt(limit)
  {
    var q := [("symbol", symbol), ("interval", interval), ("limit", limit)];
    assert q[1..] == [("interval", interval), ("limit", limit)];
    assert q[1..][1..] == [("limit", limit)];
    assert |"symbol"| == 6 && |"interval"| == 8 && |"limit"| == 5;
    assert Param(q, "symbol") == Some(symbol);
    assert Param(q, "interval") == Some(interval);
    assert Param(q[1..][1..], "limit") == Some(limit);
    assert Param(q[1..], "limit") == Some(limit);
    assert Param(q, "limit") == Some(limit);
    HistoryRoute.SymbolKeepsUpperCase(q, symbol);
  }

  /** The history effect runs only in history mode with something selected. */
  predicate HistoryGuard(mode: Mode, selected: seq<string>) {
    mode == HistoryMode && |selected| != 0
  }

  /** One request per selected symbol, in the order of the selection. */
  function HistoryRequests(selected: seq<string>, interval: string, limit: nat): (urls: seq<string>)
    ensures |urls| == |selected|
    ensures forall i :: 0 <= i < |selected| ==> urls[i] == HistoryRequestUrl(selected[i], interval, limit)
  {
    seq(|selected|, i requires 0 <= i < |selected| => HistoryRequestUrl(selected[i], interval, limit))
  }

  /**
   * `Promise.all` over the requests: the `[symbol, data.candles]` pairs in selection order, or
   * `None` when any request's promise rejects. `fetch` stands for the route behind each URL.
   */
  function Gather(symbols: seq<string>, interval: string, fetch: string -> Option<seq<Candle>>)
    : Option<seq<(string, seq<Candle>)>>
  {
    if symbols == [] then Some([])
    else
      match Gather(symbols[..|symbols| - 1], interval, fetch)
      case None => None
      case Some(rs) =>
        var last := symbols[|symbols| - 1];
        match fetch(HistoryRequestUrl(last, interval, LimitFor(interval)))
        case None => None
        case Some(cs) => Some(rs + [(last, cs)])
  }

  /** The answer of the symbol at place `i`, as the history route gives it. */
  function AnswerAt(symbols: seq<string>, i: nat, interval: string, fetch: string -> Option<seq<Candle>>)
    : Option<seq<Candle>>
    requires i < |symbols|
  {
    fetch(HistoryRequestUrl(symbols[i], interval, LimitFor(interval)))
  }

  /** `Promise.all` fails exactly when some request fails, and otherwise pairs each symbol with its answer. */
  lemma GatherMeaning(symbols: seq<string>, interval: string, fetch: string -> Option<seq<Candle>>)
    ensures Gather(symbols, interval, fetch).None?
            <==> exists i :: 0 <= i < |symbols| && AnswerAt(symbols, i, interval, fetch).None?
    ensures var r := Gather(symbols, interval, fetch);
            r.Some? ==> |r.value| == |symbols|
                        && forall i :: 0 <= i < |symbols| ==>
                             AnswerAt(symbols, i, interval, fetch).Some?
                             && r.value[i] == (symbols[i], AnswerAt(symbols, i, interval, fetch).value)
  {
    GatherFails(symbols, interval, fetch);
    GatherPairs(symbols, interval, fetch);
  }

  lemma {:induction false} GatherFails(symbols: seq<string>, interval: string, fetch: string -> Option<seq<Candle>>)
    ensures Gather(symbols, interval, fetch).None?
            <==> exists i :: 0 <= i < |symbols| && AnswerAt(symbols, i, interval, fetch).None?
  {
    if symbols != [] {
      var n := |symbols| - 1;
      var init := symbols[..n];
      GatherFails(init, interval, fetch);
      assert forall i :: 0 <= i < n ==> AnswerAt(init, i, interval, fetch) == AnswerAt(symbols, i, interval, fetch);
      var g, f := Gather(init, interval, fetch), AnswerAt(symbols, n, interval, fetch);
      assert Gather(symbols, interval, fetch).None? <==> g.None? || f.None?;
      if f.None? {
        assert 0 <= n < |symbols| && AnswerAt(symbols, n, interval, fetch).None?;
      }
    }
  }

  lemma {:induction false} GatherPairs(symbols: seq<string>, interval: string, fetch: string -> Option<seq<Candle>>)
    ensures var r := Gather(symbols, interval, fetch);
            r.Some? ==> |r.value| == |symbols|
                        && forall i :: 0 <= i < |symbols| ==>
                             AnswerAt(symbols, i, interval, fetch).Some?
                             && r.value[i] == (symbols[i], AnswerAt(symbols, i, interval, fetch).value)
  {
    if symbols != [] {
      var n := |symbols| - 1;
      var init := symbols[..n];
      GatherPairs(init, interval, fetch);
      var r := Gather(symbols, interval, fetch);
      if r.Some? {
        var rs := Gather(init, interval, fetch).value;
        assert r.value == rs + [(symbols[n], AnswerAt(symbols, n, interval, fetch).value)];
        assert forall i :: 0 <= i < n ==> AnswerAt(init, i, interval, fetch) == AnswerAt(symbols, i, interval, fetch);
      }
    }
  }

  /** The record built by `results.forEach(([s, candles]) => (obj[s] = candles))`. */
  function RecordOf(results: seq<(string, seq<Candle>)>): map<string, seq<Candle>>
  {
    if results == [] then map[]
    else RecordOf(results[..|results| - 1])[results[|results| - 1].0 := results[|results| - 1].1]
  }

  /** The record has one key per result symbol. */
  lemma {:induction false} RecordOfKeys(results: seq<(string, seq<Candle>)>)
    ensures forall k :: k in RecordOf(results) <==> exists i :: 0 <= i < |results| && results[i].0 == k
  {
    if results != [] {
      var n := |results| - 1;
      var init := results[..n];
      RecordOfKeys(init);
      assert forall i :: 0 <= i < n ==> init[i] == results[i];
      assert results[n].0 in RecordOf(results);
    }
  }

  /** A symbol's value in the record is its last result: later results for the same symbol win. */
  lemma {:induction false} RecordOfLatest(results: seq<(string, seq<Candle>)>, i: nat)
    requires i < |results|
    requires forall j :: i < j < |results| ==> results[j].0 != results[i].0
    ensures results[i].0 in RecordOf(results) && RecordOf(results)[results[i].0] == results[i].1
  {
    var n := |results| - 1;
    if i < n {
      var init := results[..n];
      assert init[i] == results[i];
      assert forall j :: i < j < |init| ==> init[j] == results[j];
      RecordOfLatest(init, i);
    }
  }

  /** Building the record by mutating `obj` in a loop. */
  method AssembleHistory(results: seq<(string, seq<Candle>)>) returns (obj: map<string, seq<Candle>>)
    ensures obj == RecordOf(results)
  {
    obj := map[];
    for i := 0 to |results|
      invariant obj == RecordOf(results[..i])
    {
      assert results[..i + 1][..i] == results[..i];
      obj := obj[results[i].0 := results[i].1];
    }
    assert results[..|results|] == results;
  }

  /** With a selection free of duplicates, the record maps each selected symbol to its own candles. */
  lemma GatheredRecord(selected: seq<string>, interval: string, fetch: string -> Option<seq<Candle>>)
    requires NoDuplicates(selected)
    requires Gather(selected, interval, fetch).Some?
    ensures var rec := RecordOf(Gather(selected, interval, fetch).value);
            && (forall s :: s in rec <==> s in selected)
            && forall i :: 0 <= i < |selected| ==>
                 && selected[i] in rec
                 && AnswerAt(selected, i, interval, fetch).Some?
                 && rec[selected[i]] == AnswerAt(selected, i, interval, fetch).value
  {
    GatherMeaning(selected, interval, fetch);
    var rs := Gather(selected, interval, fetch).value;
    RecordOfDistinct(rs, selected);
  }

  /** The record of results whose symbols are a duplicate-free list. */
  lemma RecordOfDistinct(rs: seq<(string, seq<Candle>)>, symbols: seq<string>)
    requires NoDuplicates(symbols) && |rs| == |symbols|
    requires forall i :: 0 <= i < |rs| ==> rs[i].0 == symbols[i]
    ensures forall s :: s in RecordOf(rs) <==> s in symbols
    ensures forall i :: 0 <= i < |rs| ==> symbols[i] in RecordOf(rs) && RecordOf(rs)[symbols[i]] == rs[i].1
  {
    RecordOfKeys(rs);
    forall i | 0 <= i < |rs|
      ensures symbols[i] in RecordOf(rs) && RecordOf(rs)[symbols[i]] == rs[i].1
    {
      RecordOfLatest(rs, i);
    }
  }

  // ---------------------------------------------------------------------------
  // Live series
  // ---------------------------------------------------------------------------

  function Min(a: nat, b: nat): nat { if a < b then a else b }

  /** The last `min(|s|, n)` elements of `s`. */
  function Last<T>(s: seq<T>, n: nat): (r: seq<T>)
    ensures |r| == Min(|s|, n)
  {
    s[|s| - Min(|s|, n)..]
  }

  /** `[...arr.slice(-20), point]`. */
  function Slide(series: seq<LivePoint>, point: LivePoint): (r: seq<LivePoint>)
    ensures |series| < KeptPoints ==> |r| == |series| + 1
    ensures |series| >= KeptPoints ==> |r| == KeptPoints + 1
    ensures r[|r| - 1] == point
  {
    Last(series, KeptPoints) + [point]
  }

  /** A slide keeps exactly the 21 most recent points, the new one included. */
  lemma SlideKeepsRecent(series: seq<LivePoint>, point: LivePoint)
    ensures Slide(series, point) == Last(series + [point], KeptPoints + 1)
  {
    assert Last(series, KeptPoints) + [point] == Last(series + [point], KeptPoints + 1);
  }

  /** The points a series holds after `points` arrived one by one. */
  function Feed(series: seq<LivePoint>, points: seq<LivePoint>): seq<LivePoint>
  {
    if points == [] then series else Slide(Feed(series, points[..|points| - 1]), points[|points| - 1])
  }

  lemma LastOfLast<T>(x: seq<T>, y: seq<T>, n: nat)
    ensures Last(Last(x, n) + y, n) == Last(x + y, n)
  {
    var lx := Last(x, n);
    assert (lx + y) == (x + y)[|x| - |lx|..];
  }

  /** After any non-empty run of updates the series holds exactly the last 21 points of everything received. */
  lemma {:induction false} FeedKeepsLast(series: seq<LivePoint>, points: seq<LivePoint>)
    requires points != []
    ensures Feed(series, points) == Last(series + points, KeptPoints + 1)
  {
    var init, p := points[..|points| - 1], points[|points| - 1];
    assert points == init + [p];
    assert series + points == (series + init) + [p];
    if init == [] {
      SlideKeepsRecent(series, p);
    } else {
      SlideKeepsRecent(Feed(series, init), p);
      FeedKeepsLast(series, init);
      LastOfLast(series + init, [p], KeptPoints + 1);
      LastOfShorter(series + init);
    }
  }

  /** Keeping 21 and then sliding is keeping 20 and then appending. */
  lemma LastOfShorter(x: seq<LivePoint>)
    ensures Last(Last(x, KeptPoints + 1), KeptPoints) == Last(x, KeptPoints)
  {
  }

  /** The key a live message for `symbol` is filed under: `msg.symbol.toLowerCase()`. */
  function SeriesKey(symbol: string): (key: string)
    ensures |key| == |symbol| && NoUpper(key)
    ensures forall i :: 0 <= i < |key| ==> key[i] == LowerChar(symbol[i])
    ensures NoUpper(symbol) ==> key == symbol
  {
    forall i | 0 <= i < |symbol| ensures ToLower(symbol)[i] == LowerChar(symbol[i]) {
      ToLowerAt(symbol, i);
    }
    ToLowerFixesNoUpper(symbol);
    ToLower(symbol)
  }

  /** `setLiveData`: the series under `key` slides by one point; the other series stay as they are. */
  function LiveUpdate(live: map<string, seq<LivePoint>>, key: string, point: LivePoint)
    : (r: map<string, seq<LivePoint>>)
    ensures forall k :: k in r <==> k in live || k == key
    ensures r[key] == Slide(if key in live then live[key] else [], point)
    ensures forall k :: k in live && k != key ==> k in r && r[k] == live[k]
  {
    live[key := Slide(if key in live then live[key] else [], point)]
  }

  /** What the stream effect opens: `/api/stream?symbols=<ids joined by commas>`, only in live mode with something selected. */
  function StreamRequest(mode: Mode, selected: seq<string>): (url: Option<string>)
    ensures url.None? <==> mode != LiveMode || |selected| == 0
    ensures url.Some? ==> url.value == "/api/stream?symbols=" + Join(selected, ',')
  {
    if mode != LiveMode || |selected| == 0 then None
    else Some("/api/stream?symbols=" + Join(selected, ','))
  }

  /** The ids the stream request carries are the selection, in order, when no id holds a comma. */
  lemma StreamRequestIds(mode: Mode, selected: seq<string>)
    requires StreamRequest(mode, selected).Some?
    requires forall s :: s in selected ==> ',' !in s
    ensures var url := StreamRequest(mode, selected).value;
            Split(url[|"/api/stream?symbols="|..], ',') == selected
  {
    var prefix := "/api/stream?symbols=";
    assert (prefix + Join(selected, ','))[|prefix|..] == Join(selected, ',');
    SplitJoin(selected, ',');
  }

  // ---------------------------------------------------------------------------
  // Current price
  // ---------------------------------------------------------------------------

  /** `getCurrentPrice`: the last close in history mode, the last live price otherwise, `None` for no data. */
  function CurrentPrice(mode: Mode, history: map<string, seq<Candle>>, live: map<string, seq<LivePoint>>,
                        coinId: string): (r: Option<Price>)
    ensures mode == HistoryMode ==> (r.None? <==> coinId !in history || history[coinId] == [])
    ensures mode == LiveMode ==> (r.None? <==> coinId !in live || live[coinId] == [])
    ensures mode == HistoryMode && r.Some? ==> r.value == history[coinId][|history[coinId]| - 1].close
    ensures mode == LiveMode && r.Some? ==> r.value == live[coinId][|live[coinId]| - 1].price
  {
    if mode == HistoryMode then
      if coinId in history && |history[coinId]| > 0 then Some(history[coinId][|history[coinId]| - 1].close)
      else None
    else
      if coinId in live && |live[coinId]| > 0 then Some(live[coinId][|live[coinId]| - 1].price)
      else None
  }

  /** Right after a live message the coin's current price is that message's price. */
  lemma PriceAfterMessage(live: map<string, seq<LivePoint>>, history: map<string, seq<Candle>>,
                          symbol: string, point: LivePoint)
    ensures CurrentPrice(LiveMode, history, LiveUpdate(live, SeriesKey(symbol), point), SeriesKey(symbol))
            == Some(point.price)
  {
  }

  // ---------------------------------------------------------------------------
  // The page state
  // ---------------------------------------------------------------------------

  class Dashboard {
    var selected: seq<string>
    var interval: string
    var mode: Mode
    var history: map<string, seq<Candle>>
    var liveData: map<string, seq<LivePoint>>

    /** The selection invariant, and no live series longer than 21 points. */
    ghost predicate Valid()
      reads this
    {
      && ValidSelection(selected)
      && forall k :: k in liveData ==> |liveData[k]| <= KeptPoints + 1
    }

    /** The initial state of the hooks. */
    constructor ()
      ensures Valid()
      ensures selected == ["btcusdt"] && interval == "5m" && mode == HistoryMode
      ensures history == map[] && liveData == map[]
    {
      selected := ["btcusdt"];
      interval := "5m";
      mode := HistoryMode;
      history := map[];
      liveData := map[];
    }

    /** `toggleCoin(coinId)`. */
    method ToggleCoin(coinId: string)
      requires Valid()
      modifies this`selected
      ensures Valid()
      ensures selected == Toggle(old(selected), coinId)
    {
      ToggleValid(selected, coinId);
      if coinId in selected {
        selected := Without(selected, coinId);
      } else if |selected| < MaxSelected {
        selected := selected + [coinId];
      }
    }

    /** The history / live buttons. */
    method SetMode(m: Mode)
      requires Valid()
      modifies this`mode
      ensures Valid() && mode == m
    {
      mode := m;
    }

    /** The interval picker. */
    method SetInterval(iv: string)
      requires Valid()
      modifies this`interval
      ensures Valid() && interval == iv
    {
      interval := iv;
    }

    /** `ev.onmessage`: one stream message for `symbol`, with its price and formatted time. */
    method OnStreamMessage(symbol: string, price: Price, time: string)
      requires Valid()
      modifies this`liveData
      ensures Valid()
      ensures liveData == LiveUpdate(old(liveData), SeriesKey(symbol), LivePoint(time, price))
    {
      var key := SeriesKey(symbol);
      var arr := if key in liveData then liveData[key] else [];
      liveData := liveData[key := Slide(arr, LivePoint(time, price))];
    }

    /**
     * The history effect: nothing outside history mode or with nothing selected; otherwise one
     * request per selected symbol, and the record of all answers once every one has answered.
     */
    method HistoryEffect(fetch: string -> Option<seq<Candle>>) returns (requests: seq<string>)
      requires Valid()
      modifies this`history
      ensures Valid()
      ensures requests == if HistoryGuard(mode, selected) then HistoryRequests(selected, interval, LimitFor(interval)) else []
      ensures history == if HistoryGuard(mode, selected) && Gather(selected, interval, fetch).Some?
                         then RecordOf(Gather(selected, interval, fetch).value)
                         else old(history)
    {
      if mode != HistoryMode || |selected| == 0 {
        return [];
      }
      var limit := HistoryLimit(interval);
      requests := HistoryRequests(selected, interval, limit);
      var gathered := Gather(selected, interval, fetch);
      if gathered.Some? {
        history := AssembleHistory(gathered.value);
      }
    }
  }
}
