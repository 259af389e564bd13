# Crypto dashboard: a verified model of its request handling and page state

This project models the core of a small Next.js crypto dashboard in Dafny:

- the `/api/price` route, which checks `ids`, defaults `vs` to `usd`, asks CoinGecko's
  simple/price endpoint and either passes its JSON through or answers 400/500;
- the `/api/history` route, which normalises `symbol`, `interval` and `limit`, asks Binance
  for klines and maps each kline row to a candle record, answering 500 on failure;
- the `/api/stream` route, meant as a Server-Sent-Events stream that polls CoinGecko once at
  start and then on every timer tick, enqueues exactly one frame per poll, and has a teardown
  that clears the timer and closes the controller. As written, its `start` throws while the
  stream is being built, so the handler rejects and the timer is never cleared (see
  "## Findings"). The model gives both the code as written and the intended stream;
- the dashboard page (`HomePage`). It holds the coin selection (at most two ids, none
  twice), the interval, the mode, the history record and the live series. The live series
  is a sliding window of 21 points. The page also has its history and stream effects and
  `getCurrentPrice`.

Modules:

- `Wrappers`: the `Option` type.
- `Strings`: the JavaScript string behaviour the core relies on. This is ASCII
  `toUpperCase`/`toLowerCase`, decimal rendering, `parseInt` without a radix, and
  `join`/`split`.
- `Http`: query strings (`searchParams.get`, the `||` default), rendering and parsing of a
  query, the abstract upstream outcome (`Upstream`: threw, or answered with an `ok` flag and
  a body that may fail to parse) and the route response (`Response`).
- `PriceRoute`, `HistoryRoute`, `StreamRoute`, `Page`: one module per core file.

Network calls are parameters. A route receives `fetch` as a function from the upstream URL
to the `Upstream` outcome. The page's history effect receives a function from its request
URL to the candles, or to `None` when the promise rejects. The stream route receives each
poll's outcome as a `Poll` value.

Two classes model the stream's runtime parts:

- `StreamRoute.Controller`: the `ReadableStream` controller, an append-only chunk queue
  with a closed flag.
- `StreamRoute.EventStream`: the stream's lifecycle, with the start as written and the intended
  start.

`Page.Dashboard` holds the page's state hooks as fields, and its methods are the setters
and effects.

A few facts about the code that the model keeps:

- `/api/price` reads only `ids` and `vs`, and passes CoinGecko's map through unchanged.
- `/api/history` answers a failure with a plain-text 500 body, not a JSON error object.
- `/api/stream` reads no query parameter. It always polls the same URL.
- After an `event: error` frame, `/api/stream` goes on polling at the next tick. The error
  frame does not end the stream.

## Model

| member | source | states |
|---|---|---|
| PriceRoute.Currency | src/app/api/price/route.ts:6 | `vs` is `usd` when absent or empty, otherwise the given value; never empty |
| PriceRoute.UpstreamUrl | src/app/api/price/route.ts:12 | the upstream URL is the simple/price base followed by the rendered query `ids=<ids>&vs_currencies=<vs>` |
| PriceRoute.UpstreamQuery | src/app/api/price/route.ts:12 | for non-empty ids and currency without query metacharacters, spaces or control characters, the upstream reads the query back as exactly those two parameters |
| PriceRoute.Outcome | src/app/api/price/route.ts:13-20 | non-ok gives 500 "Failed to fetch prices"; ok with a parsable body gives that body unchanged; a thrown fetch or unparsable body escapes the handler (rejected) |
| PriceRoute.Get | src/app/api/price/route.ts:3-21 | missing or empty `ids` gives 400 "Missing ids param", in both directions, with no upstream request; otherwise the request is the upstream URL and the response is the upstream outcome's |
| PriceRoute.MissingIdsIgnoresUpstream | src/app/api/price/route.ts:8-13 | without `ids` the exchange is the same whatever the upstream would do |
| PriceRoute.OkBodyPassesThrough | src/app/api/price/route.ts:19-20 | an ok upstream body is returned unchanged |
| HistoryRoute.Symbol | src/app/api/history/route.ts:5 | the symbol is never empty and has no lower-case letter; it is `BTCUSDT` when absent or empty, otherwise the given text upper-cased character by character |
| HistoryRoute.SymbolKeepsUpperCase | src/app/api/history/route.ts:5 | an already upper-case symbol is kept as given |
| HistoryRoute.SymbolIdempotent | src/app/api/history/route.ts:5 | normalising a normalised symbol changes nothing |
| HistoryRoute.Interval | src/app/api/history/route.ts:6 | the interval is `5m` when absent or empty, otherwise the given value |
| HistoryRoute.Limit | src/app/api/history/route.ts:7 | the limit is 288 when absent or empty, otherwise `parseInt` of the given text (`None` standing for `NaN`) |
| HistoryRoute.LimitOfDecimal | src/app/api/history/route.ts:7 | a limit written as the decimal digits of n is read as n |
| HistoryRoute.UpstreamUrl | src/app/api/history/route.ts:10-12 | the klines URL carries `symbol`, `interval` and `limit` in that order, the limit in decimal digits (`NaN` when `parseInt` failed) |
| HistoryRoute.UpstreamQuery | src/app/api/history/route.ts:10-12 | Binance reads that query back as exactly the three normalised parameters |
| HistoryRoute.LimitForwarded | src/app/api/history/route.ts:7-12 | the forwarded `limit` text reads back with `parseInt` as the route's own limit, `NaN` included |
| HistoryRoute.TimeOf | src/app/api/history/route.ts:20 | a missing cell 0 always fails the conversion; a present one is converted by `isoTime` |
| HistoryRoute.ToCandles | src/app/api/history/route.ts:19-25 | the mapping fails exactly when some row's time cannot be converted, and always when some row is empty; otherwise it has one candle per row, in order, with time/open/high/low/close from cells 0/1/2/3/4 |
| HistoryRoute.Respond | src/app/api/history/route.ts:13-30 | the handler never rejects; JSON exactly when the upstream answered ok with rows that map; non-ok gives 500 "Failed to fetch history"; any other failure gives 500 "Error fetching history" |
| HistoryRoute.Get | src/app/api/history/route.ts:3-31 | every request fetches the URL built from the normalised parameters, and answers with `Respond` on its outcome |
| HistoryRoute.SuccessEchoesParameters | src/app/api/history/route.ts:27 | a success echoes the normalised symbol and interval, with one candle per upstream row |
| HistoryRoute.DefaultRequest | src/app/api/history/route.ts:5-7 | with no parameters the request is for 288 five-minute BTCUSDT candles |
| StreamRoute.UpstreamIsPriceRequest | src/app/api/stream/route.ts:8-10 | the stream always polls the same URL, the price route's URL for `bitcoin,ethereum` in `usd`, and its query reads back as those two parameters |
| StreamRoute.UpstreamIds | src/app/api/stream/route.ts:9 | the polled ids are `bitcoin` and `ethereum` |
| StreamRoute.Headers | src/app/api/stream/route.ts:37-43 | the response headers are `text/event-stream`, `no-cache, no-transform` and `keep-alive` (as written this response is never built) |
| StreamRoute.Frame | src/app/api/stream/route.ts:6-19 | a received poll becomes `data: <json>` and a blank line; a failed poll becomes the `event: error` frame; every frame ends with a blank line |
| StreamRoute.Frames | src/app/api/stream/route.ts:6-23 | one frame per poll, in the order of the polls |
| StreamRoute.DecodeFrame | src/app/api/stream/route.ts:13-17 | an EventSource client reading one frame dispatches exactly that poll's event (`message` with the JSON, or `error` with `fetch failed`) |
| StreamRoute.Events | src/app/api/stream/route.ts:13-17 | one client event per poll, in order |
| StreamRoute.DecodeFrames | src/app/api/stream/route.ts:6-23 | a client reading the concatenated frames dispatches one event per poll, in order |
| StreamRoute.Controller.Enqueue | src/app/api/stream/route.ts:13-17 | on an open controller the chunk is appended; on a closed one it throws and nothing changes |
| StreamRoute.Controller.Close | src/app/api/stream/route.ts:29 | the controller ends closed with its chunks unchanged; it throws when already closed |
| StreamRoute.EventStream.Start | src/app/api/stream/route.ts:4-34 | as written: the first poll's frame is enqueued and the timer set, then `start` throws at line 26 and no teardown exists |
| StreamRoute.EventStream.StartWithCancel | src/app/api/stream/route.ts:5-34 | the intended start: the same frame and timer, with the teardown installed and nothing thrown |
| StreamRoute.EventStream.Send | src/app/api/stream/route.ts:6-19 | one `send` appends exactly its frame, or on a closed controller rejects and appends nothing |
| StreamRoute.EventStream.Tick | src/app/api/stream/route.ts:23 | while the timer is set a tick adds exactly one frame; after cancel it adds nothing |
| StreamRoute.EventStream.Cancel | src/app/api/stream/route.ts:26-33 | the teardown, which only the intended stream has: it clears the timer and leaves the controller closed and the frames as they were, also when repeated |
| StreamRoute.ReplyOf | src/app/api/stream/route.ts:4-43 | the handler rejects exactly when building the stream threw; otherwise it answers with the event-stream headers |
| StreamRoute.Run | src/app/api/stream/route.ts:23 | timer ticks on a running stream record one poll per tick, in order, and leave the timer set |
| StreamRoute.Serve | src/app/api/stream/route.ts:4-43 | as written: the handler rejects, yet after k ticks the timer is still set, no teardown exists, and the unread queue holds exactly k+1 frames, those of the polls in order |
| StreamRoute.Connection | src/app/api/stream/route.ts:4-43 | intended: the response carries the event-stream headers; after any number (at least one) of teardowns later ticks add nothing; the client sees one event per poll before the teardown, in order |
| Page.Toggle | src/app/page.tsx:151-157 | a selected id is removed and every other id kept; an unselected id is appended while fewer than two are selected and ignored otherwise |
| Page.ToggleRemovesInPlace | src/app/page.tsx:152-153 | removing a selected id keeps the others in their original order |
| Page.ToggleValid | src/app/page.tsx:151-157 | toggling keeps the selection at most two ids long and free of duplicates |
| Page.ToggleTwice | src/app/page.tsx:152-155 | toggling a newly added id again restores the selection |
| Page.HistoryLimit | src/app/page.tsx:116-118 | the limit is 60 for `1m`, 168 for `1h` and 288 for every other interval |
| Page.HistoryRequestUrl | src/app/page.tsx:122 | the history request is `/api/history` with the query `symbol=<upper-cased symbol>&interval=<interval>&limit=<limit>` |
| Page.HistoryRequestQuery | src/app/page.tsx:122 | that request's query reads back as exactly those three parameters |
| Page.HistoryRequestReadBack | src/app/page.tsx:116-122 | the history route reads the page's request as the upper-cased symbol, the interval (or `5m` when empty) and the page's own limit |
| Page.HistoryRequests | src/app/page.tsx:121-122 | one request per selected symbol, in selection order, all with the same interval and limit |
| Page.GatherMeaning | src/app/page.tsx:120-126 | `Promise.all` fails exactly when some request fails, and otherwise pairs each symbol with its candles, in order |
| Page.RecordOfKeys | src/app/page.tsx:127-128 | the record's keys are exactly the result symbols |
| Page.RecordOfLatest | src/app/page.tsx:127-128 | a symbol's value in the record is its last result: a later result for the same symbol wins |
| Page.AssembleHistory | src/app/page.tsx:127-128 | the loop over the results builds exactly that record |
| Page.GatheredRecord | src/app/page.tsx:120-129 | for a selection without duplicates the record's keys are the selected symbols, each mapped to its own candles |
| Page.Slide | src/app/page.tsx:143 | a series update grows a series shorter than 20 by one point, holds 21 points otherwise, and ends with the new point |
| Page.SlideKeepsRecent | src/app/page.tsx:143 | a series update is exactly the 21 most recent points, the new one included |
| Page.FeedKeepsLast | src/app/page.tsx:140-145 | after any non-empty run of updates a series holds exactly the last 21 points received |
| Page.SeriesKey | src/app/page.tsx:142-143 | a message is filed under its symbol lower-cased character by character (same length, no upper-case letter), and a symbol already in lower case is its own key |
| Page.LiveUpdate | src/app/page.tsx:140-145 | the keys become the old keys plus the message's key; the series under that key slides by the new point (from empty when absent); every other series is unchanged |
| Page.StreamRequest | src/app/page.tsx:134-136 | no stream is opened outside live mode or with nothing selected; otherwise the URL carries the selection joined by `,` |
| Page.StreamRequestIds | src/app/page.tsx:136 | splitting the stream URL's ids at `,` gives back the selection |
| Page.CurrentPrice | src/app/page.tsx:323-331 | no price exactly when the series of the current mode is missing or empty; otherwise its last close or price |
| Page.PriceAfterMessage | src/app/page.tsx:323-331 | right after a live message the coin's price is that message's price |
| Page.Dashboard.constructor | src/app/page.tsx:100-104 | the page starts with `["btcusdt"]`, `5m`, history mode and no data |
| Page.Dashboard.ToggleCoin | src/app/page.tsx:151-157 | the selection becomes its toggle, and the selection invariant holds |
| Page.Dashboard.SetMode | src/app/page.tsx:102 | the mode is set and nothing else changes |
| Page.Dashboard.SetInterval | src/app/page.tsx:101 | the interval is set and nothing else changes |
| Page.Dashboard.OnStreamMessage | src/app/page.tsx:137-146 | the live data becomes its live update under the lower-cased symbol, keeping every series at most 21 points long |
| Page.Dashboard.HistoryEffect | src/app/page.tsx:113-131 | nothing is requested outside history mode or with nothing selected; otherwise one request per selected symbol, and the history becomes the record of the answers if all succeed, and stays as it was if any fails |
| Strings.ParseIntDecimal | src/app/api/history/route.ts:7 | `parseInt` reads the decimal digits of n back as n |
| Strings.ToUpperIdempotent | src/app/api/history/route.ts:5 | upper-casing twice is upper-casing once |
| Strings.SplitJoin | src/app/page.tsx:136 | splitting a join at its separator gives back the parts when no part holds the separator |
| Http.ParamOr | src/app/api/price/route.ts:6 | `get(name) \|\| fallback` is the fallback exactly when the parameter is absent, empty or equal to the fallback |
| Http.ParseRenderedQuery | src/app/api/history/route.ts:10-12 | a query rendered from parameters free of metacharacters, spaces and control characters parses back to the same parameters |

## Left out

- JSON parsing and `JSON.stringify` are not modelled. An upstream body is an opaque value, or
  `None` when `res.json()` throws. In the stream a received poll carries the already stringified text.
- `parseFloat` and `new Date(...).toISOString()` in the history route are not modelled. The candle
  cells are kept as given, and the time conversion is a parameter (`isoTime`) that may throw.
- `toLocaleTimeString` on the page is not modelled. `OnStreamMessage` receives the formatted time.
  Prices are opaque reals, and no arithmetic is done on them.
- `Strings.ToUpper`, `Strings.ToLower`: only ASCII letters change. JavaScript's full Unicode case
  mapping, which can change a string's length, is not modelled.
- `HistoryRoute.UpstreamUrl`, `Strings.IntText`: JavaScript writes a number of 10^21 or more
  in exponent form (`1e+21`). `IntText` always writes plain decimal digits, so the model is
  faithful only for limits below 10^21 in absolute value.
- `Strings.ParseInt` gives exact integers. It does not model the precision loss of digit runs
  beyond 2^53.
- `Http.ParseQuery` does not percent-decode and does not turn `+` into a space. It also does not
  model the URL parser behind `fetch` and `new URL`, which deletes tabs and line breaks and strips
  control characters and spaces at the ends. The round-trip lemmas therefore require values free of
  `&`, `=`, `?`, `#`, `%`, `+`, space and every control character up to U+0020 (`Http.QuerySafe`).
- `StreamRoute.Decode` splits lines at line feed only. Carriage returns never occur in the
  frames the route writes: `StreamRoute.OneLine`, which the decoding lemmas require, excludes both
  line feed and carriage return from the stringified JSON.
- Timing is not modelled: the 5000 ms interval, the asynchronous interleaving of overlapping
  `send` calls, of concurrent history requests, and of a history answer that arrives after the
  selection changed. Ticks, polls and answers are taken in sequence.
- `StreamRoute.EventStream.Cancel` is the teardown of the intended stream, where it is the
  underlying source's `cancel`. As written, line 26 of `src/app/api/stream/route.ts` throws before
  the teardown is installed, so no teardown exists (see "## Findings").
- What Next.js sends for a rejected handler (a 500 answer) is not modelled. The model's
  `Reply.Rejected` stops at the rejection.
- `Page.LiveUpdate`, `Page.CurrentPrice`, `Page.RecordOf`: the page's records are JavaScript objects,
  and the model's are maps. A key that names an inherited property (`constructor`, `__proto__`,
  `toString`, ...) is read from the prototype in the source: `updated[key] || []` then yields a
  non-array, `arr.slice` throws and no series is stored, and `obj["__proto__"] = candles` sets the
  prototype. The model treats such keys like any other.
- The `EventSource` object is not modelled: opening it, `ev.close()` in the effect cleanup,
  and its reconnection.
- JSX rendering, chart data and options, the sidebar and `AnimatedBackground` (which uses
  `Math.random`) in `src/app/page.tsx` are not modelled.
- `src/app/layout.tsx`, `src/app/api/coins/route.ts` and `src/app/api/ws/route.ts` are not part of this model.
- The coins list fetched on page load (`/api/coins`) is not modelled.
- The messages the stream route sends (a raw price map) and the `{symbol, price, time}` the page
  expects are each modelled on their own terms. The model does not claim that they agree.
- The history route does not check that the number of candles is at most `limit`, nor that high
  is at least low. These are the upstream's guarantees, and the model states neither.
- The price route has no `try`/`catch`. A thrown `fetch` or `res.json()` is modelled as a
  rejected handler (`Response.Rejected`), not as a response with a status.
- The stream route never looks at `res.ok`. A non-ok CoinGecko answer whose body parses is
  relayed as a `data:` frame like any other. The poll's `ok` flag is kept only to make this visible.
- The stream route ignores the `symbols` parameter the page sends. It always polls bitcoin and
  ethereum in usd.

## Findings

| source | as written | input that shows it | evidently intended | confidence | as-written member | corrected member |
|---|---|---|---|---|---|---|
| src/app/api/stream/route.ts:4-34 | `new ReadableStream` calls `start` before `const stream` is initialised. The first `send()` and the timer start, then `stream.cancel = ...` at line 26 throws a `ReferenceError` (temporal dead zone). The constructor passes it on, `GET` rejects, and no teardown exists to clear the timer. Every tick enqueues one more frame that nobody reads. | any `GET /api/stream` | the teardown given as the underlying source's `cancel`, the event-stream response returned, and the timer cleared when the client goes away | not executed | StreamRoute.Serve | StreamRoute.Connection |
