# binance-timescaledb continuity engine in Dafny

This project models the part of gnoah1379/binance-timescaledb that keeps a gap-free series of 1-minute candlesticks for each traded symbol. Two sources feed the series:

- a live WebSocket kline stream from Binance, with subscription bookkeeping, resubscription on reconnect and triage of incoming frames;
- a paginated REST pull of historical klines (`GET /api/v3/klines`), driven by a per-symbol resume cursor.

Both sources write into one table keyed by `(time, symbol)`.

The model has six modules:

- `Wrappers`: `Option` and `Result`.
- `Model`: the `Candlestick` and `Symbol` records of model.go. Times are Unix milliseconds. An OHLCV value is an opaque 64-bit pattern.
- `Klines` (binance.go, pull half):
  - `SafeParseFloat`;
  - the klines request and the decimal rendering of its `startTime`;
  - the row-to-candlestick loop;
  - `FetchCandlestick1m`.
- `Stream` (binance.go, push half): the `SpotBinance` client as a class. Its fields are the connection, the `subscribed` map and a log of the control messages written. It provides `getSubscribed`, `SubscribeCandlestick1m`, `ConnectStream` and the `handleStreamMessage` read loop over a finite sequence of frames.
- `Db` (db.go): a `Store` class whose `rows` map is the `candlestick` table. `UpsertCandlestick` is a method on it. The "last candlestick" and "enabled symbols" queries are functions.
- `App` (main.go):
  - the finalized-only stream callback;
  - the `enableSymbols` projection;
  - the per-symbol backfill loop with its `startTime` cursor;
  - the outer loop over symbols;
  - the startup sequence of `main`.

External services are passed in as arguments:

- The venue, the JSON decoder and the float parser are function-valued parameters.
- Whether a dial, a WebSocket write or a database statement succeeds is a boolean argument.
- In `App`, these come from an `Env` indexed by a clock that advances on every external call, so a retried call can get a different answer.

The backfill and the stream behave as follows where it is easy to assume otherwise:

- **Fetch error.** A fetch error returns from `main` (main.go:70-73), so every remaining symbol is skipped. Returning from `main` also ends the process, so live ingestion from the stream stops as well; it does not keep running. `App.Backfill` stops at that symbol, and `App.Run` ends there.
- **Cursor step.** The cursor steps one millisecond past the last stored bar, not one interval (main.go:67, main.go:84).
- **Upsert error.** An upsert error does not abort the backfill. The same page is fetched again from the same cursor (main.go:78-82).
- **Reconnect.** An abnormal closure or a server going away does not reconnect. Every other close code does (see Findings).
- **Malformed batches.** An empty batch and a batch with two rows at the same key are not preconditions. Each is an error result of `Db.Store.UpsertCandlestick`, as sqlx and Postgres report them.

## Model

| member | source | states |
|---|---|---|
| Klines.SafeParseFloat | binance.go:48-61 | A JSON number passes through unchanged. A string yields its parsed value, or 0 when parsing fails. Any other kind yields 0. A non-zero result always came from the input. |
| Klines.NumberAndStringAgree | binance.go:48-61 | A number and a string that parses to that number decode to the same value. |
| Klines.Page | binance.go:86-97 | One candlestick per raw row, in row order, each stamped with the requested symbol and the row's open time. |
| Klines.MapRows | binance.go:86-97 | The filled array is `Page` of the rows: one candlestick per raw row, in row order. Each carries the requested symbol, the row's open time and `SafeParseFloat` of fields 1 to 5 as open, high, low, close and volume. |
| Klines.FormatIntRoundTrip | binance.go:72 | The decimal `startTime` rendering reads back as the same integer, negative values included. |
| Klines.KlinesQuery | binance.go:64-74 | The request goes to `/api/v3/klines` with exactly the parameters symbol, interval=1m, startTime and limit=1000. startTime is the decimal rendering of the requested start. |
| Klines.KlinesQueryStartTime | binance.go:72 | The request's startTime reads back as the requested start in milliseconds. |
| Klines.FetchCandlestick1m | binance.go:63-99 | A transport or decode error is returned unchanged with no candlesticks. Otherwise the result is `Page` of the venue's rows. |
| Db.ApplyBatch | db.go:29-36 | Upserting a batch adds exactly the batch's keys. Rows whose key is not in the batch keep their values. |
| Db.ApplyBatchAt | db.go:30-34 | With distinct keys, each batch key holds exactly that candlestick's OHLCV after the upsert, whether it was inserted or overwritten. |
| Db.ApplyBatchIdempotent | db.go:32-33 | Upserting the same batch twice leaves the table that upserting it once leaves. |
| Db.LaterBatchWins | db.go:32-33 | After batch B1 then batch B2, every B2 key holds B2's values, the same as if B1 had never run. |
| Db.Store.UpsertCandlestick | db.go:29-36 | Errors, in order: an empty batch, an unreachable database, two rows at one key. On an error the table is unchanged. On success the table is `ApplyBatch` of the old table. |
| Db.LastCandlestick | db.go:40-42 | None exactly when the symbol has no row. Otherwise the result is a stored row of that symbol with its stored values and the greatest time among that symbol's rows. |
| Db.GetLastCandlestick | db.go:38-46 | Fails exactly when the query fails. Otherwise it returns the latest row, or "not found" with no error. |
| Db.EnabledOnly | db.go:50 | A registry row is in the result exactly when it is in the registry and enabled. |
| Db.EnabledOnlyCounts | db.go:50 | Each enabled row occurs in the result as often as in the registry, and a disabled row not at all. |
| Db.GetEnabledSymbols | db.go:48-52 | Fails exactly when the query fails. Otherwise it returns exactly the enabled rows. |
| Stream.ToLower | binance.go:206 | Lower-casing keeps the length and lower-cases each character in place. No ASCII upper-case letter is left. |
| Stream.StreamNameRoundTrip | binance.go:206 | The stream name `lower(symbol)+"@kline_1m"` reads back as the lower-cased symbol. |
| Stream.StreamNameOfLowerCase | binance.go:206 | Symbols that differ only in letter case name the same stream. |
| Stream.SubscribeMessage | binance.go:203-212 | Method "SUBSCRIBE", id 1, and one stream per input symbol in input order, naming that symbol lower-cased. |
| Stream.MarkSubscribed | binance.go:204-205 | Every given symbol maps to true. The keys are the old keys plus the symbols. Other entries are unchanged. |
| Stream.ResubscribeKeepsSet | binance.go:121-124 | Resubscribing to symbols already marked true leaves the subscription map unchanged. |
| Stream.Triage | binance.go:170-196 | One of six actions for each frame, each characterised by an if-and-only-if: reconnect, skip a read error, skip the exact ack, skip an undecodable message, skip a non-"kline" event, or deliver the event's kline. |
| Stream.DeliveredAreKlineEvents | binance.go:182-196 | A kline reaches the callback exactly when some frame is a kline event carrying it. |
| Stream.FirstReconnect | binance.go:171-179 | None exactly when no frame triggers a reconnect. Otherwise it is the position of the first frame that does. |
| Stream.SpotBinance.constructor | binance.go:24-31 | A new client has no connection, an empty subscription map and nothing written. |
| Stream.SpotBinance.GetSubscribed | binance.go:105-113 | The result lists exactly the keys whose value is true, each once. |
| Stream.SpotBinance.SubscribeCandlestick1m | binance.go:200-214 | The map becomes `MarkSubscribed` of the old map, even when the write fails. On success exactly one SUBSCRIBE for the symbols is written on the current connection. A failed write is returned as an error. |
| Stream.SpotBinance.ConnectStream | binance.go:115-131 | A failed dial changes nothing and returns the error. A successful dial installs a new connection, keeps the subscription set, and writes one SUBSCRIBE listing exactly the symbols marked true. |
| Stream.SpotBinance.HandleStreamMessage | binance.go:166-198 | Without a reconnecting frame, every frame is consumed and the state is unchanged. Otherwise the loop stops right after the first such frame, having run ConnectStream once. The callback receives the deliveries of the consumed frames, in order. |
| Stream.DroppedConnectionIsNotReconnected | binance.go:172 | As written, close codes 1006 and 1001 are skipped as ordinary read errors, and two 1006 errors in a row do not reconnect. Close code 1000 reconnects. |
| Stream.DroppedRunNeverReconnects | binance.go:170-179 | As written, a run of frames of any length, each a 1006 or a 1001 close error, never reconnects. |
| Stream.IntendedTriage | binance.go:172 | Corrected classification: a read error reconnects exactly when it is close code 1006 or 1001, and is skipped otherwise. Received messages are triaged as before. |
| App.LiveAndHistoricalAgree | main.go:34-42 | A REST row and a stream kline with the same open time and OHLCV strings give the same candlestick. |
| App.CandlestickCallback | main.go:30-48 | A kline that is not final leaves the table unchanged. A final kline upserts exactly one candlestick with the kline's start time, its symbol and its parsed OHLCV. |
| App.OnlyFinalKlinesAreWritten | main.go:31-33 | The table after a run of klines equals the table after only its final klines. |
| App.FinalValuesWin | main.go:30-48 | A draft kline followed by the final kline of the same minute leaves exactly the final values at that key. |
| App.DeliverAll | main.go:30-48 | Running the callback over delivered klines gives `LiveWrites`. The clock advances once per final kline. |
| App.EnableSymbols | main.go:49-52 | Same length as the symbol rows, holding each row's ticker at the same index. |
| App.ResumeIsPastStoredBars | main.go:60-68 | The first cursor lies past every stored bar of the symbol. It is 0 when the symbol has no rows. |
| App.FetchPage | main.go:70-82 | The outcome is what the venue's answer at the fetch clock makes of it: the venue's error, an empty page, or the mapped page. The mapped page is upserted exactly when the database is up at the next clock and its keys are distinct. The table changes by exactly the stored page. |
| App.FetchPages | main.go:69-85 | The inner loop's log: one attempt per fetch, each as the venue and database answered it, on a cursor and clock chain. It ends on an empty page, on the venue's error, or when the fuel runs out. The table is the old table with exactly the stored pages applied in order. |
| App.BackfillSymbol | main.go:59-86 | Details below the table. |
| App.ExitMatchesVenue | main.go:69-85 | For every attempt of a pass: an empty page exactly when the venue answered no rows, a fetch failure exactly when it answered an error, and a fetched page exactly when it answered rows, mapped row by row. A page is stored exactly when the database was up for its upsert and its keys are distinct. |
| App.CursorMonotone | main.go:84 | If the venue returns bars only from the cursor on, the cursor never moves back and moves strictly forward after each stored page. |
| App.PersistedBeforeCursor | main.go:78-84 | After a failed upsert, the next fetch starts from the same cursor. After a successful one, the bar just before the new cursor is in the table. |
| App.StoredPagesArePersisted | main.go:74-84 | However a pass ends, every bar of every page it stored is in the table. |
| App.CaughtUpIsGapFree | main.go:58-87 | Gap-free from the first cursor on: if the venue serves a series of bars, a pass that catches up leaves every bar of the series from the first cursor on in the table. Bars before the first cursor are not covered (see `App.LiveBarSkipsGap`). |
| App.GapFreeUpTo | main.go:69-85 | Every bar of the series from the first cursor up to the cursor of any attempt is in the table. |
| App.LiveBarMovesResume | main.go:30-67 | A final kline the callback stores before its symbol's lookup, later than every stored bar of that symbol, becomes the symbol's last bar, so the first cursor is one millisecond past it. |
| App.LiveBarSkipsGap | main.go:58-85 | In that case, if the venue answers only with bars from the cursor on, every fetch of the symbol's pass starts after the live bar, so the bars between the previous last bar and the live one are never fetched. |
| App.Backfill | main.go:58-87 | Symbols are processed in order, one pass each. A failed lookup or a caught-up symbol moves on. A fetch error stops the whole backfill at that symbol. Each pass starts at the clock, fuel and table the previous one left, and the last one leaves the final table. A pass ends out of fuel only when no fuel is left. |
| App.BackfillSpendsFuel | main.go:58-87 | The backfill fetches at most `fuel` pages in all, and it ends out of fuel only after fetching exactly `fuel` pages. |
| App.Run | main.go:19-58 | Details below the table. |

`App.BackfillSymbol` states:

- The lookup fails exactly when the database is down at the pass's first clock. A failed lookup changes nothing and uses one clock tick.
- Otherwise the attempts form a cursor chain from `Resume(LastCandlestick)`.
- The first fetch is at the next clock. Each fetched page takes two ticks (fetch and upsert), and the clock after the pass is returned.
- Every attempt's outcome is what the venue answered at its clock, with the upsert succeeding exactly when the database is up at the following clock and the page's keys are distinct.
- The pass ends normally only on an empty page.
- A fetch error ends it with that error.
- The table is the old table with exactly the stored pages applied in order.
- It spends one unit of fuel per fetch, and ends out of fuel only when none is left.

`App.Run` states:

- A failed dial or resubscribe panics before anything is written to the table.
- A failed registry query panics after the empty resubscription.
- Until the registry read succeeds the subscription map stays empty. Otherwise it is exactly the enabled tickers, each marked subscribed, whether or not the subscription write succeeds.
- A failed subscription panics. A successful one is logged as `SUBSCRIBE []` then `SUBSCRIBE tickers` on connection 1.
- After a successful subscription the backfill runs over the enabled registry rows in registry order, from clock 4 with all the fuel, and the table ends as that run leaves it.

## Left out

- I/O is not modelled: the WebSocket dial, read and write, the HTTP client, response bodies, the JSON encoder and decoder, logging, signal waiting (main.go:88-90), `OpenDB` and the configuration. They are replaced by parameters: a `Decoder`, a `Venue`, success flags and the `Env` oracle.
- Concurrency is not modelled: `sync.Mutex` and the `go b.handleStreamMessage()` goroutine. The read loop is a sequential method over a finite frame sequence. `App.DeliverAll` applies the callback to the loop's deliveries after the loop, not interleaved with the backfill; what that ordering costs the backfill is under App.CaughtUpIsGapFree below. The `candlestickCallback` field is this fixed callback.
- `strconv.ParseFloat` and the float64-to-int64 conversion are parameters (`Klines.Numerics`). OHLCV values are opaque bit patterns with no arithmetic.
- `time.Time` is integer Unix milliseconds.
- `http.NewRequest` is left out. Its URL is a constant, so it cannot fail in practice.
- `GetBaseAPI`, `GetStreamUrl` and `SetTestnet` are left out. They only select URLs.
- The query string is a map. `url.Values.Encode` ordering and escaping are left out.
- Klines.FetchCandlestick1m: requires well-formed rows, meaning at least six fields with a JSON number first. The source panics on other rows (binance.go:89-95).
- Stream.SpotBinance.SubscribeCandlestick1m: requires a connection. The source dereferences a nil `ws` otherwise.
- Stream.ToLower: lower-cases ASCII letters only, through `LowerChar`. `strings.ToLower` maps all of Unicode.
- Stream.SubscribeMessage: for an empty symbol list the source sends `"params": null`. The model has an empty list.
- Stream.SpotBinance.GetSubscribed: Go's random map iteration order is not fixed. The contract only states which symbols appear, each once.
- Stream.SpotBinance.HandleStreamMessage: gorilla/websocket keeps returning the same error after a failed read. The model does not tie later frames to earlier errors. It also leaves out gorilla's panic after many repeated reads of a failed connection.
- Stream.SpotBinance.ConnectStream: does not start the read loop. The source starts it only when the resubscribe write succeeds (binance.go:125-129), so the caller runs `HandleStreamMessage` only when `ConnectStream` returns no error; after a `WriteError` no read loop runs.
- App.BackfillSymbol: a `fuel` bound on the number of fetches replaces the source's unbounded loop. Running out of fuel is the exit `OutOfFuel`, which the source does not have.
- App.Backfill: with `OutOfFuel` it stops at that symbol. The source would keep fetching. The fuel left by one symbol is what the next one gets, and `App.BackfillSpendsFuel` states that running out means exactly `fuel` pages were fetched.
- App.CaughtUpIsGapFree: the venue is an oracle, so that it serves a gap-free series is a hypothesis (`ServesSeries`), stated on the pages of the pass. The property starts at the first cursor only. The stream is subscribed (main.go:53) before the backfill loop, and each symbol's lookup (main.go:61) comes after the earlier symbols' backfills. A final kline that the callback stores before that lookup becomes the symbol's last bar, and the bars between the previous last bar and it are never fetched (`App.LiveBarMovesResume`, `App.LiveBarSkipsGap`). So the table is not gap-free for such a symbol, and the order of the live and the historical path does matter.
- Db.GetEnabledSymbols: the SQL query has no `ORDER BY`, so the row order is Postgres's choice. The model returns the enabled rows in registry order.
- App.CursorMonotone: needs the venue to return only bars from the requested start on. The venue is an oracle, so this is stated as a hypothesis.
- App.Run: the store is passed in. OpenDB, the hard-coded credentials (main.go:11-17) and the final wait for an interrupt are left out.

## Findings

| source | as written | input that shows it | evidently intended | confidence | as-written member | corrected member |
|---|---|---|---|---|---|---|
| binance.go:172 | `IsUnexpectedCloseError(err, CloseGoingAway, CloseAbnormalClosure)` is true only for close codes other than 1001 and 1006, so those two are skipped like transient errors. | A read that fails with close code 1006 (connection dropped), or a server restart with 1001. The loop continues instead of reconnecting and keeps reading the dead connection. | Reconnect on an abnormal closure or a server going away: `IsCloseError` with those codes, or any close error. | medium; not executed | Stream.DroppedConnectionIsNotReconnected | Stream.IntendedTriage |

`Stream.SpotBinance.HandleStreamMessage` models the loop as written, so it keeps the behaviour shown in this row. `Stream.IntendedTriage` is the corrected classification. Its property is stated in its own contract.
