/**
 * Startup orchestration (main.go): the finalized-only stream callback, the
 * projection of enabled symbols, and the per-symbol historical backfill
 * with its resume cursor.
 *
 * The venue and the database are oracles: `Env` says what the venue answers
 * to the n-th external call and whether the n-th database statement or
 * WebSocket operation succeeds, so a retried call may get a different
 * answer.  Every external call advances a clock by one.
 */
module App {
  import opened Wrappers
  import opened Model
  import opened Klines
  import opened Stream
  import opened Db

  // ---------------------------------------------------------------------
  // The stream callback

  /** The candlestick the callback builds from a kline. */
  function KlineToCandlestick(k: WsKline, parse: string -> Option<Float64>): Candlestick
  {
    Candlestick(
      k.startTime,
      k.symbol,
      SafeParseFloat(DString(k.open), parse),
      SafeParseFloat(DString(k.high), parse),
      SafeParseFloat(DString(k.low), parse),
      SafeParseFloat(DString(k.close), parse),
      SafeParseFloat(DString(k.volume), parse))
  }

  /**
   * The live and the historical path agree: a REST row carrying the same
   * open time and the same OHLCV strings as a kline becomes the same
   * candlestick, so both paths write the same row at the same key.
   */
  lemma LiveAndHistoricalAgree(k: WsKline, row: Row, num: Numerics)
    requires WellFormedRow(row)
    requires num.toInt64(row[0].f) == k.startTime
    requires row[1..6] == [DString(k.open), DString(k.high), DString(k.low), DString(k.close), DString(k.volume)]
    ensures RowToCandlestick(k.symbol, row, num) == KlineToCandlestick(k, num.parse)
  {
    assert row[1] == row[1..6][0] && row[2] == row[1..6][1] && row[3] == row[1..6][2];
    assert row[4] == row[1..6][3] && row[5] == row[1..6][4];
  }

  /**
   * candlestickCallback: a kline that is not final is ignored; a final one
   * is upserted as a one-row batch (an upsert error is only logged).
   */
  method CandlestickCallback(store: Store, k: WsKline, parse: string -> Option<Float64>, up: bool)
    modifies store`rows
    ensures !k.isFinal || !up ==> store.rows == old(store.rows)
    ensures k.isFinal && up ==> store.rows == ApplyBatch(old(store.rows), [KlineToCandlestick(k, parse)])
  {
    if !k.isFinal {
      return;
    }
    var stick := KlineToCandlestick(k, parse);
    var err := store.UpsertCandlestick([stick], up);
  }

  /** The table after the callback has seen `klines`; the n-th upsert succeeds when `dbUp(clock + n)`. */
  function LiveWrites(rows: Table, klines: seq<WsKline>, parse: string -> Option<Float64>,
                      dbUp: nat -> bool, clock: nat): Table
    decreases |klines|
  {
    if klines == [] then rows
    else if !klines[0].isFinal then LiveWrites(rows, klines[1..], parse, dbUp, clock)
    else
      var next := if dbUp(clock) then ApplyBatch(rows, [KlineToCandlestick(klines[0], parse)]) else rows;
      LiveWrites(next, klines[1..], parse, dbUp, clock + 1)
  }

  function FinalOnly(klines: seq<WsKline>): (r: seq<WsKline>)
    ensures forall k :: k in r <==> k in klines && k.isFinal
    decreases |klines|
  {
    if klines == [] then []
    else
      assert klines == [klines[0]] + klines[1..];
      if klines[0].isFinal then [klines[0]] + FinalOnly(klines[1..]) else FinalOnly(klines[1..])
  }

  /** In-progress klines never reach the table: only the finalized ones matter. */
  lemma {:induction false} OnlyFinalKlinesAreWritten(rows: Table, klines: seq<WsKline>,
                                                     parse: string -> Option<Float64>, dbUp: nat -> bool, clock: nat)
    ensures LiveWrites(rows, klines, parse, dbUp, clock) == LiveWrites(rows, FinalOnly(klines), parse, dbUp, clock)
    decreases |klines|
  {
    if klines != [] {
      if klines[0].isFinal {
        var next := if dbUp(clock) then ApplyBatch(rows, [KlineToCandlestick(klines[0], parse)]) else rows;
        OnlyFinalKlinesAreWritten(next, klines[1..], parse, dbUp, clock + 1);
        assert ([klines[0]] + FinalOnly(klines[1..]))[1..] == FinalOnly(klines[1..]);
      } else {
        OnlyFinalKlinesAreWritten(rows, klines[1..], parse, dbUp, clock);
      }
    }
  }

  /**
   * A provisional kline followed by the final kline of the same minute
   * leaves exactly the final values at that key.
   */
  lemma FinalValuesWin(rows: Table, draft: WsKline, final: WsKline, parse: string -> Option<Float64>,
                       dbUp: nat -> bool, clock: nat)
    requires !draft.isFinal && final.isFinal && dbUp(clock)
    ensures var after := LiveWrites(rows, [draft, final], parse, dbUp, clock);
      var c := KlineToCandlestick(final, parse);
      KeyOf(c) in after && after[KeyOf(c)] == ValuesOf(c)
  {
    var c := KlineToCandlestick(final, parse);
    assert [draft, final][1..] == [final];
    assert [final][1..] == [];
    assert LiveWrites(rows, [draft, final], parse, dbUp, clock) == LiveWrites(rows, [final], parse, dbUp, clock);
    assert LiveWrites(rows, [final], parse, dbUp, clock) == LiveWrites(ApplyBatch(rows, [c]), [], parse, dbUp, clock + 1);
    ApplyBatchAt(rows, [c], 0);
  }

  /** The callback run over a sequence of delivered klines, in order. */
  method DeliverAll(store: Store, klines: seq<WsKline>, parse: string -> Option<Float64>,
                    dbUp: nat -> bool, clock: nat) returns (clock': nat)
    modifies store`rows
    ensures store.rows == LiveWrites(old(store.rows), klines, parse, dbUp, clock)
    ensures clock' == clock + |FinalOnly(klines)|
  {
    clock' := clock;
    var i := 0;
    while i < |klines|
      invariant i <= |klines|
      invariant LiveWrites(store.rows, klines[i..], parse, dbUp, clock') == LiveWrites(old(store.rows), klines, parse, dbUp, clock)
      invariant clock' + |FinalOnly(klines[i..])| == clock + |FinalOnly(klines)|
    {
      assert klines[i..][1..] == klines[i + 1..];
      CandlestickCallback(store, klines[i], parse, dbUp(clock'));
      if klines[i].isFinal {
        clock' := clock' + 1;
      }
      i := i + 1;
    }
  }

  // ---------------------------------------------------------------------
  // Enabled symbols

  /** enableSymbols: the ticker of every registry row, filled by index. */
  method EnableSymbols(symbols: seq<Symbol>) returns (names: seq<string>)
    ensures |names| == |symbols|
    ensures forall i :: 0 <= i < |symbols| ==> names[i] == symbols[i].symbol
  {
    var a := new string[|symbols|];
    for i := 0 to |symbols|
      invariant forall j :: 0 <= j < i ==> a[j] == symbols[j].symbol
    {
      a[i] := symbols[i].symbol;
    }
    names := a[..];
  }

  // ---------------------------------------------------------------------
  // Historical backfill

  /** The external world: the venue's answer to the n-th call and whether the n-th operation succeeds. */
  datatype Env = Env(venue: nat -> Venue, dbUp: nat -> bool, wsUp: nat -> bool)

  /** The venue always answers with rows the mapping can read. */
  ghost predicate WellFormedVenue(env: Env)
  {
    forall n: nat, req: KlinesRequest ::
      env.venue(n)(req).Success? ==> WellFormedRows(env.venue(n)(req).value)
  }

  /** What became of one fetch of the backfill. */
  datatype PageOutcome =
    | FetchFailed(err: FetchError)
    | EmptyPage
    | Stored(page: seq<Candlestick>)      // fetched and upserted
    | NotStored(page: seq<Candlestick>)   // fetched, but the upsert failed

  /** One turn of the inner loop: the cursor it fetched from, the clock of the fetch, and what happened. */
  datatype Attempt = Attempt(start: int, at: nat, outcome: PageOutcome)

  predicate PageOfSymbol(page: seq<Candlestick>, symbol: string)
  {
    forall i :: 0 <= i < |page| ==> page[i].symbol == symbol
  }

  /**
   * What a fetch of `symbol` from `start` at clock `at` comes to: the
   * venue's error, an empty page, or the mapped page, which is stored
   * exactly when the upsert at the next clock succeeds.
   */
  ghost function Outcome(symbol: string, start: int, at: nat, env: Env, num: Numerics): PageOutcome
    requires WellFormedVenue(env)
  {
    match Answer(env.venue(at), symbol, start)
    case Failure(e) => FetchFailed(e)
    case Success(raw) =>
      if raw == [] then EmptyPage
      else
        var page := Page(symbol, raw, num);
        if env.dbUp(at + 1) && DistinctKeys(page) then Stored(page) else NotStored(page)
  }

  /** The first cursor of a symbol: epoch 0, or one millisecond after its last stored bar. */
  function Resume(last: Option<Candlestick>): int
  {
    if last.Some? then last.value.time + 1 else 0
  }

  predicate Fetched(a: Attempt)
  {
    (a.outcome.Stored? || a.outcome.NotStored?) && a.outcome.page != []
  }

  /** The cursor after an attempt: past the last bar of a stored page, else unchanged. */
  function NextStart(a: Attempt): int
    requires Fetched(a)
  {
    if a.outcome.Stored? then a.outcome.page[|a.outcome.page| - 1].time + 1 else a.start
  }

  /**
   * The cursor discipline of the inner loop: it starts at `resume`; every
   * attempt but the last fetched a non-empty page; and the next attempt
   * starts where NextStart says.
   */
  ghost predicate CursorChain(resume: int, attempts: seq<Attempt>)
  {
    && (attempts != [] ==> attempts[0].start == resume)
    && (forall j :: 0 <= j < |attempts| - 1 ==> Fetched(attempts[j]))
    && (forall j :: 0 <= j < |attempts| - 1 ==> attempts[j + 1].start == NextStart(attempts[j]))
  }

  /** The clock discipline: the first fetch at `first`, then two ticks (fetch and upsert) per fetched page. */
  ghost predicate ClockChain(first: nat, attempts: seq<Attempt>)
  {
    && (attempts != [] ==> attempts[0].at == first)
    && (forall j :: 0 <= j < |attempts| - 1 ==> attempts[j + 1].at == attempts[j].at + 2)
  }

  /** The clock after the attempts: one tick for the last fetch, one more if it fetched a page to upsert. */
  function ClockAfter(first: nat, attempts: seq<Attempt>): nat
  {
    if attempts == [] then first
    else
      var a := attempts[|attempts| - 1];
      a.at + (if Fetched(a) then 2 else 1)
  }

  /** Every attempt came out as the venue and the database said it would. */
  ghost predicate AgreesWithEnv(symbol: string, env: Env, num: Numerics, attempts: seq<Attempt>)
    requires WellFormedVenue(env)
  {
    forall j :: 0 <= j < |attempts| ==>
      attempts[j].outcome == Outcome(symbol, attempts[j].start, attempts[j].at, env, num)
  }

  /** The pages the inner loop upserted, in order. */
  function StoredPages(attempts: seq<Attempt>): seq<seq<Candlestick>>
    decreases |attempts|
  {
    if attempts == [] then []
    else
      var a := attempts[|attempts| - 1];
      StoredPages(attempts[..|attempts| - 1]) + (if a.outcome.Stored? then [a.outcome.page] else [])
  }

  /** The table after the pages are upserted in order. */
  function ApplyPages(rows: Table, pages: seq<seq<Candlestick>>): Table
    decreases |pages|
  {
    if pages == [] then rows
    else ApplyBatch(ApplyPages(rows, pages[..|pages| - 1]), pages[|pages| - 1])
  }

  /** How the backfill of one symbol ended. */
  datatype SymbolExit =
    | LookupFailed           // GetLastCandlestick failed: skip to the next symbol
    | CaughtUp               // an empty page: the symbol is up to date
    | Aborted(err: FetchError)  // a fetch failed: main returns
    | OutOfFuel              // the model's bound on fetches ran out

  /**
   * The log of the inner loop from cursor `resume`, clock `first` and table
   * `before` to table `after`: the attempts follow the cursor and clock
   * disciplines, each came out as the environment answered it, and exactly
   * the stored pages were upserted, in order.
   */
  ghost predicate Log(symbol: string, env: Env, num: Numerics, first: nat, resume: int,
                      before: Table, after: Table, attempts: seq<Attempt>)
  {
    && WellFormedVenue(env)
    && CursorChain(resume, attempts)
    && ClockChain(first, attempts)
    && AgreesWithEnv(symbol, env, num, attempts)
    && after == ApplyPages(before, StoredPages(attempts))
    && (forall j :: 0 <= j < |attempts| && attempts[j].outcome.Stored? ==>
          PageOfSymbol(attempts[j].outcome.page, symbol) && KeysOf(attempts[j].outcome.page) <= after.Keys)
  }

  /**
   * What the inner loop did from cursor `resume`, clock `first` and table
   * `before` to clock `clock'` and table `after`: its log, ending as `exit`
   * says.
   */
  ghost predicate PagesPass(symbol: string, env: Env, num: Numerics, first: nat, resume: int, clock': nat,
                            before: Table, after: Table, exit: SymbolExit, attempts: seq<Attempt>)
  {
    && Log(symbol, env, num, first, resume, before, after, attempts)
    && exit != LookupFailed
    && clock' == ClockAfter(first, attempts)
    && (exit == CaughtUp ==> attempts != [] && attempts[|attempts| - 1].outcome == EmptyPage)
    && (exit.Aborted? ==> attempts != [] && attempts[|attempts| - 1].outcome == FetchFailed(exit.err))
    && (exit == OutOfFuel ==> forall j :: 0 <= j < |attempts| ==> Fetched(attempts[j]))
  }

  /**
   * What one pass of the outer loop did, from clock `clock` and table
   * `before` to clock `clock'` and table `after`: the lookup at `clock`,
   * failing exactly when the database is down, then the inner loop from the
   * resume cursor of the looked-up bar.
   */
  ghost predicate SymbolPass(symbol: string, env: Env, num: Numerics, clock: nat, clock': nat,
                             before: Table, after: Table, exit: SymbolExit, attempts: seq<Attempt>)
  {
    && WellFormedVenue(env)
    && (exit == LookupFailed <==> !env.dbUp(clock))
    && (exit == LookupFailed ==> attempts == [] && after == before && clock' == clock + 1)
    && (exit != LookupFailed ==>
          PagesPass(symbol, env, num, clock + 1, Resume(LastCandlestick(before, symbol)), clock', before, after, exit, attempts))
  }

  /** The cursor the inner loop fetches from after `attempts`. */
  function Cursor(resume: int, attempts: seq<Attempt>): int
    requires attempts != [] ==> Fetched(attempts[|attempts| - 1])
  {
    if attempts == [] then resume else NextStart(attempts[|attempts| - 1])
  }

  /** The state the inner loop keeps between two fetches: its log, every attempt of which fetched a page. */
  ghost predicate Progress(symbol: string, env: Env, num: Numerics, first: nat, resume: int,
                           before: Table, rows: Table, attempts: seq<Attempt>)
  {
    && Log(symbol, env, num, first, resume, before, rows, attempts)
    && (forall j :: 0 <= j < |attempts| ==> Fetched(attempts[j]))
  }

  lemma StoredPagesSnoc(attempts: seq<Attempt>, a: Attempt)
    ensures StoredPages(attempts + [a]) == StoredPages(attempts) + (if a.outcome.Stored? then [a.outcome.page] else [])
  {
    assert (attempts + [a])[..|attempts|] == attempts;
  }

  lemma ApplyPagesSnoc(rows: Table, pages: seq<seq<Candlestick>>, page: seq<Candlestick>)
    ensures ApplyPages(rows, pages + [page]) == ApplyBatch(ApplyPages(rows, pages), page)
  {
    assert (pages + [page])[..|pages|] == pages;
  }

  lemma CursorChainSnoc(resume: int, attempts: seq<Attempt>, a: Attempt)
    requires CursorChain(resume, attempts)
    requires attempts != [] ==> Fetched(attempts[|attempts| - 1])
    requires a.start == Cursor(resume, attempts)
    ensures CursorChain(resume, attempts + [a])
  {
    assert forall j :: 0 <= j < |attempts| ==> (attempts + [a])[j] == attempts[j];
  }

  lemma ClockChainSnoc(first: nat, attempts: seq<Attempt>, a: Attempt)
    requires ClockChain(first, attempts)
    requires attempts != [] ==> Fetched(attempts[|attempts| - 1])
    requires a.at == ClockAfter(first, attempts)
    ensures ClockChain(first, attempts + [a])
  {
    assert forall j :: 0 <= j < |attempts| ==> (attempts + [a])[j] == attempts[j];
  }

  lemma AgreesSnoc(symbol: string, env: Env, num: Numerics, attempts: seq<Attempt>, a: Attempt)
    requires WellFormedVenue(env) && AgreesWithEnv(symbol, env, num, attempts)
    requires a.outcome == Outcome(symbol, a.start, a.at, env, num)
    ensures AgreesWithEnv(symbol, env, num, attempts + [a])
  {
    assert forall j :: 0 <= j < |attempts| ==> (attempts + [a])[j] == attempts[j];
  }

  /** The table and the stored pages after one more attempt. */
  lemma PagesSnoc(symbol: string, before: Table, rows: Table, attempts: seq<Attempt>, a: Attempt, rows': Table)
    requires rows == ApplyPages(before, StoredPages(attempts))
    requires forall j :: 0 <= j < |attempts| && attempts[j].outcome.Stored? ==>
      PageOfSymbol(attempts[j].outcome.page, symbol) && KeysOf(attempts[j].outcome.page) <= rows.Keys
    requires a.outcome.Stored? ==> PageOfSymbol(a.outcome.page, symbol)
    requires rows' == if a.outcome.Stored? then ApplyBatch(rows, a.outcome.page) else rows
    ensures rows' == ApplyPages(before, StoredPages(attempts + [a]))
    ensures forall j :: 0 <= j < |attempts + [a]| && (attempts + [a])[j].outcome.Stored? ==>
      PageOfSymbol((attempts + [a])[j].outcome.page, symbol) && KeysOf((attempts + [a])[j].outcome.page) <= rows'.Keys
  {
    var attempts' := attempts + [a];
    StoredPagesSnoc(attempts, a);
    if a.outcome.Stored? {
      assert StoredPages(attempts') == StoredPages(attempts) + [a.outcome.page];
      ApplyPagesSnoc(before, StoredPages(attempts), a.outcome.page);
    } else {
      assert StoredPages(attempts') == StoredPages(attempts);
    }
    assert forall j :: 0 <= j < |attempts| ==> attempts'[j] == attempts[j];
    assert rows.Keys <= rows'.Keys;
  }

  /** One more attempt, from the loop's cursor and clock and as the environment answered it, extends the log. */
  lemma LogSnoc(symbol: string, env: Env, num: Numerics, first: nat, resume: int,
                before: Table, rows: Table, attempts: seq<Attempt>, a: Attempt, rows': Table)
    requires Log(symbol, env, num, first, resume, before, rows, attempts)
    requires attempts != [] ==> Fetched(attempts[|attempts| - 1])
    requires a.start == Cursor(resume, attempts) && a.at == ClockAfter(first, attempts)
    requires AgreesWithEnv(symbol, env, num, attempts + [a])
    requires a.outcome.Stored? ==> PageOfSymbol(a.outcome.page, symbol)
    requires rows' == if a.outcome.Stored? then ApplyBatch(rows, a.outcome.page) else rows
    ensures Log(symbol, env, num, first, resume, before, rows', attempts + [a])
  {
    CursorChainSnoc(resume, attempts, a);
    ClockChainSnoc(first, attempts, a);
    PagesSnoc(symbol, before, rows, attempts, a, rows');
  }

  /** A fetched page, upserted or not, keeps the loop's state. */
  lemma StepFetched(symbol: string, env: Env, num: Numerics, first: nat, resume: int,
                    before: Table, rows: Table, attempts: seq<Attempt>, a: Attempt, rows': Table)
    requires Progress(symbol, env, num, first, resume, before, rows, attempts)
    requires a.start == Cursor(resume, attempts) && a.at == ClockAfter(first, attempts)
    requires AgreesWithEnv(symbol, env, num, attempts + [a]) && Fetched(a)
    requires PageOfSymbol(a.outcome.page, symbol)
    requires rows' == if a.outcome.Stored? then ApplyBatch(rows, a.outcome.page) else rows
    ensures Progress(symbol, env, num, first, resume, before, rows', attempts + [a])
  {
    LogSnoc(symbol, env, num, first, resume, before, rows, attempts, a, rows');
    assert forall j :: 0 <= j < |attempts| ==> (attempts + [a])[j] == attempts[j];
  }

  /** The loop ends on an attempt that fetched nothing it could upsert. */
  lemma StepLast(symbol: string, env: Env, num: Numerics, first: nat, resume: int,
                 before: Table, rows: Table, attempts: seq<Attempt>, a: Attempt, exit: SymbolExit)
    requires Progress(symbol, env, num, first, resume, before, rows, attempts)
    requires a.start == Cursor(resume, attempts) && a.at == ClockAfter(first, attempts)
    requires AgreesWithEnv(symbol, env, num, attempts + [a])
    requires (a.outcome == EmptyPage && exit == CaughtUp) || (a.outcome.FetchFailed? && exit == Aborted(a.outcome.err))
    ensures PagesPass(symbol, env, num, first, resume, a.at + 1, before, rows, exit, attempts + [a])
  {
    LogSnoc(symbol, env, num, first, resume, before, rows, attempts, a, rows);
    var attempts' := attempts + [a];
    assert attempts'[|attempts'| - 1] == a && !Fetched(a);
  }

  /** Running out of fuel between two fetches ends the pass in the loop's state. */
  lemma OutOfFuelPass(symbol: string, env: Env, num: Numerics, first: nat, resume: int,
                      before: Table, rows: Table, attempts: seq<Attempt>)
    requires Progress(symbol, env, num, first, resume, before, rows, attempts)
    ensures PagesPass(symbol, env, num, first, resume, ClockAfter(first, attempts), before, rows, OutOfFuel, attempts)
  {
  }

  /** What FetchCandlestick1m returned at clock `at` is the answer Outcome is built from. */
  lemma FetchOutcome(symbol: string, start: int, at: nat, env: Env, num: Numerics,
                     fetched: Result<seq<Candlestick>, FetchError>, up: bool)
    requires WellFormedVenue(env)
    requires Answer(env.venue(at), symbol, start).Failure? ==> fetched == Failure(Answer(env.venue(at), symbol, start).error)
    requires Answer(env.venue(at), symbol, start).Success? ==>
      fetched == Success(Page(symbol, Answer(env.venue(at), symbol, start).value, num))
    requires up == env.dbUp(at + 1)
    ensures fetched.Failure? ==> Outcome(symbol, start, at, env, num) == FetchFailed(fetched.error)
    ensures fetched.Success? && fetched.value == [] ==> Outcome(symbol, start, at, env, num) == EmptyPage
    ensures fetched.Success? && fetched.value != [] ==>
      && PageOfSymbol(fetched.value, symbol)
      && Outcome(symbol, start, at, env, num)
         == if up && DistinctKeys(fetched.value) then Stored(fetched.value) else NotStored(fetched.value)
  {
  }

  /**
   * One turn of the inner loop: fetch a page from `start` (clock `at`) and,
   * when it is not empty, upsert it (clock `at + 1`).
   */
  method FetchPage(store: Store, symbol: string, start: int, env: Env, num: Numerics, at: nat)
    returns (outcome: PageOutcome)
    requires WellFormedVenue(env)
    modifies store`rows
    ensures outcome == Outcome(symbol, start, at, env, num)
    ensures outcome.Stored? || outcome.NotStored? ==> outcome.page != [] && PageOfSymbol(outcome.page, symbol)
    ensures store.rows == if outcome.Stored? then ApplyBatch(old(store.rows), outcome.page) else old(store.rows)
  {
    var fetched := FetchCandlestick1m(symbol, start, env.venue(at), num);
    FetchOutcome(symbol, start, at, env, num, fetched, env.dbUp(at + 1));
    if fetched.Failure? {
      return FetchFailed(fetched.error);
    }
    var page := fetched.value;
    if |page| == 0 {
      return EmptyPage;
    }
    var err := store.UpsertCandlestick(page, env.dbUp(at + 1));
    outcome := if err.None? then Stored(page) else NotStored(page);
  }

  /**
   * One turn of the inner loop from the loop's cursor and clock: the fetch
   * and upsert of FetchPage, with the attempt it adds to the loop's log.
   */
  method Turn(store: Store, symbol: string, env: Env, num: Numerics, first: nat, resume: int,
              ghost before: Table, ghost attempts: seq<Attempt>, start: int, at: nat)
    returns (outcome: PageOutcome, ghost a: Attempt)
    requires Progress(symbol, env, num, first, resume, before, store.rows, attempts)
    requires start == Cursor(resume, attempts) && at == ClockAfter(first, attempts)
    modifies store`rows
    ensures a == Attempt(start, at, outcome)
    ensures Fetched(a) || outcome == EmptyPage || outcome.FetchFailed?
    ensures Fetched(a) ==> Progress(symbol, env, num, first, resume, before, store.rows, attempts + [a])
    ensures Fetched(a) ==> ClockAfter(first, attempts + [a]) == at + 2
    ensures Fetched(a) ==>
      Cursor(resume, attempts + [a]) == if outcome.Stored? then outcome.page[|outcome.page| - 1].time + 1 else start
    ensures outcome == EmptyPage ==> PagesPass(symbol, env, num, first, resume, at + 1, before, store.rows, CaughtUp, attempts + [a])
    ensures outcome.FetchFailed? ==>
      PagesPass(symbol, env, num, first, resume, at + 1, before, store.rows, Aborted(outcome.err), attempts + [a])
  {
    ghost var rows := store.rows;
    outcome := FetchPage(store, symbol, start, env, num, at);
    a := Attempt(start, at, outcome);
    AgreesSnoc(symbol, env, num, attempts, a);
    if outcome == EmptyPage {
      StepLast(symbol, env, num, first, resume, before, store.rows, attempts, a, CaughtUp);
    } else if outcome.FetchFailed? {
      StepLast(symbol, env, num, first, resume, before, store.rows, attempts, a, Aborted(outcome.err));
    } else {
      StepFetched(symbol, env, num, first, resume, before, rows, attempts, a, store.rows);
    }
  }

  /**
   * The inner loop of the backfill of `symbol`, from cursor `resume` and
   * clock `first`: fetch and upsert pages until an empty page or a fetch
   * error, retrying a page whose upsert failed from the same cursor.
   */
  method FetchPages(store: Store, symbol: string, env: Env, num: Numerics, first: nat, resume: int, fuel: nat)
    returns (exit: SymbolExit, clock': nat, fuel': nat, ghost attempts: seq<Attempt>)
    requires WellFormedVenue(env)
    modifies store`rows
    ensures PagesPass(symbol, env, num, first, resume, clock', old(store.rows), store.rows, exit, attempts)
    ensures fuel' + |attempts| == fuel
    ensures exit == OutOfFuel ==> fuel' == 0
  {
    attempts := [];
    clock', fuel' := first, fuel;
    var start := resume;
    while true
      invariant fuel' + |attempts| == fuel
      invariant Progress(symbol, env, num, first, resume, old(store.rows), store.rows, attempts)
      invariant start == Cursor(resume, attempts)
      invariant clock' == ClockAfter(first, attempts)
      decreases fuel'
    {
      if fuel' == 0 {
        OutOfFuelPass(symbol, env, num, first, resume, old(store.rows), store.rows, attempts);
        exit := OutOfFuel;
        break;
      }
      fuel' := fuel' - 1;
      var outcome, a := Turn(store, symbol, env, num, first, resume, old(store.rows), attempts, start, clock');
      attempts := attempts + [a];
      if outcome == EmptyPage || outcome.FetchFailed? {
        exit := if outcome == EmptyPage then CaughtUp else Aborted(outcome.err);
        clock' := clock' + 1;
        break;
      }
      clock' := clock' + 2;
      if outcome.Stored? {
        start := outcome.page[|outcome.page| - 1].time + 1;
      }
    }
  }

  /**
   * The per-symbol body of the backfill loop: look up the last stored bar
   * (a failed lookup skips the symbol), then run the inner loop from one
   * millisecond past it, or from epoch 0.
   */
  method BackfillSymbol(store: Store, symbol: string, env: Env, num: Numerics, clock: nat, fuel: nat)
    returns (exit: SymbolExit, clock': nat, fuel': nat, ghost attempts: seq<Attempt>)
    requires WellFormedVenue(env)
    modifies store`rows
    ensures SymbolPass(symbol, env, num, clock, clock', old(store.rows), store.rows, exit, attempts)
    ensures fuel' + |attempts| == fuel
    ensures exit == OutOfFuel ==> fuel' == 0
  {
    var last := GetLastCandlestick(store.rows, symbol, env.dbUp(clock));
    if last.Failure? {
      return LookupFailed, clock + 1, fuel, [];
    }
    var start := Resume(last.value);
    exit, clock', fuel', attempts := FetchPages(store, symbol, env, num, clock + 1, start, fuel);
  }

  // ---------------------------------------------------------------------
  // Properties of a pass

  /** The first cursor lies past every bar already stored for the symbol, and is 0 for a new symbol. */
  lemma ResumeIsPastStoredBars(rows: Table, symbol: string)
    ensures forall k :: k in rows && k.symbol == symbol ==> k.time < Resume(LastCandlestick(rows, symbol))
    ensures (forall k :: k in rows ==> k.symbol != symbol) ==> Resume(LastCandlestick(rows, symbol)) == 0
  {
  }

  /**
   * A pass ends the way the venue's last answer says: caught up on an empty
   * answer, aborted on the venue's error; and every page it fetched before
   * was a non-empty answer.
   */
  lemma ExitMatchesVenue(symbol: string, env: Env, num: Numerics, clock: nat, clock': nat,
                         before: Table, after: Table, exit: SymbolExit, attempts: seq<Attempt>, j: nat)
    requires SymbolPass(symbol, env, num, clock, clock', before, after, exit, attempts)
    requires j < |attempts|
    ensures var a := attempts[j];
      var answer := Answer(env.venue(a.at), symbol, a.start);
      && (a.outcome == EmptyPage <==> answer == Success([]))
      && (a.outcome.FetchFailed? <==> answer.Failure?)
      && (answer.Failure? ==> a.outcome == FetchFailed(answer.error))
      && (Fetched(a) <==> answer.Success? && answer.value != [])
      && (Fetched(a) ==> a.outcome.page == Page(symbol, answer.value, num))
      && (a.outcome.Stored? <==> Fetched(a) && env.dbUp(a.at + 1) && DistinctKeys(a.outcome.page))
  {
    var a := attempts[j];
    assert a.outcome == Outcome(symbol, a.start, a.at, env, num);
    OutcomeMatchesVenue(symbol, env, num, a);
  }

  /** One attempt whose outcome is the one the environment dictates answers as the venue did. */
  lemma OutcomeMatchesVenue(symbol: string, env: Env, num: Numerics, a: Attempt)
    requires WellFormedVenue(env)
    requires a.outcome == Outcome(symbol, a.start, a.at, env, num)
    ensures var answer := Answer(env.venue(a.at), symbol, a.start);
      && (a.outcome == EmptyPage <==> answer == Success([]))
      && (a.outcome.FetchFailed? <==> answer.Failure?)
      && (answer.Failure? ==> a.outcome == FetchFailed(answer.error))
      && (Fetched(a) <==> answer.Success? && answer.value != [])
      && (Fetched(a) ==> a.outcome.page == Page(symbol, answer.value, num))
      && (a.outcome.Stored? <==> Fetched(a) && env.dbUp(a.at + 1) && DistinctKeys(a.outcome.page))
  {
  }

  /** The venue answers a klines request only with bars that open at or after `startTime`. */
  ghost predicate PagesFromStart(attempts: seq<Attempt>)
  {
    forall j, i :: 0 <= j < |attempts| && attempts[j].outcome.Stored? && 0 <= i < |attempts[j].outcome.page| ==>
      attempts[j].outcome.page[i].time >= attempts[j].start
  }

  /**
   * The cursor never moves back, and it moves strictly forward past every
   * stored page, provided the venue only returns bars from the cursor on.
   */
  lemma {:induction false} CursorMonotone(resume: int, attempts: seq<Attempt>, i: nat, j: nat)
    requires CursorChain(resume, attempts) && PagesFromStart(attempts)
    requires i <= j < |attempts|
    ensures attempts[i].start <= attempts[j].start
    ensures i < j && attempts[i].outcome.Stored? ==> attempts[i].start < attempts[j].start
    decreases j - i
  {
    if i < j {
      CursorMonotone(resume, attempts, i + 1, j);
      var a := attempts[i];
      assert Fetched(a) && attempts[i + 1].start == NextStart(a);
      if a.outcome.Stored? {
        var page := a.outcome.page;
        assert page[|page| - 1].time >= a.start;
      }
    }
  }

  /** In a log, the bar just before the cursor that follows a stored page is in the table. */
  lemma PersistedInLog(symbol: string, resume: int, after: Table, attempts: seq<Attempt>, j: nat)
    requires CursorChain(resume, attempts)
    requires forall j :: 0 <= j < |attempts| && attempts[j].outcome.Stored? ==>
      PageOfSymbol(attempts[j].outcome.page, symbol) && KeysOf(attempts[j].outcome.page) <= after.Keys
    requires 0 < j < |attempts|
    ensures attempts[j - 1].outcome.Stored? || attempts[j - 1].outcome.NotStored?
    ensures attempts[j - 1].outcome.NotStored? ==> attempts[j].start == attempts[j - 1].start
    ensures attempts[j - 1].outcome.Stored? ==> Key(attempts[j].start - 1, symbol) in after
  {
    var a := attempts[j - 1];
    assert Fetched(a) && attempts[j].start == NextStart(a);
    if a.outcome.Stored? {
      var page := a.outcome.page;
      var last := page[|page| - 1];
      assert KeyOf(last) in KeysOf(page);
      assert KeyOf(last) == Key(attempts[j].start - 1, symbol);
    }
  }

  /**
   * Never past an unpersisted page: after a failed upsert the next fetch
   * starts from the same cursor; after a successful one the bar just before
   * the new cursor is in the table.
   */
  lemma PersistedBeforeCursor(symbol: string, env: Env, num: Numerics, clock: nat, clock': nat,
                              before: Table, after: Table, exit: SymbolExit, attempts: seq<Attempt>, j: nat)
    requires SymbolPass(symbol, env, num, clock, clock', before, after, exit, attempts) && exit != LookupFailed
    requires 0 < j < |attempts|
    ensures attempts[j - 1].outcome.Stored? || attempts[j - 1].outcome.NotStored?
    ensures attempts[j - 1].outcome.NotStored? ==> attempts[j].start == attempts[j - 1].start
    ensures attempts[j - 1].outcome.Stored? ==> Key(attempts[j].start - 1, symbol) in after
  {
    PersistedInLog(symbol, Resume(LastCandlestick(before, symbol)), after, attempts, j);
  }

  /** Whatever ends a pass, every bar of every page it stored is in the table. */
  lemma StoredPagesArePersisted(symbol: string, env: Env, num: Numerics, clock: nat, clock': nat,
                                before: Table, after: Table, exit: SymbolExit, attempts: seq<Attempt>, j: nat, i: nat)
    requires SymbolPass(symbol, env, num, clock, clock', before, after, exit, attempts)
    requires j < |attempts| && attempts[j].outcome.Stored? && i < |attempts[j].outcome.page|
    ensures Key(attempts[j].outcome.page[i].time, symbol) in after
  {
    var page := attempts[j].outcome.page;
    assert KeyOf(page[i]) in KeysOf(page);
  }

  /**
   * The venue serves a series of bar times for the symbol: an empty answer
   * only once no bar of the series lies at or after the cursor, and a page
   * that holds every bar of the series from the cursor up to its last bar.
   */
  ghost predicate ServesSeries(series: set<int>, symbol: string, attempts: seq<Attempt>)
  {
    forall j :: 0 <= j < |attempts| ==>
      && (attempts[j].outcome == EmptyPage ==> forall t :: t in series ==> t < attempts[j].start)
      && (Fetched(attempts[j]) ==>
            var page := attempts[j].outcome.page;
            forall t :: t in series && attempts[j].start <= t <= page[|page| - 1].time ==> Key(t, symbol) in KeysOf(page))
  }

  /** Every bar of the series from the first cursor up to the cursor of attempt `k` is in the table. */
  lemma {:induction false} GapFreeUpTo(symbol: string, resume: int, after: Table, attempts: seq<Attempt>,
                                       series: set<int>, k: nat)
    requires CursorChain(resume, attempts) && ServesSeries(series, symbol, attempts)
    requires forall j :: 0 <= j < |attempts| && attempts[j].outcome.Stored? ==>
      PageOfSymbol(attempts[j].outcome.page, symbol) && KeysOf(attempts[j].outcome.page) <= after.Keys
    requires k < |attempts|
    ensures forall t :: t in series && resume <= t < attempts[k].start ==> Key(t, symbol) in after
    decreases k
  {
    if k > 0 {
      GapFreeUpTo(symbol, resume, after, attempts, series, k - 1);
      var a := attempts[k - 1];
      assert Fetched(a) && attempts[k].start == NextStart(a);
      if a.outcome.Stored? {
        var page := a.outcome.page;
        forall t | t in series && a.start <= t < attempts[k].start
          ensures Key(t, symbol) in after
        {
          assert Key(t, symbol) in KeysOf(page);
        }
      }
    }
  }

  /**
   * Gap-free backfill: when a pass catches up on a venue that serves a
   * series, every bar of the series from the first cursor on is in the
   * table.
   */
  lemma CaughtUpIsGapFree(symbol: string, env: Env, num: Numerics, clock: nat, clock': nat,
                          before: Table, after: Table, exit: SymbolExit, attempts: seq<Attempt>, series: set<int>)
    requires SymbolPass(symbol, env, num, clock, clock', before, after, exit, attempts) && exit == CaughtUp
    requires ServesSeries(series, symbol, attempts)
    ensures forall t :: t in series && t >= Resume(LastCandlestick(before, symbol)) ==> Key(t, symbol) in after
  {
    var last := |attempts| - 1;
    GapFreeUpTo(symbol, Resume(LastCandlestick(before, symbol)), after, attempts, series, last);
    assert attempts[last].outcome == EmptyPage;
  }

  /**
   * The live path moves the backfill's starting point: a final kline the
   * callback stores before its symbol's lookup, later than every stored bar
   * of that symbol, becomes the symbol's last bar, so the cursor starts
   * just past it.
   */
  lemma LiveBarMovesResume(rows: Table, k: WsKline, parse: string -> Option<Float64>, dbUp: nat -> bool, clock: nat)
    requires k.isFinal && dbUp(clock)
    requires forall key :: key in rows && key.symbol == k.symbol ==> key.time < k.startTime
    ensures Resume(LastCandlestick(LiveWrites(rows, [k], parse, dbUp, clock), k.symbol)) == k.startTime + 1
  {
    var stick := KlineToCandlestick(k, parse);
    assert [k][1..] == [];
    assert LiveWrites(ApplyBatch(rows, [stick]), [], parse, dbUp, clock + 1) == ApplyBatch(rows, [stick]);
    var after := LiveWrites(rows, [k], parse, dbUp, clock);
    assert after == ApplyBatch(rows, [stick]);
    assert KeysOf([stick]) == {Key(k.startTime, k.symbol)} by {
      assert KeyOf([stick][0]) == Key(k.startTime, k.symbol);
    }
    assert Key(k.startTime, k.symbol) in after;
  }

  /**
   * Hence, when the venue answers only with bars from the cursor on, no fetch
   * of that symbol's pass starts at or before the live bar: the bars between
   * the symbol's previous last bar and the live one are never fetched.
   */
  lemma LiveBarSkipsGap(rows: Table, k: WsKline, parse: string -> Option<Float64>, dbUp: nat -> bool, clock: nat,
                        env: Env, num: Numerics, c: nat, c': nat, after: Table, exit: SymbolExit, attempts: seq<Attempt>)
    requires k.isFinal && dbUp(clock)
    requires forall key :: key in rows && key.symbol == k.symbol ==> key.time < k.startTime
    requires SymbolPass(k.symbol, env, num, c, c', LiveWrites(rows, [k], parse, dbUp, clock), after, exit, attempts)
    requires PagesFromStart(attempts)
    ensures forall j :: 0 <= j < |attempts| ==> attempts[j].start > k.startTime
  {
    LiveBarMovesResume(rows, k, parse, dbUp, clock);
    forall j | 0 <= j < |attempts|
      ensures attempts[j].start > k.startTime
    {
      CursorMonotone(k.startTime + 1, attempts, 0, j);
    }
  }

  // ---------------------------------------------------------------------
  // The backfill of all symbols

  /** A symbol's pass after which the outer loop goes on to the next symbol. */
  predicate Continues(e: SymbolExit)
  {
    e == LookupFailed || e == CaughtUp
  }

  /** How the whole backfill ended. */
  datatype BackfillExit =
    | Completed                              // every symbol was processed
    | FetchAborted(index: nat, err: FetchError)  // main returned on a fetch error of symbols[index]
    | Exhausted(index: nat)                  // the model's bound on fetches ran out at symbols[index]

  /**
   * The outer loop from clock `clock`, fuel `fuel` and table `before`: one
   * pass per symbol in order, each starting at the clock, fuel and table the
   * previous one left; it stops after the first pass that does not continue.
   */
  ghost predicate BackfillRun(symbols: seq<Symbol>, env: Env, num: Numerics, clock: nat, fuel: nat,
                              before: Table, after: Table, exit: BackfillExit, exits: seq<SymbolExit>,
                              passes: seq<seq<Attempt>>, tables: seq<Table>, clocks: seq<nat>, fuels: seq<nat>)
  {
    && Passes(symbols, env, num, exits, passes, tables, clocks)
    && FuelChain(exits, passes, fuels)
    && tables[0] == before && tables[|exits|] == after && clocks[0] == clock && fuels[0] == fuel
    && (forall i :: 0 <= i < |exits| - 1 ==> Continues(exits[i]))
    && (exit == Completed <==> |exits| == |symbols| && forall i :: 0 <= i < |exits| ==> Continues(exits[i]))
    && (exit.FetchAborted? ==> exit.index == |exits| - 1 && exits[exit.index] == Aborted(exit.err))
    && (exit.Exhausted? ==> exit.index == |exits| - 1 && exits[exit.index] == OutOfFuel)
  }

  /**
   * The passes over the first |exits| symbols, each starting at the clock
   * and table the one before it left.
   */
  ghost predicate Passes(symbols: seq<Symbol>, env: Env, num: Numerics, exits: seq<SymbolExit>,
                         passes: seq<seq<Attempt>>, tables: seq<Table>, clocks: seq<nat>)
  {
    && |exits| <= |symbols| && |passes| == |exits| && |tables| == |exits| + 1 && |clocks| == |exits| + 1
    && forall i :: 0 <= i < |exits| ==>
         SymbolPass(symbols[i].symbol, env, num, clocks[i], clocks[i + 1], tables[i], tables[i + 1], exits[i], passes[i])
  }

  /**
   * The fuel before each pass: each pass spends one unit per fetch, and a
   * pass ends out of fuel only when none is left.
   */
  ghost predicate FuelChain(exits: seq<SymbolExit>, passes: seq<seq<Attempt>>, fuels: seq<nat>)
  {
    && |passes| == |exits| && |fuels| == |exits| + 1
    && forall i :: 0 <= i < |exits| ==>
         fuels[i] == fuels[i + 1] + |passes[i]| && (exits[i] == OutOfFuel ==> fuels[i + 1] == 0)
  }

  lemma FuelChainSnoc(exits: seq<SymbolExit>, passes: seq<seq<Attempt>>, fuels: seq<nat>,
                      e: SymbolExit, att: seq<Attempt>, f: nat)
    requires FuelChain(exits, passes, fuels)
    requires fuels[|exits|] == f + |att| && (e == OutOfFuel ==> f == 0)
    ensures FuelChain(exits + [e], passes + [att], fuels + [f])
  {
    assert forall i :: 0 <= i < |exits| ==>
      (exits + [e])[i] == exits[i] && (passes + [att])[i] == passes[i] && (fuels + [f])[i] == fuels[i];
    assert (fuels + [f])[|exits|] == fuels[|exits|];
  }

  /** The number of fetches of the passes, together. */
  function TotalAttempts(passes: seq<seq<Attempt>>): nat
    decreases |passes|
  {
    if passes == [] then 0 else TotalAttempts(passes[..|passes| - 1]) + |passes[|passes| - 1]|
  }

  lemma {:induction false} FuelSpent(exits: seq<SymbolExit>, passes: seq<seq<Attempt>>, fuels: seq<nat>, k: nat)
    requires FuelChain(exits, passes, fuels) && k <= |exits|
    ensures fuels[0] == TotalAttempts(passes[..k]) + fuels[k]
    decreases k
  {
    if k > 0 {
      FuelSpent(exits, passes, fuels, k - 1);
      assert passes[..k][..k - 1] == passes[..k - 1];
    }
  }

  /**
   * The backfill fetches at most `fuel` pages, and it ends out of fuel only
   * after fetching exactly `fuel` pages.
   */
  lemma BackfillSpendsFuel(symbols: seq<Symbol>, env: Env, num: Numerics, clock: nat, fuel: nat,
                           before: Table, after: Table, exit: BackfillExit, exits: seq<SymbolExit>,
                           passes: seq<seq<Attempt>>, tables: seq<Table>, clocks: seq<nat>, fuels: seq<nat>)
    requires BackfillRun(symbols, env, num, clock, fuel, before, after, exit, exits, passes, tables, clocks, fuels)
    ensures TotalAttempts(passes) <= fuel
    ensures exit.Exhausted? ==> TotalAttempts(passes) == fuel
  {
    FuelSpent(exits, passes, fuels, |exits|);
    assert passes[..|exits|] == passes;
  }

  /** One more pass, starting where the passes before it left off, extends the run. */
  lemma PassesSnoc(symbols: seq<Symbol>, env: Env, num: Numerics, exits: seq<SymbolExit>, passes: seq<seq<Attempt>>,
                   tables: seq<Table>, clocks: seq<nat>, e: SymbolExit, att: seq<Attempt>, t: Table, c: nat)
    requires Passes(symbols, env, num, exits, passes, tables, clocks) && |exits| < |symbols|
    requires SymbolPass(symbols[|exits|].symbol, env, num, clocks[|exits|], c, tables[|exits|], t, e, att)
    ensures Passes(symbols, env, num, exits + [e], passes + [att], tables + [t], clocks + [c])
  {
    forall j | 0 <= j < |exits| + 1
      ensures SymbolPass(symbols[j].symbol, env, num, (clocks + [c])[j], (clocks + [c])[j + 1],
                         (tables + [t])[j], (tables + [t])[j + 1], (exits + [e])[j], (passes + [att])[j])
    {
      if j < |exits| {
        assert (clocks + [c])[j] == clocks[j] && (clocks + [c])[j + 1] == clocks[j + 1];
        assert (tables + [t])[j] == tables[j] && (tables + [t])[j + 1] == tables[j + 1];
        assert (exits + [e])[j] == exits[j] && (passes + [att])[j] == passes[j];
      }
    }
  }

  /** The pass over `symbols[|exits|]`, from the clock and table the passes before it left. */
  method NextPass(store: Store, symbols: seq<Symbol>, env: Env, num: Numerics, clock: nat, fuel: nat,
                  exits: seq<SymbolExit>, ghost passes: seq<seq<Attempt>>, ghost tables: seq<Table>,
                  ghost clocks: seq<nat>, ghost fuels: seq<nat>)
    returns (exit: SymbolExit, clock': nat, fuel': nat, ghost attempts: seq<Attempt>)
    requires WellFormedVenue(env)
    requires Passes(symbols, env, num, exits, passes, tables, clocks) && |exits| < |symbols|
    requires FuelChain(exits, passes, fuels) && fuels[|exits|] == fuel
    requires tables[|exits|] == store.rows && clocks[|exits|] == clock
    modifies store`rows
    ensures Passes(symbols, env, num, exits + [exit], passes + [attempts], tables + [store.rows], clocks + [clock'])
    ensures FuelChain(exits + [exit], passes + [attempts], fuels + [fuel'])
  {
    exit, clock', fuel', attempts := BackfillSymbol(store, symbols[|exits|].symbol, env, num, clock, fuel);
    PassesSnoc(symbols, env, num, exits, passes, tables, clocks, exit, attempts, store.rows, clock');
    FuelChainSnoc(exits, passes, fuels, exit, attempts, fuel');
  }

  /**
   * The outer loop of the backfill: the symbols in registry order, each
   * with its own pass; a failed lookup moves on, a fetch error stops
   * everything.
   */
  method Backfill(store: Store, symbols: seq<Symbol>, env: Env, num: Numerics, clock: nat, fuel: nat)
    returns (exit: BackfillExit, exits: seq<SymbolExit>, clock': nat, fuel': nat,
             ghost passes: seq<seq<Attempt>>, ghost tables: seq<Table>, ghost clocks: seq<nat>, ghost fuels: seq<nat>)
    requires WellFormedVenue(env)
    modifies store`rows
    ensures BackfillRun(symbols, env, num, clock, fuel, old(store.rows), store.rows, exit, exits, passes, tables, clocks, fuels)
    ensures clock' == clocks[|exits|] && fuel' == fuels[|exits|]
  {
    exits, passes, tables, clocks, fuels := [], [], [store.rows], [clock], [fuel];
    clock', fuel' := clock, fuel;
    exit := Completed;
    var i := 0;
    while i < |symbols|
      invariant i <= |symbols|
      invariant |exits| == i && Passes(symbols, env, num, exits, passes, tables, clocks)
      invariant tables[0] == old(store.rows) && tables[i] == store.rows
      invariant clocks[0] == clock && clocks[i] == clock'
      invariant FuelChain(exits, passes, fuels) && fuels[0] == fuel && fuels[i] == fuel'
      invariant forall j :: 0 <= j < i ==> Continues(exits[j])
      invariant exit == Completed
    {
      var e, c, f, att := NextPass(store, symbols, env, num, clock', fuel', exits, passes, tables, clocks, fuels);
      exits, passes, tables, clocks, fuels := exits + [e], passes + [att], tables + [store.rows], clocks + [c], fuels + [f];
      clock', fuel' := c, f;
      if !Continues(e) {
        exit := if e.Aborted? then FetchAborted(i, e.err) else Exhausted(i);
        break;
      }
      i := i + 1;
    }
  }

  // ---------------------------------------------------------------------
  // Startup

  /** How main ends: a panic at one of its three checked steps, or after the backfill. */
  datatype RunOutcome =
    | ConnectPanic(streamErr: StreamError)
    | RegistryPanic(dbErr: DbError)
    | SubscribePanic(streamErr: StreamError)
    | Backfilled(exit: BackfillExit, exits: seq<SymbolExit>)

  /** The tickers of the registry rows, in order. */
  ghost function Tickers(symbols: seq<Symbol>): seq<string>
  {
    seq(|symbols|, i requires 0 <= i < |symbols| => symbols[i].symbol)
  }

  lemma NothingActive()
    ensures forall order :: Enumerates(order, Active(map[])) ==> order == []
  {
    var none: map<string, bool> := map[];
    assert Active(none) == {};
    forall order ensures Enumerates(order, Active(none)) ==> order == [] {
      if order != [] {
        assert order[0] in order;
      }
    }
  }

  /**
   * main: connect (dial, then resubscribe to nothing), read the enabled
   * symbols, subscribe to their klines, then backfill them in order.  The
   * first external calls happen at clock 0 (dial), 1 (resubscribe), 2 (the
   * registry query) and 3 (the subscription); the backfill starts at 4.
   */
  method Run(store: Store, env: Env, num: Numerics, fuel: nat)
    returns (client: SpotBinance, outcome: RunOutcome,
             ghost passes: seq<seq<Attempt>>, ghost tables: seq<Table>, ghost clocks: seq<nat>, ghost fuels: seq<nat>)
    requires WellFormedVenue(env)
    modifies store`rows
    ensures fresh(client)
    ensures !env.wsUp(0) ==> outcome == ConnectPanic(DialError) && client.conn == 0 && client.sent == []
    ensures env.wsUp(0) && !env.wsUp(1) ==> outcome == ConnectPanic(WriteError) && client.conn == 1 && client.sent == []
    ensures env.wsUp(0) && env.wsUp(1) ==> client.conn == 1 && |client.sent| >= 1 && client.sent[0] == Sent(1, SubscribeMessage([]))
    ensures env.wsUp(0) && env.wsUp(1) && !env.dbUp(2) ==> outcome == RegistryPanic(StorageError) && |client.sent| == 1
    ensures env.wsUp(0) && env.wsUp(1) && env.dbUp(2) ==>
      var names := Tickers(EnabledOnly(store.registry));
      && (forall n :: n in names ==> n in client.subscribed && client.subscribed[n])
      && client.subscribed == MarkSubscribed(map[], names)
      && (!env.wsUp(3) ==> outcome == SubscribePanic(WriteError) && |client.sent| == 1)
      && (env.wsUp(3) ==> outcome.Backfilled? && client.sent == [Sent(1, SubscribeMessage([])), Sent(1, SubscribeMessage(names))])
    ensures !(env.wsUp(0) && env.wsUp(1) && env.dbUp(2)) ==> client.subscribed == map[]
    ensures !outcome.Backfilled? ==> store.rows == old(store.rows)
    ensures outcome.Backfilled? ==>
      BackfillRun(EnabledOnly(store.registry), env, num, 4, fuel, old(store.rows), store.rows,
                  outcome.exit, outcome.exits, passes, tables, clocks, fuels)
  {
    passes, tables, clocks, fuels := [], [store.rows], [0], [fuel];
    client := new SpotBinance();
    var err, order := client.ConnectStream(env.wsUp(0), env.wsUp(1));
    NothingActive();
    if err.Some? {
      outcome := ConnectPanic(err.value);
    } else {
      var symbols := GetEnabledSymbols(store.registry, env.dbUp(2));
      if symbols.Failure? {
        outcome := RegistryPanic(symbols.error);
      } else {
        var names := EnableSymbols(symbols.value);
        assert names == Tickers(symbols.value);
        err := client.SubscribeCandlestick1m(names, env.wsUp(3));
        if err.Some? {
          outcome := SubscribePanic(err.value);
        } else {
          var exit, exits, clock, fuel';
          exit, exits, clock, fuel', passes, tables, clocks, fuels := Backfill(store, symbols.value, env, num, 4, fuel);
          outcome := Backfilled(exit, exits);
        }
      }
    }
  }
}
