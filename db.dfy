/**
 * The repository (db.go): the `candlestick` table keyed by (time, symbol)
 * with its ON CONFLICT upsert, the "last candlestick" query and the
 * registry of enabled symbols.
 *
 * The SQL engine is not modelled.  The table is a map from key to OHLCV
 * values; whether the database is reachable when a statement runs is an
 * argument (`up`) of the operation.
 */
module Db {
  import opened Wrappers
  import opened Model

  /** The primary key of the `candlestick` table. */
  datatype Key = Key(time: int, symbol: string)

  /** The non-key columns of the `candlestick` table. */
  datatype Ohlcv = Ohlcv(open: Float64, high: Float64, low: Float64, close: Float64, volume: Float64)

  type Table = map<Key, Ohlcv>

  function KeyOf(c: Candlestick): Key
  {
    Key(c.time, c.symbol)
  }

  function ValuesOf(c: Candlestick): Ohlcv
  {
    Ohlcv(c.open, c.high, c.low, c.close, c.volume)
  }

  /** The candlestick a table row stands for. */
  function RowAt(k: Key, v: Ohlcv): (c: Candlestick)
    ensures KeyOf(c) == k && ValuesOf(c) == v
  {
    Candlestick(k.time, k.symbol, v.open, v.high, v.low, v.close, v.volume)
  }

  function KeysOf(batch: seq<Candlestick>): set<Key>
  {
    set i | 0 <= i < |batch| :: KeyOf(batch[i])
  }

  /** No two candlesticks of the batch share a key. */
  predicate DistinctKeys(batch: seq<Candlestick>)
  {
    forall i, j :: 0 <= i < j < |batch| ==> KeyOf(batch[i]) != KeyOf(batch[j])
  }

  /**
   * The table after the rows of `batch` are inserted in order, each one
   * replacing the OHLCV values of a row already at its key.
   */
  function ApplyBatch(rows: Table, batch: seq<Candlestick>): (r: Table)
    ensures r.Keys == rows.Keys + KeysOf(batch)
    ensures forall k :: k in rows && k !in KeysOf(batch) ==> r[k] == rows[k]
    decreases |batch|
  {
    if batch == [] then rows
    else
      var last := batch[|batch| - 1];
      var init := batch[..|batch| - 1];
      assert KeysOf(batch) == KeysOf(init) + {KeyOf(last)} by {
        forall k | k in KeysOf(batch) ensures k in KeysOf(init) + {KeyOf(last)} {
          var i :| 0 <= i < |batch| && KeyOf(batch[i]) == k;
          if i < |batch| - 1 { assert init[i] == batch[i]; }
        }
      }
      ApplyBatch(rows, init)[KeyOf(last) := ValuesOf(last)]
  }

  /** In a batch with distinct keys, every key ends up holding its candlestick's values. */
  lemma {:induction false} ApplyBatchAt(rows: Table, batch: seq<Candlestick>, i: nat)
    requires DistinctKeys(batch) && i < |batch|
    ensures KeyOf(batch[i]) in ApplyBatch(rows, batch)
    ensures ApplyBatch(rows, batch)[KeyOf(batch[i])] == ValuesOf(batch[i])
    decreases |batch|
  {
    if i < |batch| - 1 {
      var init := batch[..|batch| - 1];
      assert init[i] == batch[i];
      ApplyBatchAt(rows, init, i);
    }
  }

  /** Upserting the same batch twice leaves the table upserting it once leaves. */
  lemma ApplyBatchIdempotent(rows: Table, batch: seq<Candlestick>)
    requires DistinctKeys(batch)
    ensures ApplyBatch(ApplyBatch(rows, batch), batch) == ApplyBatch(rows, batch)
  {
    var once := ApplyBatch(rows, batch);
    var twice := ApplyBatch(once, batch);
    forall k | k in twice ensures twice[k] == once[k] {
      if k in KeysOf(batch) {
        var i :| 0 <= i < |batch| && KeyOf(batch[i]) == k;
        ApplyBatchAt(rows, batch, i);
        ApplyBatchAt(once, batch, i);
      }
    }
  }

  /**
   * Last writer wins: once a second batch is upserted, its keys hold exactly
   * its values, whatever an earlier batch wrote there.
   */
  lemma LaterBatchWins(rows: Table, first: seq<Candlestick>, second: seq<Candlestick>, i: nat)
    requires DistinctKeys(second) && i < |second|
    ensures ApplyBatch(ApplyBatch(rows, first), second)[KeyOf(second[i])] == ValuesOf(second[i])
    ensures ApplyBatch(ApplyBatch(rows, first), second)[KeyOf(second[i])]
         == ApplyBatch(rows, second)[KeyOf(second[i])]
  {
    ApplyBatchAt(ApplyBatch(rows, first), second, i);
    ApplyBatchAt(rows, second, i);
  }

  /** The errors UpsertCandlestick can return. */
  datatype DbError =
    | EmptyBatch       // sqlx refuses to bind an empty slice
    | StorageError     // the database could not run the statement
    | DuplicateKey     // Postgres refuses a batch that hits one row twice under ON CONFLICT DO UPDATE

  /** The `candlestick` table and the `symbol` registry. */
  class Store {
    var rows: Table
    var registry: seq<Symbol>

    constructor (registry: seq<Symbol>)
      ensures rows == map[] && this.registry == registry
    {
      rows := map[];
      this.registry := registry;
    }

    /**
     * UpsertCandlestick: one INSERT ... ON CONFLICT (time, symbol) DO UPDATE
     * statement for the whole batch.  It either applies every row or, on any
     * error, none of them.
     */
    method UpsertCandlestick(batch: seq<Candlestick>, up: bool) returns (err: Option<DbError>)
      modifies this`rows
      ensures err == (if batch == [] then Some(EmptyBatch)
                      else if !up then Some(StorageError)
                      else if !DistinctKeys(batch) then Some(DuplicateKey)
                      else None)
      ensures rows == if err.None? then ApplyBatch(old(rows), batch) else old(rows)
    {
      if batch == [] {
        return Some(EmptyBatch);
      }
      if !up {
        return Some(StorageError);
      }
      if !DistinctKeys(batch) {
        return Some(DuplicateKey);
      }
      rows := ApplyBatch(rows, batch);
      return None;
    }
  }

  // ---------------------------------------------------------------------
  // Read-only queries

  /** Times of the rows of one symbol. */
  function TimesOf(rows: Table, symbol: string): set<int>
  {
    set k | k in rows && k.symbol == symbol :: k.time
  }

  lemma HasMember(times: set<int>)
    requires times != {}
    ensures exists t :: t in times
  {
    assert (forall t :: t !in times) ==> times == {};
  }

  /** Every finite non-empty set of instants has a latest one. */
  lemma {:induction false} LatestExists(times: set<int>)
    requires times != {}
    ensures exists t :: t in times && forall u :: u in times ==> u <= t
    decreases |times|
  {
    HasMember(times);
    var x :| x in times;
    if times != {x} {
      var rest := times - {x};
      LatestExists(rest);
      var t :| t in rest && forall u :: u in rest ==> u <= t;
      var m := if x <= t then t else x;
      assert forall u :: u in times ==> u == x || u in rest;
      assert m in times && forall u :: u in times ==> u <= m;
    }
  }

  /**
   * `SELECT * FROM candlestick WHERE symbol = $1 ORDER BY time DESC LIMIT 1`:
   * the row of `symbol` with the greatest time, or None when it has no row.
   */
  function LastCandlestick(rows: Table, symbol: string): (r: Option<Candlestick>)
    ensures r.None? <==> forall k :: k in rows ==> k.symbol != symbol
    ensures r.Some? ==>
      && r.value.symbol == symbol
      && KeyOf(r.value) in rows
      && rows[KeyOf(r.value)] == ValuesOf(r.value)
      && forall k :: k in rows && k.symbol == symbol ==> k.time <= r.value.time
  {
    var times := TimesOf(rows, symbol);
    assert forall k :: k in rows && k.symbol == symbol ==> k.time in times;
    if times == {} then
      None
    else
      LatestExists(times);
      var t :| t in times && forall u :: u in times ==> u <= t;
      var k := Key(t, symbol);
      assert forall j :: j in rows && j.symbol == symbol ==> j.time <= t by {
        forall j | j in rows && j.symbol == symbol ensures j.time <= t {
          assert j.time in times;
        }
      }
      Some(RowAt(k, rows[k]))
  }

  /** GetLastCandlestick: found, not found (no error), or the query's error. */
  function GetLastCandlestick(rows: Table, symbol: string, up: bool): (r: Result<Option<Candlestick>, DbError>)
    ensures !up <==> r.Failure?
    ensures r.Success? ==> r.value == LastCandlestick(rows, symbol)
  {
    if up then Success(LastCandlestick(rows, symbol)) else Failure(StorageError)
  }

  /** The rows of the registry whose `enabled` flag is set, in registry order. */
  function EnabledOnly(registry: seq<Symbol>): (r: seq<Symbol>)
    ensures |r| <= |registry|
    ensures forall s :: s in r <==> s in registry && s.enabled
    decreases |registry|
  {
    if registry == [] then []
    else
      var rest := EnabledOnly(registry[1..]);
      assert registry == [registry[0]] + registry[1..];
      if registry[0].enabled then [registry[0]] + rest else rest
  }

  /** The filter keeps every enabled row as often as the registry holds it, and no disabled row. */
  lemma {:induction false} EnabledOnlyCounts(registry: seq<Symbol>)
    ensures forall s :: multiset(EnabledOnly(registry))[s] == if s.enabled then multiset(registry)[s] else 0
    decreases |registry|
  {
    if registry != [] {
      EnabledOnlyCounts(registry[1..]);
      assert registry == [registry[0]] + registry[1..];
    }
  }

  /** GetEnabledSymbols: `SELECT symbol, name, enabled FROM symbol WHERE enabled = true`. */
  function GetEnabledSymbols(registry: seq<Symbol>, up: bool): (r: Result<seq<Symbol>, DbError>)
    ensures !up <==> r.Failure?
    ensures r.Success? ==> r.value == EnabledOnly(registry)
  {
    if up then Success(EnabledOnly(registry)) else Failure(StorageError)
  }
}
