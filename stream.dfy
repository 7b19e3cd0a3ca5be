/**
 * The push half of the Binance client (binance.go): the subscription set,
 * the SUBSCRIBE control message, (re)connection with resubscription, and
 * the read loop that triages incoming frames.
 *
 * The WebSocket itself is not modelled.  The connection is a number (0
 * before the first successful dial, otherwise the count of successful
 * dials), every control message written is appended to a log together with
 * the connection it went out on, a dial or a write succeeds or fails as its
 * `dialOk`/`writeOk` argument says, and the frames the read loop receives
 * are a finite sequence.  JSON decoding of a frame is a `Decoder`.
 */
module Stream {
  import opened Wrappers

  // ---------------------------------------------------------------------
  // Stream names and the SUBSCRIBE message

  /** strings.ToLower on one character (ASCII letters only). */
  function LowerChar(c: char): char
  {
    if 'A' <= c <= 'Z' then (c as int + 32) as char else c
  }

  /** strings.ToLower over a whole string: every character lower-cased, no upper-case ASCII letter left. */
  function ToLower(s: string): (r: string)
    ensures |r| == |s|
    ensures forall i :: 0 <= i < |s| ==> r[i] == LowerChar(s[i])
    ensures forall i :: 0 <= i < |r| ==> !('A' <= r[i] <= 'Z')
  {
    seq(|s|, i requires 0 <= i < |s| => LowerChar(s[i]))
  }

  const KlineSuffix: string := "@kline_1m"

  /** The name of the 1-minute kline stream of `symbol`. */
  function StreamName(symbol: string): string
  {
    ToLower(symbol) + KlineSuffix
  }

  /** The symbol part of a 1-minute kline stream name, if it is one. */
  function StreamSymbol(name: string): Option<string>
  {
    if |name| >= |KlineSuffix| && name[|name| - |KlineSuffix|..] == KlineSuffix
    then Some(name[..|name| - |KlineSuffix|])
    else None
  }

  /** A stream name reads back as the lower-cased symbol it was made from. */
  lemma StreamNameRoundTrip(symbol: string)
    ensures StreamSymbol(StreamName(symbol)) == Some(ToLower(symbol))
  {
    var name := StreamName(symbol);
    assert name[|name| - |KlineSuffix|..] == KlineSuffix;
    assert name[..|name| - |KlineSuffix|] == ToLower(symbol);
  }

  /** Lower-casing twice is lower-casing once, so stream names are stable. */
  lemma StreamNameOfLowerCase(symbol: string)
    ensures StreamName(ToLower(symbol)) == StreamName(symbol)
  {
    assert ToLower(ToLower(symbol)) == ToLower(symbol);
  }

  function StreamNames(symbols: seq<string>): (names: seq<string>)
    ensures |names| == |symbols|
  {
    seq(|symbols|, i requires 0 <= i < |symbols| => StreamName(symbols[i]))
  }

  /** A JSON control message `{"method": ..., "params": [...], "id": ...}`. */
  datatype ControlMessage = ControlMessage(requestMethod: string, params: seq<string>, id: int)

  /** The message SubscribeCandlestick1m writes for `symbols`. */
  function SubscribeMessage(symbols: seq<string>): (m: ControlMessage)
    ensures m.requestMethod == "SUBSCRIBE" && m.id == 1
    ensures |m.params| == |symbols|
    ensures forall i :: 0 <= i < |symbols| ==> StreamSymbol(m.params[i]) == Some(ToLower(symbols[i]))
  {
    forall i | 0 <= i < |symbols| ensures StreamSymbol(StreamName(symbols[i])) == Some(ToLower(symbols[i])) {
      StreamNameRoundTrip(symbols[i]);
    }
    ControlMessage("SUBSCRIBE", StreamNames(symbols), 1)
  }

  // ---------------------------------------------------------------------
  // The subscription set

  /** The `subscribed` map after every symbol of `symbols` is set to true. */
  function MarkSubscribed(m: map<string, bool>, symbols: seq<string>): (r: map<string, bool>)
    ensures forall s :: s in r <==> s in m || s in symbols
    ensures forall s :: s in symbols ==> r[s]
    ensures forall s :: s in m && s !in symbols ==> r[s] == m[s]
  {
    map s | s in m.Keys + (set x | x in symbols) :: if s in symbols then true else m[s]
  }

  /** The symbols whose entry in `m` is true. */
  function Active(m: map<string, bool>): set<string>
  {
    set s | s in m && m[s]
  }

  predicate NoDuplicates(xs: seq<string>)
  {
    forall i, j :: 0 <= i < j < |xs| ==> xs[i] != xs[j]
  }

  /** `order` lists the members of `s`, each exactly once. */
  ghost predicate Enumerates(order: seq<string>, s: set<string>)
  {
    NoDuplicates(order) && forall x :: x in order <==> x in s
  }

  /** Subscribing again to symbols already marked true changes nothing. */
  lemma ResubscribeKeepsSet(m: map<string, bool>, symbols: seq<string>)
    requires forall s :: s in symbols ==> s in Active(m)
    ensures MarkSubscribed(m, symbols) == m
  {
    var r := MarkSubscribed(m, symbols);
    forall s | s in r ensures s in m && r[s] == m[s] {
      if s in symbols { assert s in Active(m); }
    }
  }

  // ---------------------------------------------------------------------
  // Frames and their triage

  /** An error returned by ReadMessage. */
  datatype ReadError =
    | CloseError(code: int)   // the peer's close frame, or 1006 when the connection dropped
    | OtherError              // any other read failure

  /** Close codes from section 7.4.1 of RFC 6455. */
  const CloseGoingAway: int := 1001
  const CloseAbnormalClosure: int := 1006

  /** websocket.IsUnexpectedCloseError: a close error whose code is NOT among `expected`. */
  predicate IsUnexpectedCloseError(e: ReadError, expected: seq<int>)
  {
    e.CloseError? && e.code !in expected
  }

  /** websocket.IsCloseError: a close error whose code IS among `codes`. */
  predicate IsCloseError(e: ReadError, codes: seq<int>)
  {
    e.CloseError? && e.code in codes
  }

  /** The kline payload of a stream event (WsKline). */
  datatype WsKline = WsKline(
    startTime: int,
    endTime: int,
    symbol: string,
    interval: string,
    firstTradeId: int,
    lastTradeId: int,
    open: string,
    close: string,
    high: string,
    low: string,
    volume: string,
    tradeNum: int,
    isFinal: bool,
    quoteVolume: string,
    activeBuyVolume: string,
    activeBuyQuoteVolume: string)

  /** A stream event (WsKlineEvent); `event` is the JSON field "e". */
  datatype WsKlineEvent = WsKlineEvent(event: string, time: int, symbol: string, kline: WsKline)

  /** The combined-stream envelope StreamData[WsKlineEvent]. */
  datatype StreamData = StreamData(stream: string, data: WsKlineEvent)

  /** json.Unmarshal into StreamData[WsKlineEvent]; None when it reports an error. */
  type Decoder = string -> Option<StreamData>

  /** What one ReadMessage call produced. */
  datatype Frame = Received(message: string) | ReadFailed(err: ReadError)

  /** The venue's reply to a SUBSCRIBE with id 1, compared byte for byte. */
  const AckMessage: string := "{\"result\":null,\"id\":1}"

  /** What the read loop does with one frame. */
  datatype Action =
    | Reconnect          // reconnect once, then leave the loop
    | SkipReadError      // any other read error: read again
    | SkipAck            // the subscription acknowledgement
    | SkipUndecodable    // a message that does not decode
    | SkipOtherEvent     // an event other than "kline"
    | Deliver(kline: WsKline)

  /** The read errors handleStreamMessage reconnects on, as written. */
  predicate TriggersReconnect(f: Frame)
  {
    f.ReadFailed? && IsUnexpectedCloseError(f.err, [CloseGoingAway, CloseAbnormalClosure])
  }

  /** The branch handleStreamMessage takes for one frame. */
  function Triage(f: Frame, decode: Decoder): (a: Action)
    ensures a == Reconnect <==> f.ReadFailed? && f.err.CloseError? && f.err.code != 1001 && f.err.code != 1006
    ensures a == SkipReadError <==> f.ReadFailed? && !(f.err.CloseError? && f.err.code != 1001 && f.err.code != 1006)
    ensures a == SkipAck <==> f == Received(AckMessage)
    ensures a == SkipUndecodable <==> f.Received? && f.message != AckMessage && decode(f.message).None?
    ensures a.Deliver? <==>
      f.Received? && f.message != AckMessage && decode(f.message).Some? && decode(f.message).value.data.event == "kline"
    ensures a.Deliver? ==> a.kline == decode(f.message).value.data.kline
  {
    match f
    case ReadFailed(e) => if TriggersReconnect(f) then Reconnect else SkipReadError
    case Received(message) =>
      if message == AckMessage then SkipAck
      else match decode(message)
        case None => SkipUndecodable
        case Some(msg) => if msg.data.event != "kline" then SkipOtherEvent else Deliver(msg.data.kline)
  }

  /** The klines the loop hands to the callback for `frames`, in order. */
  function Deliveries(frames: seq<Frame>, decode: Decoder): (ks: seq<WsKline>)
    ensures |ks| <= |frames|
    decreases |frames|
  {
    if frames == [] then []
    else
      var init := frames[..|frames| - 1];
      var rest := Deliveries(init, decode);
      match Triage(frames[|frames| - 1], decode)
      case Deliver(k) => rest + [k]
      case _ => rest
  }

  /**
   * The callback receives exactly the klines of the kline events among the
   * frames: nothing is invented and none is lost.
   */
  lemma {:induction false} DeliveredAreKlineEvents(frames: seq<Frame>, decode: Decoder, k: WsKline)
    ensures k in Deliveries(frames, decode) <==>
      exists i :: 0 <= i < |frames| && Triage(frames[i], decode) == Deliver(k)
    decreases |frames|
  {
    if frames != [] {
      var init := frames[..|frames| - 1];
      DeliveredAreKlineEvents(init, decode, k);
      assert forall i :: 0 <= i < |init| ==> init[i] == frames[i];
      if k in Deliveries(frames, decode) && k !in Deliveries(init, decode) {
        assert Triage(frames[|frames| - 1], decode) == Deliver(k);
      }
    }
  }

  /** The position of the first frame that makes the loop reconnect, if any. */
  function FirstReconnect(frames: seq<Frame>): (r: Option<nat>)
    ensures r.None? <==> forall i :: 0 <= i < |frames| ==> !TriggersReconnect(frames[i])
    ensures r.Some? ==>
      && r.value < |frames|
      && TriggersReconnect(frames[r.value])
      && forall i :: 0 <= i < r.value ==> !TriggersReconnect(frames[i])
    decreases |frames|
  {
    if frames == [] then None
    else if TriggersReconnect(frames[0]) then Some(0)
    else match FirstReconnect(frames[1..])
      case None => None
      case Some(j) => Some(j + 1)
  }

  // ---------------------------------------------------------------------
  // The client

  /** A control message written, and the connection it was written on. */
  datatype Sent = Sent(conn: nat, message: ControlMessage)

  /** The errors ConnectStream and SubscribeCandlestick1m return. */
  datatype StreamError = DialError | WriteError

  /** The fields of SpotBinance the stream code reads and writes. */
  datatype ClientState = ClientState(conn: nat, subscribed: map<string, bool>, sent: seq<Sent>)

  /** How the read loop ended. */
  datatype LoopExit =
    | StillReading                          // every frame was consumed; the loop waits for more
    | Reconnected(err: Option<StreamError>) // an unexpected close: ConnectStream ran once and the loop returned

  /**
   * The effect of one ConnectStream call from `c0` to `c1`: a failed dial
   * changes nothing; a successful one installs a new connection, keeps the
   * subscription set, and writes one SUBSCRIBE listing exactly the symbols
   * marked true (in `order`, the map's iteration order) on it.
   */
  ghost predicate ConnectOutcome(c0: ClientState, c1: ClientState, dialOk: bool, writeOk: bool,
                                 err: Option<StreamError>, order: seq<string>)
  {
    if !dialOk then
      err == Some(DialError) && c1 == c0
    else
      && c1.conn == c0.conn + 1
      && c1.subscribed == c0.subscribed
      && Enumerates(order, Active(c0.subscribed))
      && c1.sent == c0.sent + (if writeOk then [Sent(c1.conn, SubscribeMessage(order))] else [])
      && err == (if writeOk then None else Some(WriteError))
  }

  class SpotBinance {
    /** The connection in use: 0 stands for a nil `ws`, n > 0 for the n-th successful dial. */
    var conn: nat
    var subscribed: map<string, bool>
    /** Every control message written so far, oldest first. */
    var sent: seq<Sent>

    function State(): ClientState
      reads this
    {
      ClientState(conn, subscribed, sent)
    }

    /** NewSpotBinance: no connection, nothing subscribed. */
    constructor ()
      ensures conn == 0 && subscribed == map[] && sent == []
    {
      conn := 0;
      subscribed := map[];
      sent := [];
    }

    /** getSubscribed: the symbols marked true, each once, in the map's iteration order. */
    method GetSubscribed() returns (result: seq<string>)
      ensures Enumerates(result, Active(subscribed))
    {
      result := [];
      var keys := subscribed.Keys;
      while keys != {}
        invariant keys <= subscribed.Keys
        invariant NoDuplicates(result)
        invariant forall s :: s in result <==> s in Active(subscribed) && s !in keys
        decreases keys
      {
        var k :| k in keys;
        keys := keys - {k};
        if subscribed[k] {
          result := result + [k];
        }
      }
    }

    /**
     * SubscribeCandlestick1m: marks every symbol subscribed, then writes one
     * SUBSCRIBE naming their streams in the given order.  The write can fail;
     * the marks stay either way.  The source dereferences `ws`, so a
     * connection must exist.
     */
    method SubscribeCandlestick1m(symbols: seq<string>, writeOk: bool) returns (err: Option<StreamError>)
      requires conn > 0
      modifies this`subscribed, this`sent
      ensures subscribed == MarkSubscribed(old(subscribed), symbols)
      ensures sent == old(sent) + (if writeOk then [Sent(conn, SubscribeMessage(symbols))] else [])
      ensures err == (if writeOk then None else Some(WriteError))
    {
      var params: seq<string> := [];
      for i := 0 to |symbols|
        invariant subscribed == MarkSubscribed(old(subscribed), symbols[..i])
        invariant params == StreamNames(symbols[..i])
        invariant sent == old(sent)
      {
        assert symbols[..i + 1] == symbols[..i] + [symbols[i]];
        subscribed := subscribed[symbols[i] := true];
        params := params + [StreamName(symbols[i])];
      }
      assert symbols[..|symbols|] == symbols;
      var message := ControlMessage("SUBSCRIBE", params, 1);
      assert message == SubscribeMessage(symbols);
      if writeOk {
        sent := sent + [Sent(conn, message)];
        err := None;
      } else {
        err := Some(WriteError);
      }
    }

    /**
     * ConnectStream: dial; on success install the new connection and
     * resubscribe to everything marked subscribed.  Starting the read loop
     * is left to the caller (see `LoopExit` and HandleStreamMessage).
     */
    method ConnectStream(dialOk: bool, writeOk: bool) returns (err: Option<StreamError>, ghost order: seq<string>)
      modifies this`conn, this`subscribed, this`sent
      ensures ConnectOutcome(old(State()), State(), dialOk, writeOk, err, order)
    {
      if !dialOk {
        return Some(DialError), [];
      }
      conn := conn + 1;
      var resubscribe := GetSubscribed();
      order := resubscribe;
      ResubscribeKeepsSet(subscribed, resubscribe);
      err := SubscribeCandlestick1m(resubscribe, writeOk);
    }

    /**
     * handleStreamMessage over the frames `frames`: skips acknowledgements,
     * undecodable messages, non-kline events and read errors other than an
     * unexpected close; hands every kline to the callback (`delivered`); on
     * an unexpected close calls ConnectStream once and returns.
     */
    method HandleStreamMessage(frames: seq<Frame>, decode: Decoder, dialOk: bool, writeOk: bool)
      returns (delivered: seq<WsKline>, consumed: nat, exit: LoopExit, ghost order: seq<string>)
      requires conn > 0
      modifies this`conn, this`subscribed, this`sent
      ensures FirstReconnect(frames).None? ==>
        consumed == |frames| && exit == StillReading && State() == old(State())
      ensures FirstReconnect(frames).Some? ==>
        && consumed == FirstReconnect(frames).value + 1
        && exit.Reconnected?
        && ConnectOutcome(old(State()), State(), dialOk, writeOk, exit.err, order)
      ensures consumed <= |frames|
      ensures delivered == Deliveries(frames[..consumed], decode)
    {
      delivered, consumed, order := [], 0, [];
      while consumed < |frames|
        invariant consumed <= |frames|
        invariant forall i :: 0 <= i < consumed ==> !TriggersReconnect(frames[i])
        invariant delivered == Deliveries(frames[..consumed], decode)
        invariant State() == old(State())
      {
        var action := Triage(frames[consumed], decode);
        DeliveriesStep(frames, consumed, decode);
        if action == Reconnect {
          FirstReconnectAt(frames, consumed);
          var err;
          err, order := ConnectStream(dialOk, writeOk);
          return delivered, consumed + 1, Reconnected(err), order;
        }
        if action.Deliver? {
          delivered := delivered + [action.kline];
        }
        consumed := consumed + 1;
      }
      assert frames[..consumed] == frames;
      FirstReconnectNone(frames);
      exit := StillReading;
    }
  }

  /** Consuming one more frame extends the deliveries by that frame's kline, if any. */
  lemma DeliveriesStep(frames: seq<Frame>, n: nat, decode: Decoder)
    requires n < |frames|
    ensures Deliveries(frames[..n + 1], decode) ==
      Deliveries(frames[..n], decode) +
      (if Triage(frames[n], decode).Deliver? then [Triage(frames[n], decode).kline] else [])
  {
    assert frames[..n + 1][..n] == frames[..n];
  }

  lemma FirstReconnectAt(frames: seq<Frame>, n: nat)
    requires n < |frames| && TriggersReconnect(frames[n])
    requires forall i :: 0 <= i < n ==> !TriggersReconnect(frames[i])
    ensures FirstReconnect(frames) == Some(n)
  {
  }

  lemma FirstReconnectNone(frames: seq<Frame>)
    requires forall i :: 0 <= i < |frames| ==> !TriggersReconnect(frames[i])
    ensures FirstReconnect(frames) == None
  {
  }

  // ---------------------------------------------------------------------
  // The reconnect classification

  /**
   * As written, the loop passes 1001 and 1006 as the EXPECTED close codes,
   * so a dropped connection (1006) or a server going away (1001) is not
   * reconnected: the loop goes on reading the failed connection.
   */
  lemma DroppedConnectionIsNotReconnected(decode: Decoder)
    ensures Triage(ReadFailed(CloseError(CloseAbnormalClosure)), decode) == SkipReadError
    ensures Triage(ReadFailed(CloseError(CloseGoingAway)), decode) == SkipReadError
    ensures FirstReconnect([ReadFailed(CloseError(CloseAbnormalClosure)),
                            ReadFailed(CloseError(CloseAbnormalClosure))]) == None
    ensures Triage(ReadFailed(CloseError(1000)), decode) == Reconnect
  {
  }

  /** A run of frames, of any length, each a dropped connection or a server going away, never reconnects. */
  lemma DroppedRunNeverReconnects(frames: seq<Frame>)
    requires forall i :: 0 <= i < |frames| ==>
      frames[i] == ReadFailed(CloseError(CloseAbnormalClosure)) || frames[i] == ReadFailed(CloseError(CloseGoingAway))
    ensures FirstReconnect(frames) == None
  {
  }

  /**
   * The classification that reconnects on an abnormal closure or a server
   * going away (websocket.IsCloseError with those codes); everything else
   * is triaged as before.
   */
  function IntendedTriage(f: Frame, decode: Decoder): (a: Action)
    ensures f.ReadFailed? ==> (a == Reconnect <==> f.err == CloseError(CloseAbnormalClosure) || f.err == CloseError(CloseGoingAway))
    ensures f.ReadFailed? && a != Reconnect ==> a == SkipReadError
    ensures f.Received? ==> a == Triage(f, decode)
  {
    match f
    case ReadFailed(e) =>
      if IsCloseError(e, [CloseGoingAway, CloseAbnormalClosure]) then Reconnect else SkipReadError
    case Received(_) => Triage(f, decode)
  }
}
