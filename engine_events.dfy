/**
 * What the trading engine of src/engine/trading_engine.py says to the world: the calls it
 * makes on strategies, charts, signal handlers and the data service, recorded as notices,
 * and the decoding of raw websocket payloads done by the callbacks that
 * `subscribe_market_data` registers.
 */
module EngineEvents {
  import opened Common
  import opened Intervals
  import opened MarketData
  import opened Execution

  /** A `(symbol, channel, provider)` tuple of the subscription set. */
  datatype Subscription = Subscription(symbol: string, channel: string, provider: string)

  /** The channels the data service knows; any other channel makes no subscribe call. */
  predicate KnownChannel(channel: string)
  {
    channel == "ticker" || channel == "orderbook" || channel == "trades"
  }

  /** A signal handler, identified by the callable it is. */
  type Handler = nat

  /** A call on a loaded strategy. */
  datatype StrategyCall =
    | TickerUpdate(ticker: Ticker, symbol: string, provider: string)
    | OrderBookUpdate(book: OrderBook, symbol: string, provider: string)
    | TradeUpdate(trade: Trade, symbol: string, provider: string)
    | CandleUpdate(candle: Candle, symbol: string, interval: string, provider: string)
    | TimerUpdate(now: int)
    | AccountUpdate(account: Account, broker: string)
    | PositionUpdate(position: Position, broker: string)
    | OrderUpdate(order: Order, broker: string)

  /** One call the engine makes on a collaborator. */
  datatype Notice =
    | ToStrategy(strategyId: string, call: StrategyCall)
    | ChartCandle(symbol: string, candle: Candle)
    | ChartSignal(symbol: string, timestamp: int, price: real, side: OrderSide)
    | ToHandler(handler: Handler, signal: StrategySignal)
    | ExecutionScheduled(signal: StrategySignal)
    | BrokerFetchScheduled(broker: string)
    | ProviderSubscribe(provider: string, symbol: string, channel: string)
    | ProviderUnsubscribe(provider: string, symbol: string, channel: string)

  /**
   * A call made on every loaded strategy, in the registry's order. Each call is wrapped in
   * its own exception handler, so a strategy that raises does not keep the later ones
   * from being called.
   */
  function FanOut(strategies: seq<string>, call: StrategyCall): seq<Notice>
  {
    seq(|strategies|, i requires 0 <= i < |strategies| => ToStrategy(strategies[i], call))
  }

  /** Every call in `calls` made on every strategy: the strategies in turn for the first call, then for the next. */
  function Broadcast(strategies: seq<string>, calls: seq<StrategyCall>): seq<Notice>
  {
    if calls == [] then [] else FanOut(strategies, calls[0]) + Broadcast(strategies, calls[1..])
  }

  lemma {:induction false} BroadcastConcat(strategies: seq<string>, a: seq<StrategyCall>, b: seq<StrategyCall>)
    ensures Broadcast(strategies, a + b) == Broadcast(strategies, a) + Broadcast(strategies, b)
  {
    if a != [] {
      BroadcastConcat(strategies, a[1..], b);
      assert (a + b)[1..] == a[1..] + b;
    } else {
      assert a + b == b;
    }
  }

  /** Exactly the loaded strategies receive exactly the calls in `calls`, and nothing else is called. */
  lemma {:induction false} BroadcastMembership(strategies: seq<string>, calls: seq<StrategyCall>)
    ensures forall n :: n in Broadcast(strategies, calls) ==>
      n.ToStrategy? && n.strategyId in strategies && n.call in calls
    ensures forall s, c :: s in strategies && c in calls ==> ToStrategy(s, c) in Broadcast(strategies, calls)
  {
    if calls != [] {
      var head := FanOut(strategies, calls[0]);
      BroadcastMembership(strategies, calls[1..]);
      forall n | n in head ensures n.ToStrategy? && n.strategyId in strategies && n.call == calls[0] {
        var i :| 0 <= i < |head| && head[i] == n;
      }
      forall s, c | s in strategies && c in calls ensures ToStrategy(s, c) in Broadcast(strategies, calls) {
        if c == calls[0] {
          var i :| 0 <= i < |strategies| && strategies[i] == s;
          assert head[i] == ToStrategy(s, c);
        } else {
          assert c in calls[1..];
        }
      }
    }
  }

  /** The index of the first occurrence of `h`. */
  function FirstIndex(hs: seq<Handler>, h: Handler): (i: nat)
    requires h in hs
    ensures i < |hs| && hs[i] == h && h !in hs[..i]
  {
    if hs[0] == h then 0
    else
      var j := FirstIndex(hs[1..], h);
      assert hs[..j + 1] == [hs[0]] + hs[1..][..j];
      j + 1
  }

  /** `list.remove(h)` guarded by `h in list`: the first occurrence goes, the rest keep their order. */
  function RemoveFirst(hs: seq<Handler>, h: Handler): (r: seq<Handler>)
    ensures h !in hs ==> r == hs
    ensures h in hs ==> r == hs[..FirstIndex(hs, h)] + hs[FirstIndex(hs, h) + 1..]
    ensures |r| == if h in hs then |hs| - 1 else |hs|
    ensures multiset(r) == multiset(hs) - multiset{h}
  {
    if h in hs then
      var i := FirstIndex(hs, h);
      assert hs == hs[..i] + [hs[i]] + hs[i + 1..];
      hs[..i] + hs[i + 1..]
    else hs
  }

  /** Adding a handler and removing it again restores the list, when it was not there before. */
  lemma AddThenRemoveHandler(hs: seq<Handler>, h: Handler)
    requires h !in hs
    ensures RemoveFirst(hs + [h], h) == hs
  {
    assert forall j :: 0 <= j < |hs| ==> (hs + [h])[j] != h;
    assert FirstIndex(hs + [h], h) == |hs|;
    assert (hs + [h])[..|hs|] == hs;
  }

  /**
   * A decoded websocket event. Each field is `None` when the key is absent; numbers are
   * given already decoded, so `float(...)` of a present value is that value.
   */
  datatype WsEvent = WsEvent(
    eventType: Option<string>,
    side: Option<string>,
    makerSide: Option<string>,
    price: Option<real>,
    remaining: Option<real>,
    amount: Option<real>,
    bid: Option<real>,
    ask: Option<real>,
    volume: Option<real>,
    tid: Option<int>)

  /**
   * A websocket payload: not a dictionary, or one with an optional type and event list,
   * decoded from the dictionary `json`.
   */
  datatype WsMessage = NotAnObject | WsObject(msgType: Option<string>, events: Option<seq<WsEvent>>, json: RawData)

  /** `float(d.get(key, 0))`. */
  function OrZero(v: Option<real>): real
  {
    if v.Some? then v.value else 0.0
  }

  /** Only dictionaries whose "type" is "update" are decoded; everything else is ignored. */
  predicate IsUpdate(m: WsMessage)
  {
    m.WsObject? && m.msgType == Some("update")
  }

  /** `data.get("events", [])`. */
  function EventsOf(m: WsMessage): seq<WsEvent>
  {
    if m.WsObject? && m.events.Some? then m.events.value else []
  }

  /** An event with every key absent, as the ticker decoder uses `{}` when there are no events. */
  function NoEvent(): WsEvent
  {
    WsEvent(None, None, None, None, None, None, None, None, None, None)
  }

  /**
   * The ticker decoder: for an update it builds a ticker for the subscribed symbol from
   * the first event (or from nothing when the list is empty or absent), each absent price
   * reading as 0, stamped with the clock.
   */
  function DecodeTicker(m: WsMessage, symbol: string, now: nat): (r: Option<Ticker>)
    ensures r.Some? <==> IsUpdate(m)
    ensures r.Some? ==> r.value.symbol == symbol && r.value.timestamp == now
    ensures r.Some? && EventsOf(m) == [] ==>
      r.value.bid == 0.0 && r.value.ask == 0.0 && r.value.last == 0.0 && r.value.volume24h == 0.0
    ensures r.Some? && EventsOf(m) != [] ==>
      var e := EventsOf(m)[0];
      r.value.bid == OrZero(e.bid) && r.value.ask == OrZero(e.ask) &&
      r.value.last == OrZero(e.price) && r.value.volume24h == OrZero(e.volume)
  {
    if !IsUpdate(m) then None
    else
      var e := if m.events.Some? && m.events.value != [] then m.events.value[0] else NoEvent();
      Some(Ticker(symbol, OrZero(e.bid), OrZero(e.ask), OrZero(e.price), OrZero(e.volume), now))
  }

  /** The book entries of the events on `side`, in event order. */
  function SideEntries(evs: seq<WsEvent>, side: string): seq<OrderBookEntry>
  {
    if evs == [] then []
    else
      var e := evs[|evs| - 1];
      SideEntries(evs[..|evs| - 1], side) +
        (if e.side == Some(side) then [OrderBookEntry(OrZero(e.price), OrZero(e.remaining))] else [])
  }

  /** The split by side is done event by event: two batches decode to the two decodes joined. */
  lemma {:induction false} SideEntriesConcat(a: seq<WsEvent>, b: seq<WsEvent>, side: string)
    ensures SideEntries(a + b, side) == SideEntries(a, side) + SideEntries(b, side)
    decreases |b|
  {
    if b == [] {
      assert a + b == a;
    } else {
      var b' := b[..|b| - 1];
      SideEntriesConcat(a, b', side);
      assert (a + b)[..|a + b| - 1] == a + b';
    }
  }

  /** Entries on one side come only from events on that side: a batch without such events yields none. */
  lemma {:induction false} SideEntriesEmpty(evs: seq<WsEvent>, side: string)
    requires forall i :: 0 <= i < |evs| ==> evs[i].side != Some(side)
    ensures SideEntries(evs, side) == []
  {
    if evs != [] {
      SideEntriesEmpty(evs[..|evs| - 1], side);
    }
  }

  /**
   * `OrderBook(...)` called with `raw_data`, or without it (`None`): the dataclass gives that
   * field no default, so a call that leaves it out raises TypeError.
   */
  function NewOrderBook(symbol: string, bids: seq<OrderBookEntry>, asks: seq<OrderBookEntry>, timestamp: nat,
                        rawData: Option<RawData>): Result<OrderBook>
  {
    if rawData.None? then Raised(TypeError) else Ok(OrderBook(symbol, bids, asks, timestamp, rawData.value))
  }

  /**
   * What the order-book decoder yields for `m` when it builds the book with `rawData`:
   * nothing for a message that is not an update; otherwise the book whose bids and asks are
   * the entries of the "bid" and "ask" events, in order, when `raw_data` is passed, and
   * TypeError when it is left out.
   */
  function BookOf(m: WsMessage, symbol: string, now: nat, rawData: Option<RawData>): (r: Option<Result<OrderBook>>)
    ensures r.Some? <==> IsUpdate(m)
    ensures r.Some? ==> (r.value.Raised? <==> rawData.None?) && (r.value.Raised? ==> r.value.error == TypeError)
    ensures r.Some? && r.value.Ok? ==>
      r.value.value.bids == SideEntries(EventsOf(m), "bid") && r.value.value.asks == SideEntries(EventsOf(m), "ask") &&
      r.value.value.symbol == symbol && r.value.value.timestamp == now && r.value.value.rawData == rawData.value
  {
    if !IsUpdate(m) then None
    else Some(NewOrderBook(symbol, SideEntries(EventsOf(m), "bid"), SideEntries(EventsOf(m), "ask"), now, rawData))
  }

  /**
   * The order book decoder, building the book with `rawData` as its `raw_data` argument
   * (`None`: the argument is left out).
   */
  method DecodeOrderBook(m: WsMessage, symbol: string, now: nat, rawData: Option<RawData>)
    returns (r: Option<Result<OrderBook>>)
    ensures r == BookOf(m, symbol, now, rawData)
  {
    if !IsUpdate(m) {
      return None;
    }
    var events := EventsOf(m);
    var bids: seq<OrderBookEntry> := [];
    var asks: seq<OrderBookEntry> := [];
    var i := 0;
    while i < |events|
      invariant 0 <= i <= |events|
      invariant bids == SideEntries(events[..i], "bid")
      invariant asks == SideEntries(events[..i], "ask")
    {
      var e := events[i];
      assert events[..i + 1][..i] == events[..i];
      if e.side == Some("bid") {
        bids := bids + [OrderBookEntry(OrZero(e.price), OrZero(e.remaining))];
      } else if e.side == Some("ask") {
        asks := asks + [OrderBookEntry(OrZero(e.price), OrZero(e.remaining))];
      }
      i := i + 1;
    }
    assert events[..i] == events;
    r := Some(NewOrderBook(symbol, bids, asks, now, rawData));
  }

  /**
   * A one-bid update: decoded as `subscribe_market_data` registers it, without `raw_data`,
   * it raises TypeError; with the message as `raw_data` it is the one-bid book.
   */
  lemma OneBidUpdate(symbol: string, now: nat)
    ensures var e := NoEvent().(side := Some("bid"), price := Some(100.0), remaining := Some(2.0));
      var m := WsObject(Some("update"), Some([e]), [("type", JStr("update"))]);
      BookOf(m, symbol, now, None) == Some(Raised(TypeError)) &&
      BookOf(m, symbol, now, Some(m.json)) == Some(Ok(OrderBook(symbol, [OrderBookEntry(100.0, 2.0)], [], now, m.json)))
  {
    var e := NoEvent().(side := Some("bid"), price := Some(100.0), remaining := Some(2.0));
    assert [e][..0] == [];
    assert SideEntries([e], "bid") == [OrderBookEntry(100.0, 2.0)];
    assert SideEntries([e], "ask") == [];
  }

  predicate IsTradeEvent(e: WsEvent) { e.eventType == Some("trade") }

  /** The trade an event of type "trade" describes; the taker bought exactly when the maker sold. */
  function TradeOf(e: WsEvent, symbol: string, now: nat): (t: Trade)
    ensures t.side == "buy" <==> e.makerSide == Some("sell")
    ensures t.side == "buy" || t.side == "sell"
    ensures t.symbol == symbol && t.timestamp == now
    ensures t.price == OrZero(e.price) && t.amount == OrZero(e.amount)
    ensures e.tid.None? ==> t.tradeId == ""
    ensures e.tid.Some? ==> ParseInt(t.tradeId) == Some(e.tid.value)
  {
    var id := if e.tid.Some? then IntString(e.tid.value) else "";
    assert e.tid.Some? ==> ParseInt(id) == Some(e.tid.value) by {
      if e.tid.Some? {
        ParseIntString(e.tid.value);
      }
    }
    Trade(symbol, OrZero(e.price), OrZero(e.amount),
      if e.makerSide == Some("sell") then "buy" else "sell",
      now, id)
  }

  function TradeEvents(evs: seq<WsEvent>): seq<WsEvent>
  {
    if evs == [] then []
    else TradeEvents(evs[..|evs| - 1]) + (if IsTradeEvent(evs[|evs| - 1]) then [evs[|evs| - 1]] else [])
  }

  /** The trades decoded from a list of events: one per event of type "trade", in order. */
  function TradesOf(evs: seq<WsEvent>, symbol: string, now: nat): seq<Trade>
  {
    if evs == [] then []
    else
      var e := evs[|evs| - 1];
      TradesOf(evs[..|evs| - 1], symbol, now) + (if IsTradeEvent(e) then [TradeOf(e, symbol, now)] else [])
  }

  /** Exactly the events of type "trade" become trades, one each and in order. */
  lemma {:induction false} TradesAreTradeEvents(evs: seq<WsEvent>, symbol: string, now: nat)
    ensures |TradesOf(evs, symbol, now)| == |TradeEvents(evs)|
    ensures forall i :: 0 <= i < |TradeEvents(evs)| ==>
      TradesOf(evs, symbol, now)[i] == TradeOf(TradeEvents(evs)[i], symbol, now)
    ensures forall i :: 0 <= i < |TradeEvents(evs)| ==> IsTradeEvent(TradeEvents(evs)[i])
  {
    if evs != [] {
      TradesAreTradeEvents(evs[..|evs| - 1], symbol, now);
    }
  }

  /** The trades decoder: for an update, the trades of its events of type "trade". */
  method DecodeTrades(m: WsMessage, symbol: string, now: nat) returns (r: seq<Trade>)
    ensures r == if IsUpdate(m) then TradesOf(EventsOf(m), symbol, now) else []
  {
    if !IsUpdate(m) {
      return [];
    }
    var events := EventsOf(m);
    r := [];
    var i := 0;
    while i < |events|
      invariant 0 <= i <= |events|
      invariant r == TradesOf(events[..i], symbol, now)
    {
      assert events[..i + 1][..i] == events[..i];
      if IsTradeEvent(events[i]) {
        r := r + [TradeOf(events[i], symbol, now)];
      }
      i := i + 1;
    }
    assert events[..i] == events;
  }
}
