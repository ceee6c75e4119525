/**
 * The bookkeeping of `TradingEngine` (src/engine/trading_engine.py): its subscription
 * set, active symbols and brokers, the table of candle aggregators, the order, position
 * and account caches and the list of signal handlers.
 *
 * Every call the engine makes on a strategy, a chart, a signal handler or the data
 * service is appended to the ghost `log`, so that who is told what, and in which order,
 * can be stated. Results that come from collaborators (a broker's account, a provider's
 * answer to a subscribe call, the loaded strategies, the clock) are parameters. Each
 * operation is specified by a pure function of the state before it, and those functions
 * carry the lemmas.
 */
module Engine {
  import opened Common
  import opened Dicts
  import opened MarketData
  import opened Execution
  import opened CandleAggregation
  import opened EngineEvents
  import opened EngineTables
  import opened BrokerSync

  /** The engine's fields, as one value. */
  datatype EngineState = EngineState(
    subscriptions: set<Subscription>,
    activeSymbols: set<string>,
    activeBrokers: set<string>,
    aggregators: Table,
    charts: set<string>,
    orders: map<string, Order>,
    positions: map<string, Dict<Position>>,
    accounts: map<string, Account>,
    signalHandlers: seq<Handler>)

  /**
   * What every reachable state satisfies: the aggregator table is valid, every symbol
   * with aggregators has a chart, every subscribed symbol is active, and every position
   * map has one entry per symbol, stored under that symbol.
   */
  ghost predicate StateValid(s: EngineState)
  {
    TableValid(s.aggregators) &&
    (forall symbol :: Get(s.aggregators, symbol).Some? ==> symbol in s.charts) &&
    (forall sub :: sub in s.subscriptions ==> sub.symbol in s.activeSymbols) &&
    (forall b :: b in s.positions ==> DistinctKeys(s.positions[b]) && KeyedBySymbol(s.positions[b]))
  }

  // ---------------------------------------------------------------- subscriptions

  const SubscribeDefault: seq<string> := ["ticker"]

  const UnsubscribeDefault: seq<string> := ["ticker", "orderbook", "trades"]

  /** The channels given, or the default ones when the argument is `None`. */
  function ChannelList(channels: Option<seq<string>>, default: seq<string>): seq<string>
  {
    if channels.Some? then channels.value else default
  }

  /**
   * Whether handling `channel` gets through: a known channel calls the data service,
   * whose call raises for the channels in `failing`; any other channel makes no call.
   */
  predicate Succeeds(channel: string, failing: set<string>)
  {
    !KnownChannel(channel) || channel !in failing
  }

  /** The subscriptions of `symbol` with `provider` whose channel is listed and gets through. */
  function Granted(symbol: string, provider: string, channels: seq<string>, failing: set<string>): set<Subscription>
  {
    set c | c in channels && Succeeds(c, failing) :: Subscription(symbol, c, provider)
  }

  lemma GrantedCons(symbol: string, provider: string, channels: seq<string>, failing: set<string>)
    requires channels != []
    ensures Granted(symbol, provider, channels, failing) ==
      (if Succeeds(channels[0], failing) then {Subscription(symbol, channels[0], provider)} else {}) +
      Granted(symbol, provider, channels[1..], failing)
  {
    assert channels == [channels[0]] + channels[1..];
  }

  datatype ChannelOutcome = ChannelOutcome(subs: set<Subscription>, active: set<string>, calls: seq<Notice>)

  /** The channel loop of `subscribe_market_data`. */
  function SubscribeChannels(
    subs: set<Subscription>, active: set<string>, provider: string, symbol: string,
    channels: seq<string>, failing: set<string>): ChannelOutcome
    decreases |channels|
  {
    if channels == [] then ChannelOutcome(subs, active, [])
    else
      var c := channels[0];
      var sub := Subscription(symbol, c, provider);
      if sub in subs then SubscribeChannels(subs, active, provider, symbol, channels[1..], failing)
      else
        var call := if KnownChannel(c) then [ProviderSubscribe(provider, symbol, c)] else [];
        var rest :=
          if Succeeds(c, failing) then SubscribeChannels(subs + {sub}, active + {symbol}, provider, symbol, channels[1..], failing)
          else SubscribeChannels(subs, active, provider, symbol, channels[1..], failing);
        ChannelOutcome(rest.subs, rest.active, call + rest.calls)
  }

  /**
   * Subscribing adds exactly the granted tuples, and the symbol to the active ones exactly
   * when a tuple was new. A tuple already present is skipped without a call; every known
   * channel whose tuple is missing is asked for at least once.
   */
  lemma {:induction false} SubscribeChannelsLaws(
    subs: set<Subscription>, active: set<string>, provider: string, symbol: string,
    channels: seq<string>, failing: set<string>)
    ensures var o := SubscribeChannels(subs, active, provider, symbol, channels, failing);
      o.subs == subs + Granted(symbol, provider, channels, failing) &&
      o.active == (if Granted(symbol, provider, channels, failing) <= subs then active else active + {symbol}) &&
      (forall n :: n in o.calls ==>
        n.ProviderSubscribe? && n.provider == provider && n.symbol == symbol &&
        n.channel in channels && KnownChannel(n.channel) && Subscription(symbol, n.channel, provider) !in subs) &&
      (forall c :: c in channels && KnownChannel(c) && Subscription(symbol, c, provider) !in subs ==>
        ProviderSubscribe(provider, symbol, c) in o.calls)
    decreases |channels|
  {
    if channels != [] {
      var c := channels[0];
      var rest := channels[1..];
      var sub := Subscription(symbol, c, provider);
      GrantedCons(symbol, provider, channels, failing);
      assert channels == [c] + rest;
      if sub in subs {
        SubscribeChannelsLaws(subs, active, provider, symbol, rest, failing);
      } else if Succeeds(c, failing) {
        SubscribeChannelsLaws(subs + {sub}, active + {symbol}, provider, symbol, rest, failing);
      } else {
        SubscribeChannelsLaws(subs, active, provider, symbol, rest, failing);
      }
    }
  }

  datatype Unsubscribed = Unsubscribed(subs: set<Subscription>, calls: seq<Notice>)

  /** The channel loop of `unsubscribe_market_data`. */
  function UnsubscribeChannels(
    subs: set<Subscription>, provider: string, symbol: string, channels: seq<string>, failing: set<string>): Unsubscribed
    decreases |channels|
  {
    if channels == [] then Unsubscribed(subs, [])
    else
      var c := channels[0];
      var sub := Subscription(symbol, c, provider);
      if sub !in subs then UnsubscribeChannels(subs, provider, symbol, channels[1..], failing)
      else
        var call := if KnownChannel(c) then [ProviderUnsubscribe(provider, symbol, c)] else [];
        var rest :=
          if Succeeds(c, failing) then UnsubscribeChannels(subs - {sub}, provider, symbol, channels[1..], failing)
          else UnsubscribeChannels(subs, provider, symbol, channels[1..], failing);
        Unsubscribed(rest.subs, call + rest.calls)
  }

  /** Unsubscribing removes exactly the granted tuples, and calls the data service only for tuples that are present. */
  lemma {:induction false} UnsubscribeChannelsLaws(
    subs: set<Subscription>, provider: string, symbol: string, channels: seq<string>, failing: set<string>)
    ensures var o := UnsubscribeChannels(subs, provider, symbol, channels, failing);
      o.subs == subs - Granted(symbol, provider, channels, failing) &&
      forall n :: n in o.calls ==>
        n.ProviderUnsubscribe? && n.provider == provider && n.symbol == symbol &&
        n.channel in channels && KnownChannel(n.channel) && Subscription(symbol, n.channel, provider) in subs
    decreases |channels|
  {
    if channels != [] {
      var c := channels[0];
      var rest := channels[1..];
      var sub := Subscription(symbol, c, provider);
      GrantedCons(symbol, provider, channels, failing);
      assert channels == [c] + rest;
      if sub !in subs {
        UnsubscribeChannelsLaws(subs, provider, symbol, rest, failing);
      } else if Succeeds(c, failing) {
        UnsubscribeChannelsLaws(subs - {sub}, provider, symbol, rest, failing);
      } else {
        UnsubscribeChannelsLaws(subs, provider, symbol, rest, failing);
      }
    }
  }

  /** Whether any subscription of `symbol` remains. */
  predicate HasSymbol(subs: set<Subscription>, symbol: string)
  {
    exists sub :: sub in subs && sub.symbol == symbol
  }

  // ---------------------------------------------------------------- market data

  /** Gives `e` to the aggregators of `symbol`, if it has any, on behalf of `provider`. */
  function FeedTable(t: Table, e: Event, symbol: string, provider: string, charted: bool, strategies: seq<string>): TableOutcome
  {
    match Get(t, symbol)
    case None => TableOutcome(t, [], None)
    case Some(row) =>
      var o := StepRow(row, e, symbol, [provider], charted, strategies);
      TableOutcome(Put(t, symbol, o.row), o.notices, o.error)
  }

  /**
   * Feeding an event touches only the row of its symbol and keeps the table valid; when
   * nothing raises, every aggregator of that row has taken its step.
   */
  lemma FeedTableLaws(t: Table, e: Event, symbol: string, provider: string, charted: bool, strategies: seq<string>)
    requires TableValid(t)
    ensures var o := FeedTable(t, e, symbol, provider, charted, strategies);
      TableValid(o.table) &&
      (forall s :: s != symbol ==> Get(o.table, s) == Get(t, s)) &&
      (Get(o.table, symbol).Some? <==> Get(t, symbol).Some?) &&
      (Get(t, symbol).Some? && o.error.None? ==>
        var row := Get(t, symbol).value;
        var row' := Get(o.table, symbol).value;
        |row'| == |row| &&
        forall j :: 0 <= j < |row| ==> Apply(row[j].1, e).Ok? && row'[j] == (row[j].0, Apply(row[j].1, e).value.next))
  {
    var o := FeedTable(t, e, symbol, provider, charted, strategies);
    if Get(t, symbol).Some? {
      var row := Get(t, symbol).value;
      StepRowLaws(row, e, symbol, [provider], charted, strategies);
      var so := StepRow(row, e, symbol, [provider], charted, strategies);
      assert |Keys(so.row)| == |Keys(row)|;
      forall s | Get(o.table, s).Some? ensures RowValid(s, Get(o.table, s).value) {
      }
    }
  }

  /**
   * The trades callback applied to each decoded trade in turn: every strategy is told of
   * the trade, then the aggregators of the symbol take it; the first aggregator that
   * raises ends the batch.
   */
  function TradesOutcome(t: Table, trades: seq<Trade>, symbol: string, provider: string, charted: bool, strategies: seq<string>): TableOutcome
    decreases |trades|
  {
    if trades == [] then TableOutcome(t, [], None)
    else
      var o := FeedTable(t, TradeEvent(trades[0]), symbol, provider, charted, strategies);
      var head := FanOut(strategies, TradeUpdate(trades[0], symbol, provider)) + o.notices;
      if o.error.Some? then TableOutcome(o.table, head, o.error)
      else
        var rest := TradesOutcome(o.table, trades[1..], symbol, provider, charted, strategies);
        TableOutcome(rest.table, head + rest.notices, rest.error)
  }

  /** Every subscribed provider of a symbol is visited once when its timer-completed candles are announced. */
  lemma TimerProviders(subs: set<Subscription>, symbol: string)
    ensures var ps := Enumerate(ProvidersOf(subs, symbol));
      (forall p :: p in ps <==> exists c :: Subscription(symbol, c, p) in subs) &&
      (forall i, j :: 0 <= i < j < |ps| ==> ps[i] != ps[j])
  {
    var ps := Enumerate(ProvidersOf(subs, symbol));
    forall p ensures p in ps <==> exists c :: Subscription(symbol, c, p) in subs {
      if p in ps {
        var sub :| sub in subs && sub.symbol == symbol && sub.provider == p;
        assert Subscription(symbol, sub.channel, p) == sub;
      }
    }
  }

  // ---------------------------------------------------------------- brokers

  /** The cached positions of `broker`, or none. */
  function CachedPositions(positions: map<string, Dict<Position>>, broker: string): Dict<Position>
  {
    if broker in positions then positions[broker] else []
  }

  /** Whether `account` differs from the one cached for `broker` (a missing one differs from every account). */
  predicate AccountChanged(accounts: map<string, Account>, broker: string, account: Account)
  {
    broker !in accounts || accounts[broker] != account
  }

  /** The caches after `_fetch_broker_data`: each fetched result is stored until the first fetch that fails. */
  function FetchBroker(
    s: EngineState, broker: string, account: Fetch<Account>, positions: Fetch<seq<Position>>, orders: Fetch<seq<Order>>): EngineState
  {
    if account.Failed? then s
    else
      var s1 := s.(accounts := s.accounts[broker := account.value]);
      if positions.Failed? then s1
      else
        var s2 := s1.(positions := s1.positions[broker := PositionsBySymbol(positions.value)]);
        if orders.Failed? then s2
        else s2.(orders := UpsertOrders(s.orders, orders.value))
  }

  /** The three caches a successful account fetch leaves, each up to the first fetch that failed. */
  lemma FetchBrokerCaches(s: EngineState, broker: string, account: Account, positions: Fetch<seq<Position>>, orders: Fetch<seq<Order>>)
    ensures var r := FetchBroker(s, broker, Fetched(account), positions, orders);
      && r.accounts == s.accounts[broker := account]
      && r.positions == (if positions.Failed? then s.positions else s.positions[broker := PositionsBySymbol(positions.value)])
      && r.orders == (if positions.Failed? || orders.Failed? then s.orders else UpsertOrders(s.orders, orders.value))
  {
  }

  /** What a refresh tells the strategies of the account: every strategy hears of it, if it changed. */
  function AccountNotices(accounts: map<string, Account>, broker: string, account: Account, strategies: seq<string>): seq<Notice>
  {
    if AccountChanged(accounts, broker, account) then FanOut(strategies, AccountUpdate(account, broker)) else []
  }

  /** What a refresh tells the strategies of the positions: each new, changed or closed one. */
  function PositionNotices(before: Dict<Position>, fetched: seq<Position>, broker: string, strategies: seq<string>): seq<Notice>
  {
    Broadcast(strategies, PositionCalls(PositionReports(before, PositionsBySymbol(fetched)), broker))
  }

  /** What a refresh tells the strategies of the orders: each new or changed one. */
  function OrderNotices(orders: map<string, Order>, fetched: seq<Order>, broker: string, strategies: seq<string>): seq<Notice>
  {
    Broadcast(strategies, OrderCalls(ChangedOrders(orders, fetched), broker))
  }

  /** The position and order notices of a refresh, up to the first fetch that failed. */
  function HoldingNotices(
    cachedPositions: map<string, Dict<Position>>, cachedOrders: map<string, Order>, broker: string,
    positions: Fetch<seq<Position>>, orders: Fetch<seq<Order>>, strategies: seq<string>): seq<Notice>
  {
    if positions.Failed? then []
    else
      PositionNotices(CachedPositions(cachedPositions, broker), positions.value, broker, strategies) +
      if orders.Failed? then [] else OrderNotices(cachedOrders, orders.value, broker, strategies)
  }

  /**
   * The calls `_update_broker_data` makes on the strategies; its caches end as
   * `FetchBroker` leaves them. A failed account fetch ends the refresh with no call.
   */
  function RefreshNotices(
    s: EngineState, broker: string, account: Fetch<Account>, positions: Fetch<seq<Position>>,
    orders: Fetch<seq<Order>>, strategies: seq<string>): seq<Notice>
  {
    if account.Failed? then []
    else AccountNotices(s.accounts, broker, account.value, strategies) + HoldingNotices(s.positions, s.orders, broker, positions, orders, strategies)
  }

  /** Fetching a broker's data keeps the state valid, and a failed account fetch changes nothing. */
  lemma FetchBrokerValid(s: EngineState, broker: string, account: Fetch<Account>, positions: Fetch<seq<Position>>, orders: Fetch<seq<Order>>)
    requires StateValid(s)
    ensures StateValid(FetchBroker(s, broker, account, positions, orders))
    ensures var r := FetchBroker(s, broker, account, positions, orders);
      r == s.(accounts := r.accounts, positions := r.positions, orders := r.orders)
  {
    var r := FetchBroker(s, broker, account, positions, orders);
    if positions.Fetched? {
      PositionsBySymbolLaws(positions.value);
    }
    assert r.aggregators == s.aggregators && r.charts == s.charts;
    assert r.subscriptions == s.subscriptions && r.activeSymbols == s.activeSymbols;
  }

  /** The position and order notices are strategy calls about positions and orders only. */
  lemma HoldingNoticesKinds(
    cachedPositions: map<string, Dict<Position>>, cachedOrders: map<string, Order>, broker: string,
    positions: Fetch<seq<Position>>, orders: Fetch<seq<Order>>, strategies: seq<string>)
    ensures forall n :: n in HoldingNotices(cachedPositions, cachedOrders, broker, positions, orders, strategies) ==>
      n.ToStrategy? && (n.call.PositionUpdate? || n.call.OrderUpdate?) && n.call.broker == broker
  {
    if positions.Fetched? {
      var pcalls := PositionCalls(PositionReports(CachedPositions(cachedPositions, broker), PositionsBySymbol(positions.value)), broker);
      BroadcastMembership(strategies, pcalls);
      if orders.Fetched? {
        var ocalls := OrderCalls(ChangedOrders(cachedOrders, orders.value), broker);
        BroadcastMembership(strategies, ocalls);
      }
    }
  }

  /** A refresh tells every strategy of the fetched account exactly when it differs from the cached one. */
  lemma RefreshAccountNotified(
    s: EngineState, broker: string, account: Fetch<Account>, positions: Fetch<seq<Position>>,
    orders: Fetch<seq<Order>>, strategies: seq<string>)
    requires account.Fetched?
    ensures var ns := RefreshNotices(s, broker, account, positions, orders, strategies);
      forall st :: st in strategies ==>
        (ToStrategy(st, AccountUpdate(account.value, broker)) in ns <==> AccountChanged(s.accounts, broker, account.value))
  {
    var acc := account.value;
    var call := AccountUpdate(acc, broker);
    var n1 := AccountNotices(s.accounts, broker, acc, strategies);
    HoldingNoticesKinds(s.positions, s.orders, broker, positions, orders, strategies);
    forall st | st in strategies
      ensures ToStrategy(st, call) in n1 + HoldingNotices(s.positions, s.orders, broker, positions, orders, strategies) <==>
              AccountChanged(s.accounts, broker, acc)
    {
      if AccountChanged(s.accounts, broker, acc) {
        var i :| 0 <= i < |strategies| && strategies[i] == st;
        assert n1[i] == ToStrategy(st, call);
      }
    }
  }

  // ---------------------------------------------------------------- signals

  /** One call per handler, in the list's order. */
  function HandlerCalls(handlers: seq<Handler>, signal: StrategySignal): (r: seq<Notice>)
    ensures |r| == |handlers|
    ensures forall i :: 0 <= i < |r| ==> r[i] == ToHandler(handlers[i], signal)
  {
    if handlers == [] then []
    else HandlerCalls(handlers[..|handlers| - 1], signal) + [ToHandler(handlers[|handlers| - 1], signal)]
  }

  /** `signal.price or 0`. */
  function PriceOrZero(price: Option<real>): real
  {
    if price.Some? then price.value else 0.0
  }

  /** The calls `_process_signal` makes: every handler, the chart of the symbol, and the scheduling of the order. */
  function SignalNotices(handlers: seq<Handler>, charts: set<string>, signal: StrategySignal): seq<Notice>
  {
    HandlerCalls(handlers, signal) +
    (if signal.symbol in charts then [ChartSignal(signal.symbol, signal.timestamp, PriceOrZero(signal.price), signal.side)] else []) +
    (if TruthyString(signal.broker) then [ExecutionScheduled(signal)] else [])
  }

  /**
   * Every handler is called with the signal, in order, before anything else, whether or
   * not an earlier one raises; the chart hears of the signal exactly when the symbol has
   * one; the order is scheduled for execution exactly when a broker is named.
   */
  lemma SignalNoticesLaws(handlers: seq<Handler>, charts: set<string>, signal: StrategySignal)
    ensures var ns := SignalNotices(handlers, charts, signal);
      |ns| >= |handlers| &&
      (forall i :: 0 <= i < |handlers| ==> ns[i] == ToHandler(handlers[i], signal)) &&
      (forall n :: n in ns[|handlers|..] ==> !n.ToHandler?) &&
      (ExecutionScheduled(signal) in ns <==> TruthyString(signal.broker)) &&
      (forall n :: n in ns && n.ChartSignal? <==>
                   (n in ns && signal.symbol in charts &&
                    n == ChartSignal(signal.symbol, signal.timestamp, PriceOrZero(signal.price), signal.side)))
  {
    var ns := SignalNotices(handlers, charts, signal);
    var hs := HandlerCalls(handlers, signal);
    var tail := ns[|handlers|..];
    assert ns == hs + tail;
    assert ExecutionScheduled(signal) !in hs;
    forall n | n in hs ensures n.ToHandler? {
      var i :| 0 <= i < |hs| && hs[i] == n;
    }
  }

  // ---------------------------------------------------------------- main loop

  /** Seconds between timer updates. */
  const TimerInterval: real := 1.0

  /** Seconds between broker refreshes. */
  const BrokerUpdateInterval: real := 5.0

  datatype Tick = Tick(timer: bool, brokers: bool, lastTimer: real, lastBroker: real)

  /** One pass of `_main_loop` at clock time `now`: which updates run, and the times it remembers. */
  function Cadence(now: real, lastTimer: real, lastBroker: real): Tick
  {
    var timer := now - lastTimer >= TimerInterval;
    var brokers := now - lastBroker >= BrokerUpdateInterval;
    Tick(timer, brokers, if timer then now else lastTimer, if brokers then now else lastBroker)
  }

  /** The clock times, among `clock`, at which an update with period `period` runs. */
  function Firings(clock: seq<real>, last: real, period: real): seq<real>
    decreases |clock|
  {
    if clock == [] then []
    else if clock[0] - last >= period then [clock[0]] + Firings(clock[1..], clock[0], period)
    else Firings(clock[1..], last, period)
  }

  /** The passes of `_main_loop` over `clock`, starting from the remembered times. */
  function Passes(clock: seq<real>, lastTimer: real, lastBroker: real): seq<Tick>
    decreases |clock|
  {
    if clock == [] then []
    else
      var t := Cadence(clock[0], lastTimer, lastBroker);
      [t] + Passes(clock[1..], t.lastTimer, t.lastBroker)
  }

  /** The timer and broker updates of the passes run exactly at their `Firings`. */
  lemma {:induction false} PassesFire(clock: seq<real>, lastTimer: real, lastBroker: real)
    ensures var ps := Passes(clock, lastTimer, lastBroker);
      |ps| == |clock| &&
      Firings(clock, lastTimer, TimerInterval) == TimedAt(clock, ps, true) &&
      Firings(clock, lastBroker, BrokerUpdateInterval) == TimedAt(clock, ps, false)
    decreases |clock|
  {
    if clock != [] {
      var t := Cadence(clock[0], lastTimer, lastBroker);
      PassesFire(clock[1..], t.lastTimer, t.lastBroker);
    }
  }

  /** The clock times of the passes that ran the timer update (`timer`) or the broker refresh. */
  function TimedAt(clock: seq<real>, ps: seq<Tick>, timer: bool): seq<real>
    requires |ps| == |clock|
  {
    if clock == [] then []
    else (if (if timer then ps[0].timer else ps[0].brokers) then [clock[0]] else []) + TimedAt(clock[1..], ps[1..], timer)
  }

  /**
   * Two consecutive runs of an update are at least one period apart, and the first is at
   * least one period after the remembered time, whatever the clock does in between.
   */
  lemma {:induction false} FiringsSpaced(clock: seq<real>, last: real, period: real)
    ensures var f := Firings(clock, last, period);
      (f != [] ==> f[0] - last >= period) &&
      forall i :: 0 <= i < |f| - 1 ==> f[i + 1] - f[i] >= period
    decreases |clock|
  {
    if clock != [] {
      if clock[0] - last >= period {
        FiringsSpaced(clock[1..], clock[0], period);
      } else {
        FiringsSpaced(clock[1..], last, period);
      }
    }
  }

  // ---------------------------------------------------------------- the engine

  class TradingEngine {
    var subscriptions: set<Subscription>
    var activeSymbols: set<string>
    var activeBrokers: set<string>
    var aggregators: Table
    var charts: set<string>
    var orders: map<string, Order>
    var positions: map<string, Dict<Position>>
    var accounts: map<string, Account>
    var signalHandlers: seq<Handler>
    /** Every call made on a strategy, chart, handler or the data service, in order. */
    ghost var log: seq<Notice>

    function State(): EngineState
      reads this
    {
      EngineState(subscriptions, activeSymbols, activeBrokers, aggregators, charts, orders, positions, accounts, signalHandlers)
    }

    ghost predicate Valid()
      reads this
    {
      StateValid(State())
    }

    constructor ()
      ensures State() == EngineState({}, {}, {}, [], {}, map[], map[], map[], [])
      ensures log == [] && Valid()
    {
      subscriptions := {};
      activeSymbols := {};
      activeBrokers := {};
      aggregators := [];
      charts := {};
      orders := map[];
      positions := map[];
      accounts := map[];
      signalHandlers := [];
      log := [];
    }

    /** Calls `call` on every loaded strategy, in order. */
    method NotifyAll(strategies: seq<string>, call: StrategyCall)
      modifies this`log
      ensures log == old(log) + FanOut(strategies, call)
    {
      var i := 0;
      while i < |strategies|
        invariant 0 <= i <= |strategies|
        invariant log == old(log) + FanOut(strategies[..i], call)
      {
        assert FanOut(strategies[..i + 1], call) == FanOut(strategies[..i], call) + [ToStrategy(strategies[i], call)];
        log := log + [ToStrategy(strategies[i], call)];
        i := i + 1;
      }
      assert strategies[..i] == strategies;
    }

    method AddSignalHandler(handler: Handler)
      requires Valid()
      modifies this
      ensures Valid() && log == old(log)
      ensures State() == old(State()).(signalHandlers := old(signalHandlers) + [handler])
    {
      signalHandlers := signalHandlers + [handler];
    }

    /** Removes the first occurrence of `handler`, if it is registered. */
    method RemoveSignalHandler(handler: Handler)
      requires Valid()
      modifies this
      ensures Valid() && log == old(log)
      ensures State() == old(State()).(signalHandlers := RemoveFirst(old(signalHandlers), handler))
    {
      if handler in signalHandlers {
        signalHandlers := RemoveFirst(signalHandlers, handler);
      }
    }

    /** `_process_signal`. */
    method ProcessSignal(signal: StrategySignal)
      modifies this`log
      ensures log == old(log) + SignalNotices(signalHandlers, charts, signal)
    {
      var i := 0;
      while i < |signalHandlers|
        invariant 0 <= i <= |signalHandlers|
        invariant log == old(log) + HandlerCalls(signalHandlers[..i], signal)
      {
        assert signalHandlers[..i + 1][..i] == signalHandlers[..i];
        log := log + [ToHandler(signalHandlers[i], signal)];
        i := i + 1;
      }
      assert signalHandlers[..i] == signalHandlers;
      if signal.symbol in charts {
        log := log + [ChartSignal(signal.symbol, signal.timestamp, PriceOrZero(signal.price), signal.side)];
      }
      if TruthyString(signal.broker) {
        log := log + [ExecutionScheduled(signal)];
      }
    }

    /** `add_broker`; `known` says whether the execution service knows the broker. */
    method AddBroker(name: string, known: bool)
      requires Valid()
      modifies this
      ensures Valid()
      ensures if name !in old(activeBrokers) && known then
          State() == old(State()).(activeBrokers := old(activeBrokers) + {name}) && log == old(log) + [BrokerFetchScheduled(name)]
        else State() == old(State()) && log == old(log)
    {
      if name in activeBrokers {
        return;
      }
      if !known {
        return;
      }
      activeBrokers := activeBrokers + {name};
      log := log + [BrokerFetchScheduled(name)];
    }

    /** `remove_broker`. */
    method RemoveBroker(name: string)
      requires Valid()
      modifies this
      ensures Valid() && log == old(log)
      ensures State() == old(State()).(activeBrokers := old(activeBrokers) - {name})
    {
      if name !in activeBrokers {
        return;
      }
      activeBrokers := activeBrokers - {name};
    }

    /** `_fetch_broker_data`, given what the execution service returned or that it raised. */
    method FetchBrokerData(broker: string, account: Fetch<Account>, fetchedPositions: Fetch<seq<Position>>, fetchedOrders: Fetch<seq<Order>>)
      requires Valid()
      modifies this
      ensures Valid() && log == old(log)
      ensures State() == FetchBroker(old(State()), broker, account, fetchedPositions, fetchedOrders)
    {
      if account.Failed? {
        return;
      }
      accounts := accounts[broker := account.value];
      if fetchedPositions.Failed? {
        return;
      }
      PositionsBySymbolLaws(fetchedPositions.value);
      positions := positions[broker := PositionsBySymbol(fetchedPositions.value)];
      if fetchedOrders.Failed? {
        return;
      }
      UpsertAll(fetchedOrders.value);
    }

    /** Stores each order under its id, in order. */
    method UpsertAll(os: seq<Order>)
      modifies this`orders
      ensures orders == UpsertOrders(old(orders), os)
    {
      var i := 0;
      while i < |os|
        invariant 0 <= i <= |os|
        invariant UpsertOrders(orders, os[i..]) == UpsertOrders(old(orders), os)
      {
        assert os[i..][0] == os[i] && os[i..][1..] == os[i + 1..];
        orders := orders[os[i].id := os[i]];
        i := i + 1;
      }
    }

    /** `_update_broker_data`, given what the execution service returned or that it raised. */
    method UpdateBrokerData(
      broker: string, account: Fetch<Account>, fetchedPositions: Fetch<seq<Position>>,
      fetchedOrders: Fetch<seq<Order>>, strategies: seq<string>)
      requires Valid()
      modifies this
      ensures Valid()
      ensures State() == FetchBroker(old(State()), broker, account, fetchedPositions, fetchedOrders)
      ensures log == old(log) + RefreshNotices(old(State()), broker, account, fetchedPositions, fetchedOrders, strategies)
    {
      ghost var s0 := State();
      FetchBrokerValid(s0, broker, account, fetchedPositions, fetchedOrders);
      RefreshCaches(s0, broker, account, fetchedPositions, fetchedOrders, strategies);
    }

    /** The cache updates and strategy calls of `_update_broker_data`; `s` is the state it starts from. */
    method RefreshCaches(
      ghost s: EngineState, broker: string, account: Fetch<Account>, fetchedPositions: Fetch<seq<Position>>,
      fetchedOrders: Fetch<seq<Order>>, strategies: seq<string>)
      requires s.accounts == accounts && s.positions == positions && s.orders == orders
      modifies this`accounts, this`positions, this`orders, this`log
      ensures var r := FetchBroker(s, broker, account, fetchedPositions, fetchedOrders);
        accounts == r.accounts && positions == r.positions && orders == r.orders
      ensures log == old(log) + RefreshNotices(s, broker, account, fetchedPositions, fetchedOrders, strategies)
    {
      if account.Failed? {
        return;
      }
      ghost var n1 := AccountNotices(s.accounts, broker, account.value, strategies);
      ghost var n2 := HoldingNotices(s.positions, s.orders, broker, fetchedPositions, fetchedOrders, strategies);
      FetchBrokerCaches(s, broker, account.value, fetchedPositions, fetchedOrders);
      ghost var l0 := log;
      RefreshAccount(broker, account.value, strategies);
      assert log == l0 + n1;
      ghost var l1 := log;
      RefreshHoldings(broker, fetchedPositions, fetchedOrders, strategies);
      assert log == l1 + n2;
      ConcatAssoc(l0, n1, n2);
    }

    /** The position and order part of `_update_broker_data`, up to the first fetch that failed. */
    method RefreshHoldings(broker: string, fetchedPositions: Fetch<seq<Position>>, fetchedOrders: Fetch<seq<Order>>, strategies: seq<string>)
      modifies this`positions, this`orders, this`log
      ensures positions == if fetchedPositions.Failed? then old(positions) else old(positions)[broker := PositionsBySymbol(fetchedPositions.value)]
      ensures orders == if fetchedPositions.Failed? || fetchedOrders.Failed? then old(orders) else UpsertOrders(old(orders), fetchedOrders.value)
      ensures log == old(log) + HoldingNotices(old(positions), old(orders), broker, fetchedPositions, fetchedOrders, strategies)
    {
      if fetchedPositions.Failed? {
        return;
      }
      ghost var l0 := log;
      ghost var n1 := PositionNotices(CachedPositions(positions, broker), fetchedPositions.value, broker, strategies);
      RefreshPositions(broker, fetchedPositions.value, strategies);
      if fetchedOrders.Failed? {
        return;
      }
      ghost var n2 := OrderNotices(orders, fetchedOrders.value, broker, strategies);
      UpsertAndReport(fetchedOrders.value, broker, strategies);
      ConcatAssoc(l0, n1, n2);
    }

    /** Stores the fetched account and tells every strategy of it if it changed. */
    method RefreshAccount(broker: string, account: Account, strategies: seq<string>)
      modifies this`accounts, this`log
      ensures accounts == old(accounts)[broker := account]
      ensures log == old(log) + AccountNotices(old(accounts), broker, account, strategies)
    {
      var changed := broker !in accounts || accounts[broker] != account;
      accounts := accounts[broker := account];
      if changed {
        NotifyAll(strategies, AccountUpdate(account, broker));
      }
    }

    /** Stores the fetched positions by symbol and tells the strategies of each new, changed or closed one. */
    method RefreshPositions(broker: string, fetched: seq<Position>, strategies: seq<string>)
      modifies this`positions, this`log
      ensures positions == old(positions)[broker := PositionsBySymbol(fetched)]
      ensures log == old(log) + PositionNotices(CachedPositions(old(positions), broker), fetched, broker, strategies)
    {
      var before := CachedPositions(positions, broker);
      var after := PositionsBySymbol(fetched);
      positions := positions[broker := after];
      ghost var changed := ChangedNotices(before, after, broker, strategies);
      ghost var closed := ClosedNotices(before, Keys(after), broker, strategies);
      ghost var l0 := log;
      ReportChanged(before, after, broker, strategies);
      ReportClosed(before, Keys(after), broker, strategies);
      ConcatAssoc(l0, changed, closed);
      PositionNoticesInTwoPasses(before, fetched, broker, strategies);
    }

    /** Tells the strategies of each new position that differs from the cached one, in the new map's order. */
    method ReportChanged(before: Dict<Position>, after: Dict<Position>, broker: string, strategies: seq<string>)
      modifies this`log
      ensures log == old(log) + ChangedNotices(before, after, broker, strategies)
    {
      var i := 0;
      assert after[i..] == after;
      while i < |after|
        invariant 0 <= i <= |after|
        invariant log + ChangedNotices(before, after[i..], broker, strategies) == old(log) + ChangedNotices(before, after, broker, strategies)
      {
        ReportChangedAt(before, after, i, broker, strategies);
        i := i + 1;
      }
      assert after[i..] == [];
    }

    /** One pass of `ReportChanged`: the notices for `after[i]`, if it changed. */
    method ReportChangedAt(before: Dict<Position>, after: Dict<Position>, i: int, broker: string, strategies: seq<string>)
      requires 0 <= i < |after|
      modifies this`log
      ensures log + ChangedNotices(before, after[i + 1..], broker, strategies) == old(log) + ChangedNotices(before, after[i..], broker, strategies)
    {
      ghost var rest := ChangedNotices(before, after[i + 1..], broker, strategies);
      var changed := Get(before, after[i].0) != Some(after[i].1);
      ghost var here := NoticeIf(changed, strategies, PositionUpdate(after[i].1, broker));
      assert ChangedNotices(before, after[i..], broker, strategies) == here + rest by {
        assert after[i..][0] == after[i] && after[i..][1..] == after[i + 1..];
      }
      ghost var l0 := log;
      if changed {
        NotifyAll(strategies, PositionUpdate(after[i].1, broker));
      }
      ConcatAssoc(l0, here, rest);
    }

    /** Tells the strategies of a zero position for each cached symbol not among `keys`, in the cached map's order. */
    method ReportClosed(before: Dict<Position>, keys: seq<string>, broker: string, strategies: seq<string>)
      modifies this`log
      ensures log == old(log) + ClosedNotices(before, keys, broker, strategies)
    {
      var i := 0;
      assert before[i..] == before;
      while i < |before|
        invariant 0 <= i <= |before|
        invariant log + ClosedNotices(before[i..], keys, broker, strategies) == old(log) + ClosedNotices(before, keys, broker, strategies)
      {
        ReportClosedAt(before, i, keys, broker, strategies);
        i := i + 1;
      }
      assert before[i..] == [];
    }

    /** One pass of `ReportClosed`: a zero position for `before[i]`, if its symbol is gone. */
    method ReportClosedAt(before: Dict<Position>, i: int, keys: seq<string>, broker: string, strategies: seq<string>)
      requires 0 <= i < |before|
      modifies this`log
      ensures log + ClosedNotices(before[i + 1..], keys, broker, strategies) == old(log) + ClosedNotices(before[i..], keys, broker, strategies)
    {
      ghost var rest := ClosedNotices(before[i + 1..], keys, broker, strategies);
      var closed := before[i].0 !in keys;
      ghost var here := NoticeIf(closed, strategies, PositionUpdate(ZeroPosition(before[i].0), broker));
      assert ClosedNotices(before[i..], keys, broker, strategies) == here + rest by {
        assert before[i..][0] == before[i] && before[i..][1..] == before[i + 1..];
      }
      ghost var l0 := log;
      if closed {
        NotifyAll(strategies, PositionUpdate(ZeroPosition(before[i].0), broker));
      }
      ConcatAssoc(l0, here, rest);
    }

    /** Stores `o` under its id and, if it is new or differs from the cached order, tells every strategy. */
    method UpsertOrder(o: Order, broker: string, strategies: seq<string>)
      modifies this`orders, this`log
      ensures orders == old(orders)[o.id := o]
      ensures log == old(log) + NoticeIf(o.id !in old(orders) || old(orders)[o.id] != o, strategies, OrderUpdate(o, broker))
    {
      var changed := o.id !in orders || orders[o.id] != o;
      orders := orders[o.id := o];
      if changed {
        NotifyAll(strategies, OrderUpdate(o, broker));
      }
    }

    /** The order loop of `_update_broker_data`. */
    method UpsertAndReport(os: seq<Order>, broker: string, strategies: seq<string>)
      modifies this`orders, this`log
      ensures orders == UpsertOrders(old(orders), os)
      ensures log == old(log) + OrderNotices(old(orders), os, broker, strategies)
    {
      ghost var final := OrderSync(orders, os, broker, strategies);
      var i := 0;
      assert os[i..] == os;
      while i < |os|
        invariant 0 <= i <= |os|
        invariant OrderSync(orders, os[i..], broker, strategies).0 == final.0
        invariant log + OrderSync(orders, os[i..], broker, strategies).1 == old(log) + final.1
      {
        UpsertNext(os, i, broker, strategies);
        i := i + 1;
      }
      assert os[i..] == [];
      OrderSyncIsUpsertAndReport(old(orders), os, broker, strategies);
    }

    /** One pass of the order loop: upserts `os[i]`, leaving the rest of the sync to the orders after it. */
    method UpsertNext(os: seq<Order>, i: int, broker: string, strategies: seq<string>)
      requires 0 <= i < |os|
      modifies this`orders, this`log
      ensures orders == old(orders)[os[i].id := os[i]]
      ensures OrderSync(orders, os[i + 1..], broker, strategies).0 == OrderSync(old(orders), os[i..], broker, strategies).0
      ensures log + OrderSync(orders, os[i + 1..], broker, strategies).1 == old(log) + OrderSync(old(orders), os[i..], broker, strategies).1
    {
      ghost var rest := OrderSync(orders[os[i].id := os[i]], os[i + 1..], broker, strategies);
      ghost var here := NoticeIf(os[i].id !in orders || orders[os[i].id] != os[i], strategies, OrderUpdate(os[i], broker));
      assert OrderSync(orders, os[i..], broker, strategies) == (rest.0, here + rest.1) by {
        assert os[i..][0] == os[i] && os[i..][1..] == os[i + 1..];
      }
      ghost var l0 := log;
      UpsertOrder(os[i], broker, strategies);
      ConcatAssoc(l0, here, rest.1);
    }

    /**
     * Gives `e` to the aggregators of one row, in order, announcing each completed candle;
     * stops at the first aggregator that raises.
     */
    method RunRow(row: Row, e: Event, symbol: string, ghost providers: seq<string>, charted: bool, strategies: seq<string>)
      returns (row': Row, error: Option<Exception>)
      modifies this`log
      ensures var o := StepRow(row, e, symbol, providers, charted, strategies);
        row' == o.row && error == o.error && log == old(log) + o.notices
    {
      ghost var final := StepRow(row, e, symbol, providers, charted, strategies);
      var done: Row := [];
      ghost var notes: seq<Notice> := [];
      var i := 0;
      assert row[i..] == row;
      PrependNothing(final);
      while i < |row|
        invariant 0 <= i <= |row|
        invariant log == old(log) + notes
        invariant Prepend(done, notes, StepRow(row[i..], e, symbol, providers, charted, strategies)) == final
      {
        ghost var rest := StepRow(row[i + 1..], e, symbol, providers, charted, strategies);
        var entry, raised, here := RunAt(row, i, e, symbol, providers, charted, strategies);
        if raised.Some? {
          assert notes + here == notes;
          return done + row[i..], raised;
        }
        PrependStep(done, notes, entry, here, rest);
        ConcatAssoc(old(log), notes, here);
        notes := notes + here;
        done := done + [entry];
        i := i + 1;
      }
      assert row[i..] == [];
      PrependNothing(RowOutcome(done, notes, None));
      return done, None;
    }

    /**
     * One pass of `RunRow`: gives `e` to `row[i]`. It either raises, leaving the rest of the
     * row untouched, or yields the aggregator's next state and the notices of its completed candle.
     */
    method RunAt(row: Row, i: int, e: Event, symbol: string, ghost providers: seq<string>, charted: bool, strategies: seq<string>)
      returns (entry: (string, AggState), error: Option<Exception>, ghost here: seq<Notice>)
      requires 0 <= i < |row|
      modifies this`log
      ensures log == old(log) + here
      ensures var t := StepRow(row[i..], e, symbol, providers, charted, strategies);
        var rest := StepRow(row[i + 1..], e, symbol, providers, charted, strategies);
        if error.Some? then here == [] && t == RowOutcome(row[i..], [], error)
        else t == RowOutcome([entry] + rest.row, here + rest.notices, rest.error)
    {
      var iv := row[i].0;
      assert row[i..][0] == row[i] && row[i..][1..] == row[i + 1..];
      entry := row[i];
      here := [];
      match Apply(row[i].1, e) {
        case Raised(x) =>
          error := Some(x);
        case Ok(c) =>
          error := None;
          entry := (iv, c.next);
          if c.completed.Some? {
            here := CandleNotices(c.completed.value, symbol, iv, providers, charted, strategies);
            log := log + here;
          }
      }
    }

    /** Gives `e` to the aggregators of `symbol`, if it has any; only the aggregator table and the log change. */
    method FeedAggregators(e: Event, symbol: string, provider: string, strategies: seq<string>) returns (error: Option<Exception>)
      requires Valid()
      modifies this`aggregators, this`log
      ensures Valid()
      ensures var o := FeedTable(old(aggregators), e, symbol, provider, symbol in charts, strategies);
        error == o.error && aggregators == o.table && log == old(log) + o.notices
    {
      FeedTableLaws(aggregators, e, symbol, provider, symbol in charts, strategies);
      match Get(aggregators, symbol) {
        case None =>
          error := None;
        case Some(row) =>
          var row';
          row', error := RunRow(row, e, symbol, [provider], symbol in charts, strategies);
          aggregators := Put(aggregators, symbol, row');
      }
    }

    /** `_ticker_callback`: every strategy hears of the ticker, then the symbol's aggregators take it. */
    method TickerCallback(ticker: Ticker, symbol: string, provider: string, strategies: seq<string>) returns (error: Option<Exception>)
      requires Valid()
      modifies this`aggregators, this`log
      ensures Valid()
      ensures var o := FeedTable(old(aggregators), TickerEvent(ticker), symbol, provider, symbol in charts, strategies);
        error == o.error && aggregators == o.table &&
        log == old(log) + FanOut(strategies, TickerUpdate(ticker, symbol, provider)) + o.notices
    {
      NotifyAll(strategies, TickerUpdate(ticker, symbol, provider));
      error := FeedAggregators(TickerEvent(ticker), symbol, provider, strategies);
    }

    /** `_trades_callback`: every strategy hears of the trade, then the symbol's aggregators take it. */
    method TradesCallback(trade: Trade, symbol: string, provider: string, strategies: seq<string>) returns (error: Option<Exception>)
      requires Valid()
      modifies this`aggregators, this`log
      ensures Valid()
      ensures var o := FeedTable(old(aggregators), TradeEvent(trade), symbol, provider, symbol in charts, strategies);
        error == o.error && aggregators == o.table &&
        log == old(log) + FanOut(strategies, TradeUpdate(trade, symbol, provider)) + o.notices
    {
      NotifyAll(strategies, TradeUpdate(trade, symbol, provider));
      error := FeedAggregators(TradeEvent(trade), symbol, provider, strategies);
    }

    /** `_orderbook_callback`: every strategy hears of the book. */
    method OrderbookCallback(book: OrderBook, symbol: string, provider: string, strategies: seq<string>)
      modifies this`log
      ensures log == old(log) + FanOut(strategies, OrderBookUpdate(book, symbol, provider))
    {
      NotifyAll(strategies, OrderBookUpdate(book, symbol, provider));
    }

    /**
     * The ticker callback registered by `subscribe_market_data`: an update message becomes
     * a ticker stamped `now` and goes to `_ticker_callback`, whose exception is caught;
     * any other message is ignored.
     */
    method OnTickerMessage(m: WsMessage, symbol: string, provider: string, now: nat, strategies: seq<string>)
      requires Valid()
      modifies this`aggregators, this`log
      ensures Valid()
      ensures var t := DecodeTicker(m, symbol, now);
        if t.None? then aggregators == old(aggregators) && log == old(log)
        else
          var o := FeedTable(old(aggregators), TickerEvent(t.value), symbol, provider, symbol in charts, strategies);
          aggregators == o.table && log == old(log) + FanOut(strategies, TickerUpdate(t.value, symbol, provider)) + o.notices
    {
      var t := DecodeTicker(m, symbol, now);
      if t.Some? {
        var _ := TickerCallback(t.value, symbol, provider, strategies);
      }
    }

    /**
     * The order-book callback registered by `subscribe_market_data`. It builds the book
     * without `raw_data`, so every update message raises TypeError, which is caught and
     * logged: no strategy ever hears of a book. Other messages are ignored.
     */
    method OnOrderBookMessage(m: WsMessage, symbol: string, provider: string, now: nat, strategies: seq<string>)
      returns (error: Option<Exception>)
      modifies this`log
      ensures log == old(log)
      ensures error == if IsUpdate(m) then Some(TypeError) else None
    {
      error := None;
      var book := DecodeOrderBook(m, symbol, now, None);
      if book.Some? {
        match book.value {
          case Raised(e) => error := Some(e);
          case Ok(_) =>
            // never taken: without `raw_data` the book is not built, so `_orderbook_callback` is not reached
            assert false;
        }
      }
    }

    /**
     * The order-book callback with the book built with the message as its `raw_data`: an
     * update message becomes a book passed to every strategy; other messages are ignored.
     */
    method OnOrderBookMessageCorrected(m: WsMessage, symbol: string, provider: string, now: nat, strategies: seq<string>)
      modifies this`log
      ensures !IsUpdate(m) ==> log == old(log)
      ensures IsUpdate(m) ==>
        var book := OrderBook(symbol, SideEntries(EventsOf(m), "bid"), SideEntries(EventsOf(m), "ask"), now, m.json);
        log == old(log) + FanOut(strategies, OrderBookUpdate(book, symbol, provider))
    {
      var raw := if m.WsObject? then m.json else [];
      var book := DecodeOrderBook(m, symbol, now, Some(raw));
      if book.Some? && book.value.Ok? {
        OrderbookCallback(book.value.value, symbol, provider, strategies);
      }
    }

    /**
     * The trades callback registered by `subscribe_market_data`: each trade of an update
     * message goes to `_trades_callback` in turn; an exception ends the batch and is caught.
     */
    method OnTradesMessage(m: WsMessage, symbol: string, provider: string, now: nat, strategies: seq<string>)
      requires Valid()
      modifies this`aggregators, this`log
      ensures Valid()
      ensures var trades := if IsUpdate(m) then TradesOf(EventsOf(m), symbol, now) else [];
        var o := TradesOutcome(old(aggregators), trades, symbol, provider, symbol in charts, strategies);
        aggregators == o.table && log == old(log) + o.notices
    {
      var trades := DecodeTrades(m, symbol, now);
      FeedTrades(trades, symbol, provider, strategies);
    }

    /** Each trade in turn goes to `_trades_callback`, up to the first one that raises. */
    method FeedTrades(trades: seq<Trade>, symbol: string, provider: string, strategies: seq<string>)
      requires Valid()
      modifies this`aggregators, this`log
      ensures Valid()
      ensures var o := TradesOutcome(old(aggregators), trades, symbol, provider, symbol in charts, strategies);
        aggregators == o.table && log == old(log) + o.notices
    {
      ghost var charted := symbol in charts;
      ghost var final := TradesOutcome(aggregators, trades, symbol, provider, charted, strategies);
      ghost var tail := final;
      var i := 0;
      var error: Option<Exception> := None;
      assert trades[i..] == trades;
      while i < |trades| && error.None?
        invariant 0 <= i <= |trades|
        invariant Valid()
        invariant error.None? ==> tail == TradesOutcome(aggregators, trades[i..], symbol, provider, charted, strategies)
        invariant error.Some? ==> tail == TableOutcome(aggregators, [], error)
        invariant tail.table == final.table && tail.error == final.error
        invariant log + tail.notices == old(log) + final.notices
        decreases |trades| - i + (if error.None? then 1 else 0)
      {
        ghost var o := FeedTable(aggregators, TradeEvent(trades[i]), symbol, provider, charted, strategies);
        ghost var head := FanOut(strategies, TradeUpdate(trades[i], symbol, provider)) + o.notices;
        ghost var rest :=
          if o.error.Some? then TableOutcome(o.table, [], o.error)
          else TradesOutcome(o.table, trades[i + 1..], symbol, provider, charted, strategies);
        assert tail == TableOutcome(rest.table, head + rest.notices, rest.error) by {
          assert trades[i..][0] == trades[i] && trades[i..][1..] == trades[i + 1..];
        }
        ghost var l0 := log;
        error := TradesCallback(trades[i], symbol, provider, strategies);
        ConcatAssoc(l0, FanOut(strategies, TradeUpdate(trades[i], symbol, provider)), o.notices);
        assert log == l0 + head;
        ConcatAssoc(l0, head, rest.notices);
        tail := rest;
        if error.None? {
          i := i + 1;
        }
      }
      assert error.None? ==> trades[i..] == [];
    }

    /**
     * `_update_strategies_timer` at clock time `now`: the completion check of every
     * aggregator, then, unless an aggregator raised, every strategy's timer update.
     */
    method UpdateStrategiesTimer(now: int, strategies: seq<string>) returns (error: Option<Exception>)
      requires Valid()
      modifies this`aggregators, this`log
      ensures Valid()
      ensures var o := CheckTable(old(aggregators), subscriptions, charts, now, strategies);
        error == o.error && aggregators == o.table &&
        log == old(log) + o.notices + (if o.error.None? then FanOut(strategies, TimerUpdate(now)) else [])
    {
      error := CheckAggregators(now, strategies);
      if error.None? {
        NotifyAll(strategies, TimerUpdate(now));
      }
    }

    /** The completion check of `_update_strategies_timer`: every row in table order, up to the first aggregator that raises. */
    method CheckAggregators(now: int, strategies: seq<string>) returns (error: Option<Exception>)
      requires Valid()
      modifies this`aggregators, this`log
      ensures Valid()
      ensures var o := CheckTable(old(aggregators), subscriptions, charts, now, strategies);
        error == o.error && aggregators == o.table && log == old(log) + o.notices
    {
      var done;
      done, error := CheckRows(aggregators, now, strategies);
      CheckTableLaws(aggregators, subscriptions, charts, now, strategies);
      SameKeysSamePresence(done, aggregators);
      aggregators := done;
    }

    /** The loop of the completion check over the rows of `t`, up to the first aggregator that raises. */
    method CheckRows(t: Table, now: int, strategies: seq<string>) returns (done: Table, error: Option<Exception>)
      modifies this`log
      ensures var o := CheckTable(t, subscriptions, charts, now, strategies);
        error == o.error && done == o.table && log == old(log) + o.notices
    {
      ghost var final := CheckTable(t, subscriptions, charts, now, strategies);
      ghost var tail := final;
      done := [];
      var j := 0;
      error := None;
      assert t[j..] == t;
      while j < |t|
        invariant 0 <= j <= |t|
        invariant error.None? ==> tail == CheckTable(t[j..], subscriptions, charts, now, strategies)
        invariant error.Some? ==> j == |t| && tail == TableOutcome([], [], error)
        invariant final.table == done + tail.table && final.error == tail.error
        invariant log + tail.notices == old(log) + final.notices
      {
        var symbol := t[j].0;
        ghost var providers := Enumerate(ProvidersOf(subscriptions, symbol));
        ghost var o := StepRow(t[j].1, CheckEvent(now), symbol, providers, symbol in charts, strategies);
        ghost var rest :=
          if o.error.Some? then TableOutcome(t[j + 1..], [], o.error)
          else CheckTable(t[j + 1..], subscriptions, charts, now, strategies);
        assert tail == TableOutcome([(symbol, o.row)] + rest.table, o.notices + rest.notices, rest.error) by {
          assert t[j..][0] == t[j] && t[j..][1..] == t[j + 1..];
        }
        ghost var l0 := log;
        var row', err := RunRow(t[j].1, CheckEvent(now), symbol, providers, symbol in charts, strategies);
        ConcatAssoc(l0, o.notices, rest.notices);
        ConcatAssoc(done, [(symbol, row')], rest.table);
        if err.Some? {
          done := done + [(symbol, row')] + t[j + 1..];
          error := err;
          tail := TableOutcome([], [], err);
          j := |t|;
        } else {
          done := done + [(symbol, row')];
          tail := rest;
          j := j + 1;
        }
      }
      assert error.None? ==> t[j..] == [];
      assert tail.table == [];
      assert done == final.table;
    }

    /**
     * `subscribe_market_data`. `failing` holds the channels whose data-service subscribe
     * call raises; `None` and an empty list of intervals are alike.
     */
    method Subscribe(provider: string, symbol: string, channels: Option<seq<string>>, intervals: seq<string>, failing: set<string>)
      requires Valid()
      modifies this
      ensures Valid()
      ensures var o := SubscribeChannels(old(subscriptions), old(activeSymbols), provider, symbol, ChannelList(channels, SubscribeDefault), failing);
        State() == old(State()).(
          aggregators := SubscribeAggregators(old(aggregators), symbol, intervals),
          charts := old(charts) + {symbol},
          subscriptions := o.subs,
          activeSymbols := o.active) &&
        log == old(log) + o.calls
    {
      ghost var s0 := State();
      var cs := ChannelList(channels, SubscribeDefault);
      SubscribeAggregatorsLaws(aggregators, symbol, intervals);
      SubscribeChannelsLaws(subscriptions, activeSymbols, provider, symbol, cs, failing);
      AddAggregators(symbol, intervals);
      charts := charts + {symbol};
      SubscribeEach(provider, symbol, cs, failing);
      assert StateValid(State()) by {
        assert forall s :: Get(aggregators, s).Some? ==> s == symbol || Get(s0.aggregators, s).Some?;
      }
    }

    /** The aggregator part of `subscribe_market_data`. */
    method AddAggregators(symbol: string, intervals: seq<string>)
      modifies this`aggregators
      ensures aggregators == SubscribeAggregators(old(aggregators), symbol, intervals)
    {
      if intervals != [] {
        var row := RowOf(aggregators, symbol);
        var i := 0;
        while i < |intervals|
          invariant 0 <= i <= |intervals|
          invariant AddIntervals(row, symbol, intervals[i..]) == AddIntervals(RowOf(aggregators, symbol), symbol, intervals)
        {
          assert intervals[i..][0] == intervals[i] && intervals[i..][1..] == intervals[i + 1..];
          if Get(row, intervals[i]).None? {
            row := Put(row, intervals[i], Initial(symbol, intervals[i]));
          }
          i := i + 1;
        }
        assert intervals[i..] == [];
        aggregators := Put(aggregators, symbol, row);
      } else if RowOf(aggregators, symbol) == [] {
        aggregators := Put(aggregators, symbol, Put(RowOf(aggregators, symbol), "1m", Initial(symbol, "1m")));
      }
    }

    /** The channel loop of `subscribe_market_data`. */
    method SubscribeEach(provider: string, symbol: string, cs: seq<string>, failing: set<string>)
      modifies this`subscriptions, this`activeSymbols, this`log
      ensures var o := SubscribeChannels(old(subscriptions), old(activeSymbols), provider, symbol, cs, failing);
        subscriptions == o.subs && activeSymbols == o.active && log == old(log) + o.calls
    {
      ghost var final := SubscribeChannels(subscriptions, activeSymbols, provider, symbol, cs, failing);
      ghost var tail := final;
      var k := 0;
      assert cs[k..] == cs;
      while k < |cs|
        invariant 0 <= k <= |cs|
        invariant tail == SubscribeChannels(subscriptions, activeSymbols, provider, symbol, cs[k..], failing)
        invariant tail.subs == final.subs && tail.active == final.active
        invariant log + tail.calls == old(log) + final.calls
      {
        var c := cs[k];
        assert cs[k..][0] == c && cs[k..][1..] == cs[k + 1..];
        var sub := Subscription(symbol, c, provider);
        if sub !in subscriptions {
          ghost var call := if KnownChannel(c) then [ProviderSubscribe(provider, symbol, c)] else [];
          ghost var l0 := log;
          if KnownChannel(c) {
            log := log + [ProviderSubscribe(provider, symbol, c)];
          }
          if Succeeds(c, failing) {
            subscriptions := subscriptions + {sub};
            activeSymbols := activeSymbols + {symbol};
          }
          ghost var rest := SubscribeChannels(subscriptions, activeSymbols, provider, symbol, cs[k + 1..], failing);
          assert tail.calls == call + rest.calls;
          ConcatAssoc(l0, call, rest.calls);
          tail := rest;
        }
        k := k + 1;
      }
      assert cs[k..] == [];
    }

    /**
     * `unsubscribe_market_data`. `failing` holds the channels whose data-service
     * unsubscribe call raises. Once no subscription of the symbol remains, the symbol
     * leaves the active ones, which raises KeyError if it was not among them; otherwise
     * the listed intervals' aggregators are deleted.
     */
    method Unsubscribe(provider: string, symbol: string, channels: Option<seq<string>>, intervals: seq<string>, failing: set<string>)
      returns (error: Option<Exception>)
      requires Valid()
      modifies this
      ensures Valid()
      ensures var o := UnsubscribeChannels(old(subscriptions), provider, symbol, ChannelList(channels, UnsubscribeDefault), failing);
        log == old(log) + o.calls &&
        if HasSymbol(o.subs, symbol) then
          error.None? && State() == old(State()).(subscriptions := o.subs)
        else if symbol !in old(activeSymbols) then
          error == Some(KeyError) && State() == old(State()).(subscriptions := o.subs)
        else
          error.None? &&
          State() == old(State()).(
            subscriptions := o.subs,
            activeSymbols := old(activeSymbols) - {symbol},
            aggregators := UnsubscribeAggregators(old(aggregators), symbol, intervals))
    {
      ghost var s0 := State();
      var cs := ChannelList(channels, UnsubscribeDefault);
      UnsubscribeAggregatorsLaws(aggregators, symbol, intervals);
      UnsubscribeChannelsLaws(subscriptions, provider, symbol, cs, failing);
      UnsubscribeEach(provider, symbol, cs, failing);
      if HasSymbol(subscriptions, symbol) {
        return None;
      }
      if symbol !in activeSymbols {
        return Some(KeyError);
      }
      activeSymbols := activeSymbols - {symbol};
      DropAggregators(symbol, intervals);
      assert StateValid(State()) by {
        assert forall s :: Get(aggregators, s).Some? ==> Get(s0.aggregators, s).Some?;
      }
      error := None;
    }

    /** The channel loop of `unsubscribe_market_data`. */
    method UnsubscribeEach(provider: string, symbol: string, cs: seq<string>, failing: set<string>)
      modifies this`subscriptions, this`log
      ensures var o := UnsubscribeChannels(old(subscriptions), provider, symbol, cs, failing);
        subscriptions == o.subs && log == old(log) + o.calls
    {
      ghost var final := UnsubscribeChannels(subscriptions, provider, symbol, cs, failing);
      ghost var tail := final;
      var k := 0;
      assert cs[k..] == cs;
      while k < |cs|
        invariant 0 <= k <= |cs|
        invariant tail == UnsubscribeChannels(subscriptions, provider, symbol, cs[k..], failing)
        invariant tail.subs == final.subs
        invariant log + tail.calls == old(log) + final.calls
      {
        var c := cs[k];
        assert cs[k..][0] == c && cs[k..][1..] == cs[k + 1..];
        var sub := Subscription(symbol, c, provider);
        if sub in subscriptions {
          ghost var call := if KnownChannel(c) then [ProviderUnsubscribe(provider, symbol, c)] else [];
          ghost var l0 := log;
          if KnownChannel(c) {
            log := log + [ProviderUnsubscribe(provider, symbol, c)];
          }
          if Succeeds(c, failing) {
            subscriptions := subscriptions - {sub};
          }
          ghost var rest := UnsubscribeChannels(subscriptions, provider, symbol, cs[k + 1..], failing);
          assert tail.calls == call + rest.calls;
          ConcatAssoc(l0, call, rest.calls);
          tail := rest;
        }
        k := k + 1;
      }
      assert cs[k..] == [];
    }

    /** The aggregator part of `unsubscribe_market_data`, once the symbol has left the active ones. */
    method DropAggregators(symbol: string, intervals: seq<string>)
      requires DistinctKeys(aggregators) && DistinctKeys(RowOf(aggregators, symbol))
      modifies this`aggregators
      ensures aggregators == UnsubscribeAggregators(old(aggregators), symbol, intervals)
    {
      if intervals != [] && Get(aggregators, symbol).Some? {
        var row := RowOf(aggregators, symbol);
        RemoveIntervalsLaws(row, intervals);
        var i := 0;
        assert intervals[i..] == intervals;
        while i < |intervals|
          invariant 0 <= i <= |intervals|
          invariant DistinctKeys(row)
          invariant RemoveIntervals(row, intervals[i..]) == RemoveIntervals(RowOf(aggregators, symbol), intervals)
        {
          assert intervals[i..][0] == intervals[i] && intervals[i..][1..] == intervals[i + 1..];
          if Get(row, intervals[i]).Some? {
            row := Remove(row, intervals[i]);
          }
          i := i + 1;
        }
        assert intervals[i..] == [];
        if row == [] {
          aggregators := Remove(aggregators, symbol);
        } else {
          aggregators := Put(aggregators, symbol, row);
        }
      }
    }
  }

  /** Every strategy told of `call`, if `cond` holds. */
  function NoticeIf(cond: bool, strategies: seq<string>, call: StrategyCall): seq<Notice>
  {
    if cond then FanOut(strategies, call) else []
  }

  /** The outcome of a row whose first aggregators, already stepped, gave `done` and `notes`. */
  function Prepend(done: Row, notes: seq<Notice>, o: RowOutcome): RowOutcome
  {
    RowOutcome(done + o.row, notes + o.notices, o.error)
  }

  /** Nothing stepped yet, or nothing left to step, changes no outcome. */
  lemma PrependNothing(o: RowOutcome)
    ensures Prepend([], [], o) == o && Prepend(o.row, o.notices, RowOutcome([], [], o.error)) == o
  {
    assert [] + o.row == o.row && [] + o.notices == o.notices;
    assert o.row + [] == o.row && o.notices + [] == o.notices;
  }

  /** One more aggregator that did not raise moves from the rest of the row to the stepped part. */
  lemma PrependStep(done: Row, notes: seq<Notice>, entry: (string, AggState), here: seq<Notice>, rest: RowOutcome)
    ensures Prepend(done, notes, RowOutcome([entry] + rest.row, here + rest.notices, rest.error)) ==
      Prepend(done + [entry], notes + here, rest)
  {
    ConcatAssoc(done, [entry], rest.row);
    ConcatAssoc(notes, here, rest.notices);
  }

  /** Prepending one call to a list of calls prepends its fan-out to the notices. */
  lemma CallsCons(strategies: seq<string>, call: StrategyCall, rest: seq<StrategyCall>)
    ensures Broadcast(strategies, [call] + rest) == FanOut(strategies, call) + Broadcast(strategies, rest)
  {
    assert ([call] + rest)[1..] == rest;
  }

  /** The changed-position pass of a refresh, one new position at a time. */
  function ChangedNotices(before: Dict<Position>, after: Dict<Position>, broker: string, strategies: seq<string>): seq<Notice>
  {
    if after == [] then []
    else
      NoticeIf(Get(before, after[0].0) != Some(after[0].1), strategies, PositionUpdate(after[0].1, broker)) +
      ChangedNotices(before, after[1..], broker, strategies)
  }

  /** The closed-position pass of a refresh, one cached position at a time. */
  function ClosedNotices(before: Dict<Position>, keys: seq<string>, broker: string, strategies: seq<string>): seq<Notice>
  {
    if before == [] then []
    else
      NoticeIf(before[0].0 !in keys, strategies, PositionUpdate(ZeroPosition(before[0].0), broker)) +
      ClosedNotices(before[1..], keys, broker, strategies)
  }

  lemma {:induction false} ChangedNoticesAreBroadcast(before: Dict<Position>, after: Dict<Position>, broker: string, strategies: seq<string>)
    ensures ChangedNotices(before, after, broker, strategies) ==
      Broadcast(strategies, PositionCalls(ChangedPositions(before, after), broker))
  {
    if after != [] {
      var p := after[0].1;
      var rest := ChangedPositions(before, after[1..]);
      var restNotes := ChangedNotices(before, after[1..], broker, strategies);
      assert restNotes == Broadcast(strategies, PositionCalls(rest, broker)) by {
        ChangedNoticesAreBroadcast(before, after[1..], broker, strategies);
      }
      var changed := Get(before, after[0].0) != Some(p);
      var head := if changed then [p] else [];
      assert ChangedPositions(before, after) == head + rest;
      assert ChangedNotices(before, after, broker, strategies) == NoticeIf(changed, strategies, PositionUpdate(p, broker)) + restNotes;
      if changed {
        assert PositionCalls(head + rest, broker) == [PositionUpdate(p, broker)] + PositionCalls(rest, broker);
        CallsCons(strategies, PositionUpdate(p, broker), PositionCalls(rest, broker));
      } else {
        assert head + rest == rest;
      }
    }
  }

  lemma {:induction false} ClosedNoticesAreBroadcast(before: Dict<Position>, keys: seq<string>, broker: string, strategies: seq<string>)
    ensures ClosedNotices(before, keys, broker, strategies) ==
      Broadcast(strategies, PositionCalls(ClosedPositions(before, keys), broker))
  {
    if before != [] {
      var p := ZeroPosition(before[0].0);
      var rest := ClosedPositions(before[1..], keys);
      var restNotes := ClosedNotices(before[1..], keys, broker, strategies);
      assert restNotes == Broadcast(strategies, PositionCalls(rest, broker)) by {
        ClosedNoticesAreBroadcast(before[1..], keys, broker, strategies);
      }
      var closed := before[0].0 !in keys;
      var head := if closed then [p] else [];
      assert ClosedPositions(before, keys) == head + rest;
      assert ClosedNotices(before, keys, broker, strategies) == NoticeIf(closed, strategies, PositionUpdate(p, broker)) + restNotes;
      if closed {
        assert PositionCalls(head + rest, broker) == [PositionUpdate(p, broker)] + PositionCalls(rest, broker);
        CallsCons(strategies, PositionUpdate(p, broker), PositionCalls(rest, broker));
      } else {
        assert head + rest == rest;
      }
    }
  }

  /** The position notices of a refresh are the changed pass followed by the closed pass. */
  lemma PositionNoticesInTwoPasses(before: Dict<Position>, fetched: seq<Position>, broker: string, strategies: seq<string>)
    ensures PositionNotices(before, fetched, broker, strategies) ==
      ChangedNotices(before, PositionsBySymbol(fetched), broker, strategies) +
      ClosedNotices(before, Keys(PositionsBySymbol(fetched)), broker, strategies)
  {
    var after := PositionsBySymbol(fetched);
    ChangedNoticesAreBroadcast(before, after, broker, strategies);
    ClosedNoticesAreBroadcast(before, Keys(after), broker, strategies);
    PositionCallsConcat(ChangedPositions(before, after), ClosedPositions(before, Keys(after)), broker);
    BroadcastConcat(strategies,
      PositionCalls(ChangedPositions(before, after), broker), PositionCalls(ClosedPositions(before, Keys(after)), broker));
  }

  /** The order loop as one pass: the cache after it, and the notices it sends. */
  function OrderSync(orders: map<string, Order>, os: seq<Order>, broker: string, strategies: seq<string>): (map<string, Order>, seq<Notice>)
    decreases |os|
  {
    if os == [] then (orders, [])
    else
      var o := os[0];
      var rest := OrderSync(orders[o.id := o], os[1..], broker, strategies);
      (rest.0, NoticeIf(o.id !in orders || orders[o.id] != o, strategies, OrderUpdate(o, broker)) + rest.1)
  }

  lemma {:induction false} OrderSyncIsUpsertAndReport(orders: map<string, Order>, os: seq<Order>, broker: string, strategies: seq<string>)
    ensures OrderSync(orders, os, broker, strategies) == (UpsertOrders(orders, os), OrderNotices(orders, os, broker, strategies))
    decreases |os|
  {
    if os != [] {
      var o := os[0];
      var next := orders[o.id := o];
      var rest := ChangedOrders(next, os[1..]);
      var restSync := OrderSync(next, os[1..], broker, strategies);
      assert restSync == (UpsertOrders(next, os[1..]), Broadcast(strategies, OrderCalls(rest, broker))) by {
        OrderSyncIsUpsertAndReport(next, os[1..], broker, strategies);
      }
      var changed := o.id !in orders || orders[o.id] != o;
      var head := if changed then [o] else [];
      assert ChangedOrders(orders, os) == head + rest;
      assert UpsertOrders(orders, os) == UpsertOrders(next, os[1..]);
      assert OrderSync(orders, os, broker, strategies) == (restSync.0, NoticeIf(changed, strategies, OrderUpdate(o, broker)) + restSync.1);
      if changed {
        assert OrderCalls(head + rest, broker) == [OrderUpdate(o, broker)] + OrderCalls(rest, broker);
        CallsCons(strategies, OrderUpdate(o, broker), OrderCalls(rest, broker));
      } else {
        assert head + rest == rest;
        assert OrderNotices(orders, os, broker, strategies) == restSync.1;
        assert NoticeIf(changed, strategies, OrderUpdate(o, broker)) + restSync.1 == restSync.1;
      }
    }
  }
}
