# tradeforge core, modelled in Dafny

This project models the core of tradeforge, a Python system that feeds exchange market
data to trading strategies and places the orders they ask for. The model covers:

- **Candle aggregation** (`CandleAggregation`, `candle_aggregator.dfy`). This is the
  per-symbol, per-interval state machine that turns tickers and trades into OHLCV candles.
  A clock check closes a candle whose interval has elapsed. Each rule is a pure step
  function over an `AggState` value. The class `CandleAggregator` updates its fields in
  place and is proved to perform exactly those steps.
- **Interval strings** (`Intervals`). The parser of "15m", "4h" and "1d" appears in two
  places in the source, the aggregator and the Gemini data provider. It is defined once
  here.
- **Engine bookkeeping** (`Engine`, `EngineTables`, `EngineEvents`, `BrokerSync`). The class
  `TradingEngine` holds:
  - the subscription set and the active symbols and brokers;
  - the `symbol -> interval -> aggregator` table;
  - the order, position and account caches;
  - the signal handlers.

  Every call the engine makes on a strategy, a chart, a signal handler or the data service
  is appended to a ghost `log`. That makes fan-out and ordering statable. The websocket
  payload decoders, the reconciliation of fresh broker data, the timer fan-out and the
  main-loop cadence are modelled as well.
- **SMA crossover strategy** (`SmaStrategy`). This is the class
  `SimpleMovingAverageStrategy`. It has a bounded candle window per interval, a moving
  average crossover test, position and balance gates, and a one-hour cooldown.
- **Strategy registry** (`StrategyRegistry`). This is the class `StrategyService`:
  discovery's file filter and ids, plus load, unload and the getters.
- **Gemini data provider** (`GeminiProvider`). It covers the trade-limit clamp and the
  trade mapping. It also covers `get_candles`, which sorts recent trades and buckets them
  into candles.
- **Gemini broker** (`GeminiBroker`). It covers:
  - the order payload;
  - status derivation;
  - the `get_orders` filters;
  - rebuilding orders from the trade history, with average prices;
  - balances to positions.

Python dicts iterate in insertion order, and the engine's fan-out depends on that order.
They are therefore modelled as association lists (`Dicts.Dict`), with lookup, assignment
and deletion laws.

Each result from a collaborator is a parameter of the operation that uses it. This covers
a broker's account, a provider's answer to a subscribe call, an exchange response, the
loaded strategies and the clock. A call that raises is `Fetch.Failed`, or a set of failing
channels. Exceptions the source raises are `Result.Raised` values.

Some behaviour of the source is modelled as written and stated by a lemma:

- `place_order` looks its status table up with the boolean `is_live`, but the table is
  keyed by status names. Every placed order therefore comes back PENDING
  (`GeminiBroker.PlacedOrderLaws`).
- With exactly `long_period` candles, the strategy's previous long average sums only
  `long_period - 1` closes but still divides by `long_period`
  (`SmaStrategy.PreviousLongWindowShort`).
- With the default end time, `get_candles` stops at the last trade's time. When the window
  is a whole number of intervals long, the trades at that time fall in no candle
  (`GeminiProvider.LastTradeOnBoundary`).
- The order-book callback that `subscribe_market_data` registers builds `OrderBook`
  without `raw_data`, a field with no default. Every update message therefore raises
  TypeError, which the callback catches and logs, and no strategy ever hears of a book
  (`Engine.TradingEngine.OnOrderBookMessage`). The corrected handler is modelled beside it;
  see "Findings".
- `get_candles` parses the interval before it looks at the trades, so a malformed interval
  raises even when there are no trades. A zero interval with a non-empty window never
  advances its loop; the model returns `Diverges` for it. A negative interval walks the
  bucket start backwards until adding the interval leaves the years a `datetime` can hold,
  which raises OverflowError (`GeminiProvider.NonPositiveIntervals`).
- After a clock check resets an aggregator that has no ticker price, a later event from an
  earlier bucket opens a new candle. Candle times only increase when the clock of the
  checks is monotone along with the events (`CandleAggregation.CompletedCandlesIncrease`).

## Model

| member | source | states |
|---|---|---|
| Intervals.IntervalToSecondsCases | src/data/candle_aggregator.py:176-188 | The last character is the unit and the rest is read by `int()`. The result is count × 60, 3600 or 86400 for m, h, d. Any other unit or an unreadable count is a ValueError, and the empty string is an IndexError. |
| Intervals.IntervalOfCountAndUnit | src/data/providers/gemini.py:145-155 | "Nm", "Nh" and "Nd" parse to N·60, N·3600 and N·86400 seconds for every integer N. |
| Intervals.UnknownUnitRaises | src/data/providers/gemini.py:156-157 | Any other unit letter raises ValueError, whatever precedes it. |
| Intervals.ParseIntString | src/data/candle_aggregator.py:179 | `int(str(n)) == n`: the count parser reads back every integer written in decimal. |
| Intervals.ParseIntIgnoresSpace | src/data/candle_aggregator.py:179 | Whitespace added before or after the text never changes what `int()` reads. |
| Intervals.ParseIntUnderscores | src/data/candle_aggregator.py:179 | Underscores between digits are dropped: "1_000" reads as 1000. |
| Intervals.ParseIntBadUnderscores | src/data/candle_aggregator.py:179 | "1__0", "1_" and "_1" are refused: a doubled, trailing or leading underscore. |
| Intervals.ParseIntPaddedSigned | src/data/candle_aggregator.py:179 | Padding and a sign are read: " -7\n" is -7. |
| Execution.ParseSide | src/execution/base.py:14-16 | `OrderSide(v)` succeeds exactly for "buy" and "sell" and returns the side whose value is v; anything else raises ValueError. |
| CandleAggregation.RoundTimeDown | src/data/candle_aggregator.py:190-194 | The bucket start is a multiple of the interval, is at most the timestamp and is more than the timestamp minus the interval. A zero interval is a ZeroDivisionError. |
| CandleAggregation.TruncDivScaled | src/data/candle_aggregator.py:190-194 | Truncating the quotient and scaling it back drops exactly the remainder modulo the interval's absolute value. The result is at most the time and within one interval of it. |
| CandleAggregation.Flat | src/data/candle_aggregator.py:156-164 | A candle opened at one price has ordered prices, the given start and the given volume. |
| CandleAggregation.InitialWellFormed | src/data/candle_aggregator.py:15-28 | A fresh aggregator satisfies the invariant every reachable state keeps. |
| CandleAggregation.OnTicker | src/data/candle_aggregator.py:30-80 | Another symbol's ticker changes nothing. A first or strictly later bucket completes the old candle and opens a flat one with no volume. Otherwise high and low widen, close becomes the price, the ticker price is remembered and volume is untouched. No completed candle comes out then, and the invariant is kept. |
| CandleAggregation.OnTrade | src/data/candle_aggregator.py:82-133 | As for tickers, except that a new candle starts with the trade amount as volume. A merged trade adds its amount to the running volume, which becomes the candle's volume. The ticker price is untouched and the start time never decreases. |
| CandleAggregation.OnCheck | src/data/candle_aggregator.py:135-174 | No candle means nothing happens. Once the clock reaches start + interval, the candle is returned. Then, with a truthy ticker price, a flat volume-0 candle at the old close opens at exactly start + interval; without one, the aggregator forgets its candle. Before that, nothing happens. |
| CandleAggregation.CandleAggregator.constructor | src/data/candle_aggregator.py:15-28 | The fields start as the initial state: no candle, no start time, no ticker price, zero volume. |
| CandleAggregation.CandleAggregator.CandleStart | src/data/candle_aggregator.py:44-48 | The interval is parsed at every event, then the timestamp is rounded down; both failures propagate. |
| CandleAggregation.CandleAggregator.StartsNewCandle | src/data/candle_aggregator.py:51 | A new candle opens when there is none or the bucket is strictly later. A candle without a start time makes the comparison raise TypeError. |
| CandleAggregation.CandleAggregator.ProcessTicker | src/data/candle_aggregator.py:30-80 | The returned pair and the new fields are exactly those of `OnTicker` on the old fields. |
| CandleAggregation.CandleAggregator.ProcessTrade | src/data/candle_aggregator.py:82-133 | The returned pair and the new fields are exactly those of `OnTrade` on the old fields. |
| CandleAggregation.CandleAggregator.CheckCandleCompletion | src/data/candle_aggregator.py:135-174 | The returned candle and the new fields are exactly those of `OnCheck` on the old fields. |
| CandleAggregation.VolumeAccumulates | src/data/candle_aggregator.py:122-131 | While events stay in the current candle: nothing is completed, start and open stay, and the volume grows by exactly the amounts of the trades. |
| CandleAggregation.VolumeSinceOpen | src/data/candle_aggregator.py:115-131 | A candle's volume is the total amount of the trades since the event that opened it. |
| CandleAggregation.StepKeepsInvariant | src/data/candle_aggregator.py:51-68 | With a positive interval and non-decreasing times, one step never raises and keeps the completion invariant. |
| CandleAggregation.CompletedCandlesIncrease | src/data/candle_aggregator.py:145-172 | Take a fresh aggregator with a positive interval and feed it events in time order, clock checks included. It never raises, and the candles it completes have strictly increasing start times. |
| EngineEvents.RemoveFirst | src/engine/trading_engine.py:60-68 | Removing a handler drops its first occurrence and keeps the rest in order. An absent handler leaves the list unchanged. |
| EngineEvents.AddThenRemoveHandler | src/engine/trading_engine.py:51-68 | Adding a new handler and removing it again restores the list. |
| EngineEvents.BroadcastConcat | src/engine/trading_engine.py:628-668 | Notifying the strategies of two batches of calls is notifying them of each batch in turn. |
| EngineEvents.BroadcastMembership | src/engine/trading_engine.py:636-640 | Exactly the loaded strategies receive exactly the given calls. Each call is made on each strategy even when another raised. |
| EngineEvents.DecodeTicker | src/engine/trading_engine.py:288-304 | Only "update" messages decode. The ticker is for the subscribed symbol at the clock time. Its prices come from the first event, with absent values reading as 0, or are all 0 when there is no event. |
| EngineEvents.SideEntriesConcat | src/engine/trading_engine.py:319-329 | Splitting events by side works event by event, so two batches decode to the two decodes joined. |
| EngineEvents.SideEntriesEmpty | src/engine/trading_engine.py:319-329 | Entries on a side come only from events on that side. |
| EngineEvents.BookOf | src/engine/trading_engine.py:314-336 | Only "update" messages yield a result. Building the book without `raw_data` raises TypeError, and with it the book holds the entries of the "bid" events as bids and those of the "ask" events as asks, in order, with the symbol, the clock time and that raw data. |
| EngineEvents.DecodeOrderBook | src/engine/trading_engine.py:314-336 | The decoding loop yields exactly `BookOf` for the given `raw_data` argument. |
| EngineEvents.OneBidUpdate | src/engine/trading_engine.py:331-336 | A one-bid update raises TypeError when the book is built without `raw_data`, as the source builds it, and is the one-bid book when it is built with the message. |
| EngineEvents.TradeOf | src/engine/trading_engine.py:353-362 | The side is "buy" exactly when the maker sold. Symbol and time are the subscription's and the clock's. A missing price or amount is 0, and the trade id reads back as the tid. |
| EngineEvents.TradesAreTradeEvents | src/engine/trading_engine.py:349-363 | Exactly the events of type "trade" become trades, one each and in order. |
| EngineEvents.DecodeTrades | src/engine/trading_engine.py:346-365 | An "update" message yields the trades of its "trade" events; any other message yields none. |
| EngineTables.AddIntervalsLaws | src/engine/trading_engine.py:258-265 | An existing aggregator is never replaced. Each listed interval without one gets a fresh aggregator, nothing else is added, and keys stay distinct. |
| EngineTables.SubscribeAggregatorsLaws | src/engine/trading_engine.py:257-272 | Only the symbol's row changes. It gains an aggregator for each requested interval, or "1m" when none is requested and the row is empty or missing. The table stays valid. |
| EngineTables.RemoveIntervalsLaws | src/engine/trading_engine.py:417-421 | Exactly the listed intervals disappear; every other aggregator stays. |
| EngineTables.UnsubscribeAggregatorsLaws | src/engine/trading_engine.py:416-425 | Only the symbol's row changes: the listed intervals go, an emptied row is deleted, and the table stays valid. |
| EngineTables.CandleCalls | src/engine/trading_engine.py:607-614 | One candle call per provider, in the providers' order. |
| EngineTables.CandleNoticesLaws | src/engine/trading_engine.py:604-619 | Each strategy hears of a completed candle once per provider and of nothing else. The chart hears of it exactly for "1m" when the symbol has a chart. |
| EngineTables.ApplyKeepsFit | src/engine/trading_engine.py:688-689 | An aggregator keeps its symbol, interval and invariant through every step that does not raise. |
| EngineTables.StepRowLaws | src/engine/trading_engine.py:688-703 | Stepping a row keeps its intervals in order and keeps it valid. When nothing raises, each aggregator has taken exactly its own step. |
| EngineTables.StepRowKeys | src/engine/trading_engine.py:688-703 | Stepping a row keeps its intervals, in their order. |
| EngineTables.StepRowValid | src/engine/trading_engine.py:688-703 | Stepping a valid row leaves it valid. |
| EngineTables.StepRowSteps | src/engine/trading_engine.py:688-703 | The row keeps its length. When nothing raises, each aggregator has taken exactly its own step. |
| EngineTables.Enumerate | src/engine/trading_engine.py:607-608 | Iterating a set visits each element once, in some fixed order. |
| EngineTables.CheckTableLaws | src/engine/trading_engine.py:600-619 | The timer check keeps the table's symbols in order and keeps the table valid. |
| BrokerSync.PositionsBySymbolLaws | src/engine/trading_engine.py:560 | The symbol map has one entry per symbol among the positions. Each entry is stored under its own symbol and holds the last position with it. |
| BrokerSync.ChangedCount | src/engine/trading_engine.py:564-567 | The changed pass reports a symbol once if its new position is new or differs from the cached one, and otherwise not at all. Positions are compared with their raw data, as the dataclass equality does. |
| BrokerSync.RawOnlyChangeReported | src/engine/trading_engine.py:564-567 | A cached position whose raw data alone changed is reported as changed. |
| BrokerSync.ClosedCount | src/engine/trading_engine.py:570-581 | The closed pass reports a symbol once if it was cached and has disappeared, and otherwise not at all. |
| BrokerSync.PositionReportedOnce | src/engine/trading_engine.py:557-581 | Each symbol is reported at most once per refresh: when new, when changed (raw data included), or when closed. |
| BrokerSync.ClosedAreZero | src/engine/trading_engine.py:573-580 | A closed position is reported with quantity, entry price, mark price and PnL all 0 and empty raw data, for a symbol that was cached and is missing from the new map. |
| BrokerSync.UpsertKeepsAndReplaces | src/engine/trading_engine.py:585-587 | Orders are never removed. Every fetched id holds the last order fetched with it, and other ids keep theirs. |
| BrokerSync.OrderReportedIffChanged | src/engine/trading_engine.py:585-590 | With distinct fetched ids, an order is reported exactly when its id was new or its cached order differs. Orders are compared with their raw data, as the dataclass equality does. |
| BrokerSync.PositionCallsConcat | src/engine/trading_engine.py:564-581 | The position calls of the two passes are those of the joined reports. |
| Engine.SubscribeChannelsLaws | src/engine/trading_engine.py:279-376 | Exactly the granted tuples are added, and the symbol becomes active exactly when one is new. A tuple already present is skipped without a call, and every known channel with a missing tuple is asked for. |
| Engine.UnsubscribeChannelsLaws | src/engine/trading_engine.py:392-409 | Exactly the granted tuples are removed. The data service is called only for tuples that are present. |
| Engine.FeedTableLaws | src/engine/trading_engine.py:686-703 | An event touches only its symbol's row and keeps the table valid. When nothing raises, every aggregator of the row has stepped. |
| Engine.TimerProviders | src/engine/trading_engine.py:607-608 | A timer-completed candle is announced once per distinct provider subscribed to its symbol. |
| Engine.FetchBrokerValid | src/engine/trading_engine.py:462-488 | Fetching keeps the engine invariant and changes only the three caches. A failed account fetch changes nothing. |
| Engine.HoldingNoticesKinds | src/engine/trading_engine.py:557-590 | The position and order part of a refresh makes only position and order calls for that broker. |
| Engine.RefreshAccountNotified | src/engine/trading_engine.py:549-555 | Every strategy hears of the fetched account exactly when it differs from the cached one, raw data included. |
| Engine.HandlerCalls | src/engine/trading_engine.py:77-82 | One call per handler, in list order. |
| Engine.SignalNoticesLaws | src/engine/trading_engine.py:70-98 | Every handler gets the signal, in order and first, even if some raise. The chart gets it exactly when the symbol has one, at price-or-0. Execution is scheduled exactly when a broker is named. |
| Engine.PassesFire | src/engine/trading_engine.py:502-516 | The main loop runs the timer update and the broker refresh exactly at their firing times. |
| Engine.FiringsSpaced | src/engine/trading_engine.py:505-512 | Consecutive runs of an update are at least one period apart, and the first is at least one period after the remembered time. |
| Engine.ChangedNoticesAreBroadcast | src/engine/trading_engine.py:564-567 | The changed pass sends each changed position to every strategy, in the new map's order. A change of raw data alone counts. |
| Engine.ClosedNoticesAreBroadcast | src/engine/trading_engine.py:570-581 | The closed pass sends a zero position for each vanished symbol to every strategy, in the cached map's order. |
| Engine.PositionNoticesInTwoPasses | src/engine/trading_engine.py:557-581 | The position notices of a refresh are the changed pass followed by the closed pass. |
| Engine.OrderSyncIsUpsertAndReport | src/engine/trading_engine.py:583-590 | The order loop leaves the upserted cache and reports each new or changed order to every strategy. A change of raw data alone counts. |
| Engine.TradingEngine.constructor | src/engine/trading_engine.py:23-49 | Everything starts empty and the invariant holds. |
| Engine.TradingEngine.NotifyAll | src/engine/trading_engine.py:636-640 | The call is made on every loaded strategy, in order. |
| Engine.TradingEngine.AddSignalHandler | src/engine/trading_engine.py:51-58 | The handler is appended; nothing else changes. |
| Engine.TradingEngine.RemoveSignalHandler | src/engine/trading_engine.py:60-68 | The first occurrence is removed if present; nothing else changes. |
| Engine.TradingEngine.ProcessSignal | src/engine/trading_engine.py:70-98 | The calls made are exactly `SignalNotices` of the handlers, charts and signal. |
| Engine.TradingEngine.AddBroker | src/engine/trading_engine.py:427-447 | A new broker that the execution service knows is added and its fetch is scheduled. Otherwise nothing happens. |
| Engine.TradingEngine.RemoveBroker | src/engine/trading_engine.py:449-460 | The broker leaves the active set; nothing else changes. |
| Engine.TradingEngine.FetchBrokerData | src/engine/trading_engine.py:462-488 | The caches become `FetchBroker`: each result is stored until the first failed fetch. |
| Engine.TradingEngine.UpsertAll | src/engine/trading_engine.py:482-483 | Each fetched order is stored under its id, in order. |
| Engine.TradingEngine.UpdateBrokerData | src/engine/trading_engine.py:540-593 | The caches become `FetchBroker` and the calls made are `RefreshNotices`. The invariant is kept. |
| Engine.TradingEngine.RefreshCaches | src/engine/trading_engine.py:547-590 | The cache updates and strategy calls of a refresh, from a given starting state. |
| Engine.TradingEngine.RefreshHoldings | src/engine/trading_engine.py:557-590 | Positions are replaced by the symbol map and orders are upserted, up to the first failed fetch, with their notices. |
| Engine.TradingEngine.RefreshAccount | src/engine/trading_engine.py:549-555 | The account is always replaced, and strategies are told exactly when it changed, raw data included. |
| Engine.TradingEngine.RefreshPositions | src/engine/trading_engine.py:557-581 | The broker's positions become the new symbol map; the changed and closed passes are reported. A position whose raw data alone changed is reported. |
| Engine.TradingEngine.ReportChanged | src/engine/trading_engine.py:564-567 | The loop over the new map sends each differing position, raw data included, to every strategy. |
| Engine.TradingEngine.ReportChangedAt | src/engine/trading_engine.py:564-567 | One pass: a position that differs from the cached one, raw data included, is reported, and the notices of the remaining passes follow. |
| Engine.TradingEngine.ReportClosed | src/engine/trading_engine.py:570-581 | The loop over the cached map sends a zero position for each vanished symbol. |
| Engine.TradingEngine.ReportClosedAt | src/engine/trading_engine.py:570-581 | One pass: a cached symbol missing from the new map is reported with a zero position, and the notices of the remaining passes follow. |
| Engine.TradingEngine.UpsertOrder | src/engine/trading_engine.py:586-590 | The order is stored under its id, and reported when new or changed, raw data included. |
| Engine.TradingEngine.UpsertAndReport | src/engine/trading_engine.py:584-590 | The order loop: the cache is upserted and the changed orders, raw data included, are reported. |
| Engine.TradingEngine.UpsertNext | src/engine/trading_engine.py:585-590 | One pass: the cache holds the order under its id, and a changed order (raw data included) is reported. The final cache and notices of the loop are unchanged by taking the pass. |
| Engine.TradingEngine.RunRow | src/engine/trading_engine.py:688-703 | The row's aggregators step in order, each completed candle is announced, and the loop stops at the first that raises. |
| Engine.TradingEngine.RunAt | src/engine/trading_engine.py:688-703 | One pass: the aggregator either raises, leaving the rest of the row untouched and announcing nothing, or yields its next state and its completed candle's notices, followed by the rest of the row's step. |
| Engine.TradingEngine.FeedAggregators | src/engine/trading_engine.py:686-703 | Only the aggregator table and the log change, as `FeedTable` says. |
| Engine.TradingEngine.TickerCallback | src/engine/trading_engine.py:670-703 | Every strategy hears of the ticker, then the symbol's aggregators take it. |
| Engine.TradingEngine.TradesCallback | src/engine/trading_engine.py:720-753 | Every strategy hears of the trade, then the symbol's aggregators take it. |
| Engine.TradingEngine.OrderbookCallback | src/engine/trading_engine.py:705-718 | Every strategy hears of the book; nothing else changes. Only the corrected message handler reaches it. |
| Engine.TradingEngine.OnTickerMessage | src/engine/trading_engine.py:288-304 | An update message becomes a ticker passed to the ticker callback, whose exception is caught. Other messages are ignored. |
| Engine.TradingEngine.OnOrderBookMessage | src/engine/trading_engine.py:311-339 | As written: an update message raises TypeError when the book is built, and the error is caught, so no strategy hears of anything. Other messages are ignored. |
| Engine.TradingEngine.OnOrderBookMessageCorrected | src/engine/trading_engine.py:311-339 | With the message passed as `raw_data`, an update becomes the book of its bid and ask events, sent to every strategy. Other messages are ignored. |
| Engine.TradingEngine.OnTradesMessage | src/engine/trading_engine.py:346-365 | Each decoded trade goes to the trades callback in turn; an exception ends the batch and is caught. |
| Engine.TradingEngine.FeedTrades | src/engine/trading_engine.py:352-363 | The trades are fed in turn up to the first that raises, as `TradesOutcome` says. |
| Engine.TradingEngine.UpdateStrategiesTimer | src/engine/trading_engine.py:595-626 | Every aggregator is checked at the clock time. Then, unless one raised, every strategy gets its timer update. |
| Engine.TradingEngine.CheckAggregators | src/engine/trading_engine.py:599-619 | The completion check walks every row in table order, as `CheckTable` says. |
| Engine.TradingEngine.CheckRows | src/engine/trading_engine.py:599-619 | The loop over the rows steps each with the clock event and announces its completed candles. It stops at the first row that raises. The table and the notices are exactly those of `CheckTable`. |
| Engine.TradingEngine.Subscribe | src/engine/trading_engine.py:242-376 | The aggregators, chart, subscriptions, active symbols and data-service calls are exactly those the subscribe laws describe. |
| Engine.TradingEngine.AddAggregators | src/engine/trading_engine.py:257-272 | The table becomes `SubscribeAggregators`. |
| Engine.TradingEngine.SubscribeEach | src/engine/trading_engine.py:279-376 | The channel loop, as `SubscribeChannels` says. |
| Engine.TradingEngine.Unsubscribe | src/engine/trading_engine.py:378-425 | Granted tuples are removed. Once none of the symbol remains, it leaves the active set (KeyError if it was not there) and the listed aggregators are deleted. |
| Engine.TradingEngine.UnsubscribeEach | src/engine/trading_engine.py:392-409 | The channel loop, as `UnsubscribeChannels` says. |
| Engine.TradingEngine.DropAggregators | src/engine/trading_engine.py:416-425 | The table becomes `UnsubscribeAggregators`. |
| SmaStrategy.SliceShapes | strategies/simple_moving_average.py:139-148 | `xs[-k:]` and `xs[-k-1:-1]` are the contiguous runs ending at, or just before, the last element, with Python's clipping of lengths. |
| SmaStrategy.WindowLaws | strategies/simple_moving_average.py:79-89 | The window keeps insertion order and ends with the new candle. It has at most max(short, long) + 10 candles, and nothing is dropped before that bound. |
| SmaStrategy.PreviousLongWindowShort | strategies/simple_moving_average.py:148 | With exactly `long_period` candles, the previous long window holds `long_period - 1` closes but is divided by `long_period`. |
| SmaStrategy.CrossingsExclusive | strategies/simple_moving_average.py:157-167 | The downward test is reached only when the upward test fails. |
| SmaStrategy.IgnoresOtherFeeds | strategies/simple_moving_average.py:76-77 | A candle of another symbol or provider changes nothing and sends nothing. |
| SmaStrategy.NoSignalBeforeLongPeriod | strategies/simple_moving_average.py:134-136 | With fewer candles than the long period there is no signal, and the signal time stays. |
| SmaStrategy.NoSignalInCooldown | strategies/simple_moving_average.py:153-155 | Within an hour of the last signal nothing is sent. |
| SmaStrategy.CheckSignalCases | strategies/simple_moving_average.py:127-167 | A check is quiet, raises a ZeroDivisionError, or is decided by the crossing and the position. |
| SmaStrategy.CheckSignalArmed | strategies/simple_moving_average.py:134-167 | Once there are enough candles and the cooldown is over, the check is decided by the crossing of the last two windows and the last close. |
| SmaStrategy.DecideRules | strategies/simple_moving_average.py:157-232 | A buy goes out exactly on an upward crossing with no long position, a positive balance, a non-zero price and a callback. It is a market buy of balance × size / price. A sell goes out exactly on a downward crossing with a long position and a callback, for the whole position. The signal time is taken whenever the crossing and position conditions hold. |
| SmaStrategy.BuyRule | strategies/simple_moving_average.py:157-201 | A buy goes out exactly when the check is armed, crosses upward, no long position is held, the balance is positive, the last close is non-zero and a callback is set. It is a market buy of balance × size / last close. The signal time is taken whenever the crossing and position conditions hold. |
| SmaStrategy.SellRule | strategies/simple_moving_average.py:163-232 | A sell goes out exactly when the check is armed, crosses downward, a long position is held and a callback is set. It is a market sell of the whole position and never raises. |
| SmaStrategy.CheckSignalOutcomes | strategies/simple_moving_average.py:150-167 | A check raises only ZeroDivisionError. It leaves the signal time unchanged or at the clock time. A signal is sent only when a callback is set, and then the signal time is the clock time. |
| SmaStrategy.FirstUsd | strategies/simple_moving_average.py:114-118 | The free amount of the first USD balance, and none exactly when there is no USD balance. |
| SmaStrategy.UpdatesAreLocal | strategies/simple_moving_average.py:101-118 | An account update changes only the balance and a position update only the position. Another broker's updates change nothing; the right broker and symbol take the quantity. |
| SmaStrategy.SimpleMovingAverageStrategy.constructor | strategies/simple_moving_average.py:19-38 | The fields start at the defaults: periods 20 and 50, size 0.1, no candles, flat position, no callback. |
| SmaStrategy.SimpleMovingAverageStrategy.Initialize | strategies/simple_moving_average.py:40-55 | Each config key overrides its field; absent keys keep the defaults. |
| SmaStrategy.SimpleMovingAverageStrategy.OnCandle | strategies/simple_moving_average.py:72-92 | The new fields and the signal sent are exactly `CandleStep`. |
| SmaStrategy.SimpleMovingAverageStrategy.CheckForSignal | strategies/simple_moving_average.py:127-167 | Only the signal time changes, as `CheckSignal` says. |
| SmaStrategy.SimpleMovingAverageStrategy.ApplyRules | strategies/simple_moving_average.py:157-167 | The crossover branches send what `Decide` says and change only the signal time. An exception leaves the signal time as it was. |
| SmaStrategy.SimpleMovingAverageStrategy.OnPositionUpdate | strategies/simple_moving_average.py:101-107 | The fields become `PositionStep`. |
| SmaStrategy.SimpleMovingAverageStrategy.OnAccountUpdate | strategies/simple_moving_average.py:109-120 | The balances are scanned up to the first USD one; the fields become `AccountStep`. |
| StrategyRegistry.DiscoveredIds | src/strategy/service.py:36-53 | Every id is "module.Class" for a listed ".py" file not starting "__", with the module being the name without ".py". Every class of such a file whose import succeeds is discovered. |
| StrategyRegistry.RegisterLaws | src/strategy/service.py:52 | Each registered id holds its last entry, other ids are unchanged, and keys stay distinct. |
| StrategyRegistry.LoadLaws | src/strategy/service.py:72-95 | An unknown id or a failing initialization returns None and changes nothing. Otherwise the instance, initialized with the config or {}, is stored under the id, replacing any earlier one. |
| StrategyRegistry.UnloadLaws | src/strategy/service.py:107-111 | The result says whether the id was loaded. Afterwards it is not, and nothing else changes. |
| Dicts.RemoveKeepsOrder | src/strategy/service.py:107-110 | Deleting a present key from a dict with distinct keys drops exactly its entry and keeps every other entry in order. |
| StrategyRegistry.LoadThenUnload | src/strategy/service.py:61-111 | Loading an unloaded id and unloading it again restores the table, order included. |
| StrategyRegistry.StrategyService.constructor | src/strategy/service.py:13-16 | Both tables start empty. |
| StrategyRegistry.StrategyService.DiscoverStrategies | src/strategy/service.py:18-59 | A missing directory returns [] and registers nothing. Otherwise it returns the discovered ids in order and registers each of them. |
| StrategyRegistry.StrategyService.DiscoverFile | src/strategy/service.py:37-53 | One file: the ids of the Strategy subclasses it defines are returned in order and each is registered. The registry keeps distinct ids. |
| StrategyRegistry.StrategyService.RegisterModule | src/strategy/service.py:46-53 | Each class of the module is stored under its id, in order. |
| StrategyRegistry.StrategyService.LoadStrategy | src/strategy/service.py:61-95 | The result and the new table are exactly `Load`. |
| StrategyRegistry.StrategyService.UnloadStrategy | src/strategy/service.py:97-111 | The result and the new table are exactly `Unload`. |
| StrategyRegistry.StrategyService.GetStrategy | src/strategy/service.py:113-123 | A result exists exactly when the id is loaded, and it is that id's instance. |
| StrategyRegistry.StrategyService.GetAllStrategies | src/strategy/service.py:125-132 | The table of loaded strategies, with distinct ids; looking an id up in it is `get_strategy`. |
| StrategyRegistry.StrategyService.GetAvailableStrategies | src/strategy/service.py:134-141 | Exactly the registered class ids, one per class. |
| GeminiProvider.ClampLimit | src/data/providers/gemini.py:76-77 | The requested limit is at most 500, and equals the given limit unless that is above 500. |
| GeminiProvider.TradeSide | src/data/providers/gemini.py:87 | The side is "buy" exactly when the raw type is "buy", and "sell" otherwise. |
| GeminiProvider.GetRecentTrades | src/data/providers/gemini.py:74-93 | It requests the clamped limit and returns one converted trade per raw trade, in order. |
| GeminiProvider.ConvertedTrades | src/data/providers/gemini.py:83-91 | A converted trade is for the symbol asked about and has side "buy" exactly when its type is "buy". |
| GeminiProvider.SortByTimeLaws | src/data/providers/gemini.py:110 | The sort is a permutation, is ordered by time, and keeps trades of equal time in input order. |
| GeminiProvider.InBucketMembers | src/data/providers/gemini.py:124 | A bucket holds exactly the trades stamped in [t, t + interval). |
| GeminiProvider.PriceRange | src/data/providers/gemini.py:127-135 | The high and low bound every price of the bucket and are each attained. |
| GeminiProvider.SummaryLaws | src/data/providers/gemini.py:126-139 | A bucket's candle opens at its first price and closes at its last. High and low are the extremes, so its prices are ordered, and its volume is the sum of amounts. |
| GeminiProvider.BucketsBound | src/data/providers/gemini.py:120 | Never more candles than the limit. |
| GeminiProvider.BucketsRange | src/data/providers/gemini.py:119-141 | Every candle starts in [start, end). |
| GeminiProvider.BucketsCandles | src/data/providers/gemini.py:119-141 | Every candle starts a whole number of intervals after the start and summarises its bucket, which is non-empty. |
| GeminiProvider.BucketsIncreasing | src/data/providers/gemini.py:126-141 | Candle times strictly increase. |
| GeminiProvider.BucketsComplete | src/data/providers/gemini.py:119-141 | When the limit did not cut the list, every non-empty bucket before the end has its candle. |
| GeminiProvider.GetCandles | src/data/providers/gemini.py:95-143 | The result is exactly `CandlesOf` of the response: a parse failure, no candles without trades, the buckets of the window for a positive interval, and for a non-positive one no candles, divergence or OverflowError. |
| GeminiProvider.NonPositiveIntervals | src/data/providers/gemini.py:118-141 | With some trades and an interval of at most 0: no candles exactly when the window is empty or the limit is not positive; otherwise a zero interval never ends the loop and a negative one raises OverflowError, each as an iff. |
| GeminiProvider.NegativeMinuteOverflows | src/data/providers/gemini.py:119-121 | "-1m" over a one-minute window with a limit of 1 raises OverflowError, whatever the trades. |
| GeminiProvider.NextBucket | src/data/providers/gemini.py:120-140 | One pass of the bucket loop appends at most one candle, and what is built so far followed by the rest of the loop's candles stays the final list. |
| GeminiProvider.BuildCandles | src/data/providers/gemini.py:118-141 | The bucketing loop yields exactly `Buckets` of the sorted trades over the window. |
| GeminiProvider.NoTradesNoCandles | src/data/providers/gemini.py:104-108 | No trades means no candles, once the interval parses. |
| GeminiProvider.CandlesAreBuckets | src/data/providers/gemini.py:108-143 | With a positive interval and some trades, the candles bucket the stably sorted trades over the window, which defaults to the first and last trade times. |
| GeminiProvider.BucketsOfWindow | src/data/providers/gemini.py:118-141 | The loop's candles satisfy every property of a window's candles at once. |
| GeminiProvider.CandlesShape | src/data/providers/gemini.py:95-143 | With a positive interval and some trades, the result is a list of at most `limit` candles. They lie on the interval grid and summarise non-empty buckets, and their times strictly increase. |
| GeminiProvider.CandlesComplete | src/data/providers/gemini.py:119-141 | Below the limit, every bucket of the window that holds a trade has its candle. |
| GeminiProvider.OneInstantNoCandles | src/data/providers/gemini.py:113-120 | With default bounds and every trade at one time, the window is empty and no candle is built. |
| GeminiProvider.LastTradeOnBoundary | src/data/providers/gemini.py:115-124 | With the default end, when the window is a whole number of intervals long, no trade stamped at the last time is in any candle's bucket. |
| GeminiBroker.BalanceTotalIsAmount | src/execution/brokers/gemini.py:91-96 | Free is the available amount and the total (free + locked) is the exchange's amount. |
| GeminiBroker.GetAccountInfo | src/execution/brokers/gemini.py:87-102 | The account id (or "") and one balance per raw balance, in order. The response is kept as the account's raw data. |
| GeminiBroker.BalanceRaw | src/execution/brokers/gemini.py:109-121 | A balance's position carries raw data with the single key "balance", an object whose asset and total are the position's symbol and quantity. |
| GeminiBroker.GetPositions | src/execution/brokers/gemini.py:104-123 | The loop yields exactly `PositionsOf` of the balances. |
| GeminiBroker.PositionsLaws | src/execution/brokers/gemini.py:109-121 | There is a position exactly for each balance with a positive total, with quantity = total and entry, mark and PnL 0. Its raw data holds just the balance, whose asset and total are the position's symbol and quantity. |
| GeminiBroker.GeminiOrderTypeInjective | src/execution/brokers/gemini.py:130-142 | Every order type is in the table and the names are distinct, so the default is never used. |
| GeminiBroker.PayloadLaws | src/execution/brokers/gemini.py:138-153 | "price" is sent iff the order is LIMIT or STOP_LIMIT and a price is given. "stop_price" is sent iff it is STOP or STOP_LIMIT and given. "client_order_id" is sent iff given. Symbol, amount, side and type are always sent. |
| GeminiBroker.PlacedOrderLaws | src/execution/brokers/gemini.py:158-183 | A placed order is always PENDING because the status table is looked up with the boolean `is_live`. An unknown side raises ValueError. The response is the order's raw data. |
| GeminiBroker.StatusPrecedence | src/execution/brokers/gemini.py:238-246 | Cancelled wins over live, then nothing remaining, then something executed, else PENDING, each as an iff. No order is REJECTED or EXPIRED. |
| GeminiBroker.GetOrder | src/execution/brokers/gemini.py:220-264 | It succeeds exactly when the side parses, otherwise ValueError. The order carries the derived status, a LIMIT type, no stop price, the id as text and GTC, and the response as raw data. |
| GeminiBroker.GetOrders | src/execution/brokers/gemini.py:266-309 | The loop yields exactly `OrdersOf` of the response. |
| GeminiBroker.ConvertIfKept | src/execution/brokers/gemini.py:271-307 | An order is skipped exactly when the symbol or status filter rejects it. A kept order is converted with the status that cancelled, live, nothing remaining and something executed give, in that precedence. |
| GeminiBroker.OrdersLaws | src/execution/brokers/gemini.py:271-307 | It fails, with ValueError, exactly when a kept order's side is unknown. Otherwise every returned order passes both filters and converts an input order, and every kept input order is returned. |
| GeminiBroker.GroupedLaws | src/execution/brokers/gemini.py:328-364 | There is one entry per order id with a considered trade, rebuilt from exactly that id's trades in order. Id, symbol, side, price and creation time come from its first trade. Both quantities are the summed amounts and the update time is the latest trade time. |
| GeminiBroker.GroupStepFits | src/execution/brokers/gemini.py:329-364 | One pass of the grouping loop keeps one entry per order id, rebuilt from exactly that id's considered trades so far. |
| GeminiBroker.GroupedRaisedPersists | src/execution/brokers/gemini.py:329-343 | An unknown trade type aborts the whole call. |
| GeminiBroker.GroupedFails | src/execution/brokers/gemini.py:338-343 | Grouping fails only with ValueError, and only when a considered trade has an unknown type. |
| GeminiBroker.LateTradeIgnored | src/execution/brokers/gemini.py:333-335 | A trade after `end_time` changes nothing. |
| GeminiBroker.WithAverageRebuilt | src/execution/brokers/gemini.py:366-378 | An entry's order gets the amount-weighted mean price when its amount is positive, and 0 otherwise. |
| GeminiBroker.HistoryLaws | src/execution/brokers/gemini.py:328-380 | History orders have distinct ids. Each is rebuilt from exactly its id's considered trades, with the weighted average price. Its raw data lists those trades. |
| GeminiBroker.AverageWithinPrices | src/execution/brokers/gemini.py:366-378 | With non-negative amounts, the weighted average lies between the lowest and highest trade price. |
| GeminiBroker.GetOrderHistory | src/execution/brokers/gemini.py:311-380 | The result is exactly `HistoryOf` of the trades. |
| GeminiBroker.GroupFills | src/execution/brokers/gemini.py:328-364 | The grouping loop yields exactly `Grouped` of the trades. |
| GeminiBroker.AddFill | src/execution/brokers/gemini.py:329-364 | One iteration: the trade is skipped, added to its order (whose raw trade list grows by it), or opens one. |
| GeminiBroker.Averages | src/execution/brokers/gemini.py:366-378 | The averaging loop sets each order's average from its own trades' totals. |

## Left out

- Async lifecycle (`start`, `stop`, task naming and cancellation, `wait_for`, the sleeps of `_main_loop`): this is concurrency. The main loop is modelled only as its cadence over a given clock sequence.
- `_execute_signal` and the engine's `fetch_candles`: order placement and historical fetches go through collaborators. `_process_signal` records only that execution is scheduled.
- Transport and authentication (HTTP sessions, HMAC signing, nonces, websockets): each exchange response is a decoded parameter instead.
- `float()` parsing, `str(quantity)` formatting and floating-point rounding: prices and amounts are exact reals.
- Clock reads (`datetime.now()`, `time.time()`) and local-time `fromtimestamp`: times are whole epoch seconds given as parameters. Millisecond timestamps are cut to seconds.
- The data service, execution service, charts and strategy objects are collaborators, and their calls are logged notices. Failures of the data and execution services are parameters. An exception of a strategy is caught per strategy and does not affect the engine. A chart only appends to its lists (src/visualization/chart.py:44-51), so it cannot fail. The data service as shipped has no unsubscribe methods, so its unsubscribe calls raise AttributeError; that is covered by the `failing` channel set.
- Aliasing of candle objects between an aggregator and its callers is not modelled: a candle is a value.
- Reflection in `discover_strategies` (importlib and inspect): the classes a module exposes, or its import failure, are the `imports` parameter.
- The request parameters of `get_order_history` (symbol, start time, limit): they only shape the request, whose response is the parameter. `cancel_order` and `get_trades` of the broker are not part of this model.
- GeminiProvider.SortByTime: the in-place `list.sort` is modelled as a stable insertion sort on a sequence, because only the sorted result is observable.
- Config values set to `None`: `initialize` stores them as given, but the model's config keys are either present with a typed value or absent.
- src/strategy/base.py is not part of this model. The signal timestamp is the clock parameter.
- Candle, ticker and trade records of src/data/models.py and src/execution/models.py are datatypes without their `raw_data`: nothing compares or reads it. Accounts, positions, orders and order books keep theirs, as a JSON value.
- Intervals.IntervalToSecondsCases: `int()` also accepts digits and whitespace beyond the first 256 code points (Arabic-Indic digits, ideographic space); the model reads only ASCII digits and the whitespace among the first 256 code points.
- SmaStrategy.SimpleMovingAverageStrategy.Initialize: the periods are natural numbers, so negative `short_period` or `long_period` config values, which Python would slice with, are not modelled.
- Intervals.ParseIntString: Python 3.11 and later refuse, with ValueError, an `int()` of a text longer than 4300 digits; the model reads numerals of any length.
- JSON `null` in exchange replies and websocket messages: an absent key and a `null` value are both `None` in the model, read as the default. In the source `float(None)` raises TypeError (for example src/execution/brokers/gemini.py:94-95).
- CandleAggregation.OnCheck: times are unbounded integers, while a `datetime` holds only the years 1 to 9999. When the start of the next candle lies past year 9999, as with an interval of "4000000d", adding the interval raises OverflowError on every clock check (src/data/candle_aggregator.py:149), and the model does not raise there. An uncaught error there also skips the rest of `_update_strategies_timer` and that pass's broker refresh.
- CandleAggregation.StepKeepsInvariant and CandleAggregation.CompletedCandlesIncrease: "never raises" holds only while every candle time stays within the years a `datetime` holds.
- GeminiProvider.GetCandles: a positive interval that takes a bucket end past year 9999 raises OverflowError in the source. The model buckets it as for any positive interval.

## Findings

| source | as written | input that shows it | evidently intended | confidence | as-written member | corrected member |
|---|---|---|---|---|---|---|
| src/engine/trading_engine.py:331-336 | The order-book callback calls `OrderBook(symbol=..., bids=..., asks=..., timestamp=...)` without `raw_data`, which the dataclass requires, so the TypeError is caught at lines 338-339 and `_orderbook_callback` is never reached. | Any "update" message, for example one with a single bid event at price 100 and remaining 2 (`EngineEvents.OneBidUpdate`). | The book is built with the message as its `raw_data` and sent to every loaded strategy. | not executed | Engine.TradingEngine.OnOrderBookMessage | Engine.TradingEngine.OnOrderBookMessageCorrected |
