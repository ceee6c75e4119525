/**
 * `SimpleMovingAverageStrategy` (strategies/simple_moving_average.py): it keeps a bounded
 * window of candles per interval and, on each candle, compares the short and long moving
 * averages of the closes now and one candle earlier. An upward crossing with no long
 * position buys a fraction of the USD balance; a downward crossing with a long position
 * sells all of it; a signal starts a one-hour cooldown.
 *
 * The class's fields are those of the source; each method is specified by a pure function
 * of the state before it (`SmaState`), and the lemmas are about those functions. The clock
 * (`datetime.now()`) is a parameter `now` in whole seconds, and the signal callback is
 * modelled by returning the signal it would receive.
 */
module SmaStrategy {
  import opened Common
  import opened MarketData
  import opened Execution

  const DefaultShortPeriod: nat := 20
  const DefaultLongPeriod: nat := 50
  const DefaultPositionSize: real := 0.1
  /** `signal_cooldown`: one hour, in seconds. */
  const SignalCooldown: int := 3600
  /** Candles kept beyond the longer period. */
  const ExtraCandles: nat := 10
  const StrategyName: string := "SimpleMovingAverageStrategy"

  /** The keys `initialize` reads from its config; `None` stands for an absent key. */
  datatype SmaConfig = SmaConfig(
    symbol: Option<string>,
    broker: Option<string>,
    dataProvider: Option<string>,
    shortPeriod: Option<nat>,
    longPeriod: Option<nat>,
    positionSize: Option<real>,
    signalCallback: bool)

  /** The strategy's fields, as one value; `hasCallback` says whether a signal callback is set. */
  datatype SmaState = SmaState(
    symbol: Option<string>,
    broker: Option<string>,
    dataProvider: Option<string>,
    shortPeriod: nat,
    longPeriod: nat,
    positionSize: real,
    candles: map<string, seq<Candle>>,
    currentPosition: real,
    accountBalance: real,
    lastSignalTime: Option<int>,
    hasCallback: bool)

  /** The state `__init__` leaves: no symbol, broker or provider yet, and no callback. */
  const Fresh: SmaState :=
    SmaState(None, None, None, DefaultShortPeriod, DefaultLongPeriod, DefaultPositionSize, map[], 0.0, 0.0, None, false)

  /** `initialize`: each key overrides its default, and the periods and size default to their current values. */
  function Configured(s: SmaState, config: SmaConfig): SmaState
  {
    s.(
      symbol := Some(GetOr(config.symbol, "BTCUSD")),
      broker := Some(GetOr(config.broker, "gemini")),
      dataProvider := Some(GetOr(config.dataProvider, "gemini")),
      shortPeriod := GetOr(config.shortPeriod, s.shortPeriod),
      longPeriod := GetOr(config.longPeriod, s.longPeriod),
      positionSize := GetOr(config.positionSize, s.positionSize),
      hasCallback := config.signalCallback)
  }

  // ---------------------------------------------------------------- Python slices and sums

  /** `xs[-k:]`: the last `k` elements, or all of them when there are fewer; `-0` is `0`, so `k == 0` keeps all. */
  function LastK<T>(xs: seq<T>, k: nat): seq<T>
  {
    if k == 0 || k >= |xs| then xs else xs[|xs| - k..]
  }

  /** `xs[-k-1:-1]`: the `k` elements before the last one, or all but the last when there are fewer. */
  function BeforeLast<T>(xs: seq<T>, k: nat): seq<T>
  {
    if |xs| == 0 then []
    else if k + 1 >= |xs| then xs[..|xs| - 1]
    else xs[|xs| - 1 - k..|xs| - 1]
  }

  /** The two slices are the windows they are meant to be: contiguous runs ending at, or just before, the last element. */
  lemma SliceShapes<T>(xs: seq<T>, k: nat)
    requires k > 0
    ensures |LastK(xs, k)| == (if k >= |xs| then |xs| else k)
    ensures LastK(xs, k) == xs[|xs| - |LastK(xs, k)|..]
    ensures |xs| > 0 ==> |BeforeLast(xs, k)| == (if k + 1 >= |xs| then |xs| - 1 else k)
    ensures |xs| > 0 ==> BeforeLast(xs, k) == xs[|xs| - 1 - |BeforeLast(xs, k)|..|xs| - 1]
  {
  }

  function Sum(xs: seq<real>): real
  {
    if xs == [] then 0.0 else xs[0] + Sum(xs[1..])
  }

  function Closes(cs: seq<Candle>): seq<real>
  {
    seq(|cs|, i requires 0 <= i < |cs| => cs[i].close)
  }

  function MaxNat(a: nat, b: nat): nat { if a >= b then a else b }

  // ---------------------------------------------------------------- the candle window

  /** What `on_candle` keeps for `interval` after appending `c`: the newest `max(short, long) + 10` candles. */
  function Window(s: SmaState, interval: string, c: Candle): seq<Candle>
  {
    LastK((if interval in s.candles then s.candles[interval] else []) + [c], MaxNat(s.shortPeriod, s.longPeriod) + ExtraCandles)
  }

  /**
   * The window keeps insertion order and ends with the new candle; it is bounded by
   * `max(short, long) + 10`, and nothing is dropped until that bound is passed.
   */
  lemma {:induction false} WindowLaws(s: SmaState, interval: string, c: Candle)
    ensures var old_ := if interval in s.candles then s.candles[interval] else [];
      var w := Window(s, interval, c);
      var keep := MaxNat(s.shortPeriod, s.longPeriod) + ExtraCandles;
      |w| <= keep && w != [] && w[|w| - 1] == c &&
      w == (old_ + [c])[|old_| + 1 - |w|..] &&
      (|old_| + 1 <= keep ==> w == old_ + [c]) &&
      (|old_| + 1 > keep ==> |w| == keep)
  {
    var old_ := if interval in s.candles then s.candles[interval] else [];
    var buf := old_ + [c];
    var keep := MaxNat(s.shortPeriod, s.longPeriod) + ExtraCandles;
    if |buf| > keep {
      assert Window(s, interval, c) == buf[|buf| - keep..];
    }
  }

  // ---------------------------------------------------------------- the signal check

  datatype Averages = Averages(short: real, long: real, prevShort: real, prevLong: real)

  /** The four averages of `_check_for_signal`; each sum is divided by its period, whatever the slice's length. */
  function MovingAverages(closes: seq<real>, shortPeriod: nat, longPeriod: nat): Averages
    requires shortPeriod > 0 && longPeriod > 0
  {
    Averages(
      Sum(LastK(closes, shortPeriod)) / (shortPeriod as real),
      Sum(LastK(closes, longPeriod)) / (longPeriod as real),
      Sum(BeforeLast(closes, shortPeriod)) / (shortPeriod as real),
      Sum(BeforeLast(closes, longPeriod)) / (longPeriod as real))
  }

  datatype Cross = Upward | Downward | Level

  /** The crossover test: the sell test is reached only when the buy test fails. */
  function Crossing(a: Averages): Cross
  {
    if a.prevShort <= a.prevLong && a.short > a.long then Upward
    else if a.prevShort >= a.prevLong && a.short < a.long then Downward
    else Level
  }

  /** The cooldown test: a signal was sent less than an hour before `now`. */
  predicate InCooldown(last: Option<int>, now: int)
  {
    last.Some? && now - last.value < SignalCooldown
  }

  function SignalMetadata(reason: string, s: SmaState): map<string, Meta>
  {
    map["reason" := Text(reason), "short_ma_period" := Number(s.shortPeriod), "long_ma_period" := Number(s.longPeriod)]
  }

  function MarketSignal(s: SmaState, side: OrderSide, quantity: real, reason: string, now: int): StrategySignal
    requires s.symbol.Some?
  {
    StrategySignal(s.symbol.value, side, Market, quantity, None, None, s.broker, StrategyName, now, SignalMetadata(reason, s))
  }

  /** The size of a buy at `price`: `balance * position_size / price`. */
  function BuyQuantity(s: SmaState, price: real): real
    requires price != 0.0
  {
    s.accountBalance * s.positionSize / price
  }

  /**
   * `_generate_buy_signal` at `price`: nothing without a positive balance; otherwise a market
   * buy of `balance * position_size / price`, handed to the callback if there is one. A zero
   * price is a ZeroDivisionError.
   */
  function BuyOrder(s: SmaState, price: real, now: int): Result<Option<StrategySignal>>
    requires s.symbol.Some?
  {
    if s.accountBalance <= 0.0 then Ok(None)
    else if price == 0.0 then Raised(ZeroDivisionError)
    else if s.hasCallback then Ok(Some(MarketSignal(s, Buy, BuyQuantity(s, price), "MA_CROSSOVER_BUY", now)))
    else Ok(None)
  }

  /** `_generate_sell_signal`: a market sell of the whole position, if there is one and a callback to take it. */
  function SellOrder(s: SmaState, now: int): Option<StrategySignal>
    requires s.symbol.Some?
  {
    if s.currentPosition <= 0.0 || !s.hasCallback then None
    else Some(MarketSignal(s, Sell, s.currentPosition, "MA_CROSSOVER_SELL", now))
  }

  /** What a check leaves: the new `last_signal_time`, and the signal the callback received, if any. */
  datatype SignalStep = SignalStep(lastSignalTime: Option<int>, sent: Option<StrategySignal>)

  function CandlesOf(s: SmaState, interval: string): seq<Candle>
  {
    if interval in s.candles then s.candles[interval] else []
  }

  /** The close of the newest stored candle of `interval`, or zero when there is none. */
  function LastClose(s: SmaState, interval: string): real
  {
    var cs := CandlesOf(s, interval);
    if cs == [] then 0.0 else cs[|cs| - 1].close
  }

  /**
   * The rules of `_check_for_signal` once it is armed, given the crossing of the averages and
   * the last close: a buy on an upward crossing without a long position, a sell on a downward
   * crossing with one; the signal time is taken whenever a rule fires and nothing raised.
   */
  function Decide(s: SmaState, cross: Cross, price: real, now: int): Result<SignalStep>
    requires s.symbol.Some?
  {
    var quiet := Ok(SignalStep(s.lastSignalTime, None));
    match cross
    case Upward =>
      if s.currentPosition > 0.0 then quiet
      else
        (match BuyOrder(s, price, now)
         case Raised(e) => Raised(e)
         case Ok(sent) => Ok(SignalStep(Some(now), sent)))
    case Downward =>
      if s.currentPosition <= 0.0 then quiet
      else Ok(SignalStep(Some(now), SellOrder(s, now)))
    case Level => quiet
  }

  /** `_check_for_signal(interval)` at clock time `now`. A period of zero is a ZeroDivisionError. */
  function CheckSignal(s: SmaState, interval: string, now: int): Result<SignalStep>
    requires s.symbol.Some?
  {
    var cs := CandlesOf(s, interval);
    var quiet := Ok(SignalStep(s.lastSignalTime, None));
    if |cs| < s.longPeriod then quiet
    else if s.shortPeriod == 0 || s.longPeriod == 0 then Raised(ZeroDivisionError)
    else if InCooldown(s.lastSignalTime, now) then quiet
    else Decide(s, Crossing(MovingAverages(Closes(cs), s.shortPeriod, s.longPeriod)), cs[|cs| - 1].close, now)
  }

  /** Whether the strategy takes candles of `symbol` from `provider`. */
  predicate Watches(s: SmaState, symbol: string, provider: string)
  {
    s.symbol == Some(symbol) && s.dataProvider == Some(provider)
  }

  /**
   * `on_candle`: the new state and what the callback received. The candle is stored before
   * the check, so it stays stored when the check raises.
   */
  function CandleStep(s: SmaState, c: Candle, symbol: string, interval: string, provider: string, now: int)
    : (SmaState, Result<Option<StrategySignal>>)
  {
    if !Watches(s, symbol, provider) then (s, Ok(None))
    else
      var s1 := s.(candles := s.candles[interval := Window(s, interval, c)]);
      match CheckSignal(s1, interval, now)
      case Raised(e) => (s1, Raised(e))
      case Ok(step) => (s1.(lastSignalTime := step.lastSignalTime), Ok(step.sent))
  }

  // ---------------------------------------------------------------- properties of the check

  /** A candle of another symbol or provider changes nothing and sends nothing. */
  lemma IgnoresOtherFeeds(s: SmaState, c: Candle, symbol: string, interval: string, provider: string, now: int)
    requires s.symbol != Some(symbol) || s.dataProvider != Some(provider)
    ensures CandleStep(s, c, symbol, interval, provider, now) == (s, Ok(None))
  {
  }

  /** Fewer candles than the long period: no signal, and the last signal time stays. */
  lemma NoSignalBeforeLongPeriod(s: SmaState, interval: string, now: int)
    requires s.symbol.Some? && |CandlesOf(s, interval)| < s.longPeriod
    ensures CheckSignal(s, interval, now) == Ok(SignalStep(s.lastSignalTime, None))
  {
  }

  /** Within an hour of the last signal nothing is sent, unless a zero period raises first. */
  lemma NoSignalInCooldown(s: SmaState, interval: string, now: int)
    requires s.symbol.Some? && InCooldown(s.lastSignalTime, now)
    ensures CheckSignal(s, interval, now).Ok? ==> CheckSignal(s, interval, now) == Ok(SignalStep(s.lastSignalTime, None))
  {
  }

  /** The checks that decide whether a rule is looked at: enough candles, non-zero periods, no cooldown. */
  predicate Armed(s: SmaState, interval: string, now: int)
  {
    |CandlesOf(s, interval)| >= s.longPeriod && s.shortPeriod > 0 && s.longPeriod > 0 && !InCooldown(s.lastSignalTime, now)
  }

  function CrossingOf(s: SmaState, interval: string): Cross
    requires s.shortPeriod > 0 && s.longPeriod > 0
  {
    Crossing(MovingAverages(Closes(CandlesOf(s, interval)), s.shortPeriod, s.longPeriod))
  }

  /** The check, case by case: quiet, raised, or decided by the crossing and the position. */
  lemma CheckSignalCases(s: SmaState, interval: string, now: int)
    requires s.symbol.Some?
    ensures var r := CheckSignal(s, interval, now);
      var cs := CandlesOf(s, interval);
      var quiet := Ok(SignalStep(s.lastSignalTime, None));
      if !Armed(s, interval, now) then
        r == quiet || (r == Raised(ZeroDivisionError) && (s.shortPeriod == 0 || s.longPeriod == 0))
      else if CrossingOf(s, interval) == Upward && s.currentPosition <= 0.0 then
        r == (match BuyOrder(s, cs[|cs| - 1].close, now)
              case Raised(e) => Raised(e)
              case Ok(sent) => Ok(SignalStep(Some(now), sent)))
      else if CrossingOf(s, interval) == Downward && s.currentPosition > 0.0 then
        r == Ok(SignalStep(Some(now), SellOrder(s, now)))
      else r == quiet
    ensures var cs := CandlesOf(s, interval);
      Armed(s, interval, now) ==> CheckSignal(s, interval, now) == Decide(s, CrossingOf(s, interval), cs[|cs| - 1].close, now)
  {
    var cs := CandlesOf(s, interval);
    if |cs| < s.longPeriod || s.shortPeriod == 0 || s.longPeriod == 0 || InCooldown(s.lastSignalTime, now) {
      assert !Armed(s, interval, now);
    } else {
      assert Armed(s, interval, now);
      assert CrossingOf(s, interval) == Crossing(MovingAverages(Closes(cs), s.shortPeriod, s.longPeriod));
    }
  }

  /** Unless armed, the check sends nothing and keeps the signal time, or raises on a zero period. */
  lemma CheckSignalQuiet(s: SmaState, interval: string, now: int)
    requires s.symbol.Some? && !Armed(s, interval, now)
    ensures var r := CheckSignal(s, interval, now);
      r == Ok(SignalStep(s.lastSignalTime, None)) || (r == Raised(ZeroDivisionError) && (s.shortPeriod == 0 || s.longPeriod == 0))
  {
  }

  /** Once armed, the check is the decision on the crossing of the stored candles and their last close. */
  lemma CheckSignalArmed(s: SmaState, interval: string, now: int)
    requires s.symbol.Some? && Armed(s, interval, now)
    ensures CheckSignal(s, interval, now) == Decide(s, CrossingOf(s, interval), LastClose(s, interval), now)
  {
    CheckSignalCases(s, interval, now);
  }

  /** What the two rules send, for any crossing and last close. */
  lemma DecideRules(s: SmaState, cross: Cross, price: real, now: int)
    requires s.symbol.Some?
    ensures var r := Decide(s, cross, price, now);
      (r.Ok? && r.value.sent.Some? && r.value.sent.value.side == Buy) <==>
        (cross == Upward && s.currentPosition <= 0.0 && s.accountBalance > 0.0 && price != 0.0 && s.hasCallback)
    ensures var r := Decide(s, cross, price, now);
      r.Ok? && r.value.sent.Some? && r.value.sent.value.side == Buy ==>
        price != 0.0 && r.value.sent.value == MarketSignal(s, Buy, BuyQuantity(s, price), "MA_CROSSOVER_BUY", now)
    ensures var r := Decide(s, cross, price, now);
      cross == Upward && s.currentPosition <= 0.0 && r.Ok? ==> r.value.lastSignalTime == Some(now)
    ensures var r := Decide(s, cross, price, now);
      (r.Ok? && r.value.sent.Some? && r.value.sent.value.side == Sell) <==>
        (cross == Downward && s.currentPosition > 0.0 && s.hasCallback)
    ensures var r := Decide(s, cross, price, now);
      r.Ok? && r.value.sent.Some? && r.value.sent.value.side == Sell ==>
        r.value.sent.value.quantity == s.currentPosition && r.value.sent.value.orderType == Market
    ensures cross == Downward && s.currentPosition > 0.0 ==>
      Decide(s, cross, price, now) == Ok(SignalStep(Some(now), SellOrder(s, now)))
  {
  }

  /**
   * The buy rule: a buy is sent exactly when the check is armed, the short average crosses
   * above the long one, there is no long position, the balance is positive, the last price
   * is not zero and a callback is set; it buys `balance * position_size / price` at market.
   * The signal time is taken whenever the crossing and position conditions hold and nothing
   * raised, whether or not a signal went out.
   */
  lemma BuyRule(s: SmaState, interval: string, now: int)
    requires s.symbol.Some?
    ensures var r := CheckSignal(s, interval, now);
      (r.Ok? && r.value.sent.Some? && r.value.sent.value.side == Buy) <==>
        (Armed(s, interval, now) && CrossingOf(s, interval) == Upward && s.currentPosition <= 0.0 &&
         s.accountBalance > 0.0 && LastClose(s, interval) != 0.0 && s.hasCallback)
    ensures var r := CheckSignal(s, interval, now);
      r.Ok? && r.value.sent.Some? && r.value.sent.value.side == Buy ==>
        LastClose(s, interval) != 0.0 &&
        r.value.sent.value == MarketSignal(s, Buy, BuyQuantity(s, LastClose(s, interval)), "MA_CROSSOVER_BUY", now)
    ensures var r := CheckSignal(s, interval, now);
      Armed(s, interval, now) && CrossingOf(s, interval) == Upward && s.currentPosition <= 0.0 && r.Ok? ==>
        r.value.lastSignalTime == Some(now)
  {
    if Armed(s, interval, now) {
      CheckSignalArmed(s, interval, now);
      DecideRules(s, CrossingOf(s, interval), LastClose(s, interval), now);
    } else {
      CheckSignalQuiet(s, interval, now);
    }
  }

  /**
   * The sell rule: a sell is sent exactly when the check is armed, the short average crosses
   * below the long one (and the buy crossing does not hold), a long position is held and a
   * callback is set; it sells the whole position at market and never raises.
   */
  lemma SellRule(s: SmaState, interval: string, now: int)
    requires s.symbol.Some?
    ensures var r := CheckSignal(s, interval, now);
      (r.Ok? && r.value.sent.Some? && r.value.sent.value.side == Sell) <==>
        (Armed(s, interval, now) && CrossingOf(s, interval) == Downward && s.currentPosition > 0.0 && s.hasCallback)
    ensures var r := CheckSignal(s, interval, now);
      r.Ok? && r.value.sent.Some? && r.value.sent.value.side == Sell ==>
        r.value.sent.value.quantity == s.currentPosition && r.value.sent.value.orderType == Market
    ensures Armed(s, interval, now) && CrossingOf(s, interval) == Downward && s.currentPosition > 0.0 ==>
      CheckSignal(s, interval, now) == Ok(SignalStep(Some(now), SellOrder(s, now)))
  {
    if Armed(s, interval, now) {
      CheckSignalArmed(s, interval, now);
      DecideRules(s, CrossingOf(s, interval), LastClose(s, interval), now);
    } else {
      CheckSignalQuiet(s, interval, now);
    }
  }

  /** A downward crossing is only reported when the upward test fails. */
  lemma CrossingsExclusive(a: Averages)
    ensures Crossing(a) == Downward ==> !(a.prevShort <= a.prevLong && a.short > a.long)
    ensures Crossing(a) == Downward <==> !(a.prevShort <= a.prevLong && a.short > a.long) && a.prevShort >= a.prevLong && a.short < a.long
  {
  }

  /**
   * With exactly `long_period` candles the previous long window `candles[-long-1:-1]` holds
   * only `long_period - 1` closes, yet its sum is still divided by `long_period`.
   */
  lemma {:induction false} PreviousLongWindowShort(closes: seq<real>, shortPeriod: nat, longPeriod: nat)
    requires shortPeriod > 0 && longPeriod > 0 && |closes| == longPeriod
    ensures BeforeLast(closes, longPeriod) == closes[..longPeriod - 1]
    ensures MovingAverages(closes, shortPeriod, longPeriod).prevLong == Sum(closes[..longPeriod - 1]) / (longPeriod as real)
  {
  }

  /** What any check may do: raise only a ZeroDivisionError, and take the signal time whenever it sends. */
  predicate AllowedOutcome(s: SmaState, r: Result<SignalStep>, now: int)
  {
    (r.Raised? ==> r.error == ZeroDivisionError) &&
    (r.Ok? ==> r.value.lastSignalTime in {s.lastSignalTime, Some(now)}) &&
    (r.Ok? && r.value.sent.Some? ==> r.value.lastSignalTime == Some(now) && s.hasCallback)
  }

  /** A check either raises a ZeroDivisionError or leaves the signal time as it was or at `now`; a signal sent takes it. */
  lemma CheckSignalOutcomes(s: SmaState, interval: string, now: int)
    requires s.symbol.Some?
    ensures AllowedOutcome(s, CheckSignal(s, interval, now), now)
  {
    if Armed(s, interval, now) {
      CheckSignalArmed(s, interval, now);
      DecideOutcomes(s, CrossingOf(s, interval), LastClose(s, interval), now);
    } else {
      CheckSignalQuiet(s, interval, now);
    }
  }

  /** The decision raises only a ZeroDivisionError, and a signal that is sent takes the signal time. */
  lemma DecideOutcomes(s: SmaState, cross: Cross, price: real, now: int)
    requires s.symbol.Some?
    ensures AllowedOutcome(s, Decide(s, cross, price, now), now)
  {
  }

  // ---------------------------------------------------------------- account and position updates

  /** The free amount of the first USD balance, if there is one. */
  function FirstUsd(balances: seq<Balance>): (r: Option<real>)
    ensures r.Some? <==> exists i :: 0 <= i < |balances| && balances[i].asset == "USD"
    ensures r.Some? ==>
      exists i :: 0 <= i < |balances| && balances[i].asset == "USD" && balances[i].free == r.value &&
        (forall j :: 0 <= j < i ==> balances[j].asset != "USD")
  {
    if balances == [] then None
    else if balances[0].asset == "USD" then Some(balances[0].free)
    else
      var r := FirstUsd(balances[1..]);
      if r.Some? then
        var i :| 0 <= i < |balances[1..]| && balances[1..][i].asset == "USD" && balances[1..][i].free == r.value &&
          (forall j :: 0 <= j < i ==> balances[1..][j].asset != "USD");
        assert balances[i + 1].asset == "USD" && balances[i + 1].free == r.value;
        r
      else
        r
  }

  /** `on_account_update`: for the strategy's broker, the balance becomes the first USD balance's free amount. */
  function AccountStep(s: SmaState, account: Account, broker: string): SmaState
  {
    if s.broker != Some(broker) then s
    else
      var usd := FirstUsd(account.balances);
      if usd.Some? then s.(accountBalance := usd.value) else s
  }

  /** `on_position_update`: only a position of the strategy's broker and symbol is taken. */
  function PositionStep(s: SmaState, position: Position, broker: string): SmaState
  {
    if s.broker != Some(broker) || s.symbol != Some(position.symbol) then s
    else s.(currentPosition := position.quantity)
  }

  /** An account update touches only the balance; a position update touches only the position. */
  lemma UpdatesAreLocal(s: SmaState, account: Account, position: Position, broker: string)
    ensures AccountStep(s, account, broker) == s.(accountBalance := AccountStep(s, account, broker).accountBalance)
    ensures PositionStep(s, position, broker) == s.(currentPosition := PositionStep(s, position, broker).currentPosition)
    ensures s.broker == Some(broker) && s.symbol == Some(position.symbol) ==>
      PositionStep(s, position, broker).currentPosition == position.quantity
    ensures s.broker != Some(broker) ==> AccountStep(s, account, broker) == s && PositionStep(s, position, broker) == s
  {
  }

  // ---------------------------------------------------------------- the strategy object

  class SimpleMovingAverageStrategy {
    var symbol: Option<string>
    var broker: Option<string>
    var dataProvider: Option<string>
    var shortPeriod: nat
    var longPeriod: nat
    var positionSize: real
    var candles: map<string, seq<Candle>>
    var currentPosition: real
    var accountBalance: real
    var lastSignalTime: Option<int>
    var hasCallback: bool

    function State(): SmaState
      reads this
    {
      SmaState(symbol, broker, dataProvider, shortPeriod, longPeriod, positionSize, candles,
        currentPosition, accountBalance, lastSignalTime, hasCallback)
    }

    constructor ()
      ensures State() == Fresh
    {
      symbol := None;
      broker := None;
      dataProvider := None;
      shortPeriod := DefaultShortPeriod;
      longPeriod := DefaultLongPeriod;
      positionSize := DefaultPositionSize;
      candles := map[];
      currentPosition := 0.0;
      accountBalance := 0.0;
      lastSignalTime := None;
      hasCallback := false;
    }

    method Initialize(config: SmaConfig)
      modifies this
      ensures State() == Configured(old(State()), config)
    {
      symbol := Some(GetOr(config.symbol, "BTCUSD"));
      broker := Some(GetOr(config.broker, "gemini"));
      dataProvider := Some(GetOr(config.dataProvider, "gemini"));
      shortPeriod := GetOr(config.shortPeriod, shortPeriod);
      longPeriod := GetOr(config.longPeriod, longPeriod);
      positionSize := GetOr(config.positionSize, positionSize);
      hasCallback := config.signalCallback;
    }

    /** `on_candle` at clock time `now`; the result is what the signal callback received, or the exception. */
    method OnCandle(c: Candle, sym: string, interval: string, provider: string, now: int)
      returns (r: Result<Option<StrategySignal>>)
      modifies this
      ensures (State(), r) == CandleStep(old(State()), c, sym, interval, provider, now)
    {
      if symbol != Some(sym) || dataProvider != Some(provider) {
        return Ok(None);
      }
      ghost var s0 := State();
      var buf := if interval in candles then candles[interval] else [];
      buf := buf + [c];
      var keep := MaxNat(shortPeriod, longPeriod) + ExtraCandles;
      if |buf| > keep {
        buf := buf[|buf| - keep..];
      }
      assert buf == Window(s0, interval, c);
      candles := candles[interval := buf];
      ghost var s1 := State();
      assert s1 == s0.(candles := s0.candles[interval := Window(s0, interval, c)]);
      r := CheckForSignal(interval, now);
      ghost var step := CheckSignal(s1, interval, now);
      assert step.Ok? ==> State() == s1.(lastSignalTime := step.value.lastSignalTime) && r == Ok(step.value.sent);
      assert step.Raised? ==> State() == s1 && r == Raised(step.error);
    }

    /** `_check_for_signal`: only `last_signal_time` changes. */
    method CheckForSignal(interval: string, now: int) returns (r: Result<Option<StrategySignal>>)
      requires symbol.Some?
      modifies this`lastSignalTime
      ensures var step := CheckSignal(old(State()), interval, now);
        if step.Raised? then r == Raised(step.error) && lastSignalTime == old(lastSignalTime)
        else r == Ok(step.value.sent) && lastSignalTime == step.value.lastSignalTime
    {
      ghost var s0 := State();
      var cs := if interval in candles then candles[interval] else [];
      if |cs| < longPeriod {
        return Ok(None);
      }
      if shortPeriod == 0 || longPeriod == 0 {
        return Raised(ZeroDivisionError);
      }
      var a := MovingAverages(Closes(cs), shortPeriod, longPeriod);
      if lastSignalTime.Some? && now - lastSignalTime.value < SignalCooldown {
        return Ok(None);
      }
      assert Armed(s0, interval, now);
      CheckSignalArmed(s0, interval, now);
      assert CrossingOf(s0, interval) == Crossing(a) && LastClose(s0, interval) == cs[|cs| - 1].close;
      r := ApplyRules(a, cs[|cs| - 1].close, now);
    }

    /** The buy and sell rules of `_check_for_signal`, on the averages `a` and the last close `price`. */
    method ApplyRules(a: Averages, price: real, now: int) returns (r: Result<Option<StrategySignal>>)
      requires symbol.Some?
      modifies this`lastSignalTime
      ensures var step := Decide(old(State()), Crossing(a), price, now);
        if step.Raised? then r == Raised(step.error) && lastSignalTime == old(lastSignalTime)
        else r == Ok(step.value.sent) && lastSignalTime == step.value.lastSignalTime
    {
      if a.prevShort <= a.prevLong && a.short > a.long {
        if currentPosition <= 0.0 {
          var sent := BuyOrder(State(), price, now);
          if sent.Raised? {
            return Raised(sent.error);
          }
          lastSignalTime := Some(now);
          return Ok(sent.value);
        }
      } else if a.prevShort >= a.prevLong && a.short < a.long {
        if currentPosition > 0.0 {
          var sent := SellOrder(State(), now);
          lastSignalTime := Some(now);
          return Ok(sent);
        }
      }
      r := Ok(None);
    }

    method OnPositionUpdate(position: Position, b: string)
      modifies this
      ensures State() == PositionStep(old(State()), position, b)
    {
      if broker != Some(b) || symbol != Some(position.symbol) {
        return;
      }
      currentPosition := position.quantity;
    }

    /** `on_account_update`: the balances are scanned in order, up to the first USD one. */
    method OnAccountUpdate(account: Account, b: string)
      modifies this
      ensures State() == AccountStep(old(State()), account, b)
    {
      if broker != Some(b) {
        return;
      }
      var balances := account.balances;
      var i := 0;
      while i < |balances|
        invariant 0 <= i <= |balances|
        invariant FirstUsd(balances[i..]) == FirstUsd(balances)
        invariant State() == old(State())
      {
        assert balances[i..][0] == balances[i] && balances[i..][1..] == balances[i + 1..];
        if balances[i].asset == "USD" {
          accountBalance := balances[i].free;
          return;
        }
        i := i + 1;
      }
      assert balances[i..] == [];
    }
  }
}
