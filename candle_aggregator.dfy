/**
 * The candle aggregator of src/data/candle_aggregator.py: it folds tickers and trades for
 * one symbol into OHLCV candles of one interval, and a clock check closes a candle whose
 * interval has elapsed.
 *
 * The behaviour is stated twice, as in the rest of this model: as pure step functions
 * over an `AggState` value (which the trading engine stores in its aggregator table),
 * and as the class `CandleAggregator`, whose methods update its fields in place and are
 * proved to perform exactly those steps.
 */
module CandleAggregation {
  import opened Common
  import opened Intervals
  import opened MarketData

  function Abs(x: int): nat { if x < 0 then -x else x }

  /** Python's `int(a / b)`: the quotient truncated toward zero. */
  function TruncDiv(a: int, b: int): int
    requires b != 0
  {
    if (a >= 0) == (b > 0) then Abs(a) / Abs(b) else -(Abs(a) / Abs(b))
  }

  /**
   * `_round_time_down`: the start of the bucket of length |seconds| holding `ts`.
   * An interval of zero seconds divides by zero. A negative interval truncates toward
   * zero and so buckets like its absolute value.
   */
  function RoundTimeDown(ts: nat, seconds: int): (r: Result<int>)
    ensures seconds == 0 <==> r == Raised(ZeroDivisionError)
    ensures seconds != 0 ==>
      r.Ok? && r.value == ts - ts % Abs(seconds) && 0 <= r.value <= ts < r.value + Abs(seconds)
  {
    if seconds == 0 then Raised(ZeroDivisionError)
    else
      TruncDivScaled(ts, seconds);
      Ok(TruncDiv(ts, seconds) * seconds)
  }

  /** Truncating and scaling back a non-negative time drops its remainder modulo |seconds|. */
  lemma TruncDivScaled(ts: nat, seconds: int)
    requires seconds != 0
    ensures TruncDiv(ts, seconds) * seconds == ts - ts % Abs(seconds)
    ensures 0 <= ts - ts % Abs(seconds) <= ts < ts - ts % Abs(seconds) + Abs(seconds)
  {
    var a := Abs(seconds);
    var q, m := ts / a, ts % a;
    assert ts == q * a + m && 0 <= m < a;
    assert 0 <= q * a by {
      assert 0 <= q;
    }
    if seconds > 0 {
      assert TruncDiv(ts, seconds) * seconds == q * a;
    } else {
      assert TruncDiv(ts, seconds) == -q && seconds == -a;
      assert (-q) * (-a) == q * a;
    }
  }

  /** The fields of one aggregator. */
  datatype AggState = AggState(
    symbol: string,
    interval: string,
    current: Option<Candle>,
    lastCandleTime: Option<int>,
    lastTickerPrice: Option<real>,
    volumeSinceLastCandle: real)

  /** A freshly constructed aggregator: no candle yet. */
  function Initial(symbol: string, interval: string): AggState
  {
    AggState(symbol, interval, None, None, None, 0.0)
  }

  /**
   * The shape every reachable state has: a candle and its start time are present
   * together and agree, the candle carries the aggregator's symbol, its prices are
   * ordered, its volume is the running volume, and the interval parsed to a non-zero
   * length when the candle was opened.
   */
  predicate WellFormed(s: AggState)
  {
    (s.current.Some? <==> s.lastCandleTime.Some?) &&
    (s.current.Some? ==>
      var c := s.current.value;
      c.timestamp == s.lastCandleTime.value &&
      c.symbol == s.symbol &&
      OhlcOrdered(c) &&
      c.volume == s.volumeSinceLastCandle &&
      IntervalToSeconds(s.interval).Ok? && IntervalToSeconds(s.interval).value != 0)
  }

  lemma InitialWellFormed(symbol: string, interval: string)
    ensures WellFormed(Initial(symbol, interval))
  {
  }

  /** The bucket start of an event at `ts`, or the exception computing it raises. */
  function Bucket(s: AggState, ts: nat): Result<int>
  {
    match IntervalToSeconds(s.interval)
    case Raised(e) => Raised(e)
    case Ok(seconds) => RoundTimeDown(ts, seconds)
  }

  /** Whether an event whose bucket starts at `start` opens a new candle. */
  predicate Opens(s: AggState, start: int)
  {
    s.current.None? || (s.lastCandleTime.Some? && start > s.lastCandleTime.value)
  }

  /** Python truthiness of `last_ticker_price`: `None` and `0.0` are false. */
  predicate TruthyPrice(p: Option<real>) { p.Some? && p.value != 0.0 }

  /** What `process_ticker` and `process_trade` return, and the state they leave. */
  datatype Step = Step(completed: Option<Candle>, current: Option<Candle>, next: AggState)

  /** A candle whose four prices are `price`. */
  function Flat(symbol: string, start: int, price: real, volume: real): (c: Candle)
    ensures OhlcOrdered(c) && c.timestamp == start && c.volume == volume
  {
    Candle(symbol, start, price, price, price, price, volume)
  }

  /**
   * `process_ticker`. A ticker for another symbol changes nothing. A ticker in a later
   * bucket (or the first one) completes the current candle and opens a flat candle with
   * no volume at the bucket start. Any other ticker widens the candle's range to its
   * price, makes it the close and remembers it as the last ticker price; the volume is
   * untouched. A current candle without a start time would be compared with `None`.
   */
  function OnTicker(s: AggState, t: Ticker): (r: Result<Step>)
    ensures t.symbol != s.symbol ==> r == Ok(Step(None, None, s))
    ensures t.symbol == s.symbol ==>
      (r.Raised? <==> Bucket(s, t.timestamp).Raised? || (s.current.Some? && s.lastCandleTime.None?))
    ensures t.symbol == s.symbol && r.Ok? ==>
      var start := Bucket(s, t.timestamp).value;
      var n := r.value.next;
      n.symbol == s.symbol && n.interval == s.interval &&
      r.value.current == n.current && n.current.Some? &&
      if Opens(s, start) then
        r.value.completed == s.current &&
        n.current.value == Flat(s.symbol, start, t.last, 0.0) &&
        n.lastCandleTime == Some(start) && n.volumeSinceLastCandle == 0.0 &&
        n.lastTickerPrice == s.lastTickerPrice
      else
        var c := s.current.value;
        var c' := n.current.value;
        r.value.completed.None? &&
        c'.timestamp == c.timestamp && c'.open == c.open && c'.volume == c.volume &&
        c'.high == Max(c.high, t.last) && c'.low == Min(c.low, t.last) && c'.close == t.last &&
        n.lastCandleTime == s.lastCandleTime && n.lastTickerPrice == Some(t.last) &&
        n.volumeSinceLastCandle == s.volumeSinceLastCandle
    ensures WellFormed(s) && r.Ok? ==> WellFormed(r.value.next)
    ensures WellFormed(s) && r.Ok? && s.lastCandleTime.Some? ==>
      r.value.next.lastCandleTime.Some? && r.value.next.lastCandleTime.value >= s.lastCandleTime.value
  {
    if t.symbol != s.symbol then Ok(Step(None, None, s))
    else match Bucket(s, t.timestamp)
      case Raised(e) => Raised(e)
      case Ok(start) =>
        if s.current.Some? && s.lastCandleTime.None? then Raised(TypeError)
        else if Opens(s, start) then
          var c := Candle(s.symbol, start, t.last, t.last, t.last, t.last, 0.0);
          Ok(Step(s.current, Some(c),
            s.(current := Some(c), lastCandleTime := Some(start), volumeSinceLastCandle := 0.0)))
        else
          var c := s.current.value;
          var high := if t.last > c.high then t.last else c.high;
          var low := if t.last < c.low then t.last else c.low;
          var c' := c.(high := high, low := low, close := t.last);
          Ok(Step(None, Some(c'), s.(current := Some(c'), lastTickerPrice := Some(t.last))))
  }

  /**
   * `process_trade`. As `OnTicker`, except that a new candle starts with the trade's
   * amount as its volume, a merged trade adds its amount to the running volume, which
   * becomes the candle's volume, and the last ticker price is left alone.
   */
  function OnTrade(s: AggState, t: Trade): (r: Result<Step>)
    ensures t.symbol != s.symbol ==> r == Ok(Step(None, None, s))
    ensures t.symbol == s.symbol ==>
      (r.Raised? <==> Bucket(s, t.timestamp).Raised? || (s.current.Some? && s.lastCandleTime.None?))
    ensures t.symbol == s.symbol && r.Ok? ==>
      var start := Bucket(s, t.timestamp).value;
      var n := r.value.next;
      n.symbol == s.symbol && n.interval == s.interval &&
      r.value.current == n.current && n.current.Some? &&
      n.lastTickerPrice == s.lastTickerPrice &&
      if Opens(s, start) then
        r.value.completed == s.current &&
        n.current.value == Flat(s.symbol, start, t.price, t.amount) &&
        n.lastCandleTime == Some(start) && n.volumeSinceLastCandle == t.amount
      else
        var c := s.current.value;
        var c' := n.current.value;
        r.value.completed.None? &&
        c'.timestamp == c.timestamp && c'.open == c.open &&
        c'.high == Max(c.high, t.price) && c'.low == Min(c.low, t.price) && c'.close == t.price &&
        n.lastCandleTime == s.lastCandleTime &&
        n.volumeSinceLastCandle == s.volumeSinceLastCandle + t.amount &&
        c'.volume == n.volumeSinceLastCandle
    ensures WellFormed(s) && r.Ok? ==> WellFormed(r.value.next)
    ensures WellFormed(s) && r.Ok? && s.lastCandleTime.Some? ==>
      r.value.next.lastCandleTime.Some? && r.value.next.lastCandleTime.value >= s.lastCandleTime.value
  {
    if t.symbol != s.symbol then Ok(Step(None, None, s))
    else match Bucket(s, t.timestamp)
      case Raised(e) => Raised(e)
      case Ok(start) =>
        if s.current.Some? && s.lastCandleTime.None? then Raised(TypeError)
        else if Opens(s, start) then
          var c := Candle(s.symbol, start, t.price, t.price, t.price, t.price, t.amount);
          Ok(Step(s.current, Some(c),
            s.(current := Some(c), lastCandleTime := Some(start), volumeSinceLastCandle := t.amount)))
        else
          var c := s.current.value;
          var high := if t.price > c.high then t.price else c.high;
          var low := if t.price < c.low then t.price else c.low;
          var volume := s.volumeSinceLastCandle + t.amount;
          var c' := c.(high := high, low := low, close := t.price, volume := volume);
          Ok(Step(None, Some(c'), s.(current := Some(c'), volumeSinceLastCandle := volume)))
  }

  /** What `check_candle_completion` returns, and the state it leaves. */
  datatype Completion = Completion(completed: Option<Candle>, next: AggState)

  /**
   * `check_candle_completion` at clock time `now`. Without a candle nothing happens.
   * Once `now` reaches the end of the current candle's interval, that candle is
   * completed; if a non-zero ticker price has been seen, a flat candle at the previous
   * close opens at the next interval start, otherwise the aggregator forgets its candle
   * and its start time. Before the end of the interval nothing happens.
   */
  function OnCheck(s: AggState, now: int): (r: Result<Completion>)
    ensures s.current.None? || s.lastCandleTime.None? ==> r == Ok(Completion(None, s))
    ensures s.current.Some? && s.lastCandleTime.Some? ==>
      (r.Raised? <==> IntervalToSeconds(s.interval).Raised?) &&
      (r.Ok? ==>
        var due := s.lastCandleTime.value + IntervalToSeconds(s.interval).value;
        if now < due then r.value == Completion(None, s)
        else
          r.value.completed == s.current &&
          r.value.next.symbol == s.symbol && r.value.next.interval == s.interval &&
          r.value.next.lastTickerPrice == s.lastTickerPrice &&
          if TruthyPrice(s.lastTickerPrice) then
            r.value.next.current == Some(Flat(s.symbol, due, s.current.value.close, 0.0)) &&
            r.value.next.lastCandleTime == Some(due) && r.value.next.volumeSinceLastCandle == 0.0
          else
            r.value.next.current.None? && r.value.next.lastCandleTime.None?)
    ensures WellFormed(s) && r.Ok? ==> WellFormed(r.value.next)
  {
    if s.current.None? || s.lastCandleTime.None? then Ok(Completion(None, s))
    else match IntervalToSeconds(s.interval)
      case Raised(e) => Raised(e)
      case Ok(seconds) =>
        var next := s.lastCandleTime.value + seconds;
        if now >= next then
          if s.lastTickerPrice.Some? && s.lastTickerPrice.value != 0.0 then
            var close := s.current.value.close;
            var c := Candle(s.symbol, next, close, close, close, close, 0.0);
            Ok(Completion(s.current,
              s.(current := Some(c), lastCandleTime := Some(next), volumeSinceLastCandle := 0.0)))
          else
            Ok(Completion(s.current, s.(current := None, lastCandleTime := None)))
        else Ok(Completion(None, s))
  }

  /** The aggregator object; its methods perform the steps above on its fields. */
  class CandleAggregator {
    const symbol: string
    const interval: string
    var currentCandle: Option<Candle>
    var lastCandleTime: Option<int>
    var lastTickerPrice: Option<real>
    var volumeSinceLastCandle: real

    function State(): AggState
      reads this
    {
      AggState(symbol, interval, currentCandle, lastCandleTime, lastTickerPrice, volumeSinceLastCandle)
    }

    constructor(symbol: string, interval: string)
      ensures State() == Initial(symbol, interval)
    {
      this.symbol := symbol;
      this.interval := interval;
      currentCandle := None;
      lastCandleTime := None;
      lastTickerPrice := None;
      volumeSinceLastCandle := 0.0;
    }

    /** The start of the bucket holding `ts`; fails as `_interval_to_seconds` and `_round_time_down` do. */
    method CandleStart(ts: nat) returns (r: Result<int>)
      ensures r == Bucket(State(), ts)
    {
      var seconds := IntervalToSeconds(interval);
      if seconds.Raised? {
        return Raised(seconds.error);
      }
      r := RoundTimeDown(ts, seconds.value);
    }

    /** Whether a candle starting at `start` replaces the current one; comparing with a missing start time raises. */
    method StartsNewCandle(start: int) returns (r: Result<bool>)
      ensures currentCandle.Some? && lastCandleTime.None? ==> r == Raised(TypeError)
      ensures currentCandle.None? || lastCandleTime.Some? ==> r == Ok(Opens(State(), start))
    {
      if currentCandle.None? {
        return Ok(true);
      }
      if lastCandleTime.None? {
        return Raised(TypeError);
      }
      r := Ok(start > lastCandleTime.value);
    }

    method ProcessTicker(t: Ticker) returns (r: Result<(Option<Candle>, Option<Candle>)>)
      modifies this
      ensures var step := OnTicker(old(State()), t);
        if step.Ok? then r == Ok((step.value.completed, step.value.current)) && State() == step.value.next
        else r == Raised(step.error) && State() == old(State())
    {
      if t.symbol != symbol {
        return Ok((None, None));
      }
      var start := CandleStart(t.timestamp);
      if start.Raised? {
        return Raised(start.error);
      }
      var opens := StartsNewCandle(start.value);
      if opens.Raised? {
        return Raised(opens.error);
      }
      if opens.value {
        var completed := currentCandle;
        currentCandle := Some(Candle(symbol, start.value, t.last, t.last, t.last, t.last, 0.0));
        lastCandleTime := Some(start.value);
        volumeSinceLastCandle := 0.0;
        return Ok((completed, currentCandle));
      }
      var c := currentCandle.value;
      if t.last > c.high {
        c := c.(high := t.last);
      }
      if t.last < c.low {
        c := c.(low := t.last);
      }
      c := c.(close := t.last);
      currentCandle := Some(c);
      lastTickerPrice := Some(t.last);
      r := Ok((None, currentCandle));
    }

    method ProcessTrade(t: Trade) returns (r: Result<(Option<Candle>, Option<Candle>)>)
      modifies this
      ensures var step := OnTrade(old(State()), t);
        if step.Ok? then r == Ok((step.value.completed, step.value.current)) && State() == step.value.next
        else r == Raised(step.error) && State() == old(State())
    {
      if t.symbol != symbol {
        return Ok((None, None));
      }
      var start := CandleStart(t.timestamp);
      if start.Raised? {
        return Raised(start.error);
      }
      var opens := StartsNewCandle(start.value);
      if opens.Raised? {
        return Raised(opens.error);
      }
      if opens.value {
        var completed := currentCandle;
        currentCandle := Some(Candle(symbol, start.value, t.price, t.price, t.price, t.price, t.amount));
        lastCandleTime := Some(start.value);
        volumeSinceLastCandle := t.amount;
        return Ok((completed, currentCandle));
      }
      var c := currentCandle.value;
      if t.price > c.high {
        c := c.(high := t.price);
      }
      if t.price < c.low {
        c := c.(low := t.price);
      }
      c := c.(close := t.price);
      volumeSinceLastCandle := volumeSinceLastCandle + t.amount;
      c := c.(volume := volumeSinceLastCandle);
      currentCandle := Some(c);
      r := Ok((None, currentCandle));
    }

    method CheckCandleCompletion(now: int) returns (r: Result<Option<Candle>>)
      modifies this
      ensures var step := OnCheck(old(State()), now);
        if step.Ok? then r == Ok(step.value.completed) && State() == step.value.next
        else r == Raised(step.error) && State() == old(State())
    {
      if currentCandle.None? || lastCandleTime.None? {
        return Ok(None);
      }
      var seconds := IntervalToSeconds(interval);
      if seconds.Raised? {
        return Raised(seconds.error);
      }
      var next := lastCandleTime.value + seconds.value;
      if now >= next {
        var completed := currentCandle;
        if lastTickerPrice.Some? && lastTickerPrice.value != 0.0 {
          var close := currentCandle.value.close;
          currentCandle := Some(Candle(symbol, next, close, close, close, close, 0.0));
          lastCandleTime := Some(next);
          volumeSinceLastCandle := 0.0;
        } else {
          currentCandle := None;
          lastCandleTime := None;
        }
        return Ok(completed);
      }
      r := Ok(None);
    }
  }

  /** An input to an aggregator: a ticker, a trade, or a completion check at a clock time. */
  datatype Event = TickerEvent(ticker: Ticker) | TradeEvent(trade: Trade) | CheckEvent(now: int)

  function Apply(s: AggState, e: Event): Result<Completion>
  {
    match e
    case TickerEvent(t) =>
      (match OnTicker(s, t) case Raised(x) => Raised(x) case Ok(st) => Ok(Completion(st.completed, st.next)))
    case TradeEvent(t) =>
      (match OnTrade(s, t) case Raised(x) => Raised(x) case Ok(st) => Ok(Completion(st.completed, st.next)))
    case CheckEvent(now) => OnCheck(s, now)
  }

  function OptionList(o: Option<Candle>): seq<Candle>
  {
    if o.Some? then [o.value] else []
  }

  /** Feeds `evs` to the aggregator in order: the candles completed along the way and the final state. */
  function Feed(s: AggState, evs: seq<Event>): Result<(seq<Candle>, AggState)>
    decreases |evs|
  {
    if evs == [] then Ok(([], s))
    else match Apply(s, evs[0])
      case Raised(x) => Raised(x)
      case Ok(step) =>
        match Feed(step.next, evs[1..])
        case Raised(x) => Raised(x)
        case Ok(rest) => Ok((OptionList(step.completed) + rest.0, rest.1))
  }

  /** The event's time: the ticker's or trade's timestamp, or the clock of a check. */
  function Stamp(e: Event): int
  {
    match e
    case TickerEvent(t) => t.timestamp
    case TradeEvent(t) => t.timestamp
    case CheckEvent(now) => now
  }

  /** The total amount of the trades among `evs`. */
  function TradeVolume(evs: seq<Event>): real
  {
    if evs == [] then 0.0
    else (if evs[0].TradeEvent? then evs[0].trade.amount else 0.0) + TradeVolume(evs[1..])
  }

  /**
   * An event that stays inside the current candle of `s`: a ticker or trade for the
   * aggregator's symbol whose bucket is not later than the candle's, or a check before
   * the candle's interval has elapsed.
   */
  predicate StaysInCandle(s: AggState, e: Event)
    requires s.lastCandleTime.Some? && IntervalToSeconds(s.interval).Ok?
  {
    match e
    case TickerEvent(t) =>
      t.symbol == s.symbol && Bucket(s, t.timestamp).Ok? && Bucket(s, t.timestamp).value <= s.lastCandleTime.value
    case TradeEvent(t) =>
      t.symbol == s.symbol && Bucket(s, t.timestamp).Ok? && Bucket(s, t.timestamp).value <= s.lastCandleTime.value
    case CheckEvent(now) => now < s.lastCandleTime.value + IntervalToSeconds(s.interval).value
  }

  /**
   * While no event leaves the current candle, nothing is completed, the candle keeps its
   * start and open, and its volume grows by exactly the amounts of the trades fed in.
   */
  lemma {:induction false} VolumeAccumulates(s: AggState, evs: seq<Event>)
    requires WellFormed(s) && s.current.Some?
    requires forall i :: 0 <= i < |evs| ==> StaysInCandle(s, evs[i])
    ensures Feed(s, evs).Ok?
    ensures var (done, n) := Feed(s, evs).value;
      done == [] && WellFormed(n) && n.current.Some? &&
      n.current.value.timestamp == s.current.value.timestamp &&
      n.current.value.open == s.current.value.open &&
      n.current.value.volume == s.current.value.volume + TradeVolume(evs)
    decreases |evs|
  {
    if evs != [] {
      var step := Apply(s, evs[0]);
      assert step.Ok?;
      var n := step.value.next;
      assert n.symbol == s.symbol && n.interval == s.interval && n.lastCandleTime == s.lastCandleTime;
      assert n.current.Some? && n.current.value.timestamp == s.current.value.timestamp;
      forall i | 0 <= i < |evs[1..]| ensures StaysInCandle(n, evs[1..][i]) {
        assert StaysInCandle(s, evs[i + 1]);
      }
      VolumeAccumulates(n, evs[1..]);
    }
  }

  /** A ticker or trade for the aggregator's symbol that opens a new candle. */
  predicate OpensCandle(s: AggState, e: Event)
  {
    match e
    case TickerEvent(t) => t.symbol == s.symbol && Bucket(s, t.timestamp).Ok? && Opens(s, Bucket(s, t.timestamp).value)
    case TradeEvent(t) => t.symbol == s.symbol && Bucket(s, t.timestamp).Ok? && Opens(s, Bucket(s, t.timestamp).value)
    case CheckEvent(_) => false
  }

  /**
   * A candle's volume is the sum of the amounts of the trades since it opened: after an
   * event that opens a candle and any events that stay inside it, the candle's volume is
   * the total amount of the trades among them.
   */
  lemma VolumeSinceOpen(s: AggState, first: Event, rest: seq<Event>)
    requires WellFormed(s) && OpensCandle(s, first)
    requires Apply(s, first).Ok?
    requires forall i :: 0 <= i < |rest| ==> StaysInCandle(Apply(s, first).value.next, rest[i])
    ensures Feed(s, [first] + rest).Ok?
    ensures Feed(s, [first] + rest).value.1.current.Some?
    ensures Feed(s, [first] + rest).value.1.current.value.volume == TradeVolume([first] + rest)
  {
    var n := Apply(s, first).value.next;
    VolumeAccumulates(n, rest);
    var evs := [first] + rest;
    assert evs[1..] == rest;
  }

  /** The timestamps of `cs` strictly increase, and all exceed `after` when it is given. */
  predicate IncreasingAfter(after: Option<int>, cs: seq<Candle>)
  {
    (forall i, j :: 0 <= i < j < |cs| ==> cs[i].timestamp < cs[j].timestamp) &&
    (after.Some? ==> forall i :: 0 <= i < |cs| ==> after.value < cs[i].timestamp)
  }

  /**
   * What holds between events when the interval is `seconds > 0`: the state is well
   * formed and, if a candle starting at `lastDone` was completed, the current candle
   * starts after it, or (with no current candle) the clock has reached its end.
   */
  predicate CompletionInvariant(s: AggState, lastDone: Option<int>, clock: int, seconds: int)
  {
    WellFormed(s) && IntervalToSeconds(s.interval) == Ok(seconds) && seconds > 0 &&
    (lastDone.Some? ==>
      if s.current.Some? then lastDone.value < s.lastCandleTime.value
      else lastDone.value + seconds <= clock)
  }

  /** The start of the last completed candle after one step. */
  function LastDone(lastDone: Option<int>, completed: Option<Candle>): Option<int>
  {
    if completed.Some? then Some(completed.value.timestamp) else lastDone
  }

  lemma StepKeepsInvariant(s: AggState, e: Event, lastDone: Option<int>, clock: int, seconds: int)
    requires CompletionInvariant(s, lastDone, clock, seconds)
    requires clock <= Stamp(e)
    ensures Apply(s, e).Ok?
    ensures var c := Apply(s, e).value;
      (c.completed.Some? ==> lastDone.Some? ==> lastDone.value < c.completed.value.timestamp) &&
      CompletionInvariant(c.next, LastDone(lastDone, c.completed), Stamp(e), seconds)
  {
    match e
    case TickerEvent(t) =>
      if t.symbol == s.symbol {
        var start := Bucket(s, t.timestamp).value;
        assert start > t.timestamp - seconds;
      }
    case TradeEvent(t) =>
      if t.symbol == s.symbol {
        var start := Bucket(s, t.timestamp).value;
        assert start > t.timestamp - seconds;
      }
    case CheckEvent(now) =>
  }

  lemma {:induction false} CompletionsIncreaseFrom(
    s: AggState, evs: seq<Event>, lastDone: Option<int>, clock: int, seconds: int)
    requires CompletionInvariant(s, lastDone, clock, seconds)
    requires forall i :: 0 <= i < |evs| ==> clock <= Stamp(evs[i])
    requires forall i, j :: 0 <= i < j < |evs| ==> Stamp(evs[i]) <= Stamp(evs[j])
    ensures Feed(s, evs).Ok?
    ensures IncreasingAfter(lastDone, Feed(s, evs).value.0)
    decreases |evs|
  {
    if evs != [] {
      StepKeepsInvariant(s, evs[0], lastDone, clock, seconds);
      var c := Apply(s, evs[0]).value;
      var lastDone' := LastDone(lastDone, c.completed);
      CompletionsIncreaseFrom(c.next, evs[1..], lastDone', Stamp(evs[0]), seconds);
      var rest := Feed(c.next, evs[1..]).value.0;
      var all := OptionList(c.completed) + rest;
      assert Feed(s, evs).value.0 == all;
      if c.completed.Some? {
        forall i, j | 0 <= i < j < |all| ensures all[i].timestamp < all[j].timestamp {
          if i == 0 {
            assert all[j] == rest[j - 1];
          } else {
            assert all[i] == rest[i - 1] && all[j] == rest[j - 1];
          }
        }
        if lastDone.Some? {
          forall i | 0 <= i < |all| ensures lastDone.value < all[i].timestamp {
            if i > 0 {
              assert all[i] == rest[i - 1];
            }
          }
        }
      } else {
        assert all == rest;
      }
    }
  }

  /**
   * A fresh aggregator with a positive interval, fed events in non-decreasing time
   * order, never raises, and the candles it completes have strictly increasing start
   * times. This needs the clock of the checks to be monotone along with the event times:
   * after a check resets the aggregator, only the clock keeps a later event out of the
   * candle that was just completed.
   */
  lemma CompletedCandlesIncrease(symbol: string, interval: string, evs: seq<Event>)
    requires IntervalToSeconds(interval).Ok? && IntervalToSeconds(interval).value > 0
    requires forall i, j :: 0 <= i < j < |evs| ==> Stamp(evs[i]) <= Stamp(evs[j])
    ensures Feed(Initial(symbol, interval), evs).Ok?
    ensures var done := Feed(Initial(symbol, interval), evs).value.0;
      forall i, j :: 0 <= i < j < |done| ==> done[i].timestamp < done[j].timestamp
  {
    var clock := if evs == [] then 0 else Stamp(evs[0]);
    CompletionsIncreaseFrom(Initial(symbol, interval), evs, None, clock, IntervalToSeconds(interval).value);
  }
}
