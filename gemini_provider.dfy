/**
 * `GeminiDataProvider` (src/data/providers/gemini.py) without its transport: the clamp and
 * the field mapping of `get_recent_trades`, and `get_candles`, which builds OHLCV candles
 * out of recent trades because the exchange has no candle endpoint.
 *
 * The HTTP response is a parameter: the list of raw trade objects the request returned, each
 * field `None` when the object lacks it. Times are whole epoch seconds.
 */
module GeminiProvider {
  import opened Common
  import opened MarketData
  import Intervals

  /** The most trades the exchange returns for one request. */
  const MaxTradeLimit := 500

  /** How many trades `get_candles` asks for. */
  const CandleTradeLimit := 500

  /** One element of the exchange's trades response. */
  datatype RawTrade = RawTrade(
    price: Option<real>,
    amount: Option<real>,
    kind: Option<string>,
    timestamp: Option<nat>,
    tid: Option<int>)

  // ---------------------------------------------------------------- get_recent_trades

  /** The `limit_trades` sent: the requested limit, but never more than 500. */
  function ClampLimit(limit: int): (r: int)
    ensures r <= MaxTradeLimit
    ensures r == limit || (limit > MaxTradeLimit && r == MaxTradeLimit)
  {
    if limit > MaxTradeLimit then MaxTradeLimit else limit
  }

  /** "buy" exactly when the raw type is "buy"; anything else, a missing type included, is "sell". */
  function TradeSide(kind: Option<string>): (side: string)
    ensures side == "buy" || side == "sell"
    ensures side == "buy" <==> kind == Some("buy")
  {
    if kind == Some("buy") then "buy" else "sell"
  }

  /** A missing number reads as 0 and a missing trade id as "". */
  function ConvertTrade(symbol: string, t: RawTrade): Trade
  {
    Trade(
      symbol,
      if t.price.Some? then t.price.value else 0.0,
      if t.amount.Some? then t.amount.value else 0.0,
      TradeSide(t.kind),
      if t.timestamp.Some? then t.timestamp.value else 0,
      if t.tid.Some? then Intervals.IntString(t.tid.value) else "")
  }

  /**
   * `get_recent_trades`: the limit it requests, and one trade per raw trade of the response
   * `data`, in order, each carrying `symbol`.
   */
  method GetRecentTrades(symbol: string, limit: int, data: seq<RawTrade>) returns (requested: int, trades: seq<Trade>)
    ensures requested == ClampLimit(limit)
    ensures |trades| == |data|
    ensures forall i :: 0 <= i < |data| ==> trades[i] == ConvertTrade(symbol, data[i])
  {
    requested := limit;
    if requested > MaxTradeLimit {
      requested := MaxTradeLimit;
    }
    trades := [];
    for i := 0 to |data|
      invariant |trades| == i
      invariant forall j :: 0 <= j < i ==> trades[j] == ConvertTrade(symbol, data[j])
    {
      trades := trades + [ConvertTrade(symbol, data[i])];
    }
  }

  /** Every converted trade is for the symbol asked about, and its side is "buy" iff the raw type was. */
  lemma ConvertedTrades(symbol: string, t: RawTrade)
    ensures ConvertTrade(symbol, t).symbol == symbol
    ensures ConvertTrade(symbol, t).side in {"buy", "sell"}
    ensures ConvertTrade(symbol, t).side == "buy" <==> t.kind == Some("buy")
  {
  }

  // ---------------------------------------------------------------- the stable sort

  predicate SortedByTime(ts: seq<Trade>)
  {
    forall i, j :: 0 <= i < j < |ts| ==> ts[i].timestamp <= ts[j].timestamp
  }

  /** The trades of `ts` stamped `time`, in their order in `ts`. */
  function AtTime(ts: seq<Trade>, time: nat): seq<Trade>
  {
    if ts == [] then []
    else (if ts[0].timestamp == time then [ts[0]] else []) + AtTime(ts[1..], time)
  }

  /** `t` placed before the first trade of `ts` that is not earlier than it. */
  function InsertByTime(t: Trade, ts: seq<Trade>): (r: seq<Trade>)
    ensures |r| == |ts| + 1
  {
    if ts == [] || t.timestamp <= ts[0].timestamp then [t] + ts
    else [ts[0]] + InsertByTime(t, ts[1..])
  }

  /** Python's `list.sort(key=timestamp)`: ordered by time, equal times kept in input order. */
  function SortByTime(ts: seq<Trade>): (r: seq<Trade>)
    ensures |r| == |ts|
  {
    if ts == [] then [] else InsertByTime(ts[0], SortByTime(ts[1..]))
  }

  lemma {:induction false} InsertByTimeMembers(t: Trade, ts: seq<Trade>)
    ensures multiset(InsertByTime(t, ts)) == multiset(ts) + multiset{t}
    ensures forall x :: x in InsertByTime(t, ts) <==> x == t || x in ts
  {
    if ts != [] && t.timestamp > ts[0].timestamp {
      InsertByTimeMembers(t, ts[1..]);
      assert ts == [ts[0]] + ts[1..];
    }
  }

  lemma {:induction false} InsertByTimeSorted(t: Trade, ts: seq<Trade>)
    requires SortedByTime(ts)
    ensures SortedByTime(InsertByTime(t, ts))
  {
    if ts != [] && t.timestamp > ts[0].timestamp {
      var rest := InsertByTime(t, ts[1..]);
      InsertByTimeSorted(t, ts[1..]);
      InsertByTimeMembers(t, ts[1..]);
      assert forall x :: x in ts[1..] ==> ts[0].timestamp <= x.timestamp;
      assert forall j :: 0 <= j < |rest| ==> rest[j] in rest;
    }
  }

  lemma {:induction false} InsertByTimeAtTime(t: Trade, ts: seq<Trade>, time: nat)
    ensures AtTime(InsertByTime(t, ts), time) == (if t.timestamp == time then [t] else []) + AtTime(ts, time)
  {
    if ts == [] || t.timestamp <= ts[0].timestamp {
      assert ([t] + ts)[1..] == ts;
    } else {
      var rest := InsertByTime(t, ts[1..]);
      InsertByTimeAtTime(t, ts[1..], time);
      assert ([ts[0]] + rest)[1..] == rest;
      var head := if ts[0].timestamp == time then [ts[0]] else [];
      var mine := if t.timestamp == time then [t] else [];
      assert AtTime(InsertByTime(t, ts), time) == head + (mine + AtTime(ts[1..], time));
      assert head == [] || mine == [];
    }
  }

  /** The sort is a permutation, is ordered by time, and keeps trades of equal time in input order. */
  lemma {:induction false} SortByTimeLaws(ts: seq<Trade>)
    ensures multiset(SortByTime(ts)) == multiset(ts)
    ensures SortedByTime(SortByTime(ts))
    ensures forall time :: AtTime(SortByTime(ts), time) == AtTime(ts, time)
  {
    if ts != [] {
      SortByTimeLaws(ts[1..]);
      forall time ensures AtTime(SortByTime(ts), time) == AtTime(ts, time) {
        InsertByTimeAtTime(ts[0], SortByTime(ts[1..]), time);
      }
      InsertByTimeMembers(ts[0], SortByTime(ts[1..]));
      InsertByTimeSorted(ts[0], SortByTime(ts[1..]));
      assert ts == [ts[0]] + ts[1..];
    }
  }

  // ---------------------------------------------------------------- bucketing

  /** `[t for t in trades if lo <= t.timestamp < hi]`. */
  function InBucket(ts: seq<Trade>, lo: int, hi: int): seq<Trade>
  {
    if ts == [] then []
    else (if lo <= ts[0].timestamp < hi then [ts[0]] else []) + InBucket(ts[1..], lo, hi)
  }

  /** A bucket holds exactly the trades stamped in `[lo, hi)`. */
  lemma {:induction false} InBucketMembers(ts: seq<Trade>, lo: int, hi: int)
    ensures forall t :: t in InBucket(ts, lo, hi) <==> t in ts && lo <= t.timestamp < hi
  {
    if ts != [] {
      InBucketMembers(ts[1..], lo, hi);
      assert ts == [ts[0]] + ts[1..];
    }
  }

  /** The highest price of a non-empty list of trades. */
  function HighPrice(b: seq<Trade>): real
    requires |b| > 0
  {
    if |b| == 1 then b[0].price else Max(b[0].price, HighPrice(b[1..]))
  }

  /** The lowest price of a non-empty list of trades. */
  function LowPrice(b: seq<Trade>): real
    requires |b| > 0
  {
    if |b| == 1 then b[0].price else Min(b[0].price, LowPrice(b[1..]))
  }

  /** `max(prices)` and `min(prices)`: bounds of every price of the bucket, each attained by one of its trades. */
  lemma {:induction false} PriceRange(b: seq<Trade>)
    requires |b| > 0
    ensures forall t :: t in b ==> LowPrice(b) <= t.price <= HighPrice(b)
    ensures (exists t :: t in b && t.price == HighPrice(b)) && (exists t :: t in b && t.price == LowPrice(b))
  {
    if |b| > 1 {
      PriceRange(b[1..]);
      assert b == [b[0]] + b[1..];
    }
  }

  /** `sum(t.amount for t in b)`. */
  function Volume(b: seq<Trade>): real
  {
    if b == [] then 0.0 else b[0].amount + Volume(b[1..])
  }

  /** The candle of one non-empty bucket starting at `time`. */
  function Summary(symbol: string, time: int, b: seq<Trade>): Candle
    requires |b| > 0
  {
    Candle(symbol, time, b[0].price, HighPrice(b), LowPrice(b), b[|b| - 1].price, Volume(b))
  }

  /**
   * A bucket's candle opens at its first trade's price and closes at its last; its high and
   * low are the extreme prices of the bucket, so it is well ordered; its volume is the sum of
   * the amounts.
   */
  lemma SummaryLaws(symbol: string, time: int, b: seq<Trade>)
    requires |b| > 0
    ensures var c := Summary(symbol, time, b);
      c.symbol == symbol && c.timestamp == time && OhlcOrdered(c) &&
      c.open == b[0].price && c.close == b[|b| - 1].price && c.volume == Volume(b) &&
      (forall t :: t in b ==> c.low <= t.price <= c.high) &&
      (exists t :: t in b && t.price == c.high) && (exists t :: t in b && t.price == c.low)
  {
    PriceRange(b);
    assert b[0] in b && b[|b| - 1] in b;
  }

  /**
   * The candles of the loop of `get_candles` from bucket start `current` on, when `room`
   * more candles may still be produced: one per non-empty bucket [t, t + seconds) with
   * t < `end`, while room lasts.
   */
  function Buckets(symbol: string, ts: seq<Trade>, current: int, end: int, seconds: int, room: int): seq<Candle>
    requires seconds > 0
    decreases end - current
  {
    if current >= end || room <= 0 then []
    else
      var b := InBucket(ts, current, current + seconds);
      if b != [] then [Summary(symbol, current, b)] + Buckets(symbol, ts, current + seconds, end, seconds, room - 1)
      else Buckets(symbol, ts, current + seconds, end, seconds, room)
  }

  /** The start of the `k`-th bucket after `current`. */
  function GridPoint(current: int, seconds: int, k: nat): int
  {
    current + k * seconds
  }

  lemma GridStep(current: int, seconds: int, k: nat)
    ensures GridPoint(current + seconds, seconds, k) == GridPoint(current, seconds, k + 1)
  {
    assert (k + 1) * seconds == k * seconds + seconds;
  }

  /** Never more candles than room. */
  lemma {:induction false} BucketsBound(symbol: string, ts: seq<Trade>, current: int, end: int, seconds: int, room: int)
    requires seconds > 0
    ensures |Buckets(symbol, ts, current, end, seconds, room)| <= (if room > 0 then room else 0)
    decreases end - current
  {
    if !(current >= end || room <= 0) {
      var b := InBucket(ts, current, current + seconds);
      BucketsBound(symbol, ts, current + seconds, end, seconds, if b != [] then room - 1 else room);
    }
  }

  /** Every candle starts in `[current, end)`. */
  lemma {:induction false} BucketsRange(symbol: string, ts: seq<Trade>, current: int, end: int, seconds: int, room: int)
    requires seconds > 0
    ensures forall c :: c in Buckets(symbol, ts, current, end, seconds, room) ==> current <= c.timestamp < end
    decreases end - current
  {
    if !(current >= end || room <= 0) {
      var b := InBucket(ts, current, current + seconds);
      BucketsRange(symbol, ts, current + seconds, end, seconds, if b != [] then room - 1 else room);
    }
  }

  /**
   * Every candle starts a whole number of intervals after `current` and before `end`, and
   * is the summary of its bucket, which is not empty.
   */
  lemma BucketsCandles(symbol: string, ts: seq<Trade>, current: int, end: int, seconds: int, room: int)
    requires seconds > 0
    ensures forall c :: c in Buckets(symbol, ts, current, end, seconds, room) ==>
      current <= c.timestamp < end && (exists k: nat :: c.timestamp == GridPoint(current, seconds, k)) &&
      InBucket(ts, c.timestamp, c.timestamp + seconds) != [] &&
      c == Summary(symbol, c.timestamp, InBucket(ts, c.timestamp, c.timestamp + seconds))
  {
    forall c | c in Buckets(symbol, ts, current, end, seconds, room)
      ensures current <= c.timestamp < end && (exists k: nat :: c.timestamp == GridPoint(current, seconds, k)) &&
        InBucket(ts, c.timestamp, c.timestamp + seconds) != [] &&
        c == Summary(symbol, c.timestamp, InBucket(ts, c.timestamp, c.timestamp + seconds))
    {
      BucketCandle(symbol, ts, current, end, seconds, room, c);
    }
  }

  lemma {:induction false} BucketCandle(symbol: string, ts: seq<Trade>, current: int, end: int, seconds: int, room: int, c: Candle)
    requires seconds > 0 && c in Buckets(symbol, ts, current, end, seconds, room)
    ensures current <= c.timestamp < end && (exists k: nat :: c.timestamp == GridPoint(current, seconds, k)) &&
      InBucket(ts, c.timestamp, c.timestamp + seconds) != [] &&
      c == Summary(symbol, c.timestamp, InBucket(ts, c.timestamp, c.timestamp + seconds))
    decreases end - current
  {
    var b := InBucket(ts, current, current + seconds);
    var next := current + seconds;
    var room' := if b != [] then room - 1 else room;
    if b != [] && c == Summary(symbol, current, b) {
      assert GridPoint(current, seconds, 0) == current;
    } else {
      assert c in Buckets(symbol, ts, next, end, seconds, room');
      BucketCandle(symbol, ts, next, end, seconds, room', c);
      var k: nat :| c.timestamp == GridPoint(next, seconds, k);
      GridStep(current, seconds, k);
    }
  }

  /** The candles are in strictly increasing time order. */
  lemma {:induction false} BucketsIncreasing(symbol: string, ts: seq<Trade>, current: int, end: int, seconds: int, room: int)
    requires seconds > 0
    ensures Increasing(Buckets(symbol, ts, current, end, seconds, room))
    decreases end - current
  {
    if !(current >= end || room <= 0) {
      var b := InBucket(ts, current, current + seconds);
      var next := current + seconds;
      var room' := if b != [] then room - 1 else room;
      var rest := Buckets(symbol, ts, next, end, seconds, room');
      BucketsIncreasing(symbol, ts, next, end, seconds, room');
      if b != [] {
        BucketsRange(symbol, ts, next, end, seconds, room');
        var head := Summary(symbol, current, b);
        assert head.timestamp == current;
        IncreasingCons(head, rest);
        assert Buckets(symbol, ts, current, end, seconds, room) == [head] + rest;
      } else {
        assert Buckets(symbol, ts, current, end, seconds, room) == rest;
      }
    }
  }

  /** Candle times strictly increase along the list. */
  predicate Increasing(cs: seq<Candle>)
  {
    forall i, j :: 0 <= i < j < |cs| ==> cs[i].timestamp < cs[j].timestamp
  }

  lemma IncreasingCons(c: Candle, cs: seq<Candle>)
    requires Increasing(cs) && forall d :: d in cs ==> c.timestamp < d.timestamp
    ensures Increasing([c] + cs)
  {
    forall i, j | 0 <= i < j < |cs| + 1 ensures ([c] + cs)[i].timestamp < ([c] + cs)[j].timestamp {
      assert ([c] + cs)[j] == cs[j - 1] && cs[j - 1] in cs;
      if i > 0 {
        assert ([c] + cs)[i] == cs[i - 1];
      }
    }
  }

  /**
   * No non-empty bucket before `end` is skipped unless the candles stopped at the limit: a
   * shorter list than room has a candle for every bucket start after `current` and below
   * `end` whose bucket holds a trade.
   */
  lemma {:induction false} BucketsComplete(symbol: string, ts: seq<Trade>, current: int, end: int, seconds: int, room: int, k: nat, lo: int)
    requires seconds > 0 && lo == GridPoint(current, seconds, k)
    requires |Buckets(symbol, ts, current, end, seconds, room)| < room
    requires lo < end && |InBucket(ts, lo, lo + seconds)| > 0
    ensures exists c :: c in Buckets(symbol, ts, current, end, seconds, room) && c.timestamp == lo
    decreases k
  {
    var b := InBucket(ts, current, current + seconds);
    var next := current + seconds;
    var cs := Buckets(symbol, ts, current, end, seconds, room);
    if k == 0 {
      assert cs[0].timestamp == current;
    } else {
      assert current < end;
      var room' := if b != [] then room - 1 else room;
      GridStep(current, seconds, k - 1);
      var rest := Buckets(symbol, ts, next, end, seconds, room');
      if b != [] {
        assert cs == [Summary(symbol, current, b)] + rest;
      } else {
        assert cs == rest;
      }
      BucketsComplete(symbol, ts, next, end, seconds, room', k - 1, lo);
      var c :| c in rest && c.timestamp == lo;
      assert c in cs;
    }
  }

  // ---------------------------------------------------------------- get_candles

  datatype CandlesOutcome =
    | Candles(candles: seq<Candle>)
    | Fails(error: Exception)
    /** A zero interval with a non-empty window: the loop never advances. */
    | Diverges

  /** The trades of a response, converted in order. */
  function ConvertAll(symbol: string, data: seq<RawTrade>): (ts: seq<Trade>)
    ensures |ts| == |data| && forall i :: 0 <= i < |data| ==> ts[i] == ConvertTrade(symbol, data[i])
  {
    seq(|data|, i requires 0 <= i < |data| => ConvertTrade(symbol, data[i]))
  }

  /** The window `[start, end)`: the bounds given, else the first and last sorted trade times. */
  function Window(startTime: Option<int>, endTime: Option<int>, sorted: seq<Trade>): (int, int)
    requires |sorted| > 0
  {
    (if startTime.Some? then startTime.value else sorted[0].timestamp,
     if endTime.Some? then endTime.value else sorted[|sorted| - 1].timestamp)
  }

  /**
   * `get_candles` over the trades `data` returned for its request of 500 trades: sort them,
   * default the window to the first and last trade times, and bucket. A malformed interval
   * raises, even when there are no trades. A negative interval with a non-empty window walks
   * the bucket start back past year 1, where adding the interval raises OverflowError.
   */
  function CandlesOf(symbol: string, interval: string, startTime: Option<int>, endTime: Option<int>, limit: int, data: seq<RawTrade>)
    : CandlesOutcome
  {
    match Intervals.IntervalToSeconds(interval)
    case Raised(e) => Fails(e)
    case Ok(seconds) =>
      if data == [] then Candles([])
      else
        var sorted := SortByTime(ConvertAll(symbol, data));
        var start, end := Window(startTime, endTime, sorted).0, Window(startTime, endTime, sorted).1;
        if seconds <= 0 then
          if !(start < end && 0 < limit) then Candles([])
          else if seconds == 0 then Diverges
          else Fails(OverflowError)
        else Candles(Buckets(symbol, sorted, start, end, seconds, limit))
  }

  /** `get_candles`, with the trade request's response `data` as a parameter. */
  method GetCandles(symbol: string, interval: string, startTime: Option<int>, endTime: Option<int>, limit: int, data: seq<RawTrade>)
    returns (r: CandlesOutcome)
    ensures r == CandlesOf(symbol, interval, startTime, endTime, limit, data)
  {
    var requested, trades := GetRecentTrades(symbol, CandleTradeLimit, data);
    assert trades == ConvertAll(symbol, data);
    var parsed := Intervals.IntervalToSeconds(interval);
    if parsed.Raised? {
      return Fails(parsed.error);
    }
    var seconds := parsed.value;
    var candles: seq<Candle> := [];
    if trades == [] {
      return Candles(candles);
    }
    trades := SortByTime(trades);
    var start := if startTime.Some? then startTime.value else trades[0].timestamp;
    var end := if endTime.Some? then endTime.value else trades[|trades| - 1].timestamp;
    if seconds <= 0 {
      if !(start < end && 0 < limit) {
        return Candles(candles);
      }
      return if seconds == 0 then Diverges else Fails(OverflowError);
    }
    candles := BuildCandles(symbol, trades, start, end, seconds, limit);
    return Candles(candles);
  }

  /** The bucketing loop of `get_candles`, over sorted trades and a positive interval. */
  method BuildCandles(symbol: string, trades: seq<Trade>, start: int, end: int, seconds: int, limit: int)
    returns (candles: seq<Candle>)
    requires seconds > 0
    ensures candles == Buckets(symbol, trades, start, end, seconds, limit)
  {
    candles := [];
    var current := start;
    ghost var final := Buckets(symbol, trades, start, end, seconds, limit);
    ghost var room := limit;
    assert candles + final == final;
    while current < end && |candles| < limit
      invariant room == limit - |candles|
      invariant candles + Buckets(symbol, trades, current, end, seconds, room) == final
      decreases end - current
    {
      candles, room := NextBucket(symbol, trades, current, end, seconds, candles, room, final);
      current := current + seconds;
    }
    BucketsDone(symbol, trades, current, end, seconds, room, candles);
  }

  /** One turn of the bucketing loop: the bucket at `current` becomes a candle if it holds a trade. */
  method NextBucket(symbol: string, trades: seq<Trade>, current: int, end: int, seconds: int,
                    candles: seq<Candle>, ghost room: int, ghost final: seq<Candle>)
    returns (candles': seq<Candle>, ghost room': int)
    requires seconds > 0 && current < end && room > 0
    requires candles + Buckets(symbol, trades, current, end, seconds, room) == final
    ensures candles' + Buckets(symbol, trades, current + seconds, end, seconds, room') == final
    ensures room' == room - (|candles'| - |candles|) && |candles| <= |candles'| <= |candles| + 1
  {
    var bucket := InBucket(trades, current, current + seconds);
    BucketsAdvance(symbol, trades, current, end, seconds, room, candles, final);
    if bucket != [] {
      candles' := candles + [Summary(symbol, current, bucket)];
      room' := room - 1;
    } else {
      candles' := candles;
      room' := room;
    }
  }

  /** One turn of the bucketing loop keeps `candles + the remaining buckets` equal to all the buckets. */
  lemma BucketsAdvance(symbol: string, ts: seq<Trade>, current: int, end: int, seconds: int, room: int, candles: seq<Candle>, final: seq<Candle>)
    requires seconds > 0 && current < end && room > 0
    requires candles + Buckets(symbol, ts, current, end, seconds, room) == final
    ensures var b := InBucket(ts, current, current + seconds);
      b != [] ==> (candles + [Summary(symbol, current, b)]) + Buckets(symbol, ts, current + seconds, end, seconds, room - 1) == final
    ensures var b := InBucket(ts, current, current + seconds);
      b == [] ==> candles + Buckets(symbol, ts, current + seconds, end, seconds, room) == final
  {
    BucketsStep(symbol, ts, current, end, seconds, room);
    var b := InBucket(ts, current, current + seconds);
    if b != [] {
      ConcatAssoc(candles, [Summary(symbol, current, b)], Buckets(symbol, ts, current + seconds, end, seconds, room - 1));
    }
  }

  /** Once the window or the room is used up, the remaining buckets are none. */
  lemma BucketsDone(symbol: string, ts: seq<Trade>, current: int, end: int, seconds: int, room: int, candles: seq<Candle>)
    requires seconds > 0 && (current >= end || room <= 0)
    ensures candles + Buckets(symbol, ts, current, end, seconds, room) == candles
  {
    assert Buckets(symbol, ts, current, end, seconds, room) == [];
  }

  /** One step of the bucketing: the candle of the bucket at `current`, if it holds a trade, then the rest. */
  lemma BucketsStep(symbol: string, ts: seq<Trade>, current: int, end: int, seconds: int, room: int)
    requires seconds > 0 && current < end && room > 0
    ensures var b := InBucket(ts, current, current + seconds);
      Buckets(symbol, ts, current, end, seconds, room) ==
        if b != [] then [Summary(symbol, current, b)] + Buckets(symbol, ts, current + seconds, end, seconds, room - 1)
        else Buckets(symbol, ts, current + seconds, end, seconds, room)
  {
  }

  // ---------------------------------------------------------------- properties of get_candles

  /** No trades, no candles (once the interval parses). */
  lemma NoTradesNoCandles(symbol: string, interval: string, startTime: Option<int>, endTime: Option<int>, limit: int)
    requires Intervals.IntervalToSeconds(interval).Ok?
    ensures CandlesOf(symbol, interval, startTime, endTime, limit, []) == Candles([])
  {
  }

  /** With a positive interval and some trades, `get_candles` buckets the stably sorted trades over its window. */
  lemma CandlesAreBuckets(symbol: string, interval: string, startTime: Option<int>, endTime: Option<int>, limit: int, data: seq<RawTrade>)
    requires data != []
    requires Intervals.IntervalToSeconds(interval).Ok? && Intervals.IntervalToSeconds(interval).value > 0
    ensures var sorted := SortByTime(ConvertAll(symbol, data));
      var start, end := Window(startTime, endTime, sorted).0, Window(startTime, endTime, sorted).1;
      CandlesOf(symbol, interval, startTime, endTime, limit, data)
        == Candles(Buckets(symbol, sorted, start, end, Intervals.IntervalToSeconds(interval).value, limit))
  {
  }

  /**
   * With a non-positive interval and some trades: an empty window or a non-positive limit
   * gives no candles; otherwise a zero interval never ends the loop and a negative one
   * raises OverflowError.
   */
  lemma NonPositiveIntervals(symbol: string, interval: string, startTime: Option<int>, endTime: Option<int>, limit: int, data: seq<RawTrade>)
    requires data != []
    requires Intervals.IntervalToSeconds(interval).Ok? && Intervals.IntervalToSeconds(interval).value <= 0
    ensures var sorted := SortByTime(ConvertAll(symbol, data));
      var w := Window(startTime, endTime, sorted);
      var seconds := Intervals.IntervalToSeconds(interval).value;
      var r := CandlesOf(symbol, interval, startTime, endTime, limit, data);
      (r == Candles([]) <==> !(w.0 < w.1 && 0 < limit)) &&
      (r == Diverges <==> w.0 < w.1 && 0 < limit && seconds == 0) &&
      (r == Fails(OverflowError) <==> w.0 < w.1 && 0 < limit && seconds < 0)
  {
  }

  /** "-1m" over a one-minute window raises OverflowError, whatever the trades. */
  lemma NegativeMinuteOverflows(symbol: string, data: seq<RawTrade>)
    requires data != []
    ensures CandlesOf(symbol, "-1m", Some(0), Some(60), 1, data) == Fails(OverflowError)
  {
    assert "-1m"[..2] == "-1" && "-1"[1..] == "1";
    assert Intervals.IntervalToSeconds("-1m") == Ok(-60);
  }

  /**
   * The candles a window yields: at most `limit`; each starts a whole number of intervals
   * after the window start and before its end, and is the summary of the trades of its
   * non-empty bucket; and their times strictly increase.
   */
  ghost predicate CandlesOfWindow(symbol: string, sorted: seq<Trade>, start: int, end: int, seconds: int, limit: int, cs: seq<Candle>)
  {
    |cs| <= (if limit > 0 then limit else 0) &&
    (forall c :: c in cs ==>
      start <= c.timestamp < end && (exists k: nat :: c.timestamp == GridPoint(start, seconds, k)) &&
      InBucket(sorted, c.timestamp, c.timestamp + seconds) != [] &&
      c == Summary(symbol, c.timestamp, InBucket(sorted, c.timestamp, c.timestamp + seconds))) &&
    Increasing(cs)
  }

  lemma BucketsOfWindow(symbol: string, sorted: seq<Trade>, start: int, end: int, seconds: int, limit: int)
    requires seconds > 0
    ensures CandlesOfWindow(symbol, sorted, start, end, seconds, limit, Buckets(symbol, sorted, start, end, seconds, limit))
  {
    BucketsBound(symbol, sorted, start, end, seconds, limit);
    BucketsCandles(symbol, sorted, start, end, seconds, limit);
    BucketsIncreasing(symbol, sorted, start, end, seconds, limit);
  }

  /** With a positive interval and some trades, `get_candles` yields the candles of its window over the stably sorted trades. */
  lemma CandlesShape(symbol: string, interval: string, startTime: Option<int>, endTime: Option<int>, limit: int, data: seq<RawTrade>)
    requires data != []
    requires Intervals.IntervalToSeconds(interval).Ok? && Intervals.IntervalToSeconds(interval).value > 0
    ensures var sorted := SortByTime(ConvertAll(symbol, data));
      var start, end := Window(startTime, endTime, sorted).0, Window(startTime, endTime, sorted).1;
      var r := CandlesOf(symbol, interval, startTime, endTime, limit, data);
      r.Candles? && CandlesOfWindow(symbol, sorted, start, end, Intervals.IntervalToSeconds(interval).value, limit, r.candles)
  {
    var sorted := SortByTime(ConvertAll(symbol, data));
    var start, end := Window(startTime, endTime, sorted).0, Window(startTime, endTime, sorted).1;
    CandlesAreBuckets(symbol, interval, startTime, endTime, limit, data);
    BucketsOfWindow(symbol, sorted, start, end, Intervals.IntervalToSeconds(interval).value, limit);
  }

  /** Some trade falls in the bucket of `seconds` that starts at `lo`. */
  predicate Occupied(ts: seq<Trade>, lo: int, seconds: int)
  {
    |InBucket(ts, lo, lo + seconds)| > 0
  }

  /**
   * When the limit did not cut the list, every bucket of the window that holds a trade has
   * its candle.
   */
  lemma CandlesComplete(symbol: string, interval: string, startTime: Option<int>, endTime: Option<int>, limit: int, data: seq<RawTrade>, k: nat)
    requires data != []
    requires Intervals.IntervalToSeconds(interval).Ok? && Intervals.IntervalToSeconds(interval).value > 0
    requires var seconds := Intervals.IntervalToSeconds(interval).value;
      var sorted := SortByTime(ConvertAll(symbol, data));
      var start, end := Window(startTime, endTime, sorted).0, Window(startTime, endTime, sorted).1;
      var r := CandlesOf(symbol, interval, startTime, endTime, limit, data);
      r.Candles? && |r.candles| < limit &&
      GridPoint(start, seconds, k) < end &&
      Occupied(sorted, GridPoint(start, seconds, k), seconds)
    ensures var seconds := Intervals.IntervalToSeconds(interval).value;
      var sorted := SortByTime(ConvertAll(symbol, data));
      var start, end := Window(startTime, endTime, sorted).0, Window(startTime, endTime, sorted).1;
      exists c :: c in CandlesOf(symbol, interval, startTime, endTime, limit, data).candles && c.timestamp == GridPoint(start, seconds, k)
  {
    var seconds := Intervals.IntervalToSeconds(interval).value;
    var sorted := SortByTime(ConvertAll(symbol, data));
    var w := Window(startTime, endTime, sorted);
    var g := GridPoint(w.0, seconds, k);
    var cs := Buckets(symbol, sorted, w.0, w.1, seconds, limit);
    CandlesAreBuckets(symbol, interval, startTime, endTime, limit, data);
    assert CandlesOf(symbol, interval, startTime, endTime, limit, data) == Candles(cs);
    assert |cs| < limit && g < w.1 && Occupied(sorted, g, seconds);
    BucketsComplete(symbol, sorted, w.0, w.1, seconds, limit, k, g);
  }

  /** With default bounds and every trade at one time, the window is empty and no candle is built. */
  lemma OneInstantNoCandles(symbol: string, interval: string, limit: int, data: seq<RawTrade>, time: nat)
    requires Intervals.IntervalToSeconds(interval).Ok?
    requires forall i :: 0 <= i < |data| ==> ConvertTrade(symbol, data[i]).timestamp == time
    ensures CandlesOf(symbol, interval, None, None, limit, data) == Candles([])
  {
    if data != [] {
      var trades := ConvertAll(symbol, data);
      var sorted := SortByTime(trades);
      SortedFromInput(trades, 0);
      SortedFromInput(trades, |sorted| - 1);
      assert Window(None, None, sorted) == (time, time);
    }
  }

  /** Each trade of the sorted list is one of the input's. */
  lemma SortedFromInput(ts: seq<Trade>, j: int)
    requires 0 <= j < |SortByTime(ts)|
    ensures |SortByTime(ts)| == |ts|
    ensures exists i :: 0 <= i < |ts| && ts[i] == SortByTime(ts)[j]
  {
    SortByTimeLaws(ts);
    assert |multiset(SortByTime(ts))| == |multiset(ts)|;
    assert SortByTime(ts)[j] in multiset(ts);
  }

  /**
   * With the default end, the window ends at the last trade's time; when the window is a
   * whole number of intervals long, that time is the start of the bucket the loop stops at,
   * and every trade stamped with it, the last one and any other, is in no candle.
   */
  lemma LastTradeOnBoundary(symbol: string, sorted: seq<Trade>, start: int, seconds: int, limit: int, n: nat)
    requires seconds > 0 && |sorted| > 0
    requires sorted[|sorted| - 1].timestamp == GridPoint(start, seconds, n)
    ensures var end := sorted[|sorted| - 1].timestamp;
      forall t, c :: t in sorted && t.timestamp == end && c in Buckets(symbol, sorted, start, end, seconds, limit) ==>
        t !in InBucket(sorted, c.timestamp, c.timestamp + seconds)
  {
    var end := sorted[|sorted| - 1].timestamp;
    BucketsCandles(symbol, sorted, start, end, seconds, limit);
    forall t, c | t in sorted && t.timestamp == end && c in Buckets(symbol, sorted, start, end, seconds, limit)
      ensures t !in InBucket(sorted, c.timestamp, c.timestamp + seconds)
    {
      var k: nat :| c.timestamp == GridPoint(start, seconds, k);
      GridBucketBefore(start, seconds, n, k);
      NotInEarlierBucket(sorted, t, c.timestamp, c.timestamp + seconds);
    }
  }

  /** A bucket on the grid that starts before another grid point ends at or before it. */
  lemma GridBucketBefore(start: int, seconds: int, n: nat, k: nat)
    requires seconds > 0 && GridPoint(start, seconds, k) < GridPoint(start, seconds, n)
    ensures GridPoint(start, seconds, k) + seconds <= GridPoint(start, seconds, n)
  {
    MulCancel(k, n, seconds);
    MulMonotone(k + 1, n, seconds);
    assert (k + 1) * seconds == k * seconds + seconds;
  }

  /** A trade is in no bucket that ends at or before its time. */
  lemma NotInEarlierBucket(sorted: seq<Trade>, t: Trade, lo: int, hi: int)
    requires hi <= t.timestamp
    ensures t !in InBucket(sorted, lo, hi)
  {
    InBucketMembers(sorted, lo, hi);
  }

  lemma MulCancel(k: nat, n: nat, m: int)
    requires m > 0 && k * m < n * m
    ensures k < n
  {
    if k >= n {
      MulMonotone(n, k, m);
    }
  }

  lemma MulMonotone(a: nat, b: nat, m: nat)
    requires a <= b
    ensures a * m <= b * m
  {
  }
}
