/**
 * The trading engine's table of candle aggregators, `symbol -> interval -> aggregator`
 * (src/engine/trading_engine.py), as an insertion-ordered dict of dicts of aggregator
 * states: how subscribing and unsubscribing change it, and how one market event or one
 * clock tick steps every aggregator of a row in iteration order, with the strategy and
 * chart calls each completed candle causes.
 */
module EngineTables {
  import opened Common
  import opened Dicts
  import opened MarketData
  import opened CandleAggregation
  import opened EngineEvents

  type Row = Dict<AggState>

  type Table = Dict<Row>

  /** The aggregator stored under `symbol` and `interval` was built for them and is well formed. */
  predicate Fits(symbol: string, interval: string, a: AggState)
  {
    a.symbol == symbol && a.interval == interval && WellFormed(a)
  }

  ghost predicate RowValid(symbol: string, row: Row)
  {
    DistinctKeys(row) && forall iv :: Get(row, iv).Some? ==> Fits(symbol, iv, Get(row, iv).value)
  }

  /** The invariant of the table: no key repeats, and each aggregator fits the keys it is stored under. */
  ghost predicate TableValid(t: Table)
  {
    DistinctKeys(t) && forall symbol :: Get(t, symbol).Some? ==> RowValid(symbol, Get(t, symbol).value)
  }

  /** The row of `symbol`, or an empty row when the symbol has none. */
  function RowOf(t: Table, symbol: string): Row
  {
    match Get(t, symbol)
    case None => []
    case Some(row) => row
  }

  /** The row after creating an aggregator, in turn, for each listed interval that has none. */
  function AddIntervals(row: Row, symbol: string, intervals: seq<string>): Row
    decreases |intervals|
  {
    if intervals == [] then row
    else
      var iv := intervals[0];
      AddIntervals(if Get(row, iv).Some? then row else Put(row, iv, Initial(symbol, iv)), symbol, intervals[1..])
  }

  /** An existing aggregator is never replaced; each listed interval without one gets a fresh one; nothing else is added. */
  lemma {:induction false} AddIntervalsLaws(row: Row, symbol: string, intervals: seq<string>)
    ensures forall iv ::
              Get(AddIntervals(row, symbol, intervals), iv) ==
              if Get(row, iv).Some? then Get(row, iv)
              else if iv in intervals then Some(Initial(symbol, iv))
              else None
    ensures DistinctKeys(row) ==> DistinctKeys(AddIntervals(row, symbol, intervals))
    decreases |intervals|
  {
    if intervals != [] {
      var iv := intervals[0];
      var row' := if Get(row, iv).Some? then row else Put(row, iv, Initial(symbol, iv));
      AddIntervalsLaws(row', symbol, intervals[1..]);
      assert intervals == [iv] + intervals[1..];
    }
  }

  /**
   * The intervals `subscribe_market_data` creates aggregators for: the requested ones, or
   * "1m" when none is requested and the symbol has no aggregator. `None` and an empty list
   * of intervals are alike.
   */
  function WantedIntervals(t: Table, symbol: string, intervals: seq<string>): seq<string>
  {
    if intervals != [] then intervals
    else if RowOf(t, symbol) == [] then ["1m"]
    else []
  }

  /** The table after `subscribe_market_data` has set up the aggregators of `symbol`. */
  function SubscribeAggregators(t: Table, symbol: string, intervals: seq<string>): Table
  {
    if intervals != [] then Put(t, symbol, AddIntervals(RowOf(t, symbol), symbol, intervals))
    else if RowOf(t, symbol) == [] then Put(t, symbol, Put(RowOf(t, symbol), "1m", Initial(symbol, "1m")))
    else t
  }

  /**
   * Subscribing touches only the row of `symbol`; there every existing aggregator stays and
   * each wanted interval without one gets a fresh aggregator. The table stays valid.
   */
  lemma SubscribeAggregatorsLaws(t: Table, symbol: string, intervals: seq<string>)
    ensures var r := SubscribeAggregators(t, symbol, intervals);
      (forall s :: s != symbol ==> Get(r, s) == Get(t, s)) &&
      forall iv :: Get(RowOf(r, symbol), iv) ==
        (if Get(RowOf(t, symbol), iv).Some? then Get(RowOf(t, symbol), iv)
         else if iv in WantedIntervals(t, symbol, intervals) then Some(Initial(symbol, iv))
         else None)
    ensures TableValid(t) ==> TableValid(SubscribeAggregators(t, symbol, intervals))
  {
    var r := SubscribeAggregators(t, symbol, intervals);
    var wanted := WantedIntervals(t, symbol, intervals);
    AddIntervalsLaws(RowOf(t, symbol), symbol, wanted);
    if intervals == [] && RowOf(t, symbol) == [] {
      assert AddIntervals([], symbol, ["1m"]) == Put(RowOf(t, symbol), "1m", Initial(symbol, "1m"));
    }
    assert intervals == [] && RowOf(t, symbol) != [] ==> AddIntervals(RowOf(t, symbol), symbol, wanted) == RowOf(t, symbol);
    assert RowOf(r, symbol) == AddIntervals(RowOf(t, symbol), symbol, wanted);
    if TableValid(t) {
      forall iv | Get(RowOf(r, symbol), iv).Some? ensures Fits(symbol, iv, Get(RowOf(r, symbol), iv).value) {
        if Get(RowOf(t, symbol), iv).None? {
          InitialWellFormed(symbol, iv);
        }
      }
      assert RowValid(symbol, RowOf(r, symbol));
      forall s | Get(r, s).Some? ensures RowValid(s, Get(r, s).value) {
      }
    }
  }

  /** The row after `del row[iv]`, in turn, for each listed interval present. */
  function RemoveIntervals(row: Row, intervals: seq<string>): Row
    requires DistinctKeys(row)
    decreases |intervals|
  {
    if intervals == [] then row
    else
      var iv := intervals[0];
      RemoveIntervals(if Get(row, iv).Some? then Remove(row, iv) else row, intervals[1..])
  }

  /** Exactly the listed intervals are gone; every other aggregator stays as it was. */
  lemma {:induction false} RemoveIntervalsLaws(row: Row, intervals: seq<string>)
    requires DistinctKeys(row)
    ensures forall iv :: Get(RemoveIntervals(row, intervals), iv) == if iv in intervals then None else Get(row, iv)
    ensures DistinctKeys(RemoveIntervals(row, intervals))
    decreases |intervals|
  {
    if intervals != [] {
      var iv := intervals[0];
      var row' := if Get(row, iv).Some? then Remove(row, iv) else row;
      RemoveIntervalsLaws(row', intervals[1..]);
      assert intervals == [iv] + intervals[1..];
    }
  }

  /**
   * The table after the clean-up of `unsubscribe_market_data`: the listed intervals of
   * `symbol` are deleted, and the symbol's row with them once it is empty.
   */
  function UnsubscribeAggregators(t: Table, symbol: string, intervals: seq<string>): Table
    requires DistinctKeys(t) && DistinctKeys(RowOf(t, symbol))
  {
    if intervals != [] && Get(t, symbol).Some? then
      var row := RemoveIntervals(RowOf(t, symbol), intervals);
      if row == [] then Remove(t, symbol) else Put(t, symbol, row)
    else t
  }

  /**
   * Only the row of `symbol` changes; in it exactly the listed intervals disappear, and
   * no empty row is left behind. The table stays valid.
   */
  lemma UnsubscribeAggregatorsLaws(t: Table, symbol: string, intervals: seq<string>)
    requires TableValid(t)
    ensures DistinctKeys(RowOf(t, symbol))
    ensures var r := UnsubscribeAggregators(t, symbol, intervals);
      (forall s :: s != symbol ==> Get(r, s) == Get(t, s)) &&
      (forall iv :: Get(RowOf(r, symbol), iv) ==
        if iv in intervals then None else Get(RowOf(t, symbol), iv)) &&
      (Get(r, symbol).Some? && intervals != [] ==> Get(r, symbol).value != []) &&
      TableValid(r)
  {
    assert RowOf(t, symbol) == [] || Get(t, symbol).Some?;
    var r := UnsubscribeAggregators(t, symbol, intervals);
    if intervals != [] && Get(t, symbol).Some? {
      RemoveIntervalsLaws(RowOf(t, symbol), intervals);
      var row := RemoveIntervals(RowOf(t, symbol), intervals);
      forall s | Get(r, s).Some? ensures RowValid(s, Get(r, s).value) {
      }
    } else if intervals != [] {
      forall iv ensures Get(RowOf(t, symbol), iv) == None {
      }
    }
  }

  /** One call per provider: the candle, for the symbol and interval, as received from that provider. */
  function CandleCalls(c: Candle, symbol: string, interval: string, providers: seq<string>): (r: seq<StrategyCall>)
    ensures |r| == |providers|
    ensures forall i :: 0 <= i < |r| ==> r[i] == CandleUpdate(c, symbol, interval, providers[i])
  {
    if providers == [] then [] else [CandleUpdate(c, symbol, interval, providers[0])] + CandleCalls(c, symbol, interval, providers[1..])
  }

  /**
   * The calls a completed candle causes: every strategy is given it once per provider,
   * and then the symbol's chart is given it if it is a one-minute candle and the symbol
   * has a chart.
   */
  function CandleNotices(c: Candle, symbol: string, interval: string, providers: seq<string>, charted: bool, strategies: seq<string>): seq<Notice>
  {
    Broadcast(strategies, CandleCalls(c, symbol, interval, providers)) +
    (if interval == "1m" && charted then [ChartCandle(symbol, c)] else [])
  }

  /**
   * Each loaded strategy hears of the candle once from each provider and of nothing else;
   * the chart hears of it exactly when the interval is "1m" and a chart exists.
   */
  lemma CandleNoticesLaws(c: Candle, symbol: string, interval: string, providers: seq<string>, charted: bool, strategies: seq<string>)
    ensures var ns := CandleNotices(c, symbol, interval, providers, charted, strategies);
      (forall s, p :: ToStrategy(s, CandleUpdate(c, symbol, interval, p)) in ns <==> s in strategies && p in providers) &&
      (forall n :: n in ns && n.ToStrategy? ==> n.call.CandleUpdate? && n.call.candle == c && n.call.interval == interval) &&
      (ChartCandle(symbol, c) in ns <==> interval == "1m" && charted) &&
      (forall n :: n in ns ==> n.ToStrategy? || n == ChartCandle(symbol, c))
  {
    var calls := CandleCalls(c, symbol, interval, providers);
    BroadcastMembership(strategies, calls);
    forall p ensures CandleUpdate(c, symbol, interval, p) in calls <==> p in providers {
      if p in providers {
        var i :| 0 <= i < |providers| && providers[i] == p;
        assert calls[i] == CandleUpdate(c, symbol, interval, p);
      }
    }
  }

  /** What stepping one row of aggregators produces: the new row, the calls made, and the exception that stopped it, if any. */
  datatype RowOutcome = RowOutcome(row: Row, notices: seq<Notice>, error: Option<Exception>)

  /**
   * Gives `e` to every aggregator of the row of `symbol`, in order. A completed candle is
   * announced to the strategies once per provider in `providers` and to the chart. The
   * first aggregator that raises stops the loop: it and the ones after it keep their state.
   */
  function StepRow(row: Row, e: Event, symbol: string, providers: seq<string>, charted: bool, strategies: seq<string>): RowOutcome
  {
    if row == [] then RowOutcome([], [], None)
    else
      var iv := row[0].0;
      match Apply(row[0].1, e)
      case Raised(x) => RowOutcome(row, [], Some(x))
      case Ok(c) =>
        var here := if c.completed.Some? then CandleNotices(c.completed.value, symbol, iv, providers, charted, strategies) else [];
        var rest := StepRow(row[1..], e, symbol, providers, charted, strategies);
        RowOutcome([(iv, c.next)] + rest.row, here + rest.notices, rest.error)
  }

  /** An aggregator keeps its symbol and interval through any step, and its shape through any step that does not raise. */
  lemma ApplyKeepsFit(symbol: string, interval: string, a: AggState, e: Event)
    requires Fits(symbol, interval, a) && Apply(a, e).Ok?
    ensures Fits(symbol, interval, Apply(a, e).value.next)
  {
  }

  /**
   * Stepping a row keeps its intervals in their order and keeps the row valid; when no
   * aggregator raises, each aggregator has taken exactly its own step.
   */
  lemma StepRowLaws(row: Row, e: Event, symbol: string, providers: seq<string>, charted: bool, strategies: seq<string>)
    ensures var o := StepRow(row, e, symbol, providers, charted, strategies);
      Keys(o.row) == Keys(row) &&
      (RowValid(symbol, row) ==> RowValid(symbol, o.row)) &&
      (o.error.None? ==> forall j :: 0 <= j < |row| ==>
        Apply(row[j].1, e).Ok? && o.row[j] == (row[j].0, Apply(row[j].1, e).value.next))
  {
    StepRowKeys(row, e, symbol, providers, charted, strategies);
    if RowValid(symbol, row) {
      StepRowValid(row, e, symbol, providers, charted, strategies);
    }
    StepRowSteps(row, e, symbol, providers, charted, strategies);
  }

  /** Stepping a row keeps its intervals, in their order. */
  lemma {:induction false} StepRowKeys(row: Row, e: Event, symbol: string, providers: seq<string>, charted: bool, strategies: seq<string>)
    ensures Keys(StepRow(row, e, symbol, providers, charted, strategies).row) == Keys(row)
  {
    if row != [] {
      var o := StepRow(row, e, symbol, providers, charted, strategies);
      match Apply(row[0].1, e)
      case Raised(x) =>
      case Ok(c) =>
        var rest := StepRow(row[1..], e, symbol, providers, charted, strategies);
        StepRowKeys(row[1..], e, symbol, providers, charted, strategies);
        assert o.row == [(row[0].0, c.next)] + rest.row;
        assert Keys(o.row) == [row[0].0] + Keys(rest.row);
    }
  }

  /** Stepping a valid row leaves it valid. */
  lemma {:induction false} StepRowValid(row: Row, e: Event, symbol: string, providers: seq<string>, charted: bool, strategies: seq<string>)
    requires RowValid(symbol, row)
    ensures RowValid(symbol, StepRow(row, e, symbol, providers, charted, strategies).row)
  {
    if row != [] {
      var o := StepRow(row, e, symbol, providers, charted, strategies);
      var iv := row[0].0;
      match Apply(row[0].1, e)
      case Raised(x) =>
      case Ok(c) =>
        var rest := StepRow(row[1..], e, symbol, providers, charted, strategies);
        assert o.row == [(iv, c.next)] + rest.row;
        HeadNotInTail(row);
        assert RowValid(symbol, row[1..]) by {
          forall k | Get(row[1..], k).Some? ensures Fits(symbol, k, Get(row[1..], k).value) {
            GetIsMembership(row[1..], k);
            assert Get(row, k) == Get(row[1..], k);
          }
          forall i, j | 0 <= i < j < |row[1..]| ensures row[1..][i].0 != row[1..][j].0 {
            assert row[1..][i] == row[i + 1] && row[1..][j] == row[j + 1];
          }
        }
        StepRowValid(row[1..], e, symbol, providers, charted, strategies);
        assert Get(row, iv) == Some(row[0].1);
        ApplyKeepsFit(symbol, iv, row[0].1, e);
        StepRowKeys(row, e, symbol, providers, charted, strategies);
        SameKeysDistinct(row, o.row);
        forall k | Get(o.row, k).Some? ensures Fits(symbol, k, Get(o.row, k).value) {
          if k != iv {
            assert Get(o.row, k) == Get(rest.row, k);
          }
        }
    }
  }

  /** When no aggregator of the row raises, each has taken exactly its own step. */
  lemma {:induction false} StepRowSteps(row: Row, e: Event, symbol: string, providers: seq<string>, charted: bool, strategies: seq<string>)
    ensures var o := StepRow(row, e, symbol, providers, charted, strategies);
      |o.row| == |row| &&
      (o.error.None? ==> forall j :: 0 <= j < |row| ==>
        Apply(row[j].1, e).Ok? && o.row[j] == (row[j].0, Apply(row[j].1, e).value.next))
  {
    if row != [] {
      var o := StepRow(row, e, symbol, providers, charted, strategies);
      match Apply(row[0].1, e)
      case Raised(x) =>
      case Ok(c) =>
        var rest := StepRow(row[1..], e, symbol, providers, charted, strategies);
        StepRowSteps(row[1..], e, symbol, providers, charted, strategies);
        assert o.row == [(row[0].0, c.next)] + rest.row;
        if o.error.None? {
          forall j | 0 <= j < |row| ensures Apply(row[j].1, e).Ok? && o.row[j] == (row[j].0, Apply(row[j].1, e).value.next) {
            if j > 0 {
              assert row[j] == row[1..][j - 1];
              assert o.row[j] == rest.row[j - 1];
            }
          }
        }
    }
  }

  /** The providers subscribed to any channel of `symbol`. */
  function ProvidersOf(subs: set<Subscription>, symbol: string): set<string>
  {
    set s | s in subs && s.symbol == symbol :: s.provider
  }

  /** The elements of a set in the order iterating over it visits them; that order is fixed but not known. */
  ghost function Enumerate(s: set<string>): (r: seq<string>)
    ensures |r| == |s|
    ensures forall x :: x in r <==> x in s
    ensures forall i, j :: 0 <= i < j < |r| ==> r[i] != r[j]
  {
    if s == {} then []
    else
      var x :| x in s;
      var rest := Enumerate(s - {x});
      assert forall y :: y in [x] + rest <==> y in s;
      [x] + rest
  }

  /** What stepping the whole table produces. */
  datatype TableOutcome = TableOutcome(table: Table, notices: seq<Notice>, error: Option<Exception>)

  /**
   * The completion check of `_update_strategies_timer`: every aggregator of every row, in
   * order, is checked at `now`. A completed candle is announced once per distinct provider
   * subscribed to its symbol. The first aggregator that raises stops the whole walk.
   */
  ghost function CheckTable(t: Table, subs: set<Subscription>, charts: set<string>, now: int, strategies: seq<string>): TableOutcome
  {
    if t == [] then TableOutcome([], [], None)
    else
      var symbol := t[0].0;
      var o := StepRow(t[0].1, CheckEvent(now), symbol, Enumerate(ProvidersOf(subs, symbol)), symbol in charts, strategies);
      if o.error.Some? then TableOutcome([(symbol, o.row)] + t[1..], o.notices, o.error)
      else
        var rest := CheckTable(t[1..], subs, charts, now, strategies);
        TableOutcome([(symbol, o.row)] + rest.table, o.notices + rest.notices, rest.error)
  }

  /** The check keeps the symbols in their order and the table valid. */
  lemma {:induction false} CheckTableLaws(t: Table, subs: set<Subscription>, charts: set<string>, now: int, strategies: seq<string>)
    ensures Keys(CheckTable(t, subs, charts, now, strategies).table) == Keys(t)
    ensures TableValid(t) ==> TableValid(CheckTable(t, subs, charts, now, strategies).table)
  {
    if t != [] {
      var symbol := t[0].0;
      var providers := Enumerate(ProvidersOf(subs, symbol));
      var o := StepRow(t[0].1, CheckEvent(now), symbol, providers, symbol in charts, strategies);
      var r := CheckTable(t, subs, charts, now, strategies);
      StepRowLaws(t[0].1, CheckEvent(now), symbol, providers, symbol in charts, strategies);
      CheckTableLaws(t[1..], subs, charts, now, strategies);
      var tail := if o.error.Some? then t[1..] else CheckTable(t[1..], subs, charts, now, strategies).table;
      assert r.table == [(symbol, o.row)] + tail;
      assert Keys(r.table) == [symbol] + Keys(tail);
      assert Keys(t) == [symbol] + Keys(t[1..]);
      if TableValid(t) {
        HeadNotInTail(t);
        assert TableValid(t[1..]) by {
          forall k | Get(t[1..], k).Some? ensures RowValid(k, Get(t[1..], k).value) {
            GetIsMembership(t[1..], k);
            assert Get(t, k) == Get(t[1..], k);
          }
          forall i, j | 0 <= i < j < |t[1..]| ensures t[1..][i].0 != t[1..][j].0 {
            assert t[1..][i] == t[i + 1] && t[1..][j] == t[j + 1];
          }
        }
        assert Get(t, symbol) == Some(t[0].1);
        SameKeysDistinct(t, r.table);
        forall k | Get(r.table, k).Some? ensures RowValid(k, Get(r.table, k).value) {
          if k != symbol {
            assert Get(r.table, k) == Get(tail, k);
          }
        }
      }
    }
  }
}
