/**
 * The reconciliation that `_update_broker_data` in src/engine/trading_engine.py performs
 * when fresh account, position and order data arrive from a broker: which cached values
 * it replaces and which updates it reports to the strategies.
 */
module BrokerSync {
  import opened Common
  import opened Dicts
  import opened Execution
  import opened EngineEvents

  /** Every position in a symbol map is stored under its own symbol. */
  ghost predicate KeyedBySymbol(d: Dict<Position>)
  {
    forall k :: Get(d, k).Some? ==> Get(d, k).value.symbol == k
  }

  /** The symbols of `ps`, in order. */
  function SymbolsOf(ps: seq<Position>): (r: seq<string>)
    ensures |r| == |ps| && forall i :: 0 <= i < |ps| ==> r[i] == ps[i].symbol
  {
    if ps == [] then [] else SymbolsOf(ps[..|ps| - 1]) + [ps[|ps| - 1].symbol]
  }

  /** `{position.symbol: position for position in positions}`. */
  function PositionsBySymbol(ps: seq<Position>): Dict<Position>
  {
    if ps == [] then [] else Put(PositionsBySymbol(ps[..|ps| - 1]), ps[|ps| - 1].symbol, ps[|ps| - 1])
  }

  /** The symbol map keeps its keys distinct, stores each position under its symbol and has exactly the symbols of `ps`. */
  lemma {:induction false} PositionsBySymbolShape(ps: seq<Position>)
    ensures DistinctKeys(PositionsBySymbol(ps)) && KeyedBySymbol(PositionsBySymbol(ps))
    ensures forall k :: Get(PositionsBySymbol(ps), k).Some? <==> k in SymbolsOf(ps)
  {
    if ps != [] {
      var init := ps[..|ps| - 1];
      PositionsBySymbolShape(init);
      assert SymbolsOf(ps) == SymbolsOf(init) + [ps[|ps| - 1].symbol];
    }
  }

  /** A position that no later position shares a symbol with is the one stored under its symbol. */
  lemma {:induction false} PositionsBySymbolLast(ps: seq<Position>, i: int)
    requires 0 <= i < |ps| && forall j :: i < j < |ps| ==> ps[j].symbol != ps[i].symbol
    ensures Get(PositionsBySymbol(ps), ps[i].symbol) == Some(ps[i])
  {
    var init := ps[..|ps| - 1];
    if i < |init| {
      assert init[i] == ps[i];
      forall j | i < j < |init| ensures init[j].symbol != init[i].symbol {
        assert init[j] == ps[j];
      }
      PositionsBySymbolLast(init, i);
    }
  }

  /**
   * The symbol map has one entry per symbol that occurs among the positions, stored under
   * that symbol and holding the last position with it.
   */
  lemma PositionsBySymbolLaws(ps: seq<Position>)
    ensures DistinctKeys(PositionsBySymbol(ps)) && KeyedBySymbol(PositionsBySymbol(ps))
    ensures forall k :: Get(PositionsBySymbol(ps), k).Some? <==> k in SymbolsOf(ps)
    ensures forall i :: 0 <= i < |ps| && (forall j :: i < j < |ps| ==> ps[j].symbol != ps[i].symbol) ==>
      Get(PositionsBySymbol(ps), ps[i].symbol) == Some(ps[i])
  {
    PositionsBySymbolShape(ps);
    forall i | 0 <= i < |ps| && (forall j :: i < j < |ps| ==> ps[j].symbol != ps[i].symbol)
      ensures Get(PositionsBySymbol(ps), ps[i].symbol) == Some(ps[i])
    {
      PositionsBySymbolLast(ps, i);
    }
  }

  /** The position reported for a symbol that has disappeared from a broker, with empty raw data. */
  function ZeroPosition(symbol: string): Position
  {
    Position(symbol, 0.0, 0.0, 0.0, 0.0, [])
  }

  /** The new positions, in the new map's order, that differ from the cached value for their symbol. */
  function ChangedPositions(before: Dict<Position>, after: Dict<Position>): seq<Position>
  {
    if after == [] then []
    else (if Get(before, after[0].0) != Some(after[0].1) then [after[0].1] else []) + ChangedPositions(before, after[1..])
  }

  /** A zero position for each cached symbol, in the cached map's order, that is not among `keys`, the new map's symbols. */
  function ClosedPositions(before: Dict<Position>, keys: seq<string>): seq<Position>
  {
    if before == [] then []
    else (if before[0].0 !in keys then [ZeroPosition(before[0].0)] else []) + ClosedPositions(before[1..], keys)
  }

  /** How many positions in `ps` carry `symbol`. */
  function CountSymbol(ps: seq<Position>, symbol: string): nat
  {
    if ps == [] then 0 else (if ps[0].symbol == symbol then 1 else 0) + CountSymbol(ps[1..], symbol)
  }

  lemma {:induction false} CountSymbolConcat(a: seq<Position>, b: seq<Position>, symbol: string)
    ensures CountSymbol(a + b, symbol) == CountSymbol(a, symbol) + CountSymbol(b, symbol)
  {
    if a != [] {
      CountSymbolConcat(a[1..], b, symbol);
      assert (a + b)[1..] == a[1..] + b;
    } else {
      assert a + b == b;
    }
  }

  lemma {:induction false} ChangedCount(before: Dict<Position>, after: Dict<Position>, k: string)
    requires DistinctKeys(after) && KeyedBySymbol(after)
    ensures CountSymbol(ChangedPositions(before, after), k) ==
      if Get(after, k).Some? && Get(before, k) != Get(after, k) then 1 else 0
  {
    if after != [] {
      var rest := after[1..];
      assert DistinctKeys(rest) by {
        forall i, j | 0 <= i < j < |rest| ensures rest[i].0 != rest[j].0 {
          assert rest[i] == after[i + 1] && rest[j] == after[j + 1];
        }
      }
      assert KeyedBySymbol(rest) by {
        forall k' | Get(rest, k').Some? ensures Get(rest, k').value.symbol == k' {
          assert Get(after, k') == Get(rest, k') by {
            HeadNotInTail(after);
            GetIsMembership(rest, k');
          }
        }
      }
      ChangedCount(before, rest, k);
      assert Get(after, after[0].0) == Some(after[0].1);
      var head := if Get(before, after[0].0) != Some(after[0].1) then [after[0].1] else [];
      CountSymbolConcat(head, ChangedPositions(before, rest), k);
      if k == after[0].0 {
        HeadNotInTail(after);
        GetIsMembership(rest, k);
      }
    }
  }

  lemma {:induction false} ClosedCount(before: Dict<Position>, after: Dict<Position>, k: string)
    requires DistinctKeys(before)
    ensures CountSymbol(ClosedPositions(before, Keys(after)), k) ==
      if Get(before, k).Some? && Get(after, k).None? then 1 else 0
  {
    GetIsMembership(after, k);
    if before != [] {
      var rest := before[1..];
      assert DistinctKeys(rest) by {
        forall i, j | 0 <= i < j < |rest| ensures rest[i].0 != rest[j].0 {
          assert rest[i] == before[i + 1] && rest[j] == before[j + 1];
        }
      }
      ClosedCount(rest, after, k);
      var head := if before[0].0 !in Keys(after) then [ZeroPosition(before[0].0)] else [];
      CountSymbolConcat(head, ClosedPositions(rest, Keys(after)), k);
      GetIsMembership(after, before[0].0);
      if k == before[0].0 {
        HeadNotInTail(before);
        GetIsMembership(rest, k);
      }
    }
  }

  /** The positions reported after a refresh: the changed ones, then the closed ones. */
  function PositionReports(before: Dict<Position>, after: Dict<Position>): seq<Position>
  {
    ChangedPositions(before, after) + ClosedPositions(before, Keys(after))
  }

  /**
   * A position whose raw data alone changed is reported, since the comparison is the
   * dataclass equality over every field.
   */
  lemma RawOnlyChangeReported(p: Position, raw: RawData)
    requires raw != p.rawData
    ensures var q := p.(rawData := raw);
      ChangedPositions([(p.symbol, p)], [(p.symbol, q)]) == [q]
  {
  }

  /**
   * Each symbol is reported at most once: once if it is new or its position changed, once
   * (as a zero position) if it disappeared, and not at all otherwise.
   */
  lemma PositionReportedOnce(before: Dict<Position>, after: Dict<Position>, k: string)
    requires DistinctKeys(before) && DistinctKeys(after) && KeyedBySymbol(after)
    ensures CountSymbol(PositionReports(before, after), k) ==
      if Get(after, k).Some? then (if Get(before, k) != Get(after, k) then 1 else 0)
      else if Get(before, k).Some? then 1
      else 0
  {
    CountSymbolConcat(ChangedPositions(before, after), ClosedPositions(before, Keys(after)), k);
    ChangedCount(before, after, k);
    ClosedCount(before, after, k);
  }

  /**
   * A closed position is reported with quantity, entry price, mark price and PnL all zero
   * and empty raw data, for a symbol that was cached and is not among `keys`.
   */
  lemma {:induction false} ClosedAreZero(before: Dict<Position>, keys: seq<string>)
    ensures forall i :: 0 <= i < |ClosedPositions(before, keys)| ==>
      var p := ClosedPositions(before, keys)[i];
      p.quantity == 0.0 && p.entryPrice == 0.0 && p.markPrice == 0.0 && p.unrealizedPnl == 0.0 &&
      p.rawData == [] && p.symbol !in keys && p.symbol in Keys(before)
  {
    if before != [] {
      ClosedAreZero(before[1..], keys);
    }
  }

  /** Orders after an upsert by id: each fetched order replaces the cached order with its id. */
  function UpsertOrders(orders: map<string, Order>, fetched: seq<Order>): map<string, Order>
    decreases |fetched|
  {
    if fetched == [] then orders
    else UpsertOrders(orders[fetched[0].id := fetched[0]], fetched[1..])
  }

  /** The fetched orders, in order, that are new or differ from the order cached under their id at that point. */
  function ChangedOrders(orders: map<string, Order>, fetched: seq<Order>): seq<Order>
    decreases |fetched|
  {
    if fetched == [] then []
    else
      var o := fetched[0];
      (if o.id !in orders || orders[o.id] != o then [o] else []) +
        ChangedOrders(orders[o.id := o], fetched[1..])
  }

  /**
   * The cache keeps every order it had and gains every fetched id: nothing is ever removed.
   * An id that was fetched holds the last order fetched with it; other ids keep their order.
   */
  lemma UpsertKeepsAndReplaces(orders: map<string, Order>, fetched: seq<Order>)
    ensures UpsertOrders(orders, fetched).Keys == orders.Keys + set o | o in fetched :: o.id
    ensures forall i :: 0 <= i < |fetched| && (forall j :: i < j < |fetched| ==> fetched[j].id != fetched[i].id) ==>
      fetched[i].id in UpsertOrders(orders, fetched) && UpsertOrders(orders, fetched)[fetched[i].id] == fetched[i]
    ensures forall id :: id in orders && (forall j :: 0 <= j < |fetched| ==> fetched[j].id != id) ==>
      id in UpsertOrders(orders, fetched) && UpsertOrders(orders, fetched)[id] == orders[id]
  {
    UpsertKeys(orders, fetched);
    forall i | 0 <= i < |fetched| && (forall j :: i < j < |fetched| ==> fetched[j].id != fetched[i].id)
      ensures fetched[i].id in UpsertOrders(orders, fetched) && UpsertOrders(orders, fetched)[fetched[i].id] == fetched[i]
    {
      UpsertLast(orders, fetched, i);
    }
    forall id | id in orders && (forall j :: 0 <= j < |fetched| ==> fetched[j].id != id)
      ensures id in UpsertOrders(orders, fetched) && UpsertOrders(orders, fetched)[id] == orders[id]
    {
      UpsertKeeps(orders, fetched, id);
    }
  }

  lemma {:induction false} UpsertKeys(orders: map<string, Order>, fetched: seq<Order>)
    ensures UpsertOrders(orders, fetched).Keys == orders.Keys + set o | o in fetched :: o.id
    decreases |fetched|
  {
    if fetched != [] {
      var o := fetched[0];
      var rest := fetched[1..];
      UpsertKeys(orders[o.id := o], rest);
      assert fetched == [o] + rest;
      assert (set x | x in fetched :: x.id) == {o.id} + set x | x in rest :: x.id;
    }
  }

  lemma {:induction false} UpsertKeeps(orders: map<string, Order>, fetched: seq<Order>, id: string)
    requires id in orders && forall j :: 0 <= j < |fetched| ==> fetched[j].id != id
    ensures id in UpsertOrders(orders, fetched) && UpsertOrders(orders, fetched)[id] == orders[id]
    decreases |fetched|
  {
    if fetched != [] {
      var o := fetched[0];
      assert forall j :: 0 <= j < |fetched[1..]| ==> fetched[1..][j].id != id by {
        forall j | 0 <= j < |fetched[1..]| ensures fetched[1..][j].id != id {
          assert fetched[1..][j] == fetched[j + 1];
        }
      }
      UpsertKeeps(orders[o.id := o], fetched[1..], id);
    }
  }

  lemma {:induction false} UpsertLast(orders: map<string, Order>, fetched: seq<Order>, i: int)
    requires 0 <= i < |fetched| && forall j :: i < j < |fetched| ==> fetched[j].id != fetched[i].id
    ensures fetched[i].id in UpsertOrders(orders, fetched) && UpsertOrders(orders, fetched)[fetched[i].id] == fetched[i]
    decreases |fetched|
  {
    var o := fetched[0];
    var rest := fetched[1..];
    if i == 0 {
      assert forall j :: 0 <= j < |rest| ==> rest[j].id != o.id by {
        forall j | 0 <= j < |rest| ensures rest[j].id != o.id {
          assert rest[j] == fetched[j + 1];
        }
      }
      UpsertKeeps(orders[o.id := o], rest, o.id);
    } else {
      assert fetched[i] == rest[i - 1];
      assert forall j :: i - 1 < j < |rest| ==> rest[j].id != rest[i - 1].id by {
        forall j | i - 1 < j < |rest| ensures rest[j].id != rest[i - 1].id {
          assert rest[j] == fetched[j + 1];
        }
      }
      UpsertLast(orders[o.id := o], rest, i - 1);
    }
  }

  /**
   * When the fetched orders have distinct ids, an order is reported exactly when its id
   * was not cached or the cached order differs from it.
   */
  lemma OrderReportedIffChanged(orders: map<string, Order>, fetched: seq<Order>)
    requires forall i, j :: 0 <= i < j < |fetched| ==> fetched[i].id != fetched[j].id
    ensures forall o :: o in ChangedOrders(orders, fetched) <==>
      o in fetched && (o.id !in orders || orders[o.id] != o)
  {
    forall o ensures o in ChangedOrders(orders, fetched) <==> o in fetched && (o.id !in orders || orders[o.id] != o) {
      ChangedMember(orders, fetched, o);
    }
  }

  lemma {:induction false} ChangedMember(orders: map<string, Order>, fetched: seq<Order>, o: Order)
    requires forall i, j :: 0 <= i < j < |fetched| ==> fetched[i].id != fetched[j].id
    ensures o in ChangedOrders(orders, fetched) <==> o in fetched && (o.id !in orders || orders[o.id] != o)
    decreases |fetched|
  {
    if fetched != [] {
      var f := fetched[0];
      var rest := fetched[1..];
      assert forall i, j :: 0 <= i < j < |rest| ==> rest[i].id != rest[j].id by {
        forall i, j | 0 <= i < j < |rest| ensures rest[i].id != rest[j].id {
          assert rest[i] == fetched[i + 1] && rest[j] == fetched[j + 1];
        }
      }
      ChangedMember(orders[f.id := f], rest, o);
      assert fetched == [f] + rest;
      if o in rest {
        var j :| 0 <= j < |rest| && rest[j] == o;
        assert fetched[j + 1] == o;
        assert o.id != f.id;
      }
    }
  }

  /** Position updates for `broker`, one per position. */
  function PositionCalls(ps: seq<Position>, broker: string): seq<StrategyCall>
  {
    seq(|ps|, i requires 0 <= i < |ps| => PositionUpdate(ps[i], broker))
  }

  lemma PositionCallsConcat(a: seq<Position>, b: seq<Position>, broker: string)
    ensures PositionCalls(a + b, broker) == PositionCalls(a, broker) + PositionCalls(b, broker)
  {
    var l := PositionCalls(a, broker) + PositionCalls(b, broker);
    forall i | 0 <= i < |a + b| ensures PositionCalls(a + b, broker)[i] == l[i] {
      if i < |a| { assert (a + b)[i] == a[i]; } else { assert (a + b)[i] == b[i - |a|]; }
    }
  }

  /** Order updates for `broker`, one per order. */
  function OrderCalls(os: seq<Order>, broker: string): seq<StrategyCall>
  {
    seq(|os|, i requires 0 <= i < |os| => OrderUpdate(os[i], broker))
  }
}
