/**
 * `GeminiBroker` (src/execution/brokers/gemini.py) without its transport: what it sends for
 * a new order, and how it turns the exchange's JSON answers into balances, positions and
 * orders.
 *
 * Each response is a parameter, decoded: a field the JSON object lacks is `None`; the object
 * itself, which becomes a record's `raw_data`, travels beside its decoded fields. Decimal
 * fields whose truthiness the code tests (`price`, `avg_execution_price`) keep their text
 * beside their value, since the exchange sends numbers as strings and `"0"` is truthy.
 * Millisecond timestamps are cut to whole seconds.
 */
module GeminiBroker {
  import opened Common
  import opened Dicts
  import opened Execution
  import Intervals

  /** A decimal the exchange sends as a string, with the value `float()` reads from it. */
  datatype Decimal = Decimal(text: string, value: real)

  /** `float(x) if x else None` for an optional decimal string. */
  function TruthyDecimal(d: Option<Decimal>): Option<real>
  {
    if d.Some? && d.value.text != "" then Some(d.value.value) else None
  }

  function OrText(s: Option<string>, default: string): string
  {
    if s.Some? then s.value else default
  }

  function OrZero(x: Option<real>): real
  {
    if x.Some? then x.value else 0.0
  }

  /** `str(data.get("order_id", ""))`. */
  function OrderIdString(orderId: Option<int>): string
  {
    if orderId.Some? then Intervals.IntString(orderId.value) else ""
  }

  /** `fromtimestamp(timestampms / 1000)`, to the second. */
  function MillisToSeconds(ms: Option<nat>): int
  {
    if ms.Some? then ms.value / 1000 else 0
  }

  // ---------------------------------------------------------------- get_account_info

  /** One element of the account response's "balances". */
  datatype RawBalance = RawBalance(currency: Option<string>, amount: Option<real>, available: Option<real>)

  /** free = available, locked = amount - available. */
  function BalanceOf(raw: RawBalance): Balance
  {
    Balance(OrText(raw.currency, ""), OrZero(raw.available), OrZero(raw.amount) - OrZero(raw.available))
  }

  /** A balance is available funds plus the rest, so its total is the exchange's amount. */
  lemma BalanceTotalIsAmount(raw: RawBalance)
    ensures BalanceOf(raw).Total() == OrZero(raw.amount)
    ensures BalanceOf(raw).free == OrZero(raw.available)
    ensures BalanceOf(raw).asset == OrText(raw.currency, "")
  {
  }

  /**
   * `get_account_info`: the account id (or "") and one balance per raw balance, in order;
   * `reply` is the whole response, kept as the account's raw data.
   */
  method GetAccountInfo(accountId: Option<string>, raw: seq<RawBalance>, reply: RawData) returns (account: Account)
    ensures account.id == OrText(accountId, "")
    ensures account.rawData == reply
    ensures |account.balances| == |raw|
    ensures forall i :: 0 <= i < |raw| ==> account.balances[i] == BalanceOf(raw[i])
  {
    var balances: seq<Balance> := [];
    for i := 0 to |raw|
      invariant |balances| == i
      invariant forall j :: 0 <= j < i ==> balances[j] == BalanceOf(raw[j])
    {
      balances := balances + [BalanceOf(raw[i])];
    }
    account := Account(OrText(accountId, ""), balances, reply);
  }

  // ---------------------------------------------------------------- get_positions

  /** `balance.__dict__`: the three fields it is built from, then the total `__post_init__` adds. */
  function BalanceFields(b: Balance): RawData
  {
    [("asset", JStr(b.asset)), ("free", JNum(b.free)), ("locked", JNum(b.locked)), ("total", JNum(b.Total()))]
  }

  /**
   * The position a spot balance stands for: its whole total, with no price information; its
   * raw data holds the balance under "balance".
   */
  function BalancePosition(b: Balance): Position
  {
    Position(b.asset, b.Total(), 0.0, 0.0, 0.0, [("balance", JObj(BalanceFields(b)))])
  }

  /** One position per balance with a positive total, in balance order. */
  function PositionsOf(balances: seq<Balance>): seq<Position>
  {
    if balances == [] then []
    else (if balances[0].Total() > 0.0 then [BalancePosition(balances[0])] else []) + PositionsOf(balances[1..])
  }

  /** The raw data of a balance's position names its asset and total. */
  lemma BalanceRaw(b: Balance)
    ensures var p := BalancePosition(b);
      Keys(p.rawData) == ["balance"] && p.rawData[0].1.JObj? &&
      Get(p.rawData[0].1.fields, "asset") == Some(JStr(p.symbol)) &&
      Get(p.rawData[0].1.fields, "total") == Some(JNum(p.quantity))
  {
    var f := BalanceFields(b);
    assert f[0].0 != "total" && f[1].0 != "total" && f[2].0 != "total";
    assert Get(f, "total") == Get(f[1..], "total") == Get(f[2..], "total") == Get(f[3..], "total");
  }

  /** `get_positions`, over the account `get_account_info` returned. */
  method GetPositions(account: Account) returns (positions: seq<Position>)
    ensures positions == PositionsOf(account.balances)
  {
    positions := [];
    var i := 0;
    while i < |account.balances|
      invariant 0 <= i <= |account.balances|
      invariant positions + PositionsOf(account.balances[i..]) == PositionsOf(account.balances)
    {
      var balance := account.balances[i];
      assert account.balances[i..][1..] == account.balances[i + 1..];
      if balance.Total() > 0.0 {
        ConcatAssoc(positions, [BalancePosition(balance)], PositionsOf(account.balances[i + 1..]));
        positions := positions + [BalancePosition(balance)];
      }
      i := i + 1;
    }
  }

  /**
   * A position is reported exactly for each balance with a positive total: its symbol is the
   * asset, its quantity the total, and its entry price, mark price and unrealized PnL are 0;
   * its raw data holds just the balance, whose asset and total are the symbol and quantity.
   */
  lemma {:induction false} PositionsLaws(balances: seq<Balance>)
    ensures |PositionsOf(balances)| <= |balances|
    ensures forall p :: p in PositionsOf(balances) <==>
      exists b :: b in balances && b.Total() > 0.0 && p == BalancePosition(b)
    ensures forall p :: p in PositionsOf(balances) ==>
      p.quantity > 0.0 && p.entryPrice == 0.0 && p.markPrice == 0.0 && p.unrealizedPnl == 0.0 &&
      Keys(p.rawData) == ["balance"] && p.rawData[0].1.JObj? &&
      Get(p.rawData[0].1.fields, "asset") == Some(JStr(p.symbol)) &&
      Get(p.rawData[0].1.fields, "total") == Some(JNum(p.quantity))
  {
    if balances != [] {
      PositionsLaws(balances[1..]);
      BalanceRaw(balances[0]);
      assert balances == [balances[0]] + balances[1..];
    }
  }

  // ---------------------------------------------------------------- place_order

  /** The exchange's name of each order type. */
  const GeminiOrderTypes: map<OrderType, string> :=
    map[Market := "market", Limit := "exchange limit", Stop := "stop", StopLimit := "stop_limit"]

  /** `gemini_order_types.get(order_type, "exchange limit")`. */
  function GeminiOrderType(t: OrderType): string
  {
    if t in GeminiOrderTypes then GeminiOrderTypes[t] else "exchange limit"
  }

  /** Every order type has its own name, so the exchange can tell them apart; the default is never used. */
  lemma GeminiOrderTypeInjective(a: OrderType, b: OrderType)
    ensures a in GeminiOrderTypes
    ensures GeminiOrderType(a) == GeminiOrderType(b) ==> a == b
  {
  }

  /** The body of a new-order request. Decimal amounts are sent as `str()` of the float, not modelled. */
  datatype Payload = Payload(
    symbol: string,
    amount: real,
    side: string,
    kind: string,
    price: Option<real>,
    stopPrice: Option<real>,
    clientOrderId: Option<string>)

  /**
   * The payload of `place_order`; `stopPrice` and `clientOrderId` are the keyword arguments
   * of those names, `None` when not passed.
   */
  function OrderPayload(symbol: string, side: OrderSide, orderType: OrderType, quantity: real, price: Option<real>,
                        stopPrice: Option<real>, clientOrderId: Option<string>): Payload
  {
    var p := Payload(symbol, quantity, SideValue(side), GeminiOrderType(orderType), None, None, None);
    var p := if orderType in [Limit, StopLimit] && price.Some? then p.(price := price) else p;
    var p := if orderType in [Stop, StopLimit] && stopPrice.Some? then p.(stopPrice := stopPrice) else p;
    if clientOrderId.Some? then p.(clientOrderId := clientOrderId) else p
  }

  /**
   * A limit price is sent only for limit and stop-limit orders that have one, a stop price
   * only for stop and stop-limit orders given one, and a client order id whenever given.
   */
  lemma PayloadLaws(symbol: string, side: OrderSide, orderType: OrderType, quantity: real, price: Option<real>,
                    stopPrice: Option<real>, clientOrderId: Option<string>)
    ensures var p := OrderPayload(symbol, side, orderType, quantity, price, stopPrice, clientOrderId);
      p.symbol == symbol && p.amount == quantity && p.side == SideValue(side) && p.kind == GeminiOrderType(orderType) &&
      (p.price.Some? <==> (orderType == Limit || orderType == StopLimit) && price.Some?) &&
      (p.price.Some? ==> p.price == price) &&
      (p.stopPrice.Some? <==> (orderType == Stop || orderType == StopLimit) && stopPrice.Some?) &&
      (p.stopPrice.Some? ==> p.stopPrice == stopPrice) &&
      p.clientOrderId == clientOrderId
  {
  }

  /** An order object of the exchange's order endpoints. */
  datatype RawOrder = RawOrder(
    orderId: Option<int>,
    clientOrderId: Option<string>,
    symbol: Option<string>,
    side: Option<string>,
    originalAmount: Option<real>,
    price: Option<Decimal>,
    timestampms: Option<nat>,
    executedAmount: Option<real>,
    remainingAmount: Option<real>,
    avgExecutionPrice: Option<Decimal>,
    isLive: Option<bool>,
    isCancelled: Option<bool>,
    json: RawData)

  /** A JSON value used as a dictionary key: the response's status names are text, `is_live` a boolean. */
  datatype JsonKey = JText(text: string) | JFlag(flag: bool)

  /** `status_map` of `place_order`: exchange status names to order statuses. */
  const ResponseStatuses: map<JsonKey, OrderStatus> :=
    map[JText("accepted") := Open, JText("live") := Open, JText("cancelled") := Canceled,
        JText("fill") := Filled, JText("partially filled") := PartiallyFilled, JText("rejected") := Rejected]

  /** `status_map.get(data.get("is_live", False), PENDING)`: the lookup key is the boolean `is_live`. */
  function PlacedStatus(isLive: Option<bool>): OrderStatus
  {
    var key := JFlag(if isLive.Some? then isLive.value else false);
    if key in ResponseStatuses then ResponseStatuses[key] else Pending
  }

  /** The order `place_order` returns for the exchange's answer `data`. */
  function PlacedOrder(data: RawOrder, orderType: OrderType, stopPrice: Option<real>, timeInForce: string): Result<Order>
  {
    match ParseSide(OrText(data.side, ""))
    case Raised(e) => Raised(e)
    case Ok(side) =>
      Ok(Order(
        OrderIdString(data.orderId),
        Some(OrText(data.clientOrderId, "")),
        OrText(data.symbol, ""),
        side,
        orderType,
        OrZero(data.originalAmount),
        TruthyDecimal(data.price),
        stopPrice,
        PlacedStatus(data.isLive),
        MillisToSeconds(data.timestampms),
        MillisToSeconds(data.timestampms),
        OrZero(data.executedAmount),
        TruthyDecimal(data.avgExecutionPrice),
        timeInForce,
        data.json))
  }

  /**
   * The status table is keyed by status names but looked up with the boolean `is_live`, so
   * every placed order is reported PENDING, a live one included; an unknown side raises.
   */
  lemma PlacedOrderLaws(data: RawOrder, orderType: OrderType, stopPrice: Option<real>, timeInForce: string)
    ensures var r := PlacedOrder(data, orderType, stopPrice, timeInForce);
      (r.Ok? <==> ParseSide(OrText(data.side, "")).Ok?) &&
      (r.Raised? ==> r.error == ValueError) &&
      (r.Ok? ==> (r.value.status == Pending && r.value.orderType == orderType && r.value.stopPrice == stopPrice &&
        SideValue(r.value.side) == OrText(data.side, "") && r.value.rawData == data.json))
  {
    assert JFlag(true) !in ResponseStatuses && JFlag(false) !in ResponseStatuses;
  }

  // ---------------------------------------------------------------- get_order / get_orders

  /** The status `get_order` and `get_orders` derive from an order's flags and amounts. */
  function StatusOf(data: RawOrder): OrderStatus
  {
    if data.isCancelled == Some(true) then Canceled
    else if data.isLive == Some(true) then Open
    else if OrZero(data.remainingAmount) == 0.0 then Filled
    else if OrZero(data.executedAmount) > 0.0 then PartiallyFilled
    else Pending
  }

  /**
   * Cancelled wins over live, live over nothing remaining, nothing remaining over something
   * executed; an order with none of these is PENDING, and no order is REJECTED or EXPIRED.
   */
  lemma StatusPrecedence(data: RawOrder)
    ensures var cancelled := data.isCancelled == Some(true);
      var live := data.isLive == Some(true);
      var done := OrZero(data.remainingAmount) == 0.0;
      var started := OrZero(data.executedAmount) > 0.0;
      var s := StatusOf(data);
      (s == Canceled <==> cancelled) &&
      (s == Open <==> !cancelled && live) &&
      (s == Filled <==> !cancelled && !live && done) &&
      (s == PartiallyFilled <==> !cancelled && !live && !done && started) &&
      (s == Pending <==> !cancelled && !live && !done && !started) &&
      s != Rejected && s != Expired
  {
  }

  /** The order record of `get_order` and `get_orders`, with the status already derived. */
  function ConvertOrder(data: RawOrder, status: OrderStatus): Result<Order>
  {
    match ParseSide(OrText(data.side, ""))
    case Raised(e) => Raised(e)
    case Ok(side) =>
      Ok(Order(
        OrderIdString(data.orderId),
        Some(OrText(data.clientOrderId, "")),
        OrText(data.symbol, ""),
        side,
        Limit,
        OrZero(data.originalAmount),
        TruthyDecimal(data.price),
        None,
        status,
        MillisToSeconds(data.timestampms),
        MillisToSeconds(data.timestampms),
        OrZero(data.executedAmount),
        TruthyDecimal(data.avgExecutionPrice),
        "GTC",
        data.json))
  }

  /** `get_order`. */
  function GetOrder(data: RawOrder): (r: Result<Order>)
    ensures r.Ok? <==> ParseSide(OrText(data.side, "")).Ok?
    ensures r.Raised? ==> r.error == ValueError
    ensures r.Ok? ==> (r.value.status == StatusOf(data) && r.value.orderType == Limit && r.value.stopPrice == None &&
      r.value.id == OrderIdString(data.orderId) && r.value.timeInForce == "GTC" && r.value.rawData == data.json)
  {
    ConvertOrder(data, StatusOf(data))
  }

  /** Whether `get_orders` keeps an order: the symbol filter applies when truthy, the status filter when given. */
  predicate Kept(symbol: Option<string>, status: Option<OrderStatus>, data: RawOrder)
  {
    !(TruthyString(symbol) && OrText(data.symbol, "") != symbol.value) &&
    !(status.Some? && StatusOf(data) != status.value)
  }

  /** `prefix + rest` when `rest` was computed, the exception otherwise. */
  function Prepend(prefix: seq<Order>, rest: Result<seq<Order>>): Result<seq<Order>>
  {
    match rest
    case Raised(e) => Raised(e)
    case Ok(os) => Ok(prefix + os)
  }

  lemma PrependNothing(rest: Result<seq<Order>>)
    ensures Prepend([], rest) == rest
  {
    if rest.Ok? {
      assert [] + rest.value == rest.value;
    }
  }

  /** The orders `get_orders` returns for the open orders `data`; the first kept order with an unknown side raises. */
  function OrdersOf(symbol: Option<string>, status: Option<OrderStatus>, data: seq<RawOrder>): Result<seq<Order>>
  {
    if data == [] then Ok([])
    else if !Kept(symbol, status, data[0]) then OrdersOf(symbol, status, data[1..])
    else
      match ConvertOrder(data[0], StatusOf(data[0]))
      case Raised(e) => Raised(e)
      case Ok(o) => Prepend([o], OrdersOf(symbol, status, data[1..]))
  }

  /** How the loop's result so far and the rest of the list change when one more order is looked at. */
  lemma OrdersOfStep(symbol: Option<string>, status: Option<OrderStatus>, data: seq<RawOrder>, i: int, orders: seq<Order>)
    requires 0 <= i < |data|
    ensures var raw, whole := data[i], Prepend(orders, OrdersOf(symbol, status, data[i..]));
      var converted := ConvertOrder(raw, StatusOf(raw));
      (!Kept(symbol, status, raw) ==> whole == Prepend(orders, OrdersOf(symbol, status, data[i + 1..]))) &&
      (Kept(symbol, status, raw) && converted.Raised? ==> whole == Raised(converted.error)) &&
      (Kept(symbol, status, raw) && converted.Ok? ==>
        whole == Prepend(orders + [converted.value], OrdersOf(symbol, status, data[i + 1..])))
  {
    assert data[i..][0] == data[i] && data[i..][1..] == data[i + 1..];
    var converted := ConvertOrder(data[i], StatusOf(data[i]));
    if Kept(symbol, status, data[i]) && converted.Ok? {
      match OrdersOf(symbol, status, data[i + 1..]) {
        case Raised(_) =>
        case Ok(os) => ConcatAssoc(orders, [converted.value], os);
      }
    }
  }

  /** One pass of `get_orders`' loop: `None` for an order a filter skips, else its conversion. */
  method ConvertIfKept(symbol: Option<string>, status: Option<OrderStatus>, raw: RawOrder) returns (r: Option<Result<Order>>)
    ensures r.Some? <==> Kept(symbol, status, raw)
    ensures r.Some? ==> r.value == ConvertOrder(raw, StatusOf(raw))
  {
    if TruthyString(symbol) && OrText(raw.symbol, "") != symbol.value {
      return None;
    }
    var orderStatus := Pending;
    if raw.isCancelled == Some(true) {
      orderStatus := Canceled;
    } else if raw.isLive == Some(true) {
      orderStatus := Open;
    } else if OrZero(raw.remainingAmount) == 0.0 {
      orderStatus := Filled;
    } else if OrZero(raw.executedAmount) > 0.0 {
      orderStatus := PartiallyFilled;
    }
    if status.Some? && orderStatus != status.value {
      return None;
    }
    return Some(ConvertOrder(raw, orderStatus));
  }

  /** `get_orders`, with the exchange's list of open orders as `data`. */
  method GetOrders(symbol: Option<string>, status: Option<OrderStatus>, data: seq<RawOrder>) returns (r: Result<seq<Order>>)
    ensures r == OrdersOf(symbol, status, data)
  {
    var orders: seq<Order> := [];
    var i := 0;
    assert data[0..] == data;
    PrependNothing(OrdersOf(symbol, status, data));
    while i < |data|
      invariant 0 <= i <= |data|
      invariant Prepend(orders, OrdersOf(symbol, status, data[i..])) == OrdersOf(symbol, status, data)
    {
      OrdersOfStep(symbol, status, data, i, orders);
      var kept := ConvertIfKept(symbol, status, data[i]);
      if kept.Some? {
        var converted := kept.value;
        if converted.Raised? {
          return Raised(converted.error);
        }
        orders := orders + [converted.value];
      }
      i := i + 1;
    }
    assert orders + [] == orders;
    return Ok(orders);
  }

  /**
   * `get_orders` fails exactly when a kept order has an unknown side, and then with a
   * ValueError. Otherwise every order returned passes both filters and is the conversion of
   * an input order, every kept input order is returned, and no more orders come out than
   * went in.
   */
  lemma {:induction false} OrdersLaws(symbol: Option<string>, status: Option<OrderStatus>, data: seq<RawOrder>)
    ensures var r := OrdersOf(symbol, status, data);
      (r.Ok? <==> forall d :: d in data && Kept(symbol, status, d) ==> ParseSide(OrText(d.side, "")).Ok?) &&
      (r.Raised? ==> r.error == ValueError) &&
      (r.Ok? ==>
        |r.value| <= |data| &&
        (forall o :: o in r.value ==>
          (TruthyString(symbol) ==> o.symbol == symbol.value) && (status.Some? ==> o.status == status.value) &&
          exists d :: d in data && Kept(symbol, status, d) && ConvertOrder(d, StatusOf(d)) == Ok(o)) &&
        (forall d :: d in data && Kept(symbol, status, d) ==> ConvertOrder(d, StatusOf(d)).value in r.value))
  {
    if data != [] {
      OrdersLaws(symbol, status, data[1..]);
      assert data == [data[0]] + data[1..];
    }
  }

  // ---------------------------------------------------------------- get_order_history

  /** One of the account's past trades, as the exchange reports it. */
  datatype RawFill = RawFill(
    orderId: Option<int>,
    timestamp: Option<nat>,
    symbol: Option<string>,
    kind: Option<string>,
    price: Option<real>,
    amount: Option<real>,
    json: RawData)

  function FillTime(t: RawFill): nat { if t.timestamp.Some? then t.timestamp.value else 0 }

  function FillOrderId(t: RawFill): string { OrderIdString(t.orderId) }

  /** Trades after `end_time`, when one is given, are skipped. */
  predicate Considered(endTime: Option<int>, t: RawFill)
  {
    !(endTime.Some? && FillTime(t) > endTime.value)
  }

  /** `{"trades": [...]}`: the raw data of an order rebuilt from these trades. */
  function TradesRaw(fills: seq<RawFill>): RawData
  {
    [("trades", JArr(seq(|fills|, i requires 0 <= i < |fills| => JObj(fills[i].json))))]
  }

  /** An order being rebuilt, and the trades seen for it so far. */
  datatype HistoryEntry = HistoryEntry(order: Order, fills: seq<RawFill>)

  /** The order opened by the first trade seen for `oid`: FILLED, with nothing accumulated yet. */
  function NewEntry(oid: string, t: RawFill, side: OrderSide): HistoryEntry
  {
    HistoryEntry(
      Order(oid, Some(""), OrText(t.symbol, ""), side, Limit, 0.0, Some(OrZero(t.price)), None, Filled,
            FillTime(t), FillTime(t), 0.0, Some(0.0), "GTC", TradesRaw([])),
      [])
  }

  /**
   * The entry after trade `t`: amounts accumulated, the trade appended to the raw data's
   * "trades", the update time moved forward.
   */
  function Absorb(e: HistoryEntry, t: RawFill): HistoryEntry
  {
    var amount := OrZero(t.amount);
    var o := e.order.(filledQuantity := e.order.filledQuantity + amount, quantity := e.order.quantity + amount,
                      rawData := TradesRaw(e.fills + [t]));
    var o := if FillTime(t) > o.updatedAt then o.(updatedAt := FillTime(t)) else o;
    HistoryEntry(o, e.fills + [t])
  }

  /** One iteration of the grouping loop. */
  function GroupStep(d: Dict<HistoryEntry>, t: RawFill, endTime: Option<int>): Result<Dict<HistoryEntry>>
  {
    if !Considered(endTime, t) then Ok(d)
    else
      var oid := FillOrderId(t);
      match Get(d, oid)
      case Some(e) => Ok(Put(d, oid, Absorb(e, t)))
      case None =>
        match ParseSide(OrText(t.kind, ""))
        case Raised(err) => Raised(err)
        case Ok(side) => Ok(Put(d, oid, Absorb(NewEntry(oid, t, side), t)))
  }

  /** The orders dictionary after the grouping loop has seen `data`. */
  function Grouped(data: seq<RawFill>, endTime: Option<int>): Result<Dict<HistoryEntry>>
  {
    if data == [] then Ok([])
    else
      match Grouped(data[..|data| - 1], endTime)
      case Raised(e) => Raised(e)
      case Ok(d) => GroupStep(d, data[|data| - 1], endTime)
  }

  /** The trades of `data` that belong to order `oid` and are not skipped, in order. */
  function FillsOf(data: seq<RawFill>, endTime: Option<int>, oid: string): seq<RawFill>
  {
    if data == [] then []
    else
      var t := data[|data| - 1];
      FillsOf(data[..|data| - 1], endTime, oid) + (if Considered(endTime, t) && FillOrderId(t) == oid then [t] else [])
  }

  /** The summed amounts of some trades. */
  function TotalAmount(fills: seq<RawFill>): real
  {
    if fills == [] then 0.0 else TotalAmount(fills[..|fills| - 1]) + OrZero(fills[|fills| - 1].amount)
  }

  /** The summed price times amount of some trades. */
  function TotalCost(fills: seq<RawFill>): real
  {
    if fills == [] then 0.0
    else TotalCost(fills[..|fills| - 1]) + OrZero(fills[|fills| - 1].price) * OrZero(fills[|fills| - 1].amount)
  }

  /** The latest time of some trades. */
  function LatestTime(fills: seq<RawFill>): nat
    requires fills != []
  {
    if |fills| == 1 then FillTime(fills[0])
    else
      var before := LatestTime(fills[..|fills| - 1]);
      if FillTime(fills[|fills| - 1]) > before then FillTime(fills[|fills| - 1]) else before
  }

  /**
   * What an order rebuilt from its trades looks like: id, symbol, side, limit price and
   * creation time come from its first trade; both quantities are the sum of its trades'
   * amounts; its update time is its latest trade's; it is a FILLED limit order, GTC.
   */
  ghost predicate EntryFits(oid: string, e: HistoryEntry)
  {
    var first := if e.fills != [] then e.fills[0] else RawFill(None, None, None, None, None, None, []);
    e.fills != [] &&
    e.order.id == oid &&
    e.order.clientOrderId == Some("") &&
    e.order.symbol == OrText(first.symbol, "") &&
    ParseSide(OrText(first.kind, "")) == Ok(e.order.side) &&
    e.order.orderType == Limit &&
    e.order.status == Filled &&
    e.order.price == Some(OrZero(first.price)) &&
    e.order.stopPrice == None &&
    e.order.createdAt == FillTime(first) &&
    e.order.quantity == TotalAmount(e.fills) &&
    e.order.filledQuantity == TotalAmount(e.fills) &&
    e.order.updatedAt == LatestTime(e.fills) &&
    e.order.averagePrice == Some(0.0) &&
    e.order.timeInForce == "GTC" &&
    e.order.rawData == TradesRaw(e.fills)
  }

  lemma AbsorbNew(oid: string, t: RawFill, side: OrderSide)
    requires ParseSide(OrText(t.kind, "")) == Ok(side)
    ensures EntryFits(oid, Absorb(NewEntry(oid, t, side), t)) && Absorb(NewEntry(oid, t, side), t).fills == [t]
  {
    var e := Absorb(NewEntry(oid, t, side), t);
    assert e.fills == [t];
    assert e.fills[..0] == [];
  }

  lemma AbsorbFits(oid: string, e: HistoryEntry, t: RawFill)
    requires EntryFits(oid, e)
    ensures EntryFits(oid, Absorb(e, t)) && Absorb(e, t).fills == e.fills + [t]
  {
    var fs := e.fills + [t];
    assert fs[..|fs| - 1] == e.fills;
    assert fs[0] == e.fills[0];
  }

  /** The orders dictionary holds, for each order id with a considered trade, the order rebuilt from those trades. */
  ghost predicate HistoryFits(data: seq<RawFill>, endTime: Option<int>, d: Dict<HistoryEntry>)
  {
    DistinctKeys(d) &&
    (forall oid :: Get(d, oid).Some? <==> FillsOf(data, endTime, oid) != []) &&
    (forall oid :: Get(d, oid).Some? ==>
      Get(d, oid).value.fills == FillsOf(data, endTime, oid) && EntryFits(oid, Get(d, oid).value))
  }

  /**
   * After grouping, there is exactly one order per order id among the trades not skipped,
   * rebuilt from exactly that id's trades in order.
   */
  lemma {:induction false} GroupedLaws(data: seq<RawFill>, endTime: Option<int>)
    ensures Grouped(data, endTime).Ok? ==> HistoryFits(data, endTime, Grouped(data, endTime).value)
  {
    if data != [] && Grouped(data, endTime).Ok? {
      GroupedLaws(data[..|data| - 1], endTime);
      GroupStepFits(data, endTime, Grouped(data[..|data| - 1], endTime).value);
    }
  }

  /** One iteration of the grouping loop keeps the dictionary fitting the trades seen so far. */
  lemma GroupStepFits(data: seq<RawFill>, endTime: Option<int>, d: Dict<HistoryEntry>)
    requires data != [] && HistoryFits(data[..|data| - 1], endTime, d)
    requires GroupStep(d, data[|data| - 1], endTime).Ok?
    ensures HistoryFits(data, endTime, GroupStep(d, data[|data| - 1], endTime).value)
  {
    var t := data[|data| - 1];
    if Considered(endTime, t) {
      var oid0 := FillOrderId(t);
      match Get(d, oid0) {
        case Some(e) =>
          AbsorbFits(oid0, e, t);
          PutFits(data, endTime, d, Absorb(e, t));
        case None =>
          var side := ParseSide(OrText(t.kind, "")).value;
          AbsorbNew(oid0, t, side);
          PutFits(data, endTime, d, Absorb(NewEntry(oid0, t, side), t));
      }
    } else {
      SkippedFits(data, endTime, d);
    }
  }

  /** A skipped trade leaves the dictionary fitting the longer trade list. */
  lemma SkippedFits(data: seq<RawFill>, endTime: Option<int>, d: Dict<HistoryEntry>)
    requires data != [] && HistoryFits(data[..|data| - 1], endTime, d) && !Considered(endTime, data[|data| - 1])
    ensures HistoryFits(data, endTime, d)
  {
    assert forall oid :: FillsOf(data, endTime, oid) == FillsOf(data[..|data| - 1], endTime, oid);
  }

  /** Storing the entry rebuilt with a considered trade keeps the dictionary fitting the longer trade list. */
  lemma PutFits(data: seq<RawFill>, endTime: Option<int>, d: Dict<HistoryEntry>, e: HistoryEntry)
    requires data != [] && HistoryFits(data[..|data| - 1], endTime, d) && Considered(endTime, data[|data| - 1])
    requires var oid0 := FillOrderId(data[|data| - 1]);
      e.fills == FillsOf(data[..|data| - 1], endTime, oid0) + [data[|data| - 1]] && EntryFits(oid0, e)
    ensures HistoryFits(data, endTime, Put(d, FillOrderId(data[|data| - 1]), e))
  {
    var d' := Put(d, FillOrderId(data[|data| - 1]), e);
    forall oid
      ensures (Get(d', oid).Some? <==> FillsOf(data, endTime, oid) != [])
      ensures Get(d', oid).Some? ==> Get(d', oid).value.fills == FillsOf(data, endTime, oid) && EntryFits(oid, Get(d', oid).value)
    {
      PutFitsAt(data, endTime, d, e, oid);
    }
  }

  /** The per-order-id half of `PutFits`. */
  lemma PutFitsAt(data: seq<RawFill>, endTime: Option<int>, d: Dict<HistoryEntry>, e: HistoryEntry, oid: string)
    requires data != [] && HistoryFits(data[..|data| - 1], endTime, d) && Considered(endTime, data[|data| - 1])
    requires var oid0 := FillOrderId(data[|data| - 1]);
      e.fills == FillsOf(data[..|data| - 1], endTime, oid0) + [data[|data| - 1]] && EntryFits(oid0, e)
    ensures var d' := Put(d, FillOrderId(data[|data| - 1]), e);
      (Get(d', oid).Some? <==> FillsOf(data, endTime, oid) != []) &&
      (Get(d', oid).Some? ==> Get(d', oid).value.fills == FillsOf(data, endTime, oid) && EntryFits(oid, Get(d', oid).value))
  {
    var prefix, t := data[..|data| - 1], data[|data| - 1];
    var d' := Put(d, FillOrderId(t), e);
    if oid == FillOrderId(t) {
      assert FillsOf(data, endTime, oid) == FillsOf(prefix, endTime, oid) + [t];
      assert Get(d', oid) == Some(e);
    } else {
      assert FillsOf(data, endTime, oid) == FillsOf(prefix, endTime, oid) + [];
      assert Get(d', oid) == Get(d, oid);
    }
  }

  /** Once a prefix of the trades raises, so does the whole loop. */
  lemma {:induction false} GroupedRaisedPersists(data: seq<RawFill>, i: nat, endTime: Option<int>)
    requires i <= |data| && Grouped(data[..i], endTime).Raised?
    ensures Grouped(data, endTime) == Grouped(data[..i], endTime)
    decreases |data|
  {
    if i == |data| {
      assert data[..i] == data;
    } else {
      var prefix := data[..|data| - 1];
      assert prefix[..i] == data[..i];
      GroupedRaisedPersists(prefix, i, endTime);
    }
  }

  /** The grouping fails only with a ValueError, and only when a considered trade has an unknown type. */
  lemma {:induction false} GroupedFails(data: seq<RawFill>, endTime: Option<int>)
    ensures Grouped(data, endTime).Raised? ==> Grouped(data, endTime).error == ValueError
    ensures (forall t :: t in data && Considered(endTime, t) ==> ParseSide(OrText(t.kind, "")).Ok?) ==> Grouped(data, endTime).Ok?
  {
    if data != [] {
      var prefix := data[..|data| - 1];
      GroupedFails(prefix, endTime);
      assert forall t :: t in prefix ==> t in data;
    }
  }

  /** A trade after `end_time` changes nothing. */
  lemma LateTradeIgnored(data: seq<RawFill>, endTime: Option<int>, t: RawFill)
    requires endTime.Some? && FillTime(t) > endTime.value
    ensures Grouped(data + [t], endTime) == Grouped(data, endTime)
  {
    assert (data + [t])[..|data|] == data;
  }

  /** `total_cost / total_quantity` when the quantity is positive; otherwise the average stays 0. */
  function WithAverage(e: HistoryEntry): Order
  {
    if TotalAmount(e.fills) > 0.0 then e.order.(averagePrice := Some(TotalCost(e.fills) / TotalAmount(e.fills)))
    else e.order
  }

  /** `get_order_history`: the rebuilt orders in the order their first trade was seen. */
  function HistoryOf(data: seq<RawFill>, endTime: Option<int>): Result<seq<Order>>
  {
    match Grouped(data, endTime)
    case Raised(e) => Raised(e)
    case Ok(d) => Ok(seq(|d|, i requires 0 <= i < |d| => WithAverage(d[i].1)))
  }

  /**
   * An order of the history rebuilt from `fills`: its quantities are the summed amounts, its
   * update time the latest trade's, its status FILLED, its raw data those trades under
   * "trades", and its average price the amount-weighted mean of the prices when the summed
   * amount is positive, 0 otherwise.
   */
  ghost predicate RebuiltFrom(o: Order, fills: seq<RawFill>)
  {
    fills != [] &&
    o.quantity == TotalAmount(fills) &&
    o.filledQuantity == TotalAmount(fills) &&
    o.updatedAt == LatestTime(fills) &&
    o.status == Filled &&
    o.rawData == TradesRaw(fills) &&
    o.averagePrice.Some? &&
    (if TotalAmount(fills) > 0.0 then o.averagePrice.value * TotalAmount(fills) == TotalCost(fills)
     else o.averagePrice.value == 0.0)
  }

  lemma WithAverageRebuilt(oid: string, e: HistoryEntry)
    requires EntryFits(oid, e)
    ensures WithAverage(e).id == oid && RebuiltFrom(WithAverage(e), e.fills)
  {
  }

  /**
   * The orders of the history have distinct ids, and each is rebuilt from exactly the trades
   * of its id that were not skipped.
   */
  lemma HistoryLaws(data: seq<RawFill>, endTime: Option<int>)
    ensures var r := HistoryOf(data, endTime);
      r.Ok? ==>
        (forall i, j :: 0 <= i < j < |r.value| ==> r.value[i].id != r.value[j].id) &&
        (forall i :: 0 <= i < |r.value| ==> RebuiltFrom(r.value[i], FillsOf(data, endTime, r.value[i].id)))
  {
    if Grouped(data, endTime).Ok? {
      var d := Grouped(data, endTime).value;
      GroupedLaws(data, endTime);
      var r := HistoryOf(data, endTime).value;
      forall i | 0 <= i < |d|
        ensures r[i].id == d[i].0 && RebuiltFrom(r[i], FillsOf(data, endTime, d[i].0))
      {
        DistinctGet(d, i);
        WithAverageRebuilt(d[i].0, d[i].1);
      }
    }
  }

  lemma {:induction false} DistinctGet<V>(d: Dict<V>, i: nat)
    requires DistinctKeys(d) && i < |d|
    ensures Get(d, d[i].0) == Some(d[i].1)
  {
    if i > 0 {
      assert d[1..][i - 1] == d[i];
      DistinctGet(d[1..], i - 1);
    }
  }

  lemma QuotientBounds(cost: real, quantity: real, lo: real, hi: real)
    requires quantity > 0.0 && lo * quantity <= cost <= hi * quantity
    ensures lo <= cost / quantity <= hi
  {
    var avg := cost / quantity;
    assert (avg - lo) * quantity == cost - lo * quantity;
    assert (hi - avg) * quantity == hi * quantity - cost;
  }

  /**
   * With trades of non-negative amounts whose prices lie in `[lo, hi]`, the weighted average
   * lies in `[lo, hi]` too.
   */
  lemma AverageWithinPrices(fills: seq<RawFill>, lo: real, hi: real)
    requires forall t :: t in fills ==> OrZero(t.amount) >= 0.0 && lo <= OrZero(t.price) <= hi
    requires TotalAmount(fills) > 0.0
    ensures lo <= TotalCost(fills) / TotalAmount(fills) <= hi
  {
    forall i | 0 <= i < |fills| ensures OrZero(fills[i].amount) >= 0.0 && lo <= OrZero(fills[i].price) <= hi {
      assert fills[i] in fills;
    }
    CostAbove(fills, lo);
    CostBelow(fills, hi);
    QuotientBounds(TotalCost(fills), TotalAmount(fills), lo, hi);
  }

  /** With non-negative amounts and prices of at least `lo`, the cost is at least `lo` times the amount. */
  lemma {:induction false} CostAbove(fills: seq<RawFill>, lo: real)
    requires forall i :: 0 <= i < |fills| ==> OrZero(fills[i].amount) >= 0.0 && lo <= OrZero(fills[i].price)
    ensures lo * TotalAmount(fills) <= TotalCost(fills)
  {
    if fills != [] {
      var n := |fills| - 1;
      var prefix := fills[..n];
      assert forall i :: 0 <= i < n ==> prefix[i] == fills[i];
      CostAbove(prefix, lo);
      LowerStep(TotalAmount(prefix), TotalCost(prefix), OrZero(fills[n].amount), OrZero(fills[n].price), lo,
                TotalAmount(fills), TotalCost(fills));
    }
  }

  /** With non-negative amounts and prices of at most `hi`, the cost is at most `hi` times the amount. */
  lemma {:induction false} CostBelow(fills: seq<RawFill>, hi: real)
    requires forall i :: 0 <= i < |fills| ==> OrZero(fills[i].amount) >= 0.0 && OrZero(fills[i].price) <= hi
    ensures TotalCost(fills) <= hi * TotalAmount(fills)
  {
    if fills != [] {
      var n := |fills| - 1;
      var prefix := fills[..n];
      assert forall i :: 0 <= i < n ==> prefix[i] == fills[i];
      CostBelow(prefix, hi);
      UpperStep(TotalAmount(prefix), TotalCost(prefix), OrZero(fills[n].amount), OrZero(fills[n].price), hi,
                TotalAmount(fills), TotalCost(fills));
    }
  }

  lemma LowerStep(amount: real, cost: real, a: real, p: real, lo: real, amount': real, cost': real)
    requires lo * amount <= cost && a >= 0.0 && lo <= p
    requires amount' == amount + a && cost' == cost + p * a
    ensures lo * amount' <= cost'
  {
    assert (p - lo) * a >= 0.0;
    assert lo * (amount + a) == lo * amount + lo * a;
  }

  lemma UpperStep(amount: real, cost: real, a: real, p: real, hi: real, amount': real, cost': real)
    requires cost <= hi * amount && a >= 0.0 && p <= hi
    requires amount' == amount + a && cost' == cost + p * a
    ensures cost' <= hi * amount'
  {
    assert (hi - p) * a >= 0.0;
    assert hi * (amount + a) == hi * amount + hi * a;
  }

  /** `get_order_history`, with the exchange's past trades as `data`; only `end_time` filters them. */
  method GetOrderHistory(endTime: Option<int>, data: seq<RawFill>) returns (r: Result<seq<Order>>)
    ensures r == HistoryOf(data, endTime)
  {
    var groups := GroupFills(endTime, data);
    if groups.Raised? {
      return Raised(groups.error);
    }
    var orders := Averages(groups.value);
    return Ok(orders);
  }

  /** The first loop of `get_order_history`: group the trades by order id. */
  method GroupFills(endTime: Option<int>, data: seq<RawFill>) returns (r: Result<Dict<HistoryEntry>>)
    ensures r == Grouped(data, endTime)
  {
    var orders: Dict<HistoryEntry> := [];
    for i := 0 to |data|
      invariant Grouped(data[..i], endTime) == Ok(orders)
    {
      GroupedNext(data, i, endTime, orders);
      var next := AddFill(endTime, orders, data[i]);
      if next.Raised? {
        GroupedRaisedPersists(data, i + 1, endTime);
        return next;
      }
      orders := next.value;
    }
    assert data[..|data|] == data;
    return Ok(orders);
  }

  lemma GroupedNext(data: seq<RawFill>, i: nat, endTime: Option<int>, orders: Dict<HistoryEntry>)
    requires i < |data| && Grouped(data[..i], endTime) == Ok(orders)
    ensures Grouped(data[..i + 1], endTime) == GroupStep(orders, data[i], endTime)
  {
    assert data[..i + 1][..i] == data[..i] && data[..i + 1][i] == data[i];
  }

  /** One iteration of the first loop: the trade is skipped, added to its order, or opens one. */
  method AddFill(endTime: Option<int>, orders: Dict<HistoryEntry>, trade: RawFill) returns (r: Result<Dict<HistoryEntry>>)
    ensures r == GroupStep(orders, trade, endTime)
  {
    var orderId := FillOrderId(trade);
    var tradeTime := FillTime(trade);
    if endTime.Some? && tradeTime > endTime.value {
      return Ok(orders);
    }
    var entry: HistoryEntry;
    match Get(orders, orderId) {
      case Some(e) =>
        entry := e;
      case None =>
        var side := ParseSide(OrText(trade.kind, ""));
        if side.Raised? {
          return Raised(side.error);
        }
        entry := NewEntry(orderId, trade, side.value);
    }
    var order := entry.order;
    order := order.(filledQuantity := order.filledQuantity + OrZero(trade.amount));
    order := order.(quantity := order.quantity + OrZero(trade.amount));
    order := order.(rawData := TradesRaw(entry.fills + [trade]));
    if tradeTime > order.updatedAt {
      order := order.(updatedAt := tradeTime);
    }
    return Ok(Put(orders, orderId, HistoryEntry(order, entry.fills + [trade])));
  }

  /** The second loop of `get_order_history`: set each order's average price from its trades. */
  method Averages(groups: Dict<HistoryEntry>) returns (orders: seq<Order>)
    ensures orders == seq(|groups|, i requires 0 <= i < |groups| => WithAverage(groups[i].1))
  {
    orders := [];
    for k := 0 to |groups|
      invariant |orders| == k && forall i :: 0 <= i < k ==> orders[i] == WithAverage(groups[i].1)
    {
      var entry := groups[k].1;
      var totalCost := 0.0;
      var totalQuantity := 0.0;
      for j := 0 to |entry.fills|
        invariant totalCost == TotalCost(entry.fills[..j]) && totalQuantity == TotalAmount(entry.fills[..j])
      {
        assert entry.fills[..j + 1][..j] == entry.fills[..j];
        var price := OrZero(entry.fills[j].price);
        var amount := OrZero(entry.fills[j].amount);
        totalCost := totalCost + price * amount;
        totalQuantity := totalQuantity + amount;
      }
      assert entry.fills[..|entry.fills|] == entry.fills;
      var order := entry.order;
      if totalQuantity > 0.0 {
        order := order.(averagePrice := Some(totalCost / totalQuantity));
      }
      orders := orders + [order];
    }
  }
}
