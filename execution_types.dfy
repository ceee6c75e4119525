/**
 * The execution enums of src/execution/base.py and the records of src/execution/models.py,
 * with the strategy signal the strategies emit. Timestamps are whole epoch seconds. Each
 * account, position and order carries its `raw_data` dictionary, so record equality, like
 * the dataclasses' `__eq__`, compares it too.
 */
module Execution {
  import opened Common

  datatype OrderType = Market | Limit | Stop | StopLimit

  datatype OrderSide = Buy | Sell

  datatype OrderStatus = Pending | Open | Filled | PartiallyFilled | Canceled | Rejected | Expired

  /** The enum values, as `OrderSide.value` spells them. */
  function SideValue(side: OrderSide): string
  {
    match side
    case Buy => "buy"
    case Sell => "sell"
  }

  /** `OrderSide(value)`: the member with that value, or a ValueError. */
  function ParseSide(value: string): (r: Result<OrderSide>)
    ensures r.Ok? <==> value == "buy" || value == "sell"
    ensures r.Ok? ==> SideValue(r.value) == value
    ensures r.Raised? ==> r.error == ValueError
  {
    if value == "buy" then Ok(Buy)
    else if value == "sell" then Ok(Sell)
    else Raised(ValueError)
  }

  /** A balance of one asset; `total` is derived from the other two fields when it is built. */
  datatype Balance = Balance(asset: string, free: real, locked: real)
  {
    function Total(): real { free + locked }
  }

  datatype Account = Account(id: string, balances: seq<Balance>, rawData: RawData)

  datatype Position = Position(
    symbol: string,
    quantity: real,
    entryPrice: real,
    markPrice: real,
    unrealizedPnl: real,
    rawData: RawData)

  datatype Order = Order(
    id: string,
    clientOrderId: Option<string>,
    symbol: string,
    side: OrderSide,
    orderType: OrderType,
    quantity: real,
    price: Option<real>,
    stopPrice: Option<real>,
    status: OrderStatus,
    createdAt: int,
    updatedAt: int,
    filledQuantity: real,
    averagePrice: Option<real>,
    timeInForce: string,
    rawData: RawData)

  /** A value in a signal's metadata dictionary. */
  datatype Meta = Text(text: string) | Number(number: int)

  /**
   * A trading signal. The class is declared in src/strategy/base.py, which is not part of
   * this model; its fields are those its users set and read.
   */
  datatype StrategySignal = StrategySignal(
    symbol: string,
    side: OrderSide,
    orderType: OrderType,
    quantity: real,
    price: Option<real>,
    stopPrice: Option<real>,
    broker: Option<string>,
    strategyId: string,
    timestamp: int,
    metadata: map<string, Meta>)
}
