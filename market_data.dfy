/**
 * The market-data records of src/data/models.py. Timestamps are whole epoch seconds;
 * prices and amounts are reals. The order book keeps its `raw_data`, a field without a
 * default that its builder must pass; the `raw_data` of tickers, trades and candles is
 * not modelled, as nothing in the core reads or compares them.
 */
module MarketData {
  import opened Common

  datatype Ticker = Ticker(
    symbol: string,
    bid: real,
    ask: real,
    last: real,
    volume24h: real,
    timestamp: nat)

  /** A public trade as the market-data side sees it; `side` is "buy" or "sell". */
  datatype Trade = Trade(
    symbol: string,
    price: real,
    amount: real,
    side: string,
    timestamp: nat,
    tradeId: string)

  datatype OrderBookEntry = OrderBookEntry(price: real, amount: real)

  datatype OrderBook = OrderBook(
    symbol: string,
    bids: seq<OrderBookEntry>,
    asks: seq<OrderBookEntry>,
    timestamp: nat,
    rawData: RawData)

  /** An OHLCV candle; `timestamp` is the start of its bucket. */
  datatype Candle = Candle(
    symbol: string,
    timestamp: int,
    open: real,
    high: real,
    low: real,
    close: real,
    volume: real)

  /** low <= open, close <= high. */
  predicate OhlcOrdered(c: Candle) {
    c.low <= c.open <= c.high && c.low <= c.close <= c.high
  }
}
