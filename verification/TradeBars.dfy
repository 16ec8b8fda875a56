/** Trade bars, the rows the consolidators take and emit. */
module TradeBars {
  import opened Results

  datatype TradeBar = TradeBar(symbol: nat, venue: Option<nat>, time: int, endTime: int,
                               open: real, high: real, low: real, close: real, volume: real, period: int)
}
