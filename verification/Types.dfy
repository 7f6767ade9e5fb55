/** Domain records of the Rust engine. Random event ids are not modelled. */
module Types {
  import opened Wrappers

  datatype Side = Buy | Sell {
    function Opposite(): Side {
      if this == Buy then Sell else Buy
    }
  }

  datatype Reason = SmaCrossover | ShadowRecorded

  datatype OrderStatus = Filled

  datatype Tick = Tick(symbol: string, price: real, volume: real, ts: int)

  datatype Signal = Signal(
    symbol: string, side: Side, confidence: real, reason: Reason, desiredSize: real, ts: int)

  datatype Order = Order(
    symbol: string, side: Side, qty: real, price: Option<real>,
    status: OrderStatus, reason: Reason, ts: int, isShadow: bool)

  datatype Trade = Trade(
    symbol: string, side: Side, fillQty: real, fillPrice: real, fees: real, ts: int, isShadow: bool)

  datatype PersistEvent =
    | TickEvent(tick: Tick)
    | SignalEvent(signal: Signal)
    | OrderEvent(order: Order)
    | TradeEvent(trade: Trade)
}
