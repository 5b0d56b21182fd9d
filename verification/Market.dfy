/** The vocabulary of the trading core: orders, fills and the aggregated market
    observation a replay consumes. Prices, quantities, cash and nanoseconds are integers. */
module Market {
  import opened Numbers

  datatype Side = Buy | Sell
  datatype Offset = Open | Close
  datatype Liquidity = Maker | Taker
  datatype Stamp = Stamp(exch: int, local: int)

  function SideSign(side: Side): int {
    if side.Buy? then 1 else -1
  }

  /** Order construction refuses a quantity that is not positive. */
  type Lots = q: int | q > 0 witness 1

  /** An order with lots still to fill; a market order has no price. */
  datatype Order = Order(id: nat, side: Side, price: Option<int>, qty: Lots, offset: Offset, placed: Stamp)

  datatype Fill = Fill(
    stamp: Stamp, instrument: nat, order: nat, trade: nat, side: Side, offset: Offset,
    price: int, qty: int, liquidity: Liquidity)

  function PositionDelta(f: Fill): int {
    f.qty * SideSign(f.side)
  }

  /** One aggregated observation; zero means "unknown" in every price but `last`. */
  datatype Tick = Tick(
    stamp: Stamp, last: int, high: int, low: int, bid: int, ask: int, volume: int)
  {
    function BuyTrigger(): int {
      if ask > 0 then ask else if low > 0 then low else last
    }

    function BuyReference(): int {
      if ask > 0 then ask else last
    }

    function SellTrigger(): int {
      if bid > 0 then bid else if high > 0 then high else last
    }

    function SellReference(): int {
      if bid > 0 then bid else last
    }

    function UpExtent(): int {
      if high > 0 then high else last
    }

    function DownExtent(): int {
      if low > 0 then low else last
    }
  }

  datatype FillReason = GapCrossed | Crossed | MarketOrder

  /** A fill and its reason. */
  datatype L0Fill = L0Fill(fill: Fill, reason: FillReason)
}
