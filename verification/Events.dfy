/** The core's inputs and outputs as datatypes
    (crates/oq-core/src/event.rs, crates/oq-core/src/kernel.rs). */
module Events {
  import opened Numbers
  import opened Market
  import opened VenueBook

  /** What a venue said a fill cost. */
  datatype Fee = Unsaid | Reported(cash: int) | Unreadable

  datatype Event =
    | TickSeen(instrument: Option<nat>, tick: Tick)
    | Submit(instrument: Option<nat>, id: nat, side: Side, price: Option<int>, qty: int, offset: Offset, stamp: Stamp)
    | Cancel(id: nat, stamp: Stamp)
    | Funding(instrument: Option<nat>, at: int, rate: int, mark: int)
    | FundingCharged(instrument: Option<nat>, at: int, amount: int)
    | FeeRecovered(at: int, amount: int, remainingMissing: nat)
    | TimeAt(at: int)
    | MarginDeposit(amount: int, at: int)
    | VenueFill(fill: Fill, fee: Fee)
    | Depth(update: DepthUpdate)

  datatype RejectReason = NonPositiveQty | DuplicateId | NoMargin | NotVenueMatched | UnroutableObservation

  datatype Output =
    | Filled(fill: Fill)
    | Withdrawn(id: nat)
    | Rejected(id: nat, reason: RejectReason)
    | Funded(amount: int, at: int)
    | Liquidated(at: int, price: int, qty: int, equity: int, forfeited: int, instrument: nat, long: int, short: int)
}
