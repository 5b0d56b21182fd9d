/** The account as values: holdings on one balance, and what fills, liquidation and each
    event do to them (crates/oq-core/src/kernel.rs, crates/oq-margin/src/tier.rs). */
module Account {
  import opened Numbers
  import opened Cost
  import opened Ledger
  import opened Market
  import opened Events
  import Matching

  // ----- rates and margin

  const RATIO_SCALE := 1_000_000_000

  function Scaled(cash: int, ratio: int): int {
    TruncDiv(cash * ratio, RATIO_SCALE)
  }

  datatype Fees = Fees(maker: int, taker: int) {
    function Charge(tickCash: int, f: Fill): int {
      Scaled(Notional(tickCash, f.price, f.qty), if f.liquidity.Maker? then maker else taker)
    }
  }

  /** What a leg of this size gains when funding settles. */
  function Settlement(tickCash: int, rate: int, mark: int, qty: int): int {
    if qty >= 0 then 0 - Scaled(Notional(tickCash, mark, qty), rate) else Scaled(Notional(tickCash, mark, qty), rate)
  }

  datatype MarginTier = MarginTier(maxNotional: int, rate: int, amount: int)

  type TierTable = t: seq<MarginTier> | |t| > 0 witness [MarginTier(0, 0, 0)]

  function TierFor(t: TierTable, notional: int): MarginTier {
    if |t| == 1 || notional <= t[0].maxNotional then t[0] else TierFor(t[1..], notional)
  }

  function Required(t: TierTable, tickCash: int, price: int, qty: int): int {
    var notional := Notional(tickCash, price, qty);
    var tier := TierFor(t, notional);
    Max(0, Scaled(notional, tier.rate) - tier.amount)
  }

  // ----- one instrument

  datatype HoldingV = HoldingV(
    instrument: nat, tickCash: int, table: TierTable, engine: Matching.Matcher, long: Leg, short: Leg, mark: int)
  {
    predicate IsFlat() {
      long.qty == 0 && short.qty == 0
    }

    function UnrealizedAt(m: int): int {
      LegWorth(tickCash, long, m) + LegWorth(tickCash, short, m)
    }

    function Maintenance(): int {
      (if long.qty == 0 then 0 else Required(table, tickCash, mark, long.qty)) +
      (if short.qty == 0 then 0 else Required(table, tickCash, mark, short.qty))
    }

    function Open(onShort: bool, qty: int, price: int, sign: int): HoldingV {
      if onShort then this.(short := Enlarged(tickCash, short, qty, price, sign))
      else this.(long := Enlarged(tickCash, long, qty, price, sign))
    }

    function Close(onShort: bool, qty: int, price: int): HoldingV {
      if onShort then this.(short := Shrunk(tickCash, short, qty, price))
      else this.(long := Shrunk(tickCash, long, qty, price))
    }

    function CloseProfit(onShort: bool, qty: int, price: int): int {
      ShrunkProfit(tickCash, if onShort then short else long, qty, price)
    }
  }

  function NewHolding(instrument: nat, tickCash: int, table: TierTable): HoldingV {
    HoldingV(instrument, tickCash, table, Matching.NewMatcher(instrument), FLAT, FLAT, 0)
  }

  // ----- the account

  datatype PositionMode = OneWay | Hedge
  datatype Fillers = Simulated | Venue

  datatype StateV = StateV(
    holdings: seq<HoldingV>, mode: PositionMode, balance: int, realized: int, funding: int, fees: int,
    schedule: Fees, feesCovered: bool, feesMissing: bool, now: int, enforce: bool, matching: Fillers, forfeited: int)
  {
    function IndexOf(instrument: nat): (h: nat)
      ensures h <= |holdings|
      ensures h < |holdings| ==> holdings[h].instrument == instrument
      ensures forall i :: 0 <= i < h ==> holdings[i].instrument != instrument
    {
      FirstOf(holdings, instrument)
    }

    function Put(h: nat, v: HoldingV): StateV
      requires h < |holdings|
    {
      this.(holdings := holdings[h := v])
    }

    function Book(pnl: int): StateV {
      this.(realized := realized + pnl, balance := balance + pnl)
    }

    predicate IsFlat() {
      forall i :: 0 <= i < |holdings| ==> holdings[i].IsFlat()
    }
  }

  function FirstOf(hs: seq<HoldingV>, instrument: nat): (h: nat)
    ensures h <= |hs|
    ensures h < |hs| ==> hs[h].instrument == instrument
    ensures forall i :: 0 <= i < h ==> hs[i].instrument != instrument
  {
    if hs == [] || hs[0].instrument == instrument then 0 else 1 + FirstOf(hs[1..], instrument)
  }

  function Unrealized(hs: seq<HoldingV>): int {
    if hs == [] then 0 else Unrealized(hs[..|hs| - 1]) + hs[|hs| - 1].UnrealizedAt(hs[|hs| - 1].mark)
  }

  function Maintenance(hs: seq<HoldingV>): int {
    if hs == [] then 0 else Maintenance(hs[..|hs| - 1]) + hs[|hs| - 1].Maintenance()
  }

  // ----- fills

  function Opening(s: StateV, h: nat, onShort: bool, qty: int, price: int, sign: int): (r: StateV)
    requires h < |s.holdings|
    ensures |r.holdings| == |s.holdings|
  {
    s.Put(h, s.holdings[h].Open(onShort, qty, price, sign))
  }

  function Closing(s: StateV, h: nat, onShort: bool, qty: int, price: int): (r: StateV)
    requires h < |s.holdings|
    ensures |r.holdings| == |s.holdings|
  {
    s.Put(h, s.holdings[h].Close(onShort, qty, price)).Book(s.holdings[h].CloseProfit(onShort, qty, price))
  }

  predicate Reduces(l: Leg, d: int) {
    l.qty != 0 && (l.qty > 0) != (d > 0)
  }

  /** One net position: a fill that crosses flat closes what was held and opens the rest
      at a fresh cost. */
  function FillOneWay(s: StateV, h: nat, f: Fill): (r: StateV)
    requires h < |s.holdings|
    ensures |r.holdings| == |s.holdings|
  {
    var d, l := PositionDelta(f), s.holdings[h].long;
    if Reduces(l, d) then
      var closed := Min(Abs(d), Abs(l.qty));
      var s1 := Closing(s, h, false, closed, f.price);
      if Abs(d) > closed then Opening(s1, h, false, Abs(d) - closed, f.price, Sign(d)) else s1
    else Opening(s, h, false, Abs(d), f.price, Sign(d))
  }

  /** The fill is one for the long leg: a buy that opens or a sell that closes. */
  predicate OnLong(f: Fill) {
    f.side.Buy? == f.offset.Open?
  }

  function FillHedged(s: StateV, h: nat, f: Fill): (r: StateV)
    requires h < |s.holdings|
    ensures |r.holdings| == |s.holdings|
  {
    if f.offset.Open? then Opening(s, h, !OnLong(f), f.qty, f.price, if OnLong(f) then 1 else -1)
    else Closing(s, h, !OnLong(f), f.qty, f.price)
  }

  /** A fill moves the holding it names. A fill naming none stops the source's process, so
      no caller may present one; here it would change nothing. */
  function WithFill(s: StateV, f: Fill): (r: StateV)
    ensures |r.holdings| == |s.holdings|
  {
    var h := s.IndexOf(f.instrument);
    if h == |s.holdings| then s
    else if s.mode.Hedge? then FillHedged(s, h, f)
    else FillOneWay(s, h, f)
  }

  function Charged(s: StateV, fee: int): StateV {
    s.(fees := s.fees + fee, balance := s.balance - fee)
  }

  // ----- liquidation

  datatype Closed = Closed(state: StateV, out: seq<Output>)

  /** The price a holding is liquidated at: `price` if there is no other holding, else its mark, or
      its entry where the mark is zero. */
  function ClosingPrice(s: StateV, h: nat, price: int): int
    requires h < |s.holdings|
  {
    if |s.holdings| == 1 then price
    else if s.holdings[h].mark == 0 then s.holdings[h].long.entry
    else s.holdings[h].mark
  }

  function Flattened(v: HoldingV): HoldingV {
    v.(long := FLAT, short := FLAT, engine := Matching.Emptied(v.engine))
  }

  function LiquidateOne(s: StateV, h: nat, price: int): (r: StateV)
    requires h < |s.holdings|
    ensures |r.holdings| == |s.holdings|
  {
    s.Put(h, Flattened(s.holdings[h])).Book(s.holdings[h].UnrealizedAt(price))
  }

  function Notice(s: StateV, h: nat, price: int): Output
    requires h < |s.holdings|
  {
    var v := s.holdings[h];
    Liquidated(s.now, price, v.long.qty + v.short.qty, s.balance + v.UnrealizedAt(price), 0, v.instrument,
               v.long.qty, v.short.qty)
  }

  /** The holdings that close, from `h` on: the only one, or each that has a position. */
  function ToClose(hs: seq<HoldingV>, h: nat): (r: seq<nat>)
    requires h <= |hs|
    ensures forall i :: 0 <= i < |r| ==> h <= r[i] < |hs|
    decreases |hs| - h
  {
    if h == |hs| then []
    else if |hs| > 1 && hs[h].IsFlat() then ToClose(hs, h + 1)
    else [h] + ToClose(hs, h + 1)
  }

  function CloseEach(s: StateV, hs: seq<nat>, price: int): (c: Closed)
    requires forall i :: 0 <= i < |hs| ==> hs[i] < |s.holdings|
    ensures |c.out| == |hs| && |c.state.holdings| == |s.holdings|
    decreases |hs|
  {
    if hs == [] then Closed(s, [])
    else
      var at := ClosingPrice(s, hs[0], price);
      var rest := CloseEach(LiquidateOne(s, hs[0], at), hs[1..], price);
      Closed(rest.state, [Notice(s, hs[0], at)] + rest.out)
  }

  /** The notices with their equity set to zero, and the forfeit put on the last. */
  function Settled(out: seq<Output>, forfeited: int): (r: seq<Output>)
    ensures |r| == |out|
  {
    seq(|out|, i requires 0 <= i < |out| =>
      if !out[i].Liquidated? then out[i]
      else if i == |out| - 1 then out[i].(equity := 0, forfeited := forfeited)
      else out[i].(equity := 0))
  }

  function Liquidate(s: StateV, price: int): (r: Closed)
    ensures |r.state.holdings| == |s.holdings|
  {
    var c := CloseEach(s, ToClose(s.holdings, 0), price);
    Closed(c.state.(balance := 0, forfeited := c.state.forfeited + c.state.balance), Settled(c.out, c.state.balance))
  }

  // ----- the kernel

  datatype KernelV = KernelV(state: StateV, working: seq<nat>)

  /** A kernel after an event, and the outputs of that event so far. */
  datatype Applied = Applied(kernel: KernelV, out: seq<Output>) {
    function Emit(o: Output): Applied {
      this.(out := out + [o])
    }
  }

  function Dropped(working: seq<nat>, id: nat): seq<nat> {
    if working == [] then []
    else if working[|working| - 1] == id then Dropped(working[..|working| - 1], id)
    else Dropped(working[..|working| - 1], id) + [working[|working| - 1]]
  }

  function Route(s: StateV, instrument: Option<nat>): Option<nat> {
    match instrument
    case Some(id) => if s.IndexOf(id) < |s.holdings| then Some(s.IndexOf(id)) else None
    case None => if |s.holdings| == 1 then Some(0) else None
  }

  predicate Liquidatable(s: StateV, mark: int) {
    if s.mode.Hedge? || |s.holdings| != 1 then s.balance + Unrealized(s.holdings) <= Maintenance(s.holdings)
    else
      var v := s.holdings[0];
      v.long.qty != 0 && s.balance + LegWorth(v.tickCash, v.long, mark) <= Required(v.table, v.tickCash, mark, v.long.qty)
  }

  /** The liquidation an event may end with, its outputs after the event's own. */
  function Checked(a: Applied, mark: int): (r: Applied)
    ensures |r.kernel.state.holdings| == |a.kernel.state.holdings|
  {
    var s := a.kernel.state;
    if !s.enforce || s.IsFlat() || !Liquidatable(s, mark) then a
    else
      var c := Liquidate(s, mark);
      Applied(KernelV(c.state, []), a.out + c.out)
  }

  function BookFill(a: Applied, h: nat, f: Fill): (r: Applied)
    requires h < |a.kernel.state.holdings|
    ensures |r.kernel.state.holdings| == |a.kernel.state.holdings|
  {
    var s := a.kernel.state;
    var s1 := WithFill(Charged(s, s.schedule.Charge(s.holdings[h].tickCash, f)), f);
    Applied(KernelV(s1, Dropped(a.kernel.working, f.order)), a.out + [Filled(f)])
  }

  function BookFills(a: Applied, h: nat, fs: seq<Fill>): (r: Applied)
    requires h < |a.kernel.state.holdings|
    ensures |r.kernel.state.holdings| == |a.kernel.state.holdings|
  {
    if fs == [] then a else BookFill(BookFills(a, h, fs[..|fs| - 1]), h, fs[|fs| - 1])
  }

  function WithMark(s: StateV, h: nat, price: int): (r: StateV)
    requires h < |s.holdings|
    ensures |r.holdings| == |s.holdings|
  {
    s.Put(h, s.holdings[h].(mark := price))
  }

  function WithEngine(s: StateV, h: nat, m: Matching.Matcher): (r: StateV)
    requires h < |s.holdings|
    ensures |r.holdings| == |s.holdings|
  {
    s.Put(h, s.holdings[h].(engine := m))
  }

  function Marked(s: StateV, h: nat, t: Tick): StateV
    requires h < |s.holdings|
  {
    WithMark(s.(now := t.stamp.exch), h, t.last)
  }

  function Matched(s: StateV, h: nat, t: Tick): StateV
    requires h < |s.holdings|
  {
    WithEngine(s, h, Matching.Ticked(s.holdings[h].engine, t))
  }

  function OnTick(k: KernelV, h: nat, t: Tick): (r: Applied)
    requires h < |k.state.holdings|
    ensures |r.kernel.state.holdings| == |k.state.holdings|
  {
    var s := Marked(k.state, h, t);
    if s.matching.Venue? then Checked(Applied(k.(state := s), []), t.last)
    else
      var fills := Matching.FillsOn(s.holdings[h].engine, t);
      Checked(BookFills(Applied(k.(state := Matched(s, h, t)), []), h, fills), t.last)
  }

  function Refusal(k: KernelV, id: nat, reason: RejectReason): Applied {
    Applied(k, [Rejected(id, reason)])
  }

  function OnSubmit(k: KernelV, e: Event): (r: Applied)
    requires e.Submit?
    ensures |r.kernel.state.holdings| == |k.state.holdings|
  {
    var s := k.state;
    if e.qty <= 0 then Refusal(k, e.id, NonPositiveQty)
    else if e.id in k.working then Refusal(k, e.id, DuplicateId)
    else if Route(s, e.instrument).None? then Refusal(k, e.id, UnroutableObservation)
    else if s.balance <= 0 then Refusal(k, e.id, NoMargin)
    else
      var h := Route(s, e.instrument).value;
      var o := Order(e.id, e.side, e.price, e.qty, e.offset, e.stamp);
      Applied(KernelV(Placed(s, h, o, e.stamp.local), k.working + [e.id]), [])
  }

  function Placed(s: StateV, h: nat, o: Order, now: int): StateV
    requires h < |s.holdings|
  {
    WithEngine(s, h, Matching.Submitted(s.holdings[h].engine, o, now))
  }

  function WithdrawnFrom(s: StateV, h: nat, id: nat): StateV
    requires h < |s.holdings|
  {
    WithEngine(s, h, Matching.Without(s.holdings[h].engine, id))
  }

  /** Each holding in turn is asked to cancel, up to the first that had the order. */
  function AskedFrom(s: StateV, h: nat, id: nat): (r: StateV)
    requires h <= |s.holdings|
    ensures |r.holdings| == |s.holdings|
    decreases |s.holdings| - h
  {
    if h == |s.holdings| then s
    else if Matching.Holds(s.holdings[h].engine, id) then WithdrawnFrom(s, h, id)
    else AskedFrom(WithdrawnFrom(s, h, id), h + 1, id)
  }

  predicate HeldFrom(s: StateV, h: nat, id: nat)
    requires h <= |s.holdings|
    decreases |s.holdings| - h
  {
    h < |s.holdings| && (Matching.Holds(s.holdings[h].engine, id) || HeldFrom(s, h + 1, id))
  }

  function OnCancel(k: KernelV, id: nat): (r: Applied)
    ensures |r.kernel.state.holdings| == |k.state.holdings|
  {
    var s := AskedFrom(k.state, 0, id);
    if HeldFrom(k.state, 0, id) then Applied(KernelV(s, Dropped(k.working, id)), [Withdrawn(id)])
    else Applied(k.(state := s), [])
  }

  function SettlementOf(v: HoldingV, rate: int, mark: int): int {
    (if v.long.qty == 0 then 0 else Settlement(v.tickCash, rate, mark, v.long.qty)) +
    (if v.short.qty == 0 then 0 else Settlement(v.tickCash, rate, mark, v.short.qty))
  }

  function Financed(s: StateV, amount: int): StateV {
    s.(funding := s.funding + amount, balance := s.balance + amount)
  }

  function OnFunding(k: KernelV, e: Event): (r: Applied)
    requires e.Funding?
    ensures |r.kernel.state.holdings| == |k.state.holdings|
  {
    var s := k.state.(now := e.at);
    match Route(s, e.instrument)
    case None => Refusal(k.(state := s), 0, UnroutableObservation)
    case Some(h) => SettledOn(k.(state := s), h, e.at, e.rate, e.mark)
  }

  function SettledOn(k: KernelV, h: nat, at: int, rate: int, mark: int): (r: Applied)
    requires h < |k.state.holdings|
    ensures |r.kernel.state.holdings| == |k.state.holdings|
  {
    var v := k.state.holdings[h];
    if v.IsFlat() then Applied(k, [])
    else
      var amount := SettlementOf(v, rate, mark);
      Checked(Applied(k.(state := Financed(k.state, amount)), [Funded(amount, at)]), mark)
  }

  function OnFundingCharged(k: KernelV, e: Event): (r: Applied)
    requires e.FundingCharged?
    ensures |r.kernel.state.holdings| == |k.state.holdings|
  {
    var s := k.state.(now := e.at);
    if Route(s, e.instrument).None? then Refusal(k.(state := s), 0, UnroutableObservation)
    else Applied(k.(state := Financed(s, e.amount)), [Funded(e.amount, e.at)])
  }

  function FeeOf(s: StateV, f: Fill, fee: Fee): int
    requires s.holdings != []
  {
    var h := s.IndexOf(f.instrument);
    match fee
    case Reported(cash) => cash
    case Unreadable => 0
    case Unsaid => s.schedule.Charge(s.holdings[if h < |s.holdings| then h else 0].tickCash, f)
  }

  function FeeNoted(s: StateV, fee: Fee): StateV {
    match fee
    case Reported(_) => s.(feesCovered := true)
    case Unreadable => s.(feesMissing := true)
    case Unsaid => s
  }

  /** The clock moves, and the filled order is withdrawn where its instrument is held. */
  function Fulfilled(s: StateV, f: Fill): StateV {
    var h := s.IndexOf(f.instrument);
    if h < |s.holdings| then WithdrawnFrom(s.(now := f.stamp.exch), h, f.order) else s.(now := f.stamp.exch)
  }

  function VenueBooked(k: KernelV, f: Fill, fee: Fee): (r: Applied)
    requires k.state.holdings != []
    ensures |r.kernel.state.holdings| == |k.state.holdings|
  {
    var s := FeeNoted(Fulfilled(k.state, f), fee);
    var s1 := WithFill(Charged(s, FeeOf(s, f, fee)), f);
    Applied(KernelV(s1, Dropped(k.working, f.order)), [Filled(f)])
  }

  function OnVenueFill(k: KernelV, f: Fill, fee: Fee): (r: Applied)
    requires k.state.holdings != []
    ensures |r.kernel.state.holdings| == |k.state.holdings|
  {
    if k.state.matching.Venue? then Checked(VenueBooked(k, f, fee), f.price)
    else Refusal(k, f.order, NotVenueMatched)
  }

  function OnTickSeen(k: KernelV, instrument: Option<nat>, t: Tick): (r: Applied)
    ensures |r.kernel.state.holdings| == |k.state.holdings|
  {
    match Route(k.state, instrument)
    case Some(h) => OnTick(k, h, t)
    case None => Refusal(k, 0, UnroutableObservation)
  }

  /** One event applied. Depth is read only by a tier this model does not hold. */
  function Apply(k: KernelV, e: Event): (a: Applied)
    requires k.state.holdings != []
    ensures |a.kernel.state.holdings| == |k.state.holdings|
  {
    match e
    case TickSeen(instrument, t) => OnTickSeen(k, instrument, t)
    case Submit(_, _, _, _, _, _, _) => OnSubmit(k, e)
    case Cancel(id, _) => OnCancel(k, id)
    case Funding(_, _, _, _) => OnFunding(k, e)
    case FundingCharged(_, _, _) => OnFundingCharged(k, e)
    case FeeRecovered(at, amount, remainingMissing) =>
      var s := Charged(k.state.(now := at), amount);
      Applied(k.(state := s.(feesCovered := true, feesMissing := remainingMissing != 0)), [])
    case TimeAt(at) => Applied(k.(state := k.state.(now := at)), [])
    case MarginDeposit(amount, at) => Applied(k.(state := k.state.(now := at, balance := k.state.balance + amount)), [])
    case VenueFill(f, fee) => OnVenueFill(k, f, fee)
    case Depth(_) => Applied(k, [])
  }

  /** A run of events and every output it produced. */
  function Run(k: KernelV, es: seq<Event>): (a: Applied)
    requires k.state.holdings != []
    ensures |a.kernel.state.holdings| == |k.state.holdings|
  {
    if es == [] then Applied(k, [])
    else
      var before := Run(k, es[..|es| - 1]);
      var a := Apply(before.kernel, es[|es| - 1]);
      Applied(a.kernel, before.out + a.out)
  }

  /** Book what one holding's matcher still holds back. */
  function SettledAt(a: Applied, h: nat): (r: Applied)
    requires h < |a.kernel.state.holdings|
    ensures |r.kernel.state.holdings| == |a.kernel.state.holdings|
  {
    var s := a.kernel.state;
    var m := s.holdings[h].engine;
    BookFills(a.(kernel := a.kernel.(state := WithEngine(s, h, Matching.Drained(m)))), h, Matching.Unreported(m))
  }

  /** The end of a run: what every matcher still holds back is booked, holding by holding. */
  function SettledTo(a: Applied, h: nat): (r: Applied)
    requires h <= |a.kernel.state.holdings|
    ensures |r.kernel.state.holdings| == |a.kernel.state.holdings|
  {
    if h == 0 then a else SettledAt(SettledTo(a, h - 1), h - 1)
  }
}
