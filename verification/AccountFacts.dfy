/** What every event keeps: the balance reconciles, funding and forfeits are read off the
    outputs, and a liquidation settles the account (crates/oq-core/src/kernel.rs). */
module AccountFacts {
  import opened Numbers
  import opened Market
  import opened Events
  import opened Account
  import Matching

  // ----- the books after every event

  function FundedIn(out: seq<Output>): int {
    if out == [] then 0
    else FundedIn(out[..|out| - 1]) + if out[|out| - 1].Funded? then out[|out| - 1].amount else 0
  }

  function ForfeitedIn(out: seq<Output>): int {
    if out == [] then 0
    else ForfeitedIn(out[..|out| - 1]) + if out[|out| - 1].Liquidated? then out[|out| - 1].forfeited else 0
  }

  function Deposited(e: Event): int {
    if e.MarginDeposit? then e.amount else 0
  }

  function Deposits(es: seq<Event>): int {
    if es == [] then 0 else Deposits(es[..|es| - 1]) + Deposited(es[|es| - 1])
  }

  /** What no operation but a deposit may move: the balance less everything that explains
      it, and the totals less what the outputs reported of them. */
  datatype Books = Books(residual: int, unreportedFunding: int, unreportedForfeits: int)

  function BooksOf(a: Applied): Books {
    var s := a.kernel.state;
    Books(s.balance - s.realized - s.funding + s.fees + s.forfeited,
          s.funding - FundedIn(a.out), s.forfeited - ForfeitedIn(a.out))
  }

  lemma {:induction false} FundedAppend(p: seq<Output>, q: seq<Output>)
    ensures FundedIn(p + q) == FundedIn(p) + FundedIn(q)
    ensures ForfeitedIn(p + q) == ForfeitedIn(p) + ForfeitedIn(q)
  {
    if q == [] {
      assert p + q == p;
    } else {
      FundedAppend(p, q[..|q| - 1]);
      assert (p + q)[..|p + q| - 1] == p + q[..|q| - 1];
    }
  }

  /** Profit moved into the balance, and no other total changed. */
  predicate OnlyProfit(s: StateV, r: StateV) {
    r.balance - r.realized == s.balance - s.realized && r.funding == s.funding && r.fees == s.fees
    && r.forfeited == s.forfeited
  }

  lemma ClosingOnlyProfit(s: StateV, h: nat, onShort: bool, qty: int, price: int)
    requires h < |s.holdings|
    ensures OnlyProfit(s, Closing(s, h, onShort, qty, price))
  {
  }

  lemma OpeningOnlyProfit(s: StateV, h: nat, onShort: bool, qty: int, price: int, sign: int)
    requires h < |s.holdings|
    ensures OnlyProfit(s, Opening(s, h, onShort, qty, price, sign))
  {
  }

  lemma OneWayOnlyProfit(s: StateV, h: nat, f: Fill)
    requires h < |s.holdings|
    ensures OnlyProfit(s, FillOneWay(s, h, f))
  {
    var d, l := PositionDelta(f), s.holdings[h].long;
    var closed := Min(Abs(d), Abs(l.qty));
    ClosingOnlyProfit(s, h, false, closed, f.price);
    OpeningOnlyProfit(Closing(s, h, false, closed, f.price), h, false, Abs(d) - closed, f.price, Sign(d));
    OpeningOnlyProfit(s, h, false, Abs(d), f.price, Sign(d));
  }

  lemma FillKeepsTotals(s: StateV, f: Fill)
    ensures OnlyProfit(s, WithFill(s, f))
  {
    var h := s.IndexOf(f.instrument);
    if h < |s.holdings| {
      OneWayOnlyProfit(s, h, f);
      OpeningOnlyProfit(s, h, !OnLong(f), f.qty, f.price, if OnLong(f) then 1 else -1);
      ClosingOnlyProfit(s, h, !OnLong(f), f.qty, f.price);
    }
  }

  lemma BookFillKeepsBooks(a: Applied, h: nat, f: Fill)
    requires h < |a.kernel.state.holdings|
    ensures BooksOf(BookFill(a, h, f)) == BooksOf(a)
  {
    var s := a.kernel.state;
    FillKeepsTotals(Charged(s, s.schedule.Charge(s.holdings[h].tickCash, f)), f);
    FundedAppend(a.out, [Filled(f)]);
  }

  lemma {:induction false} BookFillsKeepBooks(a: Applied, h: nat, fs: seq<Fill>)
    requires h < |a.kernel.state.holdings|
    ensures BooksOf(BookFills(a, h, fs)) == BooksOf(a)
  {
    if fs != [] {
      BookFillsKeepBooks(a, h, fs[..|fs| - 1]);
      BookFillKeepsBooks(BookFills(a, h, fs[..|fs| - 1]), h, fs[|fs| - 1]);
    }
  }

  lemma {:induction false} CloseEachKeepsTotals(s: StateV, hs: seq<nat>, price: int)
    requires forall i :: 0 <= i < |hs| ==> hs[i] < |s.holdings|
    ensures OnlyProfit(s, CloseEach(s, hs, price).state)
    ensures forall i :: 0 <= i < |hs| ==> CloseEach(s, hs, price).out[i].Liquidated?
    decreases |hs|
  {
    if hs != [] {
      CloseEachKeepsTotals(LiquidateOne(s, hs[0], ClosingPrice(s, hs[0], price)), hs[1..], price);
    }
  }

  /** All of a liquidation's forfeit is on its last output. */
  lemma {:induction false} SettledForfeits(out: seq<Output>, forfeited: int, n: nat)
    requires forall i :: 0 <= i < |out| ==> out[i].Liquidated? && out[i].forfeited == 0
    requires n <= |out|
    ensures ForfeitedIn(Settled(out, forfeited)[..n]) == if 0 < n == |out| then forfeited else 0
    ensures FundedIn(Settled(out, forfeited)[..n]) == 0
  {
    if n > 0 {
      SettledForfeits(out, forfeited, n - 1);
      assert Settled(out, forfeited)[..n][..n - 1] == Settled(out, forfeited)[..n - 1];
    }
  }

  lemma {:induction false} CloseEachForfeitsNothing(s: StateV, hs: seq<nat>, price: int)
    requires forall i :: 0 <= i < |hs| ==> hs[i] < |s.holdings|
    ensures forall i :: 0 <= i < |hs| ==> CloseEach(s, hs, price).out[i].Liquidated? && CloseEach(s, hs, price).out[i].forfeited == 0
    decreases |hs|
  {
    if hs != [] {
      CloseEachForfeitsNothing(LiquidateOne(s, hs[0], ClosingPrice(s, hs[0], price)), hs[1..], price);
    }
  }

  /** An account with a position has something to close. */
  lemma {:induction false} SomethingCloses(hs: seq<HoldingV>, h: nat, i: nat)
    requires h <= i < |hs| && !hs[i].IsFlat()
    ensures i in ToClose(hs, h)
    decreases |hs| - h
  {
    if h < i {
      SomethingCloses(hs, h + 1, i);
    }
  }

  lemma LiquidateKeepsBooks(a: Applied, price: int)
    requires !a.kernel.state.IsFlat()
    ensures BooksOf(Applied(KernelV(Liquidate(a.kernel.state, price).state, []), a.out + Liquidate(a.kernel.state, price).out)) == BooksOf(a)
  {
    var s := a.kernel.state;
    var hs := ToClose(s.holdings, 0);
    var c := CloseEach(s, hs, price);
    CloseEachKeepsTotals(s, hs, price);
    CloseEachForfeitsNothing(s, hs, price);
    var i :| 0 <= i < |s.holdings| && !s.holdings[i].IsFlat();
    SomethingCloses(s.holdings, 0, i);
    var out := Settled(c.out, c.state.balance);
    SettledForfeits(c.out, c.state.balance, |out|);
    assert out[..|out|] == out;
    FundedAppend(a.out, out);
  }

  lemma CheckedKeepsBooks(a: Applied, mark: int)
    ensures BooksOf(Checked(a, mark)) == BooksOf(a)
  {
    if !a.kernel.state.IsFlat() {
      LiquidateKeepsBooks(a, mark);
    }
  }

  lemma OneOutput(o: Output)
    ensures FundedIn([o]) == if o.Funded? then o.amount else 0
    ensures ForfeitedIn([o]) == if o.Liquidated? then o.forfeited else 0
  {
    assert [o][..0] == [];
  }

  lemma TickKeepsBooks(k: KernelV, h: nat, t: Tick)
    requires h < |k.state.holdings|
    ensures BooksOf(OnTick(k, h, t)) == BooksOf(Applied(k, []))
  {
    var s := Marked(k.state, h, t);
    if s.matching.Venue? {
      CheckedKeepsBooks(Applied(k.(state := s), []), t.last);
    } else {
      var a := Applied(k.(state := Matched(s, h, t)), []);
      var fills := Matching.FillsOn(s.holdings[h].engine, t);
      BookFillsKeepBooks(a, h, fills);
      CheckedKeepsBooks(BookFills(a, h, fills), t.last);
    }
  }

  lemma {:induction false} AskingKeepsTotals(s: StateV, h: nat, id: nat)
    requires h <= |s.holdings|
    ensures AskedFrom(s, h, id) == s.(holdings := AskedFrom(s, h, id).holdings)
    decreases |s.holdings| - h
  {
    if h < |s.holdings| && !Matching.Holds(s.holdings[h].engine, id) {
      AskingKeepsTotals(WithdrawnFrom(s, h, id), h + 1, id);
    }
  }

  lemma FundingKeepsBooks(k: KernelV, e: Event)
    requires e.Funding?
    ensures BooksOf(OnFunding(k, e)) == BooksOf(Applied(k, []))
  {
    var s := k.state.(now := e.at);
    OneOutput(Rejected(0, UnroutableObservation));
    if Route(s, e.instrument).Some? {
      var h := Route(s, e.instrument).value;
      var amount := SettlementOf(s.holdings[h], e.rate, e.mark);
      OneOutput(Funded(amount, e.at));
      CheckedKeepsBooks(Applied(k.(state := Financed(s, amount)), [Funded(amount, e.at)]), e.mark);
    }
  }

  lemma PreparingKeepsTotals(s: StateV, f: Fill, fee: Fee)
    ensures OnlyProfit(s, FeeNoted(Fulfilled(s, f), fee)) && FeeNoted(Fulfilled(s, f), fee).balance == s.balance
  {
  }

  lemma VenueBookedKeepsBooks(k: KernelV, f: Fill, fee: Fee)
    requires k.state.holdings != []
    ensures BooksOf(VenueBooked(k, f, fee)) == BooksOf(Applied(k, []))
  {
    OneOutput(Filled(f));
    var s := FeeNoted(Fulfilled(k.state, f), fee);
    PreparingKeepsTotals(k.state, f, fee);
    FillKeepsTotals(Charged(s, FeeOf(s, f, fee)), f);
  }

  lemma VenueFillKeepsBooks(k: KernelV, f: Fill, fee: Fee)
    requires k.state.holdings != []
    ensures BooksOf(OnVenueFill(k, f, fee)) == BooksOf(Applied(k, []))
  {
    OneOutput(Rejected(f.order, NotVenueMatched));
    VenueBookedKeepsBooks(k, f, fee);
    CheckedKeepsBooks(VenueBooked(k, f, fee), f.price);
  }

  lemma SubmitKeepsBooks(k: KernelV, e: Event)
    requires e.Submit?
    ensures BooksOf(OnSubmit(k, e)) == BooksOf(Applied(k, []))
  {
    OneOutput(Rejected(e.id, NonPositiveQty));
    OneOutput(Rejected(e.id, DuplicateId));
    OneOutput(Rejected(e.id, UnroutableObservation));
    OneOutput(Rejected(e.id, NoMargin));
  }

  /** No event but a deposit moves the books. */
  lemma EventKeepsBooks(k: KernelV, e: Event)
    requires k.state.holdings != []
    ensures var b := BooksOf(Applied(k, []));
      BooksOf(Apply(k, e)) == b.(residual := b.residual + Deposited(e))
  {
    match e
    case TickSeen(instrument, t) =>
      OneOutput(Rejected(0, UnroutableObservation));
      if Route(k.state, instrument).Some? {
        TickKeepsBooks(k, Route(k.state, instrument).value, t);
      }
    case Submit(_, _, _, _, _, _, _) => SubmitKeepsBooks(k, e);
    case Cancel(id, _) =>
      OneOutput(Withdrawn(id));
      AskingKeepsTotals(k.state, 0, id);
    case Funding(_, _, _, _) => FundingKeepsBooks(k, e);
    case FundingCharged(_, _, _) =>
      OneOutput(Rejected(0, UnroutableObservation));
      OneOutput(Funded(e.amount, e.at));
    case VenueFill(f, fee) => VenueFillKeepsBooks(k, f, fee);
    case _ =>
  }

  lemma {:induction false} RunKeepsBooks(k: KernelV, es: seq<Event>)
    requires k.state.holdings != []
    ensures var b := BooksOf(Applied(k, []));
      BooksOf(Run(k, es)) == b.(residual := b.residual + Deposits(es))
  {
    if es != [] {
      RunKeepsBooks(k, es[..|es| - 1]);
      var before := Run(k, es[..|es| - 1]);
      EventKeepsBooks(before.kernel, es[|es| - 1]);
      FundedAppend(before.out, Apply(before.kernel, es[|es| - 1]).out);
    }
  }

  /** After any events the balance is the opening one plus deposits, realized profit and
      funding, less fees and forfeits, each counted from the start of the run; and the run's
      funding and forfeits are exactly what its outputs say. */
  lemma BalanceReconciles(k: KernelV, es: seq<Event>)
    requires k.state.holdings != []
    ensures var s, r := k.state, Run(k, es).kernel.state;
      r.balance == s.balance + Deposits(es) + (r.realized - s.realized) + (r.funding - s.funding)
                 - (r.fees - s.fees) - (r.forfeited - s.forfeited)
    ensures Run(k, es).kernel.state.funding == k.state.funding + FundedIn(Run(k, es).out)
    ensures Run(k, es).kernel.state.forfeited == k.state.forfeited + ForfeitedIn(Run(k, es).out)
  {
    RunKeepsBooks(k, es);
  }

  /** The final drain of every matcher keeps the books too. */
  lemma {:induction false} SettlingKeepsBooks(a: Applied, h: nat)
    requires h <= |a.kernel.state.holdings|
    ensures BooksOf(SettledTo(a, h)) == BooksOf(a)
  {
    if h > 0 {
      var b := SettledTo(a, h - 1);
      SettlingKeepsBooks(a, h - 1);
      SettledAtKeepsBooks(b, h - 1);
      assert SettledTo(a, h) == SettledAt(b, h - 1);
    }
  }

  lemma SettledAtKeepsBooks(a: Applied, h: nat)
    requires h < |a.kernel.state.holdings|
    ensures BooksOf(SettledAt(a, h)) == BooksOf(a)
  {
    var s := a.kernel.state;
    var m := s.holdings[h].engine;
    BookFillsKeepBooks(a.(kernel := a.kernel.(state := WithEngine(s, h, Matching.Drained(m)))), h, Matching.Unreported(m));
  }

  // ----- one liquidation

  /** Profit of every leg at the price its holding closes at. */
  function ClosingProfit(s: StateV, hs: seq<nat>, price: int): int
    requires forall i :: 0 <= i < |hs| ==> hs[i] < |s.holdings|
  {
    if hs == [] then 0
    else ClosingProfit(s, hs[..|hs| - 1], price) + s.holdings[hs[|hs| - 1]].UnrealizedAt(ClosingPrice(s, hs[|hs| - 1], price))
  }

  lemma {:induction false} ToCloseAscends(hs: seq<HoldingV>, h: nat)
    requires h <= |hs|
    ensures Ascending(ToClose(hs, h))
    ensures forall i :: h <= i < |hs| ==> (i in ToClose(hs, h) <==> |hs| == 1 || !hs[i].IsFlat())
    decreases |hs| - h
  {
    if h < |hs| {
      ToCloseAscends(hs, h + 1);
    }
  }

  lemma {:induction false} ProfitFirst(s: StateV, hs: seq<nat>, price: int)
    requires hs != [] && forall i :: 0 <= i < |hs| ==> hs[i] < |s.holdings|
    ensures ClosingProfit(s, hs, price)
         == s.holdings[hs[0]].UnrealizedAt(ClosingPrice(s, hs[0], price)) + ClosingProfit(s, hs[1..], price)
    decreases |hs|
  {
    if |hs| > 1 {
      ProfitFirst(s, hs[..|hs| - 1], price);
      assert hs[1..][..|hs[1..]| - 1] == hs[..|hs| - 1][1..];
    } else {
      assert hs[..0] == [] && hs[1..] == [];
    }
  }

  lemma {:induction false} ProfitElsewhere(s: StateV, r: StateV, hs: seq<nat>, price: int)
    requires |r.holdings| == |s.holdings| && forall i :: 0 <= i < |hs| ==> hs[i] < |s.holdings|
    requires forall i :: 0 <= i < |hs| ==> r.holdings[hs[i]] == s.holdings[hs[i]]
    ensures ClosingProfit(r, hs, price) == ClosingProfit(s, hs, price)
  {
    if hs != [] {
      ProfitElsewhere(s, r, hs[..|hs| - 1], price);
    }
  }

  /** Closing holdings one after another adds up the profits at the prices the liquidation
      found. */
  lemma {:induction false} ClosesAtFoundPrices(s: StateV, hs: seq<nat>, price: int)
    requires Ascending(hs) && forall i :: 0 <= i < |hs| ==> hs[i] < |s.holdings|
    ensures var r := CloseEach(s, hs, price).state;
      && r.balance == s.balance + ClosingProfit(s, hs, price) && r.realized == s.realized + ClosingProfit(s, hs, price)
      && r.fees == s.fees && r.funding == s.funding && r.forfeited == s.forfeited && r.now == s.now
    decreases |hs|
  {
    if hs != [] {
      var s1 := LiquidateOne(s, hs[0], ClosingPrice(s, hs[0], price));
      ClosesAtFoundPrices(s1, hs[1..], price);
      ProfitFirst(s, hs, price);
      ProfitElsewhere(s, s1, hs[1..], price);
    }
  }

  /** Each closed holding is flattened and no other holding is touched. */
  lemma {:induction false} ClosesOnly(s: StateV, hs: seq<nat>, price: int, h: nat)
    requires Ascending(hs) && forall i :: 0 <= i < |hs| ==> hs[i] < |s.holdings|
    requires h < |s.holdings|
    ensures CloseEach(s, hs, price).state.holdings[h] == if h in hs then Flattened(s.holdings[h]) else s.holdings[h]
    decreases |hs|
  {
    if hs != [] {
      assert hs == [hs[0]] + hs[1..];
      ClosesOnly(LiquidateOne(s, hs[0], ClosingPrice(s, hs[0], price)), hs[1..], price, h);
    }
  }

  lemma {:induction false} ClosesReported(s: StateV, hs: seq<nat>, price: int, i: nat)
    requires Ascending(hs) && forall i :: 0 <= i < |hs| ==> hs[i] < |s.holdings|
    requires i < |hs|
    ensures Reports(CloseEach(s, hs, price).out[i], s, hs[i], price)
    decreases |hs|
  {
    if i > 0 {
      ClosesReported(LiquidateOne(s, hs[0], ClosingPrice(s, hs[0], price)), hs[1..], price, i - 1);
    }
  }

  /** The output names the holding, both legs as they stood, and the price they closed at: the one
      checked where there is a single holding, else the holding's own mark, or its long leg's entry
      if it was never marked. */
  predicate Reports(o: Output, s: StateV, h: nat, price: int)
    requires h < |s.holdings|
  {
    var v := s.holdings[h];
    && o.Liquidated? && o.at == s.now && o.instrument == v.instrument
    && o.price == (if |s.holdings| == 1 then price else if v.mark != 0 then v.mark else v.long.entry)
    && o.long == v.long.qty && o.short == v.short.qty && o.qty == v.long.qty + v.short.qty
  }

  predicate NoPosition(v: HoldingV) {
    v.long.qty == 0 && v.short.qty == 0
  }

  /** A liquidation closes every open holding, leaves the balance at zero, and forfeits
      exactly what the balance and the closes at the found prices came to. */
  lemma LiquidationSettles(s: StateV, price: int)
    requires !s.IsFlat()
    ensures var r, profit := Liquidate(s, price).state, ClosingProfit(s, ToClose(s.holdings, 0), price);
      && r.IsFlat() && r.balance == 0
      && r.realized == s.realized + profit && r.forfeited == s.forfeited + s.balance + profit
      && r.fees == s.fees && r.funding == s.funding
    ensures forall h :: 0 <= h < |s.holdings| ==> NoPosition(Liquidate(s, price).state.holdings[h])
    ensures forall h :: 0 <= h < |s.holdings| ==>
      (h in ToClose(s.holdings, 0) <==> |s.holdings| == 1 || !NoPosition(s.holdings[h]))
  {
    var hs := ToClose(s.holdings, 0);
    ToCloseAscends(s.holdings, 0);
    ClosesAtFoundPrices(s, hs, price);
    var r := Liquidate(s, price).state;
    assert r.holdings == CloseEach(s, hs, price).state.holdings;
    forall h | 0 <= h < |s.holdings| ensures r.holdings[h].IsFlat() {
      ClosesOnly(s, hs, price, h);
    }
  }

  /** It reports each closed holding once, in order, with both legs and the price they closed
      at, and puts the whole forfeit on the last report. */
  lemma LiquidationReports(s: StateV, price: int, i: nat)
    requires !s.IsFlat() && i < |ToClose(s.holdings, 0)|
    ensures var hs, out := ToClose(s.holdings, 0), Liquidate(s, price).out;
      && |out| == |hs| && Ascending(hs)
      && Reports(out[i], s, hs[i], price) && out[i].equity == 0
      && out[i].forfeited == if i == |hs| - 1 then s.balance + ClosingProfit(s, hs, price) else 0
  {
    var hs := ToClose(s.holdings, 0);
    ToCloseAscends(s.holdings, 0);
    ClosesAtFoundPrices(s, hs, price);
    CloseEachForfeitsNothing(s, hs, price);
    ClosesReported(s, hs, price, i);
  }

  // ----- what it forfeits

  /** Profit of every holding from `h` on at its own mark. */
  function WorthFrom(hs: seq<HoldingV>, h: nat): int
    requires h <= |hs|
    decreases |hs| - h
  {
    if h == |hs| then 0 else hs[h].UnrealizedAt(hs[h].mark) + WorthFrom(hs, h + 1)
  }

  lemma {:induction false} WorthOfAll(hs: seq<HoldingV>, h: nat)
    requires h <= |hs|
    ensures Unrealized(hs[..h]) + WorthFrom(hs, h) == Unrealized(hs)
    decreases |hs| - h
  {
    if h == |hs| {
      assert hs[..h] == hs;
    } else {
      WorthOfAll(hs, h + 1);
      assert hs[..h + 1][..h] == hs[..h];
    }
  }

  lemma FlatIsWorthNothing(v: HoldingV, mark: int)
    requires NoPosition(v)
    ensures v.UnrealizedAt(mark) == 0 && v.IsFlat()
  {
  }

  predicate OpenAreMarked(hs: seq<HoldingV>) {
    forall h :: 0 <= h < |hs| && !NoPosition(hs[h]) ==> hs[h].mark != 0
  }

  lemma MarkedCloses(s: StateV, h: nat, rest: seq<nat>, price: int)
    requires |s.holdings| > 1 && h < |s.holdings| && s.holdings[h].mark != 0
    requires forall i :: 0 <= i < |rest| ==> rest[i] < |s.holdings|
    ensures ClosingProfit(s, [h] + rest, price) == s.holdings[h].UnrealizedAt(s.holdings[h].mark) + ClosingProfit(s, rest, price)
  {
    ProfitFirst(s, [h] + rest, price);
    assert ([h] + rest)[1..] == rest;
  }

  lemma {:induction false} ClosesAtTheMarks(s: StateV, h: nat, price: int)
    requires |s.holdings| > 1 && h <= |s.holdings| && OpenAreMarked(s.holdings)
    ensures ClosingProfit(s, ToClose(s.holdings, h), price) == WorthFrom(s.holdings, h)
    decreases |s.holdings| - h
  {
    var hs := s.holdings;
    if h < |hs| {
      ClosesAtTheMarks(s, h + 1, price);
      if NoPosition(hs[h]) {
        FlatIsWorthNothing(hs[h], hs[h].mark);
      } else {
        MarkedCloses(s, h, ToClose(hs, h + 1), price);
      }
    }
  }

  /** A liquidation forfeits the equity that was checked: the balance with the only holding's profit
      at the checked price, or with the profit of every holding at its own mark. */
  lemma LiquidationForfeitsEquity(s: StateV, price: int)
    requires !s.IsFlat()
    ensures var r := Liquidate(s, price).state;
      && (|s.holdings| == 1 ==> r.forfeited == s.forfeited + s.balance + s.holdings[0].UnrealizedAt(price))
      && (|s.holdings| > 1 && OpenAreMarked(s.holdings) ==> r.forfeited == s.forfeited + s.balance + Unrealized(s.holdings))
  {
    LiquidationSettles(s, price);
    if |s.holdings| == 1 {
      assert ToClose(s.holdings, 1) == [];
      ProfitFirst(s, [0], price);
      assert [0][1..] == [];
    } else if OpenAreMarked(s.holdings) {
      ClosesAtTheMarks(s, 0, price);
      WorthOfAll(s.holdings, 0);
    }
  }
}
