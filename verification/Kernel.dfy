/** The kernel itself: holdings, account and kernel as objects edited step by step, proved to
    compute the account's declared steps (crates/oq-core/src/kernel.rs). */
module Kernel {
  import opened Folding
  import opened Numbers
  import opened Cost
  import opened Ledger
  import opened Market
  import opened Events
  import opened Account
  import AccountFacts
  import Routing
  import Matching

  class Holding {
    const instrument: nat
    const tickCash: int
    const table: TierTable
    var engine: Matching.Matcher
    var qty: int
    var entry: int
    var shortQty: int
    var shortEntry: int
    var mark: int
    var longCost: EntryCost
    var shortCost: EntryCost

    ghost function View(): HoldingV
      reads this
    {
      HoldingV(instrument, tickCash, table, engine, Leg(qty, entry, longCost), Leg(shortQty, shortEntry, shortCost), mark)
    }

    constructor (instrument: nat, tickCash: int, table: TierTable)
      ensures View() == NewHolding(instrument, tickCash, table)
    {
      this.instrument, this.tickCash, this.table := instrument, tickCash, table;
      engine := Matching.NewMatcher(instrument);
      qty, entry, shortQty, shortEntry, mark := 0, 0, 0, 0, 0;
      longCost, shortCost := NO_COST, NO_COST;
    }

    /** The cost of a leg before display rounding. */
    method CostOf(short: bool) returns (cost: int)
      ensures cost == LegCost(tickCash, if short then View().short else View().long)
    {
      cost := if short then shortCost.Value(tickCash, shortQty, shortEntry) else longCost.Value(tickCash, qty, entry);
    }

    method OpenLeg(short: bool, lots: int, price: int, sign: int)
      modifies this`qty, this`entry, this`longCost, this`shortQty, this`shortEntry, this`shortCost
      ensures View() == old(View()).Open(short, lots, price, sign)
    {
      if lots == 0 {
        return;
      }
      var held := if short then shortQty else qty;
      var cost := CostOf(short);
      var size := Abs(held) + lots;
      var value := cost + Notional(tickCash, price, lots);
      var denominator := size * tickCash;
      var average := if denominator > 0 then Clamp64(TruncDiv(value, denominator)) else price;
      var total := sign * size;
      if short {
        shortQty, shortEntry, shortCost := total, average, EntryCost(total, average, value);
      } else {
        qty, entry, longCost := total, average, EntryCost(total, average, value);
      }
    }

    method CloseLeg(short: bool, lots: int, price: int) returns (pnl: int)
      modifies this`qty, this`entry, this`longCost, this`shortQty, this`shortEntry, this`shortCost
      ensures View() == old(View()).Close(short, lots, price)
      ensures pnl == old(View()).CloseProfit(short, lots, price)
    {
      var held, shown := if short then shortQty else qty, if short then shortEntry else entry;
      var cost := CostOf(short);
      if held == 0 {
        return 0;
      }
      var closing := Min(lots, Abs(held));
      var exit := Notional(tickCash, price, closing);
      var value := Remaining(cost, held, closing, exit);
      pnl := Profit(cost, held, closing, exit);
      var left := held - closing * SignOf(held);
      shown := if left == 0 then 0 else shown;
      if short {
        shortQty, shortEntry, shortCost := left, shown, EntryCost(left, shown, value);
      } else {
        qty, entry, longCost := left, shown, EntryCost(left, shown, value);
      }
    }

    method Unrealized(at: int) returns (pnl: int)
      ensures pnl == View().UnrealizedAt(at)
    {
      pnl := LegWorth(tickCash, Leg(qty, entry, longCost), at) + LegWorth(tickCash, Leg(shortQty, shortEntry, shortCost), at);
    }

    method MaintenanceNow() returns (required: int)
      ensures required == View().Maintenance()
    {
      var long := if qty == 0 then 0 else Required(table, tickCash, mark, qty);
      var short := if shortQty == 0 then 0 else Required(table, tickCash, mark, shortQty);
      required := long + short;
    }

    method Clear()
      modifies this
      ensures View() == Flattened(old(View()))
    {
      qty, entry, shortQty, shortEntry := 0, 0, 0, 0;
      longCost, shortCost := NO_COST, NO_COST;
      engine := Matching.Emptied(engine);
    }
  }

  ghost function Views(hs: seq<Holding>): (vs: seq<HoldingV>)
    reads hs
    ensures |vs| == |hs|
    ensures forall i :: 0 <= i < |hs| ==> vs[i] == hs[i].View()
  {
    if hs == [] then [] else Views(hs[..|hs| - 1]) + [hs[|hs| - 1].View()]
  }

  class State {
    const holdings: seq<Holding>
    const mode: PositionMode
    const schedule: Fees
    const enforce: bool
    const matching: Fillers
    var balance: int
    var realized: int
    var funding: int
    var fees: int
    var feesCovered: bool
    var feesMissing: bool
    var now: int
    var forfeited: int

    ghost predicate Valid() {
      holdings != [] && forall i, j :: 0 <= i < j < |holdings| ==> holdings[i] != holdings[j]
    }

    ghost function View(): StateV
      reads this, holdings
    {
      StateV(Views(holdings), mode, balance, realized, funding, fees, schedule, feesCovered, feesMissing, now, enforce,
             matching, forfeited)
    }

    /** A fresh account over holdings no one else names. */
    constructor (holdings: seq<Holding>, mode: PositionMode, schedule: Fees, covered: bool, enforce: bool,
                 matching: Fillers, opening: int)
      requires holdings != [] && forall i, j :: 0 <= i < j < |holdings| ==> holdings[i] != holdings[j]
      ensures Valid() && this.holdings == holdings
      ensures View() == StateV(Views(holdings), mode, opening, 0, 0, 0, schedule, covered, false, 0, enforce, matching, 0)
    {
      this.holdings, this.mode, this.schedule, this.enforce, this.matching := holdings, mode, schedule, enforce, matching;
      balance, realized, funding, fees, now, forfeited := opening, 0, 0, 0, 0, 0;
      feesCovered, feesMissing := covered, false;
    }

    method HoldingIndex(instrument: nat) returns (h: nat)
      ensures h == View().IndexOf(instrument)
    {
      h := 0;
      while h < |holdings| && holdings[h].instrument != instrument
        invariant h <= |holdings|
        invariant forall i :: 0 <= i < h ==> Views(holdings)[i].instrument != instrument
      {
        h := h + 1;
      }
    }

    method Credit(amount: int)
      modifies this`balance
      ensures View() == old(View()).(balance := old(balance) + amount)
    {
      balance := balance + amount;
    }

    method Open(h: nat, short: bool, lots: int, price: int, sign: int)
      requires Valid() && h < |holdings|
      modifies holdings[h]
      ensures View() == Opening(old(View()), h, short, lots, price, sign)
    {
      holdings[h].OpenLeg(short, lots, price, sign);
      assert Views(holdings) == old(Views(holdings))[h := holdings[h].View()];
    }

    /** Profit taken moves both the running total and the cash. */
    method Realize(pnl: int)
      modifies this`realized, this`balance
      ensures View() == old(View()).Book(pnl)
    {
      realized := realized + pnl;
      Credit(pnl);
    }

    method Shrink(h: nat, short: bool, lots: int, price: int) returns (pnl: int)
      requires Valid() && h < |holdings|
      modifies holdings[h]
      ensures View() == old(View()).Put(h, old(View()).holdings[h].Close(short, lots, price))
      ensures pnl == old(View()).holdings[h].CloseProfit(short, lots, price)
    {
      pnl := holdings[h].CloseLeg(short, lots, price);
      assert Views(holdings) == old(Views(holdings))[h := holdings[h].View()];
    }

    method Close(h: nat, short: bool, lots: int, price: int)
      requires Valid() && h < |holdings|
      modifies this`realized, this`balance, holdings[h]
      ensures View() == Closing(old(View()), h, short, lots, price)
    {
      var pnl := Shrink(h, short, lots, price);
      Realize(pnl);
    }

    method ApplyFill(f: Fill)
      requires Valid() && Routing.IsHeld(View(), f.instrument)
      modifies this`realized, this`balance, holdings
      ensures View() == WithFill(old(View()), f)
    {
      var h := HoldingIndex(f.instrument);
      if mode.Hedge? {
        ApplyFillHedged(h, f);
        return;
      }
      ApplyFillNet(h, f);
    }

    method ApplyFillNet(h: nat, f: Fill)
      requires Valid() && h < |holdings|
      modifies this`realized, this`balance, holdings[h]
      ensures View() == FillOneWay(old(View()), h, f)
    {
      var signed := PositionDelta(f);
      var held := holdings[h].qty;
      var reduces := held != 0 && (held > 0) != (signed > 0);
      assert reduces == Reduces(old(View()).holdings[h].long, signed);
      if reduces {
        var closed := Min(Abs(signed), Abs(held));
        Close(h, false, closed, f.price);
        var remainder := Abs(signed) - closed;
        if remainder > 0 {
          Open(h, false, remainder, f.price, Sign(signed));
        }
      } else {
        Open(h, false, Abs(signed), f.price, Sign(signed));
      }
    }

    method ApplyFillHedged(h: nat, f: Fill)
      requires Valid() && h < |holdings|
      modifies this`realized, this`balance, holdings[h]
      ensures View() == FillHedged(old(View()), h, f)
    {
      var opens := f.offset.Open?;
      var longLeg := match (f.side, opens)
        case (Buy, true) => true
        case (Sell, false) => true
        case _ => false;
      if opens {
        Open(h, !longLeg, f.qty, f.price, if longLeg then 1 else -1);
        return;
      }
      Close(h, !longLeg, f.qty, f.price);
    }

    method AllFlat() returns (flat: bool)
      ensures flat == View().IsFlat()
    {
      var h := 0;
      while h < |holdings|
        invariant 0 <= h <= |holdings|
        invariant forall i :: 0 <= i < h ==> Views(holdings)[i].IsFlat()
      {
        if holdings[h].qty != 0 || holdings[h].shortQty != 0 {
          assert !Views(holdings)[h].IsFlat();
          return false;
        }
        h := h + 1;
      }
      return true;
    }

    method UnrealizedNow() returns (total: int)
      ensures total == Unrealized(Views(holdings))
    {
      total := 0;
      var h := 0;
      while h < |holdings|
        invariant 0 <= h <= |holdings| && total == Unrealized(Views(holdings)[..h])
      {
        assert Views(holdings)[..h + 1][..h] == Views(holdings)[..h];
        var pnl := holdings[h].Unrealized(holdings[h].mark);
        total := total + pnl;
        h := h + 1;
      }
      assert Views(holdings)[..h] == Views(holdings);
    }

    method MaintenanceNow() returns (total: int)
      ensures total == Maintenance(Views(holdings))
    {
      total := 0;
      var h := 0;
      while h < |holdings|
        invariant 0 <= h <= |holdings| && total == Maintenance(Views(holdings)[..h])
      {
        assert Views(holdings)[..h + 1][..h] == Views(holdings)[..h];
        var required := holdings[h].MaintenanceNow();
        total := total + required;
        h := h + 1;
      }
      assert Views(holdings)[..h] == Views(holdings);
    }

    /** The answer is the declared one: summed equity against summed requirements in hedge mode or
        with several holdings, and the single position at the given price otherwise. */
    method IsLiquidatable(at: int) returns (yes: bool)
      requires Valid()
      ensures yes == Liquidatable(View(), at)
    {
      if mode.Hedge? || |holdings| > 1 {
        var profit := UnrealizedNow();
        var required := MaintenanceNow();
        yes := balance + profit <= required;
      } else {
        var v := holdings[0];
        yes := v.qty != 0 &&
          balance + LegWorth(v.tickCash, Leg(v.qty, v.entry, v.longCost), at) <= Required(v.table, v.tickCash, at, v.qty);
      }
    }

    method ClearAt(h: nat)
      requires Valid() && h < |holdings|
      modifies holdings[h]
      ensures View() == old(View()).Put(h, Flattened(old(View()).holdings[h]))
    {
      holdings[h].Clear();
      assert Views(holdings) == old(Views(holdings))[h := holdings[h].View()];
    }

    method LiquidateHolding(h: nat, price: int) returns (o: Output)
      requires Valid() && h < |holdings|
      modifies this`realized, this`balance, holdings[h]
      ensures View() == LiquidateOne(old(View()), h, price)
      ensures o == Notice(old(View()), h, price)
    {
      ghost var s := View();
      assert holdings[h].View() == s.holdings[h];
      var pnl := holdings[h].Unrealized(price);
      Realize(pnl);
      o := Closure(h, price);
      ClearAt(h);
      BookCommutes(s, h, Flattened(s.holdings[h]), pnl);
    }

    /** What a closed holding is reported as: both legs, and the balance as it now stands. */
    method Closure(h: nat, price: int) returns (o: Output)
      requires h < |holdings|
      ensures var v := View().holdings[h];
        o == Liquidated(now, price, v.long.qty + v.short.qty, balance, 0, v.instrument, v.long.qty, v.short.qty)
    {
      var v := holdings[h];
      assert v.View() == View().holdings[h];
      o := Liquidated(now, price, v.qty + v.shortQty, balance, 0, v.instrument, v.qty, v.shortQty);
    }

    /** Close one of several holdings at its own last price. */
    method LiquidateAtMark(h: nat, price: int) returns (o: Output)
      requires Valid() && h < |holdings| && |holdings| > 1
      modifies this`realized, this`balance, holdings[h]
      ensures View() == LiquidateOne(old(View()), h, ClosingPrice(old(View()), h, price))
      ensures o == Notice(old(View()), h, ClosingPrice(old(View()), h, price))
    {
      var at := if holdings[h].mark == 0 then holdings[h].entry else holdings[h].mark;
      assert holdings[h].View() == View().holdings[h];
      o := LiquidateHolding(h, at);
    }

    method OpenHoldings() returns (hs: seq<nat>)
      requires |holdings| > 1
      ensures hs == ToClose(Views(holdings), 0)
    {
      hs := [];
      var h := |holdings|;
      while h > 0
        invariant 0 <= h <= |holdings| && hs == ToClose(Views(holdings), h)
      {
        h := h - 1;
        if !(holdings[h].qty == 0 && holdings[h].shortQty == 0) {
          hs := [h] + hs;
        }
      }
    }

    method CloseAll(price: int) returns (out: seq<Output>)
      requires Valid()
      modifies this`realized, this`balance, holdings
      ensures View() == CloseEach(old(View()), ToClose(old(View()).holdings, 0), price).state
      ensures out == CloseEach(old(View()), ToClose(old(View()).holdings, 0), price).out
    {
      if |holdings| == 1 {
        OnlyOne(View(), price);
        var o := LiquidateHolding(0, price);
        return [o];
      }
      out := CloseSeveral(price);
    }

    method CloseSeveral(price: int) returns (out: seq<Output>)
      requires Valid() && |holdings| > 1
      modifies this`realized, this`balance, holdings
      ensures View() == CloseEach(old(View()), ToClose(old(View()).holdings, 0), price).state
      ensures out == CloseEach(old(View()), ToClose(old(View()).holdings, 0), price).out
    {
      ghost var c := CloseEach(View(), ToClose(View().holdings, 0), price);
      var open := OpenHoldings();
      out := [];
      var i := 0;
      StartClosing(View(), open, price);
      while i < |open|
        invariant 0 <= i <= |open|
        invariant ClosingOut(c, price, out, View(), open, i)
      {
        CloseNext(c, price, out, View(), open, i);
        var o := LiquidateAtMark(open[i], price);
        out := out + [o];
        i := i + 1;
      }
      DoneClosing(c, price, out, View(), open, i);
    }

    /** Leaves the account, and says the outputs, of the declared liquidation. */
    method Liquidate(price: int) returns (out: seq<Output>)
      requires Valid()
      modifies this`realized, this`balance, this`forfeited, holdings
      ensures View() == Account.Liquidate(old(View()), price).state
      ensures out == Account.Liquidate(old(View()), price).out
    {
      var closed := CloseAll(price);
      var kept := balance;
      balance := balance + (0 - kept);
      forfeited := forfeited + kept;
      out := SettleOutputs(closed, balance, kept);
    }

    static method SettleOutputs(closed: seq<Output>, equity: int, kept: int) returns (out: seq<Output>)
      requires equity == 0
      ensures out == Settled(closed, kept)
    {
      out := closed;
      var i := 0;
      while i < |out|
        invariant 0 <= i <= |out| == |closed|
        invariant forall j :: 0 <= j < i ==> out[j] == if closed[j].Liquidated? then closed[j].(equity := 0) else closed[j]
        invariant forall j :: i <= j < |out| ==> out[j] == closed[j]
      {
        if out[i].Liquidated? {
          out := out[i := out[i].(equity := equity)];
        }
        i := i + 1;
      }
      if out != [] && out[|out| - 1].Liquidated? {
        out := out[|out| - 1 := out[|out| - 1].(forfeited := kept)];
      }
    }

    method SetMark(h: nat, price: int)
      requires Valid() && h < |holdings|
      modifies holdings[h]
      ensures View() == WithMark(old(View()), h, price)
    {
      holdings[h].mark := price;
      assert Views(holdings) == old(Views(holdings))[h := holdings[h].View()];
    }

    method SetEngine(h: nat, m: Matching.Matcher)
      requires Valid() && h < |holdings|
      modifies holdings[h]
      ensures View() == WithEngine(old(View()), h, m)
    {
      holdings[h].engine := m;
      assert Views(holdings) == old(Views(holdings))[h := holdings[h].View()];
    }
  }

  lemma BookCommutes(s: StateV, h: nat, v: HoldingV, pnl: int)
    requires h < |s.holdings|
    ensures s.Book(pnl).Put(h, v) == s.Put(h, v).Book(pnl)
  {
  }

  lemma OnlyOne(s: StateV, price: int)
    requires |s.holdings| == 1
    ensures ToClose(s.holdings, 0) == [0]
    ensures CloseEach(s, [0], price) == Closed(LiquidateOne(s, 0, price), [Notice(s, 0, price)])
  {
    assert ToClose(s.holdings, 1) == [];
    CloseStep(s, [0], [], price);
  }

  class Kernel {
    const state: State
    var outputs: seq<Output>
    var working: seq<nat>

    ghost predicate Valid() {
      state.Valid()
    }

    ghost function View(): KernelV
      reads this, state, state.holdings
    {
      KernelV(state.View(), working)
    }

    /** The kernel and what it has said about the event in hand. */
    ghost function Progress(): Applied
      reads this, state, state.holdings
    {
      Applied(View(), outputs)
    }

    constructor (state: State)
      requires state.Valid()
      ensures Valid() && this.state == state
      ensures Progress() == Applied(KernelV(state.View(), []), [])
    {
      this.state, outputs, working := state, [], [];
    }

    method Push(o: Output)
      modifies this`outputs
      ensures Progress() == old(Progress()).Emit(o)
    {
      outputs := outputs + [o];
    }

    /** Keep every working id but this one. */
    method Retire(id: nat)
      modifies this`working
      ensures View() == KernelV(old(View()).state, Dropped(old(working), id))
    {
      var kept: seq<nat> := [];
      var i := 0;
      while i < |working|
        invariant 0 <= i <= |working| && kept == Dropped(working[..i], id)
      {
        assert working[..i + 1][..i] == working[..i];
        if working[i] != id {
          kept := kept + [working[i]];
        }
        i := i + 1;
      }
      assert working[..i] == working;
      working := kept;
    }

    method RouteTo(instrument: Option<nat>) returns (h: Option<nat>)
      ensures h == Route(View().state, instrument)
    {
      match instrument
      case Some(id) =>
        var i := state.HoldingIndex(id);
        h := if i < |state.holdings| then Some(i) else None;
      case None => h := if |state.holdings| == 1 then Some(0) else None;
    }

    method CheckLiquidation(mark: int)
      requires Valid()
      modifies this`outputs, this`working, state, state.holdings
      ensures Progress() == Checked(old(Progress()), mark)
    {
      var flat := state.AllFlat();
      if !state.enforce || flat {
        return;
      }
      var liquidatable := state.IsLiquidatable(mark);
      if liquidatable {
        CloseAccount(mark);
      }
    }

    method CloseAccount(mark: int)
      requires Valid()
      modifies this`outputs, this`working, state, state.holdings
      ensures var c := Account.Liquidate(old(View()).state, mark);
        Progress() == Applied(KernelV(c.state, []), old(outputs) + c.out)
    {
      var out := state.Liquidate(mark);
      working := [];
      outputs := outputs + out;
    }

    method SetNow(at: int)
      modifies state
      ensures View() == old(View()).(state := old(View()).state.(now := at))
    {
      state.now := at;
    }

    method ChargeFee(fee: int)
      modifies state
      ensures View() == old(View()).(state := Charged(old(View()).state, fee))
    {
      state.fees := state.fees + fee;
      state.Credit(0 - fee);
    }

    method BookFillHere(h: nat, f: Fill)
      requires Valid() && h < |state.holdings| && Routing.IsHeld(state.View(), f.instrument)
      modifies this`outputs, this`working, state, state.holdings
      ensures Progress() == BookFill(old(Progress()), h, f)
    {
      assert state.holdings[h].tickCash == state.View().holdings[h].tickCash;
      var fee := state.schedule.Charge(state.holdings[h].tickCash, f);
      FillCharged(f, fee);
      Retire(f.order);
      Push(Filled(f));
    }

    /** The fee leaves the account, then the fill moves its holding. */
    method FillCharged(f: Fill, fee: int)
      requires Valid() && Routing.IsHeld(state.View(), f.instrument)
      modifies state, state.holdings
      ensures View() == old(View()).(state := WithFill(Charged(old(View()).state, fee), f))
    {
      ChargeFee(fee);
      Routing.OwnersRoute(old(View()).state, View().state, f.instrument);
      state.ApplyFill(f);
    }

    /** The loop leaves the kernel where folding the declared booking over the fills does. */
    method BookFills(h: nat, fills: seq<Fill>)
      requires Valid() && h < |state.holdings|
      requires forall i :: 0 <= i < |fills| ==> Routing.IsHeld(state.View(), fills[i].instrument)
      modifies this`outputs, this`working, state, state.holdings
      ensures Progress() == Account.BookFills(old(Progress()), h, fills)
    {
      ghost var start := Progress();
      var i := 0;
      while i < |fills|
        invariant 0 <= i <= |fills|
        invariant Progress() == Account.BookFills(start, h, fills[..i])
      {
        assert fills[..i + 1][..i] == fills[..i];
        Routing.BookFillsOwners(start, h, fills[..i]);
        Routing.OwnersRoute(start.kernel.state, state.View(), fills[i].instrument);
        BookFillHere(h, fills[i]);
        i := i + 1;
      }
      assert fills[..i] == fills;
    }

    method OnTick(h: nat, t: Tick)
      requires Valid() && h < |state.holdings| && Routing.Named(state.View()) && outputs == []
      modifies this`outputs, this`working, state, state.holdings
      ensures Progress() == Account.OnTick(old(View()), h, t)
    {
      ghost var k := View();
      SetNow(t.stamp.exch);
      state.SetMark(h, t.last);
      if state.matching.Venue? {
        CheckLiquidation(t.last);
        return;
      }
      var engine := state.holdings[h].engine;
      assert engine == Marked(k.state, h, t).holdings[h].engine;
      var fills := Matching.FillsOn(engine, t);
      state.SetEngine(h, Matching.Ticked(engine, t));
      FillsAreHeld(k.state, state.View(), h, t);
      BookFills(h, fills);
      CheckLiquidation(t.last);
    }

    method Place(h: nat, o: Order, now: int)
      requires Valid() && h < |state.holdings|
      modifies this`working, state.holdings
      ensures View() == KernelV(Placed(old(View()).state, h, o, now), old(working) + [o.id])
    {
      assert state.holdings[h].View() == View().state.holdings[h];
      state.SetEngine(h, Matching.Submitted(state.holdings[h].engine, o, now));
      working := working + [o.id];
    }

    method OnSubmit(e: Event)
      requires Valid() && e.Submit? && outputs == []
      modifies this`outputs, this`working, state, state.holdings
      ensures Progress() == Account.OnSubmit(old(View()), e)
    {
      var h := RouteTo(e.instrument);
      if e.qty <= 0 {
        Push(Rejected(e.id, NonPositiveQty));
      } else if e.id in working {
        Push(Rejected(e.id, DuplicateId));
      } else if h.None? {
        Push(Rejected(e.id, UnroutableObservation));
      } else if state.balance <= 0 {
        Push(Rejected(e.id, NoMargin));
      } else {
        Place(h.value, Order(e.id, e.side, e.price, e.qty, e.offset, e.stamp), e.stamp.local);
      }
    }

    method WithdrawFrom(h: nat, id: nat) returns (had: bool)
      requires Valid() && h < |state.holdings|
      modifies state.holdings
      ensures had == Matching.Holds(old(View()).state.holdings[h].engine, id)
      ensures View() == old(View()).(state := WithdrawnFrom(old(View()).state, h, id))
    {
      assert state.holdings[h].View() == View().state.holdings[h];
      had := Matching.Holds(state.holdings[h].engine, id);
      state.SetEngine(h, Matching.Without(state.holdings[h].engine, id));
    }

    method OnCancel(id: nat)
      requires Valid() && outputs == []
      modifies this`outputs, this`working, state.holdings
      ensures Progress() == Account.OnCancel(old(View()), id)
    {
      var cancelled := AskEach(id);
      if cancelled {
        Retire(id);
        Push(Withdrawn(id));
      }
    }

    /** A cancel over the holdings in order; a later one is asked only if no earlier one knew the id. */
    method AskEach(id: nat) returns (cancelled: bool)
      requires Valid()
      modifies state.holdings
      ensures cancelled == HeldFrom(old(View()).state, 0, id)
      ensures View() == old(View()).(state := AskedFrom(old(View()).state, 0, id))
    {
      ghost var k := View();
      var h := 0;
      cancelled := false;
      while h < |state.holdings| && !cancelled
        invariant 0 <= h <= |state.holdings|
        invariant HeldFrom(k.state, 0, id) == (cancelled || HeldFrom(View().state, h, id))
        invariant AskedFrom(k.state, 0, id) == if cancelled then View().state else AskedFrom(View().state, h, id)
        invariant working == k.working
        decreases |state.holdings| - h, !cancelled
      {
        AskStep(View().state, h, id);
        cancelled := WithdrawFrom(h, id);
        if !cancelled {
          h := h + 1;
        }
      }
    }

    method OnFunding(e: Event)
      requires Valid() && e.Funding? && outputs == []
      modifies this`outputs, this`working, state, state.holdings
      ensures Progress() == Account.OnFunding(old(View()), e)
    {
      SetNow(e.at);
      var h := RouteTo(e.instrument);
      if h.None? {
        Push(Rejected(0, UnroutableObservation));
        return;
      }
      SettleOn(h.value, e.at, e.rate, e.mark);
    }

    method SettleOn(h: nat, at: int, rate: int, mark: int)
      requires Valid() && h < |state.holdings| && outputs == []
      modifies this`outputs, this`working, state, state.holdings
      ensures Progress() == SettledOn(old(View()), h, at, rate, mark)
    {
      var open, amount := Settle(h, rate, mark);
      if open {
        PayFunding(amount, at);
        CheckLiquidation(mark);
      }
    }

    method PayFunding(amount: int, at: int)
      requires Valid() && outputs == []
      modifies this`outputs, state
      ensures var k := old(View());
        Progress() == Applied(k.(state := Financed(k.state, amount)), [Funded(amount, at)])
    {
      Finance(amount);
      Push(Funded(amount, at));
    }

    /** What both legs of a holding settle for, if it has any. */
    method Settle(h: nat, rate: int, mark: int) returns (open: bool, amount: int)
      requires h < |state.holdings|
      ensures open == !View().state.holdings[h].IsFlat() && amount == SettlementOf(View().state.holdings[h], rate, mark)
    {
      var v := state.holdings[h];
      assert v.View() == View().state.holdings[h];
      open := !(v.qty == 0 && v.shortQty == 0);
      var long := if v.qty == 0 then 0 else Settlement(v.tickCash, rate, mark, v.qty);
      var short := if v.shortQty == 0 then 0 else Settlement(v.tickCash, rate, mark, v.shortQty);
      amount := long + short;
    }

    method Finance(amount: int)
      modifies state
      ensures View() == old(View()).(state := Financed(old(View()).state, amount))
    {
      state.Credit(amount);
      state.funding := state.funding + amount;
    }

    method OnFundingCharged(e: Event)
      requires Valid() && e.FundingCharged? && outputs == []
      modifies this`outputs, state
      ensures Progress() == Account.OnFundingCharged(old(View()), e)
    {
      SetNow(e.at);
      var h := RouteTo(e.instrument);
      if h.None? {
        Push(Rejected(0, UnroutableObservation));
        return;
      }
      PayFunding(e.amount, e.at);
    }

    method Fulfil(f: Fill)
      requires Valid()
      modifies this`working, state, state.holdings
      ensures View() == KernelV(Fulfilled(old(View()).state, f), Dropped(old(working), f.order))
    {
      SetNow(f.stamp.exch);
      var h := state.HoldingIndex(f.instrument);
      if h < |state.holdings| {
        var _ := WithdrawFrom(h, f.order);
      }
      Retire(f.order);
    }

    method NoteFee(f: Fill, reported: Fee) returns (fee: int)
      requires Valid()
      modifies state
      ensures View() == old(View()).(state := FeeNoted(old(View()).state, reported))
      ensures fee == FeeOf(View().state, f, reported)
    {
      match reported
      case Reported(cash) =>
        state.feesCovered := true;
        fee := cash;
      case Unreadable =>
        state.feesMissing := true;
        fee := 0;
      case Unsaid =>
        var h := state.HoldingIndex(f.instrument);
        var at := if h < |state.holdings| then h else 0;
        assert state.holdings[at].View() == View().state.holdings[at];
        fee := state.schedule.Charge(state.holdings[at].tickCash, f);
    }

    method OnVenueFill(f: Fill, reported: Fee)
      requires Valid() && outputs == [] && Routing.Presentable(state.View(), VenueFill(f, reported))
      modifies this`outputs, this`working, state, state.holdings
      ensures Progress() == Account.OnVenueFill(old(View()), f, reported)
    {
      if !state.matching.Venue? {
        Push(Rejected(f.order, NotVenueMatched));
        return;
      }
      BookVenueFill(f, reported);
      CheckLiquidation(f.price);
    }

    method BookVenueFill(f: Fill, reported: Fee)
      requires Valid() && outputs == [] && Routing.IsHeld(state.View(), f.instrument)
      modifies this`outputs, this`working, state, state.holdings
      ensures Progress() == VenueBooked(old(View()), f, reported)
    {
      ghost var k := View();
      Fulfil(f);
      var fee := NoteFee(f, reported);
      Routing.FulfilledOwners(k.state, f, reported);
      Routing.OwnersRoute(k.state, View().state, f.instrument);
      FillCharged(f, fee);
      Push(Filled(f));
    }

    /** One event leaves the declared state and outputs, moves the residual of the books by a
        deposit and by nothing else, and accounts for funding and forfeits by its outputs. */
    method Apply(e: Event)
      requires Valid() && Routing.Named(state.View()) && Routing.Presentable(state.View(), e)
      modifies this`outputs, this`working, state, state.holdings
      ensures Progress() == Account.Apply(old(View()), e)
      ensures Routing.Named(state.View())
      ensures Residual() == old(Residual()) + AccountFacts.Deposited(e)
      ensures state.funding == old(state.funding) + AccountFacts.FundedIn(outputs)
      ensures state.forfeited == old(state.forfeited) + AccountFacts.ForfeitedIn(outputs)
    {
      ghost var k := View();
      outputs := [];
      Dispatch(e);
      EventMovesBooks(k, e, Progress());
      Routing.ApplyOwners(k, e);
      Routing.OwnersNamed(k.state, View().state);
    }

    /** What no event but a deposit moves: the balance less everything that explains it. */
    ghost function Residual(): int
      reads this, state
    {
      state.balance - state.realized - state.funding + state.fees + state.forfeited
    }

    /** Leaves the kernel where settling the holdings one after another is declared to. */
    method SettleUnreported()
      requires Valid() && Routing.Named(state.View())
      modifies this`outputs, this`working, state, state.holdings
      ensures Progress() == SettledTo(Applied(old(View()), []), |state.holdings|)
      ensures Routing.Named(state.View())
    {
      ghost var start := Applied(View(), []);
      NothingSettled(start);
      outputs := [];
      assert Progress() == start;
      SettleEach(start);
      AllSettled(start, Progress(), |state.holdings|);
    }

    method SettleEach(ghost start: Applied)
      requires Valid() && Settling(start, Progress(), 0)
      modifies this`outputs, this`working, state, state.holdings
      ensures Settling(start, Progress(), |state.holdings|)
    {
      var h := 0;
      while h < |state.holdings|
        invariant 0 <= h <= |state.holdings| && Settling(start, Progress(), h)
      {
        SettleNext(h, start);
        h := h + 1;
      }
      assert h == |state.holdings|;
    }

    method SettleNext(h: nat, ghost start: Applied)
      requires Valid() && h < |state.holdings| && Settling(start, Progress(), h)
      modifies this`outputs, this`working, state, state.holdings
      ensures Settling(start, Progress(), h + 1)
    {
      ghost var a := Progress();
      AllSettled(start, a, h);
      SettleHolding(h);
      SettlesNext(start, a, h);
      assert Progress() == SettledAt(a, h);
    }

    method SettleHolding(h: nat)
      requires Valid() && Routing.Named(state.View()) && h < |state.holdings|
      modifies this`outputs, this`working, state, state.holdings
      ensures Progress() == SettledAt(old(Progress()), h)
    {
      ghost var a := Progress();
      var engine := state.holdings[h].engine;
      assert engine == a.kernel.state.holdings[h].engine;
      state.SetEngine(h, Matching.Drained(engine));
      UnreportedAreHeld(a.kernel.state, h);
      BookFills(h, Matching.Unreported(engine));
    }

    method Dispatch(e: Event)
      requires Valid() && Routing.Named(state.View()) && Routing.Presentable(state.View(), e) && outputs == []
      modifies this`outputs, this`working, state, state.holdings
      ensures Progress() == Account.Apply(old(View()), e)
    {
      match e
      case TickSeen(instrument, t) => OnObservation(instrument, t);
      case Submit(_, _, _, _, _, _, _) => OnSubmit(e);
      case Cancel(id, _) => OnCancel(id);
      case Funding(_, _, _, _) => OnFunding(e);
      case FundingCharged(_, _, _) => OnFundingCharged(e);
      case TimeAt(at) => state.now := at;
      case FeeRecovered(at, amount, remainingMissing) => OnFeeRecovered(at, amount, remainingMissing);
      case MarginDeposit(amount, at) =>
        state.now := at;
        state.Credit(amount);
      case VenueFill(f, fee) => OnVenueFill(f, fee);
      case Depth(_) =>
    }

    method OnObservation(instrument: Option<nat>, t: Tick)
      requires Valid() && Routing.Named(state.View()) && outputs == []
      modifies this`outputs, this`working, state, state.holdings
      ensures Progress() == OnTickSeen(old(View()), instrument, t)
    {
      var h := RouteTo(instrument);
      match h
      case Some(i) => OnTick(i, t);
      case None => Push(Rejected(0, UnroutableObservation));
    }

    method OnFeeRecovered(at: int, amount: int, remainingMissing: nat)
      requires Valid() && outputs == []
      modifies state
      ensures Progress() == Account.Apply(old(View()), FeeRecovered(at, amount, remainingMissing))
    {
      SetNow(at);
      ChargeFee(amount);
      state.feesCovered := true;
      state.feesMissing := remainingMissing != 0;
    }
  }

  lemma EventMovesBooks(k: KernelV, e: Event, a: Applied)
    requires k.state.holdings != [] && a == Account.Apply(k, e)
    ensures var s, r := k.state, a.kernel.state;
      && r.balance - r.realized - r.funding + r.fees + r.forfeited
           == s.balance - s.realized - s.funding + s.fees + s.forfeited + AccountFacts.Deposited(e)
      && r.funding == s.funding + AccountFacts.FundedIn(a.out) && r.forfeited == s.forfeited + AccountFacts.ForfeitedIn(a.out)
  {
    AccountFacts.EventKeepsBooks(k, e);
  }

  lemma {:induction false} HeldBeyond(s: StateV, r: StateV, h: nat, id: nat)
    requires h <= |s.holdings| == |r.holdings|
    requires forall i :: h <= i < |s.holdings| ==> r.holdings[i] == s.holdings[i]
    ensures HeldFrom(r, h, id) == HeldFrom(s, h, id)
    decreases |s.holdings| - h
  {
    if h < |s.holdings| {
      HeldBeyond(s, r, h + 1, id);
    }
  }

  lemma AskStep(s: StateV, h: nat, id: nat)
    requires h < |s.holdings|
    ensures var had, r := Matching.Holds(s.holdings[h].engine, id), WithdrawnFrom(s, h, id);
      && AskedFrom(s, h, id) == (if had then r else AskedFrom(r, h + 1, id))
      && HeldFrom(s, h, id) == (had || HeldFrom(r, h + 1, id))
  {
    HeldBeyond(s, WithdrawnFrom(s, h, id), h + 1, id);
  }

  /** The first `h` holdings have settled; folded. */
  ghost predicate Settling(start: Applied, now: Applied, h: nat) {
    forall k {:trigger Seal(k)} :: Seal(k) ==>
      h <= |start.kernel.state.holdings| && now == SettledTo(start, h) && Routing.Named(now.kernel.state)
  }

  lemma NothingSettled(start: Applied)
    requires Routing.Named(start.kernel.state)
    ensures Settling(start, start, 0)
  {
  }

  lemma SettlesNext(start: Applied, a: Applied, h: nat)
    requires Settling(start, a, h) && h < |a.kernel.state.holdings|
    ensures Settling(start, SettledAt(a, h), h + 1)
  {
    assert Seal(0);
    SettledStaysNamed(a, h);
  }

  lemma AllSettled(start: Applied, a: Applied, h: nat)
    requires Settling(start, a, h)
    ensures Routing.Named(a.kernel.state) && h <= |start.kernel.state.holdings| && a == SettledTo(start, h)
  {
    assert Seal(0);
  }

  lemma UnreportedAreHeld(s: StateV, h: nat)
    requires h < |s.holdings| && Routing.Named(s)
    ensures var m := s.holdings[h].engine; var r := WithEngine(s, h, Matching.Drained(m));
      Routing.Named(r) && forall i :: 0 <= i < |Matching.Unreported(m)| ==> Routing.IsHeld(r, Matching.Unreported(m)[i].instrument)
  {
    var v := s.holdings[h];
    assert Routing.Own(v);
    Routing.UnreportedOwn(v.engine, v.instrument);
    Routing.EngineOwners(s, h, Matching.Drained(v.engine));
    Routing.OwnersNamed(s, WithEngine(s, h, Matching.Drained(v.engine)));
    assert WithEngine(s, h, Matching.Drained(v.engine)).holdings[h].instrument == v.instrument;
  }

  lemma SettledStaysNamed(a: Applied, h: nat)
    requires h < |a.kernel.state.holdings| && Routing.Named(a.kernel.state)
    ensures Routing.Named(SettledAt(a, h).kernel.state)
  {
    var s := a.kernel.state;
    var m := s.holdings[h].engine;
    UnreportedAreHeld(s, h);
    var b := a.(kernel := a.kernel.(state := WithEngine(s, h, Matching.Drained(m))));
    Routing.BookFillsOwners(b, h, Matching.Unreported(m));
    Routing.OwnersNamed(b.kernel.state, SettledAt(a, h).kernel.state);
  }

  /** What a matcher releases on a tick names the holding that owns it. */
  lemma FillsAreHeld(s: StateV, r: StateV, h: nat, t: Tick)
    requires h < |s.holdings| && Routing.Named(s) && r == Matched(Marked(s, h, t), h, t)
    ensures var fills := Matching.FillsOn(s.holdings[h].engine, t);
      forall i :: 0 <= i < |fills| ==> Routing.IsHeld(r, fills[i].instrument)
  {
    var v := s.holdings[h];
    assert Routing.Own(v);
    Routing.TickedOwn(v.engine, v.instrument, t);
    assert r.holdings[h].instrument == v.instrument;
  }

  /** The outputs already emitted, ahead of what is still to come. */
  ghost function After(out: seq<Output>, c: Closed): Closed {
    Closed(c.state, out + c.out)
  }

  /** Closing the holdings from the `i`th on completes the whole; folded. */
  ghost predicate ClosingOut(whole: Closed, price: int, out: seq<Output>, now: StateV, open: seq<nat>, i: nat) {
    forall k {:trigger Clasp(k)} :: Clasp(k) ==>
      && i <= |open| && (forall j :: 0 <= j < |open| ==> open[j] < |now.holdings|)
      && whole == After(out, CloseEach(now, open[i..], price))
  }

  lemma StartClosing(s: StateV, open: seq<nat>, price: int)
    requires forall j :: 0 <= j < |open| ==> open[j] < |s.holdings|
    ensures ClosingOut(CloseEach(s, open, price), price, [], s, open, 0)
  {
    assert open[0..] == open;
  }

  lemma CloseNext(whole: Closed, price: int, out: seq<Output>, now: StateV, open: seq<nat>, i: nat)
    requires ClosingOut(whole, price, out, now, open, i) && i < |open|
    ensures open[i] < |now.holdings|
    ensures var at := ClosingPrice(now, open[i], price);
      ClosingOut(whole, price, out + [Notice(now, open[i], at)], LiquidateOne(now, open[i], at), open, i + 1)
  {
    assert Clasp(0);
    CloseStep(now, open[i..], out, price);
    assert open[i..][1..] == open[i + 1..];
  }

  lemma DoneClosing(whole: Closed, price: int, out: seq<Output>, now: StateV, open: seq<nat>, i: nat)
    requires ClosingOut(whole, price, out, now, open, i) && i == |open|
    ensures whole == Closed(now, out)
  {
    assert Clasp(0);
    assert open[i..] == [];
  }

  lemma CloseStep(s: StateV, hs: seq<nat>, out: seq<Output>, price: int)
    requires hs != [] && forall i :: 0 <= i < |hs| ==> hs[i] < |s.holdings|
    ensures var at := ClosingPrice(s, hs[0], price);
      After(out, CloseEach(s, hs, price))
        == After(out + [Notice(s, hs[0], at)], CloseEach(LiquidateOne(s, hs[0], at), hs[1..], price))
  {
  }
}
