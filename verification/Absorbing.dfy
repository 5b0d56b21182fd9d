/** A liquidated account stays liquidated until it is given money, exactly when the liquidation
    left no order and no undelivered fill behind (crates/oq-core/src/kernel.rs). */
module Absorbing {
  import opened Numbers
  import opened Market
  import opened Events
  import opened Account
  import opened AccountFacts
  import opened Listing
  import opened Stages
  import opened RestingBook
  import opened WorkingList
  import L0
  import L0Facts
  import L1
  import Matching
  import Routing

  // ----- matchers with nothing to do

  predicate Idle(m: Matching.Matcher) {
    HoldsNothing(m) && Delivered(m)
  }

  lemma EmptyTick(e: L0.EngineV, t: Tick)
    requires All(e.book) == []
    ensures L0.TickFills(e, t) == [] && All(L0.Ticked(e, t).book) == []
  {
    assert |All(e.book)| == |e.book.bids| + |e.book.asks| + |e.book.marketBuys| + |e.book.marketSells|;
    assert e.book.bids == [] && e.book.asks == [] && e.book.marketBuys == [] && e.book.marketSells == [];
  }

  lemma IdleTick(m: Matching.Matcher, t: Tick)
    requires Idle(m)
    ensures Idle(Matching.Ticked(m, t)) && Matching.FillsOn(m, t) == []
  {
    match m
    case AtL0(e) => EmptyTick(e, t);
    case AtL1(v, p) =>
      assert v.(pending := []) == v;
      assert L1.BeforeMatch(v, p, t).inner == v.inner;
      EmptyTick(v.inner, t);
      assert L1.Made(v, p, L1.UNMEASURED, t) == [];
      assert v.delayed + L1.Postponed(p, [], t.stamp.exch) == [];
  }

  lemma IdleCancel(m: Matching.Matcher, id: nat)
    requires Idle(m)
    ensures !Matching.Holds(m, id) && Idle(Matching.Without(m, id))
  {
    match m
    case AtL0(e) => RemovedAbsent(e.book, id);
    case AtL1(v, _) => RemovedAbsent(v.inner.book, id);
  }

  // ----- an account with nothing to do

  /** Flat at zero, with no order and no undelivered fill in any holding. */
  ghost predicate Dormant(k: KernelV) {
    k.state.holdings != [] && k.state.matching.Simulated? && k.state.IsFlat() && k.state.balance == 0 && k.working == []
    && forall h :: 0 <= h < |k.state.holdings| ==> Idle(k.state.holdings[h].engine)
  }

  predicate BringsMoney(e: Event) {
    e.MarginDeposit? || e.FundingCharged? || e.FeeRecovered?
  }

  predicate Inert(o: Output) {
    o.Rejected?
  }

  /** Dormant still, and nothing but refusals said. */
  ghost predicate Sleeps(a: Applied) {
    Dormant(a.kernel) && forall i :: 0 <= i < |a.out| ==> Inert(a.out[i])
  }

  lemma DormantTick(k: KernelV, h: nat, t: Tick)
    requires Dormant(k) && h < |k.state.holdings|
    ensures Dormant(OnTick(k, h, t).kernel) && OnTick(k, h, t).out == []
  {
    var s := Marked(k.state, h, t);
    IdleTick(k.state.holdings[h].engine, t);
    assert Matching.FillsOn(s.holdings[h].engine, t) == [];
    var r := Matched(s, h, t);
    forall i | 0 <= i < |r.holdings| ensures r.holdings[i].IsFlat() && Idle(r.holdings[i].engine) {
      assert k.state.holdings[i].IsFlat() && Idle(k.state.holdings[i].engine);
    }
    assert r.IsFlat();
  }

  lemma {:induction false} DormantAsked(s: StateV, h: nat, id: nat)
    requires h <= |s.holdings| && forall i :: 0 <= i < |s.holdings| ==> Idle(s.holdings[i].engine)
    ensures !HeldFrom(s, h, id)
    ensures var r := AskedFrom(s, h, id);
      && r.matching == s.matching && r.balance == s.balance && (s.IsFlat() ==> r.IsFlat())
      && forall i :: 0 <= i < |r.holdings| ==> Idle(r.holdings[i].engine)
    decreases |s.holdings| - h
  {
    if h < |s.holdings| {
      IdleCancel(s.holdings[h].engine, id);
      var s1 := WithdrawnFrom(s, h, id);
      assert s.IsFlat() ==> s1.IsFlat() by {
        if s.IsFlat() {
          forall i | 0 <= i < |s1.holdings| ensures s1.holdings[i].IsFlat() {
            assert s.holdings[i].IsFlat();
          }
        }
      }
      DormantAsked(s1, h + 1, id);
      StillIdle(s, h, id);
      assert !HeldFrom(s, h + 1, id);
    }
  }

  /** Nothing is held further on either. */
  lemma {:induction false} StillIdle(s: StateV, h: nat, id: nat)
    requires h <= |s.holdings| && forall i :: 0 <= i < |s.holdings| ==> Idle(s.holdings[i].engine)
    ensures !HeldFrom(s, h, id)
    decreases |s.holdings| - h
  {
    if h < |s.holdings| {
      IdleCancel(s.holdings[h].engine, id);
      StillIdle(s, h + 1, id);
    }
  }

  lemma DormantCancel(k: KernelV, id: nat)
    requires Dormant(k)
    ensures Dormant(OnCancel(k, id).kernel) && OnCancel(k, id).out == []
  {
    DormantAsked(k.state, 0, id);
  }

  lemma DormantFunding(k: KernelV, e: Event)
    requires Dormant(k) && e.Funding?
    ensures Sleeps(OnFunding(k, e))
  {
    assert k.state.(now := e.at).IsFlat();
  }

  lemma DormantEvent(k: KernelV, e: Event)
    requires Dormant(k) && !BringsMoney(e)
    ensures Sleeps(Apply(k, e))
  {
    match e
    case TickSeen(instrument, t) =>
      if Route(k.state, instrument).Some? {
        DormantTick(k, Route(k.state, instrument).value, t);
      }
    case Cancel(id, _) => DormantCancel(k, id);
    case Funding(_, _, _, _) => DormantFunding(k, e);
    case Submit(_, _, _, _, _, _, _) =>
    case TimeAt(_) =>
    case VenueFill(_, _) =>
    case Depth(_) =>
  }

  lemma {:induction false} DormantRun(k: KernelV, es: seq<Event>)
    requires Dormant(k) && forall i :: 0 <= i < |es| ==> !BringsMoney(es[i])
    ensures Sleeps(Run(k, es))
  {
    if es != [] {
      DormantRun(k, es[..|es| - 1]);
      DormantEvent(Run(k, es[..|es| - 1]).kernel, es[|es| - 1]);
    }
  }

  // ----- a liquidation

  ghost predicate SaysLiquidated(a: Applied) {
    exists i :: 0 <= i < |a.out| && a.out[i].Liquidated?
  }

  lemma {:induction false} BookFillsOnlyFill(a: Applied, h: nat, fs: seq<Fill>)
    requires h < |a.kernel.state.holdings| && forall o :: o in a.out ==> !o.Liquidated?
    ensures forall o :: o in BookFills(a, h, fs).out ==> !o.Liquidated?
  {
    if fs != [] {
      BookFillsOnlyFill(a, h, fs[..|fs| - 1]);
    }
  }

  lemma NoneBeforeCheck(k: KernelV, e: Event)
    requires k.state.holdings != []
    ensures forall o :: o in BeforeCheck(k, e).out ==> !o.Liquidated?
  {
    match e
    case TickSeen(instrument, t) =>
      if Route(k.state, instrument).Some? {
        var h, s := Route(k.state, instrument).value, Marked(k.state, Route(k.state, instrument).value, t);
        BookFillsOnlyFill(Applied(k.(state := Matched(s, h, t)), []), h, Matching.FillsOn(s.holdings[h].engine, t));
      }
    case _ =>
  }

  /** A liquidation is reported exactly when the check closes the account. */
  lemma LiquidatedMeansClosed(k: KernelV, e: Event)
    requires k.state.holdings != [] && SaysLiquidated(Apply(k, e))
    ensures CheckedAt(k, e).Some? && Closes(BeforeCheck(k, e).kernel.state, CheckedAt(k, e).value)
    ensures var s := BeforeCheck(k, e).kernel.state;
      Apply(k, e).kernel == KernelV(Liquidate(s, CheckedAt(k, e).value).state, [])
  {
    AppliedIsChecked(k, e);
    NoneBeforeCheck(k, e);
  }

  lemma LiquidateDormantIff(s: StateV, price: int)
    requires s.matching.Simulated? && !s.IsFlat()
    ensures Dormant(KernelV(Liquidate(s, price).state, [])) <==> LeavesNothing(s)
  {
    LiquidationSettles(s, price);
    LiquidateKeepsMatching(s, ToClose(s.holdings, 0), price);
    LiquidationLeavesIff(s, price);
    forall h | 0 <= h < |s.holdings| ensures LeftIdle(s, price, h) <==> Idle(Liquidate(s, price).state.holdings[h].engine) {
    }
  }

  /** An event that reports a liquidation leaves the account dormant if and only if its check
      found nothing that the liquidation would leave behind. */
  lemma LiquidationLeavesDormantIff(k: KernelV, e: Event)
    requires k.state.holdings != [] && BeforeCheck(k, e).kernel.state.matching.Simulated? && SaysLiquidated(Apply(k, e))
    ensures Dormant(Apply(k, e).kernel) <==> LeavesNothing(BeforeCheck(k, e).kernel.state)
  {
    LiquidatedMeansClosed(k, e);
    LiquidateDormantIff(BeforeCheck(k, e).kernel.state, CheckedAt(k, e).value);
  }

  /** Liquidation is absorbing: at any tier and for any number of holdings, once an event of a
      run reports one that leaves nothing behind, every continuation without deposits, charged
      funding or recovered fees keeps the account flat at zero with nothing working, and answers
      with refusals only. */
  lemma LiquidationIsAbsorbing(k: KernelV, before: seq<Event>, e: Event, after: seq<Event>)
    requires k.state.holdings != []
    requires SaysLiquidated(Apply(Run(k, before).kernel, e))
    requires BeforeCheck(Run(k, before).kernel, e).kernel.state.matching.Simulated?
    requires LeavesNothing(BeforeCheck(Run(k, before).kernel, e).kernel.state)
    requires forall i :: 0 <= i < |after| ==> !BringsMoney(after[i])
    ensures Sleeps(Run(Apply(Run(k, before).kernel, e).kernel, after))
  {
    LiquidationLeavesDormantIff(Run(k, before).kernel, e);
    DormantRun(Apply(Run(k, before).kernel, e).kernel, after);
  }

  /** With one holding and no response latency there is never anything to leave behind. */
  lemma OneHoldingAbsorbs(k: KernelV, before: seq<Event>, e: Event, after: seq<Event>)
    requires k.state.matching.Simulated? && |k.state.holdings| == 1 && Matching.Prompt(k.state.holdings[0].engine)
    requires SaysLiquidated(Apply(Run(k, before).kernel, e))
    requires forall i :: 0 <= i < |after| ==> !BringsMoney(after[i])
    ensures Sleeps(Run(Apply(Run(k, before).kernel, e).kernel, after))
  {
    RunStaysPrompt(k, before);
    OneHoldingClears(Run(k, before).kernel, e);
    Routing.BeforeCheckOwners(Run(k, before).kernel, e);
    LiquidationIsAbsorbing(k, before, e, after);
  }

  // ----- what is left behind does act

  /** An observation that reaches an order. */
  function Reaching(o: Order): Tick {
    match o.price
    case None => Tick(o.placed, 1, 0, 0, 0, 0, 0)
    case Some(p) => Tick(o.placed, p, 0, 0, if o.side.Sell? then p else 0, if o.side.Buy? then p else 0, 0)
  }

  lemma {:induction false} BookFillsSay(a: Applied, h: nat, fs: seq<Fill>)
    requires h < |a.kernel.state.holdings|
    ensures forall f :: f in fs ==> Filled(f) in BookFills(a, h, fs).out
  {
    if fs != [] {
      var n := |fs| - 1;
      BookFillsSay(a, h, fs[..n]);
      assert fs == fs[..n] + [fs[n]];
    }
  }

  /** An order left in a flat holding fills at the next observation that reaches it, whatever the
      balance. */
  lemma LeftOrderFills(k: KernelV, h: nat, o: Order) returns (f: Fill)
    requires k.state.matching.Simulated? && h < |k.state.holdings| && k.state.holdings[h].engine.AtL0?
    requires Wf(k.state.holdings[h].engine.engine.book) && o in Orders(k.state.holdings[h].engine.engine.book)
    requires k.state.IndexOf(k.state.holdings[h].instrument) == h && (o.price.Some? ==> o.price.value > 0)
    ensures f.order == o.id && f.qty == o.qty
    ensures Filled(f) in Apply(k, TickSeen(Some(k.state.holdings[h].instrument), Reaching(o))).out
  {
    var t, e := Reaching(o), k.state.holdings[h].engine.engine;
    assert L0.Reached(o, t);
    var i := L0Facts.EveryHitIsFilled(e, t, o);
    f := Matching.FillsOn(k.state.holdings[h].engine, t)[i];
    TickSays(k, h, t, f);
  }

  lemma TickSays(k: KernelV, h: nat, t: Tick, f: Fill)
    requires k.state.matching.Simulated? && h < |k.state.holdings| && f in Matching.FillsOn(k.state.holdings[h].engine, t)
    requires k.state.IndexOf(k.state.holdings[h].instrument) == h
    ensures Filled(f) in Apply(k, TickSeen(Some(k.state.holdings[h].instrument), t)).out
  {
    var s := Marked(k.state, h, t);
    var a := Applied(k.(state := Matched(s, h, t)), []);
    BookFillsSay(a, h, Matching.FillsOn(s.holdings[h].engine, t));
    CheckedSays(BookFills(a, h, Matching.FillsOn(s.holdings[h].engine, t)), t.last, Filled(f));
  }

  lemma CheckedSays(a: Applied, mark: int, o: Output)
    requires o in a.out
    ensures o in Checked(a, mark).out
  {
  }
}
