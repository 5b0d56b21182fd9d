/** What single events do to an account, in its own fields: cash charged and recovered, fees of fills,
    marks and clock, and the answer to a submission (crates/oq-core/src/kernel.rs). */
module EventRules {
  import opened Folding
  import opened Numbers
  import opened Market
  import opened Events
  import opened Account
  import opened Stages
  import AccountFacts
  import CashFlow
  import L1
  import Listing
  import Matching
  import Routing
  import Waiting
  import WorkingList

  /** The only change is that the account gained this much cash, and these totals say why. */
  ghost predicate CashMoved(s: StateV, r: StateV, balance: int, funding: int, fees: int, at: int) {
    && r.balance == s.balance + balance && r.funding == s.funding + funding && r.fees == s.fees + fees && r.now == at
    && r.realized == s.realized && r.forfeited == s.forfeited && r.holdings == s.holdings && r.mode == s.mode
    && r.matching == s.matching && r.schedule == s.schedule && r.enforce == s.enforce
  }

  /** A charge the venue names is added as it is signed, and said. */
  lemma ChargeIsAdded(k: KernelV, instrument: Option<nat>, at: int, amount: int)
    requires k.state.holdings != []
    ensures var a, found := Apply(k, FundingCharged(instrument, at, amount)), Route(k.state, instrument).Some?;
      CashMoved(k.state, a.kernel.state, if found then amount else 0, if found then amount else 0, 0, at)
      && a.out == [if found then Funded(amount, at) else Rejected(0, UnroutableObservation)]
      && a.kernel.working == k.working
  {
    assert Route(k.state.(now := at), instrument) == Route(k.state, instrument);
  }

  /** A fee read late is taken from the balance; the run's fees are complete when none is missing. */
  lemma RecoveredFeeIsPaid(k: KernelV, at: int, amount: int, remaining: nat)
    requires k.state.holdings != []
    ensures var a := Apply(k, FeeRecovered(at, amount, remaining));
      CashMoved(k.state, a.kernel.state, 0 - amount, 0, amount, at)
      && a.kernel.state.feesCovered && (a.kernel.state.feesMissing <==> remaining > 0)
      && a.out == [] && a.kernel.working == k.working
  {
  }

  lemma DepositIsAdded(k: KernelV, amount: int, at: int)
    requires k.state.holdings != []
    ensures var a := Apply(k, MarginDeposit(amount, at));
      CashMoved(k.state, a.kernel.state, amount, 0, 0, at) && a.out == [] && a.kernel.working == k.working
  {
  }

  lemma ClockMoves(k: KernelV, at: int)
    requires k.state.holdings != []
    ensures var a := Apply(k, TimeAt(at));
      CashMoved(k.state, a.kernel.state, 0, 0, 0, at) && a.out == [] && a.kernel.working == k.working
  {
  }

  /** The list is as before without this order. */
  ghost predicate LeavesOthers(working: seq<nat>, r: seq<nat>, id: nat) {
    id !in r && exists at :: OthersAt(working, id, r, at)
  }

  // ----- the fee of a fill

  /** The fee a venue named, none if it could not be read, and the schedule's if none was said. */
  lemma VenueFeeIsPaid(k: KernelV, f: Fill, fee: Fee)
    requires k.state.holdings != [] && k.state.matching.Venue? && Routing.IsHeld(k.state, f.instrument)
    ensures var s, r := k.state, BeforeCheck(k, VenueFill(f, fee)).kernel.state;
      var paid := r.fees - s.fees;
      && (fee.Reported? ==> paid == fee.cash && r.feesCovered && r.feesMissing == s.feesMissing)
      && (fee.Unreadable? ==> paid == 0 && r.feesMissing && r.feesCovered == s.feesCovered)
      && (fee.Unsaid? ==> paid == s.schedule.Charge(s.holdings[s.IndexOf(f.instrument)].tickCash, f)
                          && r.feesMissing == s.feesMissing && r.feesCovered == s.feesCovered)
      && r.balance - r.realized == s.balance - s.realized - paid && r.now == f.stamp.exch
    ensures var b := BeforeCheck(k, VenueFill(f, fee));
      b.out == [Filled(f)] && LeavesOthers(k.working, b.kernel.working, f.order)
    ensures CheckedAt(k, VenueFill(f, fee)) == Some(f.price)
  {
    var at := OthersStay(k.working, f.order);
    var s := FeeNoted(Fulfilled(k.state, f), fee);
    Routing.FulfilledOwners(k.state, f, fee);
    Routing.OwnersRoute(k.state, s, f.instrument);
    KeptTickCash(k.state, f, fee);
    AccountFacts.FillKeepsTotals(Charged(s, FeeOf(s, f, fee)), f);
    FillKeepsFlags(Charged(s, FeeOf(s, f, fee)), f);
  }

  lemma KeptTickCash(s: StateV, f: Fill, fee: Fee)
    requires Routing.IsHeld(s, f.instrument)
    ensures var r, h := FeeNoted(Fulfilled(s, f), fee), s.IndexOf(f.instrument);
      |r.holdings| == |s.holdings| && r.holdings[h].tickCash == s.holdings[h].tickCash && r.schedule == s.schedule
      && r.fees == s.fees && r.balance == s.balance && r.realized == s.realized
  {
  }

  lemma FillKeepsFlags(s: StateV, f: Fill)
    ensures var r := WithFill(s, f); r.feesCovered == s.feesCovered && r.feesMissing == s.feesMissing && r.now == s.now
  {
  }

  /** A simulated fill pays the schedule's fee, its order leaves the list, and it is said. */
  lemma SimulatedFeeIsPaid(a: Applied, h: nat, f: Fill)
    requires h < |a.kernel.state.holdings|
    ensures var s, b := a.kernel.state, BookFill(a, h, f);
      var r, paid := b.kernel.state, s.schedule.Charge(s.holdings[h].tickCash, f);
      && r.fees == s.fees + paid && r.balance - r.realized == s.balance - s.realized - paid && r.now == s.now
      && b.out == a.out + [Filled(f)] && LeavesOthers(a.kernel.working, b.kernel.working, f.order)
  {
    var s := a.kernel.state;
    AccountFacts.FillKeepsTotals(Charged(s, s.schedule.Charge(s.holdings[h].tickCash, f)), f);
    FillKeepsFlags(Charged(s, s.schedule.Charge(s.holdings[h].tickCash, f)), f);
    var at := OthersStay(a.kernel.working, f.order);
  }

  /** The places of a list that hold anything but `id`, in order and all of them. */
  ghost predicate OthersAt(working: seq<nat>, id: nat, rest: seq<nat>, at: seq<nat>) {
    && |at| == |rest| && Ascending(at)
    && (forall i :: 0 <= i < |at| ==> at[i] < |working| && working[at[i]] == rest[i] != id)
    && (forall n: nat :: n < |working| && working[n] != id ==> n in at)
  }

  lemma OneMoreKept(working: seq<nat>, id: nat, rest: seq<nat>, at: seq<nat>, x: nat)
    requires OthersAt(working, id, rest, at)
    ensures x == id ==> OthersAt(working + [x], id, rest, at)
    ensures x != id ==> OthersAt(working + [x], id, rest + [x], at + [|working|])
  {
    var all, r := working + [x], at + [|working|];
    forall n: nat | n < |all| && all[n] != id ensures n in r && (n < |working| ==> n in at) {
      if n == |working| { assert r[|at|] == n; } else { assert working[n] != id; }
    }
  }

  /** A dropped id is gone from the list, and the others stay in their order. */
  lemma {:induction false} OthersStay(working: seq<nat>, id: nat) returns (at: seq<nat>)
    ensures OthersAt(working, id, Dropped(working, id), at) && id !in Dropped(working, id)
  {
    if working == [] {
      at := [];
    } else {
      var front, x := working[..|working| - 1], working[|working| - 1];
      at := OthersStay(front, id);
      OneMoreKept(front, id, Dropped(front, id), at, x);
      assert working == front + [x];
      if x != id {
        at := at + [|front|];
      }
    }
  }

  // ----- the mark and the clock

  lemma FillKeepsMark(s: StateV, f: Fill, h: nat)
    requires h < |s.holdings|
    ensures WithFill(s, f).holdings[h].mark == s.holdings[h].mark
  {
    var at := s.IndexOf(f.instrument);
    if at < |s.holdings| && s.mode.OneWay? {
      OneWayKeepsMark(s, at, f, h);
    }
  }

  lemma OneWayKeepsMark(s: StateV, at: nat, f: Fill, h: nat)
    requires at < |s.holdings| && h < |s.holdings|
    ensures FillOneWay(s, at, f).holdings[h].mark == s.holdings[h].mark
  {
  }

  lemma {:induction false} FillsKeepMark(a: Applied, at: nat, fs: seq<Fill>, h: nat)
    requires at < |a.kernel.state.holdings| && h < |a.kernel.state.holdings|
    ensures var r := BookFills(a, at, fs).kernel.state;
      r.holdings[h].mark == a.kernel.state.holdings[h].mark && r.now == a.kernel.state.now
  {
    if fs != [] {
      var n := |fs| - 1;
      var s := BookFills(a, at, fs[..n]).kernel.state;
      FillsKeepMark(a, at, fs[..n], h);
      var charged := Charged(s, s.schedule.Charge(s.holdings[at].tickCash, fs[n]));
      FillKeepsMark(charged, fs[n], h);
      FillKeepsFlags(charged, fs[n]);
    }
  }

  /** A tick marks the holding it reaches at its last price and no other, sets the clock, and brings
      the liquidation check at that price. */
  lemma TickMarks(k: KernelV, instrument: Option<nat>, t: Tick, h: nat, i: nat)
    requires k.state.holdings != [] && Route(k.state, instrument) == Some(h) && h < |k.state.holdings| && i < |k.state.holdings|
    ensures var r := BeforeCheck(k, TickSeen(instrument, t)).kernel.state;
      r.holdings[i].mark == (if i == h then t.last else k.state.holdings[i].mark) && r.now == t.stamp.exch
    ensures CheckedAt(k, TickSeen(instrument, t)) == Some(t.last)
  {
    var s := Marked(k.state, h, t);
    if s.matching.Simulated? {
      FillsKeepMark(Applied(k.(state := Matched(s, h, t)), []), h, Matching.FillsOn(s.holdings[h].engine, t), i);
    }
  }

  /** An observation reaches the holding it names, or, naming none, the only one. */
  lemma RouteIs(s: StateV, instrument: Option<nat>)
    ensures var r := Route(s, instrument);
      && (r.Some? ==> r.value < |s.holdings|)
      && (instrument.Some? ==>
            (r.Some? <==> exists i :: 0 <= i < |s.holdings| && s.holdings[i].instrument == instrument.value)
            && (r.Some? ==> s.holdings[r.value].instrument == instrument.value))
      && (instrument.None? ==> (r.Some? <==> |s.holdings| == 1) && (r.Some? ==> r.value == 0))
  {
  }

  // ----- what is turned away

  /** An observation that reaches no holding is refused, and moves nothing but, for funding, the clock; so is a fill
      reported to an account that does its own matching. Funding of a flat holding says nothing. */
  lemma TurnedAway(k: KernelV, e: Event)
    requires k.state.holdings != []
    ensures e.TickSeen? && Route(k.state, e.instrument).None? ==> Apply(k, e) == Applied(k, [Rejected(0, UnroutableObservation)])
    ensures e.Funding? ==>
      var h, moved := Route(k.state, e.instrument), k.(state := k.state.(now := e.at));
      && (h.None? ==> Apply(k, e) == Applied(moved, [Rejected(0, UnroutableObservation)]))
      && (h.Some? && AccountFacts.NoPosition(k.state.holdings[h.value]) ==> Apply(k, e) == Applied(moved, []))
    ensures e.VenueFill? && k.state.matching.Simulated? ==>
      Apply(k, e) == Applied(k, [Rejected(e.fill.order, NotVenueMatched)])
    ensures e.Depth? ==> Apply(k, e) == Applied(k, [])
  {
    if e.Funding? {
      assert Route(k.state.(now := e.at), e.instrument) == Route(k.state, e.instrument);
    }
  }

  // ----- the answer to a submission

  /** What keeps a submission out, the first that applies. */
  predicate KeptOut(k: KernelV, e: Event, reason: RejectReason)
    requires e.Submit?
  {
    match reason
    case NonPositiveQty => e.qty <= 0
    case DuplicateId => e.qty > 0 && e.id in k.working
    case UnroutableObservation => e.qty > 0 && e.id !in k.working && Route(k.state, e.instrument).None?
    case NoMargin => e.qty > 0 && e.id !in k.working && Route(k.state, e.instrument).Some? && k.state.balance <= 0
    case NotVenueMatched => false
  }

  /** A submission is refused, changing nothing, for the first thing that keeps it out; if nothing does
      it joins the working list and its matcher has it, and nothing is said. */
  lemma SubmissionAnswered(k: KernelV, e: Event)
    requires k.state.holdings != [] && e.Submit?
    ensures var a := Apply(k, e);
      (a.kernel == k && |a.out| == 1 && a.out[0].Rejected? && a.out[0].id == e.id && KeptOut(k, e, a.out[0].reason))
      || ((forall reason: RejectReason :: !KeptOut(k, e, reason)) && a.out == [] && a.kernel.working == k.working + [e.id])
  {
  }

  /** An accepted order is the matcher's own from then on: with the id, side, price, size and offset it
      was sent with. */
  lemma AcceptedOrderIsListed(k: KernelV, e: Event, h: nat)
    requires k.state.holdings != [] && e.Submit? && Route(k.state, e.instrument) == Some(h) && h < |k.state.holdings|
    requires e.qty > 0 && e.id !in k.working && k.state.balance > 0
    requires Listing.Tidy(k.state.holdings[h].engine) && e.id !in Listing.Listed(k.state.holdings[h].engine)
    ensures var r := Apply(k, e).kernel.state;
      Listing.Listed(r.holdings[h].engine) == Listing.Listed(k.state.holdings[h].engine) + {e.id}
      && forall i :: 0 <= i < |r.holdings| && i != h ==> r.holdings[i] == k.state.holdings[i]
    ensures Listing.OrdersIn(Apply(k, e).kernel.state.holdings[h].engine)
         == Listing.OrdersIn(k.state.holdings[h].engine) + {Order(e.id, e.side, e.price, e.qty, e.offset, e.stamp)}
  {
    Listing.SubmittedListed(k.state.holdings[h].engine, Order(e.id, e.side, e.price, e.qty, e.offset, e.stamp), e.stamp.local);
  }

  /** An order accepted where entry is delayed is on its way from the order's own local time, behind the policy's
      assumption and no measurement. */
  lemma AcceptedOrderIsTimed(k: KernelV, e: Event, h: nat)
    requires k.state.holdings != [] && e.Submit? && Route(k.state, e.instrument) == Some(h) && h < |k.state.holdings|
    requires e.qty > 0 && e.id !in k.working && k.state.balance > 0
    requires k.state.holdings[h].engine.AtL1? && !Waiting.NoDelay(k.state.holdings[h].engine.policy.entry)
    requires L1.WfL1(k.state.holdings[h].engine.tier) && e.id !in L1.HeldIds(k.state.holdings[h].engine.tier)
    ensures var m, r := k.state.holdings[h].engine, Apply(k, e).kernel.state.holdings[h].engine;
      && r.AtL1? && r.policy == m.policy && |r.tier.pending| == |m.tier.pending| + 1
      && var x := r.tier.pending[|m.tier.pending|];
         x.order == Order(e.id, e.side, e.price, e.qty, e.offset, e.stamp) && x.ahead.None? && x.since.None?
         && x.liveAt == Clamp64(e.stamp.local + m.policy.entry.At(m.policy.draw(e.id)))
  {
    var m, o := k.state.holdings[h].engine, Order(e.id, e.side, e.price, e.qty, e.offset, e.stamp);
    var n := Waiting.SubmittedWaits(m.tier, m.policy, o, e.stamp.local, None, false);
  }

  // ----- the answer to a cancel

  /** The first matcher that has the order gives it up, and the account is otherwise as it was. */
  ghost predicate GivesUp(s: StateV, r: StateV, id: nat, h: nat) {
    && h < |s.holdings| && Matching.Holds(s.holdings[h].engine, id)
    && (forall i :: 0 <= i < h ==> !Matching.Holds(s.holdings[i].engine, id))
    && r == WithEngine(s, h, Matching.Without(s.holdings[h].engine, id))
  }

  lemma AskedInVain(s: StateV, h: nat, id: nat)
    requires h < |s.holdings| && Listing.Tidy(s.holdings[h].engine) && !Matching.Holds(s.holdings[h].engine, id)
    ensures WithdrawnFrom(s, h, id) == s
  {
    Listing.WithdrawnListed(s.holdings[h].engine, id);
    assert s.holdings[h := s.holdings[h]] == s.holdings;
  }

  /** The matcher of holding `i` does not have the order. */
  ghost predicate Misses(s: StateV, id: nat, i: nat)
    requires i < |s.holdings|
  {
    !Matching.Holds(s.holdings[i].engine, id) && Listing.Tidy(s.holdings[i].engine)
  }

  lemma {:induction false} FirstHolder(s: StateV, h: nat, id: nat) returns (i: nat)
    requires h <= |s.holdings|
    ensures HeldFrom(s, h, id) ==> h <= i < |s.holdings| && Matching.Holds(s.holdings[i].engine, id)
    ensures !HeldFrom(s, h, id) ==> i == |s.holdings|
    ensures forall j :: h <= j < i ==> !Matching.Holds(s.holdings[j].engine, id)
    decreases |s.holdings| - h
  {
    i := h;
    if h < |s.holdings| && !Matching.Holds(s.holdings[h].engine, id) {
      i := FirstHolder(s, h + 1, id);
    }
  }

  lemma AskedPast(s: StateV, h: nat, id: nat)
    requires h < |s.holdings| && Misses(s, id, h)
    ensures AskedFrom(s, h, id) == AskedFrom(s, h + 1, id)
  {
    AskedInVain(s, h, id);
  }

  /** Asking starts, in effect, at holding `i`; folded. */
  ghost predicate AskedOnlyFrom(s: StateV, id: nat, i: nat) {
    forall k {:trigger Seal(k)} :: Seal(k) && i <= |s.holdings| ==> AskedFrom(s, 0, id) == AskedFrom(s, i, id)
  }

  lemma AskedOneFurther(s: StateV, id: nat, i: nat)
    requires i < |s.holdings| && Misses(s, id, i) && AskedOnlyFrom(s, id, i)
    ensures AskedOnlyFrom(s, id, i + 1)
  {
    assert Seal(0);
    AskedPast(s, i, id);
  }

  lemma {:induction false} AskedUpTo(s: StateV, id: nat, i: nat)
    requires i <= |s.holdings| && forall j :: 0 <= j < i ==> Misses(s, id, j)
    ensures AskedOnlyFrom(s, id, i)
  {
    if i > 0 {
      var m: nat := i - 1;
      AskedUpTo(s, id, m);
      assert Misses(s, id, m);
      AskedOneFurther(s, id, m);
    }
  }

  /** A cancel takes the order from the first matcher that has it, says so, and strikes it from the working list; if
      none has it nothing happens and nothing is said. */
  lemma CancelAnswered(k: KernelV, id: nat, stamp: Stamp)
    requires k.state.holdings != [] && forall i :: 0 <= i < |k.state.holdings| ==> Listing.Tidy(k.state.holdings[i].engine)
    ensures var a := Apply(k, Cancel(id, stamp));
      if exists i :: 0 <= i < |k.state.holdings| && Matching.Holds(k.state.holdings[i].engine, id)
      then a.out == [Withdrawn(id)] && LeavesOthers(k.working, a.kernel.working, id)
           && exists i: nat :: GivesUp(k.state, a.kernel.state, id, i)
      else a == Applied(k, [])
  {
    var i := FirstHolder(k.state, 0, id);
    assert forall j :: 0 <= j < i ==> Misses(k.state, id, j);
    AskedUpTo(k.state, id, i);
    assert Seal(0);
    var at := OthersStay(k.working, id);
    if i < |k.state.holdings| {
      assert GivesUp(k.state, AskedFrom(k.state, 0, id), id, i);
    }
  }

  // ----- the check

  /** Some holding has a position. */
  predicate Exposed(s: StateV) {
    exists h :: 0 <= h < |s.holdings| && !AccountFacts.NoPosition(s.holdings[h])
  }

  lemma ExposedIsNotFlat(s: StateV)
    ensures Exposed(s) <==> !s.IsFlat()
  {
    forall h | 0 <= h < |s.holdings| ensures AccountFacts.NoPosition(s.holdings[h]) <==> s.holdings[h].IsFlat() {
    }
  }

  /** An event that ends with a check closes the account exactly when liquidation is enforced, something is held, and
      the account is due at the price of the check; then nothing works any more and the notices come last. */
  lemma CheckEndsIff(k: KernelV, e: Event)
    requires k.state.holdings != [] && CheckedAt(k, e).Some?
    ensures var b, a, mark := BeforeCheck(k, e), Apply(k, e), CheckedAt(k, e).value;
      if b.kernel.state.enforce && Exposed(b.kernel.state) && Liquidatable(b.kernel.state, mark)
      then !Exposed(a.kernel.state) && a.kernel.state.balance == 0 && a.kernel.working == []
           && |a.out| > |b.out| && a.out[..|b.out|] == b.out && forall i :: |b.out| <= i < |a.out| ==> a.out[i].Liquidated?
      else a == b
  {
    var b, mark := BeforeCheck(k, e), CheckedAt(k, e).value;
    var s := b.kernel.state;
    AppliedIsChecked(k, e);
    ExposedIsNotFlat(s);
    if s.enforce && !s.IsFlat() && Liquidatable(s, mark) {
      NoticesOf(s, mark);
      ExposedIsNotFlat(Liquidate(s, mark).state);
    }
  }

  lemma NoticesOf(s: StateV, mark: int)
    requires !s.IsFlat()
    ensures var c := Liquidate(s, mark);
      c.out != [] && c.state.IsFlat() && c.state.balance == 0 && forall i :: 0 <= i < |c.out| ==> c.out[i].Liquidated?
  {
    var hs, out := ToClose(s.holdings, 0), Liquidate(s, mark).out;
    AccountFacts.LiquidationSettles(s, mark);
    forall i | 0 <= i < |hs| ensures |out| == |hs| && out[i].Liquidated? {
      AccountFacts.LiquidationReports(s, mark, i);
    }
    var h :| 0 <= h < |s.holdings| && !s.holdings[h].IsFlat();
    assert h in hs;
  }

  // ----- the end of a run

  function FilledEach(fs: seq<Fill>): (out: seq<Output>)
    ensures |out| == |fs|
  {
    seq(|fs|, i requires 0 <= i < |fs| => Filled(fs[i]))
  }

  lemma Joined(a: seq<Output>, b: seq<Output>, c: seq<Output>)
    ensures a + b + c == a + (b + c)
  {
  }

  lemma SaidTogether(fs: seq<Fill>)
    requires fs != []
    ensures FilledEach(fs) == FilledEach(fs[..|fs| - 1]) + [Filled(fs[|fs| - 1])]
  {
  }

  lemma BookedOneMore(a: Applied, h: nat, fs: seq<Fill>)
    requires h < |a.kernel.state.holdings| && fs != []
    ensures BookFills(a, h, fs).out == BookFills(a, h, fs[..|fs| - 1]).out + [Filled(fs[|fs| - 1])]
  {
  }

  lemma {:induction false} BookingSays(a: Applied, h: nat, fs: seq<Fill>)
    requires h < |a.kernel.state.holdings|
    ensures BookFills(a, h, fs).out == a.out + FilledEach(fs)
  {
    if fs == [] {
      assert a.out + FilledEach([]) == a.out;
    } else {
      var n := |fs| - 1;
      BookingSays(a, h, fs[..n]);
      BookedOneMore(a, h, fs);
      SaidTogether(fs);
      Joined(a.out, FilledEach(fs[..n]), [Filled(fs[n])]);
    }
  }

  lemma {:induction false} BookingKeepsEngine(a: Applied, h: nat, fs: seq<Fill>, i: nat)
    requires h < |a.kernel.state.holdings| && i < |a.kernel.state.holdings|
    ensures BookFills(a, h, fs).kernel.state.holdings[i].engine == a.kernel.state.holdings[i].engine
  {
    if fs != [] {
      var n := |fs| - 1;
      BookingKeepsEngine(a, h, fs[..n], i);
      var s := BookFills(a, h, fs[..n]).kernel.state;
      WorkingList.FillKeepsEngines(Charged(s, s.schedule.Charge(s.holdings[h].tickCash, fs[n])), fs[n], i);
    }
  }

  /** What the matchers of the first `n` holdings still hold back, holding by holding. */
  function HeldBack(hs: seq<HoldingV>, n: nat): seq<Output>
    requires n <= |hs|
  {
    if n == 0 then [] else HeldBack(hs, n - 1) + FilledEach(Matching.Unreported(hs[n - 1].engine))
  }

  /** From one account to the other, holding `h` has handed over what its matcher held back. */
  ghost predicate HandsOver(a: Applied, r: Applied, h: nat)
    requires h < |a.kernel.state.holdings|
  {
    var hs, gs := a.kernel.state.holdings, r.kernel.state.holdings;
    && |gs| == |hs| && r.out == a.out + FilledEach(Matching.Unreported(hs[h].engine))
    && forall i :: 0 <= i < |hs| ==> gs[i].engine == if i == h then Matching.Drained(hs[i].engine) else hs[i].engine
  }

  lemma OneHoldingSettles(a: Applied, h: nat)
    requires h < |a.kernel.state.holdings|
    ensures HandsOver(a, SettledAt(a, h), h)
  {
    var s, r := a.kernel.state, SettledAt(a, h);
    var m := s.holdings[h].engine;
    var b := a.(kernel := a.kernel.(state := WithEngine(s, h, Matching.Drained(m))));
    BookingSays(b, h, Matching.Unreported(m));
    forall i | 0 <= i < |s.holdings|
      ensures r.kernel.state.holdings[i].engine == if i == h then Matching.Drained(s.holdings[i].engine) else s.holdings[i].engine
    {
      BookingKeepsEngine(b, h, Matching.Unreported(m), i);
    }
  }

  /** The first `n` holdings have handed over. */
  ghost predicate HandedOver(a: Applied, r: Applied, n: nat)
    requires n <= |a.kernel.state.holdings|
  {
    var hs, gs := a.kernel.state.holdings, r.kernel.state.holdings;
    && |gs| == |hs| && r.out == a.out + HeldBack(hs, n)
    && forall i :: 0 <= i < |hs| ==> gs[i].engine == if i < n then Matching.Drained(hs[i].engine) else hs[i].engine
  }

  lemma OneMoreHandsOver(a: Applied, b: Applied, r: Applied, n: nat)
    requires n < |a.kernel.state.holdings| && HandedOver(a, b, n) && HandsOver(b, r, n)
    ensures HandedOver(a, r, n + 1)
  {
    var hs := a.kernel.state.holdings;
    assert HeldBack(hs, n + 1) == HeldBack(hs, n) + FilledEach(Matching.Unreported(hs[n].engine));
    Joined(a.out, HeldBack(hs, n), FilledEach(Matching.Unreported(hs[n].engine)));
  }

  /** `HandedOver` by the end of the first `n` settlements; folded. */
  ghost predicate Settling(a: Applied, n: nat) {
    forall k {:trigger Seal(k)} :: Seal(k) && n <= |a.kernel.state.holdings| ==> HandedOver(a, SettledTo(a, n), n)
  }

  lemma SettlingStep(a: Applied, n: nat)
    requires n < |a.kernel.state.holdings| && Settling(a, n)
    ensures Settling(a, n + 1)
  {
    assert Seal(0);
    CashFlow.SettledStep(a, n);
    var b, r := SettledTo(a, n), SettledTo(a, n + 1);
    OneHoldingSettles(b, n);
    OneMoreHandsOver(a, b, r, n);
  }

  lemma {:induction false} SettlingHandsOver(a: Applied, n: nat)
    requires n <= |a.kernel.state.holdings|
    ensures Settling(a, n)
  {
    if n > 0 {
      var m: nat := n - 1;
      SettlingHandsOver(a, m);
      SettlingStep(a, m);
    } else {
      assert a.out + [] == a.out;
    }
  }

  /** The end of a run reports every fill a matcher still holds back, once, holding by holding, and leaves none. */
  lemma NothingStaysUnreported(a: Applied)
    ensures var hs, r := a.kernel.state.holdings, SettledTo(a, |a.kernel.state.holdings|);
      r.out == a.out + HeldBack(hs, |hs|) && forall i :: 0 <= i < |hs| ==> Matching.Unreported(r.kernel.state.holdings[i].engine) == []
  {
    SettlingHandsOver(a, |a.kernel.state.holdings|);
    assert Seal(0);
  }
}
