/** Fills reach the holding they name: a matcher only ever fills its own instrument
    (crates/oq-core/src/kernel.rs). */
module Routing {
  import opened Numbers
  import opened Market
  import opened Events
  import opened Account
  import opened Stages
  import L0
  import L1
  import Matching

  predicate IsHeld(s: StateV, instrument: nat) {
    s.IndexOf(instrument) < |s.holdings|
  }

  /** Fills of one instrument. */
  function Names(instrument: nat): Fill -> bool {
    (f: Fill) => f.instrument == instrument
  }

  /** Fills of a size an engine can make. */
  function Positive(): Fill -> bool {
    (f: Fill) => f.qty > 0
  }

  ghost predicate DelayedAre(ds: seq<L1.Delayed>, keeps: Fill -> bool) {
    forall i :: 0 <= i < |ds| ==> keeps(ds[i].fill.fill)
  }

  ghost predicate FillsAre(fs: seq<L0Fill>, keeps: Fill -> bool) {
    forall i :: 0 <= i < |fs| ==> keeps(fs[i].fill)
  }

  /** Every fill the matcher could release names this instrument. */
  ghost predicate FillsOnly(m: Matching.Matcher, instrument: nat) {
    match m
    case AtL0(e) => e.instrument == instrument
    case AtL1(v, _) => v.inner.instrument == instrument && DelayedAre(v.delayed, Names(instrument))
  }

  /** Every fill the matcher holds back has a positive size. */
  ghost predicate BackSized(m: Matching.Matcher) {
    m.AtL1? ==> DelayedAre(m.tier.delayed, Positive())
  }

  ghost predicate HeldBackSized(s: StateV) {
    forall h :: 0 <= h < |s.holdings| ==> BackSized(s.holdings[h].engine)
  }

  ghost predicate Own(v: HoldingV) {
    FillsOnly(v.engine, v.instrument)
  }

  ghost predicate Named(s: StateV) {
    forall h :: 0 <= h < |s.holdings| ==> Own(s.holdings[h])
  }

  /** An event the kernel can be given: a venue fill must name a holding, or the source
      stops. */
  predicate Presentable(s: StateV, e: Event) {
    e.VenueFill? && s.matching.Venue? ==> IsHeld(s, e.fill.instrument)
  }

  // ----- matchers

  lemma {:induction false} ReadyKeeps(ds: seq<L1.Delayed>, now: int, keeps: Fill -> bool)
    requires DelayedAre(ds, keeps)
    ensures FillsAre(L1.Ready(ds, now), keeps) && DelayedAre(L1.HeldBack(ds, now), keeps)
  {
    if ds != [] {
      ReadyKeeps(ds[1..], now, keeps);
    }
  }

  /** What holds of the delayed fills and of those the book makes, whatever their price, holds
      of everything released and of everything still delayed. */
  lemma ReleasedKeeps(v: L1.L1V, p: L1.Policy, t: Tick, keeps: Fill -> bool)
    requires DelayedAre(v.delayed, keeps) && FillsAre(L0.TickFills(L1.BeforeMatch(v, p, t).inner, t), keeps)
    requires forall f: Fill, x: int :: keeps(f) ==> keeps(f.(price := x))
    ensures FillsAre(L1.Released(v, p, L1.UNMEASURED, t), keeps)
    ensures DelayedAre(L1.L1Ticked(v, p, L1.UNMEASURED, t).delayed, keeps)
  {
    var produced, made := L0.TickFills(L1.BeforeMatch(v, p, t).inner, t), L1.Made(v, p, L1.UNMEASURED, t);
    forall i | 0 <= i < |made| ensures keeps(made[i].fill) {
      assert made[i].fill == produced[i].fill.(price := made[i].fill.price);
    }
    var ds := v.delayed + L1.Postponed(p, made, t.stamp.exch);
    assert DelayedAre(ds, keeps);
    ReadyKeeps(ds, t.stamp.exch, keeps);
  }

  lemma ReleasedOwn(v: L1.L1V, p: L1.Policy, t: Tick, instrument: nat)
    requires v.inner.instrument == instrument && DelayedAre(v.delayed, Names(instrument))
    ensures FillsAre(L1.Released(v, p, L1.UNMEASURED, t), Names(instrument))
    ensures L1.L1Ticked(v, p, L1.UNMEASURED, t).inner.instrument == instrument
    ensures DelayedAre(L1.L1Ticked(v, p, L1.UNMEASURED, t).delayed, Names(instrument))
  {
    AdmittedKeepsOwner(v.(pending := L1.InFlight(v.pending, t.stamp.exch)), p, L1.Arriving(v.pending, t.stamp.exch), L1.Traded(v.prevVolume, t));
    ReleasedKeeps(v, p, t, Names(instrument));
  }

  lemma {:induction false} AdmittedKeepsOwner(v: L1.L1V, p: L1.Policy, s: seq<L1.Pending>, traded: int)
    ensures L1.AdmittedAll(v, p, s, traded).inner.instrument == v.inner.instrument
    ensures L1.AdmittedAll(v, p, s, traded).delayed == v.delayed
    decreases |s|
  {
    if s != [] {
      AdmittedKeepsOwner(L1.Admitted(v, p, s[0].order, Some(traded), s[0].ahead, s[0].since), p, s[1..], traded);
    }
  }

  lemma TickedOwn(m: Matching.Matcher, instrument: nat, t: Tick)
    requires FillsOnly(m, instrument)
    ensures FillsOnly(Matching.Ticked(m, t), instrument)
    ensures forall i :: 0 <= i < |Matching.FillsOn(m, t)| ==> Matching.FillsOn(m, t)[i].instrument == instrument
  {
    match m
    case AtL0(e) => assert FillsAre(L0.TickFills(e, t), Names(instrument));
    case AtL1(v, p) => ReleasedOwn(v, p, t, instrument);
  }

  /** An engine fills whole orders, and an order has a positive size. */
  lemma EngineFillsSized(e: L0.EngineV, t: Tick)
    ensures FillsAre(L0.TickFills(e, t), Positive())
  {
  }

  lemma TickedSized(m: Matching.Matcher, t: Tick)
    requires BackSized(m)
    ensures BackSized(Matching.Ticked(m, t))
    ensures forall i :: 0 <= i < |Matching.FillsOn(m, t)| ==> Matching.FillsOn(m, t)[i].qty > 0
  {
    match m
    case AtL0(e) => EngineFillsSized(e, t);
    case AtL1(v, p) =>
      EngineFillsSized(L1.BeforeMatch(v, p, t).inner, t);
      ReleasedKeeps(v, p, t, Positive());
  }

  lemma {:induction false} PutKeeps(d: L1.Delayed, ds: seq<L1.Delayed>, keeps: Fill -> bool)
    requires keeps(d.fill.fill) && DelayedAre(ds, keeps)
    ensures DelayedAre(L1.PutByKnown(d, ds), keeps)
  {
    if ds != [] && d.knownAt > ds[0].knownAt {
      PutKeeps(d, ds[1..], keeps);
    }
  }

  lemma {:induction false} ByKnownKeeps(ds: seq<L1.Delayed>, keeps: Fill -> bool)
    requires DelayedAre(ds, keeps)
    ensures DelayedAre(L1.ByKnown(ds), keeps)
  {
    if ds != [] {
      ByKnownKeeps(ds[1..], keeps);
      PutKeeps(ds[0], L1.ByKnown(ds[1..]), keeps);
    }
  }

  lemma UnreportedOwn(m: Matching.Matcher, instrument: nat)
    requires FillsOnly(m, instrument)
    ensures FillsOnly(Matching.Drained(m), instrument)
    ensures forall i :: 0 <= i < |Matching.Unreported(m)| ==> Matching.Unreported(m)[i].instrument == instrument
  {
    if m.AtL1? {
      ByKnownKeeps(m.tier.delayed, Names(instrument));
      assert FillsAre(L1.Drained(m.tier), Names(instrument));
    }
  }

  lemma UnreportedSized(m: Matching.Matcher)
    requires BackSized(m)
    ensures BackSized(Matching.Drained(m))
    ensures forall i :: 0 <= i < |Matching.Unreported(m)| ==> Matching.Unreported(m)[i].qty > 0
  {
    if m.AtL1? {
      ByKnownKeeps(m.tier.delayed, Positive());
      assert FillsAre(L1.Drained(m.tier), Positive());
    }
  }

  // ----- the account

  /** Same instruments, and every matcher that kept to its own, or held back no fill, or only fills
      of a positive size, still does. */
  ghost predicate Owners(s: StateV, r: StateV) {
    |r.holdings| == |s.holdings| && r.matching == s.matching && r.mode == s.mode &&
    forall h :: 0 <= h < |s.holdings| ==> SameOwner(s.holdings[h], r.holdings[h])
  }

  ghost predicate SameOwner(v: HoldingV, w: HoldingV) {
    && w.instrument == v.instrument && (Own(v) ==> Own(w)) && (BackSized(v.engine) ==> BackSized(w.engine))
    && (Matching.Prompt(v.engine) ==> Matching.Prompt(w.engine))
  }

  lemma OwnersRefl(s: StateV)
    ensures Owners(s, s)
  {
  }

  lemma OwnersCompose(s: StateV, r: StateV, u: StateV)
    requires Owners(s, r) && Owners(r, u)
    ensures Owners(s, u)
  {
    forall h | 0 <= h < |s.holdings| ensures SameOwner(s.holdings[h], u.holdings[h]) {
      assert SameOwner(s.holdings[h], r.holdings[h]) && SameOwner(r.holdings[h], u.holdings[h]);
    }
  }

  lemma {:induction false} FirstByInstrument(hs: seq<HoldingV>, rs: seq<HoldingV>, instrument: nat)
    requires |rs| == |hs| && forall h :: 0 <= h < |hs| ==> rs[h].instrument == hs[h].instrument
    ensures FirstOf(rs, instrument) == FirstOf(hs, instrument)
  {
    if hs != [] {
      FirstByInstrument(hs[1..], rs[1..], instrument);
    }
  }

  lemma OwnersRoute(s: StateV, r: StateV, instrument: nat)
    requires Owners(s, r)
    ensures r.IndexOf(instrument) == s.IndexOf(instrument) && IsHeld(r, instrument) == IsHeld(s, instrument)
  {
    forall h | 0 <= h < |s.holdings| ensures r.holdings[h].instrument == s.holdings[h].instrument {
      assert SameOwner(s.holdings[h], r.holdings[h]);
    }
    FirstByInstrument(s.holdings, r.holdings, instrument);
  }

  lemma OwnersNamed(s: StateV, r: StateV)
    requires Owners(s, r) && Named(s)
    ensures Named(r)
  {
    forall h | 0 <= h < |r.holdings| ensures Own(r.holdings[h]) {
      assert SameOwner(s.holdings[h], r.holdings[h]) && Own(s.holdings[h]);
    }
  }

  lemma OwnersSized(s: StateV, r: StateV)
    requires Owners(s, r) && HeldBackSized(s)
    ensures HeldBackSized(r)
  {
    forall h | 0 <= h < |r.holdings| ensures BackSized(r.holdings[h].engine) {
      assert SameOwner(s.holdings[h], r.holdings[h]) && BackSized(s.holdings[h].engine);
    }
  }

  lemma OpeningOwners(s: StateV, h: nat, onShort: bool, qty: int, price: int, sign: int)
    requires h < |s.holdings|
    ensures Owners(s, Opening(s, h, onShort, qty, price, sign))
  {
  }

  lemma ClosingOwners(s: StateV, h: nat, onShort: bool, qty: int, price: int)
    requires h < |s.holdings|
    ensures Owners(s, Closing(s, h, onShort, qty, price))
  {
  }

  lemma OneWayOwners(s: StateV, h: nat, f: Fill)
    requires h < |s.holdings|
    ensures Owners(s, FillOneWay(s, h, f))
  {
    var d, l := PositionDelta(f), s.holdings[h].long;
    var closed := Min(Abs(d), Abs(l.qty));
    var s1 := Closing(s, h, false, closed, f.price);
    ClosingOwners(s, h, false, closed, f.price);
    OpeningOwners(s1, h, false, Abs(d) - closed, f.price, Sign(d));
    OwnersCompose(s, s1, Opening(s1, h, false, Abs(d) - closed, f.price, Sign(d)));
    OpeningOwners(s, h, false, Abs(d), f.price, Sign(d));
  }

  lemma FillOwners(s: StateV, f: Fill)
    ensures Owners(s, WithFill(s, f))
  {
    var h := s.IndexOf(f.instrument);
    if h < |s.holdings| {
      OneWayOwners(s, h, f);
      OpeningOwners(s, h, !OnLong(f), f.qty, f.price, if OnLong(f) then 1 else -1);
      ClosingOwners(s, h, !OnLong(f), f.qty, f.price);
    }
  }

  lemma BookFillOwners(a: Applied, h: nat, f: Fill)
    requires h < |a.kernel.state.holdings|
    ensures Owners(a.kernel.state, BookFill(a, h, f).kernel.state)
  {
    var s := a.kernel.state;
    var charged := Charged(s, s.schedule.Charge(s.holdings[h].tickCash, f));
    FillOwners(charged, f);
    OwnersCompose(s, charged, WithFill(charged, f));
  }

  lemma {:induction false} BookFillsOwners(a: Applied, h: nat, fs: seq<Fill>)
    requires h < |a.kernel.state.holdings|
    ensures Owners(a.kernel.state, BookFills(a, h, fs).kernel.state)
  {
    if fs != [] {
      var b := BookFills(a, h, fs[..|fs| - 1]);
      BookFillsOwners(a, h, fs[..|fs| - 1]);
      BookFillOwners(b, h, fs[|fs| - 1]);
      OwnersCompose(a.kernel.state, b.kernel.state, BookFills(a, h, fs).kernel.state);
    }
  }

  lemma LiquidateOneOwners(s: StateV, h: nat, price: int)
    requires h < |s.holdings|
    ensures Owners(s, LiquidateOne(s, h, price))
  {
  }

  lemma {:induction false} CloseEachOwners(s: StateV, hs: seq<nat>, price: int)
    requires forall i :: 0 <= i < |hs| ==> hs[i] < |s.holdings|
    ensures Owners(s, CloseEach(s, hs, price).state)
    decreases |hs|
  {
    if hs != [] {
      var at := ClosingPrice(s, hs[0], price);
      var s1 := LiquidateOne(s, hs[0], at);
      LiquidateOneOwners(s, hs[0], at);
      CloseEachOwners(s1, hs[1..], price);
      OwnersCompose(s, s1, CloseEach(s1, hs[1..], price).state);
    }
  }

  lemma CheckedOwners(a: Applied, mark: int)
    ensures Owners(a.kernel.state, Checked(a, mark).kernel.state)
  {
    CloseEachOwners(a.kernel.state, ToClose(a.kernel.state.holdings, 0), mark);
  }

  lemma EngineOwners(s: StateV, h: nat, m: Matching.Matcher)
    requires h < |s.holdings|
    requires Own(s.holdings[h]) ==> FillsOnly(m, s.holdings[h].instrument)
    requires BackSized(s.holdings[h].engine) ==> BackSized(m)
    requires Matching.Prompt(s.holdings[h].engine) ==> Matching.Prompt(m)
    ensures Owners(s, WithEngine(s, h, m))
  {
  }

  lemma DrainedOwners(s: StateV, h: nat)
    requires h < |s.holdings|
    ensures Owners(s, WithEngine(s, h, Matching.Drained(s.holdings[h].engine)))
  {
    EngineOwners(s, h, Matching.Drained(s.holdings[h].engine));
  }

  lemma TickBookedOwners(k: KernelV, h: nat, t: Tick)
    requires h < |k.state.holdings|
    ensures Owners(k.state, TickBooked(k, h, t).kernel.state)
  {
    var s := Marked(k.state, h, t);
    var v := s.holdings[h];
    if s.matching.Simulated? {
      if Own(v) {
        TickedOwn(v.engine, v.instrument, t);
      }
      if BackSized(v.engine) {
        TickedSized(v.engine, t);
      }
      EngineOwners(s, h, Matching.Ticked(v.engine, t));
      var a := Applied(k.(state := Matched(s, h, t)), []);
      OwnersCompose(k.state, s, a.kernel.state);
      BookFillsOwners(a, h, Matching.FillsOn(v.engine, t));
      OwnersCompose(k.state, a.kernel.state, TickBooked(k, h, t).kernel.state);
    }
  }

  lemma WithdrawnOwners(s: StateV, h: nat, id: nat)
    requires h < |s.holdings|
    ensures Owners(s, WithdrawnFrom(s, h, id))
  {
    EngineOwners(s, h, Matching.Without(s.holdings[h].engine, id));
  }

  lemma {:induction false} AskedOwners(s: StateV, h: nat, id: nat)
    requires h <= |s.holdings|
    ensures Owners(s, AskedFrom(s, h, id))
    decreases |s.holdings| - h
  {
    if h < |s.holdings| {
      WithdrawnOwners(s, h, id);
      if !Matching.Holds(s.holdings[h].engine, id) {
        var s1 := WithdrawnFrom(s, h, id);
        AskedOwners(s1, h + 1, id);
        OwnersCompose(s, s1, AskedFrom(s1, h + 1, id));
      }
    }
  }

  lemma VenueBookedOwners(k: KernelV, f: Fill, fee: Fee)
    requires k.state.holdings != []
    ensures Owners(k.state, VenueBooked(k, f, fee).kernel.state)
  {
    var s := FeeNoted(Fulfilled(k.state, f), fee);
    FulfilledOwners(k.state, f, fee);
    var charged := Charged(s, FeeOf(s, f, fee));
    FillOwners(charged, f);
    OwnersCompose(k.state, charged, WithFill(charged, f));
  }

  lemma FulfilledOwners(s: StateV, f: Fill, fee: Fee)
    ensures Owners(s, FeeNoted(Fulfilled(s, f), fee))
  {
    var h := s.IndexOf(f.instrument);
    if h < |s.holdings| {
      WithdrawnOwners(s.(now := f.stamp.exch), h, f.order);
    }
  }

  lemma SubmitOwners(k: KernelV, e: Event)
    requires e.Submit?
    ensures Owners(k.state, OnSubmit(k, e).kernel.state)
  {
    var r := Route(k.state, e.instrument);
    if e.qty > 0 && r.Some? {
      var o := Order(e.id, e.side, e.price, e.qty, e.offset, e.stamp);
      EngineOwners(k.state, r.value, Matching.Submitted(k.state.holdings[r.value].engine, o, e.stamp.local));
    }
  }

  lemma FundingOwners(k: KernelV, e: Event)
    requires k.state.holdings != [] && e.Funding?
    ensures BeforeCheck(k, e).kernel.state.holdings == k.state.holdings
    ensures BeforeCheck(k, e).kernel.state.matching == k.state.matching && BeforeCheck(k, e).kernel.state.mode == k.state.mode
  {
  }

  /** Other events leave the matchers as they are. */
  lemma OtherOwners(k: KernelV, e: Event)
    requires k.state.holdings != [] && !e.TickSeen? && !e.Submit? && !e.Cancel? && !e.VenueFill? && !e.Funding?
    ensures BeforeCheck(k, e).kernel.state.holdings == k.state.holdings
    ensures BeforeCheck(k, e).kernel.state.matching == k.state.matching && BeforeCheck(k, e).kernel.state.mode == k.state.mode
  {
  }

  lemma SeenTickOwners(k: KernelV, instrument: Option<nat>, t: Tick)
    requires k.state.holdings != []
    ensures Owners(k.state, BeforeCheck(k, TickSeen(instrument, t)).kernel.state)
  {
    if Route(k.state, instrument).Some? {
      TickBookedOwners(k, Route(k.state, instrument).value, t);
    }
  }

  lemma VenueFillOwners(k: KernelV, f: Fill, fee: Fee)
    requires k.state.holdings != []
    ensures Owners(k.state, BeforeCheck(k, VenueFill(f, fee)).kernel.state)
  {
    if k.state.matching.Venue? {
      VenueBookedOwners(k, f, fee);
    }
  }

  lemma BeforeCheckOwners(k: KernelV, e: Event)
    requires k.state.holdings != []
    ensures Owners(k.state, BeforeCheck(k, e).kernel.state)
  {
    match e
    case TickSeen(instrument, t) => SeenTickOwners(k, instrument, t);
    case Submit(_, _, _, _, _, _, _) => SubmitOwners(k, e);
    case Cancel(id, _) => AskedOwners(k.state, 0, id);
    case VenueFill(f, fee) => VenueFillOwners(k, f, fee);
    case Funding(_, _, _, _) => FundingOwners(k, e);
    case _ => OtherOwners(k, e);
  }

  lemma ApplyOwners(k: KernelV, e: Event)
    requires k.state.holdings != []
    ensures Owners(k.state, Apply(k, e).kernel.state)
  {
    var b := BeforeCheck(k, e);
    BeforeCheckOwners(k, e);
    AppliedIsChecked(k, e);
    if CheckedAt(k, e).Some? {
      CheckedOwners(b, CheckedAt(k, e).value);
      OwnersCompose(k.state, b.kernel.state, Apply(k, e).kernel.state);
    }
  }

  /** Over every run the matchers keep to their own instruments, so a simulated fill always
      reaches a holding, and which events can be presented never changes. */
  lemma {:induction false} RunStaysRouted(k: KernelV, es: seq<Event>)
    requires k.state.holdings != [] && Named(k.state)
    ensures Named(Run(k, es).kernel.state)
    ensures forall e :: Presentable(Run(k, es).kernel.state, e) <==> Presentable(k.state, e)
  {
    if es != [] {
      RunStaysRouted(k, es[..|es| - 1]);
      var b := Run(k, es[..|es| - 1]).kernel;
      ApplyOwners(b, es[|es| - 1]);
      OwnersNamed(b.state, Run(k, es).kernel.state);
      forall e ensures Presentable(Run(k, es).kernel.state, e) <==> Presentable(b.state, e) {
        if e.VenueFill? {
          OwnersRoute(b.state, Run(k, es).kernel.state, e.fill.instrument);
        }
      }
    }
  }
}
