/** The input that shows the other thing a liquidation can leave behind: a fill that was made and
    not yet reported, which reopens a position on an account with no balance
    (crates/oq-core/src/kernel.rs, crates/oq-engine/src/l1.rs). */
module LateFill {
  import opened Numbers
  import opened Cost
  import opened Ledger
  import opened Market
  import opened Events
  import opened Account
  import opened AccountFacts
  import opened RestingBook
  import opened Listing
  import opened Stages
  import opened WorkingList
  import opened Absorbing
  import L1
  import Matching

  /** A bid for one lot, filled at 95 and known to the strategy from time ten. */
  function Bought(): Fill {
    Fill(Stamp(0, 0), 1, 7, 1, Buy, Open, 95, 1, Maker)
  }

  function Late(): L1.Delayed {
    L1.Delayed(10, L0Fill(Bought(), Crossed))
  }

  function SlowTier(): Matching.Matcher {
    var policy := L1.Policy(L1.NoQueue, L1.Fixed(0), L1.Fixed(10), 0, id => 0, (q, v, r) => 0);
    Matching.AtL1(L1.NewL1(1).(delayed := [Late()]), policy)
  }

  function LongTen(): HoldingV {
    NewHolding(1, 1, [MarginTier(0, 0, 0)]).(engine := SlowTier(), long := Leg(10, 100, EntryCost(10, 100, 1000)), mark := 95)
  }

  /** An account of one holding: a long of ten lots bought at 100, and the bid's fill on its way. */
  function OneHolding(): KernelV {
    KernelV(StateV([LongTen()], OneWay, 100, 0, 0, 0, Fees(0, 0), true, false, 0, true, Simulated, 0), [7])
  }

  function At(exch: int, last: int): Tick {
    Tick(Stamp(exch, exch), last, 0, 0, 0, 0, 0)
  }

  /** The price falls to 90. */
  function Fall(): Event {
    TickSeen(Some(1), At(1, 90))
  }

  /** It is back at 96 when the fill is reported. */
  function Report(): Event {
    TickSeen(Some(1), At(10, 96))
  }

  /** A tier that holds no order, and one undelivered fill. */
  predicate OnlyLate(m: Matching.Matcher, ds: seq<L1.Delayed>) {
    m.AtL1? && !m.policy.response.IsZero() && HoldsNothing(m) && m.tier.delayed == ds
  }

  predicate Waiting(v: HoldingV, long: Leg) {
    v.instrument == 1 && v.tickCash == 1 && v.table == [MarginTier(0, 0, 0)] && v.long == long && v.short == FLAT
    && OnlyLate(v.engine, [Late()])
  }

  function Ten(): Leg {
    Leg(10, 100, EntryCost(10, 100, 1000))
  }

  predicate AwaitsFill(s: StateV, long: Leg, balance: int) {
    && |s.holdings| == 1 && Waiting(s.holdings[0], long) && s.balance == balance
    && s.mode.OneWay? && s.matching.Simulated? && s.enforce && s.schedule == Fees(0, 0)
  }

  lemma StartsAwaiting()
    ensures AwaitsFill(OneHolding().state, Ten(), 100)
  {
    assert L1.NewL1(1).inner.book == EMPTY_BOOK;
    assert OnlyLate(SlowTier(), [Late()]);
    assert Waiting(LongTen(), Ten());
  }

  lemma LateIsTidy(m: Matching.Matcher)
    requires OnlyLate(m, [Late()])
    ensures Tidy(m) && Listed(m) == {7}
  {
    var b := m.tier.inner.book;
    assert |All(b)| == |b.bids| + |b.asks| + |b.marketBuys| + |b.marketSells|;
    assert b == BookV([], [], [], [], b.nextArrival);
    EmptyBookFacts(b.nextArrival);
    NothingHeld(m.tier);
    LateCons(Late(), []);
    assert LateIds([]) == {};
    assert [Late()] + [] == [Late()];
  }

  lemma SevenAlone(xs: seq<set<nat>>)
    requires xs == [{7}]
    ensures NoRepeats([7]) && Partition(xs, Names([7]))
  {
    assert Names([7]) == {7};
    assert xs[0] == {7} && 7 in xs[0];
  }

  lemma StartsOrderly(k: KernelV)
    requires AwaitsFill(k.state, Ten(), 100) && k.working == [7]
    ensures Orderly(k)
  {
    var hs := k.state.holdings;
    LateIsTidy(hs[0].engine);
    assert SimpleOne(hs[0]);
    assert ListedAt(hs) == [{7}];
    SevenAlone(ListedAt(hs));
  }

  // ----- an observation

  lemma OneDue(d: L1.Delayed, now: int)
    ensures L1.HeldBack([d], now) == if d.knownAt <= now then [] else [d]
    ensures L1.Ready([d], now) == if d.knownAt <= now then [d.fill] else []
  {
    assert [d][1..] == [];
  }

  lemma LateTick(m: Matching.Matcher, d: L1.Delayed, t: Tick)
    requires OnlyLate(m, [d])
    ensures var due := d.knownAt <= t.stamp.exch;
      && OnlyLate(Matching.Ticked(m, t), if due then [] else [d])
      && Matching.FillsOn(m, t) == if due then [d.fill.fill] else []
  {
    var v, p := m.tier, m.policy;
    assert v.(pending := []) == v;
    assert L1.BeforeMatch(v, p, t).inner == v.inner;
    EmptyTick(v.inner, t);
    assert L1.Made(v, p, L1.UNMEASURED, t) == [];
    assert v.delayed + L1.Postponed(p, [], t.stamp.exch) == [d];
    OneDue(d, t.stamp.exch);
    assert Matching.Plain([d.fill]) == [d.fill.fill];
  }

  // ----- the fall

  lemma FallIsQuiet(k: KernelV, t: Tick)
    requires AwaitsFill(k.state, Ten(), 100) && t.stamp.exch < 10
    ensures var a := TickBooked(k, 0, t);
      a.out == [] && a.kernel.working == k.working && AwaitsFill(a.kernel.state, Ten(), 100)
  {
    LateTick(k.state.holdings[0].engine, Late(), t);
  }

  lemma TenCloses(s: StateV)
    requires AwaitsFill(s, Ten(), 100)
    ensures Closes(s, 90) && Clears(s) && !LeavesNothing(s) && !s.IsFlat()
  {
    assert !s.holdings[0].IsFlat();
    assert LegWorth(1, Ten(), 90) == -100;
    assert TruncDiv(0, RATIO_SCALE) == 0;
    assert !Delivered(s.holdings[0].engine);
  }

  lemma FallLiquidates(k: KernelV, t: Tick) returns (s: StateV)
    requires AwaitsFill(k.state, Ten(), 100) && t.stamp.exch < 10 && t.last == 90
    ensures AwaitsFill(s, Ten(), 100) && s == BeforeCheck(k, TickSeen(Some(1), t)).kernel.state
    ensures Strands(k, TickSeen(Some(1), t)) && Clears(s)
    ensures Apply(k, TickSeen(Some(1), t)) == Applied(KernelV(Liquidate(s, 90).state, []), Liquidate(s, 90).out)
  {
    s := TickBooked(k, 0, t).kernel.state;
    assert k.state.IndexOf(1) == 0;
    FallIsQuiet(k, t);
    TenCloses(s);
    AppliedIsChecked(k, TickSeen(Some(1), t));
  }

  lemma LiquidatedAlone(s: StateV, price: int)
    requires |s.holdings| == 1
    ensures ToClose(s.holdings, 0) == [0]
    ensures var c := LiquidateOne(s, 0, price);
      Liquidate(s, price).state == c.(balance := 0, forfeited := c.forfeited + c.balance)
  {
    assert ToClose(s.holdings, 1) == [];
    assert CloseEach(LiquidateOne(s, 0, price), [], price).state == LiquidateOne(s, 0, price);
    assert [0][1..] == [];
  }

  /** The account is flat at zero, and the fill is still on its way. */
  lemma AfterTheFall(s: StateV)
    requires AwaitsFill(s, Ten(), 100)
    ensures var r := Liquidate(s, 90).state; AwaitsFill(r, FLAT, 0) && r.IsFlat() && !Dormant(KernelV(r, []))
    ensures exists i :: 0 <= i < |Liquidate(s, 90).out| && Liquidate(s, 90).out[i].Liquidated?
  {
    TenCloses(s);
    LiquidatedAlone(s, 90);
    LiquidationReports(s, 90, 0);
    var r := Liquidate(s, 90).state;
    assert r.holdings[0] == Flattened(s.holdings[0]);
    EmptiedLate(s.holdings[0].engine);
    assert !Delivered(r.holdings[0].engine);
  }

  lemma EmptiedLate(m: Matching.Matcher)
    requires OnlyLate(m, [Late()])
    ensures OnlyLate(Matching.Emptied(m), [Late()])
  {
    EmptyBookFacts(m.tier.inner.book.nextArrival);
  }

  // ----- the report

  lemma BoughtOpens(v: HoldingV)
    requires v.tickCash == 1 && v.long == FLAT
    ensures v.Open(false, 1, 95, 1).long == Leg(1, 95, EntryCost(1, 95, 95))
  {
    assert TruncDiv(95, 1) == 95;
  }

  lemma BookedLate(a: Applied)
    requires var s := a.kernel.state; |s.holdings| == 1 && s.holdings[0].instrument == 1 && s.holdings[0].tickCash == 1
    requires a.kernel.state.holdings[0].long == FLAT && a.kernel.state.schedule == Fees(0, 0) && a.kernel.state.mode.OneWay?
    ensures var s, r := a.kernel.state, BookFill(a, 0, Bought());
      && r.kernel.state == s.(holdings := [s.holdings[0].(long := Leg(1, 95, EntryCost(1, 95, 95)))])
      && r.out == a.out + [Filled(Bought())]
  {
    var s := a.kernel.state;
    assert Scaled(Notional(1, 95, 1), 0) == 0;
    assert Charged(s, 0) == s;
    assert s.IndexOf(1) == 0;
    BoughtOpens(s.holdings[0]);
    assert s.holdings[0 := s.holdings[0].(long := Leg(1, 95, EntryCost(1, 95, 95)))]
        == [s.holdings[0].(long := Leg(1, 95, EntryCost(1, 95, 95)))];
  }

  lemma ReportBooks(k: KernelV, t: Tick)
    requires AwaitsFill(k.state, FLAT, 0) && t.stamp.exch >= 10
    ensures var r := TickBooked(k, 0, t);
      && |r.kernel.state.holdings| == 1 && r.kernel.state.balance == 0 && r.out == [Filled(Bought())]
      && r.kernel.state.mode.OneWay?
      && var v := r.kernel.state.holdings[0];
        v.long == Leg(1, 95, EntryCost(1, 95, 95)) && v.tickCash == 1 && v.table == [MarginTier(0, 0, 0)]
  {
    var s := Marked(k.state, 0, t);
    LateTick(s.holdings[0].engine, Late(), t);
    var a := Applied(k.(state := Matched(s, 0, t)), []);
    BookedLate(a);
    assert [Bought()][..0] == [];
    assert BookFills(a, 0, [Bought()]) == BookFill(a, 0, Bought());
  }

  /** Above its price it is worth something, and no maintenance is asked. */
  lemma ReportStands(s: StateV)
    requires |s.holdings| == 1 && s.balance == 0 && s.mode.OneWay?
    requires var v := s.holdings[0];
      v.long == Leg(1, 95, EntryCost(1, 95, 95)) && v.tickCash == 1 && v.table == [MarginTier(0, 0, 0)]
    ensures !Closes(s, 96)
  {
    assert LegWorth(1, s.holdings[0].long, 96) == 1;
    assert TruncDiv(0, RATIO_SCALE) == 0;
  }

  lemma ReportReopens(k: KernelV, t: Tick)
    requires AwaitsFill(k.state, FLAT, 0) && t.stamp.exch >= 10 && t.last == 96
    ensures var r := Apply(k, TickSeen(Some(1), t));
      |r.kernel.state.holdings| == 1 && r.kernel.state.holdings[0].long.qty == 1 && r.kernel.state.balance == 0 && r.out == [Filled(Bought())]
  {
    assert k.state.IndexOf(1) == 0;
    ReportBooks(k, t);
    ReportStands(TickBooked(k, 0, t).kernel.state);
    AppliedIsChecked(k, TickSeen(Some(1), t));
  }

  /** No order is left by the liquidation and the working list is cleared, yet the fill that was on
      its way reopens a position on an account with no balance and nothing working. */
  lemma LateFillReopens()
    ensures Orderly(OneHolding()) && Clears(BeforeCheck(OneHolding(), Fall()).kernel.state)
    ensures SaysLiquidated(Apply(OneHolding(), Fall()))
    ensures var k := Run(OneHolding(), [] + [Fall()]).kernel;
      k.state.IsFlat() && k.state.balance == 0 && k.working == [] && !Orderly(k) && !Dormant(k)
    ensures var r := Run(OneHolding(), [] + [Fall()] + [Report()]);
      r.kernel.state.holdings[0].long.qty == 1 && r.kernel.state.balance == 0 && Filled(Bought()) in r.out
  {
    StartsAwaiting();
    StartsOrderly(OneHolding());
    var s := FallLiquidates(OneHolding(), At(1, 90));
    AfterTheFall(s);
    EventOrderlyIff(OneHolding(), Fall());
    RunOfTwo(OneHolding(), Fall(), Report());
    ReportReopens(Run(OneHolding(), [] + [Fall()]).kernel, At(10, 96));
  }
}
