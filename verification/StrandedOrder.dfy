/** The input that shows what a liquidation can leave behind: an order in a flat holding, which
    later fills on an account with no balance (crates/oq-core/src/kernel.rs). */
module StrandedOrder {
  import opened Numbers
  import opened Cost
  import opened Ledger
  import opened Market
  import opened Events
  import opened Account
  import opened AccountFacts
  import opened Listing
  import opened Stages
  import opened RestingBook
  import opened WorkingList
  import opened Absorbing
  import L0
  import Matching

  function Bid(): Order {
    Order(7, Buy, Some(50), 1, Open, Stamp(0, 0))
  }

  function LongTen(): HoldingV {
    NewHolding(1, 1, [MarginTier(0, 0, 0)]).(long := Leg(10, 100, EntryCost(10, 100, 1000)), mark := 100)
  }

  function FlatWithBid(): HoldingV {
    NewHolding(2, 1, [MarginTier(0, 0, 0)]).(engine :=
      Matching.AtL0(L0.NewEngine(2).(book := BookV([Resting(Bid(), 0)], [], [], [], 1))))
  }

  /** An account of two holdings: a long of ten lots bought at 100 in the first, and a resting
      bid in the second, which is flat. */
  function TwoHoldings(): KernelV {
    KernelV(StateV([LongTen(), FlatWithBid()], OneWay, 100, 0, 0, 0, Fees(0, 0), true, false, 0, true, Simulated, 0), [7])
  }

  function FallTick(): Tick {
    Tick(Stamp(1, 1), 90, 0, 0, 0, 0, 0)
  }

  /** The price of the first holding's instrument falls to 90. */
  function Fall(): Event {
    TickSeen(Some(1), FallTick())
  }

  /** An observation that reaches the bid. */
  function Reach(): Event {
    TickSeen(Some(2), Reaching(Bid()))
  }

  /** A flat holding with nothing but the bid. */
  predicate HasBid(v: HoldingV) {
    v.instrument == 2 && v.IsFlat() && v.engine.AtL0? && All(v.engine.engine.book) == [Resting(Bid(), 0)]
  }

  /** A long of ten lots bought at 100, with no orders. */
  predicate HasLong(v: HoldingV) {
    && v.instrument == 1 && v.tickCash == 1 && v.table == [MarginTier(0, 0, 0)]
    && v.long == Leg(10, 100, EntryCost(10, 100, 1000)) && v.short == FLAT
    && v.engine.AtL0? && All(v.engine.engine.book) == []
  }

  predicate Poor(s: StateV) {
    && |s.holdings| == 2 && HasLong(s.holdings[0]) && HasBid(s.holdings[1])
    && s.mode.OneWay? && s.matching.Simulated? && s.enforce && s.balance == 100
  }

  lemma StartsPoor()
    ensures Poor(TwoHoldings().state)
  {
    assert HasLong(LongTen()) && HasBid(FlatWithBid());
  }

  lemma SoundBook(b: BookV)
    requires b == BookV([Resting(Bid(), 0)], [], [], [], 1)
    ensures Wf(b) && Ids(b) == {7}
  {
    assert All(b) == [Resting(Bid(), 0)];
    assert Resting(Bid(), 0) in All(b);
  }

  lemma StartsOrderly()
    ensures Orderly(TwoHoldings())
  {
    var hs := TwoHoldings().state.holdings;
    EmptyBookFacts(0);
    SoundBook(FlatWithBid().engine.engine.book);
    assert SimpleOne(hs[0]) && SimpleOne(hs[1]);
    OrderlyPair(hs, ListedAt(hs));
  }

  lemma OrderlyPair(hs: seq<HoldingV>, xs: seq<set<nat>>)
    requires |xs| == 2 && xs[0] == {} && xs[1] == {7}
    ensures NoRepeats([7]) && Partition(xs, Names([7]))
  {
    assert Names([7]) == {7};
  }

  // ----- the fall

  /** Unrealized loss takes the whole balance. */
  lemma WorthNothing(hs: seq<HoldingV>)
    requires |hs| == 2 && HasLong(hs[0]) && hs[0].mark == 90 && hs[1].IsFlat()
    ensures Unrealized(hs) == -100 && Maintenance(hs) == 0
  {
    assert hs[..1] == [hs[0]] && hs[..1][..0] == [];
    assert LegWorth(1, hs[0].long, 90) == -100;
    assert Unrealized(hs[..1]) == -100;
    assert TruncDiv(0, RATIO_SCALE) == 0;
    assert Maintenance(hs[..1]) == 0;
  }

  lemma PoorCloses(s: StateV)
    requires Poor(s) && s.holdings[0].mark == 90
    ensures Closes(s, 90) && !Clears(s) && !s.IsFlat()
  {
    WorthNothing(s.holdings);
    assert !s.holdings[0].IsFlat();
    assert !HoldsNothing(s.holdings[1].engine);
  }

  lemma FallIsQuiet(k: KernelV, t: Tick)
    requires Poor(k.state) && t.last == 90
    ensures var a := TickBooked(k, 0, t);
      a.out == [] && a.kernel.working == k.working && Poor(a.kernel.state) && a.kernel.state.holdings[0].mark == 90
  {
    EmptyTick(k.state.holdings[0].engine.engine, t);
    assert Matching.FillsOn(Marked(k.state, 0, t).holdings[0].engine, t) == [];
  }

  lemma FallIsChecked(k: KernelV, t: Tick)
    requires Poor(k.state) && t.last == 90
    ensures CheckedAt(k, TickSeen(Some(1), t)) == Some(90)
    ensures BeforeCheck(k, TickSeen(Some(1), t)) == TickBooked(k, 0, t)
  {
    assert k.state.IndexOf(1) == 0;
  }

  /** The fall liquidates the account beside the flat holding. */
  lemma FallStrands(k: KernelV, t: Tick) returns (s: StateV)
    requires Poor(k.state) && t.last == 90
    ensures Poor(s) && s.holdings[0].mark == 90 && Strands(k, TickSeen(Some(1), t))
    ensures Orderly(k) ==> Simple(s) && !s.IsFlat()
    ensures Apply(k, TickSeen(Some(1), t)).kernel == KernelV(Liquidate(s, 90).state, [])
    ensures Apply(k, TickSeen(Some(1), t)).out == Liquidate(s, 90).out
  {
    s := TickBooked(k, 0, t).kernel.state;
    if Orderly(k) {
      TickBookedOrderly(k, 0, t);
    }
    FallIsQuiet(k, t);
    FallIsChecked(k, t);
    PoorCloses(s);
    AppliedIsChecked(k, TickSeen(Some(1), t));
    ClosedOutright(TickBooked(k, 0, t), 90);
  }

  lemma ClosedOutright(a: Applied, mark: int)
    requires Closes(a.kernel.state, mark) && a.out == []
    ensures Checked(a, mark) == Applied(KernelV(Liquidate(a.kernel.state, mark).state, []), Liquidate(a.kernel.state, mark).out)
  {
  }

  lemma PoorIsReported(s: StateV)
    requires Poor(s) && s.holdings[0].mark == 90
    ensures exists i :: 0 <= i < |Liquidate(s, 90).out| && Liquidate(s, 90).out[i].Liquidated?
  {
    PoorCloses(s);
    ToCloseAscends(s.holdings, 0);
    assert 0 in ToClose(s.holdings, 0);
    LiquidationReports(s, 90, 0);
  }

  /** After it the account is flat at zero and the bid rests on. */
  lemma PoorAfter(s: StateV)
    requires Poor(s) && s.holdings[0].mark == 90
    ensures var r := Liquidate(s, 90).state;
      && |r.holdings| == 2 && HasBid(r.holdings[1]) && r.holdings[0].instrument == 1 && r.IsFlat() && r.balance == 0
      && r.matching.Simulated? && !Dormant(KernelV(r, []))
  {
    PoorCloses(s);
    LiquidationSettles(s, 90);
    LiquidateKeepsMatching(s, ToClose(s.holdings, 0), 90);
    HoldingAfter(s, 90, 0);
    HoldingAfter(s, 90, 1);
    assert !HoldsNothing(Liquidate(s, 90).state.holdings[1].engine);
  }

  // ----- the bid

  lemma BidFills(k: KernelV) returns (f: Fill)
    requires |k.state.holdings| == 2 && HasBid(k.state.holdings[1]) && k.state.holdings[0].instrument == 1 && Simple(k.state)
    ensures f.order == 7 && f.qty == 1 && Filled(f) in Apply(k, Reach()).out
  {
    var book := k.state.holdings[1].engine.engine.book;
    assert SimpleOne(k.state.holdings[1]);
    assert Resting(Bid(), 0) in All(book);
    assert k.state.IndexOf(2) == 1;
    f := LeftOrderFills(k, 1, Bid());
  }

  /** The liquidation clears the working list and leaves the bid: the working list is then not the
      books' own, and the bid fills on an account with no balance and nothing working. */
  lemma FlatHoldingKeepsItsOrder() returns (f: Fill)
    ensures Orderly(TwoHoldings())
    ensures var k := Run(TwoHoldings(), [] + [Fall()]).kernel;
      k.state.IsFlat() && k.state.balance == 0 && k.working == [] && !Orderly(k) && !Dormant(k)
    ensures SaysLiquidated(Apply(TwoHoldings(), Fall())) && f.order == 7 && f.qty == 1
    ensures Filled(f) in Run(TwoHoldings(), [] + [Fall()] + [Reach()]).out
  {
    StartsPoor();
    StartsOrderly();
    var s := FallStrands(TwoHoldings(), FallTick());
    PoorIsReported(s);
    PoorAfter(s);
    EventOrderlyIff(TwoHoldings(), Fall());
    RunOfTwo(TwoHoldings(), Fall(), Reach());
    LiquidationStaysSimple(s, 90);
    f := BidFills(Run(TwoHoldings(), [] + [Fall()]).kernel);
  }
}
