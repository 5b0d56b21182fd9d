/** What a hedged venue fill of any size does to the cash flows, and exactly when a fill or a run
    of them keeps the identity (crates/oq-core/src/kernel.rs). A venue fill carries whatever size
    the venue sent. */
module FillSizes {
  import opened Folding
  import opened Numbers
  import opened Cost
  import opened Ledger
  import opened Market
  import opened Events
  import opened Account
  import opened CashFlow
  import opened Stages
  import Matching
  import Routing

  // ----- how far a fill leads books and outputs apart

  /** The long leg is opened by buying and closed by selling, the short leg the other way round: the
      sign of the leg a fill names. */
  function LegSign(f: Fill): int {
    match f.side
    case Buy => if f.offset.Open? then 1 else -1
    case Sell => if f.offset.Open? then -1 else 1
  }

  function LegOf(v: HoldingV, f: Fill): Leg {
    if LegSign(f) > 0 then v.long else v.short
  }

  /** What the books hold beyond what a reader of the outputs has, by leg. */
  datatype Drift = Drift(long: int, short: int) {
    function Of(f: Fill): int {
      if LegSign(f) > 0 then long else short
    }

    function More(f: Fill, lots: int): Drift {
      if LegSign(f) > 0 then Drift(long + lots, short) else Drift(long, short + lots)
    }
  }

  const TOGETHER := Drift(0, 0)

  function DriftOf(v: HoldingV, t: Track): Drift {
    Drift(v.long.qty - t.long, v.short.qty - t.short)
  }

  /** Lots by which the books move the leg. */
  function BookMove(l: Leg, f: Fill): int {
    if f.offset == Market.Close then 0 - SignOf(l.qty) * LotsClosed(l, f.qty)
    else if f.qty == 0 then 0
    else LegSign(f) * (Abs(l.qty) + f.qty) - l.qty
  }

  /** Lots by which a reader moves the size it has. */
  function ReadMove(held: int, f: Fill): int {
    if f.offset == Market.Close then 0 - LegSign(f) * HeldPart(held, f.qty) else LegSign(f) * f.qty
  }

  /** What a leg gains beyond the cash flow a reader sees, at any mark. */
  function LegSlip(k: int, l: Leg, held: int, f: Fill): int {
    var cost, value := LegCost(k, l), Notional(k, f.price, f.qty);
    if f.offset == Market.Close then
      k * ((ReadMove(held, f) + (if f.qty >= 0 then 0 - BookMove(l, f) else BookMove(l, f))) * f.price)
    else if f.qty == 0 then 0
    else
      SignTimes(l.qty, cost) - SignTimes(LegSign(f) * (Abs(l.qty) + f.qty), cost + value) + SignTimes(LegSign(f) * f.qty, value)
  }

  function SignTimes(x: int, y: int): int {
    if x > 0 then y else if x < 0 then 0 - y else 0
  }

  function Slip(v: HoldingV, d: Drift, f: Fill): int {
    LegSlip(v.tickCash, LegOf(v, f), LegOf(v, f).qty - d.Of(f), f)
  }

  function Drifted(v: HoldingV, d: Drift, f: Fill): Drift {
    d.More(f, BookMove(LegOf(v, f), f) - ReadMove(LegOf(v, f).qty - d.Of(f), f))
  }

  // ----- one leg

  lemma OpenSlips(k: int, l: Leg, f: Fill)
    requires f.offset.Open?
    ensures var r := Enlarged(k, l, f.qty, f.price, LegSign(f));
      && r.qty == l.qty + BookMove(l, f)
      && Basis(k, r) - Basis(k, l) == k * (LegSign(f) * f.qty * f.price) - LegSlip(k, l, 0, f)
  {
    var n, value := Abs(f.qty), Notional(k, f.price, f.qty);
    SignedNotional(k, f.price, n, 1);
    SignedNotional(k, f.price, n, -1);
    assert LegSign(f) * f.qty == SignTimes(LegSign(f) * f.qty, n);
    assert SignTimes(LegSign(f) * f.qty, value) == k * (LegSign(f) * f.qty * f.price);
  }

  lemma CloseSlips(k: int, l: Leg, held: int, f: Fill)
    requires f.offset == Market.Close
    ensures var r := Shrunk(k, l, f.qty, f.price);
      && r.qty == l.qty + BookMove(l, f)
      && Basis(k, r) - Basis(k, l)
           == ShrunkProfit(k, l, f.qty, f.price) + k * (ReadMove(held, f) * f.price) - LegSlip(k, l, held, f)
  {
    var a, b := ReadMove(held, f), BookMove(l, f);
    if f.qty >= 0 {
      ShrunkBasis(k, l, f.qty, f.price);
      FlowOfBoth(k, a, 0 - b, f.price);
      FlowOfBoth(k, b, 0 - b, f.price);
    } else {
      GrowingBasis(k, l, f.qty, f.price);
      FlowOfBoth(k, a, b, f.price);
    }
  }

  /** Closing a negative number of lots grows the leg, and books the growth as profit. */
  lemma GrowingBasis(k: int, l: Leg, qty: int, price: int)
    requires qty < 0
    ensures var d := 0 - SignOf(l.qty) * LotsClosed(l, qty);
      Shrunk(k, l, qty, price).qty == l.qty + d &&
      Basis(k, Shrunk(k, l, qty, price)) == Basis(k, l) + ShrunkProfit(k, l, qty, price) - k * (d * price)
  {
    if l.qty != 0 {
      SignedNotional(k, price, 0 - qty, SignOf(l.qty));
      CostConserved(LegCost(k, l), l.qty, qty, Notional(k, price, qty));
      assert Notional(k, price, 0 - qty) == Notional(k, price, qty);
      assert SignOf(l.qty) * (0 - qty) == 0 - SignOf(l.qty) * qty;
    }
  }

  lemma FlowOfBoth(k: int, a: int, b: int, price: int)
    ensures k * ((a + b) * price) == k * (a * price) + k * (b * price)
  {
    Distribute(a, b, price);
    var x, y := a * price, b * price;
    Distribute(x, y, k);
    assert k * (x + y) == (x + y) * k;
  }

  // ----- one fill

  /** Realized profit moves with what the books owe the flows, and the leg with the reader's, up
      to the slip and the drift of the fill. */
  ghost predicate StepsBy(s: StateV, h: nat, f: Fill, t: Track)
    requires h < |s.holdings|
  {
    var v, d := s.holdings[h], DriftOf(s.holdings[h], t);
    var r, t' := FillHedged(s, h, f), Seen(Hedge, f.instrument, t, Filled(f));
    && r.holdings == s.holdings[h := r.holdings[h]] && r.mode == s.mode && r.holdings[h].instrument == v.instrument
    && DriftOf(r.holdings[h], t') == Drifted(v, d, f)
    && r.realized - s.realized == Gap(r.holdings[h], t') - Gap(v, t) + Slip(v, d, f)
  }

  lemma OpeningSlips(s: StateV, h: nat, f: Fill, t: Track)
    requires h < |s.holdings| && f.instrument == s.holdings[h].instrument && f.offset.Open?
    ensures StepsBy(s, h, f, t)
  {
    OpenDrifts(s.holdings[h], f, t);
  }

  lemma OpenDrifts(v: HoldingV, f: Fill, t: Track)
    requires f.offset.Open?
    ensures var r, t' := v.Open(!OnLong(f), f.qty, f.price, if OnLong(f) then 1 else -1), Seen(Hedge, f.instrument, t, Filled(f));
      && DriftOf(r, t') == Drifted(v, DriftOf(v, t), f)
      && 0 == Gap(r, t') - Gap(v, t) + Slip(v, DriftOf(v, t), f)
  {
    FlowGrows(v.tickCash, t.flow, LegSign(f) * f.qty, f.price);
    OpenSlips(v.tickCash, LegOf(v, f), f);
  }

  lemma ClosingSlips(s: StateV, h: nat, f: Fill, t: Track)
    requires h < |s.holdings| && f.instrument == s.holdings[h].instrument && f.offset == Market.Close
    ensures StepsBy(s, h, f, t)
  {
    CloseDrifts(s.holdings[h], f, t);
  }

  lemma CloseDrifts(v: HoldingV, f: Fill, t: Track)
    requires f.offset == Market.Close
    ensures var r, t' := v.Close(!OnLong(f), f.qty, f.price), Seen(Hedge, f.instrument, t, Filled(f));
      && DriftOf(r, t') == Drifted(v, DriftOf(v, t), f)
      && v.CloseProfit(!OnLong(f), f.qty, f.price) == Gap(r, t') - Gap(v, t) + Slip(v, DriftOf(v, t), f)
  {
    var held := if LegSign(f) > 0 then t.long else t.short;
    FlowGrows(v.tickCash, t.flow, ReadMove(held, f), f.price);
    CloseSlips(v.tickCash, LegOf(v, f), held, f);
    assert LegOf(v, f).qty - DriftOf(v, t).Of(f) == held;
  }

  /** A fill of a hedged holding, of any size and on a leg of any sign: what it books beyond its
      own cash flow is the slip, and how far its leg parts from the reader's is the drift. */
  lemma HedgedFillSlips(s: StateV, h: nat, f: Fill, t: Track)
    requires h < |s.holdings| && f.instrument == s.holdings[h].instrument
    ensures StepsBy(s, h, f, t)
  {
    if f.offset.Open? {
      OpeningSlips(s, h, f, t);
    } else {
      ClosingSlips(s, h, f, t);
    }
  }

  /** On a leg the right way round that the reader agrees on: a size that is not negative, or a
      negative one that happens to move no cash. */
  predicate KeepsFlow(v: HoldingV, f: Fill) {
    var l, n := LegOf(v, f), 0 - f.qty;
    f.qty >= 0 ||
    if f.offset == Market.Close then l.qty == 0 || f.price * v.tickCash == 0
    else if n < Abs(l.qty) then f.price * v.tickCash == 0
    else if n == Abs(l.qty) then LegCost(v.tickCash, l) == Notional(v.tickCash, f.price, n)
    else LegCost(v.tickCash, l) == 0
  }

  lemma CashIsZero(k: int, price: int, n: int)
    requires n != 0
    ensures Notional(k, price, n) == 0 <==> price * k == 0
    ensures k * (n * price) == 0 <==> price * k == 0
  {
    var a := price * k;
    assert Notional(k, price, n) == a * Abs(n) by {
      assert price * Abs(n) * k == price * k * Abs(n);
    }
    assert k * (n * price) == a * n;
  }

  lemma TogetherMoves(l: Leg, f: Fill)
    requires l.qty * LegSign(f) >= 0
    ensures BookMove(l, f) == ReadMove(l.qty, f)
  {
  }

  /** There the legs never part, and the slip is nothing exactly when the fill keeps the flow. */
  lemma UprightSlip(v: HoldingV, f: Fill)
    requires Legal(Hedge, v)
    ensures Drifted(v, TOGETHER, f) == TOGETHER
    ensures Slip(v, TOGETHER, f) == 0 <==> KeepsFlow(v, f)
  {
    var k, l := v.tickCash, LegOf(v, f);
    TogetherMoves(l, f);
    if f.offset == Market.Close {
      CloseKeepsIff(k, l, f);
    } else if f.qty < 0 {
      CashIsZero(k, f.price, f.qty);
    }
  }

  lemma CloseKeepsIff(k: int, l: Leg, f: Fill)
    requires f.offset == Market.Close && l.qty * LegSign(f) >= 0
    ensures LegSlip(k, l, l.qty, f) == 0 <==> f.qty >= 0 || l.qty == 0 || f.price * k == 0
  {
    var b := BookMove(l, f);
    TogetherMoves(l, f);
    if f.qty >= 0 {
      assert LegSlip(k, l, l.qty, f) == k * (0 * f.price);
    } else if b != 0 {
      CashIsZero(k, f.price, 2 * b);
    }
  }

  /** A hedged fill on such a holding leaves positions and profit those of the cash flows if and
      only if it is of a size that is not negative or moves no cash. */
  lemma HedgedFillKeepsIff(s: StateV, h: nat, f: Fill, t: Track)
    requires h < |s.holdings| && f.instrument == s.holdings[h].instrument
    requires Legal(Hedge, s.holdings[h]) && SameSizes(s.holdings[h], t)
    ensures var r, t' := FillHedged(s, h, f), Seen(Hedge, f.instrument, t, Filled(f));
      SameSizes(r.holdings[h], t') && (r.realized - s.realized == Gap(r.holdings[h], t') - Gap(s.holdings[h], t)
                                       <==> KeepsFlow(s.holdings[h], f))
  {
    HedgedFillSlips(s, h, f, t);
    UprightSlip(s.holdings[h], f);
  }

  // ----- an account that has come apart

  /** What books and outputs are apart by: each holding's drift, and profit. */
  datatype Astray = Astray(drifts: seq<Drift>, slip: int)

  /** Not at all. */
  function Aligned(n: nat): (a: Astray)
    ensures |a.drifts| == n
  {
    Astray(seq(n, i => TOGETHER), 0)
  }

  ghost predicate Tallies(s: StateV, ids: seq<nat>, ts: seq<Track>, c: int, a: Astray) {
    && |ids| == |ts| == |s.holdings| == |a.drifts| && Distinct(ids)
    && (forall h :: 0 <= h < |ts| ==> TalliesOne(s.holdings[h], ids[h], ts[h], a.drifts[h]))
    && s.realized == c + SumGap(s.holdings, ts) + a.slip
  }

  predicate TalliesOne(v: HoldingV, id: nat, t: Track, d: Drift) {
    v.instrument == id && DriftOf(v, t) == d
  }

  /** What a fill adds: in hedge mode, at the holding it names. */
  function Strayed(s: StateV, f: Fill, a: Astray): (r: Astray)
    ensures |r.drifts| == |a.drifts|
  {
    var h := s.IndexOf(f.instrument);
    if s.mode.OneWay? || h >= |s.holdings| || h >= |a.drifts| then a
    else Astray(a.drifts[h := Drifted(s.holdings[h], a.drifts[h], f)], a.slip + Slip(s.holdings[h], a.drifts[h], f))
  }

  /** Changing one holding. */
  lemma TallyPut(s: StateV, r: StateV, ids: seq<nat>, ts: seq<Track>, c: int, a: Astray, h: nat, t: Track, o: Output, b: Astray)
    requires Tallies(s, ids, ts, c, a) && h < |s.holdings|
    requires |r.holdings| == |s.holdings| && r.holdings == s.holdings[h := r.holdings[h]]
    requires b.drifts == a.drifts[h := DriftOf(r.holdings[h], t)] && r.holdings[h].instrument == ids[h]
    requires r.realized - s.realized == Gap(r.holdings[h], t) - Gap(s.holdings[h], ts[h]) + b.slip - a.slip
    requires Seen(s.mode, ids[h], ts[h], o) == t
    requires forall i :: 0 <= i < |ids| && ids[i] != ids[h] ==> Seen(s.mode, ids[i], ts[i], o) == ts[i]
    ensures Tallies(r, ids, SeenEach(s.mode, ids, ts, o), c, b)
  {
    SumGapPut(s.holdings, ts, h, r.holdings[h], t);
    assert SeenEach(s.mode, ids, ts, o) == ts[h := t];
    forall i | 0 <= i < |ts| ensures TalliesOne(r.holdings[i], ids[i], ts[h := t][i], b.drifts[i]) {
      assert TalliesOne(s.holdings[i], ids[i], ts[i], a.drifts[i]);
    }
  }

  lemma FillTallies(s: StateV, ids: seq<nat>, ts: seq<Track>, c: int, a: Astray, f: Fill)
    requires Tallies(s, ids, ts, c, a) && s.mode.Hedge?
    ensures Tallies(WithFill(s, f), ids, SeenEach(Hedge, ids, ts, Filled(f)), c, Strayed(s, f, a))
  {
    var h := s.IndexOf(f.instrument);
    if h < |s.holdings| {
      assert TalliesOne(s.holdings[h], ids[h], ts[h], a.drifts[h]);
      HedgedFillSlips(s, h, f, ts[h]);
      TallyPut(s, WithFill(s, f), ids, ts, c, a, h, Seen(Hedge, ids[h], ts[h], Filled(f)), Filled(f), Strayed(s, f, a));
    } else {
      forall i | 0 <= i < |ids| ensures ids[i] != f.instrument {
        assert TalliesOne(s.holdings[i], ids[i], ts[i], a.drifts[i]);
      }
      assert SeenEach(Hedge, ids, ts, Filled(f)) == ts;
    }
  }

  lemma SameLegsTally(s: StateV, r: StateV, ids: seq<nat>, ts: seq<Track>, c: int, a: Astray)
    requires Tallies(s, ids, ts, c, a) && SameLegs(s, r)
    ensures Tallies(r, ids, ts, c, a)
  {
    SameGap(s.holdings, r.holdings, ts);
    forall h | 0 <= h < |ts| ensures TalliesOne(r.holdings[h], ids[h], ts[h], a.drifts[h]) {
      assert TalliesOne(s.holdings[h], ids[h], ts[h], a.drifts[h]) && SameLeg(s.holdings[h], r.holdings[h]);
    }
  }

  lemma TiedAligned(s: StateV, ids: seq<nat>, ts: seq<Track>, c: int)
    requires Tied(s, ids, ts, c)
    ensures Tallies(s, ids, ts, c, Aligned(|s.holdings|))
  {
    forall h | 0 <= h < |ts| ensures TalliesOne(s.holdings[h], ids[h], ts[h], TOGETHER) {
      assert TiedOne(s.mode, ids[h], s.holdings[h], ts[h]);
    }
  }

  /** An account is apart from its tracks by one amount. */
  lemma OneTally(s: StateV, ids: seq<nat>, ts: seq<Track>, c: int, a: Astray, b: Astray)
    requires Tallies(s, ids, ts, c, a)
    ensures Tallies(s, ids, ts, c, b) <==> a == b
  {
    if Tallies(s, ids, ts, c, b) {
      forall h | 0 <= h < |ts| ensures a.drifts[h] == b.drifts[h] {
        assert TalliesOne(s.holdings[h], ids[h], ts[h], a.drifts[h]) && TalliesOne(s.holdings[h], ids[h], ts[h], b.drifts[h]);
      }
      assert a.drifts == b.drifts;
    }
  }

  /** A fill of a hedged account keeps positions, flows and realized profit tied if and only if
      it keeps the flow of the holding it names. */
  lemma FillKeepsTieIff(s: StateV, ids: seq<nat>, ts: seq<Track>, c: int, f: Fill)
    requires Tied(s, ids, ts, c) && s.mode.Hedge? && s.IndexOf(f.instrument) < |s.holdings|
    ensures Tallies(WithFill(s, f), ids, SeenEach(Hedge, ids, ts, Filled(f)), c, Aligned(|s.holdings|))
       <==> KeepsFlow(s.holdings[s.IndexOf(f.instrument)], f)
  {
    var h, n := s.IndexOf(f.instrument), |s.holdings|;
    TiedAligned(s, ids, ts, c);
    FillTallies(s, ids, ts, c, Aligned(n), f);
    OneTally(WithFill(s, f), ids, SeenEach(Hedge, ids, ts, Filled(f)), c, Strayed(s, f, Aligned(n)), Aligned(n));
    assert TiedOne(s.mode, ids[h], s.holdings[h], ts[h]);
    UprightSlip(s.holdings[h], f);
    assert Aligned(n).drifts[h := TOGETHER] == Aligned(n).drifts;
  }

  // ----- a liquidation closes what the books hold, so it adds nothing

  lemma LiquidateOneTallies(s: StateV, ids: seq<nat>, ts: seq<Track>, c: int, a: Astray, h: nat, price: int)
    requires Tallies(s, ids, ts, c, a) && h < |s.holdings|
    ensures Tallies(LiquidateOne(s, h, price), ids, SeenEach(s.mode, ids, ts, Notice(s, h, price)), c, a)
  {
    var o := Notice(s, h, price);
    assert TalliesOne(s.holdings[h], ids[h], ts[h], a.drifts[h]);
    LiquidationGap(s, h, price, ts[h]);
    assert a.drifts[h := a.drifts[h]] == a.drifts;
    TallyPut(s, LiquidateOne(s, h, price), ids, ts, c, a, h, Seen(s.mode, ids[h], ts[h], o), o, a);
  }

  lemma {:induction false} CloseEachTallies(s: StateV, ids: seq<nat>, ts: seq<Track>, c: int, a: Astray, hs: seq<nat>, price: int)
    requires Tallies(s, ids, ts, c, a) && forall i :: 0 <= i < |hs| ==> hs[i] < |s.holdings|
    ensures var r := CloseEach(s, hs, price);
      r.state.mode == s.mode && Tallies(r.state, ids, SeenAll(s.mode, ids, ts, r.out), c, a)
    decreases |hs|
  {
    if hs != [] {
      var at := ClosingPrice(s, hs[0], price);
      var s1, o := LiquidateOne(s, hs[0], at), Notice(s, hs[0], at);
      LiquidateOneTallies(s, ids, ts, c, a, hs[0], at);
      CloseEachTallies(s1, ids, SeenEach(s.mode, ids, ts, o), c, a, hs[1..], price);
      SeenAppend(s.mode, ids, ts, [o], CloseEach(s1, hs[1..], price).out);
      assert [o][..0] == [];
    }
  }

  lemma LiquidateTallies(s: StateV, ids: seq<nat>, ts: seq<Track>, c: int, a: Astray, price: int)
    requires Tallies(s, ids, ts, c, a)
    ensures var r := Liquidate(s, price);
      r.state.mode == s.mode && Tallies(r.state, ids, SeenAll(s.mode, ids, ts, r.out), c, a)
  {
    var hs := ToClose(s.holdings, 0);
    CloseEachTallies(s, ids, ts, c, a, hs, price);
    var e := CloseEach(s, hs, price);
    SettledSeenSame(s.mode, ids, ts, e.out, e.state.balance, |e.out|);
    assert e.out[..|e.out|] == e.out && Settled(e.out, e.state.balance)[..|e.out|] == Settled(e.out, e.state.balance);
  }

  // ----- booking fills

  /** A hedged account apart by this much from what the outputs so far said. */
  ghost predicate ApartSince(b: Applied, ids: seq<nat>, ts: seq<Track>, c: int, a: Astray) {
    b.kernel.state.mode.Hedge? && |ids| == |ts| && Tallies(b.kernel.state, ids, SeenAll(Hedge, ids, ts, b.out), c, a)
  }

  lemma SameStrayed(s: StateV, r: StateV, f: Fill, a: Astray)
    requires SameLegs(s, r) && r.IndexOf(f.instrument) == s.IndexOf(f.instrument)
    ensures Strayed(r, f, a) == Strayed(s, f, a)
  {
    var h := s.IndexOf(f.instrument);
    if h < |s.holdings| {
      assert SameLeg(s.holdings[h], r.holdings[h]);
    }
  }

  lemma BookedApart(b: Applied, charged: StateV, f: Fill, working: seq<nat>, ids: seq<nat>, ts: seq<Track>, c: int, a: Astray)
    requires ApartSince(b, ids, ts, c, a) && SameLegs(b.kernel.state, charged)
    requires charged.IndexOf(f.instrument) == b.kernel.state.IndexOf(f.instrument)
    ensures ApartSince(Applied(KernelV(WithFill(charged, f), working), b.out + [Filled(f)]), ids, ts, c, Strayed(b.kernel.state, f, a))
  {
    var seen := SeenAll(Hedge, ids, ts, b.out);
    SameLegsTally(b.kernel.state, charged, ids, seen, c, a);
    SameStrayed(b.kernel.state, charged, f, a);
    FillTallies(charged, ids, seen, c, a, f);
    FillKeepsMode(charged, f);
    SeenOne(Hedge, ids, ts, b.out, Filled(f));
  }

  /** What a list of fills adds, each to the account the ones before it left. */
  function FillsStrayed(b: Applied, h: nat, fs: seq<Fill>, a: Astray): (r: Astray)
    requires h < |b.kernel.state.holdings|
    ensures |r.drifts| == |a.drifts|
  {
    if fs == [] then a
    else Strayed(BookFills(b, h, fs[..|fs| - 1]).kernel.state, fs[|fs| - 1], FillsStrayed(b, h, fs[..|fs| - 1], a))
  }

  lemma {:induction false} FillsApart(b: Applied, h: nat, fs: seq<Fill>, ids: seq<nat>, ts: seq<Track>, c: int, a: Astray)
    requires h < |b.kernel.state.holdings| && ApartSince(b, ids, ts, c, a)
    ensures ApartSince(BookFills(b, h, fs), ids, ts, c, FillsStrayed(b, h, fs, a))
  {
    if fs != [] {
      var n := |fs| - 1;
      var d := BookFills(b, h, fs[..n]);
      var s := d.kernel.state;
      FillsApart(b, h, fs[..n], ids, ts, c, a);
      var charged := Charged(s, s.schedule.Charge(s.holdings[h].tickCash, fs[n]));
      BookedApart(d, charged, fs[n], Dropped(d.kernel.working, fs[n].order), ids, ts, c, FillsStrayed(b, h, fs[..n], a));
    }
  }

  // ----- an event

  lemma QuietApart(b: Applied, r: Applied, ids: seq<nat>, ts: seq<Track>, c: int, a: Astray)
    requires ApartSince(b, ids, ts, c, a) && SameLegs(b.kernel.state, r.kernel.state)
    requires r.out == b.out || (|r.out| == |b.out| + 1 && r.out[..|b.out|] == b.out && Quiet(r.out[|b.out|]))
    ensures ApartSince(r, ids, ts, c, a)
  {
    var seen := SeenAll(Hedge, ids, ts, b.out);
    SameLegsTally(b.kernel.state, r.kernel.state, ids, seen, c, a);
    if r.out != b.out {
      assert SeenEach(Hedge, ids, seen, r.out[|b.out|]) == seen;
    }
  }

  lemma CheckedApart(b: Applied, mark: int, ids: seq<nat>, ts: seq<Track>, c: int, a: Astray)
    requires ApartSince(b, ids, ts, c, a)
    ensures ApartSince(Checked(b, mark), ids, ts, c, a)
  {
    var s := b.kernel.state;
    LiquidateTallies(s, ids, SeenAll(Hedge, ids, ts, b.out), c, a, mark);
    SeenAppend(Hedge, ids, ts, b.out, Liquidate(s, mark).out);
  }

  /** The account a venue fill is booked on. */
  function Prepared(k: KernelV, f: Fill, fee: Fee): StateV
    requires k.state.holdings != []
  {
    var s := FeeNoted(Fulfilled(k.state, f), fee);
    Charged(s, FeeOf(s, f, fee))
  }

  lemma PreparedKeeps(k: KernelV, f: Fill, fee: Fee)
    requires k.state.holdings != []
    ensures SameLegs(k.state, Prepared(k, f, fee))
    ensures Prepared(k, f, fee).IndexOf(f.instrument) == k.state.IndexOf(f.instrument)
  {
    var s := FeeNoted(Fulfilled(k.state, f), fee);
    PreparedSameLegs(k.state, f, fee);
    Routing.FulfilledOwners(k.state, f, fee);
    Routing.OwnersRoute(k.state, s, f.instrument);
  }

  lemma VenueBookedApart(k: KernelV, f: Fill, fee: Fee, ids: seq<nat>, ts: seq<Track>, c: int, a: Astray)
    requires k.state.holdings != [] && ApartSince(Applied(k, []), ids, ts, c, a)
    ensures ApartSince(VenueBooked(k, f, fee), ids, ts, c, Strayed(k.state, f, a))
  {
    PreparedKeeps(k, f, fee);
    BookedApart(Applied(k, []), Prepared(k, f, fee), f, Dropped(k.working, f.order), ids, ts, c, a);
    assert [] + [Filled(f)] == [Filled(f)];
  }

  /** What an observation adds: the fills it brings, where they are simulated. */
  function TickStrayed(k: KernelV, h: nat, t: Tick, a: Astray): (r: Astray)
    requires h < |k.state.holdings|
    ensures |r.drifts| == |a.drifts|
  {
    if k.state.matching.Venue? then a
    else FillsStrayed(Applied(k.(state := Matched(Marked(k.state, h, t), h, t)), []), h, Matching.FillsOn(k.state.holdings[h].engine, t), a)
  }

  lemma TickBookedApart(k: KernelV, h: nat, t: Tick, ids: seq<nat>, ts: seq<Track>, c: int, a: Astray)
    requires h < |k.state.holdings| && ApartSince(Applied(k, []), ids, ts, c, a)
    ensures ApartSince(TickBooked(k, h, t), ids, ts, c, TickStrayed(k, h, t, a))
  {
    var s := Marked(k.state, h, t);
    MarkingKeepsLegs(k.state, h, t);
    if s.matching.Venue? {
      QuietApart(Applied(k, []), Applied(k.(state := s), []), ids, ts, c, a);
    } else {
      var b := Applied(k.(state := Matched(s, h, t)), []);
      QuietApart(Applied(k, []), b, ids, ts, c, a);
      FillsApart(b, h, Matching.FillsOn(s.holdings[h].engine, t), ids, ts, c, a);
    }
  }

  /** What an event adds: what the fills it books add. */
  function EventStrayed(k: KernelV, e: Event, a: Astray): (r: Astray)
    ensures |r.drifts| == |a.drifts|
  {
    match e
    case TickSeen(instrument, t) =>
      if Route(k.state, instrument).Some? then TickStrayed(k, Route(k.state, instrument).value, t, a) else a
    case VenueFill(f, _) => if k.state.matching.Venue? then Strayed(k.state, f, a) else a
    case _ => a
  }

  /** Events that book no fill move no leg before their check. */
  lemma QuietBeforeCheck(k: KernelV, e: Event)
    requires k.state.holdings != [] && !e.TickSeen? && !e.VenueFill?
    ensures SameLegs(k.state, BeforeCheck(k, e).kernel.state)
    ensures BeforeCheck(k, e).out == [] || (|BeforeCheck(k, e).out| == 1 && Quiet(BeforeCheck(k, e).out[0]))
  {
    match e
    case Cancel(id, _) => AskingKeepsLegs(k.state, 0, id);
    case Funding(_, _, _, _) => QuietFunding(k, e);
    case Submit(_, _, _, _, _, _, _) =>
    case _ => QuietEventKeepsLegs(k, e);
  }

  lemma QuietFunding(k: KernelV, e: Event)
    requires k.state.holdings != [] && e.Funding?
    ensures var b := BeforeCheck(k, e);
      SameLegs(k.state, b.kernel.state) && (b.out == [] || (|b.out| == 1 && Quiet(b.out[0])))
  {
  }

  lemma SeenTickApart(k: KernelV, instrument: Option<nat>, t: Tick, ids: seq<nat>, ts: seq<Track>, c: int, a: Astray)
    requires k.state.holdings != [] && ApartSince(Applied(k, []), ids, ts, c, a)
    ensures var e := TickSeen(instrument, t); ApartSince(BeforeCheck(k, e), ids, ts, c, EventStrayed(k, e, a))
  {
    if Route(k.state, instrument).Some? {
      TickBookedApart(k, Route(k.state, instrument).value, t, ids, ts, c, a);
    } else {
      QuietApart(Applied(k, []), Refusal(k, 0, UnroutableObservation), ids, ts, c, a);
    }
  }

  lemma VenueFillApart(k: KernelV, f: Fill, fee: Fee, ids: seq<nat>, ts: seq<Track>, c: int, a: Astray)
    requires k.state.holdings != [] && ApartSince(Applied(k, []), ids, ts, c, a)
    ensures var e := VenueFill(f, fee); ApartSince(BeforeCheck(k, e), ids, ts, c, EventStrayed(k, e, a))
  {
    if k.state.matching.Venue? {
      VenueBookedApart(k, f, fee, ids, ts, c, a);
    } else {
      QuietApart(Applied(k, []), Refusal(k, f.order, NotVenueMatched), ids, ts, c, a);
    }
  }

  lemma BeforeCheckApart(k: KernelV, e: Event, ids: seq<nat>, ts: seq<Track>, c: int, a: Astray)
    requires k.state.holdings != [] && ApartSince(Applied(k, []), ids, ts, c, a)
    ensures ApartSince(BeforeCheck(k, e), ids, ts, c, EventStrayed(k, e, a))
  {
    match e
    case TickSeen(instrument, t) => SeenTickApart(k, instrument, t, ids, ts, c, a);
    case VenueFill(f, fee) => VenueFillApart(k, f, fee, ids, ts, c, a);
    case _ =>
      QuietBeforeCheck(k, e);
      QuietApart(Applied(k, []), BeforeCheck(k, e), ids, ts, c, a);
  }

  lemma EventApart(k: KernelV, e: Event, ids: seq<nat>, ts: seq<Track>, c: int, a: Astray)
    requires k.state.holdings != [] && ApartSince(Applied(k, []), ids, ts, c, a)
    ensures ApartSince(Apply(k, e), ids, ts, c, EventStrayed(k, e, a))
  {
    BeforeCheckApart(k, e, ids, ts, c, a);
    AppliedIsChecked(k, e);
    if CheckedAt(k, e).Some? {
      CheckedApart(BeforeCheck(k, e), CheckedAt(k, e).value, ids, ts, c, EventStrayed(k, e, a));
    }
  }

  // ----- a run

  /** What a run adds to an account that agrees with its outputs. */
  function RunStrayed(k: KernelV, es: seq<Event>): (r: Astray)
    requires k.state.holdings != []
    ensures |r.drifts| == |k.state.holdings|
  {
    if es == [] then Aligned(|k.state.holdings|)
    else EventStrayed(Run(k, es[..|es| - 1]).kernel, es[|es| - 1], RunStrayed(k, es[..|es| - 1]))
  }

  lemma {:induction false} RunApart(k: KernelV, es: seq<Event>, ids: seq<nat>, ts: seq<Track>, c: int)
    requires k.state.holdings != [] && ApartSince(Applied(k, []), ids, ts, c, Aligned(|k.state.holdings|))
    ensures ApartSince(Run(k, es), ids, ts, c, RunStrayed(k, es))
  {
    if es != [] {
      var n := |es| - 1;
      var b := Run(k, es[..n]);
      RunApart(k, es[..n], ids, ts, c);
      EventApart(b.kernel, es[n], ids, SeenAll(Hedge, ids, ts, b.out), c, RunStrayed(k, es[..n]));
      SeenAppend(Hedge, ids, ts, b.out, Apply(b.kernel, es[n]).out);
    }
  }

  function DrainedAt(b: Applied, h: nat): (r: Applied)
    requires h < |b.kernel.state.holdings|
    ensures |r.kernel.state.holdings| == |b.kernel.state.holdings|
  {
    var s := b.kernel.state;
    b.(kernel := b.kernel.(state := WithEngine(s, h, Matching.Drained(s.holdings[h].engine))))
  }

  /** What booking the fills one holding's matcher held back adds. */
  function SettleStrayed(b: Applied, h: nat, a: Astray): (r: Astray)
    requires h < |b.kernel.state.holdings|
    ensures |r.drifts| == |a.drifts|
  {
    FillsStrayed(DrainedAt(b, h), h, Matching.Unreported(b.kernel.state.holdings[h].engine), a)
  }

  /** And every holding's, at the end. */
  function SettledStrayed(b: Applied, h: nat, a: Astray): (r: Astray)
    requires h <= |b.kernel.state.holdings|
    ensures |r.drifts| == |a.drifts|
  {
    if h == 0 then a else SettleStrayed(SettledTo(b, h - 1), h - 1, SettledStrayed(b, h - 1, a))
  }

  lemma SettleApart(b: Applied, h: nat, ids: seq<nat>, ts: seq<Track>, c: int, a: Astray)
    requires h < |b.kernel.state.holdings| && ApartSince(b, ids, ts, c, a)
    ensures ApartSince(SettledAt(b, h), ids, ts, c, SettleStrayed(b, h, a))
  {
    QuietApart(b, DrainedAt(b, h), ids, ts, c, a);
    FillsApart(DrainedAt(b, h), h, Matching.Unreported(b.kernel.state.holdings[h].engine), ids, ts, c, a);
  }

  /** Once `h` holdings have settled; folded. */
  ghost predicate SettledApart(b: Applied, h: nat, ids: seq<nat>, ts: seq<Track>, c: int, a: Astray) {
    forall k {:trigger Seal(k)} :: Seal(k) && h <= |b.kernel.state.holdings| ==>
      ApartSince(SettledTo(b, h), ids, ts, c, SettledStrayed(b, h, a))
  }

  lemma SettleOneApart(b: Applied, h: nat, ids: seq<nat>, ts: seq<Track>, c: int, a: Astray)
    requires h < |b.kernel.state.holdings| && SettledApart(b, h, ids, ts, c, a)
    ensures SettledApart(b, h + 1, ids, ts, c, a)
  {
    assert Seal(0);
    SettledStep(b, h);
    SettleApart(SettledTo(b, h), h, ids, ts, c, SettledStrayed(b, h, a));
  }

  lemma {:induction false} SettlingApart(b: Applied, h: nat, ids: seq<nat>, ts: seq<Track>, c: int, a: Astray)
    requires h <= |b.kernel.state.holdings| && SettledApart(b, 0, ids, ts, c, a)
    ensures SettledApart(b, h, ids, ts, c, a)
  {
    if h > 0 {
      var g: nat := h - 1;
      SettlingApart(b, g, ids, ts, c, a);
      SettleOneApart(b, g, ids, ts, c, a);
    }
  }

  lemma SettledIsApart(b: Applied, ids: seq<nat>, ts: seq<Track>, c: int, a: Astray)
    requires ApartSince(b, ids, ts, c, a)
    ensures var h := |b.kernel.state.holdings|; ApartSince(SettledTo(b, h), ids, ts, c, SettledStrayed(b, h, a))
  {
    assert SettledTo(b, 0) == b && SettledStrayed(b, 0, a) == a;
    SettlingApart(b, |b.kernel.state.holdings|, ids, ts, c, a);
    assert Seal(0);
  }

  // ----- one-way mode adds nothing

  lemma {:induction false} OneWayFills(b: Applied, h: nat, fs: seq<Fill>, a: Astray)
    requires h < |b.kernel.state.holdings| && b.kernel.state.mode.OneWay?
    ensures FillsStrayed(b, h, fs, a) == a && BookFills(b, h, fs).kernel.state.mode.OneWay?
  {
    if fs != [] {
      var n := |fs| - 1;
      OneWayFills(b, h, fs[..n], a);
      var s := BookFills(b, h, fs[..n]).kernel.state;
      FillKeepsMode(Charged(s, s.schedule.Charge(s.holdings[h].tickCash, fs[n])), fs[n]);
    }
  }

  lemma OneWayEvent(k: KernelV, e: Event, a: Astray)
    requires k.state.mode.OneWay?
    ensures EventStrayed(k, e, a) == a
  {
    if e.TickSeen? && Route(k.state, e.instrument).Some? && k.state.matching.Simulated? {
      var h, t := Route(k.state, e.instrument).value, e.tick;
      OneWayFills(Applied(k.(state := Matched(Marked(k.state, h, t), h, t)), []), h, Matching.FillsOn(k.state.holdings[h].engine, t), a);
    }
  }

  lemma {:induction false} OneWayRun(k: KernelV, es: seq<Event>)
    requires k.state.holdings != [] && k.state.mode.OneWay?
    ensures RunStrayed(k, es) == Aligned(|k.state.holdings|) && Run(k, es).kernel.state.mode.OneWay?
  {
    if es != [] {
      var n := |es| - 1;
      OneWayRun(k, es[..n]);
      OneWayEvent(Run(k, es[..n]).kernel, es[n], RunStrayed(k, es[..n]));
      Routing.ApplyOwners(Run(k, es[..n]).kernel, es[n]);
    }
  }

  lemma OneWaySettle(b: Applied, h: nat, a: Astray)
    requires h < |b.kernel.state.holdings| && b.kernel.state.mode.OneWay?
    ensures SettleStrayed(b, h, a) == a && SettledAt(b, h).kernel.state.mode.OneWay?
  {
    OneWayFills(DrainedAt(b, h), h, Matching.Unreported(b.kernel.state.holdings[h].engine), a);
  }

  /** Once `h` holdings have settled; folded. */
  ghost predicate SettledOneWay(b: Applied, h: nat, a: Astray) {
    forall k {:trigger Seal(k)} :: Seal(k) && h <= |b.kernel.state.holdings| ==>
      SettledStrayed(b, h, a) == a && SettledTo(b, h).kernel.state.mode.OneWay?
  }

  lemma SettleOneWay(b: Applied, h: nat, a: Astray)
    requires h < |b.kernel.state.holdings| && SettledOneWay(b, h, a)
    ensures SettledOneWay(b, h + 1, a)
  {
    assert Seal(0);
    SettledStep(b, h);
    OneWaySettle(SettledTo(b, h), h, a);
  }

  lemma {:induction false} OneWaySettling(b: Applied, h: nat, a: Astray)
    requires h <= |b.kernel.state.holdings| && SettledOneWay(b, 0, a)
    ensures SettledOneWay(b, h, a)
  {
    if h > 0 {
      var g: nat := h - 1;
      OneWaySettling(b, g, a);
      SettleOneWay(b, g, a);
    }
  }

  lemma OneWayEnd(b: Applied, a: Astray)
    requires b.kernel.state.mode.OneWay?
    ensures SettledStrayed(b, |b.kernel.state.holdings|, a) == a
  {
    assert SettledTo(b, 0) == b && SettledStrayed(b, 0, a) == a;
    OneWaySettling(b, |b.kernel.state.holdings|, a);
    assert Seal(0);
  }

  // ----- the identity

  function OpeningProfit(k: KernelV): int {
    k.state.realized - TotalBasis(k.state.holdings)
  }

  lemma OpenApart(k: KernelV)
    requires Openable(k.state) && k.state.mode.Hedge?
    ensures ApartSince(Applied(k, []), Ids(k.state.holdings), Start(k.state.holdings), OpeningProfit(k), Aligned(|k.state.holdings|))
  {
    OpenTied(k);
  }

  lemma ApartIsIdentity(k: KernelV, r: Applied, marks: seq<int>, a: Astray)
    requires |marks| == |k.state.holdings| && k.state.mode.Hedge?
    requires ApartSince(r, Ids(k.state.holdings), Start(k.state.holdings), OpeningProfit(k), a)
    ensures Identity(k, r, marks) <==> a == Aligned(|marks|)
  {
    var s, n := r.kernel.state, |marks|;
    var ts := SeenAll(Hedge, Ids(k.state.holdings), Start(k.state.holdings), r.out);
    forall h | 0 <= h < n ensures SameSizes(s.holdings[h], ts[h]) <==> a.drifts[h] == TOGETHER {
      assert TalliesOne(s.holdings[h], Ids(k.state.holdings)[h], ts[h], a.drifts[h]);
    }
    assert (forall h :: 0 <= h < n ==> a.drifts[h] == TOGETHER) <==> a.drifts == Aligned(n).drifts;
    if forall h :: 0 <= h < n ==> SameSizes(s.holdings[h], ts[h]) {
      WorthIsFlows(s.holdings, ts, marks);
    }
  }

  /** For every account that may be opened and every run of events, fills of any size and legs of
      either sign among them: the identity holds at its end if and only if what its hedged fills
      added comes to nothing. */
  lemma RunIdentityIff(k: KernelV, es: seq<Event>, marks: seq<int>)
    requires Openable(k.state) && |marks| == |k.state.holdings|
    ensures Identity(k, Run(k, es), marks) <==> RunStrayed(k, es) == Aligned(|marks|)
  {
    if k.state.mode.Hedge? {
      OpenApart(k);
      RunApart(k, es, Ids(k.state.holdings), Start(k.state.holdings), OpeningProfit(k));
      ApartIsIdentity(k, Run(k, es), marks, RunStrayed(k, es));
    } else {
      CashFlowIdentity(k, es, marks);
      OneWayRun(k, es);
    }
  }

  /** Nothing is added by a run whose venue fills, and fills held back at its start, are of sizes
      that are not negative. */
  lemma SizedRunsAddNothing(k: KernelV, es: seq<Event>)
    requires Openable(k.state) && SizedStart(k.state) && SizedEvents(k.state, es)
    ensures RunStrayed(k, es) == Aligned(|k.state.holdings|)
  {
    var marks := seq(|k.state.holdings|, h => 0);
    CashFlowIdentity(k, es, marks);
    RunIdentityIff(k, es, marks);
  }

  /** And once every fill held back has been booked. */
  lemma FinalIdentityIff(k: KernelV, es: seq<Event>, marks: seq<int>)
    requires Openable(k.state) && |marks| == |k.state.holdings|
    ensures Identity(k, SettledTo(Run(k, es), |marks|), marks)
       <==> SettledStrayed(Run(k, es), |marks|, RunStrayed(k, es)) == Aligned(|marks|)
  {
    if k.state.mode.Hedge? {
      var ids, ts := Ids(k.state.holdings), Start(k.state.holdings);
      OpenApart(k);
      RunApart(k, es, ids, ts, OpeningProfit(k));
      SettledIsApart(Run(k, es), ids, ts, OpeningProfit(k), RunStrayed(k, es));
      ApartIsIdentity(k, SettledTo(Run(k, es), |marks|), marks, SettledStrayed(Run(k, es), |marks|, RunStrayed(k, es)));
    } else {
      FinalCashFlowIdentity(k, es, marks);
      OneWayRun(k, es);
      OneWayEnd(Run(k, es), RunStrayed(k, es));
    }
  }

  /** For every hedged account that may be opened and every venue fill of a holding, whatever its
      size: the cash-flow identity survives the event if and only if the fill keeps the flow. */
  lemma IdentitySurvivesIff(k: KernelV, f: Fill, fee: Fee, marks: seq<int>)
    requires Openable(k.state) && k.state.mode.Hedge? && k.state.matching.Venue? && Routing.IsHeld(k.state, f.instrument)
    requires |marks| == |k.state.holdings|
    ensures Identity(k, Run(k, [VenueFill(f, fee)]), marks) <==> KeepsFlow(k.state.holdings[k.state.IndexOf(f.instrument)], f)
  {
    var h, n := k.state.IndexOf(f.instrument), |marks|;
    RunIdentityIff(k, [VenueFill(f, fee)], marks);
    OneStrayed(k, VenueFill(f, fee), n);
    UprightSlip(k.state.holdings[h], f);
    assert Aligned(n).drifts[h := TOGETHER] == Aligned(n).drifts;
  }

  lemma OneStrayed(k: KernelV, e: Event, n: nat)
    requires k.state.holdings != [] && n == |k.state.holdings|
    ensures RunStrayed(k, [e]) == EventStrayed(k, e, Aligned(n))
  {
    assert [e][..0] == [];
    assert RunStrayed(k, []) == Aligned(n);
  }

  // ----- the inputs

  /** A hedged account matched by its venue: a long of ten lots bought at 100. */
  function LongTen(): KernelV {
    var v := NewHolding(1, 1, [MarginTier(0, 0, 0)]).(long := Leg(10, 100, EntryCost(10, 100, 1000)));
    KernelV(StateV([v], Hedge, 0, 0, 0, 0, Fees(0, 0), true, false, 0, false, Venue, 0), [])
  }

  function MinusFive(side: Side, offset: Offset): Event {
    VenueFill(Fill(Stamp(0, 0), 1, 7, 1, side, offset, 100, -5, Taker), Reported(0))
  }

  lemma LongTenOpenable()
    ensures Openable(LongTen().state) && Routing.IsHeld(LongTen().state, 1) && LongTen().state.IndexOf(1) == 0
    ensures Routing.Named(LongTen().state) && Routing.HeldBackSized(LongTen().state)
  {
    assert LongTen().state.holdings[0].instrument == 1;
  }

  /** Opening minus five lots at the price they are held at breaks the identity: five lots are
      left, carrying the cost of fifteen. */
  lemma NegativeOpenBreaksTheIdentity()
    ensures !Identity(LongTen(), Run(LongTen(), [MinusFive(Buy, Open)]), [100])
    ensures Slip(LongTen().state.holdings[0], TOGETHER, MinusFive(Buy, Open).fill) == -1000
  {
    LongTenOpenable();
    IdentitySurvivesIff(LongTen(), MinusFive(Buy, Open).fill, Reported(0), [100]);
  }

  /** So does closing minus five: fifteen lots are held, and a profit of 1000 is booked that no
      cash flow brought in. */
  lemma NegativeCloseBreaksTheIdentity()
    ensures !Identity(LongTen(), Run(LongTen(), [MinusFive(Sell, Market.Close)]), [100])
    ensures Slip(LongTen().state.holdings[0], TOGETHER, MinusFive(Sell, Market.Close).fill) == 1000
  {
    LongTenOpenable();
    IdentitySurvivesIff(LongTen(), MinusFive(Sell, Market.Close).fill, Reported(0), [100]);
  }

  function Opens(qty: int): Event {
    VenueFill(Fill(Stamp(0, 0), 1, 7, 1, Buy, Open, 100, qty, Taker), Reported(0))
  }

  /** One hedged holding that its venue fills, with this many lots long and no liquidation. */
  predicate HoldsLong(s: StateV, qty: int) {
    && |s.holdings| == 1 && s.holdings[0].instrument == 1 && s.holdings[0].long.qty == qty
    && s.mode.Hedge? && s.matching.Venue? && !s.enforce
  }

  lemma OpenedLong(k: KernelV, held: int, qty: int, a: Astray)
    requires HoldsLong(k.state, held) && qty != 0 && |a.drifts| == 1
    ensures HoldsLong(Apply(k, Opens(qty)).kernel.state, Abs(held) + qty)
    ensures EventStrayed(k, Opens(qty), a).drifts == [Drift(a.drifts[0].long + Abs(held) - held, a.drifts[0].short)]
  {
    assert k.state.IndexOf(1) == 0;
  }

  lemma TwoStrayed(k: KernelV, d: Event, e: Event)
    requires k.state.holdings != []
    ensures RunStrayed(k, [] + [d] + [e])
         == EventStrayed(Apply(k, d).kernel, e, EventStrayed(k, d, Aligned(|k.state.holdings|)))
  {
    assert ([] + [d] + [e])[..1] == [d] && [d][..0] == [];
    assert Run(k, []).kernel == k;
    assert Run(k, [d]).kernel == Apply(k, d).kernel;
    OneStrayed(k, d, |k.state.holdings|);
  }

  lemma TurnedOver(k: KernelV, es: seq<Event>)
    requires HoldsLong(k.state, 10) && es == [] + [Opens(-15)] + [Opens(5)]
    ensures Run(k, es).kernel.state.holdings[0].long.qty == 10 && RunStrayed(k, es).drifts == [Drift(10, 0)]
  {
    var a := Aligned(1);
    OpenedLong(k, 10, -15, a);
    OpenedLong(Apply(k, Opens(-15)).kernel, -5, 5, EventStrayed(k, Opens(-15), a));
    RunOfTwo(k, Opens(-15), Opens(5));
    TwoStrayed(k, Opens(-15), Opens(5));
  }

  lemma PartedAt(k: KernelV, es: seq<Event>, marks: seq<int>)
    requires Openable(k.state) && |marks| == |k.state.holdings| == 1 && RunStrayed(k, es).drifts == [Drift(10, 0)]
    ensures !Identity(k, Run(k, es), marks)
  {
    RunIdentityIff(k, es, marks);
    assert RunStrayed(k, es).drifts[0] != Aligned(1).drifts[0];
  }

  /** Opening minus fifteen turns the leg over, and opening five more then adds to what it holds:
      the books have a long of ten where the fills reported leave none. */
  lemma OverturnedLegParts()
    ensures var r := Run(LongTen(), [] + [Opens(-15)] + [Opens(5)]);
      r.kernel.state.holdings[0].long.qty == 10 && !Identity(LongTen(), r, [100])
    ensures RunStrayed(LongTen(), [] + [Opens(-15)] + [Opens(5)]).drifts == [Drift(10, 0)]
  {
    LongTenOpenable();
    TurnedOver(LongTen(), [] + [Opens(-15)] + [Opens(5)]);
    PartedAt(LongTen(), [] + [Opens(-15)] + [Opens(5)], [100]);
  }
}
