/** The exact cash-flow identity: realized plus unrealized profit is what the output stream
    says was bought and sold, with no rounding loss (crates/oq-core/src/kernel.rs). */
module CashFlow {
  import opened Folding
  import opened Numbers
  import opened Cost
  import opened Ledger
  import opened Market
  import opened Events
  import opened Account
  import Matching
  import Routing

  // ----- reading one instrument's positions and flows off the outputs

  /** Position by leg, and the signed sum of quantity times price that built it. */
  datatype Track = Track(long: int, short: int, flow: int) {
    function Long(d: int, price: int): Track {
      Track(long + d, short, flow + d * price)
    }

    function Short(d: int, price: int): Track {
      Track(long, short + d, flow + d * price)
    }
  }

  /** What a reader of the outputs does with one of them. In hedge mode an oversized close
      counts only for the lots held. */
  function Seen(mode: PositionMode, instrument: nat, t: Track, o: Output): Track {
    match o
    case Filled(f) =>
      if f.instrument != instrument then t
      else if mode.OneWay? then t.Long(PositionDelta(f), f.price)
      else if f.offset.Open? then (if f.side.Buy? then t.Long(f.qty, f.price) else t.Short(0 - f.qty, f.price))
      else if f.side.Sell? then t.Long(0 - HeldPart(t.long, f.qty), f.price)
      else t.Short(HeldPart(t.short, f.qty), f.price)
    case Liquidated(_, price, _, _, _, inst, long, short) =>
      if inst != instrument then t else t.Long(0 - long, price).Short(0 - short, price)
    case _ => t
  }

  function HeldPart(held: int, qty: int): int {
    if held == 0 then 0 else Min(qty, Abs(held))
  }

  function SeenEach(mode: PositionMode, ids: seq<nat>, ts: seq<Track>, o: Output): (r: seq<Track>)
    requires |ids| == |ts|
    ensures |r| == |ts|
  {
    seq(|ts|, h requires 0 <= h < |ts| => Seen(mode, ids[h], ts[h], o))
  }

  function SeenAll(mode: PositionMode, ids: seq<nat>, ts: seq<Track>, out: seq<Output>): (r: seq<Track>)
    requires |ids| == |ts|
    ensures |r| == |ts|
  {
    if out == [] then ts
    else SeenEach(mode, ids, SeenAll(mode, ids, ts, out[..|out| - 1]), out[|out| - 1])
  }

  lemma {:induction false} SeenAppend(mode: PositionMode, ids: seq<nat>, ts: seq<Track>, p: seq<Output>, q: seq<Output>)
    requires |ids| == |ts|
    ensures SeenAll(mode, ids, ts, p + q) == SeenAll(mode, ids, SeenAll(mode, ids, ts, p), q)
  {
    if q == [] {
      assert p + q == p;
    } else {
      SeenAppend(mode, ids, ts, p, q[..|q| - 1]);
      assert (p + q)[..|p + q| - 1] == p + q[..|q| - 1];
    }
  }

  lemma SeenOne(mode: PositionMode, ids: seq<nat>, ts: seq<Track>, p: seq<Output>, o: Output)
    requires |ids| == |ts|
    ensures SeenAll(mode, ids, ts, p + [o]) == SeenEach(mode, ids, SeenAll(mode, ids, ts, p), o)
  {
    assert (p + [o])[..|p + [o]| - 1] == p;
  }

  // ----- the tie between the books and the stream

  /** What a holding's books still owe its flows; realized profit is the rest. */
  function Gap(v: HoldingV, t: Track): int {
    Basis(v.tickCash, v.long) + Basis(v.tickCash, v.short) - v.tickCash * t.flow
  }

  function SumGap(hs: seq<HoldingV>, ts: seq<Track>): int
    requires |hs| == |ts|
  {
    if hs == [] then 0 else SumGap(hs[..|hs| - 1], ts[..|ts| - 1]) + Gap(hs[|hs| - 1], ts[|ts| - 1])
  }

  lemma {:induction false} SumGapPut(hs: seq<HoldingV>, ts: seq<Track>, h: nat, v: HoldingV, t: Track)
    requires |hs| == |ts| && h < |hs|
    ensures SumGap(hs[h := v], ts[h := t]) == SumGap(hs, ts) - Gap(hs[h], ts[h]) + Gap(v, t)
  {
    var n := |hs| - 1;
    if h < n {
      SumGapPut(hs[..n], ts[..n], h, v, t);
      assert hs[h := v][..n] == hs[..n][h := v] && ts[h := t][..n] == ts[..n][h := t];
    } else {
      assert hs[h := v][..n] == hs[..n] && ts[h := t][..n] == ts[..n];
    }
  }

  /** The legs a mode allows: one net position, or a long and a short apart. */
  predicate Legal(mode: PositionMode, v: HoldingV) {
    if mode.OneWay? then v.short.qty == 0 else v.long.qty >= 0 && v.short.qty <= 0
  }

  predicate TiedOne(mode: PositionMode, id: nat, v: HoldingV, t: Track) {
    v.instrument == id && v.long.qty == t.long && v.short.qty == t.short && Legal(mode, v)
  }

  ghost predicate Distinct(ids: seq<nat>) {
    forall i, j :: 0 <= i < j < |ids| ==> ids[i] != ids[j]
  }

  /** The books agree with the tracks, up to the constant the run started from. */
  ghost predicate Tied(s: StateV, ids: seq<nat>, ts: seq<Track>, c: int) {
    && |ids| == |ts| == |s.holdings| && Distinct(ids)
    && (forall h :: 0 <= h < |ts| ==> TiedOne(s.mode, ids[h], s.holdings[h], ts[h]))
    && s.realized == c + SumGap(s.holdings, ts)
  }

  /** Changing one holding keeps the tie when its gap moves with realized profit. */
  lemma TiedPut(s: StateV, r: StateV, ids: seq<nat>, ts: seq<Track>, c: int, h: nat, t: Track, o: Output)
    requires Tied(s, ids, ts, c) && h < |s.holdings|
    requires r.mode == s.mode && |r.holdings| == |s.holdings| && r.holdings == s.holdings[h := r.holdings[h]]
    requires TiedOne(s.mode, ids[h], r.holdings[h], t)
    requires r.realized - s.realized == Gap(r.holdings[h], t) - Gap(s.holdings[h], ts[h])
    requires Seen(s.mode, ids[h], ts[h], o) == t
    requires forall i :: 0 <= i < |ids| && ids[i] != ids[h] ==> Seen(s.mode, ids[i], ts[i], o) == ts[i]
    ensures Tied(r, ids, SeenEach(s.mode, ids, ts, o), c)
  {
    SumGapPut(s.holdings, ts, h, r.holdings[h], t);
    assert SeenEach(s.mode, ids, ts, o) == ts[h := t];
  }

  // ----- one fill

  lemma FlowGrows(tickCash: int, flow: int, d: int, price: int)
    ensures tickCash * (flow + d * price) == tickCash * flow + tickCash * (d * price)
  {
    var x := d * price;
    Distribute(flow, x, tickCash);
    assert (flow + x) * tickCash == tickCash * (flow + x);
    assert flow * tickCash == tickCash * flow;
    assert x * tickCash == tickCash * x;
  }

  lemma OpenKeepsGap(v: HoldingV, t: Track, onShort: bool, qty: int, price: int, sign: int)
    requires qty >= 0 && (qty > 0 ==> sign == 1 || sign == -1)
    requires var l := if onShort then v.short else v.long;
      l.qty * sign >= 0 && (qty > 0 ==> (l.qty > 0 ==> sign == 1) && (l.qty < 0 ==> sign == -1))
    ensures var t' := if onShort then t.Short(sign * qty, price) else t.Long(sign * qty, price);
      Gap(v.Open(onShort, qty, price, sign), t') == Gap(v, t)
    ensures var r := v.Open(onShort, qty, price, sign);
      if onShort then r.short.qty == v.short.qty + sign * qty && r.long == v.long
      else r.long.qty == v.long.qty + sign * qty && r.short == v.short
  {
    EnlargedBasis(v.tickCash, if onShort then v.short else v.long, qty, price, sign);
    FlowGrows(v.tickCash, t.flow, sign * qty, price);
  }

  lemma CloseMovesGap(v: HoldingV, t: Track, onShort: bool, qty: int, price: int)
    requires qty >= 0
    ensures var l := if onShort then v.short else v.long;
      var d := 0 - SignOf(l.qty) * LotsClosed(l, qty);
      var t' := if onShort then t.Short(d, price) else t.Long(d, price);
      Gap(v.Close(onShort, qty, price), t') == Gap(v, t) + v.CloseProfit(onShort, qty, price)
    ensures var l := if onShort then v.short else v.long;
      var d := 0 - SignOf(l.qty) * LotsClosed(l, qty);
      var r := v.Close(onShort, qty, price);
      if onShort then r.short.qty == v.short.qty + d && r.long == v.long
      else r.long.qty == v.long.qty + d && r.short == v.short
  {
    var l := if onShort then v.short else v.long;
    ShrunkBasis(v.tickCash, l, qty, price);
    FlowGrows(v.tickCash, t.flow, 0 - SignOf(l.qty) * LotsClosed(l, qty), price);
  }

  lemma TwoFlows(flow: int, a: int, b: int, price: int)
    ensures flow + a * price + b * price == flow + (a + b) * price
  {
    Distribute(a, b, price);
  }

  function Crossed(v: HoldingV, d: int, price: int): HoldingV {
    var closed := Min(Abs(d), Abs(v.long.qty));
    var v1 := v.Close(false, closed, price);
    if Abs(d) > closed then v1.Open(false, Abs(d) - closed, price, Sign(d)) else v1
  }

  /** One-way, a fill that closes some of the position and may cross through flat. */
  lemma CrossingGap(v: HoldingV, t: Track, d: int, price: int)
    requires v.long.qty == t.long && Reduces(v.long, d)
    ensures Crossed(v, d, price).long.qty == t.long + d && Crossed(v, d, price).short == v.short
    ensures Gap(Crossed(v, d, price), t.Long(d, price))
         == Gap(v, t) + v.CloseProfit(false, Min(Abs(d), Abs(v.long.qty)), price)
  {
    var closed := Min(Abs(d), Abs(v.long.qty));
    CloseMovesGap(v, t, false, closed, price);
    assert LotsClosed(v.long, closed) == closed;
    if Abs(d) > closed {
      ThroughFlat(v.Close(false, closed, price), t, 0 - SignOf(v.long.qty) * closed, d, price);
    }
  }

  /** What is left of a crossing fill opens the other side at a fresh cost. */
  lemma ThroughFlat(v: HoldingV, t: Track, e: int, d: int, price: int)
    requires v.long.qty == 0 && Abs(d) > Abs(e) && e * Sign(d) == Abs(e)
    ensures var r := v.Open(false, Abs(d) - Abs(e), price, Sign(d));
      r.long.qty == d - e && r.short == v.short && Gap(r, t.Long(d, price)) == Gap(v, t.Long(e, price))
  {
    OpenKeepsGap(v, t.Long(e, price), false, Abs(d) - Abs(e), price, Sign(d));
    TwoFlows(t.flow, e, d - e, price);
    assert Sign(d) * (Abs(d) - Abs(e)) == d - e;
  }

  lemma ReducingGap(s: StateV, h: nat, f: Fill, t: Track)
    requires h < |s.holdings| && s.holdings[h].long.qty == t.long && s.holdings[h].short.qty == t.short == 0
    requires Reduces(s.holdings[h].long, PositionDelta(f))
    ensures OneWayStep(s, h, f, t)
  {
    CrossingGap(s.holdings[h], t, PositionDelta(f), f.price);
    assert FillOneWay(s, h, f).holdings == s.holdings[h := Crossed(s.holdings[h], PositionDelta(f), f.price)];
  }

  ghost predicate OneWayStep(s: StateV, h: nat, f: Fill, t: Track)
    requires h < |s.holdings|
  {
    var r, t' := FillOneWay(s, h, f), t.Long(PositionDelta(f), f.price);
    && r.holdings == s.holdings[h := r.holdings[h]] && r.mode == s.mode
    && r.holdings[h].instrument == s.holdings[h].instrument
    && r.holdings[h].long.qty == t'.long && r.holdings[h].short.qty == 0
    && r.realized - s.realized == Gap(r.holdings[h], t') - Gap(s.holdings[h], t)
  }

  /** One-way: a fill that grows, shrinks, empties or crosses the position. */
  lemma OneWayGap(s: StateV, h: nat, f: Fill, t: Track)
    requires h < |s.holdings| && s.holdings[h].long.qty == t.long && s.holdings[h].short.qty == t.short == 0
    ensures OneWayStep(s, h, f, t)
  {
    var d := PositionDelta(f);
    if Reduces(s.holdings[h].long, d) {
      ReducingGap(s, h, f, t);
    } else {
      OpenKeepsGap(s.holdings[h], t, false, Abs(d), f.price, Sign(d));
    }
  }

  lemma HedgedGap(s: StateV, h: nat, f: Fill, t: Track)
    requires h < |s.holdings| && s.holdings[h].long.qty == t.long && s.holdings[h].short.qty == t.short
    requires t.long >= 0 && t.short <= 0 && f.qty >= 0 && f.instrument == s.holdings[h].instrument
    ensures var r, t' := FillHedged(s, h, f), Seen(Hedge, f.instrument, t, Filled(f));
      && r.holdings == s.holdings[h := r.holdings[h]] && r.mode == s.mode
      && r.holdings[h].instrument == s.holdings[h].instrument
      && r.holdings[h].long.qty == t'.long >= 0 && r.holdings[h].short.qty == t'.short <= 0
      && r.realized - s.realized == Gap(r.holdings[h], t') - Gap(s.holdings[h], t)
  {
    var v := s.holdings[h];
    if f.offset.Open? {
      OpenKeepsGap(v, t, !OnLong(f), f.qty, f.price, if OnLong(f) then 1 else -1);
    } else {
      CloseMovesGap(v, t, !OnLong(f), f.qty, f.price);
    }
  }

  lemma FillKeepsTie(s: StateV, ids: seq<nat>, ts: seq<Track>, c: int, f: Fill)
    requires Tied(s, ids, ts, c)
    requires s.mode.Hedge? ==> f.qty >= 0
    ensures Tied(WithFill(s, f), ids, SeenEach(s.mode, ids, ts, Filled(f)), c)
  {
    var h := s.IndexOf(f.instrument);
    if h == |s.holdings| {
      forall i | 0 <= i < |ids| ensures ids[i] != f.instrument {
        assert TiedOne(s.mode, ids[i], s.holdings[i], ts[i]);
      }
      assert SeenEach(s.mode, ids, ts, Filled(f)) == ts;
    } else {
      assert TiedOne(s.mode, ids[h], s.holdings[h], ts[h]);
      if s.mode.Hedge? {
        HedgedGap(s, h, f, ts[h]);
      } else {
        OneWayGap(s, h, f, ts[h]);
      }
      TiedPut(s, WithFill(s, f), ids, ts, c, h, Seen(s.mode, ids[h], ts[h], Filled(f)), Filled(f));
    }
  }

  // ----- liquidation

  lemma LiquidationGap(s: StateV, h: nat, price: int, t: Track)
    requires h < |s.holdings|
    ensures var v, r, t' := s.holdings[h], LiquidateOne(s, h, price), Seen(s.mode, s.holdings[h].instrument, t, Notice(s, h, price));
      r.realized - s.realized == Gap(r.holdings[h], t') - Gap(v, t)
      && t'.long == t.long - v.long.qty && t'.short == t.short - v.short.qty
  {
    var v := s.holdings[h];
    var a, b := v.long.qty, v.short.qty;
    WorthIsMarkLessBasis(v.tickCash, v.long, price);
    WorthIsMarkLessBasis(v.tickCash, v.short, price);
    FlowGrows(v.tickCash, t.flow, 0 - a, price);
    FlowGrows(v.tickCash, t.flow + (0 - a) * price, 0 - b, price);
    Negated(v.tickCash, a, price);
    Negated(v.tickCash, b, price);
  }

  lemma Negated(k: int, q: int, p: int)
    ensures k * ((0 - q) * p) == 0 - k * (q * p)
  {
    NegateProduct(q, p);
    var x := q * p;
    NegateProduct(x, k);
    assert (0 - x) * k == k * (0 - x);
    assert x * k == k * x;
  }

  lemma LiquidateOneKeepsTie(s: StateV, ids: seq<nat>, ts: seq<Track>, c: int, h: nat, price: int)
    requires Tied(s, ids, ts, c) && h < |s.holdings|
    ensures Tied(LiquidateOne(s, h, price), ids, SeenEach(s.mode, ids, ts, Notice(s, h, price)), c)
    ensures LiquidateOne(s, h, price).mode == s.mode
  {
    assert TiedOne(s.mode, ids[h], s.holdings[h], ts[h]);
    LiquidationGap(s, h, price, ts[h]);
    TiedPut(s, LiquidateOne(s, h, price), ids, ts, c, h, Seen(s.mode, ids[h], ts[h], Notice(s, h, price)), Notice(s, h, price));
  }

  lemma {:induction false} CloseEachKeepsTie(s: StateV, ids: seq<nat>, ts: seq<Track>, c: int, hs: seq<nat>, price: int)
    requires Tied(s, ids, ts, c) && forall i :: 0 <= i < |hs| ==> hs[i] < |s.holdings|
    ensures var r := CloseEach(s, hs, price);
      r.state.mode == s.mode && Tied(r.state, ids, SeenAll(s.mode, ids, ts, r.out), c)
    decreases |hs|
  {
    if hs != [] {
      var at := ClosingPrice(s, hs[0], price);
      LiquidateOneKeepsTie(s, ids, ts, c, hs[0], at);
      var s1, o := LiquidateOne(s, hs[0], at), Notice(s, hs[0], at);
      CloseEachKeepsTie(s1, ids, SeenEach(s.mode, ids, ts, o), c, hs[1..], price);
      SeenAppend(s.mode, ids, ts, [o], CloseEach(s1, hs[1..], price).out);
      assert [o][..0] == [];
    }
  }

  lemma {:induction false} SettledSeenSame(mode: PositionMode, ids: seq<nat>, ts: seq<Track>, out: seq<Output>, forfeited: int, n: nat)
    requires |ids| == |ts| && n <= |out|
    ensures SeenAll(mode, ids, ts, Settled(out, forfeited)[..n]) == SeenAll(mode, ids, ts, out[..n])
  {
    if n > 0 {
      SettledSeenSame(mode, ids, ts, out, forfeited, n - 1);
      var p := Settled(out, forfeited);
      assert p[..n] == p[..n - 1] + [p[n - 1]] && out[..n] == out[..n - 1] + [out[n - 1]];
      SeenOne(mode, ids, ts, p[..n - 1], p[n - 1]);
      SeenOne(mode, ids, ts, out[..n - 1], out[n - 1]);
      assert SeenEach(mode, ids, SeenAll(mode, ids, ts, p[..n - 1]), p[n - 1])
          == SeenEach(mode, ids, SeenAll(mode, ids, ts, out[..n - 1]), out[n - 1]);
    }
  }

  lemma LiquidateKeepsTie(s: StateV, ids: seq<nat>, ts: seq<Track>, c: int, price: int)
    requires Tied(s, ids, ts, c)
    ensures var r := Liquidate(s, price);
      r.state.mode == s.mode && Tied(r.state, ids, SeenAll(s.mode, ids, ts, r.out), c)
  {
    var hs := ToClose(s.holdings, 0);
    CloseEachKeepsTie(s, ids, ts, c, hs, price);
    var e := CloseEach(s, hs, price);
    SettledSeenSame(s.mode, ids, ts, e.out, e.state.balance, |e.out|);
    assert e.out[..|e.out|] == e.out && Settled(e.out, e.state.balance)[..|e.out|] == Settled(e.out, e.state.balance);
  }

  // ----- everything else

  /** Legs, realized profit and mode as they were. */
  ghost predicate SameLegs(s: StateV, r: StateV) {
    && r.mode == s.mode && r.realized == s.realized && |r.holdings| == |s.holdings|
    && forall h :: 0 <= h < |s.holdings| ==> SameLeg(s.holdings[h], r.holdings[h])
  }

  predicate SameLeg(v: HoldingV, w: HoldingV) {
    w.instrument == v.instrument && w.tickCash == v.tickCash && w.long == v.long && w.short == v.short
  }

  lemma {:induction false} SameGap(hs: seq<HoldingV>, rs: seq<HoldingV>, ts: seq<Track>)
    requires |hs| == |rs| == |ts| && forall h :: 0 <= h < |hs| ==> SameLeg(hs[h], rs[h])
    ensures SumGap(rs, ts) == SumGap(hs, ts)
  {
    if hs != [] {
      SameGap(hs[..|hs| - 1], rs[..|hs| - 1], ts[..|hs| - 1]);
      assert SameLeg(hs[|hs| - 1], rs[|hs| - 1]);
    }
  }

  lemma SameLegsKeepTie(s: StateV, r: StateV, ids: seq<nat>, ts: seq<Track>, c: int)
    requires Tied(s, ids, ts, c) && SameLegs(s, r)
    ensures Tied(r, ids, ts, c)
  {
    SameGap(s.holdings, r.holdings, ts);
    forall h | 0 <= h < |ts| ensures TiedOne(r.mode, ids[h], r.holdings[h], ts[h]) {
      assert TiedOne(s.mode, ids[h], s.holdings[h], ts[h]) && SameLeg(s.holdings[h], r.holdings[h]);
    }
  }

  /** The kernel agrees with what its outputs so far said. */
  ghost predicate TiedSince(a: Applied, ids: seq<nat>, ts: seq<Track>, c: int) {
    |ids| == |ts| && Tied(a.kernel.state, ids, SeenAll(a.kernel.state.mode, ids, ts, a.out), c)
  }

  predicate Quiet(o: Output) {
    !o.Filled? && !o.Liquidated?
  }

  lemma QuietStep(a: Applied, r: Applied, ids: seq<nat>, ts: seq<Track>, c: int)
    requires TiedSince(a, ids, ts, c) && SameLegs(a.kernel.state, r.kernel.state)
    requires r.out == a.out || (|r.out| == |a.out| + 1 && r.out[..|a.out|] == a.out && Quiet(r.out[|a.out|]))
    ensures TiedSince(r, ids, ts, c)
  {
    var s := a.kernel.state;
    var seen := SeenAll(s.mode, ids, ts, a.out);
    SameLegsKeepTie(s, r.kernel.state, ids, seen, c);
    if r.out != a.out {
      assert SeenEach(s.mode, ids, seen, r.out[|a.out|]) == seen;
    }
  }

  ghost predicate Sized(mode: PositionMode, out: seq<Output>) {
    mode.Hedge? ==> forall o :: o in out && o.Filled? ==> o.fill.qty >= 0
  }

  lemma BookedKeepsTie(a: Applied, charged: StateV, f: Fill, working: seq<nat>, ids: seq<nat>, ts: seq<Track>, c: int)
    requires TiedSince(a, ids, ts, c) && SameLegs(a.kernel.state, charged)
    requires Sized(charged.mode, [Filled(f)])
    ensures TiedSince(Applied(KernelV(WithFill(charged, f), working), a.out + [Filled(f)]), ids, ts, c)
  {
    var s := a.kernel.state;
    var seen := SeenAll(s.mode, ids, ts, a.out);
    SameLegsKeepTie(s, charged, ids, seen, c);
    assert s.mode.Hedge? ==> Filled(f) in [Filled(f)];
    FillKeepsTie(charged, ids, seen, c, f);
    SeenOne(s.mode, ids, ts, a.out, Filled(f));
    FillKeepsMode(charged, f);
  }

  lemma FillKeepsMode(s: StateV, f: Fill)
    ensures WithFill(s, f).mode == s.mode
  {
  }

  lemma {:induction false} BookFillsKeepTie(a: Applied, h: nat, fs: seq<Fill>, ids: seq<nat>, ts: seq<Track>, c: int)
    requires h < |a.kernel.state.holdings| && TiedSince(a, ids, ts, c)
    requires Sized(a.kernel.state.mode, BookFills(a, h, fs).out)
    ensures TiedSince(BookFills(a, h, fs), ids, ts, c) && BookFills(a, h, fs).kernel.state.mode == a.kernel.state.mode
  {
    if fs != [] {
      var n := |fs| - 1;
      var b := BookFills(a, h, fs[..n]);
      var s := b.kernel.state;
      assert BookFills(a, h, fs).out == b.out + [Filled(fs[n])];
      BookFillsKeepTie(a, h, fs[..n], ids, ts, c);
      var charged := Charged(s, s.schedule.Charge(s.holdings[h].tickCash, fs[n]));
      BookedKeepsTie(b, charged, fs[n], Dropped(b.kernel.working, fs[n].order), ids, ts, c);
      FillKeepsMode(charged, fs[n]);
    }
  }

  lemma CheckedKeepsTie(a: Applied, mark: int, ids: seq<nat>, ts: seq<Track>, c: int)
    requires TiedSince(a, ids, ts, c)
    ensures TiedSince(Checked(a, mark), ids, ts, c) && Checked(a, mark).kernel.state.mode == a.kernel.state.mode
    ensures a.out <= Checked(a, mark).out
  {
    var s := a.kernel.state;
    LiquidateKeepsTie(s, ids, SeenAll(s.mode, ids, ts, a.out), c, mark);
    SeenAppend(s.mode, ids, ts, a.out, Liquidate(s, mark).out);
  }

  lemma SizedPrefix(mode: PositionMode, a: Applied, mark: int)
    requires Sized(mode, Checked(a, mark).out)
    ensures Sized(mode, a.out)
  {
    assert forall o :: o in a.out ==> o in Checked(a, mark).out;
  }

  lemma MarkingKeepsLegs(s: StateV, h: nat, t: Tick)
    requires h < |s.holdings|
    ensures SameLegs(s, Marked(s, h, t)) && SameLegs(s, Matched(Marked(s, h, t), h, t))
  {
  }

  lemma MatchedKeepsTie(k: KernelV, h: nat, t: Tick, fills: seq<Fill>, ids: seq<nat>, ts: seq<Track>, c: int)
    requires h < |k.state.holdings| && TiedSince(Applied(k, []), ids, ts, c)
    requires var a := Applied(k.(state := Matched(Marked(k.state, h, t), h, t)), []);
      Sized(k.state.mode, Checked(BookFills(a, h, fills), t.last).out)
    ensures var a := Applied(k.(state := Matched(Marked(k.state, h, t), h, t)), []);
      var r := Checked(BookFills(a, h, fills), t.last);
      TiedSince(r, ids, ts, c) && r.kernel.state.mode == k.state.mode
  {
    var a := Applied(k.(state := Matched(Marked(k.state, h, t), h, t)), []);
    MarkingKeepsLegs(k.state, h, t);
    QuietStep(Applied(k, []), a, ids, ts, c);
    SizedPrefix(k.state.mode, BookFills(a, h, fills), t.last);
    BookFillsKeepTie(a, h, fills, ids, ts, c);
    CheckedKeepsTie(BookFills(a, h, fills), t.last, ids, ts, c);
  }

  lemma TickKeepsTie(k: KernelV, h: nat, t: Tick, ids: seq<nat>, ts: seq<Track>, c: int)
    requires h < |k.state.holdings| && TiedSince(Applied(k, []), ids, ts, c)
    requires Sized(k.state.mode, OnTick(k, h, t).out)
    ensures TiedSince(OnTick(k, h, t), ids, ts, c) && OnTick(k, h, t).kernel.state.mode == k.state.mode
  {
    var s := Marked(k.state, h, t);
    if s.matching.Venue? {
      MarkingKeepsLegs(k.state, h, t);
      QuietStep(Applied(k, []), Applied(k.(state := s), []), ids, ts, c);
      CheckedKeepsTie(Applied(k.(state := s), []), t.last, ids, ts, c);
    } else {
      MatchedKeepsTie(k, h, t, Matching.FillsOn(s.holdings[h].engine, t), ids, ts, c);
    }
  }

  lemma {:induction false} AskingKeepsLegs(s: StateV, h: nat, id: nat)
    requires h <= |s.holdings|
    ensures SameLegs(s, AskedFrom(s, h, id))
    decreases |s.holdings| - h
  {
    if h < |s.holdings| && !Matching.Holds(s.holdings[h].engine, id) {
      AskingKeepsLegs(WithdrawnFrom(s, h, id), h + 1, id);
    }
  }

  lemma FundingKeepsTie(k: KernelV, e: Event, ids: seq<nat>, ts: seq<Track>, c: int)
    requires e.Funding? && TiedSince(Applied(k, []), ids, ts, c)
    ensures TiedSince(OnFunding(k, e), ids, ts, c) && OnFunding(k, e).kernel.state.mode == k.state.mode
  {
    var s := k.state.(now := e.at);
    if Route(s, e.instrument).Some? && !s.holdings[Route(s, e.instrument).value].IsFlat() {
      var amount := SettlementOf(s.holdings[Route(s, e.instrument).value], e.rate, e.mark);
      var a := Applied(k.(state := Financed(s, amount)), [Funded(amount, e.at)]);
      QuietStep(Applied(k, []), a, ids, ts, c);
      CheckedKeepsTie(a, e.mark, ids, ts, c);
    } else {
      QuietStep(Applied(k, []), OnFunding(k, e), ids, ts, c);
    }
  }

  lemma VenueFillKeepsTie(k: KernelV, f: Fill, fee: Fee, ids: seq<nat>, ts: seq<Track>, c: int)
    requires k.state.holdings != [] && TiedSince(Applied(k, []), ids, ts, c)
    requires Sized(k.state.mode, OnVenueFill(k, f, fee).out)
    ensures TiedSince(OnVenueFill(k, f, fee), ids, ts, c) && OnVenueFill(k, f, fee).kernel.state.mode == k.state.mode
  {
    if k.state.matching.Venue? {
      VenueBookedKeepsTie(k, f, fee, ids, ts, c);
      CheckedKeepsTie(VenueBooked(k, f, fee), f.price, ids, ts, c);
    } else {
      QuietStep(Applied(k, []), OnVenueFill(k, f, fee), ids, ts, c);
    }
  }

  lemma PreparedSameLegs(s: StateV, f: Fill, fee: Fee)
    ensures SameLegs(s, FeeNoted(Fulfilled(s, f), fee))
  {
  }

  lemma VenueBookedKeepsTie(k: KernelV, f: Fill, fee: Fee, ids: seq<nat>, ts: seq<Track>, c: int)
    requires k.state.holdings != [] && TiedSince(Applied(k, []), ids, ts, c)
    requires Sized(k.state.mode, Checked(VenueBooked(k, f, fee), f.price).out)
    ensures TiedSince(VenueBooked(k, f, fee), ids, ts, c) && VenueBooked(k, f, fee).kernel.state.mode == k.state.mode
  {
    PreparedSameLegs(k.state, f, fee);
    var s := FeeNoted(Fulfilled(k.state, f), fee);
    var charged := Charged(s, FeeOf(s, f, fee));
    FillKeepsMode(charged, f);
    SizedPrefix(k.state.mode, VenueBooked(k, f, fee), f.price);
    assert SameLegs(k.state, charged);
    assert [] + [Filled(f)] == [Filled(f)];
    BookedKeepsTie(Applied(k, []), charged, f, Dropped(k.working, f.order), ids, ts, c);
  }

  lemma SubmitKeepsTie(k: KernelV, e: Event, ids: seq<nat>, ts: seq<Track>, c: int)
    requires e.Submit? && TiedSince(Applied(k, []), ids, ts, c)
    ensures TiedSince(OnSubmit(k, e), ids, ts, c) && OnSubmit(k, e).kernel.state.mode == k.state.mode
  {
    QuietStep(Applied(k, []), OnSubmit(k, e), ids, ts, c);
  }

  lemma CancelKeepsTie(k: KernelV, id: nat, ids: seq<nat>, ts: seq<Track>, c: int)
    requires TiedSince(Applied(k, []), ids, ts, c)
    ensures TiedSince(OnCancel(k, id), ids, ts, c) && OnCancel(k, id).kernel.state.mode == k.state.mode
  {
    AskingKeepsLegs(k.state, 0, id);
    QuietStep(Applied(k, []), OnCancel(k, id), ids, ts, c);
  }

  /** Events that touch neither legs nor realized profit. */
  lemma QuietEventKeepsTie(k: KernelV, e: Event, ids: seq<nat>, ts: seq<Track>, c: int)
    requires k.state.holdings != [] && TiedSince(Applied(k, []), ids, ts, c)
    requires e.FundingCharged? || e.FeeRecovered? || e.TimeAt? || e.MarginDeposit? || e.Depth?
    ensures TiedSince(Apply(k, e), ids, ts, c) && Apply(k, e).kernel.state.mode == k.state.mode
  {
    QuietEventKeepsLegs(k, e);
    QuietStep(Applied(k, []), Apply(k, e), ids, ts, c);
  }

  lemma QuietEventKeepsLegs(k: KernelV, e: Event)
    requires k.state.holdings != []
    requires e.FundingCharged? || e.FeeRecovered? || e.TimeAt? || e.MarginDeposit? || e.Depth?
    ensures SameLegs(k.state, Apply(k, e).kernel.state)
    ensures Apply(k, e).out == [] || (|Apply(k, e).out| == 1 && Quiet(Apply(k, e).out[0]))
  {
  }

  lemma TickSeenKeepsTie(k: KernelV, instrument: Option<nat>, t: Tick, ids: seq<nat>, ts: seq<Track>, c: int)
    requires TiedSince(Applied(k, []), ids, ts, c)
    requires Sized(k.state.mode, OnTickSeen(k, instrument, t).out)
    ensures TiedSince(OnTickSeen(k, instrument, t), ids, ts, c)
    ensures OnTickSeen(k, instrument, t).kernel.state.mode == k.state.mode
  {
    match Route(k.state, instrument)
    case Some(h) => TickKeepsTie(k, h, t, ids, ts, c);
    case None => QuietStep(Applied(k, []), OnTickSeen(k, instrument, t), ids, ts, c);
  }

  lemma EventKeepsTie(k: KernelV, e: Event, ids: seq<nat>, ts: seq<Track>, c: int)
    requires k.state.holdings != [] && TiedSince(Applied(k, []), ids, ts, c)
    requires Sized(k.state.mode, Apply(k, e).out)
    ensures TiedSince(Apply(k, e), ids, ts, c) && Apply(k, e).kernel.state.mode == k.state.mode
  {
    match e
    case TickSeen(instrument, t) => TickSeenKeepsTie(k, instrument, t, ids, ts, c);
    case Cancel(id, _) => CancelKeepsTie(k, id, ids, ts, c);
    case Funding(_, _, _, _) => FundingKeepsTie(k, e, ids, ts, c);
    case VenueFill(f, fee) => VenueFillKeepsTie(k, f, fee, ids, ts, c);
    case Submit(_, _, _, _, _, _, _) => SubmitKeepsTie(k, e, ids, ts, c);
    case _ => QuietEventKeepsTie(k, e, ids, ts, c);
  }

  lemma {:induction false} RunKeepsTie(k: KernelV, es: seq<Event>, ids: seq<nat>, ts: seq<Track>, c: int)
    requires k.state.holdings != [] && TiedSince(Applied(k, []), ids, ts, c)
    requires Sized(k.state.mode, Run(k, es).out)
    ensures TiedSince(Run(k, es), ids, ts, c) && Run(k, es).kernel.state.mode == k.state.mode
  {
    if es != [] {
      var b := Run(k, es[..|es| - 1]);
      var a := Apply(b.kernel, es[|es| - 1]);
      RunKeepsTie(k, es[..|es| - 1], ids, ts, c);
      var seen := SeenAll(k.state.mode, ids, ts, b.out);
      EventKeepsTie(b.kernel, es[|es| - 1], ids, seen, c);
      SeenAppend(k.state.mode, ids, ts, b.out, a.out);
    }
  }

  lemma SettledAtKeepsTie(a: Applied, h: nat, ids: seq<nat>, ts: seq<Track>, c: int)
    requires h < |a.kernel.state.holdings| && TiedSince(a, ids, ts, c)
    requires Sized(a.kernel.state.mode, SettledAt(a, h).out)
    ensures TiedSince(SettledAt(a, h), ids, ts, c) && SettledAt(a, h).kernel.state.mode == a.kernel.state.mode
  {
    var s := a.kernel.state;
    var m := s.holdings[h].engine;
    var b := a.(kernel := a.kernel.(state := WithEngine(s, h, Matching.Drained(m))));
    QuietStep(a, b, ids, ts, c);
    BookFillsKeepTie(b, h, Matching.Unreported(m), ids, ts, c);
  }

  lemma {:induction false} BookFillsExtend(a: Applied, h: nat, fs: seq<Fill>)
    requires h < |a.kernel.state.holdings|
    ensures a.out <= BookFills(a, h, fs).out
  {
    if fs != [] {
      BookFillsExtend(a, h, fs[..|fs| - 1]);
    }
  }

  lemma SettledExtends(a: Applied, h: nat, mode: PositionMode)
    requires h < |a.kernel.state.holdings| && Sized(mode, SettledAt(a, h).out)
    ensures Sized(mode, a.out)
  {
    var s := a.kernel.state;
    var m := s.holdings[h].engine;
    BookFillsExtend(a.(kernel := a.kernel.(state := WithEngine(s, h, Matching.Drained(m)))), h, Matching.Unreported(m));
    assert forall o :: o in a.out ==> o in SettledAt(a, h).out;
  }

  /** The kernel after some applied steps, in a mode, agreeing with its outputs. */
  ghost predicate TiedAs(mode: PositionMode, a: Applied, ids: seq<nat>, ts: seq<Track>, c: int) {
    a.kernel.state.mode == mode && TiedSince(a, ids, ts, c)
  }

  /** Once `h` holdings have settled, the tie holds as long as what was said is sized; folded. */
  ghost predicate KeptTied(mode: PositionMode, a: Applied, h: nat, ids: seq<nat>, ts: seq<Track>, c: int) {
    forall k {:trigger Seal(k)} :: Seal(k) && h <= |a.kernel.state.holdings| ==>
      (Sized(mode, SettledTo(a, h).out) ==> TiedAs(mode, SettledTo(a, h), ids, ts, c))
  }

  lemma SettledStep(a: Applied, h: nat)
    requires h < |a.kernel.state.holdings|
    ensures SettledTo(a, h + 1) == SettledAt(SettledTo(a, h), h)
  {
  }

  lemma SettleOne(mode: PositionMode, a: Applied, h: nat, ids: seq<nat>, ts: seq<Track>, c: int)
    requires h < |a.kernel.state.holdings| && KeptTied(mode, a, h, ids, ts, c)
    ensures KeptTied(mode, a, h + 1, ids, ts, c)
  {
    assert Seal(0);
    SettledStep(a, h);
    var b, r := SettledTo(a, h), SettledTo(a, h + 1);
    if Sized(mode, r.out) {
      SettledExtends(b, h, mode);
      SettledAtKeepsTie(b, h, ids, ts, c);
    }
  }

  lemma NothingSettledYet(mode: PositionMode, a: Applied, ids: seq<nat>, ts: seq<Track>, c: int)
    requires TiedAs(mode, a, ids, ts, c)
    ensures KeptTied(mode, a, 0, ids, ts, c)
  {
    assert SettledTo(a, 0) == a;
  }

  lemma {:induction false} SettlingKept(mode: PositionMode, a: Applied, h: nat, ids: seq<nat>, ts: seq<Track>, c: int)
    requires h <= |a.kernel.state.holdings| && KeptTied(mode, a, 0, ids, ts, c)
    ensures KeptTied(mode, a, h, ids, ts, c)
  {
    if h > 0 {
      var g: nat := h - 1;
      SettlingKept(mode, a, g, ids, ts, c);
      SettleOne(mode, a, g, ids, ts, c);
    }
  }

  // ----- the sizes a run reports

  /** What a caller can see before a run: in hedge mode, what the matchers hold back is of a
      positive size, and so is every venue fill that will be booked. */
  ghost predicate SizedStart(s: StateV) {
    s.mode.Hedge? ==> Routing.HeldBackSized(s)
  }

  predicate SizedEvent(s: StateV, e: Event) {
    s.mode.Hedge? && s.matching.Venue? && e.VenueFill? ==> e.fill.qty >= 0
  }

  ghost predicate SizedEvents(s: StateV, es: seq<Event>) {
    forall i :: 0 <= i < |es| ==> SizedEvent(s, es[i])
  }

  lemma {:induction false} ClosingFillsNothing(s: StateV, hs: seq<nat>, price: int)
    requires forall i :: 0 <= i < |hs| ==> hs[i] < |s.holdings|
    ensures forall i :: 0 <= i < |hs| ==> CloseEach(s, hs, price).out[i].Liquidated?
    decreases |hs|
  {
    if hs != [] {
      ClosingFillsNothing(LiquidateOne(s, hs[0], ClosingPrice(s, hs[0], price)), hs[1..], price);
    }
  }

  lemma CheckedSized(mode: PositionMode, a: Applied, mark: int)
    requires Sized(mode, a.out)
    ensures Sized(mode, Checked(a, mark).out)
  {
    var s := a.kernel.state;
    var hs := ToClose(s.holdings, 0);
    ClosingFillsNothing(s, hs, mark);
    forall o | o in Liquidate(s, mark).out ensures !o.Filled? {
      var i :| 0 <= i < |hs| && Liquidate(s, mark).out[i] == o;
      assert CloseEach(s, hs, mark).out[i].Liquidated?;
    }
  }

  lemma {:induction false} BookFillsSized(mode: PositionMode, a: Applied, h: nat, fs: seq<Fill>)
    requires h < |a.kernel.state.holdings| && Sized(mode, a.out)
    requires mode.Hedge? ==> forall i :: 0 <= i < |fs| ==> fs[i].qty > 0
    ensures Sized(mode, BookFills(a, h, fs).out)
  {
    if fs != [] {
      BookFillsSized(mode, a, h, fs[..|fs| - 1]);
    }
  }

  lemma TickSized(k: KernelV, h: nat, t: Tick)
    requires h < |k.state.holdings| && SizedStart(k.state)
    ensures Sized(k.state.mode, OnTick(k, h, t).out)
  {
    var s := Marked(k.state, h, t);
    var m := s.holdings[h].engine;
    if s.matching.Venue? {
      CheckedSized(s.mode, Applied(k.(state := s), []), t.last);
    } else {
      if s.mode.Hedge? {
        assert Routing.BackSized(k.state.holdings[h].engine);
        Routing.TickedSized(m, t);
      }
      var a := Applied(k.(state := Matched(s, h, t)), []);
      BookFillsSized(s.mode, a, h, Matching.FillsOn(m, t));
      CheckedSized(s.mode, BookFills(a, h, Matching.FillsOn(m, t)), t.last);
    }
  }

  lemma FundingSized(k: KernelV, e: Event)
    requires e.Funding?
    ensures Sized(k.state.mode, OnFunding(k, e).out)
  {
    var s := k.state.(now := e.at);
    if Route(s, e.instrument).Some? {
      var amount := SettlementOf(s.holdings[Route(s, e.instrument).value], e.rate, e.mark);
      CheckedSized(s.mode, Applied(k.(state := Financed(s, amount)), [Funded(amount, e.at)]), e.mark);
    }
  }

  /** One event of a run that starts sized says nothing else. */
  lemma EventSized(k: KernelV, e: Event)
    requires k.state.holdings != [] && SizedStart(k.state) && SizedEvent(k.state, e)
    ensures Sized(k.state.mode, Apply(k, e).out)
  {
    match e
    case TickSeen(instrument, t) =>
      if Route(k.state, instrument).Some? {
        TickSized(k, Route(k.state, instrument).value, t);
      }
    case Funding(_, _, _, _) => FundingSized(k, e);
    case VenueFill(f, fee) =>
      if k.state.matching.Venue? {
        assert VenueBooked(k, f, fee).out == [Filled(f)];
        CheckedSized(k.state.mode, VenueBooked(k, f, fee), f.price);
      }
    case _ =>
  }

  /** A simulated fill is the whole of an order, so every fill a run reports has a size that is
      not negative whenever the venue's own fills do. */
  lemma {:induction false} RunSized(k: KernelV, es: seq<Event>)
    requires k.state.holdings != [] && SizedStart(k.state) && SizedEvents(k.state, es)
    ensures Sized(k.state.mode, Run(k, es).out)
    ensures Routing.Owners(k.state, Run(k, es).kernel.state)
  {
    if es != [] {
      var n := |es| - 1;
      RunSized(k, es[..n]);
      var b := Run(k, es[..n]).kernel;
      if k.state.mode.Hedge? {
        Routing.OwnersSized(k.state, b.state);
      }
      assert SizedEvent(k.state, es[n]);
      EventSized(b, es[n]);
      Routing.ApplyOwners(b, es[n]);
      Routing.OwnersCompose(k.state, b.state, Run(k, es).kernel.state);
    }
  }

  lemma SettledAtSized(a: Applied, h: nat)
    requires h < |a.kernel.state.holdings| && SizedStart(a.kernel.state) && Sized(a.kernel.state.mode, a.out)
    ensures Sized(a.kernel.state.mode, SettledAt(a, h).out)
    ensures Routing.Owners(a.kernel.state, SettledAt(a, h).kernel.state)
  {
    var s := a.kernel.state;
    var m := s.holdings[h].engine;
    var b := a.(kernel := a.kernel.(state := WithEngine(s, h, Matching.Drained(m))));
    if s.mode.Hedge? {
      assert Routing.BackSized(m);
      Routing.UnreportedSized(m);
    }
    BookFillsSized(s.mode, b, h, Matching.Unreported(m));
    Routing.DrainedOwners(s, h);
    Routing.BookFillsOwners(b, h, Matching.Unreported(m));
    Routing.OwnersCompose(s, b.kernel.state, SettledAt(a, h).kernel.state);
  }

  /** Once `h` holdings have settled, what was said is sized and the owners are the same; folded. */
  ghost predicate KeptSized(a: Applied, h: nat) {
    forall k {:trigger Seal(k)} :: Seal(k) && h <= |a.kernel.state.holdings| ==>
      Sized(a.kernel.state.mode, SettledTo(a, h).out) && Routing.Owners(a.kernel.state, SettledTo(a, h).kernel.state)
  }

  lemma SizedStep(a: Applied, h: nat)
    requires h < |a.kernel.state.holdings| && SizedStart(a.kernel.state) && KeptSized(a, h)
    ensures KeptSized(a, h + 1)
  {
    assert Seal(0);
    var b := SettledTo(a, h);
    if a.kernel.state.mode.Hedge? {
      Routing.OwnersSized(a.kernel.state, b.kernel.state);
    }
    SettledAtSized(b, h);
    SettledStep(a, h);
    Routing.OwnersCompose(a.kernel.state, b.kernel.state, SettledTo(a, h + 1).kernel.state);
  }

  lemma NothingSaidYet(a: Applied)
    requires Sized(a.kernel.state.mode, a.out)
    ensures KeptSized(a, 0)
  {
    assert SettledTo(a, 0) == a;
    Routing.OwnersRefl(a.kernel.state);
  }

  lemma {:induction false} SettlingSized(a: Applied, h: nat)
    requires h <= |a.kernel.state.holdings| && SizedStart(a.kernel.state) && KeptSized(a, 0)
    ensures KeptSized(a, h)
  {
    if h > 0 {
      var g: nat := h - 1;
      SettlingSized(a, g);
      SizedStep(a, g);
    }
  }

  /** The end of a run, when held-back fills are booked, keeps the tie as well. */
  lemma SettlingKeepsTie(a: Applied, h: nat, ids: seq<nat>, ts: seq<Track>, c: int)
    requires h <= |a.kernel.state.holdings| && TiedSince(a, ids, ts, c)
    requires SizedStart(a.kernel.state) && Sized(a.kernel.state.mode, a.out)
    ensures TiedSince(SettledTo(a, h), ids, ts, c) && SettledTo(a, h).kernel.state.mode == a.kernel.state.mode
  {
    NothingSaidYet(a);
    SettlingSized(a, h);
    NothingSettledYet(a.kernel.state.mode, a, ids, ts, c);
    SettlingKept(a.kernel.state.mode, a, h, ids, ts, c);
    assert Seal(0);
  }

  // ----- the identity

  function Ids(hs: seq<HoldingV>): (r: seq<nat>)
    ensures |r| == |hs|
  {
    seq(|hs|, h requires 0 <= h < |hs| => hs[h].instrument)
  }

  function Start(hs: seq<HoldingV>): (r: seq<Track>)
    ensures |r| == |hs|
  {
    seq(|hs|, h requires 0 <= h < |hs| => Track(hs[h].long.qty, hs[h].short.qty, 0))
  }

  /** Profit of every holding at a mark of its own. */
  function WorthAt(hs: seq<HoldingV>, marks: seq<int>): int
    requires |marks| == |hs|
  {
    if hs == [] then 0
    else WorthAt(hs[..|hs| - 1], marks[..|hs| - 1]) + hs[|hs| - 1].UnrealizedAt(marks[|hs| - 1])
  }

  /** Position at the mark less the flows that built it, in cash, read off the tracks. */
  function FlowWorth(hs: seq<HoldingV>, ts: seq<Track>, marks: seq<int>): int
    requires |marks| == |hs| == |ts|
  {
    if hs == [] then 0
    else
      var n := |hs| - 1;
      FlowWorth(hs[..n], ts[..n], marks[..n]) + hs[n].tickCash * ((ts[n].long + ts[n].short) * marks[n] - ts[n].flow)
  }

  function TotalBasis(hs: seq<HoldingV>): int {
    if hs == [] then 0
    else
      var v := hs[|hs| - 1];
      TotalBasis(hs[..|hs| - 1]) + Basis(v.tickCash, v.long) + Basis(v.tickCash, v.short)
  }

  lemma OneWorth(v: HoldingV, t: Track, mark: int)
    requires v.long.qty == t.long && v.short.qty == t.short
    ensures Gap(v, t) + v.UnrealizedAt(mark) == v.tickCash * ((t.long + t.short) * mark - t.flow)
  {
    WorthIsMarkLessBasis(v.tickCash, v.long, mark);
    WorthIsMarkLessBasis(v.tickCash, v.short, mark);
    Distribute(t.long, t.short, mark);
    var a, b, k := t.long * mark, t.short * mark, v.tickCash;
    Spread(k, a, b, t.flow);
  }

  lemma Spread(k: int, a: int, b: int, f: int)
    ensures k * (a + b - f) == k * a + k * b - k * f
  {
  }

  predicate SameSizes(v: HoldingV, t: Track) {
    v.long.qty == t.long && v.short.qty == t.short
  }

  lemma {:induction false} WorthIsFlows(hs: seq<HoldingV>, ts: seq<Track>, marks: seq<int>)
    requires |marks| == |hs| == |ts|
    requires forall h :: 0 <= h < |ts| ==> SameSizes(hs[h], ts[h])
    ensures SumGap(hs, ts) + WorthAt(hs, marks) == FlowWorth(hs, ts, marks)
  {
    if hs != [] {
      var n := |hs| - 1;
      WorthIsFlows(hs[..n], ts[..n], marks[..n]);
      assert SameSizes(hs[n], ts[n]);
      OneWorth(hs[n], ts[n], marks[n]);
    }
  }

  lemma {:induction false} StartGap(hs: seq<HoldingV>)
    ensures SumGap(hs, Start(hs)) == TotalBasis(hs)
  {
    if hs != [] {
      StartGap(hs[..|hs| - 1]);
      assert Start(hs)[..|hs| - 1] == Start(hs[..|hs| - 1]);
    }
  }

  /** The books a run may start from: each instrument once, legs the mode allows. */
  ghost predicate Openable(s: StateV) {
    s.holdings != [] && Distinct(Ids(s.holdings)) && forall h :: 0 <= h < |s.holdings| ==> Legal(s.mode, s.holdings[h])
  }

  /** Positions are those a reader of the outputs tracks, and realized plus unrealized profit is
      the profit the account opened with plus what the reader's own positions and flows are
      worth, exactly. */
  ghost predicate Identity(k: KernelV, r: Applied, marks: seq<int>) {
    var s := r.kernel.state;
    var ts := SeenAll(k.state.mode, Ids(k.state.holdings), Start(k.state.holdings), r.out);
    && |s.holdings| == |k.state.holdings| == |marks|
    && (forall h :: 0 <= h < |ts| ==> SameSizes(s.holdings[h], ts[h]))
    && s.realized + WorthAt(s.holdings, marks)
         == k.state.realized - TotalBasis(k.state.holdings) + FlowWorth(s.holdings, ts, marks)
  }

  lemma TiedIsIdentity(k: KernelV, r: Applied, marks: seq<int>)
    requires |marks| == |k.state.holdings| && r.kernel.state.mode == k.state.mode
    requires TiedSince(r, Ids(k.state.holdings), Start(k.state.holdings), k.state.realized - TotalBasis(k.state.holdings))
    ensures Identity(k, r, marks)
  {
    var ids, s := Ids(k.state.holdings), r.kernel.state;
    var ts := SeenAll(s.mode, ids, Start(k.state.holdings), r.out);
    forall h | 0 <= h < |ts| ensures SameSizes(s.holdings[h], ts[h]) {
      assert TiedOne(s.mode, ids[h], s.holdings[h], ts[h]);
    }
    WorthIsFlows(s.holdings, ts, marks);
  }

  lemma OpenTied(k: KernelV)
    requires Openable(k.state)
    ensures TiedSince(Applied(k, []), Ids(k.state.holdings), Start(k.state.holdings), k.state.realized - TotalBasis(k.state.holdings))
  {
    StartGap(k.state.holdings);
  }

  /** For every sequence of events and any mark of each instrument the identity holds: through
      partial closes, crossings through flat, oversized hedge closes and liquidations. */
  lemma CashFlowIdentity(k: KernelV, es: seq<Event>, marks: seq<int>)
    requires Openable(k.state) && |marks| == |k.state.holdings|
    requires SizedStart(k.state) && SizedEvents(k.state, es)
    ensures Identity(k, Run(k, es), marks)
  {
    OpenTied(k);
    RunSized(k, es);
    RunKeepsTie(k, es, Ids(k.state.holdings), Start(k.state.holdings), k.state.realized - TotalBasis(k.state.holdings));
    TiedIsIdentity(k, Run(k, es), marks);
  }

  /** And when the run ends and what was held back is booked. */
  lemma FinalCashFlowIdentity(k: KernelV, es: seq<Event>, marks: seq<int>)
    requires Openable(k.state) && |marks| == |k.state.holdings|
    requires SizedStart(k.state) && SizedEvents(k.state, es)
    ensures |Run(k, es).kernel.state.holdings| == |marks|
    ensures Identity(k, SettledTo(Run(k, es), |marks|), marks)
  {
    var ids, ts, c := Ids(k.state.holdings), Start(k.state.holdings), k.state.realized - TotalBasis(k.state.holdings);
    OpenTied(k);
    RunSized(k, es);
    RunKeepsTie(k, es, ids, ts, c);
    if k.state.mode.Hedge? {
      Routing.OwnersSized(k.state, Run(k, es).kernel.state);
    }
    SettlingKeepsTie(Run(k, es), |marks|, ids, ts, c);
    TiedIsIdentity(k, SettledTo(Run(k, es), |marks|), marks);
  }

  /** A fresh account, where nothing is carried in: the identity in its plain form. */
  lemma FreshCashFlowIdentity(k: KernelV, es: seq<Event>, marks: seq<int>)
    requires Openable(k.state) && |marks| == |k.state.holdings| && k.state.realized == 0
    requires forall h :: 0 <= h < |k.state.holdings| ==> k.state.holdings[h].IsFlat()
    requires SizedStart(k.state) && SizedEvents(k.state, es)
    ensures var s := Run(k, es).kernel.state;
      var ts := SeenAll(k.state.mode, Ids(k.state.holdings), Start(k.state.holdings), Run(k, es).out);
      |s.holdings| == |marks| && s.realized + WorthAt(s.holdings, marks) == FlowWorth(s.holdings, ts, marks)
  {
    CashFlowIdentity(k, es, marks);
    FlatOwesNothing(k.state.holdings);
  }

  lemma {:induction false} FlatOwesNothing(hs: seq<HoldingV>)
    requires forall h :: 0 <= h < |hs| ==> hs[h].IsFlat()
    ensures TotalBasis(hs) == 0
  {
    if hs != [] {
      FlatOwesNothing(hs[..|hs| - 1]);
    }
  }
}
