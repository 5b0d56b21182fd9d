/** What a taker pays at L1 against L0, fill by fill (crates/oq-engine/src/l1.rs). */
module Impact {
  import opened Numbers
  import opened Market
  import L0
  import L1

  /** No fill is better for its owner than the other. */
  predicate NoBetter(price: int, than: int, side: Side) {
    if side.Buy? then price >= than else price <= than
  }

  /** How much worse a price is than another. */
  function Cost(price: int, than: int, side: Side): int {
    if side.Buy? then price - than else than - price
  }

  /** Lots traded since the last observation, as long as the cumulative figure rose. */
  predicate RoseBy(prevVolume: Option<int>, t: Tick, lots: int) {
    prevVolume.Some? && lots > 0 && t.volume == prevVolume.value + lots
  }

  /** What L1 made of an L0 fill. */
  predicate Worsened(a: Fill, b: Fill, p: L1.Policy, measured: Option<int>, prevVolume: Option<int>, t: Tick) {
    && b == a.(price := b.price) && NoBetter(b.price, a.price, a.side)
    && (a.liquidity.Maker? ==> b.price == a.price)
    && (a.liquidity.Taker? && measured.Some? ==>
          NoBetter(b.price, measured.value, a.side) && (b.price == a.price || b.price == measured.value))
    && (a.liquidity.Taker? && measured.None? && p.coefficient == 0 ==> b.price == a.price)
    && (a.liquidity.Taker? && measured.None? && t.high <= t.low ==> b.price == a.price)
    && (a.liquidity.Taker? && measured.None? && (prevVolume.None? || t.volume <= prevVolume.value) ==> b.price == a.price)
  }

  /** Fill by fill a maker's price stays, a taker never trades better than at L0, and a measurement
      is taken only where it is the worse of the two. */
  lemma TakersPayNoLess(v: L1.L1V, p: L1.Policy, m: L1.Measure, t: Tick, i: nat)
    requires i < |L1.Made(v, p, m, t)|
    ensures |L0.TickFills(L1.BeforeMatch(v, p, t).inner, t)| == |L1.Made(v, p, m, t)|
    ensures var a := L0.TickFills(L1.BeforeMatch(v, p, t).inner, t)[i].fill;
      Worsened(a, L1.Made(v, p, m, t)[i].fill, p, m(a.side, a.qty), v.prevVolume, t)
  {
  }

  /** Without a measurement, where the policy charges and the tick has a volume and a range, the
      taker pays exactly the penalty for its size, that volume and that range. */
  lemma TakersPayThePenalty(v: L1.L1V, p: L1.Policy, m: L1.Measure, t: Tick, i: nat, lots: int)
    requires i < |L1.Made(v, p, m, t)| == |L0.TickFills(L1.BeforeMatch(v, p, t).inner, t)|
    requires var a := L0.TickFills(L1.BeforeMatch(v, p, t).inner, t)[i].fill; a.liquidity.Taker? && m(a.side, a.qty).None?
    requires p.coefficient > 0 && t.high > t.low && RoseBy(v.prevVolume, t, lots) && lots <= I64_MAX
    ensures var a := L0.TickFills(L1.BeforeMatch(v, p, t).inner, t)[i].fill;
      Cost(L1.Made(v, p, m, t)[i].fill.price, a.price, a.side) == p.penalty(a.qty, lots, t.high - t.low)
  {
  }
}
