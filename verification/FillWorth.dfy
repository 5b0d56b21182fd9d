/** Which way a fill moves an account, told by its side alone: the legs it touches, and what it is
    worth at any later mark (crates/oq-core/src/kernel.rs). */
module FillWorth {
  import opened Numbers
  import opened Cost
  import opened Ledger
  import opened Market
  import opened Events
  import opened Account
  import opened CashFlow

  /** Lots that change hands: a hedged close takes off no more than the opposite leg has. */
  function LotsTraded(v: HoldingV, f: Fill): int {
    if f.offset.Open? then f.qty else Min(f.qty, Abs(if f.side.Buy? then v.short.qty else v.long.qty))
  }

  /** Bought lots gain, and sold lots lose, by the move of the price since. */
  ghost predicate Earns(s: StateV, r: StateV, h: nat, d: int, price: int, mark: int)
    requires h < |s.holdings| == |r.holdings|
  {
    var v, w := s.holdings[h], r.holdings[h];
    && w.long.qty + w.short.qty == v.long.qty + v.short.qty + d
    && r.realized + w.UnrealizedAt(mark) == s.realized + v.UnrealizedAt(mark) + v.tickCash * (d * (mark - price))
  }

  lemma MovedFlow(k: int, size: int, d: int, price: int, mark: int, flow: int)
    ensures k * ((size + d) * mark - (flow + d * price)) == k * (size * mark - flow) + k * (d * (mark - price))
  {
    Distribute(size, d, mark);
    assert d * (mark - price) == d * mark - d * price by {
      Distribute(mark, 0 - price, d);
      NegateProduct(price, d);
      assert (mark - price) * d == d * (mark - price) && mark * d == d * mark && price * d == d * price;
    }
    Sum(k, size * mark - flow, d * (mark - price));
  }

  lemma Sum(k: int, a: int, b: int)
    ensures k * (a + b) == k * a + k * b
  {
  }

  /** A reader's track that moved by `d` lots at a price earns just that. */
  lemma TrackEarns(s: StateV, r: StateV, h: nat, t: Track, u: Track, d: int, price: int, mark: int)
    requires h < |s.holdings| == |r.holdings| && r.holdings[h].tickCash == s.holdings[h].tickCash
    requires SameSizes(s.holdings[h], t) && SameSizes(r.holdings[h], u)
    requires u.long + u.short == t.long + t.short + d && u.flow == t.flow + d * price
    requires r.realized - s.realized == Gap(r.holdings[h], u) - Gap(s.holdings[h], t)
    ensures Earns(s, r, h, d, price, mark)
  {
    OneWorth(s.holdings[h], t, mark);
    OneWorth(r.holdings[h], u, mark);
    MovedFlow(s.holdings[h].tickCash, t.long + t.short, d, price, mark, t.flow);
  }

  /** Which leg a hedged fill touches, and which way. */
  ghost predicate TouchesItsLeg(v: HoldingV, w: HoldingV, f: Fill) {
    var n := LotsTraded(v, f);
    if f.offset.Open? then
      if f.side.Buy? then w.long.qty == v.long.qty + n && w.short == v.short
      else w.short.qty == v.short.qty - n && w.long == v.long
    else
      if f.side.Buy? then w.short.qty == v.short.qty + n && w.long == v.long
      else w.long.qty == v.long.qty - n && w.short == v.short
  }

  /** A hedged fill of a size that is not negative: a buy opens the long leg or shrinks the short, a
      sell opens the short leg or shrinks the long, and either way the account has bought or sold
      that many lots at the price. */
  lemma HedgedFillIsWorth(s: StateV, h: nat, f: Fill, mark: int)
    requires h < |s.holdings| && f.instrument == s.holdings[h].instrument
    requires Legal(Hedge, s.holdings[h]) && f.qty >= 0
    ensures var r, d := FillHedged(s, h, f), SideSign(f.side) * LotsTraded(s.holdings[h], f);
      TouchesItsLeg(s.holdings[h], r.holdings[h], f) && Earns(s, r, h, d, f.price, mark)
  {
    var v := s.holdings[h];
    var t := Track(v.long.qty, v.short.qty, 0);
    var r, u := FillHedged(s, h, f), Seen(Hedge, f.instrument, t, Filled(f));
    HedgedGap(s, h, f, t);
    TrackMoves(t, f);
    HedgedTouches(s, h, f);
    TrackEarns(s, r, h, t, u, SideSign(f.side) * LotsTraded(v, f), f.price, mark);
  }

  lemma TrackMoves(t: Track, f: Fill)
    requires t.long >= 0 && t.short <= 0 && t.flow == 0 && f.qty >= 0
    ensures var u := Seen(Hedge, f.instrument, t, Filled(f));
      var n := if f.offset.Open? then f.qty else Min(f.qty, Abs(if f.side.Buy? then t.short else t.long));
      u.long + u.short == t.long + t.short + SideSign(f.side) * n && u.flow == SideSign(f.side) * n * f.price
  {
  }

  lemma HedgedTouches(s: StateV, h: nat, f: Fill)
    requires h < |s.holdings| && Legal(Hedge, s.holdings[h]) && f.qty >= 0
    ensures TouchesItsLeg(s.holdings[h], FillHedged(s, h, f).holdings[h], f)
    ensures FillHedged(s, h, f).holdings[h].tickCash == s.holdings[h].tickCash
  {
  }

  /** A one-way fill of any size moves the net position by it, up for a buy and down for a sell. */
  lemma OneWayFillIsWorth(s: StateV, h: nat, f: Fill, mark: int)
    requires h < |s.holdings| && s.holdings[h].short.qty == 0
    ensures var r, d := FillOneWay(s, h, f), (if f.side.Buy? then f.qty else 0 - f.qty);
      r.holdings[h].long.qty == s.holdings[h].long.qty + d && Earns(s, r, h, d, f.price, mark)
  {
    var v := s.holdings[h];
    var t := Track(v.long.qty, 0, 0);
    OneWayGap(s, h, f, t);
    OneWayKeepsTick(s, h, f);
    TrackEarns(s, FillOneWay(s, h, f), h, t, t.Long(PositionDelta(f), f.price), PositionDelta(f), f.price, mark);
  }

  lemma OneWayKeepsTick(s: StateV, h: nat, f: Fill)
    requires h < |s.holdings|
    ensures FillOneWay(s, h, f).holdings[h].tickCash == s.holdings[h].tickCash
  {
  }
}
