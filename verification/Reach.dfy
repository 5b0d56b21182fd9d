/** Which orders a tick fills, read off its prices and the last trade before it
    (crates/oq-engine/src/l0.rs). */
module Reach {
  import opened Numbers
  import opened Market
  import opened RestingBook
  import opened L0
  import L0Engine
  import L0Facts
  import Tiers

  /** The price moved through the order's limit on its way from the last trade to the furthest price
      of the tick: up for a sell, and down, if it did not go up, for a buy. */
  predicate Passed(o: Order, last: Option<int>, t: Tick) {
    last.Some? && o.price.Some? &&
    var from, p := last.value, o.price.value;
    var top, bottom := if t.high > 0 then t.high else t.last, if t.low > 0 then t.low else t.last;
    match o.side
    case Sell => from < p <= top
    case Buy => bottom <= p < from && top <= from
  }

  /** The first of ask, low and last trade that is known is at or below a bid; for an ask, of bid, high
      and last trade, at or above. */
  predicate Met(o: Order, t: Tick) {
    o.price.Some? &&
    var p := o.price.value;
    match o.side
    case Buy => (0 < t.ask <= p) || (t.ask <= 0 && 0 < t.low <= p) || (t.ask <= 0 && t.low <= 0 && 0 < t.last <= p)
    case Sell =>
      (0 < t.bid && p <= t.bid) || (t.bid <= 0 && 0 < t.high && p <= t.high)
      || (t.bid <= 0 && t.high <= 0 && 0 < t.last && p <= t.last)
  }

  predicate Trades(o: Order, last: Option<int>, t: Tick) {
    o.price.None? || Passed(o, last, t) || Met(o, t)
  }

  lemma TradesIsHit(o: Order, last: Option<int>, t: Tick)
    ensures Hit(o, last, t) <==> Trades(o, last, t)
  {
  }

  ghost predicate FilledBy(fs: seq<L0Fill>, o: Order) {
    exists i :: 0 <= i < |fs| && L0Facts.FillsWhole(fs[i].fill, o)
  }

  lemma OrderOfId(b: BookV, o: Order, q: Order)
    requires Wf(b) && o in Orders(b) && q in Orders(b) && o.id == q.id
    ensures o == q
  {
    var r :| r in All(b) && r.order == o;
    var s :| s in All(b) && s.order == q;
    var i :| 0 <= i < |All(b)| && All(b)[i] == r;
    var j :| 0 <= j < |All(b)| && All(b)[j] == s;
    L0Engine.UniqueIndexSame(All(b), i, j);
  }

  /** A resting order is filled by a tick, whole, if and only if it is a market order, or the price
      passed through its limit, or the tick's quotes meet it. */
  lemma FilledIff(e: EngineV, t: Tick, o: Order)
    requires Wf(e.book) && o in Orders(e.book)
    ensures FilledBy(TickFills(e, t), o) <==> Trades(o, e.prevPrice, t)
  {
    var fs := TickFills(e, t);
    TradesIsHit(o, e.prevPrice, t);
    if Trades(o, e.prevPrice, t) {
      var i := L0Facts.EveryHitIsFilled(e, t, o);
    }
    if FilledBy(fs, o) {
      var i :| 0 <= i < |fs| && L0Facts.FillsWhole(fs[i].fill, o);
      var q := L0Facts.EveryFillIsAHit(e, t, i);
      OrderOfId(e.book, o, q);
    }
  }

  // ----- over a run

  function LastTick(ops: seq<Tiers.Op>): Option<Tick> {
    if ops == [] then None
    else if ops[|ops| - 1].TickOp? then Some(ops[|ops| - 1].tick)
    else LastTick(ops[..|ops| - 1])
  }

  /** The path of a tick starts where the last one's trades ended. */
  lemma {:induction false} StartsAtLastTrade(instrument: nat, ops: seq<Tiers.Op>)
    ensures var e, last := Tiers.L0After(instrument, ops), LastTick(ops);
      && e.prevPrice == (if last.Some? then Some(last.value.last) else None)
      && e.prevStamp == (if last.Some? then Some(last.value.stamp) else None)
      && e.instrument == instrument
  {
    if ops != [] {
      StartsAtLastTrade(instrument, ops[..|ops| - 1]);
    }
  }

  /** Trade identifiers run on from one tick to the next: as many are used as there were fills. */
  lemma {:induction false} TradesRunOn(instrument: nat, ops: seq<Tiers.Op>, i: nat)
    requires i < |Tiers.AllL0Fills(instrument, ops)|
    ensures Tiers.AllL0Fills(instrument, ops)[i].fill.trade == i + 1
    ensures Tiers.L0After(instrument, ops).traded == |Tiers.AllL0Fills(instrument, ops)|
  {
    var front, op := ops[..|ops| - 1], ops[|ops| - 1];
    var before, e := Tiers.AllL0Fills(instrument, front), Tiers.L0After(instrument, front);
    TradesCounted(instrument, ops);
    TradesCounted(instrument, front);
    if i < |before| {
      TradesRunOn(instrument, front, i);
    } else {
      var fs := Tiers.L0Fills(e, op);
      assert Tiers.AllL0Fills(instrument, ops) == before + fs;
      L0Facts.FillAt(e, op.tick, i - |before|);
    }
  }

  lemma {:induction false} TradesCounted(instrument: nat, ops: seq<Tiers.Op>)
    ensures Tiers.L0After(instrument, ops).traded == |Tiers.AllL0Fills(instrument, ops)|
  {
    if ops != [] {
      TradesCounted(instrument, ops[..|ops| - 1]);
    }
  }
}
