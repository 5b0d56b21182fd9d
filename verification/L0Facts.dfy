/** What the declared tick guarantees: exactly the hit orders trade, each once and whole,
    at no worse than their limit, in a fixed order, and the rest of the book keeps its
    price-time priority (crates/oq-engine/src/l0.rs). */
module L0Facts {
  import opened Numbers
  import opened Market
  import opened RestingBook
  import opened L0
  import opened L0Engine

  /** The orders a tick executes, in execution order. */
  ghost function PlanOrders(e: EngineV, t: Tick): seq<Resting> {
    GapOrders(e, t) + e.book.marketBuys + e.book.marketSells +
    Select(e.book.bids, Closing, e.prevPrice, t) + Select(e.book.asks, Closing, e.prevPrice, t)
  }

  lemma PlanFollowsOrders(e: EngineV, t: Tick)
    ensures |Plan(e, t)| == |PlanOrders(e, t)|
    ensures forall i :: 0 <= i < |Plan(e, t)| ==> Plan(e, t)[i].r == PlanOrders(e, t)[i]
  {
    var g, mb, ms := GapOrders(e, t), e.book.marketBuys, e.book.marketSells;
    var bs, xs := Select(e.book.bids, Closing, e.prevPrice, t), Select(e.book.asks, Closing, e.prevPrice, t);
    assert ClosingPlan(e, t) ==
      MarketExecs(mb, t.BuyReference(), t.stamp) + MarketExecs(ms, t.SellReference(), t.stamp) +
      ReachedExecs(bs, Buy, t.BuyReference(), t.stamp) + ReachedExecs(xs, Sell, t.SellReference(), t.stamp);
  }

  lemma MarketOrdersClose(b: BookV, prev: Option<int>, t: Tick)
    requires Sorted(b)
    ensures forall r :: r in b.marketBuys || r in b.marketSells ==> FateOf(r.order, prev, t) == Closing
  {
  }

  lemma PlanOrdersMembers(e: EngineV, t: Tick)
    requires Wf(e.book)
    ensures forall r :: r in PlanOrders(e, t) <==> r in All(e.book) && Hit(r.order, e.prevPrice, t)
  {
    var b, prev := e.book, e.prevPrice;
    var swept := Select(All(b), Gap, prev, t);
    SelectMembers(All(b), Gap, prev, t);
    SelectMembers(b.bids, Closing, prev, t);
    SelectMembers(b.asks, Closing, prev, t);
    ByArrivalMembers(swept);
    SameMembers(swept, GapOrders(e, t));
    MarketOrdersClose(b, prev, t);
  }

  lemma PlanOrdersUnique(e: EngineV, t: Tick)
    requires Wf(e.book)
    ensures UniqueIds(PlanOrders(e, t))
  {
    var b, prev := e.book, e.prevPrice;
    var g, bs, xs := GapOrders(e, t), Select(b.bids, Closing, prev, t), Select(b.asks, Closing, prev, t);
    var swept := Select(All(b), Gap, prev, t);
    SelectMembers(All(b), Gap, prev, t);
    SelectMembers(b.bids, Closing, prev, t);
    SelectMembers(b.asks, Closing, prev, t);
    SelectUnique(All(b), Gap, prev, t);
    ByArrivalUnique(swept);
    ByArrivalMembers(swept);
    SameMembers(swept, g);
    UniqueParts(b);
    SelectUnique(b.bids, Closing, prev, t);
    SelectUnique(b.asks, Closing, prev, t);
    MarketOrdersClose(b, prev, t);
    GapDistinct(e, t, b.marketBuys);
    UniqueJoin(g, b.marketBuys);
    GapDistinct(e, t, b.marketSells);
    UniqueJoin(g + b.marketBuys, b.marketSells);
    GapDistinct(e, t, bs);
    UniqueJoin(g + b.marketBuys + b.marketSells, bs);
    GapDistinct(e, t, xs);
    UniqueJoin(g + b.marketBuys + b.marketSells + bs, xs);
  }

  /** A swept order shares its id with no order that was not swept. */
  lemma GapDistinct(e: EngineV, t: Tick, s: seq<Resting>)
    requires UniqueIds(All(e.book))
    requires forall r :: r in s ==> r in All(e.book) && FateOf(r.order, e.prevPrice, t) != Gap
    ensures forall x, y :: x in GapOrders(e, t) && y in s ==> x.order.id != y.order.id
  {
    var swept := Select(All(e.book), Gap, e.prevPrice, t);
    SelectMembers(All(e.book), Gap, e.prevPrice, t);
    ByArrivalMembers(swept);
    SameMembers(swept, GapOrders(e, t));
    forall x, y | x in GapOrders(e, t) && y in s ensures x.order.id != y.order.id {
      assert x != y;
      var i :| 0 <= i < |All(e.book)| && All(e.book)[i] == x;
      var j :| 0 <= j < |All(e.book)| && All(e.book)[j] == y;
      if i < j { assert All(e.book)[i].order.id != All(e.book)[j].order.id; }
      else { assert All(e.book)[j].order.id != All(e.book)[i].order.id; }
    }
  }

  lemma FillAt(e: EngineV, t: Tick, i: nat)
    requires i < |TickFills(e, t)|
    ensures |PlanOrders(e, t)| == |TickFills(e, t)|
    ensures FillsWhole(TickFills(e, t)[i].fill, PlanOrders(e, t)[i].order)
    ensures TickFills(e, t)[i].fill.trade == e.traded + i + 1
    ensures TickFills(e, t)[i].fill.instrument == e.instrument
  {
    PlanFollowsOrders(e, t);
  }

  /** Every fill of a tick is the whole of some order the tick hits, and trade identifiers
      run on from the last one. */
  lemma EveryFillIsAHit(e: EngineV, t: Tick, i: nat) returns (o: Order)
    requires Wf(e.book) && i < |TickFills(e, t)|
    ensures o in Orders(e.book) && Hit(o, e.prevPrice, t)
    ensures FillsWhole(TickFills(e, t)[i].fill, o)
    ensures TickFills(e, t)[i].fill.trade == e.traded + i + 1
    ensures TickFills(e, t)[i].fill.instrument == e.instrument
  {
    FillAt(e, t, i);
    PlanOrdersMembers(e, t);
    var r := PlanOrders(e, t)[i];
    assert r in PlanOrders(e, t);
    o := r.order;
  }

  /** Every order the tick hits is filled, whole. */
  lemma EveryHitIsFilled(e: EngineV, t: Tick, o: Order) returns (i: nat)
    requires Wf(e.book) && o in Orders(e.book) && Hit(o, e.prevPrice, t)
    ensures i < |TickFills(e, t)| && FillsWhole(TickFills(e, t)[i].fill, o)
  {
    PlanOrdersMembers(e, t);
    PlanFollowsOrders(e, t);
    var r :| r in All(e.book) && r.order == o;
    assert r in PlanOrders(e, t);
    i :| 0 <= i < |PlanOrders(e, t)| && PlanOrders(e, t)[i] == r;
    FillAt(e, t, i);
  }

  /** No order is filled twice by one tick. */
  lemma FilledOnce(e: EngineV, t: Tick, i: nat, j: nat)
    requires Wf(e.book) && i < j < |TickFills(e, t)|
    ensures TickFills(e, t)[i].fill.order != TickFills(e, t)[j].fill.order
  {
    PlanOrdersUnique(e, t);
    FillAt(e, t, i);
    FillAt(e, t, j);
    assert PlanOrders(e, t)[i].order.id != PlanOrders(e, t)[j].order.id;
  }

  predicate FillsWhole(f: Fill, o: Order) {
    f.order == o.id && f.qty == o.qty && f.side == o.side && f.offset == o.offset
  }

  /** The fill reports what was executed: whose order, at what price, when, and why. */
  predicate Reports(f: L0Fill, x: Exec) {
    && FillsWhole(f.fill, x.r.order) && f.fill.price == x.price && f.fill.stamp == x.stamp
    && f.fill.liquidity == x.liquidity && f.reason == x.reason
  }

  /** Every fill is at a price its order accepts, and at the order's own price when the path swept it;
      a market order pays the reference, and a limit order that was reached trades at the reference
      where that is known and better. */
  lemma NoLimitViolated(e: EngineV, t: Tick, i: nat)
    requires Wf(e.book) && i < |Plan(e, t)|
    ensures Fair(Plan(e, t)[i], t, e.prevStamp)
    ensures |TickFills(e, t)| == |Plan(e, t)| && Reports(TickFills(e, t)[i], Plan(e, t)[i])
  {
    var x := Plan(e, t)[i];
    assert x in GapPlan(e, t) + ClosingPlan(e, t);
    GapIsFair(e, t);
    ClosingIsFair(e, t);
  }

  /** What a buyer pays or a seller gets in the market: the quote if there is one, else the last
      trade. */
  function Near(side: Side, t: Tick): int {
    match side
    case Buy => if t.ask > 0 then t.ask else t.last
    case Sell => if t.bid > 0 then t.bid else t.last
  }

  predicate NoWorse(side: Side, price: int, than: int) {
    if side.Buy? then price <= than else price >= than
  }

  predicate Fair(x: Exec, t: Tick, prevStamp: Option<Stamp>) {
    var o, near := x.r.order, Near(x.r.order.side, t);
    && (o.price.Some? ==> NoWorse(o.side, x.price, o.price.value))
    && (x.reason == GapCrossed ==> o.price == Some(x.price) && x.liquidity.Maker?)
    && (x.stamp == if x.reason == GapCrossed && prevStamp.Some? then prevStamp.value else t.stamp)
    && (o.price.None? <==> x.reason == MarketOrder) && (x.reason == MarketOrder <==> x.liquidity.Taker?)
    && (x.reason == MarketOrder ==> x.price == near)
    && (x.reason == Crossed ==> o.price.Some? && (x.price == o.price.value || x.price == near))
    && (x.reason == Crossed ==> if near > 0 then NoWorse(o.side, x.price, near) else o.price == Some(x.price))
  }

  lemma GapIsFair(e: EngineV, t: Tick)
    requires Wf(e.book)
    ensures forall x :: x in GapPlan(e, t) ==> Fair(x, t, e.prevStamp)
  {
    var swept := Select(All(e.book), Gap, e.prevPrice, t);
    SelectMembers(All(e.book), Gap, e.prevPrice, t);
    ByArrivalMembers(swept);
    SameMembers(ByArrival(swept), swept);
    forall x | x in GapPlan(e, t) ensures Fair(x, t, e.prevStamp) {
      assert x.r in ByArrival(swept);
    }
  }

  lemma ClosingIsFair(e: EngineV, t: Tick)
    requires Wf(e.book)
    ensures forall x :: x in ClosingPlan(e, t) ==> Fair(x, t, e.prevStamp)
  {
    MarketIsFair(e.book.marketBuys, Buy, e.book.nextArrival, t, e.prevStamp);
    MarketIsFair(e.book.marketSells, Sell, e.book.nextArrival, t, e.prevStamp);
    ReachedIsFair(e.book.bids, Buy, e.book.nextArrival, e.prevPrice, t, e.prevStamp);
    ReachedIsFair(e.book.asks, Sell, e.book.nextArrival, e.prevPrice, t, e.prevStamp);
  }

  lemma MarketIsFair(s: seq<Resting>, side: Side, bound: nat, t: Tick, prevStamp: Option<Stamp>)
    requires MarketSide(s, side, bound)
    ensures forall x :: x in MarketExecs(s, if side.Buy? then t.BuyReference() else t.SellReference(), t.stamp) ==> Fair(x, t, prevStamp)
  {
  }

  lemma ReachedIsFair(s: seq<Resting>, side: Side, bound: nat, prev: Option<int>, t: Tick, prevStamp: Option<Stamp>)
    requires LimitSide(s, side, bound)
    ensures var near := if side.Buy? then t.BuyReference() else t.SellReference();
      forall x :: x in ReachedExecs(Select(s, Closing, prev, t), side, near, t.stamp) ==> Fair(x, t, prevStamp)
  {
    SelectMembers(s, Closing, prev, t);
    var near := if side.Buy? then t.BuyReference() else t.SellReference();
    forall x | x in ReachedExecs(Select(s, Closing, prev, t), side, near, t.stamp) ensures Fair(x, t, prevStamp) {
      assert x.r in Select(s, Closing, prev, t) && x.r in s;
    }
  }

  /** Where an execution stands in a tick. */
  function Phase(x: Exec): int {
    match x.reason
    case GapCrossed => 0
    case MarketOrder => if x.r.order.side.Buy? then 1 else 2
    case Crossed => if x.r.order.side.Buy? then 3 else 4
  }

  /** Two limit orders of a side: the higher bid or the lower ask, and at one price the one that came
      first. */
  predicate Outranks(a: Resting, c: Resting) {
    a.order.price.Some? && c.order.price.Some? &&
    var p, q := a.order.price.value, c.order.price.value;
    if p == q then a.arrival < c.arrival else if a.order.side.Buy? then q < p else p < q
  }

  /** Gap crossings and market orders run by arrival, limit orders by price then arrival. */
  ghost predicate InOrder(a: Exec, c: Exec) {
    || Phase(a) < Phase(c)
    || (Phase(a) == Phase(c) && if Phase(a) <= 2 then a.r.arrival <= c.r.arrival else Outranks(a.r, c.r))
  }

  lemma TickOrder(e: EngineV, t: Tick)
    requires Wf(e.book)
    ensures forall i, j :: 0 <= i < j < |Plan(e, t)| ==> InOrder(Plan(e, t)[i], Plan(e, t)[j])
  {
    var b, prev := e.book, e.prevPrice;
    var p1 := MarketExecs(b.marketBuys, t.BuyReference(), t.stamp);
    var p2 := MarketExecs(b.marketSells, t.SellReference(), t.stamp);
    var p3 := ReachedExecs(Select(b.bids, Closing, prev, t), Buy, t.BuyReference(), t.stamp);
    var p4 := ReachedExecs(Select(b.asks, Closing, prev, t), Sell, t.SellReference(), t.stamp);
    GapPhase(e, t);
    MarketPhase(b.marketBuys, Buy, b.nextArrival, t, t.BuyReference());
    MarketPhase(b.marketSells, Sell, b.nextArrival, t, t.SellReference());
    SidePhase(b.bids, Buy, b.nextArrival, prev, t, t.BuyReference());
    SidePhase(b.asks, Sell, b.nextArrival, prev, t, t.SellReference());
    FivePhases(GapPlan(e, t), p1, p2, p3, p4);
    assert AllInOrder(Plan(e, t));
  }

  ghost predicate OfPhase(p: seq<Exec>, phase: int) {
    AllInOrder(p) && forall i :: 0 <= i < |p| ==> Phase(p[i]) == phase
  }

  lemma GapPhase(e: EngineV, t: Tick)
    ensures OfPhase(GapPlan(e, t), 0)
  {
    ByArrivalOrdered(Select(All(e.book), Gap, e.prevPrice, t));
    PhaseOf(GapPlan(e, t), 0, GapOrders(e, t));
  }

  lemma MarketPhase(s: seq<Resting>, side: Side, bound: nat, t: Tick, at: int)
    requires MarketSide(s, side, bound)
    ensures OfPhase(MarketExecs(s, at, t.stamp), if side.Buy? then 1 else 2)
  {
    PhaseOf(MarketExecs(s, at, t.stamp), if side.Buy? then 1 else 2, s);
  }

  lemma SidePhase(s: seq<Resting>, side: Side, bound: nat, prev: Option<int>, t: Tick, near: int)
    requires LimitSide(s, side, bound)
    ensures OfPhase(ReachedExecs(Select(s, Closing, prev, t), side, near, t.stamp), if side.Buy? then 3 else 4)
  {
    SelectLimitSide(s, side, bound, Closing, prev, t);
    PhaseOf(ReachedExecs(Select(s, Closing, prev, t), side, near, t.stamp), if side.Buy? then 3 else 4, Select(s, Closing, prev, t));
  }

  lemma FivePhases(p0: seq<Exec>, p1: seq<Exec>, p2: seq<Exec>, p3: seq<Exec>, p4: seq<Exec>)
    requires OfPhase(p0, 0) && OfPhase(p1, 1) && OfPhase(p2, 2) && OfPhase(p3, 3) && OfPhase(p4, 4)
    ensures AllInOrder(p0 + (p1 + p2 + p3 + p4))
  {
    JoinOrdered(p3, p4, 3);
    JoinOrdered(p2, p3 + p4, 2);
    JoinOrdered(p1, p2 + (p3 + p4), 1);
    JoinOrdered(p0, p1 + (p2 + (p3 + p4)), 0);
    assert p1 + p2 + p3 + p4 == p1 + (p2 + (p3 + p4));
  }

  lemma JoinOrdered(p: seq<Exec>, q: seq<Exec>, phase: int)
    requires AllInOrder(p) && AllInOrder(q)
    requires forall i :: 0 <= i < |p| ==> Phase(p[i]) == phase
    requires forall i :: 0 <= i < |q| ==> Phase(q[i]) > phase
    ensures AllInOrder(p + q)
    ensures forall i :: 0 <= i < |p + q| ==> Phase((p + q)[i]) >= phase
  {
    var w := p + q;
    forall i, j | 0 <= i < j < |w| ensures InOrder(w[i], w[j]) {
      if j < |p| { assert w[i] == p[i] && w[j] == p[j]; }
      else if i >= |p| { assert w[i] == q[i - |p|] && w[j] == q[j - |p|]; }
    }
  }

  ghost predicate AllInOrder(p: seq<Exec>) {
    forall i, j :: 0 <= i < j < |p| ==> InOrder(p[i], p[j])
  }

  lemma PhaseOf(p: seq<Exec>, phase: int, s: seq<Resting>)
    requires |p| == |s| && forall i :: 0 <= i < |p| ==> p[i].r == s[i]
    requires forall i :: 0 <= i < |p| ==> Phase(p[i]) == phase
    requires 0 <= phase <= 4
    requires phase == 0 ==> InArrivalOrder(s)
    requires phase == 1 || phase == 2 ==> forall i, j :: 0 <= i < j < |s| ==> s[i].arrival < s[j].arrival
    requires phase >= 3 ==> forall i, j :: 0 <= i < j < |s| ==> Precedes(if phase == 3 then Buy else Sell, s[i], s[j])
    ensures AllInOrder(p)
  {
    forall i, j | 0 <= i < j < |p| ensures InOrder(p[i], p[j]) {
      if phase == 0 { assert KeyLe(Key(s[i]), Key(s[j])); }
      else if phase >= 3 { assert Precedes(if phase == 3 then Buy else Sell, s[i], s[j]); }
    }
  }

  /** The rest of the book is the orders the tick did not hit, still in price-time order. */
  lemma SurvivorsAreTheUnhit(e: EngineV, t: Tick)
    requires Wf(e.book)
    ensures Wf(Ticked(e, t).book)
    ensures Orders(Ticked(e, t).book) == set o | o in Orders(e.book) && !Hit(o, e.prevPrice, t)
    ensures Ids(Ticked(e, t).book) == set o | o in Orders(e.book) && !Hit(o, e.prevPrice, t) :: o.id
  {
    var b, prev := e.book, e.prevPrice;
    var b' := Ticked(e, t).book;
    SelectLimitSide(b.bids, Buy, b.nextArrival, Rest, prev, t);
    SelectLimitSide(b.asks, Sell, b.nextArrival, Rest, prev, t);
    SelectMembers(b.bids, Rest, prev, t);
    SelectMembers(b.asks, Rest, prev, t);
    MarketOrdersClose(b, prev, t);
    assert forall r :: r in All(b') <==> r in All(b) && !Hit(r.order, prev, t);
    UniqueParts(b);
    SelectUnique(b.bids, Rest, prev, t);
    SelectUnique(b.asks, Rest, prev, t);
    UniqueJoin(b'.bids, b'.asks);
    assert All(b') == b'.bids + b'.asks;
    assert forall r :: r in All(b') ==> r.order in Orders(b');
  }
}
