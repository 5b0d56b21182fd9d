/** What one tick does at the L0 tier, declared as a plan of executions and the orders that survive
    it (crates/oq-engine/src/l0.rs). */
module L0 {
  import opened Numbers
  import opened Market
  import opened RestingBook

  // ----- what one observation does to one order

  /** The path from the previous price to this window's extreme passed the order's price. */
  predicate Swept(o: Order, prev: Option<int>, t: Tick) {
    prev.Some? && o.price.Some? &&
    if t.UpExtent() > prev.value then o.side.Sell? && prev.value < o.price.value <= t.UpExtent()
    else t.DownExtent() < prev.value && o.side.Buy? && t.DownExtent() <= o.price.value < prev.value
  }

  /** The limit is at or through its side's trigger price, or there is none. */
  predicate Reached(o: Order, t: Tick) {
    match (o.price, o.side)
    case (None, _) => true
    case (Some(p), Buy) => t.BuyTrigger() > 0 && p >= t.BuyTrigger()
    case (Some(p), Sell) => t.SellTrigger() > 0 && p <= t.SellTrigger()
  }

  datatype Fate = Gap | Closing | Rest

  function FateOf(o: Order, prev: Option<int>, t: Tick): Fate {
    if Swept(o, prev, t) then Gap else if Reached(o, t) then Closing else Rest
  }

  predicate Hit(o: Order, prev: Option<int>, t: Tick) {
    Swept(o, prev, t) || Reached(o, t)
  }

  function Select(s: seq<Resting>, fate: Fate, prev: Option<int>, t: Tick): seq<Resting> {
    if s == [] then []
    else if FateOf(s[0].order, prev, t) == fate then [s[0]] + Select(s[1..], fate, prev, t)
    else Select(s[1..], fate, prev, t)
  }

  // ----- arrival order

  function Key(r: Resting): (nat, nat) {
    (r.arrival, r.order.id)
  }

  predicate KeyLe(a: (nat, nat), b: (nat, nat)) {
    a.0 < b.0 || (a.0 == b.0 && a.1 <= b.1)
  }

  function PutByArrival(r: Resting, s: seq<Resting>): seq<Resting> {
    if s == [] || KeyLe(Key(r), Key(s[0])) then [r] + s else [s[0]] + PutByArrival(r, s[1..])
  }

  function ByArrival(s: seq<Resting>): seq<Resting> {
    if s == [] then [] else PutByArrival(s[0], ByArrival(s[1..]))
  }

  // ----- executions

  /** An execution before its trade identifier is assigned. */
  datatype Exec = Exec(r: Resting, price: int, liquidity: Liquidity, reason: FillReason, stamp: Stamp)

  function FillOf(x: Exec, instrument: nat, trade: nat): L0Fill {
    L0Fill(Fill(x.stamp, instrument, x.r.order.id, trade, x.r.order.side, x.r.order.offset,
                x.price, x.r.order.qty, x.liquidity), x.reason)
  }

  /** Trade identifiers are consecutive, in the order executions happen. */
  function Number(xs: seq<Exec>, instrument: nat, traded: nat): (fs: seq<L0Fill>)
    ensures |fs| == |xs|
    ensures forall i :: 0 <= i < |xs| ==> fs[i] == FillOf(xs[i], instrument, traded + i + 1)
  {
    seq(|xs|, i requires 0 <= i < |xs| => FillOf(xs[i], instrument, traded + i + 1))
  }

  function LimitPrice(r: Resting): int {
    if r.order.price.Some? then r.order.price.value else 0
  }

  function GapExecs(s: seq<Resting>, stamp: Stamp): (xs: seq<Exec>)
    ensures |xs| == |s|
  {
    seq(|s|, i requires 0 <= i < |s| => Exec(s[i], LimitPrice(s[i]), Maker, GapCrossed, stamp))
  }

  function MarketExecs(s: seq<Resting>, price: int, stamp: Stamp): (xs: seq<Exec>)
    ensures |xs| == |s|
  {
    seq(|s|, i requires 0 <= i < |s| => Exec(s[i], price, Taker, MarketOrder, stamp))
  }

  /** The better of the limit and the reference for the order's side. */
  function ImprovedPrice(side: Side, price: int, reference: int): int {
    if reference <= 0 then price
    else if side.Buy? then Min(price, reference)
    else Max(price, reference)
  }

  function ReachedExecs(s: seq<Resting>, side: Side, reference: int, stamp: Stamp): (xs: seq<Exec>)
    ensures |xs| == |s|
  {
    seq(|s|, i requires 0 <= i < |s| => Exec(s[i], ImprovedPrice(side, LimitPrice(s[i]), reference), Maker, Crossed, stamp))
  }

  // ----- one tick, declared

  datatype EngineV = EngineV(
    instrument: nat, book: BookV, traded: nat, prevPrice: Option<int>, prevStamp: Option<Stamp>)

  function NewEngine(instrument: nat): EngineV {
    EngineV(instrument, EMPTY_BOOK, 0, None, None)
  }

  function GapStamp(e: EngineV, t: Tick): Stamp {
    if e.prevStamp.Some? then e.prevStamp.value else t.stamp
  }

  function GapPlan(e: EngineV, t: Tick): seq<Exec> {
    GapExecs(ByArrival(Select(All(e.book), Gap, e.prevPrice, t)), GapStamp(e, t))
  }

  function ClosingPlan(e: EngineV, t: Tick): seq<Exec> {
    MarketExecs(e.book.marketBuys, t.BuyReference(), t.stamp) +
    MarketExecs(e.book.marketSells, t.SellReference(), t.stamp) +
    ReachedExecs(Select(e.book.bids, Closing, e.prevPrice, t), Buy, t.BuyReference(), t.stamp) +
    ReachedExecs(Select(e.book.asks, Closing, e.prevPrice, t), Sell, t.SellReference(), t.stamp)
  }

  /** Everything a tick executes, in order: gap crossings by arrival, market buys, market
      sells, then bids and asks in price-time order. */
  function Plan(e: EngineV, t: Tick): seq<Exec> {
    GapPlan(e, t) + ClosingPlan(e, t)
  }

  function Survivors(b: BookV, prev: Option<int>, t: Tick): BookV {
    BookV(Select(b.bids, Rest, prev, t), Select(b.asks, Rest, prev, t), [], [], b.nextArrival)
  }

  function Ticked(e: EngineV, t: Tick): EngineV {
    EngineV(e.instrument, Survivors(e.book, e.prevPrice, t), e.traded + |Plan(e, t)|, Some(t.last), Some(t.stamp))
  }

  function TickFills(e: EngineV, t: Tick): seq<L0Fill> {
    Number(Plan(e, t), e.instrument, e.traded)
  }

  // ----- filtering

  lemma {:induction false} SelectMembers(s: seq<Resting>, fate: Fate, prev: Option<int>, t: Tick)
    ensures forall r :: r in Select(s, fate, prev, t) <==> r in s && FateOf(r.order, prev, t) == fate
  {
    if s != [] {
      SelectMembers(s[1..], fate, prev, t);
      assert s == [s[0]] + s[1..];
    }
  }

  lemma {:induction false} SelectAppend(s: seq<Resting>, u: seq<Resting>, fate: Fate, prev: Option<int>, t: Tick)
    ensures Select(s + u, fate, prev, t) == Select(s, fate, prev, t) + Select(u, fate, prev, t)
  {
    if s == [] {
      assert s + u == u;
    } else {
      assert (s + u)[0] == s[0] && (s + u)[1..] == s[1..] + u;
      SelectAppend(s[1..], u, fate, prev, t);
    }
  }

  lemma {:induction false} SelectNone(s: seq<Resting>, fate: Fate, prev: Option<int>, t: Tick)
    requires forall r :: r in s ==> FateOf(r.order, prev, t) != fate
    ensures Select(s, fate, prev, t) == []
  {
    if s != [] {
      assert s[0] in s;
      SelectNone(s[1..], fate, prev, t);
    }
  }

  lemma {:induction false} SelectEvery(s: seq<Resting>, fate: Fate, prev: Option<int>, t: Tick)
    requires forall r :: r in s ==> FateOf(r.order, prev, t) == fate
    ensures Select(s, fate, prev, t) == s
  {
    if s != [] {
      assert s[0] in s;
      SelectEvery(s[1..], fate, prev, t);
    }
  }

  /** A selection is a subsequence: any two selected orders keep their relative order. */
  lemma {:induction false} SelectOrder(s: seq<Resting>, fate: Fate, prev: Option<int>, t: Tick, i: nat, j: nat)
      returns (a: nat, b: nat)
    requires i < j < |Select(s, fate, prev, t)|
    ensures a < b < |s| && s[a] == Select(s, fate, prev, t)[i] && s[b] == Select(s, fate, prev, t)[j]
  {
    if FateOf(s[0].order, prev, t) == fate {
      if i == 0 {
        SelectMembers(s[1..], fate, prev, t);
        var r := Select(s, fate, prev, t)[j];
        assert r == Select(s[1..], fate, prev, t)[j - 1];
        assert r in s[1..];
        var k :| 0 <= k < |s[1..]| && s[1..][k] == r;
        a, b := 0, k + 1;
      } else {
        a, b := SelectOrder(s[1..], fate, prev, t, i - 1, j - 1);
        a, b := a + 1, b + 1;
      }
    } else {
      a, b := SelectOrder(s[1..], fate, prev, t, i, j);
      a, b := a + 1, b + 1;
    }
  }

  lemma SelectLimitSide(s: seq<Resting>, side: Side, bound: nat, fate: Fate, prev: Option<int>, t: Tick)
    requires LimitSide(s, side, bound)
    ensures LimitSide(Select(s, fate, prev, t), side, bound)
  {
    SelectMembers(s, fate, prev, t);
    var u := Select(s, fate, prev, t);
    forall i, j | 0 <= i < j < |u| ensures Precedes(side, u[i], u[j]) {
      var a, b := SelectOrder(s, fate, prev, t, i, j);
    }
  }

  lemma SelectUnique(s: seq<Resting>, fate: Fate, prev: Option<int>, t: Tick)
    requires UniqueIds(s)
    ensures UniqueIds(Select(s, fate, prev, t))
  {
    var u := Select(s, fate, prev, t);
    forall i, j | 0 <= i < j < |u| ensures u[i].order.id != u[j].order.id {
      var a, b := SelectOrder(s, fate, prev, t, i, j);
    }
  }

  // ----- sorting by arrival

  lemma {:induction false} PutMembers(r: Resting, s: seq<Resting>)
    ensures multiset(PutByArrival(r, s)) == multiset([r] + s)
  {
    if s != [] && !KeyLe(Key(r), Key(s[0])) {
      PutMembers(r, s[1..]);
      assert s == [s[0]] + s[1..];
    }
  }

  lemma {:induction false} ByArrivalMembers(s: seq<Resting>)
    ensures multiset(ByArrival(s)) == multiset(s)
  {
    if s != [] {
      ByArrivalMembers(s[1..]);
      PutMembers(s[0], ByArrival(s[1..]));
      assert s == [s[0]] + s[1..];
    }
  }

  lemma SameMembers(s: seq<Resting>, u: seq<Resting>)
    requires multiset(s) == multiset(u)
    ensures forall r :: r in s <==> r in u
    ensures |s| == |u|
  {
    forall r ensures r in s <==> r in u {
      assert r in s <==> multiset(s)[r] > 0;
      assert r in u <==> multiset(u)[r] > 0;
    }
    assert |s| == |multiset(s)| && |u| == |multiset(u)|;
  }

  ghost predicate InArrivalOrder(s: seq<Resting>) {
    forall i, j :: 0 <= i < j < |s| ==> KeyLe(Key(s[i]), Key(s[j]))
  }

  lemma {:induction false} PutOrdered(r: Resting, s: seq<Resting>)
    requires InArrivalOrder(s)
    ensures InArrivalOrder(PutByArrival(r, s))
  {
    if s != [] && !KeyLe(Key(r), Key(s[0])) {
      PutOrdered(r, s[1..]);
      PutMembers(r, s[1..]);
      var rest := PutByArrival(r, s[1..]);
      SameMembers(rest, [r] + s[1..]);
      var all := [s[0]] + rest;
      forall i, j | 0 <= i < j < |all| ensures KeyLe(Key(all[i]), Key(all[j])) {
        if i == 0 {
          assert all[j] in rest;
          if all[j] != r {
            assert all[j] in s[1..];
          }
        } else {
          assert all[i] == rest[i - 1] && all[j] == rest[j - 1];
        }
      }
    } else if s != [] {
      var all := [r] + s;
      forall i, j | 0 <= i < j < |all| ensures KeyLe(Key(all[i]), Key(all[j])) {
        if i == 0 {
          assert all[j] == s[j - 1];
          if j > 1 { assert KeyLe(Key(s[0]), Key(s[j - 1])); }
        } else {
          assert KeyLe(Key(s[i - 1]), Key(s[j - 1]));
        }
      }
    }
  }

  /** Gap candidates are processed in arrival order, each once. */
  lemma {:induction false} ByArrivalOrdered(s: seq<Resting>)
    ensures InArrivalOrder(ByArrival(s))
  {
    if s != [] {
      ByArrivalOrdered(s[1..]);
      PutOrdered(s[0], ByArrival(s[1..]));
    }
  }

  // ----- removing what was executed

  function Without(s: seq<Resting>, gone: set<nat>): seq<Resting> {
    if s == [] then []
    else if s[0].order.id in gone then Without(s[1..], gone)
    else [s[0]] + Without(s[1..], gone)
  }

  function BookWithout(b: BookV, gone: set<nat>): BookV {
    BookV(Without(b.bids, gone), Without(b.asks, gone), Without(b.marketBuys, gone), Without(b.marketSells, gone), b.nextArrival)
  }

  ghost function IdsOf(s: seq<Resting>): set<nat> {
    set r | r in s :: r.order.id
  }

  lemma {:induction false} WithoutMembers(s: seq<Resting>, gone: set<nat>)
    ensures forall r :: r in Without(s, gone) <==> r in s && r.order.id !in gone
  {
    if s != [] {
      WithoutMembers(s[1..], gone);
      assert s == [s[0]] + s[1..];
    }
  }

  lemma {:induction false} WithoutAppend(s: seq<Resting>, u: seq<Resting>, gone: set<nat>)
    ensures Without(s + u, gone) == Without(s, gone) + Without(u, gone)
  {
    if s == [] {
      assert s + u == u;
    } else {
      assert (s + u)[0] == s[0] && (s + u)[1..] == s[1..] + u;
      WithoutAppend(s[1..], u, gone);
    }
  }

  lemma {:induction false} WithoutDisjoint(s: seq<Resting>, gone: set<nat>)
    requires forall r :: r in s ==> r.order.id !in gone
    ensures Without(s, gone) == s
  {
    if s != [] {
      assert s[0] in s;
      WithoutDisjoint(s[1..], gone);
    }
  }

  lemma {:induction false} WithoutMore(s: seq<Resting>, gone: set<nat>, id: nat)
    requires UniqueIds(s)
    ensures Without(s, gone + {id}) == DropId(Without(s, gone), id)
  {
    if s != [] {
      assert UniqueIds(s[1..]);
      WithoutMore(s[1..], gone, id);
      var w := Without(s[1..], gone);
      if s[0].order.id in gone {
      } else if s[0].order.id == id {
        WithoutMembers(s[1..], gone);
        assert forall r :: r in s[1..] ==> r.order.id != id;
        assert Without(s[1..], gone + {id}) == w by {
          WithoutTail(s[1..], gone, id);
        }
        assert DropId([s[0]] + w, id) == w;
      } else {
        DropTail(s[0], w, id);
      }
    }
  }

  lemma {:induction false} WithoutTail(s: seq<Resting>, gone: set<nat>, id: nat)
    requires forall r :: r in s ==> r.order.id != id
    ensures Without(s, gone + {id}) == Without(s, gone)
  {
    if s != [] {
      assert s[0] in s;
      WithoutTail(s[1..], gone, id);
    }
  }

  lemma DropTail(r: Resting, w: seq<Resting>, id: nat)
    requires r.order.id != id
    ensures DropId([r] + w, id) == [r] + DropId(w, id)
  {
    var u := [r] + w;
    assert u[1..] == w;
    var k := IndexOf(w, id);
    if k < |w| {
      assert u[..k + 1] + u[k + 2..] == [r] + (w[..k] + w[k + 1..]);
    }
  }

  lemma DropMissing(s: seq<Resting>, id: nat)
    requires !HasId(s, id)
    ensures DropId(s, id) == s
  {
  }

  lemma UniqueParts(b: BookV)
    requires UniqueIds(All(b))
    ensures UniqueIds(b.bids) && UniqueIds(b.asks) && UniqueIds(b.marketBuys) && UniqueIds(b.marketSells)
    ensures forall x, y :: x in b.bids && y in b.asks + b.marketBuys + b.marketSells ==> x.order.id != y.order.id
    ensures forall x, y :: x in b.asks && y in b.marketBuys + b.marketSells ==> x.order.id != y.order.id
    ensures forall x, y :: x in b.marketBuys && y in b.marketSells ==> x.order.id != y.order.id
  {
    var all := All(b);
    assert all == b.bids + (b.asks + b.marketBuys + b.marketSells);
    UniqueSplit(b.bids, b.asks + b.marketBuys + b.marketSells);
    assert b.asks + b.marketBuys + b.marketSells == b.asks + (b.marketBuys + b.marketSells);
    UniqueSplit(b.asks, b.marketBuys + b.marketSells);
    UniqueSplit(b.marketBuys, b.marketSells);
  }

  lemma UniqueSplit(s: seq<Resting>, u: seq<Resting>)
    requires UniqueIds(s + u)
    ensures UniqueIds(s) && UniqueIds(u)
    ensures forall x, y :: x in s && y in u ==> x.order.id != y.order.id
  {
    forall i, j | 0 <= i < j < |s| ensures s[i].order.id != s[j].order.id {
      assert (s + u)[i] == s[i] && (s + u)[j] == s[j];
    }
    forall i, j | 0 <= i < j < |u| ensures u[i].order.id != u[j].order.id {
      assert (s + u)[|s| + i] == u[i] && (s + u)[|s| + j] == u[j];
    }
    forall x, y | x in s && y in u ensures x.order.id != y.order.id {
      var i :| 0 <= i < |s| && s[i] == x;
      var j :| 0 <= j < |u| && u[j] == y;
      assert (s + u)[i] == x && (s + u)[|s| + j] == y;
    }
  }

  /** Removing one more order by id removes it from the right list. */
  lemma RemoveOneMore(b: BookV, gone: set<nat>, r: Resting)
    requires UniqueIds(All(b)) && r in All(b) && r.order.id !in gone
    ensures Removed(BookWithout(b, gone), r.order.id) == BookWithout(b, gone + {r.order.id})
  {
    var id, w := r.order.id, BookWithout(b, gone);
    UniqueParts(b);
    WithoutMore(b.bids, gone, id);
    WithoutMore(b.asks, gone, id);
    WithoutMore(b.marketBuys, gone, id);
    WithoutMore(b.marketSells, gone, id);
    WithoutMembers(b.bids, gone);
    WithoutMembers(b.asks, gone);
    WithoutMembers(b.marketBuys, gone);
    WithoutMembers(b.marketSells, gone);
    MemberHasId(w.bids, id);
    MemberHasId(w.asks, id);
    MemberHasId(w.marketBuys, id);
    MemberHasId(w.marketSells, id);
    if r in b.bids {
      DropMissing(w.asks, id); DropMissing(w.marketBuys, id); DropMissing(w.marketSells, id);
    } else if r in b.asks {
      DropMissing(w.bids, id); DropMissing(w.marketBuys, id); DropMissing(w.marketSells, id);
    } else if r in b.marketBuys {
      DropMissing(w.bids, id); DropMissing(w.asks, id); DropMissing(w.marketSells, id);
    } else {
      DropMissing(w.bids, id); DropMissing(w.asks, id); DropMissing(w.marketBuys, id);
    }
  }

  lemma MemberHasId(s: seq<Resting>, id: nat)
    ensures HasId(s, id) <==> exists r :: r in s && r.order.id == id
  {
    if HasId(s, id) {
      var i :| 0 <= i < |s| && s[i].order.id == id;
      assert s[i] in s;
    }
  }

  // ----- sorting the candidate keys

  function Keys(s: seq<Resting>): (ks: seq<(nat, nat)>)
    ensures |ks| == |s|
  {
    seq(|s|, i requires 0 <= i < |s| => Key(s[i]))
  }

  function PutKey(k: (nat, nat), ks: seq<(nat, nat)>): seq<(nat, nat)> {
    if ks == [] || KeyLe(k, ks[0]) then [k] + ks else [ks[0]] + PutKey(k, ks[1..])
  }

  /** The library sort, on (arrival, id) pairs. */
  function SortKeys(ks: seq<(nat, nat)>): seq<(nat, nat)> {
    if ks == [] then [] else PutKey(ks[0], SortKeys(ks[1..]))
  }

  lemma {:induction false} PutKeyAgrees(r: Resting, s: seq<Resting>)
    ensures PutKey(Key(r), Keys(s)) == Keys(PutByArrival(r, s))
  {
    if s == [] || KeyLe(Key(r), Key(s[0])) {
      assert Keys([r] + s) == [Key(r)] + Keys(s);
    } else {
      PutKeyAgrees(r, s[1..]);
      assert Keys(s)[1..] == Keys(s[1..]);
      assert Keys([s[0]] + PutByArrival(r, s[1..])) == [Key(s[0])] + Keys(PutByArrival(r, s[1..]));
    }
  }

  lemma {:induction false} SortKeysAgrees(s: seq<Resting>)
    ensures SortKeys(Keys(s)) == Keys(ByArrival(s))
  {
    if s != [] {
      assert Keys(s)[1..] == Keys(s[1..]);
      SortKeysAgrees(s[1..]);
      PutKeyAgrees(s[0], ByArrival(s[1..]));
    } else {
      assert Keys(s) == [];
    }
  }

  lemma NumberAppend(xs: seq<Exec>, ys: seq<Exec>, instrument: nat, traded: nat)
    ensures Number(xs + ys, instrument, traded) == Number(xs, instrument, traded) + Number(ys, instrument, traded + |xs|)
  {
  }
}
