/** The L0 engine itself: it edits the book in place while it walks it, and is proved to
    compute the declared account of a tick (crates/oq-engine/src/l0.rs). */
module L0Engine {
  import opened Folding
  import opened Numbers
  import opened Market
  import opened RestingBook
  import opened L0

  class Engine {
    const instrument: nat
    const book: Book
    var traded: nat
    var prevPrice: Option<int>
    var prevStamp: Option<Stamp>
    var fills: seq<L0Fill>
    var candidates: seq<(nat, nat)>

    ghost function View(): EngineV
      reads this, book
    {
      EngineV(instrument, book.View(), traded, prevPrice, prevStamp)
    }

    constructor (instrument: nat)
      ensures fresh(book) && View() == NewEngine(instrument)
    {
      this.instrument := instrument;
      book := new Book();
      traded, prevPrice, prevStamp, fills, candidates := 0, None, None, [], [];
    }

    /** The order joins the book behind its equals; nothing fills. */
    method Submit(order: Order)
      requires Sorted(book.View())
      modifies book
      ensures View() == old(View()).(book := Inserted(old(book.View()), order))
    {
      book.Insert(order);
    }

    method Cancel(id: nat) returns (found: bool)
      modifies book
      ensures View() == old(View()).(book := Removed(old(book.View()), id))
      ensures found <==> HasId(All(old(book.View())), id)
    {
      var removed := book.Remove(id);
      found := removed.Some?;
    }

    /** Withdraw every resting order by the ids listed up front. */
    method CancelAll() returns (n: nat)
      requires Sound(book.View())
      modifies book
      ensures View() == old(View()).(book := BookV([], [], [], [], old(book.nextArrival)))
      ensures n == |All(old(book.View()))|
    {
      ghost var b := book.View();
      var resting := book.bids + book.asks + book.marketBuys + book.marketSells;
      assert resting == All(b);
      n := |resting|;
      var i := 0;
      CancelStart(b);
      while i < |resting|
        invariant 0 <= i <= |resting| && Cancelling(b, book.View(), i)
      {
        CancelStep(b, book.View(), i);
        var _ := book.Remove(resting[i].order.id);
        i := i + 1;
      }
      CancelDone(b, book.View(), i);
    }

    /** One order leaves the book, and one fill of its whole size with the next trade id is
        appended. */
    method ExecuteAt(resting: Resting, price: int, liquidity: Liquidity, reason: FillReason, stamp: Stamp)
      modifies this`traded, this`fills, book
      ensures book.View() == Removed(old(book.View()), resting.order.id)
      ensures traded == old(traded) + 1
      ensures fills == old(fills) + [FillOf(Exec(resting, price, liquidity, reason, stamp), instrument, old(traded) + 1)]
    {
      book.Replace(resting.order.id, None);
      traded := traded + 1;
      fills := fills + [L0Fill(Fill(stamp, instrument, resting.order.id, traded, resting.order.side,
                                    resting.order.offset, price, resting.order.qty, liquidity), reason)];
    }

    /** Collect the swept orders of one side. */
    method Collect(s: seq<Resting>, above: int, upTo: int, rising: bool, ghost prev: Option<int>, ghost t: Tick)
      requires forall r :: r in s ==> r.order.price.Some?
      requires forall r :: r in s ==> (FateOf(r.order, prev, t) == Gap) == Between(rising, above, upTo, r.order.price.value)
      requires candidates == []
      modifies this`candidates
      ensures candidates == Keys(Select(s, Gap, prev, t))
    {
      var i := 0;
      while i < |s|
        invariant 0 <= i <= |s|
        invariant candidates == Keys(Select(s[..i], Gap, prev, t))
      {
        assert s[i] in s;
        SelectAppend(s[..i], [s[i]], Gap, prev, t);
        assert s[..i + 1] == s[..i] + [s[i]];
        var price := s[i].order.price.value;
        if (rising && price > above && price <= upTo) || (!rising && price < above && price >= upTo) {
          assert Between(rising, above, upTo, price);
          candidates := candidates + [(s[i].arrival, s[i].order.id)];
          assert candidates == Keys(Select(s[..i], Gap, prev, t) + [s[i]]);
        }
        i := i + 1;
      }
      assert s[..i] == s;
    }

    /** Finds the first order of the book with the id, if there is one. */
    method Find(id: nat) returns (found: Option<Resting>)
      ensures found.Some? <==> HasId(All(book.View()), id)
      ensures found.Some? ==> found.value in All(book.View()) && found.value.order.id == id
    {
      var all := book.bids + book.asks + book.marketBuys + book.marketSells;
      var at := book.Position(all, id);
      found := if at < |all| then Some(all[at]) else None;
    }

    /** The orders the price path passed, as (arrival, id) in arrival order. */
    method CollectCandidates(t: Tick, prev: int)
      requires Sound(book.View()) && prevPrice == Some(prev)
      modifies this`candidates
      ensures candidates == Keys(GapOrders(View(), t))
    {
      ghost var b := book.View();
      candidates := [];
      if t.UpExtent() > prev {
        SweptAsks(b, prevPrice, t);
        Collect(book.asks, prev, t.UpExtent(), true, prevPrice, t);
      } else if t.DownExtent() < prev {
        SweptBids(b, prevPrice, t);
        Collect(book.bids, prev, t.DownExtent(), false, prevPrice, t);
      } else {
        NothingSwept(View(), t);
      }
      SortKeysAgrees(Select(All(b), Gap, prevPrice, t));
      candidates := SortKeys(candidates);
    }

    /** Each candidate is still resting when its turn comes, so the lookup never misses. */
    method ExecuteCandidate(id: nat, stamp: Stamp, ghost e: EngineV, ghost t: Tick, ghost i: nat)
      requires Sound(e.book) && i < |GapOrders(e, t)| && stamp == GapStamp(e, t)
      requires id == GapOrders(e, t)[i].order.id
      requires book.View() == BookWithout(e.book, IdsOf(GapOrders(e, t)[..i]))
      modifies this`traded, this`fills, book
      ensures book.View() == BookWithout(e.book, IdsOf(GapOrders(e, t)[..i + 1]))
      ensures traded == old(traded) + 1
      ensures fills == old(fills) + [FillOf(GapPlan(e, t)[i], instrument, old(traded) + 1)]
    {
      ghost var g := GapOrders(e, t);
      GapStep(e, t, i);
      var found := Find(id);
      var resting := found.value;
      SameRestingSound(e.book, IdsOf(g[..i]), g[i], resting);
      var price := if resting.order.price.Some? then resting.order.price.value else 0;
      ExecuteAt(resting, price, Maker, GapCrossed, stamp);
    }

    method ExecuteCandidates(t: Tick, ghost e: EngineV)
      requires Sound(book.View()) && e == View()
      requires candidates == Keys(GapOrders(View(), t))
      modifies this`traded, this`fills, book
      ensures book.View() == BookWithout(e.book, IdsOf(GapOrders(e, t)))
      ensures fills == old(fills) + Number(GapPlan(e, t), instrument, e.traded)
      ensures traded == e.traded + |GapPlan(e, t)|
    {
      ghost var plan := GapPlan(e, t);
      var stamp := if prevStamp.Some? then prevStamp.value else t.stamp;
      var i := 0;
      GapStart(e.book);
      while i < |candidates|
        invariant 0 <= i <= |candidates|
        invariant traded == e.traded + i
        invariant book.View() == BookWithout(e.book, IdsOf(GapOrders(e, t)[..i]))
        invariant fills == old(fills) + Number(plan[..i], instrument, e.traded)
      {
        var (_, id) := candidates[i];
        ExecuteCandidate(id, stamp, e, t, i);
        NumberNext(plan, i, instrument, e.traded);
        i := i + 1;
      }
      assert GapOrders(e, t)[..i] == GapOrders(e, t) && plan[..i] == plan;
    }

    /** The swept orders leave, and their executions are those of the gap plan. */
    method GapFill(t: Tick)
      requires Sound(book.View())
      modifies this`traded, this`fills, this`candidates, book
      ensures book.View() == BookWithout(old(book.View()), SweptIds(old(book.View()), prevPrice, t))
      ensures fills == old(fills) + Number(GapPlan(old(View()), t), instrument, old(traded))
      ensures traded == old(traded) + |GapPlan(old(View()), t)|
    {
      ghost var e := View();
      if prevPrice.None? {
        NothingSwept(e, t);
        assert Number([], instrument, traded) == [];
        return;
      }
      CollectCandidates(t, prevPrice.value);
      ExecuteCandidates(t, e);
      GapEnd(e, t);
    }

    /** The market buys leave in list order, executed at the buy reference. */
    method ExecuteMarketBuys(t: Tick)
      requires Sound(book.View())
      modifies this`traded, this`fills, book
      ensures book.View() == old(book.View()).(marketBuys := [])
      ensures traded == old(traded) + |old(book.marketBuys)|
      ensures fills == old(fills) + Number(MarketExecs(old(book.marketBuys), t.BuyReference(), t.stamp), instrument, old(traded))
    {
      ghost var b := book.View();
      var buys := book.marketBuys;
      ghost var plan := MarketExecs(buys, t.BuyReference(), t.stamp);
      var i := 0;
      while i < |buys|
        invariant 0 <= i <= |buys|
        invariant traded == old(traded) + i
        invariant book.View() == b.(marketBuys := buys[i..])
        invariant fills == old(fills) + Number(plan[..i], instrument, old(traded))
      {
        MarketBuyStep(b, i);
        ExecuteAt(buys[i], t.BuyReference(), Taker, MarketOrder, t.stamp);
        NumberNext(plan, i, instrument, old(traded));
        i := i + 1;
      }
      assert plan[..i] == plan;
    }

    /** The market sells leave in list order, executed at the sell reference. */
    method ExecuteMarketSells(t: Tick)
      requires Sound(book.View())
      modifies this`traded, this`fills, book
      ensures book.View() == old(book.View()).(marketSells := [])
      ensures traded == old(traded) + |old(book.marketSells)|
      ensures fills == old(fills) + Number(MarketExecs(old(book.marketSells), t.SellReference(), t.stamp), instrument, old(traded))
    {
      ghost var b := book.View();
      var sells := book.marketSells;
      ghost var plan := MarketExecs(sells, t.SellReference(), t.stamp);
      var i := 0;
      while i < |sells|
        invariant 0 <= i <= |sells|
        invariant traded == old(traded) + i
        invariant book.View() == b.(marketSells := sells[i..])
        invariant fills == old(fills) + Number(plan[..i], instrument, old(traded))
      {
        MarketSellStep(b, i);
        ExecuteAt(sells[i], t.SellReference(), Taker, MarketOrder, t.stamp);
        NumberNext(plan, i, instrument, old(traded));
        i := i + 1;
      }
      assert plan[..i] == plan;
    }

    /** A prefix of the bids leaves: every reached one, and then the loop meets one that is not. */
    method ExecuteBids(t: Tick) returns (ghost k: nat)
      requires Sound(book.View())
      modifies this`traded, this`fills, book
      ensures StopsAt(old(book.bids), t, k)
      ensures book.View() == old(book.View()).(bids := old(book.bids)[k..])
      ensures traded == old(traded) + k
      ensures fills == old(fills) + Number(ReachedExecs(old(book.bids)[..k], Buy, t.BuyReference(), t.stamp), instrument, old(traded))
    {
      ghost var b, s := book.View(), book.bids;
      ghost var plan := ReachedExecs(s, Buy, t.BuyReference(), t.stamp);
      var trigger, reference := t.BuyTrigger(), t.BuyReference();
      k := 0;
      if trigger > 0 {
        while book.bids != []
          invariant 0 <= k <= |s|
          invariant traded == old(traded) + k
          invariant book.View() == b.(bids := s[k..])
          invariant fills == old(fills) + Number(plan[..k], instrument, old(traded))
          invariant forall i :: 0 <= i < k ==> Reached(s[i].order, t)
          decreases |book.bids|
        {
          var best := book.bids[0];
          BidStep(b, k);
          var price := best.order.price.value;
          if price < trigger {
            break;
          }
          var fillPrice := if reference > 0 then Min(price, reference) else price;
          ExecuteAt(best, fillPrice, Maker, Crossed, t.stamp);
          NumberNext(plan, k, instrument, old(traded));
          k := k + 1;
        }
      }
      if k < |s| { BidStep(b, k); }
      assert plan[..k] == ReachedExecs(s[..k], Buy, reference, t.stamp);
    }

    /** A prefix of the asks leaves: every reached one, and then the loop meets one that is not. */
    method ExecuteAsks(t: Tick) returns (ghost k: nat)
      requires Sound(book.View())
      modifies this`traded, this`fills, book
      ensures StopsAt(old(book.asks), t, k)
      ensures book.View() == old(book.View()).(asks := old(book.asks)[k..])
      ensures traded == old(traded) + k
      ensures fills == old(fills) + Number(ReachedExecs(old(book.asks)[..k], Sell, t.SellReference(), t.stamp), instrument, old(traded))
    {
      ghost var b, s := book.View(), book.asks;
      ghost var plan := ReachedExecs(s, Sell, t.SellReference(), t.stamp);
      var trigger, reference := t.SellTrigger(), t.SellReference();
      k := 0;
      if trigger > 0 {
        while book.asks != []
          invariant 0 <= k <= |s|
          invariant traded == old(traded) + k
          invariant book.View() == b.(asks := s[k..])
          invariant fills == old(fills) + Number(plan[..k], instrument, old(traded))
          invariant forall i :: 0 <= i < k ==> Reached(s[i].order, t)
          decreases |book.asks|
        {
          var best := book.asks[0];
          AskStep(b, k);
          var price := best.order.price.value;
          if price > trigger {
            break;
          }
          var fillPrice := if reference > 0 then Max(price, reference) else price;
          ExecuteAt(best, fillPrice, Maker, Crossed, t.stamp);
          NumberNext(plan, k, instrument, old(traded));
          k := k + 1;
        }
      }
      if k < |s| { AskStep(b, k); }
      assert plan[..k] == ReachedExecs(s[..k], Sell, reference, t.stamp);
    }

    /** Market orders first, buys before sells. */
    method CrossMarket(t: Tick)
      requires Sound(book.View())
      modifies this`traded, this`fills, book
      ensures book.View() == old(book.View()).(marketBuys := [], marketSells := [])
      ensures traded == old(traded) + |MarketPlan(old(book.View()), t)|
      ensures fills == old(fills) + Number(MarketPlan(old(book.View()), t), instrument, old(traded))
    {
      ghost var b := book.View();
      ExecuteMarketBuys(t);
      SoundWithout(b);
      ExecuteMarketSells(t);
      NumberAppend(MarketExecs(b.marketBuys, t.BuyReference(), t.stamp),
                   MarketExecs(b.marketSells, t.SellReference(), t.stamp), instrument, old(traded));
    }

    /** Then limit orders, bids before asks. */
    method CrossLimits(t: Tick) returns (ghost j: nat, ghost k: nat)
      requires Sound(book.View())
      modifies this`traded, this`fills, book
      ensures StopsAt(old(book.View()).bids, t, j) && StopsAt(old(book.View()).asks, t, k)
      ensures book.View() == old(book.View()).(bids := old(book.View()).bids[j..], asks := old(book.View()).asks[k..])
      ensures traded == old(traded) + |LimitPlan(old(book.View()), j, k, t)|
      ensures fills == old(fills) + Number(LimitPlan(old(book.View()), j, k, t), instrument, old(traded))
    {
      ghost var b := book.View();
      j := ExecuteBids(t);
      SoundBelow(b, j);
      k := ExecuteAsks(t);
      NumberAppend(ReachedExecs(b.bids[..j], Buy, t.BuyReference(), t.stamp),
                   ReachedExecs(b.asks[..k], Sell, t.SellReference(), t.stamp), instrument, old(traded));
    }

    /** From a book without the swept orders, the rest of the declared tick. */
    method Cross(t: Tick, ghost e: EngineV)
      requires Sound(e.book) && instrument == e.instrument
      requires book.View() == BookWithout(e.book, SweptIds(e.book, e.prevPrice, t))
      requires traded == e.traded + |GapPlan(e, t)|
      requires fills == Number(GapPlan(e, t), e.instrument, e.traded)
      modifies this`traded, this`fills, book
      ensures book.View() == Ticked(e, t).book
      ensures traded == Ticked(e, t).traded
      ensures fills == TickFills(e, t)
    {
      ghost var b := book.View();
      SweptGoneSound(e.book, e.prevPrice, t);
      SoundWithout(b);
      CrossMarket(t);
      ghost var c, n := book.View(), traded;
      var j, k := CrossLimits(t);
      TickAssembles(e, b, t, j, k);
      assert LimitPlan(c, j, k, t) == LimitPlan(b, j, k, t);
      assert n == e.traded + |GapPlan(e, t)| + |MarketPlan(b, t)|;
    }

    /** Advance by one tick. The path is matched first, then the closing state. */
    method OnTick(t: Tick)
      requires Sound(book.View())
      modifies this, book
      ensures View() == Ticked(old(View()), t)
      ensures fills == TickFills(old(View()), t)
    {
      ghost var e := View();
      fills := [];
      GapFill(t);
      assert fills == Number(GapPlan(e, t), e.instrument, e.traded);
      Cross(t, e);
      prevPrice := Some(t.last);
      prevStamp := Some(t.stamp);
    }
  }

  /** The three stages together are the declared tick. */
  lemma TickAssembles(e: EngineV, b: BookV, t: Tick, j: nat, k: nat)
    requires Sound(e.book) && b == BookWithout(e.book, SweptIds(e.book, e.prevPrice, t))
    requires StopsAt(b.bids, t, j) && StopsAt(b.asks, t, k)
    ensures var n := e.traded + |GapPlan(e, t)|;
      && Number(GapPlan(e, t), e.instrument, e.traded) + Number(MarketPlan(b, t), e.instrument, n)
           + Number(LimitPlan(b, j, k, t), e.instrument, n + |MarketPlan(b, t)|) == TickFills(e, t)
      && n + |MarketPlan(b, t)| + |LimitPlan(b, j, k, t)| == Ticked(e, t).traded
    ensures BookV(b.bids[j..], b.asks[k..], [], [], b.nextArrival) == Ticked(e, t).book
  {
    ClosingSides(e, b, t, j, k);
    NumberThree(GapPlan(e, t), MarketPlan(b, t), LimitPlan(b, j, k, t), e.instrument, e.traded);
  }

  ghost function MarketPlan(b: BookV, t: Tick): seq<Exec> {
    MarketExecs(b.marketBuys, t.BuyReference(), t.stamp) + MarketExecs(b.marketSells, t.SellReference(), t.stamp)
  }

  ghost function LimitPlan(b: BookV, j: nat, k: nat, t: Tick): seq<Exec>
    requires j <= |b.bids| && k <= |b.asks|
  {
    ReachedExecs(b.bids[..j], Buy, t.BuyReference(), t.stamp) + ReachedExecs(b.asks[..k], Sell, t.SellReference(), t.stamp)
  }

  lemma NumberThree(p: seq<Exec>, q: seq<Exec>, r: seq<Exec>, instrument: nat, n: nat)
    ensures Number(p, instrument, n) + Number(q, instrument, n + |p|) + Number(r, instrument, n + |p| + |q|)
         == Number(p + (q + r), instrument, n)
  {
    NumberAppend(p, q, instrument, n);
    NumberAppend(p + q, r, instrument, n);
    assert p + (q + r) == p + q + r;
  }

  /** Exclusive at the old price, inclusive at the extreme the path reached. */
  predicate Between(rising: bool, above: int, upTo: int, price: int) {
    if rising then above < price <= upTo else upTo <= price < above
  }

  /** The first `i` listed orders have gone; folded. */
  ghost predicate Cancelling(b: BookV, now: BookV, i: nat) {
    forall k {:trigger Seal(k)} :: Seal(k) ==> i <= |All(b)| && now == BookWithout(b, IdsOf(All(b)[..i]))
  }

  lemma CancelStart(b: BookV)
    ensures Cancelling(b, b, 0)
  {
    GapStart(b);
  }

  lemma CancelStep(b: BookV, now: BookV, i: nat)
    requires Sound(b) && i < |All(b)| && Cancelling(b, now, i)
    ensures Cancelling(b, Removed(now, All(b)[i].order.id), i + 1)
  {
    assert Seal(0);
    Unfold(b);
    RemoveNext(b, All(b), i);
  }

  lemma CancelDone(b: BookV, now: BookV, i: nat)
    requires Cancelling(b, now, i) && i == |All(b)|
    ensures now == BookV([], [], [], [], b.nextArrival)
  {
    assert Seal(0);
    assert All(b)[..i] == All(b);
    BookWithoutAll(b);
  }

  /** Exactly the first `k` orders of a list are reached before one that is not. */
  ghost predicate StopsAt(s: seq<Resting>, t: Tick, k: nat) {
    && k <= |s|
    && (forall i :: 0 <= i < k ==> Reached(s[i].order, t))
    && (k < |s| ==> !Reached(s[k].order, t))
  }

  ghost function GapOrders(e: EngineV, t: Tick): seq<Resting> {
    ByArrival(Select(All(e.book), Gap, e.prevPrice, t))
  }

  lemma NothingSwept(e: EngineV, t: Tick)
    requires e.prevPrice.None? || (t.UpExtent() <= e.prevPrice.value && t.DownExtent() >= e.prevPrice.value)
    ensures GapPlan(e, t) == [] && Keys(Select(All(e.book), Gap, e.prevPrice, t)) == []
    ensures BookWithout(e.book, SweptIds(e.book, e.prevPrice, t)) == e.book
  {
    SelectNone(All(e.book), Gap, e.prevPrice, t);
    BookWithoutNothing(e.book);
    assert SweptIds(e.book, e.prevPrice, t) == {};
  }

  lemma GapStart(b: BookV)
    ensures BookWithout(b, {}) == b && IdsOf([]) == {}
  {
    BookWithoutNothing(b);
  }

  lemma GapOrdersFacts(e: EngineV, t: Tick)
    requires Sound(e.book)
    ensures UniqueIds(GapOrders(e, t)) && UniqueIds(All(e.book))
    ensures forall r :: r in GapOrders(e, t) ==> r in All(e.book)
    ensures IdsOf(GapOrders(e, t)) == SweptIds(e.book, e.prevPrice, t)
  {
    Unfold(e.book);
    var swept := Select(All(e.book), Gap, e.prevPrice, t);
    ByArrivalMembers(swept);
    SameMembers(GapOrders(e, t), swept);
    SelectMembers(All(e.book), Gap, e.prevPrice, t);
    SelectUnique(All(e.book), Gap, e.prevPrice, t);
    ByArrivalUnique(swept);
  }

  lemma GapStep(e: EngineV, t: Tick, i: nat)
    requires Sound(e.book) && i < |GapOrders(e, t)|
    ensures var g := GapOrders(e, t); var left := BookWithout(e.book, IdsOf(g[..i]));
      && g[i] in All(e.book)
      && HasId(All(left), g[i].order.id)
      && Removed(left, g[i].order.id) == BookWithout(e.book, IdsOf(g[..i + 1]))
  {
    var g := GapOrders(e, t);
    GapOrdersFacts(e, t);
    assert g[i] in g;
    RemoveNext(e.book, g, i);
    StillResting(e.book, IdsOf(g[..i]), g[i]);
  }

  lemma GapEnd(e: EngineV, t: Tick)
    requires Sound(e.book)
    ensures IdsOf(GapOrders(e, t)) == SweptIds(e.book, e.prevPrice, t)
  {
    GapOrdersFacts(e, t);
  }

  function Tails(b: BookV, i: nat, j: nat, m: nat, n: nat): BookV
    requires i <= |b.bids| && j <= |b.asks| && m <= |b.marketBuys| && n <= |b.marketSells|
  {
    BookV(b.bids[i..], b.asks[j..], b.marketBuys[m..], b.marketSells[n..], b.nextArrival)
  }

  lemma UniqueJoin(s: seq<Resting>, u: seq<Resting>)
    requires UniqueIds(s) && UniqueIds(u)
    requires forall x, y :: x in s && y in u ==> x.order.id != y.order.id
    ensures UniqueIds(s + u)
  {
    var w := s + u;
    forall i, j | 0 <= i < j < |w| ensures w[i].order.id != w[j].order.id {
      if j < |s| {
        assert w[i] == s[i] && w[j] == s[j];
      } else if i >= |s| {
        assert w[i] == u[i - |s|] && w[j] == u[j - |s|];
      } else {
        assert w[i] == s[i] && w[i] in s && w[j] == u[j - |s|] && w[j] in u;
      }
    }
  }

  lemma UniqueTail(s: seq<Resting>, k: nat)
    requires UniqueIds(s) && k <= |s|
    ensures UniqueIds(s[k..])
    ensures forall r :: r in s[k..] ==> r in s
  {
    forall i, j | 0 <= i < j < |s[k..]| ensures s[k..][i].order.id != s[k..][j].order.id {
      assert s[k + i].order.id != s[k + j].order.id;
    }
  }

  lemma TailsUnique(b: BookV, i: nat, j: nat, m: nat, n: nat)
    requires UniqueIds(All(b))
    requires i <= |b.bids| && j <= |b.asks| && m <= |b.marketBuys| && n <= |b.marketSells|
    ensures UniqueIds(All(Tails(b, i, j, m, n)))
  {
    UniqueParts(b);
    UniqueTail(b.bids, i);
    UniqueTail(b.asks, j);
    UniqueTail(b.marketBuys, m);
    UniqueTail(b.marketSells, n);
    var p, q, r, z := b.bids[i..], b.asks[j..], b.marketBuys[m..], b.marketSells[n..];
    UniqueJoin(p, q);
    UniqueJoin(p + q, r);
    UniqueJoin(p + q + r, z);
  }

  lemma TailLimitSide(s: seq<Resting>, side: Side, bound: nat, k: nat)
    requires LimitSide(s, side, bound) && k <= |s|
    ensures LimitSide(s[k..], side, bound)
  {
    forall i, j | 0 <= i < j < |s[k..]| ensures Precedes(side, s[k..][i], s[k..][j]) {
      assert Precedes(side, s[k + i], s[k + j]);
    }
  }

  lemma TailMarketSide(s: seq<Resting>, side: Side, bound: nat, k: nat)
    requires MarketSide(s, side, bound) && k <= |s|
    ensures MarketSide(s[k..], side, bound)
  {
  }

  /** Any tail of each list leaves a sound book. */
  lemma TailsSound(b: BookV, i: nat, j: nat, m: nat, n: nat)
    requires Sound(b)
    requires i <= |b.bids| && j <= |b.asks| && m <= |b.marketBuys| && n <= |b.marketSells|
    ensures Sound(Tails(b, i, j, m, n))
  {
    Unfold(b);
    TailsUnique(b, i, j, m, n);
    TailLimitSide(b.bids, Buy, b.nextArrival, i);
    TailLimitSide(b.asks, Sell, b.nextArrival, j);
    TailMarketSide(b.marketBuys, Buy, b.nextArrival, m);
    TailMarketSide(b.marketSells, Sell, b.nextArrival, n);
    Unfold(Tails(b, i, j, m, n));
  }

  lemma SoundWithout(b: BookV)
    requires Sound(b)
    ensures Sound(b.(marketBuys := []))
    ensures Sound(b.(marketBuys := [], marketSells := []))
  {
    TailsSound(b, 0, 0, |b.marketBuys|, 0);
    assert Tails(b, 0, 0, |b.marketBuys|, 0) == b.(marketBuys := []);
    TailsSound(b, 0, 0, |b.marketBuys|, |b.marketSells|);
    assert Tails(b, 0, 0, |b.marketBuys|, |b.marketSells|) == b.(marketBuys := [], marketSells := []);
  }

  lemma SoundBelow(b: BookV, j: nat)
    requires Sound(b) && j <= |b.bids|
    ensures Sound(b.(bids := b.bids[j..]))
  {
    TailsSound(b, j, 0, 0, 0);
    assert Tails(b, j, 0, 0, 0) == b.(bids := b.bids[j..]);
  }

  lemma MarketBuyStep(b: BookV, k: nat)
    requires Sound(b) && k < |b.marketBuys|
    ensures Removed(b.(marketBuys := b.marketBuys[k..]), b.marketBuys[k].order.id) == b.(marketBuys := b.marketBuys[k + 1..])
  {
    TailsSound(b, 0, 0, k, 0);
    var c := Tails(b, 0, 0, k, 0);
    Unfold(c);
    HeadRemoved(c);
    assert c == b.(marketBuys := b.marketBuys[k..]);
  }

  lemma MarketSellStep(b: BookV, k: nat)
    requires Sound(b) && k < |b.marketSells|
    ensures Removed(b.(marketSells := b.marketSells[k..]), b.marketSells[k].order.id) == b.(marketSells := b.marketSells[k + 1..])
  {
    TailsSound(b, 0, 0, 0, k);
    var c := Tails(b, 0, 0, 0, k);
    Unfold(c);
    HeadRemoved(c);
    assert c == b.(marketSells := b.marketSells[k..]);
  }

  lemma BidStep(b: BookV, k: nat)
    requires Sound(b) && k < |b.bids|
    ensures b.bids[k].order.price.Some? && b.bids[k].order.side.Buy?
    ensures Removed(b.(bids := b.bids[k..]), b.bids[k].order.id) == b.(bids := b.bids[k + 1..])
  {
    TailsSound(b, k, 0, 0, 0);
    var c := Tails(b, k, 0, 0, 0);
    Unfold(c);
    HeadRemoved(c);
    assert c == b.(bids := b.bids[k..]);
    assert c.bids[0] in c.bids;
  }

  lemma AskStep(b: BookV, k: nat)
    requires Sound(b) && k < |b.asks|
    ensures b.asks[k].order.price.Some? && b.asks[k].order.side.Sell?
    ensures Removed(b.(asks := b.asks[k..]), b.asks[k].order.id) == b.(asks := b.asks[k + 1..])
  {
    TailsSound(b, 0, k, 0, 0);
    var c := Tails(b, 0, k, 0, 0);
    Unfold(c);
    HeadRemoved(c);
    assert c == b.(asks := b.asks[k..]);
    assert c.asks[0] in c.asks;
  }

  /** The head of each list is the order its id names. */
  lemma HeadRemoved(b: BookV)
    requires Wf(b)
    ensures b.bids != [] ==> Removed(b, b.bids[0].order.id) == b.(bids := b.bids[1..])
    ensures b.asks != [] ==> Removed(b, b.asks[0].order.id) == b.(asks := b.asks[1..])
    ensures b.marketBuys != [] ==> Removed(b, b.marketBuys[0].order.id) == b.(marketBuys := b.marketBuys[1..])
    ensures b.marketSells != [] ==> Removed(b, b.marketSells[0].order.id) == b.(marketSells := b.marketSells[1..])
  {
    HeadsNamed(b);
    if b.asks != [] {
      AskHeadRemoved(b);
    }
    if b.marketBuys != [] {
      BuyHeadRemoved(b);
    }
    if b.marketSells != [] {
      SellHeadRemoved(b);
    }
  }

  /** No list holds the id at the head of a later one. */
  lemma HeadsNamed(b: BookV)
    requires Wf(b)
    ensures b.asks != [] ==> !HasId(b.bids, b.asks[0].order.id)
    ensures b.marketBuys != [] ==> !HasId(b.bids, b.marketBuys[0].order.id) && !HasId(b.asks, b.marketBuys[0].order.id)
    ensures b.marketSells != [] ==> !HasId(b.bids, b.marketSells[0].order.id) && !HasId(b.asks, b.marketSells[0].order.id)
    ensures b.marketSells != [] ==> !HasId(b.marketBuys, b.marketSells[0].order.id)
  {
    UniqueParts(b);
    if b.asks != [] {
      assert b.asks[0] in b.asks;
      MemberHasId(b.bids, b.asks[0].order.id);
    }
    if b.marketBuys != [] {
      var r := b.marketBuys[0];
      assert r in b.marketBuys;
      MemberHasId(b.bids, r.order.id);
      MemberHasId(b.asks, r.order.id);
    }
    if b.marketSells != [] {
      var r := b.marketSells[0];
      assert r in b.marketSells;
      MemberHasId(b.bids, r.order.id);
      MemberHasId(b.asks, r.order.id);
      MemberHasId(b.marketBuys, r.order.id);
    }
  }

  lemma AskHeadRemoved(b: BookV)
    requires b.asks != [] && !HasId(b.bids, b.asks[0].order.id)
    ensures Removed(b, b.asks[0].order.id) == b.(asks := b.asks[1..])
  {
  }

  lemma BuyHeadRemoved(b: BookV)
    requires b.marketBuys != [] && !HasId(b.bids, b.marketBuys[0].order.id) && !HasId(b.asks, b.marketBuys[0].order.id)
    ensures Removed(b, b.marketBuys[0].order.id) == b.(marketBuys := b.marketBuys[1..])
  {
  }

  lemma SellHeadRemoved(b: BookV)
    requires b.marketSells != [] && !HasId(b.bids, b.marketSells[0].order.id) && !HasId(b.asks, b.marketSells[0].order.id)
    requires !HasId(b.marketBuys, b.marketSells[0].order.id)
    ensures Removed(b, b.marketSells[0].order.id) == b.(marketSells := b.marketSells[1..])
  {
  }

  lemma NumberNext(plan: seq<Exec>, i: nat, instrument: nat, traded: nat)
    requires i < |plan|
    ensures Number(plan[..i + 1], instrument, traded) == Number(plan[..i], instrument, traded) + [FillOf(plan[i], instrument, traded + i + 1)]
  {
    assert plan[..i + 1] == plan[..i] + [plan[i]];
  }

  lemma {:induction false} WithoutOrder(s: seq<Resting>, gone: set<nat>, i: nat, j: nat) returns (a: nat, c: nat)
    requires i < j < |Without(s, gone)|
    ensures a < c < |s| && s[a] == Without(s, gone)[i] && s[c] == Without(s, gone)[j]
  {
    if s[0].order.id in gone {
      a, c := WithoutOrder(s[1..], gone, i, j);
      a, c := a + 1, c + 1;
    } else if i == 0 {
      WithoutMembers(s[1..], gone);
      var r := Without(s, gone)[j];
      assert r == Without(s[1..], gone)[j - 1];
      assert r in s[1..];
      var k :| 0 <= k < |s[1..]| && s[1..][k] == r;
      a, c := 0, k + 1;
    } else {
      a, c := WithoutOrder(s[1..], gone, i - 1, j - 1);
      a, c := a + 1, c + 1;
    }
  }

  lemma WithoutLimitSide(s: seq<Resting>, side: Side, bound: nat, gone: set<nat>)
    requires LimitSide(s, side, bound)
    ensures LimitSide(Without(s, gone), side, bound)
  {
    WithoutMembers(s, gone);
    var u := Without(s, gone);
    forall i, j | 0 <= i < j < |u| ensures Precedes(side, u[i], u[j]) {
      var a, c := WithoutOrder(s, gone, i, j);
    }
  }

  lemma WithoutMarketSide(s: seq<Resting>, side: Side, bound: nat, gone: set<nat>)
    requires MarketSide(s, side, bound)
    ensures MarketSide(Without(s, gone), side, bound)
  {
    WithoutMembers(s, gone);
    var u := Without(s, gone);
    forall i, j | 0 <= i < j < |u| ensures u[i].arrival < u[j].arrival {
      var a, c := WithoutOrder(s, gone, i, j);
    }
  }

  lemma WithoutAllParts(b: BookV, gone: set<nat>)
    ensures All(BookWithout(b, gone)) == Without(All(b), gone)
  {
    WithoutAppend(b.bids, b.asks, gone);
    WithoutAppend(b.bids + b.asks, b.marketBuys, gone);
    WithoutAppend(b.bids + b.asks + b.marketBuys, b.marketSells, gone);
  }

  lemma BookWithoutWf(b: BookV, gone: set<nat>)
    requires Wf(b)
    ensures Wf(BookWithout(b, gone))
  {
    WithoutLimitSide(b.bids, Buy, b.nextArrival, gone);
    WithoutLimitSide(b.asks, Sell, b.nextArrival, gone);
    WithoutMarketSide(b.marketBuys, Buy, b.nextArrival, gone);
    WithoutMarketSide(b.marketSells, Sell, b.nextArrival, gone);
    WithoutAllParts(b, gone);
    var u := Without(All(b), gone);
    forall i, j | 0 <= i < j < |u| ensures u[i].order.id != u[j].order.id {
      var a, c := WithoutOrder(All(b), gone, i, j);
    }
  }

  ghost function SweptIds(b: BookV, prev: Option<int>, t: Tick): set<nat> {
    IdsOf(Select(All(b), Gap, prev, t))
  }

  lemma SweptGoneSound(b: BookV, prev: Option<int>, t: Tick)
    requires Sound(b)
    ensures Sound(BookWithout(b, SweptIds(b, prev, t)))
  {
    Unfold(b);
    SweptGoneWf(b, prev, t);
    Unfold(BookWithout(b, SweptIds(b, prev, t)));
  }

  lemma SweptGoneWf(b: BookV, prev: Option<int>, t: Tick)
    requires Wf(b)
    ensures Wf(BookWithout(b, SweptIds(b, prev, t)))
  {
    BookWithoutWf(b, SweptIds(b, prev, t));
  }

  lemma SweptGoneMarkets(b: BookV, prev: Option<int>, t: Tick)
    requires Wf(b)
    ensures BookWithout(b, SweptIds(b, prev, t)).marketBuys == b.marketBuys
    ensures BookWithout(b, SweptIds(b, prev, t)).marketSells == b.marketSells
  {
    SweptIdsAre(b, prev, t);
    WithoutDisjoint(b.marketBuys, SweptIds(b, prev, t));
    WithoutDisjoint(b.marketSells, SweptIds(b, prev, t));
  }

  /** An order's id is among the swept exactly when the order itself was swept. */
  lemma SweptIdsAre(b: BookV, prev: Option<int>, t: Tick)
    requires UniqueIds(All(b))
    ensures forall r :: r in All(b) ==> (r.order.id in SweptIds(b, prev, t) <==> FateOf(r.order, prev, t) == Gap)
  {
    SelectMembers(All(b), Gap, prev, t);
    forall r | r in All(b) ensures r.order.id in SweptIds(b, prev, t) <==> FateOf(r.order, prev, t) == Gap {
      if r.order.id in SweptIds(b, prev, t) {
        var q :| q in Select(All(b), Gap, prev, t) && q.order.id == r.order.id;
        var i :| 0 <= i < |All(b)| && All(b)[i] == q;
        var j :| 0 <= j < |All(b)| && All(b)[j] == r;
        UniqueIndexSame(All(b), i, j);
      }
    }
  }

  lemma {:induction false} WithoutKeepsFate(s: seq<Resting>, gone: set<nat>, fate: Fate, prev: Option<int>, t: Tick)
    requires fate != Gap
    requires forall r :: r in s ==> (r.order.id in gone <==> FateOf(r.order, prev, t) == Gap)
    ensures Select(Without(s, gone), fate, prev, t) == Select(s, fate, prev, t)
  {
    if s != [] {
      assert s[0] in s;
      WithoutKeepsFate(s[1..], gone, fate, prev, t);
    }
  }

  /** On a sorted side nothing beyond the first unreached order is reached. */
  lemma ReachedStops(s: seq<Resting>, side: Side, bound: nat, t: Tick, k: nat)
    requires LimitSide(s, side, bound) && StopsAt(s, t, k)
    ensures forall r :: r in s[..k] ==> Reached(r.order, t)
    ensures forall r :: r in s[k..] ==> !Reached(r.order, t)
  {
    forall r | r in s[k..] ensures !Reached(r.order, t) {
      var i :| 0 <= i < |s| - k && s[k..][i] == r;
      assert s[k] in s && s[k + i] in s;
      if i > 0 { assert Precedes(side, s[k], s[k + i]); }
    }
  }

  /** So the reached orders are a prefix: stopping early misses nothing. */
  lemma ReachedPrefix(s: seq<Resting>, side: Side, bound: nat, prev: Option<int>, t: Tick, k: nat)
    requires LimitSide(s, side, bound) && StopsAt(s, t, k)
    requires forall r :: r in s ==> FateOf(r.order, prev, t) != Gap
    ensures Select(s, Closing, prev, t) == s[..k]
    ensures Select(s, Rest, prev, t) == s[k..]
  {
    var p, q := s[..k], s[k..];
    assert s == p + q;
    ReachedStops(s, side, bound, t, k);
    assert forall r :: r in p ==> FateOf(r.order, prev, t) == Closing;
    assert forall r :: r in q ==> FateOf(r.order, prev, t) == Rest;
    SelectTwo(p, q, prev, t);
  }

  lemma SelectTwo(p: seq<Resting>, q: seq<Resting>, prev: Option<int>, t: Tick)
    requires forall r :: r in p ==> FateOf(r.order, prev, t) == Closing
    requires forall r :: r in q ==> FateOf(r.order, prev, t) == Rest
    ensures Select(p + q, Closing, prev, t) == p
    ensures Select(p + q, Rest, prev, t) == q
  {
    SelectAppend(p, q, Closing, prev, t);
    SelectAppend(p, q, Rest, prev, t);
    SelectEvery(p, Closing, prev, t);
    SelectNone(q, Closing, prev, t);
    SelectNone(p, Rest, prev, t);
    SelectEvery(q, Rest, prev, t);
  }

  lemma ClosingSides(e: EngineV, b: BookV, t: Tick, j: nat, k: nat)
    requires Sound(e.book) && b == BookWithout(e.book, SweptIds(e.book, e.prevPrice, t))
    requires StopsAt(b.bids, t, j) && StopsAt(b.asks, t, k)
    ensures MarketPlan(b, t) + LimitPlan(b, j, k, t) == ClosingPlan(e, t)
    ensures BookV(b.bids[j..], b.asks[k..], [], [], b.nextArrival) == Survivors(e.book, e.prevPrice, t)
  {
    var prev, gone := e.prevPrice, SweptIds(e.book, e.prevPrice, t);
    Unfold(e.book);
    SweptIdsAre(e.book, prev, t);
    SweptGoneWf(e.book, prev, t);
    SweptGoneMarkets(e.book, prev, t);
    SideSplits(e.book.bids, Buy, b.nextArrival, gone, prev, t, j);
    SideSplits(e.book.asks, Sell, b.nextArrival, gone, prev, t, k);
  }

  lemma SideSplits(s: seq<Resting>, side: Side, bound: nat, gone: set<nat>, prev: Option<int>, t: Tick, k: nat)
    requires LimitSide(s, side, bound)
    requires forall r :: r in s ==> (r.order.id in gone <==> FateOf(r.order, prev, t) == Gap)
    requires StopsAt(Without(s, gone), t, k)
    ensures Without(s, gone)[..k] == Select(s, Closing, prev, t)
    ensures Without(s, gone)[k..] == Select(s, Rest, prev, t)
  {
    WithoutMembers(s, gone);
    WithoutLimitSide(s, side, bound, gone);
    ReachedPrefix(Without(s, gone), side, bound, prev, t, k);
    WithoutKeepsFate(s, gone, Closing, prev, t);
    WithoutKeepsFate(s, gone, Rest, prev, t);
  }

  /** Removing the orders of a list one by one. */
  lemma RemoveNext(b: BookV, s: seq<Resting>, i: nat)
    requires UniqueIds(All(b)) && UniqueIds(s) && i < |s| && s[i] in All(b)
    ensures s[i].order.id !in IdsOf(s[..i])
    ensures Removed(BookWithout(b, IdsOf(s[..i])), s[i].order.id) == BookWithout(b, IdsOf(s[..i + 1]))
  {
    StillThere(s, i);
    RemoveOneMore(b, IdsOf(s[..i]), s[i]);
    IdsOfNext(s, i);
  }

  lemma BookWithoutNothing(b: BookV)
    ensures BookWithout(b, {}) == b
  {
    WithoutDisjoint(b.bids, {});
    WithoutDisjoint(b.asks, {});
    WithoutDisjoint(b.marketBuys, {});
    WithoutDisjoint(b.marketSells, {});
  }

  lemma BookWithoutAll(b: BookV)
    ensures BookWithout(b, IdsOf(All(b))) == BookV([], [], [], [], b.nextArrival)
  {
    var gone := IdsOf(All(b));
    WithoutEverything(b.bids, gone);
    WithoutEverything(b.asks, gone);
    WithoutEverything(b.marketBuys, gone);
    WithoutEverything(b.marketSells, gone);
  }

  lemma {:induction false} WithoutEverything(s: seq<Resting>, gone: set<nat>)
    requires forall r :: r in s ==> r.order.id in gone
    ensures Without(s, gone) == []
  {
    if s != [] {
      assert s[0] in s;
      WithoutEverything(s[1..], gone);
    }
  }

  lemma StillThere(s: seq<Resting>, i: nat)
    requires UniqueIds(s) && i < |s|
    ensures s[i].order.id !in IdsOf(s[..i])
    ensures s[i] in s
  {
    forall r | r in s[..i] ensures r.order.id != s[i].order.id {
      var j :| 0 <= j < i && s[..i][j] == r;
      assert s[j].order.id != s[i].order.id;
    }
  }

  lemma IdsOfNext(s: seq<Resting>, i: nat)
    requires i < |s|
    ensures IdsOf(s[..i + 1]) == IdsOf(s[..i]) + {s[i].order.id}
  {
    assert s[..i + 1] == s[..i] + [s[i]];
  }

  lemma ByArrivalUnique(s: seq<Resting>)
    requires UniqueIds(s)
    ensures UniqueIds(ByArrival(s))
  {
    ByArrivalMembers(s);
    UniqueByMultiset(s, ByArrival(s));
  }

  lemma UniqueByMultiset(s: seq<Resting>, u: seq<Resting>)
    requires UniqueIds(s) && multiset(s) == multiset(u)
    ensures UniqueIds(u)
  {
    SameMembers(s, u);
    forall i, j | 0 <= i < j < |u| ensures u[i].order.id != u[j].order.id {
      if u[i] == u[j] {
        TwiceInMultiset(u, i, j);
        OnceInMultiset(s, u[i]);
      } else {
        assert u[i] in u && u[j] in u;
        var a :| 0 <= a < |s| && s[a] == u[i];
        var c :| 0 <= c < |s| && s[c] == u[j];
        if a < c { assert s[a].order.id != s[c].order.id; } else { assert s[c].order.id != s[a].order.id; }
      }
    }
  }

  lemma TwiceInMultiset(u: seq<Resting>, i: nat, j: nat)
    requires i < j < |u| && u[i] == u[j]
    ensures multiset(u)[u[i]] >= 2
  {
    assert u == u[..j] + [u[j]] + u[j + 1..];
    assert multiset(u) == multiset(u[..j]) + multiset([u[j]]) + multiset(u[j + 1..]);
    assert u[..j][i] == u[i];
    assert u[i] in u[..j];
  }

  lemma OnceInMultiset(s: seq<Resting>, r: Resting)
    requires UniqueIds(s)
    ensures multiset(s)[r] <= 1
  {
    if r in s {
      var k :| 0 <= k < |s| && s[k] == r;
      var p, q := s[..k], s[k + 1..];
      assert s == p + [r] + q;
      assert multiset(s) == multiset(p) + multiset{r} + multiset(q);
      forall j | 0 <= j < |p| ensures p[j] != r {
        assert s[j].order.id != s[k].order.id;
      }
      forall j | 0 <= j < |q| ensures q[j] != r {
        assert q[j] == s[k + 1 + j];
      }
    }
  }

  lemma StillResting(b: BookV, gone: set<nat>, r: Resting)
    requires r in All(b) && r.order.id !in gone
    ensures r in All(BookWithout(b, gone)) && HasId(All(BookWithout(b, gone)), r.order.id)
  {
    WithoutMembers(b.bids, gone);
    WithoutMembers(b.asks, gone);
    WithoutMembers(b.marketBuys, gone);
    WithoutMembers(b.marketSells, gone);
    MemberHasId(All(BookWithout(b, gone)), r.order.id);
  }

  lemma SameResting(b: BookV, gone: set<nat>, r: Resting, q: Resting)
    requires UniqueIds(All(b)) && r in All(b)
    requires q in All(BookWithout(b, gone)) && q.order.id == r.order.id
    ensures q == r
  {
    WithoutMembers(b.bids, gone);
    WithoutMembers(b.asks, gone);
    WithoutMembers(b.marketBuys, gone);
    WithoutMembers(b.marketSells, gone);
    assert q in All(b);
    var i :| 0 <= i < |All(b)| && All(b)[i] == q;
    var j :| 0 <= j < |All(b)| && All(b)[j] == r;
    UniqueIndexSame(All(b), i, j);
  }

  lemma SameRestingSound(b: BookV, gone: set<nat>, r: Resting, q: Resting)
    requires Sound(b) && r in All(b)
    requires q in All(BookWithout(b, gone)) && q.order.id == r.order.id
    ensures q == r
  {
    Unfold(b);
    SameResting(b, gone, r, q);
  }

  lemma UniqueIndexSame(s: seq<Resting>, i: nat, j: nat)
    requires UniqueIds(s) && i < |s| && j < |s| && s[i].order.id == s[j].order.id
    ensures i == j
  {
  }

  lemma SweptAsks(b: BookV, prev: Option<int>, t: Tick)
    requires Sound(b) && prev.Some? && t.UpExtent() > prev.value
    ensures Select(All(b), Gap, prev, t) == Select(b.asks, Gap, prev, t)
    ensures forall r :: r in b.asks ==> r.order.price.Some?
    ensures forall r :: r in b.asks ==> (FateOf(r.order, prev, t) == Gap) == Between(true, prev.value, t.UpExtent(), r.order.price.value)
  {
    Unfold(b);
    SelectParts(b, Gap, prev, t);
    SelectNone(b.bids, Gap, prev, t);
    SelectNone(b.marketBuys, Gap, prev, t);
    SelectNone(b.marketSells, Gap, prev, t);
  }

  lemma SweptBids(b: BookV, prev: Option<int>, t: Tick)
    requires Sound(b) && prev.Some? && t.UpExtent() <= prev.value && t.DownExtent() < prev.value
    ensures Select(All(b), Gap, prev, t) == Select(b.bids, Gap, prev, t)
    ensures forall r :: r in b.bids ==> r.order.price.Some?
    ensures forall r :: r in b.bids ==> (FateOf(r.order, prev, t) == Gap) == Between(false, prev.value, t.DownExtent(), r.order.price.value)
  {
    Unfold(b);
    SelectParts(b, Gap, prev, t);
    SelectNone(b.asks, Gap, prev, t);
    SelectNone(b.marketBuys, Gap, prev, t);
    SelectNone(b.marketSells, Gap, prev, t);
  }

  lemma SelectParts(b: BookV, fate: Fate, prev: Option<int>, t: Tick)
    ensures Select(All(b), fate, prev, t) ==
      Select(b.bids, fate, prev, t) + Select(b.asks, fate, prev, t) +
      Select(b.marketBuys, fate, prev, t) + Select(b.marketSells, fate, prev, t)
  {
    SelectAppend(b.bids, b.asks, fate, prev, t);
    SelectAppend(b.bids + b.asks, b.marketBuys, fate, prev, t);
    SelectAppend(b.bids + b.asks + b.marketBuys, b.marketSells, fate, prev, t);
  }
}
