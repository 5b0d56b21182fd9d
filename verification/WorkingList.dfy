/** The working list of an account under simulated matching, at either tier: exactly when it names
    the orders held and the fills undelivered, and nothing else (crates/oq-core/src/kernel.rs). */
module WorkingList {
  import opened Numbers
  import opened Market
  import opened Events
  import opened Account
  import opened AccountFacts
  import opened Listing
  import opened Stages
  import Matching
  import Routing

  ghost function Names(working: seq<nat>): set<nat> {
    set w | w in working
  }

  ghost predicate NoRepeats(working: seq<nat>) {
    forall i, j :: 0 <= i < j < |working| ==> working[i] != working[j]
  }

  lemma {:induction false} DroppedNames(working: seq<nat>, id: nat)
    requires NoRepeats(working)
    ensures NoRepeats(Dropped(working, id)) && Names(Dropped(working, id)) == Names(working) - {id}
  {
    if working != [] {
      var n := |working| - 1;
      DroppedNames(working[..n], id);
      assert working == working[..n] + [working[n]];
      assert Names(working) == Names(working[..n]) + {working[n]};
      var d := Dropped(working[..n], id);
      assert working[n] !in Names(working[..n]);
      forall i | 0 <= i < |d| ensures d[i] != working[n] {
        assert d[i] in Names(d);
      }
      assert Names(d + [working[n]]) == Names(d) + {working[n]};
    }
  }

  // ----- ids spread over holdings

  /** The parts are disjoint and together they are the whole. */
  ghost predicate Partition(xs: seq<set<nat>>, all: set<nat>) {
    && (forall i, j :: 0 <= i < j < |xs| ==> xs[i] !! xs[j])
    && (forall i :: 0 <= i < |xs| ==> xs[i] <= all)
    && (forall n :: n in all ==> exists i :: 0 <= i < |xs| && n in xs[i])
  }

  lemma PartitionAdd(xs: seq<set<nat>>, all: set<nat>, h: nat, n: nat)
    requires Partition(xs, all) && h < |xs| && n !in all
    ensures Partition(xs[h := xs[h] + {n}], all + {n})
  {
    var ys := xs[h := xs[h] + {n}];
    forall m | m in all + {n} ensures exists i :: 0 <= i < |ys| && m in ys[i] {
      if m == n {
        assert m in ys[h];
      } else {
        var i :| 0 <= i < |xs| && m in xs[i];
        assert m in ys[i];
      }
    }
  }

  lemma PartitionDrop(xs: seq<set<nat>>, all: set<nat>, h: nat, gone: set<nat>)
    requires Partition(xs, all) && h < |xs| && gone <= xs[h]
    ensures Partition(xs[h := xs[h] - gone], all - gone)
  {
    var ys := xs[h := xs[h] - gone];
    forall i | 0 <= i < |ys| ensures ys[i] <= all - gone {
      if i < h { assert xs[i] !! xs[h]; }
      if h < i { assert xs[h] !! xs[i]; }
    }
    forall m | m in all - gone ensures exists i :: 0 <= i < |ys| && m in ys[i] {
      var i :| 0 <= i < |xs| && m in xs[i];
      assert m in ys[i];
    }
  }

  lemma PartitionOfNothing(xs: seq<set<nat>>)
    ensures Partition(xs, {}) <==> forall i :: 0 <= i < |xs| ==> xs[i] == {}
  {
  }

  // ----- the account

  /** Every holding simulated, with each of its ids in one place. */
  ghost predicate Simple(s: StateV) {
    s.matching.Simulated? && forall h :: 0 <= h < |s.holdings| ==> SimpleOne(s.holdings[h])
  }

  ghost predicate SimpleOne(v: HoldingV) {
    Tidy(v.engine)
  }

  ghost function ListedAt(hs: seq<HoldingV>): (xs: seq<set<nat>>)
    ensures |xs| == |hs|
  {
    seq(|hs|, h requires 0 <= h < |hs| => Listed(hs[h].engine))
  }

  /** The working list names exactly the orders held and the fills undelivered, each once. */
  ghost predicate Orderly(k: KernelV) {
    Simple(k.state) && NoRepeats(k.working) && Partition(ListedAt(k.state.holdings), Names(k.working))
  }

  /** Two accounts with the same matchers. */
  ghost predicate SameEngines(s: StateV, r: StateV) {
    |r.holdings| == |s.holdings| && r.matching == s.matching &&
    forall h :: 0 <= h < |s.holdings| ==> r.holdings[h].engine == s.holdings[h].engine
  }

  lemma SameEnginesOrderly(s: StateV, r: StateV, working: seq<nat>)
    requires SameEngines(s, r)
    ensures Orderly(KernelV(s, working)) <==> Orderly(KernelV(r, working))
    ensures ListedAt(r.holdings) == ListedAt(s.holdings) && (Simple(r) <==> Simple(s))
  {
    assert ListedAt(r.holdings) == ListedAt(s.holdings);
    if Simple(s) {
      forall h | 0 <= h < |r.holdings| ensures SimpleOne(r.holdings[h]) {
        assert SimpleOne(s.holdings[h]);
      }
    }
    if Simple(r) {
      forall h | 0 <= h < |s.holdings| ensures SimpleOne(s.holdings[h]) {
        assert SimpleOne(r.holdings[h]);
      }
    }
  }

  lemma OpeningKeepsEngines(s: StateV, at: nat, onShort: bool, qty: int, price: int, sign: int, h: nat)
    requires at < |s.holdings| && h < |s.holdings|
    ensures Opening(s, at, onShort, qty, price, sign).holdings[h].engine == s.holdings[h].engine
    ensures Opening(s, at, onShort, qty, price, sign).matching == s.matching
  {
  }

  lemma ClosingKeepsEngines(s: StateV, at: nat, onShort: bool, qty: int, price: int, h: nat)
    requires at < |s.holdings| && h < |s.holdings|
    ensures Closing(s, at, onShort, qty, price).holdings[h].engine == s.holdings[h].engine
    ensures Closing(s, at, onShort, qty, price).matching == s.matching
  {
  }

  lemma OneWayKeepsEngines(s: StateV, at: nat, f: Fill, h: nat)
    requires at < |s.holdings| && h < |s.holdings|
    ensures FillOneWay(s, at, f).holdings[h].engine == s.holdings[h].engine
    ensures FillOneWay(s, at, f).matching == s.matching
  {
    var d, l := PositionDelta(f), s.holdings[at].long;
    var closed := Min(Abs(d), Abs(l.qty));
    ClosingKeepsEngines(s, at, false, closed, f.price, h);
    OpeningKeepsEngines(Closing(s, at, false, closed, f.price), at, false, Abs(d) - closed, f.price, Sign(d), h);
    OpeningKeepsEngines(s, at, false, Abs(d), f.price, Sign(d), h);
  }

  /** A fill moves legs and cash, never an engine. */
  lemma FillKeepsEngines(s: StateV, f: Fill, h: nat)
    requires h < |s.holdings|
    ensures WithFill(s, f).holdings[h].engine == s.holdings[h].engine
    ensures WithFill(s, f).matching == s.matching
  {
    var at := s.IndexOf(f.instrument);
    if at < |s.holdings| {
      OneWayKeepsEngines(s, at, f, h);
      OpeningKeepsEngines(s, at, !OnLong(f), f.qty, f.price, if OnLong(f) then 1 else -1, h);
      ClosingKeepsEngines(s, at, !OnLong(f), f.qty, f.price, h);
    }
  }

  lemma {:induction false} BookFillsDrop(a: Applied, h: nat, fs: seq<Fill>)
    requires h < |a.kernel.state.holdings| && NoRepeats(a.kernel.working)
    ensures var r := BookFills(a, h, fs).kernel;
      && NoRepeats(r.working) && Names(r.working) == Names(a.kernel.working) - OrdersOf(fs)
      && r.state.matching == a.kernel.state.matching
      && forall i :: 0 <= i < |r.state.holdings| ==> r.state.holdings[i].engine == a.kernel.state.holdings[i].engine
  {
    if fs != [] {
      var n := |fs| - 1;
      BookFillsDrop(a, h, fs[..n]);
      var b := BookFills(a, h, fs[..n]);
      var s := b.kernel.state;
      assert fs == fs[..n] + [fs[n]];
      assert OrdersOf(fs) == OrdersOf(fs[..n]) + {fs[n].order};
      DroppedNames(b.kernel.working, fs[n].order);
      var charged := Charged(s, s.schedule.Charge(s.holdings[h].tickCash, fs[n]));
      forall i | 0 <= i < |s.holdings| ensures WithFill(charged, fs[n]).holdings[i].engine == s.holdings[i].engine {
        FillKeepsEngines(charged, fs[n], i);
      }
      FillKeepsEngines(charged, fs[n], h);
    }
  }

  // ----- a liquidation

  /** The condition under which a liquidation leaves no order behind: the account has one
      holding, or no flat holding has an order. */
  predicate Clears(s: StateV) {
    |s.holdings| == 1 || forall h :: 0 <= h < |s.holdings| && s.holdings[h].IsFlat() ==> HoldsNothing(s.holdings[h].engine)
  }

  lemma HoldingAfter(s: StateV, price: int, h: nat)
    requires !s.IsFlat() && h < |s.holdings|
    ensures Liquidate(s, price).state.holdings[h]
         == if |s.holdings| == 1 || !s.holdings[h].IsFlat() then Flattened(s.holdings[h]) else s.holdings[h]
  {
    var hs := ToClose(s.holdings, 0);
    LiquidationSettles(s, price);
    ToCloseAscends(s.holdings, 0);
    ClosesOnly(s, hs, price, h);
  }

  /** After a liquidation no order is left in any holding if and only if there was one holding or
      no flat holding had an order. */
  lemma LiquidationClearsIff(s: StateV, price: int)
    requires !s.IsFlat()
    ensures Clears(s)
       <==> forall h :: 0 <= h < |s.holdings| ==> HoldsNothing(Liquidate(s, price).state.holdings[h].engine)
  {
    var r := Liquidate(s, price).state;
    forall h | 0 <= h < |s.holdings|
      ensures r.holdings[h] == if |s.holdings| == 1 || !s.holdings[h].IsFlat() then Flattened(s.holdings[h]) else s.holdings[h]
    {
      HoldingAfter(s, price, h);
    }
    forall h | 0 <= h < |s.holdings| ensures HoldsNothing(Flattened(s.holdings[h]).engine) {
    }
  }

  lemma {:induction false} LiquidateKeepsMatching(s: StateV, hs: seq<nat>, price: int)
    requires forall i :: 0 <= i < |hs| ==> hs[i] < |s.holdings|
    ensures CloseEach(s, hs, price).state.matching == s.matching
    decreases |hs|
  {
    if hs != [] {
      LiquidateKeepsMatching(LiquidateOne(s, hs[0], ClosingPrice(s, hs[0], price)), hs[1..], price);
    }
  }

  /** The condition under which it leaves no order and no undelivered fill: `Clears`, and every fill
      already reported. */
  predicate LeavesNothing(s: StateV) {
    Clears(s) && forall h :: 0 <= h < |s.holdings| ==> Delivered(s.holdings[h].engine)
  }

  lemma LiquidationLeavesIff(s: StateV, price: int)
    requires !s.IsFlat()
    ensures LeavesNothing(s) <==> forall h :: 0 <= h < |s.holdings| ==> LeftIdle(s, price, h)
  {
    LiquidationClearsIff(s, price);
    forall h | 0 <= h < |s.holdings|
      ensures Delivered(Liquidate(s, price).state.holdings[h].engine) <==> Delivered(s.holdings[h].engine)
    {
      HoldingAfter(s, price, h);
    }
    if forall h :: 0 <= h < |s.holdings| ==> LeftIdle(s, price, h) {
      forall h | 0 <= h < |s.holdings| ensures HoldsNothing(Liquidate(s, price).state.holdings[h].engine) && Delivered(s.holdings[h].engine) {
        assert LeftIdle(s, price, h);
      }
    }
  }

  /** After the liquidation the holding has no order and no undelivered fill. */
  predicate LeftIdle(s: StateV, price: int, h: nat)
    requires h < |s.holdings|
  {
    var m := Liquidate(s, price).state.holdings[h].engine;
    HoldsNothing(m) && Delivered(m)
  }

  lemma LiquidationStaysSimple(s: StateV, price: int)
    requires Simple(s) && !s.IsFlat()
    ensures Simple(Liquidate(s, price).state)
  {
    LiquidateKeepsMatching(s, ToClose(s.holdings, 0), price);
    forall h | 0 <= h < |s.holdings| ensures SimpleOne(Liquidate(s, price).state.holdings[h]) {
      HoldingAfter(s, price, h);
      assert SimpleOne(s.holdings[h]);
      EmptiedTidy(s.holdings[h].engine);
    }
  }

  lemma EmptiedIsOrderlyIff(s: StateV)
    requires Simple(s)
    ensures Orderly(KernelV(s, []))
       <==> forall h :: 0 <= h < |s.holdings| ==> HoldsNothing(s.holdings[h].engine) && Delivered(s.holdings[h].engine)
  {
    var xs := ListedAt(s.holdings);
    PartitionOfNothing(xs);
    assert Names([]) == {};
    forall h | 0 <= h < |s.holdings| ensures xs[h] == {} <==> HoldsNothing(s.holdings[h].engine) && Delivered(s.holdings[h].engine) {
      NothingListed(s.holdings[h].engine);
    }
    if Orderly(KernelV(s, [])) {
      forall h | 0 <= h < |s.holdings| ensures HoldsNothing(s.holdings[h].engine) && Delivered(s.holdings[h].engine) {
        assert xs[h] == {};
      }
    }
  }

  lemma CheckedOrderlyIff(a: Applied, mark: int)
    requires Orderly(a.kernel)
    ensures Orderly(Checked(a, mark).kernel) <==> !Closes(a.kernel.state, mark) || LeavesNothing(a.kernel.state)
  {
    var s := a.kernel.state;
    if Closes(s, mark) {
      LiquidationStaysSimple(s, mark);
      EmptiedIsOrderlyIff(Liquidate(s, mark).state);
      LiquidationLeavesIff(s, mark);
      assert forall h :: 0 <= h < |s.holdings| ==>
        (LeftIdle(s, mark, h) <==> HoldsNothing(Liquidate(s, mark).state.holdings[h].engine) && Delivered(Liquidate(s, mark).state.holdings[h].engine));
    }
  }

  /** The event liquidates an account that has, beside what is closed, a flat holding with an
      order, or a fill not yet reported. */
  predicate Strands(k: KernelV, e: Event)
    requires k.state.holdings != []
  {
    var s := BeforeCheck(k, e).kernel.state;
    CheckedAt(k, e).Some? && Closes(s, CheckedAt(k, e).value) && !LeavesNothing(s)
  }

  // ----- events

  /** Changing one matcher, and the list by as much. */
  lemma PutOrderly(k: KernelV, h: nat, m: Matching.Matcher, working: seq<nat>)
    requires Orderly(k) && h < |k.state.holdings| && Tidy(m) && NoRepeats(working)
    requires Partition(ListedAt(k.state.holdings)[h := Listed(m)], Names(working))
    ensures Orderly(KernelV(WithEngine(k.state, h, m), working))
  {
    var s, r := k.state, WithEngine(k.state, h, m);
    assert ListedAt(r.holdings) == ListedAt(s.holdings)[h := Listed(m)];
    forall i | 0 <= i < |r.holdings| ensures SimpleOne(r.holdings[i]) {
      assert SimpleOne(s.holdings[i]);
    }
  }

  lemma TickBookedOrderly(k: KernelV, h: nat, t: Tick)
    requires Orderly(k) && h < |k.state.holdings|
    ensures Orderly(TickBooked(k, h, t).kernel)
  {
    var s, m := Marked(k.state, h, t), k.state.holdings[h].engine;
    var fills, xs := Matching.FillsOn(m, t), ListedAt(k.state.holdings);
    var a := Applied(k.(state := Matched(s, h, t)), []);
    assert SimpleOne(k.state.holdings[h]);
    TickedListed(m, t);
    SameEnginesOrderly(k.state, s, k.working);
    BookFillsDrop(a, h, fills);
    PartitionDrop(xs, Names(k.working), h, OrdersOf(fills));
    var r := BookFills(a, h, fills).kernel;
    PutOrderly(k.(state := s), h, Matching.Ticked(m, t), r.working);
    SameEnginesOrderly(Matched(s, h, t), r.state, r.working);
  }

  lemma PlacedOrderly(k: KernelV, h: nat, o: Order, now: int)
    requires Orderly(k) && h < |k.state.holdings| && o.id !in k.working
    ensures Orderly(KernelV(Placed(k.state, h, o, now), k.working + [o.id]))
  {
    var m, xs := k.state.holdings[h].engine, ListedAt(k.state.holdings);
    assert o.id !in Names(k.working);
    assert SimpleOne(k.state.holdings[h]) && xs[h] <= Names(k.working);
    SubmittedListed(m, o, now);
    assert Names(k.working + [o.id]) == Names(k.working) + {o.id};
    PartitionAdd(xs, Names(k.working), h, o.id);
    PutOrderly(k, h, Matching.Submitted(m, o, now), k.working + [o.id]);
  }

  lemma SubmitOrderly(k: KernelV, e: Event)
    requires Orderly(k) && e.Submit?
    ensures Orderly(OnSubmit(k, e).kernel)
  {
    if e.qty > 0 && e.id !in k.working && Route(k.state, e.instrument).Some? && k.state.balance > 0 {
      PlacedOrderly(k, Route(k.state, e.instrument).value, Order(e.id, e.side, e.price, e.qty, e.offset, e.stamp), e.stamp.local);
    }
  }

  lemma WithdrawnOrderly(k: KernelV, h: nat, id: nat)
    requires Orderly(k) && h < |k.state.holdings| && Matching.Holds(k.state.holdings[h].engine, id)
    ensures Orderly(KernelV(WithdrawnFrom(k.state, h, id), Dropped(k.working, id)))
  {
    var m, xs := k.state.holdings[h].engine, ListedAt(k.state.holdings);
    assert SimpleOne(k.state.holdings[h]);
    WithdrawnListed(m, id);
    DroppedNames(k.working, id);
    PartitionDrop(xs, Names(k.working), h, {id});
    PutOrderly(k, h, Matching.Without(m, id), Dropped(k.working, id));
  }

  /** Asking a matcher that does not have the order changes nothing. */
  lemma AskedInVain(s: StateV, h: nat, id: nat)
    requires Simple(s) && h < |s.holdings| && !Matching.Holds(s.holdings[h].engine, id)
    ensures WithdrawnFrom(s, h, id) == s
  {
    assert SimpleOne(s.holdings[h]);
    WithdrawnListed(s.holdings[h].engine, id);
    assert s.holdings[h := s.holdings[h]] == s.holdings;
  }

  lemma {:induction false} AskedOrderly(k: KernelV, h: nat, id: nat)
    requires Orderly(k) && h <= |k.state.holdings|
    ensures HeldFrom(k.state, h, id) ==> Orderly(KernelV(AskedFrom(k.state, h, id), Dropped(k.working, id)))
    ensures !HeldFrom(k.state, h, id) ==> AskedFrom(k.state, h, id) == k.state
    decreases |k.state.holdings| - h
  {
    if h < |k.state.holdings| {
      if Matching.Holds(k.state.holdings[h].engine, id) {
        WithdrawnOrderly(k, h, id);
      } else {
        AskedInVain(k.state, h, id);
        AskedOrderly(k, h + 1, id);
      }
    }
  }

  lemma CancelOrderly(k: KernelV, id: nat)
    requires Orderly(k)
    ensures Orderly(OnCancel(k, id).kernel)
  {
    AskedOrderly(k, 0, id);
  }

  lemma BeforeCheckOrderly(k: KernelV, e: Event)
    requires Orderly(k) && k.state.holdings != []
    ensures Orderly(BeforeCheck(k, e).kernel)
  {
    match e
    case TickSeen(instrument, t) =>
      if Route(k.state, instrument).Some? {
        TickBookedOrderly(k, Route(k.state, instrument).value, t);
      }
    case Submit(_, _, _, _, _, _, _) => SubmitOrderly(k, e);
    case Cancel(id, _) => CancelOrderly(k, id);
    case _ =>
      OthersKeepEngines(k, e);
      SameEnginesOrderly(k.state, BeforeCheck(k, e).kernel.state, k.working);
  }

  lemma OthersKeepEngines(k: KernelV, e: Event)
    requires k.state.holdings != [] && k.state.matching.Simulated? && !e.TickSeen? && !e.Submit? && !e.Cancel?
    ensures SameEngines(k.state, BeforeCheck(k, e).kernel.state) && BeforeCheck(k, e).kernel.working == k.working
  {
  }

  /** One event keeps the working list the matchers' own if and only if it does not liquidate beside
      a flat holding with an order or before a fill is reported. */
  lemma EventOrderlyIff(k: KernelV, e: Event)
    requires Orderly(k) && k.state.holdings != []
    ensures Orderly(Apply(k, e).kernel) <==> !Strands(k, e)
  {
    AppliedIsChecked(k, e);
    BeforeCheckOrderly(k, e);
    if CheckedAt(k, e).Some? {
      CheckedOrderlyIff(BeforeCheck(k, e), CheckedAt(k, e).value);
    }
  }

  ghost predicate OrderlyAfter(k: KernelV, es: seq<Event>, n: nat)
    requires k.state.holdings != [] && n <= |es|
  {
    Orderly(Run(k, es[..n]).kernel)
  }

  predicate StrandsAt(k: KernelV, es: seq<Event>, n: nat)
    requires k.state.holdings != [] && n < |es|
  {
    Strands(Run(k, es[..n]).kernel, es[n])
  }

  lemma StepOrderlyIff(k: KernelV, es: seq<Event>, n: nat)
    requires k.state.holdings != [] && n < |es| && OrderlyAfter(k, es, n)
    ensures OrderlyAfter(k, es, n + 1) <==> !StrandsAt(k, es, n)
  {
    RunOneMore(k, es, n);
    EventOrderlyIff(Run(k, es[..n]).kernel, es[n]);
  }

  /** Every event of a run keeps the working list exactly the ids of orders held and fills
      undelivered, each once, if and only if none of them liquidates beside a flat holding with an
      order or before a fill is reported. */
  lemma WorkingIsTheBookIff(k: KernelV, es: seq<Event>)
    requires Orderly(k) && k.state.holdings != []
    ensures (forall n :: 0 <= n <= |es| ==> OrderlyAfter(k, es, n)) <==> (forall n :: 0 <= n < |es| ==> !StrandsAt(k, es, n))
  {
    forall n | 0 <= n < |es| && OrderlyAfter(k, es, n) ensures OrderlyAfter(k, es, n + 1) <==> !StrandsAt(k, es, n) {
      StepOrderlyIff(k, es, n);
    }
    if forall n :: 0 <= n < |es| ==> !StrandsAt(k, es, n) {
      forall n | 0 <= n <= |es| ensures OrderlyAfter(k, es, n) {
        OrderlyUpTo(k, es, n);
      }
    }
    if forall n :: 0 <= n <= |es| ==> OrderlyAfter(k, es, n) {
      forall n | 0 <= n < |es| ensures !StrandsAt(k, es, n) {
        assert OrderlyAfter(k, es, n) && OrderlyAfter(k, es, n + 1);
      }
    }
  }

  lemma {:induction false} OrderlyUpTo(k: KernelV, es: seq<Event>, m: nat)
    requires Orderly(k) && k.state.holdings != [] && m <= |es|
    requires forall n :: 0 <= n < m ==> !StrandsAt(k, es, n)
    ensures OrderlyAfter(k, es, m)
  {
    if m == 0 {
      assert es[..0] == [];
    } else {
      OrderlyUpTo(k, es, m - 1);
      StepOrderlyIff(k, es, m - 1);
    }
  }

  /** With one holding and no response latency nothing is ever stranded, at either tier. */
  lemma WorkingIsTheBook(k: KernelV, es: seq<Event>)
    requires Orderly(k) && |k.state.holdings| == 1 && Matching.Prompt(k.state.holdings[0].engine)
    ensures Orderly(Run(k, es).kernel)
  {
    forall n | 0 <= n < |es| ensures !StrandsAt(k, es, n) {
      RunStaysPrompt(k, es[..n]);
      OneHoldingClears(Run(k, es[..n]).kernel, es[n]);
    }
    OrderlyUpTo(k, es, |es|);
    assert es[..|es|] == es;
  }

  lemma {:induction false} RunStaysPrompt(k: KernelV, es: seq<Event>)
    requires |k.state.holdings| == 1 && Matching.Prompt(k.state.holdings[0].engine)
    ensures Matching.Prompt(Run(k, es).kernel.state.holdings[0].engine) && Run(k, es).kernel.state.matching == k.state.matching
  {
    if es != [] {
      var n := |es| - 1;
      RunStaysPrompt(k, es[..n]);
      var b := Run(k, es[..n]).kernel;
      Routing.ApplyOwners(b, es[n]);
      assert Routing.SameOwner(b.state.holdings[0], Run(k, es).kernel.state.holdings[0]);
    }
  }

  lemma OneHoldingClears(k: KernelV, e: Event)
    requires |k.state.holdings| == 1 && Matching.Prompt(k.state.holdings[0].engine)
    ensures LeavesNothing(BeforeCheck(k, e).kernel.state) && !Strands(k, e)
  {
    Routing.BeforeCheckOwners(k, e);
    BeforeCheckCount(k, e);
    assert Routing.SameOwner(k.state.holdings[0], BeforeCheck(k, e).kernel.state.holdings[0]);
  }
}
