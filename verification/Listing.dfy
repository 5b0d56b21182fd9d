/** The ids a matcher still has to answer for, held orders and undelivered fills together, and what
    each operation of a matcher does to them (crates/oq-core/src/matcher.rs). */
module Listing {
  import opened Numbers
  import opened Market
  import opened RestingBook
  import L0
  import L0Facts
  import L1
  import L1Facts
  import Tiers
  import Conservation
  import Matching

  // ----- undelivered fills by id

  ghost function LateIds(ds: seq<L1.Delayed>): set<nat> {
    set d | d in ds :: d.fill.fill.order
  }

  ghost predicate DistinctLate(ds: seq<L1.Delayed>) {
    forall i, j :: 0 <= i < j < |ds| ==> ds[i].fill.fill.order != ds[j].fill.fill.order
  }

  lemma LateFirst(ds: seq<L1.Delayed>)
    requires DistinctLate(ds) && ds != []
    ensures DistinctLate(ds[1..]) && ds[0].fill.fill.order !in LateIds(ds[1..])
    ensures LateIds(ds) == {ds[0].fill.fill.order} + LateIds(ds[1..])
  {
    assert ds == [ds[0]] + ds[1..];
  }

  lemma LateCons(d: L1.Delayed, ds: seq<L1.Delayed>)
    requires DistinctLate(ds) && d.fill.fill.order !in LateIds(ds)
    ensures DistinctLate([d] + ds) && LateIds([d] + ds) == {d.fill.fill.order} + LateIds(ds)
  {
  }

  /** What is due leaves, and the rest stays. */
  lemma {:induction false} DueLeaves(ds: seq<L1.Delayed>, now: int)
    requires DistinctLate(ds)
    ensures DistinctLate(L1.HeldBack(ds, now)) && Tiers.FilledIds(L1.Ready(ds, now)) <= LateIds(ds)
    ensures LateIds(L1.HeldBack(ds, now)) == LateIds(ds) - Tiers.FilledIds(L1.Ready(ds, now))
  {
    if ds == [] {
    } else {
      LateFirst(ds);
      DueLeaves(ds[1..], now);
      if ds[0].knownAt > now {
        LateCons(ds[0], L1.HeldBack(ds[1..], now));
      } else {
        Tiers.FilledIdsAppend([ds[0].fill], L1.Ready(ds[1..], now));
        assert Tiers.FilledIds([ds[0].fill]) == {ds[0].fill.fill.order};
      }
    }
  }

  ghost predicate MadeOnce(fs: seq<L0Fill>) {
    forall i, j :: 0 <= i < j < |fs| ==> fs[i].fill.order != fs[j].fill.order
  }

  lemma MadeAreDistinct(v: L1.L1V, p: L1.Policy, m: L1.Measure, t: Tick)
    requires L1.WfL1(v)
    ensures MadeOnce(L1.Made(v, p, m, t))
  {
    L1Facts.BeforeMatchHeld(v, p, t);
    var e, fs := L1.BeforeMatch(v, p, t).inner, L1.Made(v, p, m, t);
    forall i, j | 0 <= i < j < |fs| ensures fs[i].fill.order != fs[j].fill.order {
      L0Facts.FilledOnce(e, t, i, j);
    }
  }

  lemma Joined(ds: seq<L1.Delayed>, p: L1.Policy, fs: seq<L0Fill>, now: int)
    requires DistinctLate(ds) && MadeOnce(fs) && LateIds(ds) !! Tiers.FilledIds(fs)
    ensures DistinctLate(ds + L1.Postponed(p, fs, now))
    ensures LateIds(ds + L1.Postponed(p, fs, now)) == LateIds(ds) + Tiers.FilledIds(fs)
  {
    var qs := L1.Postponed(p, fs, now);
    forall i, j | 0 <= i < |ds| && 0 <= j < |qs| ensures ds[i].fill.fill.order != qs[j].fill.fill.order {
      assert ds[i] in ds && fs[j] in fs;
      assert ds[i].fill.fill.order in LateIds(ds) && fs[j].fill.order in Tiers.FilledIds(fs);
    }
    assert LateIds(qs) == Tiers.FilledIds(fs) by {
      forall f | f in fs ensures f.fill.order in LateIds(qs) {
        var i :| 0 <= i < |fs| && fs[i] == f;
        assert qs[i] in qs && qs[i].fill == f;
      }
      forall q | q in qs ensures q.fill in fs {
        var i :| 0 <= i < |qs| && qs[i] == q;
        assert fs[i] in fs;
      }
    }
  }

  // ----- a matcher

  /** Every id is in one place. */
  ghost predicate TidyTier(v: L1.L1V) {
    L1.WfL1(v) && DistinctLate(v.delayed) && LateIds(v.delayed) !! L1.HeldIds(v)
  }

  ghost predicate Tidy(m: Matching.Matcher) {
    match m
    case AtL0(e) => Wf(e.book)
    case AtL1(v, _) => TidyTier(v)
  }

  /** The ids of the orders it holds and of the fills it has not delivered. */
  ghost function Listed(m: Matching.Matcher): set<nat> {
    match m
    case AtL0(e) => Ids(e.book)
    case AtL1(v, _) => L1.HeldIds(v) + LateIds(v.delayed)
  }

  /** The orders it holds, wherever they wait. */
  ghost function OrdersIn(m: Matching.Matcher): set<Order> {
    match m
    case AtL0(e) => Orders(e.book)
    case AtL1(v, _) => L1.Held(v)
  }

  ghost function OrdersOf(fs: seq<Fill>): set<nat> {
    set f | f in fs :: f.order
  }

  lemma PlainOrders(fs: seq<L0Fill>)
    ensures OrdersOf(Matching.Plain(fs)) == Tiers.FilledIds(fs)
  {
    var ps := Matching.Plain(fs);
    forall n | n in Tiers.FilledIds(fs) ensures n in OrdersOf(ps) {
      var f :| f in fs && f.fill.order == n;
      var i :| 0 <= i < |fs| && fs[i] == f;
      assert ps[i] in ps;
    }
    forall n | n in OrdersOf(ps) ensures n in Tiers.FilledIds(fs) {
      var f :| f in ps && f.order == n;
      var i :| 0 <= i < |ps| && ps[i] == f;
      assert fs[i] in fs;
    }
  }

  // ----- submission

  lemma SubmittedListed(m: Matching.Matcher, o: Order, now: int)
    requires Tidy(m) && o.id !in Listed(m)
    ensures Tidy(Matching.Submitted(m, o, now)) && Listed(Matching.Submitted(m, o, now)) == Listed(m) + {o.id}
    ensures OrdersIn(Matching.Submitted(m, o, now)) == OrdersIn(m) + {o}
  {
    match m
    case AtL0(e) => InsertedWf(e.book, o);
    case AtL1(v, p) =>
      L1Facts.SubmittedHeld(v, p, o, now, None, false);
      assert L1.Submitted(v, p, o, now, None, false).delayed == v.delayed;
      assert L1.HeldIds(L1.Submitted(v, p, o, now, None, false)) == L1.HeldIds(v) + {o.id};
  }

  // ----- withdrawal

  lemma HeldIsNamed(b: BookV, id: nat)
    ensures HasId(All(b), id) <==> id in Ids(b)
  {
    if HasId(All(b), id) {
      var i :| 0 <= i < |All(b)| && All(b)[i].order.id == id;
      assert All(b)[i] in All(b);
    }
    if id in Ids(b) {
      var r :| r in All(b) && r.order.id == id;
      var i :| 0 <= i < |All(b)| && All(b)[i] == r;
    }
  }

  lemma {:induction false} PendingAbsent(s: seq<L1.Pending>, id: nat)
    requires |L1.PendingWithout(s, id)| == |s|
    ensures L1.PendingWithout(s, id) == s
  {
    if s == [] {
    } else {
      L1Facts.PendingWithoutFacts(s[1..], id);
      PendingAbsent(s[1..], id);
      assert s == [s[0]] + s[1..];
    }
  }

  lemma {:induction false} QueuedAbsent(s: seq<L1.Queued>, id: nat)
    requires |L1.QueuedWithout(s, id)| == |s|
    ensures L1.QueuedWithout(s, id) == s
  {
    if s == [] {
    } else {
      L1Facts.QueuedWithoutFacts(s[1..], id);
      QueuedAbsent(s[1..], id);
      assert s == [s[0]] + s[1..];
    }
  }

  lemma HeldL1(v: L1.L1V, id: nat)
    requires L1.WfL1(v)
    ensures (|L1.PendingWithout(v.pending, id)| + |L1.QueuedWithout(v.queued, id)| < |v.pending| + |v.queued|
             || HasId(All(v.inner.book), id)) ==> id in L1.HeldIds(v)
  {
    if |L1.PendingWithout(v.pending, id)| + |L1.QueuedWithout(v.queued, id)| < |v.pending| + |v.queued| {
      L1Facts.CancelFoundEarly(v, id);
    } else if HasId(All(v.inner.book), id) {
      HeldIsNamed(v.inner.book, id);
      L1Facts.IdsAreOrderIds(v.inner.book);
      var o :| o in Orders(v.inner.book) && o.id == id;
      assert o in L1.Held(v);
    }
  }

  /** A cancel takes out the id it finds, and changes nothing when it finds none: the order of an
      undelivered fill is no longer there to be withdrawn. */
  lemma WithdrawnListed(m: Matching.Matcher, id: nat)
    requires Tidy(m)
    ensures Tidy(Matching.Without(m, id))
    ensures Matching.Holds(m, id) ==> id in Listed(m) && Listed(Matching.Without(m, id)) == Listed(m) - {id}
    ensures !Matching.Holds(m, id) ==> Matching.Without(m, id) == m
  {
    match m
    case AtL0(e) =>
      RemovedWf(e.book, id);
      HeldIsNamed(e.book, id);
      if !HasId(All(e.book), id) {
        RemovedAbsent(e.book, id);
      }
    case AtL1(v, _) =>
      if Matching.Holds(m, id) {
        TakenOut(v, id);
      } else {
        NotThere(v, id);
      }
  }

  lemma TakenOut(v: L1.L1V, id: nat)
    requires TidyTier(v)
    requires |L1.PendingWithout(v.pending, id)| + |L1.QueuedWithout(v.queued, id)| < |v.pending| + |v.queued|
             || HasId(All(v.inner.book), id)
    ensures TidyTier(L1.Cancelled(v, id)) && id in L1.HeldIds(v)
    ensures L1.HeldIds(L1.Cancelled(v, id)) == L1.HeldIds(v) - {id} && L1.Cancelled(v, id).delayed == v.delayed
  {
    HeldL1(v, id);
    L1Facts.CancelledHeld(v, id);
  }

  lemma NotThere(v: L1.L1V, id: nat)
    requires |L1.PendingWithout(v.pending, id)| + |L1.QueuedWithout(v.queued, id)| >= |v.pending| + |v.queued|
    requires !HasId(All(v.inner.book), id)
    ensures L1.Cancelled(v, id) == v
  {
    L1Facts.PendingWithoutFacts(v.pending, id);
    L1Facts.QueuedWithoutFacts(v.queued, id);
    PendingAbsent(v.pending, id);
    QueuedAbsent(v.queued, id);
    RemovedAbsent(v.inner.book, id);
  }

  // ----- an observation

  /** An observation takes off the list exactly the orders whose fills it delivers. */
  lemma TickedListed(m: Matching.Matcher, t: Tick)
    requires Tidy(m)
    ensures Tidy(Matching.Ticked(m, t)) && OrdersOf(Matching.FillsOn(m, t)) <= Listed(m)
    ensures Listed(Matching.Ticked(m, t)) == Listed(m) - OrdersOf(Matching.FillsOn(m, t))
  {
    match m
    case AtL0(e) => TickedBook(e, t);
    case AtL1(v, p) =>
      PlainOrders(L1.Released(v, p, L1.UNMEASURED, t));
      TickedTier(v, p, L1.UNMEASURED, t);
  }

  lemma TickedBook(e: L0.EngineV, t: Tick)
    requires Wf(e.book)
    ensures Wf(L0.Ticked(e, t).book)
    ensures Ids(L0.Ticked(e, t).book) == Ids(e.book) - OrdersOf(Matching.Plain(L0.TickFills(e, t)))
    ensures OrdersOf(Matching.Plain(L0.TickFills(e, t))) <= Ids(e.book)
  {
    Tiers.FilledIdsOfTick(e, t);
    L0Facts.SurvivorsAreTheUnhit(e, t);
    PlainOrders(L0.TickFills(e, t));
    HitsAndSurvivors(e, t);
  }

  lemma HitsAndSurvivors(e: L0.EngineV, t: Tick)
    requires Wf(e.book)
    ensures (set o | o in Orders(e.book) && !L0.Hit(o, e.prevPrice, t) :: o.id)
         == Ids(e.book) - (set o | o in Orders(e.book) && L0.Hit(o, e.prevPrice, t) :: o.id)
  {
    forall o, p | o in Orders(e.book) && p in Orders(e.book) && o.id == p.id ensures o == p {
      var r :| r in All(e.book) && r.order == o;
      var q :| q in All(e.book) && q.order == p;
      L0.UniqueParts(e.book);
      SameName(All(e.book), r, q);
    }
    L1Facts.IdsAreOrderIds(e.book);
  }

  lemma SameName(s: seq<Resting>, r: Resting, q: Resting)
    requires UniqueIds(s) && r in s && q in s && r.order.id == q.order.id
    ensures r == q
  {
    var i :| 0 <= i < |s| && s[i] == r;
    var j :| 0 <= j < |s| && s[j] == q;
  }

  lemma TickedTier(v: L1.L1V, p: L1.Policy, m: L1.Measure, t: Tick)
    requires TidyTier(v)
    ensures var r, gone := L1.L1Ticked(v, p, m, t), Tiers.FilledIds(L1.Released(v, p, m, t));
      && TidyTier(r) && gone <= L1.HeldIds(v) + LateIds(v.delayed)
      && L1.HeldIds(r) + LateIds(r.delayed) == L1.HeldIds(v) + LateIds(v.delayed) - gone
  {
    var made, now := L1.Made(v, p, m, t), t.stamp.exch;
    L1Facts.TickedHeld(v, p, m, t);
    Conservation.TickedIds(v, p, m, t);
    MadeAreDistinct(v, p, m, t);
    if !p.response.IsZero() {
      Joined(v.delayed, p, made, now);
      DueLeaves(v.delayed + L1.Postponed(p, made, now), now);
      Delivering(L1.HeldIds(L1.L1Ticked(v, p, m, t)), Tiers.FilledIds(made), LateIds(v.delayed),
                 Tiers.FilledIds(L1.Ready(v.delayed + L1.Postponed(p, made, now), now)));
    }
  }

  /** Held ids become filled ones, and some of what was filled is delivered. */
  lemma Delivering(held: set<nat>, made: set<nat>, late: set<nat>, gone: set<nat>)
    requires held !! made && held !! late && gone <= late + made
    ensures held + (late + made - gone) == held + made + late - gone && held !! late + made - gone
  {
  }

  // ----- emptying

  /** No order waits, queues or rests in the matcher. */
  predicate HoldsNothing(m: Matching.Matcher) {
    match m
    case AtL0(e) => All(e.book) == []
    case AtL1(v, _) => v.pending == [] && v.queued == [] && All(v.inner.book) == []
  }

  /** No fill is waiting to be reported. */
  predicate Delivered(m: Matching.Matcher) {
    m.AtL1? ==> m.tier.delayed == []
  }

  lemma EmptiedTidy(m: Matching.Matcher)
    requires Tidy(m)
    ensures Tidy(Matching.Emptied(m)) && HoldsNothing(Matching.Emptied(m))
    ensures Delivered(Matching.Emptied(m)) <==> Delivered(m)
  {
    match m
    case AtL0(e) => EmptyBookFacts(e.book.nextArrival);
    case AtL1(v, _) =>
      EmptyBookFacts(v.inner.book.nextArrival);
      assert L1.HeldIds(L1.AllCancelled(v)) == {};
  }

  lemma NothingRests(b: BookV)
    ensures All(b) == [] <==> Ids(b) == {}
  {
    if All(b) != [] {
      assert All(b)[0].order.id in Ids(b);
    }
  }

  lemma NothingListed(m: Matching.Matcher)
    ensures Listed(m) == {} <==> HoldsNothing(m) && Delivered(m)
  {
    match m
    case AtL0(e) => NothingRests(e.book);
    case AtL1(v, _) =>
      NothingRests(v.inner.book);
      NothingHeld(v);
      if v.delayed != [] {
        assert v.delayed[0] in v.delayed;
        assert v.delayed[0].fill.fill.order in LateIds(v.delayed);
      }
  }

  lemma NothingHeld(v: L1.L1V)
    ensures L1.HeldIds(v) == {} <==> v.pending == [] && v.queued == [] && Ids(v.inner.book) == {}
  {
    L1Facts.IdsAreOrderIds(v.inner.book);
    if v.pending != [] {
      assert v.pending[0].order in L1.Held(v);
      assert v.pending[0].order.id in L1.HeldIds(v);
    } else if v.queued != [] {
      assert v.queued[0].order in L1.Held(v);
      assert v.queued[0].order.id in L1.HeldIds(v);
    } else if Ids(v.inner.book) != {} {
      var n :| n in Ids(v.inner.book);
      var o :| o in Orders(v.inner.book) && o.id == n;
      assert o in L1.Held(v);
      assert n in L1.HeldIds(v);
    } else {
      assert forall o :: o in L1.Held(v) ==> o in Orders(v.inner.book);
    }
  }
}
