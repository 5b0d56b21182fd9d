/** How long an order is on its way, and what it waits behind when it arrives, at L1
    (crates/oq-engine/src/l1.rs). */
module Waiting {
  import opened Numbers
  import opened Market
  import opened RestingBook
  import opened L1
  import opened L1Facts
  import opened Tiers
  import opened Conservation
  import CashRules
  import QueueHonesty

  // ----- what is assumed

  /** The four measured delays and the draws in a thousand below which each is taken. */
  function Quantile(d: Delay, i: nat): (int, nat)
    requires d.Measured? && i < 4
  {
    [(d.p50, 500), (d.p90, 900), (d.p99, 990), (d.p999, 1000)][i]
  }

  /** A measured delay is the first of the four whose share of a thousand the draw is under. */
  lemma DrawnDelay(d: Delay, u: nat) returns (i: nat)
    ensures d.Fixed? ==> d.At(u) == d.nanos
    ensures d.Measured? ==>
      i < 4 && d.At(u) == Quantile(d, i).0 && u % 1000 < Quantile(d, i).1
      && forall j :: 0 <= j < i ==> u % 1000 >= Quantile(d, j).1
  {
    i := if u % 1000 < 500 then 0 else if u % 1000 < 900 then 1 else if u % 1000 < 990 then 2 else 3;
  }

  predicate NoDelay(d: Delay) {
    d == Fixed(0) || d == Measured(0, 0, 0, 0)
  }

  /** The lots an order starts behind: none at market, else what was measured, never below none, else what is
      assumed of the volume its arrival saw. */
  predicate Behind(n: int, p: Policy, order: Order, volume: Option<int>, ahead: Option<int>) {
    if order.price.None? then n == 0
    else if ahead.Some? then n == ahead.value >= 0 || n == 0 >= ahead.value
    else match p.queue
      case NoQueue => n == 0
      case FixedLots(lots) => n == lots
      case VolumeMultiple(hundredths) => CashRules.Quotient(n, hundredths * (match volume case Some(lots) => lots case None => 0), 100)
  }

  lemma AheadIsBehind(p: Policy, order: Order, volume: Option<int>, ahead: Option<int>)
    ensures Behind(AheadOf(p, order, volume, ahead), p, order, volume, ahead)
  {
    if p.queue.VolumeMultiple? {
      CashRules.TruncDivIsQuotient(p.queue.hundredths * (match volume case Some(lots) => lots case None => 0), 100);
    }
  }

  /** The volume the last interval between observations saw, by the operations alone. */
  function LastRise(ops: seq<Op>): Option<int> {
    if ops == [] then None
    else
      var front, op := ops[..|ops| - 1], ops[|ops| - 1];
      if op.TickOp? && QueueHonesty.LastVolume(front).Some?
      then Some(Max(Clamp64(op.tick.volume - QueueHonesty.LastVolume(front).value), 0)) else LastRise(front)
  }

  lemma {:induction false} LastTradedIs(instrument: nat, p: Policy, ops: seq<Op>)
    ensures L1After(instrument, p, ops).lastTraded == LastRise(ops)
    decreases |ops|
  {
    if ops != [] {
      LastTradedIs(instrument, p, ops[..|ops| - 1]);
      QueueHonesty.PreviousIsLast(instrument, p, ops[..|ops| - 1]);
    }
  }

  // ----- admission

  /** The order stands behind `n` lots, or in the book when there are none; nothing else moves. */
  ghost predicate Enters(v: L1V, w: L1V, order: Order, n: int, since: Option<int>) {
    && w.pending == v.pending
    && w.queued == (if n > 0 then v.queued + [Queued(order, n, since)] else v.queued)
    && Orders(w.inner.book) == Orders(v.inner.book) + if n > 0 then {} else {order}
  }

  lemma AdmittedEnters(v: L1V, p: Policy, order: Order, volume: Option<int>, ahead: Option<int>, since: Option<int>) returns (n: int)
    requires WfL1(v) && order.id !in HeldIds(v)
    ensures Behind(n, p, order, volume, ahead)
    ensures Enters(v, Admitted(v, p, order, volume, ahead, since), order, n, if ahead.Some? then since else None)
  {
    n := AheadOf(p, order, volume, ahead);
    AheadIsBehind(p, order, volume, ahead);
    if n <= 0 {
      FreshOrder(v, order);
      InsertedWf(v.inner.book, order);
    }
  }

  /** A submitted order is on its way for the delay drawn for it, or, without one, enters at once behind what the last
      interval's volume implies. A measured order is delayed by its own draw, any other by the policy having a delay
      at all. */
  lemma SubmittedWaits(v: L1V, p: Policy, order: Order, now: int, ahead: Option<int>, sample: bool) returns (n: int)
    requires WfL1(v) && order.id !in HeldIds(v)
    ensures var w, d := Submitted(v, p, order, now, ahead, sample), p.entry.At(p.draw(order.id));
      if (if sample then d > 0 else !NoDelay(p.entry))
      then
        && w.queued == v.queued && w.inner == v.inner && |w.pending| == |v.pending| + 1 && w.pending[..|v.pending|] == v.pending
        && var x := w.pending[|v.pending|];
           x.order == order && x.ahead == ahead && x.liveAt == Clamp64(now + d)
           && x.since == if sample then Some(x.liveAt) else None
      else Behind(n, p, order, v.lastTraded, ahead)
           && Enters(v, w, order, n, if ahead.Some? && sample then Some(now) else None)
  {
    n := AdmittedEnters(v, p, order, v.lastTraded, ahead, if sample then Some(now) else None);
  }

  // ----- on its way

  ghost predicate Reached(ops: seq<Op>, k: nat, live: int) {
    exists i :: k <= i < |ops| && ops[i].TickOp? && ops[i].tick.stamp.exch >= live
  }

  predicate ReachedBy(op: Op, live: int) {
    op.TickOp? && op.tick.stamp.exch >= live
  }

  lemma ReachedMore(ops: seq<Op>, op: Op, k: nat, live: int)
    requires k <= |ops|
    ensures Reached(ops + [op], k, live) <==> Reached(ops, k, live) || ReachedBy(op, live)
  {
    var all := ops + [op];
    if i :| k <= i < |ops| && ops[i].TickOp? && ops[i].tick.stamp.exch >= live {
      assert all[i] == ops[i];
    }
    assert all[|ops|] == op;
    if i :| k <= i < |all| && all[i].TickOp? && all[i].tick.stamp.exch >= live {
      if i < |ops| { assert ops[i] == all[i]; }
    }
  }

  /** One operation takes a pending order on exactly when it is an observation at or after the order's time. */
  lemma PendingStep(v: L1V, p: Policy, op: Op, x: Pending)
    requires WfL1(v) && x in v.pending && !QueueHonesty.Withdraws(op, x.order.id)
    requires op.SubmitOp? ==> op.order.id !in HeldIds(v)
    ensures x in L1Step(v, p, op).pending <==> !ReachedBy(op, x.liveAt)
    ensures ReachedBy(op, x.liveAt) ==> x.order.id !in PendingIds(L1Step(v, p, op))
  {
    match op
    case SubmitOp(_, _, _, _) =>
    case CancelOp(id) => PendingWithoutFacts(v.pending, id);
    case CancelAllOp =>
    case TickOp(t, m) =>
      var now := t.stamp.exch;
      AdmittedAllKeeps(v.(pending := InFlight(v.pending, now)), p, Arriving(v.pending, now), Traded(v.prevVolume, t));
      ArrivalsSplit(v.pending, now);
      forall y | y in InFlight(v.pending, now) && y != x ensures y.order.id != x.order.id {
        DistinctOrders(v.pending, y, x);
      }
  }

  lemma StaysArrived(v: L1V, p: Policy, op: Op, id: nat)
    requires id !in PendingIds(v) && (op.SubmitOp? ==> op.order.id != id)
    ensures id !in PendingIds(L1Step(v, p, op))
  {
    match op
    case SubmitOp(_, _, _, _) =>
    case CancelOp(n) => PendingWithoutFacts(v.pending, n);
    case CancelAllOp =>
    case TickOp(t, m) =>
      var now := t.stamp.exch;
      AdmittedAllKeeps(v.(pending := InFlight(v.pending, now)), p, Arriving(v.pending, now), Traded(v.prevVolume, t));
      ArrivalsSplit(v.pending, now);
  }

  /** Pending after the operations, or not, as it should be. */
  ghost predicate OnItsWay(v: L1V, x: Pending, reached: bool) {
    if reached then x.order.id !in PendingIds(v) else x in v.pending
  }

  lemma OnItsWayStep(v: L1V, p: Policy, op: Op, x: Pending, reached: bool)
    requires WfL1(v) && OnItsWay(v, x, reached) && !QueueHonesty.Withdraws(op, x.order.id)
    requires op.SubmitOp? ==> op.order.id !in HeldIds(v) && op.order.id != x.order.id
    ensures OnItsWay(L1Step(v, p, op), x, reached || ReachedBy(op, x.liveAt))
  {
    if reached {
      StaysArrived(v, p, op, x.order.id);
    } else {
      PendingStep(v, p, op, x);
    }
  }

  lemma {:induction false} WaitsUntil(instrument: nat, p: Policy, ops: seq<Op>, k: nat, x: Pending)
    requires FreshIds(ops) && k <= |ops| && x in L1After(instrument, p, ops[..k]).pending
    requires forall i :: k <= i < |ops| ==> !QueueHonesty.Withdraws(ops[i], x.order.id)
    ensures OnItsWay(L1After(instrument, p, ops), x, Reached(ops, k, x.liveAt))
    decreases |ops|
  {
    if |ops| == k {
      assert ops[..k] == ops;
    } else {
      var front, op := ops[..|ops| - 1], ops[|ops| - 1];
      assert front[..k] == ops[..k] && ops == front + [op];
      FreshLast(ops);
      WaitsUntil(instrument, p, front, k, x);
      QueueHonesty.RunWf(instrument, p, front);
      PendingSubmitted(instrument, p, front, k, x);
      OnItsWayStep(L1After(instrument, p, front), p, op, x, Reached(front, k, x.liveAt));
      ReachedMore(front, op, k, x.liveAt);
    }
  }

  lemma SubmittedFront(ops: seq<Op>, k: nat)
    requires k <= |ops|
    ensures SubmittedIds(ops[..k]) <= SubmittedIds(ops)
  {
    forall op | op in ops[..k] ensures op in ops {
      var i :| 0 <= i < k && ops[..k][i] == op;
    }
  }

  lemma PendingSubmitted(instrument: nat, p: Policy, ops: seq<Op>, k: nat, x: Pending)
    requires FreshIds(ops) && k <= |ops| && x in L1After(instrument, p, ops[..k]).pending
    ensures x.order.id in SubmittedIds(ops)
  {
    FreshFront(ops, k);
    QueueHonesty.RunWf(instrument, p, ops[..k]);
    assert x.order in Held(L1After(instrument, p, ops[..k]));
    SubmittedFront(ops, k);
  }

  /** Entry latency is honoured over a run: a delayed order that is not withdrawn is on its way, in no queue, not in the
      book and not filled, until the first observation at or after its time, and not on its way from then on. */
  lemma EntryIsHonoured(instrument: nat, p: Policy, ops: seq<Op>, k: nat)
    requires FreshIds(ops) && k < |ops| && ops[k].SubmitOp?
    requires if ops[k].sampleAtArrival then p.entry.At(p.draw(ops[k].order.id)) > 0 else !NoDelay(p.entry)
    requires forall i :: k < i < |ops| ==> !QueueHonesty.Withdraws(ops[i], ops[k].order.id)
    ensures var v, id, live := L1After(instrument, p, ops), ops[k].order.id, Clamp64(ops[k].now + p.entry.At(p.draw(ops[k].order.id)));
      && (id in PendingIds(v) <==> !Reached(ops, k + 1, live))
      && (!Reached(ops, k + 1, live) ==> id !in QueuedIds(v) && id !in Ids(v.inner.book) && id !in FilledIds(AllMade(instrument, p, ops)))
  {
    var front, op := ops[..k], ops[k];
    assert ops[..k + 1] == front + [op] && (front + [op])[..k] == front;
    FreshFront(ops, k + 1);
    FreshLast(front + [op]);
    QueueHonesty.RunWf(instrument, p, front);
    var u := L1After(instrument, p, front);
    var w := L1After(instrument, p, ops[..k + 1]);
    var n := SubmittedWaits(u, p, op.order, op.now, op.ahead, op.sampleAtArrival);
    var x := w.pending[|u.pending|];
    WaitsUntil(instrument, p, ops, k + 1, x);
    EveryOrderInOnePlace(instrument, p, ops);
  }

  lemma FreshFront(ops: seq<Op>, n: nat)
    requires FreshIds(ops) && n <= |ops|
    ensures FreshIds(ops[..n])
  {
  }

  // ----- its arrival

  lemma {:induction false} AdmissionKeepsBook(v: L1V, p: Policy, s: seq<Pending>, traded: int, o: Order)
    requires WfL1(v) && DistinctPending(s) && (forall x :: x in s ==> x.order.id !in HeldIds(v)) && o in Orders(v.inner.book)
    ensures o in Orders(AdmittedAll(v, p, s, traded).inner.book)
    decreases |s|
  {
    if s != [] {
      var x := s[0];
      TailFresh(s, HeldIds(v));
      AdmittedHeld(v, p, x.order, Some(traded), x.ahead, x.since);
      var n := AdmittedEnters(v, p, x.order, Some(traded), x.ahead, x.since);
      AdmissionKeepsBook(Admitted(v, p, x.order, Some(traded), x.ahead, x.since), p, s[1..], traded, o);
    }
  }

  lemma {:induction false} AdmissionEnters(v: L1V, p: Policy, s: seq<Pending>, traded: int, x: Pending) returns (n: int)
    requires WfL1(v) && DistinctPending(s) && (forall x :: x in s ==> x.order.id !in HeldIds(v)) && x in s
    ensures Behind(n, p, x.order, Some(traded), x.ahead)
    ensures var w := AdmittedAll(v, p, s, traded);
      if n > 0 then Queued(x.order, n, if x.ahead.Some? then x.since else None) in w.queued else x.order in Orders(w.inner.book)
    decreases |s|
  {
    TailFresh(s, HeldIds(v));
    var y := s[0];
    var w := Admitted(v, p, y.order, Some(traded), y.ahead, y.since);
    AdmittedHeld(v, p, y.order, Some(traded), y.ahead, y.since);
    n := AdmittedEnters(v, p, y.order, Some(traded), y.ahead, y.since);
    if y == x {
      QueueHonesty.AdmissionKeepsQueues(w, p, s[1..], traded);
      if n > 0 {
        assert w.queued[|v.queued|] == Queued(x.order, n, if x.ahead.Some? then x.since else None);
      } else {
        AdmissionKeepsBook(w, p, s[1..], traded, x.order);
      }
    } else {
      n := AdmissionEnters(w, p, s[1..], traded, x);
    }
  }

  /** At the first observation that reaches it an order enters the venue: behind what this interval's volume implies, or
      in the book, before anything is matched. */
  lemma ArrivalEnters(v: L1V, p: Policy, t: Tick, x: Pending) returns (n: int)
    requires WfL1(v) && x in v.pending && x.liveAt <= t.stamp.exch
    ensures Behind(n, p, x.order, Some(Traded(v.prevVolume, t)), x.ahead)
    ensures var w := AfterArrivals(v, p, t);
      if n > 0 then Queued(x.order, n, if x.ahead.Some? then x.since else None) in w.queued else x.order in Orders(w.inner.book)
  {
    var now := t.stamp.exch;
    ArrivalsSplit(v.pending, now);
    var a, b := Arriving(v.pending, now), InFlight(v.pending, now);
    var w := v.(pending := b);
    assert WfL1(w);
    forall y | y in a ensures y.order.id !in HeldIds(w) {
      forall z | z in b ensures z.order.id != y.order.id { DistinctOrders(v.pending, y, z); }
    }
    n := AdmissionEnters(w, p, a, Traded(v.prevVolume, t), x);
  }

  // ----- delivery

  /** The places of the held fills that are known by now, in order and all of them. */
  ghost predicate Delivers(ds: seq<Delayed>, fs: seq<L0Fill>, at: seq<nat>, now: int) {
    && |at| == |fs| && Ascending(at)
    && (forall i :: 0 <= i < |at| ==> at[i] < |ds| && ds[at[i]].knownAt <= now && fs[i] == ds[at[i]].fill)
    && (forall n: nat :: n < |ds| && ds[n].knownAt <= now ==> n in at)
  }

  lemma {:induction false} ReadyLast(ds: seq<Delayed>, d: Delayed, now: int)
    ensures Ready(ds + [d], now) == if d.knownAt <= now then Ready(ds, now) + [d.fill] else Ready(ds, now)
  {
    if ds == [] {
      assert [] + [d] == [d] && [d][1..] == [];
    } else {
      ReadyLast(ds[1..], d, now);
      assert (ds + [d])[1..] == ds[1..] + [d];
    }
  }

  lemma OneMoreKnown(ds: seq<Delayed>, fs: seq<L0Fill>, at: seq<nat>, d: Delayed, now: int)
    requires Delivers(ds, fs, at, now) && d.knownAt <= now
    ensures Delivers(ds + [d], fs + [d.fill], at + [|ds|], now)
  {
    var all, r := ds + [d], at + [|ds|];
    forall n: nat | n < |all| && all[n].knownAt <= now ensures n in r {
      if n < |ds| {
        assert n in at;
      } else {
        assert r[|at|] == n;
      }
    }
  }

  lemma OneMoreHeld(ds: seq<Delayed>, fs: seq<L0Fill>, at: seq<nat>, d: Delayed, now: int)
    requires Delivers(ds, fs, at, now) && d.knownAt > now
    ensures Delivers(ds + [d], fs, at, now)
  {
  }

  /** Fills are delivered in the order they were made, those known by now and no others. */
  lemma {:induction false} DeliveredInOrder(ds: seq<Delayed>, now: int) returns (at: seq<nat>)
    ensures Delivers(ds, Ready(ds, now), at, now)
  {
    if ds == [] {
      at := [];
    } else {
      var front, d := ds[..|ds| - 1], ds[|ds| - 1];
      at := DeliveredInOrder(front, now);
      assert front + [d] == ds;
      ReadyLast(front, d, now);
      if d.knownAt <= now {
        OneMoreKnown(front, Ready(front, now), at, d, now);
        at := at + [|front|];
      } else {
        OneMoreHeld(front, Ready(front, now), at, d, now);
      }
    }
  }

  /** An observation delivers, in the order made, the held-back and the new fills that are known by then, each new one
      known after the delay drawn for its order; with no response delay it delivers what it made. */
  lemma ReleasedInOrder(v: L1V, p: Policy, m: Measure, t: Tick) returns (ds: seq<Delayed>, at: seq<nat>)
    ensures NoDelay(p.response) ==> Released(v, p, m, t) == Made(v, p, m, t)
    ensures !NoDelay(p.response) ==>
      && |ds| == |v.delayed| + |Made(v, p, m, t)| && ds[..|v.delayed|] == v.delayed
      && (forall i :: 0 <= i < |Made(v, p, m, t)| ==>
            var f := Made(v, p, m, t)[i];
            ds[|v.delayed| + i] == Delayed(t.stamp.exch + p.response.At(p.draw(f.fill.order)), f))
      && Delivers(ds, Released(v, p, m, t), at, t.stamp.exch)
  {
    ds := v.delayed + Postponed(p, Made(v, p, m, t), t.stamp.exch);
    at := DeliveredInOrder(ds, t.stamp.exch);
  }
}
