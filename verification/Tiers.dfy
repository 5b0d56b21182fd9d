/** One list of operations given to L0 and to L1 under any policy, and the coupling of the two states
    that shows which tier fills an order first (crates/oq-engine/src/l1.rs). */
module Tiers {
  import opened Numbers
  import opened Market
  import opened RestingBook
  import opened L0
  import opened L0Engine
  import opened L0Facts
  import opened L1
  import opened L1Facts

  datatype Op =
    | SubmitOp(order: Order, now: int, ahead: Option<int>, sampleAtArrival: bool)
    | CancelOp(id: nat)
    | CancelAllOp
    | TickOp(tick: Tick, measure: Measure)

  // ----- the two runs

  function L0Step(e: EngineV, op: Op): EngineV {
    match op
    case SubmitOp(o, _, _, _) => e.(book := Inserted(e.book, o))
    case CancelOp(id) => e.(book := Removed(e.book, id))
    case CancelAllOp => e.(book := BookV([], [], [], [], e.book.nextArrival))
    case TickOp(t, _) => Ticked(e, t)
  }

  function L0Fills(e: EngineV, op: Op): seq<L0Fill> {
    if op.TickOp? then TickFills(e, op.tick) else []
  }

  function L1Step(v: L1V, p: Policy, op: Op): L1V {
    match op
    case SubmitOp(o, now, ahead, sample) => Submitted(v, p, o, now, ahead, sample)
    case CancelOp(id) => Cancelled(v, id)
    case CancelAllOp => AllCancelled(v)
    case TickOp(t, m) => L1Ticked(v, p, m, t)
  }

  /** What the venue made in this step, and what the strategy was told. */
  function L1Made(v: L1V, p: Policy, op: Op): seq<L0Fill> {
    if op.TickOp? then Made(v, p, op.measure, op.tick) else []
  }

  function L1Released(v: L1V, p: Policy, op: Op): seq<L0Fill> {
    if op.TickOp? then Released(v, p, op.measure, op.tick) else []
  }

  function L0After(instrument: nat, ops: seq<Op>): EngineV {
    if ops == [] then NewEngine(instrument)
    else L0Step(L0After(instrument, ops[..|ops| - 1]), ops[|ops| - 1])
  }

  function L1After(instrument: nat, p: Policy, ops: seq<Op>): L1V {
    if ops == [] then NewL1(instrument)
    else L1Step(L1After(instrument, p, ops[..|ops| - 1]), p, ops[|ops| - 1])
  }

  function AllL0Fills(instrument: nat, ops: seq<Op>): seq<L0Fill> {
    if ops == [] then []
    else AllL0Fills(instrument, ops[..|ops| - 1]) + L0Fills(L0After(instrument, ops[..|ops| - 1]), ops[|ops| - 1])
  }

  function AllMade(instrument: nat, p: Policy, ops: seq<Op>): seq<L0Fill> {
    if ops == [] then []
    else AllMade(instrument, p, ops[..|ops| - 1]) + L1Made(L1After(instrument, p, ops[..|ops| - 1]), p, ops[|ops| - 1])
  }

  function AllReleased(instrument: nat, p: Policy, ops: seq<Op>): seq<L0Fill> {
    if ops == [] then []
    else AllReleased(instrument, p, ops[..|ops| - 1]) + L1Released(L1After(instrument, p, ops[..|ops| - 1]), p, ops[|ops| - 1])
  }

  ghost function FilledIds(fs: seq<L0Fill>): set<nat> {
    set f | f in fs :: f.fill.order
  }

  ghost function SubmittedIds(ops: seq<Op>): set<nat> {
    set op | op in ops && op.SubmitOp? :: op.order.id
  }

  /** No order id is submitted twice. */
  ghost predicate FreshIds(ops: seq<Op>) {
    forall i, j :: 0 <= i < j < |ops| && ops[i].SubmitOp? && ops[j].SubmitOp? ==> ops[i].order.id != ops[j].order.id
  }

  lemma FreshLast(ops: seq<Op>)
    requires FreshIds(ops) && ops != []
    ensures FreshIds(ops[..|ops| - 1])
    ensures ops[|ops| - 1].SubmitOp? ==> ops[|ops| - 1].order.id !in SubmittedIds(ops[..|ops| - 1])
    ensures SubmittedIds(ops) == SubmittedIds(ops[..|ops| - 1]) +
      if ops[|ops| - 1].SubmitOp? then {ops[|ops| - 1].order.id} else {}
  {
    var n := |ops| - 1;
    assert ops == ops[..n] + [ops[n]];
    forall op | op in ops[..n] && op.SubmitOp? && ops[n].SubmitOp? ensures op.order.id != ops[n].order.id {
      var i :| 0 <= i < n && ops[i] == op;
    }
  }

  // ----- what one tick fills, by id

  lemma FilledIdsOfTick(e: EngineV, t: Tick)
    requires Wf(e.book)
    ensures FilledIds(TickFills(e, t)) == set o | o in Orders(e.book) && Hit(o, e.prevPrice, t) :: o.id
  {
    var fs := TickFills(e, t);
    forall n | n in FilledIds(fs) ensures exists o :: o in Orders(e.book) && Hit(o, e.prevPrice, t) && o.id == n {
      var f :| f in fs && f.fill.order == n;
      var i :| 0 <= i < |fs| && fs[i] == f;
      var o := EveryFillIsAHit(e, t, i);
    }
    forall o | o in Orders(e.book) && Hit(o, e.prevPrice, t) ensures o.id in FilledIds(fs) {
      var i := EveryHitIsFilled(e, t, o);
      assert fs[i] in fs;
    }
  }

  lemma AdjustKeepsIds(p: Policy, m: Measure, fs: seq<L0Fill>, t: Tick, traded: int)
    ensures FilledIds(AdjustedAll(p, m, fs, t, traded)) == FilledIds(fs)
  {
    var gs := AdjustedAll(p, m, fs, t, traded);
    forall n | n in FilledIds(fs) ensures n in FilledIds(gs) {
      var f :| f in fs && f.fill.order == n;
      var i :| 0 <= i < |fs| && fs[i] == f;
      assert gs[i] in gs && gs[i].fill.order == n;
    }
    forall n | n in FilledIds(gs) ensures n in FilledIds(fs) {
      var g :| g in gs && g.fill.order == n;
      var i :| 0 <= i < |gs| && gs[i] == g;
      assert fs[i] in fs && fs[i].fill.order == n;
    }
  }

  lemma MadeIds(v: L1V, p: Policy, m: Measure, t: Tick)
    requires WfL1(v)
    ensures FilledIds(Made(v, p, m, t)) ==
      set o | o in Orders(BeforeMatch(v, p, t).inner.book) && Hit(o, v.inner.prevPrice, t) :: o.id
  {
    BeforeMatchHeld(v, p, t);
    BeforeMatchKeeps(v, p, t);
    FilledIdsOfTick(BeforeMatch(v, p, t).inner, t);
    AdjustKeepsIds(p, m, TickFills(BeforeMatch(v, p, t).inner, t), t, Traded(v.prevVolume, t));
  }

  lemma FilledIdsAppend(a: seq<L0Fill>, b: seq<L0Fill>)
    ensures FilledIds(a + b) == FilledIds(a) + FilledIds(b)
  {
  }

  // ----- refinement

  /** The coupling of the two runs. `done0` and `done1` are the ids each tier has filled. */
  ghost predicate Coupled(e: EngineV, v: L1V, done0: set<nat>, done1: set<nat>, seen: set<nat>) {
    && Wf(e.book) && WfL1(v)
    && e.prevPrice == v.inner.prevPrice
    && Orders(e.book) <= Held(v)
    && (forall o :: o in Held(v) && o !in Orders(e.book) ==> o.id in done0)
    && done1 <= done0
    && (forall o :: o in Held(v) ==> o.id in seen)
  }

  lemma HeldUnique(v: L1V, a: Order, b: Order)
    requires WfL1(v) && a in Held(v) && b in Held(v) && a.id == b.id
    ensures a == b
  {
    if a in Orders(v.inner.book) && b in Orders(v.inner.book) {
      var r :| r in All(v.inner.book) && r.order == a;
      var s :| s in All(v.inner.book) && s.order == b;
      var i :| 0 <= i < |All(v.inner.book)| && All(v.inner.book)[i] == r;
      var j :| 0 <= j < |All(v.inner.book)| && All(v.inner.book)[j] == s;
      UniqueIndexSame(All(v.inner.book), i, j);
    } else if a in PendingOrders(v.pending) && b in PendingOrders(v.pending) {
      var x :| x in v.pending && x.order == a;
      var y :| y in v.pending && y.order == b;
      if x != y { DistinctOrders(v.pending, x, y); }
    } else if a in QueuedOrders(v.queued) && b in QueuedOrders(v.queued) {
      var x :| x in v.queued && x.order == a;
      var y :| y in v.queued && y.order == b;
      var i :| 0 <= i < |v.queued| && v.queued[i] == x;
      var j :| 0 <= j < |v.queued| && v.queued[j] == y;
      QueuedIndexSame(v.queued, i, j);
    }
  }

  lemma QueuedIndexSame(s: seq<Queued>, i: nat, j: nat)
    requires DistinctQueued(s) && i < |s| && j < |s| && s[i].order.id == s[j].order.id
    ensures i == j
  {
  }

  lemma CoupledSubmit(e: EngineV, v: L1V, p: Policy, op: Op, done0: set<nat>, done1: set<nat>, seen: set<nat>)
    requires Coupled(e, v, done0, done1, seen) && op.SubmitOp? && op.order.id !in seen
    ensures Coupled(L0Step(e, op), L1Step(v, p, op), done0, done1, seen + {op.order.id})
  {
    var o := op.order;
    assert o.id !in HeldIds(v);
    SubmittedHeld(v, p, o, op.now, op.ahead, op.sampleAtArrival);
    IdsAreOrderIds(e.book);
    InsertedWf(e.book, o);
    SubmitKeepsPath(v, p, op);
  }

  lemma SubmitKeepsPath(v: L1V, p: Policy, op: Op)
    requires op.SubmitOp?
    ensures L1Step(v, p, op).inner.prevPrice == v.inner.prevPrice
  {
  }

  lemma CoupledCancel(e: EngineV, v: L1V, p: Policy, op: Op, done0: set<nat>, done1: set<nat>, seen: set<nat>)
    requires Coupled(e, v, done0, done1, seen) && (op.CancelOp? || op.CancelAllOp?)
    ensures Coupled(L0Step(e, op), L1Step(v, p, op), done0, done1, seen)
  {
    if op.CancelOp? {
      CancelledHeld(v, op.id);
      RemovedWf(e.book, op.id);
    } else {
      EmptyBookFacts(e.book.nextArrival);
      EmptyBookFacts(v.inner.book.nextArrival);
    }
  }

  /** Where orders go when a tick hits some: `orders` are L0's, `held` are L1's and `booked` those
      of them in its book. */
  lemma HitsStayCoupled(orders: set<Order>, held: set<Order>, booked: set<Order>, prev: Option<int>, t: Tick,
                        done0: set<nat>, done1: set<nat>)
    requires orders <= held && booked <= held && done1 <= done0
    requires forall o :: o in held && o !in orders ==> o.id in done0
    ensures var rest0, rest1 := set o | o in orders && !Hit(o, prev, t), set o | o in held && !(o in booked && Hit(o, prev, t));
      var gone0, gone1 := set o | o in orders && Hit(o, prev, t) :: o.id, set o | o in booked && Hit(o, prev, t) :: o.id;
      && rest0 <= rest1 && done1 + gone1 <= done0 + gone0
      && forall o :: o in rest1 && o !in rest0 ==> o.id in done0 + gone0
  {
  }

  lemma BookedAreHeld(v: L1V, p: Policy, t: Tick)
    requires WfL1(v)
    ensures Orders(BeforeMatch(v, p, t).inner.book) <= Held(v)
  {
    BeforeMatchHeld(v, p, t);
  }

  /** Two states that differ by the hits are coupled again. */
  lemma CoupledByHits(e: EngineV, v: L1V, e': EngineV, v': L1V, booked: set<Order>, t: Tick,
                      made0: set<nat>, made1: set<nat>, done0: set<nat>, done1: set<nat>, seen: set<nat>)
    requires Coupled(e, v, done0, done1, seen) && booked <= Held(v)
    requires Wf(e'.book) && WfL1(v') && e'.prevPrice == v'.inner.prevPrice
    requires Orders(e'.book) == set o | o in Orders(e.book) && !Hit(o, e.prevPrice, t)
    requires Held(v') == set o | o in Held(v) && !(o in booked && Hit(o, e.prevPrice, t))
    requires made0 == set o | o in Orders(e.book) && Hit(o, e.prevPrice, t) :: o.id
    requires made1 == set o | o in booked && Hit(o, e.prevPrice, t) :: o.id
    ensures Coupled(e', v', done0 + made0, done1 + made1, seen)
  {
    HitsStayCoupled(Orders(e.book), Held(v), booked, e.prevPrice, t, done0, done1);
  }

  lemma SamePathAfter(e: EngineV, v: L1V, p: Policy, op: Op)
    requires op.TickOp?
    ensures L0Step(e, op).prevPrice == L1Step(v, p, op).inner.prevPrice
    ensures L0Step(e, op) == Ticked(e, op.tick) && L0Fills(e, op) == TickFills(e, op.tick)
    ensures L1Step(v, p, op) == L1Ticked(v, p, op.measure, op.tick) && L1Made(v, p, op) == Made(v, p, op.measure, op.tick)
  {
  }

  lemma CoupledTick(e: EngineV, v: L1V, p: Policy, op: Op, done0: set<nat>, done1: set<nat>, seen: set<nat>)
    requires Coupled(e, v, done0, done1, seen) && op.TickOp?
    ensures Coupled(L0Step(e, op), L1Step(v, p, op),
                    done0 + FilledIds(L0Fills(e, op)), done1 + FilledIds(L1Made(v, p, op)), seen)
  {
    var t, m := op.tick, op.measure;
    TickedHeld(v, p, m, t);
    SurvivorsAreTheUnhit(e, t);
    FilledIdsOfTick(e, t);
    MadeIds(v, p, m, t);
    BookedAreHeld(v, p, t);
    SamePathAfter(e, v, p, op);
    CoupledByHits(e, v, L0Step(e, op), L1Step(v, p, op), Orders(BeforeMatch(v, p, t).inner.book), t,
                  FilledIds(L0Fills(e, op)), FilledIds(L1Made(v, p, op)), done0, done1, seen);
  }

  lemma {:induction false} RunsCoupled(instrument: nat, p: Policy, ops: seq<Op>)
    requires FreshIds(ops)
    ensures Coupled(L0After(instrument, ops), L1After(instrument, p, ops),
                    FilledIds(AllL0Fills(instrument, ops)), FilledIds(AllMade(instrument, p, ops)), SubmittedIds(ops))
    decreases |ops|
  {
    if ops == [] {
      EmptyBookFacts(0);
    } else {
      var n := |ops| - 1;
      var prefix, op := ops[..n], ops[n];
      FreshLast(ops);
      RunsCoupled(instrument, p, prefix);
      var e, v := L0After(instrument, prefix), L1After(instrument, p, prefix);
      var done0, done1 := AllL0Fills(instrument, prefix), AllMade(instrument, p, prefix);
      FilledIdsAppend(done0, L0Fills(e, op));
      FilledIdsAppend(done1, L1Made(v, p, op));
      match op
      case SubmitOp(_, _, _, _) => CoupledSubmit(e, v, p, op, FilledIds(done0), FilledIds(done1), SubmittedIds(prefix));
      case CancelOp(_) => CoupledCancel(e, v, p, op, FilledIds(done0), FilledIds(done1), SubmittedIds(prefix));
      case CancelAllOp => CoupledCancel(e, v, p, op, FilledIds(done0), FilledIds(done1), SubmittedIds(prefix));
      case TickOp(_, _) => CoupledTick(e, v, p, op, FilledIds(done0), FilledIds(done1), SubmittedIds(prefix));
    }
  }

  /** Whatever still rests in L0 is still held by L1, so at every point of the run L1 has
      filled only orders L0 has already filled: climbing a tier never fills sooner. */
  lemma L1NeverFillsFirst(instrument: nat, p: Policy, ops: seq<Op>)
    requires FreshIds(ops)
    ensures Orders(L0After(instrument, ops).book) <= Held(L1After(instrument, p, ops))
    ensures FilledIds(AllMade(instrument, p, ops)) <= FilledIds(AllL0Fills(instrument, ops))
  {
    RunsCoupled(instrument, p, ops);
  }
}
