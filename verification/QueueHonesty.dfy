/** A queued order waits for exactly the volume that was assumed ahead of it
    (crates/oq-engine/src/l1.rs). */
module QueueHonesty {
  import opened Folding
  import opened Numbers
  import opened Market
  import opened RestingBook
  import opened L1
  import opened L1Facts
  import opened Tiers
  import opened Conservation

  // ----- what a run says about an order's price, from its operations alone

  /** Cumulative volume at the last observation. */
  function LastVolume(ops: seq<Op>): Option<int> {
    if ops == [] then None
    else if ops[|ops| - 1].TickOp? then Some(ops[|ops| - 1].tick.volume)
    else LastVolume(ops[..|ops| - 1])
  }

  /** The time of the last observation. */
  function LastAt(ops: seq<Op>): Option<int> {
    if ops == [] then None
    else if ops[|ops| - 1].TickOp? then Some(ops[|ops| - 1].tick.stamp.exch)
    else LastAt(ops[..|ops| - 1])
  }

  /** An observation counts for a queue measured at an instant when the one before it was not
      earlier than that instant, so that all it reports traded after the measurement. */
  predicate Counts(since: Option<int>, last: Option<int>) {
    since.None? || (last.Some? && last.value >= since.value)
  }

  /** The observation's range takes in the price. */
  predicate TradesAt(t: Tick, price: int) {
    t.low <= price && price <= t.high
  }

  /** The observation has a range and all of it is better for the other side than the price. */
  predicate PassesBy(t: Tick, side: Side, price: int) {
    (t.high != 0 || t.low != 0) && match side case Buy => price > t.high case Sell => price < t.low
  }

  /** Lots traded since the last observation; none when the figure fell. */
  function Rise(last: Option<int>, t: Tick): int {
    if last.None? || t.volume <= last.value then 0 else Clamp64(t.volume - last.value)
  }

  /** Volume that traded at the price in the observations that count, from operation `k` on. */
  function VolumeAt(since: Option<int>, price: int, ops: seq<Op>, k: nat): int {
    if |ops| <= k then 0
    else
      var n := |ops| - 1;
      VolumeAt(since, price, ops[..n], k) +
      if ops[n].TickOp? && Counts(since, LastAt(ops[..n])) && TradesAt(ops[n].tick, price)
      then Rise(LastVolume(ops[..n]), ops[n].tick) else 0
  }

  /** Some observation that counts, from operation `k` on, went clean through the price. */
  predicate GappedSince(since: Option<int>, side: Side, price: int, ops: seq<Op>, k: nat) {
    |ops| > k &&
    var n := |ops| - 1;
    GappedSince(since, side, price, ops[..n], k) ||
    (ops[n].TickOp? && Counts(since, LastAt(ops[..n])) && PassesBy(ops[n].tick, side, price))
  }

  /** Time runs forward over the ticks. */
  predicate Forward(ops: seq<Op>) {
    ops == [] ||
    (Forward(ops[..|ops| - 1]) &&
     (ops[|ops| - 1].TickOp? && LastAt(ops[..|ops| - 1]).Some? ==>
        LastAt(ops[..|ops| - 1]).value <= ops[|ops| - 1].tick.stamp.exch))
  }

  /** When time does not run backwards, every observation counts from the first that does. */
  lemma {:induction false} CountsFromThenOn(since: Option<int>, ops: seq<Op>, m: nat)
    requires m <= |ops| && Forward(ops) && Counts(since, LastAt(ops[..m]))
    ensures Counts(since, LastAt(ops))
    decreases |ops|
  {
    if m == |ops| {
      assert ops[..m] == ops;
    } else {
      assert ops[..|ops| - 1][..m] == ops[..m];
      CountsFromThenOn(since, ops[..|ops| - 1], m);
    }
  }

  predicate Withdraws(op: Op, id: nat) {
    op.CancelAllOp? || op == CancelOp(id)
  }

  lemma {:induction false} PreviousIsLast(instrument: nat, p: Policy, ops: seq<Op>)
    ensures L1After(instrument, p, ops).prevVolume == LastVolume(ops) && L1After(instrument, p, ops).prevAt == LastAt(ops)
    decreases |ops|
  {
    if ops != [] {
      PreviousIsLast(instrument, p, ops[..|ops| - 1]);
    }
  }

  /** A falling cumulative volume trades nothing: it never gives a queue back. */
  lemma {:induction false} VolumeNeverRefunds(since: Option<int>, price: int, ops: seq<Op>, k: nat, m: nat)
    requires m <= |ops|
    ensures 0 <= VolumeAt(since, price, ops[..m], k) <= VolumeAt(since, price, ops, k)
    decreases |ops|
  {
    var n := |ops| - 1;
    if m == |ops| {
      assert ops[..m] == ops;
      if |ops| > k { VolumeNeverRefunds(since, price, ops[..n], k, n); assert ops[..n][..n] == ops[..n]; }
    } else {
      assert ops[..n][..m] == ops[..m];
      VolumeNeverRefunds(since, price, ops[..n], k, m);
    }
  }

  // ----- one step

  ghost predicate InQueue(v: L1V, order: Order) {
    order in QueuedOrders(v.queued)
  }

  lemma {:induction false} AdmissionKeepsQueues(v: L1V, p: Policy, s: seq<Pending>, traded: int)
    ensures forall q :: q in v.queued ==> q in AdmittedAll(v, p, s, traded).queued
    decreases |s|
  {
    if s != [] {
      AdmissionKeepsQueues(Admitted(v, p, s[0].order, Some(traded), s[0].ahead, s[0].since), p, s[1..], traded);
    }
  }

  lemma {:induction false} AdmissionQueues(v: L1V, p: Policy, s: seq<Pending>, traded: int, x: Pending)
    requires x in s && AheadOf(p, x.order, Some(traded), x.ahead) > 0
    ensures Queued(x.order, AheadOf(p, x.order, Some(traded), x.ahead), if x.ahead.Some? then x.since else None)
      in AdmittedAll(v, p, s, traded).queued
    decreases |s|
  {
    var w := Admitted(v, p, s[0].order, Some(traded), s[0].ahead, s[0].since);
    if s[0] == x {
      AdmissionKeepsQueues(w, p, s[1..], traded);
      var q := Queued(x.order, AheadOf(p, x.order, Some(traded), x.ahead), if x.ahead.Some? then x.since else None);
      assert w.queued == v.queued + [q];
    } else {
      assert x in s[1..];
      AdmissionQueues(w, p, s[1..], traded, x);
    }
  }

  /** What is left ahead of an order after an observation. */
  function LeftAfter(q: Queued, prevAt: Option<int>, t: Tick, traded: int): int {
    if Counts(q.since, prevAt) then LotsLeft(q, t, traded) else q.remaining
  }

  /** The observation lets the order into the book. */
  predicate Leaves(q: Queued, prevAt: Option<int>, t: Tick, traded: int)
    requires q.order.price.Some?
  {
    Counts(q.since, prevAt) && (GappedThrough(t, q.order.side, q.order.price.value) || LotsLeft(q, t, traded) <= 0)
  }

  /** In one observation a queued order reaches the book exactly when the observation counts
      and the price gapped through it or the lots traded at its price used up what was ahead. */
  lemma QueueTick(v: L1V, p: Policy, t: Tick, q: Queued)
    requires WfL1(v) && q in AfterArrivals(v, p, t).queued && q.order.price.Some?
    ensures var traded := Traded(v.prevVolume, t); var w := BeforeMatch(v, p, t);
      var leaves := Leaves(q, v.prevAt, t, traded);
      && (q.order in Orders(w.inner.book) <==> leaves)
      && (InQueue(w, q.order) <==> !leaves)
      && (!leaves ==> Queued(q.order, LeftAfter(q, v.prevAt, t, traded), q.since) in w.queued)
  {
    AdmittedAllKeeps(v.(pending := InFlight(v.pending, t.stamp.exch)), p, Arriving(v.pending, t.stamp.exch), Traded(v.prevVolume, t));
    AfterArrivalsHeld(v, p, t);
    QueueStep(AfterArrivals(v, p, t), t, Traded(v.prevVolume, t), q);
  }

  lemma PromotedLeaves(q: Queued, prevAt: Option<int>, t: Tick, traded: int)
    requires q.order.price.Some?
    ensures Promoted(q, prevAt, t, traded) <==> Leaves(q, prevAt, t, traded)
    ensures !Leaves(q, prevAt, t, traded) ==> Depleted(q, prevAt, t, traded) == Queued(q.order, LeftAfter(q, prevAt, t, traded), q.since)
  {
  }

  lemma QueueStep(a: L1V, t: Tick, traded: int, q: Queued)
    requires WfL1(a) && q in a.queued && q.order.price.Some?
    ensures var w, leaves := AfterQueues(a, t, traded), Leaves(q, a.prevAt, t, traded);
      && (q.order in Orders(w.inner.book) <==> leaves)
      && (InQueue(w, q.order) <==> !leaves)
      && (!leaves ==> Queued(q.order, LeftAfter(q, a.prevAt, t, traded), q.since) in w.queued)
  {
    var w := AfterQueues(a, t, traded);
    PromotedLeaves(q, a.prevAt, t, traded);
    AfterQueuesHeld(a, t, traded);
    QueueMoves(a, t, traded);
    QueuesSplit(a.queued, a.prevAt, t, traded);
    assert q.order in Held(w);
    if Leaves(q, a.prevAt, t, traded) {
      assert q.order in PromotedOrders(a.queued, a.prevAt, t, traded);
    } else {
      assert Depleted(q, a.prevAt, t, traded) in w.queued;
    }
  }

  /** The observation an order arrives in already works for its queue, when it counts. */
  lemma ArrivalTickCounts(v: L1V, p: Policy, t: Tick, x: Pending)
    requires WfL1(v) && x in v.pending && x.liveAt <= t.stamp.exch && x.order.price.Some?
    requires AheadOf(p, x.order, Some(Traded(v.prevVolume, t)), x.ahead) > 0
    ensures var traded := Traded(v.prevVolume, t);
      var q := ArrivedAs(p, x, traded);
      && (x.order in Orders(BeforeMatch(v, p, t).inner.book) <==> Leaves(q, v.prevAt, t, traded))
      && (!Leaves(q, v.prevAt, t, traded) ==>
            Queued(x.order, LeftAfter(q, v.prevAt, t, traded), q.since) in L1Ticked(v, p, UNMEASURED, t).queued)
  {
    var traded := Traded(v.prevVolume, t);
    ArrivalsSplit(v.pending, t.stamp.exch);
    AdmissionQueues(v.(pending := InFlight(v.pending, t.stamp.exch)), p, Arriving(v.pending, t.stamp.exch), traded, x);
    QueueTick(v, p, t, ArrivedAs(p, x, traded));
  }

  /** The queue an order joins when it arrives; the measuring instant travels with a measured
      one. */
  function ArrivedAs(p: Policy, x: Pending, traded: int): Queued {
    Queued(x.order, AheadOf(p, x.order, Some(traded), x.ahead), if x.ahead.Some? then x.since else None)
  }

  lemma OtherOpsKeepQueue(v: L1V, p: Policy, op: Op, q: Queued)
    requires q in v.queued && !op.TickOp? && !Withdraws(op, q.order.id)
    ensures q in L1Step(v, p, op).queued
  {
    if op.CancelOp? {
      QueuedWithoutFacts(v.queued, op.id);
    }
  }

  lemma TickKeepsQueue(v: L1V, p: Policy, op: Op, q: Queued)
    requires WfL1(v) && q in v.queued && op.TickOp? && q.order.price.Some?
    ensures var traded := Traded(v.prevVolume, op.tick);
      var leaves := Leaves(q, v.prevAt, op.tick, traded);
      && (InQueue(L1Step(v, p, op), q.order) <==> !leaves)
      && (!leaves ==> Queued(q.order, LeftAfter(q, v.prevAt, op.tick, traded), q.since) in L1Step(v, p, op).queued)
  {
    AdmissionKeepsQueues(v.(pending := InFlight(v.pending, op.tick.stamp.exch)), p,
                         Arriving(v.pending, op.tick.stamp.exch), Traded(v.prevVolume, op.tick));
    QueueTick(v, p, op.tick, q);
  }

  /** An order that left the queue has reached the book or the fills, and does not return. */
  lemma StaysOut(v: L1V, p: Policy, op: Op, order: Order)
    requires WfL1(v) && order.id !in PendingIds(v) && order.id !in QueuedIds(v)
    requires op.SubmitOp? ==> op.order.id != order.id && op.order.id !in HeldIds(v)
    ensures order.id !in PendingIds(L1Step(v, p, op)) && order.id !in QueuedIds(L1Step(v, p, op))
  {
    match op
    case SubmitOp(_, _, _, _) =>
    case CancelOp(id) => PendingWithoutFacts(v.pending, id); QueuedWithoutFacts(v.queued, id);
    case CancelAllOp =>
    case TickOp(t, m) => TickStaysOut(v, p, t, order);
  }

  lemma TickStaysOut(v: L1V, p: Policy, t: Tick, order: Order)
    requires WfL1(v) && order.id !in PendingIds(v) && order.id !in QueuedIds(v)
    ensures order.id !in PendingIds(BeforeMatch(v, p, t)) && order.id !in QueuedIds(BeforeMatch(v, p, t))
  {
    var a := AfterArrivals(v, p, t);
    ArrivalsSplit(v.pending, t.stamp.exch);
    AdmittedAllKeeps(v.(pending := InFlight(v.pending, t.stamp.exch)), p, Arriving(v.pending, t.stamp.exch), Traded(v.prevVolume, t));
    AdmissionBrings(v.(pending := InFlight(v.pending, t.stamp.exch)), p, Arriving(v.pending, t.stamp.exch), Traded(v.prevVolume, t));
    QueuesSplit(a.queued, a.prevAt, t, Traded(v.prevVolume, t));
  }

  lemma {:induction false} AdmissionBrings(v: L1V, p: Policy, s: seq<Pending>, traded: int)
    ensures forall q :: q in AdmittedAll(v, p, s, traded).queued ==> q in v.queued || exists x :: x in s && x.order == q.order
    decreases |s|
  {
    if s != [] {
      var w := Admitted(v, p, s[0].order, Some(traded), s[0].ahead, s[0].since);
      AdmissionBrings(w, p, s[1..], traded);
      assert s == [s[0]] + s[1..];
      forall q | q in w.queued ensures q in v.queued || q.order == s[0].order {
      }
    }
  }

  // ----- the whole run

  lemma {:induction false} RunWf(instrument: nat, p: Policy, ops: seq<Op>)
    requires FreshIds(ops)
    ensures WfL1(L1After(instrument, p, ops)) && HeldIds(L1After(instrument, p, ops)) <= SubmittedIds(ops)
  {
    RunAccounted(instrument, p, ops);
  }

  /** Where an order stands that was behind `q.remaining` lots, after `volume` of them
      traded at its price and the price was or was not gapped through. */
  ghost predicate Stands(v: L1V, q: Queued, volume: int, gapped: bool) {
    var waiting := !gapped && volume < q.remaining;
    && (InQueue(v, q.order) <==> waiting)
    && (waiting ==> Queued(q.order, q.remaining - volume, q.since) in v.queued)
    && q.order.id !in PendingIds(v)
    && (!waiting ==> q.order.id !in QueuedIds(v))
  }

  /** The lots an operation takes off a queue at a price. */
  function Worked(v: L1V, op: Op, since: Option<int>, price: int): int {
    if op.TickOp? && Counts(since, v.prevAt) && TradesAt(op.tick, price) then Rise(v.prevVolume, op.tick) else 0
  }

  predicate Gaps(v: L1V, op: Op, since: Option<int>, side: Side, price: int) {
    op.TickOp? && Counts(since, v.prevAt) && PassesBy(op.tick, side, price)
  }

  lemma StandsStep(v: L1V, p: Policy, op: Op, q: Queued, volume: int, gapped: bool, more: int, later: bool)
    requires WfL1(v) && Stands(v, q, volume, gapped) && q.order.price.Some? && q.remaining > 0
    requires !Withdraws(op, q.order.id)
    requires op.SubmitOp? ==> op.order.id !in HeldIds(v) && op.order.id != q.order.id
    requires more == volume + Worked(v, op, q.since, q.order.price.value)
    requires later <==> gapped || Gaps(v, op, q.since, q.order.side, q.order.price.value)
    ensures Stands(L1Step(v, p, op), q, more, later)
  {
    if !gapped && volume < q.remaining {
      StandsWaiting(v, p, op, q, volume, more, later);
    } else {
      WorkedIsPositive(v, op, q.since, q.order.price.value);
      StandsGone(v, p, op, q, volume, gapped, more, later);
    }
  }

  lemma StandsWaiting(v: L1V, p: Policy, op: Op, q: Queued, volume: int, more: int, later: bool)
    requires WfL1(v) && Stands(v, q, volume, false) && q.order.price.Some? && q.remaining > volume
    requires !Withdraws(op, q.order.id)
    requires op.SubmitOp? ==> op.order.id !in HeldIds(v) && op.order.id != q.order.id
    requires more == volume + Worked(v, op, q.since, q.order.price.value)
    requires later == Gaps(v, op, q.since, q.order.side, q.order.price.value)
    ensures Stands(L1Step(v, p, op), q, more, later)
  {
    WaitingStep(v, p, op, Queued(q.order, q.remaining - volume, q.since));
    StandsShift(L1Step(v, p, op), q, volume, more - volume, later);
  }

  lemma StandsGone(v: L1V, p: Policy, op: Op, q: Queued, volume: int, gapped: bool, more: int, later: bool)
    requires WfL1(v) && Stands(v, q, volume, gapped) && (gapped || volume >= q.remaining)
    requires more >= volume && (gapped ==> later)
    requires op.SubmitOp? ==> op.order.id !in HeldIds(v) && op.order.id != q.order.id
    ensures Stands(L1Step(v, p, op), q, more, later)
  {
    StaysOut(v, p, op, q.order);
    NotQueued(L1Step(v, p, op), q.order);
  }

  lemma WorkedIsPositive(v: L1V, op: Op, since: Option<int>, price: int)
    ensures Worked(v, op, since, price) >= 0
  {
  }

  lemma StandsShift(w: L1V, q: Queued, volume: int, more: int, gapped: bool)
    requires Stands(w, Queued(q.order, q.remaining - volume, q.since), more, gapped)
    ensures Stands(w, q, volume + more, gapped)
  {
  }

  /** `Stands`, folded. */
  ghost predicate Standing(v: L1V, q: Queued, volume: int, gapped: bool) {
    forall k {:trigger Seal(k)} :: Seal(k) ==> Stands(v, q, volume, gapped)
  }

  /** An operation a state can take without touching the order; folded. */
  ghost predicate Ready(v: L1V, op: Op, q: Queued) {
    forall k {:trigger Seal(k)} :: Seal(k) ==>
      WfL1(v) && (op.SubmitOp? ==> op.order.id !in HeldIds(v) && op.order.id != q.order.id)
  }

  lemma StandingStep(v: L1V, p: Policy, op: Op, q: Queued, volume: int, gapped: bool, w: L1V, more: int, later: bool)
    requires Ready(v, op, q) && Standing(v, q, volume, gapped)
    requires q.order.price.Some? && q.remaining > 0 && !Withdraws(op, q.order.id)
    requires w == L1Step(v, p, op) && more == volume + Worked(v, op, q.since, q.order.price.value)
    requires later <==> gapped || Gaps(v, op, q.since, q.order.side, q.order.price.value)
    ensures Standing(w, q, more, later)
  {
    assert Seal(0);
    StandsStep(v, p, op, q, volume, gapped, more, later);
  }

  /** Behind `q.remaining` lots since operation `k`, and not withdrawn: the order is still
      queued exactly while no observation that counts has gapped through its price and the
      volume traded at its price in those that count is short of what was ahead; what is left
      ahead is the difference. Without a measuring instant every observation counts. */
  lemma QueueIsHonest(instrument: nat, p: Policy, ops: seq<Op>, k: nat, q: Queued)
    requires FreshIds(ops) && k <= |ops|
    requires q in L1After(instrument, p, ops[..k]).queued
    requires q.order.price.Some? && q.remaining > 0
    requires forall i :: k <= i < |ops| ==> !Withdraws(ops[i], q.order.id)
    ensures Stands(L1After(instrument, p, ops), q, VolumeAt(q.since, q.order.price.value, ops, k),
                   GappedSince(q.since, q.order.side, q.order.price.value, ops, k))
  {
    HonestFrom(instrument, p, ops, k, q);
    assert Seal(0);
  }

  lemma {:induction false} HonestFrom(instrument: nat, p: Policy, ops: seq<Op>, k: nat, q: Queued)
    requires FreshIds(ops) && k <= |ops|
    requires q in L1After(instrument, p, ops[..k]).queued
    requires q.order.price.Some? && q.remaining > 0
    requires forall i :: k <= i < |ops| ==> !Withdraws(ops[i], q.order.id)
    ensures Standing(L1After(instrument, p, ops), q, VolumeAt(q.since, q.order.price.value, ops, k),
                     GappedSince(q.since, q.order.side, q.order.price.value, ops, k))
    decreases |ops|
  {
    if |ops| == k {
      assert ops[..k] == ops;
      StandsAtFirst(instrument, p, ops, q);
    } else {
      var prefix, op := ops[..|ops| - 1], ops[|ops| - 1];
      assert prefix[..k] == ops[..k];
      assert ops == prefix + [op];
      FreshLast(ops);
      HonestFrom(instrument, p, prefix, k, q);
      HonestSnoc(instrument, p, prefix, op, k, q);
    }
  }

  lemma AfterSnoc(instrument: nat, p: Policy, prefix: seq<Op>, op: Op)
    ensures L1After(instrument, p, prefix + [op]) == L1Step(L1After(instrument, p, prefix), p, op)
  {
    assert (prefix + [op])[..|prefix|] == prefix;
  }

  lemma TallySnoc(v: L1V, since: Option<int>, side: Side, price: int, prefix: seq<Op>, op: Op, k: nat)
    requires k <= |prefix| && v.prevVolume == LastVolume(prefix) && v.prevAt == LastAt(prefix)
    ensures VolumeAt(since, price, prefix + [op], k) == VolumeAt(since, price, prefix, k) + Worked(v, op, since, price)
    ensures GappedSince(since, side, price, prefix + [op], k)
       <==> GappedSince(since, side, price, prefix, k) || Gaps(v, op, since, side, price)
  {
    assert (prefix + [op])[..|prefix|] == prefix;
  }

  /** One more operation moves where the order stands exactly as it moves the tallies. */
  lemma HonestSnoc(instrument: nat, p: Policy, prefix: seq<Op>, op: Op, k: nat, q: Queued)
    requires FreshIds(prefix + [op]) && k <= |prefix| && q in L1After(instrument, p, prefix[..k]).queued
    requires q.order.price.Some? && q.remaining > 0 && !Withdraws(op, q.order.id)
    requires Standing(L1After(instrument, p, prefix), q, VolumeAt(q.since, q.order.price.value, prefix, k),
                      GappedSince(q.since, q.order.side, q.order.price.value, prefix, k))
    ensures Standing(L1After(instrument, p, prefix + [op]), q, VolumeAt(q.since, q.order.price.value, prefix + [op], k),
                     GappedSince(q.since, q.order.side, q.order.price.value, prefix + [op], k))
  {
    var at, side, price, all := q.since, q.order.side, q.order.price.value, prefix + [op];
    SubmitIsFresh(instrument, p, prefix, op, k, q);
    PreviousIsLast(instrument, p, prefix);
    TallySnoc(L1After(instrument, p, prefix), at, side, price, prefix, op, k);
    AfterSnoc(instrument, p, prefix, op);
    StandingStep(L1After(instrument, p, prefix), p, op, q,
                 VolumeAt(at, price, prefix, k), GappedSince(at, side, price, prefix, k),
                 L1After(instrument, p, all), VolumeAt(at, price, all, k), GappedSince(at, side, price, all, k));
  }

  lemma SubmitIsFresh(instrument: nat, p: Policy, prefix: seq<Op>, op: Op, k: nat, q: Queued)
    requires FreshIds(prefix + [op]) && k <= |prefix| && q in L1After(instrument, p, prefix[..k]).queued
    ensures Ready(L1After(instrument, p, prefix), op, q)
  {
    assert (prefix + [op])[..|prefix|] == prefix && (prefix + [op])[..k] == prefix[..k];
    FreshLast(prefix + [op]);
    RunWf(instrument, p, prefix);
    KSubmitted(instrument, p, prefix + [op], k, q);
  }

  lemma StandsAtFirst(instrument: nat, p: Policy, ops: seq<Op>, q: Queued)
    requires FreshIds(ops) && q in L1After(instrument, p, ops).queued && q.remaining > 0
    ensures Stands(L1After(instrument, p, ops), q, 0, false)
  {
    var v := L1After(instrument, p, ops);
    RunWf(instrument, p, ops);
    PlacesDisjoint(v);
    assert q.order.id in QueuedIds(v);
    assert q == Queued(q.order, q.remaining, q.since);
  }

  lemma NotQueued(v: L1V, order: Order)
    requires order.id !in QueuedIds(v)
    ensures !InQueue(v, order)
  {
  }

  lemma KSubmitted(instrument: nat, p: Policy, ops: seq<Op>, k: nat, q: Queued)
    requires FreshIds(ops) && k < |ops| && q in L1After(instrument, p, ops[..k]).queued
    ensures q.order.id in SubmittedIds(ops[..|ops| - 1])
  {
    assert FreshIds(ops[..k]);
    RunWf(instrument, p, ops[..k]);
    assert q.order in Held(L1After(instrument, p, ops[..k]));
    assert q.order.id in SubmittedIds(ops[..k]);
    forall op | op in ops[..k] ensures op in ops[..|ops| - 1] {
      var i :| 0 <= i < k && ops[..k][i] == op;
      assert ops[..|ops| - 1][i] == op;
    }
  }

  lemma WaitingStep(v: L1V, p: Policy, op: Op, q: Queued)
    requires WfL1(v) && q in v.queued && q.order.price.Some? && q.remaining > 0
    requires !Withdraws(op, q.order.id) && q.order.id !in PendingIds(v)
    requires op.SubmitOp? ==> op.order.id !in HeldIds(v) && op.order.id != q.order.id
    ensures var price := q.order.price.value;
      Stands(L1Step(v, p, op), q, Worked(v, op, q.since, price), Gaps(v, op, q.since, q.order.side, price))
  {
    if op.TickOp? {
      TickKeepsQueue(v, p, op, q);
      WaitingTick(v, p, op, q);
    } else {
      OtherOpsKeepQueue(v, p, op, q);
      if op.CancelOp? { PendingWithoutFacts(v.pending, op.id); }
    }
  }

  lemma WaitingTick(v: L1V, p: Policy, op: Op, q: Queued)
    requires WfL1(v) && op.TickOp? && q in v.queued && q.order.id !in PendingIds(v)
    ensures q.order.id !in PendingIds(L1Step(v, p, op))
    ensures !InQueue(L1Step(v, p, op), q.order) ==> q.order.id !in QueuedIds(L1Step(v, p, op))
  {
    var w := BeforeMatch(v, p, op.tick);
    ArrivalsSplit(v.pending, op.tick.stamp.exch);
    AdmittedAllKeeps(v.(pending := InFlight(v.pending, op.tick.stamp.exch)), p, Arriving(v.pending, op.tick.stamp.exch), Traded(v.prevVolume, op.tick));
    BeforeMatchHeld(v, p, op.tick);
    assert q.order in Held(v);
    if q.order.id in QueuedIds(w) {
      var y :| y in w.queued && y.order.id == q.order.id;
      HeldUnique(w, y.order, q.order);
    }
  }

  // ----- what queues hold

  ghost predicate PricedQueued(s: seq<Queued>) {
    forall q :: q in s ==> q.order.price.Some? && q.remaining > 0
  }

  lemma {:induction false} AdmissionPriced(v: L1V, p: Policy, s: seq<Pending>, traded: int)
    requires PricedQueued(v.queued)
    ensures PricedQueued(AdmittedAll(v, p, s, traded).queued)
    decreases |s|
  {
    if s != [] {
      var w := Admitted(v, p, s[0].order, Some(traded), s[0].ahead, s[0].since);
      assert forall q :: q in w.queued ==> q in v.queued || q == w.queued[|w.queued| - 1];
      AdmissionPriced(w, p, s[1..], traded);
    }
  }

  /** However an order was submitted, it queues with a price and a positive amount ahead, so the
      laws above apply to every queued order of every run. */
  lemma {:induction false} QueuesArePriced(instrument: nat, p: Policy, ops: seq<Op>)
    ensures PricedQueued(L1After(instrument, p, ops).queued)
    decreases |ops|
  {
    if ops != [] {
      var op := ops[|ops| - 1];
      var v := L1After(instrument, p, ops[..|ops| - 1]);
      QueuesArePriced(instrument, p, ops[..|ops| - 1]);
      match op
      case SubmitOp(o, now, ahead, sample) =>
        var w := L1Step(v, p, op);
        assert forall q :: q in w.queued ==> q in v.queued || q == w.queued[|w.queued| - 1];
      case CancelOp(id) => QueuedWithoutFacts(v.queued, id);
      case CancelAllOp =>
      case TickOp(t, m) => TickPriced(v, p, t);
    }
  }

  lemma TickPriced(v: L1V, p: Policy, t: Tick)
    requires PricedQueued(v.queued)
    ensures PricedQueued(BeforeMatch(v, p, t).queued)
  {
    var traded := Traded(v.prevVolume, t);
    var start, a := v.(pending := InFlight(v.pending, t.stamp.exch)), AfterArrivals(v, p, t);
    AdmissionPriced(start, p, Arriving(v.pending, t.stamp.exch), traded);
    QueuesSplit(a.queued, a.prevAt, t, traded);
  }
}
