/** Over any run at L1: five disjoint sets make up the submitted ids, made fills are the released and
    the drained ones as a multiset, and no release precedes its drawn delay
    (crates/oq-engine/src/l1.rs). */
module Conservation {
  import opened Market
  import opened RestingBook
  import opened L0
  import opened L1
  import opened L1Facts
  import opened Tiers

  // ----- the transparent policy is L0

  ghost predicate Unmeasured(op: Op) {
    && (op.SubmitOp? ==> op.ahead.None?)
    && (op.TickOp? ==> forall side: Side, qty: int :: op.measure(side, qty).None?)
  }

  lemma TransparentTick(e: EngineV, v: L1V, p: Policy, op: Op)
    requires Transparent(p) && Unmeasured(op) && op.TickOp?
    requires v.inner == e && v.pending == [] && v.queued == [] && v.delayed == []
    ensures var v' := L1Step(v, p, op);
      v'.inner == L0Step(e, op) && v'.pending == [] && v'.queued == [] && v'.delayed == []
    ensures L1Made(v, p, op) == L0Fills(e, op) && L1Released(v, p, op) == L0Fills(e, op)
  {
    var t, m := op.tick, op.measure;
    assert BeforeMatch(v, p, t).inner == e;
    var fs := TickFills(e, t);
    forall i | 0 <= i < |fs| ensures Adjusted(p, m, fs[i], t, Traded(v.prevVolume, t)) == fs[i] {
      assert m(fs[i].fill.side, fs[i].fill.qty).None?;
    }
  }

  lemma TransparentStep(e: EngineV, v: L1V, p: Policy, op: Op)
    requires Transparent(p) && Unmeasured(op)
    requires v.inner == e && v.pending == [] && v.queued == [] && v.delayed == []
    ensures var v' := L1Step(v, p, op);
      v'.inner == L0Step(e, op) && v'.pending == [] && v'.queued == [] && v'.delayed == []
    ensures L1Made(v, p, op) == L0Fills(e, op) && L1Released(v, p, op) == L0Fills(e, op)
  {
    if op.TickOp? {
      TransparentTick(e, v, p, op);
    }
  }

  /** With every assumption switched off, L1 is L0: the same engine state and the same
      fills after every step of every run. */
  lemma {:induction false} TransparentIsL0(instrument: nat, p: Policy, ops: seq<Op>)
    requires Transparent(p) && forall op :: op in ops ==> Unmeasured(op)
    ensures var v := L1After(instrument, p, ops);
      v.inner == L0After(instrument, ops) && v.pending == [] && v.queued == [] && v.delayed == []
    ensures AllReleased(instrument, p, ops) == AllL0Fills(instrument, ops)
    ensures AllMade(instrument, p, ops) == AllL0Fills(instrument, ops)
    decreases |ops|
  {
    if ops != [] {
      var n := |ops| - 1;
      assert ops[n] in ops;
      assert forall op :: op in ops[..n] ==> op in ops;
      TransparentIsL0(instrument, p, ops[..n]);
      TransparentStep(L0After(instrument, ops[..n]), L1After(instrument, p, ops[..n]), p, ops[n]);
    }
  }

  // ----- every order is in exactly one place

  ghost function PendingIds(v: L1V): set<nat> {
    set x | x in v.pending :: x.order.id
  }

  ghost function QueuedIds(v: L1V): set<nat> {
    set x | x in v.queued :: x.order.id
  }

  /** The ids a step withdraws. */
  ghost function WithdrawnBy(v: L1V, op: Op): set<nat> {
    match op
    case CancelOp(id) => if id in HeldIds(v) then {id} else {}
    case CancelAllOp => HeldIds(v)
    case SubmitOp(_, _, _, _) => {}
    case TickOp(_, _) => {}
  }

  ghost function AllWithdrawn(instrument: nat, p: Policy, ops: seq<Op>): set<nat> {
    if ops == [] then {}
    else AllWithdrawn(instrument, p, ops[..|ops| - 1]) + WithdrawnBy(L1After(instrument, p, ops[..|ops| - 1]), ops[|ops| - 1])
  }

  ghost predicate Accounted(v: L1V, filled: set<nat>, withdrawn: set<nat>, submitted: set<nat>) {
    && WfL1(v)
    && HeldIds(v) !! filled
    && HeldIds(v) !! withdrawn
    && filled !! withdrawn
    && HeldIds(v) + filled + withdrawn == submitted
  }

  lemma WithdrawnHeld(v: L1V, p: Policy, op: Op)
    requires WfL1(v) && (op.CancelOp? || op.CancelAllOp?)
    ensures WfL1(L1Step(v, p, op)) && L1Made(v, p, op) == []
    ensures WithdrawnBy(v, op) <= HeldIds(v) && HeldIds(L1Step(v, p, op)) == HeldIds(v) - WithdrawnBy(v, op)
  {
    if op.CancelOp? {
      CancelledHeld(v, op.id);
    } else {
      EmptyBookFacts(v.inner.book.nextArrival);
      assert HeldIds(L1Step(v, p, op)) == {};
    }
  }

  /** Some of the held ids become withdrawn ones. */
  lemma MoveOut(held: set<nat>, gone: set<nat>, filled: set<nat>, withdrawn: set<nat>, submitted: set<nat>)
    requires held !! filled && held !! withdrawn && filled !! withdrawn && held + filled + withdrawn == submitted
    requires gone <= held
    ensures (held - gone) !! filled && (held - gone) !! (withdrawn + gone) && filled !! (withdrawn + gone)
    ensures (held - gone) + filled + (withdrawn + gone) == submitted
  {
  }

  lemma AccountedWithdraw(v: L1V, p: Policy, op: Op, filled: set<nat>, withdrawn: set<nat>, submitted: set<nat>)
    requires Accounted(v, filled, withdrawn, submitted) && (op.CancelOp? || op.CancelAllOp?)
    ensures Accounted(L1Step(v, p, op), filled, withdrawn + WithdrawnBy(v, op), submitted)
  {
    WithdrawnHeld(v, p, op);
    MoveOut(HeldIds(v), WithdrawnBy(v, op), filled, withdrawn, submitted);
  }

  lemma AccountedStep(v: L1V, p: Policy, op: Op, filled: set<nat>, withdrawn: set<nat>, submitted: set<nat>)
    requires Accounted(v, filled, withdrawn, submitted)
    requires op.SubmitOp? ==> op.order.id !in submitted
    ensures Accounted(L1Step(v, p, op), filled + FilledIds(L1Made(v, p, op)), withdrawn + WithdrawnBy(v, op),
                      submitted + if op.SubmitOp? then {op.order.id} else {})
  {
    match op
    case SubmitOp(o, now, ahead, sample) =>
      SubmittedHeld(v, p, o, now, ahead, sample);
      assert HeldIds(L1Step(v, p, op)) == HeldIds(v) + {o.id};
    case CancelOp(id) =>
      AccountedWithdraw(v, p, op, filled, withdrawn, submitted);
    case CancelAllOp =>
      AccountedWithdraw(v, p, op, filled, withdrawn, submitted);
    case TickOp(t, m) =>
      TickedHeld(v, p, m, t);
      TickedIds(v, p, m, t);
  }

  lemma TickedIds(v: L1V, p: Policy, m: Measure, t: Tick)
    requires WfL1(v)
    ensures HeldIds(L1Ticked(v, p, m, t)) + FilledIds(Made(v, p, m, t)) == HeldIds(v)
    ensures HeldIds(L1Ticked(v, p, m, t)) !! FilledIds(Made(v, p, m, t))
  {
    var w := BeforeMatch(v, p, t);
    BeforeMatchHeld(v, p, t);
    TickedHeld(v, p, m, t);
    MadeIds(v, p, m, t);
    var v' := L1Ticked(v, p, m, t);
    forall n | n in HeldIds(v') && n in FilledIds(Made(v, p, m, t)) ensures false {
      var a :| a in Held(v') && a.id == n;
      var b :| b in Orders(w.inner.book) && Hit(b, v.inner.prevPrice, t) && b.id == n;
      HeldUnique(w, a, b);
    }
    forall n | n in HeldIds(v) ensures n in HeldIds(v') || n in FilledIds(Made(v, p, m, t)) {
      var o :| o in Held(v) && o.id == n;
      if o in Orders(w.inner.book) && Hit(o, v.inner.prevPrice, t) {
      } else {
        assert o in Held(v');
      }
    }
  }

  lemma PlacesDisjoint(v: L1V)
    requires WfL1(v)
    ensures PendingIds(v) !! QueuedIds(v) && PendingIds(v) !! Ids(v.inner.book) && QueuedIds(v) !! Ids(v.inner.book)
    ensures HeldIds(v) == PendingIds(v) + QueuedIds(v) + Ids(v.inner.book)
  {
    IdsAreOrderIds(v.inner.book);
    forall n | n in PendingIds(v) ensures n !in QueuedIds(v) && n !in Ids(v.inner.book) && n in HeldIds(v) {
      var x :| x in v.pending && x.order.id == n;
      assert x.order in Held(v);
    }
    forall n | n in QueuedIds(v) ensures n !in Ids(v.inner.book) && n in HeldIds(v) {
      var x :| x in v.queued && x.order.id == n;
      assert x.order in Held(v);
    }
    forall n | n in HeldIds(v) ensures n in PendingIds(v) || n in QueuedIds(v) || n in Ids(v.inner.book) {
      var o :| o in Held(v) && o.id == n;
      if o in PendingOrders(v.pending) { var x :| x in v.pending && x.order == o; }
      else if o in QueuedOrders(v.queued) { var x :| x in v.queued && x.order == o; }
    }
  }

  lemma {:induction false} RunAccounted(instrument: nat, p: Policy, ops: seq<Op>)
    requires FreshIds(ops)
    ensures Accounted(L1After(instrument, p, ops), FilledIds(AllMade(instrument, p, ops)),
                      AllWithdrawn(instrument, p, ops), SubmittedIds(ops))
    decreases |ops|
  {
    if ops == [] {
      EmptyBookFacts(0);
    } else {
      var n := |ops| - 1;
      FreshLast(ops);
      RunAccounted(instrument, p, ops[..n]);
      FilledIdsAppend(AllMade(instrument, p, ops[..n]), L1Made(L1After(instrument, p, ops[..n]), p, ops[n]));
      AccountedStep(L1After(instrument, p, ops[..n]), p, ops[n], FilledIds(AllMade(instrument, p, ops[..n])),
                    AllWithdrawn(instrument, p, ops[..n]), SubmittedIds(ops[..n]));
    }
  }

  /** In flight, queued, resting, filled, withdrawn: every submitted order is in exactly one. */
  lemma EveryOrderInOnePlace(instrument: nat, p: Policy, ops: seq<Op>)
    requires FreshIds(ops)
    ensures var v := L1After(instrument, p, ops);
      var filled, withdrawn := FilledIds(AllMade(instrument, p, ops)), AllWithdrawn(instrument, p, ops);
      && SubmittedIds(ops) == PendingIds(v) + QueuedIds(v) + Ids(v.inner.book) + filled + withdrawn
      && PendingIds(v) !! QueuedIds(v) !! Ids(v.inner.book) !! filled !! withdrawn
  {
    RunAccounted(instrument, p, ops);
    PlacesDisjoint(L1After(instrument, p, ops));
  }

  // ----- every fill is released once

  lemma {:induction false} ReadyMembers(ds: seq<Delayed>, now: int)
    ensures forall d :: d in HeldBack(ds, now) <==> d in ds && d.knownAt > now
    ensures forall f :: f in Ready(ds, now) ==> exists d :: d in ds && d.knownAt <= now && d.fill == f
  {
    if ds != [] {
      ReadyMembers(ds[1..], now);
      assert ds == [ds[0]] + ds[1..];
    }
  }

  lemma {:induction false} ReadySplit(ds: seq<Delayed>, now: int)
    ensures multiset(FillsOf(ds)) == multiset(Ready(ds, now)) + multiset(FillsOf(HeldBack(ds, now)))
  {
    if ds != [] {
      ReadySplit(ds[1..], now);
      assert FillsOf(ds) == [ds[0].fill] + FillsOf(ds[1..]);
      var h := HeldBack(ds[1..], now);
      if ds[0].knownAt > now {
        assert FillsOf([ds[0]] + h) == [ds[0].fill] + FillsOf(h);
      }
    }
  }

  lemma FillsOfPostponed(ds: seq<Delayed>, p: Policy, fs: seq<L0Fill>, now: int)
    ensures multiset(FillsOf(ds + Postponed(p, fs, now))) == multiset(FillsOf(ds)) + multiset(fs)
  {
    assert FillsOf(ds + Postponed(p, fs, now)) == FillsOf(ds) + fs;
  }

  lemma FillsConservedStep(v: L1V, p: Policy, op: Op)
    ensures multiset(FillsOf(v.delayed)) + multiset(L1Made(v, p, op))
         == multiset(L1Released(v, p, op)) + multiset(FillsOf(L1Step(v, p, op).delayed))
  {
    if op.TickOp? && !p.response.IsZero() {
      var now := op.tick.stamp.exch;
      var made := Made(v, p, op.measure, op.tick);
      FillsOfPostponed(v.delayed, p, made, now);
      ReadySplit(v.delayed + Postponed(p, made, now), now);
    }
  }

  lemma FillsOfFirst(d: Delayed, ds: seq<Delayed>)
    ensures FillsOf([d] + ds) == [d.fill] + FillsOf(ds)
  {
  }

  lemma {:induction false} SortedFills(ds: seq<Delayed>)
    ensures multiset(FillsOf(ByKnown(ds))) == multiset(FillsOf(ds))
    ensures forall i, j :: 0 <= i < j < |ByKnown(ds)| ==> ByKnown(ds)[i].knownAt <= ByKnown(ds)[j].knownAt
  {
    if ds != [] {
      SortedFills(ds[1..]);
      PutKnown(ds[0], ByKnown(ds[1..]));
      FillsOfFirst(ds[0], ds[1..]);
      FillsOfFirst(ds[0], ByKnown(ds[1..]));
      assert ds == [ds[0]] + ds[1..];
    }
  }

  lemma PutFills(d: Delayed, ds: seq<Delayed>, rest: seq<Delayed>)
    requires ds != [] && multiset(FillsOf(rest)) == multiset(FillsOf([d] + ds[1..]))
    ensures multiset(FillsOf([ds[0]] + rest)) == multiset(FillsOf([d] + ds))
  {
    FillsOfFirst(ds[0], rest);
    FillsOfFirst(d, ds[1..]);
    FillsOfFirst(d, ds);
    FillsOfFirst(ds[0], ds[1..]);
    assert ds == [ds[0]] + ds[1..];
  }

  lemma {:induction false} PutKnown(d: Delayed, ds: seq<Delayed>)
    requires forall i, j :: 0 <= i < j < |ds| ==> ds[i].knownAt <= ds[j].knownAt
    ensures multiset(FillsOf(PutByKnown(d, ds))) == multiset(FillsOf([d] + ds))
    ensures forall x :: x in PutByKnown(d, ds) ==> x == d || x in ds
    ensures forall i, j :: 0 <= i < j < |PutByKnown(d, ds)| ==> PutByKnown(d, ds)[i].knownAt <= PutByKnown(d, ds)[j].knownAt
  {
    if ds != [] && d.knownAt > ds[0].knownAt {
      PutKnown(d, ds[1..]);
      var rest := PutByKnown(d, ds[1..]);
      PutFills(d, ds, rest);
      forall j | 0 <= j < |rest| ensures ds[0].knownAt <= rest[j].knownAt {
        assert rest[j] in rest;
        if rest[j] != d {
          assert rest[j] in ds[1..];
        }
      }
    }
  }

  /** Over a whole run, what the venue made is what was released plus what the final drain
      hands over, fill for fill; the drain is sorted by the time each is known. */
  lemma {:induction false} FillsConserved(instrument: nat, p: Policy, ops: seq<Op>)
    ensures multiset(AllMade(instrument, p, ops)) ==
      multiset(AllReleased(instrument, p, ops)) + multiset(Drained(L1After(instrument, p, ops)))
    ensures var ds := ByKnown(L1After(instrument, p, ops).delayed);
      forall i, j :: 0 <= i < j < |ds| ==> ds[i].knownAt <= ds[j].knownAt
  {
    SortedFills(L1After(instrument, p, ops).delayed);
    FillsConservedUnsorted(instrument, p, ops);
  }

  lemma {:induction false} FillsConservedUnsorted(instrument: nat, p: Policy, ops: seq<Op>)
    ensures multiset(AllMade(instrument, p, ops)) ==
      multiset(AllReleased(instrument, p, ops)) + multiset(FillsOf(L1After(instrument, p, ops).delayed))
    decreases |ops|
  {
    if ops == [] {
      assert FillsOf([]) == [];
    } else {
      var n := |ops| - 1;
      var v, v' := L1After(instrument, p, ops[..n]), L1After(instrument, p, ops);
      FillsConservedUnsorted(instrument, p, ops[..n]);
      FillsConservedStep(v, p, ops[n]);
      BagStep(AllMade(instrument, p, ops[..n]), AllReleased(instrument, p, ops[..n]), FillsOf(v.delayed),
              L1Made(v, p, ops[n]), L1Released(v, p, ops[n]), FillsOf(v'.delayed));
    }
  }

  lemma BagStep(made: seq<L0Fill>, out: seq<L0Fill>, held: seq<L0Fill>, m: seq<L0Fill>, r: seq<L0Fill>, held': seq<L0Fill>)
    requires multiset(made) == multiset(out) + multiset(held)
    requires multiset(held) + multiset(m) == multiset(r) + multiset(held')
    ensures multiset(made + m) == multiset(out + r) + multiset(held')
  {
    var o, h, x, y, z := multiset(out), multiset(held), multiset(m), multiset(r), multiset(held');
    assert multiset(made + m) == o + h + x;
    assert multiset(out + r) == o + y;
    assert o + h + x == o + (h + x);
    assert o + (y + z) == o + y + z;
  }

  // ----- and never too soon

  /** A fill with the instant it happened at. */
  datatype Timed = Timed(fill: L0Fill, at: int)

  function Stamped(fs: seq<L0Fill>, at: int): (ts: seq<Timed>)
    ensures |ts| == |fs|
  {
    seq(|fs|, i requires 0 <= i < |fs| => Timed(fs[i], at))
  }

  function MadeAt(instrument: nat, p: Policy, ops: seq<Op>): seq<Timed> {
    if ops == [] then []
    else
      var n := |ops| - 1;
      MadeAt(instrument, p, ops[..n]) +
      if ops[n].TickOp? then Stamped(L1Made(L1After(instrument, p, ops[..n]), p, ops[n]), ops[n].tick.stamp.exch) else []
  }

  function ReleasedAt(instrument: nat, p: Policy, ops: seq<Op>): seq<Timed> {
    if ops == [] then []
    else
      var n := |ops| - 1;
      ReleasedAt(instrument, p, ops[..n]) +
      if ops[n].TickOp? then Stamped(L1Released(L1After(instrument, p, ops[..n]), p, ops[n]), ops[n].tick.stamp.exch) else []
  }

  ghost predicate MadeBy(made: seq<Timed>, p: Policy, f: L0Fill, known: int) {
    exists m :: m in made && m.fill == f && m.at + ResponseDelay(p, f.fill.order) <= known
  }

  lemma StampedMembers(fs: seq<L0Fill>, at: int)
    ensures forall f :: f in fs ==> Timed(f, at) in Stamped(fs, at)
    ensures forall x :: x in Stamped(fs, at) ==> x.fill in fs && x.at == at
  {
    forall f | f in fs ensures Timed(f, at) in Stamped(fs, at) {
      var i :| 0 <= i < |fs| && fs[i] == f;
      assert Stamped(fs, at)[i] == Timed(f, at);
    }
  }

  /** Every released fill was made at least its drawn response delay earlier, and every
      fill still held back will not be known before that. */
  lemma {:induction false} NeverReleasedEarly(instrument: nat, p: Policy, ops: seq<Op>)
    ensures forall x :: x in ReleasedAt(instrument, p, ops) ==> MadeBy(MadeAt(instrument, p, ops), p, x.fill, x.at)
    ensures forall d :: d in L1After(instrument, p, ops).delayed ==> MadeBy(MadeAt(instrument, p, ops), p, d.fill, d.knownAt)
    decreases |ops|
  {
    if ops != [] {
      var n := |ops| - 1;
      var v, op := L1After(instrument, p, ops[..n]), ops[n];
      NeverReleasedEarly(instrument, p, ops[..n]);
      var before, after := MadeAt(instrument, p, ops[..n]), MadeAt(instrument, p, ops);
      forall f, known: int | MadeBy(before, p, f, known) ensures MadeBy(after, p, f, known) {
        var m :| m in before && m.fill == f && m.at + ResponseDelay(p, f.fill.order) <= known;
        assert m in after;
      }
      if op.TickOp? {
        TickReleasesLate(v, p, op, before, after);
      }
    }
  }

  lemma TickReleasesLate(v: L1V, p: Policy, op: Op, before: seq<Timed>, after: seq<Timed>)
    requires op.TickOp? && after == before + Stamped(L1Made(v, p, op), op.tick.stamp.exch)
    requires forall d :: d in v.delayed ==> MadeBy(after, p, d.fill, d.knownAt)
    ensures forall x :: x in Stamped(L1Released(v, p, op), op.tick.stamp.exch) ==> MadeBy(after, p, x.fill, x.at)
    ensures forall d :: d in L1Step(v, p, op).delayed ==> MadeBy(after, p, d.fill, d.knownAt)
  {
    var now := op.tick.stamp.exch;
    var made := L1Made(v, p, op);
    StampedMembers(made, now);
    StampedMembers(L1Released(v, p, op), now);
    forall f | f in made ensures MadeBy(after, p, f, now + ResponseDelay(p, f.fill.order)) {
      assert Timed(f, now) in after;
    }
    if !p.response.IsZero() {
      var ds := v.delayed + Postponed(p, made, now);
      ReadyMembers(ds, now);
      forall d | d in ds ensures MadeBy(after, p, d.fill, d.knownAt) {
        if d in Postponed(p, made, now) {
          var i :| 0 <= i < |made| && Postponed(p, made, now)[i] == d;
          assert made[i] in made;
        }
      }
      forall x | x in Stamped(L1Released(v, p, op), now) ensures MadeBy(after, p, x.fill, x.at) {
        var d :| d in ds && d.knownAt <= now && d.fill == x.fill;
        var m :| m in after && m.fill == d.fill && m.at + ResponseDelay(p, d.fill.fill.order) <= d.knownAt;
      }
    } else {
      ZeroDelay(p);
    }
  }

  lemma ZeroDelay(p: Policy)
    requires p.response.IsZero()
    ensures forall id: nat :: ResponseDelay(p, id) == 0
  {
  }

  /** Nor later than it must: after an observation nothing already knowable is held back. */
  lemma NothingKnowableHeldBack(v: L1V, p: Policy, m: Measure, t: Tick)
    requires !p.response.IsZero()
    ensures forall d :: d in L1Ticked(v, p, m, t).delayed ==> d.knownAt > t.stamp.exch
  {
    ReadyMembers(v.delayed + Postponed(p, Made(v, p, m, t), t.stamp.exch), t.stamp.exch);
  }
}
