/** Where L1 keeps each order, and what every step does to the orders it holds. */
module L1Facts {
  import opened Numbers
  import opened Market
  import opened RestingBook
  import opened L0
  import opened L0Facts
  import opened L1

  lemma IdsAreOrderIds(b: BookV)
    ensures forall o :: o in Orders(b) ==> o.id in Ids(b)
    ensures forall n :: n in Ids(b) ==> exists o :: o in Orders(b) && o.id == n
  {
    forall n | n in Ids(b) ensures exists o :: o in Orders(b) && o.id == n {
      var r :| r in All(b) && r.order.id == n;
      assert r.order in Orders(b);
    }
  }

  // ----- admission and submission

  lemma FreshOrder(v: L1V, order: Order)
    requires order.id !in HeldIds(v)
    ensures forall x :: x in v.pending ==> x.order.id != order.id
    ensures forall x :: x in v.queued ==> x.order.id != order.id
    ensures forall o :: o in Orders(v.inner.book) ==> o.id != order.id
    ensures order.id !in Ids(v.inner.book)
  {
    assert forall o :: o in Held(v) ==> o.id != order.id;
    assert forall x :: x in v.pending ==> x.order in Held(v);
    assert forall x :: x in v.queued ==> x.order in Held(v);
    IdsAreOrderIds(v.inner.book);
  }

  lemma QueueOneMore(v: L1V, q: Queued)
    requires WfL1(v) && q.order.id !in HeldIds(v)
    ensures WfL1(v.(queued := v.queued + [q]))
    ensures QueuedOrders(v.queued + [q]) == QueuedOrders(v.queued) + {q.order}
  {
    FreshOrder(v, q.order);
  }

  lemma PendOneMore(v: L1V, x: Pending)
    requires WfL1(v) && x.order.id !in HeldIds(v)
    ensures WfL1(v.(pending := v.pending + [x]))
    ensures PendingOrders(v.pending + [x]) == PendingOrders(v.pending) + {x.order}
  {
    FreshOrder(v, x.order);
  }

  lemma AdmittedHeld(v: L1V, p: Policy, order: Order, arrivalVolume: Option<int>, ahead: Option<int>, since: Option<int>)
    requires WfL1(v) && order.id !in HeldIds(v)
    ensures WfL1(Admitted(v, p, order, arrivalVolume, ahead, since))
    ensures Held(Admitted(v, p, order, arrivalVolume, ahead, since)) == Held(v) + {order}
  {
    var n := AheadOf(p, order, arrivalVolume, ahead);
    if n > 0 {
      QueueOneMore(v, Queued(order, n, if ahead.Some? then since else None));
    } else {
      FreshOrder(v, order);
      InsertedWf(v.inner.book, order);
    }
  }

  lemma SubmittedHeld(v: L1V, p: Policy, order: Order, now: int, ahead: Option<int>, sampleAtArrival: bool)
    requires WfL1(v) && order.id !in HeldIds(v)
    ensures WfL1(Submitted(v, p, order, now, ahead, sampleAtArrival))
    ensures Held(Submitted(v, p, order, now, ahead, sampleAtArrival)) == Held(v) + {order}
  {
    var delay := EntryDelay(p, order.id);
    if if sampleAtArrival then delay > 0 else !p.entry.IsZero() {
      var liveAt := Clamp64(now + delay);
      PendOneMore(v, Pending(order, liveAt, ahead, sampleAtArrival, if sampleAtArrival then Some(liveAt) else None));
    } else {
      AdmittedHeld(v, p, order, v.lastTraded, ahead, if sampleAtArrival then Some(now) else None);
    }
  }

  // ----- withdrawal

  lemma {:induction false} PendingWithoutFacts(s: seq<Pending>, id: nat)
    ensures forall x :: x in PendingWithout(s, id) <==> x in s && x.order.id != id
    ensures |PendingWithout(s, id)| <= |s|
    ensures |PendingWithout(s, id)| == |s| <==> forall x :: x in s ==> x.order.id != id
    ensures DistinctPending(s) ==> DistinctPending(PendingWithout(s, id))
  {
    if s != [] {
      PendingWithoutFacts(s[1..], id);
      assert s == [s[0]] + s[1..];
      var t := PendingWithout(s[1..], id);
      if DistinctPending(s) {
        assert DistinctPending(s[1..]);
        forall j | 0 <= j < |t| ensures t[j].order.id != s[0].order.id {
          assert t[j] in s[1..];
        }
      }
    }
  }

  lemma {:induction false} QueuedWithoutFacts(s: seq<Queued>, id: nat)
    ensures forall x :: x in QueuedWithout(s, id) <==> x in s && x.order.id != id
    ensures |QueuedWithout(s, id)| <= |s|
    ensures |QueuedWithout(s, id)| == |s| <==> forall x :: x in s ==> x.order.id != id
    ensures DistinctQueued(s) ==> DistinctQueued(QueuedWithout(s, id))
  {
    if s != [] {
      QueuedWithoutFacts(s[1..], id);
      assert s == [s[0]] + s[1..];
      var t := QueuedWithout(s[1..], id);
      if DistinctQueued(s) {
        assert DistinctQueued(s[1..]);
        forall j | 0 <= j < |t| ensures t[j].order.id != s[0].order.id {
          assert t[j] in s[1..];
        }
      }
    }
  }

  lemma CancelledWf(v: L1V, id: nat)
    requires WfL1(v)
    ensures WfL1(Cancelled(v, id))
  {
    PendingWithoutFacts(v.pending, id);
    QueuedWithoutFacts(v.queued, id);
    RemovedWf(v.inner.book, id);
  }

  /** An id found in the first two lists is not also in the book. */
  lemma CancelFoundEarly(v: L1V, id: nat)
    requires WfL1(v)
    requires |PendingWithout(v.pending, id)| + |QueuedWithout(v.queued, id)| < |v.pending| + |v.queued|
    ensures forall o :: o in Orders(v.inner.book) ==> o.id != id
    ensures exists o :: o in Held(v) && o.id == id
  {
    PendingWithoutFacts(v.pending, id);
    QueuedWithoutFacts(v.queued, id);
    if |PendingWithout(v.pending, id)| < |v.pending| {
      var x :| x in v.pending && x.order.id == id;
      assert x.order in Held(v);
    } else {
      var x :| x in v.queued && x.order.id == id;
      assert x.order in Held(v);
    }
  }

  /** A cancel finds the order wherever it is and takes out nothing else. */
  lemma CancelledHeld(v: L1V, id: nat)
    requires WfL1(v)
    ensures WfL1(Cancelled(v, id))
    ensures Held(Cancelled(v, id)) == set o | o in Held(v) && o.id != id
  {
    CancelledWf(v, id);
    CancelledParts(v, id);
    RemovedWf(v.inner.book, id);
    if |PendingWithout(v.pending, id)| + |QueuedWithout(v.queued, id)| < |v.pending| + |v.queued| {
      CancelFoundEarly(v, id);
    }
  }

  lemma CancelledParts(v: L1V, id: nat)
    ensures PendingOrders(PendingWithout(v.pending, id)) == set o | o in PendingOrders(v.pending) && o.id != id
    ensures QueuedOrders(QueuedWithout(v.queued, id)) == set o | o in QueuedOrders(v.queued) && o.id != id
  {
    PendingWithoutFacts(v.pending, id);
    QueuedWithoutFacts(v.queued, id);
    var p, q := PendingWithout(v.pending, id), QueuedWithout(v.queued, id);
    forall o | o in PendingOrders(v.pending) && o.id != id ensures o in PendingOrders(p) {
      var x :| x in v.pending && x.order == o;
      assert x in p;
    }
    forall o | o in QueuedOrders(v.queued) && o.id != id ensures o in QueuedOrders(q) {
      var x :| x in v.queued && x.order == o;
      assert x in q;
    }
  }

  // ----- arrivals

  lemma {:induction false} ArrivalsSplit(s: seq<Pending>, now: int)
    ensures forall x :: x in Arriving(s, now) <==> x in s && x.liveAt <= now
    ensures forall x :: x in InFlight(s, now) <==> x in s && x.liveAt > now
    ensures DistinctPending(s) ==> DistinctPending(Arriving(s, now)) && DistinctPending(InFlight(s, now))
  {
    if s != [] {
      ArrivalsSplit(s[1..], now);
      assert s == [s[0]] + s[1..];
      if DistinctPending(s) {
        assert DistinctPending(s[1..]);
        var a, b := Arriving(s[1..], now), InFlight(s[1..], now);
        forall j | 0 <= j < |a| ensures a[j].order.id != s[0].order.id { assert a[j] in s[1..]; }
        forall j | 0 <= j < |b| ensures b[j].order.id != s[0].order.id { assert b[j] in s[1..]; }
      }
    }
  }

  lemma DistinctOrders(s: seq<Pending>, x: Pending, y: Pending)
    requires DistinctPending(s) && x in s && y in s && x != y
    ensures x.order.id != y.order.id
  {
    var i :| 0 <= i < |s| && s[i] == x;
    var j :| 0 <= j < |s| && s[j] == y;
    if i < j { assert s[i].order.id != s[j].order.id; } else { assert s[j].order.id != s[i].order.id; }
  }

  lemma TailFresh(s: seq<Pending>, held: set<nat>)
    requires DistinctPending(s) && s != []
    requires forall x :: x in s ==> x.order.id !in held
    ensures DistinctPending(s[1..])
    ensures forall y :: y in s[1..] ==> y.order.id !in held + {s[0].order.id}
    ensures s[0] in s && PendingOrders(s) == {s[0].order} + PendingOrders(s[1..])
  {
    forall y | y in s[1..] ensures y.order.id !in held + {s[0].order.id} {
      var j :| 0 <= j < |s[1..]| && s[1..][j] == y;
      assert s[0].order.id != s[j + 1].order.id;
      assert y in s;
    }
    assert s == [s[0]] + s[1..];
  }

  lemma {:induction false} AdmittedAllHeld(v: L1V, p: Policy, s: seq<Pending>, traded: int)
    requires WfL1(v) && DistinctPending(s)
    requires forall x :: x in s ==> x.order.id !in HeldIds(v)
    ensures WfL1(AdmittedAll(v, p, s, traded))
    ensures Held(AdmittedAll(v, p, s, traded)) == Held(v) + PendingOrders(s)
    decreases |s|
  {
    if s != [] {
      TailFresh(s, HeldIds(v));
      var w := Admitted(v, p, s[0].order, Some(traded), s[0].ahead, s[0].since);
      AdmittedHeld(v, p, s[0].order, Some(traded), s[0].ahead, s[0].since);
      assert HeldIds(w) == HeldIds(v) + {s[0].order.id};
      AdmittedAllHeld(w, p, s[1..], traded);
    }
  }

  lemma AfterArrivalsHeld(v: L1V, p: Policy, t: Tick)
    requires WfL1(v)
    ensures WfL1(AfterArrivals(v, p, t))
    ensures Held(AfterArrivals(v, p, t)) == Held(v)
  {
    var now := t.stamp.exch;
    ArrivalsSplit(v.pending, now);
    var a, b := Arriving(v.pending, now), InFlight(v.pending, now);
    var w := v.(pending := b);
    assert forall o :: o in Held(w) ==> o in Held(v);
    forall x | x in a ensures x.order.id !in HeldIds(w) {
      forall y | y in b ensures y.order.id != x.order.id { DistinctOrders(v.pending, x, y); }
    }
    AdmittedAllHeld(w, p, a, Traded(v.prevVolume, t));
    assert PendingOrders(v.pending) == PendingOrders(a) + PendingOrders(b);
  }

  // ----- queues

  lemma {:induction false} QueuesSplit(s: seq<Queued>, prevAt: Option<int>, t: Tick, traded: int)
    ensures forall x :: x in StillQueued(s, prevAt, t, traded) ==>
      exists q :: q in s && !Promoted(q, prevAt, t, traded) && x == Depleted(q, prevAt, t, traded)
    ensures forall q :: q in s && !Promoted(q, prevAt, t, traded) ==> Depleted(q, prevAt, t, traded) in StillQueued(s, prevAt, t, traded)
    ensures forall o :: o in PromotedOrders(s, prevAt, t, traded) ==> exists q :: q in s && Promoted(q, prevAt, t, traded) && q.order == o
    ensures forall q :: q in s && Promoted(q, prevAt, t, traded) ==> q.order in PromotedOrders(s, prevAt, t, traded)
  {
    if s != [] {
      QueuesSplit(s[1..], prevAt, t, traded);
      assert s == [s[0]] + s[1..];
    }
  }

  ghost predicate DistinctIds(s: seq<Order>) {
    forall i, j :: 0 <= i < j < |s| ==> s[i].id != s[j].id
  }

  lemma {:induction false} QueuesDistinct(s: seq<Queued>, prevAt: Option<int>, t: Tick, traded: int)
    requires DistinctQueued(s)
    ensures DistinctQueued(StillQueued(s, prevAt, t, traded))
    ensures DistinctIds(PromotedOrders(s, prevAt, t, traded))
    ensures forall x, o :: x in StillQueued(s, prevAt, t, traded) && o in PromotedOrders(s, prevAt, t, traded) ==> x.order.id != o.id
  {
    if s != [] {
      assert DistinctQueued(s[1..]);
      QueuesDistinct(s[1..], prevAt, t, traded);
      QueuesSplit(s[1..], prevAt, t, traded);
      assert forall q :: q in s[1..] ==> q.order.id != s[0].order.id;
      var kept, out := StillQueued(s[1..], prevAt, t, traded), PromotedOrders(s[1..], prevAt, t, traded);
      forall j | 0 <= j < |kept| ensures kept[j].order.id != s[0].order.id {
        assert kept[j] in kept;
        var q :| q in s[1..] && !Promoted(q, prevAt, t, traded) && kept[j] == Depleted(q, prevAt, t, traded);
      }
      forall j | 0 <= j < |out| ensures out[j].id != s[0].order.id {
        assert out[j] in out;
        var q :| q in s[1..] && Promoted(q, prevAt, t, traded) && q.order == out[j];
      }
    }
  }

  lemma {:induction false} InsertedAllWf(b: BookV, s: seq<Order>)
    requires Wf(b) && DistinctIds(s)
    requires forall o :: o in s ==> o.id !in Ids(b)
    ensures Wf(InsertedEach(b, s))
    ensures Orders(InsertedEach(b, s)) == Orders(b) + set o | o in s
    decreases |s|
  {
    if s != [] {
      assert s[0] in s;
      InsertedWf(b, s[0]);
      forall o | o in s[1..] ensures o.id !in Ids(Inserted(b, s[0])) {
        assert o in s;
        var j :| 0 <= j < |s[1..]| && s[1..][j] == o;
        assert s[0].id != s[j + 1].id;
      }
      InsertedAllWf(Inserted(b, s[0]), s[1..]);
      assert s == [s[0]] + s[1..];
    }
  }

  /** Promotion hands the book exactly the promoted orders, and the rest stay queued. */
  lemma QueueMoves(v: L1V, t: Tick, traded: int)
    requires WfL1(v)
    ensures var w := AfterQueues(v, t, traded); var out := PromotedOrders(v.queued, v.prevAt, t, traded);
      && Wf(w.inner.book) && DistinctQueued(w.queued)
      && Orders(w.inner.book) == Orders(v.inner.book) + (set o | o in out)
      && QueuedOrders(v.queued) == QueuedOrders(w.queued) + (set o | o in out)
      && (forall y, o :: y in w.queued && o in out ==> y.order.id != o.id)
  {
    var s, kept, out := v.queued, StillQueued(v.queued, v.prevAt, t, traded), PromotedOrders(v.queued, v.prevAt, t, traded);
    QueuesSplit(s, v.prevAt, t, traded);
    QueuesDistinct(s, v.prevAt, t, traded);
    IdsAreOrderIds(v.inner.book);
    forall o | o in out ensures o.id !in Ids(v.inner.book) {
      var q :| q in s && q.order == o;
    }
    InsertedAllWf(v.inner.book, out);
    forall o | o in QueuedOrders(s) ensures o in QueuedOrders(kept) || o in out {
      var q :| q in s && q.order == o;
      if !Promoted(q, v.prevAt, t, traded) { assert Depleted(q, v.prevAt, t, traded) in kept; }
    }
    assert forall o :: o in out ==> o in QueuedOrders(s);
    assert forall y :: y in kept ==> y.order in QueuedOrders(s);
  }

  lemma AfterQueuesHeld(v: L1V, t: Tick, traded: int)
    requires WfL1(v)
    ensures WfL1(AfterQueues(v, t, traded))
    ensures Held(AfterQueues(v, t, traded)) == Held(v)
  {
    QueueMoves(v, t, traded);
    var w := AfterQueues(v, t, traded);
    assert forall x, o :: x in v.pending && o in QueuedOrders(v.queued) ==> x.order.id != o.id;
    assert forall y :: y in w.queued ==> y.order in QueuedOrders(v.queued) by {
      assert forall y :: y in w.queued ==> y.order in QueuedOrders(w.queued);
    }
    assert forall o, y :: o in Orders(v.inner.book) && y in QueuedOrders(v.queued) ==> o.id != y.id;
  }

  lemma BeforeMatchHeld(v: L1V, p: Policy, t: Tick)
    requires WfL1(v)
    ensures WfL1(BeforeMatch(v, p, t))
    ensures Held(BeforeMatch(v, p, t)) == Held(v)
  {
    AfterArrivalsHeld(v, p, t);
    AfterQueuesHeld(AfterArrivals(v, p, t), t, Traded(v.prevVolume, t));
  }

  lemma {:induction false} AdmittedAllKeeps(v: L1V, p: Policy, s: seq<Pending>, traded: int)
    ensures var w := AdmittedAll(v, p, s, traded);
      w.inner.prevPrice == v.inner.prevPrice && w.inner.prevStamp == v.inner.prevStamp && w.inner.traded == v.inner.traded &&
      w.inner.instrument == v.inner.instrument && w.delayed == v.delayed && w.prevVolume == v.prevVolume && w.prevAt == v.prevAt &&
      w.lastTraded == v.lastTraded && w.pending == v.pending
    decreases |s|
  {
    if s != [] {
      AdmittedAllKeeps(Admitted(v, p, s[0].order, Some(traded), s[0].ahead, s[0].since), p, s[1..], traded);
    }
  }

  /** Before matching only orders move; the price path and the accounts stay put. */
  lemma BeforeMatchKeeps(v: L1V, p: Policy, t: Tick)
    ensures var w := BeforeMatch(v, p, t);
      w.inner.prevPrice == v.inner.prevPrice && w.inner.prevStamp == v.inner.prevStamp && w.inner.traded == v.inner.traded &&
      w.inner.instrument == v.inner.instrument && w.delayed == v.delayed && w.prevVolume == v.prevVolume && w.prevAt == v.prevAt
  {
    AdmittedAllKeeps(v.(pending := InFlight(v.pending, t.stamp.exch)), p, Arriving(v.pending, t.stamp.exch), Traded(v.prevVolume, t));
  }

  /** A tick keeps every held order except those in the book that the tick hit. */
  lemma TickedHeld(v: L1V, p: Policy, m: Measure, t: Tick)
    requires WfL1(v)
    ensures WfL1(L1Ticked(v, p, m, t))
    ensures Held(L1Ticked(v, p, m, t)) ==
      set o | o in Held(v) && !(o in Orders(BeforeMatch(v, p, t).inner.book) && Hit(o, v.inner.prevPrice, t))
  {
    var w := BeforeMatch(v, p, t);
    BeforeMatchHeld(v, p, t);
    BeforeMatchKeeps(v, p, t);
    SurvivorsAreTheUnhit(w.inner, t);
    forall o | o in PendingOrders(w.pending) || o in QueuedOrders(w.queued) ensures o !in Orders(w.inner.book) {
      if o in PendingOrders(w.pending) { var x :| x in w.pending && x.order == o; }
      else { var x :| x in w.queued && x.order == o; }
    }
  }
}
