/** The L1 engine: it owns an L0 engine and edits its own lists in place
    (crates/oq-engine/src/l1.rs). */
module L1Engine {
  import opened Folding
  import opened Numbers
  import opened Market
  import opened RestingBook
  import L0Engine
  import opened L1
  import opened L1Facts

  /** `WfL1`, folded in the same way as `Sound`. */
  ghost predicate SoundL1(v: L1V) {
    forall k {:trigger Token(k)} :: Token(k) ==> WfL1(v)
  }

  lemma UnfoldL1(v: L1V)
    ensures SoundL1(v) <==> WfL1(v)
  {
    assert Token(0);
  }

  class Engine {
    const inner: L0Engine.Engine
    const policy: Policy
    var pending: seq<Pending>
    var queued: seq<Queued>
    var delayed: seq<Delayed>
    var released: seq<L0Fill>
    var prevVolume: Option<int>
    var lastTraded: Option<int>
    var prevAt: Option<int>

    ghost function View(): L1V
      reads this, inner, inner.book
    {
      L1V(inner.View(), pending, queued, delayed, prevVolume, lastTraded, prevAt)
    }

    constructor (instrument: nat, policy: Policy)
      ensures fresh(inner) && fresh(inner.book)
      ensures View() == NewL1(instrument) && this.policy == policy
    {
      inner := new L0Engine.Engine(instrument);
      this.policy := policy;
      pending, queued, delayed, released := [], [], [], [];
      prevVolume, lastTraded, prevAt := None, None, None;
    }

    /** Submit under the policy's own queue assumption. */
    method Submit(order: Order, now: int)
      requires SoundL1(View())
      modifies this, inner.book
      ensures View() == Submitted(old(View()), policy, order, now, None, false)
    {
      SubmitQueue(order, now, None, false);
    }

    /** As `Submit`, for a given number of lots ahead. */
    method SubmitWithQueue(order: Order, now: int, ahead: Option<int>)
      requires SoundL1(View())
      modifies this, inner.book
      ensures View() == Submitted(old(View()), policy, order, now, ahead, false)
    {
      SubmitQueue(order, now, ahead, false);
    }

    method SubmitQueue(order: Order, now: int, ahead: Option<int>, sampleAtArrival: bool)
      requires SoundL1(View())
      modifies this`pending, this`queued, inner.book
      ensures View() == Submitted(old(View()), policy, order, now, ahead, sampleAtArrival)
    {
      var delay := policy.entry.At(policy.draw(order.id));
      if if sampleAtArrival then delay > 0 else !policy.entry.IsZero() {
        var liveAt := Clamp64(now + delay);
        pending := pending + [Pending(order, liveAt, ahead, sampleAtArrival, if sampleAtArrival then Some(liveAt) else None)];
        return;
      }
      SortedInside(View());
      Admit(order, lastTraded, ahead, if sampleAtArrival then Some(now) else None);
    }

    /** Leaves the declared admission: queued if any lots are ahead, resting if none are. */
    method Admit(order: Order, arrivalVolume: Option<int>, ahead: Option<int>, since: Option<int>)
      requires Sorted(inner.book.View())
      modifies this`queued, inner.book
      ensures View() == Admitted(old(View()), policy, order, arrivalVolume, ahead, since)
    {
      var n := if order.price.None? then 0
               else if ahead.Some? then Max(ahead.value, 0)
               else AssumedAhead(policy.queue, arrivalVolume);
      if n > 0 {
        queued := queued + [Queued(order, n, if ahead.Some? then since else None)];
      } else {
        inner.Submit(order);
      }
    }

    /** The order is gone from all three places, and the answer says whether it was in one. */
    method Cancel(id: nat) returns (found: bool)
      requires SoundL1(View())
      modifies this`pending, this`queued, inner.book
      ensures View() == Cancelled(old(View()), id)
      ensures found <==> id in HeldIds(old(View()))
    {
      ghost var v := View();
      var before := |pending| + |queued|;
      var keptPending: seq<Pending> := [];
      var i := 0;
      while i < |pending|
        invariant 0 <= i <= |pending|
        invariant keptPending + PendingWithout(pending[i..], id) == PendingWithout(pending, id)
      {
        assert pending[i..][1..] == pending[i + 1..];
        if pending[i].order.id != id {
          keptPending := keptPending + [pending[i]];
        }
        i := i + 1;
      }
      var keptQueued: seq<Queued> := [];
      var j := 0;
      while j < |queued|
        invariant 0 <= j <= |queued|
        invariant keptQueued + QueuedWithout(queued[j..], id) == QueuedWithout(queued, id)
      {
        assert queued[j..][1..] == queued[j + 1..];
        if queued[j].order.id != id {
          keptQueued := keptQueued + [queued[j]];
        }
        j := j + 1;
      }
      pending, queued := keptPending, keptQueued;
      CancelAnswer(v, id);
      if |pending| + |queued| < before {
        return true;
      }
      found := inner.Cancel(id);
    }

    /** Empties the three places and counts them; `delayed` is as it was. */
    method CancelAll() returns (n: nat)
      requires SoundL1(View())
      modifies this`pending, this`queued, inner.book
      ensures View() == AllCancelled(old(View()))
      ensures n == |old(pending)| + |old(queued)| + |All(old(inner.book.View()))|
    {
      SoundInside(View());
      var inFlight := |pending| + |queued|;
      pending, queued := [], [];
      var resting := inner.CancelAll();
      n := inFlight + resting;
    }

    /** The retain loop and the admissions leave stage one. */
    method Arrive(t: Tick, traded: int)
      requires SoundL1(View()) && traded == Traded(prevVolume, t)
      modifies this`pending, this`queued, inner.book
      ensures View() == AfterArrivals(old(View()), policy, t)
    {
      ghost var v := View();
      var now := t.stamp.exch;
      var arriving: seq<Pending>, waiting: seq<Pending> := [], [];
      var i := 0;
      while i < |pending|
        invariant 0 <= i <= |pending|
        invariant arriving + Arriving(pending[i..], now) == Arriving(pending, now)
        invariant waiting + InFlight(pending[i..], now) == InFlight(pending, now)
      {
        assert pending[i..][1..] == pending[i + 1..];
        if pending[i].liveAt <= now {
          arriving := arriving + [pending[i]];
        } else {
          waiting := waiting + [pending[i]];
        }
        i := i + 1;
      }
      assert pending[i..] == [];
      assert arriving == Arriving(v.pending, now) && waiting == InFlight(v.pending, now);
      pending := waiting;
      SortedInside(v);
      assert View() == v.(pending := InFlight(v.pending, now));
      AdmitAll(arriving, traded);
    }

    method AdmitAll(arriving: seq<Pending>, traded: int)
      requires Sorted(inner.book.View())
      modifies this`queued, inner.book
      ensures View() == AdmittedAll(old(View()), policy, arriving, traded)
    {
      var i := 0;
      while i < |arriving|
        invariant 0 <= i <= |arriving|
        invariant Sorted(inner.book.View())
        invariant AdmittedAll(View(), policy, arriving[i..], traded) == AdmittedAll(old(View()), policy, arriving, traded)
      {
        assert arriving[i..][1..] == arriving[i + 1..];
        InsertedSorted(inner.book.View(), arriving[i].order);
        Admit(arriving[i].order, Some(traded), arriving[i].ahead, arriving[i].since);
        i := i + 1;
      }
    }

    /** What one queue has left, or nothing once its order may enter the book. */
    method DepleteOne(q: Queued, t: Tick, traded: int) returns (left: Option<Queued>)
      ensures left == if Promoted(q, prevAt, t, traded) then None else Some(Depleted(q, prevAt, t, traded))
    {
      if q.since.Some? && (prevAt.None? || prevAt.value < q.since.value) {
        return Some(q);
      }
      if q.order.price.None? {
        return None;
      }
      var price := q.order.price.value;
      if GappedThrough(t, q.order.side, price) {
        return None;
      }
      var remaining := if Touched(t, price) then q.remaining - traded else q.remaining;
      left := if remaining <= 0 then None else Some(q.(remaining := remaining));
    }

    /** The retain loop keeps the declared queues and promotes the declared orders. */
    method Deplete(t: Tick, traded: int) returns (kept: seq<Queued>, promoted: seq<Order>)
      ensures kept == StillQueued(queued, prevAt, t, traded)
      ensures promoted == PromotedOrders(queued, prevAt, t, traded)
    {
      promoted, kept := [], [];
      var s := queued;
      var i := 0;
      assert s[0..] == s;
      while i < |s|
        invariant 0 <= i <= |s|
        invariant promoted + PromotedOrders(s[i..], prevAt, t, traded) == PromotedOrders(s, prevAt, t, traded)
        invariant kept + StillQueued(s[i..], prevAt, t, traded) == StillQueued(s, prevAt, t, traded)
      {
        var left := DepleteOne(s[i], t, traded);
        assert s[i..] == [s[i]] + s[i + 1..];
        if left.Some? {
          kept := kept + [left.value];
        } else {
          promoted := promoted + [s[i].order];
        }
        i := i + 1;
      }
    }

    method DepleteQueues(t: Tick, traded: int)
      requires Sorted(inner.book.View())
      modifies this`queued, inner.book
      ensures View() == AfterQueues(old(View()), t, traded)
    {
      var kept, promoted := Deplete(t, traded);
      queued := kept;
      PromoteAll(promoted);
    }

    method PromoteAll(promoted: seq<Order>)
      requires Sorted(inner.book.View())
      modifies inner.book
      ensures View() == old(View()).(inner := old(inner.View()).(book := InsertedEach(old(inner.book.View()), promoted)))
    {
      var i := 0;
      while i < |promoted|
        invariant 0 <= i <= |promoted|
        invariant Sorted(inner.book.View())
        invariant InsertedEach(inner.book.View(), promoted[i..]) == InsertedEach(old(inner.book.View()), promoted)
      {
        assert promoted[i..][1..] == promoted[i + 1..];
        InsertedSorted(inner.book.View(), promoted[i]);
        inner.Submit(promoted[i]);
        i := i + 1;
      }
    }

    /** Fill by fill, the declared adjustment. */
    method Adjust(fills: seq<L0Fill>, measured: Measure, t: Tick, traded: int) returns (adjusted: seq<L0Fill>)
      ensures adjusted == AdjustedAll(policy, measured, fills, t, traded)
    {
      adjusted := [];
      var i := 0;
      while i < |fills|
        invariant 0 <= i <= |fills|
        invariant adjusted == AdjustedAll(policy, measured, fills[..i], t, traded)
      {
        adjusted := adjusted + [Adjusted(policy, measured, fills[i], t, traded)];
        i := i + 1;
      }
      assert fills[..i] == fills;
    }

    method Postpone(adjusted: seq<L0Fill>, now: int)
      modifies this`delayed
      ensures delayed == old(delayed) + Postponed(policy, adjusted, now)
    {
      var i := 0;
      while i < |adjusted|
        invariant 0 <= i <= |adjusted|
        invariant delayed == old(delayed) + Postponed(policy, adjusted[..i], now)
      {
        delayed := delayed + [Delayed(now + policy.response.At(policy.draw(adjusted[i].fill.order)), adjusted[i])];
        i := i + 1;
      }
      assert adjusted[..i] == adjusted;
    }

    method Release(now: int)
      modifies this`delayed, this`released
      ensures released == Ready(old(delayed), now) && delayed == HeldBack(old(delayed), now)
    {
      var all := delayed;
      var ready: seq<L0Fill>, kept: seq<Delayed> := [], [];
      var i := 0;
      assert all[0..] == all;
      while i < |all|
        invariant 0 <= i <= |all|
        invariant ready + Ready(all[i..], now) == Ready(all, now)
        invariant kept + HeldBack(all[i..], now) == HeldBack(all, now)
      {
        assert all[i..][0] == all[i] && all[i..][1..] == all[i + 1..];
        if all[i].knownAt <= now {
          ready := ready + [all[i].fill];
        } else {
          kept := kept + [all[i]];
        }
        i := i + 1;
      }
      released := ready;
      delayed := kept;
    }

    /** Hold fills back for their response delay and release what is now known. */
    method Respond(adjusted: seq<L0Fill>, now: int)
      modifies this`delayed, this`released
      ensures policy.response.IsZero() ==> released == adjusted && delayed == old(delayed)
      ensures !policy.response.IsZero() ==>
        released == Ready(old(delayed) + Postponed(policy, adjusted, now), now) &&
        delayed == HeldBack(old(delayed) + Postponed(policy, adjusted, now), now)
    {
      if !policy.response.IsZero() {
        Postpone(adjusted, now);
        Release(now);
      } else {
        released := adjusted;
      }
    }

    method OnTick(t: Tick)
      requires SoundL1(View())
      modifies this, inner, inner.book
      ensures View() == L1Ticked(old(View()), policy, UNMEASURED, t)
      ensures released == Released(old(View()), policy, UNMEASURED, t)
    {
      OnTickWithImpact(t, UNMEASURED);
    }

    /** The five stages in place leave the declared tier and release the declared fills. */
    method OnTickWithImpact(t: Tick, measured: Measure)
      requires SoundL1(View())
      modifies this, inner, inner.book
      ensures View() == L1Ticked(old(View()), policy, measured, t)
      ensures released == Released(old(View()), policy, measured, t)
    {
      ghost var v := View();
      var now := t.stamp.exch;
      var traded := if prevVolume.Some? then Max(Clamp64(t.volume - prevVolume.value), 0) else 0;
      Arrive(t, traded);
      BeforeMatchSound(v, policy, t);
      DepleteQueues(t, traded);
      inner.OnTick(t);
      var adjusted := Adjust(inner.fills, measured, t, traded);
      Respond(adjusted, now);
      if prevVolume.Some? {
        lastTraded := Some(traded);
      }
      prevVolume := Some(t.volume);
      prevAt := Some(now);
    }

    /** Empties `delayed` and returns its fills sorted by the time each is known. */
    method DrainUnreported() returns (fills: seq<L0Fill>)
      modifies this`delayed
      ensures fills == Drained(old(View()))
      ensures View() == old(View()).(delayed := [])
    {
      var held := ByKnown(delayed);
      delayed := [];
      fills := [];
      var i := 0;
      while i < |held|
        invariant 0 <= i <= |held|
        invariant fills == FillsOf(held[..i])
      {
        fills := fills + [held[i].fill];
        i := i + 1;
      }
      assert held[..i] == held;
    }
  }

  lemma SortedInside(v: L1V)
    requires SoundL1(v)
    ensures Sorted(v.inner.book)
  {
    UnfoldL1(v);
  }

  lemma SoundInside(v: L1V)
    requires SoundL1(v)
    ensures Sound(v.inner.book)
  {
    UnfoldL1(v);
    Unfold(v.inner.book);
  }

  lemma CancelAnswer(v: L1V, id: nat)
    requires SoundL1(v)
    ensures (|PendingWithout(v.pending, id)| + |QueuedWithout(v.queued, id)| < |v.pending| + |v.queued| || HasId(All(v.inner.book), id))
      <==> id in HeldIds(v)
    ensures |PendingWithout(v.pending, id)| + |QueuedWithout(v.queued, id)| <= |v.pending| + |v.queued|
  {
    UnfoldL1(v);
    PendingWithoutFacts(v.pending, id);
    QueuedWithoutFacts(v.queued, id);
    if |PendingWithout(v.pending, id)| + |QueuedWithout(v.queued, id)| < |v.pending| + |v.queued| {
      CancelFoundEarly(v, id);
    }
    if HasId(All(v.inner.book), id) {
      var i :| 0 <= i < |All(v.inner.book)| && All(v.inner.book)[i].order.id == id;
      assert All(v.inner.book)[i] in All(v.inner.book);
      assert All(v.inner.book)[i].order in Held(v);
    }
    if id in HeldIds(v) {
      var o :| o in Held(v) && o.id == id;
      if o in Orders(v.inner.book) {
        var r :| r in All(v.inner.book) && r.order == o;
      } else if o in PendingOrders(v.pending) {
        var x :| x in v.pending && x.order == o;
      } else {
        var x :| x in v.queued && x.order == o;
      }
    }
  }

  lemma BeforeMatchSound(v: L1V, p: Policy, t: Tick)
    requires SoundL1(v)
    ensures Sorted(AfterArrivals(v, p, t).inner.book)
    ensures Sound(BeforeMatch(v, p, t).inner.book)
    ensures AfterArrivals(v, p, t).prevAt == v.prevAt && AfterArrivals(v, p, t).prevVolume == v.prevVolume
  {
    UnfoldL1(v);
    AfterArrivalsHeld(v, p, t);
    BeforeMatchHeld(v, p, t);
    AdmittedAllKeeps(v.(pending := InFlight(v.pending, t.stamp.exch)), p, Arriving(v.pending, t.stamp.exch), Traded(v.prevVolume, t));
    Unfold(BeforeMatch(v, p, t).inner.book);
  }
}
