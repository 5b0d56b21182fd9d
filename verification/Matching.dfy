/** The matcher a holding carries, by tier (crates/oq-core/src/matcher.rs). */
module Matching {
  import opened Numbers
  import opened Market
  import opened RestingBook
  import L0
  import L1

  datatype Matcher = AtL0(engine: L0.EngineV) | AtL1(tier: L1.L1V, policy: L1.Policy)

  function NewMatcher(instrument: nat): Matcher {
    AtL0(L0.NewEngine(instrument))
  }

  function Submitted(m: Matcher, o: Order, now: int): Matcher {
    match m
    case AtL0(e) => AtL0(e.(book := Inserted(e.book, o)))
    case AtL1(v, p) => AtL1(L1.Submitted(v, p, o, now, None, false), p)
  }

  function Without(m: Matcher, id: nat): Matcher {
    match m
    case AtL0(e) => AtL0(e.(book := Removed(e.book, id)))
    case AtL1(v, p) => AtL1(L1.Cancelled(v, id), p)
  }

  function Holds(m: Matcher, id: nat): bool {
    match m
    case AtL0(e) => HasId(All(e.book), id)
    case AtL1(v, _) =>
      |L1.PendingWithout(v.pending, id)| + |L1.QueuedWithout(v.queued, id)| < |v.pending| + |v.queued|
      || HasId(All(v.inner.book), id)
  }

  function Emptied(m: Matcher): Matcher {
    match m
    case AtL0(e) => AtL0(e.(book := BookV([], [], [], [], e.book.nextArrival)))
    case AtL1(v, p) => AtL1(L1.AllCancelled(v), p)
  }

  function Ticked(m: Matcher, t: Tick): Matcher {
    match m
    case AtL0(e) => AtL0(L0.Ticked(e, t))
    case AtL1(v, p) => AtL1(L1.L1Ticked(v, p, L1.UNMEASURED, t), p)
  }

  function FillsOn(m: Matcher, t: Tick): seq<Fill> {
    match m
    case AtL0(e) => Plain(L0.TickFills(e, t))
    case AtL1(v, p) => Plain(L1.Released(v, p, L1.UNMEASURED, t))
  }

  /** Fills made and not yet released, for the end of a run. */
  function Unreported(m: Matcher): seq<Fill> {
    match m
    case AtL0(_) => []
    case AtL1(v, _) => Plain(L1.Drained(v))
  }

  function Drained(m: Matcher): Matcher {
    match m
    case AtL0(_) => m
    case AtL1(v, p) => AtL1(v.(delayed := []), p)
  }

  function Plain(fs: seq<L0Fill>): (r: seq<Fill>)
    ensures |r| == |fs|
  {
    seq(|fs|, i requires 0 <= i < |fs| => fs[i].fill)
  }

  /** It reports every fill as it is made, and holds none back. */
  predicate Prompt(m: Matcher) {
    m.AtL1? ==> m.policy.response.IsZero() && m.tier.delayed == []
  }
}
