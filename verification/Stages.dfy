/** An event in two stages: what it books, and the liquidation check it may end with
    (crates/oq-core/src/kernel.rs). */
module Stages {
  import opened Numbers
  import opened Market
  import opened Events
  import opened Account
  import Matching

  /** The check closes the account. */
  predicate Closes(s: StateV, mark: int) {
    s.enforce && !s.IsFlat() && Liquidatable(s, mark)
  }

  /** The price an event's liquidation check is made at, if it makes one. */
  function CheckedAt(k: KernelV, e: Event): Option<int> {
    match e
    case TickSeen(instrument, t) => if Route(k.state, instrument).Some? then Some(t.last) else None
    case Funding(instrument, at, _, mark) =>
      var h := Route(k.state, instrument);
      if h.Some? && !k.state.holdings[h.value].IsFlat() then Some(mark) else None
    case VenueFill(f, _) => if k.state.matching.Venue? then Some(f.price) else None
    case _ => None
  }

  /** What an event does before its liquidation check. */
  function BeforeCheck(k: KernelV, e: Event): Applied
    requires k.state.holdings != []
  {
    match e
    case TickSeen(instrument, t) =>
      var r := Route(k.state, instrument);
      if r.None? then Apply(k, e) else TickBooked(k, r.value, t)
    case Funding(instrument, at, rate, mark) =>
      var s := k.state.(now := at);
      if CheckedAt(k, e).None? then Apply(k, e)
      else
        var amount := SettlementOf(s.holdings[Route(s, instrument).value], rate, mark);
        Applied(k.(state := Financed(s, amount)), [Funded(amount, at)])
    case VenueFill(f, fee) => if k.state.matching.Venue? then VenueBooked(k, f, fee) else Apply(k, e)
    case _ => Apply(k, e)
  }

  function TickBooked(k: KernelV, h: nat, t: Tick): Applied
    requires h < |k.state.holdings|
  {
    var s := Marked(k.state, h, t);
    if s.matching.Venue? then Applied(k.(state := s), [])
    else BookFills(Applied(k.(state := Matched(s, h, t)), []), h, Matching.FillsOn(s.holdings[h].engine, t))
  }

  lemma AppliedIsChecked(k: KernelV, e: Event)
    requires k.state.holdings != []
    ensures CheckedAt(k, e).None? ==> Apply(k, e) == BeforeCheck(k, e)
    ensures CheckedAt(k, e).Some? ==> Apply(k, e) == Checked(BeforeCheck(k, e), CheckedAt(k, e).value)
  {
    match e
    case TickSeen(instrument, t) =>
    case Funding(instrument, at, rate, mark) =>
      assert Route(k.state.(now := at), instrument) == Route(k.state, instrument);
    case VenueFill(f, fee) =>
    case _ =>
  }

  lemma BeforeCheckCount(k: KernelV, e: Event)
    requires k.state.holdings != []
    ensures |BeforeCheck(k, e).kernel.state.holdings| == |k.state.holdings|
  {
  }

  lemma RunOneMore(k: KernelV, es: seq<Event>, n: nat)
    requires k.state.holdings != [] && n < |es|
    ensures Run(k, es[..n + 1]).kernel == Apply(Run(k, es[..n]).kernel, es[n]).kernel
  {
    assert es[..n + 1][..n] == es[..n];
  }

  lemma RunOfOneMore(k: KernelV, es: seq<Event>, e: Event)
    requires k.state.holdings != []
    ensures Run(k, es + [e]).out == Run(k, es).out + Apply(Run(k, es).kernel, e).out
    ensures Run(k, es + [e]).kernel == Apply(Run(k, es).kernel, e).kernel
  {
    assert (es + [e])[..|es|] == es;
  }

  lemma RunOfTwo(k: KernelV, a: Event, b: Event)
    requires k.state.holdings != []
    ensures Run(k, [] + [a]).kernel == Apply(k, a).kernel
    ensures Run(k, [] + [a] + [b]).kernel == Apply(Run(k, [] + [a]).kernel, b).kernel
    ensures Run(k, [] + [a] + [b]).out == Run(k, [] + [a]).out + Apply(Run(k, [] + [a]).kernel, b).out
  {
    RunOfOneMore(k, [], a);
    RunOfOneMore(k, [] + [a], b);
  }
}
