/** The backtest's loop over observations: what reaches a strategy and in which order, and
    where its intents go (crates/oq-backtest/src/run.rs, crates/oq-strategy/src/lib.rs). */
module Run {
  import opened Numbers
  import opened Market
  import opened Events
  import opened Account
  import L1
  import Matching

  // ----- configuration and vocabulary

  datatype FundingRate = FundingRate(at: int, rate: int, mark: int)

  datatype Config = Config(
    instrument: nat, tickCash: int, table: TierTable, balance: int, enforced: bool, mode: PositionMode, fees: Fees,
    policy: Option<L1.Policy>, funding: seq<FundingRate>)

  datatype Context = Context(
    instrument: nat, tick: Tick, position: int, entry: int, shortPosition: int, shortEntry: int, equity: int, working: nat)

  datatype Intent =
    | Limit(instrument: nat, id: nat, side: Side, price: int, qty: int, offset: Offset)
    | AtMarket(instrument: nat, id: nat, side: Side, qty: int, offset: Offset)
    | CancelOne(id: nat)
    | CancelEvery

  datatype Ending = EndFilled | EndCancelled

  datatype VenueClosed = VenueClosed(instrument: nat, leg: Side, qty: int, price: int, at: int)

  /** What a callback leaves behind: the strategy's next state and what it asked for. */
  datatype Reaction<S> = Reaction(state: S, intents: seq<Intent>)

  /** A deterministic strategy is its callbacks over a state. */
  datatype Strategy<!S> = Strategy(
    onFill: (S, Fill, Context) -> Reaction<S>,
    onVenueClosed: (S, VenueClosed, Context) -> Reaction<S>,
    onEnded: (S, nat, Ending) -> Reaction<S>,
    onTick: (S, Context) -> Reaction<S>,
    onPlaced: (S, nat, bool) -> S)

  /** A core is any function of a kernel and an event. Every statement about runs below holds of any
      such function; the program's is `Apply`. */
  type Core = (KernelV, Event) -> Applied

  function Advance(k: KernelV, e: Event): Applied {
    if k.state.holdings == [] then Applied(k, []) else Apply(k, e)
  }

  function MatcherOf(c: Config): Matching.Matcher {
    match c.policy
    case None => Matching.NewMatcher(c.instrument)
    case Some(p) => Matching.AtL1(L1.NewL1(c.instrument), p)
  }

  function Opened(c: Config): KernelV {
    var h := NewHolding(c.instrument, c.tickCash, c.table).(engine := MatcherOf(c));
    KernelV(StateV([h], c.mode, c.balance, 0, 0, 0, c.fees, true, false, 0, c.enforced, Simulated, 0), [])
  }

  function ContextOf(c: Config, k: KernelV, t: Tick): Context {
    if k.state.holdings == [] then Context(c.instrument, t, 0, 0, 0, 0, k.state.balance, |k.working|)
    else
      var v := k.state.holdings[0];
      Context(c.instrument, t, v.long.qty, v.long.entry, v.short.qty, v.short.entry,
              k.state.balance + Unrealized(k.state.holdings), |k.working|)
  }

  // ----- reading outputs

  function FillsIn(out: seq<Output>): seq<Fill> {
    if out == [] then []
    else FillsIn(out[..|out| - 1]) + if out[|out| - 1].Filled? then [out[|out| - 1].fill] else []
  }

  /** None, one or two closes for an output: the non-empty sides of a liquidation, long before short. */
  function Legs(o: Output): seq<VenueClosed> {
    if !o.Liquidated? then []
    else
      (if o.long == 0 then [] else [VenueClosed(o.instrument, Buy, Abs(o.long), o.price, o.at)]) +
      (if o.short == 0 then [] else [VenueClosed(o.instrument, Sell, Abs(o.short), o.price, o.at)])
  }

  function ClosesIn(out: seq<Output>): seq<VenueClosed> {
    if out == [] then [] else ClosesIn(out[..|out| - 1]) + Legs(out[|out| - 1])
  }

  function EndingOf(o: Output): Option<(nat, Ending)> {
    match o
    case Filled(f) => Some((f.order, EndFilled))
    case Withdrawn(id) => Some((id, EndCancelled))
    case _ => None
  }

  predicate Mentions(ended: seq<(nat, Ending)>, id: nat) {
    exists i :: 0 <= i < |ended| && ended[i].0 == id
  }

  /** An order reported on and no longer working is over, and is noted once. */
  function Noted(out: seq<Output>, working: seq<nat>, ended: seq<(nat, Ending)>): seq<(nat, Ending)> {
    if out == [] then ended
    else
      var before, e := Noted(out[..|out| - 1], working, ended), EndingOf(out[|out| - 1]);
      if e.Some? && e.value.0 !in working && !Mentions(before, e.value.0) then before + [e.value] else before
  }

  predicate RefusedIn(out: seq<Output>, id: nat) {
    exists i :: 0 <= i < |out| && out[i].Rejected? && out[i].id == id
  }

  // ----- funding between two ticks

  /** How many rates settled at or before `at`; the schedule is in settlement order. */
  function SettledBy(rates: seq<FundingRate>, at: int): (n: nat)
    ensures n <= |rates|
  {
    if rates == [] || rates[0].at > at then 0 else 1 + SettledBy(rates[1..], at)
  }

  function Between(rates: seq<FundingRate>, from: int, to: int): seq<FundingRate> {
    var i, j := SettledBy(rates, from), SettledBy(rates, to);
    if i <= j then rates[i..j] else []
  }

  function FundingEvent(r: FundingRate): Event {
    Funding(None, r.at, r.rate, r.mark)
  }

  /** The kernel after some settlements, and what the venue closed on the way. */
  datatype Paid = Paid(kernel: KernelV, closed: seq<VenueClosed>)

  function PayEach(core: Core, k: KernelV, due: seq<FundingRate>): Paid {
    if due == [] then Paid(k, [])
    else
      var before := PayEach(core, k, due[..|due| - 1]);
      var a := core(before.kernel, FundingEvent(due[|due| - 1]));
      Paid(a.kernel, before.closed + ClosesIn(a.out))
  }

  // ----- what a recorded strategy hears

  /** The strategy's state, the number of ticks begun, and all intents so far, each tagged with a
      tick's number. */
  datatype Tape<S> = Tape(inner: S, seen: nat, sent: seq<(nat, Intent)>)

  /** Intents tagged with their tick. */
  function Tagged(tick: nat, xs: seq<Intent>): (r: seq<(nat, Intent)>)
    ensures |r| == |xs|
    ensures forall i :: 0 <= i < |r| ==> r[i] == (tick, xs[i])
  {
    seq(|xs|, i requires 0 <= i < |xs| => (tick, xs[i]))
  }

  datatype Heard<S> = Heard(tape: Tape<S>, intents: seq<Intent>) {
    function Take(r: Reaction<S>): Heard<S> {
      Heard(Tape(r.state, tape.seen, tape.sent + Tagged(tape.seen, r.intents)), intents + r.intents)
    }
  }

  function HearFills<S>(rules: Strategy<S>, h: Heard<S>, fs: seq<Fill>, c: Context): Heard<S> {
    if fs == [] then h
    else
      var before := HearFills(rules, h, fs[..|fs| - 1], c);
      before.Take(rules.onFill(before.tape.inner, fs[|fs| - 1], c))
  }

  function HearCloses<S>(rules: Strategy<S>, h: Heard<S>, xs: seq<VenueClosed>, c: Context): Heard<S> {
    if xs == [] then h
    else
      var before := HearCloses(rules, h, xs[..|xs| - 1], c);
      before.Take(rules.onVenueClosed(before.tape.inner, xs[|xs| - 1], c))
  }

  function HearEndings<S>(rules: Strategy<S>, h: Heard<S>, es: seq<(nat, Ending)>): Heard<S> {
    if es == [] then h
    else
      var before := HearEndings(rules, h, es[..|es| - 1]);
      before.Take(rules.onEnded(before.tape.inner, es[|es| - 1].0, es[|es| - 1].1))
  }

  /** The tick itself: its number is the count of those before it. */
  function HearTick<S>(rules: Strategy<S>, h: Heard<S>, c: Context): Heard<S> {
    var r := rules.onTick(h.tape.inner, c);
    Heard(Tape(r.state, h.tape.seen + 1, h.tape.sent + Tagged(h.tape.seen, r.intents)), h.intents + r.intents)
  }

  // ----- where intents go

  /** Everything a run carries from one tick to the next. */
  datatype Desk<S> = Desk(kernel: KernelV, tape: Tape<S>, ended: seq<(nat, Ending)>, lastFunding: int, misrouted: nat) {
    function Answered(rules: Strategy<S>, id: nat, ok: bool): Desk<S> {
      this.(tape := tape.(inner := rules.onPlaced(tape.inner, id, ok)))
    }

    /** After an event: the kernel's new state, and the endings it caused. */
    function After(a: Applied): Desk<S> {
      this.(kernel := a.kernel, ended := Noted(a.out, a.kernel.working, ended))
    }
  }

  function Placement(x: Intent, t: Tick): Event
    requires x.Limit? || x.AtMarket?
  {
    match x
    case Limit(instrument, id, side, price, qty, offset) =>
      Submit(Some(instrument), id, side, Some(price), qty, offset, t.stamp)
    case AtMarket(instrument, id, side, qty, offset) =>
      Submit(Some(instrument), id, side, None, qty, offset, t.stamp)
  }

  function WithdrawEach<S>(core: Core, d: Desk<S>, ids: seq<nat>, t: Tick): Desk<S> {
    if ids == [] then d
    else
      var before := WithdrawEach(core, d, ids[..|ids| - 1], t);
      before.After(core(before.kernel, Cancel(ids[|ids| - 1], t.stamp)))
  }

  /** The desk after one intent. A foreign order leaves the kernel alone and adds one to the stray
      count; for a submission `Answered` comes before `After`. */
  function Dispatched<S>(c: Config, core: Core, rules: Strategy<S>, d: Desk<S>, x: Intent, t: Tick): Desk<S> {
    match x
    case CancelEvery => WithdrawEach(core, d, d.kernel.working, t)
    case CancelOne(id) => d.After(core(d.kernel, Cancel(id, t.stamp)))
    case _ =>
      if x.instrument != c.instrument then d.(misrouted := d.misrouted + 1).Answered(rules, x.id, false)
      else
        var a := core(d.kernel, Placement(x, t));
        d.Answered(rules, x.id, !RefusedIn(a.out, x.id)).After(a)
  }

  function DispatchAll<S>(c: Config, core: Core, rules: Strategy<S>, d: Desk<S>, xs: seq<Intent>, t: Tick): Desk<S> {
    if xs == [] then d
    else Dispatched(c, core, rules, DispatchAll(c, core, rules, d, xs[..|xs| - 1], t), xs[|xs| - 1], t)
  }

  // ----- one tick, and a run

  function DueBy(c: Config, lastFunding: int, now: int): seq<FundingRate> {
    if c.funding == [] then [] else Between(c.funding, lastFunding, now)
  }

  /** The four kinds of callback of a tick, in turn. */
  function Hearing<S>(rules: Strategy<S>, tape: Tape<S>, fills: seq<Fill>, closed: seq<VenueClosed>,
                      ended: seq<(nat, Ending)>, ctx: Context): Heard<S> {
    HearTick(rules, HearEndings(rules, HearCloses(rules, HearFills(rules, Heard(tape, []), fills, ctx), closed, ctx), ended), ctx)
  }

  function Ticked<S>(c: Config, core: Core, rules: Strategy<S>, d: Desk<S>, t: Tick): Desk<S> {
    var now := t.stamp.exch;
    var paid := PayEach(core, d.kernel, DueBy(c, d.lastFunding, now));
    var a := core(paid.kernel, TickSeen(None, t));
    var ended := Noted(a.out, a.kernel.working, d.ended);
    var h := Hearing(rules, d.tape, FillsIn(a.out), paid.closed + ClosesIn(a.out), ended, ContextOf(c, a.kernel, t));
    var last := if c.funding == [] then d.lastFunding else Max(d.lastFunding, now);
    DispatchAll(c, core, rules, Desk(a.kernel, h.tape, [], last, d.misrouted), h.intents, t)
  }

  function Start<S>(c: Config, s: S): Desk<S> {
    Desk(Opened(c), Tape(s, 0, []), [], I64_MIN, 0)
  }

  function After<S>(c: Config, core: Core, rules: Strategy<S>, s: S, ticks: seq<Tick>): Desk<S> {
    if ticks == [] then Start(c, s)
    else Ticked(c, core, rules, After(c, core, rules, s, ticks[..|ticks| - 1]), ticks[|ticks| - 1])
  }

  /** Everything the strategy sent over a run, each with its tick. */
  function SentOver<S>(c: Config, core: Core, rules: Strategy<S>, s: S, ticks: seq<Tick>): seq<(nat, Intent)> {
    After(c, core, rules, s, ticks).tape.sent
  }

  // ----- intents belong to their tick

  ghost predicate Extends<S>(a: Tape<S>, b: Tape<S>, tick: nat) {
    |a.sent| <= |b.sent| && b.sent[..|a.sent|] == a.sent &&
    forall i :: |a.sent| <= i < |b.sent| ==> b.sent[i].0 == tick
  }

  lemma TakeExtends<S>(a: Tape<S>, h: Heard<S>, r: Reaction<S>)
    requires Extends(a, h.tape, h.tape.seen)
    ensures Extends(a, h.Take(r).tape, h.tape.seen) && h.Take(r).tape.seen == h.tape.seen
  {
  }

  lemma {:induction false} FillsExtend<S>(rules: Strategy<S>, a: Tape<S>, h: Heard<S>, fs: seq<Fill>, c: Context)
    requires Extends(a, h.tape, h.tape.seen)
    ensures var r := HearFills(rules, h, fs, c); r.tape.seen == h.tape.seen && Extends(a, r.tape, h.tape.seen)
  {
    if fs != [] {
      FillsExtend(rules, a, h, fs[..|fs| - 1], c);
      var before := HearFills(rules, h, fs[..|fs| - 1], c);
      TakeExtends(a, before, rules.onFill(before.tape.inner, fs[|fs| - 1], c));
    }
  }

  lemma {:induction false} ClosesExtend<S>(rules: Strategy<S>, a: Tape<S>, h: Heard<S>, xs: seq<VenueClosed>, c: Context)
    requires Extends(a, h.tape, h.tape.seen)
    ensures var r := HearCloses(rules, h, xs, c); r.tape.seen == h.tape.seen && Extends(a, r.tape, h.tape.seen)
  {
    if xs != [] {
      ClosesExtend(rules, a, h, xs[..|xs| - 1], c);
      var before := HearCloses(rules, h, xs[..|xs| - 1], c);
      TakeExtends(a, before, rules.onVenueClosed(before.tape.inner, xs[|xs| - 1], c));
    }
  }

  lemma {:induction false} EndingsExtend<S>(rules: Strategy<S>, a: Tape<S>, h: Heard<S>, es: seq<(nat, Ending)>)
    requires Extends(a, h.tape, h.tape.seen)
    ensures var r := HearEndings(rules, h, es); r.tape.seen == h.tape.seen && Extends(a, r.tape, h.tape.seen)
  {
    if es != [] {
      EndingsExtend(rules, a, h, es[..|es| - 1]);
      var before := HearEndings(rules, h, es[..|es| - 1]);
      TakeExtends(a, before, rules.onEnded(before.tape.inner, es[|es| - 1].0, es[|es| - 1].1));
    }
  }

  lemma HearingExtends<S>(rules: Strategy<S>, tape: Tape<S>, fills: seq<Fill>, closed: seq<VenueClosed>,
                          ended: seq<(nat, Ending)>, c: Context)
    ensures var r := Hearing(rules, tape, fills, closed, ended, c);
      r.tape.seen == tape.seen + 1 && Extends(tape, r.tape, tape.seen)
  {
    var h0 := Heard(tape, []);
    FillsExtend(rules, tape, h0, fills, c);
    var h1 := HearFills(rules, h0, fills, c);
    ClosesExtend(rules, tape, h1, closed, c);
    var h2 := HearCloses(rules, h1, closed, c);
    EndingsExtend(rules, tape, h2, ended);
    var h3 := HearEndings(rules, h2, ended);
    TakeExtends(tape, h3, rules.onTick(h3.tape.inner, c));
  }

  lemma {:induction false} WithdrawKeepsTape<S>(core: Core, d: Desk<S>, ids: seq<nat>, t: Tick)
    ensures WithdrawEach(core, d, ids, t).tape == d.tape
  {
    if ids != [] {
      WithdrawKeepsTape(core, d, ids[..|ids| - 1], t);
    }
  }

  lemma {:induction false} DispatchKeepsTape<S>(c: Config, core: Core, rules: Strategy<S>, d: Desk<S>, xs: seq<Intent>, t: Tick)
    ensures var r := DispatchAll(c, core, rules, d, xs, t); r.tape.seen == d.tape.seen && r.tape.sent == d.tape.sent
  {
    if xs != [] {
      DispatchKeepsTape(c, core, rules, d, xs[..|xs| - 1], t);
      var before := DispatchAll(c, core, rules, d, xs[..|xs| - 1], t);
      WithdrawKeepsTape(core, before, before.kernel.working, t);
    }
  }

  lemma TickExtends<S>(c: Config, core: Core, rules: Strategy<S>, d: Desk<S>, t: Tick)
    ensures var r := Ticked(c, core, rules, d, t);
      r.tape.seen == d.tape.seen + 1 && Extends(d.tape, r.tape, d.tape.seen)
  {
    var now := t.stamp.exch;
    var paid := PayEach(core, d.kernel, DueBy(c, d.lastFunding, now));
    var a := core(paid.kernel, TickSeen(None, t));
    var ended := Noted(a.out, a.kernel.working, d.ended);
    var ctx := ContextOf(c, a.kernel, t);
    HearingExtends(rules, d.tape, FillsIn(a.out), paid.closed + ClosesIn(a.out), ended, ctx);
    var h := Hearing(rules, d.tape, FillsIn(a.out), paid.closed + ClosesIn(a.out), ended, ctx);
    var last := if c.funding == [] then d.lastFunding else Max(d.lastFunding, now);
    DispatchKeepsTape(c, core, rules, Desk(a.kernel, h.tape, [], last, d.misrouted), h.intents, t);
  }

  /** Intents sent through a tick. */
  function Through(sent: seq<(nat, Intent)>, tick: int): seq<(nat, Intent)> {
    if sent == [] then []
    else Through(sent[..|sent| - 1], tick) + if sent[|sent| - 1].0 <= tick then [sent[|sent| - 1]] else []
  }

  lemma {:induction false} ThroughAll(sent: seq<(nat, Intent)>, tick: int)
    requires forall i :: 0 <= i < |sent| ==> sent[i].0 <= tick
    ensures Through(sent, tick) == sent
  {
    if sent != [] {
      ThroughAll(sent[..|sent| - 1], tick);
    }
  }

  lemma {:induction false} ThroughLater(sent: seq<(nat, Intent)>, n: nat, tick: int)
    requires n <= |sent| && forall i :: n <= i < |sent| ==> sent[i].0 > tick
    ensures Through(sent, tick) == Through(sent[..n], tick)
  {
    if |sent| > n {
      ThroughLater(sent[..|sent| - 1], n, tick);
      assert sent[..|sent| - 1][..n] == sent[..n];
    } else {
      assert sent[..n] == sent;
    }
  }

  /** Over a run every intent belongs to a tick of the run, in order. */
  lemma {:induction false} SentInOrder<S>(c: Config, core: Core, rules: Strategy<S>, s: S, ticks: seq<Tick>)
    ensures After(c, core, rules, s, ticks).tape.seen == |ticks|
    ensures var sent := SentOver(c, core, rules, s, ticks);
      (forall i :: 0 <= i < |sent| ==> sent[i].0 < |ticks|) && (forall i, j :: 0 <= i <= j < |sent| ==> sent[i].0 <= sent[j].0)
  {
    if ticks != [] {
      var n := |ticks| - 1;
      SentInOrder(c, core, rules, s, ticks[..n]);
      TickExtends(c, core, rules, After(c, core, rules, s, ticks[..n]), ticks[n]);
      Sorted(SentOver(c, core, rules, s, ticks[..n]), SentOver(c, core, rules, s, ticks), n);
    }
  }

  lemma Sorted(a: seq<(nat, Intent)>, b: seq<(nat, Intent)>, n: nat)
    requires |a| <= |b| && b[..|a|] == a && (forall i :: |a| <= i < |b| ==> b[i].0 == n)
    requires (forall i :: 0 <= i < |a| ==> a[i].0 < n) && (forall i, j :: 0 <= i <= j < |a| ==> a[i].0 <= a[j].0)
    ensures (forall i :: 0 <= i < |b| ==> b[i].0 <= n) && (forall i, j :: 0 <= i <= j < |b| ==> b[i].0 <= b[j].0)
  {
    forall i | 0 <= i < |a| ensures b[i] == a[i] {
      assert b[i] == b[..|a|][i];
    }
  }

  lemma OneMoreTick<S>(c: Config, core: Core, rules: Strategy<S>, s: S, ticks: seq<Tick>, t: Tick)
    ensures After(c, core, rules, s, ticks + [t]) == Ticked(c, core, rules, After(c, core, rules, s, ticks), t)
  {
    assert (ticks + [t])[..|ticks|] == ticks;
  }

  /** A later tick adds nothing to what was sent through an earlier one. */
  lemma LaterTickAddsNothing<S>(c: Config, core: Core, rules: Strategy<S>, s: S, ticks: seq<Tick>, t: Tick, p: nat)
    requires p < |ticks|
    ensures Through(SentOver(c, core, rules, s, ticks + [t]), p) == Through(SentOver(c, core, rules, s, ticks), p)
  {
    OneMoreTick(c, core, rules, s, ticks, t);
    SentInOrder(c, core, rules, s, ticks);
    TickExtends(c, core, rules, After(c, core, rules, s, ticks), t);
    Suffix(SentOver(c, core, rules, s, ticks), SentOver(c, core, rules, s, ticks + [t]), |ticks|, p);
  }

  lemma Suffix(a: seq<(nat, Intent)>, b: seq<(nat, Intent)>, n: nat, p: nat)
    requires p < n && |a| <= |b| && b[..|a|] == a && forall i :: |a| <= i < |b| ==> b[i].0 == n
    ensures Through(b, p) == Through(a, p)
  {
    ThroughLater(b, |a|, p);
  }

  lemma WholeRunIsThrough<S>(c: Config, core: Core, rules: Strategy<S>, s: S, ticks: seq<Tick>, p: nat)
    requires |ticks| == p + 1
    ensures Through(SentOver(c, core, rules, s, ticks), p) == SentOver(c, core, rules, s, ticks)
  {
    SentInOrder(c, core, rules, s, ticks);
    ThroughAll(SentOver(c, core, rules, s, ticks), p);
  }

  /** One more tick after `p` never changes what was sent through `p`. */
  ghost predicate Settles(f: seq<Tick> -> seq<(nat, Intent)>, p: nat) {
    forall xs, t :: |xs| > p ==> Through(f(xs + [t]), p) == Through(f(xs), p)
  }

  lemma {:induction false} LaterTicksAddNothing(f: seq<Tick> -> seq<(nat, Intent)>, a: seq<Tick>, b: seq<Tick>, p: nat)
    requires Settles(f, p) && |a| == p + 1
    ensures Through(f(a + b), p) == Through(f(a), p)
  {
    if b == [] {
      assert a + b == a;
    } else {
      var m := |b| - 1;
      LaterTicksAddNothing(f, a, b[..m], p);
      var xs := a + b[..m];
      assert a + b == xs + [b[m]];
      assert Through(f(xs + [b[m]]), p) == Through(f(xs), p);
    }
  }

  lemma PrefixDecides(f: seq<Tick> -> seq<(nat, Intent)>, ticks: seq<Tick>, p: nat)
    requires Settles(f, p) && p < |ticks| && Through(f(ticks[..p + 1]), p) == f(ticks[..p + 1])
    ensures Through(f(ticks), p) == f(ticks[..p + 1])
  {
    LaterTicksAddNothing(f, ticks[..p + 1], ticks[p + 1..], p);
    assert ticks[..p + 1] + ticks[p + 1..] == ticks;
  }

  /** The run as a function of its ticks alone. */
  function Sender<S>(c: Config, core: Core, rules: Strategy<S>, s: S): seq<Tick> -> seq<(nat, Intent)> {
    (xs: seq<Tick>) => SentOver(c, core, rules, s, xs)
  }

  lemma SendingSettles<S>(c: Config, core: Core, rules: Strategy<S>, s: S, p: nat)
    ensures Settles(Sender(c, core, rules, s), p)
  {
    var f := Sender(c, core, rules, s);
    forall xs, t | |xs| > p ensures Through(f(xs + [t]), p) == Through(f(xs), p) {
      LaterTickAddsNothing(c, core, rules, s, xs, t, p);
    }
  }

  lemma SenderWhole<S>(c: Config, core: Core, rules: Strategy<S>, s: S, ticks: seq<Tick>, p: nat)
    requires |ticks| == p + 1
    ensures Through(Sender(c, core, rules, s)(ticks), p) == Sender(c, core, rules, s)(ticks)
  {
    WholeRunIsThrough(c, core, rules, s, ticks, p);
  }

  /** Prefix invariance of the loop: what was sent through a tick depends on the ticks through
      it alone. */
  lemma PrefixSendsTheSame<S>(c: Config, core: Core, rules: Strategy<S>, s: S, ticks: seq<Tick>, p: nat)
    requires p < |ticks|
    ensures Through(Sender(c, core, rules, s)(ticks), p) == Sender(c, core, rules, s)(ticks[..p + 1])
  {
    SendingSettles(c, core, rules, s, p);
    SenderWhole(c, core, rules, s, ticks[..p + 1], p);
    PrefixDecides(Sender(c, core, rules, s), ticks, p);
  }
}
