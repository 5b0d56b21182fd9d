/** The run loop as a program: a kernel driven tick by tick, a recorder around the strategy
    (crates/oq-backtest/src/run.rs, crates/oq-backtest/src/lookahead.rs). */
module Host {
  import opened Folding
  import opened Numbers
  import opened Market
  import opened Events
  import opened Account
  import opened Run
  import Kernel
  import Routing

  /** The core is the kernel; folded. */
  ghost predicate IsKernel(core: Core) {
    forall i {:trigger Token(i)} :: Token(i) ==> forall k, e :: core(k, e) == Advance(k, e)
  }

  lemma KernelIsKernel()
    ensures IsKernel(Advance)
  {
  }

  lemma CoreIsApply(core: Core, k: KernelV, e: Event)
    requires IsKernel(core) && k.state.holdings != []
    ensures core(k, e) == Apply(k, e)
  {
    assert Token(0);
    assert core(k, e) == Advance(k, e);
  }

  /** `sent` pairs each intent with a tick number; `seen` is the next number. */
  class Recorder<S> {
    const rules: Strategy<S>
    var inner: S
    var seen: nat
    var sent: seq<(nat, Intent)>

    ghost function View(): Tape<S>
      reads this
    {
      Tape(inner, seen, sent)
    }

    constructor (rules: Strategy<S>, inner: S)
      ensures this.rules == rules && View() == Tape(inner, 0, [])
    {
      this.rules, this.inner, seen, sent := rules, inner, 0, [];
    }

    /** Appends intents, all tagged with one tick. */
    method Record(tick: nat, intents: seq<Intent>)
      modifies this`sent
      ensures sent == old(sent) + Tagged(tick, intents)
    {
      var i := 0;
      var start := sent;
      while i < |intents|
        invariant 0 <= i <= |intents| && sent == start + Tagged(tick, intents)[..i]
      {
        sent := sent + [(tick, intents[i])];
        i := i + 1;
      }
      assert Tagged(tick, intents)[..i] == Tagged(tick, intents);
    }

    method OnFill(f: Fill, ctx: Context, out: seq<Intent>) returns (all: seq<Intent>)
      modifies this`inner, this`sent
      ensures Heard(View(), all) == Heard(old(View()), out).Take(rules.onFill(old(inner), f, ctx))
    {
      var r := rules.onFill(inner, f, ctx);
      inner := r.state;
      Record(seen, r.intents);
      all := out + r.intents;
    }

    method OnVenueClosed(x: VenueClosed, ctx: Context, out: seq<Intent>) returns (all: seq<Intent>)
      modifies this`inner, this`sent
      ensures Heard(View(), all) == Heard(old(View()), out).Take(rules.onVenueClosed(old(inner), x, ctx))
    {
      var r := rules.onVenueClosed(inner, x, ctx);
      inner := r.state;
      Record(seen, r.intents);
      all := out + r.intents;
    }

    method OnEnded(id: nat, ending: Ending, out: seq<Intent>) returns (all: seq<Intent>)
      modifies this`inner, this`sent
      ensures Heard(View(), all) == Heard(old(View()), out).Take(rules.onEnded(old(inner), id, ending))
    {
      var r := rules.onEnded(inner, id, ending);
      inner := r.state;
      Record(seen, r.intents);
      all := out + r.intents;
    }

    method OnTick(ctx: Context, out: seq<Intent>) returns (all: seq<Intent>)
      modifies this
      ensures Heard(View(), all) == HearTick(rules, Heard(old(View()), out), ctx)
    {
      var tick := seen;
      seen := seen + 1;
      var r := rules.onTick(inner, ctx);
      inner := r.state;
      Record(tick, r.intents);
      all := out + r.intents;
    }

    method OnPlaced(id: nat, accepted: bool)
      modifies this`inner
      ensures View() == old(View()).(inner := rules.onPlaced(old(inner), id, accepted))
    {
      inner := rules.onPlaced(inner, id, accepted);
    }

    /** The four callbacks in turn leave the recorder as the declared hearing does. */
    method HearAll(fills: seq<Fill>, closed: seq<VenueClosed>, ended: seq<(nat, Ending)>, ctx: Context)
      returns (intents: seq<Intent>)
      modifies this
      ensures Heard(View(), intents) == Hearing(rules, old(View()), fills, closed, ended, ctx)
    {
      intents := HearFillsOf(fills, ctx);
      intents := HearClosesOf(closed, ctx, intents);
      intents := HearEndingsOf(ended, intents);
      intents := OnTick(ctx, intents);
    }

    method HearFillsOf(fills: seq<Fill>, ctx: Context) returns (intents: seq<Intent>)
      modifies this`inner, this`sent
      ensures Heard(View(), intents) == HearFills(rules, Heard(old(View()), []), fills, ctx)
    {
      ghost var start := Heard(View(), []);
      intents := [];
      var i := 0;
      while i < |fills|
        invariant 0 <= i <= |fills| && Heard(View(), intents) == HearFills(rules, start, fills[..i], ctx)
      {
        assert fills[..i + 1][..i] == fills[..i];
        intents := OnFill(fills[i], ctx, intents);
        i := i + 1;
      }
      assert fills[..i] == fills;
    }

    method HearClosesOf(closed: seq<VenueClosed>, ctx: Context, before: seq<Intent>) returns (intents: seq<Intent>)
      modifies this`inner, this`sent
      ensures Heard(View(), intents) == HearCloses(rules, Heard(old(View()), before), closed, ctx)
    {
      ghost var start := Heard(View(), before);
      intents := before;
      var i := 0;
      while i < |closed|
        invariant 0 <= i <= |closed| && Heard(View(), intents) == HearCloses(rules, start, closed[..i], ctx)
      {
        assert closed[..i + 1][..i] == closed[..i];
        intents := OnVenueClosed(closed[i], ctx, intents);
        i := i + 1;
      }
      assert closed[..i] == closed;
    }

    method HearEndingsOf(ended: seq<(nat, Ending)>, before: seq<Intent>) returns (intents: seq<Intent>)
      modifies this`inner, this`sent
      ensures Heard(View(), intents) == HearEndings(rules, Heard(old(View()), before), ended)
    {
      ghost var start := Heard(View(), before);
      intents := before;
      var i := 0;
      while i < |ended|
        invariant 0 <= i <= |ended| && Heard(View(), intents) == HearEndings(rules, start, ended[..i])
      {
        assert ended[..i + 1][..i] == ended[..i];
        intents := OnEnded(ended[i].0, ended[i].1, intents);
        i := i + 1;
      }
      assert ended[..i] == ended;
    }
  }

  /** The list grows by the endings the declared function adds, and by no id twice. */
  method NoteEndings(out: seq<Output>, working: seq<nat>, ended: seq<(nat, Ending)>) returns (r: seq<(nat, Ending)>)
    ensures r == Noted(out, working, ended)
  {
    r := ended;
    var i := 0;
    while i < |out|
      invariant 0 <= i <= |out| && r == Noted(out[..i], working, ended)
    {
      assert out[..i + 1][..i] == out[..i];
      var e := EndingOf(out[i]);
      if e.Some? {
        var known := Mentioned(r, e.value.0);
        if e.value.0 !in working && !known {
          r := r + [e.value];
        }
      }
      i := i + 1;
    }
    assert out[..i] == out;
  }

  method Mentioned(ended: seq<(nat, Ending)>, id: nat) returns (known: bool)
    ensures known == Mentions(ended, id)
  {
    var i := 0;
    while i < |ended|
      invariant 0 <= i <= |ended| && forall j :: 0 <= j < i ==> ended[j].0 != id
    {
      if ended[i].0 == id {
        return true;
      }
      i := i + 1;
    }
    return false;
  }

  method Refused(out: seq<Output>, id: nat) returns (refused: bool)
    ensures refused == RefusedIn(out, id)
  {
    var i := 0;
    while i < |out|
      invariant 0 <= i <= |out| && forall j :: 0 <= j < i ==> !(out[j].Rejected? && out[j].id == id)
    {
      if out[i].Rejected? && out[i].id == id {
        return true;
      }
      i := i + 1;
    }
    return false;
  }

  /** One event through the kernel. */
  method Drive(kernel: Kernel.Kernel, e: Event, ghost core: Core) returns (out: seq<Output>)
    requires kernel.Valid() && Routing.Named(kernel.state.View()) && IsKernel(core) && !e.VenueFill?
    modifies kernel, kernel.state, kernel.state.holdings
    ensures Applied(kernel.View(), out) == core(old(kernel.View()), e) && Routing.Named(kernel.state.View())
  {
    CoreIsApply(core, kernel.View(), e);
    kernel.Apply(e);
    out := kernel.outputs;
  }

  /** Settle everything due, and collect what the venue closed on the way. */
  method PayDue(kernel: Kernel.Kernel, due: seq<FundingRate>, ghost core: Core) returns (closed: seq<VenueClosed>)
    requires kernel.Valid() && Routing.Named(kernel.state.View()) && IsKernel(core)
    modifies kernel, kernel.state, kernel.state.holdings
    ensures Paid(kernel.View(), closed) == PayEach(core, old(kernel.View()), due) && Routing.Named(kernel.state.View())
  {
    ghost var k := kernel.View();
    closed := [];
    var i := 0;
    while i < |due|
      invariant 0 <= i <= |due| && Routing.Named(kernel.state.View())
      invariant Paid(kernel.View(), closed) == PayEach(core, k, due[..i])
    {
      assert due[..i + 1][..i] == due[..i];
      var out := Drive(kernel, FundingEvent(due[i]), core);
      closed := closed + ClosesIn(out);
      i := i + 1;
    }
    assert due[..i] == due;
  }

  /** The desk as the program holds it. */
  ghost function DeskOf<S>(kernel: Kernel.Kernel, strategy: Recorder<S>, ended: seq<(nat, Ending)>, lastFunding: int, misrouted: nat): Desk<S>
    reads kernel, kernel.state, kernel.state.holdings, strategy
  {
    Desk(kernel.View(), strategy.View(), ended, lastFunding, misrouted)
  }

  /** Withdraw every working order, by the list taken before the first is asked for. */
  method CancelEach<S>(kernel: Kernel.Kernel, t: Tick, ended: seq<(nat, Ending)>, ghost d: Desk<S>, ghost core: Core)
    returns (noted: seq<(nat, Ending)>)
    requires kernel.Valid() && Routing.Named(kernel.state.View()) && IsKernel(core)
    requires d.kernel == kernel.View() && d.ended == ended
    modifies kernel, kernel.state, kernel.state.holdings
    ensures d.(kernel := kernel.View(), ended := noted) == WithdrawEach(core, d, d.kernel.working, t)
    ensures Routing.Named(kernel.state.View())
  {
    noted := ended;
    var ids := kernel.working;
    var i := 0;
    while i < |ids|
      invariant 0 <= i <= |ids| && Routing.Named(kernel.state.View())
      invariant d.(kernel := kernel.View(), ended := noted) == WithdrawEach(core, d, ids[..i], t)
    {
      assert ids[..i + 1][..i] == ids[..i];
      var out := Drive(kernel, Cancel(ids[i], t.stamp), core);
      noted := NoteEndings(out, kernel.working, noted);
      i := i + 1;
    }
    assert ids[..i] == ids;
  }

  /** Send one intent where it goes. */
  method Dispatch<S>(c: Config, kernel: Kernel.Kernel, strategy: Recorder<S>, x: Intent, t: Tick, ended: seq<(nat, Ending)>,
                     misrouted: nat, ghost lastFunding: int, ghost core: Core)
    returns (noted: seq<(nat, Ending)>, stray: nat)
    requires kernel.Valid() && Routing.Named(kernel.state.View()) && IsKernel(core)
    modifies kernel, kernel.state, kernel.state.holdings, strategy`inner
    ensures DeskOf(kernel, strategy, noted, lastFunding, stray)
         == Dispatched(c, core, strategy.rules, old(DeskOf(kernel, strategy, ended, lastFunding, misrouted)), x, t)
    ensures Routing.Named(kernel.state.View())
  {
    noted, stray := ended, misrouted;
    ghost var d := DeskOf(kernel, strategy, ended, lastFunding, misrouted);
    match x
    case CancelEvery => noted := CancelEach(kernel, t, ended, d, core);
    case CancelOne(id) =>
      var out := Drive(kernel, Cancel(id, t.stamp), core);
      noted := NoteEndings(out, kernel.working, ended);
    case _ =>
      if x.instrument != c.instrument {
        stray := misrouted + 1;
        strategy.OnPlaced(x.id, false);
      } else {
        noted := PlaceOrder(kernel, strategy, x, t, ended, d, core);
      }
  }

  /** Submit, report the kernel's answer, then note what ended. */
  method PlaceOrder<S>(kernel: Kernel.Kernel, strategy: Recorder<S>, x: Intent, t: Tick, ended: seq<(nat, Ending)>,
                       ghost d: Desk<S>, ghost core: Core)
    returns (noted: seq<(nat, Ending)>)
    requires kernel.Valid() && Routing.Named(kernel.state.View()) && IsKernel(core) && (x.Limit? || x.AtMarket?)
    requires d.kernel == kernel.View() && d.tape == strategy.View() && d.ended == ended
    modifies kernel, kernel.state, kernel.state.holdings, strategy`inner
    ensures var a := core(d.kernel, Placement(x, t));
      d.(kernel := kernel.View(), tape := strategy.View(), ended := noted)
        == d.Answered(strategy.rules, x.id, !RefusedIn(a.out, x.id)).After(a)
    ensures Routing.Named(kernel.state.View())
  {
    var out := Drive(kernel, Placement(x, t), core);
    var refused := Refused(out, x.id);
    strategy.OnPlaced(x.id, !refused);
    noted := NoteEndings(out, kernel.working, ended);
  }

  method DispatchEach<S>(c: Config, kernel: Kernel.Kernel, strategy: Recorder<S>, xs: seq<Intent>, t: Tick, misrouted: nat,
                         ghost lastFunding: int, ghost core: Core)
    returns (ended: seq<(nat, Ending)>, stray: nat)
    requires kernel.Valid() && Routing.Named(kernel.state.View()) && IsKernel(core)
    modifies kernel, kernel.state, kernel.state.holdings, strategy`inner
    ensures DeskOf(kernel, strategy, ended, lastFunding, stray)
         == DispatchAll(c, core, strategy.rules, old(DeskOf(kernel, strategy, [], lastFunding, misrouted)), xs, t)
    ensures Routing.Named(kernel.state.View())
  {
    ended, stray := [], misrouted;
    ghost var d := DeskOf(kernel, strategy, [], lastFunding, misrouted);
    var i := 0;
    while i < |xs|
      invariant 0 <= i <= |xs| && Routing.Named(kernel.state.View())
      invariant DeskOf(kernel, strategy, ended, lastFunding, stray) == DispatchAll(c, core, strategy.rules, d, xs[..i], t)
    {
      assert xs[..i + 1][..i] == xs[..i];
      ended, stray := Dispatch(c, kernel, strategy, xs[i], t, ended, stray, lastFunding, core);
      i := i + 1;
    }
    assert xs[..i] == xs;
  }

  /** The method reads the declared context off the kernel's fields. */
  method ContextNow(c: Config, kernel: Kernel.Kernel, t: Tick) returns (ctx: Context)
    requires kernel.Valid()
    ensures ctx == ContextOf(c, kernel.View(), t)
  {
    var v := kernel.state.holdings[0];
    assert v.View() == kernel.View().state.holdings[0];
    var profit := kernel.state.UnrealizedNow();
    ctx := Context(c.instrument, t, v.qty, v.entry, v.shortQty, v.shortEntry, kernel.state.balance + profit, |kernel.working|);
  }

  /** What a tick makes of the account before the strategy hears of it; folded. */
  ghost predicate Observed(c: Config, core: Core, k: KernelV, ended: seq<(nat, Ending)>, lastFunding: int, t: Tick, now: KernelV,
                           fills: seq<Fill>, closed: seq<VenueClosed>, over: seq<(nat, Ending)>, ctx: Context)
  {
    forall i {:trigger Token(i)} :: Token(i) ==>
      var paid := PayEach(core, k, DueBy(c, lastFunding, t.stamp.exch));
      var a := core(paid.kernel, TickSeen(None, t));
      && now == a.kernel && fills == FillsIn(a.out) && closed == paid.closed + ClosesIn(a.out)
      && over == Noted(a.out, a.kernel.working, ended) && ctx == ContextOf(c, a.kernel, t)
  }

  lemma Assembled<S>(c: Config, core: Core, rules: Strategy<S>, d: Desk<S>, t: Tick, now: KernelV, fills: seq<Fill>,
                     closed: seq<VenueClosed>, over: seq<(nat, Ending)>, ctx: Context, h: Heard<S>, settled: int, r: Desk<S>)
    requires Observed(c, core, d.kernel, d.ended, d.lastFunding, t, now, fills, closed, over, ctx)
    requires h == Hearing(rules, d.tape, fills, closed, over, ctx)
    requires settled == if c.funding == [] then d.lastFunding else Max(d.lastFunding, t.stamp.exch)
    requires r == DispatchAll(c, core, rules, Desk(now, h.tape, [], settled, d.misrouted), h.intents, t)
    ensures Ticks(c, core, rules, d, t, r)
  {
    assert Token(0);
  }

  /** Settle what is due, apply the tick, and read off what the strategy is to hear. */
  method Observe(c: Config, kernel: Kernel.Kernel, t: Tick, ended: seq<(nat, Ending)>, lastFunding: int, ghost core: Core)
    returns (fills: seq<Fill>, closed: seq<VenueClosed>, over: seq<(nat, Ending)>, ctx: Context)
    requires kernel.Valid() && Routing.Named(kernel.state.View()) && IsKernel(core)
    modifies kernel, kernel.state, kernel.state.holdings
    ensures Observed(c, core, old(kernel.View()), ended, lastFunding, t, kernel.View(), fills, closed, over, ctx)
    ensures Routing.Named(kernel.state.View())
  {
    var before := PayDue(kernel, DueBy(c, lastFunding, t.stamp.exch), core);
    var out := Drive(kernel, TickSeen(None, t), core);
    over := NoteEndings(out, kernel.working, ended);
    ctx := ContextNow(c, kernel, t);
    fills, closed := FillsIn(out), before + ClosesIn(out);
  }

  /** One tick's work; folded. */
  ghost predicate Ticks<S>(c: Config, core: Core, rules: Strategy<S>, d: Desk<S>, t: Tick, r: Desk<S>) {
    forall i {:trigger Token(i)} :: Token(i) ==> r == Ticked(c, core, rules, d, t)
  }

  /** One tick of the loop: settle, apply, tell the strategy, send what it asked for. */
  method Step<S>(c: Config, kernel: Kernel.Kernel, strategy: Recorder<S>, t: Tick, ended: seq<(nat, Ending)>, lastFunding: int,
                 misrouted: nat, ghost core: Core)
    returns (noted: seq<(nat, Ending)>, settled: int, stray: nat)
    requires kernel.Valid() && Routing.Named(kernel.state.View()) && IsKernel(core)
    modifies kernel, kernel.state, kernel.state.holdings, strategy
    ensures Ticks(c, core, strategy.rules, old(DeskOf(kernel, strategy, ended, lastFunding, misrouted)), t,
                  DeskOf(kernel, strategy, noted, settled, stray))
    ensures Routing.Named(kernel.state.View())
  {
    ghost var d := DeskOf(kernel, strategy, ended, lastFunding, misrouted);
    var fills, closed, over, ctx := Observe(c, kernel, t, ended, lastFunding, core);
    ghost var now := kernel.View();
    settled := if c.funding == [] then lastFunding else Max(lastFunding, t.stamp.exch);
    var intents := strategy.HearAll(fills, closed, over, ctx);
    ghost var h := Heard(strategy.View(), intents);
    noted, stray := DispatchEach(c, kernel, strategy, intents, t, misrouted, settled, core);
    Assembled(c, core, strategy.rules, d, t, now, fills, closed, over, ctx, h, settled,
              DeskOf(kernel, strategy, noted, settled, stray));
  }

  /** Where a run stands after some ticks; folded. */
  ghost predicate Stands<S>(c: Config, core: Core, rules: Strategy<S>, s: S, ticks: seq<Tick>, d: Desk<S>) {
    forall i {:trigger Token(i)} :: Token(i) ==> d == After(c, core, rules, s, ticks)
  }

  lemma StandsOn<S>(c: Config, core: Core, rules: Strategy<S>, s: S, ticks: seq<Tick>, t: Tick, d: Desk<S>, r: Desk<S>)
    requires Stands(c, core, rules, s, ticks, d) && Ticks(c, core, rules, d, t, r)
    ensures Stands(c, core, rules, s, ticks + [t], r)
  {
    assert Token(0);
    OneMoreTick(c, core, rules, s, ticks, t);
  }

  lemma StandsAtStart<S>(c: Config, core: Core, rules: Strategy<S>, s: S, d: Desk<S>)
    requires d == Start(c, s)
    ensures Stands(c, core, rules, s, [], d)
  {
  }

  /** A fresh account for a configuration. */
  method OpenState(c: Config) returns (state: Kernel.State)
    ensures state.Valid() && state.View() == Opened(c).state
    ensures fresh(state) && fresh(state.holdings)
  {
    var h := new Kernel.Holding(c.instrument, c.tickCash, c.table);
    h.engine := MatcherOf(c);
    state := new Kernel.State([h], c.mode, c.fees, true, c.enforced, Simulated, c.balance);
    assert Kernel.Views(state.holdings) == [h.View()];
  }

  method Open(c: Config) returns (kernel: Kernel.Kernel)
    ensures kernel.Valid() && Routing.Named(kernel.state.View()) && kernel.View() == Opened(c)
    ensures fresh(kernel) && fresh(kernel.state) && fresh(kernel.state.holdings)
  {
    var state := OpenState(c);
    OwnMatcher(c);
    kernel := new Kernel.Kernel(state);
  }

  lemma OwnMatcher(c: Config)
    ensures Routing.Named(Opened(c).state)
  {
    assert Routing.Own(Opened(c).state.holdings[0]);
  }

  /** One more tick, after those already run. */
  method RunOne<S>(c: Config, kernel: Kernel.Kernel, strategy: Recorder<S>, t: Tick, ended: seq<(nat, Ending)>, lastFunding: int,
                   misrouted: nat, ghost core: Core, ghost s: S, ghost done: seq<Tick>)
    returns (noted: seq<(nat, Ending)>, settled: int, stray: nat)
    requires kernel.Valid() && Routing.Named(kernel.state.View()) && IsKernel(core)
    requires Stands(c, core, strategy.rules, s, done, DeskOf(kernel, strategy, ended, lastFunding, misrouted))
    modifies kernel, kernel.state, kernel.state.holdings, strategy
    ensures Stands(c, core, strategy.rules, s, done + [t], DeskOf(kernel, strategy, noted, settled, stray))
    ensures Routing.Named(kernel.state.View())
  {
    ghost var d := DeskOf(kernel, strategy, ended, lastFunding, misrouted);
    noted, settled, stray := Step(c, kernel, strategy, t, ended, lastFunding, misrouted, core);
    StandsOn(c, core, strategy.rules, s, done, t, d, DeskOf(kernel, strategy, noted, settled, stray));
  }

  /** Every tick, from a desk where nothing has happened. */
  method RunEach<S>(c: Config, kernel: Kernel.Kernel, strategy: Recorder<S>, ticks: seq<Tick>, ghost core: Core, ghost s: S)
    requires kernel.Valid() && Routing.Named(kernel.state.View()) && IsKernel(core)
    requires Stands(c, core, strategy.rules, s, [], DeskOf(kernel, strategy, [], I64_MIN, 0))
    modifies kernel, kernel.state, kernel.state.holdings, strategy
    ensures strategy.View() == After(c, core, strategy.rules, s, ticks).tape
  {
    var ended: seq<(nat, Ending)>, lastFunding: int, misrouted: nat := [], I64_MIN, 0;
    var i := 0;
    while i < |ticks|
      invariant 0 <= i <= |ticks| && kernel.Valid() && Routing.Named(kernel.state.View())
      invariant Stands(c, core, strategy.rules, s, ticks[..i], DeskOf(kernel, strategy, ended, lastFunding, misrouted))
    {
      ended, lastFunding, misrouted := RunOne(c, kernel, strategy, ticks[i], ended, lastFunding, misrouted, core, s, ticks[..i]);
      assert ticks[..i + 1] == ticks[..i] + [ticks[i]];
      i := i + 1;
    }
    assert ticks[..i] == ticks;
    assert Token(0);
  }

  /** Run a recorded strategy over ticks. */
  method RunTicks<S>(c: Config, strategy: Recorder<S>, ticks: seq<Tick>, ghost core: Core)
    requires IsKernel(core) && strategy.seen == 0 && strategy.sent == []
    modifies strategy
    ensures strategy.View() == After(c, core, strategy.rules, old(strategy.inner), ticks).tape
  {
    ghost var s := strategy.inner;
    var kernel := Open(c);
    StandsAtStart(c, core, strategy.rules, s, DeskOf(kernel, strategy, [], I64_MIN, 0));
    RunEach(c, kernel, strategy, ticks, core, s);
  }
}
