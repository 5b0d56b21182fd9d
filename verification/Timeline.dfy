/** A backtest read as the events its kernel was given: at each tick the funding that fell due, once
    and in order, then the tick, then what the strategy asked for
    (crates/oq-backtest/src/run.rs, crates/oq-margin/src/funding.rs). */
module Timeline {
  import opened Folding
  import opened Numbers
  import opened Market
  import opened Events
  import opened Account
  import opened Backtest = Run

  // ----- funding that falls due

  ghost predicate InSettlementOrder(rates: seq<FundingRate>) {
    forall i, j :: 0 <= i < j < |rates| ==> rates[i].at <= rates[j].at
  }

  lemma {:induction false} SettledByIs(rates: seq<FundingRate>, at: int)
    requires InSettlementOrder(rates)
    ensures forall i :: 0 <= i < |rates| ==> (rates[i].at <= at <==> i < SettledBy(rates, at))
  {
    if rates != [] && rates[0].at <= at {
      SettledByIs(rates[1..], at);
      forall i | 0 <= i < |rates| ensures rates[i].at <= at <==> i < SettledBy(rates, at) {
        if i > 0 { assert rates[i] == rates[1..][i - 1]; }
      }
    }
  }

  predicate SettlesIn(r: FundingRate, after: int, to: int) {
    after < r.at <= to
  }

  /** The rates that settle after one time and at or before another are a stretch of the schedule. */
  lemma DueAreBetween(rates: seq<FundingRate>, after: int, to: int) returns (lo: nat, hi: nat)
    requires InSettlementOrder(rates)
    ensures lo <= hi <= |rates| && Between(rates, after, to) == rates[lo..hi]
    ensures forall i :: 0 <= i < |rates| ==> (SettlesIn(rates[i], after, to) <==> lo <= i < hi)
  {
    SettledByIs(rates, after);
    SettledByIs(rates, to);
    lo, hi := SettledBy(rates, after), SettledBy(rates, to);
    if hi < lo {
      hi := lo;
    }
  }

  /** What is due over two stretches of time is what is due over both. */
  lemma DueAdds(rates: seq<FundingRate>, a: int, b: int, c: int)
    requires InSettlementOrder(rates) && a <= b <= c
    ensures Between(rates, a, b) + Between(rates, b, c) == Between(rates, a, c)
  {
    SettledByIs(rates, a);
    SettledByIs(rates, b);
    SettledByIs(rates, c);
    Grows(rates, a, b);
    Grows(rates, b, c);
  }

  lemma {:induction false} Grows(rates: seq<FundingRate>, a: int, b: int)
    requires a <= b
    ensures SettledBy(rates, a) <= SettledBy(rates, b)
  {
    if rates != [] && rates[0].at <= a {
      Grows(rates[1..], a, b);
    }
  }

  /** The latest time of the ticks, from the earliest there is. */
  function Latest(ticks: seq<Tick>): int {
    if ticks == [] then I64_MIN else Max(Latest(ticks[..|ticks| - 1]), ticks[|ticks| - 1].stamp.exch)
  }

  // ----- events

  function FundingEvents(due: seq<FundingRate>): (es: seq<Event>)
    ensures |es| == |due|
  {
    seq(|due|, i requires 0 <= i < |due| => Funding(None, due[i].at, due[i].rate, due[i].mark))
  }

  lemma {:induction false} RunAppend(k: KernelV, a: seq<Event>, b: seq<Event>)
    requires k.state.holdings != []
    ensures Account.Run(k, a + b).kernel == Account.Run(Account.Run(k, a).kernel, b).kernel
  {
    if b == [] {
      assert a + b == a;
    } else {
      RunAppend(k, a, b[..|b| - 1]);
      assert (a + b)[..|a + b| - 1] == a + b[..|b| - 1];
    }
  }

  lemma {:induction false} PaidAsEvents(k: KernelV, due: seq<FundingRate>)
    requires k.state.holdings != []
    ensures PayEach(Advance, k, due).kernel == Account.Run(k, FundingEvents(due)).kernel
  {
    if due != [] {
      var n := |due| - 1;
      PaidAsEvents(k, due[..n]);
      assert FundingEvents(due)[..n] == FundingEvents(due[..n]);
    }
  }

  /** What one intent puts to the kernel: an order for its own instrument as it was asked for, nothing
      for another's, and cancels. */
  predicate Puts(c: Config, x: Intent, es: seq<Event>, t: Tick) {
    match x
    case Limit(instrument, id, side, price, qty, offset) =>
      es == (if instrument == c.instrument then [Submit(Some(instrument), id, side, Some(price), qty, offset, t.stamp)] else [])
    case AtMarket(instrument, id, side, qty, offset) =>
      es == (if instrument == c.instrument then [Submit(Some(instrument), id, side, None, qty, offset, t.stamp)] else [])
    case CancelOne(id) => es == [Cancel(id, t.stamp)]
    case CancelEvery => forall i :: 0 <= i < |es| ==> es[i].Cancel? && es[i].stamp == t.stamp
  }

  /** What a list of intents puts to it, one after another. */
  ghost predicate PutsAll(c: Config, xs: seq<Intent>, es: seq<Event>, t: Tick)
    decreases |xs|
  {
    if xs == [] then es == []
    else exists m :: 0 <= m <= |es| && PutsAll(c, xs[..|xs| - 1], es[..m], t) && Puts(c, xs[|xs| - 1], es[m..], t)
  }

  lemma {:induction false} WithdrawnAsEvents<S>(d: Desk<S>, ids: seq<nat>, t: Tick) returns (es: seq<Event>)
    requires d.kernel.state.holdings != []
    ensures WithdrawEach(Advance, d, ids, t).kernel == Account.Run(d.kernel, es).kernel
    ensures |es| == |ids| && forall i :: 0 <= i < |es| ==> es[i] == Cancel(ids[i], t.stamp)
  {
    if ids == [] {
      es := [];
    } else {
      var n := |ids| - 1;
      var front := WithdrawnAsEvents(d, ids[..n], t);
      es := front + [Cancel(ids[n], t.stamp)];
      assert es[..n] == front;
    }
  }

  lemma OneEvent(k: KernelV, e: Event)
    requires k.state.holdings != []
    ensures Account.Run(k, [e]).kernel == Apply(k, e).kernel && Advance(k, e) == Apply(k, e)
  {
    assert [e][..0] == [];
    assert Account.Run(k, []).kernel == k;
  }

  lemma DispatchedAsEvents<S>(c: Config, rules: Strategy<S>, d: Desk<S>, x: Intent, t: Tick) returns (es: seq<Event>)
    requires d.kernel.state.holdings != []
    ensures Dispatched(c, Advance, rules, d, x, t).kernel == Account.Run(d.kernel, es).kernel && Puts(c, x, es, t)
  {
    match x
    case CancelEvery => es := WithdrawnAsEvents(d, d.kernel.working, t);
    case CancelOne(id) =>
      es := [Cancel(id, t.stamp)];
      OneEvent(d.kernel, es[0]);
    case _ =>
      if x.instrument == c.instrument {
        es := [Placement(x, t)];
        OneEvent(d.kernel, es[0]);
      } else {
        es := [];
      }
  }

  lemma {:induction false} DispatchAsEvents<S>(c: Config, rules: Strategy<S>, d: Desk<S>, xs: seq<Intent>, t: Tick)
      returns (es: seq<Event>)
    requires d.kernel.state.holdings != []
    ensures DispatchAll(c, Advance, rules, d, xs, t).kernel == Account.Run(d.kernel, es).kernel && PutsAll(c, xs, es, t)
    decreases |xs|
  {
    if xs == [] {
      es := [];
    } else {
      var n := |xs| - 1;
      var front := DispatchAsEvents(c, rules, d, xs[..n], t);
      var b := DispatchAll(c, Advance, rules, d, xs[..n], t);
      var back := DispatchedAsEvents(c, rules, b, xs[n], t);
      es := front + back;
      RunAppend(d.kernel, front, back);
      assert es[..|front|] == front && es[|front|..] == back;
    }
  }

  // ----- one tick

  /** The events of a tick: what fell due, the tick, and what the intents put to the kernel. */
  datatype Turn = Turn(due: seq<FundingRate>, tick: Tick, intents: seq<Intent>, asked: seq<Event>) {
    function Events(): seq<Event> {
      FundingEvents(due) + [TickSeen(None, tick)] + asked
    }
  }

  lemma TaggedJoin(n: nat, a: seq<Intent>, b: seq<Intent>)
    ensures Tagged(n, a + b) == Tagged(n, a) + Tagged(n, b)
  {
  }

  /** Everything asked for so far on this tick is on the tape. */
  ghost predicate OnTape<S>(sent: seq<(nat, Intent)>, n: nat, h: Heard<S>) {
    h.tape.seen == n && h.tape.sent == sent + Tagged(n, h.intents)
  }

  lemma TakenOnTape<S>(sent: seq<(nat, Intent)>, n: nat, h: Heard<S>, r: Reaction<S>)
    requires OnTape(sent, n, h)
    ensures OnTape(sent, n, h.Take(r))
  {
    TaggedJoin(n, h.intents, r.intents);
    assert sent + (Tagged(n, h.intents) + Tagged(n, r.intents)) == sent + Tagged(n, h.intents) + Tagged(n, r.intents);
  }

  lemma {:induction false} FillsOnTape<S>(rules: Strategy<S>, sent: seq<(nat, Intent)>, n: nat, h: Heard<S>, fs: seq<Fill>, c: Context)
    requires OnTape(sent, n, h)
    ensures OnTape(sent, n, HearFills(rules, h, fs, c))
  {
    if fs != [] {
      FillsOnTape(rules, sent, n, h, fs[..|fs| - 1], c);
      var b := HearFills(rules, h, fs[..|fs| - 1], c);
      TakenOnTape(sent, n, b, rules.onFill(b.tape.inner, fs[|fs| - 1], c));
    }
  }

  lemma {:induction false} ClosesOnTape<S>(rules: Strategy<S>, sent: seq<(nat, Intent)>, n: nat, h: Heard<S>, xs: seq<VenueClosed>, c: Context)
    requires OnTape(sent, n, h)
    ensures OnTape(sent, n, HearCloses(rules, h, xs, c))
  {
    if xs != [] {
      ClosesOnTape(rules, sent, n, h, xs[..|xs| - 1], c);
      var b := HearCloses(rules, h, xs[..|xs| - 1], c);
      TakenOnTape(sent, n, b, rules.onVenueClosed(b.tape.inner, xs[|xs| - 1], c));
    }
  }

  lemma {:induction false} EndingsOnTape<S>(rules: Strategy<S>, sent: seq<(nat, Intent)>, n: nat, h: Heard<S>, es: seq<(nat, Ending)>)
    requires OnTape(sent, n, h)
    ensures OnTape(sent, n, HearEndings(rules, h, es))
  {
    if es != [] {
      EndingsOnTape(rules, sent, n, h, es[..|es| - 1]);
      var b := HearEndings(rules, h, es[..|es| - 1]);
      TakenOnTape(sent, n, b, rules.onEnded(b.tape.inner, es[|es| - 1].0, es[|es| - 1].1));
    }
  }

  lemma HearingOnTape<S>(rules: Strategy<S>, tape: Tape<S>, fills: seq<Fill>, closed: seq<VenueClosed>,
                         ended: seq<(nat, Ending)>, ctx: Context)
    ensures var h := Hearing(rules, tape, fills, closed, ended, ctx);
      h.tape.sent == tape.sent + Tagged(tape.seen, h.intents) && h.tape.seen == tape.seen + 1
  {
    var sent, n, h0 := tape.sent, tape.seen, Heard(tape, []);
    assert tape.sent + Tagged(n, []) == tape.sent;
    FillsOnTape(rules, sent, n, h0, fills, ctx);
    var h1 := HearFills(rules, h0, fills, ctx);
    ClosesOnTape(rules, sent, n, h1, closed, ctx);
    var h2 := HearCloses(rules, h1, closed, ctx);
    EndingsOnTape(rules, sent, n, h2, ended);
    var h3 := HearEndings(rules, h2, ended);
    TakenOnTape(sent, n, h3, rules.onTick(h3.tape.inner, ctx));
  }

  /** A turn that is the tick, with the funding between two times, and its own intents put. */
  ghost predicate IsTurn(c: Config, u: Turn, t: Tick, after: int) {
    u.tick == t && u.due == DueBy(c, after, t.stamp.exch) && PutsAll(c, u.intents, u.asked, t)
  }

  lemma TickAsEvents<S>(c: Config, rules: Strategy<S>, d: Desk<S>, t: Tick) returns (u: Turn)
    requires d.kernel.state.holdings != []
    ensures var r := Ticked(c, Advance, rules, d, t);
      && IsTurn(c, u, t, d.lastFunding) && r.kernel == Account.Run(d.kernel, u.Events()).kernel
      && r.tape.sent == d.tape.sent + Tagged(d.tape.seen, u.intents) && r.tape.seen == d.tape.seen + 1
      && r.lastFunding == (if c.funding == [] then d.lastFunding else Max(d.lastFunding, t.stamp.exch))
  {
    var now := t.stamp.exch;
    var due := DueBy(c, d.lastFunding, now);
    var paid := PayEach(Advance, d.kernel, due);
    PaidAsEvents(d.kernel, due);
    var a := Advance(paid.kernel, TickSeen(None, t));
    var ended, ctx := Noted(a.out, a.kernel.working, d.ended), ContextOf(c, a.kernel, t);
    var h := Hearing(rules, d.tape, FillsIn(a.out), paid.closed + ClosesIn(a.out), ended, ctx);
    HearingOnTape(rules, d.tape, FillsIn(a.out), paid.closed + ClosesIn(a.out), ended, ctx);
    var last := if c.funding == [] then d.lastFunding else Max(d.lastFunding, now);
    var desk := Desk(a.kernel, h.tape, [], last, d.misrouted);
    var asked := DispatchAsEvents(c, rules, desk, h.intents, t);
    DispatchKeepsTape(c, Advance, rules, desk, h.intents, t);
    DispatchKeepsFunding(c, rules, desk, h.intents, t);
    u := Turn(due, t, h.intents, asked);
    ThreeParts(d.kernel, FundingEvents(due), TickSeen(None, t), asked);
  }

  lemma ThreeParts(k: KernelV, a: seq<Event>, e: Event, b: seq<Event>)
    requires k.state.holdings != []
    ensures Account.Run(k, a + [e] + b).kernel == Account.Run(Apply(Account.Run(k, a).kernel, e).kernel, b).kernel
  {
    RunAppend(k, a + [e], b);
    RunAppend(k, a, [e]);
    OneEvent(Account.Run(k, a).kernel, e);
  }

  lemma {:induction false} WithdrawKeepsFunding<S>(d: Desk<S>, ids: seq<nat>, t: Tick)
    ensures WithdrawEach(Advance, d, ids, t).lastFunding == d.lastFunding
  {
    if ids != [] {
      WithdrawKeepsFunding(d, ids[..|ids| - 1], t);
    }
  }

  lemma {:induction false} DispatchKeepsFunding<S>(c: Config, rules: Strategy<S>, d: Desk<S>, xs: seq<Intent>, t: Tick)
    ensures DispatchAll(c, Advance, rules, d, xs, t).lastFunding == d.lastFunding
  {
    if xs != [] {
      var b := DispatchAll(c, Advance, rules, d, xs[..|xs| - 1], t);
      DispatchKeepsFunding(c, rules, d, xs[..|xs| - 1], t);
      WithdrawKeepsFunding(b, b.kernel.working, t);
    }
  }

  // ----- a run

  function EventsOf(us: seq<Turn>): seq<Event> {
    if us == [] then [] else EventsOf(us[..|us| - 1]) + us[|us| - 1].Events()
  }

  /** What the turns sent, each intent with its tick. */
  function SentIn(us: seq<Turn>): seq<(nat, Intent)> {
    if us == [] then [] else SentIn(us[..|us| - 1]) + Tagged(|us| - 1, us[|us| - 1].intents)
  }

  /** The funding of a turn is the stretch of the schedule after the last time and up to its tick. */
  ghost predicate IsDue(rates: seq<FundingRate>, after: int, to: int, due: seq<FundingRate>) {
    exists lo, hi :: 0 <= lo <= hi <= |rates| && due == rates[lo..hi]
      && forall i :: 0 <= i < |rates| ==> (SettlesIn(rates[i], after, to) <==> lo <= i < hi)
  }

  ghost predicate ExplainsAt(c: Config, u: Turn, before: seq<Tick>, t: Tick) {
    u.tick == t && PutsAll(c, u.intents, u.asked, t) && IsDue(c.funding, Latest(before), t.stamp.exch, u.due)
  }

  ghost predicate Explains(c: Config, us: seq<Turn>, ticks: seq<Tick>) {
    |us| == |ticks| && forall i :: 0 <= i < |ticks| ==> ExplainsAt(c, us[i], ticks[..i], ticks[i])
  }

  lemma {:induction false} LastFundingIs<S>(c: Config, rules: Strategy<S>, s: S, ticks: seq<Tick>)
    ensures c.funding != [] ==> After(c, Advance, rules, s, ticks).lastFunding == Latest(ticks)
    ensures After(c, Advance, rules, s, ticks).kernel.state.holdings != []
  {
    if ticks != [] {
      var n := |ticks| - 1;
      LastFundingIs(c, rules, s, ticks[..n]);
      var u := TickAsEvents(c, rules, After(c, Advance, rules, s, ticks[..n]), ticks[n]);
    }
  }

  lemma DueIsDue(c: Config, last: int, after: int, to: int)
    requires InSettlementOrder(c.funding) && (c.funding != [] ==> last == after)
    ensures IsDue(c.funding, after, to, DueBy(c, last, to))
  {
    if c.funding != [] {
      var lo, hi := DueAreBetween(c.funding, after, to);
    } else {
      assert c.funding[0..0] == [];
    }
  }

  lemma OneMoreExplained(c: Config, us: seq<Turn>, ticks: seq<Tick>, u: Turn, t: Tick)
    requires Explains(c, us, ticks) && ExplainsAt(c, u, ticks, t)
    ensures Explains(c, us + [u], ticks + [t])
  {
    var all := ticks + [t];
    forall i | 0 <= i < |all| ensures ExplainsAt(c, (us + [u])[i], all[..i], all[i]) {
      if i < |ticks| {
        assert all[..i] == ticks[..i];
        assert ExplainsAt(c, us[i], ticks[..i], ticks[i]);
      } else {
        assert all[..i] == ticks;
      }
    }
  }

  /** The turn of one more tick. */
  lemma NextTurn<S>(c: Config, rules: Strategy<S>, s: S, before: seq<Tick>, t: Tick) returns (u: Turn)
    requires InSettlementOrder(c.funding)
    ensures ExplainsAt(c, u, before, t) && After(c, Advance, rules, s, before).kernel.state.holdings != []
    ensures var d := After(c, Advance, rules, s, before);
      var r := Ticked(c, Advance, rules, d, t);
      && r.kernel == Account.Run(d.kernel, u.Events()).kernel
      && r.tape.sent == d.tape.sent + Tagged(d.tape.seen, u.intents) && r.tape.seen == d.tape.seen + 1
  {
    var d := After(c, Advance, rules, s, before);
    LastFundingIs(c, rules, s, before);
    u := TickAsEvents(c, rules, d, t);
    DueIsDue(c, d.lastFunding, Latest(before), t.stamp.exch);
  }

  /** The turns are the run: they explain it, send what it sent, and their events make its kernel; folded. */
  ghost predicate AreTheRun<S>(c: Config, rules: Strategy<S>, s: S, ticks: seq<Tick>, us: seq<Turn>) {
    forall k {:trigger Seal(k)} :: Seal(k) ==>
      var d := After(c, Advance, rules, s, ticks);
      && Explains(c, us, ticks) && d.tape.sent == SentIn(us) && d.tape.seen == |ticks|
      && d.kernel == Account.Run(Opened(c), EventsOf(us)).kernel
  }

  lemma OneMoreTurn<S>(c: Config, rules: Strategy<S>, s: S, ticks: seq<Tick>, us: seq<Turn>, t: Tick) returns (u: Turn)
    requires InSettlementOrder(c.funding) && AreTheRun(c, rules, s, ticks, us)
    ensures AreTheRun(c, rules, s, ticks + [t], us + [u])
  {
    assert Seal(0);
    u := NextTurn(c, rules, s, ticks, t);
    OneMoreTick(c, Advance, rules, s, ticks, t);
    OneMoreExplained(c, us, ticks, u, t);
    TurnAppends(us, u);
    RunAppend(Opened(c), EventsOf(us), u.Events());
  }

  lemma TurnAppends(us: seq<Turn>, u: Turn)
    ensures EventsOf(us + [u]) == EventsOf(us) + u.Events()
    ensures SentIn(us + [u]) == SentIn(us) + Tagged(|us|, u.intents)
  {
    assert (us + [u])[..|us|] == us;
  }

  lemma {:induction false} TurnsOf<S>(c: Config, rules: Strategy<S>, s: S, ticks: seq<Tick>) returns (us: seq<Turn>)
    requires InSettlementOrder(c.funding)
    ensures AreTheRun(c, rules, s, ticks, us)
  {
    if ticks == [] {
      us := [];
    } else {
      var front, t := ticks[..|ticks| - 1], ticks[|ticks| - 1];
      us := TurnsOf(c, rules, s, front);
      var u := OneMoreTurn(c, rules, s, front, us, t);
      us := us + [u];
      assert ticks == front + [t];
    }
  }

  /** A backtest is a run of its kernel over these events and no others: for each tick in turn the
      rates that fell due since the latest tick before it, the tick, and the strategy's own intents
      put one after another; and what it sent is exactly those intents, each with its tick. */
  lemma RunIsTurns<S>(c: Config, rules: Strategy<S>, s: S, ticks: seq<Tick>) returns (us: seq<Turn>)
    requires InSettlementOrder(c.funding)
    ensures Explains(c, us, ticks) && SentOver(c, Advance, rules, s, ticks) == SentIn(us)
    ensures After(c, Advance, rules, s, ticks).kernel == Account.Run(Opened(c), EventsOf(us)).kernel
    ensures After(c, Advance, rules, s, ticks).tape.seen == |ticks|
  {
    us := TurnsOf(c, rules, s, ticks);
    assert Seal(0);
  }

  // ----- every rate once

  function AllDue(us: seq<Turn>): seq<FundingRate> {
    if us == [] then [] else AllDue(us[..|us| - 1]) + us[|us| - 1].due
  }

  /** Two stretches that take in the same rates are the same list. */
  lemma SameStretch(rates: seq<FundingRate>, after: int, to: int, lo: nat, hi: nat, lo2: nat, hi2: nat)
    requires lo <= hi <= |rates| && lo2 <= hi2 <= |rates|
    requires forall i :: 0 <= i < |rates| ==> (SettlesIn(rates[i], after, to) <==> lo <= i < hi)
    requires forall i :: 0 <= i < |rates| ==> (SettlesIn(rates[i], after, to) <==> lo2 <= i < hi2)
    ensures rates[lo..hi] == rates[lo2..hi2]
  {
    if lo < hi {
      assert SettlesIn(rates[lo], after, to) && SettlesIn(rates[hi - 1], after, to);
    }
    if lo2 < hi2 {
      assert SettlesIn(rates[lo2], after, to) && SettlesIn(rates[hi2 - 1], after, to);
    }
  }

  lemma DueUnique(rates: seq<FundingRate>, after: int, to: int, due: seq<FundingRate>)
    requires InSettlementOrder(rates) && IsDue(rates, after, to, due)
    ensures due == Between(rates, after, to)
  {
    var lo, hi :| 0 <= lo <= hi <= |rates| && due == rates[lo..hi]
      && forall i :: 0 <= i < |rates| ==> (SettlesIn(rates[i], after, to) <==> lo <= i < hi);
    var lo2, hi2 := DueAreBetween(rates, after, to);
    SameStretch(rates, after, to, lo, hi, lo2, hi2);
  }

  /** Over a run every rate that settles by the latest tick is paid, once, in the order of the
      schedule. */
  lemma {:induction false} EveryRateOnce(c: Config, us: seq<Turn>, ticks: seq<Tick>)
    requires InSettlementOrder(c.funding) && Explains(c, us, ticks)
    ensures AllDue(us) == Between(c.funding, I64_MIN, Latest(ticks))
  {
    if us == [] {
      assert Between(c.funding, I64_MIN, I64_MIN) == [];
    } else {
      var n := |us| - 1;
      ExplainsFront(c, us, ticks);
      EveryRateOnce(c, us[..n], ticks[..n]);
      DueUnique(c.funding, Latest(ticks[..n]), ticks[n].stamp.exch, us[n].due);
      LatestFrom(ticks[..n]);
      if ticks[n].stamp.exch >= Latest(ticks[..n]) {
        DueAdds(c.funding, I64_MIN, Latest(ticks[..n]), ticks[n].stamp.exch);
      } else {
        Grows(c.funding, ticks[n].stamp.exch, Latest(ticks[..n]));
      }
    }
  }

  lemma ExplainsFront(c: Config, us: seq<Turn>, ticks: seq<Tick>)
    requires Explains(c, us, ticks) && us != []
    ensures Explains(c, us[..|us| - 1], ticks[..|us| - 1])
    ensures ExplainsAt(c, us[|us| - 1], ticks[..|us| - 1], ticks[|us| - 1])
  {
    var n := |us| - 1;
    forall i | 0 <= i < n ensures ExplainsAt(c, us[..n][i], ticks[..n][..i], ticks[..n][i]) {
      assert ticks[..n][..i] == ticks[..i];
      assert ExplainsAt(c, us[i], ticks[..i], ticks[i]);
    }
  }

  lemma {:induction false} LatestFrom(ticks: seq<Tick>)
    ensures Latest(ticks) >= I64_MIN
  {
    if ticks != [] {
      LatestFrom(ticks[..|ticks| - 1]);
    }
  }
}
