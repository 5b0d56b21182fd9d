/** What a strategy is told in a backtest and in which order, and what it is answered
    (crates/oq-backtest/src/run.rs, crates/oq-strategy/src/lib.rs). */
module Callbacks {
  import opened Numbers
  import opened Market
  import opened Events
  import opened Account
  import opened Backtest = Run
  import AccountFacts
  import EventRules
  import Timeline

  // ----- the notes of a tick, in order

  datatype Note =
    | OfFill(f: Fill, ctx: Context)
    | OfClose(closed: VenueClosed, ctx: Context)
    | OfEnding(id: nat, how: Ending)
    | OfTick(ctx: Context)

  function ReactionTo<S>(rules: Strategy<S>, s: S, n: Note): Reaction<S> {
    match n
    case OfFill(f, ctx) => rules.onFill(s, f, ctx)
    case OfClose(x, ctx) => rules.onVenueClosed(s, x, ctx)
    case OfEnding(id, how) => rules.onEnded(s, id, how)
    case OfTick(ctx) => rules.onTick(s, ctx)
  }

  /** A strategy told one note after another: where it ends up, and all it asked for. */
  function Told<S>(rules: Strategy<S>, s: S, ns: seq<Note>): Reaction<S>
    decreases |ns|
  {
    if ns == [] then Reaction(s, [])
    else
      var first := ReactionTo(rules, s, ns[0]);
      var rest := Told(rules, first.state, ns[1..]);
      Reaction(rest.state, first.intents + rest.intents)
  }

  lemma {:induction false} ToldMore<S>(rules: Strategy<S>, s: S, ns: seq<Note>, n: Note)
    ensures var b := Told(rules, s, ns);
      var r := ReactionTo(rules, b.state, n);
      Told(rules, s, ns + [n]) == Reaction(r.state, b.intents + r.intents)
    decreases |ns|
  {
    if ns == [] {
      var r := ReactionTo(rules, s, n);
      assert ([n])[1..] == [] && [] + [n] == [n];
      assert r.intents + [] == r.intents == [] + r.intents;
    } else {
      var first := ReactionTo(rules, s, ns[0]);
      ToldMore(rules, first.state, ns[1..], n);
      assert (ns + [n])[1..] == ns[1..] + [n];
      var b := Told(rules, first.state, ns[1..]);
      var r := ReactionTo(rules, b.state, n);
      assert first.intents + (b.intents + r.intents) == first.intents + b.intents + r.intents;
    }
  }

  /** The strategy has heard exactly these notes since `s`. */
  ghost predicate HeardNotes<S>(rules: Strategy<S>, s: S, ns: seq<Note>, h: Heard<S>) {
    Told(rules, s, ns) == Reaction(h.tape.inner, h.intents)
  }

  lemma TakenNote<S>(rules: Strategy<S>, s: S, ns: seq<Note>, h: Heard<S>, n: Note)
    requires HeardNotes(rules, s, ns, h)
    ensures HeardNotes(rules, s, ns + [n], h.Take(ReactionTo(rules, h.tape.inner, n)))
  {
    ToldMore(rules, s, ns, n);
  }

  function FillNotes(fs: seq<Fill>, ctx: Context): (ns: seq<Note>)
    ensures |ns| == |fs|
  {
    seq(|fs|, i requires 0 <= i < |fs| => OfFill(fs[i], ctx))
  }

  function CloseNotes(xs: seq<VenueClosed>, ctx: Context): (ns: seq<Note>)
    ensures |ns| == |xs|
  {
    seq(|xs|, i requires 0 <= i < |xs| => OfClose(xs[i], ctx))
  }

  function EndingNotes(es: seq<(nat, Ending)>): (ns: seq<Note>)
    ensures |ns| == |es|
  {
    seq(|es|, i requires 0 <= i < |es| => OfEnding(es[i].0, es[i].1))
  }

  /** Fills first, then what the venue closed, then orders that are over, then the tick itself. */
  function NotesOf(fs: seq<Fill>, xs: seq<VenueClosed>, es: seq<(nat, Ending)>, ctx: Context): seq<Note> {
    FillNotes(fs, ctx) + CloseNotes(xs, ctx) + EndingNotes(es) + [OfTick(ctx)]
  }

  lemma {:induction false} FillsTold<S>(rules: Strategy<S>, s: S, ns: seq<Note>, h: Heard<S>, fs: seq<Fill>, ctx: Context)
    requires HeardNotes(rules, s, ns, h)
    ensures HeardNotes(rules, s, ns + FillNotes(fs, ctx), HearFills(rules, h, fs, ctx))
  {
    if fs == [] {
      assert ns + FillNotes(fs, ctx) == ns;
    } else {
      var m := |fs| - 1;
      FillsTold(rules, s, ns, h, fs[..m], ctx);
      TakenNote(rules, s, ns + FillNotes(fs[..m], ctx), HearFills(rules, h, fs[..m], ctx), OfFill(fs[m], ctx));
      assert ns + FillNotes(fs, ctx) == ns + FillNotes(fs[..m], ctx) + [OfFill(fs[m], ctx)];
    }
  }

  lemma {:induction false} ClosesTold<S>(rules: Strategy<S>, s: S, ns: seq<Note>, h: Heard<S>, xs: seq<VenueClosed>, ctx: Context)
    requires HeardNotes(rules, s, ns, h)
    ensures HeardNotes(rules, s, ns + CloseNotes(xs, ctx), HearCloses(rules, h, xs, ctx))
  {
    if xs == [] {
      assert ns + CloseNotes(xs, ctx) == ns;
    } else {
      var m := |xs| - 1;
      ClosesTold(rules, s, ns, h, xs[..m], ctx);
      TakenNote(rules, s, ns + CloseNotes(xs[..m], ctx), HearCloses(rules, h, xs[..m], ctx), OfClose(xs[m], ctx));
      assert ns + CloseNotes(xs, ctx) == ns + CloseNotes(xs[..m], ctx) + [OfClose(xs[m], ctx)];
    }
  }

  lemma {:induction false} EndingsTold<S>(rules: Strategy<S>, s: S, ns: seq<Note>, h: Heard<S>, es: seq<(nat, Ending)>)
    requires HeardNotes(rules, s, ns, h)
    ensures HeardNotes(rules, s, ns + EndingNotes(es), HearEndings(rules, h, es))
  {
    if es == [] {
      assert ns + EndingNotes(es) == ns;
    } else {
      var m := |es| - 1;
      EndingsTold(rules, s, ns, h, es[..m]);
      TakenNote(rules, s, ns + EndingNotes(es[..m]), HearEndings(rules, h, es[..m]), OfEnding(es[m].0, es[m].1));
      assert ns + EndingNotes(es) == ns + EndingNotes(es[..m]) + [OfEnding(es[m].0, es[m].1)];
    }
  }

  /** On a tick any strategy is told these notes in this order, and what it asks for is what it
      answers to each, in turn. */
  lemma HearingIsTold<S>(rules: Strategy<S>, tape: Tape<S>, fs: seq<Fill>, xs: seq<VenueClosed>, es: seq<(nat, Ending)>, ctx: Context)
    ensures var h := Hearing(rules, tape, fs, xs, es, ctx);
      Told(rules, tape.inner, NotesOf(fs, xs, es, ctx)) == Reaction(h.tape.inner, h.intents)
  {
    var s, h0 := tape.inner, Heard(tape, []);
    FillsTold(rules, s, [], h0, fs, ctx);
    assert [] + FillNotes(fs, ctx) == FillNotes(fs, ctx);
    var n1, h1 := FillNotes(fs, ctx), HearFills(rules, h0, fs, ctx);
    ClosesTold(rules, s, n1, h1, xs, ctx);
    var n2, h2 := n1 + CloseNotes(xs, ctx), HearCloses(rules, h1, xs, ctx);
    EndingsTold(rules, s, n2, h2, es);
    TakenNote(rules, s, n2 + EndingNotes(es), HearEndings(rules, h2, es), OfTick(ctx));
  }

  // ----- what the notes are of

  /** The places of a list of outputs that hold fills, in order and all of them. */
  ghost predicate FillsAt(out: seq<Output>, fs: seq<Fill>, at: seq<nat>) {
    && |at| == |fs| && Ascending(at)
    && (forall i :: 0 <= i < |at| ==> at[i] < |out| && out[at[i]] == Filled(fs[i]))
    && (forall n: nat :: n < |out| && out[n].Filled? ==> n in at)
  }

  lemma OneMoreFill(out: seq<Output>, fs: seq<Fill>, at: seq<nat>, f: Fill)
    requires FillsAt(out, fs, at)
    ensures FillsAt(out + [Filled(f)], fs + [f], at + [|out|])
  {
    var all, r := out + [Filled(f)], at + [|out|];
    forall n: nat | n < |all| && all[n].Filled? ensures n in r {
      if n < |out| {
        assert n in at;
      } else {
        assert r[|at|] == n;
      }
    }
  }

  lemma OneMoreOther(out: seq<Output>, fs: seq<Fill>, at: seq<nat>, o: Output)
    requires FillsAt(out, fs, at) && !o.Filled?
    ensures FillsAt(out + [o], fs, at)
  {
  }

  lemma FillsMore(out: seq<Output>, o: Output)
    ensures FillsIn(out + [o]) == if o.Filled? then FillsIn(out) + [o.fill] else FillsIn(out)
  {
    assert (out + [o])[..|out|] == out;
  }

  lemma {:induction false} EveryFillIsHeard(out: seq<Output>) returns (at: seq<nat>)
    ensures FillsAt(out, FillsIn(out), at)
  {
    if out == [] {
      at := [];
    } else {
      var front, o := out[..|out| - 1], out[|out| - 1];
      at := EveryFillIsHeard(front);
      assert front + [o] == out;
      FillsMore(front, o);
      if o.Filled? {
        OneMoreFill(front, FillsIn(front), at, o.fill);
        at := at + [|front|];
      } else {
        OneMoreOther(front, FillsIn(front), at, o);
      }
    }
  }

  /** A liquidation of a long leg is heard as a close of what was bought, one of a short leg as a close of what was
      sold, and sizes have no sign. */
  predicate ClosesLeg(o: Output, x: VenueClosed) {
    && o.Liquidated? && x.instrument == o.instrument && x.price == o.price && x.at == o.at
    && x.qty > 0 && match x.leg case Buy => x.qty == o.long || x.qty == 0 - o.long case Sell => x.qty == o.short || x.qty == 0 - o.short
  }

  lemma OneMoreClose(out: seq<Output>, o: Output)
    ensures ClosesIn(out + [o]) == ClosesIn(out) + Legs(o)
  {
    assert (out + [o])[..|out|] == out;
  }

  lemma LegsAreClosed(o: Output, x: VenueClosed)
    ensures x in Legs(o) <==> ClosesLeg(o, x)
  {
  }

  ghost predicate ClosedIn(out: seq<Output>, x: VenueClosed) {
    exists n :: 0 <= n < |out| && ClosesLeg(out[n], x)
  }

  lemma ClosedInMore(out: seq<Output>, o: Output, x: VenueClosed)
    ensures ClosedIn(out + [o], x) <==> ClosedIn(out, x) || ClosesLeg(o, x)
  {
    var all := out + [o];
    if n :| 0 <= n < |out| && ClosesLeg(out[n], x) {
      assert ClosesLeg(all[n], x);
    }
    if ClosesLeg(o, x) {
      assert ClosesLeg(all[|out|], x);
    }
    if n :| 0 <= n < |all| && ClosesLeg(all[n], x) {
      if n < |out| { assert ClosesLeg(out[n], x); }
    }
  }

  lemma {:induction false} EveryCloseIsHeard(out: seq<Output>, x: VenueClosed)
    ensures x in ClosesIn(out) <==> exists n :: 0 <= n < |out| && ClosesLeg(out[n], x)
  {
    if out != [] {
      var front, o := out[..|out| - 1], out[|out| - 1];
      EveryCloseIsHeard(front, x);
      assert out == front + [o];
      OneMoreClose(front, o);
      LegsAreClosed(o, x);
      ClosedInMore(front, o, x);
      assert ClosedIn(front, x) <==> x in ClosesIn(front);
      assert ClosedIn(out, x) <==> x in ClosesIn(out);
    }
  }

  lemma Regroup<T>(a: seq<T>, b: seq<T>, c: seq<T>)
    ensures a + (b + c) == a + b + c
  {
  }

  lemma ClosesOneFurther(a: seq<Output>, b: seq<Output>, o: Output)
    requires ClosesIn(a + b) == ClosesIn(a) + ClosesIn(b)
    ensures ClosesIn(a + (b + [o])) == ClosesIn(a) + ClosesIn(b + [o])
  {
    OneMoreClose(a + b, o);
    OneMoreClose(b, o);
    Regroup(a, b, [o]);
    Regroup(ClosesIn(a), ClosesIn(b), Legs(o));
  }

  lemma {:induction false} ClosesInTurn(a: seq<Output>, b: seq<Output>)
    ensures ClosesIn(a + b) == ClosesIn(a) + ClosesIn(b)
  {
    if b == [] {
      assert a + b == a;
    } else {
      var front, o := b[..|b| - 1], b[|b| - 1];
      ClosesInTurn(a, front);
      ClosesOneFurther(a, front, o);
      assert b == front + [o];
    }
  }

  /** The long leg is heard before the short one, and each once. */
  lemma LongBeforeShort(o: Output)
    ensures var xs := ClosesIn([o]);
      |xs| <= 2 && (|xs| == 2 ==> xs[0].leg.Buy? && xs[1].leg.Sell?)
  {
    assert [o][..0] == [];
  }

  predicate Ends(o: Output, id: nat, how: Ending) {
    match how
    case EndFilled => o.Filled? && o.fill.order == id
    case EndCancelled => o.Withdrawn? && o.id == id
  }

  ghost predicate Ended(out: seq<Output>, id: nat) {
    exists n, how :: 0 <= n < |out| && Ends(out[n], id, how)
  }

  /** The first output that ends an order, and how. */
  ghost predicate FirstEnds(out: seq<Output>, n: nat, id: nat, how: Ending) {
    n < |out| && Ends(out[n], id, how) && forall j, other :: 0 <= j < n ==> !Ends(out[j], id, other)
  }

  lemma EndedMore(out: seq<Output>, o: Output, id: nat)
    ensures Ended(out + [o], id) <==> Ended(out, id) || (EndingOf(o).Some? && EndingOf(o).value.0 == id)
  {
    var all := out + [o];
    if Ended(out, id) {
      var n, how :| 0 <= n < |out| && Ends(out[n], id, how);
      assert Ends(all[n], id, how);
    }
    if EndingOf(o).Some? && EndingOf(o).value.0 == id {
      assert Ends(all[|out|], id, EndingOf(o).value.1);
    }
    if Ended(all, id) {
      var n, how :| 0 <= n < |all| && Ends(all[n], id, how);
      if n < |out| { assert Ends(out[n], id, how); }
    }
  }

  lemma SameFirst(out: seq<Output>, o: Output, n: nat, id: nat, how: Ending)
    requires n < |out|
    ensures FirstEnds(out + [o], n, id, how) <==> FirstEnds(out, n, id, how)
  {
    var all := out + [o];
    assert all[n] == out[n];
    forall j, other | 0 <= j < n ensures Ends(all[j], id, other) <==> Ends(out[j], id, other) {
    }
  }

  lemma NewFirst(out: seq<Output>, o: Output, id: nat, how: Ending)
    ensures FirstEnds(out + [o], |out|, id, how) ==> !Ended(out, id) && Ends(o, id, how)
  {
    var all := out + [o];
    assert all[|out|] == o;
    forall j, other | 0 <= j < |out| ensures Ends(all[j], id, other) <==> Ends(out[j], id, other) {
    }
  }

  lemma FirstMore(out: seq<Output>, o: Output, id: nat, how: Ending)
    ensures (exists n: nat :: FirstEnds(out + [o], n, id, how)) <==>
      (exists n: nat :: FirstEnds(out, n, id, how)) || (EndingOf(o) == Some((id, how)) && !Ended(out, id))
  {
    var all := out + [o];
    if n: nat :| FirstEnds(out, n, id, how) {
      SameFirst(out, o, n, id, how);
    }
    if EndingOf(o) == Some((id, how)) && !Ended(out, id) {
      assert FirstEnds(all, |out|, id, how);
    }
    if n: nat :| FirstEnds(all, n, id, how) {
      if n < |out| {
        SameFirst(out, o, n, id, how);
      } else {
        NewFirst(out, o, id, how);
      }
    }
  }

  lemma NotedMore(out: seq<Output>, o: Output, working: seq<nat>, ended: seq<(nat, Ending)>)
    ensures var b, e := Noted(out, working, ended), EndingOf(o);
      Noted(out + [o], working, ended) == if e.Some? && e.value.0 !in working && !Mentions(b, e.value.0) then b + [e.value] else b
  {
    assert (out + [o])[..|out|] == out;
  }

  lemma MentionsMore(b: seq<(nat, Ending)>, e: (nat, Ending), id: nat)
    ensures Mentions(b + [e], id) <==> Mentions(b, id) || e.0 == id
  {
    var all := b + [e];
    if Mentions(b, id) {
      var i :| 0 <= i < |b| && b[i].0 == id;
      assert all[i].0 == id;
    }
    assert all[|b|] == e;
  }

  /** An order is heard to be over when it is no longer working and an output ended it, the way the first such
      output says, unless it was heard before. */
  lemma {:induction false} EndingIff(out: seq<Output>, working: seq<nat>, ended: seq<(nat, Ending)>, id: nat, how: Ending)
    ensures (id, how) in Noted(out, working, ended) <==>
      (id, how) in ended || (id !in working && !Mentions(ended, id) && exists n: nat :: FirstEnds(out, n, id, how))
    ensures Mentions(Noted(out, working, ended), id) <==> Mentions(ended, id) || (id !in working && Ended(out, id))
  {
    if out != [] {
      var m := |out| - 1;
      var front, o := out[..m], out[m];
      EndingIff(front, working, ended, id, how);
      assert out == front + [o];
      NotedMore(front, o, working, ended);
      EndedMore(front, o, id);
      FirstMore(front, o, id, how);
      if EndingOf(o).Some? {
        MentionsMore(Noted(front, working, ended), EndingOf(o).value, id);
      }
    }
  }

  ghost predicate OncePerOrder(es: seq<(nat, Ending)>) {
    forall i, j :: 0 <= i < j < |es| ==> es[i].0 != es[j].0
  }

  lemma OneMoreOver(es: seq<(nat, Ending)>, e: (nat, Ending))
    requires OncePerOrder(es) && !Mentions(es, e.0)
    ensures OncePerOrder(es + [e])
  {
    forall i | 0 <= i < |es| ensures es[i].0 != e.0 {
      assert Mentions(es, es[i].0);
    }
  }

  /** No order is heard to be over twice. */
  lemma {:induction false} HeardOnce(out: seq<Output>, working: seq<nat>, ended: seq<(nat, Ending)>)
    requires OncePerOrder(ended)
    ensures OncePerOrder(Noted(out, working, ended))
  {
    if out != [] {
      var b, e := Noted(out[..|out| - 1], working, ended), EndingOf(out[|out| - 1]);
      HeardOnce(out[..|out| - 1], working, ended);
      if e.Some? && !Mentions(b, e.value.0) {
        OneMoreOver(b, e.value);
      }
    }
  }

  /** The account a strategy is shown: the only holding's two legs, and the balance with every holding's
      profit at its mark. */
  lemma ContextIs(c: Config, k: KernelV, t: Tick)
    requires k.state.holdings != []
    ensures var x, v := ContextOf(c, k, t), k.state.holdings[0];
      && x.instrument == c.instrument && x.tick == t && x.working == |k.working|
      && x.position == v.long.qty && x.entry == v.long.entry && x.shortPosition == v.short.qty && x.shortEntry == v.short.entry
      && x.equity == k.state.balance + AccountFacts.WorthFrom(k.state.holdings, 0)
  {
    AccountFacts.WorthOfAll(k.state.holdings, 0);
    assert k.state.holdings[..0] == [];
  }

  /** A run opens on one flat holding of its instrument with the configured cash, and nothing counted, marked or
      working; without a policy the fills are L0's, with one L1's. */
  lemma OpensFlat(c: Config)
    ensures var k := Opened(c);
      && k.working == [] && |k.state.holdings| == 1 && k.state.balance == c.balance && k.state.mode == c.mode
      && k.state.schedule == c.fees && k.state.enforce == c.enforced && k.state.matching == Simulated
      && k.state.realized == 0 && k.state.funding == 0 && k.state.fees == 0 && k.state.forfeited == 0 && k.state.now == 0
      && k.state.feesCovered && !k.state.feesMissing
    ensures var v := Opened(c).state.holdings[0];
      && v.instrument == c.instrument && v.tickCash == c.tickCash && v.table == c.table && v.mark == 0
      && AccountFacts.NoPosition(v)
      && (c.policy.None? ==> v.engine.AtL0?) && (c.policy.Some? ==> v.engine.AtL1? && v.engine.policy == c.policy.value)
  {
  }

  // ----- the whole tick

  /** Everything a tick tells a strategy, from the kernel it finds: the funding due is settled first, and closes
      it brought are heard before those of the tick. */
  ghost predicate TickTells(c: Config, k: KernelV, t: Tick, due: seq<FundingRate>, before: seq<(nat, Ending)>, ns: seq<Note>)
    requires k.state.holdings != []
  {
    var paid := Account.Run(k, Timeline.FundingEvents(due));
    var a := Apply(paid.kernel, TickSeen(None, t));
    ns == NotesOf(FillsIn(a.out), ClosesIn(paid.out + a.out), Noted(a.out, a.kernel.working, before), ContextOf(c, a.kernel, t))
  }

  lemma {:induction false} PaidCloses(k: KernelV, due: seq<FundingRate>)
    requires k.state.holdings != []
    ensures PayEach(Advance, k, due).closed == ClosesIn(Account.Run(k, Timeline.FundingEvents(due)).out)
  {
    if due != [] {
      var n := |due| - 1;
      PaidCloses(k, due[..n]);
      Timeline.PaidAsEvents(k, due[..n]);
      var es := Timeline.FundingEvents(due);
      assert es[..n] == Timeline.FundingEvents(due[..n]);
      var b := Account.Run(k, es[..n]);
      ClosesInTurn(b.out, Apply(b.kernel, es[n]).out);
    }
  }

  /** A tick tells the strategy these notes, then sends what it asked for in the order it asked. */
  lemma TickIsTold<S>(c: Config, rules: Strategy<S>, d: Desk<S>, t: Tick) returns (ns: seq<Note>, desk: Desk<S>)
    requires d.kernel.state.holdings != []
    ensures TickTells(c, d.kernel, t, DueBy(c, d.lastFunding, t.stamp.exch), d.ended, ns)
    ensures var r := Told(rules, d.tape.inner, ns);
      && desk.tape.inner == r.state && desk.ended == [] && desk.misrouted == d.misrouted
      && Ticked(c, Advance, rules, d, t) == DispatchAll(c, Advance, rules, desk, r.intents, t)
  {
    var due := DueBy(c, d.lastFunding, t.stamp.exch);
    var paid := PayEach(Advance, d.kernel, due);
    Timeline.PaidAsEvents(d.kernel, due);
    PaidCloses(d.kernel, due);
    var events := Account.Run(d.kernel, Timeline.FundingEvents(due));
    var a := Advance(paid.kernel, TickSeen(None, t));
    ClosesInTurn(events.out, a.out);
    var ended, ctx := Noted(a.out, a.kernel.working, d.ended), ContextOf(c, a.kernel, t);
    var closed := paid.closed + ClosesIn(a.out);
    HearingIsTold(rules, d.tape, FillsIn(a.out), closed, ended, ctx);
    var h := Hearing(rules, d.tape, FillsIn(a.out), closed, ended, ctx);
    var last := if c.funding == [] then d.lastFunding else Max(d.lastFunding, t.stamp.exch);
    ns := NotesOf(FillsIn(a.out), closed, ended, ctx);
    desk := Desk(a.kernel, h.tape, [], last, d.misrouted);
  }

  // ----- what it asked for

  lemma {:induction false} SentInTurn<S>(c: Config, rules: Strategy<S>, d: Desk<S>, xs: seq<Intent>, ys: seq<Intent>, t: Tick)
    ensures DispatchAll(c, Advance, rules, d, xs + ys, t)
         == DispatchAll(c, Advance, rules, DispatchAll(c, Advance, rules, d, xs, t), ys, t)
  {
    if ys == [] {
      assert xs + ys == xs;
    } else {
      SentInTurn(c, rules, d, xs, ys[..|ys| - 1], t);
      assert (xs + ys)[..|xs + ys| - 1] == xs + ys[..|ys| - 1];
    }
  }

  /** An order is answered by whether it was placed: it was for the strategy's own instrument and nothing kept it
      out. An order for another instrument is counted as astray and reaches no kernel. */
  lemma OrderIsAnswered<S>(c: Config, rules: Strategy<S>, d: Desk<S>, x: Intent, t: Tick)
    requires d.kernel.state.holdings != [] && (x.Limit? || x.AtMarket?)
    ensures var e := Submit(Some(x.instrument), x.id, x.side, if x.Limit? then Some(x.price) else None, x.qty, x.offset, t.stamp);
      var r, own := Dispatched(c, Advance, rules, d, x, t), x.instrument == c.instrument;
      && r.kernel == (if own then Apply(d.kernel, e).kernel else d.kernel)
      && r.tape.inner == rules.onPlaced(d.tape.inner, x.id, own && forall reason: RejectReason :: !EventRules.KeptOut(d.kernel, e, reason))
      && r.misrouted == d.misrouted + (if own then 0 else 1) && r.ended == d.ended
  {
    if x.instrument == c.instrument {
      var e := Placement(x, t);
      EventRules.SubmissionAnswered(d.kernel, e);
      var a := Apply(d.kernel, e);
      if a.out != [] {
        assert a.out == [a.out[0]];
        assert RefusedIn(a.out, x.id);
      }
      SilentlyNoted(a.out, a.kernel.working, d.ended);
    }
  }

  lemma SilentlyNoted(out: seq<Output>, working: seq<nat>, ended: seq<(nat, Ending)>)
    requires out == [] || (|out| == 1 && out[0].Rejected?)
    ensures Noted(out, working, ended) == ended
  {
  }

  /** Asking for everything to be withdrawn asks the kernel once for every order working at that moment, in the order
      they were placed. */
  lemma EveryOrderIsWithdrawn<S>(c: Config, rules: Strategy<S>, d: Desk<S>, t: Tick) returns (es: seq<Event>)
    requires d.kernel.state.holdings != []
    ensures |es| == |d.kernel.working| && forall i :: 0 <= i < |es| ==> es[i] == Cancel(d.kernel.working[i], t.stamp)
    ensures Dispatched(c, Advance, rules, d, CancelEvery, t).kernel == Account.Run(d.kernel, es).kernel
  {
    es := Timeline.WithdrawnAsEvents(d, d.kernel.working, t);
  }
}
