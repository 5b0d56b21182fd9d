/** The lookahead check: rerun prefixes of a window and compare what the strategy sends
    (crates/oq-backtest/src/lookahead.rs). It never accuses a strategy that ignores its data,
    and every accusation it makes names a tick on which the two runs differ. */
module Lookahead {
  import opened Folding
  import opened Numbers
  import opened Market
  import opened Run
  import opened Host

  datatype Divergence = Divergence(checkedAt: nat, tick: nat, at: int, full: seq<Intent>, truncated: seq<Intent>)

  datatype Report = Report(signals: nat, checked: nat, divergences: seq<Divergence>)

  type Sent = seq<(nat, Intent)>

  // ----- picking points

  function TicksIn(sent: Sent): (r: seq<nat>)
    ensures |r| == |sent|
  {
    seq(|sent|, i requires 0 <= i < |sent| => sent[i].0)
  }

  /** Consecutive repeats dropped. */
  function Dedup(xs: seq<nat>): (r: seq<nat>)
    ensures xs != [] ==> r != [] && r[|r| - 1] == xs[|xs| - 1]
  {
    if xs == [] then []
    else
      var r := Dedup(xs[..|xs| - 1]);
      if |xs| >= 2 && xs[|xs| - 2] == xs[|xs| - 1] then r else r + [xs[|xs| - 1]]
  }

  function Pick(n: nat, max: nat, k: nat): nat
    requires max > 0 && n > 0
  {
    (k * (n - 1)) / Max(max - 1, 1)
  }

  /** Up to `max` of the candidates, evenly spread. */
  function Spread(candidates: seq<nat>, max: nat): seq<nat> {
    if |candidates| <= max then candidates
    else if max == 0 then []
    else Dedup(Picked(candidates, max))
  }

  lemma PickInRange(n: nat, max: nat, k: nat)
    requires k < max < n
    ensures Pick(n, max, k) < n
  {
    var d := Max(max - 1, 1);
    MulUpTo(k, d, n - 1);
    assert d * (n - 1) == (n - 1) * d;
    QuotientAtMost(k * (n - 1), n - 1, d);
  }

  lemma QuotientAtLeast(p: int, c: int, b: int)
    requires b > 0 && p >= c * b
    ensures p / b >= c
  {
    Euclid(p, b);
    if p / b < c {
      MulAtLeast(c - p / b, b);
      Distribute(c, 0 - p / b, b);
      NegateProduct(p / b, b);
    }
  }

  ghost predicate Increasing(xs: seq<nat>) {
    forall i, j :: 0 <= i < j < |xs| ==> xs[i] < xs[j]
  }

  lemma {:induction false} DedupOfIncreasing(xs: seq<nat>)
    requires Increasing(xs)
    ensures Dedup(xs) == xs
  {
    if xs != [] {
      var n := |xs| - 1;
      var front, last := xs[..n], xs[n];
      assert xs == front + [last];
      DedupOfIncreasing(front);
      DedupSnoc(front, last);
    }
  }

  lemma DedupSnoc(front: seq<nat>, last: nat)
    requires front != [] ==> front[|front| - 1] < last
    ensures Dedup(front + [last]) == Dedup(front) + [last]
  {
    var xs := front + [last];
    assert xs[..|xs| - 1] == front && xs[|xs| - 1] == last;
    assert front != [] ==> xs[|xs| - 2] == front[|front| - 1];
    DedupUnrolls(xs);
  }

  lemma DedupUnrolls(xs: seq<nat>)
    requires xs != []
    ensures var r := Dedup(xs[..|xs| - 1]);
      Dedup(xs) == if |xs| >= 2 && xs[|xs| - 2] == xs[|xs| - 1] then r else r + [xs[|xs| - 1]]
  {
  }

  lemma {:induction false} DedupIncreases(xs: seq<nat>)
    requires forall i, j :: 0 <= i <= j < |xs| ==> xs[i] <= xs[j]
    ensures Increasing(Dedup(xs)) && forall x :: x in xs <==> x in Dedup(xs)
  {
    if xs != [] {
      var n := |xs| - 1;
      DedupIncreases(xs[..n]);
      var r := Dedup(xs[..n]);
      assert xs == xs[..n] + [xs[n]];
      forall i | 0 <= i < |r| ensures r[i] <= xs[n] {
        assert r[i] in xs[..n];
      }
      if n >= 1 && xs[n - 1] != xs[n] {
        assert r[|r| - 1] == xs[n - 1] < xs[n];
        forall i | 0 <= i < |r| ensures r[i] < xs[n] {
          assert r[i] <= r[|r| - 1];
        }
      }
    }
  }

  /** With more candidates than points, consecutive picks are at least one apart. */
  lemma PicksApart(n: nat, max: nat, k: nat)
    requires 2 <= max < n && k + 1 < max
    ensures Pick(n, max, k) < Pick(n, max, k + 1)
  {
    var d, a := max - 1, k * (n - 1);
    Distribute(k, 1, n - 1);
    Euclid(a, d);
    Distribute(a / d, 1, d);
    QuotientAtLeast(a + (n - 1), a / d + 1, d);
  }

  lemma {:induction false} PicksIncrease(n: nat, max: nat, k: nat, m: nat)
    requires 2 <= max < n && k < m < max
    ensures Pick(n, max, k) < Pick(n, max, m)
  {
    PicksApart(n, max, m - 1);
    if k < m - 1 {
      PicksIncrease(n, max, k, m - 1);
    }
  }

  /** Neighbouring picks are one of two neighbouring distances apart. */
  lemma PicksAreEven(n: nat, max: nat, k: nat)
    requires 2 <= max < n && k + 1 < max
    ensures (n - 1) / (max - 1) <= Pick(n, max, k + 1) - Pick(n, max, k) <= (n - 1) / (max - 1) + 1
  {
    var d, a, b := max - 1, k * (n - 1), n - 1;
    Distribute(k, 1, b);
    Euclid(a, d);
    Euclid(b, d);
    Euclid(a + b, d);
    SumOfQuotients(a / d, a % d, b / d, b % d, (a + b) / d, (a + b) % d, d);
  }

  lemma SumOfQuotients(p: int, x: int, q: int, y: int, r: int, z: int, d: int)
    requires d > 0 && 0 <= x < d && 0 <= y < d && 0 <= z < d
    requires p * d + x + q * d + y == r * d + z
    ensures p + q <= r <= p + q + 1
  {
    var g := r - p - q;
    Distribute(p, q, d);
    Distribute(p + q, g, d);
    assert g * d == x + y - z;
    if g < 0 {
      MulAtLeast(0 - g, d);
      NegateProduct(g, d);
    }
    if g > 1 {
      Distribute(2, g - 2, d);
      MulAtLeast(g - 1, d);
      Distribute(1, g - 1, d);
    }
  }

  lemma PickEnds(n: nat, max: nat)
    requires 2 <= max < n
    ensures Pick(n, max, 0) == 0 && Pick(n, max, max - 1) == n - 1
  {
    var d := max - 1;
    assert 0 * (n - 1) == 0;
    Euclid(d * (n - 1), d);
    assert d * (n - 1) == (n - 1) * d;
    DivisionUnique(n - 1, (d * (n - 1)) / d, d, 0, (d * (n - 1)) % d);
  }

  function Picked(c: seq<nat>, max: nat): (r: seq<nat>)
    requires 0 < max < |c|
    ensures |r| == max
  {
    seq(max, k requires 0 <= k < max => (PickInRange(|c|, max, k); c[Pick(|c|, max, k)]))
  }

  lemma PickedIncrease(c: seq<nat>, max: nat)
    requires Increasing(c) && 2 <= max < |c|
    ensures Increasing(Picked(c, max)) && Picked(c, max)[0] == c[0] && Picked(c, max)[max - 1] == c[|c| - 1]
  {
    var n := |c|;
    forall k, m | 0 <= k < m < max ensures Picked(c, max)[k] < Picked(c, max)[m] {
      PickInRange(n, max, k);
      PickInRange(n, max, m);
      PicksIncrease(n, max, k, m);
    }
    PickEnds(n, max);
  }

  lemma PickedOne(c: seq<nat>)
    requires Increasing(c) && |c| > 1
    ensures Picked(c, 1) == [c[0]] && c[0] != c[|c| - 1]
  {
    assert Pick(|c|, 1, 0) == 0;
  }

  lemma PickedAreCandidates(c: seq<nat>, max: nat)
    requires 0 < max < |c|
    ensures forall x :: x in Picked(c, max) ==> x in c
  {
    forall x | x in Picked(c, max) ensures x in c {
      var k :| 0 <= k < max && Picked(c, max)[k] == x;
      PickInRange(|c|, max, k);
    }
  }

  lemma SpreadSome(c: seq<nat>, max: nat)
    requires Increasing(c) && 1 <= max < |c|
    ensures Spread(c, max) == Picked(c, max) && Increasing(Picked(c, max))
    ensures c[0] in Picked(c, max) && c[|c| - 1] in Picked(c, max) <==> max >= 2
  {
    if max >= 2 {
      PickedIncrease(c, max);
      assert Picked(c, max)[0] in Picked(c, max) && Picked(c, max)[max - 1] in Picked(c, max);
    } else {
      PickedOne(c);
    }
    DedupOfIncreasing(Picked(c, max));
  }

  /** The points are strictly increasing candidates, as many as the bound allows; and they
      include the first and the last candidate exactly when every candidate is checked or at
      least two may be: with a bound of one, only the first is. */
  lemma SpreadPicks(c: seq<nat>, max: nat)
    requires Increasing(c) && c != []
    ensures Increasing(Spread(c, max)) && |Spread(c, max)| == Min(|c|, max)
    ensures forall x :: x in Spread(c, max) ==> x in c
    ensures c[0] in Spread(c, max) && c[|c| - 1] in Spread(c, max) <==> |c| <= max || max >= 2
  {
    if 1 <= max < |c| {
      PickedAreCandidates(c, max);
      SpreadSome(c, max);
    }
  }

  // ----- comparing two runs

  function IntentsOn(sent: Sent, tick: nat): seq<Intent> {
    if sent == [] then []
    else IntentsOn(sent[..|sent| - 1], tick) + if sent[|sent| - 1].0 == tick then [sent[|sent| - 1].1] else []
  }

  /** How far two lists agree. */
  function Common(a: Sent, b: Sent): (n: nat)
    ensures n <= |a| && n <= |b| && a[..n] == b[..n]
    ensures n < |a| && n < |b| ==> a[n] != b[n]
    decreases |a|
  {
    if a == [] || b == [] || a[0] != b[0] then 0
    else
      var n := Common(a[1..], b[1..]);
      assert a[..n + 1] == [a[0]] + a[1..][..n] && b[..n + 1] == [b[0]] + b[1..][..n];
      n + 1
  }

  /** The tick of the first difference, and the point itself if there is none. */
  function FirstDifference(a: Sent, b: Sent, point: nat): nat {
    var n := Common(a, b);
    if n < |a| && n < |b| then Min(a[n].0, b[n].0)
    else if n < |a| then a[n].0
    else if n < |b| then b[n].0
    else point
  }

  function Compared(full: Sent, rerun: Sent, ticks: seq<Tick>, point: nat): seq<Divergence>
    requires point < |ticks|
  {
    var a, b := Through(full, point), Through(rerun, point);
    if a == b then []
    else
      var tick := FirstDifference(a, b, point);
      [Divergence(point, tick, if tick < |ticks| then ticks[tick].stamp.exch else 0, IntentsOn(a, tick), IntentsOn(b, tick))]
  }

  /** What a run sends, as a function of the strategy's first state and the ticks. */
  type Runs<!S> = (S, seq<Tick>) -> Sent

  function RunsOf<S>(c: Config, core: Core, rules: Strategy<S>): Runs<S> {
    (s: S, ticks: seq<Tick>) => Sender(c, core, rules, s)(ticks)
  }

  function RerunAt<S>(runs: Runs<S>, build: seq<Tick> -> S, ticks: seq<Tick>, point: nat): Sent
    requires point < |ticks|
  {
    runs(build(ticks[..point + 1]), ticks[..point + 1])
  }

  function CheckEach<S>(runs: Runs<S>, build: seq<Tick> -> S, ticks: seq<Tick>, points: seq<nat>): seq<Divergence>
    requires forall i :: 0 <= i < |points| ==> points[i] < |ticks|
  {
    if points == [] then []
    else
      var p := points[|points| - 1];
      CheckEach(runs, build, ticks, points[..|points| - 1])
        + Compared(runs(build(ticks), ticks), RerunAt(runs, build, ticks, p), ticks, p)
  }

  function Candidates(full: Sent): seq<nat> {
    Dedup(TicksIn(full))
  }

  /** The report: one run over all the ticks, compared at each picked point with a run of a newly
      built strategy over the ticks through that point. */
  function Checked<S(!new)>(runs: Runs<S>, build: seq<Tick> -> S, ticks: seq<Tick>, max: nat): Report
    requires Orderly(runs)
  {
    var full := runs(build(ticks), ticks);
    var points := Spread(Candidates(full), max);
    SpreadInRange(full, |ticks|, max);
    Report(|Candidates(full)|, |points|, CheckEach(runs, build, ticks, points))
  }

  /** Intents come in tick order, within the window. */
  ghost predicate Orderly<S(!new)>(runs: Runs<S>) {
    forall s, ticks :: InOrder(runs(s, ticks), |ticks|)
  }

  /** What is sent through a tick depends on the ticks through it alone. */
  ghost predicate Causal<S(!new)>(runs: Runs<S>) {
    forall s, ticks, p: nat :: p < |ticks| ==> CausalAt(runs, s, ticks, p)
  }

  ghost predicate CausalAt<S>(runs: Runs<S>, s: S, ticks: seq<Tick>, p: nat)
    requires p < |ticks|
  {
    Through(runs(s, ticks), p) == runs(s, ticks[..p + 1]) && Through(runs(s, ticks[..p + 1]), p) == runs(s, ticks[..p + 1])
  }

  lemma SenderSends<S>(c: Config, core: Core, rules: Strategy<S>, s: S, ticks: seq<Tick>)
    ensures RunsOf(c, core, rules)(s, ticks) == SentOver(c, core, rules, s, ticks)
  {
    var f := Sender(c, core, rules, s);
    assert f(ticks) == SentOver(c, core, rules, s, ticks);
    assert RunsOf(c, core, rules)(s, ticks) == f(ticks);
  }

  lemma LoopIsOrderly<S(!new)>(c: Config, core: Core, rules: Strategy<S>)
    ensures Orderly(RunsOf(c, core, rules))
  {
    forall s, ticks ensures InOrder(RunsOf(c, core, rules)(s, ticks), |ticks|) {
      SentInOrder(c, core, rules, s, ticks);
      SenderSends(c, core, rules, s, ticks);
    }
  }

  lemma LoopIsCausal<S(!new)>(c: Config, core: Core, rules: Strategy<S>)
    ensures Causal(RunsOf(c, core, rules))
  {
    forall s, ticks, p: nat | p < |ticks| ensures CausalAt(RunsOf(c, core, rules), s, ticks, p) {
      PrefixSendsTheSame(c, core, rules, s, ticks, p);
      SenderWhole(c, core, rules, s, ticks[..p + 1], p);
    }
  }

  ghost predicate InOrder(sent: Sent, bound: nat) {
    && (forall i :: 0 <= i < |sent| ==> sent[i].0 < bound)
    && (forall i, j :: 0 <= i <= j < |sent| ==> sent[i].0 <= sent[j].0)
  }

  lemma CandidatesIncrease(full: Sent, bound: nat)
    requires InOrder(full, bound)
    ensures Increasing(Candidates(full)) && forall x :: x in Candidates(full) ==> x < bound
  {
    DedupIncreases(TicksIn(full));
    forall x | x in TicksIn(full) ensures x < bound {
      var i :| 0 <= i < |full| && TicksIn(full)[i] == x;
    }
  }

  lemma SpreadInRange(full: Sent, bound: nat, max: nat)
    requires InOrder(full, bound)
    ensures var points := Spread(Candidates(full), max);
      Increasing(points) && forall i :: 0 <= i < |points| ==> points[i] < bound
  {
    CandidatesIncrease(full, bound);
    var points := Spread(Candidates(full), max);
    if Candidates(full) != [] {
      SpreadPicks(Candidates(full), max);
      forall i | 0 <= i < |points| ensures points[i] < bound {
        assert points[i] in points;
      }
    }
  }

  // ----- no false accusation

  ghost predicate IgnoresData<S(!new)>(build: seq<Tick> -> S) {
    forall a, b :: build(a) == build(b)
  }

  lemma {:induction false} PointsAgree<S(!new)>(runs: Runs<S>, build: seq<Tick> -> S, ticks: seq<Tick>, points: seq<nat>)
    requires Causal(runs) && IgnoresData(build) && forall i :: 0 <= i < |points| ==> points[i] < |ticks|
    ensures CheckEach(runs, build, ticks, points) == []
  {
    if points != [] {
      var p := points[|points| - 1];
      PointsAgree(runs, build, ticks, points[..|points| - 1]);
      assert build(ticks[..p + 1]) == build(ticks);
      assert CausalAt(runs, build(ticks), ticks, p);
    }
  }

  /** For every deterministic strategy whose construction ignores its data, every window, every
      core and every bound, the check reports no divergence. */
  lemma NoFalseAccusation<S(!new)>(c: Config, core: Core, rules: Strategy<S>, build: seq<Tick> -> S, ticks: seq<Tick>, max: nat)
    requires IgnoresData(build)
    ensures Orderly(RunsOf(c, core, rules))
    ensures Checked(RunsOf(c, core, rules), build, ticks, max).divergences == []
  {
    var runs := RunsOf(c, core, rules);
    LoopIsOrderly(c, core, rules);
    LoopIsCausal(c, core, rules);
    SpreadInRange(runs(build(ticks), ticks), |ticks|, max);
    PointsAgree(runs, build, ticks, Spread(Candidates(runs(build(ticks), ticks)), max));
  }

  // ----- every accusation is real

  lemma {:induction false} IntentsAppend(p: Sent, q: Sent, tick: nat)
    ensures IntentsOn(p + q, tick) == IntentsOn(p, tick) + IntentsOn(q, tick)
  {
    if q == [] {
      assert p + q == p;
    } else {
      IntentsAppend(p, q[..|q| - 1], tick);
      assert (p + q)[..|p + q| - 1] == p + q[..|q| - 1];
    }
  }

  lemma {:induction false} NoneOn(q: Sent, tick: nat)
    requires forall i :: 0 <= i < |q| ==> q[i].0 > tick
    ensures IntentsOn(q, tick) == []
  {
    if q != [] {
      NoneOn(q[..|q| - 1], tick);
    }
  }

  /** The part of a list from `n` on, seen at a tick. */
  lemma RestOn(a: Sent, n: nat, tick: nat)
    requires n <= |a|
    ensures IntentsOn(a, tick) == IntentsOn(a[..n], tick) + IntentsOn(a[n..], tick)
    ensures n < |a| ==> IntentsOn(a[n..], tick) == IntentsOn([a[n]], tick) + IntentsOn(a[n + 1..], tick)
  {
    assert a == a[..n] + a[n..];
    IntentsAppend(a[..n], a[n..], tick);
    if n < |a| {
      assert a[n..] == [a[n]] + a[n + 1..];
      IntentsAppend([a[n]], a[n + 1..], tick);
    }
  }

  lemma LaterOnly(a: Sent, bound: nat, n: nat, tick: nat)
    requires InOrder(a, bound) && n <= |a| && (n < |a| ==> a[n].0 > tick)
    ensures IntentsOn(a, tick) == IntentsOn(a[..n], tick)
  {
    RestOn(a, n, tick);
    NoneOn(a[n..], tick);
  }

  lemma OneOn(x: (nat, Intent), tick: nat)
    ensures IntentsOn([x], tick) == if x.0 == tick then [x.1] else []
  {
    assert [x][..0] == [];
    assert IntentsOn([x][..0], tick) == [];
  }

  /** Before the first difference the two runs agree, and on it they do not. */
  lemma DifferenceIsReal(a: Sent, b: Sent, bound: nat, point: nat)
    requires InOrder(a, bound) && InOrder(b, bound) && a != b
    ensures var t := FirstDifference(a, b, point);
      t < bound && IntentsOn(a, t) != IntentsOn(b, t) && forall u: nat :: u < t ==> IntentsOn(a, u) == IntentsOn(b, u)
  {
    var n, t := Common(a, b), FirstDifference(a, b, point);
    assert a[..|a|] == a && b[..|b|] == b;
    forall u: nat | u < t ensures IntentsOn(a, u) == IntentsOn(b, u) {
      LaterOnly(a, bound, n, u);
      LaterOnly(b, bound, n, u);
    }
    if n < |a| && a[n].0 == t {
      DiffersAt(a, b, bound, n, t);
    } else {
      DiffersAt(b, a, bound, n, t);
    }
  }

  lemma DiffersAt(a: Sent, b: Sent, bound: nat, n: nat, t: nat)
    requires InOrder(a, bound) && InOrder(b, bound) && n < |a| && n <= |b| && a[..n] == b[..n]
    requires a[n].0 == t && (n < |b| ==> a[n] != b[n] && b[n].0 >= t)
    ensures IntentsOn(a, t) != IntentsOn(b, t)
  {
    var p := IntentsOn(a[..n], t);
    RestOn(a, n, t);
    OneOn(a[n], t);
    assert IntentsOn(a, t)[|p|] == a[n].1;
    if n < |b| && b[n].0 == t {
      RestOn(b, n, t);
      OneOn(b[n], t);
      assert IntentsOn(b, t)[|p|] == b[n].1;
    } else {
      LaterOnly(b, bound, n, t);
      assert |IntentsOn(b, t)| == |p|;
    }
  }

  lemma {:induction false} ThroughWithin(sent: Sent, p: nat)
    ensures forall x :: x in Through(sent, p) ==> x in sent && x.0 <= p
  {
    if sent != [] {
      var n := |sent| - 1;
      ThroughWithin(sent[..n], p);
      assert sent == sent[..n] + [sent[n]];
    }
  }

  lemma SnocInOrder(r: Sent, x: (nat, Intent), bound: nat)
    requires InOrder(r, bound) && x.0 < bound && forall y :: y in r ==> y.0 <= x.0
    ensures InOrder(r + [x], bound)
  {
    forall i | 0 <= i < |r| ensures r[i].0 <= x.0 {
      assert r[i] in r;
    }
  }

  lemma {:induction false} ThroughInOrder(sent: Sent, bound: nat, p: nat)
    requires InOrder(sent, bound)
    ensures InOrder(Through(sent, p), p + 1)
  {
    if sent != [] {
      var n := |sent| - 1;
      ThroughInOrder(sent[..n], bound, p);
      if sent[n].0 <= p {
        ThroughWithin(sent[..n], p);
        forall y | y in Through(sent[..n], p) ensures y.0 <= sent[n].0 {
          var j :| 0 <= j < n && sent[..n][j] == y;
          assert sent[j] == y;
        }
        SnocInOrder(Through(sent[..n], p), sent[n], p + 1);
      }
    }
  }

  /** An accusation, in full: its point was checked, its tick is within it, the two runs sent
      different intents on that tick, and the same on every tick before. */
  ghost predicate Real<S>(runs: Runs<S>, build: seq<Tick> -> S, ticks: seq<Tick>, d: Divergence) {
    && d.tick <= d.checkedAt < |ticks| && d.at == ticks[d.tick].stamp.exch && d.full != d.truncated
    && var a := Through(runs(build(ticks), ticks), d.checkedAt);
       var prefix := ticks[..d.checkedAt + 1];
       var b := Through(runs(build(prefix), prefix), d.checkedAt);
       d.full == IntentsOn(a, d.tick) && d.truncated == IntentsOn(b, d.tick) &&
       forall u: nat :: u < d.tick ==> IntentsOn(a, u) == IntentsOn(b, u)
  }

  ghost predicate AllReal<S>(runs: Runs<S>, build: seq<Tick> -> S, ticks: seq<Tick>, ds: seq<Divergence>) {
    forall d :: d in ds ==> Real(runs, build, ticks, d)
  }

  lemma ComparedIsReal<S(!new)>(runs: Runs<S>, build: seq<Tick> -> S, ticks: seq<Tick>, p: nat)
    requires Orderly(runs) && p < |ticks|
    ensures AllReal(runs, build, ticks, Compared(runs(build(ticks), ticks), RerunAt(runs, build, ticks, p), ticks, p))
  {
    var full, rerun := runs(build(ticks), ticks), RerunAt(runs, build, ticks, p);
    ThroughInOrder(full, |ticks|, p);
    ThroughInOrder(rerun, p + 1, p);
    if Through(full, p) != Through(rerun, p) {
      DifferenceIsReal(Through(full, p), Through(rerun, p), p + 1, p);
    }
  }

  lemma {:induction false} EachIsReal<S(!new)>(runs: Runs<S>, build: seq<Tick> -> S, ticks: seq<Tick>, points: seq<nat>)
    requires Orderly(runs) && forall i :: 0 <= i < |points| ==> points[i] < |ticks|
    ensures AllReal(runs, build, ticks, CheckEach(runs, build, ticks, points))
  {
    if points != [] {
      EachIsReal(runs, build, ticks, points[..|points| - 1]);
      ComparedIsReal(runs, build, ticks, points[|points| - 1]);
    }
  }

  /** Whatever the strategy was built from, every divergence reported is real. */
  lemma EveryAccusationIsReal<S(!new)>(c: Config, core: Core, rules: Strategy<S>, build: seq<Tick> -> S, ticks: seq<Tick>, max: nat)
    ensures Orderly(RunsOf(c, core, rules))
    ensures AllReal(RunsOf(c, core, rules), build, ticks, Checked(RunsOf(c, core, rules), build, ticks, max).divergences)
  {
    var runs := RunsOf(c, core, rules);
    LoopIsOrderly(c, core, rules);
    SpreadInRange(runs(build(ticks), ticks), |ticks|, max);
    EachIsReal(runs, build, ticks, Spread(Candidates(runs(build(ticks), ticks)), max));
  }

  // ----- and every difference is accused

  lemma {:induction false} OnThrough(sent: Sent, p: nat, tick: nat)
    requires tick <= p
    ensures IntentsOn(Through(sent, p), tick) == IntentsOn(sent, tick)
  {
    if sent != [] {
      var n := |sent| - 1;
      OnThrough(sent[..n], p, tick);
      IntentsAppend(Through(sent[..n], p), if sent[n].0 <= p then [sent[n]] else [], tick);
      OneOn(sent[n], tick);
    }
  }

  lemma LastIsLatest(sent: Sent, bound: nat, i: nat, tick: nat)
    requires InOrder(sent, bound) && i < |sent| && sent[i].0 > tick
    ensures sent[|sent| - 1].0 > tick
  {
  }

  /** The entries of a tick are a stretch of the list, and its intents are theirs in order. */
  lemma {:induction false} IntentsOnAre(sent: Sent, bound: nat, tick: nat) returns (lo: nat, hi: nat)
    requires InOrder(sent, bound)
    ensures lo <= hi <= |sent| && |IntentsOn(sent, tick)| == hi - lo
    ensures forall i :: 0 <= i < |sent| ==> (sent[i].0 == tick <==> lo <= i < hi)
    ensures forall i :: lo <= i < hi ==> IntentsOn(sent, tick)[i - lo] == sent[i].1
    ensures hi < |sent| ==> sent[hi].0 > tick
  {
    if sent == [] {
      lo, hi := 0, 0;
    } else {
      var n := |sent| - 1;
      lo, hi := IntentsOnAre(sent[..n], bound, tick);
      if hi < n {
        LastIsLatest(sent, bound, hi, tick);
      }
      if sent[n].0 == tick {
        lo, hi := if lo == hi then n else lo, n + 1;
      } else if hi == n && sent[n].0 < tick {
        lo, hi := n + 1, n + 1;
      }
    }
  }

  /** The two runs send different intents on some tick through the point. */
  ghost predicate DifferThrough(full: Sent, rerun: Sent, p: nat) {
    exists tick: nat :: tick <= p && IntentsOn(full, tick) != IntentsOn(rerun, tick)
  }

  lemma ComparedIff(full: Sent, rerun: Sent, ticks: seq<Tick>, p: nat)
    requires p < |ticks| && InOrder(full, |ticks|) && InOrder(rerun, p + 1)
    ensures Compared(full, rerun, ticks, p) != [] <==> DifferThrough(full, rerun, p)
    ensures forall d :: d in Compared(full, rerun, ticks, p) ==> d.checkedAt == p
  {
    var a, b := Through(full, p), Through(rerun, p);
    if a == b {
      forall tick: nat | tick <= p ensures IntentsOn(full, tick) == IntentsOn(rerun, tick) {
        OnThrough(full, p, tick);
        OnThrough(rerun, p, tick);
      }
    } else {
      var tick := FirstDifference(a, b, p);
      ThroughInOrder(full, |ticks|, p);
      ThroughInOrder(rerun, p + 1, p);
      DifferenceIsReal(a, b, p + 1, p);
      OnThrough(full, p, tick);
      OnThrough(rerun, p, tick);
    }
  }

  ghost predicate Accuses(ds: seq<Divergence>, p: nat) {
    exists i :: 0 <= i < |ds| && ds[i].checkedAt == p
  }

  lemma AccusesAppend(ds: seq<Divergence>, more: seq<Divergence>, p: nat)
    ensures Accuses(ds + more, p) <==> Accuses(ds, p) || Accuses(more, p)
  {
    if Accuses(ds, p) {
      var i :| 0 <= i < |ds| && ds[i].checkedAt == p;
      assert (ds + more)[i].checkedAt == p;
    }
    if Accuses(more, p) {
      var i :| 0 <= i < |more| && more[i].checkedAt == p;
      assert (ds + more)[|ds| + i].checkedAt == p;
    }
  }

  lemma OnePointAccused<S(!new)>(runs: Runs<S>, build: seq<Tick> -> S, ticks: seq<Tick>, q: nat, p: nat)
    requires Orderly(runs) && q < |ticks| && p < |ticks|
    ensures var found := Compared(runs(build(ticks), ticks), RerunAt(runs, build, ticks, q), ticks, q);
      Accuses(found, p) <==> p == q && DifferThrough(runs(build(ticks), ticks), RerunAt(runs, build, ticks, p), p)
  {
    var full, rerun := runs(build(ticks), ticks), RerunAt(runs, build, ticks, q);
    var found := Compared(full, rerun, ticks, q);
    ComparedIff(full, rerun, ticks, q);
    if Accuses(found, p) {
      var i :| 0 <= i < |found| && found[i].checkedAt == p;
      assert found[i] in found;
    }
    if p == q && found != [] {
      assert found[0] in found;
    }
  }

  lemma {:induction false} EachPointAccused<S(!new)>(runs: Runs<S>, build: seq<Tick> -> S, ticks: seq<Tick>, points: seq<nat>, p: nat)
    requires Orderly(runs) && p < |ticks| && forall i :: 0 <= i < |points| ==> points[i] < |ticks|
    ensures Accuses(CheckEach(runs, build, ticks, points), p)
       <==> p in points && DifferThrough(runs(build(ticks), ticks), RerunAt(runs, build, ticks, p), p)
  {
    if points != [] {
      var n := |points| - 1;
      var full := runs(build(ticks), ticks);
      EachPointAccused(runs, build, ticks, points[..n], p);
      OnePointAccused(runs, build, ticks, points[n], p);
      AccusesAppend(CheckEach(runs, build, ticks, points[..n]), Compared(full, RerunAt(runs, build, ticks, points[n]), ticks, points[n]), p);
      assert points == points[..n] + [points[n]];
    }
  }

  /** A tick is accused if and only if it is a checked point and the rerun over the ticks through it
      sends something else than the full run, on some tick through it. */
  ghost predicate Complete<S>(runs: Runs<S>, build: seq<Tick> -> S, ticks: seq<Tick>, points: seq<nat>, ds: seq<Divergence>) {
    forall p: nat :: p < |ticks| ==>
      var prefix := ticks[..p + 1];
      (Accuses(ds, p) <==> p in points && DifferThrough(runs(build(ticks), ticks), runs(build(prefix), prefix), p))
  }

  lemma EveryDifferenceIsAccused<S(!new)>(c: Config, core: Core, rules: Strategy<S>, build: seq<Tick> -> S, ticks: seq<Tick>, max: nat)
    ensures var runs := RunsOf(c, core, rules);
      Orderly(runs) && Complete(runs, build, ticks, Spread(Candidates(runs(build(ticks), ticks)), max),
                                Checked(runs, build, ticks, max).divergences)
  {
    var runs := RunsOf(c, core, rules);
    LoopIsOrderly(c, core, rules);
    var full := runs(build(ticks), ticks);
    var points := Spread(Candidates(full), max);
    SpreadInRange(full, |ticks|, max);
    forall p: nat | p < |ticks|
      ensures Accuses(CheckEach(runs, build, ticks, points), p) <==> p in points && DifferThrough(full, RerunAt(runs, build, ticks, p), p)
    {
      EachPointAccused(runs, build, ticks, points, p);
    }
  }

  // ----- the counts

  /** The ticks on which a run sends anything. */
  ghost function TicksSent(sent: Sent): set<nat> {
    set i | 0 <= i < |sent| :: sent[i].0
  }

  ghost function Elements(xs: seq<nat>): set<nat> {
    set x | x in xs
  }

  lemma OneMoreElement(xs: seq<nat>, x: nat)
    requires forall i :: 0 <= i < |xs| ==> xs[i] < x
    ensures Elements(xs + [x]) == Elements(xs) + {x} && x !in Elements(xs)
  {
  }

  lemma {:induction false} IncreasingCounts(xs: seq<nat>)
    requires Increasing(xs)
    ensures |Elements(xs)| == |xs|
  {
    if xs != [] {
      var n := |xs| - 1;
      IncreasingCounts(xs[..n]);
      OneMoreElement(xs[..n], xs[n]);
      assert xs == xs[..n] + [xs[n]];
    } else {
      assert Elements([]) == {};
    }
  }

  /** Every tick on which something was sent is a signal, counted once. */
  lemma SignalsAreTicksSent(full: Sent, bound: nat)
    requires InOrder(full, bound)
    ensures Elements(Candidates(full)) == TicksSent(full) && |Candidates(full)| == |TicksSent(full)|
  {
    CandidatesIncrease(full, bound);
    DedupIncreases(TicksIn(full));
    IncreasingCounts(Candidates(full));
    forall x | x in TicksSent(full) ensures x in TicksIn(full) {
      var i :| 0 <= i < |full| && full[i].0 == x;
      assert TicksIn(full)[i] == x;
    }
    forall x | x in TicksIn(full) ensures x in TicksSent(full) {
      var i :| 0 <= i < |full| && TicksIn(full)[i] == x;
    }
  }

  lemma CountsReported<S(!new)>(runs: Runs<S>, build: seq<Tick> -> S, ticks: seq<Tick>, max: nat)
    requires Orderly(runs)
    ensures var full, r := runs(build(ticks), ticks), Checked(runs, build, ticks, max);
      r.signals == |TicksSent(full)| && r.checked == Min(r.signals, max)
  {
    var full := runs(build(ticks), ticks);
    SignalsAreTicksSent(full, |ticks|);
    CandidatesIncrease(full, |ticks|);
    if Candidates(full) != [] {
      SpreadPicks(Candidates(full), max);
    }
  }

  // ----- the program

  /** The runs a check compares are those of the kernel's loop; folded. */
  ghost predicate Loops<S(!new)>(runs: Runs<S>, c: Config, rules: Strategy<S>) {
    forall i {:trigger Token(i)} :: Token(i) ==> runs == RunsOf(c, Advance, rules)
  }

  method SentBy<S(!new)>(c: Config, rules: Strategy<S>, s: S, ticks: seq<Tick>, ghost runs: Runs<S>) returns (sent: Sent)
    requires Loops(runs, c, rules)
    ensures sent == runs(s, ticks)
  {
    assert Token(0);
    KernelIsKernel();
    var recorder := new Recorder(rules, s);
    RunTicks(c, recorder, ticks, Advance);
    sent := recorder.sent;
    SenderSends(c, Advance, rules, s, ticks);
  }

  /** The loop of reruns: it computes the specified report, each rerun with a strategy built from the
      ticks it is given. */
  method Check<S(!new)>(c: Config, rules: Strategy<S>, build: seq<Tick> -> S, ticks: seq<Tick>, max: nat, ghost runs: Runs<S>)
    returns (report: Report)
    requires Loops(runs, c, rules) && Orderly(runs)
    ensures report == Checked(runs, build, ticks, max)
  {
    var full := SentBy(c, rules, build(ticks), ticks, runs);
    var candidates := Candidates(full);
    var points := Spread(candidates, max);
    SpreadInRange(full, |ticks|, max);
    var divergences := CheckPoints(c, rules, build, ticks, full, points, runs);
    report := Report(|candidates|, |points|, divergences);
  }

  method CheckPoints<S(!new)>(c: Config, rules: Strategy<S>, build: seq<Tick> -> S, ticks: seq<Tick>, full: Sent,
                              points: seq<nat>, ghost runs: Runs<S>)
    returns (divergences: seq<Divergence>)
    requires Loops(runs, c, rules) && full == runs(build(ticks), ticks)
    requires forall i :: 0 <= i < |points| ==> points[i] < |ticks|
    ensures divergences == CheckEach(runs, build, ticks, points)
  {
    divergences := [];
    var i := 0;
    while i < |points|
      invariant 0 <= i <= |points|
      invariant divergences == CheckEach(runs, build, ticks, points[..i])
    {
      CheckOneMore(runs, build, ticks, points[..i], points[i]);
      assert points[..i + 1] == points[..i] + [points[i]];
      var more := CheckPoint(c, rules, build, ticks, full, points[i], runs);
      divergences := divergences + more;
      i := i + 1;
    }
    assert points[..i] == points;
  }

  method CheckPoint<S(!new)>(c: Config, rules: Strategy<S>, build: seq<Tick> -> S, ticks: seq<Tick>, full: Sent, point: nat,
                             ghost runs: Runs<S>)
    returns (found: seq<Divergence>)
    requires Loops(runs, c, rules) && point < |ticks|
    ensures found == Compared(full, RerunAt(runs, build, ticks, point), ticks, point)
  {
    var prefix := ticks[..point + 1];
    var rerun := SentBy(c, rules, build(prefix), prefix, runs);
    found := Compared(full, rerun, ticks, point);
  }

  lemma CheckOneMore<S(!new)>(runs: Runs<S>, build: seq<Tick> -> S, ticks: seq<Tick>, points: seq<nat>, p: nat)
    requires (forall i :: 0 <= i < |points| ==> points[i] < |ticks|) && p < |ticks|
    ensures forall i :: 0 <= i < |points + [p]| ==> (points + [p])[i] < |ticks|
    ensures CheckEach(runs, build, ticks, points + [p])
         == CheckEach(runs, build, ticks, points) + Compared(runs(build(ticks), ticks), RerunAt(runs, build, ticks, p), ticks, p)
  {
    assert (points + [p])[..|points|] == points;
  }

  /** The check as a caller uses it: clean for a strategy that ignores its data, never wrong about one
      that does not, and silent at a checked point only where the rerun sends the same. */
  method Lookahead<S(!new)>(c: Config, rules: Strategy<S>, build: seq<Tick> -> S, ticks: seq<Tick>, max: nat)
    returns (report: Report)
    ensures IgnoresData(build) ==> report.divergences == []
    ensures AllReal(RunsOf(c, Advance, rules), build, ticks, report.divergences)
    ensures var runs := RunsOf(c, Advance, rules); var full := runs(build(ticks), ticks);
      && Complete(runs, build, ticks, Spread(Candidates(full), max), report.divergences)
      && report.signals == |TicksSent(full)| && report.checked == Min(report.signals, max)
  {
    ghost var runs := RunsOf(c, Advance, rules);
    LoopIsOrderly(c, Advance, rules);
    report := Check(c, rules, build, ticks, max, runs);
    EveryAccusationIsReal(c, Advance, rules, build, ticks, max);
    EveryDifferenceIsAccused(c, Advance, rules, build, ticks, max);
    CountsReported(runs, build, ticks, max);
    if IgnoresData(build) {
      NoFalseAccusation(c, Advance, rules, build, ticks, max);
    }
  }
}
