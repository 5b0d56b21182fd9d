/** The kernel behind a journal: whatever appends fail, its state is the fold of the decoded
    journal, and a replay gives the run again (crates/oq-core/src/sequencer.rs). */
module Sequencer {
  import opened Folding
  import opened Numbers
  import opened Bytes
  import opened Events
  import opened Account
  import Codec
  import Kernel
  import Routing

  /** One journal record. */
  datatype Frame = Frame(kind: nat, payload: seq<Byte>)

  /** An event offered to the sequencer, and whether the journal took it. */
  datatype Attempt = Attempt(event: Event, accepted: bool)

  datatype ReplayV = ReplayV(kernel: KernelV, out: seq<Output>, undecodable: nat)

  // ----- the live run and the replay

  /** Only what was recorded is applied. */
  function Live(k: KernelV, xs: seq<Attempt>): (a: Applied)
    requires k.state.holdings != []
    ensures a.kernel.state.holdings != []
  {
    if xs == [] then Applied(k, [])
    else
      var before, x := Live(k, xs[..|xs| - 1]), xs[|xs| - 1];
      if !x.accepted then before
      else
        var a := Apply(before.kernel, x.event);
        Applied(a.kernel, before.out + a.out)
  }

  ghost predicate AllEncodable(xs: seq<Attempt>) {
    forall i :: 0 <= i < |xs| ==> Codec.Encodable(xs[i].event)
  }

  function FrameOf(e: Event): Frame
    requires Codec.Encodable(e)
  {
    Frame(Codec.Kind(e), Codec.Encoded(e))
  }

  function Journal(xs: seq<Attempt>): seq<Frame>
    requires forall i :: 0 <= i < |xs| ==> Codec.Encodable(xs[i].event)
  {
    if xs == [] then []
    else Journal(xs[..|xs| - 1]) + if xs[|xs| - 1].accepted then [FrameOf(xs[|xs| - 1].event)] else []
  }

  /** The fold of the decodable records, and how many were passed over. */
  function Replayed(k: KernelV, fs: seq<Frame>): (r: ReplayV)
    requires k.state.holdings != []
    ensures r.kernel.state.holdings != []
  {
    if fs == [] then ReplayV(k, [], 0)
    else
      var before, f := Replayed(k, fs[..|fs| - 1]), fs[|fs| - 1];
      match Codec.Decoded(f.kind, f.payload)
      case None => before.(undecodable := before.undecodable + 1)
      case Some(e) =>
        var a := Apply(before.kernel, e);
        ReplayV(a.kernel, before.out + a.out, before.undecodable)
  }

  /** For any events and any pattern of append failures, replaying the journal yields the
      state and the outputs of the live run, and every record decodes. */
  lemma {:induction false} JournalReproduces(k: KernelV, xs: seq<Attempt>)
    requires k.state.holdings != [] && AllEncodable(xs)
    ensures Replayed(k, Journal(xs)) == ReplayV(Live(k, xs).kernel, Live(k, xs).out, 0)
  {
    if xs != [] {
      var n := |xs| - 1;
      JournalReproduces(k, xs[..n]);
      if xs[n].accepted {
        Codec.EventRoundTrip(xs[n].event);
        ReplayOne(k, Journal(xs[..n]), FrameOf(xs[n].event));
      } else {
        assert Journal(xs[..n]) + [] == Journal(xs[..n]);
      }
    }
  }

  lemma ReplayOne(k: KernelV, fs: seq<Frame>, f: Frame)
    requires k.state.holdings != []
    ensures var r, e := Replayed(k, fs), Codec.Decoded(f.kind, f.payload);
      Replayed(k, fs + [f]) == if e.None? then r.(undecodable := r.undecodable + 1)
        else ReplayV(Apply(r.kernel, e.value).kernel, r.out + Apply(r.kernel, e.value).out, r.undecodable)
  {
    assert (fs + [f])[..|fs|] == fs;
  }

  /** A failed append leaves no trace: the run is that of the recorded events alone. */
  function Recorded(xs: seq<Attempt>): seq<Event> {
    if xs == [] then []
    else Recorded(xs[..|xs| - 1]) + if xs[|xs| - 1].accepted then [xs[|xs| - 1].event] else []
  }

  lemma {:induction false} FailedAppendsLeaveNoTrace(k: KernelV, xs: seq<Attempt>)
    requires k.state.holdings != []
    ensures Live(k, xs) == Run(k, Recorded(xs))
  {
    if xs != [] {
      FailedAppendsLeaveNoTrace(k, xs[..|xs| - 1]);
      var done, e := Recorded(xs[..|xs| - 1]), xs[|xs| - 1].event;
      if xs[|xs| - 1].accepted {
        assert (done + [e])[..|done + [e]| - 1] == done;
      } else {
        assert done + [] == done;
      }
    }
  }

  ghost predicate AllDecode(fs: seq<Frame>) {
    forall i :: 0 <= i < |fs| ==> Codec.Decoded(fs[i].kind, fs[i].payload).Some?
  }

  /** How many records a reader of records misses. */
  function Missed(fs: seq<Frame>, readable: Frame -> bool): nat {
    if fs == [] then 0 else Missed(fs[..|fs| - 1], readable) + if readable(fs[|fs| - 1]) then 0 else 1
  }

  lemma {:induction false} MissedNone(fs: seq<Frame>, readable: Frame -> bool)
    ensures Missed(fs, readable) == 0 <==> forall i :: 0 <= i < |fs| ==> readable(fs[i])
  {
    if fs != [] {
      var n := |fs| - 1;
      MissedNone(fs[..n], readable);
      assert forall i :: 0 <= i < n ==> fs[..n][i] == fs[i];
    }
  }

  function Unread(fs: seq<Frame>): nat {
    Missed(fs, (f: Frame) => Codec.Decoded(f.kind, f.payload).Some?)
  }

  lemma {:induction false} ReplayCounts(k: KernelV, fs: seq<Frame>)
    requires k.state.holdings != []
    ensures Replayed(k, fs).undecodable == Unread(fs)
  {
    if fs != [] {
      ReplayCounts(k, fs[..|fs| - 1]);
    }
  }

  /** A replay is complete exactly when every record decodes. */
  lemma CompleteIffAllDecode(k: KernelV, fs: seq<Frame>)
    requires k.state.holdings != []
    ensures Replayed(k, fs).undecodable == 0 <==> AllDecode(fs)
  {
    ReplayCounts(k, fs);
    var readable := (f: Frame) => Codec.Decoded(f.kind, f.payload).Some?;
    MissedNone(fs, readable);
    assert forall i :: 0 <= i < |fs| ==> (readable(fs[i]) <==> Codec.Decoded(fs[i].kind, fs[i].payload).Some?);
  }

  lemma LiveStep(k: KernelV, xs: seq<Attempt>, x: Attempt)
    requires k.state.holdings != []
    ensures var before := Live(k, xs);
      Live(k, xs + [x]) == if !x.accepted then before
        else Applied(Apply(before.kernel, x.event).kernel, before.out + Apply(before.kernel, x.event).out)
  {
    assert (xs + [x])[..|xs|] == xs;
  }

  lemma JournalStep(xs: seq<Attempt>, x: Attempt)
    requires AllEncodable(xs) && Codec.Encodable(x.event)
    ensures AllEncodable(xs + [x])
    ensures Journal(xs + [x]) == Journal(xs) + if x.accepted then [FrameOf(x.event)] else []
  {
    assert (xs + [x])[..|xs|] == xs;
  }

  /** The journal is the accepted attempts, and the kernel and its outputs are their live run;
      folded. */
  ghost predicate Told(opening: KernelV, xs: seq<Attempt>, journal: seq<Frame>, k: KernelV, said: seq<Output>) {
    forall i {:trigger Token(i)} :: Token(i) ==>
      && opening.state.holdings != [] && AllEncodable(xs) && journal == Journal(xs)
      && Live(opening, xs) == Applied(k, said)
  }

  lemma NothingTold(k: KernelV)
    requires k.state.holdings != []
    ensures Told(k, [], [], k, [])
  {
  }

  /** The record an event is journalled as; folded. */
  ghost predicate Frames(e: Event, frame: Frame) {
    forall i {:trigger Token(i)} :: Token(i) ==> Codec.Encodable(e) && frame == FrameOf(e)
  }

  lemma Framed(e: Event)
    requires Codec.Encodable(e)
    ensures Frames(e, FrameOf(e))
  {
  }

  /** One step of the kernel; folded. */
  ghost predicate Steps(k: KernelV, e: Event, a: Applied) {
    forall i {:trigger Token(i)} :: Token(i) ==> k.state.holdings != [] && a == Apply(k, e) && Routing.Owners(k.state, a.kernel.state)
  }

  lemma Unfolded(k: KernelV, e: Event, a: Applied)
    requires Steps(k, e, a)
    ensures k.state.holdings != [] && a == Apply(k, e) && Routing.Owners(k.state, a.kernel.state)
  {
    assert Token(0);
  }

  lemma RecordStep(opening: KernelV, xs: seq<Attempt>, journal: seq<Frame>, e: Event, frame: Frame, k: KernelV,
                   a: Applied, said: seq<Output>)
    requires Told(opening, xs, journal, k, said) && Steps(k, e, a) && Frames(e, frame)
    ensures Told(opening, xs + [Attempt(e, true)], journal + [frame], a.kernel, said + a.out)
  {
    assert Token(0);
    JournalStep(xs, Attempt(e, true));
    LiveStep(opening, xs, Attempt(e, true));
  }

  lemma RefuseStep(opening: KernelV, xs: seq<Attempt>, journal: seq<Frame>, e: Event, k: KernelV, said: seq<Output>)
    requires Told(opening, xs, journal, k, said) && Codec.Encodable(e)
    ensures Told(opening, xs + [Attempt(e, false)], journal, k, said)
  {
    assert Token(0);
    JournalStep(xs, Attempt(e, false));
    LiveStep(opening, xs, Attempt(e, false));
  }

  lemma ToldIsReplayed(opening: KernelV, xs: seq<Attempt>, journal: seq<Frame>, k: KernelV, said: seq<Output>)
    requires Told(opening, xs, journal, k, said)
    ensures opening.state.holdings != [] && Replayed(opening, journal) == ReplayV(k, said, 0)
  {
    assert Token(0);
    JournalReproduces(opening, xs);
  }

  // ----- what a replay may be handed

  ghost predicate FramesPresentable(s: StateV, fs: seq<Frame>) {
    forall i :: 0 <= i < |fs| ==> FramePresentable(s, fs[i])
  }

  predicate FramePresentable(s: StateV, f: Frame) {
    var e := Codec.Decoded(f.kind, f.payload);
    e.Some? ==> Routing.Presentable(s, e.value)
  }

  lemma PresentableAfter(s: StateV, r: StateV, e: Event)
    requires Routing.Owners(s, r)
    ensures Routing.Presentable(r, e) <==> Routing.Presentable(s, e)
  {
    if e.VenueFill? {
      Routing.OwnersRoute(s, r, e.fill.instrument);
    }
  }

  // ----- the sequencer

  /** Every matcher keeps to its own instrument; folded. */
  ghost predicate Routed(s: StateV) {
    forall i {:trigger Token(i)} :: Token(i) ==> Routing.Named(s)
  }

  class Sequencer {
    const kernel: Kernel.Kernel
    var sink: seq<Frame>
    var applied: nat
    ghost const opening: KernelV
    ghost var history: seq<Attempt>
    ghost var said: seq<Output>

    /** The kernel is where folding the decoded journal leaves it, and has said what that fold
        says. */
    ghost predicate Valid()
      reads this, kernel, kernel.state, kernel.state.holdings
    {
      && kernel.Valid() && Routed(kernel.state.View()) && applied == |sink|
      && Told(opening, history, sink, kernel.View(), said)
    }

    constructor (kernel: Kernel.Kernel)
      requires kernel.Valid() && Routing.Named(kernel.state.View())
      ensures Valid() && this.kernel == kernel && sink == [] && history == []
    {
      this.kernel := kernel;
      opening := kernel.View();
      sink, applied, history, said := [], 0, [], [];
      new;
      NothingTold(kernel.View());
    }

    /** `accepted` stands for the sink's answer. Refused, nothing changes; accepted, the journal
        grows by the event's record and the kernel takes its step; either way the kernel is the
        replayed journal. */
    method Submit(e: Event, accepted: bool) returns (ok: bool)
      requires Valid() && Codec.Encodable(e) && Routing.Presentable(kernel.state.View(), e)
      modifies this, kernel, kernel.state, kernel.state.holdings
      ensures Valid() && ok == accepted && history == old(history) + [Attempt(e, accepted)]
      ensures opening.state.holdings != [] && Replayed(opening, sink) == ReplayV(kernel.View(), said, 0)
      ensures accepted ==> sink == old(sink) + [FrameOf(e)] && kernel.Progress() == Apply(old(kernel.View()), e)
      ensures !accepted ==> sink == old(sink) && kernel.View() == old(kernel.View()) && applied == old(applied)
    {
      var payload := Codec.Encode(e);
      if !accepted {
        Refuse(e);
      } else {
        Framed(e);
        Record(e, Frame(Codec.Kind(e), payload));
        Unfolded(old(kernel.View()), e, kernel.Progress());
      }
      ToldIsReplayed(opening, history, sink, kernel.View(), said);
      ok := accepted;
    }

    /** A sink failure: nothing but the ghost record of the attempt changes. */
    ghost method Refuse(e: Event)
      requires Valid() && Codec.Encodable(e)
      modifies this`history
      ensures Valid() && history == old(history) + [Attempt(e, false)]
    {
      RefuseStep(opening, history, sink, e, kernel.View(), said);
      history := history + [Attempt(e, false)];
    }

    method Record(e: Event, frame: Frame)
      requires Valid() && Frames(e, frame) && Routing.Presentable(kernel.state.View(), e)
      modifies this, kernel, kernel.state, kernel.state.holdings
      ensures Valid() && history == old(history) + [Attempt(e, true)]
      ensures sink == old(sink) + [frame] && Steps(old(kernel.View()), e, kernel.Progress())
    {
      ghost var j := sink;
      sink := sink + [frame];
      applied := applied + 1;
      Advance(e, frame, j);
    }

    /** The record follows the journal as it was; now the kernel takes its step. */
    method Advance(e: Event, frame: Frame, ghost j: seq<Frame>)
      requires kernel.Valid() && Routed(kernel.state.View()) && applied == |sink| && sink == j + [frame]
      requires Told(opening, history, j, kernel.View(), said)
      requires Frames(e, frame) && Routing.Presentable(kernel.state.View(), e)
      modifies this`history, this`said, kernel, kernel.state, kernel.state.holdings
      ensures Valid() && history == old(history) + [Attempt(e, true)]
      ensures Steps(old(kernel.View()), e, kernel.Progress())
    {
      ghost var k := kernel.View();
      Step(kernel, e);
      ghost var a := kernel.Progress();
      Remember(e, frame, k, j, a);
      assert kernel.Progress() == a;
    }

    /** What was recorded, and what the kernel said about it. */
    ghost method Remember(e: Event, frame: Frame, k: KernelV, j: seq<Frame>, a: Applied)
      requires Told(opening, history, j, k, said) && Steps(k, e, a) && Frames(e, frame)
      modifies this`history, this`said
      ensures history == old(history) + [Attempt(e, true)]
      ensures Told(opening, history, j + [frame], a.kernel, said)
    {
      RecordStep(opening, history, j, e, frame, k, a, said);
      history, said := history + [Attempt(e, true)], said + a.out;
    }
  }

  /** One event through the kernel. */
  method Step(kernel: Kernel.Kernel, e: Event)
    requires kernel.Valid() && Routed(kernel.state.View()) && Routing.Presentable(kernel.state.View(), e)
    modifies kernel, kernel.state, kernel.state.holdings
    ensures Routed(kernel.state.View()) && Steps(old(kernel.View()), e, kernel.Progress())
  {
    assert Token(0);
    Routing.ApplyOwners(kernel.View(), e);
    kernel.Apply(e);
  }

  /** One record, after the ones already replayed. */
  method ReplayRecord(kernel: Kernel.Kernel, frame: Frame, said: seq<Output>, missed: nat, ghost k: KernelV, ghost done: seq<Frame>)
    returns (outputs: seq<Output>, undecodable: nat)
    requires kernel.Valid() && Routed(kernel.state.View()) && SoFar(k, done, kernel.View(), said, missed)
    requires FramePresentable(k.state, frame)
    modifies kernel, kernel.state, kernel.state.holdings
    ensures kernel.Valid() && Routed(kernel.state.View()) && SoFar(k, done + [frame], kernel.View(), outputs, undecodable)
  {
    StillPresentable(k, done, kernel.View(), said, missed, frame);
    ghost var before := kernel.View();
    var e := Codec.Decode(frame.kind, frame.payload);
    if e.Some? {
      Step(kernel, e.value);
      ReadOn(k, done, frame, before, kernel.Progress(), said, missed);
      return said + kernel.outputs, missed;
    }
    SkipOn(k, done, frame, before, said, missed);
    return said, missed + 1;
  }

  /** The loop computes the declared replay: state, outputs and the count of unread records. */
  method ReplayTolerating(kernel: Kernel.Kernel, frames: seq<Frame>) returns (outputs: seq<Output>, undecodable: nat)
    requires kernel.Valid() && Routing.Named(kernel.state.View()) && FramesPresentable(kernel.state.View(), frames)
    modifies kernel, kernel.state, kernel.state.holdings
    ensures ReplayV(kernel.View(), outputs, undecodable) == Replayed(old(kernel.View()), frames)
  {
    ghost var k := kernel.View();
    outputs, undecodable := [], 0;
    StartOfReplay(k);
    var i := 0;
    while i < |frames|
      invariant 0 <= i <= |frames| && kernel.Valid() && Routed(kernel.state.View())
      invariant SoFar(k, frames[..i], kernel.View(), outputs, undecodable)
    {
      assert frames[..i + 1] == frames[..i] + [frames[i]];
      assert FramePresentable(k.state, frames[i]);
      outputs, undecodable := ReplayRecord(kernel, frames[i], outputs, undecodable, k, frames[..i]);
      i := i + 1;
    }
    assert frames[..i] == frames;
    assert Token(0);
  }

  /** Where a replay stands after some frames; folded. */
  ghost predicate SoFar(k: KernelV, fs: seq<Frame>, now: KernelV, out: seq<Output>, undecodable: nat) {
    forall i {:trigger Token(i)} :: Token(i) ==>
      k.state.holdings != [] && ReplayV(now, out, undecodable) == Replayed(k, fs) && Routing.Owners(k.state, now.state)
  }

  lemma StartOfReplay(k: KernelV)
    requires k.state.holdings != []
    ensures SoFar(k, [], k, [], 0)
  {
    Routing.OwnersRefl(k.state);
  }

  lemma StillPresentable(k: KernelV, fs: seq<Frame>, now: KernelV, out: seq<Output>, undecodable: nat, f: Frame)
    requires SoFar(k, fs, now, out, undecodable) && FramePresentable(k.state, f)
    ensures FramePresentable(now.state, f)
  {
    assert Token(0);
    var e := Codec.Decoded(f.kind, f.payload);
    if e.Some? {
      PresentableAfter(k.state, now.state, e.value);
    }
  }

  lemma ReadOn(k: KernelV, fs: seq<Frame>, f: Frame, now: KernelV, a: Applied, out: seq<Output>, undecodable: nat)
    requires SoFar(k, fs, now, out, undecodable) && Codec.Decoded(f.kind, f.payload).Some?
    requires Steps(now, Codec.Decoded(f.kind, f.payload).value, a)
    ensures SoFar(k, fs + [f], a.kernel, out + a.out, undecodable)
  {
    assert Token(0);
    ReplayOne(k, fs, f);
    Routing.OwnersCompose(k.state, now.state, a.kernel.state);
  }

  lemma SkipOn(k: KernelV, fs: seq<Frame>, f: Frame, now: KernelV, out: seq<Output>, undecodable: nat)
    requires SoFar(k, fs, now, out, undecodable) && Codec.Decoded(f.kind, f.payload).None?
    ensures SoFar(k, fs + [f], now, out, undecodable + 1)
  {
    assert Token(0);
    ReplayOne(k, fs, f);
  }

  /** Answers if and only if every record decodes, with the whole run's outputs. */
  method Replay(kernel: Kernel.Kernel, frames: seq<Frame>) returns (outputs: Option<seq<Output>>)
    requires kernel.Valid() && Routing.Named(kernel.state.View()) && FramesPresentable(kernel.state.View(), frames)
    modifies kernel, kernel.state, kernel.state.holdings
    ensures outputs.Some? <==> AllDecode(frames)
    ensures outputs.Some? ==> ReplayV(kernel.View(), outputs.value, 0) == Replayed(old(kernel.View()), frames)
  {
    ghost var k := kernel.View();
    var out, undecodable := ReplayTolerating(kernel, frames);
    CompleteIffAllDecode(k, frames);
    if undecodable > 0 {
      return None;
    }
    return Some(out);
  }
}
