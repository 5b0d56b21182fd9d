/** The journal's event codec: fixed little-endian layouts, one kind per generation
    (crates/oq-core/src/event.rs). */
module Codec {
  import opened Numbers
  import opened Bytes
  import opened Market
  import opened Events
  import opened DepthSide
  import opened VenueBook
  import opened TickFile

  const TICK := 1
  const SUBMIT_LEGACY := 2
  const CANCEL := 3
  const FUNDING := 4
  const TIME := 5
  const MARGIN_DEPOSIT := 6
  const SUBMIT := 7
  const VENUE_FILL := 8
  const DEPTH := 9
  const TICK_ON := 10
  const SUBMIT_ON := 11
  const FUNDING_ON := 12
  const FUNDING_CHARGED := 13
  const FEE_RECOVERED := 14

  const DEPTH_HEADER := 41

  function Kind(e: Event): nat {
    match e
    case TickSeen(instrument, _) => if instrument.None? then TICK else TICK_ON
    case Submit(instrument, _, _, _, _, _, _) => if instrument.None? then SUBMIT else SUBMIT_ON
    case Cancel(_, _) => CANCEL
    case Funding(instrument, _, _, _) => if instrument.None? then FUNDING else FUNDING_ON
    case FundingCharged(_, _, _) => FUNDING_CHARGED
    case FeeRecovered(_, _, _) => FEE_RECOVERED
    case TimeAt(_) => TIME
    case MarginDeposit(_, _) => MARGIN_DEPOSIT
    case VenueFill(_, _) => VENUE_FILL
    case Depth(_) => DEPTH
  }

  // ----- what the source's widths can hold

  predicate IsU64(x: int) { 0 <= x <= U64_MAX }

  predicate IsU32(x: int) { 0 <= x <= U32_MAX }

  predicate FitsStamp(s: Stamp) { IsI64(s.exch) && IsI64(s.local) }

  predicate FitsId(instrument: Option<nat>) { instrument.Some? ==> IsU32(instrument.value) }

  predicate FitsFill(f: Fill) {
    FitsStamp(f.stamp) && IsU32(f.instrument) && IsU64(f.order) && IsU64(f.trade) && IsI64(f.price) && IsI64(f.qty)
  }

  predicate FitsLevels(ls: seq<Level>) {
    forall i :: 0 <= i < |ls| ==> IsI64(ls[i].price) && IsI64(ls[i].qty)
  }

  predicate FitsDepth(u: DepthUpdate) {
    && IsI64(u.eventMs) && IsU64(u.firstId) && IsU64(u.finalId) && (u.prevFinalId.Some? ==> IsU64(u.prevFinalId.value))
    && FitsLevels(u.bids) && FitsLevels(u.asks)
  }

  /** Every field fits the width it is written at. */
  predicate Writable(e: Event) {
    match e
    case TickSeen(instrument, t) => FitsId(instrument) && Fits(t)
    case Submit(instrument, id, _, price, qty, _, stamp) =>
      FitsId(instrument) && IsU64(id) && (price.Some? ==> IsI64(price.value)) && IsI64(qty) && FitsStamp(stamp)
    case Cancel(id, stamp) => IsU64(id) && FitsStamp(stamp)
    case Funding(instrument, at, rate, mark) => FitsId(instrument) && IsI64(at) && IsI64(rate) && IsI64(mark)
    case FundingCharged(instrument, at, amount) => FitsId(instrument) && IsI64(at) && IsI64(amount)
    case FeeRecovered(at, amount, remainingMissing) => IsI64(at) && IsI64(amount) && IsU64(remainingMissing)
    case TimeAt(at) => IsI64(at)
    case MarginDeposit(amount, at) => IsI64(amount) && IsI64(at)
    case VenueFill(f, fee) => FitsFill(f) && (fee.Reported? ==> IsI64(fee.cash))
    case Depth(u) => FitsDepth(u)
  }

  const TWO_32 := 0x1_0000_0000

  /** Both sides have fewer levels than a count can say. */
  predicate Counted(u: DepthUpdate) {
    |u.bids| < TWO_32 && |u.asks| < TWO_32
  }

  predicate Encodable(e: Event) {
    Writable(e) && (e.Depth? ==> Counted(e.update))
  }

  // ----- layouts

  /** The instrument's four bytes, or none: a named payload extends the unnamed one. */
  function Tail(instrument: Option<nat>): (s: seq<Byte>)
    requires FitsId(instrument)
    ensures |s| == if instrument.Some? then 4 else 0
  {
    if instrument.Some? then PutU32(instrument.value) else []
  }

  function SideByte(side: Market.Side): Byte { if side.Buy? then 0 else 1 }

  function OffsetByte(offset: Offset): Byte { if offset.Open? then 0 else 1 }

  function LiquidityByte(l: Liquidity): Byte { if l.Maker? then 0 else 1 }

  function OrZero(x: Option<int>): int { if x.Some? then x.value else 0 }

  function FeeBytes(fee: Fee): seq<Byte>
    requires fee.Reported? ==> IsI64(fee.cash)
  {
    match fee
    case Unsaid => [0]
    case Reported(cash) => [1] + PutI64(cash)
    case Unreadable => [2]
  }

  function LevelBytes(l: Level): (s: seq<Byte>)
    requires IsI64(l.price) && IsI64(l.qty)
    ensures |s| == 16
  {
    PutI64(l.price) + PutI64(l.qty)
  }

  function LevelsBytes(ls: seq<Level>): (s: seq<Byte>)
    requires FitsLevels(ls)
    ensures |s| == 16 * |ls|
  {
    if ls == [] then [] else LevelsBytes(ls[..|ls| - 1]) + LevelBytes(ls[|ls| - 1])
  }

  function SubmitBody(id: U64, side: Market.Side, price: Option<int>, qty: I64, stamp: Stamp): (s: seq<Byte>)
    requires (price.Some? ==> IsI64(price.value)) && FitsStamp(stamp)
    ensures |s| == 42
  {
    PutU64(id) + ([SideByte(side), if price.Some? then 1 else 0] + Words([OrZero(price), qty, stamp.exch, stamp.local]))
  }

  function FillBody(f: Fill): (s: seq<Byte>)
    requires FitsFill(f)
    ensures |s| == 55
  {
    Words([f.stamp.exch, f.stamp.local]) + (PutU32(f.instrument) + (PutU64(f.order) + (PutU64(f.trade)
      + (Words([f.price, f.qty]) + [SideByte(f.side), OffsetByte(f.offset), LiquidityByte(f.liquidity)]))))
  }

  /** The counts are cut to four bytes. */
  function DepthHeader(u: DepthUpdate): (s: seq<Byte>)
    requires FitsDepth(u)
    ensures |s| == DEPTH_HEADER
  {
    PutI64(u.eventMs) + (PutU64(u.firstId) + (PutU64(u.finalId) + (PutU64(OrZero(u.prevFinalId))
      + ([if u.prevFinalId.Some? then 1 else 0] + (PutU32(|u.bids| % TWO_32) + PutU32(|u.asks| % TWO_32))))))
  }

  function Encoded(e: Event): seq<Byte>
    requires Writable(e)
  {
    match e
    case TickSeen(instrument, t) => Record(t) + Tail(instrument)
    case Submit(instrument, id, side, price, qty, offset, stamp) =>
      SubmitBody(id, side, price, qty, stamp) + ([OffsetByte(offset)] + Tail(instrument))
    case Cancel(id, stamp) => PutU64(id) + Words([stamp.exch, stamp.local])
    case Funding(instrument, at, rate, mark) => Words([at, rate, mark]) + Tail(instrument)
    case FundingCharged(instrument, at, amount) => Words([at, amount]) + Tail(instrument)
    case FeeRecovered(at, amount, remainingMissing) => Words([at, amount]) + PutU64(remainingMissing)
    case TimeAt(at) => Words([at])
    case MarginDeposit(amount, at) => Words([amount, at])
    case VenueFill(f, fee) => FillBody(f) + FeeBytes(fee)
    case Depth(u) => DepthHeader(u) + LevelsBytes(u.bids + u.asks)
  }

  // ----- reading

  function SideAt(b: Byte): Option<Market.Side> {
    if b == 0 then Some(Buy) else if b == 1 then Some(Sell) else None
  }

  function OffsetAt(b: Byte): Option<Offset> {
    if b == 0 then Some(Open) else if b == 1 then Some(Offset.Close) else None
  }

  function LiquidityAt(b: Byte): Option<Liquidity> {
    if b == 0 then Some(Maker) else if b == 1 then Some(Taker) else None
  }

  function TailAt(p: seq<Byte>, at: nat): Option<nat>
    requires |p| == at || |p| == at + 4
  {
    if |p| == at then None else Some(GetU32(p[at..at + 4]))
  }

  function DecodedTick(named: bool, p: seq<Byte>): Option<Event> {
    if |p| != (if named then 68 else 64) then None
    else Some(TickSeen(TailAt(p, 64), TickOf(p[..64])))
  }

  function DecodedSubmit(kind: nat, p: seq<Byte>): Option<Event> {
    if |p| != (if kind == SUBMIT_LEGACY then 42 else if kind == SUBMIT then 43 else 47) then None
    else
      var offset := if kind == SUBMIT_LEGACY then Some(Open) else OffsetAt(p[42]);
      var side := SideAt(p[8]);
      if offset.None? || side.None? then None
      else
        var rest := p[10..];
        Some(Submit(if |p| == 47 then Some(GetU32(p[43..47])) else None, GetU64(p[0..8]), side.value,
                    if p[9] == 1 then Some(WordAt(rest, 0)) else None, WordAt(rest, 1), offset.value,
                    Stamp(WordAt(rest, 2), WordAt(rest, 3))))
  }

  function DecodedCancel(p: seq<Byte>): Option<Event> {
    if |p| != 24 then None
    else Some(Cancel(GetU64(p[0..8]), Stamp(WordAt(p[8..], 0), WordAt(p[8..], 1))))
  }

  function DecodedFunding(named: bool, p: seq<Byte>): Option<Event> {
    if |p| != (if named then 28 else 24) then None
    else Some(Funding(TailAt(p, 24), WordAt(p, 0), WordAt(p, 1), WordAt(p, 2)))
  }

  function DecodedCharged(p: seq<Byte>): Option<Event> {
    if |p| != 16 && |p| != 20 then None
    else Some(FundingCharged(TailAt(p, 16), WordAt(p, 0), WordAt(p, 1)))
  }

  function DecodedRecovered(p: seq<Byte>): Option<Event> {
    if |p| != 24 then None else Some(FeeRecovered(WordAt(p, 0), WordAt(p, 1), GetU64(p[16..24])))
  }

  function FeeAt(p: seq<Byte>): Option<Fee> {
    if |p| == 55 then Some(Unsaid)
    else if |p| == 56 then (if p[55] == 0 then Some(Unsaid) else if p[55] == 2 then Some(Unreadable) else None)
    else if |p| == 64 then (if p[55] == 1 then Some(Reported(WordAt(p, 7))) else None)
    else None
  }

  function FillAt(p: seq<Byte>): Option<Fill>
    requires |p| >= 55
  {
    var side, offset, liquidity := SideAt(p[52]), OffsetAt(p[53]), LiquidityAt(p[54]);
    if side.None? || offset.None? || liquidity.None? then None
    else Some(Fill(Stamp(WordAt(p, 0), WordAt(p, 1)), GetU32(p[16..20]), GetU64(p[20..28]), GetU64(p[28..36]),
                   side.value, offset.value, GetI64(p[36..44]), GetI64(p[44..52]), liquidity.value))
  }

  function DecodedVenueFill(p: seq<Byte>): Option<Event> {
    var fee := FeeAt(p);
    if fee.None? then None
    else
      var fill := FillAt(p);
      if fill.None? then None else Some(VenueFill(fill.value, fee.value))
  }

  function LevelAt(p: seq<Byte>, i: nat): Level
    requires DEPTH_HEADER + 16 * i + 16 <= |p|
  {
    var o := DEPTH_HEADER + 16 * i;
    Level(GetI64(p[o..o + 8]), GetI64(p[o + 8..o + 16]))
  }

  function LevelsAt(p: seq<Byte>, n: nat): (ls: seq<Level>)
    requires DEPTH_HEADER + 16 * n <= |p|
    ensures |ls| == n
  {
    seq(n, i requires 0 <= i < n => LevelAt(p, i))
  }

  /** How many levels of each side a header declares. */
  function BidsIn(p: seq<Byte>): U32
    requires |p| >= DEPTH_HEADER
  {
    GetU32(p[33..37])
  }

  function AsksIn(p: seq<Byte>): U32
    requires |p| >= DEPTH_HEADER
  {
    GetU32(p[37..41])
  }

  function PrevAt(p: seq<Byte>): Option<nat>
    requires |p| >= DEPTH_HEADER
  {
    if p[32] == 1 then Some(GetU64(p[24..32])) else None
  }

  function DecodedDepth(p: seq<Byte>): Option<Event> {
    if |p| < DEPTH_HEADER || (p[32] != 0 && p[32] != 1) then None
    else if |p| != DEPTH_HEADER + 16 * (BidsIn(p) + AsksIn(p)) then None
    else
      var ls := LevelsAt(p, BidsIn(p) + AsksIn(p));
      Some(Depth(DepthUpdate(GetI64(p[0..8]), GetU64(p[8..16]), GetU64(p[16..24]), PrevAt(p), ls[..BidsIn(p)], ls[BidsIn(p)..])))
  }

  function Decoded(kind: nat, p: seq<Byte>): Option<Event> {
    if kind == TICK || kind == TICK_ON then DecodedTick(kind == TICK_ON, p)
    else if kind == SUBMIT || kind == SUBMIT_LEGACY || kind == SUBMIT_ON then DecodedSubmit(kind, p)
    else if kind == CANCEL then DecodedCancel(p)
    else if kind == FUNDING || kind == FUNDING_ON then DecodedFunding(kind == FUNDING_ON, p)
    else if kind == FUNDING_CHARGED then DecodedCharged(p)
    else if kind == TIME then (if |p| != 8 then None else Some(TimeAt(WordAt(p, 0))))
    else if kind == FEE_RECOVERED then DecodedRecovered(p)
    else if kind == MARGIN_DEPOSIT then (if |p| != 16 then None else Some(MarginDeposit(WordAt(p, 0), WordAt(p, 1))))
    else if kind == DEPTH then DecodedDepth(p)
    else if kind == VENUE_FILL then DecodedVenueFill(p)
    else None
  }

  // ----- finding the parts again

  lemma Head(a: seq<Byte>, r: seq<Byte>)
    ensures (a + r)[..|a|] == a && (a + r)[|a|..] == r
  {
  }

  lemma Skip(a: seq<Byte>, r: seq<Byte>, i: nat, j: nat)
    requires i <= j <= |r|
    ensures (a + r)[|a| + i..|a| + j] == r[i..j]
  {
  }

  lemma Front(a: seq<Byte>, r: seq<Byte>, i: nat, j: nat)
    requires i <= j <= |a|
    ensures (a + r)[i..j] == a[i..j]
  {
  }

  lemma TailRoundTrip(before: seq<Byte>, instrument: Option<nat>)
    requires FitsId(instrument)
    ensures TailAt(before + Tail(instrument), |before|) == instrument
  {
    if instrument.Some? {
      var tail := PutU32(instrument.value);
      Skip(before, tail, 0, 4);
      assert tail[0..4] == tail;
      U32RoundTrip(instrument.value);
    }
  }

  // ----- round trips, kind by kind

  lemma TickRoundTrip(instrument: Option<nat>, t: Tick)
    requires FitsId(instrument) && Fits(t)
    ensures DecodedTick(instrument.Some?, Record(t) + Tail(instrument)) == Some(TickSeen(instrument, t))
  {
    Head(Record(t), Tail(instrument));
    TailRoundTrip(Record(t), instrument);
    RecordRoundTrip(t);
  }

  lemma PairReads(a: I64, b: I64, rest: seq<Byte>)
    ensures WordAt(Words([a, b]) + rest, 0) == a && WordAt(Words([a, b]) + rest, 1) == b
  {
    WordsRoundTrip([a, b], rest, 0);
    WordsRoundTrip([a, b], rest, 1);
  }

  lemma FourRead(a: I64, b: I64, c: I64, d: I64, rest: seq<Byte>)
    ensures var s := Words([a, b, c, d]) + rest;
      WordAt(s, 0) == a && WordAt(s, 1) == b && WordAt(s, 2) == c && WordAt(s, 3) == d
  {
    WordsRoundTrip([a, b, c, d], rest, 0);
    WordsRoundTrip([a, b, c, d], rest, 1);
    WordsRoundTrip([a, b, c, d], rest, 2);
    WordsRoundTrip([a, b, c, d], rest, 3);
  }

  lemma ThreeParts(a: seq<Byte>, x: Byte, y: Byte, c: seq<Byte>, rest: seq<Byte>)
    requires |a| == 8
    ensures var p := (a + ([x, y] + c)) + rest;
      p[0..8] == a && p[8] == x && p[9] == y && p[10..] == c + rest
  {
    var p := (a + ([x, y] + c)) + rest;
    assert p == a + [x, y] + (c + rest);
  }

  /** The first 42 bytes of a submission read back, whatever follows. */
  lemma SubmitBodyReads(id: U64, side: Market.Side, price: Option<int>, qty: I64, stamp: Stamp, rest: seq<Byte>)
    requires (price.Some? ==> IsI64(price.value)) && FitsStamp(stamp)
    ensures var p := SubmitBody(id, side, price, qty, stamp) + rest;
      && GetU64(p[0..8]) == id && SideAt(p[8]) == Some(side) && (p[9] == 1 <==> price.Some?)
      && WordAt(p[10..], 0) == OrZero(price) && WordAt(p[10..], 1) == qty
      && WordAt(p[10..], 2) == stamp.exch && WordAt(p[10..], 3) == stamp.local
  {
    var xs := Words([OrZero(price), qty, stamp.exch, stamp.local]);
    ThreeParts(PutU64(id), SideByte(side), if price.Some? then 1 else 0, xs, rest);
    U64RoundTrip(id);
    FourRead(OrZero(price), qty, stamp.exch, stamp.local, rest);
  }

  /** What follows the body: the offset, and the instrument when it is named. */
  lemma SubmitRest(body: seq<Byte>, offset: Offset, instrument: Option<nat>)
    requires |body| == 42 && FitsId(instrument)
    ensures var p := body + ([OffsetByte(offset)] + Tail(instrument));
      && |p| == (if instrument.Some? then 47 else 43) && p[42] == OffsetByte(offset)
      && (instrument.Some? ==> GetU32(p[43..47]) == instrument.value)
  {
    var p := body + ([OffsetByte(offset)] + Tail(instrument));
    if instrument.Some? {
      assert p[43..47] == PutU32(instrument.value);
      U32RoundTrip(instrument.value);
    }
  }

  predicate ReadsSubmit(p: seq<Byte>, e: Event)
    requires |p| >= 42 && e.Submit?
  {
    && GetU64(p[0..8]) == e.id && SideAt(p[8]) == Some(e.side) && (p[9] == 1 <==> e.price.Some?)
    && WordAt(p[10..], 0) == OrZero(e.price) && WordAt(p[10..], 1) == e.qty
    && WordAt(p[10..], 2) == e.stamp.exch && WordAt(p[10..], 3) == e.stamp.local
  }

  lemma SubmitShape(p: seq<Byte>, e: Event)
    requires e.Submit? && |p| == (if e.instrument.Some? then 47 else 43) && ReadsSubmit(p, e)
    requires p[42] == OffsetByte(e.offset) && (e.instrument.Some? ==> GetU32(p[43..47]) == e.instrument.value)
    ensures DecodedSubmit(Kind(e), p) == Some(e)
  {
  }

  lemma SubmitRoundTrip(e: Event)
    requires e.Submit? && Encodable(e)
    ensures DecodedSubmit(Kind(e), Encoded(e)) == Some(e)
  {
    var body := SubmitBody(e.id, e.side, e.price, e.qty, e.stamp);
    SubmitBodyReads(e.id, e.side, e.price, e.qty, e.stamp, [OffsetByte(e.offset)] + Tail(e.instrument));
    SubmitRest(body, e.offset, e.instrument);
    SubmitShape(Encoded(e), e);
  }

  lemma LegacyShape(p: seq<Byte>, e: Event)
    requires e.Submit? && |p| == 42 && ReadsSubmit(p, e)
    ensures DecodedSubmit(SUBMIT_LEGACY, p) == Some(e.(instrument := None, offset := Open))
  {
  }

  /** Cut to 42 bytes and read under the legacy kind, a submission gives the same order, opening and
      without an instrument. */
  lemma LegacySubmitIsPrefix(e: Event)
    requires e.Submit? && Encodable(e)
    ensures |Encoded(e)| >= 42
    ensures Decoded(SUBMIT_LEGACY, Encoded(e)[..42]) == Some(e.(instrument := None, offset := Open))
  {
    var body := SubmitBody(e.id, e.side, e.price, e.qty, e.stamp);
    Head(body, [OffsetByte(e.offset)] + Tail(e.instrument));
    SubmitBodyReads(e.id, e.side, e.price, e.qty, e.stamp, []);
    assert body + [] == body;
    LegacyShape(body, e);
  }

  lemma CancelRoundTrip(id: U64, stamp: Stamp)
    requires FitsStamp(stamp)
    ensures DecodedCancel(PutU64(id) + Words([stamp.exch, stamp.local])) == Some(Cancel(id, stamp))
  {
    var xs := [stamp.exch, stamp.local];
    Head(PutU64(id), Words(xs));
    U64RoundTrip(id);
    WordsRoundTrip(xs, [], 0);
    WordsRoundTrip(xs, [], 1);
    assert Words(xs) + [] == Words(xs);
  }

  lemma FundingRoundTrip(instrument: Option<nat>, at: I64, rate: I64, mark: I64)
    requires FitsId(instrument)
    ensures DecodedFunding(instrument.Some?, Words([at, rate, mark]) + Tail(instrument)) == Some(Funding(instrument, at, rate, mark))
  {
    var xs := [at, rate, mark];
    WordsRoundTrip(xs, Tail(instrument), 0);
    WordsRoundTrip(xs, Tail(instrument), 1);
    WordsRoundTrip(xs, Tail(instrument), 2);
    TailRoundTrip(Words(xs), instrument);
  }

  lemma ChargedRoundTrip(instrument: Option<nat>, at: I64, amount: I64)
    requires FitsId(instrument)
    ensures DecodedCharged(Words([at, amount]) + Tail(instrument)) == Some(FundingCharged(instrument, at, amount))
  {
    var xs := [at, amount];
    WordsRoundTrip(xs, Tail(instrument), 0);
    WordsRoundTrip(xs, Tail(instrument), 1);
    TailRoundTrip(Words(xs), instrument);
  }

  lemma RecoveredShape(p: seq<Byte>, at: I64, amount: I64, remainingMissing: U64)
    requires |p| == 24 && WordAt(p, 0) == at && WordAt(p, 1) == amount && GetU64(p[16..24]) == remainingMissing
    ensures DecodedRecovered(p) == Some(FeeRecovered(at, amount, remainingMissing))
  {
  }

  lemma LastU64(before: seq<Byte>, v: U64)
    ensures (before + PutU64(v))[|before|..|before| + 8] == PutU64(v)
    ensures GetU64((before + PutU64(v))[|before|..|before| + 8]) == v
  {
    Head(before, PutU64(v));
    U64RoundTrip(v);
  }

  lemma RecoveredRoundTrip(at: I64, amount: I64, remainingMissing: U64)
    ensures DecodedRecovered(Words([at, amount]) + PutU64(remainingMissing)) == Some(FeeRecovered(at, amount, remainingMissing))
  {
    PairReads(at, amount, PutU64(remainingMissing));
    LastU64(Words([at, amount]), remainingMissing);
    RecoveredShape(Words([at, amount]) + PutU64(remainingMissing), at, amount, remainingMissing);
  }

  lemma WordsOnly(xs: seq<I64>, i: nat)
    requires i < |xs|
    ensures WordAt(Words(xs), i) == xs[i]
  {
    WordsRoundTrip(xs, [], i);
    assert Words(xs) + [] == Words(xs);
  }

  /** Where the fields of a fill are read from. */
  predicate ReadsStampAndNames(p: seq<Byte>, f: Fill)
    requires |p| >= 55
  {
    WordAt(p, 0) == f.stamp.exch && WordAt(p, 1) == f.stamp.local
    && GetU32(p[16..20]) == f.instrument && GetU64(p[20..28]) == f.order && GetU64(p[28..36]) == f.trade
  }

  predicate ReadsRest(p: seq<Byte>, f: Fill)
    requires |p| >= 55
  {
    GetI64(p[36..44]) == f.price && GetI64(p[44..52]) == f.qty
    && p[52] == SideByte(f.side) && p[53] == OffsetByte(f.offset) && p[54] == LiquidityByte(f.liquidity)
  }

  lemma ShapeReads(p: seq<Byte>, f: Fill)
    requires |p| >= 55 && ReadsStampAndNames(p, f) && ReadsRest(p, f)
    ensures FillAt(p) == Some(f)
  {
  }

  /** A fill's 55 bytes read back, whatever follows. */
  lemma FillBodyReads(f: Fill, rest: seq<Byte>)
    requires FitsFill(f)
    ensures FillAt(FillBody(f) + rest) == Some(f)
  {
    NamesRead(f, rest);
    PricesRead(f, rest);
    ShapeReads(FillBody(f) + rest, f);
  }

  lemma NamesRead(f: Fill, rest: seq<Byte>)
    requires FitsFill(f)
    ensures ReadsStampAndNames(FillBody(f) + rest, f)
  {
    var flags := [SideByte(f.side), OffsetByte(f.offset), LiquidityByte(f.liquidity)];
    var a, b, c, d, e := Words([f.stamp.exch, f.stamp.local]), PutU32(f.instrument), PutU64(f.order), PutU64(f.trade), Words([f.price, f.qty]);
    FillBodyNests(f, rest);
    PairReads(f.stamp.exch, f.stamp.local, b + (c + (d + (e + (flags + rest)))));
    NameSlices(a, b, c, d, e + (flags + rest));
    U32RoundTrip(f.instrument);
    U64RoundTrip(f.order);
    U64RoundTrip(f.trade);
  }

  lemma PricesRead(f: Fill, rest: seq<Byte>)
    requires FitsFill(f)
    ensures ReadsRest(FillBody(f) + rest, f)
  {
    var flags := [SideByte(f.side), OffsetByte(f.offset), LiquidityByte(f.liquidity)];
    var a, b, c, d, e := Words([f.stamp.exch, f.stamp.local]), PutU32(f.instrument), PutU64(f.order), PutU64(f.trade), Words([f.price, f.qty]);
    FillBodyNests(f, rest);
    PriceSlices(a, b, c, d, e, flags, rest);
    TwoWords(f.price, f.qty);
  }

  lemma PriceSlices(a: seq<Byte>, b: seq<Byte>, c: seq<Byte>, d: seq<Byte>, e: seq<Byte>, flags: seq<Byte>, rest: seq<Byte>)
    requires |a| == 16 && |b| == 4 && |c| == 8 && |d| == 8 && |e| == 16 && |flags| == 3
    ensures var p := a + (b + (c + (d + (e + (flags + rest)))));
      p[36..44] == e[0..8] && p[44..52] == e[8..16] && p[52] == flags[0] && p[53] == flags[1] && p[54] == flags[2]
  {
    var p := a + (b + (c + (d + (e + (flags + rest)))));
    assert p == (a + b + c + d) + (e + (flags + rest));
    Skip(a + b + c + d, e + (flags + rest), 0, 8);
    Skip(a + b + c + d, e + (flags + rest), 8, 16);
    Front(e, flags + rest, 0, 8);
    Front(e, flags + rest, 8, 16);
    Skip(a + b + c + d, e + (flags + rest), 16, 19);
    assert p[52] == p[52..55][0] && p[53] == p[52..55][1] && p[54] == p[52..55][2];
  }

  lemma TwoWords(a: I64, b: I64)
    ensures GetI64(Words([a, b])[0..8]) == a && GetI64(Words([a, b])[8..16]) == b
  {
    WordsOnly([a, b], 0);
    WordsOnly([a, b], 1);
  }

  lemma Nests(a: seq<Byte>, b: seq<Byte>, c: seq<Byte>, d: seq<Byte>, e: seq<Byte>, f: seq<Byte>, r: seq<Byte>)
    ensures (a + (b + (c + (d + (e + f))))) + r == a + (b + (c + (d + (e + (f + r)))))
  {
  }

  lemma FillBodyNests(f: Fill, rest: seq<Byte>)
    requires FitsFill(f)
    ensures FillBody(f) + rest == Words([f.stamp.exch, f.stamp.local]) + (PutU32(f.instrument) + (PutU64(f.order)
      + (PutU64(f.trade) + (Words([f.price, f.qty])
      + ([SideByte(f.side), OffsetByte(f.offset), LiquidityByte(f.liquidity)] + rest)))))
  {
    Nests(Words([f.stamp.exch, f.stamp.local]), PutU32(f.instrument), PutU64(f.order), PutU64(f.trade),
          Words([f.price, f.qty]), [SideByte(f.side), OffsetByte(f.offset), LiquidityByte(f.liquidity)], rest);
  }

  lemma NameSlices(a: seq<Byte>, b: seq<Byte>, c: seq<Byte>, d: seq<Byte>, r: seq<Byte>)
    requires |a| == 16 && |b| == 4 && |c| == 8 && |d| == 8
    ensures var p := a + (b + (c + (d + r)));
      p[16..20] == b && p[20..28] == c && p[28..36] == d
  {
    var p := a + (b + (c + (d + r)));
    assert p == a + b + (c + (d + r));
    MiddlePart(a, b, c + (d + r));
    assert p == a + b + c + (d + r);
    MiddlePart(a + b, c, d + r);
    assert p == a + b + c + d + r;
    MiddlePart(a + b + c, d, r);
  }

  lemma ReportedReads(body: seq<Byte>, cash: I64)
    requires |body| == 55
    ensures WordAt(body + ([1] + PutI64(cash)), 7) == cash
  {
    var p := body + ([1] + PutI64(cash));
    assert p[56..64] == PutI64(cash);
    I64RoundTrip(cash);
  }

  lemma FeeReads(body: seq<Byte>, fee: Fee)
    requires |body| == 55 && (fee.Reported? ==> IsI64(fee.cash))
    ensures FeeAt(body + FeeBytes(fee)) == Some(fee)
  {
    assert (body + FeeBytes(fee))[55] == FeeBytes(fee)[0];
    if fee.Reported? {
      ReportedReads(body, fee.cash);
    }
  }

  lemma VenueFillRoundTrip(f: Fill, fee: Fee)
    requires FitsFill(f) && (fee.Reported? ==> IsI64(fee.cash))
    ensures DecodedVenueFill(FillBody(f) + FeeBytes(fee)) == Some(VenueFill(f, fee))
  {
    FillBodyReads(f, FeeBytes(fee));
    FeeReads(FillBody(f), fee);
  }

  // ----- depth

  lemma {:induction false} LevelReads(ls: seq<Level>, rest: seq<Byte>, i: nat)
    requires FitsLevels(ls) && i < |ls|
    ensures var s := LevelsBytes(ls) + rest;
      s[16 * i..16 * i + 8] == PutI64(ls[i].price) && s[16 * i + 8..16 * i + 16] == PutI64(ls[i].qty)
  {
    var n := |ls| - 1;
    var front, last := LevelsBytes(ls[..n]), LevelBytes(ls[n]);
    Associates(front, last, rest);
    if i < n {
      LevelReads(ls[..n], last + rest, i);
    } else {
      LastLevel(front, PutI64(ls[n].price), PutI64(ls[n].qty), rest);
    }
  }

  lemma Associates(a: seq<Byte>, b: seq<Byte>, c: seq<Byte>)
    ensures (a + b) + c == a + (b + c)
  {
  }

  lemma LastLevel(before: seq<Byte>, a: seq<Byte>, b: seq<Byte>, rest: seq<Byte>)
    requires |a| == |b| == 8
    ensures var s := before + ((a + b) + rest);
      s[|before|..|before| + 8] == a && s[|before| + 8..|before| + 16] == b
  {
    var s := before + ((a + b) + rest);
    assert s == before + a + (b + rest);
    MiddlePart(before, a, b + rest);
    assert s == before + a + b + rest;
    MiddlePart(before + a, b, rest);
  }

  lemma LevelFrom(p: seq<Byte>, i: nat, l: Level)
    requires IsI64(l.price) && IsI64(l.qty) && DEPTH_HEADER + 16 * i + 16 <= |p|
    requires p[DEPTH_HEADER + 16 * i..DEPTH_HEADER + 16 * i + 8] == PutI64(l.price)
    requires p[DEPTH_HEADER + 16 * i + 8..DEPTH_HEADER + 16 * i + 16] == PutI64(l.qty)
    ensures LevelAt(p, i) == l
  {
    I64RoundTrip(l.price);
    I64RoundTrip(l.qty);
  }

  lemma LevelRoundTrip(header: seq<Byte>, ls: seq<Level>, i: nat)
    requires |header| == DEPTH_HEADER && FitsLevels(ls) && i < |ls|
    ensures LevelAt(header + LevelsBytes(ls), i) == ls[i]
  {
    var s := LevelsBytes(ls);
    LevelReads(ls, [], i);
    assert s + [] == s;
    AfterHeader(header, s, 16 * i);
    LevelFrom(header + s, i, ls[i]);
  }

  lemma AfterHeader(header: seq<Byte>, s: seq<Byte>, k: nat)
    requires |header| == DEPTH_HEADER && k + 16 <= |s|
    ensures (header + s)[DEPTH_HEADER + k..DEPTH_HEADER + k + 8] == s[k..k + 8]
    ensures (header + s)[DEPTH_HEADER + k + 8..DEPTH_HEADER + k + 16] == s[k + 8..k + 16]
  {
    Skip(header, s, k, k + 8);
    Skip(header, s, k + 8, k + 16);
  }

  lemma LevelsRoundTrip(header: seq<Byte>, ls: seq<Level>)
    requires |header| == DEPTH_HEADER && FitsLevels(ls)
    ensures LevelsAt(header + LevelsBytes(ls), |ls|) == ls
  {
    forall i | 0 <= i < |ls| ensures LevelsAt(header + LevelsBytes(ls), |ls|)[i] == ls[i] {
      LevelRoundTrip(header, ls, i);
    }
  }

  predicate ReadsIds(p: seq<Byte>, u: DepthUpdate)
    requires |p| >= DEPTH_HEADER
  {
    && GetI64(p[0..8]) == u.eventMs && GetU64(p[8..16]) == u.firstId && GetU64(p[16..24]) == u.finalId
    && GetU64(p[24..32]) == OrZero(u.prevFinalId)
  }

  predicate ReadsCounts(p: seq<Byte>, u: DepthUpdate)
    requires |p| >= DEPTH_HEADER
  {
    p[32] == (if u.prevFinalId.Some? then 1 else 0) && BidsIn(p) == |u.bids| % TWO_32 && AsksIn(p) == |u.asks| % TWO_32
  }

  lemma IdSlices(a: seq<Byte>, b: seq<Byte>, c: seq<Byte>, d: seq<Byte>, r: seq<Byte>)
    requires |a| == |b| == |c| == |d| == 8
    ensures var p := a + (b + (c + (d + r)));
      p[0..8] == a && p[8..16] == b && p[16..24] == c && p[24..32] == d
  {
    var p := a + (b + (c + (d + r)));
    Head(a, b + (c + (d + r)));
    assert p == a + b + (c + (d + r));
    MiddlePart(a, b, c + (d + r));
    assert p == a + b + c + (d + r);
    MiddlePart(a + b, c, d + r);
    assert p == a + b + c + d + r;
    MiddlePart(a + b + c, d, r);
  }

  lemma HeaderNests(a: seq<Byte>, b: seq<Byte>, c: seq<Byte>, d: seq<Byte>, x: Byte, m: seq<Byte>, n: seq<Byte>, r: seq<Byte>)
    ensures (a + (b + (c + (d + ([x] + (m + n)))))) + r == a + (b + (c + (d + ([x] + (m + (n + r))))))
    ensures a + (b + (c + (d + ([x] + (m + (n + r)))))) == (a + b + c + d) + ([x] + (m + (n + r)))
  {
    Nests(a, b, c, d, [x], m + n, r);
    assert (m + n) + r == m + (n + r);
  }

  lemma CountSlices(before: seq<Byte>, x: Byte, m: seq<Byte>, n: seq<Byte>, r: seq<Byte>)
    requires |before| == 32 && |m| == |n| == 4
    ensures var p := before + ([x] + (m + (n + r)));
      p[32] == x && p[33..37] == m && p[37..41] == n
  {
    var p := before + ([x] + (m + (n + r)));
    assert p == (before + [x]) + m + (n + r);
    MiddlePart(before + [x], m, n + r);
    assert p == (before + [x] + m) + n + r;
    MiddlePart(before + [x] + m, n, r);
  }

  lemma IdsRead(u: DepthUpdate, r: seq<Byte>)
    requires FitsDepth(u)
    ensures ReadsIds(DepthHeader(u) + r, u)
  {
    var a, b, c, d := PutI64(u.eventMs), PutU64(u.firstId), PutU64(u.finalId), PutU64(OrZero(u.prevFinalId));
    var x, m, n := if u.prevFinalId.Some? then 1 else 0 as Byte, PutU32(|u.bids| % TWO_32), PutU32(|u.asks| % TWO_32);
    HeaderNests(a, b, c, d, x, m, n, r);
    IdSlices(a, b, c, d, [x] + (m + (n + r)));
    I64RoundTrip(u.eventMs);
    U64RoundTrip(u.firstId);
    U64RoundTrip(u.finalId);
    U64RoundTrip(OrZero(u.prevFinalId));
  }

  lemma CountsRead(u: DepthUpdate, r: seq<Byte>)
    requires FitsDepth(u)
    ensures ReadsCounts(DepthHeader(u) + r, u)
  {
    var a, b, c, d := PutI64(u.eventMs), PutU64(u.firstId), PutU64(u.finalId), PutU64(OrZero(u.prevFinalId));
    var x, m, n := if u.prevFinalId.Some? then 1 else 0 as Byte, PutU32(|u.bids| % TWO_32), PutU32(|u.asks| % TWO_32);
    HeaderNests(a, b, c, d, x, m, n, r);
    CountSlices(a + b + c + d, x, m, n, r);
    U32RoundTrip(|u.bids| % TWO_32);
    U32RoundTrip(|u.asks| % TWO_32);
  }

  lemma DepthShape(p: seq<Byte>, u: DepthUpdate)
    requires |p| == DEPTH_HEADER + 16 * (|u.bids| + |u.asks|) && ReadsIds(p, u) && ReadsCounts(p, u)
    requires Counted(u) && LevelsAt(p, |u.bids| + |u.asks|) == u.bids + u.asks
    ensures DecodedDepth(p) == Some(Depth(u))
  {
  }

  lemma DepthRoundTrip(u: DepthUpdate)
    requires FitsDepth(u) && Counted(u)
    ensures DecodedDepth(DepthHeader(u) + LevelsBytes(u.bids + u.asks)) == Some(Depth(u))
  {
    var ls := u.bids + u.asks;
    IdsRead(u, LevelsBytes(ls));
    CountsRead(u, LevelsBytes(ls));
    LevelsRoundTrip(DepthHeader(u), ls);
    DepthShape(DepthHeader(u) + LevelsBytes(ls), u);
  }

  /** A count that was cut declares fewer levels than are there. */
  lemma CutCountsRefused(u: DepthUpdate)
    requires FitsDepth(u) && !Counted(u)
    ensures DecodedDepth(DepthHeader(u) + LevelsBytes(u.bids + u.asks)).None?
  {
    var s := DepthHeader(u) + LevelsBytes(u.bids + u.asks);
    CountsRead(u, LevelsBytes(u.bids + u.asks));
    assert BidsIn(s) + AsksIn(s) < |u.bids| + |u.asks|;
  }

  // ----- the codec

  predicate Survives(e: Event)
    requires Encodable(e)
  {
    Decoded(Kind(e), Encoded(e)) == Some(e)
  }

  lemma TickSurvives(e: Event)
    requires e.TickSeen? && Encodable(e)
    ensures Survives(e)
  {
    TickRoundTrip(e.instrument, e.tick);
  }

  lemma SubmitSurvives(e: Event)
    requires e.Submit? && Encodable(e)
    ensures Survives(e)
  {
    SubmitRoundTrip(e);
  }

  lemma FundingSurvives(e: Event)
    requires e.Funding? && Encodable(e)
    ensures Survives(e)
  {
    FundingRoundTrip(e.instrument, e.at, e.rate, e.mark);
  }

  lemma ChargedSurvives(e: Event)
    requires e.FundingCharged? && Encodable(e)
    ensures Survives(e)
  {
    ChargedRoundTrip(e.instrument, e.at, e.amount);
  }

  lemma CancelSurvives(e: Event)
    requires e.Cancel? && Encodable(e)
    ensures Survives(e)
  {
    CancelRoundTrip(e.id, e.stamp);
  }

  lemma RecoveredSurvives(e: Event)
    requires e.FeeRecovered? && Encodable(e)
    ensures Survives(e)
  {
    RecoveredRoundTrip(e.at, e.amount, e.remainingMissing);
  }

  lemma TimeSurvives(e: Event)
    requires e.TimeAt? && Encodable(e)
    ensures Survives(e)
  {
    WordsOnly([e.at], 0);
  }

  lemma DepositSurvives(e: Event)
    requires e.MarginDeposit? && Encodable(e)
    ensures Survives(e)
  {
    TwoWordsAt(e.amount, e.at);
  }

  lemma TwoWordsAt(a: I64, b: I64)
    ensures WordAt(Words([a, b]), 0) == a && WordAt(Words([a, b]), 1) == b
  {
    WordsOnly([a, b], 0);
    WordsOnly([a, b], 1);
  }

  lemma FillDispatch(p: seq<Byte>)
    ensures Decoded(VENUE_FILL, p) == DecodedVenueFill(p)
  {
  }

  lemma VenueFillSurvives(e: Event)
    requires e.VenueFill? && Encodable(e)
    ensures Survives(e)
  {
    FillDispatch(Encoded(e));
    VenueFillRoundTrip(e.fill, e.fee);
  }

  lemma DepthDispatch(p: seq<Byte>)
    ensures Decoded(DEPTH, p) == DecodedDepth(p)
  {
  }

  lemma DepthSurvives(e: Event)
    requires e.Depth? && Encodable(e)
    ensures Survives(e)
  {
    DepthDispatch(Encoded(e));
    DepthRoundTrip(e.update);
  }

  lemma EncodableSurvives(e: Event)
    requires Encodable(e)
    ensures Survives(e)
  {
    match e
    case TickSeen(_, _) => TickSurvives(e);
    case Submit(_, _, _, _, _, _, _) => SubmitSurvives(e);
    case Cancel(_, _) => CancelSurvives(e);
    case Funding(_, _, _, _) => FundingSurvives(e);
    case FundingCharged(_, _, _) => ChargedSurvives(e);
    case FeeRecovered(_, _, _) => RecoveredSurvives(e);
    case TimeAt(_) => TimeSurvives(e);
    case MarginDeposit(_, _) => DepositSurvives(e);
    case VenueFill(_, _) => VenueFillSurvives(e);
    case Depth(_) => DepthSurvives(e);
  }

  /** Decoding what was encoded, under its own kind, gives back every event, but for a depth
      update with more levels on a side than a count can say, which decodes to nothing. */
  lemma EventRoundTrip(e: Event)
    requires Writable(e)
    ensures Decoded(Kind(e), Encoded(e)) == if Encodable(e) then Some(e) else None
  {
    if Encodable(e) {
      EncodableSurvives(e);
    } else {
      DepthDispatch(Encoded(e));
      CutCountsRefused(e.update);
    }
  }

  // ----- lengths

  /** The one length a kind accepts, for the kinds that have one. */
  function FixedLen(kind: nat): Option<nat> {
    if kind == TICK then Some(64)
    else if kind == TICK_ON then Some(68)
    else if kind == SUBMIT_LEGACY then Some(42)
    else if kind == SUBMIT then Some(43)
    else if kind == SUBMIT_ON then Some(47)
    else if kind == CANCEL then Some(24)
    else if kind == FUNDING then Some(24)
    else if kind == FUNDING_ON then Some(28)
    else if kind == TIME then Some(8)
    else if kind == FEE_RECOVERED then Some(24)
    else if kind == MARGIN_DEPOSIT then Some(16)
    else None
  }

  lemma FixedKindLength(kind: nat, p: seq<Byte>)
    requires FixedLen(kind).Some? && Decoded(kind, p).Some?
    ensures |p| == FixedLen(kind).value
  {
  }

  lemma NamedLength(e: Event)
    requires Encodable(e) && (e.TickSeen? || e.Submit? || e.Funding?)
    ensures FixedLen(Kind(e)) == Some(|Encoded(e)|)
  {
  }

  lemma PlainLength(e: Event)
    requires Encodable(e) && (e.Cancel? || e.FeeRecovered? || e.TimeAt? || e.MarginDeposit?)
    ensures FixedLen(Kind(e)) == Some(|Encoded(e)|)
  {
  }

  lemma EncodedLength(e: Event)
    requires Encodable(e) && FixedLen(Kind(e)).Some?
    ensures |Encoded(e)| == FixedLen(Kind(e)).value
  {
    if e.TickSeen? || e.Submit? || e.Funding? {
      NamedLength(e);
    } else {
      PlainLength(e);
    }
  }

  /** At any other length a fixed kind decodes to nothing. */
  lemma OtherLengthsRefused(e: Event, p: seq<Byte>)
    requires Encodable(e) && FixedLen(Kind(e)).Some? && |p| != |Encoded(e)|
    ensures Decoded(Kind(e), p).None?
  {
    EncodedLength(e);
    if Decoded(Kind(e), p).Some? {
      FixedKindLength(Kind(e), p);
    }
  }

  lemma DepthDeclares(u: DepthUpdate, p: seq<Byte>)
    requires |p| >= DEPTH_HEADER && BidsIn(p) == |u.bids| && AsksIn(p) == |u.asks|
    requires |p| != DEPTH_HEADER + 16 * (|u.bids| + |u.asks|)
    ensures DecodedDepth(p).None?
  {
  }

  lemma SameCounts(p: seq<Byte>, s: seq<Byte>)
    requires |p| >= DEPTH_HEADER && |s| >= DEPTH_HEADER && p[..41] == s[..41]
    ensures BidsIn(p) == BidsIn(s) && AsksIn(p) == AsksIn(s)
  {
    assert p[33..37] == p[..41][33..37] && s[33..37] == s[..41][33..37];
    assert p[37..41] == p[..41][37..41] && s[37..41] == s[..41][37..41];
  }

  /** A depth payload's length is declared in its first 41 bytes, so nothing that shares them
      decodes at another length. */
  lemma DepthLength(u: DepthUpdate, p: seq<Byte>)
    requires FitsDepth(u) && Counted(u) && |p| != |DepthHeader(u) + LevelsBytes(u.bids + u.asks)|
    requires |p| >= DEPTH_HEADER ==> p[..41] == (DepthHeader(u) + LevelsBytes(u.bids + u.asks))[..41]
    ensures DecodedDepth(p).None?
  {
    var s := DepthHeader(u) + LevelsBytes(u.bids + u.asks);
    if |p| >= DEPTH_HEADER {
      CountsRead(u, LevelsBytes(u.bids + u.asks));
      SameCounts(p, s);
      DepthDeclares(u, p);
    }
  }

  lemma SharedFront(p: seq<Byte>, s: seq<Byte>)
    requires |s| >= DEPTH_HEADER && (p <= s || s <= p)
    ensures |p| >= DEPTH_HEADER ==> p[..41] == s[..41]
  {
  }

  lemma DepthOtherLength(e: Event, p: seq<Byte>)
    requires e.Depth? && Encodable(e) && |p| != |Encoded(e)| && (p <= Encoded(e) || Encoded(e) <= p)
    ensures Decoded(Kind(e), p).None?
  {
    SharedFront(p, Encoded(e));
    DepthDispatch(p);
    DepthLength(e.update, p);
  }

  lemma ChargedLength(e: Event, p: seq<Byte>)
    requires e.FundingCharged? && Encodable(e)
    ensures |Encoded(e)| == (if e.instrument.Some? then 20 else 16)
    ensures Decoded(Kind(e), p).Some? <==> |p| == 16 || |p| == 20
  {
  }

  /** What a fill payload needs in order to decode: the body, then a fee its length allows. */
  lemma FillDecodes(p: seq<Byte>)
    ensures DecodedVenueFill(p).Some? <==> FeeAt(p).Some? && FillAt(p).Some?
  {
  }

  lemma FillOtherLength(body: seq<Byte>, fee: Fee, p: seq<Byte>)
    requires |body| == 55 && (fee.Reported? ==> IsI64(fee.cash))
    requires |p| != |body + FeeBytes(fee)| && (p <= body + FeeBytes(fee) || body + FeeBytes(fee) <= p)
    ensures FeeAt(p).Some? <==> |p| == 55
  {
    var s := body + FeeBytes(fee);
    assert s[55] == FeeBytes(fee)[0];
    assert |p| >= 56 ==> p[55] == s[55];
  }

  lemma BodyDecodes(f: Fill, p: seq<Byte>)
    requires FitsFill(f) && p == FillBody(f)
    ensures FillAt(p) == Some(f)
  {
    FillBodyReads(f, []);
    assert FillBody(f) + [] == FillBody(f);
  }

  lemma CutToBody(body: seq<Byte>, fee: seq<Byte>, p: seq<Byte>)
    requires |p| == |body| && (p <= body + fee || body + fee <= p)
    ensures p == body
  {
  }

  lemma VenueFillOtherLength(e: Event, p: seq<Byte>)
    requires e.VenueFill? && Encodable(e) && |p| != |Encoded(e)| && (p <= Encoded(e) || Encoded(e) <= p)
    ensures Decoded(Kind(e), p).Some? <==> |p| == 55
  {
    FillDispatch(p);
    FillOtherLength(FillBody(e.fill), e.fee, p);
    FillDecodes(p);
    if |p| == 55 {
      CutToBody(FillBody(e.fill), FeeBytes(e.fee), p);
      BodyDecodes(e.fill, p);
    }
  }

  /** Which proper prefixes of a payload decode under its own kind: none, but for a named
      funding charge cut to the unnamed one, and a venue fill cut to before its fee. */
  lemma PrefixesThatDecode(e: Event, n: nat)
    requires Encodable(e) && n < |Encoded(e)|
    ensures Decoded(Kind(e), Encoded(e)[..n]).Some?
       <==> ((e.FundingCharged? && e.instrument.Some? && n == 16) || (e.VenueFill? && n == 55))
  {
    OtherLengths(e, Encoded(e)[..n]);
  }

  /** Which proper extensions decode: none, but for an unnamed funding charge followed by four
      bytes, which then name an instrument. */
  lemma ExtensionsThatDecode(e: Event, more: seq<Byte>)
    requires Encodable(e) && more != []
    ensures Decoded(Kind(e), Encoded(e) + more).Some? <==> (e.FundingCharged? && e.instrument.None? && |more| == 4)
  {
    OtherLengths(e, Encoded(e) + more);
    AtLeastBody(e);
  }

  lemma AtLeastBody(e: Event)
    requires Encodable(e)
    ensures e.VenueFill? ==> |Encoded(e)| > 55
    ensures e.FundingCharged? ==> |Encoded(e)| == (if e.instrument.Some? then 20 else 16)
  {
  }

  lemma OtherLengths(e: Event, p: seq<Byte>)
    requires Encodable(e) && |p| != |Encoded(e)| && (p <= Encoded(e) || Encoded(e) <= p)
    ensures Decoded(Kind(e), p).Some? <==> ((e.FundingCharged? && (|p| == 16 || |p| == 20)) || (e.VenueFill? && |p| == 55))
    ensures e.FundingCharged? ==> |Encoded(e)| == (if e.instrument.Some? then 20 else 16)
  {
    if e.VenueFill? {
      VenueFillOtherLength(e, p);
    } else if e.Depth? {
      DepthOtherLength(e, p);
    } else if e.FundingCharged? {
      ChargedLength(e, p);
    } else {
      OtherLengthsRefused(e, p);
    }
  }

  // ----- the programs

  /** The payload, appended field by field. */
  method Encode(e: Event) returns (out: seq<Byte>)
    requires Writable(e)
    ensures out == Encoded(e)
  {
    out := [];
    match e
    case TickSeen(instrument, t) =>
      out := out + Words([t.stamp.exch, t.stamp.local, t.last, t.high, t.low, t.bid, t.ask, t.volume]);
      out := PutTail(out, instrument);
    case Submit(instrument, id, side, price, qty, offset, stamp) =>
      out := out + SubmitBody(id, side, price, qty, stamp) + [OffsetByte(offset)];
      out := PutTail(out, instrument);
      Regroup(SubmitBody(id, side, price, qty, stamp), [OffsetByte(offset)], Tail(instrument));
    case Cancel(id, stamp) =>
      out := out + PutU64(id);
      out := out + Words([stamp.exch, stamp.local]);
    case Funding(instrument, at, rate, mark) =>
      out := out + Words([at, rate, mark]);
      out := PutTail(out, instrument);
    case FundingCharged(instrument, at, amount) =>
      out := out + Words([at, amount]);
      out := PutTail(out, instrument);
    case FeeRecovered(at, amount, remainingMissing) =>
      out := out + Words([at, amount]);
      out := out + PutU64(remainingMissing);
    case TimeAt(at) => out := out + Words([at]);
    case MarginDeposit(amount, at) => out := out + Words([amount, at]);
    case VenueFill(f, fee) =>
      out := out + FillBody(f);
      out := out + FeeBytes(fee);
    case Depth(u) => out := EncodeDepth(u);
  }

  lemma Regroup(a: seq<Byte>, b: seq<Byte>, c: seq<Byte>)
    ensures [] + a + b + c == a + (b + c)
  {
  }

  method PutTail(before: seq<Byte>, instrument: Option<nat>) returns (out: seq<Byte>)
    requires FitsId(instrument)
    ensures out == before + Tail(instrument)
  {
    out := before;
    if instrument.Some? {
      out := out + PutU32(instrument.value);
    }
  }

  /** The loop appends the header and the levels of the specification. */
  method EncodeDepth(u: DepthUpdate) returns (out: seq<Byte>)
    requires FitsDepth(u)
    ensures out == DepthHeader(u) + LevelsBytes(u.bids + u.asks)
  {
    out := DepthHeader(u);
    var levels := u.bids + u.asks;
    var i := 0;
    while i < |levels|
      invariant 0 <= i <= |levels| && out == DepthHeader(u) + LevelsBytes(levels[..i])
    {
      assert levels[..i + 1][..i] == levels[..i];
      out := out + (PutI64(levels[i].price) + PutI64(levels[i].qty));
      i := i + 1;
    }
    assert levels[..i] == levels;
  }

  // ----- the decoder, kind by kind

  /** The answer for a payload is the event its kind and bytes specify, or none. */
  method Decode(kind: nat, p: seq<Byte>) returns (e: Option<Event>)
    ensures e == Decoded(kind, p)
  {
    if kind == TICK || kind == TICK_ON {
      e := DecodeTick(kind == TICK_ON, p);
    } else if kind == SUBMIT || kind == SUBMIT_LEGACY || kind == SUBMIT_ON {
      e := DecodeSubmit(kind, p);
    } else if kind == CANCEL {
      e := DecodeCancel(p);
    } else if kind == FUNDING || kind == FUNDING_ON {
      e := DecodeFunding(kind == FUNDING_ON, p);
    } else if kind == DEPTH {
      DepthDispatch(p);
      e := DecodeDepth(p);
    } else if kind == VENUE_FILL {
      FillDispatch(p);
      e := DecodeVenueFill(p);
    } else {
      e := DecodeAmount(kind, p);
    }
  }

  method DecodeTick(named: bool, p: seq<Byte>) returns (e: Option<Event>)
    ensures e == DecodedTick(named, p)
  {
    var want := if named then 68 else 64;
    if |p| != want {
      return None;
    }
    var instrument: Option<nat> := None;
    if named {
      instrument := Some(GetU32(p[64..68]));
    }
    return Some(TickSeen(instrument, TickOf(p[..64])));
  }

  /** The length is exact for each of the three kinds, then every presence and side byte. */
  method DecodeSubmit(kind: nat, p: seq<Byte>) returns (e: Option<Event>)
    ensures e == DecodedSubmit(kind, p)
  {
    var want := if kind == SUBMIT_LEGACY then 42 else if kind == SUBMIT then 43 else 47;
    if |p| != want {
      return None;
    }
    var instrument: Option<nat> := None;
    if want == 47 {
      instrument := Some(GetU32(p[43..47]));
    }
    var offset := Open;
    if kind != SUBMIT_LEGACY {
      if p[42] == 1 {
        offset := Offset.Close;
      } else if p[42] != 0 {
        return None;
      }
    }
    var side := Buy;
    if p[8] == 1 {
      side := Sell;
    } else if p[8] != 0 {
      return None;
    }
    var rest := p[10..];
    var price: Option<int> := None;
    if p[9] == 1 {
      price := Some(WordAt(rest, 0));
    }
    return Some(Submit(instrument, GetU64(p[0..8]), side, price, WordAt(rest, 1), offset,
                       Stamp(WordAt(rest, 2), WordAt(rest, 3))));
  }

  method DecodeCancel(p: seq<Byte>) returns (e: Option<Event>)
    ensures e == DecodedCancel(p)
  {
    if |p| != 24 {
      return None;
    }
    var rest := p[8..];
    return Some(Cancel(GetU64(p[0..8]), Stamp(WordAt(rest, 0), WordAt(rest, 1))));
  }

  method DecodeFunding(named: bool, p: seq<Byte>) returns (e: Option<Event>)
    ensures e == DecodedFunding(named, p)
  {
    var want := if named then 28 else 24;
    if |p| != want {
      return None;
    }
    var instrument: Option<nat> := None;
    if named {
      instrument := Some(GetU32(p[24..28]));
    }
    return Some(Funding(instrument, WordAt(p, 0), WordAt(p, 1), WordAt(p, 2)));
  }

  /** The kinds of one to three numbers; any other number is no kind and decodes to none. */
  method DecodeAmount(kind: nat, p: seq<Byte>) returns (e: Option<Event>)
    requires kind !in {TICK, TICK_ON, SUBMIT, SUBMIT_LEGACY, SUBMIT_ON, CANCEL, FUNDING, FUNDING_ON, DEPTH, VENUE_FILL}
    ensures e == Decoded(kind, p)
  {
    if kind == FUNDING_CHARGED {
      if |p| == 16 {
        return Some(FundingCharged(None, WordAt(p, 0), WordAt(p, 1)));
      } else if |p| == 20 {
        return Some(FundingCharged(Some(GetU32(p[16..20])), WordAt(p, 0), WordAt(p, 1)));
      }
    } else if kind == TIME {
      if |p| == 8 {
        return Some(TimeAt(WordAt(p, 0)));
      }
    } else if kind == FEE_RECOVERED {
      if |p| == 24 {
        return Some(FeeRecovered(WordAt(p, 0), WordAt(p, 1), GetU64(p[16..24])));
      }
    } else if kind == MARGIN_DEPOSIT {
      if |p| == 16 {
        return Some(MarginDeposit(WordAt(p, 0), WordAt(p, 1)));
      }
    }
    return None;
  }

  /** The fee is told by the length and its tag; then the fill's own three tags. */
  method DecodeVenueFill(p: seq<Byte>) returns (e: Option<Event>)
    ensures e == DecodedVenueFill(p)
  {
    var fee := Unsaid;
    if |p| == 56 {
      if p[55] == 2 {
        fee := Unreadable;
      } else if p[55] != 0 {
        return None;
      }
    } else if |p| == 64 {
      if p[55] != 1 {
        return None;
      }
      fee := Reported(WordAt(p, 7));
    } else if |p| != 55 {
      return None;
    }
    var fill := DecodeFill(p);
    if fill.Some? {
      e := Some(VenueFill(fill.value, fee));
    } else {
      e := None;
    }
  }

  method DecodeFill(p: seq<Byte>) returns (f: Option<Fill>)
    requires |p| >= 55
    ensures f == FillAt(p)
  {
    if (p[52] != 0 && p[52] != 1) || (p[53] != 0 && p[53] != 1) || (p[54] != 0 && p[54] != 1) {
      return None;
    }
    var side := if p[52] == 0 then Buy else Sell;
    var offset := if p[53] == 0 then Open else Offset.Close;
    var liquidity := if p[54] == 0 then Maker else Taker;
    return Some(Fill(Stamp(WordAt(p, 0), WordAt(p, 1)), GetU32(p[16..20]), GetU64(p[20..28]), GetU64(p[28..36]),
                     side, offset, GetI64(p[36..44]), GetI64(p[44..52]), liquidity));
  }

  /** The counts are read before the data, then the levels one by one, split where the bids end. */
  method DecodeDepth(p: seq<Byte>) returns (e: Option<Event>)
    ensures e == DecodedDepth(p)
  {
    if |p| < DEPTH_HEADER {
      return None;
    }
    if p[32] != 0 && p[32] != 1 {
      return None;
    }
    var bids, levels := BidsIn(p), BidsIn(p) + AsksIn(p);
    if |p| != DEPTH_HEADER + levels * 16 {
      return None;
    }
    var read: seq<Level> := [];
    var i := 0;
    while i < levels
      invariant 0 <= i <= levels && read == LevelsAt(p, levels)[..i]
    {
      read := read + [LevelAt(p, i)];
      i := i + 1;
    }
    assert read == LevelsAt(p, levels);
    return Some(Depth(DepthUpdate(GetI64(p[0..8]), GetU64(p[8..16]), GetU64(p[16..24]), PrevAt(p), read[..bids], read[bids..])));
  }
}
