/** Where each field stands in a journal payload and in a tick file, by byte position
    (crates/oq-core/src/event.rs, crates/oq-data/src/ticks.rs). */
module Layout {
  import opened Numbers
  import opened Bytes
  import opened Market
  import opened Events
  import opened VenueBook
  import opened DepthSide
  import TickFile
  import Codec
  import Crc

  // ----- numbers by position

  /** The number that `n` bytes from a position on spell. */
  function UnsignedAt(s: seq<Byte>, at: nat, n: nat): nat
    requires at + n <= |s|
  {
    FromLe(s[at..at + n])
  }

  /** Eight bytes as a signed number: the upper half of the range stands for the negative ones. */
  function SignedAt(s: seq<Byte>, at: nat): int
    requires at + 8 <= |s|
  {
    var u := UnsignedAt(s, at, 8);
    if u >= 0x8000_0000_0000_0000 then u - 0x1_0000_0000_0000_0000 else u
  }

  lemma {:induction false} SpelledAfter(s: seq<Byte>, n: nat)
    requires n < |s|
    ensures Spelled(s, n + 1) == ValueOf(s[0]) + 256 * Spelled(s[1..], n)
    decreases n
  {
    if n > 0 {
      SpelledAfter(s, n - 1);
      MoveDigit(ValueOf(s[0]), Spelled(s[1..], n - 1), ValueOf(s[n]), Pow256(n - 1));
    }
  }

  lemma MoveDigit(first: int, low: int, d: int, p: int)
    ensures (first + 256 * low) + d * (256 * p) == first + 256 * (low + d * p)
  {
  }

  /** The least significant byte comes first. */
  lemma LittleEndian(s: seq<Byte>)
    ensures FromLe(s) == if s == [] then 0 else ValueOf(s[0]) + 256 * FromLe(s[1..])
  {
    if s != [] {
      SpelledAfter(s, |s| - 1);
    }
  }

  lemma SliceOfSlice(s: seq<Byte>, at: nat, n: nat, a: nat, b: nat)
    requires at + n <= |s| && a <= b <= n
    ensures s[at..at + n][a..b] == s[at + a..at + b]
  {
    var part := s[at..at + n];
    forall k | 0 <= k < b - a ensures part[a..b][k] == s[at + a..at + b][k] {
    }
  }

  lemma WordIs(s: seq<Byte>, skip: nat, i: nat)
    requires skip + 8 * i + 8 <= |s|
    ensures WordAt(s[skip..], i) == SignedAt(s, skip + 8 * i)
  {
    assert s[skip..][8 * i..8 * i + 8] == s[skip + 8 * i..skip + 8 * i + 8];
  }

  lemma FirstWordIs(s: seq<Byte>, i: nat)
    requires 8 * i + 8 <= |s|
    ensures WordAt(s, i) == SignedAt(s, 8 * i)
  {
  }

  // ----- the tick record

  ghost predicate TickAt(p: seq<Byte>, at: nat, t: Tick)
    requires at + 64 <= |p|
  {
    && t.stamp.exch == SignedAt(p, at) && t.stamp.local == SignedAt(p, at + 8) && t.last == SignedAt(p, at + 16)
    && t.high == SignedAt(p, at + 24) && t.low == SignedAt(p, at + 32) && t.bid == SignedAt(p, at + 40)
    && t.ask == SignedAt(p, at + 48) && t.volume == SignedAt(p, at + 56)
  }

  lemma RecordWord(p: seq<Byte>, at: nat, r: seq<Byte>, i: nat)
    requires at + 64 <= |p| && r == p[at..at + 64] && i < 8
    ensures WordAt(r, i) == SignedAt(p, at + 8 * i)
  {
    SliceOfSlice(p, at, 64, 8 * i, 8 * i + 8);
  }

  lemma RecordIs(p: seq<Byte>, at: nat, r: seq<Byte>, t: Tick)
    requires at + 64 <= |p| && r == p[at..at + 64] && t == TickFile.TickOf(r)
    ensures TickAt(p, at, t)
  {
    RecordStamp(p, at, r, t);
    RecordPrices(p, at, r, t);
  }

  lemma RecordStamp(p: seq<Byte>, at: nat, r: seq<Byte>, t: Tick)
    requires at + 64 <= |p| && r == p[at..at + 64] && t == TickFile.TickOf(r)
    ensures t.stamp.exch == SignedAt(p, at) && t.stamp.local == SignedAt(p, at + 8) && t.last == SignedAt(p, at + 16)
  {
    RecordWord(p, at, r, 0);
    RecordWord(p, at, r, 1);
    RecordWord(p, at, r, 2);
  }

  lemma RecordPrices(p: seq<Byte>, at: nat, r: seq<Byte>, t: Tick)
    requires at + 64 <= |p| && r == p[at..at + 64] && t == TickFile.TickOf(r)
    ensures t.high == SignedAt(p, at + 24) && t.low == SignedAt(p, at + 32) && t.bid == SignedAt(p, at + 40)
    ensures t.ask == SignedAt(p, at + 48) && t.volume == SignedAt(p, at + 56)
  {
    RecordWord(p, at, r, 3);
    RecordWord(p, at, r, 4);
    RecordWord(p, at, r, 5);
    RecordWord(p, at, r, 6);
    RecordWord(p, at, r, 7);
  }

  // ----- the tick file

  /** "OQTK", version 2, two spare bytes, the count, the instrument, the checksum, four spare bytes. */
  ghost predicate FileHeaderAt(s: seq<Byte>, count: int, instrument: int, checksum: int)
    requires |s| >= 32
  {
    && s[..4] == [79, 81, 84, 75] && UnsignedAt(s, 4, 2) == 2 && UnsignedAt(s, 6, 2) == 0
    && count == UnsignedAt(s, 8, 8) && instrument == UnsignedAt(s, 16, 8) && checksum == UnsignedAt(s, 24, 4)
    && UnsignedAt(s, 28, 4) == 0
  }

  lemma MagicIs()
    ensures PutU32(TickFile.MAGIC) == [79, 81, 84, 75]
  {
    var want: seq<Byte> := [79, 81, 84, 75];
    LittleEndian([]);
    LittleEndian([75]);
    LittleEndian([84, 75]);
    LittleEndian([81, 84, 75]);
    LittleEndian(want);
    assert want[1..] == [81, 84, 75] && [81 as Byte, 84, 75][1..] == [84, 75] && [84 as Byte, 75][1..] == [75];
    FromLeRoundTrip(want);
  }

  lemma HeaderIs(count: U64, instrument: U64, checksum: U32, rest: seq<Byte>)
    ensures FileHeaderAt(TickFile.HeaderBytes(count, instrument, checksum) + rest, count, instrument, checksum)
  {
    var s := TickFile.HeaderBytes(count, instrument, checksum) + rest;
    TickFile.HeaderFields(count, instrument, checksum, rest);
    MagicIs();
    assert s[..4] == s[0..4];
    Widths();
    LeRoundTrip(2, TickFile.VERSION);
    U64RoundTrip(count);
    U64RoundTrip(instrument);
    U32RoundTrip(checksum);
    SpareIs(count, instrument, checksum, rest);
  }

  lemma SpareIs(count: U64, instrument: U64, checksum: U32, rest: seq<Byte>)
    ensures var s := TickFile.HeaderBytes(count, instrument, checksum) + rest;
      UnsignedAt(s, 6, 2) == 0 && UnsignedAt(s, 28, 4) == 0
  {
    var s := TickFile.HeaderBytes(count, instrument, checksum) + rest;
    assert s[6..8] == Le(2, 0) && s[28..32] == PutU32(0);
    Widths();
    LeRoundTrip(2, 0);
    U32RoundTrip(0);
  }

  lemma ReadTick(body: seq<Byte>, i: nat)
    requires 64 * i + 64 <= |body|
    ensures TickFile.TicksOf(body)[i] == TickFile.TickOf(body[64 * i..64 * i + 64])
  {
  }

  lemma BodyTick(body: seq<Byte>, ts: seq<Tick>, i: nat)
    requires TickFile.TicksOf(body) == ts && |body| == 64 * |ts| && i < |ts|
    ensures TickAt(body, 64 * i, ts[i])
  {
    ReadTick(body, i);
    RecordIs(body, 64 * i, body[64 * i..64 * i + 64], ts[i]);
  }

  lemma After(head: seq<Byte>, body: seq<Byte>, at: nat)
    requires at + 8 <= |body|
    ensures SignedAt(head + body, |head| + at) == SignedAt(body, at)
  {
    assert (head + body)[|head| + at..|head| + at + 8] == body[at..at + 8];
  }

  lemma TickAfter(head: seq<Byte>, body: seq<Byte>, at: nat, t: Tick)
    requires at + 64 <= |body| && TickAt(body, at, t)
    ensures TickAt(head + body, |head| + at, t)
  {
    After(head, body, at);
    After(head, body, at + 8);
    After(head, body, at + 16);
    After(head, body, at + 24);
    After(head, body, at + 32);
    After(head, body, at + 40);
    After(head, body, at + 48);
    After(head, body, at + 56);
  }

  /** A written file is its header at 0 and tick `i` at 32 + 64 i, and nothing more. */
  lemma FileIsLaidOut(instrument: U64, ts: seq<Tick>, i: nat)
    requires TickFile.AllFit(ts) && i < |ts| <= U64_MAX
    ensures var s := TickFile.FileOf(instrument, ts);
      |s| == 32 + 64 * |ts| && TickAt(s, 32 + 64 * i, ts[i])
      && FileHeaderAt(s, |ts|, instrument, Crc.Sum(s[32..]))
  {
    var body := TickFile.Body(ts);
    var head := TickFile.HeaderBytes(|ts|, instrument, Crc.Sum(body));
    assert (head + body)[32..] == body;
    HeaderIs(|ts|, instrument, Crc.Sum(body), body);
    TickFile.BodyRoundTrip(ts);
    BodyTick(body, ts, i);
    TickAfter(head, body, 64 * i, ts[i]);
  }

  // ----- the journal's events

  /** An instrument after the first `at` bytes, or nothing there when none is named. */
  ghost predicate NamedAt(p: seq<Byte>, at: nat, instrument: Option<nat>) {
    match instrument
    case None => |p| == at
    case Some(id) => |p| == at + 4 && id == UnsignedAt(p, at, 4)
  }

  ghost predicate SideAt(b: Byte, side: Market.Side) {
    match side case Buy => b == 0 case Sell => b == 1
  }

  ghost predicate OffsetAt(b: Byte, offset: Offset) {
    match offset case Open => b == 0 case Close => b == 1
  }

  ghost predicate LiquidityAt(b: Byte, l: Liquidity) {
    match l case Maker => b == 0 case Taker => b == 1
  }

  ghost predicate StampAt(p: seq<Byte>, at: nat, s: Stamp)
    requires at + 16 <= |p|
  {
    s.exch == SignedAt(p, at) && s.local == SignedAt(p, at + 8)
  }

  /** A submission: 7 with no instrument, 11 with one, and 2 in the older form, which had no offset and meant an open. */
  ghost predicate SubmitAt(kind: nat, p: seq<Byte>, e: Event)
    requires e.Submit?
  {
    && |p| >= 42
    && ((kind == 2 && |p| == 42 && e.offset.Open? && e.instrument.None?)
        || (kind == 7 && |p| == 43 && OffsetAt(p[42], e.offset) && e.instrument.None?)
        || (kind == 11 && |p| == 47 && OffsetAt(p[42], e.offset) && e.instrument.Some? && NamedAt(p, 43, e.instrument)))
    && e.id == UnsignedAt(p, 0, 8) && SideAt(p[8], e.side) && (e.price.Some? <==> p[9] == 1)
    && (e.price.Some? ==> e.price.value == SignedAt(p, 10)) && e.qty == SignedAt(p, 18) && StampAt(p, 26, e.stamp)
  }

  ghost predicate FillAt(p: seq<Byte>, f: Fill)
    requires |p| >= 55
  {
    && StampAt(p, 0, f.stamp) && f.instrument == UnsignedAt(p, 16, 4) && f.order == UnsignedAt(p, 20, 8)
    && f.trade == UnsignedAt(p, 28, 8) && f.price == SignedAt(p, 36) && f.qty == SignedAt(p, 44)
    && SideAt(p[52], f.side) && OffsetAt(p[53], f.offset) && LiquidityAt(p[54], f.liquidity)
  }

  /** A fee after a fill: nothing or 0 when none was said, 1 and the cash, 2 when it could not be read. */
  ghost predicate FeeAt(p: seq<Byte>, fee: Fee)
    requires |p| >= 55
  {
    match fee
    case Unsaid => |p| == 55 || (|p| == 56 && p[55] == 0)
    case Reported(cash) => |p| == 64 && p[55] == 1 && cash == SignedAt(p, 56)
    case Unreadable => |p| == 56 && p[55] == 2
  }

  ghost predicate LevelAt(p: seq<Byte>, i: nat, l: Level)
    requires 41 + 16 * i + 16 <= |p|
  {
    l.price == SignedAt(p, 41 + 16 * i) && l.qty == SignedAt(p, 49 + 16 * i)
  }

  /** An update: four numbers, whether the last of them counts, how many bids and asks, then the bids and the asks. */
  ghost predicate DepthAt(p: seq<Byte>, u: DepthUpdate) {
    && |p| == 41 + 16 * (|u.bids| + |u.asks|)
    && u.eventMs == SignedAt(p, 0) && u.firstId == UnsignedAt(p, 8, 8) && u.finalId == UnsignedAt(p, 16, 8)
    && (match u.prevFinalId case None => p[32] == 0 case Some(id) => p[32] == 1 && id == UnsignedAt(p, 24, 8))
    && |u.bids| == UnsignedAt(p, 33, 4) && |u.asks| == UnsignedAt(p, 37, 4)
    && (forall i :: 0 <= i < |u.bids| ==> LevelAt(p, i, u.bids[i]))
    && (forall i :: 0 <= i < |u.asks| ==> LevelAt(p, |u.bids| + i, u.asks[i]))
  }

  /** Every event's number and the place of every field. */
  ghost predicate LaidOut(kind: nat, p: seq<Byte>, e: Event) {
    match e
    case TickSeen(instrument, t) => kind == (if instrument.None? then 1 else 10) && NamedAt(p, 64, instrument) && TickAt(p, 0, t)
    case Submit(_, _, _, _, _, _, _) => SubmitAt(kind, p, e)
    case Cancel(id, stamp) => kind == 3 && |p| == 24 && id == UnsignedAt(p, 0, 8) && StampAt(p, 8, stamp)
    case Funding(instrument, at, rate, mark) =>
      kind == (if instrument.None? then 4 else 12) && NamedAt(p, 24, instrument)
      && at == SignedAt(p, 0) && rate == SignedAt(p, 8) && mark == SignedAt(p, 16)
    case FundingCharged(instrument, at, amount) =>
      kind == 13 && NamedAt(p, 16, instrument) && at == SignedAt(p, 0) && amount == SignedAt(p, 8)
    case FeeRecovered(at, amount, remaining) =>
      kind == 14 && |p| == 24 && at == SignedAt(p, 0) && amount == SignedAt(p, 8) && remaining == UnsignedAt(p, 16, 8)
    case TimeAt(at) => kind == 5 && |p| == 8 && at == SignedAt(p, 0)
    case MarginDeposit(amount, at) => kind == 6 && |p| == 16 && amount == SignedAt(p, 0) && at == SignedAt(p, 8)
    case VenueFill(f, fee) => kind == 8 && |p| >= 55 && FillAt(p, f) && FeeAt(p, fee)
    case Depth(u) => kind == 9 && DepthAt(p, u)
  }

  lemma NamedIs(p: seq<Byte>, at: nat)
    requires |p| == at || |p| == at + 4
    ensures NamedAt(p, at, Codec.TailAt(p, at))
  {
  }

  lemma TickReads(kind: nat, p: seq<Byte>, e: Event)
    requires (kind == 1 || kind == 10) && Codec.DecodedTick(kind == 10, p) == Some(e)
    ensures LaidOut(kind, p, e)
  {
    NamedIs(p, 64);
    RecordIs(p, 0, p[..64], TickFile.TickOf(p[..64]));
  }

  lemma SubmitReads(kind: nat, p: seq<Byte>, e: Event)
    requires (kind == 2 || kind == 7 || kind == 11) && Codec.DecodedSubmit(kind, p) == Some(e)
    ensures LaidOut(kind, p, e)
  {
    WordIs(p, 10, 0);
    WordIs(p, 10, 1);
    WordIs(p, 10, 2);
    WordIs(p, 10, 3);
  }

  lemma CancelReads(p: seq<Byte>, e: Event)
    requires Codec.DecodedCancel(p) == Some(e)
    ensures LaidOut(3, p, e)
  {
    WordIs(p, 8, 0);
    WordIs(p, 8, 1);
  }

  lemma FundingReads(kind: nat, p: seq<Byte>, e: Event)
    requires (kind == 4 || kind == 12) && Codec.DecodedFunding(kind == 12, p) == Some(e)
    ensures LaidOut(kind, p, e)
  {
    NamedIs(p, 24);
    FirstWordIs(p, 0);
    FirstWordIs(p, 1);
    FirstWordIs(p, 2);
  }

  lemma ChargedReads(p: seq<Byte>, e: Event)
    requires Codec.DecodedCharged(p) == Some(e)
    ensures LaidOut(13, p, e)
  {
    NamedIs(p, 16);
    FirstWordIs(p, 0);
    FirstWordIs(p, 1);
  }

  lemma RecoveredReads(p: seq<Byte>, e: Event)
    requires Codec.DecodedRecovered(p) == Some(e)
    ensures LaidOut(14, p, e)
  {
    FirstWordIs(p, 0);
    FirstWordIs(p, 1);
  }

  lemma FillReads(p: seq<Byte>)
    requires |p| >= 55 && Codec.FillAt(p).Some?
    ensures FillAt(p, Codec.FillAt(p).value)
  {
    FirstWordIs(p, 0);
    FirstWordIs(p, 1);
  }

  lemma VenueFillReads(p: seq<Byte>, e: Event)
    requires Codec.DecodedVenueFill(p) == Some(e)
    ensures LaidOut(8, p, e)
  {
    FillReads(p);
    if |p| == 64 {
      FirstWordIs(p, 7);
    }
  }

  lemma LevelIs(p: seq<Byte>, n: nat, i: nat)
    requires i < n && 41 + 16 * n <= |p|
    ensures LevelAt(p, i, Codec.LevelsAt(p, n)[i])
  {
  }

  lemma DepthReads(p: seq<Byte>, e: Event)
    requires Codec.DecodedDepth(p) == Some(e)
    ensures LaidOut(9, p, e)
  {
    var u := e.update;
    var m, n := Codec.BidsIn(p), Codec.AsksIn(p);
    var ls := Codec.LevelsAt(p, m + n);
    forall i | 0 <= i < |u.bids| ensures LevelAt(p, i, u.bids[i]) {
      LevelIs(p, m + n, i);
    }
    forall i | 0 <= i < |u.asks| ensures LevelAt(p, |u.bids| + i, u.asks[i]) {
      LevelIs(p, m + n, m + i);
    }
  }

  /** Whatever decodes has its fields at these places. */
  lemma DecodedIsLaidOut(kind: nat, p: seq<Byte>, e: Event)
    requires Codec.Decoded(kind, p) == Some(e)
    ensures LaidOut(kind, p, e)
  {
    if kind == 1 || kind == 10 {
      TickReads(kind, p, e);
    } else if kind == 2 || kind == 7 || kind == 11 {
      SubmitReads(kind, p, e);
    } else if kind == 3 {
      CancelReads(p, e);
    } else if kind == 4 || kind == 12 {
      FundingReads(kind, p, e);
    } else if kind == 13 {
      ChargedReads(p, e);
    } else if kind == 14 {
      RecoveredReads(p, e);
    } else if kind == 8 {
      VenueFillReads(p, e);
    } else if kind == 9 {
      DepthReads(p, e);
    } else {
      ShortReads(kind, p, e);
    }
  }

  lemma ShortReads(kind: nat, p: seq<Byte>, e: Event)
    requires Codec.Decoded(kind, p) == Some(e)
    requires kind !in {1, 2, 3, 4, 7, 8, 9, 10, 11, 12, 13, 14}
    ensures LaidOut(kind, p, e)
  {
    FirstWordIs(p, 0);
    if kind == 6 {
      FirstWordIs(p, 1);
    }
  }

  /** Every event that can be written is laid out so. */
  lemma EncodedIsLaidOut(e: Event)
    requires Codec.Encodable(e)
    ensures LaidOut(Codec.Kind(e), Codec.Encoded(e), e)
  {
    Codec.EventRoundTrip(e);
    DecodedIsLaidOut(Codec.Kind(e), Codec.Encoded(e), e);
  }

  /** A missing price is written as zero. */
  lemma MissingPriceIsZero(e: Event)
    requires e.Submit? && Codec.Encodable(e) && e.price.None?
    ensures |Codec.Encoded(e)| >= 43 && SignedAt(Codec.Encoded(e), 10) == 0
  {
    var rest := [Codec.OffsetByte(e.offset)] + Codec.Tail(e.instrument);
    var p := Codec.SubmitBody(e.id, e.side, e.price, e.qty, e.stamp) + rest;
    Codec.SubmitBodyReads(e.id, e.side, e.price, e.qty, e.stamp, rest);
    WordIs(p, 10, 0);
  }
}
