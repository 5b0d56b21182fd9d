/** The streaming reader: one block in memory at a time, the same ticks and the same first
    fault as decoding the file whole (crates/oq-data/src/ticks.rs). */
module TickReader {
  import opened Folding
  import opened Numbers
  import opened Bytes
  import opened Market
  import opened TickFile
  import Crc

  // ----- a stream of ticks in exchange-time order

  /** The ticks from `i` on, or the first of them that goes back in time. */
  function StreamFrom(ts: seq<Tick>, i: nat): Result<seq<Tick>, FileError>
    decreases |ts| - i
  {
    if i >= |ts| then Ok([])
    else if i > 0 && ts[i].stamp.exch < ts[i - 1].stamp.exch then Err(OutOfOrder(i, ts[i - 1].stamp.exch, ts[i].stamp.exch))
    else Cons(ts[i], StreamFrom(ts, i + 1))
  }

  function Cons(t: Tick, r: Result<seq<Tick>, FileError>): Result<seq<Tick>, FileError> {
    match r
    case Ok(ts) => Ok([t] + ts)
    case Err(e) => Err(e)
  }

  predicate Follows(ts: seq<Tick>, i: nat)
    requires i < |ts|
  {
    i > 0 ==> ts[i - 1].stamp.exch <= ts[i].stamp.exch
  }

  ghost predicate InOrder(ts: seq<Tick>) {
    forall i :: 0 <= i < |ts| ==> Follows(ts, i)
  }

  /** The stream is the ticks themselves exactly when they are in order, and otherwise names
      the first that is not. */
  lemma {:induction false} StreamMeaning(ts: seq<Tick>, i: nat)
    requires i <= |ts|
    ensures StreamFrom(ts, i).Ok? <==> forall j :: i <= j < |ts| ==> Follows(ts, j)
    ensures StreamFrom(ts, i).Ok? ==> StreamFrom(ts, i).value == ts[i..]
    ensures StreamFrom(ts, i).Err? ==> var e := StreamFrom(ts, i).error;
      e.OutOfOrder? && i <= e.index < |ts| && !Follows(ts, e.index) && (forall j :: i <= j < e.index ==> Follows(ts, j))
      && e.previous == ts[e.index - 1].stamp.exch && e.found == ts[e.index].stamp.exch
    decreases |ts| - i
  {
    if i < |ts| && Follows(ts, i) {
      StreamMeaning(ts, i + 1);
      assert ts[i..] == [ts[i]] + ts[i + 1..];
    }
  }

  method NewStream(ts: seq<Tick>) returns (r: Result<seq<Tick>, FileError>)
    ensures r == StreamFrom(ts, 0)
  {
    StreamMeaning(ts, 0);
    var i := 0;
    while i + 1 < |ts|
      invariant 0 <= i && (ts == [] || i < |ts|)
      invariant forall j :: 0 <= j <= i && j < |ts| ==> Follows(ts, j)
    {
      if ts[i + 1].stamp.exch < ts[i].stamp.exch {
        assert !Follows(ts, i + 1);
        return Err(OutOfOrder(i + 1, ts[i].stamp.exch, ts[i + 1].stamp.exch));
      }
      i := i + 1;
    }
    return Ok(ts);
  }

  // ----- what the reader yields

  datatype Item = End | Got(tick: Tick) | Fault(error: FileError)

  /** What a file holds of the records its header promises, and their checksum if it holds
      them all. */
  datatype Source = Source(ticks: seq<Tick>, sum: int)

  function Held(file: seq<Byte>, h: Header): (n: nat)
    ensures n <= h.count
    ensures 32 <= |file| ==> 32 + 64 * n <= |file|
    ensures 32 <= |file| && n < h.count ==> |file| < 32 + 64 * (n + 1)
  {
    if |file| < 32 then 0 else Min(h.count, (|file| - 32) / 64)
  }

  ghost function SourceOf(file: seq<Byte>, h: Header): (s: Source)
    requires HEADER_LEN <= |file|
    ensures |s.ticks| == Held(file, h)
  {
    var n := Held(file, h);
    Source(TicksOf(file[32..32 + 64 * n]), if n == h.count then Crc.Sum(file[32..32 + 64 * n]) else 0)
  }

  /** Where the block that holds record `i` ends. */
  function BlockEnd(count: nat, i: nat): (e: nat)
    ensures i < count ==> i < e <= count
  {
    Min(count, (i / RECORDS_PER_BLOCK + 1) * RECORDS_PER_BLOCK)
  }

  function BlockStart(i: nat): nat {
    i / RECORDS_PER_BLOCK * RECORDS_PER_BLOCK
  }

  /** The item that follows `i` good ticks. A block is read whole, and the checksum is judged
      with the last one. */
  function Outcome(s: Source, h: Header, i: nat): Item {
    if i >= h.count then End
    else if |s.ticks| < BlockEnd(h.count, i) then Fault(Truncated(ExpectedLen(h.count), 32 + 64 * BlockStart(i)))
    else if BlockEnd(h.count, i) == h.count && s.sum != h.checksum then Fault(ChecksumMismatch(h.checksum, s.sum))
    else if !Follows(s.ticks, i) then Fault(OutOfOrder(i, s.ticks[i - 1].stamp.exch, s.ticks[i].stamp.exch))
    else Got(s.ticks[i])
  }

  /** Collecting the reader from `i` on: every tick, or the first fault. */
  function CollectedFrom(s: Source, h: Header, i: nat): Result<seq<Tick>, FileError>
    decreases h.count - i
  {
    match Outcome(s, h, i)
    case End => Ok([])
    case Fault(e) => Err(e)
    case Got(t) => Cons(t, CollectedFrom(s, h, i + 1))
  }

  ghost function Collected(file: seq<Byte>, h: Header): Result<seq<Tick>, FileError>
    requires HEADER_LEN <= |file|
  {
    CollectedFrom(SourceOf(file, h), h, 0)
  }

  // ----- the reader agrees with decoding whole

  predicate Whole(s: Source, h: Header) {
    |s.ticks| == h.count && s.sum == h.checksum
  }

  lemma HeldAll(file: seq<Byte>, h: Header)
    requires InMemory(file) && HEADER_LEN <= |file|
    ensures Held(file, h) == h.count <==> ExpectedLen(h.count) <= |file|
    ensures Held(file, h) == h.count ==> Region(file, h.count) == file[32..32 + 64 * h.count]
  {
  }

  /** Decoding whole asks for every record and for the checksum. */
  lemma DecodedSource(file: seq<Byte>, h: Header)
    requires InMemory(file) && HeaderOf(file) == Ok(h)
    ensures Decoded(file).Ok? <==> Whole(SourceOf(file, h), h)
    ensures Decoded(file).Ok? ==> Decoded(file).value.ticks == SourceOf(file, h).ticks
  {
    HeldAll(file, h);
    if Held(file, h) == h.count {
      SourceWhenWhole(file, h, Region(file, h.count));
    } else {
      assert |SourceOf(file, h).ticks| < h.count;
    }
  }

  lemma SourceWhenWhole(file: seq<Byte>, h: Header, body: seq<Byte>)
    requires HEADER_LEN <= |file| && Held(file, h) == h.count && body == file[32..32 + 64 * h.count]
    ensures SourceOf(file, h) == Source(TicksOf(body), Crc.Sum(body))
  {
  }

  lemma {:induction false} WholeCollects(s: Source, h: Header, i: nat)
    requires Whole(s, h) && i <= h.count
    ensures CollectedFrom(s, h, i) == StreamFrom(s.ticks, i)
    decreases h.count - i
  {
    if i < h.count {
      WholeCollects(s, h, i + 1);
    }
  }

  /** A file that does not decode faults at the latest at its last record. */
  lemma {:induction false} PartialFaults(s: Source, h: Header, i: nat)
    requires !Whole(s, h) && |s.ticks| <= h.count && i < h.count
    ensures CollectedFrom(s, h, i).Err?
    decreases h.count - i
  {
    if i + 1 < h.count {
      PartialFaults(s, h, i + 1);
    } else {
      assert BlockEnd(h.count, i) == h.count;
    }
  }

  /** For every file that promises a record: collecting the reader succeeds exactly when the
      file decodes whole and its ticks are in order, and then yields the same ticks. */
  lemma ReaderIsDecode(file: seq<Byte>, h: Header)
    requires InMemory(file) && HeaderOf(file) == Ok(h) && h.count > 0
    ensures Collected(file, h).Ok? <==> Decoded(file).Ok? && InOrder(Decoded(file).value.ticks)
    ensures Collected(file, h).Ok? ==> Collected(file, h).value == Decoded(file).value.ticks
  {
    var s := SourceOf(file, h);
    DecodedSource(file, h);
    if Whole(s, h) {
      WholeCollects(s, h, 0);
      StreamMeaning(s.ticks, 0);
    } else {
      PartialFaults(s, h, 0);
    }
  }

  /** When the checksum verifies, the reader and the whole-file stream report the same first
      tick out of order. */
  lemma SameFirstFault(file: seq<Byte>, h: Header)
    requires InMemory(file) && HeaderOf(file) == Ok(h) && Decoded(file).Ok?
    ensures Collected(file, h) == StreamFrom(Decoded(file).value.ticks, 0)
  {
    DecodedSource(file, h);
    WholeCollects(SourceOf(file, h), h, 0);
  }

  /** What a reported fault says holds of the records: how many bytes were promised and where the block starts that
      runs short, the two checksums of a whole body, or two neighbours out of order and the times they show. */
  predicate IsTrue(s: Source, h: Header, e: FileError) {
    match e
    case Truncated(needed, available) =>
      && |s.ticks| < h.count && needed == Min(32 + 64 * h.count, U64_MAX) && (available - 32) % (64 * 8192) == 0
      && available <= 32 + 64 * |s.ticks| < available + 64 * 8192
    case ChecksumMismatch(expected, computed) =>
      |s.ticks| == h.count && expected == h.checksum && computed == s.sum && expected != computed
    case OutOfOrder(i, previous, found) =>
      0 < i < |s.ticks| && previous == s.ticks[i - 1].stamp.exch && found == s.ticks[i].stamp.exch && found < previous
    case _ => false
  }

  lemma ShortBlock(n: nat, count: nat, i: nat)
    requires i <= n < BlockEnd(count, i) && i < count
    ensures 64 * BlockStart(i) % (64 * 8192) == 0 && BlockStart(i) <= n < BlockStart(i) + 8192
  {
    WholeBlocks(i / 8192);
  }

  lemma WholeBlocks(q: nat)
    ensures 64 * (q * 8192) % (64 * 8192) == 0
  {
    assert 64 * (q * 8192) == q * 524288;
    assert q * 524288 % 524288 == 0;
  }

  lemma {:induction false} FaultsAreTrue(s: Source, h: Header, i: nat)
    requires i <= |s.ticks| <= h.count
    ensures CollectedFrom(s, h, i).Err? ==> IsTrue(s, h, CollectedFrom(s, h, i).error)
    decreases h.count - i
  {
    if i < h.count {
      if |s.ticks| < BlockEnd(h.count, i) {
        ShortBlock(|s.ticks|, h.count, i);
      } else if Outcome(s, h, i).Got? {
        FaultsAreTrue(s, h, i + 1);
      }
    }
  }

  /** Whatever fault the reader reports of a file is true of its records. */
  lemma ReportedFaultIsTrue(file: seq<Byte>, h: Header)
    requires InMemory(file) && HeaderOf(file) == Ok(h)
    ensures Collected(file, h).Err? ==> IsTrue(SourceOf(file, h), h, Collected(file, h).error)
    ensures |SourceOf(file, h).ticks| == h.count ==> SourceOf(file, h).sum == Crc.Sum(file[32..32 + 64 * h.count])
  {
    FaultsAreTrue(SourceOf(file, h), h, 0);
  }

  /** With no records promised the reader never looks at the checksum: it always succeeds,
      while decoding succeeds only for a checksum of zero. */
  lemma EmptyFileIsUnchecked(file: seq<Byte>, h: Header)
    requires InMemory(file) && HeaderOf(file) == Ok(h) && h.count == 0
    ensures Collected(file, h) == Ok([])
    ensures Decoded(file).Ok? <==> h.checksum == 0
  {
    assert Region(file, 0) == [];
    Crc.SumOfNothing();
  }

  // ----- the reader itself

  function Reversed(s: seq<Tick>): (r: seq<Tick>)
    ensures |r| == |s|
  {
    if s == [] then [] else Reversed(s[1..]) + [s[0]]
  }

  /** The source is what the file holds; folded, so the reader's methods do not look inside. */
  ghost predicate Backed(file: seq<Byte>, h: Header, s: Source) {
    forall k {:trigger Clasp(k)} :: Clasp(k) ==> InMemory(file) && HEADER_LEN <= |file| && s == SourceOf(file, h)
  }

  lemma Unback(file: seq<Byte>, h: Header, s: Source)
    ensures Backed(file, h, s) <==> InMemory(file) && HEADER_LEN <= |file| && s == SourceOf(file, h)
  {
    assert Clasp(0);
  }

  /** What is pending is what comes next, and ends where its block ends. */
  ghost predicate Holding(s: Source, h: Header, pending: seq<Tick>, taken: int, previous: Option<int>, i: nat) {
    && 0 <= taken <= |s.ticks| <= h.count && i + |pending| == taken && pending == Reversed(s.ticks[i..taken])
    && (pending != [] ==> taken == BlockEnd(h.count, i))
    && (pending == [] ==> i % RECORDS_PER_BLOCK == 0 || i == h.count)
    && previous == (if i == 0 then None else Some(s.ticks[i - 1].stamp.exch))
  }

  /** `Holding`, folded for the same reason. */
  ghost predicate At(s: Source, h: Header, pending: seq<Tick>, taken: int, previous: Option<int>, i: nat) {
    forall k {:trigger Seal(k)} :: Seal(k) ==> Holding(s, h, pending, taken, previous, i)
  }

  lemma Unfold(s: Source, h: Header, pending: seq<Tick>, taken: int, previous: Option<int>, i: nat)
    ensures At(s, h, pending, taken, previous, i) <==> Holding(s, h, pending, taken, previous, i)
  {
    assert Seal(0);
  }

  /** Where the reader stands, in numbers. */
  lemma Standing(s: Source, h: Header, pending: seq<Tick>, taken: int, previous: Option<int>, i: nat)
    requires At(s, h, pending, taken, previous, i)
    ensures 0 <= taken <= |s.ticks| <= h.count && i + |pending| == taken
    ensures pending == [] ==> i % RECORDS_PER_BLOCK == 0 || i == h.count
    ensures pending != [] ==> taken == BlockEnd(h.count, i)
  {
    Unfold(s, h, pending, taken, previous, i);
  }

  /** Popping yields the next tick, or finds it out of order, and steps past it. */
  lemma Popped(s: Source, h: Header, pending: seq<Tick>, taken: int, previous: Option<int>, i: nat)
    requires At(s, h, pending, taken, previous, i) && pending != [] && (taken == h.count ==> s.sum == h.checksum)
    ensures var tick := pending[|pending| - 1];
      if previous.Some? && tick.stamp.exch < previous.value
      then Outcome(s, h, i) == Fault(OutOfOrder(i, previous.value, tick.stamp.exch))
      else Outcome(s, h, i) == Got(tick) && At(s, h, pending[..|pending| - 1], taken, Some(tick.stamp.exch), i + 1)
  {
    Unfold(s, h, pending, taken, previous, i);
    PopFront(s.ticks[i..taken]);
    assert s.ticks[i..taken][1..] == s.ticks[i + 1..taken];
    Yields(s, h, i);
    Advance(h.count, i);
    var tick := pending[|pending| - 1];
    Unfold(s, h, pending[..|pending| - 1], taken, Some(tick.stamp.exch), i + 1);
  }

  /** Taking a block when nothing is pending. */
  lemma Refilled(file: seq<Byte>, h: Header, s: Source, previous: Option<int>, i: nat, n: nat, block: seq<Byte>)
    requires Backed(file, h, s) && At(s, h, [], i, previous, i) && n > 0 && i + n <= |s.ticks|
    requires i + n == BlockEnd(h.count, i)
    requires 32 + 64 * (i + n) <= |file| && block == file[32 + 64 * i..32 + 64 * (i + n)]
    ensures |block| % 64 == 0 && At(s, h, BlockReversed(block), i + n, previous, i) && BlockReversed(block) != []
  {
    Unfold(s, h, [], i, previous, i);
    BlockTicks(file, h, s, i, n, block);
    Unfold(s, h, BlockReversed(block), i + n, previous, i);
  }

  /** A block's ticks, last first. */
  ghost function BlockReversed(block: seq<Byte>): seq<Tick>
    requires |block| % 64 == 0
  {
    Reversed(TicksOf(block))
  }

  method ReadBlock(block: seq<Byte>) returns (r: seq<Tick>)
    requires |block| % 64 == 0
    ensures r == BlockReversed(block)
  {
    var ticks := DecodeBlock(block);
    r := ReverseTicks(ticks);
  }

  class Reader {
    const file: seq<Byte>
    const header: Header
    ghost const source: Source
    var crc: Crc.Accumulator
    var pending: seq<Tick>
    var remaining: nat
    var previous: Option<int>
    var index: nat
    var failed: bool

    /** Records taken from the file so far. */
    ghost function Taken(): int
      reads this
    {
      header.count - remaining
    }

    ghost predicate Placed()
      reads this
    {
      Located() && (remaining == 0 && header.count > 0 ==> source.sum == header.checksum)
    }

    ghost predicate Located()
      reads this
    {
      Backed(file, header, source) && At(source, header, pending, Taken(), previous, index)
    }

    ghost predicate Summed()
      reads this, crc
    {
      remaining > 0 ==> Fed(crc, file, Taken())
    }

    ghost predicate Valid()
      reads this, crc
    {
      failed || (Placed() && Summed())
    }

    constructor (file: seq<Byte>, header: Header)
      requires InMemory(file) && HeaderOf(file) == Ok(header)
      ensures Valid() && fresh(crc) && this.file == file && this.header == header && index == 0 && !failed
      ensures source == SourceOf(file, header)
    {
      this.file, this.header := file, header;
      source := SourceOf(file, header);
      pending, remaining, previous, index, failed := [], header.count, None, 0, false;
      crc := new Crc.Accumulator();
      new;
      Unback(file, header, source);
      Unfold(source, header, [], 0, None, 0);
      assert file[32..32 + 64 * 0] == [];
    }

    /** Take one block of whole records, and judge the checksum with the last. */
    method Fill() returns (r: Loaded)
      requires Placed() && Summed() && pending == []
      modifies this`crc, this`pending, this`remaining, crc
      ensures crc == old(crc) || fresh(crc)
      ensures r.NoMore? <==> index >= header.count
      ensures r.Broken? ==> Outcome(source, header, index) == Fault(r.error)
      ensures !r.Broken? ==> Placed() && Summed()
      ensures r.Ready? ==> pending != []
    {
      Standing(source, header, pending, Taken(), previous, index);
      if remaining == 0 {
        return NoMore;
      }
      var records := Min(remaining, RECORDS_PER_BLOCK);
      FreshBlock(header.count, index);
      HeldOnFile(file, header, source, index + records);
      var at, want := HEADER_LEN + (header.count - remaining) * RECORD_LEN, records * RECORD_LEN;
      if |file| < at + want {
        return Broken(Truncated(ExpectedLen(header.count), HEADER_LEN + (header.count - remaining) * RECORD_LEN));
      }
      r := Load(file[at..at + want], records);
    }

    /** Read, checksum, decode and reverse, so that popping yields the front; with the last
        block, judge the checksum. */
    method Load(block: seq<Byte>, records: nat) returns (r: Loaded)
      requires Placed() && Summed() && pending == [] && 0 < records <= remaining && index + records <= |source.ticks|
      requires 32 + 64 * (index + records) <= |file| && block == file[32 + 64 * index..32 + 64 * (index + records)]
      requires index + records == BlockEnd(header.count, index)
      modifies this`crc, this`pending, this`remaining, crc
      ensures crc == old(crc) || fresh(crc)
      ensures !r.NoMore?
      ensures r.Broken? ==> Outcome(source, header, index) == Fault(r.error)
      ensures r.Ready? ==> Placed() && Summed() && pending != []
    {
      Standing(source, header, pending, Taken(), previous, index);
      Take(block, records);
      Standing(source, header, pending, Taken(), previous, index);
      if remaining == 0 {
        var computed := Judge();
        if computed != header.checksum {
          Mismatch(source, header, index);
          return Broken(ChecksumMismatch(header.checksum, computed));
        }
      }
      return Ready;
    }

    method Take(block: seq<Byte>, records: nat)
      requires Located() && Fed(crc, file, index) && pending == [] && 0 < records <= remaining
      requires index + records <= |source.ticks|
      requires 32 + 64 * (index + records) <= |file| && block == file[32 + 64 * index..32 + 64 * (index + records)]
      requires index + records == BlockEnd(header.count, index)
      modifies this`pending, this`remaining, crc
      ensures Located() && Fed(crc, file, Taken()) && pending != [] && remaining == old(remaining) - records
    {
      Standing(source, header, pending, Taken(), previous, index);
      Refilled(file, header, source, previous, index, records, block);
      ghost var n := index + records;
      Feed(block, records, n);
      pending := ReadBlock(block);
      remaining := remaining - records;
      assert At(source, header, pending, n, previous, index);
      assert Taken() == n;
      assert Fed(crc, file, n);
    }

    method Feed(block: seq<Byte>, records: nat, ghost n: nat)
      requires Fed(crc, file, index) && n == index + records
      requires 32 + 64 * (index + records) <= |file| && block == file[32 + 64 * index..32 + 64 * (index + records)]
      modifies crc
      ensures Fed(crc, file, n)
    {
      crc.Update(block, file[32..32 + 64 * index]);
      RegionPart(file, 32 + 64 * index, 32 + 64 * (index + records));
    }

    /** The checksum of everything read; the accumulator is replaced by a new one. */
    method Judge() returns (computed: U32)
      requires Backed(file, header, source) && |source.ticks| == header.count
      requires Fed(crc, file, header.count)
      modifies this`crc
      ensures fresh(crc) && computed == source.sum
    {
      computed := crc.Finish(file[32..32 + 64 * header.count]);
      Unback(file, header, source);
      crc := new Crc.Accumulator();
    }

    /** The next tick, the first fault, or the end; after a fault, only the end. */
    method Next() returns (r: Item)
      requires Valid()
      modifies this, crc
      ensures Valid() && (crc == old(crc) || fresh(crc))
      ensures r == if old(failed) then End else Outcome(source, header, old(index))
      ensures failed == (old(failed) || r.Fault?) && index == old(index) + if r.Got? then 1 else 0
    {
      if failed {
        return End;
      }
      if pending == [] {
        var loaded := Fill();
        match loaded
        case NoMore => return End;
        case Broken(e) =>
          failed := true;
          return Fault(e);
        case Ready =>
      }
      r := Pop();
    }

    method Pop() returns (r: Item)
      requires !failed && Placed() && Summed() && pending != []
      modifies this`pending, this`previous, this`index, this`failed
      ensures Valid()
      ensures r == Outcome(source, header, old(index))
      ensures failed == r.Fault? && index == old(index) + if r.Got? then 1 else 0
    {
      Standing(source, header, pending, Taken(), previous, index);
      ghost var taken := Taken();
      Popped(source, header, pending, taken, previous, index);
      var tick := pending[|pending| - 1];
      pending := pending[..|pending| - 1];
      if previous.Some? && tick.stamp.exch < previous.value {
        failed := true;
        return Fault(OutOfOrder(index, previous.value, tick.stamp.exch));
      }
      previous := Some(tick.stamp.exch);
      index := index + 1;
      assert Taken() == taken;
      return Got(tick);
    }
  }

  datatype Loaded = NoMore | Ready | Broken(error: FileError)

  /** The accumulator has taken exactly the first `n` records. */
  ghost predicate Fed(crc: Crc.Accumulator, file: seq<Byte>, n: int)
    reads crc
  {
    0 <= n && 32 + 64 * n <= |file| && crc.Holds(file[32..32 + 64 * n])
  }

  lemma HeldOnFile(file: seq<Byte>, h: Header, s: Source, n: nat)
    requires Backed(file, h, s) && n <= h.count
    ensures n <= |s.ticks| <==> 32 + 64 * n <= |file|
  {
    Unback(file, h, s);
  }

  lemma RowsAreTicks(file: seq<Byte>, h: Header, s: Source, p: nat, q: nat)
    requires Backed(file, h, s) && p <= q <= |s.ticks| && 32 + 64 * q <= |file|
    ensures TicksOf(file[32 + 64 * p..32 + 64 * q]) == s.ticks[p..q]
  {
    Unback(file, h, s);
    var n := |s.ticks|;
    var all := file[32..32 + 64 * n];
    assert all[64 * p..64 * q] == file[32 + 64 * p..32 + 64 * q];
    TicksSlice(all, p, q);
  }

  lemma BlockTicks(file: seq<Byte>, h: Header, s: Source, i: nat, n: nat, block: seq<Byte>)
    requires Backed(file, h, s) && i + n <= |s.ticks| && 32 + 64 * (i + n) <= |file|
    requires block == file[32 + 64 * i..32 + 64 * (i + n)]
    ensures TicksOf(block) == s.ticks[i..i + n]
  {
    RowsAreTicks(file, h, s, i, i + n);
  }

  lemma Yields(s: Source, h: Header, i: nat)
    requires i < h.count && BlockEnd(h.count, i) <= |s.ticks|
    requires BlockEnd(h.count, i) == h.count ==> s.sum == h.checksum
    ensures Outcome(s, h, i) == if !Follows(s.ticks, i)
      then Fault(OutOfOrder(i, s.ticks[i - 1].stamp.exch, s.ticks[i].stamp.exch)) else Got(s.ticks[i])
  {
  }

  lemma Mismatch(s: Source, h: Header, i: nat)
    requires i < h.count && BlockEnd(h.count, i) == h.count <= |s.ticks| && s.sum != h.checksum
    ensures Outcome(s, h, i) == Fault(ChecksumMismatch(h.checksum, s.sum))
  {
  }

  lemma FreshBlock(count: nat, i: nat)
    requires i < count && i % RECORDS_PER_BLOCK == 0
    ensures BlockStart(i) == i && BlockEnd(count, i) == i + Min(count - i, RECORDS_PER_BLOCK)
  {
  }

  /** Yielding one more tick either stays in the block or finishes it. */
  lemma Advance(count: nat, i: nat)
    requires i < count
    ensures i + 1 < BlockEnd(count, i) ==> BlockEnd(count, i + 1) == BlockEnd(count, i)
    ensures i + 1 == BlockEnd(count, i) ==> (i + 1) % RECORDS_PER_BLOCK == 0 || i + 1 == count
  {
  }

  lemma PopFront(s: seq<Tick>)
    requires s != []
    ensures Reversed(s)[|s| - 1] == s[0] && Reversed(s)[..|s| - 1] == Reversed(s[1..])
  {
  }

  method ReverseTicks(s: seq<Tick>) returns (r: seq<Tick>)
    ensures r == Reversed(s)
  {
    r := [];
    var i := |s|;
    while i > 0
      invariant 0 <= i <= |s| && r == Reversed(s[i..])
    {
      i := i - 1;
      assert s[i..][1..] == s[i + 1..];
      r := r + [s[i]];
    }
    assert s[0..] == s;
  }

  /** What a caller gets by collecting a fresh reader. */
  method Collect(file: seq<Byte>) returns (r: Result<seq<Tick>, FileError>)
    requires InMemory(file)
    ensures HeaderOf(file).Ok? ==> r == Collected(file, HeaderOf(file).value)
    ensures HeaderOf(file).Err? ==> r.Err?
  {
    if |file| < HEADER_LEN {
      return Err(Truncated(HEADER_LEN, 0));
    }
    HeaderIsPrefix(file);
    var header := ReadHeader(file[..HEADER_LEN]);
    if header.Err? {
      return Err(header.error);
    }
    var reader := new Reader(file, header.value);
    r := Drain(reader);
  }

  method Drain(reader: Reader) returns (r: Result<seq<Tick>, FileError>)
    requires reader.Valid() && !reader.failed && reader.index == 0
    modifies reader, reader.crc
    ensures r == CollectedFrom(reader.source, reader.header, 0)
  {
    var ticks: seq<Tick> := [];
    ghost var s, h := reader.source, reader.header;
    PrependNothing(CollectedFrom(s, h, 0));
    while true
      invariant reader.Valid() && !reader.failed && reader.index == |ticks|
      invariant reader.crc == old(reader.crc) || fresh(reader.crc)
      invariant CollectedFrom(s, h, 0) == Prepended(ticks, CollectedFrom(s, h, |ticks|))
      decreases h.count - |ticks|
    {
      CollectStep(s, h, ticks);
      var item := reader.Next();
      match item
      case End => return Ok(ticks);
      case Fault(e) => return Err(e);
      case Got(t) => ticks := ticks + [t];
    }
  }

  function Prepended(ts: seq<Tick>, r: Result<seq<Tick>, FileError>): Result<seq<Tick>, FileError> {
    match r
    case Ok(us) => Ok(ts + us)
    case Err(e) => Err(e)
  }

  lemma PrependNothing(r: Result<seq<Tick>, FileError>)
    ensures Prepended([], r) == r
  {
    if r.Ok? {
      assert [] + r.value == r.value;
    }
  }

  lemma CollectStep(s: Source, h: Header, ts: seq<Tick>)
    ensures var rest := Prepended(ts, CollectedFrom(s, h, |ts|));
      match Outcome(s, h, |ts|)
      case End => rest == Ok(ts)
      case Fault(e) => rest == Err(e)
      case Got(t) => rest == Prepended(ts + [t], CollectedFrom(s, h, |ts| + 1)) && |ts| < h.count
  {
    var r := CollectedFrom(s, h, |ts| + 1);
    assert ts + [] == ts;
    match Outcome(s, h, |ts|)
    case Got(t) =>
      if r.Ok? {
        assert ts + ([t] + r.value) == ts + [t] + r.value;
      }
    case _ =>
  }
}
