/** The tick file: written whole, decoded whole, or read block by block
    (crates/oq-data/src/ticks.rs). */
module TickFile {
  import opened Numbers
  import opened Bytes
  import opened Market
  import Crc

  const MAGIC: int := 0x4B54_514F
  const VERSION: int := 2
  const HEADER_LEN := 32
  const RECORD_LEN := 64
  const RECORDS_PER_BLOCK := 8192

  datatype Header = Header(count: U64, instrument: U64, checksum: U32)

  datatype File = File(header: Header, ticks: seq<Tick>)

  datatype FileError =
    | Truncated(needed: int, available: int)
    | BadMagic(found: int)
    | UnknownVersion(found: int)
    | ChecksumMismatch(expected: int, computed: int)
    | OutOfOrder(index: int, previous: int, found: int)

  predicate IsI64(x: int) {
    I64_MIN <= x <= I64_MAX
  }

  /** A tick as the source holds one: every field a 64-bit integer. */
  predicate Fits(t: Tick) {
    IsI64(t.stamp.exch) && IsI64(t.stamp.local) && IsI64(t.last) && IsI64(t.high) && IsI64(t.low)
    && IsI64(t.bid) && IsI64(t.ask) && IsI64(t.volume)
  }

  predicate AllFit(ts: seq<Tick>) {
    forall i :: 0 <= i < |ts| ==> Fits(ts[i])
  }

  // ----- records

  /** Eight little-endian integers, in this order. */
  function Fields(t: Tick): seq<I64>
    requires Fits(t)
  {
    [t.stamp.exch, t.stamp.local, t.last, t.high, t.low, t.bid, t.ask, t.volume]
  }

  function Record(t: Tick): (s: seq<Byte>)
    requires Fits(t)
    ensures |s| == 64
  {
    Words(Fields(t))
  }

  function TickOf(s: seq<Byte>): (t: Tick)
    requires |s| == 64
    ensures Fits(t)
  {
    Tick(Stamp(WordAt(s, 0), WordAt(s, 1)), WordAt(s, 2), WordAt(s, 3), WordAt(s, 4), WordAt(s, 5), WordAt(s, 6), WordAt(s, 7))
  }

  lemma FieldAt(t: Tick, i: nat)
    requires Fits(t) && i < 8
    ensures WordAt(Record(t), i) == Fields(t)[i]
  {
    WordsRoundTrip(Fields(t), [], i);
    assert Record(t) + [] == Record(t);
  }

  lemma RecordRoundTrip(t: Tick)
    requires Fits(t)
    ensures TickOf(Record(t)) == t
  {
    FieldAt(t, 0);
    FieldAt(t, 1);
    FieldAt(t, 2);
    FieldAt(t, 3);
    FieldAt(t, 4);
    FieldAt(t, 5);
    FieldAt(t, 6);
    FieldAt(t, 7);
  }

  lemma RecordBack(s: seq<Byte>)
    requires |s| == 64
    ensures Record(TickOf(s)) == s
  {
    WordsBack(s, 8);
    assert Fields(TickOf(s)) == ReadWords(s, 8);
  }

  /** The record region. */
  function Body(ts: seq<Tick>): (s: seq<Byte>)
    requires AllFit(ts)
    ensures |s| == 64 * |ts|
  {
    if ts == [] then [] else Body(ts[..|ts| - 1]) + Record(ts[|ts| - 1])
  }

  /** Every whole record of a region. */
  function TicksOf(s: seq<Byte>): (ts: seq<Tick>)
    ensures |ts| == |s| / 64 && AllFit(ts)
  {
    seq(|s| / 64, i requires 0 <= i < |s| / 64 => TickOf(s[64 * i..64 * i + 64]))
  }

  lemma TicksAppend(a: seq<Byte>, b: seq<Byte>)
    requires |a| % 64 == 0
    ensures TicksOf(a + b) == TicksOf(a) + TicksOf(b)
  {
    var n := |a| / 64;
    assert |a + b| / 64 == n + |b| / 64;
    forall i | 0 <= i < n ensures (a + b)[64 * i..64 * i + 64] == a[64 * i..64 * i + 64] {}
    forall i | 0 <= i < |b| / 64 ensures (a + b)[64 * (n + i)..64 * (n + i) + 64] == b[64 * i..64 * i + 64] {}
    var l, r := TicksOf(a + b), TicksOf(a) + TicksOf(b);
    forall i | 0 <= i < |l| ensures l[i] == r[i] {
      if i >= n {
        assert (a + b)[64 * (n + (i - n))..64 * (n + (i - n)) + 64] == b[64 * (i - n)..64 * (i - n) + 64];
      }
    }
  }

  lemma TicksSlice(s: seq<Byte>, p: nat, q: nat)
    requires p <= q && 64 * q <= |s| && |s| % 64 == 0
    ensures TicksOf(s[64 * p..64 * q]) == TicksOf(s)[p..q]
  {
    var a, b, c := s[..64 * p], s[64 * p..64 * q], s[64 * q..];
    assert s == a + b + c;
    TicksAppend(a, b);
    TicksAppend(a + b, c);
  }

  lemma OneRecord(s: seq<Byte>)
    requires |s| == 64
    ensures TicksOf(s) == [TickOf(s)]
  {
    assert s[0..64] == s;
    assert TicksOf(s)[0] == TickOf(s[64 * 0..64 * 0 + 64]);
  }

  lemma {:induction false} BodyRoundTrip(ts: seq<Tick>)
    requires AllFit(ts)
    ensures TicksOf(Body(ts)) == ts
  {
    if ts != [] {
      var n := |ts| - 1;
      BodyRoundTrip(ts[..n]);
      TicksAppend(Body(ts[..n]), Record(ts[n]));
      OneRecord(Record(ts[n]));
      RecordRoundTrip(ts[n]);
    }
  }

  /** A region of whole records is the encoding of the ticks read from it: reading loses
      nothing either. */
  lemma {:induction false} BodyBack(s: seq<Byte>)
    requires |s| % 64 == 0
    ensures Body(TicksOf(s)) == s
    decreases |s|
  {
    if s != [] {
      var m := |s| - 64;
      assert s == s[..m] + s[m..];
      BodyBack(s[..m]);
      TicksAppend(s[..m], s[m..]);
      OneRecord(s[m..]);
      RecordBack(s[m..]);
      assert TicksOf(s)[..|TicksOf(s)| - 1] == TicksOf(s[..m]);
    }
  }

  // ----- files

  function HeaderBytes(count: U64, instrument: U64, checksum: U32): (s: seq<Byte>)
    ensures |s| == 32
  {
    Preamble() + PutU64(count) + PutU64(instrument) + (PutU32(checksum) + PutU32(0))
  }

  /** Magic, version and a reserved field. */
  function Preamble(): (s: seq<Byte>)
    ensures |s| == 8
  {
    PutU32(MAGIC) + Le(2, VERSION) + Le(2, 0)
  }

  ghost function FileOf(instrument: U64, ts: seq<Tick>): seq<Byte>
    requires AllFit(ts) && |ts| <= U64_MAX
  {
    HeaderBytes(|ts|, instrument, Crc.Sum(Body(ts))) + Body(ts)
  }

  function HeaderOf(bytes: seq<Byte>): Result<Header, FileError> {
    if |bytes| < HEADER_LEN then Err(Truncated(HEADER_LEN, |bytes|))
    else if GetU32(bytes[0..4]) != MAGIC then Err(BadMagic(GetU32(bytes[0..4])))
    else if FromLe(bytes[4..6]) != VERSION then Err(UnknownVersion(FromLe(bytes[4..6])))
    else Ok(Header(GetU64(bytes[8..16]), GetU64(bytes[16..24]), GetU32(bytes[24..28])))
  }

  /** The length that `count` records ask for, saturating at the 64-bit maximum. */
  function ExpectedLen(count: U64): (n: nat)
    ensures n >= HEADER_LEN
  {
    if count * RECORD_LEN + HEADER_LEN <= U64_MAX then count * RECORD_LEN + HEADER_LEN else U64_MAX
  }

  /** No buffer is longer than a signed machine word can count. */
  predicate InMemory(bytes: seq<Byte>) {
    |bytes| <= I64_MAX
  }

  function Region(bytes: seq<Byte>, count: U64): (s: seq<Byte>)
    requires InMemory(bytes) && ExpectedLen(count) <= |bytes|
    ensures |s| == 64 * count
  {
    bytes[HEADER_LEN..ExpectedLen(count)]
  }

  ghost function Decoded(bytes: seq<Byte>): Result<File, FileError>
    requires InMemory(bytes)
  {
    match HeaderOf(bytes)
    case Err(e) => Err(e)
    case Ok(h) =>
      if |bytes| < ExpectedLen(h.count) then Err(Truncated(ExpectedLen(h.count), |bytes|))
      else
        var body := Region(bytes, h.count);
        if Crc.Sum(body) != h.checksum then Err(ChecksumMismatch(h.checksum, Crc.Sum(body)))
        else Ok(File(h, TicksOf(body)))
  }

  lemma FourParts(p: seq<Byte>, c: seq<Byte>, n: seq<Byte>, q: seq<Byte>, rest: seq<Byte>)
    requires |p| == |c| == |n| == |q| == 8
    ensures var s := p + c + n + q + rest;
      s[0..4] == p[0..4] && s[4..6] == p[4..6] && s[8..16] == c && s[16..24] == n && s[24..28] == q[0..4]
  {
  }

  lemma HeaderFields(count: U64, instrument: U64, checksum: U32, rest: seq<Byte>)
    ensures var s := HeaderBytes(count, instrument, checksum) + rest;
      s[0..4] == PutU32(MAGIC) && s[4..6] == Le(2, VERSION)
      && s[8..16] == PutU64(count) && s[16..24] == PutU64(instrument) && s[24..28] == PutU32(checksum)
  {
    FourParts(Preamble(), PutU64(count), PutU64(instrument), PutU32(checksum) + PutU32(0), rest);
  }

  lemma HeaderRoundTrip(count: U64, instrument: U64, checksum: U32, rest: seq<Byte>)
    ensures HeaderOf(HeaderBytes(count, instrument, checksum) + rest) == Ok(Header(count, instrument, checksum))
  {
    HeaderFields(count, instrument, checksum, rest);
    U32RoundTrip(MAGIC);
    Widths();
    LeRoundTrip(2, VERSION);
    U64RoundTrip(count);
    U64RoundTrip(instrument);
    U32RoundTrip(checksum);
  }

  /** Encode then decode is the identity. */
  lemma EncodeThenDecode(instrument: U64, ts: seq<Tick>)
    requires AllFit(ts) && 64 * |ts| + 32 <= I64_MAX
    ensures InMemory(FileOf(instrument, ts))
    ensures Decoded(FileOf(instrument, ts)) == Ok(File(Header(|ts|, instrument, Crc.Sum(Body(ts))), ts))
  {
    var checksum := Crc.Sum(Body(ts));
    HeaderRoundTrip(|ts|, instrument, checksum, Body(ts));
    RegionAfterHeader(HeaderBytes(|ts|, instrument, checksum), Body(ts), |ts|);
    BodyRoundTrip(ts);
  }

  lemma RegionAfterHeader(h: seq<Byte>, body: seq<Byte>, count: U64)
    requires |h| == 32 && |body| == 64 * count && 64 * count + 32 <= I64_MAX
    ensures InMemory(h + body) && ExpectedLen(count) == |h + body| && Region(h + body, count) == body
  {
  }

  /** What decodes is what the record region says, byte for byte. */
  lemma DecodeThenEncode(bytes: seq<Byte>)
    requires InMemory(bytes) && Decoded(bytes).Ok?
    ensures var f := Decoded(bytes).value;
      |f.ticks| == f.header.count && AllFit(f.ticks) && Body(f.ticks) == Region(bytes, f.header.count)
  {
    BodyBack(Region(bytes, HeaderOf(bytes).value.count));
  }

  // ----- what a reader of the file on disk does

  /** The outcome of reading from disk: as decoding, but a file too short for its header is
      reported without its length. */
  ghost function FromDisk(bytes: seq<Byte>): Result<File, FileError>
    requires InMemory(bytes)
  {
    if |bytes| < HEADER_LEN then Err(Truncated(HEADER_LEN, 0)) else Decoded(bytes)
  }

  lemma RegionPart(bytes: seq<Byte>, p: nat, q: nat)
    requires 32 <= p <= q <= |bytes|
    ensures bytes[32..q] == bytes[32..p] + bytes[p..q]
  {
  }

  /** Any change confined to four consecutive record bytes makes the file refused, whatever
      its length. */
  lemma BurstIsRefused(bytes: seq<Byte>, bytes': seq<Byte>, p: nat)
    requires InMemory(bytes) && Decoded(bytes).Ok?
    requires |bytes'| == |bytes| && bytes' != bytes
    requires HEADER_LEN <= p && p + 4 <= ExpectedLen(Decoded(bytes).value.header.count)
    requires bytes'[..p] == bytes[..p] && bytes'[p + 4..] == bytes[p + 4..]
    ensures FromDisk(bytes').Err? && FromDisk(bytes').error.ChecksumMismatch?
  {
    var h := HeaderOf(bytes).value;
    SameHeader(bytes, bytes', p);
    BurstInRegion(bytes, bytes', h.count, p);
    Crc.BurstChangesSum(Region(bytes, h.count), Region(bytes', h.count), p - 32);
  }

  lemma BurstInRegion(bytes: seq<Byte>, bytes': seq<Byte>, count: U64, p: nat)
    requires InMemory(bytes) && |bytes'| == |bytes| && bytes' != bytes && ExpectedLen(count) <= |bytes|
    requires 32 <= p && p + 4 <= ExpectedLen(count)
    requires bytes'[..p] == bytes[..p] && bytes'[p + 4..] == bytes[p + 4..]
    ensures var a, b, k := Region(bytes, count), Region(bytes', count), p - 32;
      a != b && a[..k] == b[..k] && a[k + 4..] == b[k + 4..]
  {
    var e := ExpectedLen(count);
    var a, b, k := Region(bytes, count), Region(bytes', count), p - 32;
    assert a[..k] == bytes[..p][32..] && b[..k] == bytes'[..p][32..];
    assert a[k + 4..] == bytes[p + 4..][..e - (p + 4)] && b[k + 4..] == bytes'[p + 4..][..e - (p + 4)];
    if a == b {
      SameRegionSameFile(bytes, bytes', count, p);
    }
  }

  lemma SameRegionSameFile(bytes: seq<Byte>, bytes': seq<Byte>, count: U64, p: nat)
    requires InMemory(bytes) && |bytes'| == |bytes| && ExpectedLen(count) <= |bytes|
    requires 32 <= p && p + 4 <= ExpectedLen(count)
    requires bytes'[..p] == bytes[..p] && bytes'[p + 4..] == bytes[p + 4..]
    requires Region(bytes, count) == Region(bytes', count)
    ensures bytes == bytes'
  {
    var e := ExpectedLen(count);
    assert bytes == bytes[..p][..32] + Region(bytes, count) + bytes[p + 4..][e - (p + 4)..];
    assert bytes' == bytes'[..p][..32] + Region(bytes', count) + bytes'[p + 4..][e - (p + 4)..];
  }

  lemma SameHeader(bytes: seq<Byte>, bytes': seq<Byte>, p: nat)
    requires 32 <= p <= |bytes| == |bytes'| && bytes'[..p] == bytes[..p]
    ensures HeaderOf(bytes') == HeaderOf(bytes)
  {
    forall i, j | 0 <= i <= j <= 32 ensures bytes'[i..j] == bytes[i..j] {
      assert bytes'[i..j] == bytes'[..p][i..j] && bytes[i..j] == bytes[..p][i..j];
    }
  }

  // ----- the programs

  method Encode(instrument: U64, ticks: seq<Tick>) returns (out: seq<Byte>)
    requires AllFit(ticks) && |ticks| <= U64_MAX
    ensures out == FileOf(instrument, ticks)
  {
    var body := EncodeBody(ticks);
    var checksum := ChecksumOf(body);
    out := HeaderBytes(|ticks|, instrument, checksum);
    out := out + body;
  }

  method EncodeTick(t: Tick) returns (record: seq<Byte>)
    requires Fits(t)
    ensures record == Record(t)
  {
    record := Words([t.stamp.exch, t.stamp.local, t.last, t.high, t.low, t.bid, t.ask, t.volume]);
  }

  method EncodeBody(ticks: seq<Tick>) returns (body: seq<Byte>)
    requires AllFit(ticks)
    ensures body == Body(ticks)
  {
    body := [];
    var i := 0;
    while i < |ticks|
      invariant 0 <= i <= |ticks| && body == Body(ticks[..i])
    {
      assert ticks[..i + 1][..i] == ticks[..i];
      var record := EncodeTick(ticks[i]);
      body := body + record;
      i := i + 1;
    }
    assert ticks[..i] == ticks;
  }

  method ChecksumOf(body: seq<Byte>) returns (n: U32)
    ensures n == Crc.Sum(body)
  {
    var a := new Crc.Accumulator();
    a.Update(body, []);
    assert [] + body == body;
    n := a.Finish(body);
  }

  method ReadHeader(bytes: seq<Byte>) returns (r: Result<Header, FileError>)
    ensures r == HeaderOf(bytes)
  {
    if |bytes| < HEADER_LEN {
      return Err(Truncated(HEADER_LEN, |bytes|));
    }
    var magic := GetU32(bytes[0..4]);
    if magic != MAGIC {
      return Err(BadMagic(magic));
    }
    var version := FromLe(bytes[4..6]);
    if version != VERSION {
      return Err(UnknownVersion(version));
    }
    return Ok(Header(GetU64(bytes[8..16]), GetU64(bytes[16..24]), GetU32(bytes[24..28])));
  }

  /** The loop reads every record of the block. */
  method DecodeBlock(block: seq<Byte>) returns (ticks: seq<Tick>)
    requires |block| % 64 == 0
    ensures ticks == TicksOf(block)
  {
    ticks := [];
    ghost var all := TicksOf(block);
    var n := |block| / RECORD_LEN;
    var i := 0;
    while i < n
      invariant 0 <= i <= n == |all| && ticks == all[..i]
    {
      var t := TickOf(block[64 * i..64 * i + 64]);
      assert t == all[i];
      ticks := ticks + [t];
      i := i + 1;
    }
  }

  method Decode(bytes: seq<Byte>) returns (r: Result<File, FileError>)
    requires InMemory(bytes)
    ensures r == Decoded(bytes)
  {
    var h := ReadHeader(bytes);
    if h.Err? {
      return Err(h.error);
    }
    var header := h.value;
    var expected := ExpectedLen(header.count);
    if |bytes| < expected {
      return Err(Truncated(expected, |bytes|));
    }
    var body := bytes[HEADER_LEN..expected];
    assert body == Region(bytes, header.count);
    var computed := ChecksumOf(body);
    if computed != header.checksum {
      return Err(ChecksumMismatch(header.checksum, computed));
    }
    var ticks := DecodeBlock(body);
    return Ok(File(header, ticks));
  }

  /** Reading by blocks gives the declared outcome of the whole file. */
  method ReadFile(file: seq<Byte>) returns (r: Result<File, FileError>)
    requires InMemory(file)
    ensures r == FromDisk(file)
  {
    if |file| < HEADER_LEN {
      return Err(Truncated(HEADER_LEN, 0));
    }
    HeaderIsPrefix(file);
    var h := ReadHeader(file[..HEADER_LEN]);
    if h.Err? {
      return Err(h.error);
    }
    var header := h.value;
    var expected := ExpectedLen(header.count);
    if |file| < expected {
      return Err(Truncated(expected, |file|));
    }
    var ticks, computed := ReadBlocks(file, header.count);
    if computed != header.checksum {
      return Err(ChecksumMismatch(header.checksum, computed));
    }
    return Ok(File(header, ticks));
  }

  lemma HeaderIsPrefix(file: seq<Byte>)
    requires |file| >= 32
    ensures HeaderOf(file[..32]) == HeaderOf(file)
  {
    assert file[..32][0..4] == file[0..4] && file[..32][4..6] == file[4..6];
    assert file[..32][8..16] == file[8..16] && file[..32][16..24] == file[16..24] && file[..32][24..28] == file[24..28];
  }

  method ReadBlocks(file: seq<Byte>, count: U64) returns (ticks: seq<Tick>, computed: U32)
    requires InMemory(file) && ExpectedLen(count) <= |file|
    ensures ticks == TicksOf(Region(file, count)) && computed == Crc.Sum(Region(file, count))
  {
    ticks := [];
    var crc := new Crc.Accumulator();
    var remaining := count;
    var at := HEADER_LEN;
    ghost var read: seq<Byte> := [];
    assert read == file[32..at];
    while remaining > 0
      invariant 0 <= remaining <= count && at == 32 + 64 * (count - remaining) <= |file|
      invariant read == file[32..at] && fresh(crc) && crc.Holds(read) && ticks == TicksOf(read)
      decreases remaining
    {
      var records := Min(remaining, RECORDS_PER_BLOCK);
      var want := records * RECORD_LEN;
      var block := file[at..at + want];
      crc.Update(block, read);
      var more := DecodeBlock(block);
      TicksAppend(read, block);
      RegionPart(file, at, at + want);
      ticks := ticks + more;
      read := read + block;
      at := at + want;
      remaining := remaining - records;
    }
    computed := crc.Finish(read);
  }
}
