/** Bytes and the little-endian integers written with them. */
module Bytes {
  import opened Numbers

  type Byte = bv8

  function ByteOf(v: int): Byte
    requires 0 <= v < 256
  {
    v as bv8
  }

  function ValueOf(b: Byte): (v: int)
    ensures 0 <= v < 256
  {
    b as int
  }

  lemma ByteRoundTrip(v: int)
    requires 0 <= v < 256
    ensures ValueOf(ByteOf(v)) == v
  {
    var b := ByteOf(v);
    assert (b as int) % 256 == v % 256;
  }

  lemma ValueRoundTrip(b: Byte)
    ensures ByteOf(ValueOf(b)) == b
  {
  }

  function Pow256(n: nat): (p: int)
    ensures p >= 1
  {
    if n == 0 then 1 else 256 * Pow256(n - 1)
  }

  /** The low `n` bytes of a number, least significant first. */
  function Le(n: nat, v: nat): (s: seq<Byte>)
    ensures |s| == n
  {
    seq(n, i requires 0 <= i < n => DigitOf(v, i))
  }

  function DigitOf(v: nat, i: nat): Byte {
    ByteOf(v / Pow256(i) % 256)
  }

  /** The number the first `n` bytes spell. */
  function Spelled(s: seq<Byte>, n: nat): (v: nat)
    requires n <= |s|
    ensures v < Pow256(n)
  {
    if n == 0 then 0
    else
      AddDigit(Spelled(s, n - 1), ValueOf(s[n - 1]), Pow256(n - 1));
      Spelled(s, n - 1) + ValueOf(s[n - 1]) * Pow256(n - 1)
  }

  function FromLe(s: seq<Byte>): (v: nat)
    ensures v < Pow256(|s|)
  {
    Spelled(s, |s|)
  }

  lemma AddDigit(low: nat, d: nat, p: nat)
    requires low < p && d < 256
    ensures 0 <= low + d * p < 256 * p
  {
    MulUpTo(d, 255, p);
    Distribute(255, 1, p);
  }

  /** Splitting off one base-256 digit. */
  lemma NextDigit(v: nat, p: nat)
    requires p >= 1
    ensures v % (256 * p) == v % p + (v / p % 256) * p
  {
    var q, r := v / p, v % p;
    var d, h := q % 256, q / 256;
    Euclid(v, p);
    Euclid(q, 256);
    AddDigit(r, d, p);
    Distribute(h * 256, d, p);
    assert (h * 256) * p == h * (256 * p);
    Euclid(v, 256 * p);
    DivisionUnique(h, v / (256 * p), 256 * p, r + d * p, v % (256 * p));
  }

  lemma {:induction false} SpelledDigits(n: nat, v: nat, k: nat)
    requires k <= n
    ensures Spelled(Le(n, v), k) == v % Pow256(k)
  {
    if k > 0 {
      SpelledDigits(n, v, k - 1);
      ByteRoundTrip(v / Pow256(k - 1) % 256);
      NextDigit(v, Pow256(k - 1));
    }
  }

  lemma LeRoundTrip(n: nat, v: nat)
    requires v < Pow256(n)
    ensures FromLe(Le(n, v)) == v
  {
    SpelledDigits(n, v, n);
    SmallRemainder(v, Pow256(n));
  }

  lemma SmallRemainder(v: nat, p: nat)
    requires v < p
    ensures v % p == v
  {
  }

  /** What the bytes above position `i` add is a multiple of the next place. */
  lemma {:induction false} Above(s: seq<Byte>, i: nat, n: nat) returns (h: nat)
    requires i < n <= |s|
    ensures Spelled(s, n) == Spelled(s, i) + (ValueOf(s[i]) + 256 * h) * Pow256(i)
  {
    if n == i + 1 {
      h := 0;
    } else {
      var g := Above(s, i, n - 1);
      var k := PlaceRatio(i, n - 1);
      h := g + ValueOf(s[n - 1]) * k;
      Collect(Spelled(s, i), ValueOf(s[i]), g, ValueOf(s[n - 1]), k, Pow256(i), Pow256(n - 1));
    }
  }

  lemma {:induction false} PlaceRatio(i: nat, m: nat) returns (k: nat)
    requires i < m
    ensures Pow256(m) == 256 * k * Pow256(i)
  {
    if m == i + 1 {
      k := 1;
    } else {
      var j := PlaceRatio(i, m - 1);
      k := 256 * j;
      assert 256 * (256 * j * Pow256(i)) == 256 * (256 * j) * Pow256(i);
    }
  }

  lemma Collect(low: nat, d: nat, g: nat, e: nat, k: nat, p: nat, q: nat)
    requires q == 256 * k * p
    ensures low + (d + 256 * g) * p + e * q == low + (d + 256 * (g + e * k)) * p
  {
    assert e * (256 * k * p) == (256 * (e * k)) * p;
    Distribute(d + 256 * g, 256 * (e * k), p);
  }

  lemma DigitBack(s: seq<Byte>, i: nat)
    requires i < |s|
    ensures DigitOf(FromLe(s), i) == s[i]
  {
    var h := Above(s, i, |s|);
    var low, q, p := Spelled(s, i), ValueOf(s[i]) + 256 * h, Pow256(i);
    Euclid(FromLe(s), p);
    DivisionUnique(q, FromLe(s) / p, p, low, FromLe(s) % p);
    LowDigit(ValueOf(s[i]), h);
    ValueRoundTrip(s[i]);
  }

  lemma LowDigit(d: int, r: nat)
    requires 0 <= d < 256
    ensures (d + 256 * r) % 256 == d && (d + 256 * r) / 256 == r
  {
  }

  lemma FromLeRoundTrip(s: seq<Byte>)
    ensures Le(|s|, FromLe(s)) == s
  {
    forall i | 0 <= i < |s| ensures Le(|s|, FromLe(s))[i] == s[i] {
      DigitBack(s, i);
    }
  }

  // ----- the widths in use

  const TWO_64: int := 0x1_0000_0000_0000_0000

  lemma Widths()
    ensures Pow256(2) == 0x1_0000 && Pow256(4) == 0x1_0000_0000 && Pow256(8) == TWO_64
  {
    assert Pow256(1) == 256 && Pow256(3) == 0x100_0000;
    assert Pow256(5) == 0x100_0000_0000 && Pow256(6) == 0x1_0000_0000_0000 && Pow256(7) == 0x100_0000_0000_0000;
  }

  /** Two's complement. */
  function Wrap64(v: I64): (u: U64) {
    if v < 0 then v + TWO_64 else v
  }

  function Unwrap64(u: U64): I64 {
    if u > I64_MAX then u - TWO_64 else u
  }

  function PutI64(v: I64): (s: seq<Byte>)
    ensures |s| == 8
  {
    Le(8, Wrap64(v))
  }

  function GetI64(s: seq<Byte>): I64
    requires |s| == 8
  {
    Widths();
    Unwrap64(FromLe(s))
  }

  function PutU64(v: U64): (s: seq<Byte>)
    ensures |s| == 8
  {
    Le(8, v)
  }

  function GetU64(s: seq<Byte>): U64
    requires |s| == 8
  {
    Widths();
    FromLe(s)
  }

  function PutU32(v: U32): (s: seq<Byte>)
    ensures |s| == 4
  {
    Le(4, v)
  }

  function GetU32(s: seq<Byte>): U32
    requires |s| == 4
  {
    Widths();
    FromLe(s)
  }

  lemma I64RoundTrip(v: I64)
    ensures GetI64(PutI64(v)) == v
  {
    Widths();
    LeRoundTrip(8, Wrap64(v));
  }

  lemma WrapBack(u: U64)
    ensures Wrap64(Unwrap64(u)) == u
  {
  }

  lemma I64Back(s: seq<Byte>)
    requires |s| == 8
    ensures PutI64(GetI64(s)) == s
  {
    Widths();
    WrapBack(FromLe(s));
    FromLeRoundTrip(s);
  }

  lemma U64RoundTrip(v: U64)
    ensures GetU64(PutU64(v)) == v
  {
    Widths();
    LeRoundTrip(8, v);
  }

  lemma U32RoundTrip(v: U32)
    ensures GetU32(PutU32(v)) == v
  {
    Widths();
    LeRoundTrip(4, v);
  }

  // ----- fields side by side

  /** Where the parts of a concatenation are found again. */
  lemma MiddlePart(a: seq<Byte>, b: seq<Byte>, c: seq<Byte>)
    ensures (a + b + c)[|a|..|a| + |b|] == b
  {
  }

  function WordAt(s: seq<Byte>, i: nat): I64
    requires 8 * i + 8 <= |s|
  {
    GetI64(s[8 * i..8 * i + 8])
  }

  /** Signed words, one after another. */
  function Words(xs: seq<I64>): (s: seq<Byte>)
    ensures |s| == 8 * |xs|
  {
    if xs == [] then [] else Words(xs[..|xs| - 1]) + PutI64(xs[|xs| - 1])
  }

  function ReadWords(s: seq<Byte>, n: nat): (xs: seq<I64>)
    requires 8 * n <= |s|
    ensures |xs| == n
  {
    seq(n, i requires 0 <= i < n => WordAt(s, i))
  }

  lemma LastWord(before: seq<Byte>, v: I64, rest: seq<Byte>, n: nat)
    requires |before| == 8 * n
    ensures WordAt(before + PutI64(v) + rest, n) == v
  {
    MiddlePart(before, PutI64(v), rest);
    I64RoundTrip(v);
  }

  lemma {:induction false} WordsRoundTrip(xs: seq<I64>, rest: seq<Byte>, i: nat)
    requires i < |xs|
    ensures WordAt(Words(xs) + rest, i) == xs[i]
  {
    var n := |xs| - 1;
    assert Words(xs) + rest == Words(xs[..n]) + (PutI64(xs[n]) + rest);
    if i < n {
      WordsRoundTrip(xs[..n], PutI64(xs[n]) + rest, i);
    } else {
      LastWord(Words(xs[..n]), xs[n], rest, n);
    }
  }

  lemma PrefixWords(s: seq<Byte>, m: nat)
    requires |s| == 8 * m + 8
    ensures ReadWords(s, m + 1) == ReadWords(s[..8 * m], m) + [WordAt(s, m)]
  {
    forall i | 0 <= i < m ensures WordAt(s[..8 * m], i) == WordAt(s, i) {
      assert s[..8 * m][8 * i..8 * i + 8] == s[8 * i..8 * i + 8];
    }
  }

  lemma {:induction false} WordsBack(s: seq<Byte>, n: nat)
    requires |s| == 8 * n
    ensures Words(ReadWords(s, n)) == s
    decreases n
  {
    if n > 0 {
      var m := n - 1;
      WordsBack(s[..8 * m], m);
      PrefixWords(s, m);
      I64Back(s[8 * m..8 * m + 8]);
      assert s == s[..8 * m] + s[8 * m..8 * m + 8];
    }
  }
}
