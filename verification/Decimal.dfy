/** Decimal text to fixed point, exactly (crates/oq-book/src/depth.rs). */
module Decimal {
  import opened Numbers

  datatype ParseError = BadNumber | TooPrecise

  predicate IsDigit(c: char) {
    '0' <= c <= '9'
  }

  predicate AllDigits(s: string) {
    forall i :: 0 <= i < |s| ==> IsDigit(s[i])
  }

  function DigitValue(c: char): int {
    c as int - '0' as int
  }

  function Digits(s: string): int {
    if s == [] then 0 else Digits(s[..|s| - 1]) * 10 + DigitValue(s[|s| - 1])
  }

  function Pow10(n: nat): (p: int)
    ensures p >= 1
  {
    if n == 0 then 1 else 10 * Pow10(n - 1)
  }

  // ----- what a decimal means

  function SignText(negative: bool): string {
    if negative then "-" else ""
  }

  function Signed(negative: bool, m: int): int {
    if negative then 0 - m else m
  }

  /** `t` is a plain decimal: an optional minus, digits, and possibly a point and more
      digits, with at least one digit in all. */
  ghost predicate PlainDecimal(t: string, negative: bool, ip: string, fp: string) {
    && (t == SignText(negative) + ip + "." + fp || (fp == [] && t == SignText(negative) + ip))
    && AllDigits(ip) && AllDigits(fp) && |ip| + |fp| > 0
  }

  ghost predicate IsPlain(t: string) {
    exists negative, ip, fp :: PlainDecimal(t, negative, ip, fp)
  }

  /** The decimal's exact value times ten to the `scale` is the integer `v`. */
  ghost predicate Exactly(t: string, scale: nat, v: int) {
    exists negative, ip, fp :: PlainDecimal(t, negative, ip, fp) && ScaledTo(negative, ip, fp, scale, v)
  }

  ghost predicate ScaledTo(negative: bool, ip: string, fp: string, scale: nat, v: int) {
    Signed(negative, v) * Pow10(|fp|) == Digits(ip + fp) * Pow10(scale)
  }

  /** The answer a parser owes: the exact integer if there is one and it fits, a complaint
      about precision if the decimal is not an integer at this scale, else a refusal. */
  ghost predicate Answers(t: string, scale: nat, r: Result<I64, ParseError>) {
    match r
    case Ok(v) => Exactly(t, scale, v) && Abs(v) <= I64_MAX
    case Err(TooPrecise) => IsPlain(t) && forall v :: !Exactly(t, scale, v)
    case Err(BadNumber) => !IsPlain(t) || exists v :: Exactly(t, scale, v) && Abs(v) > I64_MAX
  }

  // ----- arithmetic of digits

  lemma {:induction false} DigitsBounded(s: string)
    requires AllDigits(s)
    ensures 0 <= Digits(s) < Pow10(|s|)
  {
    if s != [] {
      DigitsBounded(s[..|s| - 1]);
      assert IsDigit(s[|s| - 1]);
    }
  }

  lemma {:induction false} DigitsAppend(s: string, t: string)
    ensures Digits(s + t) == Digits(s) * Pow10(|t|) + Digits(t)
  {
    if t == [] {
      assert s + t == s;
    } else {
      var n := |t| - 1;
      assert (s + t)[..|s + t| - 1] == s + t[..n];
      DigitsAppend(s, t[..n]);
    }
  }

  lemma DigitsSnoc(s: string, c: char)
    ensures Digits(s + [c]) == Digits(s) * 10 + DigitValue(c)
  {
    assert (s + [c])[..|s|] == s;
  }

  lemma {:induction false} PowAdd(m: nat, n: nat)
    ensures Pow10(m + n) == Pow10(m) * Pow10(n)
  {
    if m > 0 {
      PowAdd(m - 1, n);
    }
  }

  lemma {:induction false} AllZeroDigits(s: string)
    requires AllDigits(s)
    ensures Digits(s) == 0 <==> forall i :: 0 <= i < |s| ==> s[i] == '0'
  {
    if s != [] {
      var n := |s| - 1;
      AllZeroDigits(s[..n]);
      DigitsBounded(s[..n]);
      assert IsDigit(s[n]);
      assert s == s[..n] + [s[n]];
    }
  }

  // ----- a text has one reading

  lemma OneReading(t: string, n1: bool, i1: string, f1: string, n2: bool, i2: string, f2: string)
    requires PlainDecimal(t, n1, i1, f1) && PlainDecimal(t, n2, i2, f2)
    ensures n1 == n2 && i1 == i2 && f1 == f2
  {
    ReadsSign(t, n1, i1, f1);
    ReadsSign(t, n2, i2, f2);
    ReadsPoint(t, n1, i1, f1);
    ReadsPoint(t, n2, i2, f2);
    NotLonger(t, if n1 then 1 else 0, i1, i2);
    NotLonger(t, if n1 then 1 else 0, i2, i1);
  }

  /** A run of digits cannot reach past the character that ended another run. */
  lemma NotLonger(t: string, k: nat, a: string, b: string)
    requires k + |a| <= |t| && k + |b| <= |t|
    requires t[k..k + |b|] == b && AllDigits(b)
    requires |t| > k + |a| ==> t[k + |a|] == '.'
    ensures |b| <= |a|
  {
    forall i | k <= i < k + |b| ensures IsDigit(t[i]) {
      assert b[i - k] == t[i];
    }
  }

  lemma ReadsSign(t: string, negative: bool, ip: string, fp: string)
    requires PlainDecimal(t, negative, ip, fp)
    ensures |t| > 0 && (negative <==> t[0] == '-')
  {
    if !negative && ip != [] {
      assert t[0] == ip[0] && IsDigit(ip[0]);
    }
  }

  lemma ReadsPoint(t: string, negative: bool, ip: string, fp: string)
    requires PlainDecimal(t, negative, ip, fp)
    ensures var k := if negative then 1 else 0;
      && |t| >= k + |ip| && t[k..k + |ip|] == ip
      && (|t| > k + |ip| ==> t[k + |ip|] == '.' && t[k + |ip| + 1..] == fp)
      && (|t| == k + |ip| ==> fp == [])
  {
  }

  // ----- the value at a scale

  lemma MulAssoc(a: int, b: int, c: int)
    ensures a * (b * c) == (a * b) * c
  {
  }

  lemma CancelFactor(a: int, b: int, s: int)
    requires s >= 1 && a * s == b * s
    ensures a == b
  {
    DivisionUnique(a, b, s, 0, 0);
  }

  /** The value of a text at a scale is unique, and so is the answer owed for it. */
  lemma ExactIsUnique(t: string, scale: nat, v: int, w: int)
    requires Exactly(t, scale, v) && Exactly(t, scale, w)
    ensures v == w
  {
    var n1, i1, f1 :| PlainDecimal(t, n1, i1, f1) && ScaledTo(n1, i1, f1, scale, v);
    var n2, i2, f2 :| PlainDecimal(t, n2, i2, f2) && ScaledTo(n2, i2, f2, scale, w);
    OneReading(t, n1, i1, f1, n2, i2, f2);
    CancelFactor(Signed(n1, v), Signed(n1, w), Pow10(|f1|));
  }

  lemma OneAnswer(t: string, scale: nat, r: Result<I64, ParseError>, q: Result<I64, ParseError>)
    requires Answers(t, scale, r) && Answers(t, scale, q)
    ensures r == q
  {
    forall v, w | Exactly(t, scale, v) && Exactly(t, scale, w) ensures v == w {
      ExactIsUnique(t, scale, v, w);
    }
  }

  // ----- the digit-by-digit value

  /** The number read after the whole part and `n` decimals, absent decimals being zero. */
  function ReadTo(ip: string, fp: string, n: nat): int {
    if n == 0 then Digits(ip)
    else ReadTo(ip, fp, n - 1) * 10 + if n <= |fp| then DigitValue(fp[n - 1]) else 0
  }

  lemma {:induction false} ReadGrows(ip: string, fp: string, n: nat, m: nat)
    requires AllDigits(ip) && AllDigits(fp) && n <= m
    ensures 0 <= ReadTo(ip, fp, n) <= ReadTo(ip, fp, m)
  {
    if m == 0 {
      DigitsBounded(ip);
    } else {
      ReadGrows(ip, fp, if n < m then n else m - 1, m - 1);
      assert m <= |fp| ==> IsDigit(fp[m - 1]);
    }
  }

  lemma {:induction false} ReadWithin(ip: string, fp: string, n: nat)
    requires n <= |fp|
    ensures ReadTo(ip, fp, n) == Digits(ip + fp[..n])
  {
    if n == 0 {
      assert ip + fp[..0] == ip;
    } else {
      ReadWithin(ip, fp, n - 1);
      DigitsSnoc(ip + fp[..n - 1], fp[n - 1]);
      assert ip + fp[..n] == ip + fp[..n - 1] + [fp[n - 1]];
    }
  }

  lemma {:induction false} ReadBeyond(ip: string, fp: string, k: nat)
    ensures ReadTo(ip, fp, |fp| + k) == Digits(ip + fp) * Pow10(k)
  {
    if k == 0 {
      ReadWithin(ip, fp, |fp|);
      assert fp[..|fp|] == fp;
    } else {
      ReadBeyond(ip, fp, k - 1);
      MulAssoc(Digits(ip + fp), 10, Pow10(k - 1));
      Regroup(Digits(ip + fp), Pow10(k - 1));
    }
  }

  lemma Regroup(d: int, p: int)
    ensures d * (10 * p) == (d * p) * 10
  {
  }

  /** A decimal splits at the scale into the number read so far and the tail beyond it. */
  lemma SplitAtScale(ip: string, fp: string, scale: nat)
    requires scale <= |fp|
    ensures Pow10(|fp|) == Pow10(|fp| - scale) * Pow10(scale)
    ensures Digits(ip + fp) == ReadTo(ip, fp, scale) * Pow10(|fp| - scale) + Digits(fp[scale..])
  {
    assert ip + fp == ip + fp[..scale] + fp[scale..];
    DigitsAppend(ip + fp[..scale], fp[scale..]);
    PowAdd(|fp| - scale, scale);
    ReadWithin(ip, fp, scale);
  }

  lemma TailDigits(fp: string, scale: nat)
    requires AllDigits(fp) && scale <= |fp|
    ensures 0 <= Digits(fp[scale..]) < Pow10(|fp| - scale)
    ensures Digits(fp[scale..]) == 0 <==> forall i :: scale <= i < |fp| ==> fp[i] == '0'
  {
    var tail := fp[scale..];
    DigitsBounded(tail);
    AllZeroDigits(tail);
    assert forall i :: 0 <= i < |tail| ==> tail[i] == fp[scale + i];
    forall i | scale <= i < |fp| ensures fp[i] == tail[i - scale] {}
  }

  predicate ZeroesFrom(fp: string, scale: nat) {
    forall i :: scale <= i < |fp| ==> fp[i] == '0'
  }

  /** The number read to the scale is the exact value exactly when every further decimal is
      zero, and otherwise there is no exact value. */
  lemma ReadIsExact(negative: bool, ip: string, fp: string, scale: nat, v: int)
    requires AllDigits(ip) && AllDigits(fp)
    ensures ScaledTo(negative, ip, fp, scale, v)
       <==> ZeroesFrom(fp, scale) && v == Signed(negative, ReadTo(ip, fp, scale))
  {
    var u, s, f := Signed(negative, v), Pow10(scale), Pow10(|fp|);
    if scale <= |fp| {
      SplitAtScale(ip, fp, scale);
      TailDigits(fp, scale);
      CutIff(u, ReadTo(ip, fp, scale), Pow10(|fp| - scale), Digits(fp[scale..]), s);
    } else {
      ReadBeyond(ip, fp, scale - |fp|);
      PowAdd(scale - |fp|, |fp|);
      MulAssoc(Digits(ip + fp), Pow10(scale - |fp|), f);
      if u * f == ReadTo(ip, fp, scale) * f {
        CancelFactor(u, ReadTo(ip, fp, scale), f);
      }
    }
  }

  lemma CutIff(u: int, d: int, k: int, r: int, s: int)
    requires s >= 1 && k >= 1 && 0 <= r < k
    ensures u * (k * s) == (d * k + r) * s <==> u == d && r == 0
  {
    MulAssoc(u, k, s);
    if (u * k) * s == (d * k + r) * s {
      CancelFactor(u * k, d * k + r, s);
      DivisionUnique(u, d, k, 0, r);
    }
  }

  // ----- trailing zeros

  function Zeros(n: nat): string {
    if n == 0 then "" else Zeros(n - 1) + "0"
  }

  lemma {:induction false} ZerosAreZero(n: nat)
    ensures |Zeros(n)| == n && forall i :: 0 <= i < n ==> Zeros(n)[i] == '0'
  {
    if n > 0 {
      ZerosAreZero(n - 1);
    }
  }

  lemma ReadIgnoresZeros(ip: string, fp: string, n: nat, scale: nat)
    ensures ReadTo(ip, fp + Zeros(n), scale) == ReadTo(ip, fp, scale)
  {
    ZerosAreZero(n);
    if scale > 0 {
      ReadIgnoresZeros(ip, fp, n, scale - 1);
    }
  }

  /** Zeros written after the last decimal never change an answer. */
  lemma TrailingZerosNeverMatter(t: string, n: nat, scale: nat, r: Result<I64, ParseError>)
    requires IsPlain(t) && '.' in t
    ensures Answers(t, scale, r) <==> Answers(t + Zeros(n), scale, r)
  {
    var negative, ip, fp :| PlainDecimal(t, negative, ip, fp);
    ZerosAreZero(n);
    var gp := fp + Zeros(n);
    assert PlainDecimal(t + Zeros(n), negative, ip, gp) by {
      PointIsWritten(t, negative, ip, fp);
      assert SignText(negative) + ip + "." + fp + Zeros(n) == SignText(negative) + ip + "." + gp;
    }
    assert ZeroesFrom(gp, scale) <==> ZeroesFrom(fp, scale) by {
      assert forall i :: 0 <= i < |fp| ==> gp[i] == fp[i];
      assert forall i :: |fp| <= i < |gp| ==> gp[i] == '0';
    }
    ReadIgnoresZeros(ip, fp, n, scale);
    forall v ensures Exactly(t, scale, v) <==> Exactly(t + Zeros(n), scale, v) {
      ExactlyReads(t, negative, ip, fp, scale, v);
      ExactlyReads(t + Zeros(n), negative, ip, gp, scale, v);
    }
  }

  lemma PointIsWritten(t: string, negative: bool, ip: string, fp: string)
    requires PlainDecimal(t, negative, ip, fp) && '.' in t
    ensures t == SignText(negative) + ip + "." + fp
  {
    assert forall i :: 0 <= i < |ip| ==> IsDigit(ip[i]);
    var k :| 0 <= k < |t| && t[k] == '.';
    assert negative && k > 0 && k - 1 < |ip| ==> t[k] == ip[k - 1] || t != SignText(negative) + ip;
    assert !negative && k < |ip| ==> t[k] == ip[k] || t != SignText(negative) + ip;
  }

  /** What a reading of the text settles about its exact value. */
  lemma ExactlyReads(t: string, negative: bool, ip: string, fp: string, scale: nat, v: int)
    requires PlainDecimal(t, negative, ip, fp)
    ensures Exactly(t, scale, v) <==> ZeroesFrom(fp, scale) && v == Signed(negative, ReadTo(ip, fp, scale))
  {
    ReadIsExact(negative, ip, fp, scale, v);
    if Exactly(t, scale, v) {
      var n2, i2, f2 :| PlainDecimal(t, n2, i2, f2) && ScaledTo(n2, i2, f2, scale, v);
      OneReading(t, negative, ip, fp, n2, i2, f2);
    }
  }

  // ----- the parser

  method FindPoint(s: string) returns (k: nat)
    ensures k <= |s| && '.' !in s[..k] && (k < |s| ==> s[k] == '.')
  {
    k := 0;
    while k < |s| && s[k] != '.'
      invariant k <= |s| && '.' !in s[..k]
    {
      k := k + 1;
    }
  }

  method EveryDigit(s: string) returns (ok: bool)
    ensures ok <==> AllDigits(s)
  {
    var i := 0;
    while i < |s|
      invariant i <= |s| && forall j :: 0 <= j < i ==> IsDigit(s[j])
    {
      if !IsDigit(s[i]) {
        return false;
      }
      i := i + 1;
    }
    return true;
  }

  /** How many characters are left once trailing zeros are gone. */
  method SignificantLength(s: string) returns (n: nat)
    ensures n <= |s| && ZeroesFrom(s, n) && (n > 0 ==> s[n - 1] != '0')
  {
    n := |s|;
    while n > 0 && s[n - 1] == '0'
      invariant n <= |s| && ZeroesFrom(s, n)
    {
      n := n - 1;
    }
  }

  /** The whole part as a 64-bit integer, or nothing if it does not fit. */
  method WholePart(s: string) returns (v: Option<I64>)
    requires AllDigits(s)
    ensures v == if Digits(s) <= I64_MAX then Some(Digits(s)) else None
  {
    var value := 0;
    var i := 0;
    DigitsBounded(s);
    while i < |s|
      invariant i <= |s| && value == Digits(s[..i]) && 0 <= value <= I64_MAX
    {
      assert s[..i + 1][..i] == s[..i] && IsDigit(s[i]);
      PrefixIsSmaller(s, i + 1);
      value := value * 10 + DigitValue(s[i]);
      i := i + 1;
      if value > I64_MAX {
        return None;
      }
    }
    assert s[..|s|] == s;
    return Some(value);
  }

  lemma PrefixIsSmaller(s: string, n: nat)
    requires AllDigits(s) && n <= |s|
    ensures 0 <= Digits(s[..n]) <= Digits(s)
  {
    DigitsBounded(s[..n]);
    DigitsBounded(s[n..]);
    DigitsAppend(s[..n], s[n..]);
    assert s == s[..n] + s[n..];
    AtLeastItself(Digits(s[..n]), Pow10(|s| - n));
  }

  lemma AtLeastItself(a: int, p: int)
    requires a >= 0 && p >= 1
    ensures a * p >= a
  {
  }

  /** The answer for a plain decimal, read off its decimals beyond the scale and the number
      they leave. */
  ghost function Owed(negative: bool, ip: string, fp: string, scale: nat): Result<int, ParseError> {
    if !ZeroesFrom(fp, scale) then Err(TooPrecise)
    else if ReadTo(ip, fp, scale) > I64_MAX then Err(BadNumber)
    else Ok(Signed(negative, ReadTo(ip, fp, scale)))
  }

  lemma Settled(t: string, negative: bool, ip: string, fp: string, scale: nat, r: Result<I64, ParseError>)
    requires PlainDecimal(t, negative, ip, fp) && r == Owed(negative, ip, fp, scale)
    ensures Answers(t, scale, r)
  {
    ReadGrows(ip, fp, 0, scale);
    forall v ensures Exactly(t, scale, v) <==> ZeroesFrom(fp, scale) && v == Signed(negative, ReadTo(ip, fp, scale)) {
      ExactlyReads(t, negative, ip, fp, scale, v);
    }
    assert ZeroesFrom(fp, scale) ==> Exactly(t, scale, Signed(negative, ReadTo(ip, fp, scale)));
  }

  /** Shifts the whole part up one decimal at a time, stopping at the first overflow. */
  method Accumulate(ip: string, whole: I64, fp: string, scale: nat) returns (v: Option<I64>)
    requires AllDigits(ip) && AllDigits(fp) && whole == Digits(ip)
    ensures v == if ReadTo(ip, fp, scale) <= I64_MAX then Some(ReadTo(ip, fp, scale)) else None
  {
    var value: I64 := whole;
    var i := 0;
    ReadGrows(ip, fp, 0, 0);
    while i < scale
      invariant 0 <= i <= scale && value == ReadTo(ip, fp, i) && 0 <= value
    {
      ReadGrows(ip, fp, i + 1, scale);
      assert i < |fp| ==> IsDigit(fp[i]);
      if value * 10 > I64_MAX {
        return None;
      }
      value := value * 10;
      if i < |fp| {
        if value + DigitValue(fp[i]) > I64_MAX {
          return None;
        }
        value := value + DigitValue(fp[i]);
      }
      i := i + 1;
    }
    return Some(value);
  }

  /** Exact decimal parsing: the answer is the exact integer whenever there is one that
      fits, and the complaint says which of the two failures occurred. */
  method ParseFixed(text: string, scale: U32) returns (r: Result<I64, ParseError>)
    ensures Answers(text, scale, r)
  {
    var negative := |text| > 0 && text[0] == '-';
    var digits := if negative then text[1..] else text;
    assert text == SignText(negative) + digits;
    var k := FindPoint(digits);
    var ip, fp := digits[..k], if k < |digits| then digits[k + 1..] else "";
    OnlyReading(text, negative, digits, k);
    var wholeOk := EveryDigit(ip);
    var fractionOk := EveryDigit(fp);
    if digits == "" || (ip == "" && fp == "") || !wholeOk || !fractionOk {
      return Err(BadNumber);
    }
    SplitReads(text, negative, digits, k);
    r := FromParts(negative, ip, fp, scale);
    Settled(text, negative, ip, fp, scale, r);
  }

  lemma SplitReads(t: string, negative: bool, digits: string, k: nat)
    requires t == SignText(negative) + digits
    requires k <= |digits| && (k < |digits| ==> digits[k] == '.')
    requires AllDigits(digits[..k]) && (k < |digits| ==> AllDigits(digits[k + 1..]))
    requires digits[..k] != "" || (k < |digits| && digits[k + 1..] != "")
    ensures PlainDecimal(t, negative, digits[..k], if k < |digits| then digits[k + 1..] else "")
  {
    if k < |digits| {
      assert digits == digits[..k] + "." + digits[k + 1..];
      assert t == SignText(negative) + digits[..k] + "." + digits[k + 1..];
    } else {
      assert digits[..k] == digits;
    }
  }

  method FromParts(negative: bool, ip: string, fp: string, scale: nat) returns (r: Result<I64, ParseError>)
    requires AllDigits(ip) && AllDigits(fp)
    ensures r == Owed(negative, ip, fp, scale)
  {
    var significant := SignificantLength(fp);
    assert significant > scale ==> !ZeroesFrom(fp, scale) by {
      assert significant > scale ==> fp[significant - 1] != '0';
    }
    if significant > scale {
      return Err(TooPrecise);
    }
    var whole := WholePart(ip);
    ReadGrows(ip, fp, 0, scale);
    if whole.None? {
      return Err(BadNumber);
    }
    var value := Accumulate(ip, whole.value, fp, scale);
    if value.None? {
      return Err(BadNumber);
    }
    return Ok(Signed(negative, value.value));
  }

  /** A plain text can only be read at its leading minus and its first point. */
  lemma OnlyReading(t: string, negative: bool, digits: string, k: nat)
    requires negative <==> |t| > 0 && t[0] == '-'
    requires t == SignText(negative) + digits
    requires k <= |digits| && '.' !in digits[..k] && (k < |digits| ==> digits[k] == '.')
    ensures IsPlain(t) ==> PlainDecimal(t, negative, digits[..k], if k < |digits| then digits[k + 1..] else "")
  {
    if IsPlain(t) {
      var n2, i2, f2 :| PlainDecimal(t, n2, i2, f2);
      ReadsSign(t, n2, i2, f2);
      ReadsPoint(t, n2, i2, f2);
      var m := if negative then 1 else 0;
      assert digits == t[m..];
      assert digits[..|i2|] == i2;
      if |i2| < |digits| {
        assert digits[|i2|] == '.' && digits[|i2| + 1..] == f2;
      }
      FirstPoint(digits, k, i2);
    }
  }

  lemma FirstPoint(digits: string, k: nat, ip: string)
    requires k <= |digits| && '.' !in digits[..k] && (k < |digits| ==> digits[k] == '.')
    requires |ip| <= |digits| && digits[..|ip|] == ip && AllDigits(ip)
    requires |ip| < |digits| ==> digits[|ip|] == '.'
    ensures k == |ip|
  {
    assert forall i :: 0 <= i < |ip| ==> digits[i] == ip[i];
    assert forall i :: 0 <= i < k ==> digits[i] == digits[..k][i];
  }

  // ----- what is written reads back

  /** The usual digits of a number, without leading zeros. */
  function Written(n: nat): (s: string)
    ensures |s| > 0
    decreases n
  {
    var digit := [('0' as int + n % 10) as char];
    if n < 10 then digit else Written(n / 10) + digit
  }

  lemma {:induction false} WrittenDigits(n: nat)
    ensures AllDigits(Written(n)) && Digits(Written(n)) == n
    decreases n
  {
    var c := ('0' as int + n % 10) as char;
    if n < 10 {
      assert [c][..0] == [];
    } else {
      WrittenDigits(n / 10);
      DigitsSnoc(Written(n / 10), c);
    }
  }

  lemma TiesDigits(negative: bool, ip: string, fp: string, whole: nat)
    requires Digits(ip) == whole
    ensures ScaledTo(negative, ip, fp, |fp|, Signed(negative, whole * Pow10(|fp|) + Digits(fp)))
  {
    DigitsAppend(ip, fp);
  }

  lemma ReadAs(t: string, negative: bool, ip: string, fp: string, scale: nat, v: int)
    requires PlainDecimal(t, negative, ip, fp) && ScaledTo(negative, ip, fp, scale, v)
    ensures Exactly(t, scale, v)
  {
  }

  /** Whatever is written in digits, with a minus when negative and a point `|fp|` digits from the end, is read as
      exactly that number of units at that scale. */
  lemma WrittenIsRead(negative: bool, whole: nat, fp: string)
    requires AllDigits(fp)
    ensures var units := whole * Pow10(|fp|) + Digits(fp);
      Exactly((if negative then "-" else "") + Written(whole) + "." + fp, |fp|, if negative then 0 - units else units)
  {
    var ip := Written(whole);
    WrittenDigits(whole);
    TiesDigits(negative, ip, fp, whole);
    ReadAs(SignText(negative) + ip + "." + fp, negative, ip, fp, |fp|, Signed(negative, whole * Pow10(|fp|) + Digits(fp)));
  }
}
