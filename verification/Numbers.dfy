/** Integer helpers shared by every module: the truncating division of the
    source language, saturation at its integer widths, and the two result types. */
module Numbers {
  datatype Option<+T> = None | Some(value: T)

  datatype Result<+T, +E> = Ok(value: T) | Err(error: E)

  const I64_MAX: int := 0x7FFF_FFFF_FFFF_FFFF
  const I64_MIN: int := -0x8000_0000_0000_0000
  const U64_MAX: int := 0xFFFF_FFFF_FFFF_FFFF
  const U32_MAX: int := 0xFFFF_FFFF
  const I128_MAX: int := 0x7FFF_FFFF_FFFF_FFFF_FFFF_FFFF_FFFF_FFFF
  const I128_MIN: int := -0x8000_0000_0000_0000_0000_0000_0000_0000

  type I64 = x: int | I64_MIN <= x <= I64_MAX
  type U64 = x: int | 0 <= x <= U64_MAX
  type U32 = x: int | 0 <= x <= U32_MAX

  function Abs(x: int): nat {
    if x < 0 then -x else x
  }

  function Min(a: int, b: int): int {
    if a <= b then a else b
  }

  function Max(a: int, b: int): int {
    if a <= b then b else a
  }

  function Sign(x: int): int {
    if x > 0 then 1 else if x < 0 then -1 else 0
  }

  /** Places in a list, each after the last. */
  ghost predicate Ascending(at: seq<nat>) {
    forall i, j :: 0 <= i < j < |at| ==> at[i] < at[j]
  }

  /** Division rounding toward zero, which is what `/` does on the source's integers. */
  function TruncDiv(a: int, b: int): int
    requires b > 0
  {
    if a >= 0 then a / b else -((-a) / b)
  }

  /** The remainder that goes with `TruncDiv`; it takes the sign of the dividend. */
  function TruncMod(a: int, b: int): int
    requires b > 0
  {
    a - TruncDiv(a, b) * b
  }

  function Clamp64(x: int): I64 {
    if x > I64_MAX then I64_MAX else if x < I64_MIN then I64_MIN else x
  }

  function Clamp128(x: int): int {
    if x > I128_MAX then I128_MAX else if x < I128_MIN then I128_MIN else x
  }

  /** `TruncDiv` is the unique quotient whose remainder is smaller than the
      divisor and does not oppose the dividend's sign. */
  lemma TruncDivUnique(a: int, b: int, q: int)
    requires b > 0
    requires if a >= 0 then 0 <= a - q * b < b else -b < a - q * b <= 0
    ensures q == TruncDiv(a, b)
  {
    if a >= 0 {
      var d := a / b;
      Euclid(a, b);
      DivisionUnique(q, d, b, a - q * b, a % b);
    } else {
      var d := (-a) / b;
      Euclid(-a, b);
      NegateProduct(q, b);
      DivisionUnique(-q, d, b, -(a - q * b), (-a) % b);
    }
  }

  lemma DivisionUnique(q: int, d: int, b: int, r: int, s: int)
    requires b > 0 && 0 <= r < b && 0 <= s < b
    requires q * b + r == d * b + s
    ensures q == d && r == s
  {
    if q > d {
      MulAtLeast(q - d, b);
      Distribute(q, -d, b);
      NegateProduct(d, b);
    } else if q < d {
      MulAtLeast(d - q, b);
      Distribute(d, -q, b);
      NegateProduct(q, b);
    }
  }

  lemma MulAtLeast(k: int, b: int)
    requires k >= 1 && b >= 0
    ensures k * b >= b
  {
    assert (k - 1) * b >= 0;
    assert (k - 1) * b == k * b - b;
  }

  lemma Distribute(x: int, y: int, b: int)
    ensures (x + y) * b == x * b + y * b
  {
  }

  lemma NegateProduct(x: int, b: int)
    ensures (-x) * b == -(x * b)
  {
  }

  /** Euclidean division, stated without the operators' own axioms getting in the way. */
  lemma Euclid(a: int, b: int)
    requires b > 0
    ensures a == (a / b) * b + a % b && 0 <= a % b < b
  {
  }

  lemma EuclidNonNegative(p: int, b: int)
    requires b > 0 && p >= 0
    ensures p / b >= 0 && 0 <= (p / b) * b <= p && 0 <= p % b <= p
  {
    Euclid(p, b);
    if p / b < 0 {
      MulAtLeast(-(p / b), b);
      NegateProduct(p / b, b);
    }
    assert (p / b) * b >= 0;
  }

  lemma QuotientAtMost(p: int, c: int, b: int)
    requires b > 0 && 0 <= p <= c * b
    ensures 0 <= p / b <= c
  {
    Euclid(p, b);
    if p / b > c {
      MulAtLeast(p / b - c, b);
      Distribute(p / b, -c, b);
      NegateProduct(c, b);
    }
  }

  lemma MulUpTo(a: nat, b: nat, p: nat)
    requires a <= b
    ensures 0 <= a * p <= b * p
  {
    Distribute(a, b - a, p);
  }
}
