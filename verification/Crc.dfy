/** CRC-32, reflected, as section 8 of RFC 1952 gives it: the table-driven accumulator is the
    bitwise division, block by block, and no change within four bytes goes unnoticed
    (crates/oq-data/src/ticks.rs, crates/oq-hash/src/crc32.rs). */
module Crc {
  import opened Folding
  import opened Numbers
  import opened Bytes

  const POLYNOMIAL: bv32 := 0xEDB8_8320
  const ALL_ONES: bv32 := 0xFFFF_FFFF

  // ----- the bitwise definition

  /** One bit of the division. */
  function Shifted(c: bv32): bv32 {
    if c & 1 == 1 then (c >> 1) ^ POLYNOMIAL else c >> 1
  }

  function Iterate<T>(f: T -> T, c: T, n: nat): T
    decreases n
  {
    if n == 0 then c else Iterate(f, f(c), n - 1)
  }

  function EightBits(c: bv32): bv32 {
    Iterate(Shifted, c, 8)
  }

  function Absorb(c: bv32, b: Byte): bv32 {
    EightBits(Xor(c, Wide(b)))
  }

  function Wide(b: Byte): bv32 {
    b as bv32
  }

  function Xor(a: bv32, b: bv32): bv32 {
    a ^ b
  }

  function Digest(c: bv32, data: seq<Byte>): bv32
    decreases |data|
  {
    if data == [] then c else Absorb(Digest(c, data[..|data| - 1]), data[|data| - 1])
  }

  function Crc32(data: seq<Byte>): bv32 {
    Xor(Digest(ALL_ONES, data), ALL_ONES)
  }

  lemma {:induction false} DigestAppend(c: bv32, p: seq<Byte>, q: seq<Byte>)
    ensures Digest(c, p + q) == Digest(Digest(c, p), q)
  {
    if q == [] {
      assert p + q == p;
    } else {
      DigestAppend(c, p, q[..|q| - 1]);
      assert (p + q)[..|p + q| - 1] == p + q[..|q| - 1];
    }
  }

  // ----- one bit is linear and loses nothing

  lemma ShiftedLinear(x: bv32, y: bv32)
    ensures Shifted(x ^ y) == Shifted(x) ^ Shifted(y)
  {
    if x & 1 == 1 {
      if y & 1 == 1 { OddOdd(x, y); } else { OddEven(x, y); }
    } else {
      if y & 1 == 1 { EvenOdd(x, y); } else { EvenEven(x, y); }
    }
  }

  lemma OddOdd(x: bv32, y: bv32)
    requires x & 1 == 1 && y & 1 == 1
    ensures Shifted(x ^ y) == Shifted(x) ^ Shifted(y)
  {
    assert (x ^ y) & 1 != 1;
    assert (x ^ y) >> 1 == ((x >> 1) ^ POLYNOMIAL) ^ ((y >> 1) ^ POLYNOMIAL);
  }

  lemma OddEven(x: bv32, y: bv32)
    requires x & 1 == 1 && y & 1 != 1
    ensures Shifted(x ^ y) == Shifted(x) ^ Shifted(y)
  {
    assert (x ^ y) & 1 == 1;
    assert ((x ^ y) >> 1) ^ POLYNOMIAL == ((x >> 1) ^ POLYNOMIAL) ^ (y >> 1);
  }

  lemma EvenOdd(x: bv32, y: bv32)
    requires x & 1 != 1 && y & 1 == 1
    ensures Shifted(x ^ y) == Shifted(x) ^ Shifted(y)
  {
    assert (x ^ y) & 1 == 1;
    assert ((x ^ y) >> 1) ^ POLYNOMIAL == (x >> 1) ^ ((y >> 1) ^ POLYNOMIAL);
  }

  lemma EvenEven(x: bv32, y: bv32)
    requires x & 1 != 1 && y & 1 != 1
    ensures Shifted(x ^ y) == Shifted(x) ^ Shifted(y)
  {
    assert (x ^ y) & 1 != 1;
    assert (x ^ y) >> 1 == (x >> 1) ^ (y >> 1);
  }

  /** The polynomial's top bit is set, so the bit that fell off can be read back. */
  lemma ShiftedInjective(x: bv32, y: bv32)
    requires Shifted(x) == Shifted(y)
    ensures x == y
  {
    assert Shifted(x) & 0x8000_0000 == 0 <==> x & 1 != 1;
    assert Shifted(y) & 0x8000_0000 == 0 <==> y & 1 != 1;
  }

  // ----- repetition keeps both

  ghost predicate Linear<T(!new)>(f: T -> T, op: (T, T) -> T) {
    forall a, b :: f(op(a, b)) == op(f(a), f(b))
  }

  ghost predicate Injective<T(!new)>(f: T -> T) {
    forall a, b :: f(a) == f(b) ==> a == b
  }

  lemma {:induction false} IterateLinear<T(!new)>(f: T -> T, op: (T, T) -> T, x: T, y: T, n: nat)
    requires Linear(f, op)
    ensures Iterate(f, op(x, y), n) == op(Iterate(f, x, n), Iterate(f, y, n))
    decreases n
  {
    if n > 0 {
      IterateLinear(f, op, f(x), f(y), n - 1);
    }
  }

  lemma {:induction false} IterateInjective<T(!new)>(f: T -> T, x: T, y: T, n: nat)
    requires Injective(f) && Iterate(f, x, n) == Iterate(f, y, n)
    ensures x == y
    decreases n
  {
    if n > 0 {
      IterateInjective(f, f(x), f(y), n - 1);
    }
  }

  lemma {:induction false} IterateTwice<T>(f: T -> T, x: T, m: nat, n: nat)
    ensures Iterate(f, Iterate(f, x, m), n) == Iterate(f, x, m + n)
    decreases m
  {
    if m > 0 {
      IterateTwice(f, f(x), m - 1, n);
    }
  }

  lemma BitsAreLinear()
    ensures Linear(Shifted, Xor) && Injective(Shifted)
  {
    forall a, b ensures Shifted(Xor(a, b)) == Xor(Shifted(a), Shifted(b)) {
      ShiftedLinear(a, b);
    }
    forall a, b | Shifted(a) == Shifted(b) ensures a == b {
      ShiftedInjective(a, b);
    }
  }

  lemma BitsLinear(x: bv32, y: bv32, n: nat)
    ensures Iterate(Shifted, Xor(x, y), n) == Xor(Iterate(Shifted, x, n), Iterate(Shifted, y, n))
  {
    BitsAreLinear();
    IterateLinear(Shifted, Xor, x, y, n);
  }

  lemma BitsInjective(x: bv32, y: bv32, n: nat)
    requires Iterate(Shifted, x, n) == Iterate(Shifted, y, n)
    ensures x == y
  {
    BitsAreLinear();
    IterateInjective(Shifted, x, y, n);
  }

  // ----- clear low bits shift straight out

  function Ones(n: nat): bv32 {
    if n == 0 then 0 else (Ones(n - 1) << 1) | 1
  }

  function ShiftBy(x: bv32, n: nat): bv32
    decreases n
  {
    if n == 0 then x else ShiftBy(x >> 1, n - 1)
  }

  lemma OnesStep(n: nat)
    requires 0 < n <= 8
    ensures Ones(n) & 1 == 1 && Ones(n - 1) == Ones(n) >> 1 && Ones(n) <= 0xFF
    ensures Ones(8) == 0xFF
  {
    assert Ones(0) == 0 && Ones(1) == 1 && Ones(2) == 3 && Ones(3) == 7 && Ones(4) == 15;
    assert Ones(5) == 31 && Ones(6) == 63 && Ones(7) == 127 && Ones(8) == 255;
  }

  lemma EvenShift(x: bv32, m: bv32, m': bv32)
    requires m & 1 == 1 && m' == m >> 1 && x & m == 0
    ensures Shifted(x) == x >> 1 && (x >> 1) & m' == 0
  {
  }

  lemma {:induction false} ShiftOut(x: bv32, n: nat)
    requires n <= 8 && x & Ones(n) == 0
    ensures Iterate(Shifted, x, n) == ShiftBy(x, n)
    decreases n
  {
    if n > 0 {
      OnesStep(n);
      EvenShift(x, Ones(n), Ones(n - 1));
      ShiftOut(x >> 1, n - 1);
    }
  }

  lemma ShiftByEight(x: bv32)
    ensures ShiftBy(x, 8) == x >> 8
  {
  }

  lemma EightOut(x: bv32)
    requires x & 0xFF == 0
    ensures EightBits(x) == x >> 8
  {
    OnesStep(8);
    ShiftOut(x, 8);
    ShiftByEight(x);
  }

  // ----- the table

  predicate IsTable(t: seq<bv32>) {
    |t| == 256 && forall i :: 0 <= i < 256 ==> t[i] == EightBits(i as bv32)
  }

  /** The accumulator's table, built entry by entry and bit by bit. */
  method BuildTable() returns (t: seq<bv32>)
    ensures IsTable(t)
  {
    t := [];
    var i := 0;
    while i < 256
      invariant 0 <= i <= 256 && |t| == i
      invariant forall j :: 0 <= j < i ==> t[j] == EightBits(j as bv32)
    {
      var crc := i as bv32;
      var bit := 0;
      while bit < 8
        invariant 0 <= bit <= 8
        invariant Iterate(Shifted, crc, 8 - bit) == EightBits(i as bv32)
      {
        crc := if crc & 1 == 1 then (crc >> 1) ^ POLYNOMIAL else crc >> 1;
        bit := bit + 1;
      }
      t := t + [crc];
      i := i + 1;
    }
  }

  lemma LowIndex(x: bv32)
    requires x <= 0xFF
    ensures 0 <= x as int < 256 && (x as int) as bv32 == x
  {
  }

  lemma MaskIsLow(x: bv32)
    ensures x & 0xFF <= 0xFF
  {
  }

  lemma LowAndHigh(x: bv32)
    ensures x == Xor(x & 0xFF, x & 0xFFFF_FF00) && (x & 0xFFFF_FF00) & 0xFF == 0
  {
  }

  lemma HighUntouched(c: bv32, b: Byte)
    ensures (Xor(c, Wide(b)) & 0xFFFF_FF00) >> 8 == c >> 8
  {
  }

  /** One table lookup is eight bits of the division. */
  lemma LookupAbsorbs(t: seq<bv32>, c: bv32, b: Byte)
    requires IsTable(t)
    ensures 0 <= (Xor(c, Wide(b)) & 0xFF) as int < 256
    ensures Xor(c >> 8, t[(Xor(c, Wide(b)) & 0xFF) as int]) == Absorb(c, b)
  {
    var x := Xor(c, Wide(b));
    MaskIsLow(x);
    LowIndex(x & 0xFF);
    LowAndHigh(x);
    BitsLinear(x & 0xFF, x & 0xFFFF_FF00, 8);
    EightOut(x & 0xFFFF_FF00);
    HighUntouched(c, b);
    XorCommutes(EightBits(x & 0xFF), c >> 8);
  }

  lemma XorCommutes(a: bv32, b: bv32)
    ensures Xor(a, b) == Xor(b, a)
  {
  }

  // ----- the checksum as a number

  function Number(c: bv32): U32 {
    c as int
  }

  lemma NumberBack(c: bv32)
    ensures Number(c) as bv32 == c
  {
  }

  /** `n` is the CRC-32 of the data; folded, so that nothing above this module reasons about
      bits. `SumIs` opens it. */
  ghost predicate IsSum(data: seq<Byte>, n: int) {
    forall k {:trigger Token(k)} :: Token(k) ==> n == Number(Crc32(data))
  }

  ghost function Sum(data: seq<Byte>): (n: U32)
    ensures IsSum(data, n)
  {
    SumExists(data);
    var n: U32 :| IsSum(data, n);
    n
  }

  lemma SumExists(data: seq<Byte>)
    ensures exists n: U32 :: IsSum(data, n)
  {
    assert IsSum(data, Number(Crc32(data)));
  }

  lemma SumIs(data: seq<Byte>)
    ensures Sum(data) == Number(Crc32(data))
  {
    assert Token(0);
  }

  lemma SumOfNothing()
    ensures Sum([]) == 0
  {
    SumIs([]);
    assert Crc32([]) == 0;
  }

  /** The streaming accumulator. */
  class Accumulator {
    var state: bv32
    const table: seq<bv32>

    /** What has been fed so far; folded. */
    ghost predicate Holds(data: seq<Byte>)
      reads this
    {
      forall k {:trigger Token(k)} :: Token(k) ==> IsTable(table) && state == Digest(ALL_ONES, data)
    }

    constructor ()
      ensures Holds([])
    {
      var t := BuildTable();
      table := t;
      state := ALL_ONES;
    }

    method Update(bytes: seq<Byte>, ghost before: seq<Byte>)
      requires Holds(before)
      modifies this
      ensures Holds(before + bytes)
    {
      assert Token(0);
      state := Run(table, state, bytes);
      DigestAppend(ALL_ONES, before, bytes);
    }

    method Finish(ghost data: seq<Byte>) returns (n: U32)
      requires Holds(data)
      ensures n == Sum(data)
    {
      assert Token(0);
      var crc := Xor(state, ALL_ONES);
      SumIs(data);
      n := Number(crc);
    }
  }

  lemma DigestNext(start: bv32, bytes: seq<Byte>, i: nat)
    requires i < |bytes|
    ensures Digest(start, bytes[..i + 1]) == Absorb(Digest(start, bytes[..i]), bytes[i])
  {
    assert bytes[..i + 1][..i] == bytes[..i];
  }

  method Look(table: seq<bv32>, crc: bv32, b: Byte) returns (next: bv32)
    requires IsTable(table)
    ensures next == Absorb(crc, b)
  {
    LookupAbsorbs(table, crc, b);
    var i := (Xor(crc, Wide(b)) & 0xFF) as int;
    next := Xor(crc >> 8, table[i]);
  }

  /** The byte loop: one table lookup a byte. */
  method Run(table: seq<bv32>, start: bv32, bytes: seq<Byte>) returns (crc: bv32)
    requires IsTable(table)
    ensures crc == Digest(start, bytes)
  {
    crc := start;
    var i := 0;
    while i < |bytes|
      invariant 0 <= i <= |bytes| && crc == Digest(start, bytes[..i])
    {
      DigestNext(start, bytes, i);
      crc := Look(table, crc, bytes[i]);
      i := i + 1;
    }
    assert bytes[..i] == bytes;
  }

  function Joined(blocks: seq<seq<Byte>>): seq<Byte> {
    if blocks == [] then [] else Joined(blocks[..|blocks| - 1]) + blocks[|blocks| - 1]
  }

  lemma JoinedNext(blocks: seq<seq<Byte>>, i: nat)
    requires i < |blocks|
    ensures Joined(blocks[..i + 1]) == Joined(blocks[..i]) + blocks[i]
  {
    assert blocks[..i + 1][..i] == blocks[..i];
  }

  /** However a region is split into blocks, the accumulator finishes with the bitwise CRC of
      the whole. */
  method BlockByBlock(blocks: seq<seq<Byte>>) returns (n: U32)
    ensures n == Number(Crc32(Joined(blocks)))
  {
    var a := new Accumulator();
    var i := 0;
    while i < |blocks|
      invariant 0 <= i <= |blocks| && fresh(a) && a.Holds(Joined(blocks[..i]))
    {
      JoinedNext(blocks, i);
      a.Update(blocks[i], Joined(blocks[..i]));
      i := i + 1;
    }
    assert blocks[..i] == blocks;
    n := a.Finish(Joined(blocks));
    SumIs(Joined(blocks));
  }

  // ----- bursts

  lemma AbsorbInjective(c: bv32, d: bv32, b: Byte)
    requires Absorb(c, b) == Absorb(d, b)
    ensures c == d
  {
    BitsInjective(Xor(c, Wide(b)), Xor(d, Wide(b)), 8);
    XorCancels(c, d, Wide(b));
  }

  lemma XorCancels(c: bv32, d: bv32, w: bv32)
    ensures Xor(c, w) == Xor(d, w) ==> c == d
    ensures Xor(w, c) == Xor(w, d) ==> c == d
  {
  }

  lemma {:induction false} DigestInjective(c: bv32, d: bv32, data: seq<Byte>)
    requires Digest(c, data) == Digest(d, data)
    ensures c == d
  {
    if data != [] {
      var n := |data| - 1;
      AbsorbInjective(Digest(c, data[..n]), Digest(d, data[..n]), data[n]);
      DigestInjective(c, d, data[..n]);
    }
  }

  /** Four bytes laid out as one word, the first lowest. */
  function Word(a: Byte, b: Byte, c: Byte, d: Byte): bv32 {
    Xor(Xor(Xor(Wide(a), At8(b)), At16(c)), At24(d))
  }

  function At8(b: Byte): bv32 { Wide(b) << 8 }
  function At16(b: Byte): bv32 { Wide(b) << 16 }
  function At24(b: Byte): bv32 { Wide(b) << 24 }

  lemma ShiftsDown(b: Byte)
    ensures EightBits(At8(b)) == Wide(b)
    ensures EightBits(At16(b)) == At8(b)
    ensures EightBits(At24(b)) == At16(b)
  {
    ClearLow(b);
    EightOut(At8(b));
    EightOut(At16(b));
    EightOut(At24(b));
  }

  lemma ClearLow(b: Byte)
    ensures At8(b) & 0xFF == 0 && At8(b) >> 8 == Wide(b)
    ensures At16(b) & 0xFF == 0 && At16(b) >> 8 == At8(b)
    ensures At24(b) & 0xFF == 0 && At24(b) >> 8 == At16(b)
  {
  }

  /** A part above a mask and a part below it can be told apart again. */
  lemma Peel(m: bv32, x: bv32, y: bv32, d: bv32, h: bv32)
    requires x & m == 0 && y & m == 0 && d & !m == 0 && h & !m == 0
    requires Xor(x, d) == Xor(y, h)
    ensures x == y && d == h
  {
  }

  lemma StaysBelow(m: bv32, x: bv32, y: bv32)
    requires x & m == 0 && y & m == 0
    ensures Xor(x, y) & m == 0
  {
  }

  lemma Places(b: Byte)
    ensures Wide(b) & 0xFFFF_FF00 == 0 && Wide(b) & 0xFFFF_0000 == 0 && Wide(b) & 0xFF00_0000 == 0
    ensures At8(b) & !0xFFFF_FF00 == 0 && At8(b) & 0xFFFF_0000 == 0 && At8(b) & 0xFF00_0000 == 0
    ensures At16(b) & !0xFFFF_0000 == 0 && At16(b) & 0xFF00_0000 == 0
    ensures At24(b) & !0xFF00_0000 == 0
  {
  }

  lemma PlacesInjective(a: Byte, b: Byte)
    ensures Wide(a) == Wide(b) ==> a == b
    ensures At8(a) == At8(b) ==> a == b
    ensures At16(a) == At16(b) ==> a == b
    ensures At24(a) == At24(b) ==> a == b
  {
  }

  lemma Below(a: Byte, b: Byte, c: Byte)
    ensures Xor(Wide(a), At8(b)) & 0xFFFF_0000 == 0
    ensures Xor(Xor(Wide(a), At8(b)), At16(c)) & 0xFF00_0000 == 0
  {
    Places(a);
    Places(b);
    Places(c);
    StaysBelow(0xFFFF_0000, Wide(a), At8(b));
    StaysBelow(0xFF00_0000, Wide(a), At8(b));
    StaysBelow(0xFF00_0000, Xor(Wide(a), At8(b)), At16(c));
  }

  lemma WordInjective(a: Byte, b: Byte, c: Byte, d: Byte, e: Byte, f: Byte, g: Byte, h: Byte)
    requires Word(a, b, c, d) == Word(e, f, g, h)
    ensures a == e && b == f && c == g && d == h
  {
    Below(a, b, c);
    Below(e, f, g);
    Places(d);
    Places(h);
    Peel(0xFF00_0000, Xor(Xor(Wide(a), At8(b)), At16(c)), Xor(Xor(Wide(e), At8(f)), At16(g)), At24(d), At24(h));
    Places(c);
    Places(g);
    Peel(0xFFFF_0000, Xor(Wide(a), At8(b)), Xor(Wide(e), At8(f)), At16(c), At16(g));
    Places(a);
    Places(e);
    Places(b);
    Places(f);
    Peel(0xFFFF_FF00, Wide(a), Wide(e), At8(b), At8(f));
    PlacesInjective(a, e);
    PlacesInjective(b, f);
    PlacesInjective(c, g);
    PlacesInjective(d, h);
  }

  lemma Bits(x: bv32, m: nat, n: nat)
    ensures Iterate(Shifted, Iterate(Shifted, x, m), n) == Iterate(Shifted, x, m + n)
  {
    IterateTwice(Shifted, x, m, n);
  }

  /** A byte met after `8 * k` bits is as if it had lain `k` bytes up from the start. */
  lemma LaterByte(x: bv32, n: nat, w: bv32, up: bv32)
    requires Iterate(Shifted, up, n) == w
    ensures EightBits(Xor(Iterate(Shifted, x, n), w)) == Iterate(Shifted, Xor(x, up), n + 8)
  {
    BitsLinear(x, up, n);
    Bits(Xor(x, up), n, 8);
  }

  lemma FourBytes(s: bv32, a: Byte, b: Byte, c: Byte, d: Byte)
    ensures Absorb(Absorb(Absorb(Absorb(s, a), b), c), d) == Iterate(Shifted, Xor(s, Word(a, b, c, d)), 32)
  {
    ShiftsDown(b);
    ShiftsDown(c);
    ShiftsDown(d);
    Bits(At16(c), 8, 8);
    Bits(At24(d), 8, 8);
    Bits(At24(d), 16, 8);
    var x := Xor(s, Wide(a));
    LaterByte(x, 8, Wide(b), At8(b));
    LaterByte(Xor(x, At8(b)), 16, Wide(c), At16(c));
    LaterByte(Xor(Xor(x, At8(b)), At16(c)), 24, Wide(d), At24(d));
    XorOfFour(s, Wide(a), At8(b), At16(c), At24(d));
  }

  lemma XorOfFour(s: bv32, a: bv32, b: bv32, c: bv32, d: bv32)
    ensures Xor(Xor(Xor(Xor(s, a), b), c), d) == Xor(s, Xor(Xor(Xor(a, b), c), d))
  {
    calc {
      Xor(Xor(Xor(Xor(s, a), b), c), d);
      { XorAssociates(s, a, b); }
      Xor(Xor(Xor(s, Xor(a, b)), c), d);
      { XorAssociates(s, Xor(a, b), c); }
      Xor(Xor(s, Xor(Xor(a, b), c)), d);
      { XorAssociates(s, Xor(Xor(a, b), c), d); }
      Xor(s, Xor(Xor(Xor(a, b), c), d));
    }
  }

  lemma XorAssociates(a: bv32, b: bv32, c: bv32)
    ensures Xor(Xor(a, b), c) == Xor(a, Xor(b, c))
  {
  }

  lemma DigestSnoc(s: bv32, p: seq<Byte>, b: Byte)
    ensures Digest(s, p + [b]) == Absorb(Digest(s, p), b)
  {
    assert (p + [b])[..|p|] == p;
  }

  lemma TwoDigested(s: bv32, a: Byte, b: Byte)
    ensures Digest(s, [a, b]) == Absorb(Absorb(s, a), b)
  {
    DigestSnoc(s, [], a);
    DigestSnoc(s, [a], b);
    assert [] + [a] == [a] && [a] + [b] == [a, b];
  }

  lemma FourDigested(s: bv32, a: Byte, b: Byte, c: Byte, d: Byte)
    ensures Digest(s, [a, b, c, d]) == Absorb(Absorb(Absorb(Absorb(s, a), b), c), d)
  {
    TwoDigested(s, a, b);
    TwoDigested(Digest(s, [a, b]), c, d);
    DigestAppend(s, [a, b], [c, d]);
    assert [a, b] + [c, d] == [a, b, c, d];
  }

  lemma FourAbsorbed(s: bv32, a: Byte, b: Byte, c: Byte, d: Byte)
    ensures Digest(s, [a, b, c, d]) == Iterate(Shifted, Xor(s, Word(a, b, c, d)), 32)
  {
    FourDigested(s, a, b, c, d);
    FourBytes(s, a, b, c, d);
  }

  /** Four bytes in a row are one word. */
  lemma RunAbsorbed(s: bv32, m: seq<Byte>)
    requires |m| == 4
    ensures Digest(s, m) == Iterate(Shifted, Xor(s, Word(m[0], m[1], m[2], m[3])), 32)
  {
    assert m == [m[0], m[1], m[2], m[3]];
    FourAbsorbed(s, m[0], m[1], m[2], m[3]);
  }

  /** From one state, two different four-byte runs never meet again. */
  lemma BurstFromState(s: bv32, m: seq<Byte>, m': seq<Byte>, rest: seq<Byte>)
    requires |m| == |m'| == 4 && Digest(Digest(s, m), rest) == Digest(Digest(s, m'), rest)
    ensures m == m'
  {
    DigestInjective(Digest(s, m), Digest(s, m'), rest);
    SameRun(s, m, m');
  }

  lemma SameRun(s: bv32, m: seq<Byte>, m': seq<Byte>)
    requires |m| == |m'| == 4 && Digest(s, m) == Digest(s, m')
    ensures m == m'
  {
    var w, w' := Word(m[0], m[1], m[2], m[3]), Word(m'[0], m'[1], m'[2], m'[3]);
    RunAbsorbed(s, m);
    RunAbsorbed(s, m');
    BitsInjective(Xor(s, w), Xor(s, w'), 32);
    XorCancels(w, w', s);
    WordInjective(m[0], m[1], m[2], m[3], m'[0], m'[1], m'[2], m'[3]);
  }

  lemma ThreeParts(c: bv32, a: seq<Byte>, m: seq<Byte>, z: seq<Byte>)
    ensures Digest(c, a + m + z) == Digest(Digest(Digest(c, a), m), z)
  {
    DigestAppend(c, a, m);
    DigestAppend(c, a + m, z);
  }

  lemma SameCrcSameDigest(data: seq<Byte>, data': seq<Byte>)
    requires Crc32(data) == Crc32(data')
    ensures Digest(ALL_ONES, data) == Digest(ALL_ONES, data')
  {
    XorCancels(Digest(ALL_ONES, data), Digest(ALL_ONES, data'), ALL_ONES);
  }

  /** Any change confined to four consecutive bytes changes the checksum. */
  lemma BurstChangesCrc(data: seq<Byte>, data': seq<Byte>, p: nat)
    requires |data| == |data'| && p + 4 <= |data|
    requires data[..p] == data'[..p] && data[p + 4..] == data'[p + 4..]
    requires data != data'
    ensures Crc32(data) != Crc32(data')
  {
    var a, m, m', z := data[..p], data[p..p + 4], data'[p..p + 4], data[p + 4..];
    assert data == a + m + z && data' == a + m' + z;
    ThreeParts(ALL_ONES, a, m, z);
    ThreeParts(ALL_ONES, a, m', z);
    if Crc32(data) == Crc32(data') {
      SameCrcSameDigest(data, data');
      BurstFromState(Digest(ALL_ONES, a), m, m', z);
    }
  }

  lemma BurstChangesSum(data: seq<Byte>, data': seq<Byte>, p: nat)
    requires |data| == |data'| && p + 4 <= |data|
    requires data[..p] == data'[..p] && data[p + 4..] == data'[p + 4..]
    requires data != data'
    ensures Sum(data) != Sum(data')
  {
    BurstChangesCrc(data, data', p);
    SumIs(data);
    SumIs(data');
    NumberBack(Crc32(data));
    NumberBack(Crc32(data'));
  }
}
