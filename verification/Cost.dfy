/** Closing part of a position: the cost allocated to it, the profit taken and the cost that remains
    (crates/oq-core/src/cost.rs). */
module Cost {
  import opened Numbers

  /** Notional at full width: price times absolute size times the cash value of one tick. */
  function Notional(tickCash: int, price: int, qty: int): int {
    price * Abs(qty) * tickCash
  }

  /** What the last fill left behind: the cost, stamped with the quantity and the
      displayed entry it belongs to. */
  datatype EntryCost = EntryCost(qty: int, entry: int, value: int) {
    /** A holding whose public fields no longer match the stamp was seeded from
        outside and carries only its displayed precision. */
    function Value(tickCash: int, heldQty: int, heldEntry: int): int {
      if heldQty == 0 then 0
      else if heldQty == qty && heldEntry == entry then value
      else Notional(tickCash, heldEntry, heldQty)
    }
  }

  const NO_COST := EntryCost(0, 0, 0)

  function SignOf(held: int): int {
    if held > 0 then 1 else -1
  }

  /** The part of `cost` that `closing` of `size` lots carries: quotient first, then
      the remainder, so that nothing wider than the cost is ever formed. */
  function Allocated(cost: int, size: int, closing: int): int
    requires size > 0
  {
    TruncDiv(cost, size) * closing + TruncDiv(TruncMod(cost, size) * closing, size)
  }

  predicate Inexact(cost: int, size: int, closing: int)
    requires size > 0
  {
    TruncMod(TruncMod(cost, size) * closing, size) != 0
  }

  /** Profit realized by closing: exit minus allocation, one unit nearer to zero when
      the allocation dropped a fraction that shifted a long profit or a short loss. */
  function Profit(cost: int, held: int, closing: int, exit: int): int
    requires held != 0
  {
    var sign := SignOf(held);
    var pnl := (exit - Allocated(cost, Abs(held), closing)) * sign;
    if Inexact(cost, Abs(held), closing) && ((pnl > 0 && sign > 0) || (pnl < 0 && sign < 0))
    then pnl - sign
    else pnl
  }

  function Remaining(cost: int, held: int, closing: int, exit: int): int
    requires held != 0
  {
    if closing == Abs(held) then 0
    else cost - (exit - Profit(cost, held, closing, exit) * SignOf(held))
  }

  /** Where no 128-bit intermediate of a close saturates: a size that has an absolute value, at
      most that many lots either way, and cash well inside the range. */
  predicate InRange(cost: int, held: int, closing: int, exit: int) {
    held != I64_MIN && Abs(closing) <= Abs(held) && 4 * Abs(cost) <= I128_MAX && 4 * Abs(exit) <= I128_MAX
  }

  /** The close with the saturating steps the source computes in. In range they are exact, so
      only the final narrowing to 64-bit cash is visible. */
  method Close(cost: int, held: I64, closing: I64, exit: int) returns (left: int, cash: I64)
    requires held != 0
    ensures InRange(cost, held, closing, exit) ==> left == Remaining(cost, held, closing, exit)
    ensures InRange(cost, held, closing, exit) ==> cash == Clamp64(Profit(cost, held, closing, exit))
  {
    var size := if held == I64_MIN then I64_MAX else Abs(held);
    if InRange(cost, held, closing, exit) {
      AllocationBounded(cost, size, closing);
      QuotientBounded(cost, size, closing);
    }
    var remainder := TruncMod(cost, size) * closing;
    var share := Clamp128(Clamp128(TruncDiv(cost, size) * closing) + TruncDiv(remainder, size));
    var sign := if held > 0 then 1 else -1;
    var pnl := Clamp128(Clamp128(exit - share) * sign);
    if TruncMod(remainder, size) != 0 && ((pnl > 0 && sign > 0) || (pnl < 0 && sign < 0)) {
      pnl := pnl - sign;
    }
    var consumed := Clamp128(exit - Clamp128(pnl * sign));
    left := if closing == size then 0 else Clamp128(cost - consumed);
    cash := Clamp64(pnl);
  }

  lemma TruncBounded(a: int, b: int)
    requires b > 0
    ensures a == TruncDiv(a, b) * b + TruncMod(a, b)
    ensures Abs(TruncMod(a, b)) < b
    ensures a >= 0 ==> TruncDiv(a, b) >= 0 && 0 <= TruncMod(a, b) <= a
    ensures a <= 0 ==> TruncDiv(a, b) <= 0 && a <= TruncMod(a, b) <= 0
  {
    if a >= 0 {
      EuclidNonNegative(a, b);
      Euclid(a, b);
    } else {
      EuclidNonNegative(-a, b);
      Euclid(-a, b);
      NegateProduct(-a / b, b);
    }
  }

  lemma QuotientBounded(cost: int, size: int, closing: int)
    requires Abs(closing) <= size && size > 0
    ensures Abs(TruncDiv(cost, size) * closing) <= Abs(cost)
  {
    var q, c := TruncDiv(cost, size), Abs(closing);
    QuotientBoundedAbove(cost, size, c);
    assert q * c == c * q;
    if closing < 0 {
      NegateProduct(c, q);
      assert q * closing == closing * q;
    }
  }

  lemma QuotientBoundedAbove(cost: int, size: int, closing: int)
    requires 0 <= closing <= size && size > 0
    ensures Abs(TruncDiv(cost, size) * closing) <= Abs(cost)
  {
    TruncBounded(cost, size);
    var q := TruncDiv(cost, size);
    if q >= 0 {
      MulMonotone(q, closing, size);
    } else {
      MulMonotone(-q, closing, size);
      NegateProduct(q, closing);
      NegateProduct(q, size);
    }
  }

  /** Allocating to a negative number of lots mirrors allocating to a positive one. */
  lemma AllocationMirrors(cost: int, size: int, closing: int)
    requires size > 0
    ensures Allocated(cost, size, 0 - closing) == 0 - Allocated(cost, size, closing)
  {
    NegateProduct(closing, TruncDiv(cost, size));
    NegateProduct(closing, TruncMod(cost, size));
  }

  lemma AllocationBounded(cost: int, size: int, closing: int)
    requires Abs(closing) <= size && size > 0
    ensures Abs(Allocated(cost, size, closing)) <= Abs(cost)
    decreases closing < 0
  {
    if closing < 0 {
      AllocationMirrors(cost, size, 0 - closing);
      AllocationBounded(cost, size, 0 - closing);
      return;
    }
    AllocationTruncates(cost, size, closing);
    var c := Abs(cost);
    MulMonotone(c, closing, size);
    QuotientAtMost(c * closing, c, size);
    if cost < 0 {
      NegateProduct(cost, closing);
      SignOfProduct(cost, closing);
      if cost * closing >= 0 {
        assert cost * closing == 0;
        QuotientAtMost(0, 0, size);
      }
    }
  }

  lemma MulMonotone(k: int, x: int, y: int)
    requires k >= 0 && 0 <= x <= y
    ensures 0 <= k * x <= k * y
  {
    assert k * (y - x) >= 0;
    assert k * (y - x) == k * y - k * x;
  }

  /** Dividing before multiplying allocates exactly the truncated proportional share. */
  lemma {:induction false} AllocationTruncates(cost: int, size: int, closing: int)
    requires size > 0 && 0 <= closing
    ensures Allocated(cost, size, closing) == TruncDiv(cost * closing, size)
    ensures Inexact(cost, size, closing) <==> (cost * closing) % size != 0
  {
    var q, r := TruncDiv(cost, size), TruncMod(cost, size);
    var t := TruncDiv(r * closing, size);
    var rest := TruncMod(r * closing, size);
    TruncBounded(cost, size);
    TruncBounded(r * closing, size);
    SignOfProduct(cost, closing);
    SignOfProduct(r, closing);
    ShareDecomposes(cost, size, closing, q, r, t, rest);
    if cost * closing == 0 {
      assert r * closing == 0 by { if closing != 0 { assert cost == 0; } }
    }
    TruncDivUnique(cost * closing, size, q * closing + t);
    Divisible(cost * closing, size, q * closing + t, rest);
  }

  lemma ShareDecomposes(cost: int, size: int, closing: int, q: int, r: int, t: int, rest: int)
    requires cost == q * size + r
    requires r * closing == t * size + rest
    ensures cost * closing == (q * closing + t) * size + rest
  {
    Distribute(q * size, r, closing);
    Distribute(q * closing, t, size);
    assert (q * size) * closing == (q * closing) * size;
  }

  lemma SignOfProduct(a: int, b: int)
    requires b >= 0
    ensures a >= 0 ==> a * b >= 0
    ensures a <= 0 ==> a * b <= 0
    ensures a * b > 0 ==> a > 0
    ensures a * b < 0 ==> a < 0
    ensures a * b == 0 ==> a == 0 || b == 0
  {
  }

  lemma Divisible(p: int, b: int, k: int, rest: int)
    requires b > 0 && p == k * b + rest && -b < rest < b
    ensures p % b == 0 <==> rest == 0
  {
    Euclid(p, b);
    if rest >= 0 {
      DivisionUnique(p / b, k, b, p % b, rest);
    } else {
      Distribute(k, -1, b);
      DivisionUnique(p / b, k - 1, b, p % b, rest + b);
    }
  }

  /** The exact rational profit `sign * (exit - cost * closing / size)`, over `size`. */
  function ExactProfitNumerator(cost: int, held: int, closing: int, exit: int): int {
    SignOf(held) * (exit * Abs(held) - cost * closing)
  }

  /** `Profit` is the exact profit truncated toward zero precisely when the cost is not
      negative, or divides evenly, or the exit equals the allocation. Negative costs
      (negative prices) are where the correction goes the wrong way. */
  lemma ProfitIsTruncated(cost: int, held: int, closing: int, exit: int)
    requires held != 0 && 0 <= closing <= Abs(held)
    ensures Profit(cost, held, closing, exit) == TruncDiv(ExactProfitNumerator(cost, held, closing, exit), Abs(held))
       <==> (cost >= 0 || (cost * closing) % Abs(held) == 0 || exit == Allocated(cost, Abs(held), closing))
  {
    var size, sign := Abs(held), SignOf(held);
    var share := Allocated(cost, size, closing);
    var rest := cost * closing - share * size;
    AllocationTruncates(cost, size, closing);
    TruncBounded(cost * closing, size);
    Divisible(cost * closing, size, share, rest);
    SignOfProduct(cost, closing);
    var pnl := (exit - share) * sign;
    var x := ExactProfitNumerator(cost, held, closing, exit);
    Distribute(exit, -share, size);
    NegateProduct(share, size);
    if sign < 0 { NegateProduct(exit - share, size); }
    assert x == pnl * size - sign * rest;
    TruncatedNear(x, pnl, size, sign * rest);
  }

  lemma TruncatedNear(x: int, p: int, b: int, e: int)
    requires b > 0 && -b < e < b && x == p * b - e
    ensures TruncDiv(x, b) == if e > 0 && p > 0 then p - 1 else if e < 0 && p < 0 then p + 1 else p
  {
    Distribute(p, -1, b);
    Distribute(p, 1, b);
    if p > 0 {
      MulAtLeast(p, b);
    } else if p < 0 {
      MulAtLeast(-p, b);
      NegateProduct(p, b);
    }
    TruncDivUnique(x, b, if e > 0 && p > 0 then p - 1 else if e < 0 && p < 0 then p + 1 else p);
  }

  /** A long of three lots carrying a cost of -7, one lot closed for 5: the exact profit
      is 7 1/3, which truncates to 7, and the code answers 6. */
  lemma NegativeCostLosesAUnit()
    ensures Profit(-7, 3, 1, 5) == 6
    ensures TruncDiv(ExactProfitNumerator(-7, 3, 1, 5), 3) == 7
  {
    assert TruncDiv(-7, 3) == -2 && TruncMod(-7, 3) == -1;
    assert Allocated(-7, 3, 1) == -2;
    assert Inexact(-7, 3, 1);
  }

  /** Every unit of cost is either still held or was set against the exit. */
  lemma CostConserved(cost: int, held: int, closing: int, exit: int)
    requires held != 0 && closing <= Abs(held)
    ensures cost == Remaining(cost, held, closing, exit) + exit - SignOf(held) * Profit(cost, held, closing, exit)
  {
    if closing == Abs(held) {
      AllocationTruncates(cost, closing, closing);
      TruncDivUnique(cost * closing, closing, cost) by {
        SignOfProduct(cost, closing);
      }
      Divisible(cost * closing, closing, cost, 0);
    }
  }

  /** Distance, in units of one over `size`, between what a close consumed and the
      proportional share it should have consumed: less than one unit. */
  lemma RemainingNearShare(cost: int, held: int, closing: int, exit: int)
    requires held != 0 && 0 <= closing <= Abs(held) && cost >= 0
    ensures Abs(Remaining(cost, held, closing, exit) * Abs(held) - cost * (Abs(held) - closing)) < Abs(held)
    ensures Remaining(cost, held, closing, exit) >= 0
  {
    var size := Abs(held);
    var left := Remaining(cost, held, closing, exit);
    var share := Allocated(cost, size, closing);
    AllocationTruncates(cost, size, closing);
    TruncBounded(cost * closing, size);
    Divisible(cost * closing, size, share, cost * closing - share * size);
    SignOfProduct(cost, closing);
    CostConserved(cost, held, closing, exit);
    var consumed := cost - left;
    assert consumed == share || (consumed == share + 1 && (cost * closing) % size != 0);
    Distribute(share, 1, size);
    NearShare(cost, size, closing, consumed);
  }

  lemma NearShare(cost: int, size: int, closing: int, consumed: int)
    requires 0 <= closing <= size && cost >= 0
    requires -size < cost * closing - consumed * size < size
    ensures Abs((cost - consumed) * size - cost * (size - closing)) < size
    ensures cost - consumed >= 0
  {
    var left := cost - consumed;
    Distribute(cost, -consumed, size);
    NegateProduct(consumed, size);
    Distribute(size, -closing, cost);
    NegateProduct(closing, cost);
    MulMonotone(cost, size - closing, size);
    if left < 0 {
      MulAtLeast(-left, size);
      NegateProduct(left, size);
    }
  }
}
