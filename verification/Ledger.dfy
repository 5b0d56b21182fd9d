/** One leg of a position and what opening, closing and marking it do to the books
    (crates/oq-core/src/kernel.rs, crates/oq-core/src/cost.rs). Cash is exact here. */
module Ledger {
  import opened Numbers
  import opened Cost

  /** A signed size, the displayed average entry, and the cost behind it. */
  datatype Leg = Leg(qty: int, entry: int, cost: EntryCost)

  const FLAT := Leg(0, 0, NO_COST)

  function LegCost(tickCash: int, l: Leg): int {
    l.cost.Value(tickCash, l.qty, l.entry)
  }

  /** Profit of the leg at a mark, against the cost rather than the displayed entry. */
  function LegWorth(tickCash: int, l: Leg, mark: int): int {
    if l.qty == 0 then 0
    else if l.qty > 0 then Notional(tickCash, mark, l.qty) - LegCost(tickCash, l)
    else LegCost(tickCash, l) - Notional(tickCash, mark, l.qty)
  }

  function Enlarged(tickCash: int, l: Leg, qty: int, price: int, sign: int): Leg {
    if qty == 0 then l
    else
      var size := Abs(l.qty) + qty;
      var value := LegCost(tickCash, l) + Notional(tickCash, price, qty);
      var denominator := size * tickCash;
      var entry := if denominator > 0 then Clamp64(TruncDiv(value, denominator)) else price;
      Leg(sign * size, entry, EntryCost(sign * size, entry, value))
  }

  /** How many lots a request to close takes off. */
  function LotsClosed(l: Leg, qty: int): int {
    if l.qty == 0 then 0 else Min(qty, Abs(l.qty))
  }

  function Shrunk(tickCash: int, l: Leg, qty: int, price: int): Leg {
    if l.qty == 0 then l
    else
      var closing := LotsClosed(l, qty);
      var left := l.qty - closing * SignOf(l.qty);
      var entry := if left == 0 then 0 else l.entry;
      Leg(left, entry, EntryCost(left, entry, Remaining(LegCost(tickCash, l), l.qty, closing, Notional(tickCash, price, closing))))
  }

  function ShrunkProfit(tickCash: int, l: Leg, qty: int, price: int): int {
    if l.qty == 0 then 0
    else
      var closing := LotsClosed(l, qty);
      Profit(LegCost(tickCash, l), l.qty, closing, Notional(tickCash, price, closing))
  }

  // ----- exactness of one step

  /** The cost with the sign of the position: what the leg still owes the cash flows. */
  function Basis(tickCash: int, l: Leg): int {
    if l.qty >= 0 then LegCost(tickCash, l) else 0 - LegCost(tickCash, l)
  }

  lemma SignedNotional(tickCash: int, price: int, qty: int, sign: int)
    requires qty >= 0 && (sign == 1 || sign == -1)
    ensures sign * Notional(tickCash, price, qty) == tickCash * (sign * qty * price)
    ensures Notional(tickCash, price, qty) == tickCash * (qty * price)
  {
    var p := price * qty;
    assert p == qty * price;
    assert sign * qty * price == sign * p by {
      if sign == -1 { NegateProduct(qty, price); }
    }
    if sign == -1 { NegateProduct(p, tickCash); }
  }

  lemma WorthIsMarkLessBasis(tickCash: int, l: Leg, mark: int)
    ensures LegWorth(tickCash, l, mark) == tickCash * (l.qty * mark) - Basis(tickCash, l)
  {
    SignedNotional(tickCash, mark, Abs(l.qty), if l.qty >= 0 then 1 else -1);
  }

  lemma EnlargedBasis(tickCash: int, l: Leg, qty: int, price: int, sign: int)
    requires qty >= 0 && (qty > 0 ==> sign == 1 || sign == -1)
    requires qty > 0 ==> (l.qty > 0 ==> sign == 1) && (l.qty < 0 ==> sign == -1)
    ensures Enlarged(tickCash, l, qty, price, sign).qty == l.qty + sign * qty
    ensures Basis(tickCash, Enlarged(tickCash, l, qty, price, sign))
         == Basis(tickCash, l) + tickCash * (sign * qty * price)
  {
    if qty > 0 {
      SignedNotional(tickCash, price, qty, sign);
    }
  }

  lemma ShrunkBasis(tickCash: int, l: Leg, qty: int, price: int)
    requires qty >= 0
    ensures var d := 0 - SignOf(l.qty) * LotsClosed(l, qty);
      Shrunk(tickCash, l, qty, price).qty == l.qty + d &&
      Basis(tickCash, Shrunk(tickCash, l, qty, price))
        == Basis(tickCash, l) + tickCash * (d * price) + ShrunkProfit(tickCash, l, qty, price)
  {
    if l.qty != 0 {
      var closing := LotsClosed(l, qty);
      SignedNotional(tickCash, price, closing, 0 - SignOf(l.qty));
      CostConserved(LegCost(tickCash, l), l.qty, closing, Notional(tickCash, price, closing));
    }
  }

  // ----- partial closes

  datatype Exit = Exit(lots: nat, price: int)

  /** A leg after a list of closes, latest last, and what they realized in total. */
  function AfterExits(tickCash: int, l: Leg, xs: seq<Exit>): Leg {
    if xs == [] then l
    else Shrunk(tickCash, AfterExits(tickCash, l, xs[..|xs| - 1]), xs[|xs| - 1].lots, xs[|xs| - 1].price)
  }

  function RealizedBy(tickCash: int, l: Leg, xs: seq<Exit>): int {
    if xs == [] then 0
    else
      var k, x := AfterExits(tickCash, l, xs[..|xs| - 1]), xs[|xs| - 1];
      RealizedBy(tickCash, l, xs[..|xs| - 1]) + ShrunkProfit(tickCash, k, x.lots, x.price)
  }

  /** Cash the exits brought in, each counted for the lots it actually closed. */
  function ExitCash(tickCash: int, l: Leg, xs: seq<Exit>): int {
    if xs == [] then 0
    else
      var k, x := AfterExits(tickCash, l, xs[..|xs| - 1]), xs[|xs| - 1];
      ExitCash(tickCash, l, xs[..|xs| - 1]) + Notional(tickCash, x.price, LotsClosed(k, x.lots))
  }

  lemma {:induction false} ExitsKeepBasis(tickCash: int, l: Leg, xs: seq<Exit>)
    ensures var k := AfterExits(tickCash, l, xs);
      && (l.qty > 0 ==> 0 <= k.qty <= l.qty) && (l.qty < 0 ==> l.qty <= k.qty <= 0) && (l.qty == 0 ==> k.qty == 0)
      && RealizedBy(tickCash, l, xs) == Basis(tickCash, k) - Basis(tickCash, l) + SignOf(l.qty) * ExitCash(tickCash, l, xs)
  {
    if xs != [] {
      var n := |xs| - 1;
      ExitsKeepBasis(tickCash, l, xs[..n]);
      var k := AfterExits(tickCash, l, xs[..n]);
      ShrunkBasis(tickCash, k, xs[n].lots, xs[n].price);
      SignedNotional(tickCash, xs[n].price, LotsClosed(k, xs[n].lots), 0 - SignOf(k.qty));
      var c := Notional(tickCash, xs[n].price, LotsClosed(k, xs[n].lots));
      assert SignOf(l.qty) * (ExitCash(tickCash, l, xs[..n]) + c)
          == SignOf(l.qty) * ExitCash(tickCash, l, xs[..n]) + SignOf(l.qty) * c;
    }
  }

  /** However a position is split into closes, once it is flat the total realized is what
      the exits brought in against the entry cost: no cent depends on the split. */
  lemma SplitClosesRealizeTheSame(tickCash: int, l: Leg, xs: seq<Exit>)
    requires l.qty != 0 && AfterExits(tickCash, l, xs).qty == 0
    ensures RealizedBy(tickCash, l, xs) == SignOf(l.qty) * (ExitCash(tickCash, l, xs) - LegCost(tickCash, l))
  {
    ExitsKeepBasis(tickCash, l, xs);
  }

  /** After `n` partial closes the remaining cost is within `n` cash units of the share the
      remaining lots should carry, and never negative. */
  lemma {:induction false} RemainingStaysProportional(tickCash: int, l: Leg, xs: seq<Exit>)
    requires l.qty != 0 && LegCost(tickCash, l) >= 0
    ensures var k := AfterExits(tickCash, l, xs);
      && 0 <= LegCost(tickCash, k)
      && Abs(LegCost(tickCash, k) * Abs(l.qty) - LegCost(tickCash, l) * Abs(k.qty)) <= |xs| * Abs(l.qty)
  {
    if xs != [] {
      var n := |xs| - 1;
      RemainingStaysProportional(tickCash, l, xs[..n]);
      ExitsKeepBasis(tickCash, l, xs[..n]);
      CloseDrift(tickCash, LegCost(tickCash, l), Abs(l.qty), AfterExits(tickCash, l, xs[..n]), xs[n], n);
    }
  }

  lemma CloseDrift(tickCash: int, cost: int, size: nat, k: Leg, x: Exit, n: nat)
    requires size > 0 && LegCost(tickCash, k) >= 0
    requires Abs(LegCost(tickCash, k) * size - cost * Abs(k.qty)) <= n * size
    ensures var k' := Shrunk(tickCash, k, x.lots, x.price);
      && 0 <= LegCost(tickCash, k')
      && Abs(LegCost(tickCash, k') * size - cost * Abs(k'.qty)) <= (n + 1) * size
  {
    if k.qty == 0 {
      FewerIsWithin(LegCost(tickCash, k) * size - cost * Abs(k.qty), n, size);
    } else {
      var closing := LotsClosed(k, x.lots);
      var exit := Notional(tickCash, x.price, closing);
      RemainingNearShare(LegCost(tickCash, k), k.qty, closing, exit);
      ShareDrift(cost, size, LegCost(tickCash, k), Abs(k.qty),
                 Remaining(LegCost(tickCash, k), k.qty, closing, exit), Abs(k.qty) - closing, n);
    }
  }

  lemma FewerIsWithin(d: int, n: nat, s: nat)
    requires Abs(d) <= n * s
    ensures Abs(d) <= (n + 1) * s
  {
    Distribute(n, 1, s);
  }

  /** One close adds less than one unit of drift to the share. */
  lemma ShareDrift(c: int, s: nat, r: int, size: nat, left: int, rest: nat, n: nat)
    requires s > 0 && size > 0 && rest <= size
    requires Abs(left * size - r * rest) < size
    requires Abs(r * s - c * size) <= n * s
    ensures Abs(left * s - c * rest) <= (n + 1) * s
  {
    var a, b, d := left * size - r * rest, r * s - c * size, left * s - c * rest;
    DriftIdentity(c, s, r, size, left, rest);
    assert d * size == a * s + b * rest;
    BoundProduct(a, size, s);
    BoundProduct(b, n * s, rest);
    MulMonotone(n * s, rest, size);
    Distribute(s, n * s, size);
    Distribute(n, 1, s);
    assert size * s == s * size;
    Divide(d, (n + 1) * s, size);
  }

  lemma DriftIdentity(c: int, s: int, r: int, size: int, left: int, rest: int)
    ensures (left * s - c * rest) * size == (left * size - r * rest) * s + (r * s - c * size) * rest
  {
    Distribute(left * s, 0 - c * rest, size);
    Distribute(left * size, 0 - r * rest, s);
    Distribute(r * s, 0 - c * size, rest);
    NegateProduct(c * rest, size);
    NegateProduct(r * rest, s);
    NegateProduct(c * size, rest);
    Three(left, s, size);
    Three(c, rest, size);
    Three(r, rest, s);
  }

  lemma Three(a: int, b: int, c: int)
    ensures a * b * c == a * c * b
  {
  }

  lemma BoundProduct(x: int, bound: int, k: nat)
    requires Abs(x) <= bound
    ensures Abs(x * k) <= bound * k
  {
    MulMonotone(k, Abs(x), bound);
    if x < 0 { NegateProduct(x, k); }
  }

  lemma Divide(d: int, bound: int, size: int)
    requires size > 0 && Abs(d * size) <= bound * size
    ensures Abs(d) <= bound
  {
    if Abs(d) > bound {
      Distribute(Abs(d), 0 - bound, size);
      NegateProduct(bound, size);
      MulAtLeast(Abs(d) - bound, size);
      if d < 0 { NegateProduct(d, size); }
    }
  }
}
