/** The money rules of an account stated on the numbers themselves: shares of cash, fees, funding,
    margin and the displayed entry (crates/oq-core/src/kernel.rs, crates/oq-margin/src/tier.rs,
    crates/oq-margin/src/funding.rs, crates/oq-types/src/fixed.rs). */
module CashRules {
  import opened Numbers
  import opened Cost
  import opened Ledger
  import opened Market
  import opened Events
  import opened Account
  import opened Stages
  import AccountFacts

  /** `q` is `a` divided by `b` with the fraction dropped. */
  predicate Quotient(q: int, a: int, b: int) {
    if a >= 0 then q * b <= a < q * b + b else q * b - b < a <= q * b
  }

  lemma TruncDivIsQuotient(a: int, b: int)
    requires b > 0
    ensures Quotient(TruncDiv(a, b), a, b)
  {
    if a >= 0 {
      Euclid(a, b);
    } else {
      Euclid(0 - a, b);
      NegateProduct((0 - a) / b, b);
    }
  }

  /** `x` is the part of `cash` at a rate in billionths, the fraction dropped. */
  predicate ShareOf(x: int, cash: int, rate: int) {
    Quotient(x, cash * rate, 1_000_000_000)
  }

  lemma ScaledIsShare(cash: int, rate: int)
    ensures ShareOf(Scaled(cash, rate), cash, rate)
  {
    TruncDivIsQuotient(cash * rate, 1_000_000_000);
  }

  function Value(price: int, lots: int, tickCash: int): int {
    price * (if lots < 0 then 0 - lots else lots) * tickCash
  }

  // ----- fees

  /** A maker pays the maker rate on the value traded and a taker the taker rate. */
  lemma FeeIsShare(fees: Fees, tickCash: int, f: Fill)
    ensures ShareOf(fees.Charge(tickCash, f), Value(f.price, f.qty, tickCash),
                    match f.liquidity case Maker => fees.maker case Taker => fees.taker)
  {
    ScaledIsShare(Value(f.price, f.qty, tickCash), match f.liquidity case Maker => fees.maker case Taker => fees.taker);
  }

  // ----- funding

  /** A long pays the share of its value that the rate names, and a short is paid it. */
  predicate Settles(amount: int, qty: int, price: int, tickCash: int, rate: int) {
    if qty == 0 then amount == 0
    else if qty > 0 then ShareOf(0 - amount, Value(price, qty, tickCash), rate)
    else ShareOf(amount, Value(price, qty, tickCash), rate)
  }

  lemma LegSettles(tickCash: int, rate: int, mark: int, qty: int)
    ensures Settles(if qty == 0 then 0 else Settlement(tickCash, rate, mark, qty), qty, mark, tickCash, rate)
  {
    ScaledIsShare(Value(mark, qty, tickCash), rate);
  }

  /** Funding moves the balance by what the long leg and the short leg settle for, and says so. */
  lemma FundingSettlesBothLegs(k: KernelV, instrument: Option<nat>, at: int, rate: int, mark: int, h: nat)
      returns (long: int, short: int)
    requires k.state.holdings != [] && Route(k.state, instrument) == Some(h)
    requires h < |k.state.holdings| && !AccountFacts.NoPosition(k.state.holdings[h])
    ensures var v := k.state.holdings[h];
      Settles(long, v.long.qty, mark, v.tickCash, rate) && Settles(short, v.short.qty, mark, v.tickCash, rate)
    ensures var b := BeforeCheck(k, Funding(instrument, at, rate, mark));
      && b.kernel.state.balance == k.state.balance + long + short && b.kernel.state.funding == k.state.funding + long + short
      && b.kernel.state.now == at && b.out == [Funded(long + short, at)]
    ensures CheckedAt(k, Funding(instrument, at, rate, mark)) == Some(mark)
  {
    var v := k.state.holdings[h];
    long := if v.long.qty == 0 then 0 else Settlement(v.tickCash, rate, mark, v.long.qty);
    short := if v.short.qty == 0 then 0 else Settlement(v.tickCash, rate, mark, v.short.qty);
    LegSettles(v.tickCash, rate, mark, v.long.qty);
    LegSettles(v.tickCash, rate, mark, v.short.qty);
    assert Route(k.state.(now := at), instrument) == Some(h);
  }

  // ----- margin

  /** The first bracket that reaches the notional, or the last one. */
  predicate Brackets(t: TierTable, notional: int, i: nat) {
    && i < |t| && (forall j :: 0 <= j < i ==> t[j].maxNotional < notional)
    && (i == |t| - 1 || notional <= t[i].maxNotional)
  }

  lemma {:induction false} TierIsFirst(t: TierTable, notional: int) returns (i: nat)
    ensures Brackets(t, notional, i) && TierFor(t, notional) == t[i]
    decreases |t|
  {
    if |t| == 1 || notional <= t[0].maxNotional {
      i := 0;
    } else {
      var k := TierIsFirst(t[1..], notional);
      i := k + 1;
      forall j | 0 <= j < i ensures t[j].maxNotional < notional {
        if j > 0 { assert t[j] == t[1..][j - 1]; }
      }
    }
  }

  /** The requirement of a leg: the bracket's share of its value less the bracket's amount, never a
      credit. */
  predicate Needs(r: int, t: TierTable, tickCash: int, price: int, qty: int, i: nat, share: int) {
    var notional := Value(price, qty, tickCash);
    && Brackets(t, notional, i) && ShareOf(share, notional, t[i].rate)
    && r == (if share > t[i].amount then share - t[i].amount else 0)
  }

  lemma RequiredIs(t: TierTable, tickCash: int, price: int, qty: int) returns (i: nat, share: int)
    ensures Needs(Required(t, tickCash, price, qty), t, tickCash, price, qty, i, share)
  {
    var notional := Value(price, qty, tickCash);
    i := TierIsFirst(t, notional);
    share := Scaled(notional, t[i].rate);
    ScaledIsShare(notional, t[i].rate);
  }

  /** What a leg's requirement comes to at its holding's mark; a flat leg needs nothing. */
  function LegNeed(v: HoldingV, l: Leg): int {
    if l.qty == 0 then 0 else Required(v.table, v.tickCash, v.mark, l.qty)
  }

  function NeedFrom(hs: seq<HoldingV>, h: nat): int
    requires h <= |hs|
    decreases |hs| - h
  {
    if h == |hs| then 0 else LegNeed(hs[h], hs[h].long) + LegNeed(hs[h], hs[h].short) + NeedFrom(hs, h + 1)
  }

  lemma {:induction false} NeedOfAll(hs: seq<HoldingV>, h: nat)
    requires h <= |hs|
    ensures Maintenance(hs[..h]) + NeedFrom(hs, h) == Maintenance(hs)
    decreases |hs| - h
  {
    if h == |hs| {
      assert hs[..h] == hs;
    } else {
      NeedOfAll(hs, h + 1);
      assert hs[..h + 1][..h] == hs[..h];
    }
  }

  /** The account is due for liquidation exactly when balance and profit together do not exceed the
      requirement: of every leg of every holding at its own mark, or, for a single net position, of
      that position at the price given. */
  lemma LiquidatableIff(s: StateV, mark: int)
    ensures s.mode.Hedge? || |s.holdings| != 1 ==>
      (Liquidatable(s, mark) <==> s.balance + AccountFacts.WorthFrom(s.holdings, 0) <= NeedFrom(s.holdings, 0))
    ensures s.mode.OneWay? && |s.holdings| == 1 ==>
      var v := s.holdings[0];
      (Liquidatable(s, mark) <==>
        v.long.qty != 0 && s.balance + v.tickCash * (v.long.qty * mark) - Basis(v.tickCash, v.long)
          <= Required(v.table, v.tickCash, mark, v.long.qty))
  {
    AccountFacts.WorthOfAll(s.holdings, 0);
    NeedOfAll(s.holdings, 0);
    assert s.holdings[..0] == [];
    if |s.holdings| == 1 {
      WorthIsMarkLessBasis(s.holdings[0].tickCash, s.holdings[0].long, mark);
    }
  }

  // ----- the displayed entry

  /** After an open the entry is the cost of a lot-tick, the fraction dropped; with no tick value it is
      the price. */
  lemma EntryIsAverage(tickCash: int, l: Leg, qty: int, price: int, sign: int)
    requires qty > 0 && (sign == 1 || sign == -1)
    ensures var r := Enlarged(tickCash, l, qty, price, sign);
      && Abs(r.qty) == Abs(l.qty) + qty && LegCost(tickCash, r) == LegCost(tickCash, l) + Value(price, qty, tickCash)
      && if tickCash > 0
         then I64_MIN <= r.entry <= I64_MAX
              && (I64_MIN < r.entry < I64_MAX ==> Quotient(r.entry, LegCost(tickCash, r), Abs(r.qty) * tickCash))
         else r.entry == price
  {
    var size := Abs(l.qty) + qty;
    var value := LegCost(tickCash, l) + Notional(tickCash, price, qty);
    if tickCash > 0 {
      PositiveProduct(size, tickCash);
      TruncDivIsQuotient(value, size * tickCash);
    } else {
      NoPositiveProduct(size, tickCash);
    }
  }

  lemma NoPositiveProduct(a: int, b: int)
    requires a > 0 && b <= 0
    ensures a * b <= 0
  {
  }

  lemma PositiveProduct(a: int, b: int)
    requires a > 0 && b > 0
    ensures a * b > 0
  {
  }

  /** A close leaves the entry as it was while lots are left, and clears it with the last one. */
  lemma EntryAfterClose(tickCash: int, l: Leg, qty: int, price: int)
    requires l.qty != 0
    ensures var r := Shrunk(tickCash, l, qty, price); r.entry == if r.qty == 0 then 0 else l.entry
  {
  }
}
