/** A sweep is the best allocation there is, and taking in parts is taking at once
    (crates/oq-book/src/book.rs). */
module SweepFacts {
  import opened Numbers
  import opened DepthSide

  // ----- optimality

  /** An allocation of lots to levels that no level is asked to exceed. */
  ghost predicate Allocates(s: seq<Level>, a: seq<nat>) {
    |a| == |s| && forall i :: 0 <= i < |s| ==> a[i] <= Avail(s[i])
  }

  function Lots(a: seq<nat>): nat {
    if a == [] then 0 else a[0] + Lots(a[1..])
  }

  function CostOf(s: seq<Level>, a: seq<nat>): int
    requires |a| == |s|
  {
    if s == [] then 0 else s[0].price * a[0] + CostOf(s[1..], a[1..])
  }

  /** Greedy against any allocation that still has `behind` more lots to place: each of
      those costs at least (on asks) or brings at most (on bids) the best price left. */
  lemma {:induction false} GreedyAhead(descending: bool, s: seq<Level>, want: nat, a: seq<nat>, behind: nat)
    requires SortedLevels(descending, s) && Allocates(s, a)
    requires want <= Total(s) && Lots(a) == want + behind
    ensures s == [] ==> behind == 0 && want == 0
    ensures s != [] ==>
      if descending then CostOf(s, a) <= GreedyCost(s, want) + s[0].price * behind
      else CostOf(s, a) >= GreedyCost(s, want) + s[0].price * behind
  {
    if s != [] {
      var g := TakeFrom(s[0], want);
      var next := behind + g - a[0];
      TailSorted(descending, s);
      assert Allocates(s[1..], a[1..]) by {
        forall i | 0 <= i < |s[1..]| ensures a[1..][i] <= Avail(s[1..][i]) {
          assert a[i + 1] <= Avail(s[i + 1]);
        }
      }
      assert next >= 0;
      GreedyAhead(descending, s[1..], want - g, a[1..], next);
      if |s| > 1 {
        assert Before(descending, s[0].price, s[1].price);
        PriceGap(descending, s[0].price, s[1].price, next);
      }
      assert s[0].price * a[0] + s[0].price * next == s[0].price * g + s[0].price * behind by {
        assert a[0] + next == g + behind;
        Spread(s[0].price, a[0], next, g, behind);
      }
    }
  }

  lemma Spread(p: int, a: int, b: int, c: int, d: int)
    requires a + b == c + d
    ensures p * a + p * b == p * c + p * d
  {
    assert p * (a + b) == p * a + p * b;
    assert p * (c + d) == p * c + p * d;
  }

  lemma PriceGap(descending: bool, p: int, q: int, n: nat)
    requires Before(descending, p, q)
    ensures if descending then q * n <= p * n else q * n >= p * n
  {
    if descending { assert (p - q) * n >= 0; } else { assert (q - p) * n >= 0; }
  }

  lemma TailSorted(descending: bool, s: seq<Level>)
    requires SortedLevels(descending, s) && s != []
    ensures SortedLevels(descending, s[1..])
  {
    forall i, j | 0 <= i < j < |s[1..]| ensures Before(descending, s[1..][i].price, s[1..][j].price) {
      assert Before(descending, s[i + 1].price, s[j + 1].price);
    }
  }

  /** A sweep takes the smaller of what was asked and what there is, reports exactly the
      shortfall, and no allocation of the same size is cheaper on asks or dearer on bids. */
  lemma SweepIsOptimal(descending: bool, s: seq<Level>, qty: int, a: seq<nat>)
    requires SortedLevels(descending, s)
    requires Allocates(s, a) && Lots(a) == SweepOf(s, qty).taken
    ensures SweepOf(s, qty).taken == Min(Max(qty, 0), Total(s))
    ensures SweepOf(s, qty).exhausted <==> SweepOf(s, qty).taken < Max(qty, 0)
    ensures if descending then CostOf(s, a) <= SweepOf(s, qty).cost else CostOf(s, a) >= SweepOf(s, qty).cost
  {
    var want: nat := Max(qty, 0);
    TakenIsBounded(s, want);
    SweptByTaken(s, want);
    GreedyAhead(descending, s, GreedyTaken(s, want), a, 0);
  }

  lemma {:induction false} SweptByTaken(s: seq<Level>, want: nat)
    ensures GreedyCost(s, GreedyTaken(s, want)) == GreedyCost(s, want)
    ensures GreedyTaken(s, GreedyTaken(s, want)) == GreedyTaken(s, want)
  {
    if s != [] {
      var rest := want - TakeFrom(s[0], want);
      SweptByTaken(s[1..], rest);
      TakenIsBounded(s, want);
      TakenIsBounded(s[1..], rest);
    }
  }

  /** The sweep's own allocation, so the bound above is attained. */
  function GreedyLots(s: seq<Level>, want: nat): (a: seq<nat>)
    ensures |a| == |s|
  {
    if s == [] then [] else [TakeFrom(s[0], want)] + GreedyLots(s[1..], want - TakeFrom(s[0], want))
  }

  lemma {:induction false} GreedyIsAnAllocation(s: seq<Level>, want: nat)
    ensures Allocates(s, GreedyLots(s, want))
    ensures Lots(GreedyLots(s, want)) == GreedyTaken(s, want)
    ensures CostOf(s, GreedyLots(s, want)) == GreedyCost(s, want)
  {
    if s != [] {
      var rest := want - TakeFrom(s[0], want);
      var a, b := GreedyLots(s, want), GreedyLots(s[1..], rest);
      GreedyIsAnAllocation(s[1..], rest);
      assert a[1..] == b;
      forall i | 0 <= i < |s| ensures a[i] <= Avail(s[i]) {
        if i > 0 { assert b[i - 1] <= Avail(s[1..][i - 1]); }
      }
    }
  }

  // ----- taking

  /** The book a taker should leave: each level less what was taken, emptied levels gone. */
  function Leftover(s: seq<Level>, want: nat): seq<Level> {
    NonEmpty(Reduced(s, GreedyTaken(s, want)))
  }

  function NonEmpty(s: seq<Level>): seq<Level> {
    if s == [] then []
    else if s[0].qty == 0 then NonEmpty(s[1..])
    else [s[0]] + NonEmpty(s[1..])
  }

  function Zeros(s: seq<Level>): nat {
    if s == [] then 0 else (if s[0].qty == 0 then 1 else 0) + Zeros(s[1..])
  }

  lemma {:induction false} NonEmptyFacts(s: seq<Level>)
    ensures |NonEmpty(s)| == |s| - Zeros(s)
    ensures NoZero(NonEmpty(s))
    ensures NoZero(s) ==> NonEmpty(s) == s
    ensures NoZero(s) <==> Zeros(s) == 0
    ensures Zeros(s) <= |s|
  {
    if s != [] {
      NonEmptyFacts(s[1..]);
      assert s == [s[0]] + s[1..];
      if NoZero(s) {
        forall i | 0 <= i < |s[1..]| ensures s[1..][i].qty != 0 { assert s[i + 1].qty != 0; }
      }
    }
  }

  lemma {:induction false} ZerosAppend(s: seq<Level>, t: seq<Level>)
    ensures Zeros(s + t) == Zeros(s) + Zeros(t)
  {
    if s == [] {
      assert s + t == t;
    } else {
      assert (s + t)[1..] == s[1..] + t;
      ZerosAppend(s[1..], t);
    }
  }

  lemma {:induction false} EmptiedAreZeros(s: seq<Level>, want: nat)
    requires NoZero(s)
    ensures Emptied(s, want) == Zeros(Reduced(s, want))
  {
    NonEmptyFacts(s);
    if s != [] && want > 0 {
      forall i | 0 <= i < |s[1..]| ensures s[1..][i].qty != 0 { assert s[i + 1].qty != 0; }
      EmptiedAreZeros(s[1..], want - TakeFrom(s[0], want));
      assert Reduced(s, want)[1..] == Reduced(s[1..], want - TakeFrom(s[0], want));
    }
  }

  ghost predicate ZerosFirst(s: seq<Level>) {
    forall i, j :: 0 <= i < j < |s| && s[j].qty == 0 ==> s[i].qty == 0
  }

  lemma {:induction false} AllZero(s: seq<Level>)
    ensures Zeros(s) == |s| <==> forall i :: 0 <= i < |s| ==> s[i].qty == 0
  {
    NonEmptyFacts(s);
    if s != [] {
      AllZero(s[1..]);
      NonEmptyFacts(s[1..]);
      if forall i :: 0 <= i < |s| ==> s[i].qty == 0 {
        forall i | 0 <= i < |s[1..]| ensures s[1..][i].qty == 0 { assert s[i + 1].qty == 0; }
      }
    }
  }

  /** Dropping as many levels as are empty drops the empty ones exactly when they lead. */
  lemma DropIsFilter(s: seq<Level>)
    requires Zeros(s) <= |s|
    ensures s[Zeros(s)..] == NonEmpty(s) <==> ZerosFirst(s)
  {
    var z := Zeros(s);
    var p, q := s[..z], s[z..];
    assert s == p + q;
    ZerosAppend(p, q);
    NonEmptyFacts(s);
    NonEmptyFacts(p);
    NonEmptyFacts(q);
    AllZero(p);
    if q == NonEmpty(s) {
      forall k | z <= k < |s| ensures s[k].qty != 0 {
        assert q[k - z].qty != 0;
      }
      forall k | 0 <= k < z ensures s[k].qty == 0 {
        assert p[k].qty == 0;
      }
    }
    if ZerosFirst(s) {
      LeadingZeros(s);
    }
  }

  lemma {:induction false} LeadingZeros(s: seq<Level>)
    requires ZerosFirst(s)
    ensures Zeros(s) <= |s| && s[Zeros(s)..] == NonEmpty(s)
  {
    NonEmptyFacts(s);
    if s != [] {
      var t := s[1..];
      forall i, j | 0 <= i < j < |t| && t[j].qty == 0 ensures t[i].qty == 0 {
        assert s[j + 1].qty == 0 ==> s[i + 1].qty == 0;
      }
      LeadingZeros(t);
      if s[0].qty == 0 {
        assert s[Zeros(s)..] == t[Zeros(t)..];
      } else {
        forall i | 0 <= i < |s| ensures s[i].qty != 0 {
        }
      }
    }
  }

  /** Lots standing at the levels before `j`. */
  function TotalBefore(s: seq<Level>, j: nat): nat
    requires j <= |s|
  {
    Total(s[..j])
  }

  /** The order is large enough to empty level `j`. */
  predicate Empties(s: seq<Level>, want: nat, j: nat)
    requires j < |s|
  {
    s[j].qty > 0 && TotalBefore(s, j) + s[j].qty <= want
  }

  lemma {:induction false} ReducedAt(s: seq<Level>, want: nat, j: nat)
    requires j < |s|
    ensures Reduced(s, want)[j] ==
      Level(s[j].price, s[j].qty - if want <= TotalBefore(s, j) then 0 else TakeFrom(s[j], want - TotalBefore(s, j)))
  {
    if want == 0 {
    } else if j == 0 {
      assert s[..0] == [];
    } else {
      var g := TakeFrom(s[0], want);
      ReducedAt(s[1..], want - g, j - 1);
      assert s[..j] == [s[0]] + s[1..][..j - 1];
    }
  }

  /** With no zero level standing, `take` leaves the book it should exactly when no negative
      level stands in front of one the order empties. Levels with a positive quantity, the
      only ones a venue sends, always meet this. */
  lemma TakeIsRightIff(s: seq<Level>, want: nat)
    requires NoZero(s)
    ensures Taken(s, want) == Leftover(s, want)
       <==> forall i, j :: 0 <= i < j < |s| && s[i].qty < 0 ==> !Empties(s, want, j)
  {
    var w := GreedyTaken(s, want);
    var r := Reduced(s, w);
    EmptiedAreZeros(s, w);
    NonEmptyFacts(r);
    DropIsFilter(r);
    TakenIsBounded(s, want);
    forall j | 0 <= j < |s| ensures r[j].qty == 0 <==> Empties(s, want, j) {
      ReducedAt(s, w, j);
      BeforeWithin(s, j);
    }
    if ZerosFirst(r) {
      forall i, j | 0 <= i < j < |s| && s[i].qty < 0 ensures !Empties(s, want, j) {
        assert !Empties(s, want, i);
      }
    }
    if forall i, j :: 0 <= i < j < |s| && s[i].qty < 0 ==> !Empties(s, want, j) {
      forall i, j | 0 <= i < j < |r| && r[j].qty == 0 ensures r[i].qty == 0 {
        assert Empties(s, want, j) && s[i].qty != 0;
        EmptiesEarlier(s, want, i, j);
      }
    }
  }

  lemma {:induction false} TotalAppend(s: seq<Level>, t: seq<Level>)
    ensures Total(s + t) == Total(s) + Total(t)
  {
    if s == [] {
      assert s + t == t;
    } else {
      assert (s + t)[1..] == s[1..] + t;
      TotalAppend(s[1..], t);
    }
  }

  lemma BeforeWithin(s: seq<Level>, j: nat)
    requires j < |s|
    ensures TotalBefore(s, j) + Avail(s[j]) <= Total(s)
  {
    assert s == s[..j] + ([s[j]] + s[j + 1..]);
    TotalAppend(s[..j], [s[j]] + s[j + 1..]);
  }

  lemma EmptiesEarlier(s: seq<Level>, want: nat, i: nat, j: nat)
    requires i < j < |s| && s[i].qty > 0 && Empties(s, want, j)
    ensures Empties(s, want, i)
  {
    assert s[..j][..i] == s[..i];
    BeforeWithin(s[..j], i);
  }

  /** A negative level in front of one the order empties: the wrong level is dropped. */
  lemma NegativeLevelIsDropped()
    ensures var s := [Level(100, -5), Level(101, 10)];
      Taken(s, 10) == [Level(101, 0)] && Leftover(s, 10) == [Level(100, -5)]
  {
    var s := [Level(100, -5), Level(101, 10)];
    assert s[1..] == [Level(101, 10)];
    assert GreedyTaken(s, 10) == 10;
    assert Reduced(s, 10) == [Level(100, -5), Level(101, 0)];
    assert Emptied(s, 10) == 1;
    assert [Level(100, -5), Level(101, 0)][1..] == [Level(101, 0)];
  }

  // ----- path independence

  lemma {:induction false} PositiveLeftover(s: seq<Level>, want: nat)
    requires Positive(s)
    ensures Positive(NonEmpty(Reduced(s, want)))
    ensures Total(NonEmpty(Reduced(s, want))) == Total(s) - GreedyTaken(s, want)
  {
    if s == [] {
    } else if want == 0 {
      forall i | 0 <= i < |s| ensures s[i].qty != 0 { assert s[i].qty > 0; }
      NonEmptyFacts(s);
      NothingWanted(s);
    } else {
      forall i | 0 <= i < |s[1..]| ensures s[1..][i].qty > 0 { assert s[i + 1].qty > 0; }
      assert s[0].qty > 0;
      PositiveLeftover(s[1..], want - TakeFrom(s[0], want));
      var r, t := Reduced(s, want), Reduced(s[1..], want - TakeFrom(s[0], want));
      assert r[1..] == t;
      TakenIsBounded(s, want);
      TakenIsBounded(s[1..], want - TakeFrom(s[0], want));
    }
  }

  lemma UnwantedStays(s: seq<Level>)
    requires Positive(s)
    ensures NonEmpty(Reduced(s, 0)) == s
  {
    forall i | 0 <= i < |s| ensures s[i].qty != 0 { assert s[i].qty > 0; }
    NonEmptyFacts(s);
  }

  /** Walking `a` and then `b` down what is left is walking `a + b` at once. */
  ghost predicate WalksTogether(s: seq<Level>, a: nat, b: nat) {
    var t := NonEmpty(Reduced(s, a));
    && NonEmpty(Reduced(t, b)) == NonEmpty(Reduced(s, a + b))
    && GreedyTaken(s, a) + GreedyTaken(t, b) == GreedyTaken(s, a + b)
    && GreedyCost(s, a) + GreedyCost(t, b) == GreedyCost(s, a + b)
  }

  lemma {:induction false} WalkInParts(s: seq<Level>, a: nat, b: nat)
    requires Positive(s)
    ensures WalksTogether(s, a, b)
  {
    if s == [] {
    } else if a == 0 {
      UnwantedStays(s);
      NothingWanted(s);
    } else {
      var q, u := s[0].qty, s[1..];
      assert q > 0;
      forall i | 0 <= i < |u| ensures u[i].qty > 0 { assert s[i + 1].qty > 0; }
      if q <= a {
        WalkInParts(u, a - q, b);
        FrontGoes(s, a);
        FrontGoes(s, a + b);
      } else {
        WalkInFront(s, a, b);
      }
    }
  }

  /** An order that empties the best level goes on with the rest. */
  lemma FrontGoes(s: seq<Level>, a: nat)
    requires Positive(s) && s != [] && s[0].qty <= a
    ensures NonEmpty(Reduced(s, a)) == NonEmpty(Reduced(s[1..], a - s[0].qty))
    ensures GreedyTaken(s, a) == s[0].qty + GreedyTaken(s[1..], a - s[0].qty)
    ensures GreedyCost(s, a) == s[0].price * s[0].qty + GreedyCost(s[1..], a - s[0].qty)
  {
    assert s[0].qty > 0;
    assert Reduced(s, a)[1..] == Reduced(s[1..], a - s[0].qty);
  }

  lemma FrontOnly(s: seq<Level>, a: nat)
    requires Positive(s) && s != [] && a < s[0].qty
    ensures GreedyTaken(s, a) == a && GreedyCost(s, a) == s[0].price * a
  {
    NothingWanted(s[1..]);
  }

  lemma WalkInFront(s: seq<Level>, a: nat, b: nat)
    requires Positive(s) && s != [] && 0 < a < s[0].qty
    ensures WalksTogether(s, a, b)
  {
    var q, u, t := s[0].qty, s[1..], NonEmpty(Reduced(s, a));
    FrontStaysWith(s, a);
    FrontOnly(s, a);
    PositiveFront(t, s, a);
    assert t[1..] == u;
    if q - a <= b {
      FrontGoes(t, b);
      FrontGoes(s, a + b);
      Split(s[0].price, a, q - a);
    } else {
      WalkStaysInFront(s, a, b, t);
    }
  }

  /** Neither order empties the best level. */
  lemma WalkStaysInFront(s: seq<Level>, a: nat, b: nat, t: seq<Level>)
    requires Positive(s) && Positive(t) && s != [] && t != [] && 0 < a && a + b < s[0].qty
    requires t == NonEmpty(Reduced(s, a)) && t == [Level(s[0].price, s[0].qty - a)] + s[1..]
    ensures WalksTogether(s, a, b)
  {
    FrontOnly(s, a);
    FrontOnly(t, b);
    FrontOnly(s, a + b);
    Split(s[0].price, a, b);
    if b == 0 {
      UnwantedStays(t);
    } else {
      FrontStaysWith(t, b);
      FrontStaysWith(s, a + b);
    }
  }

  lemma Split(p: int, x: int, y: int)
    ensures p * x + p * y == p * (x + y)
  {
  }

  lemma FrontStaysWith(s: seq<Level>, a: nat)
    requires Positive(s) && s != [] && 0 < a < s[0].qty
    ensures NonEmpty(Reduced(s, a)) == [Level(s[0].price, s[0].qty - a)] + s[1..]
  {
    var r := Reduced(s, a);
    forall i | 0 <= i < |s[1..]| ensures s[1..][i].qty > 0 { assert s[i + 1].qty > 0; }
    UnwantedStays(s[1..]);
    assert r[1..] == s[1..];
  }

  lemma PositiveFront(t: seq<Level>, s: seq<Level>, a: nat)
    requires Positive(s) && s != [] && a < s[0].qty && t == [Level(s[0].price, s[0].qty - a)] + s[1..]
    ensures Positive(t)
  {
    forall i | 0 <= i < |t| ensures t[i].qty > 0 {
      if i > 0 { assert t[i] == s[i] && s[i].qty > 0; }
    }
  }

  lemma {:induction false} WalkWithTaken(s: seq<Level>, want: nat)
    requires Positive(s)
    ensures NonEmpty(Reduced(s, GreedyTaken(s, want))) == NonEmpty(Reduced(s, want))
  {
    if s != [] && want > 0 {
      var g := TakeFrom(s[0], want);
      assert s[0].qty > 0;
      forall i | 0 <= i < |s[1..]| ensures s[1..][i].qty > 0 { assert s[i + 1].qty > 0; }
      WalkWithTaken(s[1..], want - g);
      TakenIsBounded(s, want);
      TakenIsBounded(s[1..], want - g);
      assert Reduced(s, want)[1..] == Reduced(s[1..], want - g);
      assert Reduced(s, GreedyTaken(s, want))[1..] == Reduced(s[1..], GreedyTaken(s, want) - g);
    } else if s != [] {
      NothingWanted(s);
    }
  }

  /** On a side of positive levels, taking `a` and then `b` costs, takes and leaves exactly
      what taking both at once does. */
  lemma TakeIsPathIndependent(s: seq<Level>, a: nat, b: nat)
    requires Positive(s)
    ensures Taken(Taken(s, a), b) == Taken(s, a + b)
    ensures SweepOf(s, a).cost + SweepOf(Taken(s, a), b).cost == SweepOf(s, a + b).cost
    ensures SweepOf(s, a).taken + SweepOf(Taken(s, a), b).taken == SweepOf(s, a + b).taken
  {
    TakenIsLeftover(s, a);
    TakenIsLeftover(s, a + b);
    PositiveLeftover(s, a);
    TakenIsLeftover(Taken(s, a), b);
    WalkInParts(s, a, b);
  }

  lemma TakenIsLeftover(s: seq<Level>, want: nat)
    requires Positive(s)
    ensures Taken(s, want) == NonEmpty(Reduced(s, want))
  {
    forall i | 0 <= i < |s| ensures s[i].qty != 0 { assert s[i].qty > 0; }
    forall i | 0 <= i < |s| ensures !(s[i].qty < 0) { assert s[i].qty > 0; }
    TakeIsRightIff(s, want);
    WalkWithTaken(s, want);
  }
}
