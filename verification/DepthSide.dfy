/** A venue book's side as a sorted array of levels, and the same side as a map from price to
    quantity (crates/oq-book/src/book.rs). */
module DepthSide {
  import opened Numbers

  datatype Level = Level(price: int, qty: int)

  /** `a` is the better price: the higher one on bids, the lower one on asks. */
  predicate Before(descending: bool, p: int, q: int) {
    if descending then p > q else p < q
  }

  ghost predicate SortedLevels(descending: bool, s: seq<Level>) {
    forall i, j :: 0 <= i < j < |s| ==> Before(descending, s[i].price, s[j].price)
  }

  ghost predicate NoZero(s: seq<Level>) {
    forall i :: 0 <= i < |s| ==> s[i].qty != 0
  }

  ghost predicate Positive(s: seq<Level>) {
    forall i :: 0 <= i < |s| ==> s[i].qty > 0
  }

  /** The side as quantities by price. */
  function ToMap(s: seq<Level>): map<int, int> {
    if s == [] then map[] else ToMap(s[1..])[s[0].price := s[0].qty]
  }

  /** What one level change means: zero removes, anything else replaces. */
  function Changed(m: map<int, int>, level: Level): map<int, int> {
    if level.qty == 0 then m - {level.price} else m[level.price := level.qty]
  }

  // ----- sweeping, declared

  function Avail(level: Level): nat {
    if level.qty > 0 then level.qty else 0
  }

  function Total(s: seq<Level>): nat {
    if s == [] then 0 else Avail(s[0]) + Total(s[1..])
  }

  function TakeFrom(level: Level, want: nat): nat {
    if want <= Avail(level) then want else Avail(level)
  }

  function GreedyTaken(s: seq<Level>, want: nat): nat {
    if s == [] then 0
    else TakeFrom(s[0], want) + GreedyTaken(s[1..], want - TakeFrom(s[0], want))
  }

  function GreedyCost(s: seq<Level>, want: nat): int {
    if s == [] then 0
    else s[0].price * TakeFrom(s[0], want) + GreedyCost(s[1..], want - TakeFrom(s[0], want))
  }

  datatype Swept = Swept(taken: int, cost: int, exhausted: bool)

  function SweepOf(s: seq<Level>, qty: int): Swept {
    var want: nat := Max(qty, 0);
    Swept(GreedyTaken(s, want), GreedyCost(s, want), want > Total(s))
  }

  /** Levels with what was taken subtracted; the walk stops once nothing is wanted. */
  function Reduced(s: seq<Level>, want: nat): (r: seq<Level>)
    ensures |r| == |s|
  {
    if s == [] || want == 0 then s
    else [Level(s[0].price, s[0].qty - TakeFrom(s[0], want))] + Reduced(s[1..], want - TakeFrom(s[0], want))
  }

  /** How many levels the walk left at zero. */
  function Emptied(s: seq<Level>, want: nat): (n: nat)
    ensures n <= |s|
  {
    if s == [] || want == 0 then 0
    else (if s[0].qty == TakeFrom(s[0], want) then 1 else 0) + Emptied(s[1..], want - TakeFrom(s[0], want))
  }

  /** `take` walks with what the sweep found, and drops as many levels from the front as
      the walk emptied. */
  function Taken(s: seq<Level>, want: nat): seq<Level> {
    Reduced(s, GreedyTaken(s, want))[Emptied(s, GreedyTaken(s, want))..]
  }

  class Side {
    var levels: seq<Level>
    const descending: bool

    constructor (descending: bool)
      ensures levels == [] && this.descending == descending
    {
      this.descending := descending;
      levels := [];
    }

    /** Binary search: the level at this price, or where it would go. */
    method Position(price: int) returns (found: bool, at: nat)
      requires SortedLevels(descending, levels)
      ensures at <= |levels|
      ensures found ==> at < |levels| && levels[at].price == price
      ensures !found ==> forall i :: 0 <= i < at ==> Before(descending, levels[i].price, price)
      ensures !found ==> forall i :: at <= i < |levels| ==> Before(descending, price, levels[i].price)
    {
      var lo, hi := 0, |levels|;
      while lo < hi
        invariant 0 <= lo <= hi <= |levels|
        invariant forall i :: 0 <= i < lo ==> Before(descending, levels[i].price, price)
        invariant forall i :: hi <= i < |levels| ==> Before(descending, price, levels[i].price)
      {
        var mid := (lo + hi) / 2;
        if levels[mid].price == price {
          return true, mid;
        } else if Before(descending, levels[mid].price, price) {
          lo := mid + 1;
        } else {
          hi := mid;
        }
      }
      return false, lo;
    }

    /** The side's map changes at that price alone, and the side stays sorted. */
    method Apply(level: Level)
      requires SortedLevels(descending, levels) && NoZero(levels)
      modifies this`levels
      ensures SortedLevels(descending, levels) && NoZero(levels)
      ensures ToMap(levels) == Changed(ToMap(old(levels)), level)
    {
      var found, at := Position(level.price);
      LevelMeaning(descending, levels, level, found, at);
      if found && level.qty == 0 {
        levels := levels[..at] + levels[at + 1..];
      } else if found {
        levels := levels[at := level];
      } else if level.qty != 0 {
        levels := levels[..at] + [level] + levels[at..];
      }
    }

    /** The loop's totals are those of the declared walk. */
    method Sweep(qty: int) returns (swept: Swept)
      ensures swept == SweepOf(levels, qty)
    {
      var want: nat := Max(qty, 0);
      var taken, cost := 0, 0;
      var i := 0;
      assert levels[0..] == levels;
      while i < |levels|
        invariant 0 <= i <= |levels|
        invariant taken + GreedyTaken(levels[i..], want) == GreedyTaken(levels, Max(qty, 0))
        invariant cost + GreedyCost(levels[i..], want) == GreedyCost(levels, Max(qty, 0))
        invariant want + taken == Max(qty, 0)
      {
        if want == 0 {
          NothingWanted(levels[i..]);
          break;
        }
        assert levels[i..] == [levels[i]] + levels[i + 1..];
        var take := if want <= Avail(levels[i]) then want else Avail(levels[i]);
        cost := cost + levels[i].price * take;
        taken := taken + take;
        want := want - take;
        i := i + 1;
      }
      TakenIsBounded(levels, Max(qty, 0));
      swept := Swept(taken, cost, want > 0);
    }

    /** The totals are a sweep's, and the levels are what the declared walk leaves. */
    method Take(qty: int) returns (swept: Swept)
      modifies this`levels
      ensures swept == SweepOf(old(levels), qty)
      ensures levels == Taken(old(levels), Max(qty, 0))
    {
      swept := Sweep(qty);
      TakenIsBounded(levels, Max(qty, 0));
      ghost var s, w := levels, swept.taken;
      var want: nat := swept.taken;
      var drained := 0;
      var i := 0;
      assert s[0..] == s;
      while i < |levels|
        invariant 0 <= i <= |levels| == |s|
        invariant forall k :: i <= k < |s| ==> levels[k] == s[k]
        invariant forall k :: 0 <= k < i ==> levels[k] == Reduced(s, w)[k]
        invariant Reduced(s, w)[i..] == Reduced(s[i..], want)
        invariant drained + Emptied(s[i..], want) == Emptied(s, w)
        invariant drained <= i
      {
        if want == 0 {
          break;
        }
        ReduceStep(s, i, want);
        var take := if want <= Avail(levels[i]) then want else Avail(levels[i]);
        levels := levels[i := Level(levels[i].price, levels[i].qty - take)];
        want := want - take;
        if levels[i].qty == 0 {
          drained := drained + 1;
        }
        assert Reduced(s, w)[i + 1..] == Reduced(s, w)[i..][1..];
        assert Reduced(s, w)[i] == Reduced(s, w)[i..][0];
        i := i + 1;
      }
      ReduceDone(s, i, want);
      assert forall k :: i <= k < |s| ==> Reduced(s, w)[k] == Reduced(s, w)[i..][k - i];
      assert levels == Reduced(s, w);
      levels := levels[drained..];
    }
  }

  lemma ReduceStep(s: seq<Level>, i: nat, want: nat)
    requires i < |s| && want > 0
    ensures var take := TakeFrom(s[i], want);
      && Reduced(s[i..], want) == [Level(s[i].price, s[i].qty - take)] + Reduced(s[i + 1..], want - take)
      && Emptied(s[i..], want) == (if s[i].qty == take then 1 else 0) + Emptied(s[i + 1..], want - take)
  {
    assert s[i..][1..] == s[i + 1..];
  }

  lemma ReduceDone(s: seq<Level>, i: nat, want: nat)
    requires i <= |s| && (i == |s| || want == 0)
    ensures Reduced(s[i..], want) == s[i..] && Emptied(s[i..], want) == 0
  {
  }

  // ----- the map a side stands for

  ghost predicate HasPrice(s: seq<Level>, p: int) {
    exists i :: 0 <= i < |s| && s[i].price == p
  }

  lemma {:induction false} MapKeys(s: seq<Level>)
    ensures forall p :: p in ToMap(s) <==> HasPrice(s, p)
  {
    if s != [] {
      MapKeys(s[1..]);
      forall p ensures p in ToMap(s) <==> HasPrice(s, p) {
        assert s[0].price == p ==> HasPrice(s, p);
        if HasPrice(s[1..], p) {
          var i :| 0 <= i < |s[1..]| && s[1..][i].price == p;
          assert s[i + 1].price == p;
        }
        if HasPrice(s, p) && p != s[0].price {
          var i :| 0 <= i < |s| && s[i].price == p;
          assert s[1..][i - 1].price == p;
        }
      }
    }
  }

  lemma {:induction false} MapAt(descending: bool, s: seq<Level>, i: nat)
    requires SortedLevels(descending, s) && i < |s|
    ensures s[i].price in ToMap(s) && ToMap(s)[s[i].price] == s[i].qty
  {
    if i > 0 {
      var t := s[1..];
      forall a, b | 0 <= a < b < |t| ensures Before(descending, t[a].price, t[b].price) {
        assert Before(descending, s[a + 1].price, s[b + 1].price);
      }
      MapAt(descending, s[1..], i - 1);
      assert Before(descending, s[0].price, s[i].price);
    }
  }

  /** Deciding where a change goes decides what it means. */
  lemma LevelMeaning(descending: bool, s: seq<Level>, level: Level, found: bool, at: nat)
    requires SortedLevels(descending, s) && NoZero(s) && at <= |s|
    requires found ==> at < |s| && s[at].price == level.price
    requires !found ==> forall i :: 0 <= i < at ==> Before(descending, s[i].price, level.price)
    requires !found ==> forall i :: at <= i < |s| ==> Before(descending, level.price, s[i].price)
    ensures found && level.qty == 0 ==> Means(descending, s, level, s[..at] + s[at + 1..])
    ensures found && level.qty != 0 ==> Means(descending, s, level, s[at := level])
    ensures !found && level.qty != 0 ==> Means(descending, s, level, s[..at] + [level] + s[at..])
    ensures !found && level.qty == 0 ==> Means(descending, s, level, s)
  {
    if found {
      if level.qty == 0 {
        RemovedMeaning(descending, s, level, at);
      } else {
        ReplacedMeaning(descending, s, level, at);
      }
    } else if level.qty != 0 {
      InsertedMeaning(descending, s, level, at);
    } else {
      SameMeaning(descending, s, level, s);
    }
  }

  lemma OthersDiffer(descending: bool, s: seq<Level>, at: nat)
    requires SortedLevels(descending, s) && at < |s|
    ensures forall i :: 0 <= i < |s| && i != at ==> s[i].price != s[at].price
  {
    forall i | 0 <= i < |s| && i != at ensures s[i].price != s[at].price {
      if i < at { assert Before(descending, s[i].price, s[at].price); } else { assert Before(descending, s[at].price, s[i].price); }
    }
  }

  lemma RemovedMeaning(descending: bool, s: seq<Level>, level: Level, at: nat)
    requires SortedLevels(descending, s) && NoZero(s) && at < |s| && s[at].price == level.price && level.qty == 0
    ensures Means(descending, s, level, s[..at] + s[at + 1..])
  {
    var t := s[..at] + s[at + 1..];
    OthersDiffer(descending, s, at);
    assert forall i :: 0 <= i < |t| ==> t[i] == s[if i < at then i else i + 1];
    forall i | 0 <= i < |s| && i != at ensures s[i] in t {
      if i < at { assert t[i] == s[i]; } else { assert t[i - 1] == s[i]; }
    }
    SameMeaning(descending, s, level, t);
  }

  lemma ReplacedMeaning(descending: bool, s: seq<Level>, level: Level, at: nat)
    requires SortedLevels(descending, s) && NoZero(s) && at < |s| && s[at].price == level.price && level.qty != 0
    ensures Means(descending, s, level, s[at := level])
  {
    var t := s[at := level];
    OthersDiffer(descending, s, at);
    forall i | 0 <= i < |s| && i != at ensures s[i] in t {
      assert t[i] == s[i];
    }
    assert t[at] == level;
    SameMeaning(descending, s, level, t);
  }

  lemma InsertedMeaning(descending: bool, s: seq<Level>, level: Level, at: nat)
    requires SortedLevels(descending, s) && NoZero(s) && at <= |s| && level.qty != 0
    requires forall i :: 0 <= i < at ==> Before(descending, s[i].price, level.price)
    requires forall i :: at <= i < |s| ==> Before(descending, level.price, s[i].price)
    ensures Means(descending, s, level, s[..at] + [level] + s[at..])
  {
    var t := s[..at] + [level] + s[at..];
    assert forall i :: 0 <= i < |t| ==> t[i] == if i < at then s[i] else if i == at then level else s[i - 1];
    forall i | 0 <= i < |s| ensures s[i] in t {
      if i < at { assert t[i] == s[i]; } else { assert t[i + 1] == s[i]; }
    }
    assert t[at] == level;
    SameMeaning(descending, s, level, t);
  }

  ghost predicate Means(descending: bool, s: seq<Level>, level: Level, t: seq<Level>) {
    SortedLevels(descending, t) && NoZero(t) && ToMap(t) == Changed(ToMap(s), level)
  }

  lemma SameMeaning(descending: bool, s: seq<Level>, level: Level, t: seq<Level>)
    requires SortedLevels(descending, s) && SortedLevels(descending, t) && NoZero(t)
    requires forall l :: l in s && l.price != level.price ==> l in t
    requires forall l :: l in t ==> l == level || (l in s && l.price != level.price)
    requires level.qty != 0 <==> level in t
    ensures Means(descending, s, level, t)
  {
    MapKeys(s);
    MapKeys(t);
    var m, n := Changed(ToMap(s), level), ToMap(t);
    forall p | p in n ensures p in m && m[p] == n[p] {
      assert HasPrice(t, p);
      var i :| 0 <= i < |t| && t[i].price == p;
      MapAt(descending, t, i);
      assert t[i] in t;
      if t[i] != level {
        var k :| 0 <= k < |s| && s[k] == t[i];
        MapAt(descending, s, k);
      }
    }
    forall p | p in m ensures p in n {
      if p == level.price {
        assert level.qty != 0;
        var i :| 0 <= i < |t| && t[i] == level;
        assert HasPrice(t, p);
      } else {
        assert HasPrice(s, p);
        var i :| 0 <= i < |s| && s[i].price == p;
        assert s[i] in t;
        var k :| 0 <= k < |t| && t[k] == s[i];
        assert HasPrice(t, p);
      }
    }
  }

  /** The map determines the side: best-first order leaves no freedom. */
  lemma {:induction false} LevelsAreCanonical(descending: bool, s: seq<Level>, t: seq<Level>)
    requires SortedLevels(descending, s) && SortedLevels(descending, t)
    requires ToMap(s) == ToMap(t)
    ensures s == t
  {
    MapKeys(s);
    MapKeys(t);
    assert s != [] ==> HasPrice(s, s[0].price) && HasPrice(t, s[0].price);
    assert t != [] ==> HasPrice(t, t[0].price) && HasPrice(s, t[0].price);
    if s != [] {
      var i :| 0 <= i < |t| && t[i].price == s[0].price;
      var j :| 0 <= j < |s| && s[j].price == t[0].price;
      assert i == 0 || Before(descending, t[0].price, t[i].price);
      assert j == 0 || Before(descending, s[0].price, s[j].price);
      MapAt(descending, s, 0);
      MapAt(descending, t, 0);
      TailMap(descending, s);
      TailMap(descending, t);
      LevelsAreCanonical(descending, s[1..], t[1..]);
    }
  }

  lemma TailMap(descending: bool, s: seq<Level>)
    requires SortedLevels(descending, s) && s != []
    ensures SortedLevels(descending, s[1..]) && ToMap(s[1..]) == ToMap(s) - {s[0].price}
  {
    MapKeys(s[1..]);
    forall i | 0 <= i < |s[1..]| ensures s[1..][i].price != s[0].price {
      assert Before(descending, s[0].price, s[i + 1].price);
    }
    assert s[0].price !in ToMap(s[1..]);
  }

  // ----- sweeping

  lemma NothingWanted(s: seq<Level>)
    ensures GreedyTaken(s, 0) == 0 && GreedyCost(s, 0) == 0
  {
    if s != [] { NothingWanted(s[1..]); }
  }

  /** A sweep takes everything wanted, or everything there is. */
  lemma {:induction false} TakenIsBounded(s: seq<Level>, want: nat)
    ensures GreedyTaken(s, want) == if want <= Total(s) then want else Total(s)
  {
    if s != [] {
      TakenIsBounded(s[1..], want - TakeFrom(s[0], want));
    }
  }
}
