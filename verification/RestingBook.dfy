/** Four sorted lists of resting orders, edited in place, and what each edit makes of their contents
    (crates/oq-engine/src/book.rs). */
module RestingBook {
  import opened Folding
  import opened Numbers
  import opened Market

  datatype Resting = Resting(order: Order, arrival: nat)

  /** The contents of a book: limit orders best price first, market orders by arrival. */
  datatype BookV = BookV(
    bids: seq<Resting>, asks: seq<Resting>, marketBuys: seq<Resting>, marketSells: seq<Resting>,
    nextArrival: nat)

  const EMPTY_BOOK := BookV([], [], [], [], 0)

  /** The orders of the four lists, bids first. */
  function All(b: BookV): seq<Resting> {
    b.bids + b.asks + b.marketBuys + b.marketSells
  }

  predicate HasId(s: seq<Resting>, id: nat) {
    exists i :: 0 <= i < |s| && s[i].order.id == id
  }

  ghost predicate UniqueIds(s: seq<Resting>) {
    forall i, j :: 0 <= i < j < |s| ==> s[i].order.id != s[j].order.id
  }

  /** `a` comes strictly before `b` in price-time priority on its side. */
  predicate Precedes(side: Side, a: Resting, b: Resting) {
    a.order.price.Some? && b.order.price.Some? &&
    var p, q := a.order.price.value, b.order.price.value;
    (if side.Buy? then p > q else p < q) || (p == q && a.arrival < b.arrival)
  }

  ghost predicate LimitSide(s: seq<Resting>, side: Side, bound: nat) {
    && (forall r :: r in s ==> r.order.side == side && r.order.price.Some? && r.arrival < bound)
    && (forall i, j :: 0 <= i < j < |s| ==> Precedes(side, s[i], s[j]))
  }

  ghost predicate MarketSide(s: seq<Resting>, side: Side, bound: nat) {
    && (forall r :: r in s ==> r.order.side == side && r.order.price.None? && r.arrival < bound)
    && (forall i, j :: 0 <= i < j < |s| ==> s[i].arrival < s[j].arrival)
  }

  /** Price-time priority holds by construction. */
  ghost predicate Sorted(b: BookV) {
    && LimitSide(b.bids, Buy, b.nextArrival)
    && LimitSide(b.asks, Sell, b.nextArrival)
    && MarketSide(b.marketBuys, Buy, b.nextArrival)
    && MarketSide(b.marketSells, Sell, b.nextArrival)
  }

  /** What every book of uniquely named orders satisfies. */
  ghost predicate Wf(b: BookV) {
    && Sorted(b)
    && UniqueIds(All(b))
  }

  /** `Wf`, folded: the verifier opens it only where a lemma calls `Unfold`, which keeps the
      pairwise conditions out of the methods that edit the book. */
  ghost predicate Sound(b: BookV) {
    forall k {:trigger Token(k)} :: Token(k) ==> Wf(b)
  }

  lemma Unfold(b: BookV)
    ensures Sound(b) <==> Wf(b)
  {
    assert Token(0);
  }

  /** Whether an order already resting keeps its place ahead of a newcomer at `price`. */
  predicate StaysAhead(side: Side, r: Resting, price: int) {
    r.order.price.Some? && (if side.Buy? then r.order.price.value >= price else r.order.price.value <= price)
  }

  /** The newcomer goes behind everything at its own price or better. */
  function Place(side: Side, s: seq<Resting>, r: Resting, price: int): seq<Resting> {
    if s == [] then [r]
    else if StaysAhead(side, s[0], price) then [s[0]] + Place(side, s[1..], r, price)
    else [r] + s
  }

  function Inserted(b: BookV, order: Order): BookV {
    var r := Resting(order, b.nextArrival);
    var b' := b.(nextArrival := b.nextArrival + 1);
    match (order.side, order.price)
    case (Buy, None) => b'.(marketBuys := b.marketBuys + [r])
    case (Sell, None) => b'.(marketSells := b.marketSells + [r])
    case (Buy, Some(p)) => b'.(bids := Place(Buy, b.bids, r, p))
    case (Sell, Some(p)) => b'.(asks := Place(Sell, b.asks, r, p))
  }

  /** The least index at which the id occurs, or the length. */
  function IndexOf(s: seq<Resting>, id: nat): (k: nat)
    ensures k <= |s|
    ensures k < |s| <==> HasId(s, id)
    ensures k < |s| ==> s[k].order.id == id
    ensures forall i :: 0 <= i < k ==> s[i].order.id != id
  {
    if s == [] then 0
    else if s[0].order.id == id then 0
    else
      var k := IndexOf(s[1..], id);
      assert forall i :: 0 < i < |s| ==> s[i] == s[1..][i - 1];
      assert k < |s| - 1 ==> s[k + 1].order.id == id;
      k + 1
  }

  function DropId(s: seq<Resting>, id: nat): seq<Resting> {
    var k := IndexOf(s, id);
    if k < |s| then s[..k] + s[k + 1..] else s
  }

  /** Removal searches bids, asks, market buys, market sells and stops at the first hit. */
  function Removed(b: BookV, id: nat): BookV {
    if HasId(b.bids, id) then b.(bids := DropId(b.bids, id))
    else if HasId(b.asks, id) then b.(asks := DropId(b.asks, id))
    else if HasId(b.marketBuys, id) then b.(marketBuys := DropId(b.marketBuys, id))
    else b.(marketSells := DropId(b.marketSells, id))
  }

  function PutAt(s: seq<Resting>, id: nat, order: Order): seq<Resting> {
    var k := IndexOf(s, id);
    if k < |s| then s[k := s[k].(order := order)] else s
  }

  /** A list with the order at an index replaced, or gone. */
  function Edited(s: seq<Resting>, at: nat, updated: Option<Order>): seq<Resting>
    requires at < |s|
  {
    if updated.Some? then s[at := s[at].(order := updated.value)] else s[..at] + s[at + 1..]
  }

  function Replaced(b: BookV, id: nat, updated: Option<Order>): BookV {
    if updated.None? then Removed(b, id)
    else if HasId(b.bids, id) then b.(bids := PutAt(b.bids, id, updated.value))
    else if HasId(b.asks, id) then b.(asks := PutAt(b.asks, id, updated.value))
    else if HasId(b.marketBuys, id) then b.(marketBuys := PutAt(b.marketBuys, id, updated.value))
    else b.(marketSells := PutAt(b.marketSells, id, updated.value))
  }

  // ----- the orders a book holds

  ghost function OrdersIn(s: seq<Resting>): set<Order> {
    set r | r in s :: r.order
  }

  ghost function Orders(b: BookV): set<Order> {
    OrdersIn(All(b))
  }

  ghost function Ids(b: BookV): set<nat> {
    set r | r in All(b) :: r.order.id
  }

  class Book {
    var bids: seq<Resting>
    var asks: seq<Resting>
    var marketBuys: seq<Resting>
    var marketSells: seq<Resting>
    var nextArrival: nat

    ghost function View(): BookV
      reads this
    {
      BookV(bids, asks, marketBuys, marketSells, nextArrival)
    }

    constructor ()
      ensures View() == EMPTY_BOOK
    {
      bids, asks, marketBuys, marketSells, nextArrival := [], [], [], [], 0;
    }

    /** Binary search for the first order a newcomer at `price` goes ahead of. */
    method PartitionPoint(side: Side, s: seq<Resting>, price: int) returns (at: nat)
      requires forall i, j :: 0 <= i < j < |s| && StaysAhead(side, s[j], price) ==> StaysAhead(side, s[i], price)
      ensures at <= |s|
      ensures forall i :: 0 <= i < at ==> StaysAhead(side, s[i], price)
      ensures forall i :: at <= i < |s| ==> !StaysAhead(side, s[i], price)
    {
      at := 0;
      var hi := |s|;
      while at < hi
        invariant 0 <= at <= hi <= |s|
        invariant forall i :: 0 <= i < at ==> StaysAhead(side, s[i], price)
        invariant forall i :: hi <= i < |s| ==> !StaysAhead(side, s[i], price)
      {
        var mid := (at + hi) / 2;
        if StaysAhead(side, s[mid], price) {
          at := mid + 1;
        } else {
          hi := mid;
        }
      }
    }

    method Insert(order: Order)
      requires Sorted(View())
      modifies this
      ensures View() == Inserted(old(View()), order)
    {
      var resting := Resting(order, nextArrival);
      nextArrival := nextArrival + 1;
      match (order.side, order.price)
      case (Buy, None) =>
        marketBuys := marketBuys + [resting];
      case (Sell, None) =>
        marketSells := marketSells + [resting];
      case (Buy, Some(price)) =>
        var at := PartitionPoint(Buy, bids, price);
        PlaceAt(Buy, bids, resting, price, at);
        bids := bids[..at] + [resting] + bids[at..];
      case (Sell, Some(price)) =>
        var at := PartitionPoint(Sell, asks, price);
        PlaceAt(Sell, asks, resting, price, at);
        asks := asks[..at] + [resting] + asks[at..];
    }

    /** Linear search by id, as the source's `position` does. */
    method Position(s: seq<Resting>, id: nat) returns (at: nat)
      ensures at == IndexOf(s, id)
    {
      at := 0;
      while at < |s| && s[at].order.id != id
        invariant 0 <= at <= |s|
        invariant forall i :: 0 <= i < at ==> s[i].order.id != id
      {
        at := at + 1;
      }
    }

    method Remove(id: nat) returns (removed: Option<Order>)
      modifies this
      ensures View() == Removed(old(View()), id)
      ensures removed.Some? <==> HasId(All(old(View())), id)
      ensures removed.Some? ==> removed.value.id == id && removed.value in Orders(old(View()))
    {
      ghost var b := View();
      HasIdAll(b, id);
      var at := Position(bids, id);
      if at < |bids| {
        removed := Some(bids[at].order);
        MemberOfAll(b, bids[at]);
        bids := bids[..at] + bids[at + 1..];
        return;
      }
      at := Position(asks, id);
      if at < |asks| {
        removed := Some(asks[at].order);
        MemberOfAll(b, asks[at]);
        asks := asks[..at] + asks[at + 1..];
        return;
      }
      at := Position(marketBuys, id);
      if at < |marketBuys| {
        removed := Some(marketBuys[at].order);
        MemberOfAll(b, marketBuys[at]);
        marketBuys := marketBuys[..at] + marketBuys[at + 1..];
        return;
      }
      at := Position(marketSells, id);
      if at < |marketSells| {
        removed := Some(marketSells[at].order);
        MemberOfAll(b, marketSells[at]);
        marketSells := marketSells[..at] + marketSells[at + 1..];
        return;
      }
      removed := None;
    }

    /** Replace an order where it stands, or drop it once a fill completed it. */
    method Replace(id: nat, updated: Option<Order>)
      modifies this
      ensures View() == Replaced(old(View()), id, updated)
    {
      var at := Position(bids, id);
      if at < |bids| {
        bids := Edited(bids, at, updated);
        return;
      }
      at := Position(asks, id);
      if at < |asks| {
        asks := Edited(asks, at, updated);
        return;
      }
      at := Position(marketBuys, id);
      if at < |marketBuys| {
        marketBuys := Edited(marketBuys, at, updated);
        return;
      }
      at := Position(marketSells, id);
      if at < |marketSells| {
        marketSells := Edited(marketSells, at, updated);
      }
    }
  }

  lemma PlaceAt(side: Side, s: seq<Resting>, r: Resting, price: int, at: nat)
    requires at <= |s|
    requires forall i :: 0 <= i < at ==> StaysAhead(side, s[i], price)
    requires forall i :: at <= i < |s| ==> !StaysAhead(side, s[i], price)
    ensures Place(side, s, r, price) == s[..at] + [r] + s[at..]
  {
    if s != [] && at > 0 {
      PlaceAt(side, s[1..], r, price, at - 1);
      assert [s[0]] + (s[1..][..at - 1] + [r] + s[1..][at - 1..]) == s[..at] + [r] + s[at..];
    }
  }

  lemma HasIdAll(b: BookV, id: nat)
    ensures HasId(All(b), id) <==> HasId(b.bids, id) || HasId(b.asks, id) || HasId(b.marketBuys, id) || HasId(b.marketSells, id)
  {
    HasIdAppend(b.bids, b.asks, id);
    HasIdAppend(b.bids + b.asks, b.marketBuys, id);
    HasIdAppend(b.bids + b.asks + b.marketBuys, b.marketSells, id);
  }

  lemma HasIdAppend(s: seq<Resting>, t: seq<Resting>, id: nat)
    ensures HasId(s + t, id) <==> HasId(s, id) || HasId(t, id)
  {
    if HasId(s, id) {
      var i :| 0 <= i < |s| && s[i].order.id == id;
      assert (s + t)[i].order.id == id;
    }
    if HasId(t, id) {
      var i :| 0 <= i < |t| && t[i].order.id == id;
      assert (s + t)[|s| + i].order.id == id;
    }
  }

  lemma MemberOfAll(b: BookV, r: Resting)
    requires r in b.bids || r in b.asks || r in b.marketBuys || r in b.marketSells
    ensures r in All(b) && r.order in Orders(b)
  {
  }

  // ----- what insertion and removal keep

  lemma PlacedMembers(side: Side, s: seq<Resting>, r: Resting, price: int)
    ensures forall x :: x in Place(side, s, r, price) <==> x in s || x == r
  {
    if s != [] && StaysAhead(side, s[0], price) {
      PlacedMembers(side, s[1..], r, price);
      assert s == [s[0]] + s[1..];
    }
  }

  /** Placing the latest arrival keeps a side in price-time order. */
  lemma {:induction false} PlacedSorted(side: Side, s: seq<Resting>, r: Resting, price: int, bound: nat)
    requires LimitSide(s, side, bound)
    requires r.order.side == side && r.order.price == Some(price) && r.arrival == bound
    ensures LimitSide(Place(side, s, r, price), side, bound + 1)
  {
    PlacedMembers(side, s, r, price);
    if s != [] && StaysAhead(side, s[0], price) {
      var rest := Place(side, s[1..], r, price);
      PlacedMembers(side, s[1..], r, price);
      PlacedSorted(side, s[1..], r, price, bound);
      assert s == [s[0]] + s[1..];
      forall j | 0 <= j < |rest| ensures Precedes(side, s[0], rest[j]) {
        if rest[j] != r {
          assert rest[j] in s[1..];
          var k :| 0 <= k < |s[1..]| && s[1..][k] == rest[j];
          assert Precedes(side, s[0], s[k + 1]);
        }
      }
      var all := [s[0]] + rest;
      forall i, j | 0 <= i < j < |all| ensures Precedes(side, all[i], all[j]) {
        if i > 0 {
          assert all[i] == rest[i - 1] && all[j] == rest[j - 1];
        }
      }
    } else if s != [] {
      forall j | 0 <= j < |s| ensures Precedes(side, r, s[j]) {
        if j > 0 { assert Precedes(side, s[0], s[j]); }
      }
    }
  }

  lemma InsertedSorted(b: BookV, order: Order)
    requires Sorted(b)
    ensures Sorted(Inserted(b, order))
  {
    var r := Resting(order, b.nextArrival);
    match (order.side, order.price)
    case (Buy, None) =>
    case (Sell, None) =>
    case (Buy, Some(p)) => PlacedSorted(Buy, b.bids, r, p, b.nextArrival);
    case (Sell, Some(p)) => PlacedSorted(Sell, b.asks, r, p, b.nextArrival);
  }

  lemma UniqueInsert(s: seq<Resting>, r: Resting, t: seq<Resting>)
    requires UniqueIds(s + t) && !HasId(s + t, r.order.id)
    ensures UniqueIds(s + [r] + t)
  {
    var u, v := s + [r] + t, s + t;
    forall i, j | 0 <= i < j < |u| ensures u[i].order.id != u[j].order.id {
      var i' := if i < |s| then i else i - 1;
      var j' := if j < |s| then j else j - 1;
      if i == |s| { assert u[j] == v[j']; }
      else if j == |s| { assert u[i] == v[i']; }
      else { assert u[i] == v[i'] && u[j] == v[j']; }
    }
  }

  lemma UniqueDrop(s: seq<Resting>, r: Resting, t: seq<Resting>)
    requires UniqueIds(s + [r] + t)
    ensures UniqueIds(s + t)
  {
    var u, v := s + [r] + t, s + t;
    forall i, j | 0 <= i < j < |v| ensures v[i].order.id != v[j].order.id {
      assert v[i] == u[if i < |s| then i else i + 1];
      assert v[j] == u[if j < |s| then j else j + 1];
    }
  }

  lemma PlaceSplits(side: Side, s: seq<Resting>, r: Resting, price: int) returns (at: nat)
    ensures at <= |s| && Place(side, s, r, price) == s[..at] + [r] + s[at..]
  {
    if s == [] || !StaysAhead(side, s[0], price) {
      at := 0;
    } else {
      at := PlaceSplits(side, s[1..], r, price);
      assert [s[0]] + (s[1..][..at] + [r] + s[1..][at..]) == s[..at + 1] + [r] + s[at + 1..];
      at := at + 1;
    }
  }

  /** An insertion is one element slipped into the iteration order. */
  lemma InsertedAll(b: BookV, order: Order) returns (x: seq<Resting>, y: seq<Resting>)
    ensures All(b) == x + y
    ensures All(Inserted(b, order)) == x + [Resting(order, b.nextArrival)] + y
  {
    var r := Resting(order, b.nextArrival);
    match (order.side, order.price)
    case (Buy, None) =>
      x, y := b.bids + b.asks + b.marketBuys, b.marketSells;
    case (Sell, None) =>
      x, y := All(b), [];
    case (Buy, Some(p)) =>
      var at := PlaceSplits(Buy, b.bids, r, p);
      x, y := b.bids[..at], b.bids[at..] + b.asks + b.marketBuys + b.marketSells;
    case (Sell, Some(p)) =>
      var at := PlaceSplits(Sell, b.asks, r, p);
      x, y := b.bids + b.asks[..at], b.asks[at..] + b.marketBuys + b.marketSells;
  }

  /** A fresh order keeps the book well formed and joins the orders it holds. */
  lemma InsertedWf(b: BookV, order: Order)
    requires Wf(b) && order.id !in Ids(b)
    ensures Wf(Inserted(b, order))
    ensures Orders(Inserted(b, order)) == Orders(b) + {order}
    ensures Ids(Inserted(b, order)) == Ids(b) + {order.id}
  {
    var r := Resting(order, b.nextArrival);
    var x, y := InsertedAll(b, order);
    InsertedSorted(b, order);
    UniqueInsert(x, r, y);
    InsertedHolds(b, order);
  }

  lemma InsertedHolds(b: BookV, order: Order)
    ensures Orders(Inserted(b, order)) == Orders(b) + {order}
    ensures Ids(Inserted(b, order)) == Ids(b) + {order.id}
  {
    var r := Resting(order, b.nextArrival);
    var x, y := InsertedAll(b, order);
    var b' := Inserted(b, order);
    assert forall q :: q in All(b') <==> q in All(b) || q == r;
    assert r in All(b');
  }

  lemma DropSplits(s: seq<Resting>, id: nat) returns (k: nat)
    requires HasId(s, id)
    ensures k < |s| && s == s[..k] + [s[k]] + s[k + 1..] && s[k].order.id == id
    ensures DropId(s, id) == s[..k] + s[k + 1..]
  {
    k := IndexOf(s, id);
  }

  lemma Regroup(w: seq<Resting>, p: seq<Resting>, m: seq<Resting>, q: seq<Resting>, z: seq<Resting>)
    ensures w + (p + m + q) + z == (w + p) + m + (q + z)
    ensures w + (p + q) + z == (w + p) + (q + z)
  {
  }

  /** A removal is one element taken out of the iteration order. */
  lemma RemovedAll(b: BookV, id: nat) returns (x: seq<Resting>, r: Resting, y: seq<Resting>)
    requires HasId(All(b), id)
    ensures All(b) == x + [r] + y && r.order.id == id
    ensures All(Removed(b, id)) == x + y
  {
    HasIdAll(b, id);
    var w, s, z;
    if HasId(b.bids, id) {
      w, s, z := [], b.bids, b.asks + b.marketBuys + b.marketSells;
      assert All(Removed(b, id)) == w + DropId(s, id) + z;
    } else if HasId(b.asks, id) {
      w, s, z := b.bids, b.asks, b.marketBuys + b.marketSells;
      assert All(Removed(b, id)) == w + DropId(s, id) + z;
    } else if HasId(b.marketBuys, id) {
      w, s, z := b.bids + b.asks, b.marketBuys, b.marketSells;
      assert All(Removed(b, id)) == w + DropId(s, id) + z;
    } else {
      w, s, z := b.bids + b.asks + b.marketBuys, b.marketSells, [];
      assert All(Removed(b, id)) == w + DropId(s, id) + z;
    }
    assert All(b) == w + s + z;
    var k := DropSplits(s, id);
    Regroup(w, s[..k], [s[k]], s[k + 1..], z);
    x, r, y := w + s[..k], s[k], s[k + 1..] + z;
  }

  lemma RemovedAbsent(b: BookV, id: nat)
    requires !HasId(All(b), id)
    ensures Removed(b, id) == b
  {
    HasIdAll(b, id);
  }

  lemma DroppedLimitSide(s: seq<Resting>, side: Side, bound: nat, id: nat)
    requires LimitSide(s, side, bound)
    ensures LimitSide(DropId(s, id), side, bound)
  {
    var k := IndexOf(s, id);
    var t := DropId(s, id);
    assert forall i :: 0 <= i < |t| ==> t[i] == s[if i < k then i else i + 1];
  }

  lemma DroppedMarketSide(s: seq<Resting>, side: Side, bound: nat, id: nat)
    requires MarketSide(s, side, bound)
    ensures MarketSide(DropId(s, id), side, bound)
  {
    var k := IndexOf(s, id);
    var t := DropId(s, id);
    assert forall i :: 0 <= i < |t| ==> t[i] == s[if i < k then i else i + 1];
  }

  lemma RemovedSorted(b: BookV, id: nat)
    requires Sorted(b)
    ensures Sorted(Removed(b, id))
  {
    DroppedLimitSide(b.bids, Buy, b.nextArrival, id);
    DroppedLimitSide(b.asks, Sell, b.nextArrival, id);
    DroppedMarketSide(b.marketBuys, Buy, b.nextArrival, id);
    DroppedMarketSide(b.marketSells, Sell, b.nextArrival, id);
  }

  /** Removal keeps the book well formed and takes out exactly the named order. */
  lemma RemovedWf(b: BookV, id: nat)
    requires Wf(b)
    ensures Wf(Removed(b, id))
    ensures Orders(Removed(b, id)) == set o | o in Orders(b) && o.id != id
    ensures Ids(Removed(b, id)) == Ids(b) - {id}
  {
    RemovedSorted(b, id);
    if HasId(All(b), id) {
      var x, r, y := RemovedAll(b, id);
      UniqueDrop(x, r, y);
      RemovedMembers(x, r, y);
    } else {
      RemovedAbsent(b, id);
    }
    assert forall q :: q in All(Removed(b, id)) <==> q in All(b) && q.order.id != id by {
      RemovedHolds(b, id);
    }
  }

  lemma RemovedHolds(b: BookV, id: nat)
    requires Wf(b)
    ensures forall q :: q in All(Removed(b, id)) <==> q in All(b) && q.order.id != id
  {
    if HasId(All(b), id) {
      var x, r, y := RemovedAll(b, id);
      RemovedMembers(x, r, y);
      assert forall q :: q in x + [r] + y <==> q in x + y || q == r;
    } else {
      RemovedAbsent(b, id);
      assert forall q :: q in All(b) ==> q.order.id != id;
    }
  }

  lemma RemovedMembers(x: seq<Resting>, r: Resting, y: seq<Resting>)
    requires UniqueIds(x + [r] + y)
    ensures forall q :: q in x + y ==> q.order.id != r.order.id
  {
    var u, v := x + [r] + y, x + y;
    forall q | q in v ensures q.order.id != r.order.id {
      var i :| 0 <= i < |v| && v[i] == q;
      assert u[|x|] == r;
      if i < |x| { assert u[i] == q; } else { assert u[i + 1] == q; }
    }
  }

  lemma EmptyBookFacts(n: nat)
    ensures Wf(BookV([], [], [], [], n)) && Orders(BookV([], [], [], [], n)) == {} && Ids(BookV([], [], [], [], n)) == {}
  {
  }
}
