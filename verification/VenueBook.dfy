/** A book that joins a stream of numbered updates after a snapshot, and follows it over a channel
    that loses, repeats and reorders (crates/oq-book/src/book.rs). */
module VenueBook {
  import opened Numbers
  import opened DepthSide

  datatype DepthUpdate = DepthUpdate(
    eventMs: int, firstId: nat, finalId: nat, prevFinalId: Option<nat>, bids: seq<Level>, asks: seq<Level>)

  datatype SequenceError =
    | NoSnapshot
    | DoesNotStraddleSnapshot(snapshot: nat, firstId: nat, finalId: nat)
    | SequenceGap(expected: nat, found: nat)

  datatype Applied = Updated | AlreadyInSnapshot

  /** A book as its two sides by price, and where it stands in the stream. */
  datatype BookV = BookV(
    bids: map<int, int>, asks: map<int, int>, lastId: Option<nat>, snapshotId: Option<nat>, applied: nat)

  function ChangedAll(m: map<int, int>, levels: seq<Level>): map<int, int>
    decreases |levels|
  {
    if levels == [] then m else ChangedAll(Changed(m, levels[0]), levels[1..])
  }

  function Snapshotted(updateId: nat, bids: seq<Level>, asks: seq<Level>): BookV {
    BookV(ChangedAll(map[], bids), ChangedAll(map[], asks), None, Some(updateId), 0)
  }

  /** The sequencing rules: what an update is refused for, or whether it changes anything. */
  function Verdict(b: BookV, u: DepthUpdate): Result<Applied, SequenceError> {
    if b.snapshotId.None? then Err(NoSnapshot)
    else
      var snapshot := b.snapshotId.value;
      if b.lastId.None? then
        if u.finalId <= snapshot then Ok(AlreadyInSnapshot)
        else if u.firstId > snapshot + 1 && !(u.prevFinalId.Some? && u.prevFinalId.value <= snapshot) then
          Err(DoesNotStraddleSnapshot(snapshot, u.firstId, u.finalId))
        else Ok(Updated)
      else
        var previous := if u.prevFinalId.Some? then u.prevFinalId.value else if u.firstId == 0 then 0 else u.firstId - 1;
        if previous != b.lastId.value then Err(SequenceGap(b.lastId.value, previous)) else Ok(Updated)
  }

  function Applying(b: BookV, u: DepthUpdate): BookV {
    if Verdict(b, u) == Ok(Updated) then
      BookV(ChangedAll(b.bids, u.bids), ChangedAll(b.asks, u.asks), Some(u.finalId), b.snapshotId, b.applied + 1)
    else b
  }

  class Book {
    var bids: Side
    var asks: Side
    var lastId: Option<nat>
    var snapshotId: Option<nat>
    var applied: nat

    ghost predicate Valid()
      reads this, bids, asks
    {
      && bids != asks && bids.descending && !asks.descending
      && SortedLevels(true, bids.levels) && NoZero(bids.levels)
      && SortedLevels(false, asks.levels) && NoZero(asks.levels)
    }

    ghost function View(): BookV
      reads this, bids, asks
    {
      BookV(ToMap(bids.levels), ToMap(asks.levels), lastId, snapshotId, applied)
    }

    constructor ()
      ensures Valid() && fresh(bids) && fresh(asks)
      ensures View() == BookV(map[], map[], None, None, 0)
    {
      bids := new Side(true);
      asks := new Side(false);
      lastId, snapshotId, applied := None, None, 0;
    }

    method ApplyLevels(side: Side, levels: seq<Level>)
      requires SortedLevels(side.descending, side.levels) && NoZero(side.levels)
      modifies side
      ensures SortedLevels(side.descending, side.levels) && NoZero(side.levels)
      ensures ToMap(side.levels) == ChangedAll(ToMap(old(side.levels)), levels)
    {
      var i := 0;
      while i < |levels|
        invariant 0 <= i <= |levels|
        invariant SortedLevels(side.descending, side.levels) && NoZero(side.levels)
        invariant ChangedAll(ToMap(side.levels), levels[i..]) == ChangedAll(ToMap(old(side.levels)), levels)
      {
        assert levels[i..][1..] == levels[i + 1..];
        side.Apply(levels[i]);
        i := i + 1;
      }
    }

    /** The book's value is then the snapshot's alone. */
    method InstallSnapshot(updateId: nat, bidLevels: seq<Level>, askLevels: seq<Level>)
      modifies this
      ensures Valid() && fresh(bids) && fresh(asks)
      ensures View() == Snapshotted(updateId, bidLevels, askLevels)
    {
      bids := new Side(true);
      asks := new Side(false);
      ApplyLevels(bids, bidLevels);
      ApplyLevels(asks, askLevels);
      snapshotId := Some(updateId);
      lastId := None;
      applied := 0;
    }

    /** The verdict is the declared one, and only an accepted update changes the book's value. */
    method Apply(u: DepthUpdate) returns (r: Result<Applied, SequenceError>)
      requires Valid()
      modifies this`lastId, this`applied, bids, asks
      ensures Valid()
      ensures r == Verdict(old(View()), u)
      ensures View() == Applying(old(View()), u)
      ensures r != Ok(Updated) ==> bids.levels == old(bids.levels) && asks.levels == old(asks.levels)
    {
      if snapshotId.None? {
        return Err(NoSnapshot);
      }
      var snapshot := snapshotId.value;
      match lastId {
        case None =>
          if u.finalId <= snapshot {
            return Ok(AlreadyInSnapshot);
          }
          var predecessorInside := u.prevFinalId.Some? && u.prevFinalId.value <= snapshot;
          if u.firstId > snapshot + 1 && !predecessorInside {
            return Err(DoesNotStraddleSnapshot(snapshot, u.firstId, u.finalId));
          }
        case Some(last) =>
          var previous := if u.prevFinalId.Some? then u.prevFinalId.value else Max(u.firstId - 1, 0);
          if previous != last {
            return Err(SequenceGap(last, previous));
          }
      }
      ApplyLevels(bids, u.bids);
      ApplyLevels(asks, u.asks);
      lastId := Some(u.finalId);
      applied := applied + 1;
      r := Ok(Updated);
    }
  }

  // ----- the venue's side of the story

  /** A well-formed stream: id ranges increase, and each update names its predecessor by its
      final id, or is contiguous with it when it names none. */
  ghost predicate WellFormed(us: seq<DepthUpdate>) {
    && (forall i :: 0 <= i < |us| ==> us[i].firstId <= us[i].finalId)
    && (forall i :: 0 < i < |us| ==> us[i - 1].finalId < us[i].firstId)
    && (forall i :: 0 < i < |us| ==>
          if us[i].prevFinalId.Some? then us[i].prevFinalId.value == us[i - 1].finalId else us[i].firstId == us[i - 1].finalId + 1)
    && (us != [] && us[0].prevFinalId.Some? ==> us[0].prevFinalId.value < us[0].firstId)
  }

  datatype Quotes = Quotes(bids: map<int, int>, asks: map<int, int>)

  /** The venue's own book after its first `n` updates. */
  function TrueBook(start: Quotes, us: seq<DepthUpdate>, n: nat): Quotes
    requires n <= |us|
  {
    if n == 0 then start
    else
      var q := TrueBook(start, us, n - 1);
      Quotes(ChangedAll(q.bids, us[n - 1].bids), ChangedAll(q.asks, us[n - 1].asks))
  }

  ghost predicate Mentions(levels: seq<Level>, p: int) {
    exists i :: 0 <= i < |levels| && levels[i].price == p
  }

  ghost predicate AgreeAt(m: map<int, int>, n: map<int, int>, p: int) {
    (p in m <==> p in n) && (p in m ==> m[p] == n[p])
  }

  // ----- what a list of levels leaves standing

  /** The quantity the last of the levels at a price names, and zero if none does. */
  function LastNamed(levels: seq<Level>, p: int): int {
    if levels == [] then 0
    else if levels[|levels| - 1].price == p then levels[|levels| - 1].qty
    else LastNamed(levels[..|levels| - 1], p)
  }

  /** A side shows a quantity at a price; zero is no level. */
  predicate Shows(m: map<int, int>, p: int, qty: int) {
    if qty == 0 then p !in m else p in m && m[p] == qty
  }

  lemma {:induction false} ChangedAllSnoc(m: map<int, int>, levels: seq<Level>, l: Level)
    ensures ChangedAll(m, levels + [l]) == Changed(ChangedAll(m, levels), l)
    decreases |levels|
  {
    if levels == [] {
      assert [l][1..] == [];
      assert levels + [l] == [l];
    } else {
      assert (levels + [l])[1..] == levels[1..] + [l];
      ChangedAllSnoc(Changed(m, levels[0]), levels[1..], l);
    }
  }

  /** After a list of levels each price shows what the last of them at that price names, and what it
      showed before if none does. */
  lemma {:induction false} LastNamedStands(m: map<int, int>, levels: seq<Level>, p: int)
    ensures Mentions(levels, p) ==> Shows(ChangedAll(m, levels), p, LastNamed(levels, p))
    ensures !Mentions(levels, p) ==> AgreeAt(ChangedAll(m, levels), m, p) && LastNamed(levels, p) == 0
    decreases |levels|
  {
    if levels != [] {
      var front, l := levels[..|levels| - 1], levels[|levels| - 1];
      assert levels == front + [l];
      ChangedAllSnoc(m, front, l);
      LastNamedStands(m, front, p);
      MentionsSnoc(front, l, p);
    }
  }

  lemma MentionsSnoc(front: seq<Level>, l: Level, p: int)
    ensures Mentions(front + [l], p) <==> Mentions(front, p) || l.price == p
  {
    if Mentions(front, p) {
      var i :| 0 <= i < |front| && front[i].price == p;
      assert (front + [l])[i].price == p;
    }
    if l.price == p {
      assert (front + [l])[|front|].price == p;
    }
  }

  /** A snapshot shows its own bids as bids and its asks as asks, has joined nothing and remembers its
      identifier. */
  lemma SnapshotShowsItsLevels(updateId: nat, bids: seq<Level>, asks: seq<Level>, p: int)
    ensures var b := Snapshotted(updateId, bids, asks);
      && Shows(b.bids, p, LastNamed(bids, p)) && Shows(b.asks, p, LastNamed(asks, p))
      && b.lastId.None? && b.snapshotId == Some(updateId) && b.applied == 0
  {
    LastNamedStands(map[], bids, p);
    LastNamedStands(map[], asks, p);
  }

  /** An accepted update shows its own bids as bids and its asks as asks, and leaves every other price. */
  lemma UpdateShowsItsLevels(b: BookV, u: DepthUpdate, p: int)
    requires Verdict(b, u) == Ok(Updated)
    ensures var r := Applying(b, u);
      && (if Mentions(u.bids, p) then Shows(r.bids, p, LastNamed(u.bids, p)) else AgreeAt(r.bids, b.bids, p))
      && (if Mentions(u.asks, p) then Shows(r.asks, p, LastNamed(u.asks, p)) else AgreeAt(r.asks, b.asks, p))
      && r.lastId == Some(u.finalId) && r.applied == b.applied + 1
  {
    LastNamedStands(b.bids, u.bids, p);
    LastNamedStands(b.asks, u.asks, p);
  }

  /** The identifier an update says it follows: the one it names, or the one before its first. */
  predicate Follows(u: DepthUpdate, id: nat) {
    if u.prevFinalId.Some? then u.prevFinalId == Some(id) else u.firstId == id + 1 || (u.firstId == 0 && id == 0)
  }

  /** Why an update is not applied: there is no snapshot; it ends within the snapshot; it starts past it
      and does not reach back; or, once joined, it does not follow the last one applied. */
  lemma UnappliedFor(b: BookV, u: DepthUpdate)
    ensures b.snapshotId.None? <==> Verdict(b, u) == Err(NoSnapshot)
    ensures b.snapshotId.Some? && b.lastId.None? && u.finalId <= b.snapshotId.value ==> Verdict(b, u) == Ok(AlreadyInSnapshot)
    ensures b.snapshotId.Some? && b.lastId.None? && u.finalId > b.snapshotId.value ==>
      var late := u.firstId >= b.snapshotId.value + 2 && (u.prevFinalId.None? || u.prevFinalId.value > b.snapshotId.value);
      Verdict(b, u) == if late then Err(DoesNotStraddleSnapshot(b.snapshotId.value, u.firstId, u.finalId)) else Ok(Updated)
    ensures b.snapshotId.Some? && b.lastId.Some? && Follows(u, b.lastId.value) ==> Verdict(b, u) == Ok(Updated)
    ensures b.snapshotId.Some? && b.lastId.Some? && !Follows(u, b.lastId.value) ==>
      exists found: nat :: Follows(u, found) && Verdict(b, u) == Err(SequenceGap(b.lastId.value, found))
  {
    if b.snapshotId.Some? && b.lastId.Some? && !Follows(u, b.lastId.value) {
      var found := if u.prevFinalId.Some? then u.prevFinalId.value else if u.firstId == 0 then 0 else u.firstId - 1;
      assert Follows(u, found);
    }
  }

  /** Two sides agree except at prices these levels are about to set. */
  ghost predicate AgreeExcept(m: map<int, int>, n: map<int, int>, levels: seq<Level>) {
    forall p {:trigger AgreeAt(m, n, p)} :: !Mentions(levels, p) ==> AgreeAt(m, n, p)
  }

  lemma MentionsTail(levels: seq<Level>, p: int)
    requires levels != []
    ensures Mentions(levels, p) <==> levels[0].price == p || Mentions(levels[1..], p)
  {
    if Mentions(levels, p) && levels[0].price != p {
      var i :| 0 <= i < |levels| && levels[i].price == p;
      assert levels[1..][i - 1].price == p;
    }
    if Mentions(levels[1..], p) {
      var i :| 0 <= i < |levels[1..]| && levels[1..][i].price == p;
      assert levels[i + 1].price == p;
    }
  }

  lemma {:induction false} ChangesOverwrite(m: map<int, int>, n: map<int, int>, levels: seq<Level>)
    requires AgreeExcept(m, n, levels)
    ensures ChangedAll(m, levels) == ChangedAll(n, levels)
    decreases |levels|
  {
    if levels == [] {
      forall p ensures (p in m <==> p in n) && (p in m ==> m[p] == n[p]) {
        assert !Mentions(levels, p) && AgreeAt(m, n, p);
      }
      assert m == n;
    } else {
      var m', n' := Changed(m, levels[0]), Changed(n, levels[0]);
      forall p | !Mentions(levels[1..], p) ensures AgreeAt(m', n', p) {
        MentionsTail(levels, p);
        if p != levels[0].price {
          assert AgreeAt(m, n, p);
        }
      }
      ChangesOverwrite(m', n', levels[1..]);
    }
  }

  /** The update that will straddle a snapshot: the first one that ends after it. */
  ghost predicate Straddles(us: seq<DepthUpdate>, snapshot: nat, j: nat) {
    && j < |us|
    && us[j].finalId > snapshot
    && (forall i :: 0 <= i < j ==> us[i].finalId <= snapshot)
  }

  /** The snapshot shows the true book just before its straddling update, up to the prices
      that update sets anyway. */
  ghost predicate SnapshotFits(start: Quotes, us: seq<DepthUpdate>, snapshot: nat, bids: map<int, int>, asks: map<int, int>) {
    forall j: nat {:trigger Straddles(us, snapshot, j)} :: Straddles(us, snapshot, j) ==>
      && AgreeExcept(bids, TrueBook(start, us, j).bids, us[j].bids)
      && AgreeExcept(asks, TrueBook(start, us, j).asks, us[j].asks)
  }

  /** What the book is allowed to be at any moment. */
  ghost predicate Faithful(start: Quotes, us: seq<DepthUpdate>, snapshot: BookV, b: BookV) {
    && b.snapshotId == snapshot.snapshotId
    && (b.lastId.None? ==> b == snapshot)
    && (b.lastId.Some? ==> exists i :: IsAfter(start, us, snapshot.snapshotId, b, i))
  }

  ghost predicate IsAfter(start: Quotes, us: seq<DepthUpdate>, snapshotId: Option<nat>, b: BookV, i: nat) {
    && i < |us| && snapshotId.Some?
    && us[i].finalId > snapshotId.value
    && b.lastId == Some(us[i].finalId)
    && b.bids == TrueBook(start, us, i + 1).bids && b.asks == TrueBook(start, us, i + 1).asks
  }

  lemma {:induction false} FinalIdsIncrease(us: seq<DepthUpdate>, i: nat, j: nat)
    requires WellFormed(us) && i < j < |us|
    ensures us[i].finalId < us[j].firstId
    decreases j
  {
    if i < j - 1 {
      FinalIdsIncrease(us, i, j - 1);
    }
  }

  /** Only the straddling update can join. */
  lemma OnlyStraddlerJoins(us: seq<DepthUpdate>, b: BookV, k: nat)
    requires WellFormed(us) && k < |us|
    requires b.snapshotId.Some? && b.lastId.None? && Verdict(b, us[k]) == Ok(Updated)
    ensures Straddles(us, b.snapshotId.value, k)
  {
    var snapshot := b.snapshotId.value;
    forall i | 0 <= i < k ensures us[i].finalId <= snapshot {
      FinalIdsIncrease(us, k - 1, k);
      if i < k - 1 { FinalIdsIncrease(us, i, k - 1); }
    }
  }

  /** Once joined, only the next update in the stream is accepted. */
  lemma OnlySuccessorFollows(us: seq<DepthUpdate>, b: BookV, i: nat, k: nat)
    requires WellFormed(us) && i < |us| && k < |us|
    requires b.snapshotId.Some? && b.lastId == Some(us[i].finalId) && us[i].finalId > b.snapshotId.value
    requires Verdict(b, us[k]) == Ok(Updated)
    ensures k == i + 1
  {
    if k == 0 {
      if i > 0 { FinalIdsIncrease(us, 0, i); }
    } else {
      if k - 1 < i { FinalIdsIncrease(us, k - 1, i); }
      if i < k - 1 { FinalIdsIncrease(us, i, k - 1); }
    }
  }

  lemma FaithfulStep(start: Quotes, us: seq<DepthUpdate>, snapshot: BookV, b: BookV, k: nat)
    requires WellFormed(us) && k < |us|
    requires snapshot.snapshotId.Some? && snapshot.lastId.None?
    requires SnapshotFits(start, us, snapshot.snapshotId.value, snapshot.bids, snapshot.asks)
    requires Faithful(start, us, snapshot, b)
    ensures Faithful(start, us, snapshot, Applying(b, us[k]))
  {
    var b' := Applying(b, us[k]);
    if Verdict(b, us[k]) == Ok(Updated) {
      var u := us[k];
      if b.lastId.None? {
        OnlyStraddlerJoins(us, b, k);
        var q := TrueBook(start, us, k);
        ChangesOverwrite(b.bids, q.bids, u.bids);
        ChangesOverwrite(b.asks, q.asks, u.asks);
        assert IsAfter(start, us, snapshot.snapshotId, b', k);
      } else {
        var i :| IsAfter(start, us, snapshot.snapshotId, b, i);
        OnlySuccessorFollows(us, b, i, k);
        assert IsAfter(start, us, snapshot.snapshotId, b', k);
      }
    }
  }

  /** A delivery is any list of positions in the stream: messages may be missing, repeated
      or out of order. */
  function Delivered(b: BookV, us: seq<DepthUpdate>, ds: seq<nat>): BookV
    requires forall i :: 0 <= i < |ds| ==> ds[i] < |us|
    decreases |ds|
  {
    if ds == [] then b
    else Applying(Delivered(b, us, ds[..|ds| - 1]), us[ds[|ds| - 1]])
  }

  /** However a lossy channel mangles a well-formed stream, the book is the snapshot until it
      joins, and from then on the venue's book as it stood right after the update the book
      says it last applied. */
  lemma {:induction false} LossyChannelIsSafe(start: Quotes, us: seq<DepthUpdate>, snapshot: BookV, ds: seq<nat>)
    requires WellFormed(us) && forall i :: 0 <= i < |ds| ==> ds[i] < |us|
    requires snapshot.snapshotId.Some? && snapshot.lastId.None?
    requires SnapshotFits(start, us, snapshot.snapshotId.value, snapshot.bids, snapshot.asks)
    ensures Faithful(start, us, snapshot, Delivered(snapshot, us, ds))
    decreases |ds|
  {
    if ds != [] {
      var n := |ds| - 1;
      LossyChannelIsSafe(start, us, snapshot, ds[..n]);
      FaithfulStep(start, us, snapshot, Delivered(snapshot, us, ds[..n]), ds[n]);
    }
  }

  // ----- and a channel that loses nothing is followed

  lemma StraddlerAccepted(us: seq<DepthUpdate>, b: BookV, j: nat)
    requires WellFormed(us) && b.snapshotId.Some? && b.lastId.None? && Straddles(us, b.snapshotId.value, j)
    requires j > 0 || us[0].firstId <= b.snapshotId.value + 1 || (us[0].prevFinalId.Some? && us[0].prevFinalId.value <= b.snapshotId.value)
    ensures Verdict(b, us[j]) == Ok(Updated)
  {
    if j > 0 {
      assert us[j - 1].finalId <= b.snapshotId.value;
    }
  }

  function InOrder(j: nat, n: nat): (ds: seq<nat>)
    requires j <= n
    ensures |ds| == n - j
    ensures forall i :: 0 <= i < |ds| ==> ds[i] == j + i
  {
    seq(n - j, i requires 0 <= i < n - j => j + i)
  }

  /** Delivering the stream in order from the straddling update accepts every update, so the
      book follows the venue's to the end. */
  lemma {:induction false} InOrderDeliveryFollows(start: Quotes, us: seq<DepthUpdate>, snapshot: BookV, j: nat, n: nat)
    requires WellFormed(us) && snapshot.snapshotId.Some? && snapshot.lastId.None?
    requires Straddles(us, snapshot.snapshotId.value, j)
    requires j > 0 || us[0].firstId <= snapshot.snapshotId.value + 1 || (us[0].prevFinalId.Some? && us[0].prevFinalId.value <= snapshot.snapshotId.value)
    requires SnapshotFits(start, us, snapshot.snapshotId.value, snapshot.bids, snapshot.asks)
    requires j < n <= |us|
    ensures var b := Delivered(snapshot, us, InOrder(j, n));
      b.lastId == Some(us[n - 1].finalId) && b.bids == TrueBook(start, us, n).bids && b.asks == TrueBook(start, us, n).asks &&
      b.applied == snapshot.applied + (n - j) && b.snapshotId == snapshot.snapshotId
    decreases n
  {
    var ds := InOrder(j, n);
    assert ds[..|ds| - 1] == InOrder(j, n - 1);
    var b := Delivered(snapshot, us, InOrder(j, n - 1));
    if n - 1 == j {
      StraddlerAccepted(us, snapshot, j);
      var q := TrueBook(start, us, j);
      ChangesOverwrite(snapshot.bids, q.bids, us[j].bids);
      ChangesOverwrite(snapshot.asks, q.asks, us[j].asks);
    } else {
      InOrderDeliveryFollows(start, us, snapshot, j, n - 1);
    }
  }
}
