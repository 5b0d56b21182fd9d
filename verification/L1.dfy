/** The L1 tier as functions on values: an L0 engine with three lists around it, of orders on their
    way, orders queueing, and fills not yet delivered (crates/oq-engine/src/l1.rs). */
module L1 {
  import opened Numbers
  import opened Market
  import opened RestingBook
  import opened L0

  datatype Delay = Fixed(nanos: int) | Measured(p50: int, p90: int, p99: int, p999: int) {
    /** Nearest-rank draw; `u` is the draw for the order, in thousandths. */
    function At(u: nat): int {
      match this
      case Fixed(n) => n
      case Measured(a, b, c, d) =>
        if u % 1000 < 500 then a else if u % 1000 < 900 then b else if u % 1000 < 990 then c else d
    }

    predicate IsZero() {
      match this
      case Fixed(n) => n == 0
      case Measured(a, b, c, d) => a == 0 && b == 0 && c == 0 && d == 0
    }
  }

  datatype QueueAhead = NoQueue | FixedLots(lots: int) | VolumeMultiple(hundredths: nat)

  /** Everything L1 assumes. `draw` stands for the per-order hash and `penalty` for the
      square-root law, both arbitrary but fixed. */
  datatype Policy = Policy(
    queue: QueueAhead, entry: Delay, response: Delay, coefficient: nat,
    draw: nat -> nat, penalty: (int, int, int) -> nat)

  predicate Transparent(p: Policy) {
    p.queue == NoQueue && p.entry == Fixed(0) && p.response == Fixed(0) && p.coefficient == 0
  }

  function EntryDelay(p: Policy, id: nat): int {
    p.entry.At(p.draw(id))
  }

  function ResponseDelay(p: Policy, id: nat): int {
    p.response.At(p.draw(id))
  }

  datatype Pending = Pending(order: Order, liveAt: int, ahead: Option<int>, sampleAtArrival: bool, since: Option<int>)
  datatype Queued = Queued(order: Order, remaining: int, since: Option<int>)
  datatype Delayed = Delayed(knownAt: int, fill: L0Fill)

  /** A price for a taker of a side and size, if one can be measured. */
  type Measure = (Side, int) -> Option<int>

  const UNMEASURED: Measure := (side: Side, qty: int) => None

  datatype L1V = L1V(
    inner: EngineV, pending: seq<Pending>, queued: seq<Queued>, delayed: seq<Delayed>,
    prevVolume: Option<int>, lastTraded: Option<int>, prevAt: Option<int>)

  function NewL1(instrument: nat): L1V {
    L1V(NewEngine(instrument), [], [], [], None, None, None)
  }

  // ----- admission

  function AssumedAhead(queue: QueueAhead, arrivalVolume: Option<int>): int {
    match queue
    case NoQueue => 0
    case FixedLots(n) => n
    case VolumeMultiple(m) => TruncDiv(m * (if arrivalVolume.Some? then arrivalVolume.value else 0), 100)
  }

  /** The lots an order starts behind; a limit order prefers a measurement to the assumption. */
  function AheadOf(p: Policy, order: Order, arrivalVolume: Option<int>, ahead: Option<int>): int {
    if order.price.None? then 0
    else if ahead.Some? then Max(ahead.value, 0)
    else AssumedAhead(p.queue, arrivalVolume)
  }

  function Admitted(v: L1V, p: Policy, order: Order, arrivalVolume: Option<int>, ahead: Option<int>, since: Option<int>): L1V {
    var n := AheadOf(p, order, arrivalVolume, ahead);
    if n > 0 then
      v.(queued := v.queued + [Queued(order, n, if ahead.Some? then since else None)])
    else
      v.(inner := v.inner.(book := Inserted(v.inner.book, order)))
  }

  function Submitted(v: L1V, p: Policy, order: Order, now: int, ahead: Option<int>, sampleAtArrival: bool): L1V {
    var delay := EntryDelay(p, order.id);
    if (if sampleAtArrival then delay > 0 else !p.entry.IsZero()) then
      var liveAt := Clamp64(now + delay);
      v.(pending := v.pending + [Pending(order, liveAt, ahead, sampleAtArrival, if sampleAtArrival then Some(liveAt) else None)])
    else
      Admitted(v, p, order, v.lastTraded, ahead, if sampleAtArrival then Some(now) else None)
  }

  // ----- withdrawal

  function PendingWithout(s: seq<Pending>, id: nat): seq<Pending> {
    if s == [] then []
    else if s[0].order.id == id then PendingWithout(s[1..], id)
    else [s[0]] + PendingWithout(s[1..], id)
  }

  function QueuedWithout(s: seq<Queued>, id: nat): seq<Queued> {
    if s == [] then []
    else if s[0].order.id == id then QueuedWithout(s[1..], id)
    else [s[0]] + QueuedWithout(s[1..], id)
  }

  /** The book is searched only when the order was neither in flight nor queued. */
  function Cancelled(v: L1V, id: nat): L1V {
    var p, q := PendingWithout(v.pending, id), QueuedWithout(v.queued, id);
    if |p| + |q| < |v.pending| + |v.queued| then v.(pending := p, queued := q)
    else v.(pending := p, queued := q, inner := v.inner.(book := Removed(v.inner.book, id)))
  }

  function AllCancelled(v: L1V): L1V {
    v.(pending := [], queued := [], inner := v.inner.(book := BookV([], [], [], [], v.inner.book.nextArrival)))
  }

  // ----- one observation

  /** How far the cumulative volume rose; never below zero, so a figure that fell counts for none. */
  function Traded(prevVolume: Option<int>, t: Tick): (n: int)
    ensures n >= 0
  {
    if prevVolume.Some? then Max(Clamp64(t.volume - prevVolume.value), 0) else 0
  }

  predicate Touched(t: Tick, price: int) {
    t.low <= price <= t.high
  }

  predicate GappedThrough(t: Tick, side: Side, price: int) {
    !(t.high == 0 && t.low == 0) && if side.Buy? then t.high < price else t.low > price
  }

  function Arriving(s: seq<Pending>, now: int): seq<Pending> {
    if s == [] then []
    else if s[0].liveAt <= now then [s[0]] + Arriving(s[1..], now)
    else Arriving(s[1..], now)
  }

  function InFlight(s: seq<Pending>, now: int): seq<Pending> {
    if s == [] then []
    else if s[0].liveAt <= now then InFlight(s[1..], now)
    else [s[0]] + InFlight(s[1..], now)
  }

  function AdmittedAll(v: L1V, p: Policy, s: seq<Pending>, traded: int): L1V
    decreases |s|
  {
    if s == [] then v
    else AdmittedAll(Admitted(v, p, s[0].order, Some(traded), s[0].ahead, s[0].since), p, s[1..], traded)
  }

  /** A queue whose measurement is newer than the previous observation waits this one out. */
  predicate Waits(q: Queued, prevAt: Option<int>) {
    q.since.Some? && (prevAt.None? || prevAt.value < q.since.value)
  }

  function LotsLeft(q: Queued, t: Tick, traded: int): int {
    if q.order.price.Some? && Touched(t, q.order.price.value) then q.remaining - traded else q.remaining
  }

  predicate Promoted(q: Queued, prevAt: Option<int>, t: Tick, traded: int) {
    !Waits(q, prevAt) &&
    (q.order.price.None? || GappedThrough(t, q.order.side, q.order.price.value) || LotsLeft(q, t, traded) <= 0)
  }

  function Depleted(q: Queued, prevAt: Option<int>, t: Tick, traded: int): Queued {
    if Waits(q, prevAt) then q else q.(remaining := LotsLeft(q, t, traded))
  }

  function StillQueued(s: seq<Queued>, prevAt: Option<int>, t: Tick, traded: int): seq<Queued> {
    if s == [] then []
    else if Promoted(s[0], prevAt, t, traded) then StillQueued(s[1..], prevAt, t, traded)
    else [Depleted(s[0], prevAt, t, traded)] + StillQueued(s[1..], prevAt, t, traded)
  }

  function PromotedOrders(s: seq<Queued>, prevAt: Option<int>, t: Tick, traded: int): seq<Order> {
    if s == [] then []
    else if Promoted(s[0], prevAt, t, traded) then [s[0].order] + PromotedOrders(s[1..], prevAt, t, traded)
    else PromotedOrders(s[1..], prevAt, t, traded)
  }

  function InsertedEach(b: BookV, s: seq<Order>): BookV
    decreases |s|
  {
    if s == [] then b else InsertedEach(Inserted(b, s[0]), s[1..])
  }

  /** Moves a taker's price up for a buy and down for a sell, where volume and range are positive. */
  function WithImpact(p: Policy, f: L0Fill, t: Tick, traded: int): L0Fill {
    var range := Max(t.high - t.low, 0);
    if p.coefficient == 0 || f.fill.liquidity != Taker || traded <= 0 || range == 0 then f
    else
      var cost := p.penalty(f.fill.qty, traded, range);
      f.(fill := f.fill.(price := if f.fill.side.Buy? then f.fill.price + cost else f.fill.price - cost))
  }

  /** A measurement replaces a taker's price if it is less favourable, and then no impact is added. */
  function Adjusted(p: Policy, m: Measure, f: L0Fill, t: Tick, traded: int): L0Fill {
    var price := if f.fill.liquidity != Taker then None else m(f.fill.side, f.fill.qty);
    if price.Some? then
      f.(fill := f.fill.(price := if f.fill.side.Buy? then Max(f.fill.price, price.value) else Min(f.fill.price, price.value)))
    else WithImpact(p, f, t, traded)
  }

  function AdjustedAll(p: Policy, m: Measure, fs: seq<L0Fill>, t: Tick, traded: int): (gs: seq<L0Fill>)
    ensures |gs| == |fs|
    ensures forall i :: 0 <= i < |fs| ==> gs[i] == Adjusted(p, m, fs[i], t, traded)
  {
    seq(|fs|, i requires 0 <= i < |fs| => Adjusted(p, m, fs[i], t, traded))
  }

  function Postponed(p: Policy, fs: seq<L0Fill>, now: int): (ds: seq<Delayed>)
    ensures |ds| == |fs|
    ensures forall i :: 0 <= i < |fs| ==> ds[i] == Delayed(now + ResponseDelay(p, fs[i].fill.order), fs[i])
  {
    seq(|fs|, i requires 0 <= i < |fs| => Delayed(now + ResponseDelay(p, fs[i].fill.order), fs[i]))
  }

  function Ready(ds: seq<Delayed>, now: int): seq<L0Fill> {
    if ds == [] then []
    else if ds[0].knownAt <= now then [ds[0].fill] + Ready(ds[1..], now)
    else Ready(ds[1..], now)
  }

  function HeldBack(ds: seq<Delayed>, now: int): seq<Delayed> {
    if ds == [] then []
    else if ds[0].knownAt > now then [ds[0]] + HeldBack(ds[1..], now)
    else HeldBack(ds[1..], now)
  }

  /** Stage one: pending orders that are live by now are admitted, the others stay pending. */
  function AfterArrivals(v: L1V, p: Policy, t: Tick): L1V {
    AdmittedAll(v.(pending := InFlight(v.pending, t.stamp.exch)), p, Arriving(v.pending, t.stamp.exch), Traded(v.prevVolume, t))
  }

  /** Stage two: queues deplete, and the emptied ones let their orders into the book. */
  function AfterQueues(v: L1V, t: Tick, traded: int): L1V {
    v.(queued := StillQueued(v.queued, v.prevAt, t, traded),
       inner := v.inner.(book := InsertedEach(v.inner.book, PromotedOrders(v.queued, v.prevAt, t, traded))))
  }

  function BeforeMatch(v: L1V, p: Policy, t: Tick): L1V {
    AfterQueues(AfterArrivals(v, p, t), t, Traded(v.prevVolume, t))
  }

  /** The fills the venue made in this observation, impact included. */
  function Made(v: L1V, p: Policy, m: Measure, t: Tick): seq<L0Fill> {
    AdjustedAll(p, m, TickFills(BeforeMatch(v, p, t).inner, t), t, Traded(v.prevVolume, t))
  }

  /** The fills an observation delivers. */
  function Released(v: L1V, p: Policy, m: Measure, t: Tick): seq<L0Fill> {
    if p.response.IsZero() then Made(v, p, m, t)
    else Ready(v.delayed + Postponed(p, Made(v, p, m, t), t.stamp.exch), t.stamp.exch)
  }

  function L1Ticked(v: L1V, p: Policy, m: Measure, t: Tick): L1V {
    var w := BeforeMatch(v, p, t);
    L1V(Ticked(w.inner, t), w.pending, w.queued,
        if p.response.IsZero() then v.delayed
        else HeldBack(v.delayed + Postponed(p, Made(v, p, m, t), t.stamp.exch), t.stamp.exch),
        Some(t.volume),
        if v.prevVolume.Some? then Some(Traded(v.prevVolume, t)) else v.lastTraded,
        Some(t.stamp.exch))
  }

  // ----- the end of a run

  function PutByKnown(d: Delayed, ds: seq<Delayed>): seq<Delayed> {
    if ds == [] || d.knownAt <= ds[0].knownAt then [d] + ds else [ds[0]] + PutByKnown(d, ds[1..])
  }

  /** The library's stable sort on the time a fill becomes known. */
  function ByKnown(ds: seq<Delayed>): seq<Delayed> {
    if ds == [] then [] else PutByKnown(ds[0], ByKnown(ds[1..]))
  }

  function FillsOf(ds: seq<Delayed>): (fs: seq<L0Fill>)
    ensures |fs| == |ds|
  {
    seq(|ds|, i requires 0 <= i < |ds| => ds[i].fill)
  }

  function Drained(v: L1V): seq<L0Fill> {
    FillsOf(ByKnown(v.delayed))
  }

  // ----- the orders L1 holds

  ghost function PendingOrders(s: seq<Pending>): set<Order> {
    set x | x in s :: x.order
  }

  ghost function QueuedOrders(s: seq<Queued>): set<Order> {
    set x | x in s :: x.order
  }

  ghost function Held(v: L1V): set<Order> {
    PendingOrders(v.pending) + QueuedOrders(v.queued) + Orders(v.inner.book)
  }

  ghost function HeldIds(v: L1V): set<nat> {
    set o | o in Held(v) :: o.id
  }

  ghost predicate DistinctPending(s: seq<Pending>) {
    forall i, j :: 0 <= i < j < |s| ==> s[i].order.id != s[j].order.id
  }

  ghost predicate DistinctQueued(s: seq<Queued>) {
    forall i, j :: 0 <= i < j < |s| ==> s[i].order.id != s[j].order.id
  }

  /** Every held order is in one place, under its own id. */
  ghost predicate WfL1(v: L1V) {
    && Wf(v.inner.book)
    && DistinctPending(v.pending)
    && DistinctQueued(v.queued)
    && (forall x, y :: x in v.pending && y in v.queued ==> x.order.id != y.order.id)
    && (forall x, o :: x in v.pending && o in Orders(v.inner.book) ==> x.order.id != o.id)
    && (forall y, o :: y in v.queued && o in Orders(v.inner.book) ==> y.order.id != o.id)
  }
}
