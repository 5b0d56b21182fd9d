# OpenQuanter core: a verified model

OpenQuanter is a deterministic trading core in integer fixed point. This project models the five
parts of it whose claims are exact, and proves those claims for every input, every run or every
delivery:

1. **The account** (`Cost`, `Ledger`, `Account`, `AccountFacts`, `CashRules`, `EventRules`, `Stages`,
   `CashFlow`, `FillWorth`, `FillSizes`, `Routing`, `Listing`, `WorkingList`, `Absorbing`, `StrandedOrder`,
   `LateFill`, `Kernel`). An account of several instruments on one balance, in one-way or hedge mode, over
   all events of the kernel: ticks, submissions, cancels, funding, charges, deposits, venue fills. The cost
   of a position is kept exactly beside a rounded displayed entry, and every cent is accounted for: positions
   and profit are those of the cash flows, the balance reconciles after every event, a liquidation forfeits
   exactly what is left, and is absorbing exactly when it leaves no order and no undelivered fill behind.
   Which way a fill moves the account, who pays funding, which rate a fee is charged at, what is required
   and what each event answers are stated on the numbers themselves.
2. **Matching** (`RestingBook`, `L0`, `L0Engine`, `L0Facts`, `Reach`, `L1`, `L1Engine`, `L1Facts`, `Tiers`,
   `Impact`, `Conservation`, `QueueHonesty`, `Waiting`). A price-time book edited in place, the L0 loops over
   it, and L1 around L0 with latency, queues and impact. L0 fills exactly what a tick's prices pass or meet,
   at prices no order refuses; L1 is never more generous than L0, and its queues and delays are honest.
3. **The venue's book** (`DepthSide`, `SweepFacts`, `VenueBook`, `Decimal`). Sorted levels edited in
   place, greedy sweeps, the snapshot-and-update protocol over a channel that may lose, repeat and
   reorder messages, and the exact decimal parser.
4. **Records** (`Bytes`, `Crc`, `CrcCheck`, `TickFile`, `TickReader`, `Codec`, `Layout`, `Sequencer`). The
   tick file and its checksum (the CRC-32 of section 8 of RFC 1952), the streaming reader, the event codec
   with the place of every field, and the journal that is written before the core is told.
5. **The backtest and its lookahead check** (`Run`, `Timeline`, `Callbacks`, `Host`, `Lookahead`). The
   backtest loop read as the events its kernel is given, what a strategy hears and in which order, and the
   checker that reruns prefixes of it.

## How it is built

Where the source updates in place there is a class with the source's fields or a method with the
source's loop, proved against a function on values; the theorems are about those functions. The
classes are `RestingBook.Book`, `L0Engine.Engine`, `L1Engine.Engine`, `DepthSide.Side`,
`VenueBook.Book`, `Kernel.Holding`, `Kernel.State`, `Kernel.Kernel`, `Crc.Accumulator`,
`TickReader.Reader`, `Sequencer.Sequencer` and `Host.Recorder`. The laws are stated in the fields of
inputs, states and outputs, not in the functions that compute them. Some predicates are *folded*: stated
as `forall k :: Token(k) ==> ...` with a token of `Folding`, so that the verifier looks inside only
where a lemma asks it to.

`Numbers` holds the arithmetic the source's integers follow (division toward zero, 64-bit and
128-bit saturation), `Market` and `Events` the shared vocabulary, `Matching` the choice of tier.

## What the code does that its own text does not say

* `spread` (crates/oq-backtest/src/lookahead.rs:154-169) is described as keeping both ends; with a
  bound of one and more candidates than that it keeps the first only. `Lookahead.SpreadPicks` states
  exactly when both ends are kept.
* A partial close rounds the profit of a negative cost away from the exact value by one unit in the
  cases `Cost.ProfitIsTruncated` names; nothing is lost, it is realized by a later close
  (`Ledger.SplitClosesRealizeTheSame`).
* `Side::take` (crates/oq-book/src/book.rs:157-177) counts emptied levels and drops that many from
  the front. `SweepFacts.TakeIsRightIff` states exactly when that is the right answer.
* A tick file that promises no records has its checksum judged when decoded whole and not when
  streamed (`TickReader.EmptyFileIsUnchecked`).
* A venue fill carries whatever size the venue sent, and hedge mode books it as it comes. A negative
  open gives a leg the cost of more lots than it holds or turns it over, a negative close books a profit
  that no cash flow brought in, and on a leg turned over later fills of any size part the books from
  what was reported. `FillSizes.IdentitySurvivesIff` states exactly which fills keep the cash flows and
  `FillSizes.RunIdentityIff` exactly which runs do; `FillSizes.NegativeOpenBreaksTheIdentity`,
  `FillSizes.NegativeCloseBreaksTheIdentity` and `FillSizes.OverturnedLegParts` are inputs.
* With several holdings a liquidation withdraws the orders of the holdings it closes
  (crates/oq-core/src/kernel.rs:915-918) and clears the working list of all of them (line 1371), so an
  order of a flat holding rests on, unlisted, and fills on an account with no balance
  (`StrandedOrder.FlatHoldingKeepsItsOrder`).
* A liquidation withdraws orders, not fills (crates/oq-engine/src/l1.rs:514-519), so a fill made before
  it and reported after it reopens a position on an account with no balance
  (`LateFill.LateFillReopens`). `WorkingList.LiquidationClearsIff`, `WorkingList.WorkingIsTheBookIff` and
  `Absorbing.LiquidationLeavesDormantIff` state exactly when anything is left.
* A depth update's level counts are cut to 32 bits when written (crates/oq-core/src/event.rs:284-285); a
  side with more levels than that decodes to nothing (`Codec.EventRoundTrip`).

## Model

| member | source | states |
|---|---|---|
| `Cost.Close` | crates/oq-core/src/cost.rs:40-62 | For every non-zero size held, computed with the source's saturating 128-bit steps and 64-bit narrowing: within a stated range in which no intermediate saturates, negative closings included, the cost left and the cash are the exact-integer ones |
| `Cost.AllocationTruncates` | crates/oq-core/src/cost.rs:44-50 | Quotient-then-remainder allocates the proportional share of the cost truncated toward zero, and notices a dropped fraction exactly when there is one |
| `Cost.ProfitIsTruncated` | crates/oq-core/src/cost.rs:40-62 | The profit is the exact rational profit truncated toward zero if and only if the cost is not negative, or the allocation was exact, or the exit equals it |
| `Cost.NegativeCostLosesAUnit` | crates/oq-core/src/cost.rs:51-61 | The input that shows the condition is needed: cost -7 over three lots, one closed for 5, books 6 where the exact profit truncates to 7 |
| `Cost.CostConserved` | crates/oq-core/src/cost.rs:40-62 | Cost held = cost left + exit cash - sign times profit, for every cost and every closing, negative ones included, of at most the lots held |
| `Cost.RemainingNearShare` | crates/oq-core/src/cost.rs:40-62 | For a non-negative cost one close leaves a non-negative cost within one unit of the proportional share |
| `Ledger.WorthIsMarkLessBasis` | crates/oq-margin/src/tier.rs:93-103 | Unrealized profit at any mark is position times mark in cash less the signed cost |
| `Ledger.EnlargedBasis` | crates/oq-core/src/kernel.rs:287-316 | Opening adds exactly price times signed lots to the signed cost, whatever the displayed entry rounds to |
| `Ledger.ShrunkBasis` | crates/oq-core/src/kernel.rs:318-346 | Closing takes off at most the lots held, and moves the signed cost by the exit cash plus the profit it realized |
| `Ledger.ExitsKeepBasis` | crates/oq-core/src/kernel.rs:318-346 | Over any list of closes, signed cost plus exit cash flows less profit realized never changes |
| `Ledger.SplitClosesRealizeTheSame` | crates/oq-core/src/kernel.rs:318-346 | Any split into closes that ends flat realizes the same total: sign times exit cash less entry cost |
| `Ledger.RemainingStaysProportional` | crates/oq-core/src/cost.rs:40-62 | After n closes the remaining cost is non-negative and within n cash units of the remaining lots' share |
| `AccountFacts.EventKeepsBooks` | crates/oq-core/src/kernel.rs:999-1188 | No event but a deposit moves balance less (realized + funding - fees - forfeited), and the outputs account for funding and forfeits |
| `AccountFacts.RunKeepsBooks` | crates/oq-core/src/kernel.rs:999-1188 | The same over every sequence of events, deposits summed |
| `AccountFacts.BalanceReconciles` | crates/oq-core/src/kernel.rs:222-230 | After every event of every sequence: balance = opening + deposits + realized + funding - fees - forfeited, and the funding and forfeit totals are those the outputs reported |
| `AccountFacts.LiquidationSettles` | crates/oq-core/src/kernel.rs:894-969 | A liquidation flattens every leg of every open holding, leaves balance zero, realizes the profit at the closing prices and forfeits exactly balance plus that profit; which holdings close is an if-and-only-if |
| `AccountFacts.LiquidationReports` | crates/oq-core/src/kernel.rs:894-969 | One output for each closed holding, in order, naming both legs, equity zero, the forfeit on the last one only, and the price: the one checked for the only holding, else the holding's own mark, or its long entry where it was never marked |
| `AccountFacts.LiquidationForfeitsEquity` | crates/oq-core/src/kernel.rs:894-934 | A liquidation forfeits the equity that was checked: the balance with the only holding's profit at the price checked, or, when every open holding is marked, with each holding's profit at its own mark |
| `AccountFacts.SettlingKeepsBooks` | crates/oq-core/src/kernel.rs:1325-1339 | The final drain of every matcher keeps the books |
| `CashRules.FeeIsShare` | crates/oq-core/src/kernel.rs:158-165 | A maker pays the maker rate and a taker the taker rate on price times lots times tick cash, the fraction dropped |
| `CashRules.FundingSettlesBothLegs` | crates/oq-core/src/kernel.rs:1101-1143 | A long pays and a short receives the rate's share of its value at the mark, for a negative rate the other way round; balance, funding total and output move by both legs together, and the check is made at that mark |
| `CashRules.RequiredIs` | crates/oq-margin/src/tier.rs:178-198 | The requirement is the share of the first bracket that reaches the notional, or of the last, less that bracket's amount, and never a credit |
| `CashRules.LiquidatableIff` | crates/oq-core/src/kernel.rs:1347-1369 | An account is due exactly when balance and profit do not exceed the requirement, summed leg by leg at each holding's mark, or of the one net position at the price checked |
| `CashRules.EntryIsAverage` | crates/oq-core/src/kernel.rs:287-316 | After an open the displayed entry is the exact cost of one lot-tick with the fraction dropped, within 64 bits |
| `CashRules.EntryAfterClose` | crates/oq-core/src/kernel.rs:318-346 | A close keeps the displayed entry while lots are left and clears it with the last |
| `EventRules.ChargeIsAdded` | crates/oq-core/src/kernel.rs:1144-1167 | A charge is added with its sign and reported, one that reaches no holding is refused, and nothing else moves but the clock |
| `EventRules.RecoveredFeeIsPaid` | crates/oq-core/src/kernel.rs:1169-1179 | A fee read late is paid from the balance, and fees count as missing exactly while some are |
| `EventRules.DepositIsAdded` | crates/oq-core/src/kernel.rs:1180-1183 | A deposit raises the balance by its amount and nothing else |
| `EventRules.ClockMoves` | crates/oq-core/src/kernel.rs:1168-1168 | A time event moves the clock alone |
| `EventRules.VenueFeeIsPaid` | crates/oq-core/src/kernel.rs:1216-1264 | A venue's fill is charged the fee it names, nothing when it could not be read, and the schedule's otherwise; the order leaves the list, the others keep their order, and the check is at the fill's price |
| `EventRules.SimulatedFeeIsPaid` | crates/oq-core/src/kernel.rs:1299-1314 | A simulated fill is charged the schedule's fee, reported, and its order leaves the list |
| `EventRules.TickMarks` | crates/oq-core/src/kernel.rs:1271-1296 | A tick marks the holding it reaches at its last price and no other, sets the clock, and is checked at that price |
| `EventRules.RouteIs` | crates/oq-core/src/kernel.rs:1380-1388 | A named observation reaches a holding of that instrument if there is one; an unnamed one the only holding or none |
| `EventRules.TurnedAway` | crates/oq-core/src/kernel.rs:999-1188 | What reaches no holding, or is reported to an account that matches for itself, is refused and moves nothing but a funding event's clock; funding of a flat holding says nothing |
| `EventRules.SubmissionAnswered` | crates/oq-core/src/kernel.rs:1035-1088 | A submission is refused for the first thing that keeps it out, changing nothing; if nothing does it is listed and nothing is said |
| `EventRules.AcceptedOrderIsListed` | crates/oq-core/src/kernel.rs:1065-1088 | An accepted order is held by its holding's matcher and no other, exactly as it was sent |
| `EventRules.AcceptedOrderIsTimed` | crates/oq-engine/src/l1.rs:442-462 | Where entry is delayed it is on its way from its own local time by the delay drawn for it, with no measurement |
| `EventRules.CancelAnswered` | crates/oq-core/src/kernel.rs:1089-1100 | A cancel takes the order from the first matcher that has it, reports it and strikes it from the list; if none has it nothing happens |
| `EventRules.CheckEndsIff` | crates/oq-core/src/kernel.rs:1347-1374 | An event's check closes the account if and only if liquidation is enforced, something is held and the account is due at the price checked; then everything is flat, the balance zero, nothing works, and the notices come last |
| `EventRules.NothingStaysUnreported` | crates/oq-core/src/kernel.rs:1325-1339 | The end of a run reports every fill still held back, once, holding by holding, and leaves none |
| `CashFlow.CashFlowIdentity` | crates/oq-core/src/kernel.rs:287-346 | For every event sequence, any number of holdings and any marks: positions are those a reader of the outputs tracks, and realized plus unrealized equals what the account opened with plus tick cash times (position at the mark less signed flows), with no rounding loss; liquidations count as closing fills and oversized hedged closes for the lots held. One-way mode asks nothing; hedge mode asks that venue fills among the events, and fills held back at the start, are not of a negative size |
| `CashFlow.FinalCashFlowIdentity` | crates/oq-core/src/kernel.rs:1325-1339 | The same identity once the run has ended and every fill held back has been booked |
| `CashFlow.RunSized` | crates/oq-core/src/kernel.rs:1299-1314 | Every fill a hedged run reports has a size that is not negative whenever the venue's own fills do: simulated ones are whole orders |
| `CashFlow.OneWayGap` | crates/oq-core/src/kernel.rs:798-833 | A one-way fill of any size or sign, growing, shrinking, emptying or crossing the position, moves realized profit exactly with what the books owe the flows |
| `CashFlow.FreshCashFlowIdentity` | crates/oq-core/src/kernel.rs:798-873 | The identity from a flat account, where nothing is carried in |
| `FillWorth.HedgedFillIsWorth` | crates/oq-core/src/kernel.rs:849-873 | A hedged fill of a size that is not negative, told by its side: a buy opens the long leg or shrinks the short, a sell the other way round, the other leg is untouched, and at every mark the account gains those lots times the move of the price since |
| `FillWorth.OneWayFillIsWorth` | crates/oq-core/src/kernel.rs:798-833 | A one-way fill of any size moves the net position by it, up for a buy and down for a sell, and is worth the same at every mark |
| `FillSizes.HedgedFillSlips` | crates/oq-core/src/kernel.rs:849-873 | A hedged fill of any size on a leg of any sign, whatever a reader of the outputs holds: how far leg and reader part, and what is booked beyond the reported cash flow, are exact amounts |
| `FillSizes.HedgedFillKeepsIff` | crates/oq-core/src/kernel.rs:849-873 | On a leg the right way round: leg and reader stay together, and nothing is booked beyond the cash flow if and only if the size is not negative, or a negative one moves no cash: a close of a flat leg or at no price, an open smaller than the leg at no price, of the whole leg at its cost, or larger on a leg that cost nothing |
| `FillSizes.FillKeepsTieIff` | crates/oq-core/src/kernel.rs:849-873 | On a whole hedged account, positions, flows and realized profit stay tied across a fill under exactly that condition |
| `FillSizes.IdentitySurvivesIff` | crates/oq-core/src/kernel.rs:1216-1264 | For every hedged account that may be opened and every venue fill of a holding, the cash-flow identity survives the event, its liquidation check included, if and only if that condition holds |
| `FillSizes.RunIdentityIff` | crates/oq-core/src/kernel.rs:798-873 | For every account that may be opened, every sequence of events and any marks, fills of any size and legs of either sign among them: the cash-flow identity holds at the end if and only if what its hedged fills added, slip and drift, comes to nothing |
| `FillSizes.SizedRunsAddNothing` | crates/oq-core/src/kernel.rs:1299-1314 | Over any run whose venue fills, and fills held back at its start, are not of a negative size, nothing is added: no slip and no drift |
| `FillSizes.FinalIdentityIff` | crates/oq-core/src/kernel.rs:1325-1339 | The same if-and-only-if once every fill held back has been booked |
| `CashFlow.LiquidateKeepsTie` | crates/oq-core/src/kernel.rs:894-969 | A liquidation keeps the tie when read as closing fills at the reported prices |
| `CashFlow.SettlingKeepsTie` | crates/oq-core/src/kernel.rs:1325-1339 | The final drain keeps the tie, asking of hedge mode only what the identity asks |
| `FillSizes.NegativeOpenBreaksTheIdentity` | crates/oq-core/src/kernel.rs:287-316 | The run of one venue fill that opens -5 lots on a hedged long of ten bought at 100: the identity is false after it, by -1000 |
| `FillSizes.NegativeCloseBreaksTheIdentity` | crates/oq-core/src/kernel.rs:318-346 | The run of one venue fill that closes -5 lots of that long: the identity is false after it, by 1000 |
| `FillSizes.OverturnedLegParts` | crates/oq-core/src/kernel.rs:287-316 | The run that opens -15 lots on that long and then 5: the books hold ten lots where the fills reported leave none, and the identity is false |
| `WorkingList.EventOrderlyIff` | crates/oq-core/src/kernel.rs:999-1188 | For any number of holdings under simulated matching at either tier, whose working list is exactly the ids of orders held and fills undelivered, each once: an event keeps it so if and only if it does not liquidate beside a flat holding with an order or before a fill is reported |
| `WorkingList.WorkingIsTheBookIff` | crates/oq-core/src/kernel.rs:1035-1100 | Over a run: after every event the working list is exactly the ids of orders held and fills undelivered, each once and in one place, if and only if no event of the run liquidates beside a flat holding with an order or before a fill is reported |
| `WorkingList.WorkingIsTheBook` | crates/oq-core/src/kernel.rs:1035-1100 | So with one holding and no response latency it always is, at either tier |
| `Listing.TickedListed` | crates/oq-engine/src/l1.rs:656-774 | An observation takes off a matcher's ids exactly those whose fills it delivers, at either tier |
| `Listing.WithdrawnListed` | crates/oq-core/src/matcher.rs:110-116 | A cancel takes out exactly the id it finds and changes nothing when it finds none; an undelivered fill's order is not found |
| `WorkingList.LiquidationClearsIff` | crates/oq-core/src/kernel.rs:911-934 | At any tier, no order is left in any holding after a liquidation if and only if there was one holding or no flat holding had an order |
| `StrandedOrder.FlatHoldingKeepsItsOrder` | crates/oq-core/src/kernel.rs:915-918 | The account of two holdings that shows it: a price falls, the account is liquidated, its working list is empty, and the bid resting in the flat second holding fills at zero balance |
| `LateFill.LateFillReopens` | crates/oq-engine/src/l1.rs:514-519 | The account of one holding at L1 that shows the other half: no order is left, the account is liquidated to zero with an empty working list, and the fill still on its way then reopens a position at zero balance |
| `Absorbing.LiquidationLeavesDormantIff` | crates/oq-core/src/kernel.rs:1347-1374 | For any number of holdings at any tier under simulated matching: an event that reports a liquidation leaves the account flat at zero with no order and no undelivered fill if and only if its check found one holding or no flat holding with an order, and no fill waiting to be reported |
| `Absorbing.LiquidationIsAbsorbing` | crates/oq-core/src/kernel.rs:999-1188 | Under exactly that condition every continuation without deposits, charged funding or recovered fees stays flat at zero balance with no order and says nothing but refusals |
| `Absorbing.OneHoldingAbsorbs` | crates/oq-core/src/kernel.rs:999-1188 | With one holding and no response latency, at either tier, the condition always holds |
| `Absorbing.LeftOrderFills` | crates/oq-core/src/kernel.rs:1271-1296 | An order left in a flat holding at L0 fills at the next observation that reaches it, whatever the balance |
| `Routing.RunStaysRouted` | crates/oq-core/src/kernel.rs:539-543 | Over every run each matcher releases fills of its own instrument only, so a simulated fill always reaches a holding, and which venue fills may be presented never changes |
| `Kernel.Holding.OpenLeg` | crates/oq-core/src/kernel.rs:287-316 | The named leg grows by the exact cost and its displayed entry is the rounded average; the other leg is untouched |
| `Kernel.Holding.CloseLeg` | crates/oq-core/src/kernel.rs:318-346 | The named leg shrinks by at most what it holds and the profit of those lots is returned; the other leg is untouched |
| `Kernel.Holding.Unrealized` | crates/oq-core/src/kernel.rs:278-285 | Both legs at the mark, from their exact costs |
| `Kernel.Holding.MaintenanceNow` | crates/oq-core/src/kernel.rs:246-258 | The tiered requirement of both legs at the holding's last mark |
| `Kernel.State.constructor` | crates/oq-core/src/kernel.rs:386-420 | A fresh account: nothing realized, nothing owed, clock at zero |
| `Kernel.State.HoldingIndex` | crates/oq-core/src/kernel.rs:539-543 | The first holding of an instrument, or none |
| `Kernel.State.ApplyFill` | crates/oq-core/src/kernel.rs:798-833 | The account after a fill: routed to its holding, through the mode's rule |
| `Kernel.State.ApplyFillNet` | crates/oq-core/src/kernel.rs:805-832 | One-way: closes first, then opens the rest at a fresh cost when the fill crosses flat |
| `Kernel.State.ApplyFillHedged` | crates/oq-core/src/kernel.rs:849-873 | Hedged: side and offset name the leg that opens or closes |
| `Kernel.State.AllFlat` | crates/oq-core/src/kernel.rs:784-788 | No holding has a position |
| `Kernel.State.UnrealizedNow` | crates/oq-core/src/kernel.rs:739-744 | The sum over holdings, each at its own mark |
| `Kernel.State.MaintenanceNow` | crates/oq-core/src/kernel.rs:765-770 | The sum over holdings of their requirements |
| `Kernel.State.IsLiquidatable` | crates/oq-core/src/kernel.rs:1347-1369 | Summed equity against summed requirements when there are legs or instruments to sum, else the one position at the price that ticked |
| `Kernel.State.LiquidateHolding` | crates/oq-core/src/kernel.rs:936-969 | Orders withdrawn, both legs realized at the price and cleared, both reported |
| `Kernel.State.CloseAll` | crates/oq-core/src/kernel.rs:911-934 | The only holding at the price checked, or each open one at its own last price |
| `Kernel.State.Liquidate` | crates/oq-core/src/kernel.rs:894-909 | Everything closed, the balance forfeited, equity zero on each output and the forfeit on the last |
| `Kernel.Kernel.CheckLiquidation` | crates/oq-core/src/kernel.rs:1347-1374 | Nothing when flat or not enforced; else the account closes exactly when it is liquidatable, and the working list is cleared |
| `Kernel.Kernel.RouteTo` | crates/oq-core/src/kernel.rs:1380-1388 | A named instrument's holding; an unnamed observation reaches the only holding or none |
| `Kernel.Kernel.BookFills` | crates/oq-core/src/kernel.rs:1299-1314 | Fee, position, working list and output of each fill, in order |
| `Kernel.Kernel.OnTick` | crates/oq-core/src/kernel.rs:1271-1296 | Clock, mark, matching, booking and the liquidation check; under venue matching no order trades |
| `Kernel.Kernel.OnSubmit` | crates/oq-core/src/kernel.rs:1035-1088 | The four refusals in the source's order, or the order rests and joins the working list |
| `Kernel.Kernel.OnCancel` | crates/oq-core/src/kernel.rs:1089-1100 | Holdings are asked in turn up to the first that had the order; reported only when one had it |
| `Kernel.Kernel.OnFunding` | crates/oq-core/src/kernel.rs:1101-1143 | Both legs settle at the rate and mark, a flat holding pays nothing, an unroutable one is refused; then the liquidation check |
| `Kernel.Kernel.OnFundingCharged` | crates/oq-core/src/kernel.rs:1144-1167 | The charged amount moves balance and funding as given |
| `Kernel.Kernel.OnFeeRecovered` | crates/oq-core/src/kernel.rs:1169-1179 | The fee is charged and the missing flag cleared only when none is still missing |
| `Kernel.Kernel.OnVenueFill` | crates/oq-core/src/kernel.rs:1216-1264 | Refused when matching is simulated; else the order leaves, the reported or scheduled fee is charged, the fill is booked and liquidation checked |
| `Kernel.Kernel.Apply` | crates/oq-core/src/kernel.rs:999-1188 | One event leaves exactly the state and outputs of the account specification; the balance less all that explains it moves by a deposit and by nothing else, and funding and forfeits move by what the outputs report |
| `Kernel.Kernel.SettleUnreported` | crates/oq-core/src/kernel.rs:1325-1339 | Every matcher's held-back fills are booked, holding by holding |
| `RestingBook.Book.PartitionPoint` | crates/oq-engine/src/book.rs:95-118 | Binary search on a sorted side finds the first order a newcomer at the price goes ahead of |
| `RestingBook.Book.Insert` | crates/oq-engine/src/book.rs:95-118 | The newcomer stands behind everything at its price or better, with the next arrival number; nothing else moves |
| `RestingBook.Book.Remove` | crates/oq-engine/src/book.rs:121-133 | The first order with the id, searched bids, asks, market buys, market sells, leaves; reports whether there was one |
| `RestingBook.Book.Replace` | crates/oq-engine/src/book.rs:172-194 | An order is replaced where it stands, or dropped when nothing of it is left |
| `RestingBook.InsertedWf` | crates/oq-engine/src/book.rs:40-58 | A fresh order keeps every side in strict price-time order with unique ids, and the book then holds the old orders and this one |
| `RestingBook.RemovedWf` | crates/oq-engine/src/book.rs:121-133 | A removal keeps that order and takes out exactly the named order |
| `L0Engine.Engine.Submit` | crates/oq-engine/src/l0.rs:125-127 | The book gains exactly that order, behind those at an equal price |
| `L0Engine.Engine.Cancel` | crates/oq-engine/src/l0.rs:134-136 | Exactly that order leaves, and the answer says whether it was there |
| `L0Engine.Engine.CancelAll` | crates/oq-engine/src/l0.rs:139-146 | The book is empty, the arrival counter is kept, and the count is how many rested |
| `L0Engine.Engine.ExecuteAt` | crates/oq-engine/src/l0.rs:343-385 | The order leaves the book and one whole fill with the next trade id is recorded |
| `L0Engine.Engine.GapFill` | crates/oq-engine/src/l0.rs:178-251 | The swept orders leave the book and fill whole at their own prices, by arrival number, with the earlier tick's stamp |
| `L0Engine.Engine.Cross` | crates/oq-engine/src/l0.rs:254-320 | Market buys, market sells, reached bids, reached asks fill in that order; the book and the fills are those of the declared tick |
| `L0Engine.Engine.OnTick` | crates/oq-engine/src/l0.rs:155-167 | The loops leave exactly the declared tick: its fills, its surviving book, its trade counter and the new previous price |
| `L0Engine.ReachedPrefix` | crates/oq-engine/src/l0.rs:254-320 | On a sorted side the reached orders are a prefix, so stopping at the first unreached one misses nothing |
| `L0Facts.EveryFillIsAHit` | crates/oq-engine/src/l0.rs:155-320 | Every fill of a tick is the whole of an order the tick hits, with consecutive trade ids |
| `L0Facts.EveryHitIsFilled` | crates/oq-engine/src/l0.rs:155-320 | Every market order, every order swept from the previous price and every order the triggers reach is filled, whole |
| `L0Facts.FilledOnce` | crates/oq-engine/src/l0.rs:155-320 | No order is filled twice by a tick |
| `L0Facts.NoLimitViolated` | crates/oq-engine/src/l0.rs:178-320 | No fill is at a price worse than its order's limit; a swept order gets its own price as maker, with the earlier stamp; a market order pays the reference as taker; a reached order trades at its limit or at the reference, at no worse than the reference where that is known and at its limit where it is not; and the fill reports just that |
| `L0Facts.TickOrder` | crates/oq-engine/src/l0.rs:155-320 | Fills run: swept by arrival, market buys, market sells, bids then asks by better price and, at one price, earlier arrival |
| `L0Facts.SurvivorsAreTheUnhit` | crates/oq-engine/src/l0.rs:155-320 | What is left is exactly the orders not hit, still in price-time order |
| `Reach.FilledIff` | crates/oq-engine/src/l0.rs:178-320 | A tick fills a resting order if and only if it is a market order, the price passed through its limit on the way from the last trade, or the known quote, extreme or last price meets it |
| `Reach.StartsAtLastTrade` | crates/oq-engine/src/l0.rs:155-167 | Over any run the path of a tick starts at the last price of the one before |
| `Reach.TradesRunOn` | crates/oq-engine/src/l0.rs:343-385 | Over any run the fills are numbered from one without a gap |
| `L1Engine.Engine.Submit` | crates/oq-engine/src/l1.rs:409-411 | The order is in flight, queued or resting, as the policy's latency and queue say |
| `L1Engine.Engine.SubmitWithQueue` | crates/oq-engine/src/l1.rs:420-422 | The same with the lots ahead measured |
| `L1Engine.Engine.SubmitQueue` | crates/oq-engine/src/l1.rs:442-471 | Entry latency decides between flight and admission |
| `L1Engine.Engine.Admit` | crates/oq-engine/src/l1.rs:810-837 | With lots ahead the order joins the queue, else the book; a market order always joins the book |
| `L1Engine.Engine.Cancel` | crates/oq-engine/src/l1.rs:497-505 | The order leaves wherever it is, and the book is asked only when it was in neither list |
| `L1Engine.Engine.CancelAll` | crates/oq-engine/src/l1.rs:514-519 | Flight, queues and book are emptied and counted; fills held back are not touched |
| `L1Engine.Engine.OnTickWithImpact` | crates/oq-engine/src/l1.rs:656-774 | Arrivals, queues, matching, impact, response, in place, leave exactly the specified tier and release exactly the specified fills |
| `L1Engine.Engine.DrainUnreported` | crates/oq-engine/src/l1.rs:803-807 | Everything held back is handed over in the order it would have become known |
| `L1.Traded` | crates/oq-engine/src/l1.rs:855-865 | Volume traded in an observation is never negative: a cumulative figure that fell traded nothing |
| `Impact.TakersPayNoLess` | crates/oq-engine/src/l1.rs:722-736 | Fill by fill against L0: a maker's price stays, a taker's is never better, a measurement is taken only where it is the worse of the two, and without coefficient, volume or range nothing is added |
| `Impact.TakersPayThePenalty` | crates/oq-engine/src/l1.rs:868-899 | Unmeasured, with a coefficient, a volume and a range, a taker pays exactly the penalty for its size, that volume and that range |
| `L1Facts.SubmittedHeld` | crates/oq-engine/src/l1.rs:409-471 | A fresh submission keeps the tier well formed, and it then holds the old orders and this one |
| `L1Facts.CancelledHeld` | crates/oq-engine/src/l1.rs:497-505 | A cancel finds the order wherever it is and takes out nothing else |
| `L1Facts.TickedHeld` | crates/oq-engine/src/l1.rs:656-774 | A tick keeps every held order except those in the book that the tick hit |
| `Tiers.RunsCoupled` | crates/oq-engine/src/l1.rs:409-837 | After any interleaving with fresh ids, under any policy, the L0 run and the L1 run stay coupled: same previous price, every order L0 still rests L1 still holds, anything L1 holds beyond that L0 has already filled |
| `Tiers.L1NeverFillsFirst` | crates/oq-engine/src/l1.rs:656-837 | At every point of every run L1 has filled only orders L0 has already filled |
| `Conservation.TransparentIsL0` | crates/oq-engine/src/l1.rs:284-286 | Under the transparent policy the inner state and the fills are L0's after every step of every run |
| `Conservation.EveryOrderInOnePlace` | crates/oq-engine/src/l1.rs:497-519 | Every submitted order is in exactly one of flight, queue, book, filled, withdrawn |
| `Conservation.FillsConserved` | crates/oq-engine/src/l1.rs:656-807 | What the venue made is what was released plus what the final drain hands over, fill for fill, the drain in order of knowing |
| `Conservation.NeverReleasedEarly` | crates/oq-engine/src/l1.rs:738-767 | Every fill released, or still held back, was made at least its drawn response delay before the time it is known |
| `Conservation.NothingKnowableHeldBack` | crates/oq-engine/src/l1.rs:748-763 | After an observation nothing already knowable is still held back |
| `QueueHonesty.QueueTick` | crates/oq-engine/src/l1.rs:684-720 | In one observation a queued order reaches the book exactly when the observation counts for its measuring instant and the price gapped through it or the lots traded at its price used up what was ahead |
| `QueueHonesty.QueueIsHonest` | crates/oq-engine/src/l1.rs:664-720 | Over any run and for any measuring instant: behind A lots and not withdrawn, the order is still queued exactly while no tick that counts gapped through its price and the volume in counting ticks that touch it is short of A; what is left ahead is the difference, and once out it never returns. Without an instant every tick counts |
| `QueueHonesty.ArrivalTickCounts` | crates/oq-engine/src/l1.rs:664-720 | The observation an order arrives in already works for its queue, when it counts for the instant the queue was measured at |
| `QueueHonesty.VolumeNeverRefunds` | crates/oq-engine/src/l1.rs:855-865 | The volume counted for a queue never falls, whatever the cumulative figure does |
| `QueueHonesty.CountsFromThenOn` | crates/oq-engine/src/l1.rs:694-700 | While time does not run backwards every observation counts from the first that does: the first whose predecessor is not before the measuring instant |
| `QueueHonesty.QueuesArePriced` | crates/oq-engine/src/l1.rs:409-471 | However it was submitted an order queues with a price and a positive amount ahead, so the queue laws apply to every queued order of every run |
| `Waiting.DrawnDelay` | crates/oq-engine/src/l1.rs:136-160 | A measured delay is the first of the four whose share of a thousand the draw is under |
| `Waiting.SubmittedWaits` | crates/oq-engine/src/l1.rs:442-471 | A submission is on its way for its drawn delay, or enters at once behind none, what was measured, or what is assumed of the last interval's volume |
| `Waiting.EntryIsHonoured` | crates/oq-engine/src/l1.rs:656-682 | Over any run a delayed order is in no queue, not in the book and not filled until the first observation at or after its time, and is no longer on its way from then on |
| `Waiting.ArrivalEnters` | crates/oq-engine/src/l1.rs:664-682 | At that observation it enters, before anything is matched: behind what this interval's volume implies, or in the book |
| `Waiting.LastTradedIs` | crates/oq-engine/src/l1.rs:768-773 | The volume an immediate order is judged by is the rise between the last two observations of the run |
| `Waiting.ReleasedInOrder` | crates/oq-engine/src/l1.rs:738-767 | An observation delivers, in the order made, every fill known by then and no other, each new one known after the delay drawn for its order; without response delay it delivers what it made |
| `DepthSide.Side.Position` | crates/oq-book/src/book.rs:61-69 | Binary search finds the price, or where it would go |
| `DepthSide.Side.Apply` | crates/oq-book/src/book.rs:72-85 | The side stays strictly best first and its price-to-quantity map changes at that price only: zero removes, anything else replaces |
| `DepthSide.Side.Sweep` | crates/oq-book/src/book.rs:116-142 | The loop computes the greedy walk: lots taken, their cost and whether the side was exhausted |
| `DepthSide.Side.Take` | crates/oq-book/src/book.rs:157-177 | The same figures, and the levels left are the walked ones less as many from the front as the walk emptied |
| `DepthSide.LevelsAreCanonical` | crates/oq-book/src/book.rs:36-85 | Two sorted sides with the same price-to-quantity map are the same list |
| `SweepFacts.SweepIsOptimal` | crates/oq-book/src/book.rs:116-142 | A sweep takes min(wanted, standing) and no allocation of that size is cheaper on asks or dearer on bids |
| `SweepFacts.GreedyIsAnAllocation` | crates/oq-book/src/book.rs:116-142 | The bound is attained: the sweep's own lots are such an allocation with its cost |
| `SweepFacts.TakeIsRightIff` | crates/oq-book/src/book.rs:157-177 | With no zero level standing, take leaves each level less what was taken and the emptied ones gone if and only if no negative level stands in front of one the order empties |
| `SweepFacts.NegativeLevelIsDropped` | crates/oq-book/src/book.rs:161-175 | The input that shows it: a negative level in front loses its place to an emptied one |
| `SweepFacts.TakeIsPathIndependent` | crates/oq-book/src/book.rs:157-177 | On positive levels taking a then b costs, takes and leaves exactly what taking a + b does |
| `VenueBook.Book.InstallSnapshot` | crates/oq-book/src/book.rs:289-301 | Nothing of the old book survives: levels, last id and applied count start over |
| `VenueBook.Book.Apply` | crates/oq-book/src/book.rs:310-361 | Accepts, skips or refuses by the sequencing rules; a refused or skipped update leaves the book as it was |
| `VenueBook.SnapshotShowsItsLevels` | crates/oq-book/src/book.rs:289-301 | A snapshot's bids stand on the bid side and its asks on the ask side, each price as it was last named, zero meaning none |
| `VenueBook.UpdateShowsItsLevels` | crates/oq-book/src/book.rs:310-361 | An accepted update changes exactly the prices it names, on the side it names them |
| `VenueBook.UnappliedFor` | crates/oq-book/src/book.rs:310-361 | Each refusal by what was wrong: no snapshot, ending within it, starting past it without reaching back, or not following the last |
| `VenueBook.OnlyStraddlerJoins` | crates/oq-book/src/book.rs:310-335 | Before joining only the update that straddles the snapshot can change the book |
| `VenueBook.OnlySuccessorFollows` | crates/oq-book/src/book.rs:336-361 | Once joined only the next update in the stream is accepted |
| `VenueBook.LossyChannelIsSafe` | crates/oq-book/src/book.rs:289-361 | For any well-formed stream and any list of deliveries, dropped, repeated or reordered, the book is the snapshot until it joins and from then on the true book right after the update it last applied |
| `VenueBook.InOrderDeliveryFollows` | crates/oq-book/src/book.rs:289-361 | Delivered in order from the straddling update, every update is accepted and the book follows the venue's to the end |
| `Decimal.ParseFixed` | crates/oq-book/src/depth.rs:69-116 | The answer owed for every text and scale: the exact integer if the text is a plain decimal whose value at the scale is an integer within the 64-bit maximum, a precision error if it is not an integer, a number error otherwise |
| `Decimal.OneAnswer` | crates/oq-book/src/depth.rs:69-116 | There is one such answer, so parsing succeeds with v if and only if the exact value is v and fits |
| `Decimal.ExactIsUnique` | crates/oq-book/src/depth.rs:69-116 | A text has at most one exact value at a scale |
| `Decimal.ReadIsExact` | crates/oq-book/src/depth.rs:84-108 | The number read to the scale is the exact value if and only if every further decimal is zero: excess digits are never rounded |
| `Decimal.TrailingZerosNeverMatter` | crates/oq-book/src/depth.rs:84-92 | Zeros written after the last decimal change no answer, error or not |
| `Decimal.WrittenIsRead` | crates/oq-book/src/depth.rs:69-116 | Any number written in digits, with a minus when negative and a point, is read as exactly that number of units |
| `Crc.BuildTable` | crates/oq-data/src/ticks.rs:269-287 | Each entry is eight steps of the bitwise division of its index |
| `Crc.LookupAbsorbs` | crates/oq-data/src/ticks.rs:296-303 | One table lookup is eight bits of the reflected division by 0xEDB88320 (section 8 of RFC 1952) |
| `Crc.Accumulator.Update` | crates/oq-data/src/ticks.rs:296-303 | Feeding bytes extends what the accumulator holds by exactly those bytes |
| `Crc.Accumulator.Finish` | crates/oq-data/src/ticks.rs:305-307 | The number is the CRC-32 of everything fed |
| `Crc.SumIs` | crates/oq-hash/src/crc32.rs:11-41 | That CRC-32 is the bitwise one: start at ones, divide, invert |
| `Crc.BlockByBlock` | crates/oq-data/src/ticks.rs:205-251 | However a region is split into blocks the accumulator finishes with the CRC of the whole |
| `Crc.BurstChangesCrc` | crates/oq-data/src/ticks.rs:262-309 | Any change confined to four consecutive bytes of data of any length changes the CRC |
| `CrcCheck.GeneratorTerms` | crates/oq-data/src/ticks.rs:262-287 | The generator by its exponents: 32, 26, 23, 22, 16, 12, 11, 10, 8, 7, 5, 4, 2, 1 and 0 |
| `CrcCheck.CheckValue` | crates/oq-data/src/ticks.rs:289-309 | The nine digits 1 to 9 have the published check value CBF43926 |
| `TickFile.Encode` | crates/oq-data/src/ticks.rs:64-88 | The bytes written field by field are the header followed by the records |
| `TickFile.ReadHeader` | crates/oq-data/src/ticks.rs:94-114 | Length, magic and version are judged in that order, and the fields read where they were written |
| `TickFile.Decode` | crates/oq-data/src/ticks.rs:138-171 | Header, length, checksum, then every record, with the source's error for each failure |
| `TickFile.ReadFile` | crates/oq-data/src/ticks.rs:184-253 | Reading block by block gives the answer of decoding whole, but a file too short for its header reports no length |
| `TickFile.EncodeThenDecode` | crates/oq-data/src/ticks.rs:64-171 | Encoding then decoding is the identity on every list of ticks |
| `TickFile.DecodeThenEncode` | crates/oq-data/src/ticks.rs:138-171 | What decodes is what the record region says, byte for byte |
| `TickFile.BurstIsRefused` | crates/oq-data/src/ticks.rs:216-251 | Any change confined to four consecutive record bytes of a good file of any length makes reading it fail |
| `Layout.FileIsLaidOut` | crates/oq-data/src/ticks.rs:64-88 | Byte by byte: the letters OQTK, version 2, count, instrument and checksum at 8, 16 and 24, tick i from 32 + 64 i with its eight fields in order, and nothing more |
| `TickReader.NewStream` | crates/oq-data/src/ticks.rs:328-339 | The ticks if they are in order, else the first pair that goes back in time |
| `TickReader.StreamMeaning` | crates/oq-data/src/ticks.rs:328-339 | That answer succeeds exactly on ordered ticks, and an error names the first tick out of order |
| `TickReader.Reader.Fill` | crates/oq-data/src/ticks.rs:757-804 | One block is read, checksummed, decoded and reversed, and the checksum is judged with the last block |
| `TickReader.Reader.Next` | crates/oq-data/src/ticks.rs:809-837 | The next tick, the first fault, or the end; after a fault only the end |
| `TickReader.Collect` | crates/oq-data/src/ticks.rs:711-837 | What collecting a fresh reader yields |
| `TickReader.ReaderIsDecode` | crates/oq-data/src/ticks.rs:757-837 | For every file that promises a record, collecting succeeds if and only if decoding whole succeeds and its ticks are in order, with the same ticks |
| `TickReader.SameFirstFault` | crates/oq-data/src/ticks.rs:809-837 | When the checksum verifies both report the same first tick out of order |
| `TickReader.EmptyFileIsUnchecked` | crates/oq-data/src/ticks.rs:757-762 | With no records promised the reader always succeeds, while decoding succeeds exactly for a checksum of zero |
| `TickReader.ReportedFaultIsTrue` | crates/oq-data/src/ticks.rs:757-837 | Whatever fault is reported holds of the file: the bytes promised and where the short block starts, the two checksums, or the two neighbours out of order |
| `Codec.Encode` | crates/oq-core/src/event.rs:267-434 | The bytes appended step by step are the event's payload |
| `Codec.Decode` | crates/oq-core/src/event.rs:443-730 | Kind by kind, the early returns, tag tests and the loop over levels give the specified event or nothing |
| `Codec.EventRoundTrip` | crates/oq-core/src/event.rs:266-730 | For every event whose fields fit their widths: decoding its encoding under its own kind gives it back, unless a side of a depth update has 2^32 levels or more, whose count is cut, and then gives nothing |
| `Codec.LegacySubmitIsPrefix` | crates/oq-core/src/event.rs:475-526 | A submission's first 42 bytes decode under the legacy kind to the same order as an open on the only instrument |
| `Codec.PrefixesThatDecode` | crates/oq-core/src/event.rs:443-730 | For events whose counts fit, a proper prefix decodes under its own kind if and only if it is a named funding charge cut to 16 bytes or a venue fill with a fee cut to 55 |
| `Codec.ExtensionsThatDecode` | crates/oq-core/src/event.rs:559-572 | For events whose counts fit, a proper extension decodes if and only if it adds four bytes to an unnamed funding charge |
| `Codec.DepthLength` | crates/oq-core/src/event.rs:598-662 | A depth payload's length is fixed by its first 41 bytes, so nothing that shares them decodes at another length |
| `Layout.DecodedIsLaidOut` | crates/oq-core/src/event.rs:443-730 | Whatever decodes, of any kind, has every field at its byte position, signed in two's complement, with its tag values |
| `Layout.EncodedIsLaidOut` | crates/oq-core/src/event.rs:212-434 | So has every event that can be written, under its own number |
| `Layout.LittleEndian` | crates/oq-core/src/event.rs:267-434 | The number a list of bytes spells has its first byte least significant |
| `Layout.MissingPriceIsZero` | crates/oq-core/src/event.rs:316-334 | A market order is written with a zero price |
| `Sequencer.Sequencer.Submit` | crates/oq-core/src/sequencer.rs:83-92 | Journal first: a refused append changes nothing, an accepted one is recorded and applied, and the kernel is always where replaying the journal leaves it |
| `Sequencer.JournalReproduces` | crates/oq-core/src/sequencer.rs:132-183 | For any events that survive encoding and any pattern of append failures, replaying the journal gives the live run's state and outputs, and every record decodes |
| `Sequencer.FailedAppendsLeaveNoTrace` | crates/oq-core/src/sequencer.rs:83-92 | The live run is the run of the recorded events alone |
| `Sequencer.ReplayTolerating` | crates/oq-core/src/sequencer.rs:156-183 | The loop folds the decoded journal and counts the records it could not decode |
| `Sequencer.CompleteIffAllDecode` | crates/oq-core/src/sequencer.rs:197-203 | A replay is complete if and only if every record decodes |
| `Sequencer.Replay` | crates/oq-core/src/sequencer.rs:132-145 | Answers if and only if every record decodes, then with the whole run's outputs |
| `Host.NoteEndings` | crates/oq-backtest/src/run.rs:756-767 | An order reported on and no longer working is noted once, with how it ended |
| `Host.PayDue` | crates/oq-backtest/src/run.rs:440-490 | Every rate due since the last tick settles through the kernel before the tick, and the venue's closes are collected |
| `Host.Recorder.OnTick` | crates/oq-backtest/src/lookahead.rs:62-70 | The intents a tick callback appended are recorded under that tick, and the next tick has the next number |
| `Host.Recorder.HearAll` | crates/oq-backtest/src/run.rs:569-582 | Fills, then closes, then endings, then the tick, each with its intents |
| `Host.Dispatch` | crates/oq-backtest/src/run.rs:584-667 | An order for another instrument is refused and counted, the rest go to the kernel, the answer is reported before the ending is noted |
| `Host.Step` | crates/oq-backtest/src/run.rs:399-667 | One tick of the loop is the specified one |
| `Host.RunTicks` | crates/oq-backtest/src/run.rs:306-308 | The loop leaves exactly the specified run |
| `Timeline.DueAreBetween` | crates/oq-margin/src/funding.rs:135-139 | The rates due are the stretch of the schedule after one time and at or before another |
| `Timeline.RunIsTurns` | crates/oq-backtest/src/run.rs:399-667 | A backtest is a run of its kernel over these events and no others: at each tick the funding due since the latest one before, the tick, and the strategy's own intents, one after another |
| `Timeline.EveryRateOnce` | crates/oq-backtest/src/run.rs:440-490 | Over a run every rate that settles by the latest tick is paid once, in the order of the schedule, even when ticks go back in time |
| `Callbacks.OpensFlat` | crates/oq-backtest/src/run.rs:348-368 | A run opens on one flat holding with the configured cash, tier, fees and mode, and nothing counted |
| `Callbacks.HearingIsTold` | crates/oq-backtest/src/run.rs:568-582 | For any strategy: fills, then closes, then endings, then the tick, and it asks for what it answers to each in turn |
| `Callbacks.TickIsTold` | crates/oq-backtest/src/run.rs:440-582 | A tick tells the fills of its outputs, the closes of the funding due and of its outputs, the orders that ended, and the account after both; then what was asked for is sent |
| `Callbacks.EveryFillIsHeard` | crates/oq-backtest/src/run.rs:493-501 | The fills heard are those of the outputs, all and in order |
| `Callbacks.EveryCloseIsHeard` | crates/oq-backtest/src/run.rs:719-743 | A close is heard if and only if a liquidation closed that leg: its instrument, side held, size without sign, price and time |
| `Callbacks.EndingIff` | crates/oq-backtest/src/run.rs:756-767 | An order is heard to be over, and how, if and only if it is no longer working and the first output that ends it says so, or it was noted before |
| `Callbacks.HeardOnce` | crates/oq-backtest/src/run.rs:756-767 | No order is heard to be over twice |
| `Callbacks.ContextIs` | crates/oq-backtest/src/run.rs:554-563 | The account shown: both legs, and the balance with each holding's profit at its mark |
| `Callbacks.OrderIsAnswered` | crates/oq-backtest/src/run.rs:584-665 | An order is answered placed if and only if it is for the run's instrument and nothing keeps it out; one for another instrument is counted and reaches no kernel |
| `Callbacks.EveryOrderIsWithdrawn` | crates/oq-backtest/src/run.rs:637-647 | Withdrawing everything asks for every order working at that moment, in order |
| `Run.SentInOrder` | crates/oq-backtest/src/lookahead.rs:40-60 | Every intent of a run is recorded under a tick of the run, in tick order |
| `Run.PrefixSendsTheSame` | crates/oq-backtest/src/run.rs:399-667 | What a strategy sends through a tick depends on the ticks through it alone: the run over the prefix sends exactly that |
| `Lookahead.SpreadPicks` | crates/oq-backtest/src/lookahead.rs:156-169 | The points are strictly increasing candidates, as many as the bound allows, and include both ends if and only if nothing was left out or the bound is at least two |
| `Lookahead.NoFalseAccusation` | crates/oq-backtest/src/lookahead.rs:188-240 | A strategy whose construction ignores its data is never accused, whatever the rules, the core, the ticks and the bound |
| `Lookahead.EveryAccusationIsReal` | crates/oq-backtest/src/lookahead.rs:205-233 | Every divergence reported names a checked point and a tick within it on which the two runs sent different intents, and none before it on which they differ |
| `Lookahead.EveryDifferenceIsAccused` | crates/oq-backtest/src/lookahead.rs:205-233 | A tick is accused if and only if it is a checked point and the rerun over the ticks through it sends other intents than the full run on some tick through it |
| `Lookahead.CountsReported` | crates/oq-backtest/src/lookahead.rs:188-240 | The report counts the ticks of the full run that sent something, and the points checked |
| `Lookahead.PicksAreEven` | crates/oq-backtest/src/lookahead.rs:156-169 | Neighbouring points are one of two neighbouring distances apart |
| `Lookahead.Check` | crates/oq-backtest/src/lookahead.rs:188-240 | The loop of reruns computes the report the laws above are about, each rerun with a strategy built from the ticks it is given |
| `Lookahead.Lookahead` | crates/oq-backtest/src/lookahead.rs:188-240 | The check as called: a point is accused if and only if it was picked and the rerun sends something else than the full run through it; clean for a strategy that ignores its data; and the counts it reports |

## Left out

- Kernel.Kernel.Apply: asks that a venue fill names an instrument the account holds, because the source stops the process on one that does not; cash is unbounded, so the saturation of 64-bit cash is shown only in `Cost.Close`.
- Cost.Close: outside a stated range (`Cost.InRange`), where 128-bit intermediates may saturate, the answer is computed and no law is claimed of it.
- CashFlow.CashFlowIdentity: over a hedged run it asks for venue fills, and fills held back at the start, that are not of a negative size, which is what a caller can check; `FillSizes.RunIdentityIff` is the exact condition without that.
- CashFlow.FinalCashFlowIdentity: asks the same of a hedged run; `FillSizes.FinalIdentityIff` is the exact condition.
- CashFlow.FreshCashFlowIdentity: asks the same of a hedged run; it is the identity with nothing carried in.
- AccountFacts.RunKeepsBooks: a venue fill of an instrument the account does not hold stops the source, after its fee is charged; here it charges the fee and moves no position.
- AccountFacts.BalanceReconciles: also covers runs past such a fill, where the source has stopped.
- FillSizes.RunIdentityIff: a venue fill of an instrument the account does not hold stops the source; here it moves neither the books nor what a reader has.
- AccountFacts.LiquidationSettles: the closing prices are the source's, so a holding never marked closes at its displayed entry.
- WorkingList.WorkingIsTheBookIff: under simulated matching; when the venue matches, its fill drops an id from the list whichever matcher holds it.
- VenueBook.Book.Apply: update identifiers are unbounded, so the overflow of the snapshot's identifier plus one at the 64-bit maximum is not modelled.
- TickReader.Collect: a buffer is no longer than a signed machine word counts; opening the file is not modelled, only its bytes.
- Sequencer.JournalReproduces: a venue fill of an instrument the account does not hold is journalled before the source stops, and stops every replay; here live run and replay both go on past it. A depth update with 2^32 levels on a side does not survive encoding and is not covered.
- Sequencer.Sequencer.Submit: the sink's answer is a parameter and a refused append leaves the journal as it was; framing, flushing, syncing and torn writes of crates/oq-journal are not modelled.
- Lookahead.NoFalseAccusation: a strategy is a deterministic function of its state and what it is told; one that edits intents already asked for, reads a clock or shares state between runs is outside the claim.
- Host.RunTicks: observations are ticks; depth, snapshots and declared gaps reach only the L2 tier, and equity curves, margin usage and run statistics are not kept.
- Absorbing.LiquidationIsAbsorbing: under simulated matching; when the venue matches, its fills arrive whatever the account holds.
- The kernel holds its matchers as values; the same tiers edited in place are `L0Engine.Engine` and `L1Engine.Engine`.
- The L2 tier and the hooks only it uses (`invalidate_depth`, `resume_depth`, `on_invalid_tick`, arrival sampling): their callers live outside the modelled files.
- The square-root impact law and the per-order delay draw: an arbitrary non-negative penalty and an arbitrary fixed draw stand for them.
- Other currencies, rates between them and totals across them: the account settles in one.
- Building a tier table and validating it: any non-empty table is allowed.
- Scanning depth payloads as text (`parse_depth`, `int_field`, `levels`): they compose `parse_fixed` with string search.
- Fingerprints, summaries, descriptions and display text.
- Feed latency statistics of tick files: they read ticks and change none.
- As-of joins, bitemporal corrections, shards and vectorised environments: they would add mostly filter and projection lemmas.
