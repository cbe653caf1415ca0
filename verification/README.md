# Sales back end: a Dafny model

A seller keeps stock, takes orders that may sell past that stock, restocks, bills, and pays
for a subscription. This project models the transactions behind those words and proves what
they keep, for every input and every run.

- `Tables`, `LedgerSpec`: the ledger tables (products, stock rows, orders, items, backorders,
  movements) and what each transaction writes, as functions on values.
- `LedgerStore`: the same transactions as methods of a class over mutable tables, loop by
  loop; every method is proved to compute its function.
- `LedgerBatch`, `LedgerAllocation`, `LedgerSound`, `LedgerOwed`, `LedgerExact`,
  `LedgerBalance`, `LedgerTotals`, `LedgerTenants`: the theorems about runs of ledger requests.
- `LedgerEffects`, `BillingEffects`, `SubscriptionEffects`: what each request or event does,
  column by column, and what it leaves alone.
- `StockLocks`: order creation statement by statement under row locks.
- `Billing`: charges and the billing sync.
- `OrderBilling`, `OrderStore`: ledger and charges in one transaction, as functions and as a
  class, with what both keep over runs.
- `Subscriptions`, `Webhooks`, `SubscriptionStore`: reconcile, webhook events and their
  delivery, as functions and as a class.
- `SubscriptionRaces`: the same handlers with lookup and write as separate statements.
- `Scheduler`: due dates on the Gregorian calendar.
- `OneTimeCodes`: mailed codes with an attempt counter and key expiry.
- `Reports`: bucketed sums, top lists and rounded shares.
- `Sanitizer`: redaction of audited bodies.
- `Seqs`: sums and filters over rows.

How to read it. A run is a sequence of requests applied to any starting state that satisfies
the stated invariant; a failed request leaves the tables as they were. The quantity the
ledger turns on is named in the source: owed = max(reserved − quantity, 0).

The places where the code does not do what its surroundings promise are stated exactly, each
with a run or a state that shows it:

- Cancelling an order whose backorder is partly filled can leave more owed than the stock
  lacks: `LedgerExact.CancelExactIff`, `LedgerExact.PartlyFilledCancelFails`. The weaker
  inequality, which restocking needs, survives every cancel.
- Deleting a canceled order drops what lines added to it later still owe:
  `LedgerOwed.DeleteCanceledIff`, `LedgerOwed.CanceledOrderSellsAndGoes`.
- Cancelling returns stock that was never taken, that of a public order for one:
  `LedgerBalance.CancelNetsZeroIff`, `LedgerBalance.PublicOrderOverReturns`.
- `addItem` subtracts discounts from totals that are already net:
  `LedgerTotals.RunTotalIff`, `LedgerTotals.GivenAwayLineGoesNegative`. The billing sync copies
  such a total: `Billing.RunKeepsBooksIff`, `Billing.NegativeTotalSynced`.
- Order numbers are unique per seller and charge numbers outright, so one seller's per-sale
  order can keep another's from being placed: `OrderBilling.CreateIff`,
  `OrderBilling.SharedNumberRefused`.
- Acting on a webhook event twice is not acting once where a subscription row is created with
  the cancel-at-period-end flag, which creation drops, or where a deletion is handled at two
  moments: `Webhooks.HandleTwiceIff`, `Webhooks.FlagLostOnCreation`, `Webhooks.CancelDateMoves`.
- An event acts twice if it is delivered again after its handler threw past its write, also
  without any overlap: `Webhooks.ActsOnceIff`, `Webhooks.RetriedActsTwice`,
  `SubscriptionRaces.RedeliveryActsAgain`.
- Handlers of one new subscription that overlap give it two rows, and two deliveries of one
  event at once both act: `SubscriptionRaces.RunOnePerIdIff`,
  `SubscriptionRaces.RunActsOnceIff`, `SubscriptionRaces.OverlapGivesTwoRows`,
  `SubscriptionRaces.SimultaneousDeliveriesActTwice`.
- A monthly customer can be left with billing day 0, for which the due date is the last of the
  month and never moves on from it: `Scheduler.MonthlyDayZero`.
- Category totals are kept in a plain record, so a category named like an inherited property,
  such as "constructor", turns into text and has no share: `Reports.CategoriesMatchIff`,
  `Reports.ChartRankedIff`, `Reports.InheritedIsText`.

## Model

| member | source | states |
|---|---|---|
| LedgerStore.Ledger.OwnsAll | src/modules/orders/repositories/prisma-order.repository.ts:33-45 | comparing the count of owned products with the count of distinct ids decides whether every line's product is the seller's |
| LedgerStore.Ledger.ValidateLines | src/modules/orders/repositories/prisma-order.repository.ts:53-102 | the loop over the running map yields the owed units per line and the oversold list, or the first line's refusal |
| LedgerStore.Ledger.InsertBackorders | src/modules/orders/repositories/prisma-order.repository.ts:127-145 | one pending backorder per line that owes units, tied to that line's item |
| LedgerStore.Ledger.DecrementStock | src/modules/orders/repositories/prisma-order.repository.ts:147-169 | every tracked line lowers its stock row and appends one `out`/`sale` movement |
| LedgerStore.Ledger.InsertOrder | src/modules/orders/repositories/prisma-order.repository.ts:104-169 | order, items, backorders, stock and movements of a validated order |
| LedgerStore.Ledger.Create | src/modules/orders/repositories/prisma-order.repository.ts:29-169 | the ledger half of the transaction: new tables on success, untouched tables and the right error otherwise |
| LedgerStore.Ledger.TakeStock | src/modules/orders/repositories/prisma-order.repository.ts:210-238 | one line out of stock, with the units it leaves owed or the refusal |
| LedgerStore.Ledger.SumItems | src/modules/orders/repositories/prisma-order.repository.ts:265-268 | the sums of net totals and of discounts over the items of one order |
| LedgerStore.Ledger.AddItem | src/modules/orders/repositories/prisma-order.repository.ts:193-276 | one line added: checks in the source's order, then stock, movement, item, backorder and order totals |
| LedgerStore.Ledger.RewriteTotals | src/modules/orders/repositories/prisma-order.repository.ts:265-272 | the order row after a line is added: both sums over its stored items |
| LedgerStore.Ledger.CancelPendingRows | src/modules/orders/repositories/prisma-order.repository.ts:402-405 | exactly the pending backorders of the order become canceled |
| LedgerStore.Ledger.RestoreStock | src/modules/orders/repositories/prisma-order.repository.ts:397-429 | drops what the order owes and returns every item of a tracked product with an `in`/`return` movement |
| LedgerStore.Ledger.UpdateStatus | src/modules/orders/repositories/prisma-order.repository.ts:333-345 | stock is restored only when the order moves into canceled from another status |
| LedgerStore.Ledger.Delete | src/modules/orders/repositories/prisma-order.repository.ts:367-379 | stock is restored unless the order was canceled already; the order's own rows go with it |
| LedgerStore.Ledger.CoverRow | src/modules/stock-movements/repositories/prisma-stock-movement.repository.ts:117-132 | what one pending row takes of the units still to place, and its new columns |
| LedgerStore.Ledger.PlaceUnits | src/modules/stock-movements/repositories/prisma-stock-movement.repository.ts:111-149 | the loop hands the units to pending rows oldest first, stops when none is left, and collects the completed rows |
| LedgerStore.Ledger.AllocateBackorders | src/modules/stock-movements/repositories/prisma-stock-movement.repository.ts:98-152 | the drop in the deficit is handed to pending rows oldest first; the completed rows are reported |
| LedgerStore.Ledger.Move | src/modules/stock-movements/repositories/prisma-stock-movement.repository.ts:39-92 | an adjustment writes stock and movement and, when it raises stock, allocates; only an `out` below zero is refused |
| LedgerStore.Ledger.SummaryByProductIds | src/modules/backorders/repositories/prisma-backorder.repository.ts:50-88 | the scan computes the tally of visible short rows |
| LedgerStore.TallyMeans | src/modules/backorders/repositories/prisma-backorder.repository.ts:63-87 | a product appears exactly when a visible row of it is short, with the units all such rows lack and each waiting order once |
| LedgerStore.SummaryIsOwed | src/modules/backorders/repositories/prisma-backorder.repository.ts:68-72 | without a tenant filter the summary is the owed sum the deficit is compared with |
| LedgerBatch.ValidateIsCanSellAll | src/modules/orders/repositories/prisma-order.repository.ts:59-102 | the running map is the stock earlier lines would have left, so batch validation succeeds exactly when the lines can be sold one by one |
| LedgerBatch.CreateIsSellLines | src/modules/orders/repositories/prisma-order.repository.ts:53-169 | creating an order equals selling its lines one after another to the empty order |
| LedgerBatch.BatchRefinesAddItem | src/modules/orders/repositories/prisma-order.repository.ts:53-263 | for any line list `create` succeeds iff adding the lines one at a time does, with the same stock, items, owed units and movement sequence |
| LedgerBatch.OversoldIsOwed | src/modules/orders/repositories/prisma-order.repository.ts:90-98 | the shortfalls reported to the seller add up to the units recorded as owed |
| LedgerTotals.PricedTotal | src/modules/orders/services/orders.service.ts:28-48 | with clamped discounts the total that `create` is given is the sum of the net lines |
| LedgerTotals.AddedTotalIsNetIff | src/modules/orders/repositories/prisma-order.repository.ts:265-272 | after `addItem` the total is the sum of the net lines iff the order carries no discount, and is not negative iff the discounts do not exceed that sum |
| LedgerTotals.RunTotals | src/modules/orders/repositories/prisma-order.repository.ts:265-272 | in every run the stored total of an order is the sum of its stored net lines, less all its discounts if a line was ever added to it |
| LedgerTotals.RunTotalIff | src/modules/orders/repositories/prisma-order.repository.ts:265-272 | hence it is that sum iff no line was added or there is no discount, and negative iff lines were added and the discounts exceed the sum |
| LedgerTotals.GivenAwayLineGoesNegative | src/modules/orders/repositories/prisma-order.repository.ts:265-272 | a request that is carried out and leaves an order total of -100 |
| LedgerAllocation.AllocateShares | src/modules/stock-movements/repositories/prisma-stock-movement.repository.ts:111-132 | row i gets exactly min(remaining, max(0, n − what older rows lack)) |
| LedgerAllocation.AllocateLeft | src/modules/stock-movements/repositories/prisma-stock-movement.repository.ts:117-132 | units left over are max(0, n − owed), and the owed sum falls by what was placed |
| LedgerAllocation.DoneAreCompleted | src/modules/stock-movements/repositories/prisma-stock-movement.repository.ts:134-148 | the reported rows are exactly those the arrival took from pending to fulfilled, in order |
| LedgerAllocation.AllocateFifo | src/modules/stock-movements/repositories/prisma-stock-movement.repository.ts:111-132 | after an arrival still only the oldest pending row of a product may be partly filled |
| LedgerAllocation.SplitRestock | src/modules/stock-movements/repositories/prisma-stock-movement.repository.ts:83-149 | two arrivals leave the same stock and backorders, and report the same completed orders, as one of their sum |
| LedgerSound.RunSound | src/modules/stock-movements/repositories/prisma-stock-movement.repository.ts:111-132 | in every run pending means short, fulfilled means full, at most the oldest pending row of a product is partly filled, and every item and backorder belongs to its order's seller |
| LedgerOwed.SellLineSums | src/modules/orders/repositories/prisma-order.repository.ts:90-92 | selling a line raises the owed sum by exactly the part beyond what is on hand |
| LedgerOwed.RestoreBacked | src/modules/orders/repositories/prisma-order.repository.ts:397-429 | a cancel may return more than it stops owing, never less, partly filled backorders included |
| LedgerOwed.ArrivalPlacesAll | src/modules/stock-movements/repositories/prisma-stock-movement.repository.ts:94-109 | where pending units cover the deficit, an arrival places every unit it covers |
| LedgerOwed.RunBacked | src/modules/stock-movements/repositories/prisma-stock-movement.repository.ts:94-130 | over runs of orders, status changes, deletes, public orders and movements the pending owed units of a product are at least max(reserved − quantity, 0), so every restock places all its units |
| LedgerOwed.DeleteCanceledIff | src/modules/orders/repositories/prisma-order.repository.ts:367-379 | deleting a canceled order keeps that inequality for a product iff the order owes no more of it than owed exceeds the deficit by |
| LedgerOwed.SoldOnCanceledIsLost | src/modules/orders/repositories/prisma-order.repository.ts:367-379 | whatever a line added to a canceled order leaves owed is lost when the order is deleted, and the stock goes on lacking it |
| LedgerOwed.CanceledOrderSellsAndGoes | src/modules/orders/repositories/prisma-order.repository.ts:193-276 | such a run: nothing is owed any more and one unit is lacking |
| LedgerExact.RunExact | src/modules/stock-movements/repositories/prisma-stock-movement.repository.ts:94-109 | over runs of sales, arrivals and adjustments the two are equal |
| LedgerExact.MoveExactIff | src/modules/stock-movements/repositories/prisma-stock-movement.repository.ts:56-64 | an adjustment keeps them equal iff it does not dip into reserved units, which the quantity check does not look at |
| LedgerExact.CancelExactIff | src/modules/orders/repositories/prisma-order.repository.ts:397-405 | a cancel keeps them equal iff there is no deficit, or the order still owes its whole quantity, or it is the only order owing |
| LedgerExact.PartlyFilledCancelFails | src/modules/orders/repositories/prisma-order.repository.ts:398-401 | the limitation the comment admits, on two orders |
| LedgerBalance.RunExplained | src/modules/orders/repositories/prisma-order.repository.ts:147-169 | without manual edits quantity is opening plus movements in minus movements out, in every run and for every product |
| LedgerBalance.ReturnMovesCarry | src/modules/orders/repositories/prisma-order.repository.ts:407-428 | the return movements of an order carry its stored quantities and name no other order |
| LedgerBalance.PlacedOrderBalances | src/modules/orders/repositories/prisma-order.repository.ts:336-379 | for every product, whatever is interleaved: the movements of a placed order net to minus its quantity while it is live and to zero once canceled or deleted, but for units put on it while the product had no stock row, which are never taken and are returned if it has one by then; a product tracked at placement has none of those |
| LedgerBalance.CancelNetsZeroIff | src/modules/orders/repositories/prisma-order.repository.ts:397-429 | for any live order and product a cancel nets to zero iff the movements before it are minus the quantity it returns, that of a tracked product |
| LedgerBalance.PublicOrderOverReturns | src/modules/catalog/repositories/prisma-catalog.repository.ts:313-328 | a public order takes no stock, so cancelling it raises stock and movements by all it sold |
| LedgerBalance.CanceledOrderTouchedIff | src/modules/orders/repositories/prisma-order.repository.ts:336-345 | reopening a canceled order, or adding a line to it, keeps that balance only for products it does not touch |
| LedgerTenants.NextFrame | src/modules/orders/repositories/prisma-order.repository.ts:35-45 | no request of a non-admin changes another seller's stock, orders, items, backorders or movements |
| LedgerTenants.RestoreFrame | src/modules/orders/repositories/prisma-order.repository.ts:384-429 | for cancel and delete this rests on every item being a product of the order's seller |
| LedgerTenants.RunFrame | src/modules/orders/repositories/prisma-order.repository.ts:202-208 | the same over whole runs |
| LedgerTenants.CatalogOrderFrame | src/modules/catalog/repositories/prisma-catalog.repository.ts:313-328 | a public order touches only the store it names |
| LedgerTenants.PatchFrame | src/modules/store-stock/repositories/prisma-store-stock.repository.ts:74-107 | a manual stock edit touches only the caller's products |
| LedgerEffects.PriceEffects | src/modules/orders/services/orders.service.ts:33-44 | the discount granted is the one asked for or, if smaller, what the line is worth; the net total is the rest |
| LedgerEffects.CanSellIff | src/modules/orders/repositories/prisma-order.repository.ts:211-220 | a line is sold unless its product has a stock row, is short of unreserved units and may not be oversold |
| LedgerEffects.SellLineEffects | src/modules/orders/repositories/prisma-order.repository.ts:210-263 | one line sold, in every table: its item, and for a tracked product the lower quantity with the reserve kept, the `out`/`sale` movement and one pending backorder for exactly what was not there |
| LedgerEffects.PlaceAnswers | src/modules/orders/repositories/prisma-order.repository.ts:39-89 | an order is placed iff every product is the caller's and its lines can be sold in turn; the error says which failed |
| LedgerEffects.PlaceEffects | src/modules/orders/services/orders.service.ts:33-65 | a placed order is a pending row with the worth of its lines, the discounts granted and the difference, and its lines sold to it in turn |
| LedgerEffects.OversoldMeans | src/modules/orders/repositories/prisma-order.repository.ts:90-98 | the seller is told of each line that found less than it asks for, with what the earlier lines left |
| LedgerEffects.RefusalNames | src/modules/orders/repositories/prisma-order.repository.ts:78-89 | a refusal names the first line that cannot be sold after those before it, and what was available to it |
| LedgerEffects.AddItemAnswers | src/modules/orders/repositories/prisma-order.repository.ts:195-220 | who may add a line to which order, and which error is given first |
| LedgerEffects.AddItemEffects | src/modules/orders/repositories/prisma-order.repository.ts:210-272 | an added line is sold like any other, and of the order row only the money columns change |
| LedgerEffects.RetotalMeans | src/modules/orders/repositories/prisma-order.repository.ts:265-272 | they become the sums over the order's stored items: net totals, discounts, and the first less the second |
| LedgerEffects.RestoreEffects | src/modules/orders/repositories/prisma-order.repository.ts:397-429 | exactly the order's pending backorders become canceled, each tracked product gets back the order's units and keeps its reserve, nothing else moves |
| LedgerEffects.ReturnMovesAre | src/modules/orders/repositories/prisma-order.repository.ts:407-428 | one `in`/`return` movement per item of a tracked product, in item order |
| LedgerEffects.UpdateStatusEffects | src/modules/orders/repositories/prisma-order.repository.ts:333-345 | the status asked for is stored, whichever it is, and stock comes back only on the way into canceled |
| LedgerEffects.DeleteEffects | src/modules/orders/repositories/prisma-order.repository.ts:367-379 | the order's row, items and backorders go and no others, after a restore unless it was canceled |
| LedgerEffects.MoveAnswers | src/modules/stock-movements/repositories/prisma-stock-movement.repository.ts:43-64 | an adjustment is refused only to strangers and for an `out` below zero |
| LedgerEffects.MoveEffects | src/modules/stock-movements/repositories/prisma-stock-movement.repository.ts:56-90 | it writes the quantity of its product and one movement; the product's reserve, every other stock row, all orders and all items are unchanged |
| LedgerEffects.ArrivalEffects | src/modules/stock-movements/repositories/prisma-stock-movement.repository.ts:94-132 | each pending backorder gets, oldest first, what it lacks of the units by which the deficit falls, and is fulfilled once it lacks nothing |
| LedgerEffects.RunReserve | src/modules/stock-movements/repositories/prisma-stock-movement.repository.ts:67-78 | in every run without manual edits no product's reserve ever changes |
| LedgerEffects.RunOwesLack | src/modules/stock-movements/repositories/prisma-stock-movement.repository.ts:94-130 | the bound of `LedgerOwed.RunBacked` in stored columns: what pending rows lack is at least reserved − quantity |
| LedgerEffects.PatchEffects | src/modules/store-stock/repositories/prisma-store-stock.repository.ts:74-107 | a manual edit writes the named columns of one row, from zeros if there is none, for the product's seller or an admin |
| LedgerEffects.CatalogOrderEffects | src/modules/catalog/services/catalog.service.ts:270-292 | a public order is taken iff every line is the store's and in stock on its own, and writes its row and items and no stock |
| StockLocks.DoConsistent | src/modules/orders/repositories/prisma-order.repository.ts:47-50 | at every statement a transaction that holds its rows has read and prepared exactly what it would on the committed stock |
| StockLocks.EveryInterleavingIsSerial | src/modules/orders/repositories/prisma-order.repository.ts:47-169 | every interleaving the row locks allow gives the stock, backorders, movements and refusals of some serial order of whole `create` calls |
| StockLocks.NeverOversold | src/modules/orders/repositories/prisma-order.repository.ts:31-89 | under concurrency a product not flagged allow_oversell never goes below zero available |
| SubscriptionStore.SubscriptionService.FindByProviderId | src/modules/subscriptions/repositories/prisma-webhook.repository.ts:50-57 | finds the first row of a provider id, or none |
| SubscriptionStore.SubscriptionService.UpsertSubscriptionFromStripe | src/modules/subscriptions/repositories/prisma-subscription.repository.ts:166-210 | updates the row of the id or inserts one, and says which |
| SubscriptionStore.SubscriptionService.DowngradeStale | src/modules/subscriptions/services/subscription-reconcile.service.ts:84-93 | every paid account the list does not vouch for goes to free, in any order of the query's rows, and is counted once |
| SubscriptionStore.SubscriptionService.Reconcile | src/modules/subscriptions/services/subscription-reconcile.service.ts:51-104 | both loops together compute the reconcile function and its report |
| SubscriptionStore.SubscriptionService.UpdateByProviderId | src/modules/subscriptions/repositories/prisma-webhook.repository.ts:66-74 | rewrites exactly the rows of one provider id |
| SubscriptionStore.SubscriptionService.WriteSubscription | src/modules/subscriptions/services/webhook.service.ts:100-148 | updates the known row, or creates one; says whether the plan is to be set |
| SubscriptionStore.SubscriptionService.WriteRows | src/modules/subscriptions/services/webhook.service.ts:57-185 | the row write of each event type, and the plan that is left to set, `free` on a deletion |
| SubscriptionStore.SubscriptionService.HandleStripeEvent | src/modules/subscriptions/services/webhook.service.ts:57-185 | one event's effect on rows and plans, also when it throws before anything or between the two |
| SubscriptionStore.SubscriptionService.ProcessStripeWebhook | src/modules/subscriptions/services/webhook.service.ts:31-55 | a processed event is skipped; otherwise the log row is written, the handler acts as far as it gets and only then is the row marked |
| Subscriptions.ReconciledPlans | src/modules/subscriptions/services/subscription-reconcile.service.ts:74-93 | after a pass each plan is the last paying entry's, or free if it was paid and nobody vouches for it, or unchanged |
| Subscriptions.SyncAllSettles | src/modules/subscriptions/services/subscription-reconcile.service.ts:57-72 | after a pass every listed id has a row showing its last entry |
| Subscriptions.UnlistedRowsStay | src/modules/subscriptions/repositories/prisma-subscription.repository.ts:176-194 | a pass leaves the rows of unlisted ids as they were |
| Subscriptions.ReconcileTwice | src/modules/subscriptions/services/subscription-reconcile.service.ts:29-104 | from any local state a second pass over the same list changes nothing and reports nothing created and nothing downgraded |
| Webhooks.DeliveredOnce | src/modules/subscriptions/services/webhook.service.ts:31-55 | for any deliveries with repeats and failures at any point, served one at a time with reconciles in between, plans and rows are those of the effective steps alone: after its first success an event acts no more |
| Webhooks.ActsOnceIff | src/modules/subscriptions/services/webhook.service.ts:31-55 | served one at a time, each event acts at most once iff no delivery reaches its write after an earlier one of its event threw past its own |
| Webhooks.CleanFaultsActOnce | src/modules/subscriptions/services/webhook.service.ts:31-55 | so where handlers that throw have written nothing, each event acts at most once |
| Webhooks.RetriedActsTwice | src/modules/subscriptions/services/webhook.service.ts:46-54 | from any state, an unmarked event whose handler throws before its plan write or at the mark acts again when delivered again, with what both writes leave |
| Webhooks.RunOnePerId | src/modules/subscriptions/services/webhook.service.ts:122-148 | served one at a time, webhooks and reconciles never give a provider id a second row |
| Webhooks.HandleTwiceIff | src/modules/subscriptions/services/webhook.service.ts:124-165 | acting on an event again at any later moment changes nothing iff it did not create a row with the cancel flag set and is not a deletion handled at two moments |
| Webhooks.FlagLostOnCreation | src/modules/subscriptions/services/webhook.service.ts:124-148 | an event whose flag only the second pass stores |
| Webhooks.CancelDateMoves | src/modules/subscriptions/services/webhook.service.ts:155-165 | a deletion whose second pass moves the cancel date |
| SubscriptionRaces.AloneIsAtomic | src/modules/subscriptions/services/webhook.service.ts:122-148 | lookup and write run back to back are the handler's, or the upsert's, row write |
| SubscriptionRaces.RunOnePerIdIff | src/modules/subscriptions/repositories/prisma-subscription.repository.ts:176-210 | an interleaving of statements leaves one row per provider id iff no insert comes after another row of its id |
| SubscriptionRaces.OverlapGivesTwoRows | prisma/schema.prisma:442-455 | any two handlers or reconcile entries of a new id that both look before either writes give it two rows |
| SubscriptionRaces.ApartIsSerial | src/modules/subscriptions/repositories/prisma-subscription.repository.ts:176-210 | if no two tasks of one id overlap between lookup and write, each id keeps one row and the rows are those of the works run whole in write order |
| SubscriptionRaces.RunActsOnceIff | src/modules/subscriptions/services/webhook.service.ts:31-55 | in an interleaving of statements, throws at any point included, each event acts at most once iff no handler writes for an event that has acted already |
| SubscriptionRaces.OrderlyActsOnce | src/modules/subscriptions/services/webhook.service.ts:31-55 | that holds if no two tasks handle one event at once and no handler throws after its write, whatever else overlaps |
| SubscriptionRaces.RedeliveryActsAgain | src/modules/subscriptions/services/webhook.service.ts:46-54 | without any overlap a handler that throws after its write leaves its event unmarked, and the redelivery acts again, for every event |
| SubscriptionRaces.SimultaneousDeliveriesActTwice | src/modules/subscriptions/services/webhook.service.ts:31-55 | two deliveries of any event at once both see it unmarked, and both act, its subscription known or not |
| SubscriptionEffects.StatusTable | src/modules/subscriptions/services/webhook.service.ts:109-121 | the eight provider statuses, and active for any other |
| SubscriptionEffects.CheckoutEffects | src/modules/subscriptions/services/webhook.service.ts:85-98 | a checkout sets the account's plan to the one named, or pro, and nothing else |
| SubscriptionEffects.DeletedEffects | src/modules/subscriptions/services/webhook.service.ts:155-165 | a deletion takes the account to free and makes every row of the id canceled at that moment; no other plan or row moves |
| SubscriptionEffects.InvoiceEffects | src/modules/subscriptions/services/webhook.service.ts:167-185 | a paid invoice makes the rows of its subscription active for its period, a failed one past due; no plan moves |
| SubscriptionEffects.UnhandledEffects | src/modules/subscriptions/services/webhook.service.ts:80-105 | other events, and changes that name no account, write nothing |
| SubscriptionEffects.ChangedEffects | src/modules/subscriptions/services/webhook.service.ts:120-152 | a change of a known subscription writes status, flag and any named period of the row found, and the plan iff active or trialing |
| SubscriptionEffects.CreatedEffects | src/modules/subscriptions/services/webhook.service.ts:133-152 | a change of an unknown one appends a row with the event's columns, for thirty days if no period is named, and sets the plan whatever the status |
| SubscriptionEffects.DeliverEffects | src/modules/subscriptions/services/webhook.service.ts:31-55 | a marked event is skipped; otherwise its log row is written or retried, the handler acts up to its throw, and the row ends as marked or failed |
| SubscriptionEffects.UpsertEffects | src/modules/subscriptions/repositories/prisma-subscription.repository.ts:176-210 | the columns a listed subscription writes into the row found, and the whole row where there is none |
| SubscriptionEffects.ReportCounts | src/modules/subscriptions/services/subscription-reconcile.service.ts:53-102 | the report of any pass: each listed id without a row created once, the other entries updated, each account with an entry that gives access kept, each other paid account downgraded |
| Scheduler.DayNumberOrders | src/shared/billing/billing-scheduler.ts:44-63 | the day number orders dates as year, month and day do, leap years included |
| Scheduler.YearsByRule | src/shared/billing/billing-scheduler.ts:53-61 | counting days by month lengths agrees with the Gregorian leap-year rule |
| Scheduler.KnownThursday | src/shared/billing/billing-scheduler.spec.ts:39-42 | the weekday count is anchored: 4 June 2026 is a Thursday |
| Scheduler.LastDays | src/shared/billing/billing-scheduler.ts:53-61 | the 29th, 30th and 31st exist in exactly the months and years they do, by the leap-year rule |
| Scheduler.MonthStarts | src/shared/billing/billing-scheduler.ts:38-43 | the days before February to July, in figures |
| Scheduler.LateMonthStarts | src/shared/billing/billing-scheduler.ts:38-43 | the same for August to the end of December |
| Scheduler.MonthlyDueIsEarliest | src/shared/billing/billing-scheduler.ts:44-63 | the monthly due date is the first midnight after the reference on day min(day, month length), 1 to 31 days ahead |
| Scheduler.MonthlyNeverDrifts | src/shared/billing/billing-scheduler.ts:50-62 | fed with its own result it advances exactly one month each time, and short months shift no later day |
| Scheduler.MonthlyDayZero | src/shared/billing/billing-scheduler.ts:44-63 | day 0 is due on the last of the reference's own month, which is later than the reference iff that is not the day, and is its own next due date |
| Scheduler.WeeklyDueIsEarliest | src/shared/billing/billing-scheduler.ts:26-35 | for any stored day the weekly due date is the first strictly later date on the weekday that day is modulo seven, 1 to 7 days ahead |
| Scheduler.DueDateByMode | src/shared/billing/billing-scheduler.ts:15-67 | per mode and for every day 0 to 31 a customer can hold: the sale day, a fortnight, the weekday, the billing day or the last of the month with their defaults, or none |
| OrderStore.OrderRepository.InsertBilling | src/modules/orders/repositories/prisma-order.repository.ts:171-186 | the order's number and, per sale, its charge: both or neither |
| OrderStore.OrderRepository.Create | src/modules/orders/repositories/prisma-order.repository.ts:29-191 | the whole transaction: ledger and charge on success, both as they were on any failure, a taken number included |
| OrderStore.OrderRepository.UpdateStatus | src/modules/orders/repositories/prisma-order.repository.ts:323-365 | the ledger half, and with a cancel every charge of the order becomes void |
| OrderStore.OrderRepository.Delete | src/modules/orders/repositories/prisma-order.repository.ts:367-379 | the order's charges go with it |
| OrderBilling.CreateIff | src/modules/orders/repositories/prisma-order.repository.ts:29-191 | creation succeeds iff the lines can be sold, the seller's order number is free and, per sale, the charge number is free of all sellers; then a per-sale order has exactly one charge, of its own total, unpaid and due on the day, and any other order none |
| OrderBilling.SharedNumberRefused | prisma/schema.prisma:334 | in every run, while a per-sale order and its charge are there no seller can place one whose number becomes the same charge number |
| OrderBilling.SaleStaysBilled | src/modules/orders/repositories/prisma-order.repository.ts:171-186 | in every run a per-sale order has the charge written with it from its creation until the order or that charge is deleted |
| OrderBilling.CancelVoids | src/modules/orders/repositories/prisma-order.repository.ts:347-361 | a cancel voids the order's charges and no other, and they are void in every later state |
| OrderBilling.RunRefinesLedger | src/modules/orders/repositories/prisma-order.repository.ts:29-191 | in every run of orders and charges the ledger tables are those of a ledger run over the requests carried out whole, and billing sees the same orders, so all that is proved of ledger runs holds |
| Billing.RunKeepsBooksIff | src/modules/billings/services/billings.service.ts:23-162 | over every run, added lines of any total included, 0 ≤ paid ≤ total, a charge that is not void has the status its amounts call for and overdue is never stored, in all states, iff no sync bills an order with a negative total |
| Billing.RunStatusFits | src/shared/billing/billing-status.ts:23-31 | in every run, whatever amounts come in: a charge that is not void is unpaid iff paid ≤ 0, paid iff 0 < paid and paid ≥ total, partial iff 0 < paid < total, its payment is confirmed iff it is paid, and overdue is never stored |
| BillingEffects.CreateEffects | src/modules/billings/services/billings.service.ts:68-91 | who may enter a charge, the refusal of paid above total, and the whole row that is written |
| BillingEffects.UpdateAnswers | src/modules/billings/services/billings.service.ts:93-106 | an edit is refused to whoever cannot see the charge and when merged paid is above merged total |
| BillingEffects.UpdateEffects | src/modules/billings/services/billings.service.ts:101-128 | named columns change and the others stay, the status follows the new amounts unless the charge is void, and a first payment is dated today unless a date is given or there |
| BillingEffects.CancelEffects | src/modules/billings/services/billings.service.ts:144-171 | cancelling writes two status columns, deleting takes the row, for whoever sees it |
| BillingEffects.PlaceEffects | src/modules/orders/repositories/prisma-order.repository.ts:105-187 | an order row, if the seller's number is free, with the unpaid charge of a per-sale order, if the charge number is free |
| BillingEffects.SetOrderStatusEffects | src/modules/orders/repositories/prisma-order.repository.ts:342-361 | a move into canceled makes the order's charges void and touches no other |
| BillingEffects.DeleteOrderEffects | src/modules/orders/repositories/prisma-order.repository.ts:367-379 | the order goes with its charges and no others |
| BillingEffects.UnbilledIff | src/modules/billings/repositories/prisma-billing.repository.ts:94-115 | a sync looks for the visible per-sale orders that are not canceled and have no charge |
| BillingEffects.SyncChargeColumns | src/modules/billings/services/billings.service.ts:30-40 | the charge a sync writes, column by column |
| BillingEffects.OverdueShown | src/modules/billings/repositories/prisma-billing.repository.ts:33-45 | an unpaid or partly paid charge past its due day shows as overdue, all else as stored |
| BillingEffects.RecodedNumber | src/modules/billings/services/billings.service.ts:29 | `ORD` at the front becomes `COB`, any other number stays |
| BillingEffects.DigitsRead | src/modules/billings/services/billings.service.ts:29 | an order without a number is billed under its id in decimal |
| Billing.VoidForever | src/modules/billings/services/billings.service.ts:118-153 | a voided charge stays void |
| Billing.NegativeTotalSynced | src/modules/billings/services/billings.service.ts:30-40 | a run whose sync writes a charge of -100, which cannot be edited before its total is raised |
| Billing.SyncMirrors | src/modules/billings/services/billings.service.ts:23-49 | a sync adds one charge per order that is the first to need a free number, in order and mirroring that order, and changes no other |
| Billing.SyncedOverdueIff | src/modules/billings/repositories/prisma-billing.repository.ts:27-45 | a charge that a sync wrote shows as overdue exactly from the day after the sale |
| Billing.SyncAllBills | src/modules/billings/services/billings.service.ts:27-46 | after a sync each found order is billed, or its write failed, or its number is taken; earlier charges are untouched |
| Billing.SyncTwice | src/modules/billings/services/billings.service.ts:23-49 | a sync right after one without outside failures creates nothing, number collisions included |
| Billing.CompleteSyncBillsAll | src/modules/billings/repositories/prisma-billing.repository.ts:94-115 | a sync that reports a charge per order found leaves none unbilled |
| Billing.BillingService.CreateCharge | src/modules/billings/services/billings.service.ts:68-91 | access and amount checks, then a charge with the status its amounts call for |
| Billing.BillingService.UpdateCharge | src/modules/billings/services/billings.service.ts:93-136 | merged amounts are checked, status is re-derived unless the charge is void, and the payment date is set once |
| Billing.BillingService.CancelCharge | src/modules/billings/services/billings.service.ts:144-162 | voids a visible charge |
| Billing.BillingService.Write | src/modules/billings/repositories/prisma-billing.repository.ts:117-133 | inserts a row unless its number is taken |
| Billing.BillingService.SyncBillings | src/modules/billings/services/billings.service.ts:23-49 | the loop bills exactly the unbilled per-sale orders, in whatever order they are found |
| OneTimeCodes.CodeService.RequestPasswordOtp | src/modules/catalog/services/catalog.service.ts:498-511 | a code is stored and the counter cleared only for a customer without password, with email, out of cooldown |
| OneTimeCodes.CodeService.VerifyOtp | src/modules/catalog/services/catalog.service.ts:81-106 | a live code is compared; a wrong guess raises the counter or ends the code |
| OneTimeCodes.CodeService.SetCustomerPassword | src/modules/catalog/services/catalog.service.ts:528-550 | the right code, and no other, sets the password and clears all three keys |
| OneTimeCodes.AtMostFiveGuesses | src/modules/catalog/services/catalog.service.ts:82-106 | an issued code is compared with at most five wrong guesses, because its counter never expires before it |
| OneTimeCodes.CodeHolds | src/modules/catalog/services/catalog.service.ts:82-106 | a live code is lost only by being replaced, used or guessed at five times, and until then the right guess is accepted |
| OneTimeCodes.CodesAreSpaced | src/modules/catalog/services/catalog.service.ts:498-511 | two codes for one customer are at least a minute apart |
| OneTimeCodes.AskEffects | src/modules/catalog/services/catalog.service.ts:496-511 | a code is stored iff the customer is known, has an email and no password and is out of cooldown; for ten minutes, with a fresh counter and a minute's cooldown, and no other key moves |
| OneTimeCodes.TryAnswers | src/modules/catalog/services/catalog.service.ts:538-543 | the answer to every try: accepted iff the customer is known and has no password, a code is live and the guess is that code; a live code and another guess is refused |
| OneTimeCodes.TryCustomers | src/modules/catalog/services/catalog.service.ts:528-546 | only an accepted try writes a customer, and only the caller's password |
| OneTimeCodes.TryKeys | src/modules/catalog/services/catalog.service.ts:92-106 | a right guess clears the three keys, a wrong one raises the counter for ten minutes, the fifth ends the code, any other try writes nothing |
| OneTimeCodes.StoredIsSent | src/modules/catalog/services/catalog.service.ts:504-506 | in every run a stored code is the last one sent, for its ten minutes |
| OneTimeCodes.PasswordNeedsCode | src/modules/catalog/services/catalog.service.ts:527-546 | in every run a customer without a password comes to one only by a try whose guess is the code last sent, less than ten minutes earlier |
| Reports.TallyConserves | src/modules/reports/services/reports.service.ts:267-282 | the buckets of a record add up to the rows it was filled from |
| Reports.TallyMeans | src/modules/reports/services/reports.service.ts:132-144 | each key has one bucket, holding what its own rows amount to |
| Reports.CountHours | src/modules/reports/services/reports.service.ts:374-379 | the hourly counts are right and add up to the orders |
| Reports.CountStatuses | src/modules/reports/services/reports.service.ts:381-385 | the status counts add up to the orders |
| Reports.DailyRevenue | src/modules/reports/services/reports.service.ts:387-397 | the days add up to the total revenue of orders that are not canceled |
| Reports.AggregateProducts | src/modules/reports/services/reports.service.ts:310-353 | the nested loops tally units, lines (the order count) and revenue per product and revenue per category, a category being any text and a read of an inherited name no number |
| Reports.CellsNumericIff | src/modules/reports/services/reports.service.ts:345-352 | category totals are all numbers iff no line's category is the name of a property every record inherits |
| Reports.CategoriesMatchIff | src/modules/reports/services/reports.service.ts:345-352 | products account for all revenue; categories are numbers that account for the same iff no counted line has such a name and `__proto__` lines come to nothing |
| Reports.InheritedIsText | src/modules/reports/services/reports.service.ts:163-170 | the order list that fails: one line in a category such as "constructor" gives text, and a chart that cannot be sorted |
| Reports.TopDominates | src/modules/reports/services/reports.service.ts:355-358 | kept entries dominate dropped ones and none is lost |
| Reports.SalesByCategory | src/modules/reports/services/reports.service.ts:155-183 | the category chart is the sorted rounded shares of the tallied categories, cut to six, or unsorted if a share is no number |
| Reports.ChartRankedIff | src/modules/reports/services/reports.service.ts:164-183 | the shares are numbers and sorted iff no line's category is an inherited name |
| Reports.ChartAddsUp | src/modules/reports/services/reports.service.ts:164-183 | then the shares of n categories add up, within n/2, to the part of 100 not sold under `__proto__`, and the chart drops none of them up to six |
| Reports.ChartNeverOverfull | src/modules/reports/services/reports.service.ts:175-183 | where no line is negative the six kept shares show at most what all show |
| Reports.ProductFigures | src/modules/reports/services/reports.service.ts:327-352 | per product the units and lines of all orders, and the money of those not canceled |
| Reports.CategoryFigures | src/modules/reports/services/reports.service.ts:347-351 | per category the money of the lines of orders not canceled, unnamed ones under `Outros` |
| Reports.OrderFigures | src/modules/reports/services/reports.service.ts:382-397 | per status the number of orders; per day and in all the totals of those not canceled |
| Reports.ChartEntries | src/modules/reports/services/reports.service.ts:167-183 | each share of a sorted chart is its own category's part of all lines, rounded half up |
| Sanitizer.SanitizeValue | src/shared/audit/audit.interceptor.ts:117-132 | the recursive walk with its loops computes the sanitizing function |
| Sanitizer.SanitizedEverywhere | src/shared/audit/audit.interceptor.ts:117-132 | at any depth sensitive keys hold the mark, arrays at most 50 entries, and containers nest at most four deep |
| Sanitizer.OpenPathsSurvive | src/shared/audit/audit.interceptor.ts:117-132 | everything not redacted, cut off or too deep is still where it was |
| Sanitizer.UnchangedIffClean | src/shared/audit/audit.interceptor.ts:117-132 | a value comes through unchanged exactly when nothing in it had to go |
| Sanitizer.SanitizeTwice | src/shared/audit/audit.interceptor.ts:117-132 | sanitizing twice is sanitizing once |
| Sanitizer.SensitiveIff | src/shared/audit/audit.interceptor.ts:90-94 | a key is redacted iff one of eight words occurs in it in any case, or it is the word code |
| Sanitizer.OpenNodes | src/shared/audit/audit.interceptor.ts:117-132 | node by node: scalars stay, containers up to three levels down keep their keys and their first entries, deeper ones are marked |

## Left out

- StockLocks.EveryInterleavingIsSerial: covers order creation only; `addItem` and stock movements take no row lock and are single steps of the ledger runs. A transaction the database kills is an event that writes nothing.
- LedgerOwed.RunBacked: assumes that no line is added to a canceled order, stock is not edited by hand, and an `out` movement spares reserved units. Of these the first is needed because deleting a canceled order drops its pending rows (`DeleteCanceledIff` is exact, `CanceledOrderSellsAndGoes` the run), the second because an edit writes any deficit, and the third by `LedgerExact.MoveExactIff`.
- LedgerBalance.PlacedOrderBalances: assumes that no manual movement is entered under the order's number as a sale or return, since the movement table cannot tell the two apart; for public orders `CancelNetsZeroIff` says when the balance holds.
- LedgerTenants.NextFrame: says nothing of id counters, which all sellers share.
- LedgerAllocation.SplitRestock: the movement table itself keeps two rows instead of one.
- LedgerStore.Ledger.InsertOrder: the charge of a per-sale order is written by `OrderStore.OrderRepository.InsertBilling`.
- LedgerStore.Ledger.Create: the charge, and its failure inside the transaction, are in `OrderStore.OrderRepository.Create`.
- LedgerStore.Ledger.UpdateStatus: the charges of a canceled order are voided in `OrderStore.OrderRepository.UpdateStatus`.
- OrderBilling.SaleStaysBilled: a customer's billing mode is fixed at the sale; a later change of mode, which the sync would see, is not modelled.
- Billing.RunKeepsBooksIff: client amounts pass the request schemas and are not negative, and charge requests are served one at a time.
- Billing.BillingService.UpdateCharge: reading the charge and writing it are one step here and two statements without a transaction in the source; two edits at once, each checked against what it read, can leave paid above total.
- Subscriptions.ReconciledPlans: assumes that every listed account exists locally; the update of a missing account throws half way.
- Webhooks.DeliveredOnce: deliveries and reconcile passes are served one at a time; `SubscriptionRaces` drops that for the rows.
- SubscriptionRaces.ApartIsSerial: covers the subscription rows and the processed marks; the plan of an account is one statement whose last writer wins, and the order of plan writes is not modelled there.
- OneTimeCodes.AtMostFiveGuesses: requests are served one after another; two guesses that read the counter at the same moment are not modelled.
- Reports.TopDominates: the engine's sort is modelled as a stable sort; the initial order of numeric keys in a record is not. Where a share is no number the comparison is inconsistent and the engine's order is left open.
- Reports.ChartAddsUp: percentages are exact fractions rather than floating point.
- Sanitizer.SanitizeValue: an own key `__proto__`, which assignment would drop, is treated like any other; the size cap on the serialized body is not modelled.
- Scheduler.MonthlyDueIsEarliest: reference years below 100 are excluded, as the Date constructor reads them as another century; dates are local and days have 24 hours.
- Queries followed by a loop are one loop over the table that skips the rows the query omits; rows of a table are kept in creation order.
- Columns that no branch reads: prices of items, notes, names, minimum and maximum stock, trial dates, billing method, event payloads.
- The 32-bit range of integer columns.
- The catalogue of products is fixed during a run; product edits and deletions are not requests here.
- Public orders: prices, promotions and the customer record; their lines and total are inputs.
- PagSeguro webhooks: they share the event log and only update rows that exist.
- Averages, growth figures, weekday counts and the formatting of reports.
- HTTP, guards, notifications, mail, hashing, storage and the database engine itself.
