# Order, stock and payment ledgers of the shop

The project models how the shop keeps its books: stock promised to order lines, units shipped and put
back, the status of orders, money captured from payments and drawn from gift cards, voucher uses, and the
interval numbers of the category tree. Every database transaction is one step; a raised exception leaves
the tables as they were before its `atomic` block.

| file | what it holds |
|---|---|
| `Sums.dfy` | finite sums, and the greedy "pour" shared by three loops of the program |
| `Ledger.dfy` | the tables, and what each transaction makes of them as functions |
| `Store.dfy` | the tables as an object whose methods work in place, each proved to do what its `Ledger` function says |
| `StockLaws.dfy`, `Shipping.dfy`, `Placing.dfy` | what one operation, one fulfillment request, one placement does to the per-stock and per-line sums |
| `Lifecycle.dfy`, `Fulfilling.dfy` | the two invariants of the lifecycle, and what each kind of transaction does to them |
| `Granting.dfy` | exactly when a fulfillment request goes through, and when it enters the AllocationError handler |
| `Requests.dfy` | the fulfillment mutation: its checks, and the grouping of its input by warehouse |
| `Runs.dfy`, `Undo.dfy`, `Service.dfy` | whole runs of requests, steps that undo each other, and the same runs on the object |
| `Shortfalls.dfy` | runs from an opening shop that show where fulfilling falls short |
| `Payments.dfy`, `PaymentDesk.dfy`, `PaymentLaws.dfy`, `PaymentBooks.dfy` | the payment ledger: functions, the row worked on in place, its laws, and its bookkeeping |
| `PaymentHistory.dfy`, `PaymentAnswers.dfy` | the payment row told from its history; what gateways are asked, how answers are recorded, and answers reported again |
| `Pricing.dfy`, `Vouchers.dfy`, `Checkout.dfy` | gift cards, rounding and discounts; voucher uses; completing a checkout with its compensations |
| `Categories.dfy` | the nested-set rebuild of the category tree |

The main results, hardest first:

- `Runs.RunKeepsSafe`, carried to the object by `Service.HandleAll`: over every run of placing, fulfilling,
  cancelling a fulfillment and cancelling an order, with any input, no stock is over-allocated and fulfilled
  quantities are the sums over live fulfillments. `Runs.RunConserves` follows the same runs.
- `Runs.RunKeepsInv`: along a run every tracked line of an order that is not cancelled has promised plus fulfilled
  equal to ordered, and every status is current, if and only if no request ships a line of another order, more of
  a line than it lacks, or a cancelled order in part.
- `Granting.GrantedIff` and `Granting.EntersHandlerIff`: exactly which fulfillment requests go through, and exactly
  which enter the AllocationError handler of `decrease_stock`, whether they go through or fail, in terms of the state
  they start from. `Runs.ProperRun`: runs of requests on orders not cancelled, for their own lines, without negatives,
  never enter it and keep the orders in good order. `Runs.RunFallsBack` settles the requests that go through.
- `Placing.PlaceIff`, `Placing.CheckedOrderPlaces` and `Placing.AvailableExact`: exactly which orders can be
  placed, and how the availability check relates to that.
- `Undo.PlaceThenCancel`, `Undo.FulfillThenCancel`, `Undo.FulfillThenCancelExact` and `Undo.FulfillThenCancelRows`:
  round trips, and exactly when they are complete.
- `PaymentLaws.InterleavingSafe`, `PaymentLaws.EventsCoherent`, `PaymentBooks.MixedCoherent` and
  `PaymentLaws.RepetitionHarmless`: bounds and truthful status over every interleaving, and the harmlessness of
  delivering a notification twice; `PaymentBooks.BooksBalance`: captured money agrees with the processed
  transactions, for any gateway.
- `PaymentHistory.HistoryTells`: over every run, charge status, activity and pending confirmation are what the
  history of handled transactions says. `PaymentAnswers.EchoesHarmless`: answers delivered again count once.
- `Checkout.Desk.CompleteCheckout`: which checkouts are charged, what the answer decides, and what each outcome leaves.
- `Pricing.TotalAfterVoucher`: what a customer pays with each type of voucher. `Vouchers.OncePerCustomer` and
  `Vouchers.LimitKept`: how often a voucher is used, over every interleaving of checkouts.
- `Categories.NestedSetAgreement`: interval containment is parenthood.

Where the code falls short of what its names or documentation suggest, the model keeps the code, shows an
input, and states when the property does hold:

- Neither the fulfillment mutation nor `create_fulfillments` asks whether the lines belong to the order, or whether
  the order is open (`Fulfilling.FulfillExact`). A request on an open order can ship a line of another one, which
  keeps its status and can still be cancelled (`Shortfalls.ForeignLineShipped`); if that other order is cancelled,
  the request enters the AllocationError handler (`Runs.StepFallsBack`, `Shortfalls.ForeignLineFallsBack`);
  and a cancelled order can be opened again by shipping part of it (`Shortfalls.CanceledOrderReopened`).
- The mutation adds up negative quantities too, so that more can be shipped of a line than it lacks
  (`Requests.CheckBoundsShipping`, `Requests.OverAskNeedsNegative`, `Shortfalls.NegativeQuantityAccepted`).
- Such a request can also enter the AllocationError handler on an open order, and fail after that
  (`Granting.EntersHandlerIff`, `Shortfalls.FailedRequestFallsBack`).
- Units are released in key order, not from the stock they are shipped from, so that units promised on a stock can be
  refused there (`StockLaws.DecreaseIff`, `Granting.GrantedIff`, `Shortfalls.PromisedUnitsRefused`).
- The availability check sums distinct stock quantities (`Placing.AvailableExact`, `Placing.EqualStocksRefused`).
- The availability check looks at one line at a time: a checkout with two lines of a variant can be charged and then
  sold out with nobody interfering (`Checkout.ReadyPlaces`, `Checkout.SameVariantTwice`).
- `process_payment` and `confirm` trust the caller's view of `is_active`: a voided payment can be captured and then be
  neither refunded nor voided (`PaymentLaws.InactiveCharged`, `PaymentLaws.InactiveForGood`, `PaymentLaws.VoidedCharged`).
- `process_payment` does not look at the charge status (`PaymentLaws.ProcessExact`, `PaymentLaws.ProcessedTwice`).
- A reversed refund sets `is_active` on the object but does not save it (`PaymentLaws.RefundReversedExact`, `PaymentLaws.RefundReversedStuck`, `PaymentBooks.ReversalStuck`).
- A capture that fails after a partial refund is marked as processed without being taken back (`PaymentBooks.SettleBooks`, `PaymentBooks.FailureDropped`).
- A fully charged payment of zero cannot be given back (`PaymentLaws.RefundOrVoidEnds`, `PaymentLaws.ZeroPaymentKept`).
- A voucher refused to a customer still counts a use (`Vouchers.FailedReservationLeaks`, `Vouchers.RefusedUseCounted`),
  and giving a use back removes the customer's record whatever the voucher's kind (`Vouchers.GiveBackRestores`,
  `Vouchers.RecordLost`).
- A checkout that gift cards cover completely passes its checks, has no payment to process, and fails after reserving
  its voucher (`Checkout.NoPaymentExact`, `Checkout.GiftCardOnly`).
- `add_voucher_to_checkout` stores a discount that may exceed the checkout (`Pricing.AddedVoucherExact`, `Pricing.AddedVoucherExceeds`).

Assumptions. Amounts are whole minor units of one currency; the plugin chain leaves base prices alone. A gateway
is an arbitrary response. Primary keys are positions in their tables, issued in increasing order. A customer's
country stands for the set of warehouses that ship to it, which stays fixed during a call. Quantizing a price rounds to
a nearest minor unit; how ties are broken is left open.

## Model

| member | source | states |
|---|---|---|
| Sums.PourTotal | saleor/warehouse/management.py:48-70 | the greedy loop's sources give together exactly the request, or all they have when that is less |
| Sums.PourGreedy | saleor/warehouse/management.py:48-70 | once a source keeps something back, no later source is touched |
| Sums.PourUnique | saleor/warehouse/management.py:48-70 | any way of taking min(request, all) that never touches a source before the earlier ones are empty takes the same from each source |
| Store.PickStocks | saleor/warehouse/management.py:45-70 | the allocation loop gathers the request iff it is not negative and the stocks' free units cover it; the rows it builds are then the greedy ones |
| Store.PickAllocations | saleor/warehouse/management.py:88-102 | the deallocation loop gathers the request iff it is not negative and the line holds that much; the rows are then drained greedily in stock order |
| Store.Database.constructor | saleor/warehouse/models.py:89-132 | a new shop holds the given stocks and nothing else |
| Store.Database.Rollback | saleor/order/actions.py:321 | leaving an atomic block with an exception puts every table back |
| Store.Database.AllocateStock | saleor/warehouse/management.py:15-70 | in place: the allocation function's new rows, or its error (short stock, or a row that exists already) with the tables unchanged |
| Store.Database.DeallocateStock | saleor/warehouse/management.py:73-102 | in place: the drained rows, or AllocationError with the tables unchanged |
| Store.Database.IncreaseStock | saleor/warehouse/management.py:105-141 | in place: the warehouse's stock grows, or is created at the end, and on request the units are promised to the line |
| Store.Database.DecreaseStock | saleor/warehouse/management.py:144-178 | in place: release up to the quantity (everything when the line holds less), then take it out of the warehouse's stock; no stock or too few free units is InsufficientStock with everything as before |
| Store.Database.CreateOrder | saleor/checkout/complete_checkout.py:248-260 | in place: the order, its lines and the allocations of its tracked lines, or the first failure with nothing written |
| Store.Database.FulfillOrderLine | saleor/order/actions.py:231-236 | in place: tracked stock is decreased and the fulfilled quantity grows; a failure changes nothing |
| Store.Database.CreateFulfillmentLines | saleor/order/actions.py:272-318 | in place: asks of at most zero are skipped, the others fulfilled in order and recorded; the first failure is reported |
| Store.Database.CreateFulfillments | saleor/order/actions.py:321-376 | in place: one fulfillment per warehouse and the order's new status, or an error with all tables as before |
| Store.Database.UpdateOrderStatus | saleor/order/utils.py:153-167 | in place: the order's status becomes the one its quantities say |
| Store.Database.RestockFulfillmentLines | saleor/order/utils.py:289-301 | in place: every line's units go back into the warehouse, promised to the order line, and off its fulfilled quantity |
| Store.Database.CancelFulfillment | saleor/order/actions.py:172-194 | in place: restock, mark the fulfillment cancelled, set the order's status |
| Store.Database.CancelOrder | saleor/order/actions.py:74-91 | in place: all the order's allocations fall to zero and the order is cancelled |
| StockLaws.AllocateEffect | saleor/warehouse/management.py:15-70 | a successful allocation gives the line exactly the request, takes from each stock what the greedy order asks, and moves no other line |
| StockLaws.FreeAfter | saleor/warehouse/management.py:48-67 | each serving stock's free quantity falls by what it gives; other variants keep theirs |
| StockLaws.AllocateSafe | saleor/warehouse/management.py:51-65 | allocation over-allocates no stock |
| StockLaws.AllocateInOrder | saleor/warehouse/management.py:28-32 | a stock that keeps free units shields every stock with a higher primary key |
| StockLaws.ReleaseRows | saleor/warehouse/management.py:73-102 | row by row: each allocation loses its greedy share, or everything when the line holds less than asked |
| StockLaws.ReleaseEffect | saleor/warehouse/management.py:154-157 | the line's promised total falls to max(old - quantity, 0), no row grows, other lines keep theirs, and each stock is owed less by exactly what the line gave up on it |
| StockLaws.DecreaseEffect | saleor/warehouse/management.py:144-178 | success takes exactly the quantity from one stock, lowers the line's promised total to max(old - quantity, 0), leaves other lines alone and keeps stocks from being over-allocated |
| StockLaws.DecreaseSucceeds | saleor/warehouse/management.py:154-178 | it cannot fail when the line is promised units of the target stock only, enough of them, and that stock is not over-allocated |
| StockLaws.DeallocateIff | saleor/warehouse/management.py:73-102 | `deallocate_stock` succeeds iff the quantity is between zero and what the line is promised, and fails with AllocationError |
| StockLaws.IncreaseMeans | saleor/warehouse/management.py:105-141 | the units go to the warehouse's stock of the variant, created at the end when there is none, and are promised to the line on request only |
| StockLaws.DecreaseIff | saleor/warehouse/management.py:154-178 | it succeeds iff the warehouse has a stock of the variant whose unpromised units, with what the release in key order sets free on it, cover the quantity; the only failure is InsufficientStock |
| StockLaws.IncreaseEffect | saleor/warehouse/management.py:105-141 | the line is promised exactly the new units, other lines nothing, and no stock becomes over-allocated |
| Shipping.FulfillLineEffect | saleor/order/actions.py:231-236 | fulfilled grows and the promised total falls by the quantity, on this line alone |
| Shipping.FulfillLineConserves | saleor/order/actions.py:231-236 | shipping a tracked line moves units from shelf to customer: shelf plus shipped is unchanged |
| Shipping.RestockLineEffect | saleor/order/utils.py:295-300 | putting a line back lowers fulfilled and raises the promised total by its quantity, on this line alone |
| Shipping.RestockLineConserves | saleor/order/utils.py:295-300 | putting a line back keeps shelf plus shipped, also when the stock row has to be created |
| Shipping.FulfillAsksEffect | saleor/order/actions.py:298-318 | a warehouse's asks move every line by the sum of its positive asks, over any state |
| Shipping.ParcelEffect | saleor/order/actions.py:361-370 | ... and one live fulfillment records them, so fulfilled and live units grow together |
| Shipping.FulfillParcelsEffect | saleor/order/actions.py:359-372 | the same for a whole request over several warehouses, conserving every tracked variant |
| Shipping.FulfillParcelsAdds | saleor/order/actions.py:359-372 | the old fulfillments are a prefix of the new, followed by one live fulfillment of this order per warehouse with exactly its positive asks |
| Shipping.FulfillParcelsNew | saleor/order/actions.py:361-370 | a fulfillment after the request was there before or belongs to the request |
| Shipping.RestockEffect | saleor/order/utils.py:289-301 | putting a fulfillment back undoes its units on every line and conserves every tracked variant |
| Placing.AllocateLinesEffect | saleor/checkout/complete_checkout.py:256-260 | each tracked line ends promised exactly its quantity, the rest keep theirs, no stock is over-allocated |
| Placing.AllocateLinesRows | saleor/checkout/complete_checkout.py:256-260 | new allocation rows join new tracked lines to stocks of their own variant; rows of earlier lines stay |
| Placing.TotalFreeAfter | saleor/warehouse/management.py:48-67 | allocation lowers the variant's free total by the request and no other variant's |
| Placing.AllocateLinesIff | saleor/checkout/complete_checkout.py:256-260 | fresh lines are all allocated, one after the other, iff every tracked variant has as many free units as they want together; otherwise InsufficientStock |
| Placing.AllocateIff | saleor/warehouse/management.py:28-70 | `allocate_stock` runs short iff the request is negative or exceeds the unpromised units in the country's warehouses; otherwise it fails iff the line has a row already on a stock it would take from |
| Placing.PlaceIff | saleor/checkout/complete_checkout.py:248-260 | an order can be placed iff every tracked variant it names has as many free units in the zone as it wants; the only failure is InsufficientStock |
| Placing.PlaceInCountry | saleor/warehouse/models.py:64-81 | placement succeeds iff, per tracked variant, max(quantity - promised, 0) over its stocks in the country's warehouses covers the demand; every new allocation lies in such a warehouse, on the line's variant |
| Placing.AvailableBound | saleor/warehouse/availability.py:21-29 | the availability with SUM(DISTINCT quantity) never exceeds what allocation can place |
| Placing.CheckMeans | saleor/warehouse/availability.py:21-44 | the check passes iff the variant is untracked, or a warehouse of the country has a stock of it and the request is at most its different quantities there added up, less all that is promised there |
| Placing.CheckedOrderPlaces | saleor/warehouse/availability.py:32-44 | a checkout of pairwise distinct variants whose lines all pass the check can be placed from that state |
| Placing.AvailableExact | saleor/warehouse/availability.py:21-29 | without over-allocation, availability equals what can be placed iff nothing is free or no two serving stocks hold the same positive quantity |
| Placing.EqualStocksRefused | saleor/warehouse/availability.py:21-44 | two stocks of five: an order of ten is refused by the check although it can be placed |
| Lifecycle.OpeningDay | saleor/warehouse/models.py:98-100 | a shop with stocks and no orders satisfies both invariants |
| Lifecycle.PlaceEffect | saleor/checkout/complete_checkout.py:248-260 | placing promises the new tracked lines their quantities and leaves every earlier row and total alone |
| Lifecycle.PlaceKeepsSound | saleor/warehouse/models.py:131-132 | placing keeps keys unique and resolved, and each allocation on a tracked line and a stock of its variant |
| Lifecycle.PlaceKeepsCover | saleor/checkout/complete_checkout.py:256-260 | placing keeps promised plus fulfilled equal to ordered on every tracked line |
| Lifecycle.PlaceKeepsLive | saleor/checkout/complete_checkout.py:251-254 | placing keeps fulfilled quantities equal to the live fulfillments |
| Lifecycle.PlaceKeepsSafe | saleor/checkout/complete_checkout.py:229-284 | placing keeps keys sound, no stock over-allocated and fulfilled equal to live units |
| Lifecycle.PlaceKeepsStatus | saleor/checkout/complete_checkout.py:251-254 | placing keeps every open order's status current |
| Lifecycle.PlaceKeeps | saleor/checkout/complete_checkout.py:229-284 | placing keeps the orders in good order |
| Fulfilling.FulfillKeepsSound | saleor/order/actions.py:321-376 | an accepted request keeps keys sound, and names a line at most once per fulfillment |
| Fulfilling.FulfillKeepsSafe | saleor/order/actions.py:321-376 | an accepted request, whatever lines it names and however much it asks for, over-allocates no stock and keeps fulfilled equal to live units |
| Fulfilling.FulfillOwnedIff | saleor/order/actions.py:298-317 | afterwards fulfillments hold lines of their own orders iff no line of another order was asked for |
| Fulfilling.FulfilledLine | saleor/order/actions.py:231-236 | a request adds what it asks for to a line's fulfilled quantity, takes it off what the line is promised, and reopens its own order only |
| Lifecycle.NothingLive | saleor/order/models.py:285-288 | a line whose order has only cancelled fulfillments has no live units |
| Fulfilling.FulfillCoversLine | saleor/order/actions.py:359-374 | a line stays covered iff it was not asked for more than it lacks and, if tracked and of a cancelled order that is shipped, for all of it |
| Fulfilling.FulfillKeepsIdle | saleor/order/actions.py:110-117 | afterwards no cancelled order has a live fulfillment, and the shipped order is not cancelled |
| Fulfilling.FulfillKeepsStatus | saleor/order/actions.py:110-117 | a request that keeps to the rules leaves every status current |
| Fulfilling.FulfillExact | saleor/order/actions.py:321-376 | the missing guards, exactly: the orders stay in good order iff no line of another order is asked for, none for more than it lacks, and a cancelled order's tracked lines for all of it |
| Fulfilling.ForeignUnseen | saleor/order/actions.py:321-376 | whatever a request ships, every other order keeps its status and stays as cancellable as before |
| Fulfilling.ParcelsReleasedIff | saleor/warehouse/management.py:154-157 | from any state, a request that goes through never enters the AllocationError handler iff it ships no more of any tracked line than the line is promised |
| Fulfilling.FallbackExact | saleor/warehouse/management.py:154-157 | from orders in good order, a request that goes through stays clear of the handler iff it ships no tracked line of a cancelled order and none for more than it lacks; a request that asks for neither stays clear of it even when it fails |
| Granting.ReleaseAgain | saleor/warehouse/management.py:73-102 | releasing in several goes leaves the rows that releasing the sum at once would leave, and finds enough iff the sum was promised |
| Granting.DrawDecided | saleor/order/actions.py:298-307 | after any draws, the next goes through iff it fits and enters the handler iff it is overdrawn, as the starting state tells |
| Granting.GrantedIff | saleor/order/actions.py:321-376 | a request goes through iff for each draw of it the warehouse has a stock which, with that and the earlier draws taken out, still holds what it owes; otherwise it fails with InsufficientStock |
| Granting.NothingRequested | saleor/order/actions.py:110-117 | a request without parcels fails and changes nothing |
| Granting.EntersHandlerIff | saleor/warehouse/management.py:154-157 | a request, granted or not, enters the AllocationError handler iff with some draw it has asked for more of a tracked line than was promised, and all earlier draws go through |
| Lifecycle.CancelFulfillmentEffect | saleor/order/actions.py:172-194 | cancelling a fulfillment undoes exactly its units on every line and in the live sums, and conserves every tracked variant |
| Lifecycle.CancelFulfillmentKeepsSafe | saleor/order/actions.py:172-194 | cancelling an editable fulfillment, also one with foreign lines, over-allocates no stock and keeps fulfilled equal to live units |
| Lifecycle.CancelFulfillmentKeeps | saleor/order/models.py:473-474 | cancelling an editable fulfillment into any warehouse keeps the orders in good order |
| Lifecycle.CancelOrderEffect | saleor/warehouse/management.py:181-187 | exactly the rows of the order's lines fall to zero |
| Lifecycle.CancelOrderKeepsSafe | saleor/order/actions.py:74-91 | cancelling any order over-allocates no stock and keeps fulfilled equal to live units |
| Lifecycle.CancelOrderKeeps | saleor/order/actions.py:74-91 | cancelling an order that `can_cancel` admits keeps the orders in good order |
| Runs.StepKeepsSafe | saleor/order/actions.py:74-376 | every request, with any input, over-allocates no stock and keeps fulfilled equal to live units |
| Runs.RunKeepsSafe | saleor/order/actions.py:74-376 | so does every run of any requests over any orders, lines and warehouses |
| Runs.StepExact | saleor/order/actions.py:74-376 | a request keeps the orders in good order iff it does not ship a line of another order, more of a line than it lacks, or a cancelled order in part |
| Runs.RunKeepsInv | saleor/order/actions.py:74-376 | the orders are in good order at every point of a run iff none of its requests does that |
| Runs.StepFallsBack | saleor/warehouse/management.py:154-157 | in any state, an accepted request, granted or not, enters the AllocationError handler iff some draw of it asks for more of a tracked line than was promised and the draws in front of it go through; a granted one, iff it ships tracked units that were not promised |
| Runs.CleanStepFallsBack | saleor/warehouse/management.py:154-157 | of the requests that go through and keep the orders in good order, exactly those that complete a cancelled order enter the handler |
| Runs.RunFallsBack | saleor/warehouse/management.py:154-157 | the same for every request that goes through in every run that keeps the orders in good order |
| Runs.ProperStep | saleor/warehouse/management.py:154-157 | a request on an order that is not cancelled, for its own lines and without negative quantities, granted or refused, never enters the handler and keeps the orders in good order |
| Runs.ProperRun | saleor/warehouse/management.py:154-157 | so does every run of such requests and of any placements and cancellations |
| Runs.StepConserves | saleor/order/actions.py:231-236 | every request in any state keeps a tracked variant's shelf plus shipped units |
| Runs.RunConserves | saleor/warehouse/management.py:105-178 | so does every run of any requests from any state |
| Runs.CancellableUnshipped | saleor/order/models.py:285-288 | an order that can be cancelled has shipped nothing and is still promised all its tracked units |
| Runs.FulfilledBounds | saleor/order/models.py:264-266 | 0 <= fulfilled <= quantity on every line of a reachable state |
| Runs.SumsPerLine | saleor/order/models.py:264-276 | with that bound, the order's two sums are zero or equal iff each line is unfulfilled or complete |
| Runs.StatusPerLine | saleor/order/utils.py:153-163 | in a reachable state an open order with lines is FULFILLED iff every line is complete, UNFULFILLED iff none has a unit, PARTIALLY_FULFILLED iff neither; without lines it is UNFULFILLED |
| Undo.PlaceThenCancel | saleor/order/actions.py:74-91 | a fresh order can be cancelled, and then stocks, all allocations and every stock's promised units are as before it was placed |
| Undo.FulfillThenCancel | saleor/order/actions.py:172-194 | shipping one accepted parcel and cancelling it into the same warehouse restores stocks and lines, makes the order's status current, and leaves a tracked line promised what it was or what was shipped, whichever is more |
| Undo.FulfillThenCancelExact | saleor/order/actions.py:172-194 | from orders in good order, statuses and promised totals come back too iff the order was open and no tracked line was shipped beyond what it was promised |
| Undo.FulfillThenCancelRows | saleor/order/utils.py:289-301 | every allocation row of a line promised that warehouse's stock only comes back iff no more of it was shipped than promised |
| Undo.CancellableAgain | saleor/order/models.py:285-288 | an order with a live fulfillment cannot be cancelled; once that is cancelled, it can be iff it could before |
| Undo.CanceledOnce | saleor/order/models.py:285-288 | a cancelled order cannot be cancelled again |
| Service.Handle | saleor/order/actions.py:74-376 | one request on the database object is one step of the state machine |
| Service.HandleAll | saleor/order/actions.py:74-376 | any requests on the object are a run, so they keep the first invariant there, and the second unless one of them breaks it |
| Requests.CheckBoundsShipping | saleor/graphql/order/mutations/fulfillments.py:126-131 | passing the check bounds what is shipped iff no requested quantity is negative |
| Requests.CleanInput | saleor/graphql/order/mutations/fulfillments.py:194-231 | an input is accepted iff it passes the checks; the loops then group its positive quantities by warehouse in order of appearance |
| Requests.OverAskNeedsNegative | saleor/graphql/order/mutations/fulfillments.py:126-131 | an accepted input asks for more of a line than that lacks only by means of a negative quantity on it |
| Requests.GroupedAsked | saleor/graphql/order/mutations/fulfillments.py:217-226 | grouping neither loses nor invents units: of each line the parcels ask for its positive quantities |
| Requests.GroupedByWarehouse | saleor/graphql/order/mutations/fulfillments.py:217-226 | one parcel per warehouse in order of first appearance, holding exactly the positive quantities wished from it in input order |
| Requests.GroupedAccepted | saleor/graphql/order/mutations/fulfillments.py:195-231 | what the mutation passes on names existing lines, each once per warehouse, and is not empty; the order plays no part |
| Shortfalls.GoodShops | saleor/order/actions.py:74-91 | the two shops below come about from an opening shop by placing and cancelling, with their orders in good order |
| Shortfalls.ForeignLineShipped | saleor/graphql/order/mutations/fulfillments.py:233-247 | a request on one order ships a unit of another, which still says UNFULFILLED and can be cancelled |
| Shortfalls.ForeignLineFallsBack | saleor/graphql/order/mutations/fulfillments.py:233-247 | the same with the other order cancelled enters the AllocationError handler, although its own order is open |
| Shortfalls.CanceledOrderReopened | saleor/order/actions.py:321-376 | a unit of a cancelled order is shipped; the order is open again with a line neither promised nor received in full |
| Shortfalls.NegativeQuantityAccepted | saleor/graphql/order/mutations/fulfillments.py:126-131 | five and minus three pass for a line lacking two, `create_fulfillments` succeeds, and five units of two are fulfilled |
| Shortfalls.FailedRequestFallsBack | saleor/warehouse/management.py:154-175 | nine and minus seven for the open order's own line: the handler is entered, then the request fails and changes nothing |
| Shortfalls.PromisedUnitsRefused | saleor/warehouse/management.py:83-100 | an order of five holds two and three units; the three are asked for where they were promised, and refused |
| PaymentDesk.PaymentRow.constructor | saleor/payment/models.py:33-53 | a new payment is active, not charged, with nothing captured |
| PaymentDesk.PaymentRow.GatewayPostprocess | saleor/payment/utils.py:248-311 | in place: the stored row after one transaction is processed, branch by branch |
| PaymentDesk.PaymentRow.GetOrCreateTransaction | saleor/payment/utils.py:189-208 | in place: a response seen before finds its last matching transaction, any other adds one |
| PaymentDesk.PaymentRow.Exchange | saleor/payment/gateway.py:31-47 | in place: book the validated response, process it, report an unsuccessful one as an error |
| PaymentDesk.PaymentRow.Process | saleor/payment/gateway.py:70-101 | in place: refused on a stale inactive view, otherwise processed whatever the charge status |
| PaymentDesk.PaymentRow.DoAuthorize | saleor/payment/gateway.py:104-125 | in place: only for an active, not charged row |
| PaymentDesk.PaymentRow.DoCapture | saleor/payment/gateway.py:128-155 | in place: amount and status guards on the locked row, then the transaction is processed twice |
| PaymentDesk.PaymentRow.DoRefund | saleor/payment/gateway.py:158-182 | in place: amount, status and past-capture guards on the locked row |
| PaymentDesk.PaymentRow.DoVoid | saleor/payment/gateway.py:185-202 | in place: needs a past authorization |
| PaymentDesk.PaymentRow.DoConfirm | saleor/payment/gateway.py:205-231 | in place: no guard beyond the caller's view |
| PaymentDesk.PaymentRow.DoRefundOrVoid | saleor/payment/gateway.py:281-287 | in place: refund what can be refunded, else void what can be voided, else nothing |
| PaymentLaws.AppliedCoherent | saleor/payment/utils.py:265-307 | processing a positive amount keeps the status truthful iff it keeps 0 <= captured <= total |
| PaymentLaws.EventsCoherent | saleor/payment/utils.py:248-311 | a run of positive notifications within those bounds, CAPTURE_FAILED and REFUND_REVERSED included, keeps the status truthful |
| PaymentLaws.RepetitionHarmless | saleor/payment/utils.py:248-257 | any sequence with repetitions ends as its first occurrences alone do, `to_confirm` aside |
| PaymentLaws.RefundReversedExact | saleor/payment/utils.py:267-278 | a reversed refund leaves a gateway payment refundable iff it was still active: the flag is set but not saved |
| PaymentLaws.RefundReversedStuck | saleor/payment/utils.py:267-278 | a reversed full refund records the money again, and every later refund is refused |
| PaymentLaws.NotChargedNotReentered | saleor/payment/utils.py:298-307 | without CAPTURE_FAILED a payment never returns to NOT_CHARGED |
| PaymentLaws.SecondCaptureRefused | saleor/payment/models.py:159-169 | after a processed capture, and anything but CAPTURE_FAILED since, `capture` is refused and changes nothing |
| PaymentLaws.AdmittedRoom | saleor/payment/utils.py:211-218 | the guards on the locked row leave room for whatever a faithful answer moves |
| PaymentLaws.CallKeepsCoherent | saleor/payment/gateway.py:50-67 | one gateway operation with an arbitrary view of `is_active` keeps 0 <= captured <= total and the status truthful |
| PaymentLaws.InterleavingSafe | saleor/payment/gateway.py:70-231 | so does every interleaving of them, faithful gateways given; `process_payment` and `confirm` join while nothing is captured |
| PaymentLaws.ProcessExact | saleor/payment/gateway.py:70-101 | a capturing answer to `process_payment` keeps the ledger truthful iff nothing was captured before |
| PaymentLaws.ProcessedTwice | saleor/payment/gateway.py:70-101 | a fully charged payment stays active, and processing it again captures twice its total |
| PaymentLaws.CaptureCountsOnce | saleor/payment/gateway.py:128-132 | the doubly decorated `capture` adds its amount once, to one new processed transaction |
| PaymentLaws.RefundCountsOnce | saleor/payment/gateway.py:158-182 | a granted refund lowers the captured amount once; the payment stays active and refundable iff something is left |
| PaymentLaws.InactiveRefuses | saleor/payment/gateway.py:50-67 | on an inactive row authorizing, capturing and refunding change nothing, however stale the caller's view |
| PaymentLaws.InactiveCharged | saleor/payment/gateway.py:50-101 | on an inactive row the captured amount changes iff `process_payment` or `confirm` is called with an old view and answered by a capture not processed before |
| PaymentLaws.InactiveForGood | saleor/payment/gateway.py:281-287 | no call makes an inactive row active, so that giving back does nothing there |
| PaymentLaws.VoidedCharged | saleor/payment/gateway.py:70-101 | a payment is authorized and voided, then processed on an old view: ten captured, neither refundable nor voidable |
| PaymentLaws.ZeroPaymentKept | saleor/payment/gateway.py:274-287 | a charged payment of zero can be refunded and the refund is granted, yet refused |
| PaymentLaws.RefundOrVoidEnds | saleor/payment/gateway.py:281-287 | a refundable or voidable payment whose gateway grants it ends inactive with nothing captured iff there is something to refund or it is to be voided; otherwise it stays as it is |
| PaymentLaws.CallKeepsBacked | saleor/payment/gateway.py:265-271 | faithful gateways keep a capture transaction behind every recorded charge, so a refund finds its token |
| PaymentBooks.SettleBooks | saleor/payment/utils.py:248-311 | processing a transaction keeps captured equal to captures and reversals less refunds and failures, unless it is a failed capture on a payment in no charged status, which puts it out by its amount |
| PaymentBooks.CallBooks | saleor/payment/gateway.py:70-231 | no gateway operation puts these books out, whatever the gateway answers |
| PaymentBooks.BooksBalance | saleor/payment/utils.py:149-311 | over every run of operations and notifications with arbitrary gateways, captured agrees with the processed transactions iff no notice of a failed capture was dropped, and never falls behind them |
| PaymentBooks.FailureDropped | saleor/payment/utils.py:298-307 | a new payment of ten is charged, five are refunded, then the capture is reported to have failed: five stay recorded |
| PaymentBooks.ReversalStuck | saleor/payment/utils.py:267-278 | a new payment is charged, refunded and the refund reversed: ten captured on an inactive row, every refund refused |
| PaymentBooks.MixedCoherent | saleor/payment/utils.py:248-311 | operations and notifications in any order, faithful and within bounds, keep 0 <= captured <= total and the status truthful |
| PaymentHistory.AppliedTells | saleor/payment/utils.py:262-307 | per kind, the status, activity and confirmation flag a processed transaction leaves |
| PaymentHistory.HistoryTells | saleor/payment/utils.py:248-311 | over every run, with arbitrary gateways: the status is what the last transaction to set one says; the row stays active until a void or a full refund; `to_confirm` is set iff the last success handled required an action |
| PaymentHistory.PendingOrCancelled | saleor/payment/utils.py:292-297 | from a new payment, the status is pending iff the last transaction to set one is PENDING, cancelled iff it is CANCEL |
| PaymentHistory.MoneyUnmoved | saleor/payment/utils.py:265-307 | no kind but captures, reversals, refunds and failed captures moves captured money |
| PaymentHistory.CaptureFailedWhole | saleor/payment/utils.py:298-307 | a failed capture of everything leaves nothing captured and NOT_CHARGED |
| PaymentAnswers.AskedOfGateway | saleor/payment/gateway.py:70-231 | what each operation asks for: its kind, amount, and the token of the last successful authorization, capture or action it refers to |
| PaymentAnswers.AnswerRecorded | saleor/payment/utils.py:149-208 | a refused call changes nothing and is an error; any other adds exactly one transaction with the answer's fields, processed iff successful without action, and is an error iff that is unsuccessful |
| PaymentAnswers.KnownAnswer | saleor/payment/utils.py:197-200 | an answer reported before and on the books leaves the whole row as it was, whatever call it answers; one that requires an action asks for it again |
| PaymentAnswers.EchoesHarmless | saleor/payment/utils.py:189-208 | over every run, processed answers delivered again, any number of times, count as delivered once |
| PaymentAnswers.EchoEverAfter | saleor/payment/utils.py:135-146 | once processed, an answer is recognized at every later point of every run |
| PaymentAnswers.AuthorizationVoidable | saleor/payment/models.py:148-157 | a first authorization makes the payment voidable iff it requires no action |
| PaymentAnswers.GiveBackMeans | saleor/payment/gateway.py:281-287 | charged through a gateway: refund everything; authorized and not charged: void; otherwise nothing |
| PaymentAnswers.ManualStays | saleor/payment/models.py:174-184 | money recorded by hand is never refunded through a gateway |
| PaymentAnswers.DefaultAmounts | saleor/payment/gateway.py:137-165 | without an amount, `capture` takes all that is open and `refund` all that was captured |
| Pricing.AddGiftCardToOrder | saleor/order/utils.py:222-237 | the card gives what is left to pay or its balance, whichever is less; nothing when nothing is left |
| Pricing.DrawGiftCards | saleor/checkout/complete_checkout.py:262-264 | the loop takes from each card its greedy share of the price left |
| Pricing.GiftCardsConserve | saleor/checkout/complete_checkout.py:186-223 | what the cards lose plus the order's total is max(subtotal + shipping - discount, 0) |
| Pricing.CardsUsedInOrder | saleor/checkout/complete_checkout.py:262-264 | behind a card that keeps something no card is touched, so at most one is partly used |
| Pricing.FullyPaidMeaning | saleor/checkout/utils.py:491-507 | a checkout counts as fully paid iff its active payments plus what its cards will give cover its total |
| Pricing.UnitPricesBound | saleor/checkout/utils.py:213-235 | with any rounding to a nearest unit, the listed unit prices add up to the lines' totals within half a minor unit per item |
| Pricing.UnitPriceAtMost | saleor/checkout/utils.py:230-233 | a listed unit price is at most its line's total, so at most all of them |
| Pricing.ClampIdle | saleor/checkout/utils.py:280-304 | after recalculation 0 <= discount <= subtotal + shipping for every voucher type, so the zero clamp changes nothing |
| Pricing.VoucherLeaves | saleor/checkout/utils.py:238-260 | per type, what a voucher leaves of the price it looks at: subtotal, shipping price, least listed price or every listed price, after the discount function but never below zero |
| Pricing.TotalAfterVoucher | saleor/checkout/utils.py:280-304 | per type, what the customer pays once the discount has been recalculated |
| Pricing.AddedVoucherExact | saleor/checkout/utils.py:368-392 | the discount stored when a voucher is added stays within subtotal + shipping, whatever the discount function, iff the voucher is not per item or the listed unit prices sum to at most that |
| Pricing.AddedVoucherExceeds | saleor/checkout/utils.py:368-392 | three items for two minor units: a voucher that makes them free exceeds the checkout, so the clamp matters |
| Vouchers.GiveBackRestores | saleor/checkout/complete_checkout.py:320-325 | releasing a use restores the counter, and the customer records iff the voucher is once per customer or had no record of this one |
| Vouchers.ReserveMeans | saleor/discount/models.py:34-39 | which reservations succeed, what is counted and who is put on record |
| Vouchers.FailedReservationLeaks | saleor/checkout/complete_checkout.py:43-61 | a failed reservation counts a use iff the voucher was active, once per customer, and has a record of this customer |
| Vouchers.NextKeeps | saleor/discount/models.py:34-39 | one checkout starting, failing or finishing keeps uses held or made <= used <= limit |
| Vouchers.LimitKept | saleor/discount/utils.py:22-48 | so does every interleaving: used stays within 0 and the usage limit |
| Vouchers.OncePerCustomer | saleor/discount/utils.py:34-48 | over every interleaving, no customer uses a once-per-customer voucher twice, one after the other or at the same time |
| Vouchers.RefusedUseCounted | saleor/checkout/complete_checkout.py:59-61 | a voucher for two: its only customer comes back, is refused, and uses it up for others |
| Vouchers.RecordLost | saleor/checkout/complete_checkout.py:320-325 | a failed checkout while the voucher is for everybody removes the record of an earlier use |
| Checkout.NoPaymentExact | saleor/checkout/complete_checkout.py:287-296 | without an active payment the checkout fails on the missing payment iff its addresses and data are in order and its gift cards cover the total; it never reaches the charge |
| Checkout.StagesMean | saleor/checkout/complete_checkout.py:287-346 | which checkouts stop where: addresses, payments and cards covering the total, redirect, lines available, cards valid, voucher usable, a payment; and exactly when a stopped one loses a voucher use |
| Checkout.ChargeAnswered | saleor/checkout/complete_checkout.py:349-372 | a charge fails unless the answer is acceptable and successful, and is settled iff that requires no action |
| Checkout.NextCharge | saleor/checkout/complete_checkout.py:356-365 | the next charge confirms iff the last successful transaction of the payment required an action, and processes otherwise |
| Checkout.GiftCardOnly | saleor/checkout/checkout_cleaner.py:64-77 | a checkout of ten with a gift card of ten fails so, its voucher used once |
| Checkout.ChargeTruthful | saleor/checkout/complete_checkout.py:349-372 | a faithful charge of a truthful, uncaptured payment leaves a truthful row with a capture behind it, which can be given back |
| Checkout.UseGivenBack | saleor/checkout/complete_checkout.py:320-325 | giving back a reserved use restores the voucher iff it is once per customer or had no record of this one |
| Checkout.ReadyPlaces | saleor/checkout/complete_checkout.py:256-260 | without other customers, a checkout whose data are ready can be placed iff it can be allocated as a whole, which it can when its lines name distinct variants |
| Checkout.SameVariantTwice | saleor/checkout/models.py:170-188 | one unit, two lines of it: both available, the customer charged, then sold out |
| Checkout.Desk.constructor | saleor/checkout/complete_checkout.py:375-390 | a checkout whose token has no order yet |
| Checkout.Desk.Prepare | saleor/checkout/complete_checkout.py:287-346 | the checks in front of the charge in their order; an insufficient payment, or one without order data, is given back, and the voucher changes only with the order data |
| Checkout.Desk.TakePayment | saleor/checkout/complete_checkout.py:405-431 | charge, then place the order, or release the voucher and give the payment back |
| Checkout.Desk.PrepareOrderData | saleor/checkout/complete_checkout.py:176-226 | order data is ready iff all lines are available, the cards valid and the voucher reserved; the voucher changes only once it is reached |
| Checkout.Desk.ReleaseVoucherUsage | saleor/checkout/complete_checkout.py:320-325 | a reserved use is given back |
| Checkout.Desk.CreateOrder | saleor/checkout/complete_checkout.py:229-284 | an existing order is returned with no stock or card change; otherwise the placement and the greedy card draw, or nothing at all |
| Checkout.Desk.Charge | saleor/checkout/complete_checkout.py:349-372 | confirm a payment that awaits it, process it otherwise |
| Checkout.Desk.ReturnPayment | saleor/payment/gateway.py:281-287 | a truthful payment that can be given back ends inactive when the gateway grants it |
| Checkout.Desk.CompleteCheckout | saleor/checkout/complete_checkout.py:375-431 | it is charged iff addresses, redirect and data are fine, a payment exists and payments plus cards cover the total; per outcome, the whole new state: an uncovered checkout gets its payment back, a failed charge or allocation leaves stock, allocations, cards and voucher as before and gives the payment back, undisturbed it sells out after the charge only if it cannot be allocated as a whole, and success places the order and conserves the money |
| Categories.AttachChildren | scripts/planet-caravan/zoho-sync.py:646-654 | succeeds iff every named parent exists, and then each category holds exactly its children in table order |
| Categories.NumberChildren | scripts/planet-caravan/zoho-sync.py:664-669 | the j-th child gets the j-th pair of numbers after the root's left end |
| Categories.NumberTree | scripts/planet-caravan/zoho-sync.py:660-670 | the root's interval spans its children's |
| Categories.NumberTrees | scripts/planet-caravan/zoho-sync.py:656-671 | all trees end numbered: numbering one does not disturb another |
| Categories.RebuildHierarchy | scripts/planet-caravan/zoho-sync.py:646-671 | from clean rows every tree ends numbered; with a missing parent no number and no level changes |
| Categories.TreesApart | scripts/planet-caravan/zoho-sync.py:656-664 | no category belongs to two trees or twice to one |
| Categories.Position | scripts/planet-caravan/zoho-sync.py:656-671 | in a two-level forest every category stands at exactly the place its numbers say |
| Categories.NestedSetAgreement | scripts/planet-caravan/zoho-sync.py:646-671 | same tree and interval contained holds iff the categories are equal or parent and child |
| Categories.KidsInOrder | scripts/planet-caravan/zoho-sync.py:646-654 | children are listed in table order |
| Categories.TopsInOrder | scripts/planet-caravan/zoho-sync.py:656-659 | trees are numbered in the table order of their roots |
| Categories.ChildLevel | scripts/planet-caravan/zoho-sync.py:664-668 | children of a top category get the first level and its tree id |
| Categories.EndpointsOnce | scripts/planet-caravan/zoho-sync.py:659-671 | within a tree no endpoint is used twice and sibling intervals are disjoint |
| Categories.EndpointsCover | scripts/planet-caravan/zoho-sync.py:659-671 | the endpoints of a tree with k children are exactly 1 to 2(k + 1) |
| Categories.TreeIdsDistinct | scripts/planet-caravan/zoho-sync.py:658-671 | different trees have different tree ids |

## Left out

- Draft orders and their editing, `restock_order_lines`, and direct stock writes by the synchronisation scripts.
- `automatically_fulfill_digital_lines`, digital content and `FulfillmentLine.stock`; lines whose variant was deleted.
- Deleting rows: stocks, lines, orders and allocations stay, so keys never return to use.
- Locking internals: a transaction is one step, and what the code reads just before it (the order lines of a fulfillment request, the fulfillment's status) is taken to be current.
- Bulk writes: rows that the code collects and writes at the end of an atomic block are written one by one inside it; a fulfillment names a line at most once, so the result is the same.
- Global identifiers: a fulfillment input names lines and warehouses by key, and a key without a row is refused for lines; a warehouse without a row simply holds no stock.
- What makes a checkout's addresses, shipping method and redirect address valid: two booleans stand for these checks. Its tracking code.
- Taxes, sales, shipping methods, minimum-spend rules and other validations of vouchers; a voucher that does not apply is removed by code that is not part of this model.
- The `prices` library is not part of this model: a discount function is any function with values at most the price.
- Precision limits of decimals, and several currencies.
- Events, e-mails, webhooks, analytics, plugin callbacks, card details, error messages and metadata.
- `mark_order_as_paid`, and repeated calls of `complete_checkout` while a payment still requires action.
- The in-memory payment object between a capture and the next read of its row: only the stored row is modelled.
- `get_available_quantity_for_customer`, which groups availability by shipping zone for display.
- Category trees deeper than two levels, which the rebuild's own documentation excludes, and writing the numbers to the database.
- PaymentLaws.RepetitionHarmless: says nothing of `to_confirm`, because a repeated action-required transaction sets it again in the code.
- Vouchers.LimitKept: counts a refused reservation as a use for good, as the code does, so `used` may exceed the number of orders with the voucher.
- Categories.NumberTree: leaves the root's `level` alone, as the code does.
