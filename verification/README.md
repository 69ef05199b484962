# Fulfilment verification

A Dafny model of an order fulfilment service and proofs of what it promises: no overselling,
exactly-once settlement, no release of stock that was paid for, at most one charge per request key,
and jobs that commit with the order.

`dafny verify dfyconfig.toml` checks the whole project.

## How it is built

**Transactions.** `Books` holds the stock balances and the append-only movement ledger, `Tables` the
orders, items, payments and jobs around them. `ReserveTx` and `SettleTx` are the two transactions,
as functions that commit new tables or refuse; `BooksLaws` and `TablesLaws` prove that each keeps
`Consistent`: balances equal the replayed ledger, `reserved` is the sum of outstanding reservations,
available + outstanding + sold is the opening stock, nothing goes negative, every order's lines have
the movements its status calls for at its own warehouse, and jobs exist exactly for confirmed orders.

`TransactionEffects` tells both row by row: when a reservation stands, whom a refusal names, and what
each transaction leaves in orders, payments and stock.

**The same work in place.** `Database` has the tables as fields. `InventoryService`,
`AllocateInventory`, `OrderSettlement`, `CreateOrder` and `Jobs` update them statement by statement, loops
included, and are proved to do what the transactions say. That an order has each product once
is required where the schema's unique constraint on `order_items` gives it.

**The protocol.** `Protocol` is a step system: any number of sagas, reaper and reconciliation tasks
and provider requests, with crashes between any two steps, jobs that select as early as their query
lets them, a clock that may step back and a provider that may forget its charges. `Consistency`
proves of every run that the tables stay consistent and that no settlement that gets its locks is
refused, and `Guarantees` that each order settles at most once and for good and that jobs follow
confirmation.

What is promised about charges needs more: each selection must be safe, and the provider must not
forget. Selecting an order is safe if its charge is declined or can no longer land whenever its saga
may still overwrite the payment row, and, for the reaper, if a charge is recorded or none can land any
more. `ProviderTruth` proves the invariant one order at a time, and `Guarantees` that orders then tell
the truth. `Selection` proves that this is exactly the condition: a safe selection breaks no promise
however things go on, and an unsafe one leads to a broken promise. Runs reach both kinds of unsafe
selection, since the queries go by the clock and not by the saga's phase. `Timing` derives safety from
one bound: sagas are through with charging within the two-minute grace period of their reservation,
where a charge itself takes at most 6600 ms.
`Selection` also says exactly which paid orders a restart of the provider puts at risk.

`Provenance` says of every run where rows come from and what they keep: an order is what its request
asked for, a payment is for its order's total, reconciliation finds a payment exactly as long as its
outcome is open, and a saga answers what its charge came to.

**Row locks.** `Locking` takes the transactions apart: locks are taken one by one, each row is read
as it is locked, writes are computed from those reads alone and appear at commit. `Locality` and
`Serializability` prove that every interleaving equals the serial run in commit order, and that it
cannot deadlock. `LockedProtocol` runs the sagas and jobs of the protocol over these locks and carries
the guarantees down to such runs.

**Requests.** `Fingerprint`, `CreateOrderIdempotent`, `Requests` and `RequestLaws` put the
Idempotency-Key table in front of the protocol and prove one order, one charge and one answer per key,
of every run and with any key comparison.

**Around it.** `CircuitBreaker`, `PaymentGateway` (with the retry loop) and `ChargeService` (the mock
provider) are proved on their own and tied to the protocol: a gateway over a truthful store answers
only what the protocol allows. `GeocodingCache`, `OrdersPage`, `Cursors`, `Redaction` and `Luhn`
cover the remaining algorithms. Overlapping asynchronous calls are cut at each await, and the pieces
of different calls interleave freely.

## Where the code and its documentation differ

- A new attempt with an expired idempotency key is answered 500: the insert is blocked by the
  expired row, which the lookup then counts as absent. The comment at
  `src/application/orders/create-order-idempotent.service.ts:136` speaks of using that row. The model
  follows the code: `RequestLaws.LookupAnswers` shows that this happens exactly when the row has
  expired, and `RequestLaws.RetryAfterExpiryIsRefused` gives a run.
- A provider that forgets its charges in a restart lets a paid order be cancelled, as the repository
  admits. `Selection.ForgettingCancelsIff` shows that this can happen exactly to orders still pending.
- `src/infrastructure/http/redaction.ts:2` says that no secret may reach a log line. An Error's own
  fields are copied without looking at their keys, so one named `apiKey` does
  (`Redaction.SecretsAreHidden`, `Redaction.ErrorShowsItsSecret`).
- `orderToPersistence` stamps `created_at` on every save, although its comment leaves the column to
  the database. Settlement therefore moves an order to the top of the listing. `OrdersPage.WalkListsIff`
  and `OrdersPage.ListedIffWantedOnce` say exactly which orders a walk then lists,
  `OrdersPage.SettledBetweenPagesIsMissed` gives a walk that misses one, and `OrdersPage.NoOrderTwice`
  shows that none is listed twice.
- That field order never changes the fingerprint, as the comment at
  `src/application/orders/idempotency.repository.ts:46` says, holds exactly when `localeCompare` ties
  no two distinct names (`Fingerprint.FaithfulIffNamesNeverTie`). It ties canonically equivalent
  strings, so a retry that reorders such keys is refused with 422. No other result turns on it.
- The ledger check in `verify-ledger.sql` compares balances with the latest stored snapshot. The model
  proves that agreement and, beyond it, agreement with a replay of the movements from opening stock.

## Model

| member | source | states |
|---|---|---|
| `Guarantees.OrdersTellTheTruth` | src/application/jobs/reservation-reaper.handler.ts:93-140 | Over every run of sagas, jobs and provider whose jobs select safely and whose provider forgets nothing: a confirmed order stays charged with its payment row CAPTURED; a failed or cancelled order is not charged in any later state; a client told "confirmed" or "declined" was told the truth for good |
| `Guarantees.PaidStockIsNeverReleased` | src/application/jobs/reservation-reaper.handler.ts:112-140 | Under the same assumption: if the provider ever approves an order's charge, no state of the run, earlier or later, holds a RELEASE of that order's stock |
| `Guarantees.ApprovedForever` | payments-mock/src/charge.service.ts:183-201 | In every run without a provider restart an approved charge stays approved |
| `Guarantees.SettledForever` | src/application/orders/order-settlement.service.ts:136-197 | In every run, with jobs however early and provider restarts: once an order is settled, its row and its ledger entries are the same in every later state, whoever tries to settle it again |
| `Guarantees.SettledAtMostOnce` | src/application/orders/order-settlement.service.ts:146-197 | At most one step of any run settles a given order |
| `Guarantees.JobsFollowConfirmation` | src/infrastructure/messaging/pg-boss-event-publisher.ts:33-62 | In every state of every run each routed queue holds one job for a confirmed order and none for any other |
| `Guarantees.AlwaysConsistent` | src/application/allocation/inventory.service.ts:62-204 | Every state of every run is consistent, whatever the jobs select and the provider forgets: replay, conservation, outstanding reservations, line histories matching statuses, jobs |
| `Consistency.RunIsConsistent` | src/application/orders/order-settlement.service.ts:146-197 | In every state of every run the tables are consistent and each saga and job still has the order and payment row its next transaction needs |
| `Consistency.StepConsistent` | src/application/orders/order-settlement.service.ts:136-197 | No settlement that gets its locks is refused, and no transaction of any actor breaks the tables |
| `Provenance.SettledIffFinal` | src/application/orders/create-order.use-case.ts:267-279 | In every state of every run a payment row has a settlement time exactly if it is captured, declined or failed, and none exactly if it is pending or unknown |
| `Provenance.ReconciledIffOpen` | src/application/jobs/payment-reconciliation.handler.ts:67-83 | So in every such state reconciliation may pick up an order exactly if its payment is pending or unknown and older than two minutes |
| `Provenance.ReapedIffOver` | src/application/jobs/reservation-reaper.handler.ts:77-91 | In every state of every run the reaper may pick up an order exactly if it is pending and its reservation time is over |
| `Provenance.OrderIsAsAsked` | src/application/orders/create-order.use-case.ts:134-223 | In every state of every run an order has the customer, total and lines of the request that started its saga, at one of that request's candidates, and expires fifteen minutes after its reservation |
| `Provenance.TermsAreKept` | src/infrastructure/database/mappers/order.mapper.ts:43-72 | No step changes an order's customer, total, warehouse, expiry or lines, or its payment's amount or age |
| `Provenance.PaymentIsForTheOrder` | src/application/orders/create-order.use-case.ts:238-257 | Every payment is for its order's total and as old as the first save of Phase 2 |
| `Provenance.AttemptMeans` | src/application/allocation/allocate-inventory.use-case.ts:38-90 | An attempt of the failover reserves exactly if its candidate has enough of every line and the locks come in time; otherwise nothing changes, the next candidate is up, and the products it could not serve join those of earlier attempts |
| `Provenance.SagasBlameTheirCart` | src/application/allocation/allocate-inventory.use-case.ts:60-66 | A saga blames only products of its own cart, in every state of every run |
| `Provenance.AtMostThreePosts` | src/infrastructure/http/retry.ts:6-6 | No order's charge is sent more than three times in a run |
| `Provenance.ChargeDecidesTheAnswer` | src/application/orders/create-order.use-case.ts:284-316 | Once its charge returned, a saga that ends without a crash answers by it: confirmed if captured, declined if declined, otherwise provider unavailable |
| `Provenance.TasksSaw` | src/application/jobs/reservation-reaper.handler.ts:93-140 | A job's task is for an order it selected, saw a payment row exactly if there was one at that moment, and its answer was asked for since |
| `Selection.SafeIffNothingBreaks` | src/application/jobs/reservation-reaper.handler.ts:73-91 | After safe selections so far, one more selection can lead to a broken promise (an ended order charged, or a confirmed one without its captured payment row) if and only if it is not safe, by the kind of job, the saga's phase, the requests under way and the record |
| `Selection.SelectingTooEarlyIsUnsafe` | src/application/jobs/reservation-reaper.handler.ts:112-140 | At every state of every run: should the reaper select an expired order that has no recorded charge and can still be charged, some continuation, safe in all else, ends with the order cancelled and charged |
| `Selection.ReconcilingTooEarlyIsUnsafe` | src/application/orders/create-order.use-case.ts:264-276 | At every state of every run: should reconciliation select a pending order whose saga is still charging and whose charge is or may yet be approved, some continuation ends with the order confirmed over a payment row that says UNKNOWN, by the unconditional second save |
| `Selection.ReaperCanComeTooEarly` | src/application/jobs/reservation-reaper.handler.ts:81-89 | A run reaches such a selection by the reaper: one order reserved, its saga stalled past the reservation time |
| `Selection.ReconciliationCanComeTooEarly` | src/application/jobs/payment-reconciliation.handler.ts:67-83 | A run reaches such a selection by reconciliation: the charge lands, its answer does not come within the grace period |
| `Selection.ForgettingCancelsIff` | README.md:318 | After a run with safe selections and no restart so far, a restart of the provider lets a paid order end cancelled if and only if the order is still pending at that moment, expired or not |
| `Selection.CanEndCancelledIff` | src/application/jobs/reservation-reaper.handler.ts:93-140 | In any state of any run, an order with no charge on record can end cancelled if and only if it is pending or cancelled already |
| `Selection.PaidOrderCanBeForgotten` | README.md:318 | A run with safe selections alone comes to such a paid pending order, and a restart there lets it be cancelled |
| `Selection.ForgettingIsUnsafe` | src/application/jobs/reservation-reaper.handler.ts:112-140 | At every state of every run, if that order has also expired, one selection by the reaper after the restart is enough to cancel it |
| `Timing.PromptRunsAreTimely` | src/application/jobs/payment-reconciliation.handler.ts:17-17 | If every saga is through with charging, and its requests have landed or been lost, within the grace period of its reservation, and the clock does not step back, then whatever a job may select is quiescent and every selection is safe |
| `Timing.StepKeepsTimes` | src/application/orders/create-order.use-case.ts:238-279 | Reservations lie in the past and payment rows are younger than their order's reservation, after any step but one of the clock backwards |
| `ProviderTruth.RunInv` | src/application/orders/create-order.use-case.ts:225-315 | Where jobs select safely and the provider forgets nothing, every reachable state satisfies the per-order invariant tying status, payment row, saga phase, requests under way and provider record |
| `ProviderTruth.StepKeepsInv` | src/application/jobs/payment-reconciliation.handler.ts:85-114 | Each step of any actor, an unsafe selection or a provider restart apart, keeps that invariant |
| `ProviderTruth.StepMoves` | src/application/orders/create-order.use-case.ts:225-315 | Any step acts on any one order by one of the allowed moves; on all others it is invisible |
| `ProviderTruth.MoveKeepsTask` | src/application/jobs/reservation-reaper.handler.ts:77-81 | What a job learnt about an order without holding its lock stays true until it acts |
| `TablesLaws.ReserveTxConsistent` | src/application/allocation/inventory.service.ts:29-95 | A reservation succeeds exactly when the id is new, the rows could be locked and every line can be served; then the tables stay consistent; its only refusals are a taken id and missing stock, so no CHECK ever fires |
| `TablesLaws.SettleTxConsistent` | src/application/orders/order-settlement.service.ts:136-197 | Once it has its locks, settling never aborts; it wins exactly on a pending order, reaches the action's status, keeps the tables consistent and leaves every other order alone; a loser changes nothing |
| `TablesLaws.EachLineMovesOnce` | src/application/allocation/inventory.service.ts:102-204 | In a legal ledger an order line is opened at most once and closed at most once, at the same warehouse |
| `TablesLaws.ReserveLinesSound` | src/application/allocation/inventory.service.ts:62-85 | Reserving servable, distinct, fresh lines breaks no CHECK, keeps the books sound and gives each line exactly its RESERVE |
| `TablesLaws.CloseLinesSound` | src/application/allocation/inventory.service.ts:117-204 | Releasing or committing an order's held lines breaks no CHECK, keeps the books sound and closes every line for the amount its RESERVE took |
| `TablesLaws.FanoutCounts` | src/infrastructure/messaging/pg-boss-event-publisher.ts:59-61 | Publishing adds one job per listed queue for the order and none for another |
| `TransactionEffects.ReservationStandsIff` | src/application/allocation/inventory.service.ts:47-60 | A reservation stands if and only if its id is new, its locks came in time, and every line's row is there with available >= quantity |
| `TransactionEffects.RefusalNames` | src/application/allocation/inventory.service.ts:33-60 | A taken id is an error of its own; a lock timeout names every product; a refusal for stock names exactly the products of lines whose row is missing or has available < quantity |
| `TransactionEffects.UnmetIs` | src/application/allocation/inventory.service.ts:49-56 | The unmet products are those of exactly such lines, in line order, one for each |
| `TransactionEffects.ReservationWrites` | src/application/allocation/inventory.service.ts:62-94 | What a reservation leaves: the order as asked, pending, expiring in fifteen minutes, its lines, each quantity moved from available to reserved, and no other row touched |
| `TransactionEffects.SettlementWrites` | src/application/orders/order-settlement.service.ts:64-197 | What settling a pending order leaves, row by row: status, stamps and reason; an open payment row taking the answer; each quantity out of reserved, back to available unless sold; the closing movements; jobs for a confirmation alone |
| `BooksLaws.TallyCoversHeld` | src/application/allocation/inventory.service.ts:126-141 | A held line is covered by the outstanding reservations of its row, so giving it back cannot make `reserved` negative |
| `BooksLaws.PostReserveKeepsBalance` | src/infrastructure/database/sql/verify-ledger.sql:19-38 | A reservation keeps balance, replay, outstanding total, conservation and the stored snapshot in agreement |
| `BooksLaws.PostCloseKeepsBalance` | src/infrastructure/database/sql/verify-ledger.sql:19-38 | A release or commit keeps them in agreement too, although a commit's own delta is 0 |
| `BooksLaws.ReserveLineSound` | src/infrastructure/database/migrations/1789596059697-InitialSchema.ts:122-123 | A servable fresh line posts without a CHECK violation and keeps the books sound |
| `BooksLaws.CloseLineSound` | src/infrastructure/database/migrations/1789596059697-InitialSchema.ts:122-123 | Closing a line at its warehouse posts without a CHECK violation and keeps the books sound |
| `InventoryService.LockInventoryRows` | src/application/allocation/helpers/inventory.helpers.ts:36-53 | Returns the rows that exist, as they stand under the lock |
| `InventoryService.UpdateInventoryBalances` | src/application/allocation/helpers/inventory.helpers.ts:56-71 | Writes both balances of an existing row, or is refused by the CHECK constraints |
| `InventoryService.InsertMovement` | src/application/allocation/helpers/inventory.helpers.ts:74-92 | Appends one movement |
| `InventoryService.FindUnmet` | src/application/allocation/inventory.service.ts:49-56 | The products the locked rows cannot serve, in line order |
| `InventoryService.UnmetNamesLacking` | src/application/allocation/inventory.service.ts:49-56 | Told by the locked rows: exactly the products of lines whose row is missing or has available < quantity |
| `InventoryService.Reserve` | src/application/allocation/inventory.service.ts:29-95 | For any lines, distinct or not: the refusals by lock timeout and by stock, and otherwise books computed from rows read once, and the order's warehouse and expiry |
| `InventoryService.ReadOnceIffDistinct` | src/infrastructure/http/dto/create-order.dto.ts:69-82 | Reading the rows once equals reserving line after line exactly for carts without a repeated product |
| `InventoryService.ReadOnceIsSequential` | src/application/allocation/inventory.service.ts:62-85 | For distinct products the two agree on every outcome, errors included |
| `InventoryService.Release` | src/application/allocation/inventory.service.ts:102-153 | A lock timeout throws and changes nothing; otherwise gives back each held line for the amount in the ledger and skips lines not held, as the release transaction says |
| `InventoryService.Commit` | src/application/allocation/inventory.service.ts:159-204 | A lock timeout throws and changes nothing; otherwise ends each held line's reservation and leaves the available balance alone, as the commit transaction says |
| `AllocateInventory.Attempt` | src/application/allocation/allocate-inventory.use-case.ts:51-66 | One candidate's transaction: order, items and reservation commit together or the tables are as before |
| `AllocateInventory.Execute` | src/application/allocation/allocate-inventory.use-case.ts:38-90 | With other actors writing between attempts: success leaves the reservation at the first candidate that could hold it with every earlier attempt refused and traceless; a lost race leaves the others' tables and names exactly the union of unmet products; no candidate names all products |
| `AllocateInventory.TrySucceedsIff` | src/application/allocation/allocate-inventory.use-case.ts:51-59 | On consistent tables a candidate holds the reservation if and only if the id is new, its locks come in time and every line's row has available >= quantity; it is refused if and only if it fails with a new id |
| `AllocateInventory.NamedIff` | src/application/allocation/allocate-inventory.use-case.ts:60-66 | A refused candidate names exactly the products of lines it could not serve, all of them on a lock timeout; so a lost race names their union |
| `OrderSettlement.Publish` | src/infrastructure/messaging/pg-boss-event-publisher.ts:33-62 | One job per routed queue through the caller's transaction; an unrouted event is an error and sends none |
| `OrderSettlement.UpdatePayment` | src/application/orders/order-settlement.service.ts:161-184 | A pending or unknown payment row takes the provider's answer; a resolved one is left alone |
| `OrderSettlement.Settle` | src/application/orders/order-settlement.service.ts:136-197 | The tables afterwards are those of the settlement transaction, or those before it where anything throws, a lock timeout on the stock rows of a pending order included |
| `OrderSettlement.ConfirmCaptured` | src/application/orders/order-settlement.service.ts:64-95 | Commits the stock, confirms the order and publishes, or changes nothing |
| `OrderSettlement.FailDeclined` | src/application/orders/order-settlement.service.ts:98-112 | Releases the stock and fails the order, or changes nothing |
| `OrderSettlement.CancelUnpaid` | src/application/orders/order-settlement.service.ts:115-129 | Releases the stock and cancels the order with its reason, or changes nothing |
| `CreateOrder.SaveInitialPayment` | src/application/orders/create-order.use-case.ts:238-257 | The payment row exists, pending, before anything is sent |
| `CreateOrder.SaveChargeResult` | src/application/orders/create-order.use-case.ts:267-279 | The payment row is overwritten whatever it holds by then; settled only for a definitive outcome |
| `CreateOrder.ChargeOrder` | src/application/orders/create-order.use-case.ts:225-279 | Phase 2: the pending row is there when the charge is sent, and the gateway's reading is written over whatever others made of the tables meanwhile |
| `CreateOrder.SettleOrder` | src/application/orders/create-order.use-case.ts:286-315 | Phase 3: captured confirms, declined fails, or a throw leaves every table as it was; unknown leaves every table alone |
| `CreateOrder.SettlementIsAStep` | src/application/orders/create-order.use-case.ts:286-315 | In the order protocol Phase 3 is the saga's settlement step, or, when the locks come too late, its crash |
| `CreateOrder.PhaseThreeMeans` | src/application/orders/create-order.use-case.ts:291-307 | Phase 3 of a pending order, row by row: captured sells the stock and confirms, declined gives it back and fails, a lock timeout throws |
| `CreateOrder.SavesMean` | src/application/orders/create-order.use-case.ts:238-276 | The first save leaves a pending, unsettled row for the order's total; the second takes the outcome, is settled exactly if captured or declined, and keeps amount and creation time |
| `Orders.StatusPaths` | src/domain/entities/order-status.transitions.ts:7-35 | No chain of transitions leaves a terminal status, and CONFIRMED is reached from PENDING_PAYMENT only through PAID |
| `Orders.EdgesAre` | src/domain/entities/order-status.transitions.ts:7-20 | The table's edges and no other |
| `Orders.Order.constructor` | src/infrastructure/database/mappers/order.mapper.ts:16-41 | Loading a row and writing it back changes `created_at` alone |
| `Orders.Order.MarkPaid` | src/domain/entities/order.ts:90-93 | Moves to PAID if the table allows it, else fails and changes nothing |
| `Orders.Order.MarkPaymentFailed` | src/domain/entities/order.ts:96-99 | Moves to PAYMENT_FAILED if the table allows it, else fails and changes nothing |
| `Orders.Order.Confirm` | src/domain/entities/order.ts:102-106 | Moves to CONFIRMED and stamps it if the table allows it, else fails and changes nothing |
| `Orders.Order.Cancel` | src/domain/entities/order.ts:109-114 | Moves to CANCELLED with stamp and reason if the table allows it, else fails and changes nothing |
| `Jobs.ResolveReservation` | src/application/jobs/reservation-reaper.handler.ts:93-140 | No payment row cancels; captured confirms; declined fails; never charged cancels; unknown is left alone; a settlement whose locks come too late throws and changes nothing |
| `Jobs.ResolvePaymentRow` | src/application/jobs/payment-reconciliation.handler.ts:85-114 | Only captured and declined settle, or throw on a lock timeout and change nothing; failed and unknown are left for the reaper |
| `Jobs.ReconciliationMeans` | src/application/jobs/payment-reconciliation.handler.ts:85-114 | What reconciliation makes of a pending order, row by row: captured confirms and sells, declined fails and releases, any other answer or a lock timeout changes nothing |
| `Jobs.ReapingMeans` | src/application/jobs/reservation-reaper.handler.ts:93-140 | What the reaper makes of one: captured confirms, declined fails, no payment row or a charge never made cancels with its reason and releases, anything else or a lock timeout changes nothing |
| `Jobs.Handle` | src/application/jobs/reservation-reaper.handler.ts:47-66 | A batch settles its rows one after another, each on what the ones before left, and goes on past a row that throws |
| `Jobs.BacklogIsReapable` | src/application/jobs/reservation-reaper.handler.ts:81-89 | The backlog is exactly what the protocol lets the reaper select |
| `Jobs.ResolutionIsAStep` | src/application/jobs/reservation-reaper.handler.ts:93-140 | In the order protocol resolving a row is the task's settlement step, or, when it is left alone or its locks come too late, the task's end |
| `Jobs.BatchTakes` | src/application/jobs/reservation-reaper.handler.ts:47-66 | A batch takes off the backlog exactly the orders never charged or finally answered whose locks came in time, whatever the mix |
| `Jobs.RunShrinksBacklogIff` | src/application/jobs/reservation-reaper.handler.ts:73-91 | A run takes min(n, 50) orders off a backlog of n if and only if every charge it asked about has a final answer and no lock timed out |
| `Jobs.SeriesDrains` | src/application/jobs/reservation-reaper.handler.ts:47-91 | ceil(n / 50) such runs leave none, if nothing new expires |
| `Jobs.UnknownHeadIsSelectedAgain` | src/application/jobs/reservation-reaper.handler.ts:81-89 | If the 50 oldest expired orders all stay unknown, they can be the next selection too, whatever expires meanwhile |
| `Jobs.UnknownHeadIsTheSelection` | src/application/jobs/reservation-reaper.handler.ts:81-89 | If every other order expired by then expired later, any later run selects those 50 again, whatever has expired since: the rest wait as long as they stay unknown |
| `Locality.CommitIsAtomic` | src/application/orders/order-settlement.service.ts:146-197 | A transaction that locked what it plans to and computed from those rows alone commits exactly what it would have done alone on the tables of that moment |
| `Serializability.StepKeepsLocked` | src/application/allocation/helpers/inventory.helpers.ts:43-50 | Whatever interleaves, a value read under a lock still equals the row, and a commit has the atomic transaction's effect |
| `Serializability.RunsAreSerial` | src/application/orders/order-settlement.service.ts:146-197 | Any interleaving of any number of reservations, settlements and payment writes leaves the tables as some serial order, the commit order, does |
| `Serializability.PlanAscends` | src/application/allocation/helpers/inventory.helpers.ts:43-50 | Every transaction takes the order row, then its payment row, then stock rows by ascending product |
| `Serializability.WaitsClimb` | src/application/allocation/helpers/inventory.helpers.ts:43-50 | A transaction waits only for one whose next lock, if any, ranks strictly higher |
| `Serializability.NoWaitCycle` | src/application/allocation/helpers/inventory.helpers.ts:43-50 | The wait-for graph never has a cycle |
| `Serializability.NeverStuck` | src/application/orders/order-settlement.service.ts:151-156 | While any transaction is under way, one can take its next lock or commit |
| `Serializability.InterleavingsStayConsistent` | src/application/allocation/inventory.service.ts:62-204 | Every committed state of every interleaving is consistent |
| `LockedProtocol.Projection` | src/application/orders/order-settlement.service.ts:146-197 | Every run of sagas and jobs over row locks, transactions interleaved lock by lock and each on its own clock, passes through the states of some run of the protocol, in order; safe selections stay safe |
| `LockedProtocol.LockedRunsAreConsistent` | src/infrastructure/messaging/pg-boss-event-publisher.ts:33-62 | So every state of such a run is consistent, with one job per queue for confirmed orders alone |
| `LockedProtocol.LockedSettledForever` | src/application/orders/order-settlement.service.ts:146-197 | So does a settled order keep its row and ledger entries, whoever locks it afterwards |
| `LockedProtocol.LockedSettledAtMostOnce` | src/application/orders/order-settlement.service.ts:146-197 | And at most one commit settles an order |
| `LockedProtocol.LockedOrdersTellTheTruth` | src/application/jobs/reservation-reaper.handler.ts:93-140 | And where jobs select safely and the provider forgets nothing, confirmed orders are charged and ended ones are not, then and later |
| `LockedProtocol.LockedNoWaitCycle` | src/application/allocation/helpers/inventory.helpers.ts:43-50 | In no state of such a run do transactions wait for one another in a cycle |
| `LockedProtocol.LockedNeverStuck` | src/application/orders/order-settlement.service.ts:151-156 | In every state of such a run, while a transaction is under way, one can take its next lock or has all of them and can commit for the saga or job it was begun for |
| `Fingerprint.FaithfulIffNamesNeverTie` | src/application/orders/idempotency.repository.ts:31-53 | Fingerprints identify bodies up to object key order exactly when the key comparison ties no two distinct keys, array indices aside, which an object lists first by number whatever the sort did |
| `Fingerprint.SameFormMeansSimilar` | src/application/orders/idempotency.repository.ts:50-53 | Whatever the comparison, even one that ties or is no order: bodies with one fingerprint are equal up to key order at every depth |
| `Fingerprint.SimilarMeansSameForm` | src/application/orders/idempotency.repository.ts:31-45 | Where no two names tie, bodies equal up to key order at every depth have one fingerprint |
| `Fingerprint.TieShows` | src/application/orders/idempotency.repository.ts:36-38 | A tie is visible: two orders of two tied names give two fingerprints |
| `CreateOrderIdempotent.KeyTable.InsertInProgress` | src/application/orders/idempotency.repository.ts:65-80 | Inserts the row exactly when the key has none |
| `CreateOrderIdempotent.KeyTable.FindActiveByKey` | src/application/orders/idempotency.repository.ts:86-108 | The key's row unless it has expired |
| `CreateOrderIdempotent.KeyTable.MarkRowCompleted` | src/application/orders/idempotency.repository.ts:118-133 | Stores the answer in the row with that id and in no other |
| `CreateOrderIdempotent.BeginIdempotentRequest` | src/application/orders/create-order-idempotent.service.ts:121-161 | New exactly when the insert succeeded; otherwise replay, 409, 422 or 500 from the row that was in the way |
| `CreateOrderIdempotent.RunAndRecord` | src/application/orders/create-order-idempotent.service.ts:167-231 | The answer sent, success or error, is the answer stored |
| `CreateOrderIdempotent.AnswerIsTheSagas` | src/application/orders/create-order-idempotent.service.ts:183-231 | The answer stored is the one the model of all requests gives for the saga's result: 201, 402, 502 or 409 |
| `CreateOrderIdempotent.Execute` | src/application/orders/create-order-idempotent.service.ts:79-101 | The saga runs exactly for the request whose insert found no row, and its row then holds the very answer sent: 201 with the order, or the problem thrown; a bad header is 400 and touches nothing |
| `RequestLaws.OneOrderAndChargePerKey` | src/application/orders/create-order-idempotent.service.ts:79-231 | Over every interleaving of requests, with any comparison, early jobs and provider restarts: each order and each provider charge belongs to a key, and a key has at most one of each |
| `RequestLaws.OneAnswerPerKey` | src/application/orders/create-order-idempotent.service.ts:121-161 | Over every such run any two requests with one key that get an answer get the same status and body, and only for a body equal to the first up to key order |
| `RequestLaws.KeyLivesADay` | src/application/orders/idempotency.repository.ts:67-80 | In every state of every run a key row is there by one insert of its key, and expires 24 hours after it |
| `RequestLaws.LookupAnswers` | src/application/orders/create-order-idempotent.service.ts:121-161 | In every run, whoever lost the insert is answered 500 if and only if the row in the way has expired, else 422 for another fingerprint, 409 for a row in progress and the stored answer for a completed one; the row is always there |
| `RequestLaws.RetryAfterExpiryIsRefused` | src/application/orders/create-order-idempotent.service.ts:134-139 | A run in which the same body on the same key gets 500 a day after its answer was stored, with the answer still in the row |
| `RequestLaws.ReplayedIffSimilar` | src/application/orders/create-order-idempotent.service.ts:121-161 | A request that finds its key completed and unexpired is replayed the stored answer exactly when its fingerprint is the first one's, and else gets 422; where no two names tie that is exactly when the bodies are equal up to key order |
| `RequestLaws.CompletedForever` | src/application/orders/idempotency.repository.ts:118-133 | In every run a completed key row never changes |
| `RequestLaws.CreatedMeansConfirmed` | src/application/orders/create-order-idempotent.service.ts:183-196 | Where jobs select safely and the provider forgets nothing, a client told 201, at first hand or by replay, has an order that is confirmed and charged in every later state |
| `RequestLaws.AnswersAreTrue` | src/application/orders/create-order-idempotent.service.ts:167-231 | Under the same assumption every answer of a saga, at first hand or by replay, is about its key's own order and stays true: 201 confirmed and charged, 402 failed and not charged, 409 nothing ordered, reserved or charged, 502 an order that exists |
| `RequestLaws.RunSysInv` | src/application/orders/create-order-idempotent.service.ts:79-231 | Where jobs select safely and the provider forgets nothing, the protocol's own invariant holds behind the key table too |
| `RequestLaws.RunFrontInv` | src/application/orders/create-order-idempotent.service.ts:79-231 | The key table, the requests and the sagas they started agree in every reachable state |
| `CircuitBreaker.CircuitBreaker.Start` | src/infrastructure/http/circuit-breaker.ts:58-81 | Whether a call is rejected, runs as a probe or runs, and the fields it leaves |
| `CircuitBreaker.CircuitBreaker.OnSuccess` | src/infrastructure/http/circuit-breaker.ts:103-111 | A success clears the counter and closes a half-open breaker |
| `CircuitBreaker.CircuitBreaker.OnFailure` | src/infrastructure/http/circuit-breaker.ts:113-124 | A failure reopens a half-open breaker or counts towards opening |
| `CircuitBreaker.AtMostOneProbe` | src/infrastructure/http/circuit-breaker.ts:65-78 | Over any interleaving of starts, outcomes and releases at most one probe is in flight, even when a late call from the closed era moves the state |
| `CircuitBreaker.NothingBeginsTooSoon` | src/infrastructure/http/circuit-breaker.ts:94-101 | After any opening, no operation begins before openMs have passed |
| `CircuitBreaker.ClosedCounter` | src/infrastructure/http/circuit-breaker.ts:103-124 | While closed, the counter is the failures since the last success, and below the threshold |
| `CircuitBreaker.NeverLockedOut` | src/infrastructure/http/circuit-breaker.ts:58-101 | Once the window is over and no probe is out, the next call gets through |
| `CircuitBreaker.FewFailuresKeepItClosed` | src/infrastructure/http/circuit-breaker.ts:113-124 | A breaker that never saw as many failures without a success between them as the threshold is closed |
| `CircuitBreaker.FailureOpensIff` | src/infrastructure/http/circuit-breaker.ts:119-123 | In a closed breaker a failure opens it exactly if with it the failures since the last success reach the threshold |
| `CircuitBreaker.HalfOpenIsDecided` | src/infrastructure/http/circuit-breaker.ts:103-118 | Half-open, a success closes the breaker and clears it, a failure opens it for a full window |
| `CircuitBreaker.BreakerAlways` | src/infrastructure/http/circuit-breaker.ts:58-124 | The probe flag, the window and the counter are right in every reachable state |
| `PaymentGateway.Execute` | src/infrastructure/http/circuit-breaker.ts:58-92 | One attempt through the breaker: its outcome, and the fields it leaves, whatever other callers did meanwhile |
| `PaymentGateway.RunAttempts` | src/infrastructure/http/retry.ts:29-59 | At most maxAttempts attempts, all but the last transient, the last outcome surfaced as it is; the time it takes to the millisecond, at most max * timeout + base * (2^(max-1) - 1) ms; with no attempt allowed, an error |
| `PaymentGateway.SpellIs` | src/infrastructure/http/retry.ts:6-7 | With the default delay a charge takes its attempts' own times and, between them, a random part of 200 and then of 400 ms; a rejected attempt takes none |
| `PaymentGateway.WaitsDouble` | src/infrastructure/http/retry.ts:61-65 | The longest wait is the base after the first attempt and doubles from one to the next |
| `PaymentGateway.RejectionIsLast` | src/infrastructure/http/retry.ts:1-5 | A rejection by the breaker ends the loop at once |
| `PaymentGateway.LongestSpellIs` | src/infrastructure/http/retry.ts:62-65 | The waits and attempts together stay within the closed bound |
| `PaymentGateway.Charge` | src/infrastructure/payments/http-payment-gateway.ts:67-84 | Always resolves, with the reading of the last attempt alone |
| `PaymentGateway.GetStatus` | src/infrastructure/payments/http-payment-gateway.ts:86-95 | The same around the status query |
| `PaymentGateway.ChargeVerdicts` | src/infrastructure/payments/http-payment-gateway.ts:175-212 | A charge is CAPTURED exactly on 200, DECLINED exactly on 402, otherwise UNKNOWN and never FAILED; each failure code's exact cause |
| `PaymentGateway.StatusVerdicts` | src/infrastructure/payments/http-payment-gateway.ts:218-261 | A status query yields FAILED exactly on 404, CAPTURED and DECLINED exactly on a recognised 200 |
| `PaymentGateway.AdmittedIff` | src/infrastructure/http/circuit-breaker.ts:58-101 | An attempt gets through exactly unless the breaker is open for less than its window or a probe is out |
| `PaymentGateway.ChargeReads` | src/infrastructure/payments/http-payment-gateway.ts:67-84 | charge() is CAPTURED exactly if the last attempt got through to a 200 and DECLINED exactly if to a 402, else UNKNOWN |
| `PaymentGateway.StatusReads` | src/infrastructure/payments/http-payment-gateway.ts:86-95 | getStatus() is FAILED exactly if the last attempt got through to a 404, CAPTURED or DECLINED exactly if to a 200 that names it, else UNKNOWN |
| `PaymentGateway.AttemptCounts` | src/infrastructure/payments/http-payment-gateway.ts:146-154 | An attempt counts as a breaker failure exactly if it got through and its fetch threw or answered 500 or above; any other that got through clears the counter, a rejected one counts for nothing, and a probe never leaves its flag behind |
| `PaymentGateway.RetriedIff` | src/infrastructure/http/retry.ts:42-56 | The loop goes on after an attempt exactly if it was not the last allowed and got through to a timeout, a network failure or a 5xx |
| `PaymentGateway.ChargeFitsGrace` | src/infrastructure/payments/http-payment-gateway.ts:14-15 | With the defaults the bound is 6600 ms, under the two minutes reconciliation waits |
| `PaymentGateway.PostTellsTheTruth` | payments-mock/src/server.ts:60-76 | A POST the provider answered reads as a status its records back, at any later moment |
| `PaymentGateway.ReadingTells` | payments-mock/src/server.ts:78-94 | A GET reads as FAILED exactly for a key never stored, and as CAPTURED or DECLINED exactly by the stored verdict |
| `PaymentGateway.ChargeKeepsToTheProtocol` | src/infrastructure/payments/http-payment-gateway.ts:67-84 | Retry, breaker, adapter and provider together: the attempt the loop ends on is one alone, and its reading is one the order protocol allows on the provider's records, then and ever after; nothing is asked of attempts the loop does not come to or the breaker rejects |
| `PaymentGateway.StatusKeepsToTheProtocol` | src/infrastructure/payments/http-payment-gateway.ts:86-95 | Likewise getStatus(), each attempt read at a moment of its own: a final answer of the last one is right then and ever after, and FAILED was right when it was read |
| `ChargeService.ChargeService.Process` | payments-mock/src/charge.service.ts:112-160 | The synchronous part of a charge: replay, reuse, provider fault, decline, or a delay begun |
| `ChargeService.ChargeService.ProcessCard0004` | payments-mock/src/charge.service.ts:167-181 | Card 0004: recorded on arrival, answered after the delay |
| `ChargeService.ChargeService.Charge` | payments-mock/src/charge.service.ts:75-110 | A call joins the one in flight for its key or starts processing |
| `ChargeService.ChargeService.Resume` | payments-mock/src/charge.service.ts:147-160 | After the delay: the approval is stored, or card 0004's record checked against the body |
| `ChargeService.ChargeService.Release` | payments-mock/src/charge.service.ts:104-109 | The finally block forgets the call in flight |
| `ChargeService.ChargeService.Wake` | payments-mock/src/charge.service.ts:93-101 | A waiter gets the shared result, or is told the key was reused |
| `ChargeService.ChargeService.GetByIdempotencyKey` | payments-mock/src/charge.service.ts:70-73 | Answers from the stored records alone |
| `ChargeService.RecordsNeverChange` | payments-mock/src/charge.service.ts:183-201 | Over any interleaving a stored record never changes or goes away |
| `ChargeService.OneRecordPerKey` | payments-mock/src/charge.service.ts:183-201 | At most one record is ever made for a key |
| `ChargeService.OneInFlight` | payments-mock/src/charge.service.ts:91-109 | A key has at most one charge in flight |
| `ChargeService.ChargedMeansStored` | payments-mock/src/charge.service.ts:112-181 | Every `charged` answer is the stored record, then and ever after, made for the caller's own card, amount, currency and description |
| `ChargeService.ReusedMeansAnotherBody` | payments-mock/src/charge.service.ts:96-98 | A `reused` answer means another body really came with the key |
| `ChargeService.WaitersCanWake` | payments-mock/src/charge.service.ts:93-101 | A waiter is never stranded: what it waits for has its value or a timer to fire |
| `ChargeService.CardDecides` | payments-mock/src/charge.service.ts:112-181 | Over any interleaving 402 answers card 0002 alone, 500 card 0003 alone, 200 neither of them, and 422 only a key that came with another body |
| `ChargeService.StepIsALanding` | payments-mock/src/charge.service.ts:75-201 | To the order protocol each step is nothing or one charge landing on a key that had none |
| `ChargeService.PostTellsTheVerdict` | payments-mock/src/server.ts:60-76 | A 200 or 402 names the stored verdict for good |
| `GeocodingCache.CachingGeocodingProvider.Geocode` | src/infrastructure/geocoding/caching-geocoding.provider.ts:31-42 | A hit touches its entry, a miss asks and stores, a failure stores nothing |
| `GeocodingCache.CacheIsTheMostRecent` | src/infrastructure/geocoding/caching-geocoding.provider.ts:45-59 | After any non-overlapping calls the cache holds exactly the last maxEntries distinct answered keys, in order of last use |
| `GeocodingCache.AnswersAsTheMemo` | src/infrastructure/geocoding/caching-geocoding.provider.ts:31-42 | Its answers are those of a memo that never evicts |
| `GeocodingCache.OverlapIsSafe` | src/infrastructure/geocoding/caching-geocoding.provider.ts:31-59 | With overlapping calls the size bound holds, keys stay distinct, and every answer is the geocoder's own |
| `OrdersPage.BuildQuery` | src/infrastructure/database/repositories/orders-read.repository.ts:82-111 | The conditions and numbered parameters pushed hold of exactly the rows the filters and cursor want; the last parameter is the page size plus one |
| `OrdersPage.ListingIs` | src/infrastructure/database/repositories/orders-read.repository.ts:113-120 | The listing has exactly the wanted rows, strictly descending by timestamp and id |
| `OrdersPage.ListingMeans` | src/infrastructure/database/repositories/orders-read.repository.ts:82-120 | Told by the columns: newest first, ties by the higher id, and exactly the rows every given filter and the cursor ask for, bounds included |
| `OrdersPage.PageCounts` | src/application/orders/list-orders.service.ts:66-70 | A page is the first pageSize rows of the listing, and more follow exactly if there are more |
| `OrdersPage.Execute` | src/application/orders/list-orders.service.ts:47-100 | The page, whether more follow, the cursor of the last row kept, and each order with all its own items |
| `OrdersPage.GroupItems` | src/application/orders/list-orders.service.ts:72-81 | Every order's items, complete and in the query's order |
| `OrdersPage.ItemsAre` | src/application/orders/list-orders.service.ts:72-81 | An order's items are all of them, in the order of the query |
| `OrdersPage.FetchIsGood` | src/application/orders/list-orders.service.ts:66-91 | A page is the wanted rows nearest the top, and its cursor lies above exactly those left |
| `OrdersPage.WalkDescends` | src/infrastructure/database/repositories/orders-read.repository.ts:77-81 | Whatever is written between pages, the walk lists wanted rows in strictly descending order |
| `OrdersPage.WalkCovers` | src/infrastructure/database/repositories/orders-read.repository.ts:77-120 | Every wanted row that stays as it is while the walk lasts is listed, for any page size, ties and inserts |
| `OrdersPage.NoOrderTwice` | src/infrastructure/database/mappers/order.mapper.ts:62-68 | If writes only move timestamps forward, no order is listed twice, not even one saved again between pages |
| `OrdersPage.WalkListsIff` | src/infrastructure/database/mappers/order.mapper.ts:62-68 | With rows saved again between pages, an order wanted throughout is listed if and only if it starts below the starting cursor and, whenever a page leaves it for later, is still below that page's cursor at the next |
| `OrdersPage.ListedIffWantedOnce` | src/infrastructure/database/mappers/order.mapper.ts:62-68 | The same for orders the filters want at times only, as when a settlement changes the status they ask for: listed if and only if the first page that does not leave the order for later wants it as it then is |
| `OrdersPage.SettledBetweenPagesIsMissed` | src/infrastructure/database/mappers/order.mapper.ts:66-66 | Two orders, pages of one, the older settled after the first page: the completed walk does not list it |
| `OrdersPage.MovedUpIsMissed` | src/infrastructure/database/mappers/order.mapper.ts:66-66 | An order at or above the cursor from some page on is not listed by the pages after it |
| `OrdersPage.QuietWalk` | src/application/orders/list-orders.service.ts:47-100 | With no writes the walk ends after ceil(rows / pageSize) pages, one for none, and lists exactly the listing |
| `OrdersPage.CursorsDescend` | src/application/orders/list-orders.service.ts:83-91 | Each cursor lies strictly below the one before |
| `Cursors.RoundTripIff` | src/application/orders/helpers/cursor.helpers.ts:20-39 | A cursor comes back as it went exactly when neither part holds the separator and the first is a date |
| `Cursors.DecodesExactly` | src/application/orders/helpers/cursor.helpers.ts:24-39 | Decoding accepts exactly the texts of one separator behind a date, and loses nothing of them |
| `Redaction.Redact` | src/infrastructure/http/redaction.ts:25-27 | Ends on every finite graph, cyclic or not; leaves everything in the heap as it was; the copy mirrors the original object for object |
| `Redaction.Redactor.RedactValue` | src/infrastructure/http/redaction.ts:29-49 | Strings by the text rule, seen objects by their clone, Dates by a copy of their own, other objects by a finished new clone; terminates by the objects not yet seen |
| `Redaction.Redactor.RedactArray` | src/infrastructure/http/redaction.ts:74-84 | Clones an array, remembering the clone before its first item |
| `Redaction.Redactor.RedactObject` | src/infrastructure/http/redaction.ts:86-102 | Clones a plain object, hiding the fields whose keys say so |
| `Redaction.Redactor.RedactError` | src/infrastructure/http/redaction.ts:58-72 | Clones an Error as its name, message and stack overlaid with its own fields, to which no key rule applies |
| `Redaction.SharingIsKept` | src/infrastructure/http/redaction.ts:36-38 | Two places hold the same object exactly when the copy's two places do, Dates aside, and no clone is an original |
| `Redaction.PathsAgree` | src/infrastructure/http/redaction.ts:29-102 | Read along any path, around cycles as often as one likes, the copy shows the image of what the original shows there and nothing where it has nothing |
| `Redaction.PlacesShow` | src/infrastructure/http/redaction.ts:29-102 | At the end of any such path a string shows the text rule's image, any other primitive itself, a Date an equal Date of its own, and an array, object or Error a new object of its length or keys |
| `Redaction.SecretsAreHidden` | src/infrastructure/http/redaction.ts:58-102 | At the end of any such path, a field its key hides shows the mask and no more if and only if its holder is no Error or the text rule by itself comes to the mask |
| `Redaction.FieldsShow` | src/infrastructure/http/redaction.ts:86-102 | At the end of any such path, in a plain object, whatever the case of the key's letters: apiKey and api_key show [REDACTED]; a text under cardNumber, card_number or pan shows as many characters as it has digits, its last four digits and '*' for the rest; every other field shows its value's image |
| `Redaction.ErrorShows` | src/infrastructure/http/redaction.ts:58-72 | The copy of an Error shows its name, its message and stack by the text rule, and its own fields' images over them |
| `Redaction.ErrorShowsItsSecret` | src/infrastructure/http/redaction.ts:69-71 | An Error with a field apiKey whose copy shows it as it was |
| `Luhn.IsLuhnValid` | src/infrastructure/http/redaction.ts:137-152 | The right-to-left loop computes the check of ISO/IEC 7812-1, Annex B |
| `Luhn.WeightShows` | src/infrastructure/http/redaction.ts:141-149 | Counted from the right, every second digit adds the digits of its double, any other itself |
| `Luhn.ReplaceDigit` | src/infrastructure/http/redaction.ts:137-152 | Replacing a digit changes the sum by the difference of the two weights; as zeros add up to nothing, that fixes the sum of every number |
| `Luhn.SingleErrorIsCaught` | src/infrastructure/http/redaction.ts:137-152 | One digit misread makes a valid number invalid |
| `Luhn.SwapIsCaughtIff` | src/infrastructure/http/redaction.ts:137-152 | Swapping neighbours leaves a valid number valid exactly when they are equal or are 0 and 9 |
| `Luhn.MaskShowsLastFour` | src/infrastructure/http/redaction.ts:131-135 | Masking keeps the length and shows the last four digits only |
| `Luhn.CardValueShows` | src/infrastructure/http/redaction.ts:121-135 | A card value, separators or not, shows as many characters as it has digits, the last four digits and '*' for the rest; without digits it stays |

## Left out

- SHA-256 and JSON printing: fingerprints are the canonical bodies themselves, so hashing counts as injective.
- `localeCompare`: any relation between strings. One order, one charge and one answer per key need nothing of it; only the replay of a body with reordered keys needs that it ties no two names (`RequestLaws.ReplayedIffSimilar`).
- Ids: UUIDs, order numbers and charge keys are natural numbers. A charge key is a function of the order, since `attempt` is always 1, and payments are indexed by order for the same reason.
- Deletion of expired idempotency keys and failing writes in `markCompleted`: the repository states both as limitations.
- Foreign-key share locks and `SKIP LOCKED`. When a lock times out is not modelled, only that it may: a timed-out reservation is a refusal in the protocol, a timed-out settlement a crash of its saga or the end of its task, and at lock level either is an abort.
- A reservation's insert of its order row: the lock on that new row is taken first in the model, as the insert does.
- The candidate query and its distances (`select-warehouse.sql`, PostGIS): candidates are any list.
- Customers, products, prices, money, addresses and coordinates: a cart carries its total.
- What a job logs of a row that throws. What makes it throw is modelled: with consistent tables a settlement fails on a lock timeout alone (`TablesLaws.SettleTxConsistent`, `OrderSettlement.Settle`), and the batch goes on (`Jobs.Handle`).
- pg-boss, cron, queue retries and dead-lettering: the queue is a multiset written by the caller's transaction.
- `fetch`, sockets and timers: an attempt ends in any outcome, within its timeout.
- Restarts of the mock provider inside `ChargeService`: the protocol has them as a step, excluded only where promises about charges are made.
- The separator in the mock's request hash: fields are kept apart, so a separator inside a currency or description cannot confuse two bodies.
- Regular expressions over free text in `redactString`: any function from text to text; nothing is claimed about which card numbers it finds. Property order, and assignment to `__proto__`, in the copy.
- `GET /orders/:id`, health, logging, tracing, configuration, controllers and error mapping: plumbing.
- Calls of the cache that overlap: only the bound, distinct keys and answers are proved, since the order of use then depends on when the geocoder returns.
