# E-commerce back end: outbox, projections, checkout and their companions

This project models the parts of the shop's back end in which several parties share state, and
proves what they keep under every interleaving.

- **Transactional outbox** (`OutboxTable` … `OutboxRelay`, `OutboxHeartbeat`): relays claim rows under leases, renew
  them, run handlers through the event bus with a per-handler log, publish, back off or dead-letter;
  operators replay and purge. Each SQL statement is one atomic step of `OutboxProtocol`.
- **Projections** (`ProjectionWriter`, `ProjectionStore`, `OrderHistory`, `OrdersService`,
  `CatalogProjection`, `Rebuild`): version-checked writes, compare-and-set readers, rebuild loops.
- **Checkout** (`Money`, `OrderAggregate`, `CheckoutModel`, `CheckoutConservation`, `CheckoutQuote`,
  `CheckoutOnce`, `CheckoutServices`, `DomainEvents`): one serializable transaction inside a bounded
  retry, with the key lookup and the cart read outside it.
- **Container** (`DependencyGraph`, `Container`), **refresh tokens** (`RefreshTokens`,
  `TokenService`), **idempotency claim** (`Idempotency`, `IdempotencyMiddleware`), **cancellation
  saga** (`CancellationSaga`, `SagaExecutor`) and **cart** (`CartReplay`, `Cart`). `Wrappers`, `Numbers`
  and `Sums` are shared helpers.

A protocol is a state, a datatype of actions and a total function `Apply`; a run is any sequence of
actions, and a disabled action changes nothing, so statements over all sequences are statements over
all interleavings. Code that changes state step by step is a class whose methods are proved against
those functions. At each await such a method lets the rest of the system take any actions (`env`)
and takes an arbitrary answer (`oracle`); its `Valid()` says that everything done so far is a run of
the protocol, so the results about runs are results about the programs.

`dafny verify dfyconfig.toml` checks the whole project.

## What the proofs found

- `updateOrderStatus` of the projection store runs an update and, when no row matched, looks the row
  up; it treats a found row as "already newer". If the update runs before the row exists and the
  placed event creates the row in between, the handler reports success and the status is lost.
  `OrderHistory.StatusUpdateCanBeLost` is such a run, and `ConvergesIffNewestFoundTheRow` says exactly
  when the projection does converge.
- A relay whose lease runs out between a handler's success and its log entry lets the handler succeed
  again elsewhere (`OutboxDelivery.ExpiredLeaseRepeatsHandler`), and a claim that expires under a running
  handler admits a second one (`Idempotency.ExpiryLetsTwoRun`). The positive results state the
  condition that excludes each.
- `stopHeartbeat` does not cancel a renewal in flight. When its reply arrives during the next poll it
  can drop a row from the new active set that was claimed afresh, so the loop skips a row that the relay
  holds (`OutboxRelay.LateReplySkipsAHeldRow`); the row waits for its lease to run out.
  `OutboxRelay.OutboxRelay.PollOnce` shows that this is the only way.
- The refresh grace period never lets a superseded token through
  (`RefreshTokens.GraceOnlySparesTheFamily`): such a token is already revoked, so the rotation is
  refused and only the revocation of the whole family is skipped.
- A cart row with quantity zero can be quoted but not ordered, and a free product can be quoted in a
  quantity that an order cannot merge; `CheckoutQuote.QuotedTotalIsAccepted` and `MergeSucceedsExactly`
  carry these conditions.

## Model

| member | source | states |
|---|---|---|
| `OutboxSafety.LeaseFencesRetryCount` | src/core/outbox/outbox-relay.ts:161-181 | In every run of any number of relays, whenever an update would be accepted the attempt count captured at claim equals the stored one, so the failure update adds exactly one attempt, dead-letters exactly at the limit and otherwise backs off |
| `OutboxSafety.RowsStayWellFormed` | src/core/outbox/prisma-outbox-relay.store.ts:17-61 | Over every run: pending rows have attempts below the limit, a row is dead-lettered exactly when they reach it, never both published and dead-lettered, and settled rows carry no lock |
| `OutboxSafety.NoEventIsLost` | src/core/outbox/prisma-outbox-maintenance.store.ts:105-125 | Every event ever inserted is still stored or was published, and a published event had every handler subscribed to its name complete for it at least once, by execution history rather than by the log |
| `OutboxSafety.StepKeepsPublished` | src/core/outbox/prisma-outbox-relay.store.ts:45-61 | A published row is not changed by any step; it only disappears in a clean-up whose cutoff it precedes |
| `OutboxSafety.PublishedIsFinal` | src/core/outbox/prisma-outbox-maintenance.store.ts:50-125 | Publication is final over whole runs: no relay, replay or clean-up changes the row or brings a purged event back |
| `OutboxSafety.OthersRely` | src/core/outbox/prisma-outbox-relay.store.ts:45-82 | No step of anyone else changes the attempt count of a row that carries a relay's lock, or hands the row to that relay |
| `Numbers.BackoffDoubles` | src/core/outbox/outbox-relay.ts:167-174 | Each retry delay is twice the one before until the cap; the saga's back-off is the same function |
| `OutboxDrain.SettlingSpends` | src/core/outbox/outbox-relay.ts:152-181 | Each accepted update strictly decreases the sum of remaining attempts over pending rows |
| `OutboxDrain.SettlementsAreBounded` | src/core/outbox/outbox-relay.ts:152-181 | Without new events or replays, accepted updates are paid for out of the sum of remaining attempts over pending rows, so only that many can ever happen |
| `OutboxDrain.PendingRowBecomesClaimable` | src/core/outbox/prisma-outbox-relay.store.ts:21-24 | Whatever runs meanwhile, a pending row that is as it was when last touched is claimable once max(lease, 60 s) has passed since, and any idle relay that claims it then holds it with the current attempt count |
| `OutboxDrain.HeldRowsCannotBeClaimed` | src/core/outbox/prisma-outbox-relay.store.ts:17-57 | While a relay's update would be accepted no claim can take the row: claim and update windows never overlap |
| `OutboxDrain.ReplayedRowsComeBack` | src/core/outbox/prisma-outbox-maintenance.store.ts:50-92 | A replay that names only dead letters makes each of them pending with no attempt counted and claimable at once; any other replay changes nothing |
| `OutboxHeartbeat.BeatRenews` | src/core/outbox/prisma-outbox-relay.store.ts:63-82 | A heartbeat gives a held row the whole lease again, keeps its attempts, and is answered with it |
| `OutboxHeartbeat.OneBeatLastsTheLease` | src/core/outbox/outbox-relay.ts:200-234 | After one heartbeat the relay holds the row for any time shorter than the lease, and no other relay's poll can take it |
| `OutboxHeartbeat.BeatingKeepsTheRow` | src/core/outbox/outbox-relay.ts:200-234 | Over any run in which the heartbeats come closer together than the lease and the relay does not settle the row itself, its updates of the row stay accepted |
| `OutboxHeartbeat.ClaimedRowsAreKept` | src/core/outbox/prisma-outbox-relay.store.ts:17-82 | The same from the claim on: a freshly claimed row is never lost by expiry to a relay that keeps beating |
| `OutboxDelivery.UndisturbedRunsHandleOnce` | src/shared/domain/event-bus/event-bus.ts:55-95 | When no lease is lost while handlers run and every result is recorded, a handler's body succeeds at most once per event over retries, re-claims and replays, given distinct handler names |
| `OutboxDelivery.HandlersSucceedAtMostOnce` | src/core/outbox/outbox-handler-tracker.ts:6-52 | The same from any state that satisfies the invariant linking completed bodies to the handler log |
| `OutboxDelivery.UnloggedSuccessIsRepeated` | src/shared/domain/event-bus/event-bus.ts:64-67 | From every state: a body that completed without reaching the log is run again by the next look-up |
| `OutboxDelivery.ExpiredLeaseRepeatsHandler` | src/core/outbox/prisma-outbox-relay.store.ts:21-24 | From every state of the protocol: once the lease runs out while a success is still on its way to the log, an idle relay can claim the row and the same body succeeds again |
| `OutboxDelivery.StaleRelayRepeatsHandler` | src/shared/domain/event-bus/event-bus.ts:62-85 | A run from an empty outbox in which a lease runs out before the result is stored and the body succeeds twice |
| `OutboxStore.OutboxDatabase.SelectBatch` | src/core/outbox/prisma-outbox-relay.store.ts:17-28 | The batch holds distinct claimable unlocked rows, all of them or a full batch, oldest first |
| `OutboxStore.OutboxDatabase.ClaimBatch` | src/core/outbox/prisma-outbox-relay.store.ts:11-43 | The selected rows and no others are leased to the owner and returned with their attempt counts |
| `OutboxStore.OutboxDatabase.UpdateClaimed` | src/core/outbox/prisma-outbox-relay.store.ts:45-61 | The update applies exactly when the row is pending, locked by the owner and its lease has not run out; it releases the row and stores the time of publication, or counts one failure |
| `OutboxStore.OutboxDatabase.RenewClaims` | src/core/outbox/prisma-outbox-relay.store.ts:63-82 | Renews and reports exactly the ids still held: each gets the whole lease from now and keeps its owner and its attempts; every other row is unchanged |
| `OutboxStore.OutboxDatabase.RecordResult` | src/core/outbox/outbox-handler-tracker.ts:19-52 | Upserts the handler's status, and is refused for an event that is gone |
| `OutboxStore.OutboxDatabase.RequeueDeadLetters` | src/core/outbox/prisma-outbox-maintenance.store.ts:50-92 | Requeues all requested dead letters or none; a requeued row has no attempt counted, no lock and no back-off |
| `OutboxStore.OutboxDatabase.CountPublishedBefore` | src/core/outbox/prisma-outbox-maintenance.store.ts:94-103 | Counts exactly the rows a clean-up could delete |
| `OutboxStore.OutboxDatabase.DeletePublishedBefore` | src/core/outbox/prisma-outbox-maintenance.store.ts:105-125 | Deletes only rows published before the cutoff, earliest first, up to the limit, with their handler log |
| `OutboxStore.OutboxDatabase.ReplayDeadLetters` | src/core/outbox/outbox-maintenance.service.ts:26-60 | Succeeds exactly when every id is a dead letter at the check and still at the requeue; otherwise this call changes nothing |
| `OutboxStore.OutboxDatabase.CleanupPublished` | src/core/outbox/outbox-maintenance.service.ts:62-88 | A dry run deletes nothing; a real run counts, lets others run, and then deletes only rows eligible at that time, all of them or up to the limit |
| `OutboxRelay.EventBus.Subscribe` | src/shared/domain/event-bus/event-bus.ts:42-53 | Appends the handler to its event name's list and leaves the others |
| `OutboxRelay.OutboxRelay.PublishEvent` | src/shared/domain/event-bus/event-bus.ts:55-95 | All handlers are under way at once, in any schedule; every one settles, and success means that each subscribed handler's body has completed for the event |
| `OutboxRelay.OutboxRelay.PublishRow` | src/core/outbox/outbox-relay.ts:125-183 | Under any interference the row is afterwards not held by this relay, or the poll has ended; undisturbed it is published at the time of its update |
| `OutboxRelay.OutboxRelay.PublishWithRetry` | src/core/outbox/outbox-relay.ts:125-151 | Gives up on a row only after at least three awaited rounds; undisturbed handlers make it succeed |
| `OutboxRelay.OutboxRelay.PollOnce` | src/core/outbox/outbox-relay.ts:95-123 | A finished poll holds none of its claimed rows, except ones that a heartbeat of an earlier poll, still in flight at the claim, had found lost; without such a heartbeat it holds none; a poll during a poll does nothing; an undisturbed poll with healthy handlers publishes exactly the rows it claims |
| `OutboxRelay.LateReplySkipsAHeldRow` | src/core/outbox/outbox-relay.ts:208-234 | The exception is real from every state: a late reply to an earlier heartbeat makes the loop skip a row that it claimed afresh and holds |
| `OutboxRelay.LateReplyIsReachable` | src/core/outbox/outbox-relay.ts:200-241 | Such a state is reached from an empty outbox |
| `ProjectionWriter.WritersConverge` | src/core/outbox/projection-writer.ts:16-47 | Concurrent compare-and-set writers in any interleaving, failed ones included: the version never decreases, the final rethrow is unreachable, and the row is the initial one or the snapshot of a process that returned, at or above every writer that returned |
| `ProjectionWriter.RethrowNeedsClash` | src/core/outbox/projection-writer.ts:16-80 | With other unique keys in play, the rethrow is reached only by a writer whose snapshot clashed on one of them |
| `ProjectionWriter.HandlersMeetTheRow` | src/core/outbox/prisma-projection.store.ts:36-50 | A status handler that returns after meeting the row leaves it at or above its version; it fails for a missing row only if the row was missing |
| `ProjectionWriter.UndisturbedWritersReturn` | src/core/outbox/projection-writer.ts:16-80 | From every state a writer that runs on its own returns, and the newer snapshot stays |
| `ProjectionWriter.UndisturbedHandlersAreExact` | src/core/outbox/prisma-projection.store.ts:36-50 | A status handler on its own returns exactly when the row is there, leaving the newer status, and otherwise reports the missing row |
| `ProjectionStore.ProjectionRow.WriteProjection` | src/core/outbox/projection-writer.ts:16-99 | The writer as a program with other statements before each of its own: version checks, monotone row, success at or above the version, and the newer snapshot when alone |
| `ProjectionStore.ProjectionRow.UpdateOrderStatus` | src/core/outbox/prisma-projection.store.ts:36-50 | Success is decided by the second statement: exact outcome when the row exists at the update, and no effect of its own when it does not |
| `OrderHistory.StatusEventsAreAChain` | src/modules/orders/infrastructure/repositories/prisma-orders.repository.ts:140-186 | Over every interleaving of concurrent updates there is exactly one status event per version 1..n, chained old to new along legal transitions from PENDING, n at most 3, with one cancellation event exactly when cancelled |
| `OrderHistory.ProjectionIsGenuine` | src/core/outbox/prisma-projection.store.ts:19-50 | For any delivery order with duplicates, failures and rebuilds the projected status is the one the order had at the projected version |
| `OrderHistory.ConvergesIffNewestFoundTheRow` | src/core/outbox/prisma-projection.store.ts:36-50 | In every run, with any duplicates, rejections, failures and deliveries under way: projection and order agree if and only if some delivery of the newest version has returned and did not run its update before the row existed |
| `OrderHistory.HandledAfterPlacedConverges` | src/core/outbox/prisma-projection.store.ts:36-50 | Any delivery that starts once the row exists and returns with the newest version makes projection and order agree |
| `OrderHistory.StatusUpdateCanBeLost` | src/core/outbox/prisma-projection.store.ts:36-50 | A run in which every delivery returns successfully and the projection stays at PENDING: the update ran before the placed event created the row |
| `OrderHistory.UndisturbedRebuildConverges` | src/core/outbox/rebuild-order-history-projection.ts:15-76 | From every reachable state one undisturbed rebuild makes projection and order agree |
| `OrderHistory.UndisturbedDeliveryConverges` | src/core/outbox/prisma-projection.store.ts:36-50 | So does one undisturbed delivery of the newest event once the row exists |
| `OrderHistory.UncontestedUpdatesCommit` | src/modules/orders/orders.service.ts:120-178 | A legal update that nobody overtakes commits: target status, next version, one event, and a cancellation when it is one |
| `OrdersService.OrdersService.UpdateOrderStatus` | src/modules/orders/orders.service.ts:120-178 | A missing order is reported and exactly the illegal transitions are rejected; otherwise the request is one read and one commit of the order's history with anything in between, and succeeds exactly when the version is unchanged |
| `OrdersService.OrdersService.UpdateStatusWithEvents` | src/modules/orders/infrastructure/repositories/prisma-orders.repository.ts:140-186 | Applies status, version and the aggregate's stamped events together, exactly under the expected version |
| `OrdersService.RaisedRows` | src/core/outbox/persist-domain-events.ts:7-52 | Draining a transitioned aggregate stores one status event, and a cancellation when it is one, under the given source version |
| `DomainEvents.PersistDomainEvents` | src/core/outbox/persist-domain-events.ts:7-52 | Every buffered event reaches the outbox once, in order, stamped with its aggregate's version, and every buffer is left empty |
| `DomainEvents.EveryEventIsPending` | src/core/outbox/persist-domain-events.ts:7-52 | Each buffered event of each aggregate is among the rows to write under its aggregate's id and source version, and the rows are as many as the events |
| `OrderStatus.TransitionsClimb` | src/modules/orders/domain/order.entity.ts:38-46 | Every allowed transition climbs a rank bounded by 3 |
| `OrderStatus.TransitionsAreExact` | src/modules/orders/domain/order.entity.ts:38-46 | A transition is allowed exactly one rank forward, or to cancelled before the goods are shipped |
| `OrderStatus.OnlyTheEndIsFinal` | src/modules/orders/domain/order.entity.ts:38-46 | Nothing may follow exactly delivered and cancelled orders |
| `OrderAggregate.SubtotalIsWorth` | src/modules/orders/domain/order.entity.ts:150-152 | The subtotal is the exact sum of quantity times price and throws exactly when that leaves the safe range |
| `OrderAggregate.AddItemAddsItsWorth` | src/modules/orders/domain/order.entity.ts:171-208 | Merging a line and appending it add the same worth |
| `OrderAggregate.AdditionsAreExact` | src/modules/orders/domain/order.entity.ts:162-208 | Accepted exactly while the order is open, for a positive quantity that stays safe at the product's one price; then only that product's line grows, or one line with the given name, quantity and price is new |
| `OrderAggregate.AddItemKeepsOnePerProduct` | src/modules/orders/domain/order.entity.ts:171-208 | An order never lists a product twice |
| `OrderAggregate.RemoveUndoesAdd` | src/modules/orders/domain/order.entity.ts:171-215 | Removing a freshly added product restores the order, and removing any product takes all of it |
| `OrderAggregate.PlacedOrdersAreFrozen` | src/modules/orders/domain/order.entity.ts:162-267 | A placed order refuses new lines, removals, pricing and a second placement, and transitions keep its lines |
| `OrderAggregate.TotalsBalance` | src/modules/orders/domain/order.entity.ts:154-160 | Total plus discount equals subtotal plus tax plus shipping |
| `OrderAggregate.TotalSucceedsExactly` | src/modules/orders/domain/order.entity.ts:154-160 | A total exists exactly when the gross amount is safe and covers the discount |
| `OrderAggregate.PlacingIsExact` | src/modules/orders/domain/order.entity.ts:217-246 | An open order takes exactly the pricings whose discount its lines are worth, and is placed exactly when it has lines and a total; only the pricing, or only the placed mark, changes |
| `OrderAggregate.PlacedEventIsRight` | src/modules/orders/domain/order.entity.ts:247-266 | The placed event carries the worth, tax, shipping, the total due and the lines, each in its field |
| `OrderAggregate.MovesAreExact` | src/modules/orders/domain/order.entity.ts:281-305 | Transitions follow the table and change only the status; an order is cancelled exactly before its goods are shipped |
| `OrderAggregate.Order.AddItem` | src/modules/orders/domain/order.entity.ts:171-208 | The class method does what the line function says, and changes nothing when it throws |
| `OrderAggregate.Order.Place` | src/modules/orders/domain/order.entity.ts:233-267 | Places once and raises one event with the order's amounts; nothing changes when it throws |
| `OrderAggregate.Order.Cancel` | src/modules/orders/domain/order.entity.ts:281-290 | Cancels exactly from a cancellable status and raises both events in order |
| `OrderAggregate.Order.PullEvents` | src/shared/domain/aggregate-root.ts:28-32 | Hands over the buffered events once |
| `Money.RoundIsHalfUp` | src/shared/value-objects/money.ts:8-24 | Rounding is never more than half a unit away and a half goes up |
| `Money.AddSubtractExact` | src/shared/value-objects/money.ts:34-42 | Sums and differences are exact and fail only at the bounds; subtracting undoes adding |
| `Money.MultiplyExact` | src/shared/value-objects/money.ts:44-49 | Products with whole quantities are exact and fail exactly above the safe range |
| `Money.ScalingIsExact` | src/shared/value-objects/money.ts:34-49 | Different currencies are never combined, a negative factor is refused, and any other factor scales half up or leaves the safe range |
| `Money.AmountsAreChecked` | src/shared/value-objects/money.ts:8-24 | An amount is accepted exactly when it is not negative, rounds to a safe one, and its currency is three capitals |
| `CatalogProjection.CatalogFollowsProduct` | src/core/outbox/prisma-projection.store.ts:52-73 | Under interleaved product writes and read-then-write handlers the projected fields are the product's at the projected version, and handling the newest event makes them agree |
| `CatalogProjection.UndisturbedHandlingIsCurrent` | src/core/outbox/prisma-projection.store.ts:52-73 | From every reachable state an undisturbed handling of any event leaves the projection at the product's current version and fields |
| `CatalogProjection.ProductsRepository.UpdateWithEvents` | src/modules/products/infrastructure/repositories/prisma-products.repository.ts:180-207 | Every given field takes its new value and every other keeps its own; the version rises by one and each event is stamped with the new version |
| `CatalogProjection.ProductsRepository.SetActiveWithEvents` | src/modules/products/infrastructure/repositories/prisma-products.repository.ts:209-236 | Switching a product raises the version by one and stamps its events with the new version |
| `Rebuild.RebuildJob.RebuildOrderHistory` | src/core/outbox/rebuild-order-history-projection.ts:11-77 | For any batch size from 1 the cursor loop ends after visiting every row exactly once in order and returns the row count |
| `Rebuild.RebuildTakesTheNewer` | src/core/outbox/projection-writer.ts:22-46 | Each projection ends at the newer of its old and its source snapshot; unlisted ones are untouched |
| `Rebuild.RebuildNeverGoesBack` | src/core/outbox/projection-writer.ts:22-46 | A newer projection is never overwritten |
| `Rebuild.RebuildIsIdempotent` | src/core/outbox/rebuild-order-history-projection.ts:15-76 | A second run over the same table changes nothing |
| `CheckoutConservation.CheckoutsConserve` | src/modules/checkout/services/stock-reservation.service.ts:58-115 | Over any run of committed, rejected and aborted checkouts stock plus units sold is constant and stock stays non-negative, versions rise once per order containing the product with one event per version, and discount usage grows by exactly the orders carrying the code within its limit |
| `CheckoutConservation.LoopFailsOnRepeats` | src/modules/checkout/services/stock-reservation.service.ts:94-113 | The decrement loop succeeds exactly when no product repeats, since a second line meets a moved version |
| `CheckoutConservation.ReserveIsExact` | src/modules/checkout/services/stock-reservation.service.ts:50-116 | Reservation succeeds exactly when every line asks for a positive quantity of an existing active product within stock and no product repeats, and then takes exactly its quantities; otherwise it reports the first such line by its reason, or the repeat as a conflict |
| `CheckoutConservation.FirstComplaint` | src/modules/checkout/services/stock-reservation.service.ts:73-92 | The validation loop finds something exactly when some line cannot be reserved, and reports the first one |
| `CheckoutConservation.OrderHoldsTheCart` | src/modules/checkout/checkout.service.ts:140-156 | Merging loses and invents nothing: the order holds exactly the cart's quantities per product |
| `CheckoutConservation.CheckoutCommits` | src/modules/checkout/checkout.service.ts:115-179 | The complete effect of a committed checkout on orders, products, discounts, cart and outbox; the order carries the requested code exactly when it is non-empty and discounts are on |
| `CheckoutOnce.CheckoutIsExactlyOnce` | src/modules/checkout/checkout.service.ts:75-234 | Over any interleaving of calls and edits at most one order carries a user's key, every successful call returns that stored order, and at most one as its creator |
| `CheckoutOnce.ConflictsAreResolved` | src/modules/checkout/checkout.service.ts:179-206 | No call surfaces a key conflict or loses its own order: the second lookup always finds the winner |
| `CheckoutOnce.RetriesChargeOnce` | src/modules/checkout/infrastructure/prisma-checkout-unit-of-work.ts:141-235 | However often and concurrently a client retries with one key among any calls of others, lost replies included: besides what all other orders took, stock and discounts are charged for exactly the one order that carries the key, or for none, and that charge never changes |
| `CheckoutOnce.CallsConserve` | src/modules/checkout/infrastructure/prisma-checkout-unit-of-work.ts:213-235 | Stock, versions, events and discount usage balance over any interleaving of checkout calls |
| `CheckoutOnce.CallsFinish` | src/modules/checkout/checkout.service.ts:263-284 | Each step of a call comes closer to its end: at most six transaction attempts |
| `CheckoutQuote.PreviewAgrees` | src/modules/checkout/services/pricing.service.ts:39-112 | In the same state preview pricing succeeds exactly when consuming pricing does, with equal amounts, and changes nothing; only a used-up code is reported differently |
| `CheckoutQuote.PriceSucceedsExactly` | src/modules/checkout/services/pricing.service.ts:55-104 | Pricing succeeds exactly without a code or with one that is active, unexpired, with its minimum met, uses left, and a non-negative amount within the safe range |
| `CheckoutQuote.PricesAreRight` | src/modules/checkout/services/pricing.service.ts:45-103 | Tax is a tenth rounded half up, shipping is free exactly from the threshold; a code that is given while discounts are on is recorded with its rounded discount capped by the subtotal, without one there is no discount; only consuming changes a table, by one more use of that code |
| `CheckoutQuote.RefusedCodesAreTold` | src/modules/checkout/services/pricing.service.ts:63-99 | Only a given code can make pricing fail, and the error is the first of: unknown or inactive, expired, below the minimum, used up, worth no valid amount |
| `CheckoutQuote.MergedSubtotalIsQuoted` | src/modules/checkout/checkout.service.ts:48-56 | For any cart, repeats included, the merged order's subtotal equals the quote's running sum |
| `CheckoutQuote.MergeSucceedsExactly` | src/modules/orders/domain/order.entity.ts:171-208 | Merging succeeds exactly for positive lines of known products whose merged quantities stay safe |
| `CheckoutQuote.QuoteBalances` | src/modules/checkout/checkout.service.ts:58-72 | The quoted total plus discount equals subtotal plus tax plus shipping, the subtotal is the cart's worth, and the amounts are fair for it |
| `CheckoutQuote.QuotedTotalIsAccepted` | src/modules/checkout/checkout.service.ts:160-171 | A checkout given the quoted total, or none, in an unchanged state is never told that it changed; it succeeds exactly when cart, details, ids and key are acceptable, and stores the quoted amounts |
| `CheckoutQuote.QuoteSucceedsExactly` | src/modules/checkout/checkout.service.ts:44-73 | A quote is given exactly for a non-empty cart of available lines worth a safe amount, without a code or with a usable one, and with a safe gross amount |
| `CheckoutQuote.CheckoutSucceedsExactly` | src/modules/checkout/checkout.service.ts:115-179 | A transaction succeeds exactly when the same cart would be quoted now, the expected total is that quote's or none, every product is listed once with a positive safe quantity, and the details, ids and key are acceptable |
| `CheckoutQuote.StoredOrdersBalance` | src/modules/checkout/infrastructure/prisma-checkout-unit-of-work.ts:141-205 | Every stored order balances, carries the worth of the cart at fair charges, one line per product at its current name and price, the total its client agreed to, and exactly these amounts in its placed event |
| `CheckoutServices.StockReservationService.ReserveStock` | src/modules/checkout/services/stock-reservation.service.ts:50-116 | The two loops compute the reservation function, errors included |
| `CheckoutServices.PricingService.Price` | src/modules/checkout/services/pricing.service.ts:39-112 | The service computes the pricing function in both modes: fair amounts for the honoured code, one more use of it when consuming, and no table changed by a preview |
| `CheckoutServices.CheckoutTransaction.IncrementDiscountUsage` | src/modules/checkout/infrastructure/prisma-checkout-unit-of-work.ts:110-133 | Consumes a use exactly when the stored count is below the limit |
| `CheckoutServices.CheckoutTransaction.SaveNewOrder` | src/modules/checkout/infrastructure/prisma-checkout-unit-of-work.ts:141-205 | Inserts the order and drains its one event, or reports a taken key or id and changes nothing |
| `CheckoutServices.CheckoutService.PlaceInTransaction` | src/modules/checkout/checkout.service.ts:115-179 | The transaction callback computes the checkout function on the tables |
| `CheckoutServices.CheckoutService.RunTransaction` | src/modules/checkout/infrastructure/prisma-checkout-unit-of-work.ts:213-235 | Commits everything or nothing, whatever becomes of the connection |
| `CheckoutServices.CheckoutService.ExecuteWithRetry` | src/modules/checkout/checkout.service.ts:263-284 | Attempts until one meets no conflict, six in all: a success or any other error surfaces at its first occurrence, and a conflict only after the sixth attempt, each attempt made in the state it meets |
| `CheckoutServices.CheckoutService.Checkout` | src/modules/checkout/checkout.service.ts:75-234 | With others acting at every await: a key that has its order is answered with it, an empty cart is refused, and otherwise the first attempt without a conflict decides, at most the sixth; a successful call returns a stored order of this user under this key, and no internal conflict surfaces |
| `CheckoutServices.CheckoutService.Quote` | src/modules/checkout/checkout.service.ts:44-73 | Computes the quote of the cart as read first and the discounts as read later |
| `DependencyGraph.BuildableStep` | src/core/di/container.ts:44-93 | A token is buildable, by paths, exactly when it is registered and all its dependencies are buildable |
| `DependencyGraph.NewTokenKeepsBuildable` | src/core/di/container.ts:31-42 | A first registration leaves every buildable token buildable |
| `Container.Container.Resolve` | src/core/di/container.ts:44-77 | Terminates; succeeds exactly when every reachable token is registered and none lies on a cycle; restores the in-progress set either way; shares singletons and scoped objects, also inside the built objects, and renews transients; errors name a missing reachable token or a real cycle |
| `Container.Container.CreateInstance` | src/core/di/container.ts:79-93 | The in-progress token is removed on success and on failure, and a repeated token is reported with the path to it |
| `Container.Container.SingletonsAreBuiltOnce` | src/core/di/container.ts:66-75 | Over any sequence of resolutions a singleton's factory completes at most once, counted where the object comes into being, and exactly when its instance is cached |
| `RefreshTokens.FamiliesStaySingle` | src/modules/auth/infrastructure/repositories/prisma-auth.repository.ts:292-332 | Over all interleavings a family never has two unrevoked tokens and a token is exchanged at most once |
| `RefreshTokens.DeadStaysDead` | src/modules/auth/infrastructure/repositories/prisma-auth.repository.ts:213-332 | A family without an unrevoked token never regains one |
| `RefreshTokens.ReuseKillsTheFamily` | src/modules/auth/services/token.service.ts:308-313 | After the revocation triggered by a reused or superseded token the family is dead for good |
| `RefreshTokens.UndisturbedRefreshIsExact` | src/modules/auth/services/token.service.ts:296-374 | A refresh that runs undisturbed succeeds exactly for a stored, unrevoked, unexpired token with the claims it was issued with; presenting a revoked one leaves its family dead |
| `RefreshTokens.GraceOnlySparesTheFamily` | src/modules/auth/services/token.service.ts:323-338 | Inside the grace period a superseded token is already revoked, so its rotation is refused; only the family is spared |
| `RefreshTokens.GraceIsExact` | src/modules/auth/services/token.service.ts:323-374 | With a newer active token in the family: within 30 seconds of its issue the caller is refused and no row changes; from then on the family ends |
| `RefreshTokens.FindingIsExact` | src/modules/auth/services/token.service.ts:296-321 | The look-up lets exactly the good tokens pass, ends the family of a revoked one, and tells the others why they are refused |
| `RefreshTokens.LoginsIssueGoodTokens` | src/modules/auth/services/token.service.ts:258-282 | A login hands out a token that is good for its whole lifetime and touches no other |
| `RefreshTokens.GoodTokensStayGood` | src/modules/auth/infrastructure/repositories/prisma-auth.repository.ts:213-332 | A good token stays good over any run until its exchange, a revocation, a logout, its user's deletion or its expiry |
| `RefreshTokens.EndedTokensAreGone` | src/modules/auth/infrastructure/repositories/prisma-auth.repository.ts:213-332 | Logout and deletion remove exactly their tokens, revocation stamps exactly its own |
| `RefreshTokens.SpentStaysSpent` | src/modules/auth/infrastructure/repositories/prisma-auth.repository.ts:292-310 | Revoked and deleted tokens can never be rotated again |
| `TokenService.TokenService.RefreshToken` | src/modules/auth/services/token.service.ts:296-374 | With others acting before each statement, success leaves the successor, issued now with its whole lifetime, as the family's one unrevoked token, and a token found revoked or superseded leaves its own family dead |
| `TokenService.TokenService.CheckLatest` | src/modules/auth/services/token.service.ts:323-338 | Ends the family exactly when another active token of it is at least 30 seconds old, and changes no row |
| `TokenService.TokenService.RotateRefreshToken` | src/modules/auth/infrastructure/repositories/prisma-auth.repository.ts:292-325 | Revokes and inserts together, exactly when the token is unrevoked; the successor's row starts now and is otherwise alone in changing |
| `Idempotency.StaleScriptsAreHarmless` | src/shared/middlewares/idempotency.middleware.ts:33-50 | A renew, complete or delete by anyone but the visible owner changes nothing |
| `Idempotency.CompletedLivesItsTime` | src/shared/middlewares/idempotency.middleware.ts:33-50 | Over any run a completed record stays as it is until it expires |
| `Idempotency.ReplaysAreGenuine` | src/shared/middlewares/idempotency.middleware.ts:194-224 | Every replayed response is the successful response of a handler run for the same request hash |
| `Idempotency.StoredResponsesAreReplayed` | src/shared/middlewares/idempotency.middleware.ts:194-224 | Once a response is stored, whatever runs meanwhile, every request with its hash that looks the key up before expiry ends with exactly that response; one with another hash is refused as different |
| `Idempotency.LookUpsAreAnswered` | src/shared/middlewares/idempotency.middleware.ts:92-113 | At both look-ups a completed value with the request's hash is replayed, one in progress is reported as such, another hash is refused, and a free key lets the first look-up go on to its claim |
| `Idempotency.FreeKeysAreClaimed` | src/shared/middlewares/idempotency.middleware.ts:97-108 | An answered claim of a free key starts the handler under a lease of at most a minute, and a lost race changes nothing |
| `Idempotency.RenewedClaimsAreKept` | src/shared/middlewares/idempotency.middleware.ts:117-142 | A claim renewed closer together than its lease never expires: over any run its owner keeps it and no other handler starts |
| `Idempotency.OneHandlerAtATime` | src/shared/middlewares/idempotency.middleware.ts:92-184 | When no claim expires under its running handler, at most one handler runs per key and none while a completed record lives |
| `Idempotency.ExpiryLetsTwoRun` | src/shared/middlewares/idempotency.middleware.ts:92-116 | That condition is needed, from every state: after an expiry under a running handler a second request is admitted |
| `Idempotency.TwoHandlersRun` | src/shared/middlewares/idempotency.middleware.ts:92-116 | A run from the empty store in which two handlers run at once |
| `IdempotencyMiddleware.IdempotencyMiddleware.Handle` | src/shared/middlewares/idempotency.middleware.ts:92-115 | Under interference and timeouts a request is admitted exactly when the key is free at an answered look-up and at the answered claim after it, and then owns a claim of a whole lease; all others are answered here with what the stored value deserves, or as unavailable |
| `IdempotencyMiddleware.IdempotencyMiddleware.Json` | src/shared/middlewares/idempotency.middleware.ts:147-182 | A response from 200 to 299 is stored for its lifetime and any other clears the claim, later, and only on the own claim |
| `IdempotencyMiddleware.IdempotencyMiddleware.RenewIfOwner` | src/shared/middlewares/idempotency.middleware.ts:33-50 | The owner's claim gets a whole lease from now; anyone else's call changes nothing |
| `CancellationSaga.SagaKeepsItsOrder` | src/modules/orders/application/cancellation-refund.saga.ts:40-108 | Across crashes and restarts effects are called only after their predecessor was seen to succeed, at most three times per execution and before the deadline, and a completed saga achieved all it owed |
| `CancellationSaga.SavedStepOnlyAdvances` | src/modules/orders/application/cancellation-refund.saga.ts:71-106 | The saved step never falls back and a saved deadline never moves |
| `CancellationSaga.SavedEffectsAreNotRepeated` | src/modules/orders/application/cancellation-refund.saga.ts:54-104 | Once a step is saved its effect is never called again |
| `CancellationSaga.CallsMeetTheDeadline` | src/shared/application/saga/saga-state.ts:27-31 | No call that starts after a save misses the saved deadline |
| `CancellationSaga.AttemptTakesItsTime` | src/shared/application/saga/saga-state.ts:19-56 | A call takes at most 15 seconds and a failed one is followed by 100, then 200 milliseconds, neither past the deadline |
| `CancellationSaga.CrashRepeatsAnEffect` | src/modules/orders/application/cancellation-refund.saga.ts:54-72 | A crash between an effect and its save repeats the effect |
| `SagaExecutor.CancellationRefundSaga.ExecuteSagaStep` | src/shared/application/saga/saga-state.ts:19-56 | The retry loop under a deadline: the first successful call counts, the step fails only after exactly three failed calls, and every other failure is a crash or the deadline |
| `SagaExecutor.CancellationRefundSaga.Execute` | src/modules/orders/application/cancellation-refund.saga.ts:40-108 | A returned saga is completed, stored and has achieved everything it owed; every failure has its cause: three failed calls, a save that did not answer, a crash, or the deadline of two minutes or as saved |
| `CartReplay.ReplayRebuildsTheCart` | src/modules/cart/domain/cart.entity.ts:74-126 | For any sequence of calls, rejected ones included, folding the raised events over the starting quantities rebuilds the cart, and quantities stay positive safe integers |
| `CartReplay.EveryPrefixIsACart` | src/modules/cart/domain/cart.entity.ts:74-126 | A reader that has seen any prefix of the events also sees positive safe quantities |
| `CartReplay.OperationsDoWhatTheySay` | src/modules/cart/domain/cart.entity.ts:74-126 | Each call is accepted exactly when it can be, adds to or sets its product's quantity as asked, leaves every other product alone, and names its error |
| `CartReplay.QuantityIsWhatWasAskedFor` | src/modules/cart/domain/cart.entity.ts:74-126 | For any sequence of calls a product's quantity is the one last set, zero by a removal or an emptying, plus the accepted additions since, and it is listed exactly when that is positive |
| `Cart.CartItem.Increase` | src/modules/cart/domain/cart.entity.ts:25-35 | Adds exactly a positive safe amount without overflow, or refuses |
| `Cart.CartItem.Decrease` | src/modules/cart/domain/cart.entity.ts:37-44 | Takes exactly a positive amount down to zero, or refuses |
| `Cart.Cart.AddItem` | src/modules/cart/domain/cart.entity.ts:74-96 | Accepted exactly for a positive safe quantity whose sum stays safe; merges into the product's item object or adds one with the given name and price, raises the delta, and changes nothing when refused |
| `Cart.Cart.UpdateItemQuantity` | src/modules/cart/domain/cart.entity.ts:98-114 | Accepted exactly for a safe quantity from zero up of a listed product: the item then has that quantity and the signed delta is raised, zero removes it, and every other item is untouched |
| `Cart.Cart.Hydrate` | src/modules/cart/domain/cart.entity.ts:128-156 | Succeeds exactly when every quantity is a positive safe integer; each line is as one persisted row says, a later duplicate wins, and no event is raised |

## Left out

- SQL, Prisma and Redis internals: each statement, script or transaction is one atomic guarded step, and the database and process clocks are one global clock.
- Identifiers, tokens and hashes are natural numbers or opaque strings handed in from outside; a collision is refused by the unique key where the schema has one.
- JWT signing and verification: a presented refresh token arrives with claims already verified; access tokens and two-factor tokens are not part of this model.
- `generateTokens` with a given family: no caller passes one, so a login always starts a fresh family.
- Numbers: amounts use exact rationals with half-up rounding, where the program uses doubles for the tax rate and percentages; column widths of versions and stock are not modelled.
- Currencies in checkout: products, fees and discounts are all in the default currency, as the program constructs them.
- Customer e-mail, phone, address and order-number checks: one flag `detailsValid` stands for them; the order number is unique in the table.
- Payment status, customer fields, notes and timestamps of an order: carried along unchanged and never read by the modelled code.
- Handlers of one event: in the relay class an arbitrary schedule says which of the concurrent handlers takes its next step; a handler's body is one step.
- Relay timers, start and stop, observability refresh, last-error texts, logging, metrics and tracing.
- `normalizeIds` trimming: maintenance receives the trimmed, non-empty ids and treats repeats as one.
- Rebuild of the product catalogue: its cursor loop is the modelled one; the rating refresh after each page and the source table changing during a rebuild are not modelled. Rows of one page are written in id order, where the program writes them concurrently; they touch different projections.
- The branch for an order that disappears during a status update: orders are never deleted.
- Product search text, slug choice and review ratings: the projected fields are one value per version; a slug clash is an input of the projection steps.
- Editing the catalogue during a checkout run: `CheckoutConservation.CheckoutsConserve` and `CheckoutOnce.CallsConserve` speak about runs without manual edits of products and discounts; the exactly-once result allows them.
- Child containers: scopes, parents and overrides in a child are not modelled; the container results are for one container whose tokens are registered once, with factories given by the tokens they resolve.
- Factories that throw on their own, return `undefined`, or register while resolving.
- Different idempotency keys for the same cart, and stock after a cancelled order: the program promises nothing about either.
- The middleware's method and header checks, key composition and request hashing: one cache key at a time, with the hash as an input.
- Effects of a timed-out saga call that complete later in the background: the saga neither waits for nor sees them.
- Two executors of the same saga at once: one executor at a time, as its callers arrange.
- Cart `total` and `itemCount`, pagination, specification builder, wishlist, reviews, notifications, users: easy members.
- `refreshDashboard` and `CheckoutSaga`: several separate transactions without a promise to prove, and not wired into production.
