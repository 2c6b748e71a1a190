# Ticket service: the money-and-inventory protocol, verified

The ticket service sells seats, charges cards, cancels and refunds, deduplicates retries by
idempotency key and announces every sale and cancellation through a transactional outbox. All of this
runs concurrently, over several services' state, with crashes and failed writes anywhere. This project
models that protocol and proves what it guarantees in every state any run can reach.

There are two layers.

* **The machine.** `System` is one interleaved state machine: tickets, payments, cancellation log,
  idempotency keys, row locks, the provider's ledger (`Payments`), the outbox with its relays, broker and
  worker (`Outbox`), and one program counter per request. A step is one statement or one transaction
  boundary. Anything may run between two steps; a request can crash anywhere, transactions can abort, charges
  can be declined, writes after a charge can fail, captured variables survive aborted attempts. The field
  `hist` is history: it records facts (who claimed what, which charge paid which row) that steps never
  consult. `Reachable(s)` means that some run from an initial state leads to `s`.
* **The code.** `Store.Database` follows `store/*.go`, `Service.TicketService` follows `handlers/ticket.go` and
  `idempotency/middleware.go`, `Relaying.Relay` follows `outbox/relay.go`, `Consuming.NotificationConsumer`
  follows `outbox/consumer.go`, `Payments.FakeProvider` follows `payments/fake.go` and `Tx.Pool` follows
  `pkg/database/tx.go`: methods that change fields, retry loops, minting loops, polls. Between any two statements
  they let the rest of the world run (`Others`: any legal run without an act of the request at hand). Which statements
  fail is given to each of them (`Stmt`, `AttemptFaults`), so their contracts say exactly when they fail. `Valid()` says
  that the real fields are those of the machine after the steps recorded so far, and every method is proved to
  keep it, so each handler is a legal run of the machine and the theorems below hold of it.

The invariant is the conjunction in `Invariant.Inv`: row locks (`LockProofs`), keys (`KeyProofs`), payments
(`MoneyProofs`), tickets (`SeatProofs`), holders (`HoldProofs`), event counts (`CountProofs`) and the
delivery pipeline (`OutboxProofs`). Delivery facts transfer to the service because each of its runs
projects to a run of the outbox machine (`Projection`), and each run of relays and workers alone is one of the
service (`ServiceDelivery`).

## Where the code and its documentation disagree

Apart from the last item, each of these promises fails. For each there is a run of the whole service that breaks it, from
every initial state that has the relays it needs, or for refunds the provider (`Runs` builds them phase by phase), and the
exact condition under which it is kept.

* `middleware.go:130-133` says a client error keeps its key and is replayed. Handlers write their rejections
  with `http.Error`, as plain text, and the response column is JSONB, so storing them always fails
  (`KeyLimit.RejectedInFlight`: 402, 404 and 409). A response is stored if and only if the write succeeds and the
  answer is a 200 (`KeyTheorems.FinishStoresIff`); the key of any other outcome below 500 stays in flight for good
  (`KeyTheorems.EndedForGood`) and its retries get 409 (`KeyTheorems.ReplayIsStable`).
* `events.go:12-14` and the README promise that a cancellation is never consumed before its purchase. The two
  events use different topics; order holds within a topic only (`DeliveryLimits.CancellationFirst`, one relay and no
  failure). The order is safe from the commit that enqueues the cancellation on if and only if the purchase has
  been told by then (`ServiceDelivery.EnqueueSafeIff`), which the handler could test.
* The README promises order per ticket, and `relay.go:86-92` allows a second relay. Order per ticket and topic holds
  in every run if and only if there is at most one relay (`DeliveryLimits.ServiceOrderIffOneRelay`).
* `consumer.go:63-65` says a message whose handler failed is redelivered. A later commit on the same partition
  skips it for good (`DeliveryLimits.FailureThenCommitSkips`). If every commit passes the test that the messages from
  the committed offset on have been told, nothing is lost however handlers fail
  (`ServiceDelivery.SafeCommitsLoseNothing`); a commit that fails it loses the message if and only if no other copy is
  left (`ServiceDelivery.UnsafeCommitLosesIff`).
* The README and `ticket.go:482-487` promise at most one refund. `ByTicket` sees neither pending payments nor who made
  them, so a holder whose own payment is pending requests the refund of an earlier, already refunded payment of another
  user. Whether that is a second refund depends on the provider. The request carries the key `refund_` + payment id
  (`ticket.go:597`); Stripe's client forwards it (`stripe.go:95-97`), `FakeProvider.Refund` ignores it (`fake.go:68-84`).
  With a provider that remembers refund keys no payment is refunded twice and no more is refunded than was captured,
  always (`RefundTheorems.KeyedRefundsOnce`). With one that ignores them, as FakeProvider does, it happens
  (`RefundLimit.RefundedTwice`), so the promise holds in every run if and only if the provider remembers them
  (`RefundLimit.NeverTwiceIffKeyed`). Whichever it is, each payment has at most one refund, issued or due, all along a
  run if and only if every cancellation passes a test at its commit: what it captured has none
  (`RefundTheorems.RefundOnceIff`). Refunding only when the ticket's newest payment row was succeeded is a test on the
  tables that suffices (`RefundTheorems.NewestRefundsAreSafe`), and is also exactly when the holder's own payment is the
  one refunded (`HoldTheorems.RightRefund`).
* The notification's text, "Amount charged" (`consumer.go:90`), is told of a purchase whose event is committed before the
  charge (`NoticeLimit.EnqueuedUncharged`), so a declined buyer can be told it as well (`NoticeLimit.ConfirmedUncharged`).
  It is true of the charge if and only if the request that bought is past it, which a settled payment row shows and a
  failed one refutes (`NoticeLimit.ConfirmedIsChargedIff`). Ticket, user and amount are always those of a payment
  (`Notices.NotesAreTrue`).
* `releaseAfterFailedCharge` matches any purchased row of the ticket, so after a cancellation and a new sale it
  frees somebody else's seat (`ReleaseLimit.ReleaseFreesAnotherSeat`). It frees its own if and only if `purchased_at`
  is still the payment's `created_at` (`HoldTheorems.ReleaseFreesOwnIff`).
* The repository's README says the key is written in the claim's transaction and that consumers deduplicate on ticket and
  event type; the code inserts the key separately and deduplicates on the message id. The model follows the code.

## Model

| member | source | states |
|---|---|---|
| MoneyTheorems.NoOrphanCharge | services/ticket-service/internal/handlers/ticket.go:134-228 | in every reachable state, crashes included, charges at the provider map one-to-one onto payment rows of equal amount that never failed; a settled row carries its charge's id |
| MoneyTheorems.ChargeFollowsRow | services/ticket-service/internal/handlers/ticket.go:124-198 | a charge is created only for a row that was there before, pending and uncharged, of the same amount, by the request that inserted it |
| MoneyTheorems.CapturedTotal | services/ticket-service/internal/handlers/ticket.go:134-228 | total captured = settled rows + exactly the pending rows whose charge went through |
| MoneyTheorems.PaidIffPassed | services/ticket-service/internal/handlers/ticket.go:200-239 | a row's charge has succeeded exactly when its request, unless crashed, is past the charge; never for a failed row |
| MoneyTheorems.PaymentLifecycle | services/ticket-service/internal/store/payment.go:63-72 | over every run, though the updates carry no status guard, rows only move pending to succeeded to refunded, or pending to failed; intent and refund ids change only on those moves |
| MoneyTheorems.IntentIds | services/ticket-service/internal/handlers/ticket.go:124-140 | a row holds its own provisional id exactly until it succeeds; real ids are the provider's and no two rows share one, so the unique index never fires |
| MoneyTheorems.RefundSoundness | services/ticket-service/internal/handlers/ticket.go:593-609 | every refund issued, even from a capture of an aborted attempt, names an existing charge of the same amount |
| MoneyTheorems.PaidAlong | services/ticket-service/internal/handlers/ticket.go:176-198 | along every run a paid claim stays its request's claim, paid by its charge |
| RefundTheorems.KeyedRefundsOnce | services/ticket-service/internal/payments/stripe.go:87-99 | with a provider that remembers the refund keys the code sends, in every reachable state no two refunds name one payment and the total refunded is at most the total captured, with no condition on cancellations |
| RefundTheorems.RefundKeyMeansOneRequest | services/ticket-service/internal/handlers/ticket.go:593-609 | a refund requested again under a payment's key is for the same charge and amount as the one issued, stale captures included |
| RefundLimit.NeverTwiceIffKeyed | services/ticket-service/internal/payments/fake.go:68-84 | from every initial state: no run refunds a payment twice if and only if the provider remembers refund keys |
| RefundTheorems.RefundOnceIff | services/ticket-service/internal/handlers/ticket.go:482-569 | with either provider, all along a run each payment has at most one refund, issued or due, if and only if every cancellation that committed had captured a payment with none |
| RefundTheorems.DoubleIsNear | services/ticket-service/internal/payments/fake.go:68-84 | in a state where that fails, with a provider that ignores refund keys, the requests now running can bring about two refunds naming one payment |
| RefundTheorems.NewestRefundsAreSafe | services/ticket-service/internal/handlers/ticket.go:551-569 | cancellations that refund only when their ticket's newest payment row was succeeded always pass the test, over every run |
| RefundTheorems.RefundsAreCovered | services/ticket-service/internal/handlers/ticket.go:593-626 | under the test no two refunds name one payment and the total refunded is at most the total captured |
| RefundLimit.RefundedTwice | services/ticket-service/internal/payments/fake.go:68-84 | with a provider that ignores refund keys, from every initial state a run in which the cancellation of a second user, still pending, refunds the first user's payment again, 1000 on 500 captured |
| MoneyProofs.KeyIsFresh | services/ticket-service/internal/handlers/ticket.go:176-198 | the provider key of a charge about to be made was never used: one claim never replays another's charge |
| MoneyProofs.NewestIs | services/ticket-service/internal/store/payment.go:77-96 | ByTicket returns a refundable row of the ticket as stored, and none refundable is newer |
| HoldTheorems.RightRefund | services/ticket-service/internal/handlers/ticket.go:495-609 | the committing attempt refunds the ticket's newest payment, which is the holder's own, for the ticket's price, if and only if that row was succeeded at its snapshot, whatever earlier attempts captured |
| HoldTheorems.SettledIsOwners | services/ticket-service/internal/handlers/ticket.go:551-569 | that condition read off the payment rows: the owner's own row is the newest of the ticket, and the snapshot records whether it is succeeded |
| HoldTheorems.CapturedWasSucceeded | services/ticket-service/internal/handlers/ticket.go:551-569 | over every run, what a cancellation has captured in any attempt, and what it goes on to refund, was succeeded when it was read, never a payment it had seen refunded |
| HoldTheorems.CapturePicks | services/ticket-service/internal/handlers/ticket.go:551-569 | an attempt captures the payment it read if and only if that was succeeded; otherwise an earlier attempt's capture stays |
| HoldTheorems.HoldersPaymentIsNewest | services/ticket-service/internal/handlers/ticket.go:110-145 | whoever holds a ticket bought by purchase owns its newest payment, at the ticket's price |
| HoldTheorems.ReleaseFreesOwnIff | services/ticket-service/internal/handlers/ticket.go:247-264 | a release takes back its own claim if and only if the row's purchased_at is still its payment's created_at |
| HoldTheorems.CalmReleases | services/ticket-service/internal/handlers/ticket.go:200-264 | if no cancellation commits on a ticket while its claimer is running, every release frees its own claim and every succeeded payment not called off still has its payer holding the ticket |
| ReleaseLimit.ReleaseFreesAnotherSeat | services/ticket-service/internal/handlers/ticket.go:247-264 | without that premise it fails: from every initial state a run in which a declined buyer's release frees a seat another user has paid for |
| KeyTheorems.OneRunPerKey | services/ticket-service/internal/idempotency/middleware.go:86-98 | of all requests sharing a key at most one is inside the handler, and at most one ever ends below 500 |
| KeyTheorems.OneChargePerKey | services/ticket-service/internal/idempotency/middleware.go:86-146 | all requests sharing a key create at most one charge |
| KeyTheorems.OneCancellationPerKey | services/ticket-service/internal/idempotency/middleware.go:86-146 | and commit at most one cancellation |
| KeyTheorems.KeyReleasedOnlyCleanly | services/ticket-service/internal/idempotency/middleware.go:130-139 | a key disappears only after a run that ended in a server error, charged nothing and cancelled nothing |
| KeyTheorems.EndedForGood | services/ticket-service/internal/store/idempotency.go:98-118 | once the request that holds a key was answered or crashed, the key's row never changes again over every run: a stored response stays, and so does a key in flight |
| KeyTheorems.StoredIsEnded | services/ticket-service/internal/store/idempotency.go:98-106 | a key with a stored response belongs to a request that has ended, so the response is there for good |
| KeyTheorems.ReplayIsStable | services/ticket-service/internal/idempotency/middleware.go:89-158 | whatever else runs, a request under an ended key gets the stored status and JSON value, 409 if none is stored, 422 for another body, or an error; none of its steps changes anything but its own progress |
| KeyTheorems.LoadAnswers | services/ticket-service/internal/idempotency/middleware.go:89-119 | a load that reaches the database replays if and only if user and body match and a response is stored, says 409 if and only if they match and none is, 422 if and only if the user matches and the body does not, and 500 if and only if the key is another user's or was given up since |
| KeyTheorems.FinishStoresIff | services/ticket-service/internal/idempotency/middleware.go:121-146 | the write after the handler stores the response if and only if it succeeds and the answer is a 200, and gives the key up if and only if it succeeds after a server error; no other key changes |
| KeyTheorems.RejectionsAreNotStored | services/ticket-service/internal/idempotency/middleware.go:130-145 | a request that ended below 500 still holds its key; what is stored, if anything, is its 200, and for any other answer nothing is |
| KeyTheorems.FailedChargeAnswer | services/ticket-service/internal/handlers/ticket.go:200-215 | over every run, however its release goes: a request whose charge failed answers 402 if and only if the card was declined, 502 for any other error, each in its own words, or has crashed |
| KeyTheorems.FailedChargeKey | services/ticket-service/internal/idempotency/middleware.go:130-139 | after a failed charge a write of the key that goes through gives it up if and only if the error was not a decline; nothing is ever stored |
| KeyLimit.RejectedInFlight | services/ticket-service/internal/idempotency/middleware.go:130-145 | from every initial state, for each of 402, 404 and 409, a keyed request that ends so with its key in flight |
| LockTheorems.NoLockAcrossCalls | services/ticket-service/internal/handlers/ticket.go:176-198 | no request holds a row lock while charging or refunding, no relay while producing |
| LockTheorems.NoDeadlock | services/ticket-service/internal/handlers/ticket.go:247-259 | no chain of requests and relays waiting for each other's row locks closes into a cycle |
| LockTheorems.DrawNeverWaits | services/ticket-service/internal/outbox/store.go:27-37 | a transaction that has its ticket's row lock can always draw its outbox id |
| ServiceTheorems.Inventory | services/ticket-service/internal/handlers/ticket.go:90-123 | tickets are available or purchased; purchased exactly when owner, time and QR code are all set; each event has the number minted; no two share a QR code |
| ServiceTheorems.Conservation | services/ticket-service/internal/handlers/ticket.go:110-160 | per ticket: purchase events = cancellation events + releases that freed it + 1 if held; cancellation events = log rows |
| ServiceTheorems.NeverMoreCancelled | services/ticket-service/internal/handlers/ticket.go:514-550 | no prefix of a ticket's events in outbox order has more cancellations than purchases |
| ServiceTheorems.NotificationsAddUp | services/ticket-service/internal/outbox/consumer.go:76-120 | once all is delivered, a ticket's notifications balance: one per cancellation logged, one per purchase, the rest releases and the holder |
| Notices.NotesAreTrue | services/ticket-service/internal/outbox/consumer.go:83-99 | in every reachable state, whoever is told that a ticket is confirmed has a payment row for it of the amount the text states, and whoever is told of a cancellation has a log entry for that ticket |
| Notices.EventsAreBacked | services/ticket-service/internal/handlers/ticket.go:153-162 | every event in the outbox names its ticket's event and has a payment, or a log entry, of the same ticket, user and amount, or reason |
| Notices.TermsForGood | services/ticket-service/internal/handlers/ticket.go:104-113 | over every run a ticket stays a ticket of its event, at its price, however often it is sold and given back |
| NoticeLimit.EnqueuedUncharged | services/ticket-service/internal/handlers/ticket.go:134-162 | the commit that enqueues a purchase event inserts its payment, pending and uncharged |
| NoticeLimit.ConfirmedIsChargedIff | services/ticket-service/internal/handlers/ticket.go:153-239 | in every reachable state every purchase event has a payment of its ticket, user and amount that is charged if the row is settled, is not if it failed, and, unless the request that bought crashed, is if and only if that request is past the charge |
| NoticeLimit.ConfirmedUncharged | services/ticket-service/internal/outbox/consumer.go:83-90 | from every initial state with a relay a run in which a buyer answered "Card declined" is told the amount charged, while no charge was ever made |
| ServiceTheorems.ServiceExactlyOnce | services/ticket-service/internal/outbox/consumer.go:46-119 | under any interleaving of claims, cancellations, relays, duplicates and crashes, without handler errors: notified ids are committed ids, all of them once nothing is pending |
| ServiceTheorems.ServicePerTicketOrder | services/ticket-service/internal/outbox/relay.go:93-137 | with one relay, per ticket and topic, events first appear in the partition log in outbox id order |
| Projection.Projects | services/ticket-service/internal/outbox/store.go:22-37 | every run of the service, seen from the outbox, is a legal run of the outbox machine |
| Confluence.ClaimsAreConfluent | services/ticket-service/internal/handlers/ticket.go:80-174 | n buyers, k tickets, any interleaving without aborts, declines or cancellations: min(n,k) purchases on the min(n,k) least ids, each a different one, n-min(n,k) sold-out answers |
| Confluence.TakesKeeps | services/ticket-service/internal/handlers/ticket.go:90-97 | the least unlocked row extends the prefix of taken tickets: SKIP LOCKED never leaves a gap |
| DeliveryTheorems.PublishedIsInLog | services/ticket-service/internal/outbox/relay.go:93-142 | a row marked published is in its partition's log, for any number of relays and crashes |
| DeliveryTheorems.NotificationsComeFromRows | services/ticket-service/internal/outbox/consumer.go:76-119 | every notification says, in the words for its topic, what one committed outbox row says, one row a message id |
| Outbox.DecimalReads | services/ticket-service/internal/outbox/consumer.go:90 | the amount in the text reads back as the amount, without leading zeros |
| ServiceDelivery.SafeCommitsLoseNothing | services/ticket-service/internal/outbox/consumer.go:46-74 | handlers may fail anywhere: if every offset is committed only when all messages from the committed one to it have been told, then exactly the committed messages are notified once nothing is pending |
| ServiceDelivery.UnsafeCommitLosesIff | services/ticket-service/internal/outbox/consumer.go:63-69 | a commit past an untold message loses it for good, whatever the service does next, if and only if its row is published, the partition does not repeat it later and no relay carries it |
| ServiceDelivery.TellableIff | services/ticket-service/internal/outbox/relay.go:93-142 | in every reachable state a committed message not told yet is told by some continuation if and only if its row is unpublished, a relay carries it, or its partition has it at or past the committed offset |
| DeliveryTheorems.ExactlyOnceEffect | services/ticket-service/internal/outbox/consumer.go:46-119 | without handler failures the two id sets are equal once nothing is pending |
| DeliveryTheorems.NotifiedOnce | services/ticket-service/internal/outbox/consumer.go:105-118 | a notification is never rewritten or removed by later deliveries |
| DeliveryTheorems.PerTicketOrder | services/ticket-service/internal/outbox/relay.go:99-137 | with one relay, first appearances follow outbox ids and none appears before an earlier one, through crashes, failed writes and republished batches |
| DeliveryTheorems.IdOrderIsCommitOrder | services/ticket-service/internal/handlers/ticket.go:151-160 | a committing row's id is above every committed id of its ticket, because the id is drawn under the row lock |
| DeliveryLimits.OrderIffOneRelay | services/ticket-service/internal/outbox/relay.go:35-49 | from any initial outbox, every run with the code's batch size keeps each ticket's events of one topic in order if and only if there is at most one relay |
| DeliveryLimits.ServiceOrderIffOneRelay | services/ticket-service/internal/outbox/relay.go:86-137 | the same of every run of the service: with two relays a seat given back and sold again is announced in the wrong order |
| ServiceDelivery.CancellationWaitsIff | services/ticket-service/internal/outbox/events.go:12-18 | in every reachable state with a relay, an untold cancellation is never told before a purchase, whatever the service does next, if and only if the purchase is told already or no copy of the cancellation is left; without handler failures one always is |
| ServiceDelivery.EnqueueSafeIff | services/ticket-service/internal/handlers/ticket.go:538-550 | at the commit that enqueues a cancellation: from then on it is never told before the purchase if and only if the purchase has been told |
| DeliveryLimits.CancellationFirst | services/ticket-service/internal/outbox/events.go:12-18 | from every initial state with a relay a run, without any failure, that tells a cancellation and not its purchase |
| DeliveryLimits.FailureThenCommitSkips | services/ticket-service/internal/outbox/consumer.go:63-69 | from every initial state with a relay a run after which nothing is pending, a committed message is untold, and no continuation of the service tells it |
| Drain.DrainsInCeilPasses | services/ticket-service/internal/outbox/relay.go:93-142 | one relay, broker up, no new rows: the outbox is empty after p passes if and only if p >= ceil(n / batchSize) |
| Drain.PassPublishes | services/ticket-service/internal/outbox/relay.go:99-142 | a pass publishes exactly the fetched batch, appends it to the logs in order and leaves no lock |
| Drain.PassCounts | services/ticket-service/internal/outbox/store.go:94-100 | a pass takes min(batchSize, pending) rows off the count |
| OutboxProofs.FetchIsInOrder | services/ticket-service/internal/outbox/store.go:39-67 | a fetched batch is unpublished unlocked rows in id order and skips none with a smaller id |
| OutboxProofs.SoundKept | services/ticket-service/internal/outbox/relay.go:93-142 | what every step of handlers, relays, broker and workers keeps |
| Payments.SameKeySameCharge | services/ticket-service/internal/payments/fake.go:37-66 | in every call sequence a keyed charge returns what the first successful charge under its key returned |
| Payments.IdsDistinct | services/ticket-service/internal/payments/fake.go:51-84 | two answered calls carry one id if and only if both are charges under one key |
| Payments.KeysCountCharges | services/ticket-service/internal/payments/fake.go:96-102 | when every request is keyed, the number of keys is the number of charges created |
| Payments.IdsAreDense | services/ticket-service/internal/payments/fake.go:51-84 | after every call sequence charges and refunds are numbered from one without a gap |
| Payments.FakeProvider.Charge | services/ticket-service/internal/payments/fake.go:37-66 | the error that was set, or the charge made earlier under the key, or a charge of the amount under the next id; the fields are those of the ledger after that call |
| Payments.FakeProvider.Refund | services/ticket-service/internal/payments/fake.go:68-84 | the error that was set, or a refund under the next id of the shared sequence, recorded as requested; nothing charged |
| Payments.FakeProvider.Charges | services/ticket-service/internal/payments/fake.go:86-94 | lists every answered attempt, replays included, never fewer than the charges created |
| Payments.FakeProvider.DistinctCharges | services/ticket-service/internal/payments/fake.go:96-102 | counts the charges created, for callers that always send a key |
| Tx.Pool.InTx | services/pkg/database/tx.go:23-46 | the closure runs on the transaction's copy: nil exactly when its writes are committed, otherwise they are rolled back and the database is as before; what it assigned to captured variables stays either way |
| Tx.Pool.InSerializableTx | services/pkg/database/tx.go:61-78 | at most three attempts, each from the variables the one before left: after attempts that all end, innermost, in 40001 or 40P01, one that commits is the last and the result nil, one with any other error is the last and its error the result; three conflicts give an error of the same innermost cause; the database changes only by the commit |
| Tx.SucceedsIff | services/pkg/database/tx.go:61-88 | success means some attempt commits and every earlier one failed retryably, each attempt seeing what the failed ones left in captured variables |
| Tx.RetryableIff | services/pkg/database/tx.go:80-88 | an error chain is retried if and only if its innermost error is 40001 or 40P01 |
| Tx.OutcomeIs | services/pkg/database/tx.go:23-46 | an attempt fails if and only if its pool, begin, closure or commit does, and its error ends in what the first of them reported |
| Tx.BackoffBounds | services/pkg/database/tx.go:90-100 | n failed attempts wait between 10(2^(n-1)-1) and 20(2^(n-1)-1) ms, strictly below the upper end when n > 1 |
| Store.Database.MarkStatus | services/ticket-service/internal/store/payment.go:61-72 | sets the status of the row whatever it was; an empty intent id leaves the stored one; a missing row is no error |
| Store.Database.MarkRefunded | services/ticket-service/internal/store/payment.go:98-124 | changes the row and reports success exactly when it was succeeded |
| Store.Database.InsertKey | services/ticket-service/internal/store/idempotency.go:56-69 | the first insert of a key wins and nothing else changes |
| Store.Database.LoadKey | services/ticket-service/internal/store/idempotency.go:78-96 | finds a row exactly when the key is the caller's own |
| Store.Database.CompleteKey | services/ticket-service/internal/store/idempotency.go:98-106 | stores status and body exactly when the body is JSON |
| Store.Database.ReleaseKey | services/ticket-service/internal/store/idempotency.go:108-118 | deletes the key exactly when it has no response |
| Store.Database.InsertTickets | services/ticket-service/internal/handlers/ticket.go:366-376 | the minting loop: exactly if no statement up to COMMIT fails, as many new rows as asked, all available, under unused ids |
| Service.TicketService.ClaimTicket | services/ticket-service/internal/handlers/ticket.go:80-174 | a sale is of the least available unlocked ticket of a state passed through, at its price, and ticket, pending payment and event are in the tables together; a rejection holds no lock; 409 only if there was no such ticket, 500 only if a statement failed or the price is negative |
| Service.TicketService.LockLeast | services/ticket-service/internal/handlers/ticket.go:90-100 | picks the least available unlocked ticket of the event, or reports sold out exactly when there is none |
| Service.TicketService.ChargeCard | services/ticket-service/internal/handlers/ticket.go:176-198 | one new charge of the claim's amount, under the client's key or else the payment's own, which was unused; or, exactly on the provider's error, none |
| Service.TicketService.SettlePayment | services/ticket-service/internal/handlers/ticket.go:217-228 | answers 200 and the charge belongs to the claim; the row, pending before and never locked, is succeeded under the charge's id, or pending still if and only if the write fails; no other row changes |
| Service.TicketService.ReleaseAfterFailedCharge | services/ticket-service/internal/handlers/ticket.go:241-264 | both updates or neither: the payment is failed and the matched row, if any, available again, or the payment is pending as before; the second exactly if a statement fails or the purchased row is locked |
| Service.TicketService.PurchaseTicket | services/ticket-service/internal/handlers/ticket.go:37-239 | a legal run of the machine; how it ends is read off what a state passed through had for sale, which statements fail and the provider's error, and decides the answer: 409 nothing was for sale, 500 a claim statement failed, 402 if and only if the card was declined, 502 in two wordings for the two other errors, and 200 with the QR code, charge and amount of a payment this request inserted and charged; otherwise none of its payments was ever charged |
| Service.TicketService.CancelOnce | services/ticket-service/internal/handlers/ticket.go:495-569 | one attempt: it commits only what it read as the caller's purchased ticket, and then ticket freed, last log entry and unpublished event are all there; or no log entry, no lock and only the captured payment left of it |
| Service.TicketService.CancelInTx | services/ticket-service/internal/handlers/ticket.go:490-588 | at most three attempts, another one exactly after 40001 or 40P01, innermost in the chain; the reply is the last one's |
| Service.RetriesAreRetried | services/pkg/database/tx.go:61-78 | the ways its attempts can end are ones the retry helper allows |
| Service.TicketService.CancelTicket | services/ticket-service/internal/handlers/ticket.go:453-614 | a legal run of the machine; 404 if and only if the last attempt read no such ticket or another owner, 409 if and only if the caller owns it and it is not purchased, 500 if and only if that attempt ended in an error, 200 if and only if this request has a committed cancellation in the log; every error was given to the attempt or is of a row locked or changed meanwhile; the body says what the provider replied |
| Service.TicketService.RecordRefund | services/ticket-service/internal/handlers/ticket.go:616-626 | unless the write fails, the row becomes refunded with the refund's id exactly if it was succeeded; otherwise no payment changes |
| Service.TicketService.CreateTickets | services/ticket-service/internal/handlers/ticket.go:315-388 | 400 for a quantity below one, 403 exactly for callers who are neither an admin nor an organiser owning the event, 500 exactly when a statement fails or there is no such event, else 201 with exactly the quantity of new available tickets and no other change; anything else adds none |
| Service.TicketService.Existing | services/ticket-service/internal/idempotency/middleware.go:100-119 | the caller's own completed key with the same body replays the stored status and value; 409 without a response, 422 for another body, 500 for no key of the caller's |
| Service.TicketService.Reserve | services/ticket-service/internal/idempotency/middleware.go:83-95 | the handler is entered exactly when there is no key or the key was free, and then the key is the request's, in flight |
| Service.TicketService.FinishKey | services/ticket-service/internal/idempotency/middleware.go:124-146 | unless the write fails, the key, the request's and in flight, is gone after a server error and has the response of a 200; in every other case it stays as it was, and nothing else changes |
| Service.TicketService.Serve | services/ticket-service/internal/idempotency/middleware.go:57-158 | the middleware around a handler is a legal run of the machine; the handler runs exactly when there is no key or the insert finds it free; others are told what the key's row calls for; a replay, a refusal or any answer but 200 means that the request charged nothing and cancelled nothing, and a 200 that it did |
| Service.LogsGrow | services/ticket-service/internal/handlers/ticket.go:532-537 | over every run the cancellation log only grows |
| Relaying.Relay.FetchUnpublished | services/ticket-service/internal/outbox/store.go:39-67 | the batch is the oldest unpublished rows nobody has locked, as stored, all of them if they fit the limit; they are locked then, and no other lock changes |
| Relaying.Relay.MarkPublished | services/ticket-service/internal/outbox/store.go:69-78 | unless it fails or another relay has locked a row, marks exactly the batch, all of it already in the broker's log, and changes nothing else |
| Relaying.Relay.PublishBatch | services/ticket-service/internal/outbox/relay.go:93-142 | on success the batch is the oldest waiting rows of a state passed through, and all of it is in the logs and published; on an error the count is zero, the relay idle, and something failed or another relay had locked a row of the batch |
| Relaying.Relay.Run | services/ticket-service/internal/outbox/relay.go:58-78 | one poll a tick, each without an error taking the oldest rows waiting in a state passed through; what the ticks count is the rows of the batches they delivered, all in the logs and published at the end, whatever ran in between |
| Consuming.NotificationConsumer.Handle | services/ticket-service/internal/outbox/consumer.go:76-120 | unless the database fails, tells a message once, for its own ticket and user, the confirmation with the amount for a purchase, the notice of the refund for a cancellation; a failure changes no notification, and a second delivery none either |
| Consuming.NotificationConsumer.Run | services/ticket-service/internal/outbox/consumer.go:46-74 | each round takes up one message while there is one; everything before the position reached has been told or its handler failed, and the committed offset is not past it |
| Organizer.MyEvents | services/event-service/internal/handlers/organizer.go:66-122 | 500 exactly when a query fails, 403 unless organiser or admin; otherwise exactly one report for each of the caller's events, all events for an admin, by start time, with the numbers of its tickets, of those purchased and of those for sale, and the sum of the purchased ones' prices |
| Organizer.ReportAddsUp | services/event-service/internal/handlers/organizer.go:87-98 | sold counts the purchased tickets, available those for sale, and together they are the number of tickets minted for the event |
| Organizer.RevenueIsHeldPayments | services/event-service/internal/handlers/organizer.go:87-98 | revenue is the sum of the holders' payments, pending ones included |
| Organizer.PriceSumIs | services/event-service/internal/handlers/organizer.go:92 | the revenue of a set of tickets is the price of any one of them and the revenue of the rest |

## Left out

- Real time: `created_at` and `purchased_at` are the claim's place in commit order, and timeouts, cancelled contexts and lost connections are steps that may fail at any point.
- A commit whose acknowledgement is lost: a transaction commits and is reported, or rolls back; the crash step covers a process that dies right after committing.
- PostgreSQL: constraints are facts of the model; the claim's SELECT picks and locks in one step, a statement that must wait for a row lock runs once the lock is free or gives up, and an UPDATE of several outbox rows takes their locks at once (so the no-deadlock theorem does not cover two relays marking overlapping batches row by row).
- Serializable snapshot isolation: any attempt may be aborted as a serialization failure; one whose ticket row changed after its snapshot always is.
- The broker: partition logs only grow, keys map to partitions by a fixed function, a write attempt appends a prefix of each partition's share; consumer group rebalancing is a restart at the committed offset.
- Identifiers: UUIDs are fresh names, ticket ids are ordered, a client's key never equals the `payment_` fallback, and QR codes are an injective function of the ticket; hashes are equal exactly when bodies are.
- Amounts are unbounded integers in cents; a negative price fails the CHECK on `amount_cents`, BIGINT overflow is not modelled, and currency, metadata and payment methods are dropped.
- The provider: an error means that nothing was charged or refunded. The handlers of `Service` run against FakeProvider, which ignores refund keys; the machine and its theorems cover a provider that remembers them as well. The rest of Stripe's client, its own refusal to refund a charge beyond its amount, and webhooks are not part of this model.
- HTTP decoding, JWT and how roles are assigned, logging, health checks, topic creation, event CRUD, receipts, listings, search, the gateway and the front end.
- The reconciliation sweep and key reaping described in the repository's README: they are not implemented there.
- Service.TicketService.Others: its body does nothing; callers use only its contract, which allows every legal run of the rest of the world.
- Relaying.Relay.Run: the endless loop is a given number of ticks.
- HoldTheorems.CalmReleases: one way; the exact condition for a single release is HoldTheorems.ReleaseFreesOwnIff.
- RefundTheorems.NewestRefundsAreSafe: one way; the exact condition is RefundTheorems.RefundOnceIff, which looks at the refunds the provider has issued.
- Organizer.MyEvents: events with equal start times come in id order, and a failure while rows are read is one of the query.
- Consuming.NotificationConsumer.Run: the endless loop is a given number of rounds over one partition, with every other partition part of the interference.
