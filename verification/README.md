# GoodQueue, verified

GoodQueue sells scarce stock through one first-come-first-served queue per product. A user who joins gets a
checkout right at once, or waits until a unit is free and then gets an invitation; both rights run out. Payments
arrive in an inbox, notifications leave through an outbox, and both are worked on by many workers that hold
leases. This project models that core and proves what it promises over every run.

| file | what it holds |
|---|---|
| `Wrappers`, `Domain` | results and errors, attempts, their state changes, counting, bounded arithmetic |
| `Reconciliation` | expiring, selling out and promoting, one transition at a time, and how bounded batches compose |
| `Queue`, `Database` | what every request and every payment transaction does, as functions on a product and on the whole database |
| `QueueInvariants`, `QueueSafety`, `Sales`, `DatabaseInvariants`, `DatabaseSafety`, `PaymentSafety`, `Runs`, `Timing` | the invariant, and that every step of every run keeps it |
| `Outcomes`, `PaymentOutcomes` | what every request and every payment transaction achieves: its answer and all it leaves, by equivalences on the state before |
| `Guarantees` | what users, operators and the payment provider may rely on, over whole runs |
| `Loading`, `TransactionState`, `Repository` | the code itself: a transaction that works in place on the attempts it loaded, and the repository that commits or rolls back; every method is proved equal to its function above |
| `Outbox`, `Publication`, `Delivery` | the outbox repository, the interleaving of its workers, and the delivery of one notification |
| `Worker` | when a product has work, and the reconciliation cycle |
| `Framing` | the canonical, length-prefixed texts behind both command hashes |
| `Verifier`, `Acceptance` | the load-test verifier's checks, and that every reachable state passes them |
| `Adaptive` | the controller of the waiting buffer percentage |

`dafny verify dfyconfig.toml` checks everything.

## How the system is modelled

A run is any sequence of events: joins, checkouts, cancellations, status requests, stock adjustments, background
batches, payment claims, payment transactions, reruns, retries, and the passing of time. Each event is one
transaction under its locks, committed or rolled back; claims, tokens, ids and buffer percentages in the events
are arbitrary, so a worker may hold a claim for as long as it likes and may present one it was never given.
A *moment* is any state that some run reaches from a shop whose products have stock and nobody in line.

Assumptions:

- Database time is an integer that never goes back. Workers' clocks may differ from it where the outbox is
  concerned: they may lag by up to the publisher timeout.
- Database time is counted in nanoseconds while PostgreSQL keeps microseconds, so deadlines are exact for time
  limits that are whole microseconds (`Timing.RightsLastAsConfigured`).
- Both time limits are positive; the configuration loader refuses others (internal/app/config/config.go:411-418).
- Ids are not assumed fresh: a collision is the error of the primary key that the code reports.
- SHA-256 is replaced by the framed text it digests, which makes it injective.
- The unique keys of the tables that the code relies on are part of the state: the attempt id, the inbox id,
  (provider, event id) and the accepted payment reference.
- The look for the attempt and for another owner of a payment reference may see old data (`seesAttempt`,
  `seesOwner`), since neither reads under a lock that would prevent it.
- User and product ids have the length of a canonical UUID where the verifier's concatenated keys depend on it
  (`Acceptance.CanonicalIds`; internal/pkg/domain/user_id.go:13-22 refuses other users).

## Properties that do not hold as promised

- *A join is idempotent under its key* (frontend/README.md:57). A user who is answered with an attempt that is
  already active under another key leaves no row under the new key (internal/repository/postgres/queue_attempt.go:102-121).
  Once that attempt is over, joining under the new key again makes a new attempt. `Guarantees.SecondKeyIsForgotten`
  shows it in every fresh shop, for every user and any two keys; `Guarantees.JoinIsRepeatable` gives the exact condition:
  repetition is for ever if and only if the key was stored before or the user had no other place in the queue.
- *The percentage stays between minimum and maximum.* `validateConfig` does not bound the sum of the maximum and the
  step, which may wrap in 64 bits (internal/adaptivequeue/controller.go:125-143, 282-290). `Adaptive.TopReadingWraps`
  gives the reading that leaves the range, `Adaptive.PercentStaysInRange` the exact condition: it stays for all readings
  if and only if the sum does not wrap. The configuration loader allows at most 500 for either.
- *The creation-order check decides the order.* With a sequence used twice its verdict depends on how the sorter
  arranges ties. `Verifier.TiesLeaveItOpen` gives the input; `Verifier.VerdictOnListing` says that it passes for every
  arrangement if and only if creation follows the sequences and ties were created at the same time, and for some
  arrangement if and only if creation follows the sequences.

## Model

| member | source | states |
|---|---|---|
| Domain.WaitingCapacityIsCeiling | internal/pkg/domain/queue_attempt.go:154-168 | capacity is ceil(stock * percent / 100), refused exactly for negative inputs and when rounding up leaves 64 bits |
| Reconciliation.WorkIsSomething | internal/repository/postgres/queue_attempt.go:692-707 | there is work exactly when the closed-form number of due transitions is positive |
| Reconciliation.StepDoesOneUnit | internal/repository/postgres/queue_attempt.go:618-687 | each transition keeps the reservation counter equal to the rights that are out and does exactly one unit of the due work |
| Reconciliation.IterateWork | internal/repository/postgres/queue_attempt.go:600-690 | a batch of limit n does min(n, due) transitions |
| Reconciliation.ReconcileSettles | internal/repository/postgres/queue_attempt.go:595-598 | an unbounded reconciliation of an honest product succeeds, leaves no work, and a second one changes nothing |
| Reconciliation.BatchesAreOneBatch | internal/repository/postgres/queue_attempt.go:600-690 | successive batches at one time equal a single batch of the summed limit, state and transition count |
| Reconciliation.BatchesConverge | internal/repository/postgres/queue_attempt.go:595-707 | bounded batches that end without more work leave exactly the state and the number of transitions of one unbounded reconciliation, a fixed point; positive limits get there |
| Reconciliation.ReconcileIsSettled | internal/repository/postgres/queue_attempt.go:618-687 | the loops end where each attempt's own deadline and rank among the waiting say: expired, sold out, invited while units last in queue order, or unchanged, with one invitation row per promotion in queue order |
| Reconciliation.ReconcileIsSettlement | internal/repository/postgres/queue_attempt.go:595-690 | every reconciliation of honest counters gives the settlement: each row as its own deadline and rank say, the counter recounted, one invitation row per promotion, nothing left due |
| Reconciliation.InvitationsAreWritten | internal/repository/postgres/queue_attempt.go:795-838 | every invitation row belongs to a row that was promoted and carries its id, its new version, the end of the invitation and the moment it was written |
| QueueInvariants.StepKeepsProduct | internal/repository/postgres/queue_attempt.go:795-886 | one expiry, sell-out or promotion keeps the whole product invariant |
| QueueInvariants.ReconcileKeepsProduct | internal/repository/postgres/queue_attempt.go:595-690 | a reconciliation keeps the invariant, only moves attempts forward and keeps the stock ledger |
| QueueSafety.CreateAttemptIsFair | internal/repository/postgres/queue_attempt.go:709-765 | a new attempt takes a free unit only when nobody waits, fits the capacity when it waits, and gets the next sequence; when it is refused: Outcomes.JoinOutcome |
| QueueSafety.JoinKeepsProduct | internal/repository/postgres/queue_attempt.go:84-157 | Join keeps the product invariant in every outcome |
| QueueSafety.StartCheckoutKeepsProduct | internal/repository/postgres/queue_attempt.go:159-203 | StartCheckout keeps the product invariant in every outcome, which Outcomes.CheckoutOutcome tells |
| QueueSafety.CancelRequestKeepsProduct | internal/repository/postgres/queue_attempt.go:205-242 | Cancel keeps the product invariant in every outcome, which Outcomes.CancelOutcome tells |
| QueueSafety.AdjustStockKeepsProduct | internal/repository/postgres/queue_attempt.go:323-415 | AdjustStock keeps the product invariant, and stock changes by applied deltas only |
| QueueSafety.ActiveIsLatest | internal/repository/postgres/queue_attempt.go:1082-1098 | the active attempt of a user is the user's latest, so Cancel and FindCurrent pick the same one |
| QueueSafety.PositionNeverGrows | internal/repository/postgres/queue_attempt.go:1119-1127 | a waiting attempt's position never grows while the product evolves |
| Loading.PickedCount | internal/repository/postgres/queue_attempt.go:546-593 | counting the loaded attempts equals counting the whole history when all of the kind are loaded |
| Loading.PickedFirst | internal/repository/postgres/queue_attempt.go:1073-1107 | the first loaded attempt of a kind is the first of the whole history |
| Loading.PickedLast | internal/repository/postgres/queue_attempt.go:1091-1098 | the latest loaded attempt of a user is the latest of the whole history |
| TransactionState.Transaction.constructor | internal/repository/postgres/queue_attempt.go:417-449 | a transaction has loaded the active attempts and those in scope |
| TransactionState.Transaction.FindFirst | internal/repository/postgres/queue_attempt.go:1073-1107 | the lookups on loaded attempts find what the whole history holds |
| TransactionState.Transaction.FindLatest | internal/repository/postgres/queue_attempt.go:1091-1098 | the backward scan finds the user's newest attempt of the whole history |
| TransactionState.Transaction.AnswerFor | internal/repository/postgres/queue_attempt.go:1109-1127 | position ahead and total waiting, counted on loaded attempts, are those of the whole history |
| TransactionState.Transaction.ExpireOverdue | internal/repository/postgres/queue_attempt.go:618-638 | the first loop makes exactly the next single transitions on the full table, within the limit |
| TransactionState.Transaction.SellOutWaiting | internal/repository/postgres/queue_attempt.go:640-653 | the second loop continues the same run of transitions |
| TransactionState.Transaction.PromoteWaiting | internal/repository/postgres/queue_attempt.go:654-671 | the third loop continues the same run of transitions, in queue order, while units are free |
| TransactionState.Transaction.HasReconciliationWork | internal/repository/postgres/queue_attempt.go:692-707 | the scan of loaded attempts finds work exactly when the full table holds some |
| TransactionState.Transaction.ReconcileBounded | internal/repository/postgres/queue_attempt.go:600-690 | the three loops in place on partly loaded attempts equal the bounded reconciliation of the full table, with the same count and more-work answer |
| TransactionState.Transaction.ReconcileProduct | internal/repository/postgres/queue_attempt.go:595-598 | the loaded attempts give a limit that is as good as none |
| TransactionState.Transaction.CreateAttempt | internal/repository/postgres/queue_attempt.go:709-793 | creating in place equals creating on the full table |
| TransactionState.Transaction.Join | internal/repository/postgres/queue_attempt.go:84-157 | Join on loaded attempts has the result and the effect on the full table of its function |
| TransactionState.Transaction.StartCheckout | internal/repository/postgres/queue_attempt.go:159-203 | the same for StartCheckout |
| TransactionState.Transaction.Cancel | internal/repository/postgres/queue_attempt.go:205-242 | the same for Cancel |
| TransactionState.Transaction.FindCurrent | internal/repository/postgres/queue_attempt.go:244-276 | the same for FindCurrent |
| TransactionState.Transaction.AdjustStock | internal/repository/postgres/queue_attempt.go:323-415 | the same for AdjustStock |
| Repository.QueueAttemptRepository.Join | internal/repository/postgres/queue_attempt.go:84-157 | committed or rolled back, the database ends as the function on the whole database says |
| Repository.QueueAttemptRepository.StartCheckout | internal/repository/postgres/queue_attempt.go:159-203 | the same for StartCheckout |
| Repository.QueueAttemptRepository.Cancel | internal/repository/postgres/queue_attempt.go:205-242 | the same for Cancel |
| Repository.QueueAttemptRepository.FindCurrent | internal/repository/postgres/queue_attempt.go:244-276 | the same for FindCurrent |
| Repository.QueueAttemptRepository.AdjustStock | internal/repository/postgres/queue_attempt.go:323-415 | the same for AdjustStock |
| Repository.QueueAttemptRepository.ReconcileNextProduct | internal/repository/postgres/queue_attempt.go:451-527 | selects an eligible product that is neither excluded nor locked and gives it one batch; reports none only if there is none; a failure after the selection names the product and changes nothing |
| Repository.QueueAttemptRepository.ClaimPayment | internal/repository/postgres/payment.go:83-164 | claims, replays or turns away exactly as the function on the database says |
| Repository.QueueAttemptRepository.ApplySucceededPayment | internal/repository/postgres/payment.go:240-311 | the purchase in place: already accepted, compensation, lost race, or accepted with stock and reservation given up |
| Repository.QueueAttemptRepository.ApplyFailedPayment | internal/repository/postgres/payment.go:313-361 | the failed payment in place |
| Repository.QueueAttemptRepository.CompleteWithCompensation | internal/repository/postgres/payment.go:363-394 | one compensation row per inbox id, and the stored response |
| Repository.QueueAttemptRepository.CompletePayment | internal/repository/postgres/payment.go:396-423 | closes the inbox row under the fence only |
| Repository.QueueAttemptRepository.LockAndValidateClaim | internal/repository/postgres/payment.go:474-501 | passes exactly the holder of token and generation with the stored command |
| Repository.QueueAttemptRepository.ProcessClaimForProduct | internal/repository/postgres/payment.go:210-238 | one payment transaction, regular or forced, committed or rolled back |
| Repository.QueueAttemptRepository.ProcessPaymentClaim | internal/repository/postgres/payment.go:166-188 | a lost race on the unique index is rerun with forced compensation |
| Repository.QueueAttemptRepository.FinalizeWithoutProduct | internal/repository/postgres/payment.go:425-447 | an event for an unknown attempt is closed under the fence |
| Repository.QueueAttemptRepository.RetryPaymentClaim | internal/repository/postgres/payment.go:190-208 | puts the claim back under the fence only |
| Repository.QueueAttemptRepository.ProcessPayment | internal/repository/postgres/payment.go:57-81 | claim, process, and put back after a failure that is not final |
| PaymentSafety.ClaimKeepsDb | internal/repository/postgres/payment.go:83-164 | a claim keeps the database invariant, and generations never fall |
| PaymentSafety.ProcessOnProductIsSound | internal/repository/postgres/payment.go:210-238 | a payment transaction keeps the invariant, closes exactly its own open event on success and changes nothing on failure |
| PaymentSafety.ProcessClaimIsSound | internal/repository/postgres/payment.go:166-188 | the same for any claim, stale or made up, and any stale reads |
| PaymentSafety.ForceCompensationIsSound | internal/repository/postgres/payment.go:178-187 | the second transaction keeps the invariant |
| PaymentSafety.HeldClaimFinishes | internal/repository/postgres/payment.go:166-188 | a worker that holds its claim finishes the event, in one transaction or, after a lost race, in two |
| PaymentOutcomes.ClaimOutcome | internal/repository/postgres/payment.go:83-164 | at every moment, what a delivery is told and writes: a new event is stored and claimed, another command conflicts (409), a finished one is replayed, one in work or backing off is turned away (202), any other is claimed under the next generation for the time of a lease |
| PaymentOutcomes.SuccessOutcome | internal/repository/postgres/payment.go:240-311 | at every moment, a successful payment buys exactly when its row is in checkout, not overdue, and the reference is free; then the row ends purchased now under it, stock and reservation are given up, nothing is left due; repeated, lost to the unique index, or owed back exactly as the row and the owners of the reference say |
| PaymentOutcomes.FailureOutcome | internal/repository/postgres/payment.go:313-361 | at every moment, a failed payment ends exactly a checkout in force, gives its unit to the first in line and leaves nothing due; for every other state of the settled row the code says why and the row stays |
| PaymentOutcomes.ForcedOutcome | internal/repository/postgres/payment.go:178-187 | at every moment, the second transaction of a worker that lost the race owes the payment back with one compensation row, available now |
| PaymentOutcomes.UnknownAttemptOutcome | internal/repository/postgres/payment.go:425-447 | at every moment, an event whose attempt is not found is closed as unknown (404) and nothing else changes |
| PaymentOutcomes.RefusedOutcome | internal/repository/postgres/payment.go:463-472 | at every moment, a claim that was tampered with or does not pass the fence is refused with its own error and no effect |
| PaymentOutcomes.FenceMeans | internal/repository/postgres/payment.go:474-501 | at every moment, the fence lets exactly those pass who present token, generation and the very command of an event in work |
| Runs.ApplyKeepsDb | internal/repository/postgres/queue_attempt.go:84-527 | every event keeps the database invariant |
| Runs.RunKeepsDb | internal/repository/postgres/queue_attempt.go:84-527 | every run keeps it, and every later state is an evolution of every earlier one |
| Runs.NothingIsOversold | internal/repository/postgres/payment.go:273-306 | in every run reserved is the number of invited and checkout attempts, 0 <= reserved <= stock <= MaxInt32, and stock + purchased = initial stock + applied deltas |
| Guarantees.FirstComeFirstServed | internal/repository/postgres/queue_attempt.go:654-671 | in every run, whoever was ever given a right has nobody with a smaller sequence still waiting, sequences are 1, 2, 3, ..., and positions of those who wait never grow |
| Guarantees.JoinIsFair | internal/repository/postgres/queue_attempt.go:709-765 | at every moment, a join goes straight to checkout only when nobody waits, fits the capacity when it waits, and consumes no sequence when it creates nothing; when it is refused: Outcomes.JoinOutcome |
| Guarantees.LifeOfAnAttempt | internal/repository/postgres/queue_attempt.go:795-955 | in every run finished attempts are frozen, versions rise and are at most 4, there is one invitation row exactly for promoted attempts, and every right is used before or lost at or after its deadline |
| Timing.RightsLastAsConfigured | internal/repository/postgres/queue_attempt.go:795-911 | in every run, every invitation and every checkout ever granted ends exactly its configured time after it began |
| Guarantees.NotificationFollowsInvitation | internal/repository/postgres/notification_outbox.go:99-126 | at every moment a stored invitation notice is current, by the look into the whole queue, exactly while its attempt is invited and not overdue |
| Outcomes.JoinOutcome | internal/repository/postgres/queue_attempt.go:84-157 | at every moment, exactly when a join is answered with the stored row, the place in force, a new checkout, a new waiting row, or each error: disabled, no stock, sequence used up, capacity out of range, full only when as many wait as ceil(stock * percent / 100), id taken; the fields of the new row, the position told and the table left |
| Outcomes.CheckoutOutcome | internal/repository/postgres/queue_attempt.go:159-203 | at every moment, a user gets in exactly with an own row that is invited or in checkout once settled; an invited row then is in checkout until now plus the time limit; each refusal by an equivalence |
| Outcomes.CancelOutcome | internal/repository/postgres/queue_attempt.go:205-242 | at every moment, the newest active row ends cancelled now and is the answer, its unit goes to the first in line, every other row ends as settled, nothing is left due; each refusal and the unchanged ended row by an equivalence |
| Outcomes.StatusOutcome | internal/repository/postgres/queue_attempt.go:244-276 | at every moment, the status tells the newest row of the user as settled, with the number that wait before it if it waits; not found exactly for strangers |
| Outcomes.AdjustmentOutcome | internal/repository/postgres/queue_attempt.go:323-415 | at every moment, a new adjustment is refused exactly for a stock below zero, below the rights that are out, or above 32 bits, and stored either way; an applied one records the stock before and after and leaves nothing due |
| Guarantees.OneActiveAttempt | internal/repository/postgres/queue_attempt.go:97-152 | at every moment a user has at most one active attempt per product, and it is the newest |
| Guarantees.AnswerCarriesKey | internal/repository/postgres/queue_attempt.go:97-152 | at every moment, a join is answered under its own key if and only if the key is stored or the user has no place |
| Guarantees.JoinIsRepeatable | internal/repository/postgres/queue_attempt.go:97-152 | joining again under the key returns the same attempt for ever and creates nothing, if and only if the key was stored or the user had no place before |
| Guarantees.SecondKeyIsForgotten | internal/repository/postgres/queue_attempt.go:102-121 | in every fresh shop, for every user and any two keys, the second key is answered with the first attempt and, after a cancellation, with a new one |
| Guarantees.AdjustmentsHappenOnce | internal/repository/postgres/queue_attempt.go:334-409 | in every later state an equal command replays its stored outcome without effect and a different one under the key is a conflict without effect |
| Guarantees.FinishedEventIsFrozen | internal/repository/postgres/payment.go:83-164 | a finished inbox row never changes and every later delivery replays its stored response |
| Guarantees.StaleClaimIsInert | internal/repository/postgres/payment.go:474-501 | a claim whose generation has passed, or that was given back, never changes anything again, in any run |
| Guarantees.ClaimsAreExclusive | internal/repository/postgres/payment.go:130-163 | a later claim of an event has a larger generation and ends every earlier one |
| Guarantees.LeaseDecides | internal/repository/postgres/payment.go:130-163 | while a claim is held, another delivery is turned away until exactly the lease has passed and takes over from then on |
| Guarantees.BackoffDecides | internal/repository/postgres/payment.go:190-208 | while nobody has taken it, a claim that was put back can be taken again exactly after the retry delay, in any run |
| Guarantees.ReferencesAreUnique | internal/repository/postgres/payment.go:256-272 | across all products no payment reference is accepted by two attempts |
| Guarantees.PaymentsAreSettled | internal/repository/postgres/payment.go:240-394 | every finished event is settled in exactly one way: bought under its reference, owed back with exactly one compensation row, or unknown attempt; which of them, and what a failed payment does: PaymentOutcomes.SuccessOutcome and FailureOutcome |
| Guarantees.EveryPurchaseIsPaidOnce | internal/repository/postgres/payment.go:273-311 | every purchased attempt has exactly one accepting event, under its own reference |
| Guarantees.ForcedCompensationIsJustified | internal/repository/postgres/payment.go:178-187 | forced compensation happens only when another attempt owns the reference |
| Guarantees.PaymentIsAnswered | internal/repository/postgres/payment.go:57-81 | a payment that nobody interferes with is answered for good, unless it is turned away or its new inbox id is taken |
| Framing.FrameRoundTrip | internal/pkg/domain/payment.go:116-138 | decoding a frame recovers exactly its fields |
| Framing.WriteFrame | internal/pkg/domain/queue_attempt.go:170-195 | the hashing loop writes exactly the frame |
| Framing.PaymentDigestIdentifies | internal/pkg/domain/payment.go:116-138 | payment commands are equal exactly when their canonical texts are |
| Framing.AdjustmentDigestIdentifies | internal/pkg/domain/queue_attempt.go:170-188 | under one key, adjustment commands are equal exactly when their canonical texts are |
| Worker.EligibleHasWork | internal/repository/postgres/queue_attempt.go:505-516 | the selection query and hasReconciliationWork agree |
| Worker.EligibleMeansProgress | internal/repository/postgres/queue_attempt.go:505-516 | a product is selected exactly when a batch of positive limit makes a transition and changes it; the remaining work falls by exactly the transitions made |
| Worker.EligibilityLasts | internal/repository/postgres/queue_attempt.go:458-475 | what was due at the selection is still due at the reading under the lock |
| Worker.Supervisor.ReconcileCycle | internal/worker/worker.go:122-158 | amid anything others do, a cycle is a run with at most one batch per pick, every pick eligible, free and new; no failed transaction ends it; it stops only when cancelled, at its limit, on a connection lost before a product is known, or with nothing eligible left; failed and immediate are given exactly; amid nothing but failures of single transactions exactly the products with work are picked, up to the limit, and each is serviced or, when its own transaction fails, unchanged |
| Worker.IdleMeansSettled | internal/worker/worker.go:131-149 | below its limit a cycle amid nothing but failures of single transactions picks every product with work; work remains only where the transaction failed or the batch ran into its limit |
| Outbox.BackoffIsCappedDoubling | internal/repository/postgres/notification_outbox.go:190-200 | the delay is min(base * 2^(n-1), limit) for all valid delays, within base and limit, without wrapping |
| Outbox.BackoffGrows | internal/repository/postgres/notification_outbox.go:190-200 | the delay never falls as attempts grow |
| Outbox.NotificationOutboxRepository.ClaimNotification | internal/repository/postgres/notification_outbox.go:28-77 | leases one of the oldest due unlocked rows for the given time under the next generation, or finds none only if there is none |
| Outbox.NotificationOutboxRepository.ClassifyInvitation | internal/repository/postgres/notification_outbox.go:99-126 | obsolete exactly for invitation notices whose invitation is not in force anywhere in the queue |
| Outbox.NotificationOutboxRepository.FinalizeNotification | internal/repository/postgres/notification_outbox.go:137-158 | closes the row for the lease holder only |
| Outbox.NotificationOutboxRepository.RetryNotification | internal/repository/postgres/notification_outbox.go:160-188 | reschedules for the lease holder only, by the capped doubling |
| Publication.StepKeepsBoard | internal/worker/worker.go:184-231 | every claim, publication, finalization, retry, failed closing statement and clock step of any worker keeps the lease invariant |
| Publication.PublicationsNeverOverlap | internal/worker/worker.go:202-231 | publications of one row under different leases never overlap, even with clocks that lag by up to the publisher timeout |
| Publication.OldLeasesAreInert | internal/repository/postgres/notification_outbox.go:137-188 | once a lease is over, nothing under its generation ever closes or reschedules a row |
| Publication.SentIsFinal | internal/repository/postgres/notification_outbox.go:137-158 | a sent row never changes, and was published under its last lease or marked obsolete |
| Publication.UnsentRowsComeDue | internal/repository/postgres/notification_outbox.go:28-77 | in every reachable state, a row can be taken exactly when it is not sent and its lease, or else the time it was put off to, has passed |
| Delivery.Courier.DeliverNotification | internal/worker/worker.go:202-231 | the delivery's calls amid all others are a run of that protocol; it publishes exactly when the invitation is in force at the classification and time is left, marks sent exactly after a successful publication, obsolete exactly when the invitation is not in force, puts the row back otherwise, and leaves it leased exactly when the closing statement fails |
| Verifier.CheckInventory | internal/loadtest/verify.go:287-301 | passes exactly when 0 <= reserved <= stock everywhere; the cap on details never changes the verdict |
| Verifier.CheckActiveAttempts | internal/loadtest/verify.go:303-316 | passes exactly when no two active attempts share user and product key |
| Verifier.CheckSequences | internal/loadtest/verify.go:318-341 | passes exactly when sequence keys are distinct and each listed product's maximum, count and next sequence agree |
| Verifier.SequencesPassMeansContiguous | internal/loadtest/verify.go:318-341 | for positive sequences it passes if and only if no sequence is used twice in any product and each listed product uses exactly 1..n and expects n + 1 |
| Verifier.CheckFIFO | internal/loadtest/verify.go:343-357 | passing means creation times follow sequences in every product; creation in sequence order with ties created at the same time means passing |
| Verifier.EveryArrangementPasses | internal/loadtest/verify.go:347-354 | on one product the check passes for every arrangement of ties if and only if creation follows the sequences and ties were created at the same time |
| Verifier.SomeArrangementPasses | internal/loadtest/verify.go:347-354 | it passes for some arrangement if and only if creation follows the sequences |
| Verifier.VerdictOnListing | internal/loadtest/verify.go:343-357 | the same two equivalences over all products of a listing |
| Verifier.TiesLeaveItOpen | internal/loadtest/verify.go:347-354 | two attempts that share a sequence and differ in creation time pass or fail with the arrangement |
| Verifier.CheckIdempotency | internal/loadtest/verify.go:379-390 | passes exactly when attempts with the same join key have the same id |
| Verifier.CheckStateTimestamps | internal/loadtest/verify.go:412-451 | passes exactly when every attempt's timestamps fit its state |
| Verifier.ActiveKeyIdentifies | internal/loadtest/verify.go:303-316 | for UUID users the concatenated key identifies user and product |
| Verifier.JoinKeyIdentifies | internal/loadtest/verify.go:379-390 | for UUID users and products the concatenated key identifies user, product and key |
| Verifier.SequenceKeyIdentifies | internal/loadtest/verify.go:318-341 | the concatenated key identifies product and sequence |
| Verifier.Evaluate | internal/loadtest/verify.go:145-189 | the verdict is the conjunction of the six modelled checks |
| Acceptance.EveryMomentPasses | internal/loadtest/verify.go:145-189 | every reachable state passes the inventory, one-active, sequence, creation-order, idempotency and timestamp checks |
| Acceptance.VerifyMoment | internal/loadtest/verify.go:145-189 | the six modelled checks together report success on every reachable state |
| Acceptance.OrderNeedsTheLock | internal/repository/postgres/queue_attempt.go:429-441 | an attempt created with an older clock reading than the newest attempt's fails the creation-order check, and any other passes |
| Adaptive.TargetIsSmallestCover | internal/adaptivequeue/controller.go:266-273 | the target is the smallest permitted percentage that covers the expected failures per purchase, or the maximum |
| Adaptive.ReadingIsJudged | internal/adaptivequeue/controller.go:163-229 | every reading is skipped for each reason, or aims at the smallest permitted cover, exactly as its figures say; the rounding of the success share to two decimals is resolved to an exact bound on the requests |
| Adaptive.StepsStayInRange | internal/adaptivequeue/controller.go:282-290 | steps stay in the range if and only if maximum plus step does not wrap |
| Adaptive.TopReadingWraps | internal/adaptivequeue/controller.go:195-208 | when maximum plus step wraps, a reading with nothing sold takes the maximum out of the range |
| Adaptive.PercentStaysInRange | internal/adaptivequeue/controller.go:163-229 | a percentage in the range stays there for all readings if and only if maximum plus step does not wrap |
| Adaptive.OneReading | internal/adaptivequeue/controller.go:163-229 | a reading moves the percentage by min(step, distance) towards its target, a skipped one not at all |
| Adaptive.ReadingsStayInRange | internal/adaptivequeue/controller.go:163-229 | any sequence of readings stays within minimum and maximum |
| Adaptive.SteadyProgress | internal/adaptivequeue/controller.go:282-290 | under a constant target every reading closes the gap by one step until it is closed |
| Adaptive.TargetReachedOnTime | internal/adaptivequeue/controller.go:282-290 | a constant target is reached after exactly ceil(distance / step) readings and kept |
| Adaptive.Controller.Refresh | internal/adaptivequeue/controller.go:163-264 | publishes the next percentage and reports reason, target, figures and times as the reading demands |

## Left out

- SQL text, drivers, connections and context cancellation inside a transaction: each transaction is one step that commits or leaves the database unchanged.
- HTTP handlers, authentication, logging, metrics, recommendations, fixtures, report files and the frontend: plumbing around the core.
- Parsing and trimming of commands, and JSON payloads: commands arrive parsed; a stored payload is the command itself.
- SHA-256: only the injective framing is proved.
- The order in which eligible products are tried (updated_at, id), and the order of outbox rows that tie on availability and creation: any order is allowed.
- updated_at and completed_at of products, inbox and outbox rows, and terminal_message, which always equals the terminal reason.
- 64-bit overflow of lease generations, of counts and of timestamps: integers are unbounded there.
- Schema checks of the migrations: what the code needs of them is proved as part of the invariant, except the unique keys, which are part of the state.
- FindActiveByUser: a read-only list over products that would only add an easy member.
- outboxCycle and runLoop: bounded repetition of a claim and a delivery, and waiting between cycles.
- The verifier's checks against the fixture (seed records, allowed attempts, references) and of waiting positions, which repeats the uniqueness of sequences; unknown state names cannot occur in the model.
- The mock API, which does not promote: it does not have the order guarantees.
- Floating point: percentages and rates are exact reals, so rounding of 64-bit floats is not modelled.
- Repository.QueueAttemptRepository.ProcessPayment: composes its transactions without others in between; what interleaving can do is covered by the events of Runs.
- Guarantees.PaymentIsAnswered: speaks about a worker that is not interrupted; with interruptions the event may be finished by another worker, which StaleClaimIsInert and FinishedEventIsFrozen cover.
- Delivery.Courier.DeliverNotification: a closing statement that fails has no effect; one that takes effect although the worker sees an error is the case of a statement that goes through.
- Outbox.NotificationOutboxRepository.ClaimNotification: rows that tie on availability and creation are tried in any order, not by id.
- Repository.QueueAttemptRepository.ReconcileNextProduct: eligible products are tried in any order, not by updated_at and id.
- Repository.QueueAttemptRepository.ProcessPaymentClaim: runs its second transaction right after the first; the events PaymentProcessed and PaymentRerun of Runs let others in between.
- TransactionState.Transaction.Join: the number of waiting attempts that the source returns beside a refusal is not part of the result.
- Repository.QueueAttemptRepository.Join: the number of waiting attempts that the source returns beside a refusal is not part of the result.
- TransactionState.Transaction.AdjustStock: the stored outcome is its stock before and after or its error; the adjustment id, the HTTP status and the body are not modelled.
- Repository.QueueAttemptRepository.AdjustStock: the adjustment id, the HTTP status and the body are not modelled.
- Verifier.Evaluate: six of the ten checks; the three checks against the fixture and the check of waiting positions are left out as said above.
- Acceptance.VerifyMoment: the same six checks.
- Adaptive.TargetIsSmallestCover: quotients beyond 64 bits, whose conversion to an integer Go leaves to the implementation and which may then be clamped to the minimum, are converted exactly here.
