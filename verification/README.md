# KailoPay: the money paths, verified

A Dafny model of the parts of the backend that move money or promise
convergence, with proofs of what they promise.

* **The ledger.** Orders, event logs, reservations, the treasury counter,
  Stellar intents, the outbox, payouts, idempotency bindings, checkouts and
  callback receipts are one value, `Ledger.Db`. Each repository transaction is
  a function on it that commits new tables or rolls back (`Ledger.dfy`), and a
  method of the class `Repositories.Database` that writes the tables row by
  row, restores them when a statement fails, and is proved to do what the
  function says (`Repositories.dfy`). `Invariant.dfy` says what is true of the
  tables: a predicate on all that they hold about one order, and the facts
  that span orders. `Transactions.dfy` proves that every transaction keeps it
  and never takes history back; `Sweeps.dfy` does so for the batch sweeps.
  `Effects.dfy` says of each transaction exactly when it commits and what it
  leaves, in terms of the order, and `Terms.dfy` follows the terms of a request
  to what is transferred, deposited and paid out for it.
* **Submission.** `Submission.dfy` is a machine of the tables, the Stellar
  network and any number of settlement and retirement runs, each a program
  counter. Runs interleave with each other and with every other call
  (`Background.dfy`), crash between any two steps and act on old answers.
  `SubmissionProof.dfy` proves its invariant and `Outcomes.dfy` what follows
  in every reachable state, each for settlement runs that never overlap, that
  overlap with one builder at a time, or that overlap freely. `Workers.dfy`
  holds the two workers step by step, and proves what an uninterrupted call
  does for every answer and that it is a run of that machine. `Overlap.dfy`
  shows what goes wrong when two runs build for one transfer.
* **Use cases.** Idempotent creation, selling and payment callbacks
  (`Workflows.dfy`), the request fingerprint (`Requests.dfy`) and the deposit
  scan (`Deposits.dfy`).
* **Webhooks.** Attempts, leases, supersession and replays of one event
  (`Webhooks.dfy`), their fencing under any interleaving
  (`WebhookFencing.dfy`), and one delivery pass (`WebhookDelivery.dfy`).
* **Identity checks.** Convergence of provider events (`Kyc.dfy`).
* **Arithmetic and codecs.** Quotes (`Quotes.dfy`) and the text of their rates
  (`Prices.dfy`), the stroop printer and its two parsers (`Amounts.dfy`), and
  the deposit memo (`Memos.dfy`).

`dafny verify dfyconfig.toml` checks the whole project.

## Assumptions

* A transaction is one atomic step: it commits once or has no effect. The
  unique keys are those of the entity files (one Stellar transaction per order
  and purpose, unique hashes, one reservation, one payout, one event per order
  and version) and of `migrations/000006_consumer_order_ownership.up.sql` for
  idempotency records.
* The network answers truthfully when it answers: a transaction reported
  confirmed is applied; a retryable rejection never reaches the ledger; a
  permanent failure on submission never succeeds; a permanent failure found by
  hash is recorded on the ledger as failed. What has been decided for a hash
  stays decided. Nothing is assumed of what is built: two builds may give one
  hash, and the unique key on hashes deals with it. (Only where transfers lose
  hashes they sent, by overlapping freely, could a retirement be confirmed by
  a transaction that is also a lost transfer; `Outcomes.EndedOneWay` says so.)
* For what becomes of transfers, and only for that: never two settlement runs
  of one transfer have both found no hash and saved none yet. `MarkSubmitted`
  has no guard, and `Overlap.dfy` shows that the theorems fail from every state
  in which two runs have; a lease that runs out while its run is alive is
  enough. That a settled transfer keeps its row asks more, that its runs do not
  overlap at all (`Overlap.SettledTransferCanReopen`). Retirements, logs, jobs, reservations, the treasury, payouts
  and bindings need no such condition.
* The digest of request fingerprints has no collisions.
* Clocks are arbitrary integers in every protocol; nothing depends on them
  moving forward.

## Where code and comments differ

* `ClassifyWebhookDelivery` also retries 409 and 425, which its comment leaves
  out; the model follows the code.
* The sweep of expired reservations is said to release what has expired, but
  rows held for orders in another status stay first in its queue
  (`Sweeps.HeldRowsStarveTheSweep`, and `Sweeps.SweepReachesAll` for when it
  does reach every row).
* An admission that would leave the treasury short rolls back the observed
  balance it wrote, so the stored row always covers the reservations and the
  buffer, not only at the moment of admission. What the balance really is
  between admissions is known to nobody.
* A paid callback for an order that has meanwhile expired is refused and its
  receipt stays unprocessed, so each redelivery is refused again
  (`Workflows.OnrampCallbackUsecase.Process`).
* A deposit scan stops at the first order the repository refuses, so the
  candidates after it wait for the next scan.

## Model

| member | source | states |
|---|---|---|
| `Orders.Order.Advance` | internal/entity/order.go:52-59 | A transition succeeds exactly when the machine allows it, then moves the status and adds one to the version; a refused one changes neither. |
| `Orders.ReplayIffChained` | internal/entity/order.go:52-86 | Replaying an event log through the machine succeeds if and only if its versions are 1..n, each event starts where the one before ended and each step is allowed; it then reaches the last status at version n. |
| `Orders.LogsAreShortAndAcyclic` | internal/entity/order.go:61-86 | No sound log visits a status twice, and none has more than six events. |
| `Orders.FinalStatusEndsTheLog` | internal/entity/order.go:61-86 | A sound log that ends in a status the machine allows nothing after has no longer sound log. |
| `Orders.SoundLogsAreLives` | internal/entity/order.go:61-86 | Every sound log is the beginning of one of thirteen listed lives of an order. |
| `Orders.LivesAreAllowed` | internal/entity/order.go:61-86 | Conversely, a log numbered from 1 whose events are linked is sound if and only if it is the beginning of one of those lives. |
| `Repositories.Database.AppendEvent` | internal/repository/onramp_repository.go:475-491 | An event is appended exactly when no event of the order has its version. |
| `Repositories.Database.Advance` | internal/repository/onramp_repository.go:471-497 | The order row and its event move together, as the specification of a move says, or the version is taken. |
| `Repositories.Database.FinishMessages` | internal/repository/settlement_repository.go:237-241 | The loop finishes exactly the unprocessed messages of the topic and order. |
| `Repositories.Database.ReserveAndCreate` | internal/repository/onramp_repository.go:64-131 | Written row by row, the transaction commits exactly the specified tables or leaves them as they were with the same error. |
| `Repositories.Database.AttachCheckout` | internal/repository/onramp_repository.go:133-178 | The same for the checkout and the move to payment pending. |
| `Repositories.Database.FailCheckout` | internal/repository/onramp_repository.go:391-421 | The same for a checkout that failed: reservation released, amount returned, order failed. |
| `Repositories.Database.ConfirmPayment` | internal/repository/onramp_repository.go:248-296 | The same for a confirmed payment: two moves, one intent, one job, one matched receipt, or nothing. |
| `Repositories.Database.RecordReceipt` | internal/repository/onramp_repository.go:189-223 | A receipt is stored once; a repeat reports whether it was processed, another payload under the same event id is refused. |
| `Repositories.Database.ExpectedPayment` | internal/repository/onramp_repository.go:225-246 | A checkout is found exactly when one is known under the id, as checkout or as payment request. |
| `Repositories.Database.LeaseOutbox` | internal/repository/settlement_repository.go:30-58 | A job is leased exactly when a message of the topic is leasable and not locked, and the one leased was available first, and of those created first. |
| `Repositories.Database.MarkSubmitted` | internal/repository/settlement_repository.go:125-129 | The unguarded hash write, subject only to the unique key on hashes. |
| `Repositories.Database.RetryLater` | internal/repository/settlement_repository.go:226-233 | The loop reschedules exactly the open settlement messages of the order and drops their leases. |
| `Repositories.Database.Confirm` | internal/repository/settlement_repository.go:131-186 | Settlement commits intent, reservation, treasury, order, event and job together or changes nothing. |
| `Repositories.Database.FailPermanent` | internal/repository/settlement_repository.go:193-224 | Permanent failure commits intent, order, event and job together; the reservation stays reserved. |
| `Repositories.Database.ReleaseExpiredReservations` | internal/repository/settlement_repository.go:255-293 | The sweep takes the earliest due rows up to the limit, is the fold of the one-row release over them, and counts the rows whose order awaited payment; any error restores the tables. |
| `Repositories.Database.CreateOfframp` | internal/repository/offramp_repository.go:62-116 | The sell order, its two events and its binding are written together or not at all. |
| `Repositories.Database.ExpirePendingDeposits` | internal/repository/offramp_repository.go:143-176 | The sweep takes the earliest due orders up to the limit and expires every one, or restores the tables; a limit of zero or less does nothing. |
| `Repositories.Database.RecordAssetReceived` | internal/repository/offramp_repository.go:181-251 | Deposit evidence, two moves, retirement intent and job are written together or not at all; an order already received is left alone. |
| `Repositories.Database.RecordAssetInvalid` | internal/repository/offramp_repository.go:265-283 | Only a pending order becomes invalid. |
| `Repositories.Database.SaveRetirementHash` | internal/repository/offramp_repository.go:316-332 | The guarded claim succeeds only on a pending intent without a hash. |
| `Repositories.Database.ResetRetirementHash` | internal/repository/offramp_repository.go:334-345 | Only the submitted hash named by the caller is cleared. |
| `Repositories.Database.RequeueUnsubmittedRetirements` | internal/repository/offramp_repository.go:349-385 | The loop restarts exactly the exhausted jobs whose retirement was never sent, and counts them. |
| `Repositories.Database.SimulateRetirement` | internal/repository/offramp_repository.go:389-446 | A retirement is simulated only before anything was sent, with its move, job and payout job. |
| `Repositories.Database.ConfirmRetirement` | internal/repository/offramp_repository.go:450-492 | A retirement is confirmed only with its stored hash, with its move, job and payout job. |
| `Repositories.Database.FailRetirement` | internal/repository/offramp_repository.go:567-597 | A retirement fails with its order and job. |
| `Repositories.Database.CompleteSandboxPayout` | internal/repository/offramp_repository.go:515-565 | One payout per order, the order completed, the message finished; redelivery is safe. |
| `Transactions.ReserveAndCreateKept` | internal/repository/onramp_repository.go:64-131 | Creating an on-ramp order keeps the invariant of the tables and extends their history. |
| `Transactions.Admitted` | internal/repository/onramp_repository.go:73-80 | An admitted order finds the observed balance covering all reservations and the operating buffer, its own fee included. |
| `Transactions.AttachCheckoutKept` | internal/repository/onramp_repository.go:133-178 | Attaching a checkout keeps the invariant. |
| `Transactions.ReleaseKept` | internal/repository/onramp_repository.go:391-421 | Both ways of giving a reservation back keep conservation and status correspondence. |
| `Transactions.FailCheckoutKept` | internal/repository/onramp_repository.go:391-421 | A failed checkout keeps the invariant. |
| `Transactions.ReleaseExpiredKept` | internal/repository/settlement_repository.go:264-289 | Expiring one reservation keeps the invariant, whatever the status of its order. |
| `Transactions.MarkCheckoutUnknownKept` | internal/repository/onramp_repository.go:184-187 | Marking an unknown checkout keeps the invariant and changes neither status nor log of any order. |
| `Transactions.ConfirmPaymentKept` | internal/repository/onramp_repository.go:248-296 | Confirming a payment keeps the invariant: a job and an intent exactly with the new status. |
| `Transactions.WorkKept` | internal/repository/settlement_repository.go:125-129 | The writes of a run keep the invariant on a retirement being worked on and, being unguarded, on a transfer in any state; the strict invariant asks that the transfer is still being settled. |
| `Transactions.ConfirmKept` | internal/repository/settlement_repository.go:131-186 | Confirming a settlement keeps the invariant and returns exactly what was reserved. |
| `Transactions.FailPermanentKept` | internal/repository/settlement_repository.go:193-224 | Failing a settlement keeps the invariant with the reservation still reserved. |
| `Transactions.OutboxRewriteKept` | internal/repository/settlement_repository.go:226-233 | Leases, reschedulings and requeueings lose and orphan no job. |
| `Transactions.CreateOfframpKept` | internal/repository/offramp_repository.go:62-116 | Creating a sell order keeps the invariant. |
| `Transactions.DepositClosedKept` | internal/repository/offramp_repository.go:265-283 | Expiring or invalidating a pending deposit keeps the invariant. |
| `Transactions.RecordAssetReceivedKept` | internal/repository/offramp_repository.go:181-251 | Receiving a deposit keeps the invariant: no deposit hash backs two orders, and retirement work exists from then on. |
| `Transactions.SaveRetirementHashKept` | internal/repository/offramp_repository.go:316-332 | Claiming a retirement keeps the invariant. |
| `Transactions.ResetRetirementHashKept` | internal/repository/offramp_repository.go:334-345 | Clearing a rejected retirement keeps the invariant. |
| `Transactions.SimulateRetirementKept` | internal/repository/offramp_repository.go:389-446 | Simulating a retirement keeps the invariant. |
| `Transactions.ConfirmRetirementKept` | internal/repository/offramp_repository.go:450-492 | Confirming a retirement keeps the invariant. |
| `Transactions.FailRetirementKept` | internal/repository/offramp_repository.go:567-597 | Failing a retirement keeps the invariant. |
| `Transactions.RepeatedPayout` | internal/repository/offramp_repository.go:515-565 | The payout of a completed order, delivered again, commits the tables unchanged. |
| `Transactions.CompletePayoutKept` | internal/repository/offramp_repository.go:515-565 | A payout keeps the invariant: one payout, of the fiat amount, exactly for completed orders. |
| `Transactions.SlotsFree` | internal/entity/order_event_model.go:7-8 | Under the invariant the unique key on order and version never stands in the way of the next event. |
| `Background.PerformKept` | internal/repository/onramp_repository.go:248-296 | Every call outside the submission workers keeps the invariant and extends the history. |
| `Background.PerformLeavesWorkAlone` | internal/repository/offramp_repository.go:181-251 | No such call touches a Stellar transaction already there or an order already handed over to the workers, and every transaction it opens is pending without a hash. |
| `Effects.ReserveOutcome` | internal/repository/onramp_repository.go:64-131 | Under the invariant, an order is admitted if and only if the observed balance, less the sum of what is reserved and the buffer, covers one fee and its id and key are new; it then has the terms of its request, and one fee is reserved until its quote expires. |
| `Effects.AttachOutcome` | internal/repository/onramp_repository.go:133-178 | A checkout is attached if and only if the order is created and the provider ids are new; it asks for the fiat amount of the order, which then awaits payment. |
| `Effects.FailCheckoutOutcome` | internal/repository/onramp_repository.go:391-421 | A failed checkout ends a created order and no other: it has failed, its reservation is released and the sum reserved is one fee less. |
| `Effects.UnknownCheckoutOutcome` | internal/repository/onramp_repository.go:184-187 | An unknown checkout is noted on a created order only and changes nothing else. |
| `Effects.PaymentOutcome` | internal/repository/onramp_repository.go:248-296 | A payment is accepted if and only if its order awaits one or was paid; the first time the transfer of exactly its stroops is requested and its job can be leased from then on and not before, and again nothing changes. |
| `Effects.ReleaseExpiredOutcome` | internal/repository/settlement_repository.go:264-289 | The expiry of a reservation expires its order and gives the fee back if the order awaits payment, and otherwise changes nothing. |
| `Effects.ConfirmOutcome` | internal/repository/settlement_repository.go:131-186 | A transfer is confirmed if and only if the hash is the stored one and its order is being settled, or it was confirmed already; then order, reservation, reserved sum, intent and job end together, and no other order changes. |
| `Effects.FailPermanentOutcome` | internal/repository/settlement_repository.go:193-224 | A transfer fails if and only if its order is being settled; order, intent and job fail together and the reservation stays. |
| `Effects.SubmittedOutcome` | internal/repository/settlement_repository.go:125-129 | A hash is stored with a transfer, whatever was stored before, if and only if no other transaction has it, and counts as one more attempt. |
| `Effects.DoubtOutcome` | internal/repository/offramp_repository.go:334-345 | A hash in doubt stays and a rejected one goes, and the attempts stay counted; that of a retirement goes if and only if it is the stored one and the retirement is still wanted. |
| `Effects.SaleOutcome` | internal/repository/offramp_repository.go:62-116 | A sale is created if and only if its id and key are new, on exactly the terms of its request. |
| `Effects.DepositClosedOutcome` | internal/repository/offramp_repository.go:265-283 | Expiry and invalidation end a sale if and only if it awaits its deposit. |
| `Effects.DepositOutcome` | internal/repository/offramp_repository.go:181-262 | A deposit is taken if and only if the sale already has one, or awaits one and the payment is on the ledger, carries its memo to its account in its asset and exact amount, and backs nothing else; any other payment is refused. It is kept as evidence and the retirement can be leased from then on. |
| `Effects.ClaimOutcome` | internal/repository/offramp_repository.go:316-332 | A retirement is claimed if and only if its order waits for it, nothing was sent for it and no transaction has the hash. |
| `Effects.SimulationOutcome` | internal/repository/offramp_repository.go:389-446 | A retirement is simulated if and only if its order waits for it and nothing was sent for it, or it was already; the payout can be leased from then on. |
| `Effects.RetirementOutcome` | internal/repository/offramp_repository.go:450-492 | A retirement is confirmed if and only if the hash is the stored one and its order waits for it, or it was already; the payout can be leased from then on. |
| `Effects.RefusalOutcome` | internal/repository/offramp_repository.go:567-597 | A retirement fails if and only if its order waits for it. |
| `Effects.PayoutOutcome` | internal/repository/offramp_repository.go:515-565 | A payout is made if and only if the asset of its order is retired: once, of its fiat amount, under a reference made from its id. |
| `Effects.LeaseOutcome` | internal/repository/settlement_repository.go:30-58 | A leased job cannot be leased again until its lease has ended and while attempts are left, and is never leased beyond the limit. |
| `Effects.RetryOutcome` | internal/repository/settlement_repository.go:226-233 | A job put off can be leased exactly from its new time on while attempts are left; no other message changes. |
| `Effects.RequeueOutcome` | internal/repository/offramp_repository.go:349-385 | A requeue makes exactly the exhausted, unheld retirement jobs for which nothing was sent leasable again from now on. |
| `Sweeps.SelectEarliest` | internal/repository/settlement_repository.go:259-261 | The rows selected are distinct, due, in order of due time and at most the limit, and no row left out is earlier. |
| `Sweeps.ReleaseSweep` | internal/repository/settlement_repository.go:255-293 | A sweep never fails, keeps the invariant and expires exactly its rows whose orders await payment. |
| `Sweeps.SweepReachesAll` | internal/repository/settlement_repository.go:255-293 | When the due reservations fit the limit, every due order that awaits payment expires. |
| `Sweeps.SweepExpiresTheOverdue` | internal/repository/settlement_repository.go:255-293 | A sweep expires an order only if it awaits payment past the expiry of its reservation, and passes over such an order only for as many rows as the limit that were due no later. |
| `Sweeps.SweepClosesTheOverdue` | internal/repository/offramp_repository.go:143-176 | The same of sales whose window has closed without a deposit. |
| `Sweeps.IdleSweeps` | internal/repository/settlement_repository.go:269-271 | A sweep leaves the tables alone if and only if none of its rows awaits payment. |
| `Sweeps.HeldRowsStarveTheSweep` | internal/repository/settlement_repository.go:251-271 | Reservations held for orders in another status keep their place at the head of the queue: once they fill the limit the sweep releases nothing, although others are due. |
| `Sweeps.DepositSweep` | internal/repository/offramp_repository.go:143-176 | The deposit sweep never fails, keeps the invariant, expires its rows and changes no other order. |
| `SubmissionProof.SaveEffect` | internal/repository/settlement_repository.go:125-129 | A saved hash was free, goes to one intent and no other, and leaves every order alone; a retirement had none. |
| `SubmissionProof.MarkUnknownEffect` | internal/repository/settlement_repository.go:188-191 | Marking a transfer unknown keeps its hash, touches nothing else and keeps the invariant in any state of the transfer. |
| `SubmissionProof.ResetEffect` | internal/repository/settlement_repository.go:246-249 | Clearing a hash clears that of one intent, touches nothing else and keeps the invariant in any state of a transfer. |
| `SubmissionProof.SaveKept` | internal/repository/offramp_repository.go:316-332 | Saving a hash keeps the protocol invariant for every other run. |
| `SubmissionProof.SubmitKept` | internal/usecase/offramp_worker_usecase.go:199-202 | Sending a saved hash keeps the invariant for every other run. |
| `SubmissionProof.ActKept` | internal/usecase/settlement_usecase.go:157-173 | Acting on any answer, however old, keeps the invariant for every other run. |
| `SubmissionProof.StepSound` | internal/usecase/offramp_worker_usecase.go:153-243 | Every step of every run, call, crash, lease and network event keeps the protocol invariant and the invariant of the tables, for each of the three degrees to which settlement runs may overlap. |
| `Workers.SettlementUsecase.RunOnce` | internal/usecase/settlement_usecase.go:103-144 | One call runs if and only if a job is leasable. A stored hash is looked up and nothing is sent; without one exactly the transaction built is sent, once its hash is stored; the order then completes, fails or is put off as the last answer says. All of it is a sequence of steps of the protocol. |
| `Workers.SettlementUsecase.SubmitNew` | internal/usecase/settlement_usecase.go:119-143 | A new transaction is sent if and only if it was built and no other has its hash; the tables are then what the answers make of them, and a transaction that was not built puts the job off. |
| `Workers.SettlementUsecase.Reconcile` | internal/usecase/settlement_usecase.go:146-155 | Reconciliation sends nothing and confirms, fails or reschedules exactly as a truthful answer says. |
| `Workers.SettlementUsecase.HandleSubmission` | internal/usecase/settlement_usecase.go:157-173 | Each answer has its own effect on the tables, and an unknown one is reconciled. |
| `Workers.SettlementUsecase.EndedFollows` | internal/usecase/settlement_usecase.go:146-173 | A confirmation completes the order, a permanent failure fails it; after any other answer it is still being settled and its job cannot be leased before the retry delay is over. |
| `Workers.SettlementUsecase.SubmissionFollows` | internal/usecase/settlement_usecase.go:125-143 | A submission ends as its last answer says: a rejected one leaves no hash behind, one in doubt keeps the hash it sent. |
| `Workers.RetireWorker.RunOnce` | internal/usecase/offramp_worker_usecase.go:153-220 | In either configuration a stored hash is looked up, followed and nothing is sent. Without one the simulating worker simulates and sends nothing, and the submitting worker simulates nothing and sends exactly what it built under a free hash. All of it is a sequence of steps of the protocol. |
| `Workers.RetireWorker.SubmitNew` | internal/usecase/offramp_worker_usecase.go:168-219 | A retirement is sent if and only if this worker claimed it, and the tables are then what the answers make of them; a worker that lost the claim changes nothing. |
| `Workers.RetireWorker.HandleSubmission` | internal/usecase/offramp_worker_usecase.go:203-219 | Each answer has its own effect: confirm, fail, clear the hash, wait for the lease, or reconcile. |
| `Workers.RetireWorker.Reconcile` | internal/usecase/offramp_worker_usecase.go:222-243 | Reconciliation sends nothing and confirms or fails exactly as a truthful answer says. |
| `Outcomes.TraceSound` | internal/usecase/offramp_worker_usecase.go:153-243 | Along every trace of interleaved calls, runs and crashes the invariants hold and history only grows, however far settlement runs overlap. |
| `Outcomes.AtMostOneApplied` | internal/usecase/offramp_worker_usecase.go:153-243 | Of all hashes ever sent for a retirement, under any interleaving, at most one is applied, it is the stored one, and no other retirement shares it; the same of transfers as long as at most one run of each builds at a time. |
| `Outcomes.SettledForever` | internal/repository/offramp_repository.go:450-492 | Under any interleaving, once a retirement is settled nothing changes it, and the ledger agrees: confirmed with its stored hash applied, failed or simulated with nothing applied. The same of transfers whose runs do not overlap. |
| `Outcomes.SettlementIsCrashSafe` | internal/usecase/settlement_usecase.go:103-173 | As long as never two runs of one transfer have both found no hash and saved none yet, with crashes anywhere: a completed order has exactly its stored hash applied, a failed one none, one in progress at most its stored hash, any other had nothing sent. |
| `Outcomes.RetirementIsAtMostOnce` | internal/usecase/offramp_worker_usecase.go:153-243 | Under any interleaving of anything: a withdrawal follows one applied retirement or a simulation with none, a failed retirement has none applied. |
| `Outcomes.WorkIsNeverLost` | internal/repository/offramp_repository.go:448-565 | Under any interleaving: an order has exactly one open job of the topic of its stage and none of another; every message names an order. |
| `Outcomes.AttemptsAreCapped` | internal/repository/settlement_repository.go:30-58 | Along every trace no message is leased more often than the largest limit any worker leases with. |
| `Outcomes.LogReplaysToRow` | internal/repository/onramp_repository.go:471-497 | Under any interleaving: every order log is sound and replays to the status and version of its row. |
| `Outcomes.FinalOrdersStay` | internal/entity/order.go:61-86 | Logs are append-only along every trace, so an order in a final status keeps status and version. |
| `Outcomes.TreasuryIsConserved` | internal/repository/onramp_repository.go:73-115 | Under any interleaving: the reserved counter is the sum of the reservations in status reserved, is never negative, and is covered with the buffer by the balance last observed. |
| `Outcomes.ReservationFollowsStatus` | internal/repository/settlement_repository.go:251-293 | Under any interleaving: a reservation is reserved, released or consumed exactly by the status of its order, and a released one has no transfer. |
| `Outcomes.ReleasedNeverTransfers` | internal/repository/settlement_repository.go:251-293 | Under any interleaving: after a release no transfer intent ever appears and nothing is ever sent, whatever expiry and callbacks race. |
| `Outcomes.PayoutIsBacked` | internal/repository/offramp_repository.go:515-565 | Under any interleaving: a payout has its order completed, equals the fiat amount, and is backed by a deposit of exactly the stroops that backs no other order and by a settled retirement. |
| `Outcomes.CompletedWasPaid` | internal/repository/offramp_repository.go:515-565 | Under any interleaving: every completed sell order was paid out, and delivering its payout job again changes nothing. |
| `Outcomes.BoundForever` | internal/usecase/onramp_usecase.go:255-262 | Along every trace an owner, operation and key stay bound to one order, and no two keys share an order. |
| `Terms.SoldAsOffered` | internal/repository/offramp_repository.go:78-80 | From a sale that was made, along every trace: its order keeps the terms of its request, what is deposited and retired is exactly the stroops offered, what is paid out exactly the fiat asked, and it is paid out if and only if it is completed. |
| `Terms.BoughtAsRequested` | internal/repository/onramp_repository.go:81-100 | From an admitted purchase, along every trace: its order keeps the terms of its request, its checkouts ask exactly its fiat amount, evidence that pays one of them pays that, and what is transferred is exactly its stroops. |
| `Overlap.TwoBuildersPayTwice` | internal/repository/settlement_repository.go:125-129 | From every state in which two runs of one transfer have both found no hash, two transfers can be applied for it: the condition of the settlement theorem is where it breaks. |
| `Overlap.OverlappingRunsPayTwice` | internal/usecase/settlement_usecase.go:103-131 | From every state with a settlement job to lease, a second run that leases it after the first lease, of any positive duration, has run out gets there. |
| `Overlap.LateSaveForgetsThePayment` | internal/repository/settlement_repository.go:125-129 | From such a state a late save also overwrites a settled transfer: the order stays completed and no longer stores the hash that was paid. |
| `Overlap.ExclusionIsNeeded` | internal/usecase/settlement_usecase.go:103-131 | Such states are reached from empty tables, for leases of any positive duration, so the condition cannot be dropped. |
| `Overlap.PaymentCanBeForgotten` | internal/repository/settlement_repository.go:125-129 | A reachable completed order need not store what was paid for it. |
| `Overlap.LateMarkReopens` | internal/repository/settlement_repository.go:188-191 | With one builder at a time, a run that heard nothing still marks a transfer unknown that another run found paid and settled. |
| `Overlap.SettledTransferCanReopen` | internal/usecase/settlement_usecase.go:130-133 | So a reachable completed order can have its transfer in status unknown, for leases of any positive duration: what is proved of settled rows needs runs that do not overlap at all. |
| `Workflows.OnrampUsecase.Create` | internal/usecase/onramp_usecase.go:219-280 | Lookup, reservation, second lookup and checkout have the specified tables and outcome. |
| `Workflows.OnrampUsecase.CreateMissed` | internal/usecase/onramp_usecase.go:255-280 | The same from arbitrary tables, as when other requests committed after the first lookup: the loser of a race gets the order of the winner. |
| `Workflows.CreateBinds` | internal/usecase/onramp_usecase.go:195-280 | A create writes nothing, or binds its key to exactly the order it reserves for and adds one reservation. |
| `Workflows.CreateOutcome` | internal/usecase/onramp_usecase.go:243-280 | A create under a new key, for every answer of the gateway: an order that cannot be admitted leaves nothing; declined, it has failed and nothing more is held back than before; unknown, it stays created with its reservation and is marked so; made, it awaits its payment under one checkout of its fiat amount. |
| `Workflows.RepeatsWriteNothing` | internal/usecase/onramp_usecase.go:221-227 | At any later time a repeat gets the order of the first and writes nothing; the same key with another request conflicts and writes nothing. |
| `Workflows.DifferingFieldsConflict` | internal/usecase/onramp_usecase.go:219-227 | With fingerprints of the fields, equal fields replay and any differing field conflicts, without effect. |
| `Workflows.OfframpUsecase.Create` | internal/usecase/offramp_usecase.go:251-323 | The sell workflow has the specified tables and outcome, with the memo made from the order id. |
| `Workflows.SalesRepeatWithoutEffect` | internal/usecase/offramp_usecase.go:254-260 | A repeated sell request replays or conflicts and writes nothing, at any later time. |
| `Workflows.SalesAreFoundByTheirMemo` | internal/usecase/offramp_usecase.go:294-309 | For a sale of a positive amount the scan picks a payment if and only if some recent one passes the check of the repository, and picks one that does. |
| `Workflows.OnrampCallbackUsecase.Process` | internal/usecase/onramp_callback_usecase.go:74-113 | Money moves only on evidence that pays the checkout; receipts are completed exactly when evidence was accepted, mismatched or unmatched, a failed lookup included; a repeat of a processed event changes nothing. |
| `Workflows.AcceptedPaymentIsInFull` | internal/usecase/onramp_callback_usecase.go:94-113 | A callback is accepted if and only if the payment succeeded, in rupiah, in the whole fiat amount of the order, under the reference and channel of its checkout, and the order awaits it or was paid; the order is then settled or being settled. |
| `Requests.Write` | internal/usecase/onramp_usecase.go:325-336 | The loop writes every part after its length. |
| `Requests.EncodeInjective` | internal/usecase/onramp_usecase.go:325-336 | Two lists of fields with one text are the same list, whatever characters the fields hold. |
| `Requests.SameHashSameRequest` | internal/usecase/onramp_usecase.go:325-336 | With a collision-free digest, fingerprints are equal if and only if operation and fields are. |
| `Deposits.DepositScanner.ScanDeposits` | internal/usecase/offramp_worker_usecase.go:70-133 | The nested loops leave the tables, count and error of the specified scan, which stops at the first error. |
| `Deposits.DepositScanner.FindMatch` | internal/usecase/offramp_worker_usecase.go:95-119 | The inner loop finds the first exact match, or else the first payment with the memo and its reason. |
| `Deposits.VerdictIsRight` | internal/usecase/offramp_worker_usecase.go:98-119 | An order is matched if and only if some payment has memo, amount, code and issuer, and invalid if and only if some payment carries the memo and none matches. |
| `Deposits.UsableIsRight` | internal/usecase/offramp_worker_usecase.go:82-87 | Exactly the payments to the account with a hash, a ledger time and a positive amount are considered. |
| `Deposits.ScanRecordsVerdicts` | internal/usecase/offramp_worker_usecase.go:89-132 | A scan that ends without error has recorded its verdict on every candidate. |
| `Deposits.ChosenIsValid` | internal/repository/offramp_repository.go:253-262 | A chosen payment passes the check of the repository if and only if a memo is stored with the order. |
| `Deposits.NoDepositIsOverlooked` | internal/usecase/offramp_worker_usecase.go:70-119 | If any recent payment passes the check of the repository for an order, the scan picks one that does. |
| `Deposits.FirstCarrierIsBlamed` | internal/usecase/offramp_worker_usecase.go:98-119 | An order is turned down for the first payment that carries its memo, for its amount if that differs and for its asset otherwise. |
| `Deposits.NoPaymentTwice` | internal/usecase/offramp_worker_usecase.go:89-119 | No payment is chosen for two orders with canonical UUIDs. |
| `Deposits.ScanKeepsInvariant` | internal/usecase/offramp_worker_usecase.go:70-133 | A scan keeps the invariant of the tables, however stale its candidates. |
| `Memos.Base64RoundTrip` | internal/usecase/offramp_usecase.go:63-66 | Decoding the base64url text of any bytes gives the bytes back (sections 3.2 and 5 of RFC 4648). |
| `Memos.MemoFits` | internal/usecase/offramp_usecase.go:63-76 | Every memo starts with its prefix and fits in 28 bytes, whatever the order id; a packed one takes 25. |
| `Memos.MemoIdentifies` | internal/usecase/offramp_usecase.go:63-67 | Two packed ids share a memo if and only if they are equal up to dashes and case. |
| `Memos.CanonicalMemosDiffer` | internal/usecase/offramp_usecase.go:60-67 | On canonical UUIDs the memo is injective. |
| `Memos.DashesAreForgotten` | internal/usecase/offramp_usecase.go:63-72 | Two different ids that are not UUIDs can share a memo. |
| `Amounts.DigitRoundTrip` | internal/usecase/offramp_usecase.go:327-352 | Parsing the printed text of an int64 gives it back if it is positive and is refused if it is not. |
| `Amounts.PaddedRoundTrip` | internal/repository/settlement_repository.go:295-305 | The settlement parser reads the printed text with any number of zeros appended as the same amount, and only positive amounts. |
| `Amounts.ParsersAgree` | internal/repository/settlement_repository.go:295-305 | The digit parser accepts exactly what the rational parser accepts among texts without sign, leading zero or more than seven decimals, and both read the same amount. |
| `Amounts.Printed` | internal/entity/amount.go:30-34 | The text of an amount is its digits with a dot before the last seven. |
| `Quotes.BuyIsFloor` | internal/usecase/onramp_quote_usecase.go:55-57 | The stroops bought are the largest amount not worth more than the fiat: the exact floor. |
| `Quotes.SellIsFloor` | internal/usecase/onramp_quote_usecase.go:94-95 | The fiat paid is the largest amount not worth more than the stroops: the exact floor. |
| `Quotes.SamePriceSameQuote` | internal/usecase/onramp_quote_usecase.go:52-57 | A quote depends on the price, not on the fraction it is written as. |
| `Quotes.BuyThenSell` | internal/usecase/onramp_quote_usecase.go:39-104 | Selling what was bought never gains, and loses less than one unit and the price of a stroop. |
| `Quotes.SellThenBuy` | internal/usecase/onramp_quote_usecase.go:39-104 | Buying back what was sold never gains. |
| `Quotes.Monotone` | internal/usecase/onramp_quote_usecase.go:55-98 | A larger amount never buys or sells for less. |
| `Quotes.SplittingABuy` | internal/usecase/onramp_quote_usecase.go:55-60 | Splitting an order into k parts never gains and loses at most k-1 stroops. |
| `Quotes.SplittingASale` | internal/usecase/onramp_quote_usecase.go:94-98 | Splitting a sale into k parts never gains and loses at most k-1 units. |
| `Quotes.CreateIsExact` | internal/usecase/onramp_quote_usecase.go:39-66 | A quote is given if and only if policy, amount, age, price and int64 range allow it, and is the floor at the adjusted rate. |
| `Quotes.QuotesSay` | internal/usecase/onramp_quote_usecase.go:39-66 | A quote is valid for its time to live, carries its price and the spread in basis points on top; a refusal names the first of policy or amount, age of the price, price. |
| `Quotes.CreateReverseIsExact` | internal/usecase/onramp_quote_usecase.go:78-104 | A sale is quoted if and only if policy, amount, age, price and int64 range allow it, and the quote is the floor at the adjusted rate. |
| `Quotes.BoughtThenSold` | internal/usecase/onramp_quote_usecase.go:39-104 | Selling what a quote bought, at the same price and policy, is quoted at most what was paid, and less than one unit and the price of a stroop is lost; if it is not quoted, no more than that was paid. |
| `Quotes.SoldThenBought` | internal/usecase/onramp_quote_usecase.go:39-104 | Buying back what a quote sold is quoted at most what was sold. |
| `Quotes.QuotesAreMonotone` | internal/usecase/onramp_quote_usecase.go:39-104 | A larger amount is never quoted for less, on either side. |
| `Quotes.SplittingPurchases` | internal/usecase/onramp_quote_usecase.go:39-66 | k quoted orders get at most what one order of their sum is quoted and at most k-1 stroops less; that order is quoted unless it exceeds an int64. |
| `Quotes.SplittingSales` | internal/usecase/onramp_quote_usecase.go:78-104 | The same of k quoted sales. |
| `Prices.RoundsToNearest` | internal/usecase/onramp_quote_usecase.go:68-73 | The eighteen decimals of a rate are within half a unit of it, the larger of the two when it is half way. |
| `Prices.TextReadsBack` | internal/usecase/onramp_quote_usecase.go:68-73 | The trimmed text reads as the rounded rate and ends in no zero decimal and no dot. |
| `Prices.TextsDiffer` | internal/usecase/onramp_quote_usecase.go:68-73 | Two rounded rates have one text if and only if they are equal. |
| `Kyc.KycRepository.RecordProviderEvent` | internal/repository/kyc_repository.go:172-256 | The method has the specified rows and error: repeats and stale events write no status, conflicts are refused. |
| `Kyc.KycRepository.AttachProviderInquiry` | internal/repository/kyc_repository.go:119-152 | An inquiry is attached once, only while it is awaiting it. |
| `Kyc.EventOutcome` | internal/repository/kyc_repository.go:172-256 | An event is accepted if and only if it is complete, mapped to one of the eight statuses of a provider, of a known inquiry, and new or told before with the same content; a new one leaves its receipt and is shown exactly when it is later, approved at its time if it approves and not approved otherwise. |
| `Kyc.AttachOutcome` | internal/repository/kyc_repository.go:119-152 | An inquiry is attached if and only if it awaits that, or is attached to the same already; then it counts as created. |
| `Kyc.BeforeIsLexicographic` | internal/repository/kyc_repository.go:258-272 | Ids are compared at their first difference, and a prefix comes first. |
| `Kyc.BeforeIsTotal` | internal/repository/kyc_repository.go:258-272 | The order on event ids is total and irreflexive, so of two events one is newer. |
| `Kyc.RunCatches` | internal/repository/kyc_repository.go:172-256 | After any deliveries and attachments the row shows the latest event by time, then id. |
| `Kyc.ShowsTheLatest` | internal/repository/kyc_repository.go:228-251 | The row shows exactly one event, the latest of those delivered. |
| `Kyc.Converges` | internal/repository/kyc_repository.go:172-272 | Two deliveries of the same conflict-free events, in any order and repetition and wherever the inquiry is attached among them, leave the same status, provider status, event time, last event and approval time, and approval time is set if and only if the latest event approves. |
| `Kyc.RefusalWins` | internal/repository/kyc_repository.go:228-251 | After any deliveries, an inquiry whose latest event declines, fails or expires it is not approved. |
| `Kyc.StartedDependsOnOrder` | internal/repository/kyc_repository.go:239-247 | The start time is outside that claim: one pair of events in two orders leaves different ones. |
| `Webhooks.OutcomeIsRight` | internal/usecase/webhook_delivery_usecase.go:352-371 | A delivery is recorded if and only if the request did not fail and the status is 2xx, a failure if and only if the answer is neither that nor one that may pass, exhaustion if and only if it may pass at the limit, and a retry below it. |
| `Webhooks.WaitsDouble` | internal/usecase/webhook_delivery_usecase.go:372-386 | The first retry waits for the configured delay, each next one twice as long, up to the seventh and up to an hour. |
| `Webhooks.RetriesAreBounded` | internal/usecase/webhook_delivery_usecase.go:347-387 | Exactly failures that may pass, below the limit, are retried, later and within an hour, with waits that never shrink; 409 and 425 are among them, although the comment on the function leaves them out. |
| `Webhooks.WebhookRepository.StartAttempt` | internal/repository/webhook_delivery_repository.go:79-148 | Leases, supersession, retry times, the limit and manual replays have the specified rows. |
| `Webhooks.WebhookRepository.CompleteAttempt` | internal/repository/webhook_delivery_repository.go:150-167 | Only an attempt in flight is completed; any other is left alone and reported. |
| `Webhooks.WebhookRepository.FinalizeEvent` | internal/repository/webhook_delivery_repository.go:171-200 | The message moves to the earliest retry, else to the end of the earliest lease or to now if that is over, else is processed. |
| `Webhooks.WebhookRepository.ReplayDelivery` | internal/repository/webhook_control_repository.go:151-201 | A replay is accepted only for an exhausted attempt with no open message, and opens one. |
| `WebhookFencing.StepKept` | internal/repository/webhook_delivery_repository.go:79-200 | Every step of every worker, crash, late answer and replay keeps the fencing invariant. |
| `WebhookFencing.AttemptsAreFenced` | internal/repository/webhook_delivery_repository.go:79-167 | Attempt numbers are exactly 1..n, all and only the attempts before the last are superseded, a scheduled retry is below the limit, and n is at most the limit plus the accepted replays. |
| `WebhookFencing.SupersededForever` | internal/repository/webhook_delivery_repository.go:150-167 | A superseded attempt is never written again, and a late answer for it is refused. |
| `WebhookFencing.StartsWhenDue` | internal/repository/webhook_delivery_repository.go:79-148 | An attempt starts if and only if there is none, the lease of the last has ended with attempts left, its retry is due or a replay was asked for; it takes the next number and a lease of its own and supersedes the last. |
| `WebhookFencing.ReplayOutcome` | internal/repository/webhook_control_repository.go:151-201 | A replay is accepted if and only if the attempt is exhausted and the event has no open message; the next visit then starts an attempt whatever the limit. |
| `WebhookFencing.ProcessedMeansDone` | internal/repository/webhook_delivery_repository.go:171-200 | There is at most one open message, and once there is none every subscribed endpoint has been delivered, has failed or is exhausted. |
| `WebhookFencing.QuietAfterwards` | internal/repository/webhook_delivery_repository.go:91-99 | From then on no attempt starts or changes without a manual replay. |
| `WebhookDelivery.WebhookDeliveryUsecase.RunOnce` | internal/usecase/webhook_delivery_usecase.go:250-281 | A pass that nothing interrupts visits every endpoint and moves the message on by what they then wait for, and is an execution of the fenced system. |
| `WebhookDelivery.VisitSendsWhenDue` | internal/usecase/webhook_delivery_usecase.go:263-276 | A visit sends one attempt if and only if one is due, under the next number, and records of its answer whether it delivered, failed, is tried again and when, or exhausted the limit. |
| `WebhookDelivery.WebhookDeliveryUsecase.Deliver` | internal/usecase/webhook_delivery_usecase.go:263-276 | One endpoint: an attempt is started if it may be, answered and recorded, and nothing else is written. |

## Left out

- Repositories.Database.LeaseOutbox: payloads are always well formed.
- Repositories.Database.ExpectedPayment: when an id is known as the checkout of one order and the payment request of another, either may be found; the repository takes the first by row id.
- Repositories.Database.ReserveAndCreate: retail sessions, order financials and 64-bit overflow of the counters are not modelled.
- Repositories.Database.Confirm: the SEP-24 rows updated beside it are not modelled; the same goes for retirement and payout.
- Repositories.Database.Advance: the public webhook event and its outbox row written with an order event are not part of the ledger model; the need of a completed sell order for its retirement row is kept as an error of the payout.
- Deposits.DepositScanner.ScanDeposits: the queries for candidates and recent payments are parameters, any lists at all.
- Workflows.OnrampUsecase.Create: the checks before the first lookup (form of the command, destination, trustline, range) and those between the lookups (identity check, price, balance) end the call without effect and are not modelled; their results are parameters.
- Workflows.OfframpUsecase.Create: the same, and reading the created order back.
- Amounts.ParsersAgree: the rational parser is modelled on texts of a sign, digits and one dot; exponents, fractions and other bases are refused by the model and accepted by the library, and neither the printer nor the numeric column writes them.
- Amounts.PaddedRoundTrip: as above.
- Quotes.CreateIsExact: reading the market price from its text is a parameter, and durations do not saturate.
- Kyc.KycRepository.RecordProviderEvent: texts come without surrounding blanks, and the random id of an event row is always new.
- Webhooks.WebhookRepository.StartAttempt: one event at a time; the ownership check of a replay and the bodies and durations recorded with an attempt are not modelled.
- WebhookFencing.ProcessedMeansDone: the set of subscribed endpoints is fixed.
- Outcomes.SettledForever: of a transfer, for runs that do not overlap at all; `Overlap.SettledTransferCanReopen` shows why.
- HTTP handlers, OpenAPI, mail, storage and configuration: plumbing.
- Building a transaction: its source, destination, asset and memo, and the choice between the current and the legacy network, are part of what the adapter builds, which is a parameter.
- The gateway, identity, price and Horizon clients: only their answers appear, as parameters or as a network that answers truthfully or not at all.
- Cryptography, SSRF and DNS checks, redaction, cookies.
- Order lists and their cursors, SEP-24 sessions, SEP-38 formatting, analytics, profiles and wallets.
- Progress: outbox attempts are capped, so a job may stop; safety and bounds are proved, not delivery.
