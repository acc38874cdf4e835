# Invoices, payments and webhooks: a verified model

A model of an invoicing service: invoices move through a small state machine, payments are
made in two database commits around a call to a payment provider, every outcome is written to
an outbox in the same transaction, a polling worker delivers the outbox with retries, and each
delivery is signed. `dafny verify dfyconfig.toml` checks the whole project.

## How the model is built

**Payments.** `PaymentProtocol` is a transition system. Its state holds the committed tables
(invoices, attempts, outbox rows, endpoints), the row locks on invoices, the program counter
and the uncommitted writes of every request in flight, and, as an outside party, the
provider's ledger. One step is one database statement of one request (a payment call, a
finalize / void / uncollectible request, or the creation of an invoice), one move of the
provider, one change of an endpoint, or the abort of a request at any point: a crash, a
cancelled request, a deadlock victim. A step that is not possible (the request is elsewhere,
or it waits for a lock) leaves the state alone, so a *schedule* is any sequence of steps, and
the theorems are about all of them. Reads see the latest committed rows, as at READ COMMITTED.

The provider charges at most once for a call, possibly after the caller has timed out; a
success reply means that it charged and carries its reference, a failure reply that it never
will and carries its code; an error says nothing. Rows that a request inserts carry the
identity of the request in place of a random UUID. When an insert violates both unique
constraints, either may be named.

Four things that the code alone does not settle are fields of `Config`:

- `hash`: the hash of the request body, any function.
- `freshReread`: sessions do not expire their objects at a commit (`app/database.py:19-23`)
  and the second locking read of the invoice does not ask for a refresh, so the state checked
  in step 4 may be the one read in step 2. Without this flag each re-read is fresh or stale
  as the schedule likes.
- `atomicFinalize`: `transition_invoice_state` reads the invoice without a lock and writes it
  later. With this flag a finalize writes only a row that is still in the state it read.
- `atomicClose`: the same for void and uncollectible.

The code as it stands has the last three flags off, and no theorem about runs needs them on.
Most hold of every schedule. The others ask of the schedule, for the one invoice they are about,
that certain requests do not overlap:

- `FinalizesApart`: no two finalizes of the invoice are between their read and their commit at
  the same time. This is all that single charging needs.
- `PaymentsApart`: moreover no void or uncollectible of it is between its read and its commit
  while a payment of it is between its two commits. Then a success always shows as paid.
- `WritersApart`: moreover no two of void and uncollectible overlap. Then the state follows the
  table, and terminal states are final.

A flag that is on spares the condition it makes unnecessary. `AssumptionsNeeded` shows what
happens on other schedules, and that the three claims hold on *every* schedule exactly if the
flags they name are set.

`Services.Backend` is the same system as mutable tables, one method per statement.
`ProcessPayment`, `TransitionInvoiceState` and `CreateInvoice` run those statements in program
order with an arbitrary schedule of everybody else between any two of them. Their contracts
say that what happened is the protocol's run extended, and what the answer means.

**Webhooks.** `WebhookRows` is the life of one outbox row. `WebhookPolls` is a transition
system of any number of workers: a claim locks up to ten due rows and reads copies of them, a
delivery changes the copy and makes a POST, a commit writes the copies over the rows, a
rollback drops them but not the POSTs. `WebhookWorker` is the worker with row objects updated
in place. Time is in microseconds.

**Signatures.** `Signing` prints and reads the header. The keyed hash is a parameter; that it
prints lower-case hexadecimal, and where a lemma says so that it has no collisions, is assumed.

## Where the documentation and the code differ

- The retry table of the repository's README and the worker's own header list waits of 1, 5,
  25, 125 seconds. The code indexes its table with the counter after it was increased, so the
  waits are 5, 25, 125 and 625 seconds, and giving up takes at least 780 seconds. The model
  follows the code (`WebhookRows.WaitIsPower`, `WebhookRows.ExhaustionTakes780Seconds`).
- The comments of `process_payment` read the unique violation that is not the pending index as
  a reused key. An open invoice over zero cents trips the check on the amount and lands in the
  same branch (`RefutedClaims.NothingDueConflicts`; `RefutedClaims.ConflictMeans` is exact).
- They also say that a concurrent call with the same key gets the cached row. It does if its
  lookup comes after the first commit (`RefutedClaims.LookupDecides`). If the lookup missed, it
  still does exactly if it locks an open invoice, need not wait at the insert and is refused
  there for the key (`RefutedClaims.MissedRetryServedIff`): after a failed payment, say, but not
  after one that succeeded (`RefutedClaims.RacingRetryRefused`).
- Step 4 updates the attempt before it asks for the invoice row, step 2 holds the row while it
  waits for the attempt's index entry: two calls can deadlock (`Deadlocks.DeadlockHappens`), and
  this is the only way in which everybody who waits at an invoice is stuck
  (`Deadlocks.StuckIffDeadlock`).
- Deactivating an endpoint does not stop deliveries already in the outbox: the worker looks the
  endpoint up without asking whether it is active.

## Model

| member | source | states |
|---|---|---|
| InvoiceStates.TableClimbsOneRank | app/services/invoice_state.py:11-40 | the check permits exactly the four moves draft to open and open to paid, void or uncollectible, which are those one rank up, and reports a terminal state exactly when there is none |
| InvoiceStates.PathsClimb | app/services/invoice_state.py:11-21 | a chain of permitted transitions has at most three states |
| FailureCodes.FailureCodesOfErrors | app/services/payment_service.py:66-74 | the search in the exception's class name tells the two provider errors apart |
| ProtocolInvariant.StepKeeps | app/services/payment_service.py:108-303 | every statement of every request, in any state and under any configuration, keeps the invariant that ties row locks, program counters, unique indexes, attempts, provider ledger and outbox, takes back no committed fact and moves no other request; fresh and stale re-reads, atomic and non-atomic transitions alike |
| ProtocolInvariant.RequestStep | app/services/payment_service.py:108-303 | a step changes at most its own unfinished request, an answer it gives agrees with the row it names, and what it buffers is for the endpoints active then |
| ProtocolInvariant.CommitReservationKeeps | app/services/payment_service.py:157-213 | the first commit keeps the invariant: the new attempt is the only pending one of its invoice and the only one with its key |
| ProtocolInvariant.CommitOutcomeKeeps | app/services/payment_service.py:232-300 | the second commit keeps the invariant for lost, refused and approved replies, also when the re-read was stale |
| ProtocolInvariant.RefreshAttemptKeeps | app/services/payment_service.py:300-303 | the read after the second commit keeps the invariant, and the call returns what its row holds then |
| ProtocolInvariant.CommitMoveKeeps | app/services/invoice_service.py:132-147 | an unlocked read and a later write keep the invariant, even over a paid invoice |
| ProtocolInvariant.AbortKeeps | app/services/payment_service.py:171-173 | a rollback at any program counter keeps the invariant |
| ProtocolInvariant.Reachable | app/services/payment_service.py:108-303 | every state of every schedule satisfies the invariant |
| ProtocolFrames.DecisionsFinal | app/services/psp_client.py:57-99 | a charge, once decided, stays decided on every schedule |
| ProtocolFrames.AttemptWriter | app/services/payment_service.py:157-300 | an attempt row is written only by its own unfinished call, while inserted or pending |
| Tenants.StateChangedByOwner | app/services/invoice_service.py:85-101 | in any state a step changes an invoice only as a statement of an unfinished request of the invoice's own business |
| Tenants.AttemptChangedByOwner | app/services/payment_service.py:136-151 | and an attempt is made or changed only by a call of its invoice's own business |
| Tenants.TenantsApart | app/services/invoice_service.py:85-101 | on every schedule a business that has no request in flight and starts none keeps its invoices and the attempts on them as they are, whatever all others do |
| TransitionAnswers.TransitionsHaveReasons | app/services/invoice_service.py:85-141 | every transition was answered truly in the very state in which it was answered: not found by a missing or foreign invoice, refused by a state that does not permit the target, applied by the business's own invoice, which is in the target state right after |
| PaymentReplies.ReplyDecides | app/services/payment_service.py:218-303 | the reply a call gets decides on every continuation: after a timeout or network error its attempt stays pending for good, even if the provider charged; and if the call returns, it returns its attempt as the reply makes it, succeeded with the reference, failed with the refusal's code, or pending with the error's |
| PaymentReplies.OutcomesHaveReplies | app/services/payment_service.py:232-295 | conversely no attempt succeeds, fails or shows an error's code unless its call got that approval, refusal or error, with that reference or code, at some step of the schedule |
| PaymentReplies.SuccessWasRechecked | app/services/payment_service.py:251-266 | no attempt succeeds unless its call locked the invoice a second time and found it open then, except in a session that does not refresh its copy |
| PaymentReplies.DecisionsAreThePsps | app/services/psp_client.py:57-99 | a charge or a refusal shows only after the provider decided it, once, at some step of the schedule |
| FinalizeSchedules.SameRun | app/services/invoice_service.py:132-147 | a schedule on which no two finalizes of any one invoice are between their read and their commit at the same time runs exactly as if finalize wrote only the state it read |
| FinalizeSchedules.SingleReached | app/services/invoice_service.py:132-147 | if this holds of one invoice, whatever happens to others, at most one attempt of it has not failed, it is not open after a success, and a finalize in flight finds a draft |
| FinalizeSchedules.SingleKept | app/services/invoice_service.py:132-147 | every step keeps these facts of an invoice with at most one finalize in flight |
| CloseSchedules.ShownPaidKept | app/services/invoice_service.py:132-147 | every step keeps the fact that a success shows as a paid invoice, if no void or uncollectible is in flight beside a payment in progress or these compare before they write |
| CloseSchedules.StillFitsKept | app/services/invoice_service.py:132-147 | every step keeps the fact that a close in flight and a payment in progress find the invoice open, if no two writers of it overlap or the later one looks again |
| PaymentSafety.OneLiveAttempt | alembic/versions/ec465f54d10f_add_partial_unique_index_on_pending_.py:21-31 | if no two finalizes of this invoice overlap, whatever happens to others, at most one attempt of it has not failed on every schedule, whatever the second locking read returns |
| PaymentSafety.NoDoubleCharge | app/services/payment_service.py:108-303 | if no two finalizes of this invoice overlap, whatever happens to others, the provider takes money for it at most once, however calls, retries, voids, lost replies and crashes interleave |
| PaymentSafety.ChargeNeverForgotten | app/services/payment_service.py:220-303 | if no two finalizes of this invoice overlap, whatever happens to others, a charged call's attempt is the one attempt of it that has not failed, with the charged amount |
| PaymentSafety.FailedNeverCharged | app/services/payment_service.py:279-295 | an attempt recorded as failed was declined by the provider, in every continuation |
| PaymentSafety.UnknownAbsorbs | app/services/payment_service.py:243-249 | after a call ended with its attempt pending, in every continuation no attempt of the invoice is added or changed, the provider is not called for it, and it is never paid |
| PaymentSafety.PendingCarriesCode | app/services/payment_service.py:243-249 | a call that returned its own attempt as pending left it pending, with the code of a timeout or of a network error |
| PaymentSafety.OneRowPerKey | app/services/payment_service.py:112-127 | all calls with one key that return an attempt return the same row, were made with the body of that row, and saw statuses that agree up to pending |
| PaymentSafety.OneProviderCallPerKey | app/models/payment.py:51-54 | at most one call per invoice and key reaches the provider |
| PaymentSafety.FinalStatusSticks | app/services/payment_service.py:119-127 | once a final status was seen, every later call that returns the attempt sees the same |
| PaymentAnswers.AnswersHaveReasons | app/services/payment_service.py:112-303 | every answer was justified in the very state in which it was given: not found by a missing invoice, an invalid transition by an invoice that was not open or another call's pending attempt, a conflict by another body's row or a total of zero, a returned attempt by the row of this invoice, key and body with that status |
| InvoiceLifecycle.StateStep | app/services/invoice_service.py:132-147 | while no two writers of the invoice's state overlap (the facts kept by SingleKept and StillFitsKept), each step of anybody leaves the state or advances it along the table |
| InvoiceLifecycle.HistoryIsPath | app/services/invoice_state.py:11-40 | over any schedule on which no two writers of the invoice's state overlap, under any configuration, the changes of its committed state are permitted transitions starting from draft |
| InvoiceLifecycle.InvoiceLife | app/services/invoice_state.py:11-40 | on these schedules the committed states form a path of the table from draft, of at most three states |
| InvoiceLifecycle.TerminalStatesStay | app/services/invoice_state.py:31-36 | on these schedules a terminal state, once reached, never changes under all endpoints and payment calls together |
| PaymentLedger.StepRefines | app/services/payment_service.py:129-300 | while at most one finalize of the invoice is in flight (the facts kept by SingleKept), each statement is one act on its atomic account: the commits reserve, settle, decline or lose, giving up loses, all else stutters, and the act is always possible |
| PaymentLedger.ProtocolRefinesLedger | app/services/payment_service.py:129-300 | every interleaving without overlapping finalizes of the invoice is a run of its account in the ledger |
| PaymentLedger.ClosedAccountsStay | app/services/payment_service.py:243-266 | in the ledger nothing happens to a settled or unknown account |
| PaymentLedger.AccountShowsMoney | app/services/payment_service.py:220-266 | if no two finalizes of this invoice overlap, whatever happens to others, a charge is on its account with its amount, and if it is paid the account is settled over its total |
| MoneyConservation.LineTotalSplits | app/services/invoice_service.py:36-38 | the total is additive over the lines, in any order |
| MoneyConservation.TotalIsProductSum | app/services/invoice_service.py:36-38 | the total is the sum of quantity times unit amount over the lines |
| MoneyConservation.StorableIff | app/models/invoice.py:96-106 | lines are storable exactly if each has a quantity from 1 to 2147483647, no negative amount, and products and total of at most 9223372036854775807 |
| MoneyConservation.PaidExactlyOnce | app/services/payment_service.py:157-164 | if no two finalizes of this invoice overlap, whatever happens to others, a paid one has exactly one succeeded attempt and exactly one charge, both over the sum of quantity times unit amount |
| MoneyConservation.MoneyIsConserved | app/services/payment_service.py:220-266 | per business, paid totals <= succeeded amounts <= charged amounts on every schedule, and charged amounts <= invoiced totals if no two finalizes of any of its own invoices overlap |
| MoneyConservation.PaidEqualsSucceededIff | app/services/invoice_service.py:138-141 | on every schedule, paid equals succeeded exactly if every succeeded attempt is the only one of an invoice that is still paid |
| MoneyConservation.PaidIffSucceeded | app/services/payment_service.py:252-300 | if no two finalizes of an invoice overlap, and no payment of it overlaps a void or an uncollectible, under any configuration the invoice is paid exactly if an attempt on it succeeded |
| MoneyConservation.PaymentsApartBalance | app/services/invoice_service.py:138-141 | per business, paid equals succeeded if that holds of all its invoices |
| OutboxExactness.OutboxIsExact | app/services/webhook_service.py:84-117 | on every schedule an event has no row before its commit and from then on exactly one row, with the payload the tables show, per endpoint of the invoice's business that was active at the statement with which the event's own request enqueued it, and that is the statement at which the request began to buffer these rows |
| OutboxExactness.FanOutIsOneRowEach | app/services/webhook_service.py:97-117 | the fan-out has one row for each active endpoint of the business and no other |
| OutboxExactness.BusinessIsTheInvoices | app/services/payment_service.py:268-295 | the business that is notified is the invoice's own |
| OutboxExactness.ActiveUntilDeactivated | app/services/webhook_service.py:65-81 | an endpoint stays with its business and is active until that business deactivates it, for good |
| OutboxExactness.EndpointLife | app/services/webhook_service.py:29-81 | on every schedule an endpoint belongs to the business that registered it and is active from then on exactly until that business deactivates it |
| PaymentScenarios.UncontendedPaymentSucceeds | app/services/payment_service.py:108-303 | a payment nobody interrupts pays the invoice, charges its total once, and changes nothing else |
| PaymentScenarios.CloseRuns | app/services/payment_service.py:258-300 | the second commit pays the invoice; with a stale re-read, over whatever state the row holds |
| PaymentScenarios.WriteRuns | app/services/invoice_service.py:138-141 | a transition writes over whatever state the row holds unless it reads and writes in one step |
| AssumptionsNeeded.SingleChargeIff | app/services/invoice_service.py:138-141 | the provider charges at most once per invoice on every schedule, overlapping finalizes included, if and only if finalize is atomic |
| AssumptionsNeeded.TerminalStatesStayIff | app/services/payment_service.py:258-266 | terminal states are final on every schedule, overlapping writers included, if and only if re-reads are fresh and all transitions atomic |
| AssumptionsNeeded.BalancedIff | app/services/invoice_service.py:138-141 | paid equals succeeded on every schedule, overlapping payments and transitions included, if and only if finalize, void and uncollectible are all atomic |
| AssumptionsNeeded.StaleReadOverwritesVoid | app/database.py:19-23 | a void between the commits and a stale re-read turn a void invoice into a paid one |
| AssumptionsNeeded.LateVoidOverwritesPaid | app/services/invoice_service.py:138-141 | a void that read before a payment and writes after it turns a paid invoice into a void one |
| AssumptionsNeeded.StaleFinalizeChargesTwice | app/services/invoice_service.py:138-141 | two finalizes in flight reopen a paid invoice, which is then charged again |
| RefutedClaims.LookupDecides | app/services/payment_service.py:112-127 | a lookup after the row was committed returns that row, or a conflict exactly if the bodies differ |
| RefutedClaims.MissedRetryServedIff | app/services/payment_service.py:136-205 | a retry whose lookup missed the committed row gets it from lock, insert and second lookup exactly if it locks its business's open invoice, need not wait at the insert, the database names the reused key, and the bodies are the same |
| RefutedClaims.RacingRetryRefused | app/services/payment_service.py:112-151 | a retry whose lookup came before the first commit is told that the invoice is not payable |
| RefutedClaims.ConflictMeans | app/services/payment_service.py:195-207 | on every schedule a conflict means that the key belongs to another body or that the invoice is over zero cents |
| RefutedClaims.NothingDueConflicts | app/models/payment.py:50 | the first call on an open invoice over zero cents ends in a conflict |
| RefutedClaims.NothingDueIff | app/models/invoice.py:104-109 | invoices over zero cents are those all of whose lines cost nothing |
| RefutedClaims.NothingDueNeverPaid | app/models/payment.py:50 | such an invoice never has an attempt, is never paid, and no call on it returns one |
| Deadlocks.DeadlockLasts | app/services/payment_service.py:251-264 | two calls that wait for each other stay where they are on every schedule that aborts neither |
| Deadlocks.DeadlockHappens | app/services/payment_service.py:251-264 | such a pair is reachable |
| Deadlocks.StuckIffDeadlock | app/services/payment_service.py:136-264 | in any reachable state somebody waits at an invoice and nobody in its queue can move if and only if its queue holds such a pair |
| Deadlocks.AbortFreesOther | app/services/payment_service.py:251-264 | aborting either call of the pair lets the other one go on |
| Services.PriceLines | app/services/invoice_service.py:36-61 | the loops compute the sum of quantity times unit amount, which is what the rows add up to, and every row carries its own product |
| Services.Backend.EnqueueEvent | app/services/webhook_service.py:97-117 | the loop adds exactly the fan-out of the event |
| Services.Backend.FindByKey | app/services/payment_service.py:112-119 | the lookup finds the row of the invoice and key exactly if there is one |
| Services.Backend.CacheLookup | app/services/payment_service.py:112-127 | ends the call with the committed row of the invoice and key or with a conflict, or goes on without touching any table, as the protocol's lookup does; an answer carries the status the row holds |
| Services.Backend.LockInvoice | app/services/payment_service.py:136-151 | takes the row lock only of an open invoice of this business and refuses as the protocol does; it stays where it is only while the row is locked |
| Services.Backend.InsertAttempt | app/services/payment_service.py:157-190 | makes the protocol's decision between inserting, waiting for an index entry and the two refusals; nothing becomes visible to others |
| Services.Backend.RefetchWinner | app/services/payment_service.py:195-207 | ends the call with the winner's row and its status, or with a conflict, as the protocol's second lookup does |
| Services.Backend.CommitReservation | app/services/payment_service.py:213 | makes exactly the new pending row durable and gives the row lock back |
| Services.Backend.SendCharge | app/services/payment_service.py:220-225 | asks the provider for the amount of the committed row, holding no lock |
| Services.Backend.AwaitReply | app/services/payment_service.py:220-228 | ends with the provider's decision if it has made one and the client raised no error, otherwise with the error, and the call has from then on what that reply decides |
| Services.Backend.RelockInvoice | app/services/payment_service.py:258-264 | takes the lock again and refuses an invoice seen as not open; a re-read that is not stale waits only while the row is locked |
| Services.Backend.EnqueueOutcome | app/services/payment_service.py:268-295 | buffers the fan-out of the outcome's event with the committed amount, visible to nobody yet |
| Services.Backend.CommitUnknown | app/services/payment_service.py:243-249 | puts the error's code on the row, which stays pending, and changes nothing else; the row is still to be read again |
| Services.Backend.CommitFailure | app/services/payment_service.py:283-300 | makes the failed attempt and the buffered rows visible together |
| Services.Backend.CommitSuccess | app/services/payment_service.py:252-300 | makes the succeeded attempt, the paid invoice and the buffered rows visible together, and unlocks |
| Services.Backend.RefreshAttempt | app/services/payment_service.py:300-303 | ends the call with its own row and the status the row holds |
| Services.Backend.ReadMove | app/services/invoice_service.py:85-139 | answers not found exactly if the business has no such invoice, refuses exactly if it has one whose committed state does not permit the target, and otherwise remembers the state it read without locking |
| Services.Backend.WriteMove | app/services/invoice_service.py:140-141 | takes the row lock for the write; it stays where it is only while the row is locked or, where transitions are atomic, has changed |
| Services.Backend.EnqueueCreate | app/services/invoice_service.py:36-76 | buffers the creation event with the sum of quantity times unit amount for the endpoints active now, or refuses lines that the database cannot store |
| Services.Backend.CreateEndpoint | app/services/webhook_service.py:29-49 | adds exactly this endpoint, active, for this business |
| Services.Backend.DeactivateEndpoint | app/services/webhook_service.py:65-81 | switches the endpoint off exactly if it belongs to the business, and says whether it does |
| Services.Backend.Execute | app/services/payment_service.py:108-303 | any step of anybody, possible or not, executed on the tables extends the protocol's run by that step |
| Services.Backend.ProcessPayment | app/services/payment_service.py:81-303 | with anything happening between its statements the call ends, and its answer is true: a returned attempt is the row of this invoice, key and body, a success was charged and, without overlapping finalizes of this invoice, is the one charge on it, a failure was not charged, a refusal after the provider was called leaves the attempt pending; its own attempt it returns as pending with the error's code if the client raised one, otherwise as decided, with the provider's reference, or pending if nothing was decided when it was waited for; it dies only where it waits for a lock, with its attempt pending, or in the read after the second commit, with its outcome on record |
| Services.Backend.TransitionInvoiceState | app/services/invoice_service.py:85-147 | a transition that reports success has just put the business's own invoice into the target state; it answers not found exactly if the business has no such invoice, and is refused only by a state that does not permit the target |
| Services.Backend.CreateInvoice | app/services/invoice_service.py:21-82 | a draft over the sum of quantity times unit amount is created exactly if the customer exists and the database can store the lines |
| Services.Backend.TablesAreSafe | app/services/payment_service.py:108-303 | so, as long as no two finalizes of an invoice have overlapped, the tables never show two charges or two live attempts of it |
| WebhookRows.StatusTellsHistory | app/workers/webhook_worker.py:82-144 | the counter is the number of POSTs, at most five; delivered exactly if the last POST was answered with a 2xx status, pending after fewer than five other answers, timeouts or errors, exhausted after five or by a missing endpoint |
| WebhookRows.RowRemembers | app/workers/webhook_worker.py:90-129 | a row keeps the message of its last failure (HTTP and the status code, the timeout's, the error's or the missing endpoint's), the time of its success, and once closed its due time |
| WebhookRows.MessagesTell | app/workers/webhook_worker.py:112-119 | different status codes leave different messages, none of which is the timeout's or the missing endpoint's |
| WebhookRows.WaitIsPower | app/workers/webhook_worker.py:137-139 | the k-th failure is followed by 5^k seconds, inside the table and without the clamp |
| WebhookRows.DueTime | app/workers/webhook_worker.py:136-139 | the due time is exactly the first one plus the lateness so far plus 5 + 25 + ... + 5^n seconds |
| WebhookRows.BackoffBound | app/workers/webhook_worker.py:136-139 | the n-th delivery starts at least (5^n - 5) / 4 seconds after the row was first due |
| WebhookRows.ExhaustionTakes780Seconds | app/workers/webhook_worker.py:29-30 | giving up after failures takes five POSTs and at least 780 seconds |
| WebhookPolls.WorkersSerialize | app/workers/webhook_worker.py:63-80 | for any workers no row is claimed twice and the table is what the committed polls give one after the other, each delivery on a row that is pending and due at its turn |
| WebhookPolls.CommitKeeps | app/workers/webhook_worker.py:64-80 | writing the copies read at the claim over the rows equals serving the deliveries on the table |
| WebhookPolls.ServeBeside | app/workers/webhook_worker.py:63-80 | deliveries commute with writes to other rows |
| WebhookClaims.ClaimTakesEarliest | app/workers/webhook_worker.py:67-77 | among any workers a claim takes at most ten rows that are pending, due and unlocked, earliest first: one that is taken has fewer than ten such rows strictly before it, one that is left has at least ten no later |
| WebhookClaims.CommitDeliversBatch | app/workers/webhook_worker.py:79-80 | a poll that commits has delivered every row it claimed, each exactly once |
| DeliveryAccounting.EveryRowExplained | app/workers/webhook_worker.py:63-143 | every row of every reachable outbox is the outcome of a legitimate history, with the attempts, statuses and causes that follow; delivered exactly if its last POST had a 2xx answer |
| DeliveryAccounting.TerminalRowsStay | app/workers/webhook_worker.py:69-72 | a delivered or exhausted row never changes |
| DeliveryAccounting.PostsAccounted | app/workers/webhook_worker.py:63-143 | the POSTs made for a row are its committed attempts, plus those of polls rolled back, plus those of a poll still open |
| DeliveryAccounting.ServeDrains | app/workers/webhook_worker.py:79-143 | the sum of 5 - attempts over pending rows falls by at least one per delivery |
| DeliveryAccounting.DeliveriesBounded | app/workers/webhook_worker.py:79-143 | with no new events n rows take at most 5n committed deliveries by any workers; when their whole budget is used none is pending |
| DeliveryAccounting.WorkersDrain | app/workers/webhook_worker.py:63-143 | with no new events, any number of workers and any rollbacks, after as many committed polls as the rows have attempts left (at most 5n for n rows), none committed empty-handed while a row is pending, every row is delivered or exhausted |
| DeliveryFairness.InBatchIff | app/workers/webhook_worker.py:67-75 | a due row is in a poll exactly if fewer than ten pending rows are ahead of it |
| DeliveryFairness.BoundedOvertaking | app/workers/webhook_worker.py:63-80 | a due row with r pending rows ahead is delivered in poll r / 10 + 1 and not before, whatever is enqueued meanwhile |
| DeliveryFairness.OutboxDrains | app/workers/webhook_worker.py:63-143 | for a single worker it is enough that each poll is made when a pending row is due: then it delivers one, and after as many polls as the rows have attempts left every row is delivered or exhausted |
| DeliveryFairness.PollIsTransaction | app/workers/webhook_worker.py:63-80 | such a poll is a claim, its deliveries and a commit of the system of workers |
| WebhookWorker.WebhookDelivery.constructor | app/services/webhook_service.py:108-117 | a new row is pending, never tried and due at that very moment |
| WebhookWorker.Worker.Deliver | app/workers/webhook_worker.py:82-144 | the statements on the row object give the row's next state for every outcome: delivered exactly by a 2xx answer, pending again after another answer, a timeout or an error before the fifth, with that failure's message |
| WebhookWorker.Worker.ClaimBatch | app/workers/webhook_worker.py:67-77 | the claimed batch is the first ten due rows in order |
| WebhookWorker.Worker.Poll | app/workers/webhook_worker.py:63-80 | a poll delivers a batch of the first due rows once each and touches no other row |
| Decimals.ReadPrint | app/utils/signing.py:33 | reading a printed integer gives it back, negative ones too |
| Decimals.ReadMeans | app/utils/signing.py:58 | reading accepts exactly numbers in base ten, with zeros before them and a sign if one likes, and gives their value |
| Decimals.PrintsUsualDigits | app/utils/signing.py:33 | printing uses the digits 0 to 9, most significant first, and only 0 begins with '0' |
| Signing.SplitJoins | app/utils/signing.py:57 | splitting cuts at every separator and loses nothing |
| Signing.FieldsMeaning | app/utils/signing.py:57-61 | a header is malformed exactly if an item has no '='; a field has the value of its last item |
| Signing.AcceptedIff | app/utils/signing.py:44-74 | for every header: it is accepted exactly if every item has an '=', the last item named t is a number within the window around now, and the last item named v1 is ASCII and the code of that number, a dot and the body; a fresh one with other text in v1 raises |
| Signing.MalformedRefused | app/utils/signing.py:56-61 | a header with a malformed item, without t or v1, or whose t is no number, is refused |
| Signing.HeaderFields | app/utils/signing.py:33-41 | a signed header has the two items t, the time, and v1, the code of the time, a dot and the body |
| Signing.RoundTrip | app/utils/signing.py:23-74 | for every secret, body, timestamp and window a signed payload verifies exactly while it is fresh |
| Signing.ContentUnambiguous | app/utils/signing.py:33 | the signed content determines timestamp and body |
| Signing.AcceptedMeansSigned | app/utils/signing.py:56-74 | a header carrying the code of one timestamp and body is accepted for no other |
| Signing.OnlyTheSignedBody | app/utils/signing.py:44-74 | a signed header verifies a body exactly if it was signed for it and is fresh |
| Signing.AppendedTimestampWins | app/utils/signing.py:57-58 | a second timestamp field replaces the first, and the header is then refused unless it is the same |

## Left out

- HTTP routing, request schemas, status codes, authentication, API keys, customers and list endpoints: plumbing around the services.
- The provider's own behaviour beyond the contract above, `json.dumps`, SHA-256, HMAC, UUID and secret generation: parameters or assumptions.
- Database internals beyond row locks, unique constraints, statement-level reads, commit and rollback; foreign keys; column lengths other than those of amounts (text that a column cannot hold fails the transaction, which is an abort).
- Clocks and timeouts: every time is a parameter, and clocks do not go back within a row's deliveries or a worker's run.
- The cached lookup is by invoice and key alone, so no claim is made that the caller of a cached answer belongs to the invoice's business.
- The customer lookup of `create_invoice` is a parameter, descriptions and due dates are not modelled, and a line's amount is the product that the database checks it to be.
- The outbox of the payment model and the rows of the worker are separate: the worker starts from rows that are fresh, which is how they are enqueued.
- PaymentSafety.NoDoubleCharge: assumes that no two finalizes of an invoice overlap, as do the other theorems about a single attempt or charge; AssumptionsNeeded.StaleFinalizeChargesTwice shows that two that overlap can charge twice.
- PaymentProtocol.DoInsertAttempt: the code searches the text of the database's error for `one_pending_per_invoice`; where that text quotes the key, a reused key that contains these words is refused as if an attempt were pending. The model goes by the constraint that was violated.
- InvoiceLifecycle.TerminalStatesStay: assumes that no two writers of the invoice's state overlap, as do the other theorems about the state; AssumptionsNeeded.StaleReadOverwritesVoid and AssumptionsNeeded.LateVoidOverwritesPaid show what two that overlap can do.
- DeliveryFairness.BoundedOvertaking: assumes one worker whose polls commit, enqueue and commit as one step, and rows due at the same time served by age, which the query does not promise.
- DeliveryFairness.OutboxDrains: its polls run one after the other and commit; concurrent polls and rollbacks are covered by DeliveryAccounting.WorkersDrain, which asks that a committing poll has delivered something.
- Signing.OnlyTheSignedBody: assumes that no two contents have the same code, which holds of HMAC-SHA256 only in practice.
- Decimals.Read: does not accept the spaces, underscores and other digits that Python's `int` accepts.
- Services.Backend.ProcessPayment: waiting for a lock is an arbitrary schedule of the others followed by giving up, since nothing bounds the wait; it fails on its own only there and in the read after the second commit, while aborts at any other point are steps of the protocol.
