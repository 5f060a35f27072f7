# Rental allocation and payments, verified

This project models the part of Lake Tech Estates that lets out land and takes money for it, and proves what its
interleaved transactions keep.

The shared tables (users, listings, rentals, reservations, invoices, checkout attempts, payments, refund actions, refund
rows, terminal receipts) are one value, `Tables.Db`. Each transaction of the program appears twice:

* as a specification, a function from one committed state to the next that leaves out every guard, row count and index
  which the invariants make redundant (`Allocation`);
* as code, statement by statement, on a mutable `Store.Database` with all guards, row counts, unique indexes, CHECKs,
  triggers, advisory locks and rollbacks (`Checkout`, `CheckoutRoute`, `StripeHandler`, `Reservations`,
  `TerminalPayments`, `Reconciliation`, `Administration`, `ProviderActions`). Each method is proved to do exactly what
  its specification says in every state that satisfies the invariant; `Program` puts them together.

Over the specification, `Invariants` says what every committed state satisfies and `Evolution` what no transaction undoes;
`Subsiding`, `Growing` and `Crediting` prove this for the three kinds of change, `Transactions` for each transaction, `Runs`
for whole runs in which every transaction reads a clock of its own. `Clocked` and `ClockedRuns` add what needs a clock that
never goes back. `Theorems`, `LeaseWeeks`, `Postings`, `Endings`, `Roles`, `Tenants`, `Renewals` and `Journeys` draw the
conclusions. `Constraints` relates the database's own checks to the invariants.

`CheckoutEffects`, `MoneyEffects`, `DeskEffects` and `DeviceEffects` say a second time what each transaction does, without the
specification's helpers: exactly when it commits, every row that it writes, in plain values, and that it writes no other.

Around this core stand the protocols with workers and networks: `RefundWorker` and `RefundAttempts` (claims, leases,
crashes, an idempotent provider), `RefundLog` (cumulative refunds), `StripeInbox`, `EventClaims` and `StripeWebhook` (event
claims), `TerminalQueue` (the terminal's persisted queue behind a lossy network), `Polls` (the server's table of outbound events and its
answers), `Callbacks` (deliveries to the terminal, its replay marker and its polls), `Locks` (advisory locks). `Pricing`,
`Money` and `RateLimit` are the arithmetic.

A thrown error is `Rollback`: no new state, and no trace in the old one. Instants are whole seconds. Identifiers, digests
and avatar keys are numbers; hashes and lock texts are taken to be injective. The ledger of granted and cut lease time is a
history variable: the program keeps the same facts spread over payments and its audit log.

What the surroundings guarantee is stated in `Runs.Enabled`: generated identifiers are new, a request carries a hold it was
given and a worker a claim it was given, and a Stripe session has one payment intent.

## Where code and documentation differ

The model follows the code.

* CYCLE2-EVIDENCE.md promises that late completion flows into the refund path. A paid session whose attempt a cleanup has
  already expired throws, and goes on throwing (`Theorems.LatePaymentLostToCleanup`; a run that gets there:
  `Journeys.LateMoneyHappens`; exactly when a session is accepted: `Theorems.PaidSessionAccepted`).
* docs/protocol.md calls the polled sequence monotonic. The server never answers below the sequence it was sent
  (`Polls.PollPages`), but gSequence goes back exactly when an answer below it is adopted, or a reset finds a lower stored
  sequence (`Callbacks.SequenceFallsIff`). The first happens exactly when a callback above the answer was accepted after the poll
  was sent (`Callbacks.PollLowersIff`). Inputs: `Callbacks.PollLowers` and `Callbacks.ResetRepeats`.
* docs/protocol.md calls a terminal start a one-week rental. It is one exactly when the amount is the setup price and one
  week's (`LeaseWeeks.StartIsOneWeekIff`). Input for two weeks: `Journeys.TwoWeekStart`.
* docs/terminal-callback-validation.md knows replays only of events that were shown. The terminal also refuses events it never
  showed: one whose marker was written without its sequence (`Callbacks.MarkerAlone`), one whose sequence was written without its
  marker, after a reset (`Callbacks.SequenceAlone`), and one that a later event overtook (`Callbacks.Overtaken`).
  `Callbacks.AppliedLaterIff` is the exact condition under which an event can still be shown; what the poll under way may
  contribute to it is computed by `Polls.AnswersBelowIff`.
* docs/security.md says that a reservation or lease assignment promotes a resident to renter. Settlements, approvals,
  activations and a terminal's first payment do (`Tenants.CreditMakesTenant`). A reservation changes no user (`Roles.StepUsers`), and
  neither does EXTEND, which can revive a lapsed lease for an owner who was made a resident meanwhile. Input:
  `Tenants.RevivedForResident`; that this is the only way for a running lease to belong to anybody but a renter or an administrator:
  `Tenants.TenantsRent` and `Tenants.RevivalIff`.
* The activation route for paid invoices can never succeed in a database that started empty
  (`Theorems.ActivationNeverSucceeds`).

The table below starts with the main results, from lease time to the program's refinement; what follows is grouped by
component.

## Model

| member | source | states |
|---|---|---|
| Theorems.LeaseTimeConserved | apps/web/src/lib/checkout.ts:151-178 | after any run at any clocks, an ACTIVE rental runs for exactly one week per week credited by payments or given by administrators, plus the gaps that extensions of lapsed leases skipped; no payment is credited twice |
| Endings.LeaseTimeFromStart | apps/web/src/app/api/admin/rentals/[id]/route.ts:21-23 | after any run from a database without business, an ACTIVE lease runs for exactly the weeks credited or granted, and for the time for which it had lapsed before extensions revived it |
| Postings.GapsAreLapses | apps/web/src/app/api/admin/rentals/[id]/route.ts:23 | over any run, the time that extensions skipped on a lease is exactly the time for which it had lapsed: from its end to the clock of each EXTEND that found it lapsed, and nothing for any other step |
| Endings.NoLeaseEndsEarly | apps/web/src/lib/checkout.ts:17-36 | over any run, a lease stops being ACTIVE only at a moment at which its time, with all that had been added to it until then, is over, or at which an administrator ends it |
| Endings.NoHoldIsLostEarly | apps/web/src/lib/checkout.ts:17-36 | over any run, a hold stays as it is until it is paid, and is then a lease of one week from that moment; or until its time is over, its session has expired, or an administrator ends it |
| Theorems.NeverCrossesOver | apps/web/src/lib/stripe-event-handler.ts:25-74 | a card payment is credited or has a refund action, never both, never neither, and no run takes it from one side to the other; its reference has one payment |
| EventClaims.ClaimedTwice | apps/web/src/lib/stripe-events.ts:3-17 | over any run of deliveries, handlers, failures and operators: if two deliveries of an event are both answered CLAIMED, then after the first and not later than the second the row had left PROCESSING, or an asker's clock had reached the lease of the first |
| Tenants.TenantsRent | apps/web/src/lib/checkout.ts:187 | over ordered runs a running lease belongs to a RENTER or ADMINISTRATOR; the only exception is a lease that EXTEND revived, after it had lapsed, while its owner was a RESIDENT |
| Roles.RoleHasOrigin | apps/web/src/lib/role-management.ts:5-33 | after any run everybody's role is the one at the start, or RESIDENT for a user who was not there, or was made by a transaction of the run: a role change by an active administrator, or, for RENTER, the credit of a lease of that user |
| Renewals.RenewalStaysPayable | apps/web/src/lib/checkout.ts:96-118 | whatever runs after a renewal was opened, in order of the clock: it can be settled, at one weekly price of its opening, if and only if it is open, less than 32 minutes old and its lease runs; the lease is then one week longer |
| Theorems.HoldStaysPayable | apps/web/src/lib/checkout.ts:128-197 | under a clock that never goes back, an unexpired hold has exactly one invoice, it is OPEN, and settling it exactly with a new reference succeeds, whatever ran in between |
| Theorems.OneTenantAtATime | apps/web/src/lib/checkout.ts:44-76 | in every reachable state a listing has at most one PENDING or ACTIVE rental and one ACTIVE reservation, and beside an ACTIVE reservation no ACTIVE rental and only its target's PENDING one |
| Theorems.PaidSessionRecorded | apps/web/src/lib/stripe-event-handler.ts:39-73 | an accepted paid session leaves exactly one payment of its intent, amount and invoice; a newly inserted one is CONFIRMED, credited and its invoice PAID, or under review with a refund of the whole amount queued; one week is granted in the first case, nothing in the second |
| LeaseWeeks.WeeksAreBought | apps/web/src/app/api/terminal/payment/route.ts:107-173 | after any run, the weeks credited for a terminal payment are those, one to four, that its amount bought at the price of the moment, setup included exactly if no lease was seen to extend; or the one week that staff approved |
| StripeInbox.PaidEventsRecorded | apps/web/src/lib/stripe-event-handler.ts:25-74 | over any run of deliveries, retries and other transactions: once the handler of a paid session's event has committed, the session has exactly one payment of its intent, amount and invoice, credited or being refunded, in every later state |
| Journeys.AcquiredStaysFound | apps/web/src/app/api/checkout/route.ts:14 | after any ordered run in which a request's attempt is still live and its rental still runs, acquiring again returns that attempt, with the session stored meanwhile, and changes nothing |
| RefundWorker.RefundedAtMostOnce | apps/sl-bot/src/provider-actions.ts:6-13 | for any interleaving of workers, expired leases, crashes after the call and operator retries, calls for one action carry the same intent, amount and key, and an idempotent provider makes at most one refund of an intent, for the amount of its payment |
| StripeInbox.CommitsNeverExceedClaims | apps/web/src/lib/stripe-events.ts:3-20 | over any run of deliveries, expired leases, stale claimants, late failures and operator retries: COMPLETE is final, type and digest never change, and handler commits never exceed claims |
| TerminalQueue.PaymentsSurvive | lsl/rental-terminal.lsl:76-101 | with requests and answers lost, repeated and delayed, and script resets, every payment taken is still queued or on the server's record, the queue never exceeds 32, and no event is credited twice |
| Callbacks.AppliedAtMostOnce | lsl/rental-terminal.lsl:129-145 | over redeliveries, stale workers, resets and polls, whether or not the network repeats requests, an event changes the display at most once, is claimed at most 8 times, and is marked delivered only if the terminal accepted it; delivered and dead-lettered exclude each other and are final |
| Callbacks.AppliedLaterIff | lsl/rental-terminal.lsl:129-133 | an event not applied yet can still be applied, in some continuation, if and only if a request may still arrive or its row be claimed, it has no marker, and gSequence or the stored sequence is below it, or the poll under way was answered below it or, at a time at which it may still be served, would be from the rows there are |
| Callbacks.DeliveredLaterIff | apps/sl-bot/src/terminal-callback-worker.ts:54-78 | a row can still be marked delivered if and only if it was not dead-lettered and either the worker whose request was accepted still waits for its answer, or the event can still be accepted from a waiting worker or a further claim |
| Callbacks.PollLowersIff | lsl/rental-terminal.lsl:218-222 | the answer to a poll lowers gSequence if and only if a callback above it was accepted after the poll was sent |
| Callbacks.SequenceFallsIff | lsl/rental-terminal.lsl:151-156 | gSequence goes back in exactly two ways: an answer below it, or a reset with a lower stored sequence |
| RefundLog.LatestDecides | apps/web/src/lib/stripe-payments.ts:15-17 | the latest event leaves the payment REFUNDED exactly if it says succeeded and the succeeded refunds reach the positive amount paid, and under review otherwise |
| Locks.NeverStuck | apps/web/src/lib/reservations.ts:48-65 | in every interleaving of transactions that take their advisory locks in order, nobody waits in a circle and somebody can proceed |
| Runs.StepKeeps | packages/db/src/index.ts:7 | each transaction that writes the tables, at any clock, keeps the whole invariant (one tenant, bound bills, credit or refund, conserved lease time) and undoes no final status, binding or ledger entry: cleanup, acquisition and replacement of attempts, sessions, settlement, Stripe events, reservations, withdrawals and the lapse that lists them, terminal payments and polls, approvals, rejections, naming a payer, activation, extension, end, role change, refund claims, completions, retries |
| Runs.RunKeeps | packages/db/src/index.ts:7 | every run of those transactions, at any clocks, keeps the whole invariant and undoes nothing that is final |
| Program.ExecuteAll | packages/db/src/index.ts:7 | the code, run over any sequence of transactions with all its guards, constraints and triggers, ends exactly in the state of the specification's run, with the invariant |
| Theorems.SourcesAddUp | apps/web/src/app/api/admin/rentals/[id]/route.ts:21-23 | only administrators' extensions ever skip time; weeks come from payments, activations and extensions and from nothing else |
| Postings.ExtensionMeans | apps/web/src/app/api/admin/rentals/[id]/route.ts:21-23 | exactly when EXTEND commits; its lease then ends the granted weeks after a moment that is not before its old end, not before now, and one of the two, and the ledger books the difference to the old end as skipped |
| Postings.EndMeans | apps/web/src/app/api/admin/rentals/[id]/route.ts:21-22 | exactly when END commits; the rental then ends at its old end or now, not after either, and the ledger books the rest as cut |
| Postings.StepPosts | apps/web/src/app/api/admin/rentals/[id]/route.ts:21-23 | each kind of ledger entry is posted by its own transactions, one at most by each: payments by their settlement or approval, activations, extensions and ends by theirs |
| Endings.StepRows | apps/web/src/lib/checkout.ts:17-36 | no transaction changes a rental but by cancelling a hold or ending a lease that has run out, by giving up the hold of an expired session, or by what it posts for it |
| Theorems.PaidSessionAccepted | apps/web/src/lib/stripe-event-handler.ts:36-73 | exactly when a paid session is accepted and when it throws, amount mismatch on the payable path included |
| Theorems.RedeliveryChangesNothing | apps/web/src/lib/stripe-event-handler.ts:39-48 | a redelivery of a recorded session, however late, changes nothing but the completion of its attempt, or throws if that has expired |
| Theorems.RecordStays | apps/web/src/lib/stripe-event-handler.ts:39-48 | what was recorded of a session stays recorded through every later state |
| Theorems.LatePaymentLostToCleanup | apps/web/src/lib/checkout.ts:17-36 | money that arrives after its hold ran out is refunded if its event comes before a cleanup, and otherwise throws, neither credited nor refunded, although the documentation promises the refund path |
| Journeys.LateMoneyHappens | apps/web/src/lib/checkout.ts:17-36 | in every database that has something to rent and no business yet, a hold and its session lead there: paid late, the session is taken for refund before a cleanup, and refused after one in every later state |
| Theorems.ExpiredNeverPaid | apps/web/src/lib/stripe-event-handler.ts:36-37 | a session whose attempt has expired is refused after every later run |
| Theorems.RefundIsWhole | apps/web/src/lib/stripe-event-handler.ts:71-73 | a refund action repays the whole of its one payment, and a payment has at most one action |
| Theorems.SucceededOnlyWhenRefunded | apps/sl-bot/src/provider-actions.ts:11 | in any transaction an action becomes SUCCEEDED only together with its payment becoming REFUNDED |
| Journeys.HoldPayableFromStart | apps/web/src/lib/checkout.ts:128-197 | in every ordered run of a database that started without business, a hold that has not run out can be settled exactly |
| Theorems.InitialLives | packages/db/migrations/001_init.sql:8-36 | at the start owners are eligible and holds payable, there being none |
| Theorems.OwnersStayEligible | packages/db/migrations/008_rental_role_race.sql:2-18 | under such a clock every unexpired PENDING or ACTIVE rental belongs to an active RESIDENT, RENTER or ADMINISTRATOR |
| ClockedRuns.AdministratorRemains | apps/web/src/lib/role-management.ts:14-17 | an active administrator remains after every run |
| Roles.AdministratorsAreMade | apps/web/src/lib/role-management.ts:5-33 | whoever is an administrator, manager or agent at the end of a run was one at the start, or was made one by a role change whose actor was an active administrator at that moment |
| Roles.NewcomersAreResidents | apps/web/src/app/api/admin/reconciliation/[id]/route.ts:97-109 | a user row that a run adds, by a first sign-in or by naming a payer, starts as an active RESIDENT |
| Roles.StepUsers | apps/web/src/lib/checkout.ts:187 | a transaction changes at most one user: by a role that an active administrator gives, by the credit of a lease, which makes its owner a RENTER unless an ADMINISTRATOR, or by adding an active RESIDENT |
| Tenants.CreditMakesTenant | apps/web/src/lib/checkout.ts:187 | when a credit or activation commits, the owner of its lease is RENTER or ADMINISTRATOR and nobody else's role changes; a terminal extension, which writes no role, keeps what the owner of the running lease was |
| Tenants.TenantsRentFromStart | apps/web/src/lib/checkout.ts:187 | in ordered runs from a database without business the same holds without any condition on the start |
| Tenants.RevivalIff | apps/web/src/app/api/admin/rentals/[id]/route.ts:23 | EXTEND leaves a running lease with anybody else if and only if it revives a lapsed lease of a RESIDENT |
| Tenants.RevivedForResident | apps/web/src/app/api/admin/rentals/[id]/route.ts:23 | it happens: where a lapsed lease of a renter is still ACTIVE and nothing else of that renter runs, an administrator makes the owner a RESIDENT and extends the lease |
| ClockedRuns.LastAdministratorStays | apps/web/src/lib/role-management.ts:14-17 | the last active administrator cannot be demoted |
| ClockedRuns.ChangeRoleLives | packages/db/migrations/007_rental_user_eligibility.sql:25-42 | no role change leaves a running rental with an owner who may not rent |
| ClockedRuns.RunLives | packages/db/migrations/008_rental_role_race.sql:2-18 | eligibility of owners and payability of holds hold along every run whose clock does not go back |
| ClockedRuns.RunningHoldSettles | apps/web/src/lib/checkout.ts:150-196 | settling a running hold commits, makes its rental ACTIVE for one week from now, and credits a CONFIRMED payment |
| Renewals.RenewalSavesSetup | apps/web/src/lib/checkout.ts:83-118 | at the same price a renewal asks exactly the setup price less than a new hold of the listing, one weekly price, in the listing's currency |
| Renewals.RenewalPayableUntil | apps/web/src/lib/checkout.ts:96-118 | a renewal just opened can be settled if and only if neither its 32 minutes nor its lease are over |
| Renewals.HoldPayableUntil | apps/web/src/lib/checkout.ts:40-94 | a hold just opened can be settled, at setup and one weekly price, if and only if its 32 minutes are not over; the lease then runs one week from that moment |
| Renewals.PayableIff | apps/web/src/lib/checkout.ts:150-162 | with owners of running rentals eligible, a bill can be settled at its amount under a new reference if and only if it is open, not due, and its rental a running hold or lease |
| Theorems.BillsAreFinal | apps/web/src/lib/checkout.ts:189-195 | invoices move only OPEN to PAID or VOID, attempts never leave COMPLETED or EXPIRED, and a bill's user, amount and rental never change |
| Theorems.BillsAgree | apps/web/src/app/api/checkout/route.ts:14-18 | a PAID invoice's attempt is COMPLETED, an invoice with a CONFIRMED payment is PAID and has no other, and a rental has at most one live attempt on an OPEN invoice |
| Theorems.AcquireAgain | apps/web/src/lib/checkout-attempt.ts:19-21 | a request for a target finds the one open attempt that it was given before |
| Theorems.AcquiredIsFound | apps/web/src/app/api/checkout/route.ts:14 | acquiring again right afterwards, until the hold runs out, returns the very same attempt and changes nothing |
| Journeys.FoundAgain | apps/web/src/lib/checkout-attempt.ts:19-21 | a recorded hold whose attempt is live and whose rental runs is the row that the existing-attempt query finds |
| Theorems.AcquiredIsRecorded | apps/web/src/app/api/checkout/route.ts:14 | a hold handed to a request names rows that belong together |
| Theorems.RecordedInRuns | apps/web/src/app/api/checkout/route.ts:14-18 | a hold that a request carries stays recorded through every run, so it can be replaced or settled later |
| Theorems.HoldNeverCollides | packages/db/migrations/001_init.sql:24 | once the availability query has passed, createCheckoutHold cannot violate one_live_rental |
| Theorems.ActivationCollidesIff | apps/web/src/app/api/admin/rentals/route.ts:40-45 | with no running lease, one_live_rental refuses an activation exactly when a hold or a lapsed lease is still marked live |
| Theorems.ActivationNeverSucceeds | apps/web/src/app/api/admin/rentals/route.ts:20-54 | in a database that started empty no activation succeeds: every path that marks an invoice PAID binds it to a rental |
| Theorems.EventCreditedOnce | apps/web/src/app/api/terminal/payment/route.ts:45-61 | after any run a terminal event has at most one payment and one credit, its record shows that payment's status, and a replay changes nothing |
| Theorems.EventStaysRecorded | apps/web/src/app/api/terminal/payment/route.ts:175-179 | a recorded event keeps its payer, amount and body for ever |
| Theorems.ClaimIsTaken | apps/sl-bot/src/provider-actions.ts:6-10 | a claim handed to a worker names the action's own payment, intent, amount and key |
| Theorems.TakenStays | apps/sl-bot/src/provider-actions.ts:11 | a claim still names its action's payment, intent, amount and key in every later state, however stale the claimant |
| Runs.InitialInv | packages/db/migrations/001_init.sql:8-36 | a database without any business satisfies the invariant |
| Program.Execute | packages/db/src/index.ts:7 | one transaction of the code commits exactly what the specification says, or leaves no trace |
| RefundWorker.HistoryKeeps | apps/sl-bot/src/provider-actions.ts:6-13 | claims, calls and refunds stay those of recorded actions through every such history |
| RefundWorker.RefundedOnceFromStart | apps/sl-bot/src/provider-actions.ts:6-13 | from a database in which no worker carries a claim and no refund was made, an intent is refunded at most once, for the amount of its payment |
| RefundWorker.RefundGoesThrough | apps/sl-bot/src/provider-actions.ts:6-13 | it does go through: a due action with attempts left can be claimed, called for and recorded, however late, and the provider has then made the refund and the payment is REFUNDED |
| RefundWorker.RunOneProviderAction | apps/sl-bot/src/provider-actions.ts:13 | one turn of the worker: claim, provider call, completion or failure |
| RefundAttempts.ClaimsAreBounded | apps/sl-bot/src/provider-actions.ts:7-12 | without an operator's retry an action is claimed at most as often as it has attempts left of twelve, and exactly its claims count as attempts |
| RefundAttempts.AttemptsStayBounded | apps/sl-bot/src/provider-actions.ts:8 | attempts of all actions stay within twelve in every run |
| RefundAttempts.StepAttempts | apps/web/src/lib/reconciliation.ts:15-22 | only claims raise attempts, only a retry lowers them, and a claim is given only below twelve |
| MoneyEffects.ComesUpAgain | apps/sl-bot/src/provider-actions.ts:6-12 | below twelve attempts a failed or unsettled refund can be claimed again exactly from a minute later on, and an abandoned one from the end of its lease on |
| MoneyEffects.RetriedComesUp | apps/web/src/lib/reconciliation.ts:15-22 | an action that waits for an operator is never claimed, and from the moment of a retry on it can be |
| RefundLog.LastWriterWins | apps/web/src/lib/stripe-event-handler.ts:83 | after any log of refund events payment_refunds is its last-writer map |
| RefundLog.SummedOnce | apps/web/src/lib/stripe-event-handler.ts:83 | the refunds summed up are distinct, of this payment, each at its latest amount and status |
| RefundLog.RedeliveryNeverCountsTwice | apps/web/src/lib/stripe-event-handler.ts:83 | redelivering a refund's latest event, whatever came in between, changes no refund row |
| RefundLog.ReportTwice | apps/web/src/lib/stripe-event-handler.ts:75-86 | delivering an event twice in a row has the effect of delivering it once |
| StripeHandler.SumSucceeded | apps/web/src/lib/stripe-event-handler.ts:83 | the loop adds up exactly the succeeded refunds of the payment |
| StripeInbox.EffectsCommitTogether | apps/web/src/app/api/stripe-webhook/route.ts:4 | a handler's effects commit only together with its row becoming COMPLETE or MANUAL_REVIEW out of PROCESSING |
| StripeInbox.PaidEventsRecordedFromStart | apps/web/src/lib/stripe-event-handler.ts:25-74 | starting from an inbox without events, every paid session whose event was handled has its one payment |
| StripeInbox.NextKeeps | apps/web/src/lib/reconciliation.ts:31-50 | every step keeps the claim meter, the finality of COMPLETE, and the database's invariant |
| EventClaims.NotClaimedAgain | apps/web/src/lib/stripe-events.ts:13 | while an event is PROCESSING under a lease, no delivery is answered CLAIMED before the row leaves PROCESSING or an asker's clock reaches the lease |
| EventClaims.ClaimAnswers | apps/web/src/lib/stripe-events.ts:8-15 | exactly when each of CLAIMED, COMPLETE, BUSY and CONFLICT is answered; the last three leave every row as it was, the first starts a lease of two minutes and counts an attempt |
| EventClaims.ClaimEnds | apps/web/src/app/api/stripe-webhook/route.ts:4 | a committed handler makes the row COMPLETE or, if it asked for review, MANUAL_REVIEW, a failure makes it FAILED, both without a lease, and only out of PROCESSING |
| EventClaims.OperatorsMay | apps/web/src/lib/reconciliation.ts:31-50 | an operator may retry or complete exactly a failed or reviewed row, or one whose lease both clocks have reached |
| StripeInbox.CompleteIsNeverHandledAgain | apps/web/src/app/api/stripe-webhook/route.ts:4 | no claimant and no operator can make a COMPLETE event take effect again |
| StripeWebhook.EventTable.Claim | apps/web/src/lib/stripe-events.ts:3-17 | claims a new, failed, reviewed or stuck event; refuses a complete or busy one and one with another type or digest |
| StripeWebhook.EventTable.Fail | apps/web/src/lib/stripe-events.ts:18-20 | fails a row only while it is PROCESSING |
| StripeWebhook.EventTable.Resolve | apps/web/src/lib/reconciliation.ts:43-50 | an operator completes a failed, reviewed or expired row, and no other |
| StripeWebhook.HandleStripeEvent | apps/web/src/lib/stripe-event-handler.ts:7-91 | the handler of each event type does what its specification says |
| StripeWebhook.FinishEvent | apps/web/src/app/api/stripe-webhook/route.ts:4 | handler effects and final status commit together, only for a row still in process, or nothing does |
| StripeWebhook.ReceiveEvent | apps/web/src/app/api/stripe-webhook/route.ts:2-5 | a delivery ends handled with its final status, FAILED without effects, or refused without a trace |
| StripeWebhook.RetryStripeEvent | apps/web/src/lib/reconciliation.ts:31-42 | an operator's retry claims, handles and finishes in one transaction or leaves the row as it was |
| Locks.NoDeadlock | apps/web/src/lib/stripe-event-handler.ts:33-35 | a wait-for graph of such transactions has no cycle |
| Locks.SomeoneProceeds | apps/web/src/lib/checkout.ts:41-42 | while any is unfinished, one can finish or be granted its lock |
| Locks.WaitingAscends | apps/web/src/lib/checkout.ts:134-135 | along a chain of waiters the awaited keys ascend |
| Locks.AscendingDistinct | apps/web/src/lib/stripe-event-handler.ts:33-35 | keys taken in order are distinct, and at most one of them is a listing's |
| Store.Database.Lock | apps/web/src/lib/role-management.ts:7-8 | a lock is re-entrant, and the code only ever asks for a key that comes after all it holds |
| Store.Database.Rollback | packages/db/src/index.ts:7 | a transaction that throws leaves the tables as they were |
| Store.Database.WriteRental | packages/db/migrations/008_rental_role_race.sql:2-18 | a rental row is written only if its period, its owner's eligibility and one_live_rental allow it |
| Store.Database.InsertReservation | packages/db/migrations/005_role_based_mvp.sql:26-42 | a reservation is inserted only if its CHECK, its idempotency key and one_live_reservation allow it |
| Store.Database.InsertPayment | packages/db/migrations/001_init.sql:26 | a payment is inserted only if its reference is new |
| Store.Database.WriteAttempt | packages/db/migrations/001_init.sql:28 | an attempt is written only if its invoice and session have no other |
| Constraints.RentalRefusedIff | packages/db/migrations/001_init.sql:24 | one_live_rental refuses exactly a row with which a listing would have two PENDING or ACTIVE rentals |
| Constraints.OwnerRefusedIff | packages/db/migrations/008_rental_role_race.sql:2-18 | the rentals trigger refuses exactly a row whose owner could not rent while it runs |
| Constraints.UserRefusedIff | packages/db/migrations/007_rental_user_eligibility.sql:25-42 | the users trigger refuses exactly a change that leaves a running rental with an owner who may not rent |
| Constraints.ReservationRefusedIff | packages/db/migrations/005_role_based_mvp.sql:26-42 | the keys of reservations refuse exactly a second ACTIVE one of a listing and a second one under a creator's key |
| Constraints.PaymentRefusedIff | packages/db/migrations/001_init.sql:26 | the reference key refuses exactly a second payment of one reference |
| Constraints.AttemptRefusedIff | packages/db/migrations/001_init.sql:28 | the keys of attempts refuse exactly a second attempt of a bill or of a session |
| Checkout.CleanupExpiredPendingHolds | apps/web/src/lib/checkout.ts:17-36 | ends lapsed leases, cancels overdue holds, expires their live attempts and voids their open invoices, and nothing else |
| Checkout.CreateCheckoutHold | apps/web/src/lib/checkout.ts:40-94 | a hold and its invoice exactly when user, listing, rentals and reservations allow it, after cleanup, holding the listing's and then the user's lock |
| Checkout.CleanAvailability | apps/web/src/lib/checkout.ts:44-65 | cleanup does not change what the availability query sees, and an available listing has no live row left |
| Checkout.CreateRenewalCheckoutHold | apps/web/src/lib/checkout.ts:96-118 | an invoice for a running lease of the user; its reservation guard never fires |
| Checkout.LeasedUnreserved | apps/web/src/lib/checkout.ts:106 | a listing with an ACTIVE rental has no ACTIVE reservation |
| Checkout.SettleCheckoutInvoice | apps/web/src/lib/checkout.ts:128-197 | settles exactly the payable invoice of that amount under a new reference; no reservation, index or trigger stops it otherwise |
| Checkout.SettlementUnreserved | apps/web/src/lib/checkout.ts:164-170 | the reservation conflict of a settlement never arises |
| Checkout.PaidWeekAdmissible | packages/db/migrations/008_rental_role_race.sql:2-18 | neither the owner trigger nor one_live_rental refuses the paid week |
| Checkout.RedeemInSteps | apps/web/src/lib/checkout.ts:137-186 | lapsing late reservations and completing the running one uses up every ACTIVE reservation of the listing |
| CheckoutRoute.ExistingUnique | apps/web/src/lib/checkout-attempt.ts:19-21 | the existing-attempt queries have at most one row to find |
| CheckoutRoute.AcquireAttempt | apps/web/src/app/api/checkout/route.ts:14 | returns the open attempt of the target or makes a new hold with its attempt, under the listing's lock |
| CheckoutRoute.ReplaceExpired | apps/web/src/app/api/checkout/route.ts:15 | gives up attempt, invoice and hold together and opens another, or changes nothing |
| CheckoutRoute.GiveHoldUp | apps/web/src/app/api/checkout/route.ts:15 | the three row counts are one exactly if attempt, invoice and hold can be given up |
| CheckoutRoute.StoreCreatedSession | apps/web/src/app/api/checkout/route.ts:18 | a session is stored once, on an attempt still being created |
| CheckoutRoute.StoreFailure | apps/web/src/app/api/checkout/route.ts:18 | a failed creation marks only an attempt still being created |
| CheckoutRoute.SettleInSimulation | apps/web/src/app/api/checkout/route.ts:17 | a simulated payment settles and completes its attempt together or not at all |
| StripeHandler.HandleExpired | apps/web/src/lib/stripe-event-handler.ts:8-24 | an expired session gives up its open attempt, invoice and hold, once |
| StripeHandler.HandlePaid | apps/web/src/lib/stripe-event-handler.ts:25-74 | acknowledges, settles or queues a refund exactly as specified, under the listing's, the user's and the payment's lock |
| StripeHandler.EligibleIsPayable | apps/web/src/lib/stripe-event-handler.ts:50-64 | the reservation condition of the eligibility query never makes a difference |
| StripeHandler.KeyUnused | apps/web/src/lib/stripe-event-handler.ts:73 | no refund action has the session's key before its payment exists, so its insert never finds a conflict |
| StripeHandler.HandleRefund | apps/web/src/lib/stripe-event-handler.ts:75-86 | records the refund, sums up, restates payment and actions, for a payment that the references select |
| StripeHandler.HandleDispute | apps/web/src/lib/stripe-event-handler.ts:87-89 | returns exactly the payments under the references to review |
| Reservations.CreateReservation | apps/web/src/lib/reservations.ts:32-118 | replays an identical request, refuses a different one under its key, and otherwise inserts exactly when actor, target, listing and dates allow it |
| Reservations.LockUsers | apps/web/src/lib/reservations.ts:63-65 | the loop locks the distinct users in ascending order after key and listing |
| Reservations.NewReservationAdmissible | packages/db/migrations/005_role_based_mvp.sql:39-42 | after cleanup and its query, createReservation violates neither one_live_reservation nor its key's uniqueness |
| Reservations.CancelReservation | apps/web/src/lib/reservations.ts:121-132 | an agent withdraws its own, other staff any ACTIVE reservation |
| Reservations.ListReservations | apps/web/src/app/management/reservations/page.tsx:10 | the list of reservations first lapses what is late, on every listing, under no lock |
| Reservations.LapsingIsInvisible | apps/web/src/app/management/reservations/page.tsx:10 | that changes no later answer about who keeps a listing |
| TerminalPayments.TerminalPays | apps/web/src/app/api/terminal/payment/route.ts:31-227 | one payment transaction: replay, refusal, extension, start or review, exactly as specified |
| TerminalPayments.ExtendsExactly | apps/web/src/app/api/terminal/payment/route.ts:106-126 | with a linked running lease the route extends exactly when the payer is its eligible renter and paid 1 to 4 whole weeks |
| TerminalPayments.StartsExactly | apps/web/src/app/api/terminal/payment/route.ts:106-126 | without one it starts exactly when the payer is known, eligible and not reserved against, and paid setup and 1 to 4 weeks |
| LeaseWeeks.StartIsOneWeekIff | apps/web/src/app/api/terminal/payment/route.ts:107-139 | a start grants exactly one week if and only if the amount is the setup price and one week's, although the documentation knows one-week starts only |
| Journeys.TwoWeekStart | apps/web/src/app/api/terminal/payment/route.ts:107-139 | it happens: where a listing is free, an eligible payer of the setup price and two weeks is confirmed and starts a lease of two weeks |
| LeaseWeeks.BoughtOnce | apps/web/src/app/api/terminal/payment/route.ts:107-111 | the state and the amount determine the weeks bought |
| LeaseWeeks.StepCredits | apps/web/src/app/api/terminal/payment/route.ts:107-173 | no transaction but the payment's own and an approval credits a terminal payment, the one with the weeks its amount buys at the price then in force, the other with one week |
| TerminalPayments.ReadTerminal | apps/web/src/app/api/terminal/payment/route.ts:83-104 | its queries see the lease, the payer, the payer's eligibility and the reservation as they are |
| TerminalPayments.RecordEvent | apps/web/src/app/api/terminal/payment/route.ts:150-179 | bill, payment, new end and event are written together |
| TerminalPayments.TerminalPolls | apps/web/src/app/api/terminal/poll/route.ts:47-49 | the poll ends lapsed leases and reservations of its listing and touches no hold |
| Transactions.PayReplay | apps/web/src/app/api/terminal/payment/route.ts:45-55 | a repeated event changes nothing and is answered with the recorded status |
| TerminalQueue.RunInOrder | lsl/rental-terminal.lsl:76-261 | queue, lists, requests and records stay in order through every run of payments, sends, arrivals, answers, resets and other transactions |
| TerminalQueue.RetryIsSends | lsl/rental-terminal.lsl:88-101 | the whole retry loop is a sequence of single sends, so that its runs are among those above |
| TerminalQueue.PaymentsSurviveFromStart | lsl/rental-terminal.lsl:76-101 | from a new script in front of any database, every payment that the terminal ever took is queued or on the server's record |
| TerminalQueue.SendsAgainIff | lsl/rental-terminal.lsl:76-101 | without a reset, a queued event can be sent again, in some continuation, if and only if its list entry does not stand for a request that was never made |
| TerminalQueue.NullKeySticks | lsl/rental-terminal.lsl:76-82 | a payment whose first request got NULL_KEY is queued and in that state |
| TerminalQueue.ResetFrees | lsl/rental-terminal.lsl:148-158 | after a reset any queued event can be sent |
| TerminalQueue.LeavesOnlyWhenRecorded | lsl/rental-terminal.lsl:255-261 | an event leaves the queue only through a success answer, when the server has its payer, amount and body on record |
| TerminalQueue.SuccessIsRecorded | apps/web/src/app/api/terminal/payment/route.ts:45-61 | the server answers with success only if its record is of the payment that was sent |
| TerminalQueue.Terminal.SendPayment | lsl/rental-terminal.lsl:76-82 | one request at a time for each queued event |
| TerminalQueue.Terminal.RetryQueue | lsl/rental-terminal.lsl:88-101 | the loop sends every persisted event that is not under way |
| TerminalQueue.Terminal.Money | lsl/rental-terminal.lsl:170-193 | a payment is queued before it is sent, unless the queue is full or cannot be written |
| TerminalQueue.Terminal.HttpResponse | lsl/rental-terminal.lsl:255-261 | an answer is matched to its event; only success removes it |
| TerminalQueue.Terminal.ResetScript | lsl/rental-terminal.lsl:148-160 | a reset forgets requests and keeps the queue |
| Callbacks.MarkerAlone | lsl/rental-terminal.lsl:131-133 | first failing input: marker written, sequence not; answered 503 and refused in every continuation though never shown |
| Callbacks.SequenceAlone | lsl/rental-terminal.lsl:131-133 | second failing input: sequence written, marker not, then a reset; refused in every continuation though unmarked and never shown |
| Callbacks.Overtaken | lsl/rental-terminal.lsl:129 | third failing input: event 2 overtakes event 1 while a poll from below both is under way; event 1 is refused in every continuation though unmarked, never shown, and no write failed |
| Callbacks.MarkedIsLost | lsl/rental-terminal.lsl:131-133 | an event with a marker that was not applied is never applied and never delivered |
| Callbacks.PollLowers | lsl/rental-terminal.lsl:222 | first input: a first poll is answered from an empty table, and event 1 is committed and called back before the answer arrives |
| Callbacks.ResetRepeats | lsl/rental-terminal.lsl:151-156 | second input, without any callback: event 7 is polled, a reset takes gSequence back, and the next poll is handed event 7 again |
| Polls.PollPages | apps/web/src/app/api/terminal/poll/route.ts:62-75 | a poll is never answered below the sequence it carries, and pages of twenty follow each other without gap or overlap |
| Polls.AnswersNeverFall | apps/web/src/app/api/terminal/poll/route.ts:45-65 | neither new rows nor retention nor time make a lower answer possible than was possible before |
| Polls.AnswersBelowIff | apps/web/src/app/api/terminal/poll/route.ts:23-75 | how low a poll may still be answered can be read off two moments: the first at which its time stamp lets it be served, and the last, when rows may have passed their thirty days |
| Callbacks.NewRowSound | packages/db/migrations/013_terminal_callback_delivery.sql:1-20 | a new row starts in order, whatever its terminal went through |
| Callbacks.BackoffAddsUp | apps/sl-bot/src/terminal-callback-worker.ts:42-44 | the backoff over n of at most 8 failures adds up to 2^n - 1 seconds |
| Callbacks.DeliverySteps | packages/db/migrations/013_terminal_callback_delivery.sql:12-19 | claims alone count as attempts, at most 8; delivered and dead-lettered stay apart and final under claims, failures and late successes |
| DeviceEffects.NotClaimedWhileHeld | apps/sl-bot/src/terminal-callback-worker.ts:26-40 | over any run of workers, network, terminal and server, a claimed delivery is claimed again only after an answer freed it or after more than two minutes |
| Callbacks.Deliveries.Claim | apps/sl-bot/src/terminal-callback-worker.ts:26-40 | claims a due row below 8 attempts, dead-letters an exhausted one |
| Callbacks.Deliveries.RecordFailure | apps/sl-bot/src/terminal-callback-worker.ts:46-52 | schedules the next attempt by the claimant's own count, and dead-letters after the last |
| Callbacks.Deliveries.RunOne | apps/sl-bot/src/terminal-callback-worker.ts:54-78 | an OK answer marks the row delivered unless it was dead-lettered meanwhile, anything else is a failure |
| Callbacks.CallbackTerminal.HandleCallback | lsl/rental-terminal.lsl:124-146 | answers 200, 400, 409 or 503 and changes markers, sequence and display accordingly |
| Callbacks.CallbackTerminal.ResetScript | lsl/rental-terminal.lsl:151-156 | a reset restores gSequence from linkset data, keeps the markers, drops the poll under way and sends another |
| Callbacks.CallbackTerminal.PollServer | lsl/rental-terminal.lsl:65-69 | one poll at a time, carrying gSequence as it is when the poll is sent |
| Callbacks.CallbackTerminal.HttpResponse | lsl/rental-terminal.lsl:218-249 | only the answer to the poll under way counts, and only with status 200 does it set gSequence and the display |
| Reconciliation.LockPayment | apps/web/src/lib/reconciliation.ts:7-13 | a payment can be decided exactly if it is under review and none of its refund actions is unresolved |
| Reconciliation.ApproveAsStart | apps/web/src/app/api/admin/reconciliation/[id]/route.ts:155-195 | approval as a start: one week for the payer on a free listing, bill and event confirmed together |
| Reconciliation.ApproveAsExtension | apps/web/src/app/api/admin/reconciliation/[id]/route.ts:196-220 | approval as an extension: one week onto the payer's own running lease; the reservation guard never fires |
| Reconciliation.Reject | apps/web/src/app/api/admin/reconciliation/[id]/route.ts:224-237 | rejection fails payment and event and voids the open bill |
| Reconciliation.Resolve | apps/web/src/app/api/admin/reconciliation/[id]/route.ts:221-223 | a Stripe payment is closed without touching its bill |
| Reconciliation.NamePayer | apps/web/src/app/api/admin/reconciliation/[id]/route.ts:97-137 | an unknown payer gets a user, an identity, a bill and a payment under review, together or not at all |
| Reconciliation.RejectUnlinked | apps/web/src/app/api/admin/reconciliation/[id]/route.ts:139-145 | an event of an unknown payer is closed |
| Administration.ActivateInvoice | apps/web/src/app/api/admin/rentals/route.ts:20-54 | activates a paid unbound invoice exactly when its user, listing and reservations allow it |
| Administration.ExtendRental | apps/web/src/app/api/admin/rentals/[id]/route.ts:13-27 | extends from the later of the lease's end and now; the reservation guard never fires |
| Administration.LongerAdmissible | packages/db/migrations/008_rental_role_race.sql:2-18 | the owner trigger alone decides whether a lapsed lease can be extended again |
| Administration.EndRental | apps/web/src/app/api/admin/rentals/[id]/route.ts:21-24 | ends at the earlier of the lease's end and now |
| Administration.EndedAdmissible | packages/db/migrations/001_init.sql:22 | only the CHECK on the period can refuse an end |
| Administration.ChangeUserRole | apps/web/src/lib/role-management.ts:5-33 | changes a role exactly when the actor may, an administrator remains, and the target does not rent under a role that may not |
| Administration.TriggerOnUsers | packages/db/migrations/007_rental_user_eligibility.sql:25-42 | the trigger refuses exactly a change that makes a renting user unable to rent |
| ProviderActions.ClaimProviderAction | apps/sl-bot/src/provider-actions.ts:6-10 | a due row is leased and counted, or set aside after twelve attempts |
| ProviderActions.Complete | apps/sl-bot/src/provider-actions.ts:11 | an answer is recorded on action and payment only while somebody is processing |
| ProviderActions.Fail | apps/sl-bot/src/provider-actions.ts:12 | a failure is recorded only while somebody is processing |
| ProviderActions.RetryProviderAction | apps/web/src/lib/reconciliation.ts:15-22 | an operator requeues a failed or exhausted action |
| ProviderActions.ResolveProviderAction | apps/web/src/lib/reconciliation.ts:23-30 | an operator closes one |
| Pricing.QuoteDecodeInverse | apps/web/src/app/api/terminal/poll/route.ts:67-69 | an amount passes week validation exactly if it is one of the four prices that the poll offered, and is decoded as that price's number of weeks |
| Pricing.InvalidAmountIsReviewed | packages/core/src/index.ts:188-194 | an amount that is no whole number of weeks is sent to review by the decision itself |
| Pricing.QuoteAgreesIffLinked | apps/web/src/app/api/terminal/payment/route.ts:97-109 | the price shown and the price expected agree exactly if there is no setup fee, no lease, or a renter with a linked avatar |
| Pricing.QuoteMeans | apps/web/src/app/api/terminal/poll/route.ts:67-69 | a poll quotes one to four weeks, with setup unless leased, and nothing for a listing that is reserved or has no price |
| Money.ParseFormat | packages/core/src/index.ts:162-174 | every safe amount is read back from its text at every scale of at least one digit |
| Money.FormatParse | packages/core/src/index.ts:162-174 | every text that is read is printed as itself with its fraction filled up with zeros |
| Money.ParseInjective | packages/core/src/index.ts:162-168 | two texts are read as the same amount exactly if they fill up to the same text |
| Money.ReadWhole | packages/core/src/index.ts:162-168 | a whole number without leading zeros is read as so many major units, up to the greatest safe amount |
| Money.ReadFraction | packages/core/src/index.ts:162-168 | with a point and one to scale digits it is read as its major units and that share of one |
| Money.ReadOnly | packages/core/src/index.ts:162-168 | no other text is read |
| RateLimit.Limiter.Consume | apps/web/src/lib/rate-limit.ts:16-36 | a hit is let through exactly if its window's history is below the limit, and no interval of one window's length lets more than twice the limit through |
| RateLimit.Limiter.Cleanup | apps/web/src/lib/rate-limit.ts:52 | cleanup forgets nothing that a later decision depends on |
| RateLimit.TwiceTheLimit | apps/web/src/lib/rate-limit.ts:7-10 | at most twice the limit in any interval as long as a window |
| RateLimit.ConsumeCounts | apps/web/src/lib/rate-limit.ts:26-35 | the counter row and the history of its window agree before and after every hit |
| RateLimit.CleanupCounts | apps/web/src/lib/rate-limit.ts:52 | the counter rows and the history of every recent window agree after a cleanup as before |
| RateLimit.LimitKeptIff | apps/web/src/lib/rate-limit.ts:26-35 | a hit is let through exactly below the limit if and only if the limit is at least one or the window has a row: a limit of zero still lets the first hit through |
| RateLimit.ConsumeLogin | apps/web/src/lib/rate-limit.ts:38-54 | once the address's bucket is full no name's bucket is touched |
| CheckoutEffects.TakenIff | apps/web/src/lib/checkout.ts:44-65 | what the availability query means: a listing is taken while a PENDING or ACTIVE rental, and reserved while an ACTIVE reservation, has time left |
| CheckoutEffects.CleanupMeans | apps/web/src/lib/checkout.ts:17-36 | cleanup ends the leases and cancels the holds that ran out, voids the open bills of those holds and expires their live attempts; every other row is as it was |
| CheckoutEffects.RedemptionMeans | apps/web/src/lib/checkout.ts:137-186 | a settlement uses up the listing's running reservation, and late ones lapse |
| CheckoutEffects.HoldMeans | apps/web/src/lib/checkout.ts:66-94 | a hold is made exactly for an eligible user on an offered, free listing: 32 minutes, billed at setup and one weekly price |
| CheckoutEffects.RenewalMeans | apps/web/src/lib/checkout.ts:96-118 | a renewal is made exactly for the owner of a running lease on an offered listing: one weekly price, due in 32 minutes |
| CheckoutEffects.FoundIff | apps/web/src/lib/checkout-attempt.ts:19-21 | the attempt that a request finds: live, on its user's open bill, for a hold on the listing or for the lease, that still runs |
| CheckoutEffects.HoldingMeans | apps/web/src/app/api/checkout/route.ts:14 | a request that finds none is handed a new hold with its price and an attempt that waits for its session |
| CheckoutEffects.RenewingMeans | apps/web/src/app/api/checkout/route.ts:14 | or a renewal, marked as such |
| CheckoutEffects.ReplacementMeans | apps/web/src/app/api/checkout/route.ts:15 | attempt, bill and hold of an expired session are given up together, if all are open, before another is made; a lease is kept |
| CheckoutEffects.SessionStored | apps/web/src/app/api/checkout/route.ts:18 | a session is stored once, on one attempt that waits for it, which is then OPEN; a failure marks only such an attempt |
| CheckoutEffects.SettlesIff | apps/web/src/lib/checkout.ts:150-162 | exactly when an invoice can be settled: open, not due, its rental running, its user eligible, the amount exactly its own, the reference new |
| CheckoutEffects.SettlementMeans | apps/web/src/lib/checkout.ts:172-196 | the hold becomes a lease of one week from now, or the lease is one week longer; the bill is PAID, the payment CONFIRMED and credited once, a RESIDENT becomes RENTER |
| CheckoutEffects.SimulationMeans | apps/web/src/app/api/checkout/route.ts:17 | a simulated payment settles the hold's bill and completes its waiting attempt, or does neither |
| CheckoutEffects.ExpiryMeans | apps/web/src/lib/stripe-event-handler.ts:8-24 | an expired session gives up an OPEN attempt on an open bill, with the hold if it still is one, once |
| CheckoutEffects.PaidMeans | apps/web/src/lib/stripe-event-handler.ts:36-73 | known money completes its attempt only; new money settles the bill; and if that cannot be settled any more, it is under review with a refund of all of it queued at once |
| CheckoutEffects.PollMeans | apps/web/src/app/api/terminal/poll/route.ts:47-49 | a poll ends the listing's lapsed leases and reservations and no hold |
| CheckoutEffects.ListingMeans | apps/web/src/app/management/reservations/page.tsx:10 | the list of reservations lapses the late ones of every listing and no other |
| CheckoutEffects.SignInMeans | apps/web/src/lib/auth.ts:195 | a first sign-in adds one active RESIDENT for an unknown avatar |
| MoneyEffects.AcceptedIff | apps/web/src/app/api/terminal/payment/route.ts:31-61 | exactly when a terminal payment is accepted; a recorded event that says the same is answered from its record and writes nothing |
| MoneyEffects.WeeksAdded | apps/web/src/app/api/terminal/payment/route.ts:107-179 | whole weeks paid by the renter of the seen lease lengthen it by exactly them, with bill, payment and record |
| MoneyEffects.WeeksStarted | apps/web/src/app/api/terminal/payment/route.ts:107-179 | setup and whole weeks paid by a known, eligible payer on a free listing start a lease of exactly them, and a RESIDENT becomes RENTER |
| MoneyEffects.OthersOnLeaseReviewed | apps/web/src/app/api/terminal/payment/route.ts:107-179 | any other payment where a lease is seen is recorded under review with what was expected, and grants nothing |
| MoneyEffects.OthersReviewed | apps/web/src/app/api/terminal/payment/route.ts:107-179 | and any other where none is seen |
| MoneyEffects.DisputeMeans | apps/web/src/lib/stripe-event-handler.ts:87-89 | a dispute returns every card payment that it refers to, CONFIRMED ones included, to review, and touches nothing else |
| MoneyEffects.ReferenceMeans | apps/web/src/lib/stripe-event-handler.ts:75-89 | refund and dispute notices refer to card payments by their intent, a single intent to one payment at most |
| MoneyEffects.SumMeans | apps/web/src/lib/stripe-event-handler.ts:83 | the refunded sum is zero without succeeded refunds, and counts each by its amount |
| MoneyEffects.RefundMeans | apps/web/src/lib/stripe-event-handler.ts:75-86 | a refund event is recorded under its refund's name; the payment is REFUNDED and its action SUCCEEDED exactly if it says succeeded and the whole positive amount is back, otherwise the payment is under review |
| MoneyEffects.ClaimMeans | apps/sl-bot/src/provider-actions.ts:6-10 | a due action is leased for two minutes and counted, twelve times; then it waits for an operator |
| MoneyEffects.CompletionMeans | apps/sl-bot/src/provider-actions.ts:11 | a refund that succeeded leaves action and payment so; one that is not settled comes up again after a minute, its payment under review |
| MoneyEffects.FailureMeans | apps/sl-bot/src/provider-actions.ts:12 | a failed action comes up again after a minute, unless that was its twelfth attempt |
| MoneyEffects.OperatorMeans | apps/web/src/lib/reconciliation.ts:15-30 | an operator sends a failed or waiting action back to the queue with all its attempts, or closes it |
| DeskEffects.ReviewableIff | apps/web/src/lib/reconciliation.ts:7-13 | a payment is open to decision while it is under review and none of its refund actions is unresolved |
| DeskEffects.StartApproved | apps/web/src/app/api/admin/reconciliation/[id]/route.ts:155-195 | exactly when a start is approved: one week from now, credited to the CONFIRMED payment, its bill PAID and bound to the lease, a RESIDENT made RENTER |
| DeskEffects.ExtensionNeeds | apps/web/src/app/api/admin/reconciliation/[id]/route.ts:196-203 | an extension is approved only for a terminal's payment under review of an eligible user who owns a running lease on the listing |
| DeskEffects.ExtensionApproved | apps/web/src/app/api/admin/reconciliation/[id]/route.ts:196-220 | and then: one week onto that lease, with payment, bill, record and role likewise |
| DeskEffects.RejectionMeans | apps/web/src/app/api/admin/reconciliation/[id]/route.ts:221-237 | a rejected payment and its record fail and its open bill is void; a resolved card payment is closed and its bill left alone |
| DeskEffects.IdentityMeans | apps/web/src/app/api/admin/reconciliation/[id]/route.ts:97-145 | naming an unknown payer adds an active RESIDENT with the bill and the payment under review that were missing; rejecting the record adds nothing |
| DeskEffects.ActivationMeans | apps/web/src/app/api/admin/rentals/route.ts:20-54 | exactly when a paid, unbound bill is activated, for one to 52 weeks from now, and a RESIDENT becomes RENTER |
| DeskEffects.RoleMeans | apps/web/src/lib/role-management.ts:5-33 | exactly when a role change commits; the subject then has the role asked for and nobody else changes |
| DeskEffects.ReservationMeans | apps/web/src/lib/reservations.ts:32-118 | exactly when a reservation is made, by active staff, for at most seven days, and when its key is answered from an earlier one |
| DeskEffects.WithdrawalMeans | apps/web/src/lib/reservations.ts:121-132 | an ACTIVE reservation is withdrawn by active staff, and by an agent only one of its own |
| DeviceEffects.DelayMeans | apps/sl-bot/src/terminal-callback-worker.ts:42-44 | the first retry comes after a second, each later one after twice the time, none after more than five minutes |
| DeviceEffects.ClaimMeans | apps/sl-bot/src/terminal-callback-worker.ts:26-40 | exactly which rows a worker may claim, eight times, and when a row is dead-lettered instead |
| DeviceEffects.AnswerMeans | apps/sl-bot/src/terminal-callback-worker.ts:46-78 | what an OK answer and a failure make of a row, and that a delivered one stays so |
| DeviceEffects.HandlingMeans | lsl/rental-terminal.lsl:124-146 | exactly when a callback is accepted, refused, taken for a replay or answered 503; only an accepted one changes the display and gSequence |
| DeviceEffects.PollingMeans | lsl/rental-terminal.lsl:151-156 | one poll at a time with the last sequence; a reset starts over from what was stored |
| DeviceEffects.ServingMeans | apps/web/src/app/api/terminal/poll/route.ts:23-75 | a poll is served within five minutes of its stamp, with the first twenty events above its sequence |
| DeviceEffects.KeptIff | apps/web/src/app/api/terminal/poll/route.ts:45 | exactly the events of the last thirty days are kept |
| DeviceEffects.TakingMeans | lsl/rental-terminal.lsl:170-193 | a payment is taken exactly while fewer than 32 are queued and the linkset data can be written, as it is |
| DeviceEffects.AnsweredMeans | lsl/rental-terminal.lsl:255-261 | an answer takes its request off the lists; a success its event off the queue and no other, a failure none |
| DeviceEffects.ForgettingMeans | apps/web/src/lib/rate-limit.ts:52 | cleanup forgets exactly the windows that started more than a day ago |

## Left out

- HTTP, sessions, origin checks, request schemas, signatures, nonces, encryption and hashing: a request reaches the model
  verified and well-formed; payload fields whose absence makes a handler throw are present.
- Error codes and messages: every thrown error is the same rollback.
- 32-bit overflow of amounts and the range of instants: integers are unbounded.
- The tables are one field of `Store.Database`, replaced by each statement, not one field each.
- One new identifier names all rows that a transaction inserts; the tables are separate, so no two rows collide.
- Row locks and their order; transactions are atomic steps, and the advisory locks that make them so are in `Locks` and in
  the contracts of the methods.
- Isolation below that: a method sees no other transaction's writes between its statements.
- Audit log, session deletion, notes, names and other columns that no modelled condition reads.
- Outbound events and the enqueueing of callbacks inside the payment transaction; `Polls` and `Callbacks` start from the stored
  rows. Web server, worker and database share the clock of `Polls.Server`.
- Listings and prices change by edits of single rows; terminals stay with their listing.
- Seed data.
- Terminal revocation, whose delete cascades to event records, and pairing, rotation and health checks.
- Charge identifiers in refund and dispute references never equal a payment intent, so a reference selects by intent alone.
- The skew between the 31-minute session and the 32-minute hold, and between the server's clock and the database's, beyond
  the two clocks that `Reservations.CreateReservation` and `StripeInbox` take.
- Uninitialised keys of the terminal script are taken to be NULL_KEY.
- One-time password and password login, the message outbox and its worker, role permission tables, pages and components.
- Signatures, shape checks and the health-check loop of the terminal script; the success of each linkset write is a
  parameter, and a write that reports no change counts as failed.
- Fingerprints of reservations: the digest of a request stands for the request.
- Money.Format: divides integers; the program divides doubles, whose floor is the same for safe integers.
- RateLimit.Limiter.Consume: is about one scope and subject with a fixed limit of at least one and a window of at most a day.
- RefundWorker.RunOneProviderAction: is one undisturbed turn; interleavings and crashes are in RefundedAtMostOnce.
- StripeWebhook.ReceiveEvent: is one undisturbed delivery; interleavings are in StripeInbox.
- Reconciliation.ApproveAsStart: the order in which its two cleanup updates run is not modelled; they touch different tables.
- Program.ExecuteAll: runs transactions one after the other; that the advisory locks serialise concurrent ones is not proved.
