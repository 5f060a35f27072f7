/** The tables of the rental system that the allocation and payment transactions share.
    A `Db` value is one committed state of those tables.  Identifiers (uuids, Stripe ids,
    avatar keys, digests) are natural numbers; instants are integers counted in seconds. */
module Tables {

  type Id = nat

  const WEEK := 604800
  const HOLD_SECONDS := 1920
  const RESERVATION_LIMIT := 604800
  const REFUND_LEASE := 120
  const REFUND_BACKOFF := 60
  const MAX_REFUND_ATTEMPTS := 12

  datatype Option<+T> = None | Some(value: T)

  // ---------- users, listings, terminals ----------

  datatype Role = Administrator | Manager | Agent | Renter | Resident

  datatype User = User(role: Role, active: bool)

  /** The owners that assertEligibleRentalUser and the rentals trigger accept. */
  predicate MayRent(u: User) {
    u.active && u.role in {Resident, Renter, Administrator}
  }

  predicate ManagesReservations(r: Role) {
    r in {Administrator, Manager, Agent}
  }

  predicate ManagesUsers(r: Role) {
    r == Administrator
  }

  datatype PriceRow = PriceRow(weeklyLinden: int, setupLinden: int, weeklyMinor: int, setupMinor: int, currency: Id)

  /** An active pricing row; the table's CHECK constraints are its subset condition. */
  type Price = p: PriceRow | p.weeklyLinden > 0 && p.setupLinden >= 0 && p.weeklyMinor > 0 && p.setupMinor >= 0
    witness PriceRow(1, 0, 1, 0, 0)

  datatype Listing = Listing(published: bool, price: Option<Price>)

  // ---------- rentals and reservations ----------

  datatype RentalStatus = Pending | Active | Ended | Cancelled

  datatype Rental = Rental(listing: Id, user: Id, status: RentalStatus, startsAt: int, endsAt: int)

  /** The rows that the partial unique index one_live_rental covers. */
  predicate IsLive(r: Rental) {
    r.status == Pending || r.status == Active
  }

  /** ACTIVE, CANCELLED, EXPIRED and COMPLETED of the reservation_status enum. */
  datatype ReservationStatus = Reserved | Withdrawn | Lapsed | Redeemed

  datatype Reservation = Reservation(listing: Id, target: Id, creator: Id, key: Id, fingerprint: Id,
                                     status: ReservationStatus, expiresAt: int)

  // ---------- invoices, attempts, payments ----------

  datatype Amount = Linden(lindens: int) | Minor(minor: int, currency: Id)

  datatype InvoiceStatus = Open | Paid | Void

  datatype Invoice = Invoice(rental: Option<Id>, listing: Id, user: Id, status: InvoiceStatus, amount: Amount, dueAt: int)

  /** CREATING, OPEN, COMPLETED, EXPIRED and FAILED of stripe_checkout_attempts. */
  datatype AttemptStatus = Creating | Presented | Completed | Expired | Errored

  datatype Attempt = Attempt(invoice: Id, session: Option<Id>, status: AttemptStatus)

  predicate LiveAttempt(a: Attempt) {
    a.status in {Creating, Presented, Errored}
  }

  /** The pair (provider, provider_reference); STRIPE payments are referred to by intent,
      SIMULATION payments by attempt, LINDEN payments by terminal and event. */
  datatype Reference = ByIntent(intent: Id) | BySimulation(attempt: Id) | ByTerminal(terminal: Id, event: Id)

  /** CONFIRMED, MANUAL_REVIEW, FAILED and REFUNDED of the payment_status enum. */
  datatype PaymentStatus = Confirmed | InReview | Rejected | Refunded

  datatype Payment = Payment(invoice: Id, reference: Reference, amount: Amount, status: PaymentStatus)

  // ---------- refund actions, refund rows, terminal receipts ----------

  datatype ActionState = Queued | Processing | Succeeded | Failing | NeedsOperator | Resolved

  /** A provider_actions row; `key` is the Stripe session that its idempotency key is built from. */
  datatype Action = Action(payment: Id, key: Id, intent: Id, amount: int, state: ActionState,
                           attempts: nat, availableAt: int, lease: Option<int>)

  datatype RefundStatus = RefundSucceeded | RefundUnsettled(code: nat)

  datatype RefundRow = RefundRow(payment: Id, amount: int, status: RefundStatus)

  /** A terminal_payment_events row. */
  datatype Receipt = Receipt(payer: Id, amount: int, status: PaymentStatus, payment: Option<Id>, body: Id, expected: int)

  // ---------- the lease ledger ----------

  /** Why lease time was added to or taken from a rental. */
  datatype Source = ByPayment(payment: Id) | ByActivation | ByExtension | ByEnding

  /** `weeks` were granted, `gap` seconds were skipped before they began, `cut` seconds were taken away. */
  datatype Entry = Entry(rental: Id, source: Source, weeks: nat, gap: nat, cut: nat)

  /** The history of all grants and cuts, newest first.  It is a history variable: the program
      keeps the same facts spread over payments and its audit log. */
  datatype Ledger = Opening | Posted(entry: Entry, earlier: Ledger)

  // ---------- the database ----------

  datatype Db = Db(
    users: map<Id, User>,
    identities: map<Id, Id>,                 // avatar to user
    listings: map<Id, Listing>,
    terminals: map<Id, Id>,                  // terminal to listing
    intents: map<Id, Id>,                    // the provider's session to payment intent relation
    rentals: map<Id, Rental>,
    reservations: map<Id, Reservation>,
    invoices: map<Id, Invoice>,
    attempts: map<Id, Attempt>,
    payments: map<Id, Payment>,
    actions: map<Id, Action>,
    refunds: map<Id, RefundRow>,
    receipts: map<(Id, Id), Receipt>,
    ledger: Ledger)

  /** What a transaction does: commit a new state and a result, or throw and change nothing. */
  datatype Outcome<+T> = Commit(db: Db, value: T) | Rollback

  function After<T>(o: Outcome<T>, db: Db): Db {
    if o.Commit? then o.db else db
  }

  function Result<T>(o: Outcome<T>): Option<T> {
    if o.Commit? then Some(o.value) else None
  }

  /** A generated identifier: no table has a row by that name yet. */
  predicate Fresh(db: Db, id: Id) {
    && id !in db.users && id !in db.rentals && id !in db.reservations && id !in db.invoices
    && id !in db.attempts && id !in db.payments && id !in db.actions
  }

  // ---------- UPDATE ... WHERE statements ----------

  predicate InScope(scope: Option<Id>, listing: Id) {
    scope.None? || scope.value == listing
  }

  /** UPDATE rentals SET status='ENDED' WHERE status='ACTIVE' AND ends_at<=now(). */
  function EndLapsed(rentals: map<Id, Rental>, now: int, scope: Option<Id>): map<Id, Rental> {
    map id | id in rentals ::
      if rentals[id].status == Active && rentals[id].endsAt <= now && InScope(scope, rentals[id].listing)
      then rentals[id].(status := Ended) else rentals[id]
  }

  /** A PENDING rental whose hold has run out. */
  predicate Overdue(rentals: map<Id, Rental>, now: int, scope: Option<Id>, id: Id) {
    && id in rentals && rentals[id].status == Pending
    && rentals[id].endsAt <= now && InScope(scope, rentals[id].listing)
  }

  function CancelOverdue(rentals: map<Id, Rental>, now: int, scope: Option<Id>): map<Id, Rental> {
    map id | id in rentals ::
      if Overdue(rentals, now, scope, id) then rentals[id].(status := Cancelled) else rentals[id]
  }

  /** The invoice is bound to an overdue hold. */
  predicate BillsOverdue(invoices: map<Id, Invoice>, rentals: map<Id, Rental>, now: int, scope: Option<Id>, invoice: Id) {
    && invoice in invoices && invoices[invoice].rental.Some?
    && Overdue(rentals, now, scope, invoices[invoice].rental.value)
  }

  function ExpireOverdueAttempts(attempts: map<Id, Attempt>, invoices: map<Id, Invoice>, rentals: map<Id, Rental>,
                                 now: int, scope: Option<Id>): map<Id, Attempt> {
    map id | id in attempts ::
      if LiveAttempt(attempts[id]) && BillsOverdue(invoices, rentals, now, scope, attempts[id].invoice)
      then attempts[id].(status := Expired) else attempts[id]
  }

  function VoidOverdueInvoices(invoices: map<Id, Invoice>, rentals: map<Id, Rental>, now: int, scope: Option<Id>): map<Id, Invoice> {
    map id | id in invoices ::
      if invoices[id].status == Open && BillsOverdue(invoices, rentals, now, scope, id)
      then invoices[id].(status := Void) else invoices[id]
  }

  /** UPDATE reservations SET status='EXPIRED' WHERE status='ACTIVE' AND expires_at<=now(). */
  function LapseReservations(reservations: map<Id, Reservation>, now: int, listing: Id): map<Id, Reservation> {
    map id | id in reservations ::
      if reservations[id].listing == listing && reservations[id].status == Reserved && reservations[id].expiresAt <= now
      then reservations[id].(status := Lapsed) else reservations[id]
  }

  /** The same update for the reservations of all listings. */
  function LapseOverdue(reservations: map<Id, Reservation>, now: int): map<Id, Reservation> {
    map id | id in reservations ::
      if reservations[id].status == Reserved && reservations[id].expiresAt <= now
      then reservations[id].(status := Lapsed) else reservations[id]
  }

  /** UPDATE users SET role='RENTER' WHERE role='RESIDENT'. */
  function Promote(users: map<Id, User>, user: Id): (promoted: map<Id, User>)
    ensures promoted.Keys == users.Keys
    ensures forall u | u in users :: MayRent(promoted[u]) == MayRent(users[u])
                                     && (promoted[u].role == Administrator <==> users[u].role == Administrator)
                                     && promoted[u].active == users[u].active
  {
    if user in users && users[user].role == Resident then users[user := users[user].(role := Renter)] else users
  }
}
