/** What each allocation and payment transaction does to the database, stated without the guards,
    row counts and index conflicts that the code also tests: `Store` proves that the code, with all
    of them, does exactly this in every state that satisfies the invariants. */
module Allocation {
  import opened Tables
  import opened Pricing

  // ---------- availability ----------

  /** Some PENDING or ACTIVE rental of the listing still runs. */
  predicate Occupied(rentals: map<Id, Rental>, now: int, listing: Id) {
    exists r :: r in rentals && IsLive(rentals[r]) && rentals[r].listing == listing && rentals[r].endsAt > now
  }

  /** No PENDING or ACTIVE row exists for the listing, running or not. */
  predicate Vacant(rentals: map<Id, Rental>, listing: Id) {
    forall r :: r in rentals && IsLive(rentals[r]) ==> rentals[r].listing != listing
  }

  predicate Holds(v: Reservation, now: int, listing: Id) {
    v.listing == listing && v.status == Reserved && v.expiresAt > now
  }

  /** A running reservation keeps the listing. */
  predicate IsReserved(reservations: map<Id, Reservation>, now: int, listing: Id) {
    exists v :: v in reservations && Holds(reservations[v], now, listing)
  }

  /** A running reservation keeps the listing for somebody else. */
  predicate ReservedAgainst(reservations: map<Id, Reservation>, now: int, listing: Id, user: Id) {
    exists v :: v in reservations && Holds(reservations[v], now, listing) && reservations[v].target != user
  }

  predicate Eligible(users: map<Id, User>, user: Id) {
    user in users && MayRent(users[user])
  }

  predicate Offered(listings: map<Id, Listing>, listing: Id) {
    listing in listings && listings[listing].published && listings[listing].price.Some?
  }

  /** The reservations of a listing once a rental there has started: late ones lapse, the running one is used up. */
  function RedeemReservations(reservations: map<Id, Reservation>, now: int, listing: Id): map<Id, Reservation> {
    map v | v in reservations ::
      if reservations[v].listing == listing && reservations[v].status == Reserved
      then reservations[v].(status := if reservations[v].expiresAt <= now then Lapsed else Redeemed)
      else reservations[v]
  }

  // ---------- cleanup ----------

  /** cleanupExpiredPendingHolds. */
  function Sweep(db: Db, now: int, scope: Option<Id>): Db {
    db.(rentals := CancelOverdue(EndLapsed(db.rentals, now, scope), now, scope),
        attempts := ExpireOverdueAttempts(db.attempts, db.invoices, db.rentals, now, scope),
        invoices := VoidOverdueInvoices(db.invoices, db.rentals, now, scope))
  }

  /** The cleanup that precedes an allocation: expired rentals, holds and reservations of the listing. */
  function Clean(db: Db, now: int, listing: Id): Db {
    Sweep(db, now, Some(listing)).(reservations := LapseReservations(db.reservations, now, listing))
  }

  /** First sign-in of an avatar: a resident of its own. */
  ghost function Enrol(db: Db, id: Id, avatar: Id): Outcome<()> {
    if avatar in db.identities then Commit(db, ())
    else Commit(db.(users := db.users[id := User(Resident, true)], identities := db.identities[avatar := id]), ())
  }

  // ---------- checkout holds ----------

  /** createCheckoutHold. */
  ghost function OpenHold(db: Db, now: int, id: Id, listing: Id, user: Id): Outcome<()> {
    if !Eligible(db.users, user) || !Offered(db.listings, listing)
       || Occupied(db.rentals, now, listing) || ReservedAgainst(db.reservations, now, listing, user) then Rollback
    else
      var price := db.listings[listing].price.value;
      var clean := Clean(db, now, listing);
      Commit(clean.(
        rentals := clean.rentals[id := Rental(listing, user, Pending, now, now + HOLD_SECONDS)],
        invoices := clean.invoices[id := Invoice(Some(id), listing, user, Open,
                                                 Minor(price.weeklyMinor + price.setupMinor, price.currency),
                                                 now + HOLD_SECONDS)]), ())
  }

  /** createRenewalCheckoutHold; a reservation or a second open renewal never stands in its way. */
  ghost function OpenRenewal(db: Db, now: int, id: Id, rental: Id, user: Id): Outcome<()> {
    if rental !in db.rentals then Rollback
    else
      var r := db.rentals[rental];
      if r.user != user || r.status != Active || r.endsAt <= now || !Offered(db.listings, r.listing) then Rollback
      else
        var price := db.listings[r.listing].price.value;
        Commit(db.(
          reservations := LapseReservations(db.reservations, now, r.listing),
          invoices := db.invoices[id := Invoice(Some(rental), r.listing, user, Open,
                                                Minor(price.weeklyMinor, price.currency), now + HOLD_SECONDS)]), ())
  }

  /** What a browser request carries from one transaction to the next: ExistingCheckoutAttempt. */
  datatype Hold = Hold(invoice: Id, rental: Id, listing: Id, attempt: Id, amount: int, currency: Id,
                       session: Option<Id>, renewal: bool)

  datatype Target = OfListing(listing: Id) | OfRental(rental: Id)

  /** The row that loadExistingCheckoutAttempt or loadExistingRenewalAttempt reads. */
  predicate ExistingRow(db: Db, now: int, target: Target, user: Id, attempt: Id) {
    && attempt in db.attempts && LiveAttempt(db.attempts[attempt])
    && db.attempts[attempt].invoice in db.invoices
    && var i := db.invoices[db.attempts[attempt].invoice];
    && i.status == Open && i.rental.Some? && i.rental.value in db.rentals && i.amount.Minor?
    && var r := db.rentals[i.rental.value];
    && r.user == user && r.endsAt > now
    && match target
       case OfListing(listing) => r.listing == listing && r.status == Pending
       case OfRental(rental) => i.rental.value == rental && r.status == Active
  }

  ghost function OpenAttempt(db: Db, now: int, target: Target, user: Id): (attempt: Id)
    requires exists a :: ExistingRow(db, now, target, user, a)
    ensures ExistingRow(db, now, target, user, attempt)
  {
    var a :| ExistingRow(db, now, target, user, a);
    a
  }

  function HoldOf(db: Db, attempt: Id): Hold
    requires attempt in db.attempts && db.attempts[attempt].invoice in db.invoices
    requires var i := db.invoices[db.attempts[attempt].invoice];
             i.rental.Some? && i.rental.value in db.rentals && i.amount.Minor?
  {
    var a := db.attempts[attempt];
    var i := db.invoices[a.invoice];
    var r := db.rentals[i.rental.value];
    Hold(a.invoice, i.rental.value, r.listing, attempt, i.amount.minor, i.amount.currency, a.session, r.status == Active)
  }

  /** The attempt row of a hold that was just opened under the identifier `id`. */
  ghost function BeginAttempt(taken: Outcome<()>, id: Id): Outcome<Hold> {
    if taken.Rollback? then Rollback
    else
      var db := taken.db.(attempts := taken.db.attempts[id := Attempt(id, None, Creating)]);
      if id in db.invoices && db.invoices[id].rental.Some? && db.invoices[id].rental.value in db.rentals && db.invoices[id].amount.Minor?
      then Commit(db, HoldOf(db, id)) else Rollback
  }

  ghost function OpenTarget(db: Db, now: int, id: Id, target: Target, user: Id): Outcome<()> {
    match target
    case OfListing(listing) => OpenHold(db, now, id, listing, user)
    case OfRental(rental) => OpenRenewal(db, now, id, rental, user)
  }

  /** acquireAttempt: the open attempt of the target if there is one, otherwise a new hold. */
  ghost function Acquire(db: Db, now: int, id: Id, target: Target, user: Id): Outcome<Hold> {
    if exists a :: ExistingRow(db, now, target, user, a) then
      Commit(db, HoldOf(db, OpenAttempt(db, now, target, user)))
    else BeginAttempt(OpenTarget(db, now, id, target, user), id)
  }

  /** replaceExpired: give up a hold whose session has expired at the provider and open another. */
  ghost function Replace(db: Db, now: int, id: Id, hold: Hold, user: Id): Outcome<Hold> {
    if !(hold.attempt in db.attempts && LiveAttempt(db.attempts[hold.attempt]))
       || !(hold.invoice in db.invoices && db.invoices[hold.invoice].status == Open)
       || (!hold.renewal && !(hold.rental in db.rentals && db.rentals[hold.rental].status == Pending)) then Rollback
    else
      var freed := GiveUp(db, hold);
      BeginAttempt(OpenTarget(freed, now, id, if hold.renewal then OfRental(hold.rental) else OfListing(hold.listing), user), id)
  }

  ghost function GiveUp(db: Db, hold: Hold): Db
    requires hold.attempt in db.attempts && hold.invoice in db.invoices && (hold.renewal || hold.rental in db.rentals)
  {
    db.(attempts := db.attempts[hold.attempt := db.attempts[hold.attempt].(status := Expired)],
        invoices := db.invoices[hold.invoice := db.invoices[hold.invoice].(status := Void)],
        rentals := if hold.renewal then db.rentals
                   else db.rentals[hold.rental := db.rentals[hold.rental].(status := Cancelled)])
  }

  /** The update that stores a created session. */
  ghost function PersistSession(db: Db, attempt: Id, session: Id): Outcome<()> {
    if attempt in db.attempts && db.attempts[attempt].status in {Creating, Errored}
       && (forall a :: a in db.attempts && a != attempt ==> db.attempts[a].session != Some(session))
    then Commit(db.(attempts := db.attempts[attempt := db.attempts[attempt].(session := Some(session), status := Presented)]), ())
    else Rollback
  }

  /** The update after a failed session creation. */
  ghost function MarkErrored(db: Db, attempt: Id): Outcome<()> {
    if attempt in db.attempts && db.attempts[attempt].status in {Creating, Errored}
    then Commit(db.(attempts := db.attempts[attempt := db.attempts[attempt].(status := Errored)]), ())
    else Commit(db, ())
  }

  // ---------- settlement ----------

  predicate UsedReference(payments: map<Id, Payment>, reference: Reference) {
    exists p :: p in payments && payments[p].reference == reference
  }

  ghost function PaymentOf(payments: map<Id, Payment>, reference: Reference): (payment: Id)
    requires UsedReference(payments, reference)
    ensures payment in payments && payments[payment].reference == reference
  {
    var p :| p in payments && payments[p].reference == reference;
    p
  }

  /** The invoice is open, not overdue, bound to a running rental, and its user may rent. */
  predicate Payable(db: Db, now: int, invoice: Id) {
    && invoice in db.invoices
    && var i := db.invoices[invoice];
    && i.status == Open && i.dueAt > now && i.rental.Some? && i.rental.value in db.rentals
    && IsLive(db.rentals[i.rental.value]) && db.rentals[i.rental.value].endsAt > now
    && Eligible(db.users, i.user)
  }

  /** One paid week: a hold becomes a lease that starts now, a lease is lengthened. */
  function PaidWeek(r: Rental, now: int): Rental {
    if r.status == Pending then r.(status := Active, startsAt := now, endsAt := now + WEEK)
    else r.(endsAt := r.endsAt + WEEK)
  }

  /** settleCheckoutInvoice.  No reservation ever stands in its way. */
  ghost function Settle(db: Db, now: int, id: Id, invoice: Id, reference: Reference, amount: Amount): Outcome<()> {
    if !Payable(db, now, invoice) || db.invoices[invoice].amount != amount || !amount.Minor?
       || UsedReference(db.payments, reference) then Rollback
    else
      var i := db.invoices[invoice];
      var rental := i.rental.value;
      Commit(db.(
        users := Promote(db.users, i.user),
        rentals := db.rentals[rental := PaidWeek(db.rentals[rental], now)],
        reservations := RedeemReservations(db.reservations, now, i.listing),
        invoices := db.invoices[invoice := i.(status := Paid)],
        payments := db.payments[id := Payment(invoice, reference, amount, Confirmed)],
        ledger := Posted(Entry(rental, ByPayment(id), 1, 0, 0), db.ledger)), ())
  }

  /** The simulation branch of the checkout route. */
  ghost function SettleSimulated(db: Db, now: int, id: Id, hold: Hold): Outcome<()> {
    match Settle(db, now, id, hold.invoice, BySimulation(hold.attempt), Minor(hold.amount, hold.currency))
    case Rollback => Rollback
    case Commit(paid, _) =>
      if hold.attempt in paid.attempts && paid.attempts[hold.attempt].status in {Creating, Errored}
      then Commit(paid.(attempts := paid.attempts[hold.attempt := paid.attempts[hold.attempt].(status := Completed)]), ())
      else Rollback
  }

  // ---------- Stripe events ----------

  datatype Handling = Handled | ForReview

  /** A checkout session event whose bindings and fields the handler found complete. */
  datatype SessionEvent = SessionEvent(attempt: Id, invoice: Id, session: Id, intent: Id, amount: Amount)

  predicate BoundSession(db: Db, e: SessionEvent) {
    && e.attempt in db.attempts && db.attempts[e.attempt].invoice == e.invoice
    && db.attempts[e.attempt].session == Some(e.session) && e.invoice in db.invoices
  }

  /** checkout.session.expired and async_payment_failed. */
  ghost function SessionExpired(db: Db, e: SessionEvent): Outcome<Handling> {
    if !BoundSession(db, e) then Rollback
    else if db.attempts[e.attempt].status == Expired then Commit(db, Handled)
    else if db.attempts[e.attempt].status != Presented || db.invoices[e.invoice].status != Open then Rollback
    else
      var rental := db.invoices[e.invoice].rental;
      Commit(db.(
        attempts := db.attempts[e.attempt := db.attempts[e.attempt].(status := Expired)],
        invoices := db.invoices[e.invoice := db.invoices[e.invoice].(status := Void)],
        rentals := if rental.Some? && rental.value in db.rentals && db.rentals[rental.value].status == Pending
                   then db.rentals[rental.value := db.rentals[rental.value].(status := Cancelled)] else db.rentals), Handled)
  }

  /** checkout.session.completed and async_payment_succeeded: a duplicate is acknowledged, a payable
      invoice is settled, anything else is recorded for review with a full refund queued. */
  ghost function SessionPaid(db: Db, now: int, id: Id, e: SessionEvent): Outcome<Handling> {
    if !BoundSession(db, e) || db.attempts[e.attempt].status !in {Presented, Completed} || !e.amount.Minor? then Rollback
    else
      var completed := db.attempts[e.attempt := db.attempts[e.attempt].(status := Completed)];
      if UsedReference(db.payments, ByIntent(e.intent)) then
        var p := PaymentOf(db.payments, ByIntent(e.intent));
        if db.payments[p].invoice != e.invoice || db.payments[p].amount != e.amount then Rollback
        else Commit(db.(attempts := completed), Handled)
      else if Payable(db, now, e.invoice) then
        match Settle(db, now, id, e.invoice, ByIntent(e.intent), e.amount)
        case Rollback => Rollback
        case Commit(paid, _) => Commit(paid.(attempts := completed), Handled)
      else if e.amount.minor <= 0 then Rollback
      else Commit(db.(
        payments := db.payments[id := Payment(e.invoice, ByIntent(e.intent), e.amount, InReview)],
        actions := db.actions[id := Action(id, e.session, e.intent, e.amount.minor, Queued, 0, now, None)]), ForReview)
  }

  /** refundDisposition. */
  function RefundDisposition(status: RefundStatus, refunded: int, paid: int): PaymentStatus {
    if status == RefundSucceeded && paid > 0 && refunded >= paid then Refunded else InReview
  }

  /** The succeeded refund rows of a payment. */
  function SucceededRefunds(refunds: map<Id, RefundRow>, payment: Id): set<Id> {
    set f | f in refunds && refunds[f].payment == payment && refunds[f].status == RefundSucceeded
  }

  ghost function SumRefunds(refunds: map<Id, RefundRow>, ids: set<Id>): int
    requires ids <= refunds.Keys
  {
    if ids == {} then 0
    else
      var f :| f in ids;
      refunds[f].amount + SumRefunds(refunds, ids - {f})
  }

  /** refund.* events carry one refund; charge.refunded carries the provider's own total. */
  datatype RefundEvent = RefundNotice(refund: Id, amount: int, status: RefundStatus)
                       | ChargeRefunded(total: int, status: RefundStatus)

  /** ON CONFLICT(refund_id) DO UPDATE keeps the payment of the row that exists. */
  function RecordRefund(refunds: map<Id, RefundRow>, payment: Id, e: RefundEvent): map<Id, RefundRow> {
    if e.ChargeRefunded? then refunds
    else if e.refund in refunds then refunds[e.refund := refunds[e.refund].(amount := e.amount, status := e.status)]
    else refunds[e.refund := RefundRow(payment, e.amount, e.status)]
  }

  function Reported(e: RefundEvent): RefundStatus {
    e.status
  }

  ghost function CumulativeRefund(refunds: map<Id, RefundRow>, payment: Id, e: RefundEvent): int {
    if e.ChargeRefunded? then e.total else SumRefunds(refunds, SucceededRefunds(refunds, payment))
  }

  function MarkActions(actions: map<Id, Action>, payment: Id, succeeded: bool): map<Id, Action> {
    map a | a in actions ::
      if succeeded && actions[a].payment == payment then actions[a].(state := Succeeded) else actions[a]
  }

  /** The refund branch, for the payment row that the provider references selected, if any. */
  ghost function RefundReported(db: Db, found: Option<Id>, e: RefundEvent): Outcome<Handling> {
    if found.None? then Commit(db, ForReview)
    else if !(found.value in db.payments && db.payments[found.value].reference.ByIntent? && db.payments[found.value].amount.Minor?)
            || (e.RefundNotice? && e.amount < 0) then Rollback
    else
      var refunds := RecordRefund(db.refunds, found.value, e);
      var paid := db.payments[found.value].amount.minor;
      var status := RefundDisposition(Reported(e), CumulativeRefund(refunds, found.value, e), paid);
      Commit(db.(
        refunds := refunds,
        payments := db.payments[found.value := db.payments[found.value].(status := status)],
        actions := MarkActions(db.actions, found.value, status == Refunded)),
        if status == Refunded then Handled else ForReview)
  }

  /** charge.dispute.*: every payment under one of the references returns to review. */
  ghost function Disputed(db: Db, references: set<Id>): Outcome<Handling> {
    Commit(db.(payments := map p | p in db.payments ::
      if db.payments[p].reference.ByIntent? && db.payments[p].reference.intent in references
      then db.payments[p].(status := InReview) else db.payments[p]), ForReview)
  }

  // ---------- reservations ----------

  datatype Request = Request(listing: Id, target: Id, expiresAt: int, key: Id, fingerprint: Id)

  predicate Verified(identities: map<Id, Id>, user: Id) {
    exists a :: a in identities && identities[a] == user
  }

  predicate IsReplay(db: Db, actor: Id, key: Id, v: Id) {
    v in db.reservations && db.reservations[v].creator == actor && db.reservations[v].key == key
  }

  ghost function ReplayOf(db: Db, actor: Id, key: Id): (reservation: Id)
    requires exists v :: IsReplay(db, actor, key, v)
    ensures IsReplay(db, actor, key, reservation)
  {
    var v :| IsReplay(db, actor, key, v);
    v
  }

  /** createReservation; `wall` is the server's clock, `now` the transaction's. */
  ghost function Reserve(db: Db, wall: int, now: int, id: Id, actor: Id, q: Request): Outcome<Id> {
    if q.expiresAt <= wall || q.expiresAt > wall + RESERVATION_LIMIT
       || !(actor in db.users && db.users[actor].active && ManagesReservations(db.users[actor].role)) then Rollback
    else if exists v :: IsReplay(db, actor, q.key, v) then
      var v := ReplayOf(db, actor, q.key);
      if db.reservations[v].fingerprint != q.fingerprint then Rollback else Commit(db, v)
    else if !Eligible(db.users, q.target) || !Verified(db.identities, q.target)
            || (db.users[actor].role == Agent && db.users[q.target].role == Administrator)
            || !Offered(db.listings, q.listing) || Occupied(db.rentals, now, q.listing)
            || IsReserved(db.reservations, now, q.listing) || q.expiresAt <= now then Rollback
    else
      var clean := Clean(db, now, q.listing);
      Commit(clean.(reservations :=
        clean.reservations[id := Reservation(q.listing, q.target, actor, q.key, q.fingerprint, Reserved, q.expiresAt)]), id)
  }

  /** cancelReservation. */
  ghost function Withdraw(db: Db, actor: Id, reservation: Id): Outcome<()> {
    if actor in db.users && db.users[actor].active && ManagesReservations(db.users[actor].role)
       && reservation in db.reservations && db.reservations[reservation].status == Reserved
       && (db.users[actor].role == Agent ==> db.reservations[reservation].creator == actor)
    then Commit(db.(reservations := db.reservations[reservation := db.reservations[reservation].(status := Withdrawn)]), ())
    else Rollback
  }

  // ---------- terminal payments ----------

  predicate LeaseOn(rentals: map<Id, Rental>, now: int, listing: Id, r: Id) {
    r in rentals && rentals[r].status == Active && rentals[r].listing == listing && rentals[r].endsAt > now
  }

  datatype TerminalPayment = TerminalPayment(terminal: Id, event: Id, payer: Id, amount: int, body: Id)

  /** A running lease whose owner has a linked avatar: what the terminal's join can see. */
  predicate LinkedLease(db: Db, now: int, listing: Id, r: Id) {
    LeaseOn(db.rentals, now, listing, r) && Verified(db.identities, db.rentals[r].user)
  }

  ghost function SeenLease(db: Db, now: int, listing: Id): (rental: Id)
    requires exists r :: LinkedLease(db, now, listing, r)
    ensures LinkedLease(db, now, listing, rental)
  {
    var r :| LinkedLease(db, now, listing, r);
    r
  }

  /** The terminal payment transaction. */
  ghost function PayTerminal(db: Db, now: int, id: Id, q: TerminalPayment): Outcome<PaymentStatus> {
    if q.terminal !in db.terminals || q.amount <= 0 then Rollback
    else if (q.terminal, q.event) in db.receipts then
      var prior := db.receipts[(q.terminal, q.event)];
      if prior.body != q.body || prior.payer != q.payer || prior.amount != q.amount then Rollback
      else Commit(db, prior.status)
    else
      var listing := db.terminals[q.terminal];
      if !(listing in db.listings && db.listings[listing].price.Some?) then Rollback
      else
        var price := db.listings[listing].price.value;
        var clean := Clean(db, now, listing);
        if exists r :: LinkedLease(clean, now, listing, r) then
          var r := SeenLease(clean, now, listing);
          if ValidWeeks(q.amount, 0, price.weeklyLinden) && q.payer in db.identities
             && db.identities[q.payer] == clean.rentals[r].user && Eligible(db.users, clean.rentals[r].user)
          then Commit(Lengthen(clean, now, id, q, r, PaidWeeks(q.amount, 0, price.weeklyLinden)), Confirmed)
          else Commit(ReviewPayment(clean, now, id, q, listing, ExpectedAmount(q.amount, 0, price.weeklyLinden)), InReview)
        else if ValidWeeks(q.amount, price.setupLinden, price.weeklyLinden) && q.payer in db.identities
                && Eligible(db.users, db.identities[q.payer]) && Vacant(clean.rentals, listing)
                && !ReservedAgainst(db.reservations, now, listing, db.identities[q.payer])
        then Commit(StartLease(clean, now, id, q, listing, db.identities[q.payer],
                               PaidWeeks(q.amount, price.setupLinden, price.weeklyLinden)), Confirmed)
        else Commit(ReviewPayment(clean, now, id, q, listing,
                                  ExpectedAmount(q.amount, price.setupLinden, price.weeklyLinden)), InReview)
  }

  ghost function Lengthen(db: Db, now: int, id: Id, q: TerminalPayment, r: Id, weeks: int): Db
    requires r in db.rentals && weeks >= 0
  {
    db.(rentals := db.rentals[r := db.rentals[r].(endsAt := db.rentals[r].endsAt + weeks * WEEK)],
        invoices := db.invoices[id := Invoice(Some(r), db.rentals[r].listing, db.rentals[r].user, Paid, Linden(q.amount), now)],
        payments := db.payments[id := Payment(id, ByTerminal(q.terminal, q.event), Linden(q.amount), Confirmed)],
        receipts := db.receipts[(q.terminal, q.event) := Receipt(q.payer, q.amount, Confirmed, Some(id), q.body, q.amount)],
        ledger := Posted(Entry(r, ByPayment(id), weeks, 0, 0), db.ledger))
  }

  ghost function StartLease(db: Db, now: int, id: Id, q: TerminalPayment, listing: Id, user: Id, weeks: int): Db
    requires weeks >= 0
  {
    db.(users := Promote(db.users, user),
        rentals := db.rentals[id := Rental(listing, user, Active, now, now + weeks * WEEK)],
        reservations := RedeemReservations(db.reservations, now, listing),
        invoices := db.invoices[id := Invoice(Some(id), listing, user, Paid, Linden(q.amount), now)],
        payments := db.payments[id := Payment(id, ByTerminal(q.terminal, q.event), Linden(q.amount), Confirmed)],
        receipts := db.receipts[(q.terminal, q.event) := Receipt(q.payer, q.amount, Confirmed, Some(id), q.body, q.amount)],
        ledger := Posted(Entry(id, ByPayment(id), weeks, 0, 0), db.ledger))
  }

  /** A payment that needs a decision: billed to the payer when known, credited to nobody. */
  ghost function ReviewPayment(db: Db, now: int, id: Id, q: TerminalPayment, listing: Id, expected: int): Db {
    var known := q.payer in db.identities;
    db.(invoices := if known then db.invoices[id := Invoice(None, listing, db.identities[q.payer], Open, Linden(expected), now)] else db.invoices,
        payments := if known then db.payments[id := Payment(id, ByTerminal(q.terminal, q.event), Linden(q.amount), InReview)] else db.payments,
        receipts := db.receipts[(q.terminal, q.event) :=
                      Receipt(q.payer, q.amount, InReview, if known then Some(id) else None, q.body, expected)])
  }

  /** The terminal poll's housekeeping. */
  function Poll(db: Db, now: int, listing: Id): Db {
    db.(rentals := EndLapsed(db.rentals, now, Some(listing)),
        reservations := LapseReservations(db.reservations, now, listing))
  }

  /** The update that precedes the list of reservations. */
  function LapseAll(db: Db, now: int): Db {
    db.(reservations := LapseOverdue(db.reservations, now))
  }

  // ---------- reconciliation ----------

  /** lockPaymentForReconciliation succeeds. */
  predicate Reviewable(db: Db, payment: Id) {
    && payment in db.payments && db.payments[payment].status == InReview
    && db.payments[payment].invoice in db.invoices
    && forall a :: a in db.actions && db.actions[a].payment == payment ==> db.actions[a].state == Resolved
  }

  function SettleReceipts(receipts: map<(Id, Id), Receipt>, payment: Id, status: PaymentStatus): map<(Id, Id), Receipt> {
    map k | k in receipts ::
      if receipts[k].payment == Some(payment) then receipts[k].(status := status) else receipts[k]
  }

  /** APPROVE with rentalAction START: one week, starting now. */
  ghost function ApproveStart(db: Db, now: int, id: Id, payment: Id): Outcome<()> {
    if !Reviewable(db, payment) || !db.payments[payment].reference.ByTerminal? then Rollback
    else
      var invoice := db.payments[payment].invoice;
      var i := db.invoices[invoice];
      var clean := Clean(db, now, i.listing);
      if !Eligible(db.users, i.user) || !Vacant(clean.rentals, i.listing)
         || ReservedAgainst(db.reservations, now, i.listing, i.user) then Rollback
      else Commit(clean.(
        users := Promote(clean.users, i.user),
        rentals := clean.rentals[id := Rental(i.listing, i.user, Active, now, now + WEEK)],
        reservations := RedeemReservations(clean.reservations, now, i.listing),
        invoices := clean.invoices[invoice := i.(rental := Some(id), status := Paid)],
        payments := clean.payments[payment := clean.payments[payment].(status := Confirmed)],
        receipts := SettleReceipts(clean.receipts, payment, Confirmed),
        ledger := Posted(Entry(id, ByPayment(payment), 1, 0, 0), clean.ledger)), ())
  }

  /** A running lease of the user. */
  predicate OwnLease(rentals: map<Id, Rental>, now: int, listing: Id, user: Id, r: Id) {
    LeaseOn(rentals, now, listing, r) && rentals[r].user == user
  }

  ghost function LeaseOf(rentals: map<Id, Rental>, now: int, listing: Id, user: Id): (rental: Id)
    requires exists r :: OwnLease(rentals, now, listing, user, r)
    ensures OwnLease(rentals, now, listing, user, rental)
  {
    var r :| OwnLease(rentals, now, listing, user, r);
    r
  }

  /** APPROVE with rentalAction EXTENSION: one week onto the payer's running lease. */
  ghost function ApproveExtension(db: Db, now: int, payment: Id): Outcome<()> {
    if !Reviewable(db, payment) || !db.payments[payment].reference.ByTerminal? then Rollback
    else
      var invoice := db.payments[payment].invoice;
      var i := db.invoices[invoice];
      if !Eligible(db.users, i.user) || !(exists r :: OwnLease(db.rentals, now, i.listing, i.user, r)) then Rollback
      else
        var r := LeaseOf(db.rentals, now, i.listing, i.user);
        Commit(db.(
          users := Promote(db.users, i.user),
          rentals := db.rentals[r := db.rentals[r].(endsAt := db.rentals[r].endsAt + WEEK)],
          reservations := LapseReservations(db.reservations, now, i.listing),
          invoices := db.invoices[invoice := i.(rental := Some(r), status := Paid)],
          payments := db.payments[payment := db.payments[payment].(status := Confirmed)],
          receipts := SettleReceipts(db.receipts, payment, Confirmed),
          ledger := Posted(Entry(r, ByPayment(payment), 1, 0, 0), db.ledger)), ())
  }

  /** REJECT of a payment. */
  ghost function RejectPayment(db: Db, payment: Id): Outcome<()> {
    if !Reviewable(db, payment) then Rollback
    else
      var invoice := db.payments[payment].invoice;
      Commit(db.(
        payments := db.payments[payment := db.payments[payment].(status := Rejected)],
        invoices := if db.invoices[invoice].status == Open
                    then db.invoices[invoice := db.invoices[invoice].(status := Void)] else db.invoices,
        receipts := SettleReceipts(db.receipts, payment, Rejected)), ())
  }

  /** RESOLVE of a Stripe payment. */
  ghost function ResolvePayment(db: Db, payment: Id): Outcome<()> {
    if !Reviewable(db, payment) || !db.payments[payment].reference.ByIntent? then Rollback
    else Commit(db.(payments := db.payments[payment := db.payments[payment].(status := Rejected)]), ())
  }

  /** A receipt under review whose payer was unknown. */
  predicate Unlinked(db: Db, terminal: Id, event: Id) {
    && (terminal, event) in db.receipts && db.receipts[(terminal, event)].status == InReview
    && db.receipts[(terminal, event)].payment.None? && terminal in db.terminals
  }

  /** RESOLVE_IDENTITY: a user for the payer, and the bill and payment that were missing. */
  ghost function ResolveIdentity(db: Db, now: int, id: Id, terminal: Id, event: Id): Outcome<()> {
    if !Unlinked(db, terminal, event) || db.receipts[(terminal, event)].payer in db.identities then Rollback
    else
      var q := db.receipts[(terminal, event)];
      Commit(db.(
        users := db.users[id := User(Resident, true)],
        identities := db.identities[q.payer := id],
        invoices := db.invoices[id := Invoice(None, db.terminals[terminal], id, Open, Linden(q.expected), now)],
        payments := db.payments[id := Payment(id, ByTerminal(terminal, event), Linden(q.amount), InReview)],
        receipts := db.receipts[(terminal, event) := q.(payment := Some(id))]), ())
  }

  /** REJECT of a receipt whose payer is unknown. */
  ghost function RejectReceipt(db: Db, terminal: Id, event: Id): Outcome<()> {
    if !Unlinked(db, terminal, event) then Rollback
    else Commit(db.(receipts := db.receipts[(terminal, event) := db.receipts[(terminal, event)].(status := Rejected)]), ())
  }

  // ---------- administration ----------

  /** Activation of a paid invoice that no rental has been bound to. */
  ghost function Activate(db: Db, now: int, id: Id, invoice: Id, weeks: int): Outcome<()> {
    if !(invoice in db.invoices && db.invoices[invoice].status == Paid && db.invoices[invoice].rental.None?)
       || !(1 <= weeks <= 52) then Rollback
    else
      var i := db.invoices[invoice];
      if !Eligible(db.users, i.user) || !Vacant(db.rentals, i.listing)
         || ReservedAgainst(db.reservations, now, i.listing, i.user) then Rollback
      else Commit(db.(
        users := Promote(db.users, i.user),
        rentals := db.rentals[id := Rental(i.listing, i.user, Active, now, now + weeks * WEEK)],
        reservations := RedeemReservations(db.reservations, now, i.listing),
        invoices := db.invoices[invoice := i.(rental := Some(id))],
        ledger := Posted(Entry(id, ByActivation, weeks, 0, 0), db.ledger)), ())
  }

  function Max(a: int, b: int): int {
    if a >= b then a else b
  }

  function Min(a: int, b: int): int {
    if a <= b then a else b
  }

  /** EXTEND: from the end of the lease, or from now if that has passed.  No reservation ever stands in its way. */
  ghost function ExtendLease(db: Db, now: int, rental: Id, weeks: int): Outcome<()> {
    if !(rental in db.rentals && db.rentals[rental].status == Active) || !(1 <= weeks <= 52)
       || !Eligible(db.users, db.rentals[rental].user) then Rollback
    else
      var r := db.rentals[rental];
      Commit(db.(
        rentals := db.rentals[rental := r.(endsAt := Max(r.endsAt, now) + weeks * WEEK)],
        ledger := Posted(Entry(rental, ByExtension, weeks, Max(r.endsAt, now) - r.endsAt, 0), db.ledger)), ())
  }

  /** END. */
  ghost function EndLease(db: Db, now: int, rental: Id): Outcome<()> {
    if rental !in db.rentals || Min(db.rentals[rental].endsAt, now) <= db.rentals[rental].startsAt then Rollback
    else
      var r := db.rentals[rental];
      Commit(db.(
        rentals := db.rentals[rental := r.(status := Ended, endsAt := Min(r.endsAt, now))],
        ledger := Posted(Entry(rental, ByEnding, 0, 0, r.endsAt - Min(r.endsAt, now)), db.ledger)), ())
  }

  function ActiveAdministrators(users: map<Id, User>): set<Id> {
    set u | u in users && users[u].role == Administrator && users[u].active
  }

  /** The user owns a running hold or lease. */
  predicate RentsNow(rentals: map<Id, Rental>, now: int, user: Id) {
    exists r :: r in rentals && rentals[r].user == user && IsLive(rentals[r]) && rentals[r].endsAt > now
  }

  /** changeUserRole. */
  ghost function ChangeRole(db: Db, now: int, actor: Id, target: Id, role: Role): Outcome<()> {
    if !(actor in db.users && db.users[actor].active && ManagesUsers(db.users[actor].role)) || target !in db.users
       || (target in ActiveAdministrators(db.users) && role != Administrator && |ActiveAdministrators(db.users)| <= 1)
       || (role !in {Renter, Administrator} && RentsNow(db.rentals, now, target)) then Rollback
    else if db.users[target].role == role then Commit(db, ())
    else if !MayRent(db.users[target].(role := role)) && RentsNow(db.rentals, now, target) then Rollback
    else Commit(db.(users := db.users[target := db.users[target].(role := role)]), ())
  }

  // ---------- refund actions ----------

  /** What a worker takes away from a claim. */
  datatype Claim = Claim(action: Id, payment: Id, intent: Id, amount: int, key: Id)

  predicate Due(a: Action, now: int) {
    || (a.state in {Queued, Failing} && a.availableAt <= now)
    || (a.state == Processing && a.lease.Some? && a.lease.value <= now)
  }

  /** A claimed row, or one whose attempts are used up. */
  function ClaimedRow(a: Action, now: int): Action {
    if a.attempts >= MAX_REFUND_ATTEMPTS then a.(state := NeedsOperator, lease := None)
    else a.(state := Processing, attempts := a.attempts + 1, lease := Some(now + REFUND_LEASE))
  }

  function ClaimOn(action: Id, a: Action): Option<Claim> {
    if a.attempts >= MAX_REFUND_ATTEMPTS then None else Some(Claim(action, a.payment, a.intent, a.amount, a.key))
  }

  /** claimProviderAction, for the row that its query selected. */
  ghost function ClaimRefund(db: Db, now: int, action: Id): Outcome<Option<Claim>> {
    if !(action in db.actions && Due(db.actions[action], now)) then Commit(db, None)
    else Commit(db.(actions := db.actions[action := ClaimedRow(db.actions[action], now)]), ClaimOn(action, db.actions[action]))
  }

  /** complete: what the provider answered, recorded on the action and its payment. */
  ghost function CompleteRefund(db: Db, now: int, c: Claim, succeeded: bool): Outcome<()> {
    if !(c.action in db.actions && db.actions[c.action].state == Processing) || c.payment !in db.payments then Rollback
    else
      var a := db.actions[c.action];
      Commit(db.(
        actions := db.actions[c.action := a.(state := if succeeded then Succeeded else Queued,
                                             availableAt := if succeeded then a.availableAt else now + REFUND_BACKOFF,
                                             lease := None)],
        payments := db.payments[c.payment := db.payments[c.payment].(status := if succeeded then Refunded else InReview)]), ())
  }

  /** fail. */
  ghost function FailRefund(db: Db, now: int, action: Id): Outcome<()> {
    if !(action in db.actions && db.actions[action].state == Processing) then Commit(db, ())
    else
      var a := db.actions[action];
      Commit(db.(actions := db.actions[action :=
        a.(state := if a.attempts >= MAX_REFUND_ATTEMPTS then NeedsOperator else Failing,
           availableAt := now + REFUND_BACKOFF, lease := None)]), ())
  }

  /** retryProviderAction. */
  ghost function RetryRefund(db: Db, now: int, action: Id): Outcome<()> {
    if !(action in db.actions && db.actions[action].state in {Failing, NeedsOperator}) then Rollback
    else Commit(db.(actions := db.actions[action :=
      db.actions[action].(state := Queued, attempts := 0, availableAt := now, lease := None)]), ())
  }

  /** resolveProviderAction. */
  ghost function ResolveRefund(db: Db, action: Id): Outcome<()> {
    if !(action in db.actions && db.actions[action].state in {Failing, NeedsOperator}) then Rollback
    else Commit(db.(actions := db.actions[action := db.actions[action].(state := Resolved, lease := None)]), ())
  }
}
