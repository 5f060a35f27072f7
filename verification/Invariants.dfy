/** What every committed state of the database satisfies. */
module Invariants {
  import opened Tables

  // ---------- one tenant at a time ----------

  /** one_live_rental. */
  ghost predicate OneLiveRental(rentals: map<Id, Rental>) {
    forall a, b | a in rentals && b in rentals && IsLive(rentals[a]) && IsLive(rentals[b]) ::
      rentals[a].listing == rentals[b].listing ==> a == b
  }

  /** one_live_reservation. */
  ghost predicate OneLiveReservation(reservations: map<Id, Reservation>) {
    forall a, b | a in reservations && b in reservations && reservations[a].status == Reserved && reservations[b].status == Reserved ::
      reservations[a].listing == reservations[b].listing ==> a == b
  }

  /** UNIQUE(created_by_user_id, idempotency_key). */
  ghost predicate KeysDistinct(reservations: map<Id, Reservation>) {
    forall a, b | a in reservations && b in reservations && reservations[a].creator == reservations[b].creator ::
      reservations[a].key == reservations[b].key ==> a == b
  }

  /** Beside an ACTIVE reservation stands no ACTIVE rental, and only the target's own PENDING one. */
  ghost predicate Coupled(rentals: map<Id, Rental>, reservations: map<Id, Reservation>) {
    forall r, v | r in rentals && v in reservations && IsLive(rentals[r]) && reservations[v].status == Reserved
                  && rentals[r].listing == reservations[v].listing ::
      rentals[r].status == Pending && reservations[v].target == rentals[r].user
  }

  ghost predicate Exclusive(db: Db) {
    && OneLiveRental(db.rentals) && OneLiveReservation(db.reservations) && KeysDistinct(db.reservations)
    && Coupled(db.rentals, db.reservations)
  }

  // ---------- references between rows ----------

  ghost predicate OwnersKnown(users: set<Id>, rentals: map<Id, Rental>, invoices: map<Id, Invoice>) {
    && (forall r | r in rentals :: rentals[r].user in users && rentals[r].startsAt < rentals[r].endsAt)
    && (forall i | i in invoices :: invoices[i].user in users)
  }

  /** An invoice and the rental it is bound to agree on listing and user. */
  ghost predicate InvoicesBound(rentals: map<Id, Rental>, invoices: map<Id, Invoice>) {
    forall i | i in invoices && invoices[i].rental.Some? ::
      && invoices[i].rental.value in rentals
      && rentals[invoices[i].rental.value].listing == invoices[i].listing
      && rentals[invoices[i].rental.value].user == invoices[i].user
  }

  ghost predicate AttemptsBound(invoices: map<Id, Invoice>, attempts: map<Id, Attempt>) {
    forall a | a in attempts ::
      attempts[a].invoice in invoices && invoices[attempts[a].invoice].rental.Some? && invoices[attempts[a].invoice].amount.Minor?
  }

  /** L$ payments bill L$ invoices, card and simulated payments the others. */
  ghost predicate PaymentsBound(invoices: map<Id, Invoice>, payments: map<Id, Payment>) {
    forall p | p in payments ::
      && payments[p].invoice in invoices
      && (payments[p].amount.Linden? <==> payments[p].reference.ByTerminal?)
      && (invoices[payments[p].invoice].amount.Linden? <==> payments[p].reference.ByTerminal?)
  }

  ghost predicate IdentitiesDistinct(users: set<Id>, identities: map<Id, Id>) {
    && (forall a | a in identities :: identities[a] in users)
    && (forall a, b | a in identities && b in identities && identities[a] == identities[b] :: a == b)
  }

  /** A terminal event has at most one payment, and a terminal payment has its event. */
  ghost predicate ReceiptsBound(receipts: map<(Id, Id), Receipt>, payments: map<Id, Payment>) {
    && (forall k | k in receipts && receipts[k].payment.Some? ::
          receipts[k].payment.value in payments && payments[receipts[k].payment.value].reference == ByTerminal(k.0, k.1))
    && (forall p | p in payments && payments[p].reference.ByTerminal? ::
          (payments[p].reference.terminal, payments[p].reference.event) in receipts
          && receipts[(payments[p].reference.terminal, payments[p].reference.event)].payment == Some(p))
  }

  /** The receipt of a terminal event shows the status of its payment. */
  ghost predicate ReceiptsAgree(receipts: map<(Id, Id), Receipt>, payments: map<Id, Payment>) {
    forall k | k in receipts ::
      if receipts[k].payment.Some? then receipts[k].payment.value in payments && receipts[k].status == payments[receipts[k].payment.value].status
      else receipts[k].status == InReview || receipts[k].status == Rejected
  }

  ghost predicate Linked(db: Db) {
    && OwnersKnown(db.users.Keys, db.rentals, db.invoices) && InvoicesBound(db.rentals, db.invoices)
    && AttemptsBound(db.invoices, db.attempts) && PaymentsBound(db.invoices, db.payments)
    && IdentitiesDistinct(db.users.Keys, db.identities) && ReceiptsBound(db.receipts, db.payments)
    && ReceiptsAgree(db.receipts, db.payments)
  }

  // ---------- bills ----------

  ghost predicate AttemptsDistinct(attempts: map<Id, Attempt>) {
    && (forall a, b | a in attempts && b in attempts && attempts[a].invoice == attempts[b].invoice :: a == b)
    && (forall a, b | a in attempts && b in attempts && attempts[a].session.Some? && attempts[a].session == attempts[b].session :: a == b)
  }

  /** The live attempt asks for payment of an open invoice of the rental. */
  predicate AsksFor(invoices: map<Id, Invoice>, attempts: map<Id, Attempt>, attempt: Id, rental: Id) {
    && attempt in attempts && LiveAttempt(attempts[attempt])
    && attempts[attempt].invoice in invoices
    && invoices[attempts[attempt].invoice].status == Open
    && invoices[attempts[attempt].invoice].rental == Some(rental)
  }

  ghost predicate OneAsk(invoices: map<Id, Invoice>, attempts: map<Id, Attempt>) {
    forall a, b, r | AsksFor(invoices, attempts, a, r) && AsksFor(invoices, attempts, b, r) :: a == b
  }

  ghost predicate PaidAttemptsComplete(invoices: map<Id, Invoice>, attempts: map<Id, Attempt>) {
    forall a | a in attempts && attempts[a].invoice in invoices && invoices[attempts[a].invoice].status == Paid ::
      attempts[a].status == Completed
  }

  ghost predicate ConfirmedOnce(invoices: map<Id, Invoice>, payments: map<Id, Payment>) {
    && (forall p | p in payments && payments[p].status == Confirmed ::
          payments[p].invoice in invoices && invoices[payments[p].invoice].status == Paid)
    && (forall p, q | p in payments && q in payments && payments[p].status == Confirmed && payments[q].status == Confirmed ::
          payments[p].invoice == payments[q].invoice ==> p == q)
  }

  /** UNIQUE(provider, provider_reference). */
  ghost predicate ReferencesDistinct(payments: map<Id, Payment>) {
    forall p, q | p in payments && q in payments && payments[p].reference == payments[q].reference :: p == q
  }

  /** A terminal payment under review has an open invoice of its own, bound to no rental. */
  ghost predicate ReviewsOpen(invoices: map<Id, Invoice>, payments: map<Id, Payment>) {
    && (forall p | p in payments && payments[p].reference.ByTerminal? && payments[p].status == InReview ::
          payments[p].invoice in invoices && invoices[payments[p].invoice].status == Open && invoices[payments[p].invoice].rental.None?)
    && (forall p, q | p in payments && q in payments && payments[p].reference.ByTerminal? && payments[p].invoice == payments[q].invoice :: p == q)
  }

  /** Every hold is billed by exactly one invoice, due when the hold runs out. */
  ghost predicate HoldsBilled(rentals: map<Id, Rental>, invoices: map<Id, Invoice>) {
    && (forall r | r in rentals && rentals[r].status == Pending ::
          && r in invoices && invoices[r].rental == Some(r) && invoices[r].amount.Minor?
          && invoices[r].status != Paid && invoices[r].dueAt == rentals[r].endsAt)
    && (forall r, i | r in rentals && rentals[r].status == Pending && i in invoices && invoices[i].rental == Some(r) :: i == r)
  }

  ghost predicate Billed(db: Db) {
    && AttemptsDistinct(db.attempts) && OneAsk(db.invoices, db.attempts) && PaidAttemptsComplete(db.invoices, db.attempts)
    && ConfirmedOnce(db.invoices, db.payments) && ReferencesDistinct(db.payments) && ReviewsOpen(db.invoices, db.payments)
    && HoldsBilled(db.rentals, db.invoices)
  }

  // ---------- credits and refunds ----------

  /** How often a payment has been credited to a rental. */
  function Credits(l: Ledger, payment: Id): nat {
    match l
    case Opening => 0
    case Posted(e, earlier) => (if e.source == ByPayment(payment) then 1 else 0) + Credits(earlier, payment)
  }

  function WeeksOf(l: Ledger, rental: Id): nat {
    match l
    case Opening => 0
    case Posted(e, earlier) => (if e.rental == rental then e.weeks else 0) + WeeksOf(earlier, rental)
  }

  function GapOf(l: Ledger, rental: Id): nat {
    match l
    case Opening => 0
    case Posted(e, earlier) => (if e.rental == rental then e.gap else 0) + GapOf(earlier, rental)
  }

  function CutOf(l: Ledger, rental: Id): nat {
    match l
    case Opening => 0
    case Posted(e, earlier) => (if e.rental == rental then e.cut else 0) + CutOf(earlier, rental)
  }

  ghost predicate RefundQueued(actions: map<Id, Action>, payment: Id) {
    exists a :: a in actions && actions[a].payment == payment
  }

  /** A refund action repays the whole of one card payment, which is never confirmed. */
  ghost predicate ActionsMatch(actions: map<Id, Action>, payments: map<Id, Payment>, intents: map<Id, Id>) {
    && (forall a | a in actions ::
          && actions[a].payment in payments
          && payments[actions[a].payment].reference == ByIntent(actions[a].intent)
          && payments[actions[a].payment].amount.Minor? && payments[actions[a].payment].amount.minor == actions[a].amount
          && actions[a].amount > 0
          && payments[actions[a].payment].status != Confirmed
          && actions[a].key in intents && intents[actions[a].key] == actions[a].intent)
    && (forall a, b | a in actions && b in actions && actions[a].payment == actions[b].payment :: a == b)
  }

  /** A card payment is either credited once or has a refund action, never both and never neither. */
  ghost predicate CreditXorRefund(l: Ledger, payments: map<Id, Payment>, actions: map<Id, Action>) {
    forall p | p in payments ::
      && Credits(l, p) <= 1
      && (payments[p].reference.BySimulation? ==> Credits(l, p) == 1)
      && (payments[p].reference.ByIntent? ==> (Credits(l, p) == 1 <==> !RefundQueued(actions, p)))
      && (payments[p].reference.ByTerminal? && payments[p].status == InReview ==> Credits(l, p) == 0)
      && (payments[p].status == Confirmed ==> Credits(l, p) == 1)
  }

  /** What an entry of the ledger rests on. */
  ghost predicate EntrySound(e: Entry, payments: map<Id, Payment>, invoices: map<Id, Invoice>, rentals: map<Id, Rental>) {
    && e.rental in rentals
    && match e.source
       case ByPayment(p) =>
         && p in payments && payments[p].invoice in invoices
         && invoices[payments[p].invoice].status == Paid && invoices[payments[p].invoice].rental == Some(e.rental)
         && e.weeks >= 1 && (!payments[p].reference.ByTerminal? ==> e.weeks == 1) && e.gap == 0 && e.cut == 0
       case ByActivation => e.weeks >= 1 && e.gap == 0 && e.cut == 0
       case ByExtension => e.weeks >= 1 && e.cut == 0
       case ByEnding => e.weeks == 0 && e.gap == 0
  }

  ghost predicate EntriesSound(l: Ledger, payments: map<Id, Payment>, invoices: map<Id, Invoice>, rentals: map<Id, Rental>) {
    l.Posted? ==> EntrySound(l.entry, payments, invoices, rentals) && EntriesSound(l.earlier, payments, invoices, rentals)
  }

  ghost predicate Refunding(db: Db) {
    && ActionsMatch(db.actions, db.payments, db.intents) && CreditXorRefund(db.ledger, db.payments, db.actions)
    && EntriesSound(db.ledger, db.payments, db.invoices, db.rentals)
  }

  // ---------- lease time ----------

  /** The time granted to a rental: the hold until anything is credited, then its weeks and skipped gaps. */
  function Granted(l: Ledger, rental: Id): int {
    if WeeksOf(l, rental) == 0 then HOLD_SECONDS else WEEK * WeeksOf(l, rental) + GapOf(l, rental)
  }

  /** Every second between start and end was granted, and none granted was lost but those cut by END. */
  ghost predicate Conserved(l: Ledger, rentals: map<Id, Rental>) {
    forall r | r in rentals ::
      && rentals[r].endsAt - rentals[r].startsAt == Granted(l, r) - CutOf(l, r)
      && (rentals[r].status == Pending || rentals[r].status == Cancelled ==> WeeksOf(l, r) == 0 && CutOf(l, r) == 0)
      && (rentals[r].status == Active ==> WeeksOf(l, r) > 0 && CutOf(l, r) == 0)
      && (WeeksOf(l, r) == 0 ==> GapOf(l, r) == 0)
  }

  ghost predicate Inv(db: Db) {
    Exclusive(db) && Linked(db) && Billed(db) && Refunding(db) && Conserved(db.ledger, db.rentals)
  }

  /** The parts of the invariant, as separate facts. */
  lemma Parts(db: Db)
    requires Inv(db)
    ensures OneLiveRental(db.rentals) && OneLiveReservation(db.reservations) && KeysDistinct(db.reservations)
    ensures Coupled(db.rentals, db.reservations)
    ensures OwnersKnown(db.users.Keys, db.rentals, db.invoices) && InvoicesBound(db.rentals, db.invoices)
    ensures AttemptsBound(db.invoices, db.attempts) && PaymentsBound(db.invoices, db.payments)
    ensures IdentitiesDistinct(db.users.Keys, db.identities) && ReceiptsBound(db.receipts, db.payments)
    ensures ReceiptsAgree(db.receipts, db.payments)
    ensures AttemptsDistinct(db.attempts) && OneAsk(db.invoices, db.attempts) && PaidAttemptsComplete(db.invoices, db.attempts)
    ensures ConfirmedOnce(db.invoices, db.payments) && ReferencesDistinct(db.payments) && ReviewsOpen(db.invoices, db.payments)
    ensures HoldsBilled(db.rentals, db.invoices)
    ensures ActionsMatch(db.actions, db.payments, db.intents) && CreditXorRefund(db.ledger, db.payments, db.actions)
    ensures EntriesSound(db.ledger, db.payments, db.invoices, db.rentals) && Conserved(db.ledger, db.rentals)
  {
    hide OneLiveRental, OneLiveReservation, KeysDistinct, Coupled, OwnersKnown, InvoicesBound, AttemptsBound, PaymentsBound;
    hide IdentitiesDistinct, ReceiptsBound, ReceiptsAgree, AttemptsDistinct, OneAsk, PaidAttemptsComplete, ConfirmedOnce;
    hide ReferencesDistinct;
    hide ReviewsOpen, HoldsBilled, ActionsMatch, CreditXorRefund, EntriesSound, Conserved;
  }

  /** The invariant, assembled from its parts. */
  lemma Whole(db: Db)
    requires OneLiveRental(db.rentals) && OneLiveReservation(db.reservations) && KeysDistinct(db.reservations)
    requires Coupled(db.rentals, db.reservations)
    requires OwnersKnown(db.users.Keys, db.rentals, db.invoices) && InvoicesBound(db.rentals, db.invoices)
    requires AttemptsBound(db.invoices, db.attempts) && PaymentsBound(db.invoices, db.payments)
    requires IdentitiesDistinct(db.users.Keys, db.identities) && ReceiptsBound(db.receipts, db.payments)
    requires ReceiptsAgree(db.receipts, db.payments)
    requires AttemptsDistinct(db.attempts) && OneAsk(db.invoices, db.attempts)
    requires PaidAttemptsComplete(db.invoices, db.attempts)
    requires ConfirmedOnce(db.invoices, db.payments) && ReferencesDistinct(db.payments)
    requires ReviewsOpen(db.invoices, db.payments)
    requires HoldsBilled(db.rentals, db.invoices)
    requires ActionsMatch(db.actions, db.payments, db.intents) && CreditXorRefund(db.ledger, db.payments, db.actions)
    requires EntriesSound(db.ledger, db.payments, db.invoices, db.rentals) && Conserved(db.ledger, db.rentals)
    ensures Inv(db)
  {
    hide OneLiveRental, OneLiveReservation, KeysDistinct, Coupled, OwnersKnown, InvoicesBound, AttemptsBound, PaymentsBound;
    hide IdentitiesDistinct, ReceiptsBound, ReceiptsAgree, AttemptsDistinct, OneAsk, PaidAttemptsComplete, ConfirmedOnce;
    hide ReferencesDistinct;
    hide ReviewsOpen, HoldsBilled, ActionsMatch, CreditXorRefund, EntriesSound, Conserved;
  }
}
