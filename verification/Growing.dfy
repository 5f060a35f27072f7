/** Rows that transactions add without crediting anybody: holds, renewals, attempts, sessions,
    reservations, payments under review and their refunds. */
module Growing {
  import opened Tables
  import opened Allocation
  import opened Invariants
  import opened Evolution

  lemma AddRental(rs: map<Id, Rental>, id: Id, row: Rental, vs: map<Id, Reservation>, bs: map<Id, Invoice>, users: set<Id>)
    requires id !in rs && Vacant(rs, row.listing) && row.user in users && row.startsAt < row.endsAt
    requires forall v | v in vs && vs[v].status == Reserved && vs[v].listing == row.listing :: row.status == Pending && vs[v].target == row.user
    requires OneLiveRental(rs) && Coupled(rs, vs) && OwnersKnown(users, rs, bs) && InvoicesBound(rs, bs)
    ensures var ss := rs[id := row];
            OneLiveRental(ss) && Coupled(ss, vs) && OwnersKnown(users, ss, bs) && InvoicesBound(ss, bs) && RentalsKept(rs, ss)
  {
  }

  /** An open invoice that names no rental, or one with the same listing and user. */
  lemma AddInvoice(bs: map<Id, Invoice>, id: Id, bill: Invoice, rs: map<Id, Rental>, users: set<Id>, xs: map<Id, Attempt>, ps: map<Id, Payment>)
    requires id !in bs && bill.status == Open && bill.user in users
    requires bill.rental.Some? ==> bill.rental.value in rs && rs[bill.rental.value].listing == bill.listing && rs[bill.rental.value].user == bill.user
    requires OwnersKnown(users, rs, bs) && InvoicesBound(rs, bs) && AttemptsBound(bs, xs) && PaymentsBound(bs, ps)
    requires OneAsk(bs, xs) && PaidAttemptsComplete(bs, xs) && ConfirmedOnce(bs, ps) && ReviewsOpen(bs, ps)
    ensures var cs := bs[id := bill];
            && OwnersKnown(users, rs, cs) && InvoicesBound(rs, cs) && AttemptsBound(cs, xs) && PaymentsBound(cs, ps)
            && OneAsk(cs, xs) && PaidAttemptsComplete(cs, xs) && ConfirmedOnce(cs, ps) && ReviewsOpen(cs, ps) && InvoicesKept(bs, cs)
  {
    var cs := bs[id := bill];
    forall a, b, r | AsksFor(cs, xs, a, r) && AsksFor(cs, xs, b, r) ensures a == b {
      assert AsksFor(bs, xs, a, r) && AsksFor(bs, xs, b, r);
    }
  }

  /** The invoice is not a hold's. */
  lemma AddOtherInvoice(bs: map<Id, Invoice>, id: Id, bill: Invoice, rs: map<Id, Rental>)
    requires id !in bs && HoldsBilled(rs, bs)
    requires bill.rental.Some? && bill.rental.value in rs ==> rs[bill.rental.value].status != Pending
    ensures HoldsBilled(rs, bs[id := bill])
  {
  }

  lemma BillHold(rs: map<Id, Rental>, bs: map<Id, Invoice>, id: Id, row: Rental, bill: Invoice)
    requires id !in rs && id !in bs && row.status == Pending && HoldsBilled(rs, bs) && InvoicesBound(rs, bs)
    requires bill.rental == Some(id) && bill.amount.Minor? && bill.status == Open && bill.dueAt == row.endsAt
    ensures HoldsBilled(rs[id := row], bs[id := bill])
  {
  }

  lemma HoldConserves(l: Ledger, rs: map<Id, Rental>, id: Id, row: Rental)
    requires id !in rs && row.status == Pending && row.endsAt - row.startsAt == HOLD_SECONDS && Conserved(l, rs)
    requires WeeksOf(l, id) == 0 && GapOf(l, id) == 0 && CutOf(l, id) == 0
    ensures Conserved(l, rs[id := row])
  {
  }

  /** The hold that createCheckoutHold inserts, into a state it has already cleaned. */
  lemma HoldKeeps(db: Db, id: Id, row: Rental, bill: Invoice)
    requires Inv(db) && Fresh(db, id)
    requires row.status == Pending && row.endsAt - row.startsAt == HOLD_SECONDS && row.user in db.users
    requires Vacant(db.rentals, row.listing)
    requires forall v | v in db.reservations && db.reservations[v].status == Reserved && db.reservations[v].listing == row.listing ::
               db.reservations[v].target == row.user
    requires bill == Invoice(Some(id), row.listing, row.user, Open, bill.amount, row.endsAt) && bill.amount.Minor?
    ensures var after := db.(rentals := db.rentals[id := row], invoices := db.invoices[id := bill]);
            Inv(after) && Evolves(db, after)
  {
    var after := db.(rentals := db.rentals[id := row], invoices := db.invoices[id := bill]);
    assert id !in db.rentals && id !in db.invoices;
    hide *;
    Parts(db);
    NothingPosted(db.ledger, db.payments, db.invoices, db.rentals, id);
    AddRental(db.rentals, id, row, db.reservations, db.invoices, db.users.Keys);
    AddInvoice(db.invoices, id, bill, after.rentals, db.users.Keys, db.attempts, db.payments);
    BillHold(db.rentals, db.invoices, id, row, bill);
    HoldConserves(db.ledger, db.rentals, id, row);
    Unmoved(db);
    EntriesStaySound(db.ledger, db.payments, db.invoices, db.rentals, db.payments, after.invoices, after.rentals);
    Whole(after);
    Evolved(db, after);
  }

  /** The renewal invoice of createRenewalCheckoutHold. */
  lemma RenewalKeeps(db: Db, id: Id, bill: Invoice)
    requires Inv(db) && Fresh(db, id) && bill.status == Open && bill.amount.Minor? && bill.rental.Some?
    requires bill.rental.value in db.rentals
    requires var r := db.rentals[bill.rental.value];
             r.status == Active && bill.listing == r.listing && bill.user == r.user && r.user in db.users
    ensures var after := db.(invoices := db.invoices[id := bill]);
            Inv(after) && Evolves(db, after)
  {
    var after := db.(invoices := db.invoices[id := bill]);
    assert id !in db.invoices;
    hide *;
    Parts(db);
    AddInvoice(db.invoices, id, bill, db.rentals, db.users.Keys, db.attempts, db.payments);
    AddOtherInvoice(db.invoices, id, bill, db.rentals);
    Unmoved(db);
    EntriesStaySound(db.ledger, db.payments, db.invoices, db.rentals, db.payments, after.invoices, db.rentals);
    Whole(after);
    Evolved(db, after);
  }

  lemma AddAttempt(bs: map<Id, Invoice>, xs: map<Id, Attempt>, id: Id, invoice: Id)
    requires id !in xs && invoice in bs && bs[invoice].rental.Some? && bs[invoice].amount.Minor?
    requires bs[invoice].status != Paid
    requires forall a | a in xs :: xs[a].invoice != invoice
    requires forall a :: !AsksFor(bs, xs, a, bs[invoice].rental.value)
    requires AttemptsBound(bs, xs) && AttemptsDistinct(xs) && OneAsk(bs, xs) && PaidAttemptsComplete(bs, xs)
    ensures var ys := xs[id := Attempt(invoice, None, Creating)];
            AttemptsBound(bs, ys) && AttemptsDistinct(ys) && OneAsk(bs, ys) && PaidAttemptsComplete(bs, ys) && AttemptsKept(xs, ys)
  {
    var ys := xs[id := Attempt(invoice, None, Creating)];
    forall a, b, r | AsksFor(bs, ys, a, r) && AsksFor(bs, ys, b, r) ensures a == b {
      assert a != id ==> AsksFor(bs, xs, a, r);
      assert b != id ==> AsksFor(bs, xs, b, r);
    }
  }

  lemma AttemptKeeps(db: Db, id: Id, invoice: Id)
    requires Inv(db) && id !in db.attempts && invoice in db.invoices && db.invoices[invoice].rental.Some?
    requires db.invoices[invoice].amount.Minor?
    requires db.invoices[invoice].status != Paid
    requires forall a | a in db.attempts :: db.attempts[a].invoice != invoice
    requires forall a :: !AsksFor(db.invoices, db.attempts, a, db.invoices[invoice].rental.value)
    ensures var after := db.(attempts := db.attempts[id := Attempt(invoice, None, Creating)]);
            Inv(after) && Evolves(db, after)
  {
    var after := db.(attempts := db.attempts[id := Attempt(invoice, None, Creating)]);
    hide *;
    Parts(db);
    AddAttempt(db.invoices, db.attempts, id, invoice);
    Unmoved(db);
    Whole(after);
    Evolved(db, after);
  }

  lemma PresentAttempt(bs: map<Id, Invoice>, xs: map<Id, Attempt>, attempt: Id, session: Id)
    requires attempt in xs && xs[attempt].status in {Creating, Errored}
    requires forall a | a in xs && a != attempt :: xs[a].session != Some(session)
    requires AttemptsBound(bs, xs) && AttemptsDistinct(xs) && OneAsk(bs, xs) && PaidAttemptsComplete(bs, xs)
    ensures var ys := xs[attempt := xs[attempt].(session := Some(session), status := Presented)];
            AttemptsBound(bs, ys) && AttemptsDistinct(ys) && OneAsk(bs, ys) && PaidAttemptsComplete(bs, ys) && AttemptsKept(xs, ys)
  {
    var ys := xs[attempt := xs[attempt].(session := Some(session), status := Presented)];
    forall a, b, r | AsksFor(bs, ys, a, r) && AsksFor(bs, ys, b, r) ensures a == b {
      assert AsksFor(bs, xs, a, r) && AsksFor(bs, xs, b, r);
    }
  }

  lemma PersistKeeps(db: Db, attempt: Id, session: Id)
    requires Inv(db)
    ensures var after := After(PersistSession(db, attempt, session), db);
            Inv(after) && Evolves(db, after)
  {
    var after := After(PersistSession(db, attempt, session), db);
    if PersistSession(db, attempt, session).Commit? {
      assert after == db.(attempts := db.attempts[attempt := db.attempts[attempt].(session := Some(session), status := Presented)]);
      hide *;
      Parts(db);
      PresentAttempt(db.invoices, db.attempts, attempt, session);
      Unmoved(db);
      Whole(after);
      Evolved(db, after);
    } else {
      hide *;
      Unmoved(db);
      Evolved(db, db);
    }
  }

  lemma AddReservation(vs: map<Id, Reservation>, id: Id, row: Reservation, rs: map<Id, Rental>)
    requires id !in vs && Vacant(rs, row.listing)
    requires forall v | v in vs && vs[v].listing == row.listing :: vs[v].status != Reserved
    requires forall v | v in vs :: vs[v].creator != row.creator || vs[v].key != row.key
    requires OneLiveReservation(vs) && KeysDistinct(vs) && Coupled(rs, vs)
    ensures var ws := vs[id := row]; OneLiveReservation(ws) && KeysDistinct(ws) && Coupled(rs, ws)
  {
  }

  lemma ReservationKeeps(db: Db, id: Id, row: Reservation)
    requires Inv(db) && id !in db.reservations && Vacant(db.rentals, row.listing)
    requires forall v | v in db.reservations && db.reservations[v].listing == row.listing :: db.reservations[v].status != Reserved
    requires forall v | v in db.reservations :: db.reservations[v].creator != row.creator || db.reservations[v].key != row.key
    ensures var after := db.(reservations := db.reservations[id := row]);
            Inv(after) && Evolves(db, after)
  {
    var after := db.(reservations := db.reservations[id := row]);
    hide *;
    Parts(db);
    AddReservation(db.reservations, id, row, db.rentals);
    Unmoved(db);
    Whole(after);
    Evolved(db, after);
  }

  /** A payment under review, of an open invoice. */
  lemma AddReviewed(bs: map<Id, Invoice>, ps: map<Id, Payment>, id: Id, row: Payment)
    requires id !in ps && row.status == InReview && row.invoice in bs && !UsedReference(ps, row.reference)
    requires row.amount.Linden? <==> row.reference.ByTerminal?
    requires bs[row.invoice].amount.Linden? <==> row.reference.ByTerminal?
    requires row.reference.ByTerminal? ==> bs[row.invoice].status == Open && bs[row.invoice].rental.None?
                                           && forall p | p in ps :: ps[p].invoice != row.invoice
    requires PaymentsBound(bs, ps) && ConfirmedOnce(bs, ps) && ReferencesDistinct(ps) && ReviewsOpen(bs, ps)
    ensures var qs := ps[id := row];
            PaymentsBound(bs, qs) && ConfirmedOnce(bs, qs) && ReferencesDistinct(qs) && ReviewsOpen(bs, qs) && PaymentsKept(ps, qs)
  {
  }

  lemma QueueAction(l: Ledger, ps: map<Id, Payment>, xs: map<Id, Action>, intents: map<Id, Id>, id: Id, row: Payment, action: Action)
    requires id !in ps && id !in xs && row.status == InReview && row.reference == ByIntent(action.intent)
    requires row.amount.Minor?
    requires action.payment == id && action.amount == row.amount.minor && action.amount > 0
    requires action.key in intents && intents[action.key] == action.intent && Credits(l, id) == 0
    requires ActionsMatch(xs, ps, intents) && CreditXorRefund(l, ps, xs)
    ensures ActionsMatch(xs[id := action], ps[id := row], intents) && CreditXorRefund(l, ps[id := row], xs[id := action])
    ensures ActionsKept(xs, xs[id := action])
  {
    var ys := xs[id := action];
    assert ys[id].payment == id;
    forall p | p != id ensures RefundQueued(ys, p) <==> RefundQueued(xs, p) {
      if RefundQueued(xs, p) {
        var a :| a in xs && xs[a].payment == p;
        assert ys[a].payment == p;
      }
    }
  }

  lemma AddReceiptless(ks: map<(Id, Id), Receipt>, ps: map<Id, Payment>, id: Id, row: Payment)
    requires id !in ps && !row.reference.ByTerminal? && ReceiptsBound(ks, ps) && ReceiptsAgree(ks, ps)
    ensures ReceiptsBound(ks, ps[id := row]) && ReceiptsAgree(ks, ps[id := row])
  {
  }

  /** A late card payment with the refund that repays it. */
  lemma LateKeeps(db: Db, id: Id, row: Payment, action: Action)
    requires Inv(db) && id !in db.payments && id !in db.actions && row.status == InReview
    requires row.reference == ByIntent(action.intent)
    requires row.amount.Minor? && row.invoice in db.invoices && db.invoices[row.invoice].amount.Minor?
    requires !UsedReference(db.payments, row.reference)
    requires action.payment == id && action.amount == row.amount.minor && action.amount > 0
    requires action.key in db.intents && db.intents[action.key] == action.intent
    ensures var after := db.(payments := db.payments[id := row], actions := db.actions[id := action]);
            Inv(after) && Evolves(db, after)
  {
    var after := db.(payments := db.payments[id := row], actions := db.actions[id := action]);
    hide *;
    Parts(db);
    NothingPosted(db.ledger, db.payments, db.invoices, db.rentals, id);
    AddReviewed(db.invoices, db.payments, id, row);
    QueueAction(db.ledger, db.payments, db.actions, db.intents, id, row, action);
    AddReceiptless(db.receipts, db.payments, id, row);
    Unmoved(db);
    EntriesStaySound(db.ledger, db.payments, db.invoices, db.rentals, after.payments, db.invoices, db.rentals);
    Whole(after);
    Evolved(db, after);
  }

  lemma AddTerminalReview(l: Ledger, ps: map<Id, Payment>, xs: map<Id, Action>, intents: map<Id, Id>, id: Id, row: Payment)
    requires id !in ps && row.status == InReview && row.reference.ByTerminal? && Credits(l, id) == 0
    requires ActionsMatch(xs, ps, intents) && CreditXorRefund(l, ps, xs)
    ensures ActionsMatch(xs, ps[id := row], intents) && CreditXorRefund(l, ps[id := row], xs)
  {
  }

  lemma AddReceipt(ks: map<(Id, Id), Receipt>, ps: map<Id, Payment>, k: (Id, Id), receipt: Receipt, id: Id, row: Payment)
    requires id !in ps && ReceiptsBound(ks, ps) && (k in ks ==> ks[k].payment.None? && ReceiptKept(ks[k], receipt))
    requires receipt.payment == Some(id) && row.reference == ByTerminal(k.0, k.1) && receipt.status == row.status
    requires ReceiptsAgree(ks, ps)
    ensures ReceiptsBound(ks[k := receipt], ps[id := row]) && ReceiptsKept(ks, ks[k := receipt])
    ensures ReceiptsAgree(ks[k := receipt], ps[id := row])
  {
  }

  /** A terminal payment of a known payer, with its invoice, recorded for review. */
  lemma ReviewKeeps(db: Db, id: Id, bill: Invoice, row: Payment, k: (Id, Id), receipt: Receipt)
    requires Inv(db) && id !in db.payments && id !in db.invoices
    requires bill.status == Open && bill.rental.None? && bill.amount.Linden? && bill.user in db.users
    requires row.status == InReview && row.invoice == id && row.amount.Linden? && row.reference == ByTerminal(k.0, k.1)
    requires k in db.receipts ==> db.receipts[k].payment.None? && ReceiptKept(db.receipts[k], receipt)
    requires receipt.payment == Some(id) && receipt.status == InReview
    ensures var after := db.(invoices := db.invoices[id := bill], payments := db.payments[id := row], receipts := db.receipts[k := receipt]);
            Inv(after) && Evolves(db, after)
  {
    var after := db.(invoices := db.invoices[id := bill], payments := db.payments[id := row], receipts := db.receipts[k := receipt]);
    NothingBilled(db, id);
    UnpaidReceipt(db, k);
    hide *;
    Parts(db);
    NothingPosted(db.ledger, db.payments, db.invoices, db.rentals, id);
    AddInvoice(db.invoices, id, bill, db.rentals, db.users.Keys, db.attempts, db.payments);
    AddOtherInvoice(db.invoices, id, bill, db.rentals);
    AddReviewed(after.invoices, db.payments, id, row);
    AddTerminalReview(db.ledger, db.payments, db.actions, db.intents, id, row);
    AddReceipt(db.receipts, db.payments, k, receipt, id, row);
    Unmoved(db);
    EntriesStaySound(db.ledger, db.payments, db.invoices, db.rentals, after.payments, after.invoices, db.rentals);
    Whole(after);
    Evolved(db, after);
  }

  lemma NothingBilled(db: Db, id: Id)
    requires PaymentsBound(db.invoices, db.payments) && id !in db.invoices
    ensures forall p | p in db.payments :: db.payments[p].invoice != id
  {
  }

  /** An event without a payment has not used its payment reference. */
  lemma UnpaidReceipt(db: Db, k: (Id, Id))
    requires ReceiptsBound(db.receipts, db.payments)
    requires k in db.receipts ==> db.receipts[k].payment.None?
    ensures !UsedReference(db.payments, ByTerminal(k.0, k.1))
  {
  }

  /** A terminal event whose payer is unknown: a receipt alone. */
  lemma ReceiptKeeps(db: Db, k: (Id, Id), receipt: Receipt)
    requires Inv(db) && k !in db.receipts && receipt.payment.None? && receipt.status == InReview
    ensures var after := db.(receipts := db.receipts[k := receipt]);
            Inv(after) && Evolves(db, after)
  {
    var after := db.(receipts := db.receipts[k := receipt]);
    AddUnlinked(db.receipts, db.payments, k, receipt);
    hide *;
    Parts(db);
    Unmoved(db);
    Whole(after);
    Evolved(db, after);
  }

  lemma AddUnlinked(ks: map<(Id, Id), Receipt>, ps: map<Id, Payment>, k: (Id, Id), receipt: Receipt)
    requires ReceiptsBound(ks, ps) && ReceiptsAgree(ks, ps) && k !in ks && receipt.payment.None?
    requires receipt.status == InReview
    ensures ReceiptsBound(ks[k := receipt], ps) && ReceiptsKept(ks, ks[k := receipt]) && ReceiptsAgree(ks[k := receipt], ps)
  {
  }

  lemma AddUser(users: set<Id>, more: set<Id>, rs: map<Id, Rental>, bs: map<Id, Invoice>, identities: map<Id, Id>, avatar: Id, user: Id)
    requires users <= more && user in more && user !in users && avatar !in identities
    requires OwnersKnown(users, rs, bs) && IdentitiesDistinct(users, identities)
    ensures OwnersKnown(more, rs, bs) && IdentitiesDistinct(more, identities[avatar := user])
  {
  }

  /** The user that RESOLVE_IDENTITY creates for an avatar. */
  lemma UserKeeps(db: Db, id: Id, user: User, avatar: Id)
    requires Inv(db) && id !in db.users && avatar !in db.identities
    ensures var after := db.(users := db.users[id := user], identities := db.identities[avatar := id]);
            Inv(after) && Evolves(db, after)
  {
    var after := db.(users := db.users[id := user], identities := db.identities[avatar := id]);
    hide *;
    Parts(db);
    AddUser(db.users.Keys, after.users.Keys, db.rentals, db.invoices, db.identities, avatar, id);
    Unmoved(db);
    Whole(after);
    Evolved(db, after);
  }
}
