/** Transactions that allocate and credit nothing: they end, cancel, void, expire and re-label rows.
    One argument serves all of them. */
module Subsiding {
  import opened Tables
  import opened Invariants
  import opened Evolution

  /** Rentals may stop being live, at their end or by cancellation; the live ones are untouched. */
  ghost predicate RentalsRetire(rs: map<Id, Rental>, ss: map<Id, Rental>) {
    && ss.Keys == rs.Keys
    && forall r | r in rs ::
         && ss[r] == rs[r].(status := ss[r].status) && RentalKept(rs[r], ss[r])
         && (IsLive(ss[r]) ==> ss[r] == rs[r])
         && (ss[r].status == Cancelled ==> rs[r].status == Pending || rs[r].status == Cancelled)
  }

  ghost predicate ReservationsRetire(vs: map<Id, Reservation>, ws: map<Id, Reservation>) {
    && ws.Keys == vs.Keys
    && forall v | v in vs ::
         && ws[v] == vs[v].(status := ws[v].status)
         && (ws[v].status == Reserved ==> vs[v].status == Reserved)
  }

  ghost predicate InvoicesVoided(bs: map<Id, Invoice>, cs: map<Id, Invoice>) {
    && cs.Keys == bs.Keys
    && forall i | i in bs :: cs[i] == bs[i] || (bs[i].status == Open && cs[i] == bs[i].(status := Void))
  }

  ghost predicate AttemptsMove(xs: map<Id, Attempt>, ys: map<Id, Attempt>) {
    && ys.Keys == xs.Keys
    && forall a | a in xs ::
         && ys[a] == xs[a].(status := ys[a].status) && AttemptKept(xs[a], ys[a])
         && (LiveAttempt(ys[a]) ==> LiveAttempt(xs[a]))
  }

  /** Payments change status, but none becomes confirmed and no terminal payment returns to review. */
  ghost predicate PaymentsRestated(ps: map<Id, Payment>, qs: map<Id, Payment>) {
    && qs.Keys == ps.Keys
    && forall p | p in ps ::
         && qs[p] == ps[p].(status := qs[p].status) && PaymentKept(ps[p], qs[p])
         && (qs[p].status == Confirmed ==> ps[p].status == Confirmed)
  }

  ghost predicate ActionsRestated(xs: map<Id, Action>, ys: map<Id, Action>) {
    ys.Keys == xs.Keys && ActionsKept(xs, ys)
  }

  ghost predicate ReceiptsRestated(ks: map<(Id, Id), Receipt>, ms: map<(Id, Id), Receipt>) {
    ms.Keys == ks.Keys && forall k | k in ks :: ms[k] == ks[k].(status := ms[k].status) && ReceiptKept(ks[k], ms[k])
  }

  /** A voided invoice loses no terminal payment that is still under review. */
  ghost predicate NoReviewVoided(bs: map<Id, Invoice>, cs: map<Id, Invoice>, qs: map<Id, Payment>) {
    forall p | p in qs && qs[p].reference.ByTerminal? && qs[p].status == InReview && qs[p].invoice in bs && qs[p].invoice in cs ::
      cs[qs[p].invoice] == bs[qs[p].invoice]
  }

  /** Receipts and payments change status together. */
  ghost predicate AgreementStays(ks: map<(Id, Id), Receipt>, ps: map<Id, Payment>, ms: map<(Id, Id), Receipt>, qs: map<Id, Payment>) {
    ReceiptsBound(ks, ps) && ReceiptsAgree(ks, ps) ==> ReceiptsAgree(ms, qs)
  }

  ghost predicate Subsides(db: Db, after: Db) {
    && RentalsRetire(db.rentals, after.rentals) && ReservationsRetire(db.reservations, after.reservations)
    && InvoicesVoided(db.invoices, after.invoices) && AttemptsMove(db.attempts, after.attempts)
    && PaymentsRestated(db.payments, after.payments) && ActionsRestated(db.actions, after.actions)
    && ReceiptsRestated(db.receipts, after.receipts) && NoReviewVoided(db.invoices, after.invoices, after.payments)
    && AgreementStays(db.receipts, db.payments, after.receipts, after.payments)
    && after.users.Keys == db.users.Keys && after.identities == db.identities && after.ledger == db.ledger
    && after.intents == db.intents && after.terminals == db.terminals
  }

  /** The parts of `Subsides`, with the tables that nothing changed given for free. */
  lemma Still(db: Db)
    ensures RentalsRetire(db.rentals, db.rentals) && ReservationsRetire(db.reservations, db.reservations)
    ensures InvoicesVoided(db.invoices, db.invoices) && AttemptsMove(db.attempts, db.attempts)
    ensures PaymentsRestated(db.payments, db.payments) && ActionsRestated(db.actions, db.actions)
    ensures ReceiptsRestated(db.receipts, db.receipts) && AgreementStays(db.receipts, db.payments, db.receipts, db.payments)
    ensures forall qs {:trigger NoReviewVoided(db.invoices, db.invoices, qs)} :: NoReviewVoided(db.invoices, db.invoices, qs)
  {
  }

  lemma Subsided(db: Db, after: Db)
    requires RentalsRetire(db.rentals, after.rentals) && ReservationsRetire(db.reservations, after.reservations)
    requires InvoicesVoided(db.invoices, after.invoices) && AttemptsMove(db.attempts, after.attempts)
    requires PaymentsRestated(db.payments, after.payments) && ActionsRestated(db.actions, after.actions)
    requires ReceiptsRestated(db.receipts, after.receipts) && NoReviewVoided(db.invoices, after.invoices, after.payments)
    requires AgreementStays(db.receipts, db.payments, after.receipts, after.payments)
    requires after.users.Keys == db.users.Keys && after.identities == db.identities && after.ledger == db.ledger
    requires after.intents == db.intents && after.terminals == db.terminals
    ensures Subsides(db, after)
  {
    hide RentalsRetire, ReservationsRetire, InvoicesVoided, AttemptsMove, PaymentsRestated, ActionsRestated, ReceiptsRestated;
    hide NoReviewVoided, AgreementStays;
  }

  lemma RetireRentals(rs: map<Id, Rental>, ss: map<Id, Rental>, vs: map<Id, Reservation>, users: set<Id>, bs: map<Id, Invoice>)
    requires RentalsRetire(rs, ss)
    requires OneLiveRental(rs) && Coupled(rs, vs) && OwnersKnown(users, rs, bs) && InvoicesBound(rs, bs)
    requires HoldsBilled(rs, bs)
    ensures OneLiveRental(ss) && Coupled(ss, vs) && OwnersKnown(users, ss, bs) && InvoicesBound(ss, bs) && HoldsBilled(ss, bs)
    ensures RentalsKept(rs, ss)
  {
  }

  lemma RetireReservations(vs: map<Id, Reservation>, ws: map<Id, Reservation>, rs: map<Id, Rental>)
    requires ReservationsRetire(vs, ws) && OneLiveReservation(vs) && KeysDistinct(vs) && Coupled(rs, vs)
    ensures OneLiveReservation(ws) && KeysDistinct(ws) && Coupled(rs, ws)
  {
  }

  lemma VoidInvoices(bs: map<Id, Invoice>, cs: map<Id, Invoice>, users: set<Id>, rs: map<Id, Rental>, xs: map<Id, Attempt>)
    requires InvoicesVoided(bs, cs)
    requires OwnersKnown(users, rs, bs) && InvoicesBound(rs, bs) && HoldsBilled(rs, bs)
    requires AttemptsBound(bs, xs) && OneAsk(bs, xs) && PaidAttemptsComplete(bs, xs)
    ensures OwnersKnown(users, rs, cs) && InvoicesBound(rs, cs) && HoldsBilled(rs, cs)
    ensures AttemptsBound(cs, xs) && OneAsk(cs, xs) && PaidAttemptsComplete(cs, xs)
    ensures InvoicesKept(bs, cs)
  {
    forall a, b, r | AsksFor(cs, xs, a, r) && AsksFor(cs, xs, b, r) ensures a == b {
      assert AsksFor(bs, xs, a, r) && AsksFor(bs, xs, b, r);
    }
  }

  lemma MoveAttempts(bs: map<Id, Invoice>, xs: map<Id, Attempt>, ys: map<Id, Attempt>)
    requires AttemptsMove(xs, ys)
    requires AttemptsBound(bs, xs) && AttemptsDistinct(xs) && OneAsk(bs, xs) && PaidAttemptsComplete(bs, xs)
    ensures AttemptsBound(bs, ys) && AttemptsDistinct(ys) && OneAsk(bs, ys) && PaidAttemptsComplete(bs, ys)
    ensures AttemptsKept(xs, ys)
  {
    forall a, b, r | AsksFor(bs, ys, a, r) && AsksFor(bs, ys, b, r) ensures a == b {
      assert AsksFor(bs, xs, a, r) && AsksFor(bs, xs, b, r);
    }
  }

  lemma RestatePayments(bs: map<Id, Invoice>, cs: map<Id, Invoice>, ps: map<Id, Payment>, qs: map<Id, Payment>)
    requires PaymentsRestated(ps, qs) && InvoicesVoided(bs, cs) && NoReviewVoided(bs, cs, qs)
    requires PaymentsBound(bs, ps) && ConfirmedOnce(bs, ps) && ReferencesDistinct(ps) && ReviewsOpen(bs, ps)
    ensures PaymentsBound(cs, qs) && ConfirmedOnce(cs, qs) && ReferencesDistinct(qs) && ReviewsOpen(cs, qs)
    ensures PaymentsKept(ps, qs)
  {
  }

  lemma RestateReceipts(ps: map<Id, Payment>, qs: map<Id, Payment>, ks: map<(Id, Id), Receipt>, ms: map<(Id, Id), Receipt>)
    requires PaymentsRestated(ps, qs) && ReceiptsRestated(ks, ms) && ReceiptsBound(ks, ps)
    requires ReceiptsAgree(ks, ps) && AgreementStays(ks, ps, ms, qs)
    ensures ReceiptsBound(ms, qs) && ReceiptsKept(ks, ms) && ReceiptsAgree(ms, qs)
  {
  }

  lemma RestateActions(l: Ledger, ps: map<Id, Payment>, qs: map<Id, Payment>, xs: map<Id, Action>, ys: map<Id, Action>, intents: map<Id, Id>)
    requires PaymentsRestated(ps, qs) && ActionsRestated(xs, ys)
    requires ActionsMatch(xs, ps, intents) && CreditXorRefund(l, ps, xs)
    ensures ActionsMatch(ys, qs, intents) && CreditXorRefund(l, qs, ys)
  {
    forall p ensures RefundQueued(ys, p) <==> RefundQueued(xs, p) {
      if RefundQueued(xs, p) {
        var a :| a in xs && xs[a].payment == p;
        assert ys[a].payment == p;
      }
      if RefundQueued(ys, p) {
        var a :| a in ys && ys[a].payment == p;
        assert xs[a].payment == p;
      }
    }
  }

  lemma RetireConserves(l: Ledger, rs: map<Id, Rental>, ss: map<Id, Rental>)
    requires RentalsRetire(rs, ss) && Conserved(l, rs)
    ensures Conserved(l, ss)
  {
  }

  lemma Unfold(db: Db, after: Db)
    requires Subsides(db, after)
    ensures RentalsRetire(db.rentals, after.rentals) && ReservationsRetire(db.reservations, after.reservations)
    ensures InvoicesVoided(db.invoices, after.invoices) && AttemptsMove(db.attempts, after.attempts)
    ensures PaymentsRestated(db.payments, after.payments) && ActionsRestated(db.actions, after.actions)
    ensures ReceiptsRestated(db.receipts, after.receipts) && NoReviewVoided(db.invoices, after.invoices, after.payments)
    ensures AgreementStays(db.receipts, db.payments, after.receipts, after.payments)
    ensures after.users.Keys == db.users.Keys && after.identities == db.identities && after.ledger == db.ledger
    ensures after.intents == db.intents && after.terminals == db.terminals
    ensures ActionsKept(db.actions, after.actions) && Extends(db.ledger, after.ledger) && after.rentals.Keys == db.rentals.Keys
  {
  }

  /** A transaction that only lets rows subside keeps every invariant and undoes nothing. */
  lemma SubsidingKeeps(db: Db, after: Db)
    requires Inv(db) && Subsides(db, after)
    ensures Inv(after) && Evolves(db, after)
  {
    hide *;
    Parts(db);
    Unfold(db, after);
    RetireRentals(db.rentals, after.rentals, db.reservations, db.users.Keys, db.invoices);
    RetireReservations(db.reservations, after.reservations, after.rentals);
    VoidInvoices(db.invoices, after.invoices, db.users.Keys, after.rentals, db.attempts);
    MoveAttempts(after.invoices, db.attempts, after.attempts);
    RestatePayments(db.invoices, after.invoices, db.payments, after.payments);
    RestateReceipts(db.payments, after.payments, db.receipts, after.receipts);
    RestateActions(db.ledger, db.payments, after.payments, db.actions, after.actions, db.intents);
    EntriesStaySound(db.ledger, db.payments, db.invoices, db.rentals, after.payments, after.invoices, after.rentals);
    RetireConserves(db.ledger, db.rentals, after.rentals);
    Whole(after);
    Evolved(db, after);
  }
}
