/** Transactions that add or take lease time: every path that makes a rental ACTIVE or changes its end. */
module Crediting {
  import opened Tables
  import opened Allocation
  import opened Invariants
  import opened Evolution
  import opened Subsiding
  import opened Growing

  /** The row a rental gets when `weeks` are credited to it: a new lease, a hold that becomes one, or a longer one. */
  ghost predicate LeaseRow(rs: map<Id, Rental>, r: Id, row: Rental, weeks: nat) {
    && row.status == Active && row.startsAt < row.endsAt && weeks >= 1
    && (r !in rs ==> Vacant(rs, row.listing) && row.endsAt - row.startsAt == WEEK * weeks)
    && (r in rs ==> && IsLive(rs[r]) && row.listing == rs[r].listing && row.user == rs[r].user
                    && (rs[r].status == Pending ==> row.endsAt - row.startsAt == WEEK * weeks)
                    && (rs[r].status == Active ==> row == rs[r].(endsAt := rs[r].endsAt + WEEK * weeks)))
  }

  ghost predicate Unreserved(vs: map<Id, Reservation>, listing: Id) {
    forall v | v in vs && vs[v].listing == listing :: vs[v].status != Reserved
  }

  lemma LeaseExclusive(rs: map<Id, Rental>, r: Id, row: Rental, weeks: nat, vs: map<Id, Reservation>, ws: map<Id, Reservation>)
    requires LeaseRow(rs, r, row, weeks) && ReservationsRetire(vs, ws) && Unreserved(ws, row.listing)
    requires OneLiveRental(rs) && Coupled(rs, vs)
    ensures OneLiveRental(rs[r := row]) && Coupled(rs[r := row], ws) && RentalsKept(rs, rs[r := row])
  {
  }

  lemma LeaseBound(rs: map<Id, Rental>, r: Id, row: Rental, weeks: nat, users: set<Id>, bs: map<Id, Invoice>)
    requires LeaseRow(rs, r, row, weeks) && row.user in users
    requires OwnersKnown(users, rs, bs) && InvoicesBound(rs, bs)
    ensures OwnersKnown(users, rs[r := row], bs) && InvoicesBound(rs[r := row], bs)
  {
  }

  lemma LeaseConserves(l: Ledger, rs: map<Id, Rental>, r: Id, row: Rental, weeks: nat, source: Source)
    requires LeaseRow(rs, r, row, weeks) && Conserved(l, rs)
    requires r !in rs ==> WeeksOf(l, r) == 0 && GapOf(l, r) == 0 && CutOf(l, r) == 0
    ensures Conserved(Posted(Entry(r, source, weeks, 0, 0), l), rs[r := row])
  {
  }

  /** The invoice a credited payment pays: a new one, or an open one that is bound now at the latest. */
  ghost predicate PaidRow(bs: map<Id, Invoice>, xs: map<Id, Attempt>, i: Id, bill: Invoice, r: Id) {
    && bill.status == Paid && bill.rental == Some(r)
    && (i in bs ==> bs[i].status == Open && InvoiceKept(bs[i], bill))
    && forall a | a in xs && xs[a].invoice == i :: xs[a].status == Completed
  }

  lemma PayInvoice(bs: map<Id, Invoice>, i: Id, bill: Invoice, r: Id, rs: map<Id, Rental>, users: set<Id>, xs: map<Id, Attempt>)
    requires PaidRow(bs, xs, i, bill, r) && bill.user in users
    requires r in rs && rs[r].listing == bill.listing && rs[r].user == bill.user
    requires OwnersKnown(users, rs, bs) && InvoicesBound(rs, bs) && AttemptsBound(bs, xs)
    requires OneAsk(bs, xs) && PaidAttemptsComplete(bs, xs)
    ensures var cs := bs[i := bill];
            && OwnersKnown(users, rs, cs) && InvoicesBound(rs, cs) && AttemptsBound(cs, xs)
            && OneAsk(cs, xs) && PaidAttemptsComplete(cs, xs) && InvoicesKept(bs, cs)
  {
    var cs := bs[i := bill];
    forall a, b, s | AsksFor(cs, xs, a, s) && AsksFor(cs, xs, b, s) ensures a == b {
      assert AsksFor(bs, xs, a, s) && AsksFor(bs, xs, b, s);
    }
  }

  lemma PaidHolds(rs: map<Id, Rental>, r: Id, row: Rental, bs: map<Id, Invoice>, i: Id, bill: Invoice)
    requires row.status == Active && bill.rental == Some(r) && (i in bs ==> InvoiceKept(bs[i], bill))
    requires HoldsBilled(rs, bs)
    ensures HoldsBilled(rs[r := row], bs[i := bill])
  {
  }

  /** The credited payment: a new one under an unused reference, or a terminal's that was under review. */
  ghost predicate CreditedRow(ps: map<Id, Payment>, p: Id, row: Payment, i: Id, bill: Invoice) {
    && row.status == Confirmed && row.invoice == i
    && (row.amount.Linden? <==> row.reference.ByTerminal?) && (bill.amount.Linden? <==> row.reference.ByTerminal?)
    && (p in ps ==> ps[p].status == InReview && PaymentKept(ps[p], row))
    && (p !in ps ==> !UsedReference(ps, row.reference))
    && (row.reference.ByTerminal? ==> forall q | q in ps && q != p :: ps[q].invoice != i)
  }

  lemma CreditPayment(bs: map<Id, Invoice>, i: Id, bill: Invoice, ps: map<Id, Payment>, p: Id, row: Payment)
    requires CreditedRow(ps, p, row, i, bill) && bill.status == Paid
    requires i in bs ==> bs[i].status == Open && bill.amount == bs[i].amount
    requires PaymentsBound(bs, ps) && ConfirmedOnce(bs, ps) && ReferencesDistinct(ps) && ReviewsOpen(bs, ps)
    ensures var cs, qs := bs[i := bill], ps[p := row];
            PaymentsBound(cs, qs) && ConfirmedOnce(cs, qs) && ReferencesDistinct(qs) && ReviewsOpen(cs, qs) && PaymentsKept(ps, qs)
  {
  }

  lemma CreditOnce(l: Ledger, e: Entry, ps: map<Id, Payment>, p: Id, row: Payment, xs: map<Id, Action>, intents: map<Id, Id>)
    requires e.source == ByPayment(p) && Credits(l, p) == 0 && row.status == Confirmed
    requires p in ps ==> ps[p].reference.ByTerminal? && row.reference == ps[p].reference
    requires ActionsMatch(xs, ps, intents) && CreditXorRefund(l, ps, xs)
    ensures ActionsMatch(xs, ps[p := row], intents) && CreditXorRefund(Posted(e, l), ps[p := row], xs)
  {
    var m := Posted(e, l);
    assert forall q | q != p :: Credits(m, q) == Credits(l, q);
    assert Credits(m, p) == 1;
    assert !RefundQueued(xs, p);
  }

  /** The receipts of a credited payment: untouched for a card, settled or added for a terminal. */
  ghost predicate CreditedReceipts(ks: map<(Id, Id), Receipt>, ms: map<(Id, Id), Receipt>, ps: map<Id, Payment>, p: Id, row: Payment) {
    if !row.reference.ByTerminal? then ms == ks && p !in ps
    else if p in ps then ms == SettleReceipts(ks, p, Confirmed) && row.reference == ps[p].reference && ps[p].status == InReview
    else
      var k := (row.reference.terminal, row.reference.event);
      k !in ks && k in ms && ms == ks[k := ms[k]] && ms[k].payment == Some(p) && ms[k].status == Confirmed
  }

  lemma CreditReceipts(ks: map<(Id, Id), Receipt>, ms: map<(Id, Id), Receipt>, ps: map<Id, Payment>, p: Id, row: Payment)
    requires CreditedReceipts(ks, ms, ps, p, row) && ReceiptsBound(ks, ps) && ReceiptsAgree(ks, ps)
    requires row.status == Confirmed
    ensures ReceiptsBound(ms, ps[p := row]) && ReceiptsKept(ks, ms) && ReceiptsAgree(ms, ps[p := row])
  {
    if row.reference.ByTerminal? && p !in ps {
      var k := (row.reference.terminal, row.reference.event);
      AddReceipt(ks, ps, k, ms[k], p, row);
    } else if !row.reference.ByTerminal? {
      AddReceiptless(ks, ps, p, row);
    }
  }

  /** Everything a credit writes. */
  datatype Credit = Credit(rental: Id, lease: Rental, weeks: nat, invoice: Id, bill: Invoice, payment: Id, paid: Payment,
                           reservations: map<Id, Reservation>, receipts: map<(Id, Id), Receipt>, users: map<Id, User>)

  ghost predicate Creditable(db: Db, c: Credit) {
    && LeaseRow(db.rentals, c.rental, c.lease, c.weeks) && c.lease.user in db.users
    && ReservationsRetire(db.reservations, c.reservations) && Unreserved(c.reservations, c.lease.listing)
    && PaidRow(db.invoices, db.attempts, c.invoice, c.bill, c.rental)
    && c.bill.listing == c.lease.listing && c.bill.user == c.lease.user
    && CreditedRow(db.payments, c.payment, c.paid, c.invoice, c.bill)
    && (!c.paid.reference.ByTerminal? ==> c.weeks == 1)
    && CreditedReceipts(db.receipts, c.receipts, db.payments, c.payment, c.paid)
    && c.users.Keys == db.users.Keys
  }

  function Credited(db: Db, c: Credit): Db {
    db.(rentals := db.rentals[c.rental := c.lease], reservations := c.reservations,
        invoices := db.invoices[c.invoice := c.bill], payments := db.payments[c.payment := c.paid],
        receipts := c.receipts, users := c.users,
        ledger := Posted(Entry(c.rental, ByPayment(c.payment), c.weeks, 0, 0), db.ledger))
  }

  lemma CreditParts(db: Db, c: Credit)
    requires Creditable(db, c) && Inv(db)
    ensures var after := Credited(db, c);
            && after.rentals == db.rentals[c.rental := c.lease] && after.reservations == c.reservations
            && after.invoices == db.invoices[c.invoice := c.bill] && after.payments == db.payments[c.payment := c.paid]
            && after.receipts == c.receipts && after.users.Keys == db.users.Keys && after.identities == db.identities
            && after.attempts == db.attempts && after.actions == db.actions && after.intents == db.intents
            && after.terminals == db.terminals
            && after.ledger == Posted(Entry(c.rental, ByPayment(c.payment), c.weeks, 0, 0), db.ledger)
            && Extends(db.ledger, after.ledger)
    ensures LeaseRow(db.rentals, c.rental, c.lease, c.weeks) && c.lease.user in db.users && c.lease.status == Active
    ensures ReservationsRetire(db.reservations, c.reservations) && Unreserved(c.reservations, c.lease.listing)
    ensures PaidRow(db.invoices, db.attempts, c.invoice, c.bill, c.rental) && c.bill.rental == Some(c.rental) && c.bill.status == Paid
    ensures c.bill.listing == c.lease.listing && c.bill.user == c.lease.user
    ensures c.invoice in db.invoices ==> db.invoices[c.invoice].status == Open && c.bill.amount == db.invoices[c.invoice].amount
                                         && InvoiceKept(db.invoices[c.invoice], c.bill)
    ensures CreditedRow(db.payments, c.payment, c.paid, c.invoice, c.bill) && c.paid.status == Confirmed && c.paid.invoice == c.invoice
    ensures CreditedReceipts(db.receipts, c.receipts, db.payments, c.payment, c.paid)
    ensures c.payment in db.payments ==> db.payments[c.payment].reference.ByTerminal? && c.paid.reference == db.payments[c.payment].reference
                                         && Credits(db.ledger, c.payment) == 0
    ensures c.weeks >= 1 && (!c.paid.reference.ByTerminal? ==> c.weeks == 1)
  {
    hide OneLiveRental, OneLiveReservation, KeysDistinct, Coupled, OwnersKnown, InvoicesBound, AttemptsBound, PaymentsBound;
    hide IdentitiesDistinct, ReceiptsBound, ReceiptsAgree, AttemptsDistinct, OneAsk, PaidAttemptsComplete, ConfirmedOnce;
    hide ReferencesDistinct;
    hide ReviewsOpen, HoldsBilled, ActionsMatch, EntriesSound, Conserved, SettleReceipts, ReservationsRetire, Vacant, UsedReference;
  }

  lemma EntryPosted(db: Db, c: Credit, ps: map<Id, Payment>, bs: map<Id, Invoice>, rs: map<Id, Rental>)
    requires EntriesSound(db.ledger, ps, bs, rs) && c.rental in rs && c.payment in ps && ps[c.payment] == c.paid
    requires c.invoice in bs && bs[c.invoice] == c.bill && c.bill.status == Paid && c.bill.rental == Some(c.rental)
    requires c.paid.invoice == c.invoice && c.weeks >= 1 && (!c.paid.reference.ByTerminal? ==> c.weeks == 1)
    ensures EntriesSound(Posted(Entry(c.rental, ByPayment(c.payment), c.weeks, 0, 0), db.ledger), ps, bs, rs)
  {
  }

  /** The tenancy side of a credit. */
  lemma CreditTenancy(db: Db, c: Credit)
    requires Inv(db) && Creditable(db, c)
    ensures var after := Credited(db, c);
            && OneLiveRental(after.rentals) && OneLiveReservation(after.reservations) && KeysDistinct(after.reservations)
            && Coupled(after.rentals, after.reservations) && HoldsBilled(after.rentals, after.invoices)
            && OwnersKnown(after.users.Keys, after.rentals, after.invoices) && InvoicesBound(after.rentals, after.invoices)
            && AttemptsBound(after.invoices, after.attempts) && OneAsk(after.invoices, after.attempts)
            && PaidAttemptsComplete(after.invoices, after.attempts) && Conserved(after.ledger, after.rentals)
            && RentalsKept(db.rentals, after.rentals) && InvoicesKept(db.invoices, after.invoices)
  {
    var after := Credited(db, c);
    hide *;
    Parts(db);
    CreditParts(db, c);
    NothingPosted(db.ledger, db.payments, db.invoices, db.rentals, c.rental);
    LeaseExclusive(db.rentals, c.rental, c.lease, c.weeks, db.reservations, c.reservations);
    RetireReservations(db.reservations, c.reservations, db.rentals);
    LeaseBound(db.rentals, c.rental, c.lease, c.weeks, db.users.Keys, db.invoices);
    PayInvoice(db.invoices, c.invoice, c.bill, c.rental, after.rentals, db.users.Keys, db.attempts);
    PaidHolds(db.rentals, c.rental, c.lease, db.invoices, c.invoice, c.bill);
    LeaseConserves(db.ledger, db.rentals, c.rental, c.lease, c.weeks, ByPayment(c.payment));
  }

  /** The money side of a credit. */
  lemma CreditMoney(db: Db, c: Credit)
    requires Inv(db) && Creditable(db, c) && InvoicesKept(db.invoices, Credited(db, c).invoices)
    ensures var after := Credited(db, c);
            && PaymentsBound(after.invoices, after.payments) && ConfirmedOnce(after.invoices, after.payments)
            && ReferencesDistinct(after.payments) && ReviewsOpen(after.invoices, after.payments)
            && ActionsMatch(after.actions, after.payments, after.intents)
            && CreditXorRefund(after.ledger, after.payments, after.actions)
            && ReceiptsBound(after.receipts, after.payments) && ReceiptsAgree(after.receipts, after.payments)
            && EntriesSound(after.ledger, after.payments, after.invoices, after.rentals)
            && PaymentsKept(db.payments, after.payments) && ReceiptsKept(db.receipts, after.receipts)
  {
    var after := Credited(db, c);
    hide *;
    Parts(db);
    CreditParts(db, c);
    NothingPosted(db.ledger, db.payments, db.invoices, db.rentals, c.payment);
    CreditPayment(db.invoices, c.invoice, c.bill, db.payments, c.payment, c.paid);
    CreditOnce(db.ledger, Entry(c.rental, ByPayment(c.payment), c.weeks, 0, 0), db.payments, c.payment, c.paid, db.actions, db.intents);
    CreditReceipts(db.receipts, c.receipts, db.payments, c.payment, c.paid);
    EntriesStaySound(db.ledger, db.payments, db.invoices, db.rentals, after.payments, after.invoices, after.rentals);
    EntryPosted(db, c, after.payments, after.invoices, after.rentals);
  }

  /** A credit keeps every invariant: settlement, terminal payment and approval are all of this form. */
  lemma CreditKeeps(db: Db, c: Credit)
    requires Inv(db) && Creditable(db, c)
    ensures Inv(Credited(db, c)) && Evolves(db, Credited(db, c))
  {
    var after := Credited(db, c);
    hide *;
    Parts(db);
    CreditParts(db, c);
    CreditTenancy(db, c);
    CreditMoney(db, c);
    Unmoved(db);
    Whole(after);
    Evolved(db, after);
  }

  // ---------- administration ----------

  lemma BindInvoice(bs: map<Id, Invoice>, i: Id, r: Id, rs: map<Id, Rental>, users: set<Id>, xs: map<Id, Attempt>, ps: map<Id, Payment>)
    requires i in bs && bs[i].status == Paid && bs[i].rental.None?
    requires r in rs && rs[r].listing == bs[i].listing && rs[r].user == bs[i].user && rs[r].status == Active
    requires OwnersKnown(users, rs, bs) && InvoicesBound(rs, bs) && AttemptsBound(bs, xs) && PaymentsBound(bs, ps)
    requires OneAsk(bs, xs) && PaidAttemptsComplete(bs, xs) && ConfirmedOnce(bs, ps) && ReviewsOpen(bs, ps)
    ensures var cs := bs[i := bs[i].(rental := Some(r))];
            && OwnersKnown(users, rs, cs) && InvoicesBound(rs, cs) && AttemptsBound(cs, xs) && PaymentsBound(cs, ps)
            && OneAsk(cs, xs) && PaidAttemptsComplete(cs, xs) && ConfirmedOnce(cs, ps) && ReviewsOpen(cs, ps) && InvoicesKept(bs, cs)
  {
    var cs := bs[i := bs[i].(rental := Some(r))];
    forall a, b, s | AsksFor(cs, xs, a, s) && AsksFor(cs, xs, b, s) ensures a == b {
      assert AsksFor(bs, xs, a, s) && AsksFor(bs, xs, b, s);
    }
  }

  lemma CreditNothing(l: Ledger, e: Entry, ps: map<Id, Payment>, xs: map<Id, Action>)
    requires !e.source.ByPayment? && CreditXorRefund(l, ps, xs)
    ensures CreditXorRefund(Posted(e, l), ps, xs)
  {
    assert forall p :: Credits(Posted(e, l), p) == Credits(l, p);
  }

  lemma PostEntry(l: Ledger, e: Entry, ps: map<Id, Payment>, bs: map<Id, Invoice>, rs: map<Id, Rental>)
    requires EntriesSound(l, ps, bs, rs) && EntrySound(e, ps, bs, rs)
    ensures EntriesSound(Posted(e, l), ps, bs, rs) && Extends(l, Posted(e, l))
  {
  }

  lemma BindingKept(rs: map<Id, Rental>, r: Id, row: Rental, weeks: nat, bill: Invoice)
    requires LeaseRow(rs, r, row, weeks) && bill.rental.None?
    ensures row.status == Active && weeks >= 1 && InvoiceKept(bill, bill.(rental := Some(r)))
  {
    hide Vacant;
  }

  /** An entry that rests on no payment. */
  lemma PlainEntry(e: Entry, ps: map<Id, Payment>, bs: map<Id, Invoice>, rs: map<Id, Rental>)
    requires e.rental in rs
    requires match e.source
             case ByPayment(_) => false
             case ByActivation => e.weeks >= 1 && e.gap == 0 && e.cut == 0
             case ByExtension => e.weeks >= 1 && e.cut == 0
             case ByEnding => e.weeks == 0 && e.gap == 0
    ensures EntrySound(e, ps, bs, rs)
  {
  }

  /** The lease that an administrator starts on a paid, unbound invoice. */
  lemma ActivationKeeps(db: Db, id: Id, row: Rental, weeks: nat, invoice: Id, ws: map<Id, Reservation>, users: map<Id, User>)
    requires Inv(db) && id !in db.rentals && LeaseRow(db.rentals, id, row, weeks) && row.user in db.users
    requires ReservationsRetire(db.reservations, ws) && Unreserved(ws, row.listing) && users.Keys == db.users.Keys
    requires invoice in db.invoices && db.invoices[invoice].status == Paid && db.invoices[invoice].rental.None?
    requires db.invoices[invoice].listing == row.listing && db.invoices[invoice].user == row.user
    ensures var after := db.(users := users, rentals := db.rentals[id := row], reservations := ws,
                             invoices := db.invoices[invoice := db.invoices[invoice].(rental := Some(id))],
                             ledger := Posted(Entry(id, ByActivation, weeks, 0, 0), db.ledger));
            Inv(after) && Evolves(db, after)
  {
    var e := Entry(id, ByActivation, weeks, 0, 0);
    var after := db.(users := users, rentals := db.rentals[id := row], reservations := ws,
                     invoices := db.invoices[invoice := db.invoices[invoice].(rental := Some(id))],
                     ledger := Posted(e, db.ledger));
    hide *;
    BindingKept(db.rentals, id, row, weeks, db.invoices[invoice]);
    Parts(db);
    NothingPosted(db.ledger, db.payments, db.invoices, db.rentals, id);
    LeaseExclusive(db.rentals, id, row, weeks, db.reservations, ws);
    RetireReservations(db.reservations, ws, db.rentals);
    LeaseBound(db.rentals, id, row, weeks, db.users.Keys, db.invoices);
    BindInvoice(db.invoices, invoice, id, after.rentals, db.users.Keys, db.attempts, db.payments);
    PaidHolds(db.rentals, id, row, db.invoices, invoice, after.invoices[invoice]);
    CreditNothing(db.ledger, e, db.payments, db.actions);
    Unmoved(db);
    EntriesStaySound(db.ledger, db.payments, db.invoices, db.rentals, db.payments, after.invoices, after.rentals);
    PlainEntry(e, db.payments, after.invoices, after.rentals);
    PostEntry(db.ledger, e, db.payments, after.invoices, after.rentals);
    LeaseConserves(db.ledger, db.rentals, id, row, weeks, ByActivation);
    Whole(after);
    Evolved(db, after);
  }

  /** An ACTIVE rental with a later end. */
  lemma LaterEnd(rs: map<Id, Rental>, r: Id, end: int, vs: map<Id, Reservation>, users: set<Id>, bs: map<Id, Invoice>)
    requires r in rs && rs[r].status == Active && rs[r].endsAt <= end
    requires OneLiveRental(rs) && Coupled(rs, vs) && OwnersKnown(users, rs, bs) && InvoicesBound(rs, bs)
    requires HoldsBilled(rs, bs)
    ensures var ss := rs[r := rs[r].(endsAt := end)];
            && OneLiveRental(ss) && Coupled(ss, vs) && OwnersKnown(users, ss, bs) && InvoicesBound(ss, bs) && HoldsBilled(ss, bs)
            && RentalsKept(rs, ss)
  {
  }

  lemma ExtensionConserves(l: Ledger, rs: map<Id, Rental>, r: Id, end: int, weeks: nat, gap: nat)
    requires r in rs && rs[r].status == Active && weeks >= 1 && end == rs[r].endsAt + gap + WEEK * weeks && Conserved(l, rs)
    ensures Conserved(Posted(Entry(r, ByExtension, weeks, gap, 0), l), rs[r := rs[r].(endsAt := end)])
  {
  }

  lemma ExtensionKeeps(db: Db, r: Id, end: int, weeks: nat, gap: nat)
    requires Inv(db) && r in db.rentals && db.rentals[r].status == Active && weeks >= 1
    requires end == db.rentals[r].endsAt + gap + WEEK * weeks
    ensures var after := db.(rentals := db.rentals[r := db.rentals[r].(endsAt := end)],
                             ledger := Posted(Entry(r, ByExtension, weeks, gap, 0), db.ledger));
            Inv(after) && Evolves(db, after)
  {
    var e := Entry(r, ByExtension, weeks, gap, 0);
    var after := db.(rentals := db.rentals[r := db.rentals[r].(endsAt := end)], ledger := Posted(e, db.ledger));
    hide *;
    Parts(db);
    LaterEnd(db.rentals, r, end, db.reservations, db.users.Keys, db.invoices);
    CreditNothing(db.ledger, e, db.payments, db.actions);
    Unmoved(db);
    EntriesStaySound(db.ledger, db.payments, db.invoices, db.rentals, db.payments, db.invoices, after.rentals);
    PlainEntry(e, db.payments, after.invoices, after.rentals);
    PostEntry(db.ledger, e, db.payments, db.invoices, after.rentals);
    ExtensionConserves(db.ledger, db.rentals, r, end, weeks, gap);
    Whole(after);
    Evolved(db, after);
  }

  /** A rental that an administrator ends, at its end or earlier. */
  lemma EarlierEnd(rs: map<Id, Rental>, r: Id, end: int, vs: map<Id, Reservation>, users: set<Id>, bs: map<Id, Invoice>)
    requires r in rs && rs[r].startsAt < end
    requires OneLiveRental(rs) && Coupled(rs, vs) && OwnersKnown(users, rs, bs) && InvoicesBound(rs, bs)
    requires HoldsBilled(rs, bs)
    ensures var ss := rs[r := rs[r].(status := Ended, endsAt := end)];
            && OneLiveRental(ss) && Coupled(ss, vs) && OwnersKnown(users, ss, bs) && InvoicesBound(ss, bs) && HoldsBilled(ss, bs)
            && RentalsKept(rs, ss)
  {
  }

  lemma EndingConserves(l: Ledger, rs: map<Id, Rental>, r: Id, end: int)
    requires r in rs && end <= rs[r].endsAt && Conserved(l, rs)
    ensures Conserved(Posted(Entry(r, ByEnding, 0, 0, rs[r].endsAt - end), l), rs[r := rs[r].(status := Ended, endsAt := end)])
  {
  }

  lemma EndingKeeps(db: Db, r: Id, end: int)
    requires Inv(db) && r in db.rentals && db.rentals[r].startsAt < end <= db.rentals[r].endsAt
    ensures var after := db.(rentals := db.rentals[r := db.rentals[r].(status := Ended, endsAt := end)],
                             ledger := Posted(Entry(r, ByEnding, 0, 0, db.rentals[r].endsAt - end), db.ledger));
            Inv(after) && Evolves(db, after)
  {
    hide *;
    EndedKeeps(db, r, end, db.rentals[r := db.rentals[r].(status := Ended, endsAt := end)],
               Entry(r, ByEnding, 0, 0, db.rentals[r].endsAt - end));
  }

  lemma EndedKeeps(db: Db, r: Id, end: int, rentals: map<Id, Rental>, e: Entry)
    requires r in db.rentals && db.rentals[r].startsAt < end <= db.rentals[r].endsAt
    requires rentals == db.rentals[r := db.rentals[r].(status := Ended, endsAt := end)]
    requires e == Entry(r, ByEnding, 0, 0, db.rentals[r].endsAt - end)
    requires Inv(db)
    ensures var after := db.(rentals := rentals, ledger := Posted(e, db.ledger)); Inv(after) && Evolves(db, after)
  {
    hide *;
    Parts(db);
    EarlierEnd(db.rentals, r, end, db.reservations, db.users.Keys, db.invoices);
    CreditNothing(db.ledger, e, db.payments, db.actions);
    Unmoved(db);
    EntriesStaySound(db.ledger, db.payments, db.invoices, db.rentals, db.payments, db.invoices, rentals);
    PlainEntry(e, db.payments, db.invoices, rentals);
    PostEntry(db.ledger, e, db.payments, db.invoices, rentals);
    EndingConserves(db.ledger, db.rentals, r, end);
    var after := db.(rentals := rentals, ledger := Posted(e, db.ledger));
    Whole(after);
    Evolved(db, after);
  }
}
