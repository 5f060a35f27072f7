/** What no transaction undoes: how the rows of each table may change from one committed state to the next. */
module Evolution {
  import opened Tables
  import opened Invariants

  /** A hold is never changed but by ending it or by its payment, which restarts it; a lease keeps its start, and never
      becomes shorter while it is ACTIVE. */
  predicate RentalKept(r: Rental, s: Rental) {
    && s.listing == r.listing && s.user == r.user
    && (s.status == Pending ==> s == r) && (r.status != Pending ==> s.startsAt == r.startsAt)
    && (r.status == Active && s.status == Active ==> r.endsAt <= s.endsAt)
    && (r.status == Active ==> s.status == Active || s.status == Ended)
    && (r.status == Ended ==> s.status == Ended)
    && (r.status == Cancelled ==> s.status == Cancelled || s.status == Ended)
  }

  /** OPEN may become PAID or VOID, which are final; a rental once bound stays bound. */
  predicate InvoiceKept(i: Invoice, j: Invoice) {
    && j.listing == i.listing && j.user == i.user && j.amount == i.amount && j.dueAt == i.dueAt
    && (i.status != Open ==> j.status == i.status)
    && (i.rental.Some? ==> j.rental == i.rental)
  }

  /** COMPLETED and EXPIRED are final. */
  predicate AttemptKept(a: Attempt, b: Attempt) {
    && b.invoice == a.invoice
    && (a.status == Completed || a.status == Expired ==> b.status == a.status)
  }

  /** A payment is confirmed only out of review, and only if it is a terminal's. */
  predicate PaymentKept(p: Payment, q: Payment) {
    && q.invoice == p.invoice && q.reference == p.reference && q.amount == p.amount
    && (q.status == Confirmed && p.status != Confirmed ==> p.status == InReview && p.reference.ByTerminal?)
    && (p.reference.ByTerminal? && p.status != InReview ==> q.status == p.status)
  }

  /** The refund that an action asks for never changes, and SUCCEEDED is final. */
  predicate ActionKept(a: Action, b: Action) {
    && b.payment == a.payment && b.key == a.key && b.intent == a.intent && b.amount == a.amount
    && (a.state == Succeeded ==> b.state == Succeeded)
  }

  predicate ReceiptKept(k: Receipt, m: Receipt) {
    && m.payer == k.payer && m.amount == k.amount && m.body == k.body && m.expected == k.expected
    && (k.payment.Some? ==> m.payment == k.payment)
    && (k.status != InReview ==> m.status == k.status)
  }

  ghost predicate RentalsKept(before: map<Id, Rental>, after: map<Id, Rental>) {
    forall r | r in before :: r in after && RentalKept(before[r], after[r])
  }

  ghost predicate InvoicesKept(before: map<Id, Invoice>, after: map<Id, Invoice>) {
    forall i | i in before :: i in after && InvoiceKept(before[i], after[i])
  }

  ghost predicate AttemptsKept(before: map<Id, Attempt>, after: map<Id, Attempt>) {
    forall a | a in before :: a in after && AttemptKept(before[a], after[a])
  }

  ghost predicate PaymentsKept(before: map<Id, Payment>, after: map<Id, Payment>) {
    forall p | p in before :: p in after && PaymentKept(before[p], after[p])
  }

  ghost predicate ActionsKept(before: map<Id, Action>, after: map<Id, Action>) {
    forall a | a in before :: a in after && ActionKept(before[a], after[a])
  }

  ghost predicate ReceiptsKept(before: map<(Id, Id), Receipt>, after: map<(Id, Id), Receipt>) {
    forall k | k in before :: k in after && ReceiptKept(before[k], after[k])
  }

  /** The ledger only grows. */
  predicate Extends(l: Ledger, m: Ledger) {
    m == l || (m.Posted? && Extends(l, m.earlier))
  }

  ghost predicate Evolves(db: Db, after: Db) {
    && RentalsKept(db.rentals, after.rentals) && InvoicesKept(db.invoices, after.invoices)
    && AttemptsKept(db.attempts, after.attempts) && PaymentsKept(db.payments, after.payments)
    && ActionsKept(db.actions, after.actions) && ReceiptsKept(db.receipts, after.receipts)
    && Extends(db.ledger, after.ledger) && db.users.Keys <= after.users.Keys
    && after.intents == db.intents && after.terminals == db.terminals
  }

  lemma {:induction false} ExtendsTransitive(k: Ledger, l: Ledger, m: Ledger)
    requires Extends(k, l) && Extends(l, m)
    ensures Extends(k, m)
  {
    if m != l {
      ExtendsTransitive(k, l, m.earlier);
    }
  }

  lemma EvolvesTransitive(a: Db, b: Db, c: Db)
    requires Evolves(a, b) && Evolves(b, c)
    ensures Evolves(a, c)
  {
    ExtendsTransitive(a.ledger, b.ledger, c.ledger);
  }

  /** Leaving the other tables alone undoes nothing in them. */
  lemma Unmoved(db: Db)
    ensures RentalsKept(db.rentals, db.rentals) && InvoicesKept(db.invoices, db.invoices) && AttemptsKept(db.attempts, db.attempts)
    ensures PaymentsKept(db.payments, db.payments) && ActionsKept(db.actions, db.actions) && ReceiptsKept(db.receipts, db.receipts)
    ensures Extends(db.ledger, db.ledger)
  {
  }

  /** The parts of an evolution make a whole. */
  lemma Evolved(db: Db, after: Db)
    requires RentalsKept(db.rentals, after.rentals) && InvoicesKept(db.invoices, after.invoices)
    requires AttemptsKept(db.attempts, after.attempts) && PaymentsKept(db.payments, after.payments)
    requires ActionsKept(db.actions, after.actions) && ReceiptsKept(db.receipts, after.receipts)
    requires Extends(db.ledger, after.ledger) && db.users.Keys <= after.users.Keys
    requires after.intents == db.intents && after.terminals == db.terminals
    ensures Evolves(db, after)
  {
    hide RentalsKept, InvoicesKept, AttemptsKept, PaymentsKept, ActionsKept, ReceiptsKept, Extends;
  }

  /** A longer ledger has at least as many credits of each payment. */
  lemma {:induction false} CreditsGrow(l: Ledger, m: Ledger, payment: Id)
    requires Extends(l, m)
    ensures Credits(l, payment) <= Credits(m, payment)
  {
    if m != l {
      CreditsGrow(l, m.earlier, payment);
    }
  }

  /** What an entry rests on is never undone. */
  lemma {:induction false} EntriesStaySound(l: Ledger, ps: map<Id, Payment>, bs: map<Id, Invoice>, rs: map<Id, Rental>,
                                            qs: map<Id, Payment>, cs: map<Id, Invoice>, ss: map<Id, Rental>)
    requires EntriesSound(l, ps, bs, rs)
    requires PaymentsKept(ps, qs) && InvoicesKept(bs, cs) && rs.Keys <= ss.Keys
    ensures EntriesSound(l, qs, cs, ss)
  {
    if l.Posted? {
      EntriesStaySound(l.earlier, ps, bs, rs, qs, cs, ss);
    }
  }

  /** Nothing was ever posted for a row that does not exist. */
  lemma {:induction false} NothingPosted(l: Ledger, ps: map<Id, Payment>, bs: map<Id, Invoice>, rs: map<Id, Rental>, id: Id)
    requires EntriesSound(l, ps, bs, rs)
    ensures id !in ps ==> Credits(l, id) == 0
    ensures id !in rs ==> WeeksOf(l, id) == 0 && GapOf(l, id) == 0 && CutOf(l, id) == 0
  {
    if l.Posted? {
      NothingPosted(l.earlier, ps, bs, rs, id);
    }
  }
}
