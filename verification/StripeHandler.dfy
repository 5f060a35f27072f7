/** stripe-event-handler.ts: what the provider's events do, statement by statement.  The caller's transaction
    begins and, if a method fails, rolls back. */
module StripeHandler {
  import opened Tables
  import opened Allocation
  import opened Invariants
  import opened Transactions
  import opened Locks
  import opened Store
  import opened Checkout
  import opened CheckoutRoute

  // ---------- expiry ----------

  /** checkout.session.expired and async_payment_failed. */
  method HandleExpired(db: Database, e: SessionEvent) returns (status: Option<Handling>)
    requires Inv(db.tables) && db.held == []
    modifies db
    ensures status == Result(SessionExpired(old(db.tables), e))
    ensures status.Some? ==> db.tables == SessionExpired(old(db.tables), e).db
    ensures db.held == if BoundSession(old(db.tables), e) then [ListingKey(old(db.tables).invoices[e.invoice].listing)] else []
  {
    hide Inv;
    if !BoundSession(db.tables, e) {
      return None;
    }
    AttemptInvoice(db.tables, e.attempt);
    db.Lock(ListingKey(db.tables.invoices[e.invoice].listing));
    var bound := db.tables.attempts[e.attempt];
    var rental := db.tables.invoices[e.invoice].rental;
    if bound.status !in {Presented, Expired} {
      return None;
    }
    if bound.status == Expired {
      return Some(Handled);
    }
    var expired := MoveAttempt(db, e.attempt, {Presented}, Expired);
    var voided := VoidInvoice(db, e.invoice);
    if !expired || !voided {
      return None;
    }
    if rental.Some? {
      var _ := CancelHold(db, rental.value);
    }
    return Some(Handled);
  }

  lemma AttemptInvoice(db: Db, attempt: Id)
    requires Inv(db) && attempt in db.attempts
    ensures db.attempts[attempt].invoice in db.invoices && db.invoices[db.attempts[attempt].invoice].rental.Some?
            && db.invoices[db.attempts[attempt].invoice].amount.Minor?
  {
    hide *;
    Parts(db);
    AttemptBilled(db, attempt);
  }

  // ---------- payment ----------

  function ThreeLocks(listing: Id, user: Id, reference: Id): (keys: seq<LockKey>)
    ensures Ascending(keys)
  {
    [ListingKey(listing), UserKey(user), StripeKey(reference)]
  }

  /** UPDATE stripe_checkout_attempts SET status='COMPLETED' WHERE session_id. */
  function CompleteSession(attempts: map<Id, Attempt>, session: Id): map<Id, Attempt> {
    map a | a in attempts :: if attempts[a].session == Some(session) then attempts[a].(status := Completed) else attempts[a]
  }

  /** A session belongs to one attempt. */
  lemma OneSession(attempts: map<Id, Attempt>, attempt: Id, session: Id)
    requires AttemptsDistinct(attempts) && attempt in attempts && attempts[attempt].session == Some(session)
    ensures CompleteSession(attempts, session) == CompletedAttempts(attempts, attempt)
  {
  }

  /** The invoice, rental, user and reservation conditions of the handler's eligibility query. */
  predicate EligibleRow(db: Db, now: int, invoice: Id) {
    && Selected(db, now, invoice) && Eligible(db.users, db.invoices[invoice].user)
    && var i := db.invoices[invoice];
    && !exists v :: v in db.reservations && Holds(db.reservations[v], now, i.listing)
                    && (db.rentals[i.rental.value].status == Active || db.reservations[v].target != i.user)
  }

  /** Its reservation condition never makes a difference. */
  lemma EligibleIsPayable(db: Db, now: int, invoice: Id)
    requires Inv(db)
    ensures EligibleRow(db, now, invoice) <==> Payable(db, now, invoice)
  {
    assert InvoicesBound(db.rentals, db.invoices) && Coupled(db.rentals, db.reservations) by {
      hide *;
      Parts(db);
    }
    hide Inv;
    SelectedPayable(db, now, invoice);
    if Payable(db, now, invoice) {
      var i := db.invoices[invoice];
      forall v | v in db.reservations && Holds(db.reservations[v], now, i.listing)
        ensures db.rentals[i.rental.value].status == Pending && db.reservations[v].target == i.user
      {
        SettlementUnreserved(db, now, invoice, Some(v));
      }
    }
  }

  /** A refund action keyed by the session exists only if its payment does. */
  lemma KeyUnused(db: Db, e: SessionEvent)
    requires Inv(db) && Authentic(db, e) && !UsedReference(db.payments, ByIntent(e.intent))
    ensures forall a | a in db.actions :: db.actions[a].key != e.session
  {
    assert ActionsMatch(db.actions, db.payments, db.intents) by {
      hide *;
      Parts(db);
    }
    hide Inv;
  }

  /** The payment of a reference. */
  method FindPayment(db: Database, reference: Reference) returns (found: Option<Id>)
    requires Inv(db.tables)
    ensures found.Some? <==> UsedReference(db.tables.payments, reference)
    ensures found.Some? ==> found.value in db.tables.payments && found.value == PaymentOf(db.tables.payments, reference)
  {
    if p :| p in db.tables.payments && db.tables.payments[p].reference == reference {
      ReferenceOnce(db.tables, p, PaymentOf(db.tables.payments, reference));
      return Some(p);
    }
    return None;
  }

  lemma ReferenceOnce(db: Db, p: Id, q: Id)
    requires Inv(db) && p in db.payments && q in db.payments && db.payments[p].reference == db.payments[q].reference
    ensures p == q
  {
    assert ReferencesDistinct(db.payments) by {
      hide *;
      Parts(db);
    }
    hide Inv;
  }

  /** The statements after the eligibility query found nothing: a payment for review and its refund action. */
  method QueueRefund(db: Database, now: int, id: Id, e: SessionEvent) returns (status: Option<Handling>)
    requires e.amount.Minor?
    modifies db`tables
    ensures PaymentAdmissible(old(db.tables).invoices, old(db.tables).payments, Payment(e.invoice, ByIntent(e.intent), e.amount, InReview))
            && (forall a | a in old(db.tables).actions :: old(db.tables).actions[a].key != e.session) ==>
              && status == (if e.amount.minor <= 0 then None else Some(ForReview))
              && (status.Some? ==> db.tables == old(db.tables).(
                    payments := old(db.tables).payments[id := Payment(e.invoice, ByIntent(e.intent), e.amount, InReview)],
                    actions := old(db.tables).actions[id := Action(id, e.session, e.intent, e.amount.minor, Queued, 0, now, None)]))
  {
    hide PaymentAdmissible;
    var inserted := db.InsertPayment(id, Payment(e.invoice, ByIntent(e.intent), e.amount, InReview));
    if !inserted {
      // ON CONFLICT DO NOTHING: another delivery won the race for the reference.
      if p :| p in db.tables.payments && db.tables.payments[p].reference == ByIntent(e.intent) {
        return if db.tables.payments[p].invoice == e.invoice && db.tables.payments[p].amount == e.amount then Some(Handled) else None;
      }
      return None;
    }
    if e.amount.minor <= 0 {
      return None;
    }
    if forall a | a in db.tables.actions :: db.tables.actions[a].key != e.session {
      db.tables := db.tables.(actions := db.tables.actions[id := Action(id, e.session, e.intent, e.amount.minor, Queued, 0, now, None)]);
    }
    return Some(ForReview);
  }

  /** A payment that is already recorded is acknowledged if it is the same. */
  method Acknowledge(db: Database, e: SessionEvent, duplicate: Id) returns (status: Option<Handling>)
    requires duplicate in db.tables.payments && AttemptsDistinct(db.tables.attempts)
    requires e.attempt in db.tables.attempts && db.tables.attempts[e.attempt].session == Some(e.session)
    modifies db`tables
    ensures var p := old(db.tables).payments[duplicate];
            if p.invoice != e.invoice || p.amount != e.amount then status.None?
            else status == Some(Handled) && db.tables == old(db.tables).(attempts := CompletedAttempts(old(db.tables).attempts, e.attempt))
  {
    var p := db.tables.payments[duplicate];
    if p.invoice != e.invoice || p.amount != e.amount {
      return None;
    }
    OneSession(db.tables.attempts, e.attempt, e.session);
    db.tables := db.tables.(attempts := CompleteSession(db.tables.attempts, e.session));
    return Some(Handled);
  }

  /** The paid-session specification, branch by branch. */
  lemma SessionPaidAs(db: Db, now: int, id: Id, e: SessionEvent)
    requires e.amount.Minor?
    ensures var paid := SessionPaid(db, now, id, e);
            if !BoundSession(db, e) || db.attempts[e.attempt].status !in {Presented, Completed} then paid.Rollback?
            else if UsedReference(db.payments, ByIntent(e.intent)) then
              var p := db.payments[PaymentOf(db.payments, ByIntent(e.intent))];
              if p.invoice != e.invoice || p.amount != e.amount then paid.Rollback?
              else paid == Commit(db.(attempts := CompletedAttempts(db.attempts, e.attempt)), Handled)
            else if Payable(db, now, e.invoice) then
              var settled := Settle(db, now, id, e.invoice, ByIntent(e.intent), e.amount);
              if settled.Rollback? then paid.Rollback?
              else paid == Commit(settled.db.(attempts := CompletedAttempts(db.attempts, e.attempt)), Handled)
            else if e.amount.minor <= 0 then paid.Rollback?
            else paid == Commit(db.(
                   payments := db.payments[id := Payment(e.invoice, ByIntent(e.intent), e.amount, InReview)],
                   actions := db.actions[id := Action(id, e.session, e.intent, e.amount.minor, Queued, 0, now, None)]), ForReview)
  {
    hide Settle, Payable, UsedReference;
  }

  /** The eligible branch: settle, and complete the attempt. */
  method SettleSession(db: Database, now: int, id: Id, e: SessionEvent) returns (status: Option<Handling>)
    requires Inv(db.tables) && BoundSession(db.tables, e)
    requires ListingKey(db.tables.invoices[e.invoice].listing) in db.held
    requires UserKey(db.tables.invoices[e.invoice].user) in db.held
    modifies db
    ensures var settled := Settle(old(db.tables), now, id, e.invoice, ByIntent(e.intent), e.amount);
            && status == (if settled.Commit? then Some(Handled) else None)
            && (settled.Commit? ==> db.tables == settled.db.(attempts := CompletedAttempts(old(db.tables).attempts, e.attempt)))
    ensures db.held == old(db.held)
  {
    ghost var before := db.tables;
    hide Inv, Settle, CompletedAttempts, CompleteSession, AttemptsDistinct;
    var ok := SettleCheckoutInvoice(db, now, id, e.invoice, ByIntent(e.intent), e.amount);
    if !ok {
      return None;
    }
    Parts(before);
    SettleCommutes(before, now, id, e.invoice, ByIntent(e.intent), e.amount, before.attempts);
    OneSession(before.attempts, e.attempt, e.session);
    db.tables := db.tables.(attempts := CompleteSession(db.tables.attempts, e.session));
    return Some(Handled);
  }

  /** What the handler does once the session is bound to its attempt. */
  method HandleBound(db: Database, now: int, id: Id, e: SessionEvent) returns (status: Option<Handling>)
    requires BoundSession(db.tables, e) && db.tables.attempts[e.attempt].status in {Presented, Completed} && e.amount.Minor?
    requires ListingKey(db.tables.invoices[e.invoice].listing) in db.held
    requires UserKey(db.tables.invoices[e.invoice].user) in db.held
    requires Authentic(db.tables, e) && Inv(db.tables)
    modifies db
    ensures status == Result(SessionPaid(old(db.tables), now, id, e))
    ensures status.Some? ==> db.tables == SessionPaid(old(db.tables), now, id, e).db
    ensures db.held == old(db.held)
  {
    hide Inv, Settle, EligibleRow, Payable, SessionPaid, CompletedAttempts, AttemptsDistinct, Authentic;
    ghost var before := db.tables;
    SessionPaidAs(before, now, id, e);
    assert AttemptsDistinct(before.attempts) by { Parts(before); }
    var duplicate := FindPayment(db, ByIntent(e.intent));
    if duplicate.Some? {
      status := Acknowledge(db, e, duplicate.value);
      return;
    }
    EligibleIsPayable(before, now, e.invoice);
    if EligibleRow(db.tables, now, e.invoice) {
      status := SettleSession(db, now, id, e);
      return;
    }
    KeyUnused(before, e);
    status := QueueRefund(db, now, id, e);
  }

  /** The three locks of a payment, in order. */
  method LockPaid(db: Database, listing: Id, user: Id, reference: Id)
    requires db.held == []
    modifies db`held
    ensures db.held == ThreeLocks(listing, user, reference)
    ensures ListingKey(listing) in db.held && UserKey(user) in db.held
  {
    db.Lock(ListingKey(listing));
    db.Lock(UserKey(user));
    db.Lock(StripeKey(reference));
  }

  lemma UnboundRefused(db: Db, now: int, id: Id, e: SessionEvent)
    requires !e.amount.Minor? || !BoundSession(db, e) || db.attempts[e.attempt].status !in {Presented, Completed}
    ensures SessionPaid(db, now, id, e).Rollback?
  {
    hide Settle, Payable, UsedReference;
  }

  /** checkout.session.completed and async_payment_succeeded.  A session without a total in a currency is refused. */
  method HandlePaid(db: Database, now: int, id: Id, e: SessionEvent) returns (status: Option<Handling>)
    requires Inv(db.tables) && Authentic(db.tables, e) && db.held == []
    modifies db
    ensures status == Result(SessionPaid(old(db.tables), now, id, e))
    ensures status.Some? ==> db.tables == SessionPaid(old(db.tables), now, id, e).db
    ensures db.held == if !e.amount.Minor? || e.invoice !in old(db.tables).invoices then []
                       else ThreeLocks(old(db.tables).invoices[e.invoice].listing, old(db.tables).invoices[e.invoice].user, e.intent)
  {
    if !e.amount.Minor? || !BoundSession(db.tables, e) || db.tables.attempts[e.attempt].status !in {Presented, Completed} {
      UnboundRefused(db.tables, now, id, e);
    }
    hide Inv, Settle, Payable, SessionPaid, Authentic, ThreeLocks, UsedReference;
    if !e.amount.Minor? || e.invoice !in db.tables.invoices {
      return None;
    }
    LockPaid(db, db.tables.invoices[e.invoice].listing, db.tables.invoices[e.invoice].user, e.intent);
    if !BoundSession(db.tables, e) || db.tables.attempts[e.attempt].status !in {Presented, Completed} {
      return None;
    }
    status := HandleBound(db, now, id, e);
  }

  // ---------- refunds and disputes ----------

  /** The sum does not depend on the order in which rows are added. */
  lemma {:induction false} SumInAnyOrder(refunds: map<Id, RefundRow>, ids: set<Id>, f: Id)
    requires ids <= refunds.Keys && f in ids
    ensures SumRefunds(refunds, ids) == refunds[f].amount + SumRefunds(refunds, ids - {f})
    decreases |ids|
  {
    var g :| g in ids && SumRefunds(refunds, ids) == refunds[g].amount + SumRefunds(refunds, ids - {g});
    if g != f {
      SumInAnyOrder(refunds, ids - {g}, f);
      SumInAnyOrder(refunds, ids - {f}, g);
      assert ids - {g} - {f} == ids - {f} - {g};
    }
  }

  /** SELECT COALESCE(sum(amount_minor),0) over the succeeded refunds of a payment. */
  method SumSucceeded(db: Database, payment: Id) returns (total: int)
    ensures total == SumRefunds(db.tables.refunds, SucceededRefunds(db.tables.refunds, payment))
  {
    var rows := SucceededRefunds(db.tables.refunds, payment);
    total := 0;
    while rows != {}
      invariant rows <= db.tables.refunds.Keys
      invariant total + SumRefunds(db.tables.refunds, rows) == SumRefunds(db.tables.refunds, SucceededRefunds(db.tables.refunds, payment))
      decreases rows
    {
      var f :| f in rows;
      SumInAnyOrder(db.tables.refunds, rows, f);
      total := total + db.tables.refunds[f].amount;
      rows := rows - {f};
    }
  }

  /** The rows that a provider reference selects. */
  predicate Referred(payments: map<Id, Payment>, references: set<Id>, p: Id) {
    p in payments && payments[p].reference.ByIntent? && payments[p].reference.intent in references
  }

  /** refund.* and charge.refunded, whose references are `references`; `found` is the candidate that its query returned. */
  method HandleRefund(db: Database, references: set<Id>, e: RefundEvent)
    returns (found: Option<Id>, status: Option<Handling>)
    requires Inv(db.tables)
    modifies db`tables
    ensures if found.Some? then Referred(old(db.tables).payments, references, found.value)
            else forall p | p in old(db.tables).payments :: !Referred(old(db.tables).payments, references, p)
    ensures status == Result(RefundReported(old(db.tables), found, e))
    ensures status.Some? ==> db.tables == RefundReported(old(db.tables), found, e).db
  {
    hide RefundDisposition, MarkActions, SumRefunds, SucceededRefunds, Inv;
    if p :| p in db.tables.payments && Referred(db.tables.payments, references, p) {
      found := Some(p);
      CardInMinor(db.tables, p);
      if e.RefundNotice? && e.amount < 0 {
        return found, None;
      }
      var refunded: int;
      if e.RefundNotice? {
        db.tables := db.tables.(refunds := RecordRefund(db.tables.refunds, p, e));
        refunded := SumSucceeded(db, p);
      } else {
        refunded := e.total;
      }
      var disposition := RefundDisposition(e.status, refunded, db.tables.payments[p].amount.minor);
      db.tables := db.tables.(payments := db.tables.payments[p := db.tables.payments[p].(status := disposition)]);
      db.tables := db.tables.(actions := MarkActions(db.tables.actions, p, disposition == Refunded));
      return found, Some(if disposition == Refunded then Handled else ForReview);
    }
    return None, Some(ForReview);
  }

  lemma CardInMinor(db: Db, p: Id)
    requires Inv(db) && p in db.payments && db.payments[p].reference.ByIntent?
    ensures db.payments[p].amount.Minor?
  {
    assert PaymentsBound(db.invoices, db.payments) by {
      hide *;
      Parts(db);
    }
    hide Inv;
  }

  /** charge.dispute.*. */
  method HandleDispute(db: Database, references: set<Id>) returns (status: Option<Handling>)
    modifies db`tables
    ensures status == Result(Disputed(old(db.tables), references))
    ensures db.tables == Disputed(old(db.tables), references).db
  {
    db.tables := db.tables.(payments := map p | p in db.tables.payments ::
      if Referred(db.tables.payments, references, p) then db.tables.payments[p].(status := InReview) else db.tables.payments[p]);
    return Some(ForReview);
  }
}
