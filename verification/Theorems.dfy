/** What the invariants and the specification add up to, for whole runs. */
module Theorems {
  import opened Tables
  import opened Allocation
  import opened Invariants
  import opened Evolution
  import opened Transactions
  import opened Runs
  import opened Clocked
  import opened ClockedRuns
  import opened Store
  import CheckoutRoute
  import Reconciliation

  // ---------- lease time ----------

  /** Weeks that payments credited to a rental. */
  function WeeksPaid(l: Ledger, rental: Id): nat {
    match l
    case Opening => 0
    case Posted(e, earlier) => (if e.rental == rental && e.source.ByPayment? then e.weeks else 0) + WeeksPaid(earlier, rental)
  }

  /** Weeks that administrators granted. */
  function WeeksGiven(l: Ledger, rental: Id): nat {
    match l
    case Opening => 0
    case Posted(e, earlier) =>
      (if e.rental == rental && (e.source.ByActivation? || e.source.ByExtension?) then e.weeks else 0) + WeeksGiven(earlier, rental)
  }

  /** Time that extensions of leases that had already run out skipped. */
  function GapSkipped(l: Ledger, rental: Id): nat {
    match l
    case Opening => 0
    case Posted(e, earlier) => (if e.rental == rental && e.source.ByExtension? then e.gap else 0) + GapSkipped(earlier, rental)
  }

  lemma {:induction false} SourcesAddUp(l: Ledger, ps: map<Id, Payment>, bs: map<Id, Invoice>, rs: map<Id, Rental>, rental: Id)
    requires EntriesSound(l, ps, bs, rs)
    ensures WeeksOf(l, rental) == WeeksPaid(l, rental) + WeeksGiven(l, rental) && GapOf(l, rental) == GapSkipped(l, rental)
  {
    if l.Posted? {
      SourcesAddUp(l.earlier, ps, bs, rs, rental);
    }
  }

  lemma LeaseFacts(db: Db)
    requires Inv(db)
    ensures EntriesSound(db.ledger, db.payments, db.invoices, db.rentals)
    ensures forall r | r in db.rentals && db.rentals[r].status == Active ::
              db.rentals[r].endsAt - db.rentals[r].startsAt == WEEK * WeeksOf(db.ledger, r) + GapOf(db.ledger, r)
    ensures forall p | p in db.payments :: Credits(db.ledger, p) <= 1
  {
    assert EntriesSound(db.ledger, db.payments, db.invoices, db.rentals) && Conserved(db.ledger, db.rentals)
           && CreditXorRefund(db.ledger, db.payments, db.actions) by {
      hide *;
      Parts(db);
    }
    hide Inv, EntriesSound;
  }

  /** After any run, at any clocks, a lease that was activated and not ended runs for exactly the weeks that payments
      and administrators credited to it and the gaps that administrators' extensions skipped; and no payment was
      credited twice. */
  lemma LeaseTimeConserved(db: Db, moments: seq<Moment>)
    requires Inv(db) && Runnable(db, moments)
    ensures var end := Run(db, moments);
            && (forall r | r in end.rentals && end.rentals[r].status == Active ::
                  end.rentals[r].endsAt - end.rentals[r].startsAt
                  == WEEK * (WeeksPaid(end.ledger, r) + WeeksGiven(end.ledger, r)) + GapSkipped(end.ledger, r))
            && (forall p | p in end.payments :: Credits(end.ledger, p) <= 1)
  {
    hide Inv, Run, Runnable, Keeps, Evolves, EntriesSound, CreditXorRefund, Conserved;
    var end := Run(db, moments);
    RunKeeps(db, moments);
    Kept(db, end);
    LeaseFacts(end);
    forall r | r in end.rentals && end.rentals[r].status == Active
      ensures end.rentals[r].endsAt - end.rentals[r].startsAt
              == WEEK * (WeeksPaid(end.ledger, r) + WeeksGiven(end.ledger, r)) + GapSkipped(end.ledger, r)
    {
      SourcesAddUp(end.ledger, end.payments, end.invoices, end.rentals, r);
    }
  }

  // ---------- credit or refund ----------

  /** The payment was credited with lease time. */
  predicate Credited(db: Db, payment: Id) {
    Credits(db.ledger, payment) == 1
  }

  /** A card payment is credited or being refunded, not both, and no run ever takes it from one side to the other. */
  lemma NeverCrossesOver(db: Db, moments: seq<Moment>, p: Id)
    requires Inv(db) && Runnable(db, moments) && p in db.payments && db.payments[p].reference.ByIntent?
    ensures var end := Run(db, moments);
            && p in end.payments && end.payments[p].reference == db.payments[p].reference && end.payments[p].amount == db.payments[p].amount
            && (forall q | q in end.payments && end.payments[q].reference == end.payments[p].reference :: q == p)
            && (Credited(end, p) <==> !RefundQueued(end.actions, p))
            && (Credited(end, p) <==> Credited(db, p)) && (RefundQueued(end.actions, p) <==> RefundQueued(db.actions, p))
  {
    hide *;
    var end := Run(db, moments);
    RunKeeps(db, moments);
    Kept(db, end);
    Parts(db);
    Parts(end);
    StaysOnItsSide(db, end, p);
  }

  lemma StaysOnItsSide(db: Db, end: Db, p: Id)
    requires Evolves(db, end) && p in db.payments && db.payments[p].reference.ByIntent? && ReferencesDistinct(end.payments)
    requires CreditXorRefund(db.ledger, db.payments, db.actions) && CreditXorRefund(end.ledger, end.payments, end.actions)
    ensures p in end.payments && end.payments[p].reference == db.payments[p].reference && end.payments[p].amount == db.payments[p].amount
    ensures forall q | q in end.payments && end.payments[q].reference == end.payments[p].reference :: q == p
    ensures Credited(end, p) <==> !RefundQueued(end.actions, p)
    ensures Credited(end, p) <==> Credited(db, p)
    ensures RefundQueued(end.actions, p) <==> RefundQueued(db.actions, p)
  {
    CreditsGrow(db.ledger, end.ledger, p);
    if RefundQueued(db.actions, p) {
      var a :| a in db.actions && db.actions[a].payment == p;
      assert a in end.actions && end.actions[a].payment == p;
    }
    hide RentalsKept, InvoicesKept, AttemptsKept, ReceiptsKept, Extends;
  }

  /** The refund action of a payment repays all of it. */
  lemma RefundIsWhole(db: Db, a: Id, b: Id)
    requires Inv(db) && a in db.actions && b in db.actions
    ensures db.actions[a].payment in db.payments && db.payments[db.actions[a].payment].amount.Minor?
            && db.payments[db.actions[a].payment].amount.minor == db.actions[a].amount
            && db.payments[db.actions[a].payment].reference == ByIntent(db.actions[a].intent)
    ensures db.actions[a].payment == db.actions[b].payment ==> a == b
  {
    assert ActionsMatch(db.actions, db.payments, db.intents) by {
      hide *;
      Parts(db);
    }
    hide Inv;
  }

  /** The one payment of a session's intent: of its amount, on its invoice, and credited or being refunded. */
  ghost predicate RecordedOnce(db: Db, e: SessionEvent, p: Id) {
    && p in db.payments && db.payments[p].reference == ByIntent(e.intent)
    && db.payments[p].invoice == e.invoice && db.payments[p].amount == e.amount
    && (forall q | q in db.payments && db.payments[q].reference == ByIntent(e.intent) :: q == p)
    && (Credited(db, p) <==> !RefundQueued(db.actions, p))
  }

  /** The new payment is CONFIRMED, credited with exactly one week, and its invoice PAID; or it is under review, no lease time
      was granted to anybody, and a refund of all of it is queued. */
  ghost predicate CreditedOrReviewed(before: Db, db: Db, e: SessionEvent, p: Id)
    requires p in db.payments && e.amount.Minor?
  {
    if Credited(db, p) then
      && db.payments[p].status == Confirmed && e.invoice in db.invoices && db.invoices[e.invoice].status == Paid && !RefundQueued(db.actions, p)
      && OneWeekGranted(before.ledger, db.ledger, p)
    else
      && db.payments[p].status == InReview && p in db.actions && db.actions[p].payment == p && db.actions[p].amount == e.amount.minor
      && db.actions[p].intent == e.intent && db.actions[p].state == Queued
      && db.ledger == before.ledger && db.rentals == before.rentals
  }

  predicate OneWeekGranted(l: Ledger, m: Ledger, p: Id) {
    m.Posted? && m.earlier == l && m.entry.source == ByPayment(p) && m.entry.weeks == 1 && m.entry.gap == 0 && m.entry.cut == 0
  }

  lemma RecordedRow(db: Db, e: SessionEvent, p: Id)
    requires Inv(db) && p in db.payments && db.payments[p].reference == ByIntent(e.intent)
    requires db.payments[p].invoice == e.invoice && db.payments[p].amount == e.amount
    ensures RecordedOnce(db, e, p)
  {
    assert ReferencesDistinct(db.payments) && CreditXorRefund(db.ledger, db.payments, db.actions) by {
      hide *;
      Parts(db);
    }
    hide Inv;
  }

  /** An accepted duplicate changes no payment. */
  lemma DuplicateRecorded(db: Db, now: int, id: Id, e: SessionEvent)
    requires SessionPaid(db, now, id, e).Commit? && UsedReference(db.payments, ByIntent(e.intent))
    ensures SessionPaid(db, now, id, e).db == db.(attempts := SessionPaid(db, now, id, e).db.attempts)
    ensures var p := PaymentOf(db.payments, ByIntent(e.intent)); db.payments[p].invoice == e.invoice && db.payments[p].amount == e.amount
  {
    DuplicateMatches(db, now, id, e);
    SessionPaidCases(db, now, id, e);
    hide SessionPaid, UsedReference, CompletedAttempts;
  }

  /** A paid session that is accepted for the first time inserts its payment. */
  lemma FirstRecorded(db: Db, now: int, id: Id, e: SessionEvent)
    requires SessionPaid(db, now, id, e).Commit? && !UsedReference(db.payments, ByIntent(e.intent))
    ensures e.amount.Minor?
    ensures var after := SessionPaid(db, now, id, e).db;
            && id in after.payments && after.payments[id].reference == ByIntent(e.intent)
            && after.payments[id].invoice == e.invoice && after.payments[id].amount == e.amount
            && if Payable(db, now, e.invoice)
               then after.payments[id].status == Confirmed && OneWeekGranted(db.ledger, after.ledger, id)
               else && after.payments[id].status == InReview && id in after.actions && after.ledger == db.ledger && after.rentals == db.rentals
                    && after.actions[id] == Action(id, e.session, e.intent, e.amount.minor, Queued, 0, now, None)
  {
    SessionPaidCases(db, now, id, e);
    SettledRows(db, now, id, e);
    hide SessionPaid, Settle, Payable, UsedReference, CompletedAttempts;
  }

  /** A CONFIRMED payment is credited, its invoice PAID, and it is not being refunded; one with a refund action is not credited. */
  lemma StatusDecides(db: Db, p: Id)
    requires Inv(db) && p in db.payments
    ensures db.payments[p].status == Confirmed ==>
              && Credited(db, p) && (db.payments[p].reference.ByIntent? ==> !RefundQueued(db.actions, p))
              && db.payments[p].invoice in db.invoices && db.invoices[db.payments[p].invoice].status == Paid
    ensures db.payments[p].reference.ByIntent? && RefundQueued(db.actions, p) ==> !Credited(db, p)
  {
    assert ConfirmedOnce(db.invoices, db.payments) && CreditXorRefund(db.ledger, db.payments, db.actions) by {
      hide *;
      Parts(db);
    }
    hide Inv, RefundQueued;
  }

  /** A paid session that is accepted leaves exactly one payment for its intent, of its amount and on its invoice, credited
      or being refunded but not both.  The payment that it inserts is CONFIRMED on a PAID invoice in the first case, and
      under review with a refund of the whole amount queued in the second; exactly one week is granted in the first and
      nothing in the second. */
  lemma PaidSessionRecorded(db: Db, now: int, id: Id, e: SessionEvent) returns (p: Id)
    requires Inv(db) && Fresh(db, id) && Authentic(db, e) && SessionPaid(db, now, id, e).Commit?
    ensures RecordedOnce(SessionPaid(db, now, id, e).db, e, p)
    ensures !UsedReference(db.payments, ByIntent(e.intent)) ==>
              p == id && e.amount.Minor? && CreditedOrReviewed(db, SessionPaid(db, now, id, e).db, e, id)
  {
    var after := SessionPaid(db, now, id, e).db;
    SessionPaidKeeps(db, now, id, e);
    Unchanged(SessionPaid(db, now, id, e), db);
    Kept(db, after);
    hide Inv, SessionPaid, After, Evolves, Keeps, Fresh, RecordedOnce, Credited, Payable, OneWeekGranted;
    if UsedReference(db.payments, ByIntent(e.intent)) {
      p := PaymentOf(db.payments, ByIntent(e.intent));
      DuplicateRecorded(db, now, id, e);
    } else {
      p := id;
      FirstRecorded(db, now, id, e);
      StatusDecides(after, id);
      assert id in after.actions && after.actions[id].payment == id ==> RefundQueued(after.actions, id);
    }
    RecordedRow(after, e, p);
  }

  lemma DuplicateMatches(db: Db, now: int, id: Id, e: SessionEvent)
    requires SessionPaid(db, now, id, e).Commit? && UsedReference(db.payments, ByIntent(e.intent))
    ensures var p := PaymentOf(db.payments, ByIntent(e.intent)); db.payments[p].invoice == e.invoice && db.payments[p].amount == e.amount
  {
    hide Settle, Payable, UsedReference;
  }

  lemma SettledRows(db: Db, now: int, id: Id, e: SessionEvent)
    ensures var settled := Settle(db, now, id, e.invoice, ByIntent(e.intent), e.amount);
            settled.Commit? ==> && settled.db.payments == db.payments[id := Payment(e.invoice, ByIntent(e.intent), e.amount, Confirmed)]
                                && settled.db.actions == db.actions && OneWeekGranted(db.ledger, settled.db.ledger, id)
  {
    hide *;
    var settled := Settle(db, now, id, e.invoice, ByIntent(e.intent), e.amount);
    if settled.Commit? {
      var rental := SettledTables(db, now, id, e.invoice, ByIntent(e.intent), e.amount);
      GrantedWeek(db.ledger, rental, id);
    }
  }

  lemma SettledTables(db: Db, now: int, id: Id, invoice: Id, reference: Reference, amount: Amount) returns (rental: Id)
    requires Settle(db, now, id, invoice, reference, amount).Commit?
    ensures var after := Settle(db, now, id, invoice, reference, amount).db;
            && after.payments == db.payments[id := Payment(invoice, reference, amount, Confirmed)] && after.actions == db.actions
            && after.ledger == Posted(Entry(rental, ByPayment(id), 1, 0, 0), db.ledger)
  {
    hide Promote, RedeemReservations, PaidWeek, UsedReference;
    rental := db.invoices[invoice].rental.value;
  }

  lemma GrantedWeek(l: Ledger, rental: Id, p: Id)
    ensures OneWeekGranted(l, Posted(Entry(rental, ByPayment(p), 1, 0, 0), l), p)
  {
  }

  // ---------- deliveries of a paid session ----------

  /** Any redelivery of a paid session that was recorded, however much later and in whatever order with other
      transactions, changes nothing but completes its attempt, or is refused if the attempt has expired meanwhile. */
  lemma RedeliveryChangesNothing(db: Db, now: int, id: Id, e: SessionEvent, p: Id)
    requires Inv(db) && BoundSession(db, e) && e.amount.Minor? && RecordedOnce(db, e, p)
    ensures if db.attempts[e.attempt].status in {Presented, Completed}
            then SessionPaid(db, now, id, e) == Commit(db.(attempts := CompletedAttempts(db.attempts, e.attempt)), Handled)
            else SessionPaid(db, now, id, e).Rollback?
  {
    assert UsedReference(db.payments, ByIntent(e.intent));
    hide Inv, Settle, Payable, UsedReference, Credited;
  }

  /** What was recorded stays recorded, so the above applies to every later delivery. */
  lemma RecordStays(db: Db, after: Db, e: SessionEvent, p: Id)
    requires Evolves(db, after) && Inv(after) && RecordedOnce(db, e, p)
    ensures RecordedOnce(after, e, p)
  {
    assert p in after.payments && PaymentKept(db.payments[p], after.payments[p]) by {
      hide Inv, RentalsKept, InvoicesKept, AttemptsKept, ActionsKept, ReceiptsKept, Extends;
    }
    hide Inv, Evolves;
    RecordedRow(after, e, p);
  }

  /** When a paid session is accepted: its attempt is open or completed; a known reference must carry the same payload;
      otherwise a payable invoice must be for exactly that amount, and any other amount must be positive. */
  lemma PaidSessionAccepted(db: Db, now: int, id: Id, e: SessionEvent)
    ensures SessionPaid(db, now, id, e).Commit? <==>
              && BoundSession(db, e) && db.attempts[e.attempt].status in {Presented, Completed} && e.amount.Minor?
              && if UsedReference(db.payments, ByIntent(e.intent)) then
                   var p := db.payments[PaymentOf(db.payments, ByIntent(e.intent))]; p.invoice == e.invoice && p.amount == e.amount
                 else if Payable(db, now, e.invoice) then db.invoices[e.invoice].amount == e.amount
                 else e.amount.minor > 0
  {
    hide UsedReference, Promote, RedeemReservations, PaidWeek, Eligible;
  }

  /** Money that arrives after the hold ran out is refunded if its event comes before a cleanup, and otherwise
      refused for good: it is then neither credited nor refunded. */
  lemma LatePaymentLostToCleanup(db: Db, cleaned: int, now: int, id: Id, e: SessionEvent, scope: Option<Id>)
    requires BoundSession(db, e) && db.attempts[e.attempt].status == Presented && e.amount.Minor? && e.amount.minor > 0
    requires !UsedReference(db.payments, ByIntent(e.intent))
    requires BillsOverdue(db.invoices, db.rentals, cleaned, scope, e.invoice) && cleaned <= now
    ensures var before := SessionPaid(db, now, id, e);
            before.Commit? && before.value == ForReview && RefundQueued(before.db.actions, id)
    ensures var swept := Sweep(db, cleaned, scope);
            After(SessionPaid(swept, now, id, e), swept) == swept && !UsedReference(swept.payments, ByIntent(e.intent))
  {
    var before := SessionPaid(db, now, id, e);
    assert !Payable(db, now, e.invoice);
    SweptAttempt(db, cleaned, scope, e.attempt);
    hide Settle, Payable, UsedReference, Sweep, BillsOverdue;
    assert id in before.db.actions && before.db.actions[id].payment == id;
  }

  /** For good: once its attempt has expired, a session is refused after every later run. */
  lemma ExpiredNeverPaid(db: Db, moments: seq<Moment>, now: int, id: Id, e: SessionEvent)
    requires Inv(db) && Runnable(db, moments) && e.attempt in db.attempts && db.attempts[e.attempt].status == Expired
    ensures SessionPaid(Run(db, moments), now, id, e).Rollback?
  {
    hide *;
    BillsAreFinal(db, moments);
    ExpiredIsFinal(db.attempts, Run(db, moments).attempts, e.attempt);
    ExpiredRefused(Run(db, moments), now, id, e);
  }

  lemma ExpiredIsFinal(before: map<Id, Attempt>, after: map<Id, Attempt>, a: Id)
    requires AttemptsFinal(before, after) && a in before && before[a].status == Expired
    ensures a in after && after[a].status == Expired
  {
  }

  lemma ExpiredRefused(db: Db, now: int, id: Id, e: SessionEvent)
    requires e.attempt in db.attempts && db.attempts[e.attempt].status == Expired
    ensures SessionPaid(db, now, id, e).Rollback?
  {
    hide Settle, Payable, UsedReference;
  }

  lemma SweptAttempt(db: Db, now: int, scope: Option<Id>, a: Id)
    requires a in db.attempts && LiveAttempt(db.attempts[a])
    requires BillsOverdue(db.invoices, db.rentals, now, scope, db.attempts[a].invoice)
    ensures var swept := Sweep(db, now, scope);
            a in swept.attempts && swept.attempts[a].status == Expired && swept.payments == db.payments
  {
    hide EndLapsed, CancelOverdue, VoidOverdueInvoices, BillsOverdue;
  }

  // ---------- refunds ----------

  lemma RefundsMark(db: Db, found: Option<Id>, e: RefundEvent, a: Id)
    requires a in db.actions && db.actions[a].state != Succeeded
    ensures var after := After(RefundReported(db, found, e), db);
            a in after.actions && after.actions[a].state == Succeeded ==>
              db.actions[a].payment in after.payments && after.payments[db.actions[a].payment].status == Refunded
  {
    hide RecordRefund, CumulativeRefund, RefundDisposition;
  }

  lemma WorkersMark(db: Db, now: int, c: Claim, succeeded: bool, a: Id)
    requires a in db.actions && db.actions[a].state != Succeeded && Taken(db, c)
    ensures var after := After(CompleteRefund(db, now, c, succeeded), db);
            a in after.actions && after.actions[a].state == Succeeded ==>
              db.actions[a].payment in after.payments && after.payments[db.actions[a].payment].status == Refunded
  {
  }

  lemma ClaimsNeverSucceed(db: Db, now: int, b: Id, a: Id)
    requires a in db.actions && db.actions[a].state != Succeeded
    ensures var after := After(ClaimRefund(db, now, b), db); a in after.actions && after.actions[a].state != Succeeded
  {
    ClaimForm(db, now, b);
    hide Due, ClaimOn, ClaimRefund, After;
  }

  lemma FailuresNeverSucceed(db: Db, now: int, b: Id, a: Id)
    requires a in db.actions && db.actions[a].state != Succeeded
    ensures var after := After(FailRefund(db, now, b), db); a in after.actions && after.actions[a].state != Succeeded
  {
  }

  lemma RetriesNeverSucceed(db: Db, now: int, b: Id, a: Id)
    requires a in db.actions && db.actions[a].state != Succeeded
    ensures var after := After(RetryRefund(db, now, b), db); a in after.actions && after.actions[a].state != Succeeded
  {
  }

  lemma ResolutionsNeverSucceed(db: Db, now: int, b: Id, a: Id)
    requires a in db.actions && db.actions[a].state != Succeeded
    ensures var after := After(ResolveRefund(db, b), db); a in after.actions && after.actions[a].state != Succeeded
  {
  }

  lemma NoticeActions(db: Db, e: SessionEvent, references: set<Id>)
    ensures After(SessionExpired(db, e), db).actions == db.actions
    ensures After(Disputed(db, references), db).actions == db.actions
  {
    hide BoundSession;
  }

  lemma PaymentActions(db: Db, now: int, id: Id, e: SessionEvent, a: Id)
    requires a in db.actions && id !in db.actions
    ensures var after := After(SessionPaid(db, now, id, e), db); a in after.actions && after.actions[a] == db.actions[a]
  {
    Unchanged(SessionPaid(db, now, id, e), db);
    if SessionPaid(db, now, id, e).Commit? {
      SessionPaidCases(db, now, id, e);
      SettledRows(db, now, id, e);
    }
    hide SessionPaid, Settle, Payable, UsedReference, BoundSession, CompletedAttempts, After;
  }

  lemma TerminalActions(db: Db, now: int, id: Id, q: TerminalPayment)
    ensures After(PayTerminal(db, now, id, q), db).actions == db.actions
  {
    Unchanged(PayTerminal(db, now, id, q), db);
    hide Clean, Lengthen, StartLease, ReviewPayment, LinkedLease, Vacant, ReservedAgainst, PayTerminal, After;
    if PayTerminal(db, now, id, q).Commit? {
      if (q.terminal, q.event) in db.receipts {
        PayReplay(db, now, id, q);
      } else {
        PayForm(db, now, id, q);
        var listing := db.terminals[q.terminal];
        var clean := Clean(db, now, listing);
        var after := PayTerminal(db, now, id, q).db;
        CleanKeys(db, now, listing);
        if r, weeks :| r in clean.rentals && clean.rentals[r].status == Active && weeks >= 1 && after == Lengthen(clean, now, id, q, r, weeks) {
          LengthenActions(clean, now, id, q, r, weeks);
        } else if user, weeks :| weeks >= 1 && user in db.users && Vacant(clean.rentals, listing)
                                 && after == StartLease(clean, now, id, q, listing, user, weeks) {
          StartActions(clean, now, id, q, listing, user, weeks);
        } else {
          var expected :| after == ReviewPayment(clean, now, id, q, listing, expected);
          ReviewActions(clean, now, id, q, listing, expected);
        }
      }
    }
  }

  lemma LengthenActions(db: Db, now: int, id: Id, q: TerminalPayment, r: Id, weeks: int)
    requires r in db.rentals && weeks >= 0
    ensures Lengthen(db, now, id, q, r, weeks).actions == db.actions
  {
  }

  lemma StartActions(db: Db, now: int, id: Id, q: TerminalPayment, listing: Id, user: Id, weeks: int)
    requires weeks >= 0
    ensures StartLease(db, now, id, q, listing, user, weeks).actions == db.actions
  {
    hide Promote, RedeemReservations;
  }

  lemma ReviewActions(db: Db, now: int, id: Id, q: TerminalPayment, listing: Id, expected: int)
    ensures ReviewPayment(db, now, id, q, listing, expected).actions == db.actions
  {
  }

  /** An action turns SUCCEEDED only in a transaction that leaves its payment REFUNDED. */
  lemma SucceededOnlyWhenRefunded(db: Db, now: int, step: Step, a: Id)
    requires Enabled(db, step) && a in db.actions && db.actions[a].state != Succeeded
    ensures var after := Apply(db, now, step);
            a in after.actions && after.actions[a].state == Succeeded ==>
              db.actions[a].payment in after.payments && after.payments[db.actions[a].payment].status == Refunded
  {
    hide ApplyCheckout, ApplyDesk, EnabledCheckout, EnabledDesk, After, SessionExpired, SessionPaid, RefundReported, Disputed, PayTerminal;
    hide ClaimRefund, CompleteRefund, FailRefund, RetryRefund, ResolveRefund, Taken, Authentic;
    match step
    case AtCheckout(s) => CheckoutActions(db, now, s);
    case AtDesk(s) => DeskActions(db, now, s);
    case OfMoney(s) =>
      match s {
        case StripeExpired(e) => NoticeActions(db, e, {});
        case StripePaid(id, e) => PaymentActions(db, now, id, e, a);
        case StripeRefund(found, e) => RefundsMark(db, found, e, a);
        case StripeDispute(references) => NoticeActions(db, SessionEvent(0, 0, 0, 0, Linden(0)), references);
        case TerminalPays(id, q) => TerminalActions(db, now, id, q);
        case WorkerClaims(b) => ClaimsNeverSucceed(db, now, b, a);
        case WorkerCompletes(c, succeeded) => WorkersMark(db, now, c, succeeded, a);
        case WorkerFails(b) => FailuresNeverSucceed(db, now, b, a);
        case OperatorRetries(b) => RetriesNeverSucceed(db, now, b, a);
        case OperatorResolves(b) => ResolutionsNeverSucceed(db, now, b, a);
      }
  }

  // ---------- holds under a clock that never goes back ----------

  /** Whatever ran in between: in an ordered run, a hold that has not run out has exactly one invoice, which is open, and
      settling it with its exact amount under a new reference succeeds. */
  lemma HoldStaysPayable(db: Db, clock: int, moments: seq<Moment>, now: int, r: Id, id: Id, reference: Reference)
    requires Inv(db) && Live(db, clock) && Runnable(db, moments) && Ordered(clock, moments)
    requires LastNow(clock, moments) <= now
    requires var end := Run(db, moments); RunningHold(end.rentals, now, r) && Fresh(end, id) && !UsedReference(end.payments, reference)
    ensures var end := Run(db, moments);
            && r in end.invoices && end.invoices[r].rental == Some(r) && end.invoices[r].status == Open
            && (forall i | i in end.invoices && end.invoices[i].rental == Some(r) :: i == r)
            && Settle(end, now, id, r, reference, end.invoices[r].amount).Commit?
  {
    var end := Run(db, moments);
    RunLives(db, clock, moments);
    hide Inv, Live, Run, Runnable, Ordered, LastNow, Fresh, UsedReference, Settle;
    TimePasses(end, LastNow(clock, moments), now);
    RunningHoldSettles(end, now, r, id, reference);
  }

  /** In an ordered run every running hold and lease belongs to an active resident, renter or administrator. */
  lemma OwnersStayEligible(db: Db, clock: int, moments: seq<Moment>, now: int)
    requires Inv(db) && Live(db, clock) && Runnable(db, moments) && Ordered(clock, moments)
    requires LastNow(clock, moments) <= now
    ensures var end := Run(db, moments);
            forall r | r in end.rentals && IsLive(end.rentals[r]) && end.rentals[r].endsAt > now :: Eligible(end.users, end.rentals[r].user)
  {
    var end := Run(db, moments);
    RunLives(db, clock, moments);
    hide Inv, Run, Runnable, Ordered, LastNow;
    TimePasses(end, LastNow(clock, moments), now);
  }

  lemma InitialLives(db: Db, now: int)
    requires Initial(db)
    ensures Inv(db) && Live(db, now)
  {
    InitialInv(db);
    hide Inv;
  }

  // ---------- indexes that never refuse ----------

  /** Once its query finds the listing available, createCheckoutHold never violates one_live_rental. */
  lemma HoldNeverCollides(db: Db, now: int, id: Id, listing: Id, user: Id)
    requires Fresh(db, id) && !Occupied(db.rentals, now, listing)
    ensures ListingFree(Clean(db, now, listing).rentals, id, Rental(listing, user, Pending, now, now + HOLD_SECONDS))
  {
    CleanVacates(db, now, listing);
    hide Clean;
  }

  /** An administrator's activation does not clean the listing first: with no running lease there, one_live_rental refuses
      its rental exactly when a hold or a lapsed lease is still marked live. */
  lemma ActivationCollidesIff(db: Db, now: int, id: Id, listing: Id, user: Id, weeks: int)
    requires Fresh(db, id) && !Reconciliation.RunningLease(db.rentals, now, listing)
    ensures ListingFree(db.rentals, id, Rental(listing, user, Active, now, now + weeks * WEEK))
            <==> !exists r :: r in db.rentals && db.rentals[r].listing == listing
                              && (db.rentals[r].status == Pending || (db.rentals[r].status == Active && db.rentals[r].endsAt <= now))
  {
    if r :| r in db.rentals && IsLive(db.rentals[r]) && db.rentals[r].listing == listing {
      assert !LeaseOn(db.rentals, now, listing, r);
    }
  }

  // ---------- attempts ----------

  /** A request for the same target finds the attempt it was given before, as long as that is open and its rental runs. */
  lemma AcquireAgain(db: Db, now: int, id: Id, target: Target, user: Id, attempt: Id)
    requires Inv(db) && ExistingRow(db, now, target, user, attempt)
    ensures Acquire(db, now, id, target, user) == Commit(db, HoldOf(db, attempt))
  {
    CheckoutRoute.ExistingUnique(db, now, target, user, attempt, OpenAttempt(db, now, target, user));
    hide Inv;
  }

  /** The attempt that was just acquired is the one to be found again until its rental runs out. */
  lemma AcquiredIsFound(db: Db, now: int, id: Id, target: Target, user: Id, later: int)
    requires Inv(db) && Fresh(db, id) && Acquire(db, now, id, target, user).Commit?
    requires var acquired := Acquire(db, now, id, target, user);
             acquired.value.rental in acquired.db.rentals && later < acquired.db.rentals[acquired.value.rental].endsAt
    ensures var acquired := Acquire(db, now, id, target, user);
            Acquire(acquired.db, later, id + 1, target, user) == Commit(acquired.db, acquired.value)
  {
    hide Inv, Acquire, Evolves, Keeps, Fresh;
    var acquired := Acquire(db, now, id, target, user);
    AcquireKeeps(db, now, id, target, user);
    Unchanged(acquired, db);
    Kept(db, acquired.db);
    if exists a :: ExistingRow(db, now, target, user, a) {
      var a := OpenAttempt(db, now, target, user);
      AcquireAgain(db, now, id, target, user, a);
      assert ExistingRow(db, later, target, user, a);
      AcquireAgain(db, later, id + 1, target, user, a);
    } else {
      NewlyAcquired(db, now, id, target, user, later);
      AcquireAgain(acquired.db, later, id + 1, target, user, id);
    }
  }

  lemma NewlyAcquired(db: Db, now: int, id: Id, target: Target, user: Id, later: int)
    requires Inv(db) && Fresh(db, id) && Acquire(db, now, id, target, user).Commit? && !exists a :: ExistingRow(db, now, target, user, a)
    requires var acquired := Acquire(db, now, id, target, user);
             acquired.value.rental in acquired.db.rentals && later < acquired.db.rentals[acquired.value.rental].endsAt
    ensures var acquired := Acquire(db, now, id, target, user);
            ExistingRow(acquired.db, later, target, user, id) && acquired.value == HoldOf(acquired.db, id)
  {
    hide Inv, EndLapsed, CancelOverdue, ExpireOverdueAttempts, VoidOverdueInvoices, LapseReservations, Occupied, ReservedAgainst;
  }

  // ---------- what requests and workers carry ----------

  /** A hold handed to a request is recorded, and every later run keeps it so: `Enabled` asks for no more than the
      program provides. */
  lemma AcquiredIsRecorded(db: Db, now: int, id: Id, target: Target, user: Id)
    requires Inv(db) && Fresh(db, id) && Acquire(db, now, id, target, user).Commit?
    ensures var acquired := Acquire(db, now, id, target, user); Recorded(acquired.db, acquired.value, user)
  {
    hide Inv, Acquire, Evolves, Keeps, Fresh, ExistingRow, Recorded;
    var acquired := Acquire(db, now, id, target, user);
    AcquireKeeps(db, now, id, target, user);
    Unchanged(acquired, db);
    Kept(db, acquired.db);
    if exists a :: ExistingRow(db, now, target, user, a) {
      AcquireAgain(db, now, id, target, user, OpenAttempt(db, now, target, user));
      FoundIsRecorded(db, now, target, user, OpenAttempt(db, now, target, user));
    } else {
      RunsNow(db, now, id, target, user);
      NewlyAcquired(db, now, id, target, user, now);
      FoundIsRecorded(acquired.db, now, target, user, id);
    }
  }

  lemma RunsNow(db: Db, now: int, id: Id, target: Target, user: Id)
    requires Fresh(db, id) && Acquire(db, now, id, target, user).Commit? && !exists a :: ExistingRow(db, now, target, user, a)
    ensures var acquired := Acquire(db, now, id, target, user);
            acquired.value.rental in acquired.db.rentals && now < acquired.db.rentals[acquired.value.rental].endsAt
  {
    hide EndLapsed, CancelOverdue, ExpireOverdueAttempts, VoidOverdueInvoices, LapseReservations, Occupied, ReservedAgainst;
  }

  lemma FoundIsRecorded(db: Db, now: int, target: Target, user: Id, a: Id)
    requires Inv(db) && ExistingRow(db, now, target, user, a)
    ensures Recorded(db, HoldOf(db, a), user)
  {
    assert InvoicesBound(db.rentals, db.invoices) by {
      hide *;
      Parts(db);
    }
    hide Inv;
  }

  lemma RecordedInRuns(db: Db, moments: seq<Moment>, hold: Hold, user: Id)
    requires Inv(db) && Runnable(db, moments) && Recorded(db, hold, user)
    ensures Recorded(Run(db, moments), hold, user)
  {
    RunKeeps(db, moments);
    Kept(db, Run(db, moments));
    hide Inv, Run, Runnable, Keeps, Evolves, Recorded;
    RecordedStays(db, Run(db, moments), hold, user);
  }

  /** A claim handed to a worker names the action's own payment, intent, amount and key, after every later run too. */
  lemma ClaimIsTaken(db: Db, now: int, action: Id)
    ensures var claimed := ClaimRefund(db, now, action);
            claimed.Commit? && claimed.value.Some? ==> claimed.value.value.action == action && Taken(claimed.db, claimed.value.value)
  {
    ClaimForm(db, now, action);
    hide Due, ClaimRefund, After;
  }

  lemma TakenStays(db: Db, after: Db, c: Claim)
    requires Evolves(db, after) && Taken(db, c)
    ensures Taken(after, c)
  {
    hide RentalsKept, InvoicesKept, AttemptsKept, PaymentsKept, ReceiptsKept, Extends;
  }

  // ---------- bills and attempts over runs ----------

  ghost predicate InvoicesFinal(before: map<Id, Invoice>, after: map<Id, Invoice>) {
    forall i | i in before ::
      && i in after && after[i].amount == before[i].amount && after[i].user == before[i].user
      && (before[i].status != Open ==> after[i].status == before[i].status)
      && (before[i].rental.Some? ==> after[i].rental == before[i].rental)
  }

  ghost predicate AttemptsFinal(before: map<Id, Attempt>, after: map<Id, Attempt>) {
    forall a | a in before ::
      a in after && after[a].invoice == before[a].invoice && (!LiveAttempt(before[a]) ==> after[a].status == before[a].status)
  }

  lemma EvolvingBills(db: Db, after: Db)
    requires Evolves(db, after)
    ensures InvoicesFinal(db.invoices, after.invoices) && AttemptsFinal(db.attempts, after.attempts)
  {
    hide RentalsKept, PaymentsKept, ActionsKept, ReceiptsKept, Extends;
  }

  /** PAID and VOID are final, and so are COMPLETED and EXPIRED; whatever is asked for stays asked of the same user for
      the same amount. */
  lemma BillsAreFinal(db: Db, moments: seq<Moment>)
    requires Inv(db) && Runnable(db, moments)
    ensures InvoicesFinal(db.invoices, Run(db, moments).invoices) && AttemptsFinal(db.attempts, Run(db, moments).attempts)
  {
    hide *;
    RunKeeps(db, moments);
    Kept(db, Run(db, moments));
    EvolvingBills(db, Run(db, moments));
  }

  /** In every reachable state: a PAID invoice's attempt is COMPLETED, an invoice has at most one CONFIRMED payment and
      is then PAID, and a rental has at most one live attempt on an open invoice. */
  lemma BillsAgree(db: Db, moments: seq<Moment>)
    requires Inv(db) && Runnable(db, moments)
    ensures var end := Run(db, moments);
            && (forall a | a in end.attempts && end.attempts[a].invoice in end.invoices && end.invoices[end.attempts[a].invoice].status == Paid ::
                  end.attempts[a].status == Completed)
            && (forall p, q | p in end.payments && q in end.payments && end.payments[p].status == Confirmed && end.payments[q].status == Confirmed
                              && end.payments[p].invoice == end.payments[q].invoice :: p == q)
            && (forall p | p in end.payments && end.payments[p].status == Confirmed ::
                  end.payments[p].invoice in end.invoices && end.invoices[end.payments[p].invoice].status == Paid)
            && (forall a, b, r | AsksFor(end.invoices, end.attempts, a, r) && AsksFor(end.invoices, end.attempts, b, r) :: a == b)
  {
    RunKeeps(db, moments);
    Kept(db, Run(db, moments));
    Parts(Run(db, moments));
    hide Inv, Run, Runnable, Keeps, Evolves, AsksFor;
  }

  /** In every reachable state a listing has at most one PENDING or ACTIVE rental and one ACTIVE reservation; beside an
      ACTIVE reservation there is no ACTIVE rental, and a PENDING one only of the reservation's target. */
  lemma OneTenantAtATime(db: Db, moments: seq<Moment>)
    requires Inv(db) && Runnable(db, moments)
    ensures var end := Run(db, moments);
            && (forall a, b | a in end.rentals && b in end.rentals && IsLive(end.rentals[a]) && IsLive(end.rentals[b])
                              && end.rentals[a].listing == end.rentals[b].listing :: a == b)
            && (forall v, w | v in end.reservations && w in end.reservations && end.reservations[v].status == Reserved
                              && end.reservations[w].status == Reserved && end.reservations[v].listing == end.reservations[w].listing :: v == w)
            && (forall r, v | r in end.rentals && v in end.reservations && IsLive(end.rentals[r]) && end.reservations[v].status == Reserved
                              && end.rentals[r].listing == end.reservations[v].listing ::
                  end.rentals[r].status == Pending && end.reservations[v].target == end.rentals[r].user)
  {
    RunKeeps(db, moments);
    Kept(db, Run(db, moments));
    Parts(Run(db, moments));
    hide Inv, Run, Runnable, Keeps, Evolves;
  }

  // ---------- terminal events ----------

  /** After any run, a terminal event has at most one payment and at most one credit, its record shows that payment's
      status, and sending it again changes nothing. */
  lemma EventCreditedOnce(db: Db, moments: seq<Moment>, terminal: Id, event: Id, now: int, id: Id, q: TerminalPayment)
    requires Inv(db) && Runnable(db, moments) && q.terminal == terminal && q.event == event
    ensures var end := Run(db, moments);
            && (forall p, r | p in end.payments && r in end.payments && end.payments[p].reference == ByTerminal(terminal, event)
                              && end.payments[r].reference == ByTerminal(terminal, event) :: p == r)
            && (forall p | p in end.payments && end.payments[p].reference == ByTerminal(terminal, event) ::
                  Credits(end.ledger, p) <= 1 && (terminal, event) in end.receipts
                  && end.receipts[(terminal, event)].payment == Some(p) && end.receipts[(terminal, event)].status == end.payments[p].status)
            && ((terminal, event) in end.receipts ==> After(PayTerminal(end, now, id, q), end) == end)
  {
    var end := Run(db, moments);
    RunKeeps(db, moments);
    Kept(db, end);
    Parts(end);
    hide Inv, Run, Runnable, Keeps, Evolves, PayTerminal, After;
    if (terminal, event) in end.receipts {
      PayReplay(end, now, id, q);
    }
  }

  /** Once recorded, an event stays recorded, with the same payer, amount and body. */
  lemma EventStaysRecorded(db: Db, moments: seq<Moment>, terminal: Id, event: Id)
    requires Inv(db) && Runnable(db, moments) && (terminal, event) in db.receipts
    ensures var end := Run(db, moments);
            && (terminal, event) in end.receipts && end.receipts[(terminal, event)].payer == db.receipts[(terminal, event)].payer
            && end.receipts[(terminal, event)].amount == db.receipts[(terminal, event)].amount
            && end.receipts[(terminal, event)].body == db.receipts[(terminal, event)].body
  {
    RunKeeps(db, moments);
    Kept(db, Run(db, moments));
    hide Inv, Run, Runnable, Keeps, RentalsKept, InvoicesKept, AttemptsKept, PaymentsKept, ActionsKept, Extends;
  }

  // ---------- activation ----------

  /** No invoice is PAID without being bound to a rental. */
  ghost predicate PaidBound(invoices: map<Id, Invoice>) {
    forall i | i in invoices && invoices[i].status == Paid :: invoices[i].rental.Some?
  }

  lemma VoidingBound(invoices: map<Id, Invoice>, rentals: map<Id, Rental>, now: int, scope: Option<Id>)
    requires PaidBound(invoices)
    ensures PaidBound(VoidOverdueInvoices(invoices, rentals, now, scope))
  {
  }

  lemma RowBound(invoices: map<Id, Invoice>, i: Id, row: Invoice)
    requires PaidBound(invoices) && (row.status == Paid ==> row.rental.Some?)
    ensures PaidBound(invoices[i := row])
  {
  }

  lemma BeginBound(db: Db, now: int, id: Id, target: Target, user: Id)
    requires PaidBound(db.invoices)
    ensures PaidBound(After(BeginAttempt(OpenTarget(db, now, id, target, user), id), db).invoices)
  {
    if OpenTarget(db, now, id, target, user).Commit? {
      var begun := OpenTarget(db, now, id, target, user).db;
      match target
      case OfListing(listing) =>
        VoidingBound(db.invoices, db.rentals, now, Some(listing));
        RowBound(VoidOverdueInvoices(db.invoices, db.rentals, now, Some(listing)), id, begun.invoices[id]);
      case OfRental(_) => RowBound(db.invoices, id, begun.invoices[id]);
    }
    hide PaidBound, CancelOverdue, EndLapsed, ExpireOverdueAttempts, VoidOverdueInvoices, LapseReservations, HoldOf, Occupied;
    hide ReservedAgainst;
  }

  lemma SettleBound(db: Db, now: int, id: Id, invoice: Id, reference: Reference, amount: Amount)
    requires PaidBound(db.invoices)
    ensures PaidBound(After(Settle(db, now, id, invoice, reference, amount), db).invoices)
  {
    var after := After(Settle(db, now, id, invoice, reference, amount), db);
    if after != db {
      RowBound(db.invoices, invoice, after.invoices[invoice]);
    }
    hide PaidBound, RedeemReservations, Promote, PaidWeek, UsedReference;
  }

  lemma SessionBound(db: Db, now: int, id: Id, e: SessionEvent)
    requires PaidBound(db.invoices)
    ensures PaidBound(After(SessionPaid(db, now, id, e), db).invoices)
  {
    hide *;
    Unchanged(SessionPaid(db, now, id, e), db);
    if SessionPaid(db, now, id, e).Commit? {
      SessionPaidCases(db, now, id, e);
      SettleBound(db, now, id, e.invoice, ByIntent(e.intent), e.amount);
      Unchanged(Settle(db, now, id, e.invoice, ByIntent(e.intent), e.amount), db);
    }
  }

  lemma ExpiryBound(db: Db, e: SessionEvent)
    requires PaidBound(db.invoices)
    ensures PaidBound(After(SessionExpired(db, e), db).invoices)
  {
    var after := After(SessionExpired(db, e), db);
    if after.invoices != db.invoices {
      RowBound(db.invoices, e.invoice, after.invoices[e.invoice]);
    }
    hide PaidBound;
  }

  lemma LeasePaymentBound(db: Db, now: int, id: Id, q: TerminalPayment, r: Id, weeks: int)
    requires PaidBound(db.invoices) && r in db.rentals && weeks >= 0
    ensures PaidBound(Lengthen(db, now, id, q, r, weeks).invoices)
  {
    RowBound(db.invoices, id, Lengthen(db, now, id, q, r, weeks).invoices[id]);
  }

  lemma StartPaymentBound(db: Db, now: int, id: Id, q: TerminalPayment, listing: Id, user: Id, weeks: int)
    requires PaidBound(db.invoices) && weeks >= 0
    ensures PaidBound(StartLease(db, now, id, q, listing, user, weeks).invoices)
  {
    RowBound(db.invoices, id, StartLease(db, now, id, q, listing, user, weeks).invoices[id]);
    hide RedeemReservations, Promote;
  }

  lemma ReviewPaymentBound(db: Db, now: int, id: Id, q: TerminalPayment, listing: Id, expected: int)
    requires PaidBound(db.invoices)
    ensures PaidBound(ReviewPayment(db, now, id, q, listing, expected).invoices)
  {
  }

  lemma CleanBound(db: Db, now: int, listing: Id)
    requires PaidBound(db.invoices)
    ensures PaidBound(Clean(db, now, listing).invoices)
  {
    VoidingBound(db.invoices, db.rentals, now, Some(listing));
    hide PaidBound, EndLapsed, CancelOverdue, ExpireOverdueAttempts, VoidOverdueInvoices, LapseReservations;
  }

  lemma TerminalBound(db: Db, now: int, id: Id, q: TerminalPayment)
    requires PaidBound(db.invoices)
    ensures PaidBound(After(PayTerminal(db, now, id, q), db).invoices)
  {
    hide *;
    Unchanged(PayTerminal(db, now, id, q), db);
    if PayTerminal(db, now, id, q).Commit? {
      if (q.terminal, q.event) in db.receipts {
        PayReplay(db, now, id, q);
      } else {
        PayForm(db, now, id, q);
        var listing := db.terminals[q.terminal];
        var clean := Clean(db, now, listing);
        var after := PayTerminal(db, now, id, q).db;
        CleanBound(db, now, listing);
        if r, weeks :| r in clean.rentals && clean.rentals[r].status == Active && weeks >= 1 && after == Lengthen(clean, now, id, q, r, weeks) {
          LeasePaymentBound(clean, now, id, q, r, weeks);
        } else if user, weeks :| weeks >= 1 && user in db.users && Vacant(clean.rentals, listing)
                                 && after == StartLease(clean, now, id, q, listing, user, weeks) {
          StartPaymentBound(clean, now, id, q, listing, user, weeks);
        } else {
          var expected :| after == ReviewPayment(clean, now, id, q, listing, expected);
          ReviewPaymentBound(clean, now, id, q, listing, expected);
        }
      }
    }
  }

  lemma SimulationBound(db: Db, now: int, id: Id, hold: Hold)
    requires PaidBound(db.invoices)
    ensures PaidBound(After(SettleSimulated(db, now, id, hold), db).invoices)
  {
    SettleBound(db, now, id, hold.invoice, BySimulation(hold.attempt), Minor(hold.amount, hold.currency));
    hide PaidBound, Settle;
  }

  lemma CheckoutBound(db: Db, now: int, step: CheckoutStep)
    requires PaidBound(db.invoices)
    ensures PaidBound(ApplyCheckout(db, now, step).invoices)
  {
    hide PaidBound, CancelOverdue, EndLapsed, ExpireOverdueAttempts, VoidOverdueInvoices, LapseReservations, RedeemReservations, LapseOverdue;
    hide Occupied, ReservedAgainst, IsReserved, Verified, IsReplay, ExistingRow, Offered, Eligible, HoldOf, OpenTarget;
    hide BeginAttempt, GiveUp, SettleSimulated;
    match step
    case CleanUp(scope) => VoidingBound(db.invoices, db.rentals, now, scope);
    case AcquireAttempt(id, target, user) => BeginBound(db, now, id, target, user);
    case ReplaceExpired(id, hold, user) =>
      if Replace(db, now, id, hold, user).Commit? {
        GiveUpBound(db, hold);
        BeginBound(GiveUp(db, hold), now, id, if hold.renewal then OfRental(hold.rental) else OfListing(hold.listing), user);
      }
    case Simulate(id, hold, user) => SimulationBound(db, now, id, hold);
    case MakeReservation(wall, id, actor, q) => VoidingBound(db.invoices, db.rentals, now, Some(q.listing));
    case _ =>
  }

  lemma GiveUpBound(db: Db, hold: Hold)
    requires PaidBound(db.invoices) && hold.attempt in db.attempts && hold.invoice in db.invoices
    requires (hold.renewal || hold.rental in db.rentals)
    ensures PaidBound(GiveUp(db, hold).invoices)
  {
    RowBound(db.invoices, hold.invoice, GiveUp(db, hold).invoices[hold.invoice]);
    hide PaidBound;
  }

  lemma StartApprovalBound(db: Db, now: int, id: Id, payment: Id)
    requires PaidBound(db.invoices)
    ensures PaidBound(After(ApproveStart(db, now, id, payment), db).invoices)
  {
    if ApproveStart(db, now, id, payment).Commit? {
      Reconciled(db, payment);
      var invoice := db.payments[payment].invoice;
      var listing := db.invoices[invoice].listing;
      CleanBound(db, now, listing);
      RowBound(Clean(db, now, listing).invoices, invoice, ApproveStart(db, now, id, payment).db.invoices[invoice]);
    }
    hide Clean, PaidBound, RedeemReservations, SettleReceipts, Promote, Vacant, ReservedAgainst, Eligible, Reviewable;
  }

  lemma Reconciled(db: Db, payment: Id)
    ensures Reviewable(db, payment) ==> payment in db.payments && db.payments[payment].invoice in db.invoices
  {
  }

  lemma ExtensionApprovalBound(db: Db, now: int, payment: Id)
    requires PaidBound(db.invoices)
    ensures PaidBound(After(ApproveExtension(db, now, payment), db).invoices)
  {
    if ApproveExtension(db, now, payment).Commit? {
      Reconciled(db, payment);
      var invoice := db.payments[payment].invoice;
      RowBound(db.invoices, invoice, ApproveExtension(db, now, payment).db.invoices[invoice]);
    }
    hide PaidBound, LapseReservations, SettleReceipts, Promote, Eligible, OwnLease, Reviewable;
  }

  lemma RejectionBound(db: Db, payment: Id)
    requires PaidBound(db.invoices)
    ensures PaidBound(After(RejectPayment(db, payment), db).invoices)
  {
    if RejectPayment(db, payment).Commit? {
      Reconciled(db, payment);
      var invoice := db.payments[payment].invoice;
      RowBound(db.invoices, invoice, RejectPayment(db, payment).db.invoices[invoice]);
    }
    hide PaidBound, SettleReceipts, Reviewable;
  }

  lemma IdentityBound(db: Db, now: int, id: Id, terminal: Id, event: Id)
    requires PaidBound(db.invoices)
    ensures PaidBound(After(ResolveIdentity(db, now, id, terminal, event), db).invoices)
  {
    if ResolveIdentity(db, now, id, terminal, event).Commit? {
      RowBound(db.invoices, id, ResolveIdentity(db, now, id, terminal, event).db.invoices[id]);
    }
    hide PaidBound;
  }

  /** Where every PAID invoice is bound, an activation finds none to activate. */
  lemma NothingToActivate(db: Db, now: int, id: Id, invoice: Id, weeks: int)
    requires PaidBound(db.invoices)
    ensures Activate(db, now, id, invoice, weeks).Rollback?
  {
    hide Vacant, ReservedAgainst, RedeemReservations, Promote;
  }

  lemma DeskBound(db: Db, now: int, step: DeskStep)
    requires PaidBound(db.invoices)
    ensures PaidBound(ApplyDesk(db, now, step).invoices)
  {
    hide PaidBound, ApproveStart, ApproveExtension, RejectPayment, ResolveIdentity, Activate, Reviewable, Unlinked, RentsNow;
    hide ActiveAdministrators;
    match step
    case ApproveAsStart(id, p) => StartApprovalBound(db, now, id, p);
    case ApproveAsExtension(p) => ExtensionApprovalBound(db, now, p);
    case Reject(p) => RejectionBound(db, p);
    case NamePayer(id, t, e) => IdentityBound(db, now, id, t, e);
    case AdminActivate(id, i, weeks) => NothingToActivate(db, now, id, i, weeks);
    case _ =>
  }

  lemma NoticeInvoices(db: Db, found: Option<Id>, r: RefundEvent, references: set<Id>)
    ensures After(RefundReported(db, found, r), db).invoices == db.invoices
    ensures After(Disputed(db, references), db).invoices == db.invoices
  {
    hide RecordRefund, MarkActions, CumulativeRefund, RefundDisposition;
  }

  lemma ClaimInvoices(db: Db, now: int, action: Id)
    ensures After(ClaimRefund(db, now, action), db).invoices == db.invoices
  {
    ClaimForm(db, now, action);
    hide Due, ClaimedRow, ClaimOn, ClaimRefund, After;
  }

  lemma WorkInvoices(db: Db, now: int, c: Claim, succeeded: bool)
    ensures After(CompleteRefund(db, now, c, succeeded), db).invoices == db.invoices
    ensures After(FailRefund(db, now, c.action), db).invoices == db.invoices
  {
  }

  lemma OperatorInvoices(db: Db, now: int, action: Id)
    ensures After(RetryRefund(db, now, action), db).invoices == db.invoices
    ensures After(ResolveRefund(db, action), db).invoices == db.invoices
  {
  }

  lemma MoneyBound(db: Db, now: int, step: MoneyStep)
    requires PaidBound(db.invoices)
    ensures PaidBound(ApplyMoney(db, now, step).invoices)
  {
    hide After, PaidBound, SessionExpired, SessionPaid, RefundReported, Disputed, PayTerminal;
    hide ClaimRefund, CompleteRefund, FailRefund, RetryRefund, ResolveRefund;
    match step
    case StripePaid(id, e) => SessionBound(db, now, id, e);
    case TerminalPays(id, q) => TerminalBound(db, now, id, q);
    case StripeExpired(e) => ExpiryBound(db, e);
    case StripeRefund(found, r) => NoticeInvoices(db, found, r, {});
    case StripeDispute(references) => NoticeInvoices(db, None, ChargeRefunded(0, RefundSucceeded), references);
    case WorkerClaims(a) => ClaimInvoices(db, now, a);
    case WorkerCompletes(c, succeeded) => WorkInvoices(db, now, c, succeeded);
    case WorkerFails(a) => WorkInvoices(db, now, Claim(a, 0, 0, 0, 0), true);
    case OperatorRetries(a) => OperatorInvoices(db, now, a);
    case OperatorResolves(a) => OperatorInvoices(db, now, a);
  }

  lemma StepBound(db: Db, now: int, step: Step)
    requires PaidBound(db.invoices)
    ensures PaidBound(Apply(db, now, step).invoices)
  {
    hide PaidBound, ApplyCheckout, ApplyMoney, ApplyDesk;
    match step
    case AtCheckout(s) => CheckoutBound(db, now, s);
    case OfMoney(s) => MoneyBound(db, now, s);
    case AtDesk(s) => DeskBound(db, now, s);
  }

  lemma {:induction false} RunBound(db: Db, moments: seq<Moment>)
    requires PaidBound(db.invoices)
    ensures PaidBound(Run(db, moments).invoices)
    decreases |moments|
  {
    hide PaidBound, Apply;
    if moments != [] {
      StepBound(db, moments[0].now, moments[0].step);
      RunBound(Apply(db, moments[0].now, moments[0].step), moments[1..]);
    }
  }

  /** In a database that started empty no activation ever succeeds: every path that marks an invoice PAID binds it to a
      rental in the same transaction. */
  lemma ActivationNeverSucceeds(db: Db, moments: seq<Moment>, now: int, id: Id, invoice: Id, weeks: int)
    requires Initial(db)
    ensures Activate(Run(db, moments), now, id, invoice, weeks).Rollback?
  {
    hide Run, Activate;
    RunBound(db, moments);
    NothingToActivate(Run(db, moments), now, id, invoice, weeks);
  }
}
