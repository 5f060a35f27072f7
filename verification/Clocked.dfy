/** What holds of running rentals when the clock never goes back: their owners may rent, and every
    running hold has its one invoice open and unpaid. */
module Clocked {
  import opened Tables
  import opened Allocation
  import opened Invariants
  import opened Evolution
  import opened Subsiding
  import opened Crediting
  import Growing
  import opened Transactions

  ghost predicate OwnersEligible(users: map<Id, User>, rentals: map<Id, Rental>, now: int) {
    forall r | r in rentals && IsLive(rentals[r]) && rentals[r].endsAt > now :: Eligible(users, rentals[r].user)
  }

  predicate RunningHold(rentals: map<Id, Rental>, now: int, r: Id) {
    r in rentals && rentals[r].status == Pending && rentals[r].endsAt > now
  }

  ghost predicate HoldsOpen(rentals: map<Id, Rental>, invoices: map<Id, Invoice>, now: int) {
    forall r | RunningHold(rentals, now, r) && r in invoices :: invoices[r].status == Open
  }

  ghost predicate HoldsUnpaid(rentals: map<Id, Rental>, payments: map<Id, Payment>, now: int) {
    forall r, p | RunningHold(rentals, now, r) && p in payments :: payments[p].invoice != r
  }

  ghost predicate Live(db: Db, now: int) {
    OwnersEligible(db.users, db.rentals, now) && HoldsOpen(db.rentals, db.invoices, now) && HoldsUnpaid(db.rentals, db.payments, now)
  }

  lemma TimePasses(db: Db, clock: int, now: int)
    requires Live(db, clock) && clock <= now
    ensures Live(db, now)
  {
    assert forall r :: RunningHold(db.rentals, now, r) ==> RunningHold(db.rentals, clock, r);
  }

  // ---------- single moves ----------

  lemma RetiringLives(users: map<Id, User>, rs: map<Id, Rental>, ss: map<Id, Rental>, bs: map<Id, Invoice>, ps: map<Id, Payment>, now: int)
    requires RentalsRetire(rs, ss)
    requires OwnersEligible(users, rs, now) && HoldsOpen(rs, bs, now) && HoldsUnpaid(rs, ps, now)
    ensures OwnersEligible(users, ss, now) && HoldsOpen(ss, bs, now) && HoldsUnpaid(ss, ps, now)
  {
    assert forall r :: RunningHold(ss, now, r) ==> RunningHold(rs, now, r);
  }

  lemma RestatingLives(rs: map<Id, Rental>, ps: map<Id, Payment>, qs: map<Id, Payment>, now: int)
    requires HoldsUnpaid(rs, ps, now) && qs.Keys == ps.Keys && forall p | p in ps :: qs[p].invoice == ps[p].invoice
    ensures HoldsUnpaid(rs, qs, now)
  {
  }

  ghost predicate StillEligible(users: map<Id, User>, more: map<Id, User>) {
    forall u | u in users && MayRent(users[u]) :: u in more && MayRent(more[u])
  }

  lemma PromotionKeepsEligible(users: map<Id, User>, user: Id)
    ensures StillEligible(users, Promote(users, user))
  {
  }

  lemma SweepLives(db: Db, now: int, scope: Option<Id>)
    requires Inv(db) && Live(db, now)
    ensures Live(Sweep(db, now, scope), now)
  {
    hide *;
    Split(db, now);
    Parts(db);
    SweptTables(db, now, scope);
    EndingRetires(db.rentals, now, scope);
    RetiringLives(db.users, db.rentals, Sweep(db, now, scope).rentals, db.invoices, db.payments, now);
    OverdueLives(db, now, scope);
    Join(Sweep(db, now, scope), now);
  }

  lemma Split(db: Db, now: int)
    requires Live(db, now)
    ensures OwnersEligible(db.users, db.rentals, now) && HoldsOpen(db.rentals, db.invoices, now) && HoldsUnpaid(db.rentals, db.payments, now)
  {
    hide OwnersEligible, HoldsOpen, HoldsUnpaid;
  }

  lemma Join(db: Db, now: int)
    requires OwnersEligible(db.users, db.rentals, now) && HoldsOpen(db.rentals, db.invoices, now)
    requires HoldsUnpaid(db.rentals, db.payments, now)
    ensures Live(db, now)
  {
    hide OwnersEligible, HoldsOpen, HoldsUnpaid;
  }

  /** Cleanup voids no invoice of a hold that still runs. */
  lemma OverdueLives(db: Db, now: int, scope: Option<Id>)
    requires HoldsBilled(db.rentals, db.invoices) && HoldsOpen(db.rentals, db.invoices, now)
    ensures HoldsOpen(CancelOverdue(EndLapsed(db.rentals, now, scope), now, scope),
                      VoidOverdueInvoices(db.invoices, db.rentals, now, scope), now)
  {
    hide AttemptsBound;
  }

  lemma CleanLives(db: Db, now: int, listing: Id)
    requires Inv(db) && Live(db, now)
    ensures Live(Clean(db, now, listing), now)
  {
    SweepLives(db, now, Some(listing));
    hide Sweep, Inv, OwnersEligible, HoldsOpen, HoldsUnpaid;
  }

  lemma PollLives(db: Db, now: int, listing: Id)
    requires Inv(db) && Live(db, now)
    ensures Live(Poll(db, now, listing), now)
  {
    hide *;
    Split(db, now);
    PollTables(db, now, listing);
    EndingRetires(db.rentals, now, Some(listing));
    RetiringLives(db.users, db.rentals, Poll(db, now, listing).rentals, db.invoices, db.payments, now);
    Join(Poll(db, now, listing), now);
  }

  /** A new hold of an eligible user, with its invoice. */
  lemma HoldLives(db: Db, now: int, id: Id, row: Rental, bill: Invoice)
    requires Live(db, now) && id !in db.rentals && id !in db.invoices && row.status == Pending
    requires Eligible(db.users, row.user) && bill.status == Open
    requires forall p | p in db.payments :: db.payments[p].invoice != id
    ensures Live(db.(rentals := db.rentals[id := row], invoices := db.invoices[id := bill]), now)
  {
    var rentals := db.rentals[id := row];
    assert forall r :: RunningHold(rentals, now, r) ==> r == id || RunningHold(db.rentals, now, r);
  }

  /** An invoice, with or without its payment, that belongs to no hold. */
  lemma BillLives(db: Db, now: int, id: Id, bill: Invoice, payments: map<Id, Payment>)
    requires Live(db, now) && id !in db.rentals
    requires forall p | p in payments :: payments[p].invoice == id || (p in db.payments && payments[p] == db.payments[p])
    ensures Live(db.(invoices := db.invoices[id := bill], payments := payments), now)
  {
  }

  lemma VoidLives(db: Db, now: int, rentals: map<Id, Rental>, invoice: Id)
    requires Live(db, now) && invoice in db.invoices && RentalsRetire(db.rentals, rentals)
    requires !RunningHold(rentals, now, invoice)
    ensures Live(db.(rentals := rentals, invoices := db.invoices[invoice := db.invoices[invoice].(status := Void)]), now)
  {
    RetiringLives(db.users, db.rentals, rentals, db.invoices, db.payments, now);
    hide RentalsRetire;
  }

  lemma UsersLive(db: Db, now: int, users: map<Id, User>)
    requires Live(db, now) && StillEligible(db.users, users)
    ensures Live(db.(users := users), now)
  {
  }

  /** A credit to an eligible owner. */
  lemma CreditLives(db: Db, now: int, c: Credit)
    requires Live(db, now) && Creditable(db, c) && Eligible(db.users, c.lease.user) && StillEligible(db.users, c.users)
    requires HoldsBilled(db.rentals, db.invoices) && InvoicesBound(db.rentals, db.invoices)
    requires c.invoice in db.invoices || c.invoice !in db.rentals
    ensures Live(Credited(db, c), now)
  {
    hide ReservationsRetire, Unreserved, CreditedReceipts, UsedReference, Vacant;
    var rentals := Credited(db, c).rentals;
    assert forall r :: RunningHold(rentals, now, r) ==> RunningHold(db.rentals, now, r) && r != c.rental;
    assert !RunningHold(rentals, now, c.invoice);
  }

  // ---------- transactions ----------

  lemma OpenHoldLives(db: Db, now: int, id: Id, listing: Id, user: Id)
    requires Inv(db) && Live(db, now) && Fresh(db, id)
    ensures Live(After(OpenHold(db, now, id, listing, user), db), now)
  {
    hide Inv, Live, Clean, OpenHold, Vacant, Fresh, Keeps, Evolves, PaymentsBound, HoldsBilled;
    Unchanged(OpenHold(db, now, id, listing, user), db);
    if OpenHold(db, now, id, listing, user).Commit? {
      var row, bill := HoldForm(db, now, id, listing, user);
      HoldOwner(db, now, id, listing, user);
      var clean := Clean(db, now, listing);
      CleanKeys(db, now, listing);
      CleanKeeps(db, now, listing);
      CleanLives(db, now, listing);
      Parts(clean);
      FreshRows(clean, id);
      Growing.NothingBilled(clean, id);
      HoldLives(clean, now, id, row, bill);
    }
  }

  lemma FreshRows(db: Db, id: Id)
    requires Fresh(db, id)
    ensures id !in db.rentals && id !in db.invoices && id !in db.payments && id !in db.actions && id !in db.users
  {
  }

  lemma HoldOwner(db: Db, now: int, id: Id, listing: Id, user: Id)
    requires OpenHold(db, now, id, listing, user).Commit?
    ensures Eligible(db.users, user) && id in OpenHold(db, now, id, listing, user).db.rentals
            && OpenHold(db, now, id, listing, user).db.rentals[id].user == user
  {
    hide Clean;
  }

  lemma OpenRenewalLives(db: Db, now: int, id: Id, rental: Id, user: Id)
    requires Inv(db) && Live(db, now) && Fresh(db, id)
    ensures Live(After(OpenRenewal(db, now, id, rental, user), db), now)
  {
    hide Inv, Live, OpenRenewal, Fresh, OwnersKnown, LapseReservations;
    Unchanged(OpenRenewal(db, now, id, rental, user), db);
    if OpenRenewal(db, now, id, rental, user).Commit? {
      Parts(db);
      FreshRows(db, id);
      var bill := RenewalForm(db, now, id, rental, user);
      BillLives(db, now, id, bill, db.payments);
      var billed := db.(invoices := db.invoices[id := bill], payments := db.payments);
      SameLives(billed, OpenRenewal(db, now, id, rental, user).db, now);
    }
  }

  /** Only users, rentals, invoices and payments matter. */
  lemma SameLives(db: Db, after: Db, now: int)
    requires Live(db, now) && after.users == db.users && after.rentals == db.rentals && after.invoices == db.invoices
    requires after.payments == db.payments
    ensures Live(after, now)
  {
    hide OwnersEligible, HoldsOpen, HoldsUnpaid;
  }

  lemma BeginLives(db: Db, now: int, id: Id, target: Target, user: Id)
    requires Inv(db) && Live(db, now) && Fresh(db, id)
    ensures Live(After(BeginAttempt(OpenTarget(db, now, id, target, user), id), db), now)
  {
    hide Inv, Live, OpenHold, OpenRenewal, Fresh;
    match target {
      case OfListing(listing) => OpenHoldLives(db, now, id, listing, user);
      case OfRental(rental) => OpenRenewalLives(db, now, id, rental, user);
    }
    var begun := BeginAttempt(OpenTarget(db, now, id, target, user), id);
    if begun.Commit? {
      SameLives(OpenTarget(db, now, id, target, user).db, begun.db, now);
    }
  }

  lemma AcquireLives(db: Db, now: int, id: Id, target: Target, user: Id)
    requires Inv(db) && Live(db, now) && Fresh(db, id)
    ensures Live(After(Acquire(db, now, id, target, user), db), now)
  {
    BeginLives(db, now, id, target, user);
    hide Inv, Live, ExistingRow, OpenTarget, BeginAttempt, Fresh, HoldOf;
  }

  lemma GiveUpLives(db: Db, now: int, attempt: Id, invoice: Id, rental: Option<Id>)
    requires Live(db, now) && HoldsBilled(db.rentals, db.invoices)
    requires attempt in db.attempts && invoice in db.invoices && db.invoices[invoice].rental.Some?
    requires var r := db.invoices[invoice].rental.value;
             rental == if r in db.rentals && db.rentals[r].status == Pending then Some(r) else None
    ensures Live(db.(attempts := db.attempts[attempt := db.attempts[attempt].(status := Expired)],
                     invoices := db.invoices[invoice := db.invoices[invoice].(status := Void)],
                     rentals := if rental.None? then db.rentals
                                else db.rentals[rental.value := db.rentals[rental.value].(status := Cancelled)]), now)
  {
    var rentals := if rental.None? then db.rentals else db.rentals[rental.value := db.rentals[rental.value].(status := Cancelled)];
    hide Live, RentalsRetire;
    assert !RunningHold(rentals, now, invoice);
    Still(db);
    if rental.Some? {
      RentalCancels(db.rentals, rental.value);
    }
    VoidLives(db, now, rentals, invoice);
    var voided := db.(rentals := rentals, invoices := db.invoices[invoice := db.invoices[invoice].(status := Void)]);
    SameLives(voided, voided.(attempts := db.attempts[attempt := db.attempts[attempt].(status := Expired)]), now);
  }

  lemma ReplaceLives(db: Db, now: int, id: Id, hold: Hold, user: Id)
    requires Inv(db) && Live(db, now) && Fresh(db, id) && Recorded(db, hold, user)
    ensures Live(After(Replace(db, now, id, hold, user), db), now)
  {
    hide Inv, Live, Keeps, OpenTarget, BeginAttempt, HoldsBilled;
    if Replace(db, now, id, hold, user).Commit? {
      var freed := GiveUp(db, hold);
      var given := if hold.renewal then None else Some(hold.rental);
      Parts(db);
      GiveUpKeeps(db, hold.attempt, hold.invoice, given);
      GiveUpLives(db, now, hold.attempt, hold.invoice, given);
      assert Fresh(freed, id);
      BeginLives(freed, now, id, if hold.renewal then OfRental(hold.rental) else OfListing(hold.listing), user);
    }
  }

  lemma SessionExpiredLives(db: Db, now: int, e: SessionEvent)
    requires Inv(db) && Live(db, now)
    ensures Live(After(SessionExpired(db, e), db), now)
  {
    hide Inv, Live, HoldsBilled, AttemptsBound;
    if SessionExpired(db, e).Commit? && db.attempts[e.attempt].status != Expired {
      Parts(db);
      assert db.invoices[e.invoice].rental.Some? by { AttemptBilled(db, e.attempt); }
      var r := db.invoices[e.invoice].rental.value;
      GiveUpLives(db, now, e.attempt, e.invoice, if r in db.rentals && db.rentals[r].status == Pending then Some(r) else None);
    }
  }

  lemma SettleLives(db: Db, now: int, id: Id, invoice: Id, reference: Reference, amount: Amount)
    requires Inv(db) && Live(db, now) && Fresh(db, id) && !reference.ByTerminal?
    requires forall a | a in db.attempts && db.attempts[a].invoice == invoice :: db.attempts[a].status == Completed
    ensures Live(After(Settle(db, now, id, invoice, reference, amount), db), now)
  {
    hide Inv, Live, Settle, Fresh, Creditable, Credited, HoldsBilled, InvoicesBound, OwnersKnown, StillEligible, PaidWeek;
    Unchanged(Settle(db, now, id, invoice, reference, amount), db);
    if Settle(db, now, id, invoice, reference, amount).Commit? {
      Parts(db);
      SettleForm(db, now, id, invoice, reference, amount);
      var c := SettleCredit(db, now, id, invoice, reference, amount);
      PaidWeekOwner(db, now, invoice);
      PromotionKeepsEligible(db.users, db.invoices[invoice].user);
      CreditLives(db, now, c);
    }
  }

  lemma PaidWeekOwner(db: Db, now: int, invoice: Id)
    requires Payable(db, now, invoice) && InvoicesBound(db.rentals, db.invoices)
    ensures PaidWeek(db.rentals[db.invoices[invoice].rental.value], now).user == db.invoices[invoice].user
            && Eligible(db.users, db.invoices[invoice].user)
  {
  }

  lemma SettleCompletedLives(db: Db, now: int, id: Id, attempt: Id, invoice: Id, reference: Reference, amount: Amount)
    requires Inv(db) && Live(db, now) && Fresh(db, id) && !reference.ByTerminal?
    requires attempt in db.attempts && db.attempts[attempt].invoice == invoice && db.attempts[attempt].status != Expired
    requires Settle(db, now, id, invoice, reference, amount).Commit?
    ensures var paid := Settle(db, now, id, invoice, reference, amount).db;
            Live(paid.(attempts := paid.attempts[attempt := db.attempts[attempt].(status := Completed)]), now)
  {
    var xs := db.attempts[attempt := db.attempts[attempt].(status := Completed)];
    var completed := db.(attempts := xs);
    hide Inv, Live, Keeps, Settle;
    MoveKeeps(db, attempt, Completed);
    SameLives(db, completed, now);
    CompletedAlone(db, attempt, invoice);
    SettleCommutes(db, now, id, invoice, reference, amount, xs);
    SettleLives(completed, now, id, invoice, reference, amount);
  }

  lemma SettleSimulatedLives(db: Db, now: int, id: Id, hold: Hold, user: Id)
    requires Inv(db) && Live(db, now) && Fresh(db, id) && Recorded(db, hold, user)
    ensures Live(After(SettleSimulated(db, now, id, hold), db), now)
  {
    var reference, amount := BySimulation(hold.attempt), Minor(hold.amount, hold.currency);
    SettleCommutes(db, now, id, hold.invoice, reference, amount, db.attempts);
    hide Inv, Live, Settle, Fresh;
    if SettleSimulated(db, now, id, hold).Commit? {
      SettleCompletedLives(db, now, id, hold.attempt, hold.invoice, reference, amount);
    }
  }

  /** The invoice of a running hold can be settled: it is open, due later, bound to its rental, and its user may rent. */
  lemma RunningHoldPayable(db: Db, now: int, r: Id)
    requires Live(db, now) && RunningHold(db.rentals, now, r)
    requires HoldsBilled(db.rentals, db.invoices) && InvoicesBound(db.rentals, db.invoices)
    ensures Payable(db, now, r) && db.invoices[r].rental == Some(r) && db.invoices[r].amount.Minor?
  {
  }

  /** A payment that comes too late is not the payment of a running hold. */
  lemma LateLives(db: Db, now: int, id: Id, row: Payment, actions: map<Id, Action>)
    requires Live(db, now) && HoldsBilled(db.rentals, db.invoices) && InvoicesBound(db.rentals, db.invoices)
    requires !Payable(db, now, row.invoice)
    ensures Live(db.(payments := db.payments[id := row], actions := actions), now)
  {
    if RunningHold(db.rentals, now, row.invoice) {
      RunningHoldPayable(db, now, row.invoice);
    }
    hide HoldsBilled, InvoicesBound, Payable;
  }

  lemma SessionPaidLives(db: Db, now: int, id: Id, e: SessionEvent)
    requires Inv(db) && Live(db, now) && Fresh(db, id)
    ensures Live(After(SessionPaid(db, now, id, e), db), now)
  {
    SettleCommutes(db, now, id, e.invoice, ByIntent(e.intent), e.amount, db.attempts);
    hide Inv, Live, Settle, Payable, HoldsBilled, InvoicesBound;
    if SessionPaid(db, now, id, e).Commit? {
      var after := SessionPaid(db, now, id, e).db;
      if UsedReference(db.payments, ByIntent(e.intent)) {
        SameLives(db, after, now);
      } else if Payable(db, now, e.invoice) {
        SettleCompletedLives(db, now, id, e.attempt, e.invoice, ByIntent(e.intent), e.amount);
      } else {
        Parts(db);
        LateLives(db, now, id, Payment(e.invoice, ByIntent(e.intent), e.amount, InReview), after.actions);
      }
    }
  }

  /** Payments that only change status. */
  lemma StatusLives(db: Db, after: Db, now: int)
    requires Live(db, now) && after.users == db.users && after.rentals == db.rentals && after.invoices == db.invoices
    requires after.payments.Keys == db.payments.Keys && forall p | p in db.payments :: after.payments[p].invoice == db.payments[p].invoice
    ensures Live(after, now)
  {
    RestatingLives(db.rentals, db.payments, after.payments, now);
    hide OwnersEligible, HoldsOpen, HoldsUnpaid;
  }

  lemma RefundReportedLives(db: Db, now: int, found: Option<Id>, e: RefundEvent)
    requires Live(db, now)
    ensures Live(After(RefundReported(db, found, e), db), now)
  {
    hide *;
    ReportTouches(db, found, e);
    StatusLives(db, After(RefundReported(db, found, e), db), now);
  }

  lemma ReportTouches(db: Db, found: Option<Id>, e: RefundEvent)
    ensures var after := After(RefundReported(db, found, e), db);
            && after.users == db.users && after.rentals == db.rentals && after.invoices == db.invoices
            && after.payments.Keys == db.payments.Keys && forall p | p in db.payments :: after.payments[p].invoice == db.payments[p].invoice
  {
    hide RecordRefund, CumulativeRefund, MarkActions, RefundDisposition;
  }

  lemma DisputedLives(db: Db, now: int, references: set<Id>)
    requires Live(db, now)
    ensures Live(After(Disputed(db, references), db), now)
  {
    hide Live;
    StatusLives(db, After(Disputed(db, references), db), now);
  }

  lemma ReserveLives(db: Db, wall: int, now: int, id: Id, actor: Id, q: Request)
    requires Inv(db) && Live(db, now)
    ensures Live(After(Reserve(db, wall, now, id, actor, q), db), now)
  {
    CleanLives(db, now, q.listing);
    hide Inv, Live, Clean, Verified, IsReplay, Occupied, IsReserved;
    var after := After(Reserve(db, wall, now, id, actor, q), db);
    if after != db {
      SameLives(Clean(db, now, q.listing), after, now);
    }
  }

  lemma LengthenLives(db: Db, now: int, id: Id, q: TerminalPayment, r: Id, weeks: int)
    requires Inv(db) && Live(db, now) && id !in db.rentals && id !in db.invoices && id !in db.payments
    requires (q.terminal, q.event) !in db.receipts
    requires r in db.rentals && db.rentals[r].status == Active && weeks >= 1 && Eligible(db.users, db.rentals[r].user)
    ensures Live(Lengthen(db, now, id, q, r, weeks), now)
  {
    var lease := db.rentals[r].(endsAt := db.rentals[r].endsAt + weeks * WEEK);
    var c := TerminalCredit(db, now, id, q, r, lease, weeks, db.reservations, db.users);
    assert c.lease == lease && c.invoice == id && c.users == db.users && StillEligible(db.users, db.users) by { hide Inv, Live; }
    assert Eligible(db.users, lease.user) by { hide Inv, Live; }
    hide *;
    Parts(db);
    Still(db);
    LengthenForm(db, now, id, q, r, weeks);
    TerminalCreditable(db, now, id, q, r, lease, weeks, db.reservations, db.users);
    CreditLives(db, now, c);
  }

  lemma StartLeaseLives(db: Db, now: int, id: Id, q: TerminalPayment, listing: Id, user: Id, weeks: int)
    requires Inv(db) && Live(db, now) && id !in db.rentals && id !in db.invoices && id !in db.payments
    requires (q.terminal, q.event) !in db.receipts
    requires Vacant(db.rentals, listing) && weeks >= 1 && Eligible(db.users, user)
    ensures Live(StartLease(db, now, id, q, listing, user, weeks), now)
  {
    var lease := Rental(listing, user, Active, now, now + weeks * WEEK);
    var ws, users := RedeemReservations(db.reservations, now, listing), Promote(db.users, user);
    var c := TerminalCredit(db, now, id, q, id, lease, weeks, ws, users);
    assert c.lease == lease && c.invoice == id && c.users == users && user in db.users by { hide Inv, Live, Promote, RedeemReservations, Vacant; }
    hide *;
    Parts(db);
    StartForm(db, now, id, q, listing, user, weeks);
    LapsingRetires(db.reservations, now, listing);
    TerminalCreditable(db, now, id, q, id, lease, weeks, ws, users);
    PromotionKeepsEligible(db.users, user);
    CreditLives(db, now, c);
  }

  lemma ReviewPaymentLives(db: Db, now: int, id: Id, q: TerminalPayment, listing: Id, expected: int)
    requires Live(db, now) && id !in db.rentals
    ensures Live(ReviewPayment(db, now, id, q, listing, expected), now)
  {
    hide Live;
    var after := ReviewPayment(db, now, id, q, listing, expected);
    if q.payer in db.identities {
      BillLives(db, now, id, after.invoices[id], after.payments);
      SameLives(db.(invoices := after.invoices, payments := after.payments), after, now);
    } else {
      SameLives(db, after, now);
    }
  }

  /** As `PayForm`, with the owner of the lease. */
  lemma PayOwners(db: Db, now: int, id: Id, q: TerminalPayment)
    requires PayTerminal(db, now, id, q).Commit? && (q.terminal, q.event) !in db.receipts
    ensures q.terminal in db.terminals
    ensures var listing := db.terminals[q.terminal];
            var clean := Clean(db, now, listing);
            var after := PayTerminal(db, now, id, q).db;
            || (exists r, weeks | r in clean.rentals && clean.rentals[r].status == Active && weeks >= 1 && Eligible(db.users, clean.rentals[r].user) ::
                  after == Lengthen(clean, now, id, q, r, weeks))
            || (exists user, weeks | weeks >= 1 && Eligible(db.users, user) && Vacant(clean.rentals, listing) ::
                  after == StartLease(clean, now, id, q, listing, user, weeks))
            || (exists expected :: after == ReviewPayment(clean, now, id, q, listing, expected))
  {
    hide Clean, Lengthen, StartLease, ReviewPayment, Vacant, ReservedAgainst;
  }

  lemma PayTerminalLives(db: Db, now: int, id: Id, q: TerminalPayment)
    requires Inv(db) && Live(db, now) && Fresh(db, id)
    ensures Live(After(PayTerminal(db, now, id, q), db), now)
  {
    FreshRows(db, id);
    hide Inv, Live, Keeps, Clean, Lengthen, StartLease, ReviewPayment, Vacant, Fresh, PayTerminal, Eligible;
    Unchanged(PayTerminal(db, now, id, q), db);
    if PayTerminal(db, now, id, q).Rollback? {
    } else if (q.terminal, q.event) in db.receipts {
      PayReplay(db, now, id, q);
    } else {
      PayOwners(db, now, id, q);
      var listing := db.terminals[q.terminal];
      var clean := Clean(db, now, listing);
      var after := PayTerminal(db, now, id, q).db;
      CleanKeys(db, now, listing);
      CleanKeeps(db, now, listing);
      CleanLives(db, now, listing);
      if r, weeks :| r in clean.rentals && clean.rentals[r].status == Active && weeks >= 1 && Eligible(db.users, clean.rentals[r].user)
                     && after == Lengthen(clean, now, id, q, r, weeks) {
        LengthenLives(clean, now, id, q, r, weeks);
      } else if user, weeks :| weeks >= 1 && Eligible(db.users, user) && Vacant(clean.rentals, listing)
                               && after == StartLease(clean, now, id, q, listing, user, weeks) {
        StartLeaseLives(clean, now, id, q, listing, user, weeks);
      } else {
        var expected :| after == ReviewPayment(clean, now, id, q, listing, expected);
        ReviewPaymentLives(clean, now, id, q, listing, expected);
      }
    }
  }
}
