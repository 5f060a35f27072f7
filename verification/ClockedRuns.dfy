/** Runs under a clock that never goes back. */
module ClockedRuns {
  import opened Tables
  import opened Pricing
  import opened Allocation
  import opened Invariants
  import opened Evolution
  import opened Subsiding
  import opened Transactions
  import opened Runs
  import opened Clocked

  // ---------- what staff decide ----------

  lemma ApproveStartLives(db: Db, now: int, id: Id, payment: Id)
    requires Inv(db) && Live(db, now) && Fresh(db, id)
    ensures Live(After(ApproveStart(db, now, id, payment), db), now)
  {
    FreshRows(db, id);
    hide *;
    Unchanged(ApproveStart(db, now, id, payment), db);
    if ApproveStart(db, now, id, payment).Commit? {
      Parts(db);
      ApproveStartForm(db, now, id, payment);
      ApprovalOwner(db, now, id, payment);
      var i := db.invoices[db.payments[payment].invoice];
      var clean := Clean(db, now, i.listing);
      var lease := Rental(i.listing, i.user, Active, now, now + WEEK);
      var ws, users := RedeemReservations(clean.reservations, now, i.listing), Promote(clean.users, i.user);
      CleanKeys(db, now, i.listing);
      CleanKeeps(db, now, i.listing);
      CleanLives(db, now, i.listing);
      Parts(clean);
      LapsingRetires(clean.reservations, now, i.listing);
      ApprovalCreditable(clean, payment, id, lease, ws, users);
      ApprovalFields(clean, payment, id, lease, ws, users);
      PromotionKeepsEligible(clean.users, i.user);
      CreditLives(clean, now, ApprovalCredit(clean, payment, id, lease, ws, users));
    }
  }

  lemma ApprovalOwner(db: Db, now: int, id: Id, payment: Id)
    requires payment in db.payments && db.payments[payment].invoice in db.invoices
    ensures ApproveStart(db, now, id, payment).Commit? || ApproveExtension(db, now, payment).Commit? ==>
              Eligible(db.users, db.invoices[db.payments[payment].invoice].user)
  {
    hide Clean, Reviewable, Vacant, ReservedAgainst, RedeemReservations, SettleReceipts;
  }

  lemma ApprovalFields(db: Db, payment: Id, r: Id, lease: Rental, ws: map<Id, Reservation>, users: map<Id, User>)
    requires payment in db.payments && db.payments[payment].invoice in db.invoices
    ensures var c := ApprovalCredit(db, payment, r, lease, ws, users);
            c.lease == lease && c.users == users && c.invoice == db.payments[payment].invoice
  {
    hide SettleReceipts;
  }

  lemma ApproveExtensionLives(db: Db, now: int, payment: Id)
    requires Inv(db) && Live(db, now)
    ensures Live(After(ApproveExtension(db, now, payment), db), now)
  {
    hide *;
    Unchanged(ApproveExtension(db, now, payment), db);
    if ApproveExtension(db, now, payment).Commit? {
      Parts(db);
      var r := ApproveExtensionForm(db, now, payment);
      ApprovalOwner(db, now, 0, payment);
      var i := db.invoices[db.payments[payment].invoice];
      var lease := db.rentals[r].(endsAt := db.rentals[r].endsAt + WEEK);
      var ws, users := LapseReservations(db.reservations, now, i.listing), Promote(db.users, i.user);
      LapsingRetires(db.reservations, now, i.listing);
      ApprovalCreditable(db, payment, r, lease, ws, users);
      ApprovalFields(db, payment, r, lease, ws, users);
      PromotionKeepsEligible(db.users, i.user);
      CreditLives(db, now, ApprovalCredit(db, payment, r, lease, ws, users));
    }
  }

  /** A payment under review is never on the invoice of a running hold, so rejecting it voids no such invoice. */
  lemma RejectPaymentLives(db: Db, now: int, payment: Id)
    requires Live(db, now)
    ensures Live(After(RejectPayment(db, payment), db), now)
  {
    hide Live, SettleReceipts, RentalsRetire;
    if RejectPayment(db, payment).Commit? {
      var after := RejectPayment(db, payment).db;
      var invoice := db.payments[payment].invoice;
      var voided := db.(rentals := db.rentals, invoices := db.invoices[invoice := db.invoices[invoice].(status := Void)]);
      Unpaid(db, now, payment);
      Still(db);
      VoidLives(db, now, db.rentals, invoice);
      StatusLives(if db.invoices[invoice].status == Open then voided else db, after, now);
    }
  }

  lemma Unpaid(db: Db, now: int, payment: Id)
    requires Live(db, now) && payment in db.payments
    ensures !RunningHold(db.rentals, now, db.payments[payment].invoice)
  {
  }

  lemma ResolvePaymentLives(db: Db, now: int, payment: Id)
    requires Live(db, now)
    ensures Live(After(ResolvePayment(db, payment), db), now)
  {
    hide Live;
    if ResolvePayment(db, payment).Commit? {
      var after := ResolvePayment(db, payment).db;
      assert after == db.(payments := after.payments);
      StatusLives(db, after, now);
    }
  }

  lemma NewcomerEligible(users: map<Id, User>, id: Id, user: User)
    requires id !in users
    ensures StillEligible(users, users[id := user])
  {
  }

  lemma EnrolLives(db: Db, now: int, id: Id, avatar: Id)
    requires Live(db, now) && id !in db.users
    ensures Live(After(Enrol(db, id, avatar), db), now)
  {
    var after := After(Enrol(db, id, avatar), db);
    if avatar !in db.identities {
      hide Live, StillEligible;
      NewcomerEligible(db.users, id, User(Resident, true));
      UsersLive(db, now, after.users);
      SameLives(db.(users := after.users), after, now);
    }
  }

  lemma ResolveIdentityLives(db: Db, now: int, id: Id, terminal: Id, event: Id)
    requires Live(db, now) && Fresh(db, id)
    ensures Live(After(ResolveIdentity(db, now, id, terminal, event), db), now)
  {
    hide Live, StillEligible;
    if ResolveIdentity(db, now, id, terminal, event).Commit? {
      var after := ResolveIdentity(db, now, id, terminal, event).db;
      NewcomerEligible(db.users, id, User(Resident, true));
      UsersLive(db, now, after.users);
      BillLives(db.(users := after.users), now, id, after.invoices[id], after.payments);
      SameLives(db.(users := after.users, invoices := after.invoices, payments := after.payments), after, now);
    }
  }

  lemma RejectReceiptLives(db: Db, now: int, terminal: Id, event: Id)
    requires Live(db, now)
    ensures Live(After(RejectReceipt(db, terminal, event), db), now)
  {
    hide Live;
    SameLives(db, After(RejectReceipt(db, terminal, event), db), now);
  }

  // ---------- administration ----------

  lemma ActivateLives(db: Db, now: int, id: Id, invoice: Id, weeks: int)
    requires Inv(db) && Live(db, now) && Fresh(db, id)
    ensures Live(After(Activate(db, now, id, invoice, weeks), db), now)
  {
    FreshRows(db, id);
    hide *;
    Unchanged(Activate(db, now, id, invoice, weeks), db);
    if Activate(db, now, id, invoice, weeks).Commit? {
      Parts(db);
      ActivateWrites(db, now, id, invoice, weeks);
      PromotionKeepsEligible(db.users, db.invoices[invoice].user);
      LeaseLives(db, now, id, Activate(db, now, id, invoice, weeks).db, invoice);
    }
  }

  lemma ActivateWrites(db: Db, now: int, id: Id, invoice: Id, weeks: int)
    requires Activate(db, now, id, invoice, weeks).Commit? && id !in db.rentals
    ensures invoice in db.invoices && db.invoices[invoice].rental.None?
    ensures var after := Activate(db, now, id, invoice, weeks).db;
            && id in after.rentals && after.rentals == db.rentals[id := after.rentals[id]] && after.rentals[id].status == Active
            && Eligible(db.users, after.rentals[id].user) && after.users == Promote(db.users, db.invoices[invoice].user)
            && after.invoices == db.invoices[invoice := db.invoices[invoice].(rental := Some(id))] && after.payments == db.payments
  {
    hide Vacant, ReservedAgainst, RedeemReservations, Promote;
  }

  lemma LeaseLives(db: Db, now: int, id: Id, after: Db, invoice: Id)
    requires Live(db, now) && id !in db.rentals && id in after.rentals
    requires after.rentals == db.rentals[id := after.rentals[id]]
    requires after.rentals[id].status == Active && Eligible(db.users, after.rentals[id].user)
    requires StillEligible(db.users, after.users)
    requires invoice in db.invoices && after.invoices == db.invoices[invoice := db.invoices[invoice].(rental := Some(id))]
    requires after.payments == db.payments
    ensures Live(after, now)
  {
    assert forall r :: RunningHold(after.rentals, now, r) ==> RunningHold(db.rentals, now, r);
  }

  lemma LongerLives(db: Db, now: int, r: Id, row: Rental, ledger: Ledger)
    requires Live(db, now) && r in db.rentals && row.user == db.rentals[r].user && row.status != Pending
    requires IsLive(row) ==> Eligible(db.users, row.user)
    ensures Live(db.(rentals := db.rentals[r := row], ledger := ledger), now)
  {
    var rentals := db.rentals[r := row];
    assert forall s :: RunningHold(rentals, now, s) ==> RunningHold(db.rentals, now, s);
  }

  lemma ExtendLeaseLives(db: Db, now: int, rental: Id, weeks: int)
    requires Live(db, now)
    ensures Live(After(ExtendLease(db, now, rental, weeks), db), now)
  {
    hide Live;
    if ExtendLease(db, now, rental, weeks).Commit? {
      var after := ExtendLease(db, now, rental, weeks).db;
      LongerLives(db, now, rental, after.rentals[rental], after.ledger);
    }
  }

  lemma EndLeaseLives(db: Db, now: int, rental: Id)
    requires Live(db, now)
    ensures Live(After(EndLease(db, now, rental), db), now)
  {
    hide Live;
    if EndLease(db, now, rental).Commit? {
      var after := EndLease(db, now, rental).db;
      LongerLives(db, now, rental, after.rentals[rental], after.ledger);
    }
  }

  /** A role change that would make a user ineligible is refused while the user rents. */
  lemma ChangeRoleLives(db: Db, now: int, actor: Id, target: Id, role: Role)
    requires Live(db, now)
    ensures Live(After(ChangeRole(db, now, actor, target, role), db), now)
  {
    var after := After(ChangeRole(db, now, actor, target, role), db);
    hide ActiveAdministrators, HoldsOpen, HoldsUnpaid;
    if after != db {
      forall r | r in db.rentals && IsLive(db.rentals[r]) && db.rentals[r].endsAt > now ensures Eligible(after.users, db.rentals[r].user) {
        assert Eligible(db.users, db.rentals[r].user);
        assert db.rentals[r].user == target ==> RentsNow(db.rentals, now, target);
      }
    }
  }

  // ---------- steps and runs ----------

  lemma CheckoutLives(db: Db, now: int, step: CheckoutStep)
    requires Inv(db) && Live(db, now) && EnabledCheckout(db, step)
    ensures Live(ApplyCheckout(db, now, step), now)
  {
    hide Inv, Live, Fresh, Recorded, After, Sweep, Poll, Acquire, Replace, PersistSession, MarkErrored, SettleSimulated;
    hide Reserve, Withdraw, Enrol;
    match step
    case CleanUp(scope) => SweepLives(db, now, scope);
    case PollTerminal(listing) => PollLives(db, now, listing);
    case AcquireAttempt(id, target, user) => AcquireLives(db, now, id, target, user);
    case ReplaceExpired(id, hold, user) => ReplaceLives(db, now, id, hold, user);
    case StoreSession(attempt, session) => StoreSessionLives(db, now, attempt, session);
    case StoreError(attempt) => StoreErrorLives(db, now, attempt);
    case Simulate(id, hold, user) => SettleSimulatedLives(db, now, id, hold, user);
    case MakeReservation(wall, id, actor, q) => ReserveLives(db, wall, now, id, actor, q);
    case CancelReservation(actor, v) => WithdrawLives(db, now, actor, v);
    case ListReservations =>
      LapseAllTables(db, now);
      SameLives(db, LapseAll(db, now), now);
    case SignUp(id, avatar) =>
      FreshRows(db, id);
      EnrolLives(db, now, id, avatar);
    case EditListing(id, listing) => SameLives(db, db.(listings := db.listings[id := listing]), now);
  }

  lemma StoreSessionLives(db: Db, now: int, attempt: Id, session: Id)
    requires Live(db, now)
    ensures Live(After(PersistSession(db, attempt, session), db), now)
  {
    hide Live;
    SameLives(db, After(PersistSession(db, attempt, session), db), now);
  }

  lemma StoreErrorLives(db: Db, now: int, attempt: Id)
    requires Live(db, now)
    ensures Live(After(MarkErrored(db, attempt), db), now)
  {
    hide Live;
    SameLives(db, After(MarkErrored(db, attempt), db), now);
  }

  lemma WithdrawLives(db: Db, now: int, actor: Id, reservation: Id)
    requires Live(db, now)
    ensures Live(After(Withdraw(db, actor, reservation), db), now)
  {
    hide Live;
    SameLives(db, After(Withdraw(db, actor, reservation), db), now);
  }

  lemma ClaimRefundLives(db: Db, now: int, action: Id)
    requires Live(db, now)
    ensures Live(After(ClaimRefund(db, now, action), db), now)
  {
    hide Live, Due;
    if action in db.actions && Due(db.actions[action], now) {
      var after := ClaimRefund(db, now, action).db;
      SameLives(db, db.(actions := after.actions), now);
    }
  }

  lemma FailRefundLives(db: Db, now: int, action: Id)
    requires Live(db, now)
    ensures Live(After(FailRefund(db, now, action), db), now)
  {
    hide Live;
    SameLives(db, After(FailRefund(db, now, action), db), now);
  }

  lemma RetryRefundLives(db: Db, now: int, action: Id)
    requires Live(db, now)
    ensures Live(After(RetryRefund(db, now, action), db), now)
  {
    hide Live;
    SameLives(db, After(RetryRefund(db, now, action), db), now);
  }

  lemma ResolveRefundLives(db: Db, now: int, action: Id)
    requires Live(db, now)
    ensures Live(After(ResolveRefund(db, action), db), now)
  {
    hide Live;
    SameLives(db, After(ResolveRefund(db, action), db), now);
  }

  lemma CompleteRefundLives(db: Db, now: int, c: Claim, succeeded: bool)
    requires Live(db, now)
    ensures Live(After(CompleteRefund(db, now, c, succeeded), db), now)
  {
    hide Live;
    StatusLives(db, After(CompleteRefund(db, now, c, succeeded), db), now);
  }

  lemma MoneyLives(db: Db, now: int, step: MoneyStep)
    requires Inv(db) && Live(db, now) && EnabledMoney(db, step)
    ensures Live(ApplyMoney(db, now, step), now)
  {
    hide Inv, Live, Fresh, Authentic, Taken, After, SessionExpired, SessionPaid, RefundReported, Disputed, PayTerminal;
    hide ClaimRefund, CompleteRefund, FailRefund, RetryRefund, ResolveRefund;
    match step
    case StripeExpired(e) => SessionExpiredLives(db, now, e);
    case StripePaid(id, e) => SessionPaidLives(db, now, id, e);
    case StripeRefund(found, e) => RefundReportedLives(db, now, found, e);
    case StripeDispute(references) => DisputedLives(db, now, references);
    case TerminalPays(id, q) => PayTerminalLives(db, now, id, q);
    case WorkerClaims(a) => ClaimRefundLives(db, now, a);
    case WorkerCompletes(c, succeeded) => CompleteRefundLives(db, now, c, succeeded);
    case WorkerFails(a) => FailRefundLives(db, now, a);
    case OperatorRetries(a) => RetryRefundLives(db, now, a);
    case OperatorResolves(a) => ResolveRefundLives(db, now, a);
  }

  lemma DeskLives(db: Db, now: int, step: DeskStep)
    requires Inv(db) && Live(db, now) && EnabledDesk(db, step)
    ensures Live(ApplyDesk(db, now, step), now)
  {
    hide Inv, Live, Fresh, After, ApproveStart, ApproveExtension, RejectPayment, ResolvePayment, ResolveIdentity, RejectReceipt;
    hide Activate, ExtendLease, EndLease, ChangeRole;
    match step
    case ApproveAsStart(id, p) => ApproveStartLives(db, now, id, p);
    case ApproveAsExtension(p) => ApproveExtensionLives(db, now, p);
    case Reject(p) => RejectPaymentLives(db, now, p);
    case Resolve(p) => ResolvePaymentLives(db, now, p);
    case NamePayer(id, t, e) => ResolveIdentityLives(db, now, id, t, e);
    case RejectEvent(t, e) => RejectReceiptLives(db, now, t, e);
    case AdminActivate(id, i, weeks) => ActivateLives(db, now, id, i, weeks);
    case AdminExtend(r, weeks) => ExtendLeaseLives(db, now, r, weeks);
    case AdminEnd(r) => EndLeaseLives(db, now, r);
    case SetRole(actor, target, role) => ChangeRoleLives(db, now, actor, target, role);
  }

  lemma StepLives(db: Db, now: int, step: Step)
    requires Inv(db) && Live(db, now) && Enabled(db, step)
    ensures Live(Apply(db, now, step), now)
  {
    hide Inv, Live, ApplyCheckout, ApplyMoney, ApplyDesk, EnabledCheckout, EnabledMoney, EnabledDesk;
    match step
    case AtCheckout(s) => CheckoutLives(db, now, s);
    case OfMoney(s) => MoneyLives(db, now, s);
    case AtDesk(s) => DeskLives(db, now, s);
  }

  /** The transactions read the clock in the order in which they commit. */
  ghost predicate Ordered(clock: int, moments: seq<Moment>)
    decreases |moments|
  {
    moments != [] ==> clock <= moments[0].now && Ordered(moments[0].now, moments[1..])
  }

  function LastNow(clock: int, moments: seq<Moment>): int {
    if moments == [] then clock else moments[|moments| - 1].now
  }

  /** Running rentals keep eligible owners, and running holds keep their one invoice open and unpaid, in every ordered run. */
  lemma {:induction false} RunLives(db: Db, clock: int, moments: seq<Moment>)
    requires Inv(db) && Live(db, clock) && Runnable(db, moments) && Ordered(clock, moments)
    ensures Inv(Run(db, moments)) && Live(Run(db, moments), LastNow(clock, moments))
    decreases |moments|
  {
    hide Inv, Live, Keeps, Evolves, Apply, Enabled;
    if moments != [] {
      var now := moments[0].now;
      var next := Apply(db, now, moments[0].step);
      TimePasses(db, clock, now);
      StepKeeps(db, now, moments[0].step);
      Kept(db, next);
      StepLives(db, now, moments[0].step);
      RunLives(next, now, moments[1..]);
      assert LastNow(clock, moments) == LastNow(now, moments[1..]);
    }
  }

  /** A hold that has not run out can be paid: its one invoice is open, and settling that invoice with its
      exact amount under a new reference succeeds and starts a one-week lease. */
  lemma RunningHoldSettles(db: Db, now: int, r: Id, id: Id, reference: Reference)
    requires Inv(db) && Live(db, now) && RunningHold(db.rentals, now, r) && Fresh(db, id)
    requires !UsedReference(db.payments, reference)
    ensures r in db.invoices && db.invoices[r].rental == Some(r) && db.invoices[r].status == Open
    ensures forall i | i in db.invoices && db.invoices[i].rental == Some(r) :: i == r
    ensures var settled := Settle(db, now, id, r, reference, db.invoices[r].amount);
            && settled.Commit? && settled.db.invoices[r].status == Paid
            && settled.db.rentals[r] == db.rentals[r].(status := Active, startsAt := now, endsAt := now + WEEK)
            && settled.db.payments[id].status == Confirmed && Credits(settled.db.ledger, id) >= 1
  {
    assert HoldsBilled(db.rentals, db.invoices) && InvoicesBound(db.rentals, db.invoices) by {
      hide *;
      Parts(db);
    }
    hide Inv, UsedReference, RedeemReservations, Fresh, InvoicesBound, Promote;
    RunningHoldPayable(db, now, r);
    hide Live;
  }

  // ---------- refunds ----------

  lemma BeginActions(db: Db, now: int, id: Id, target: Target, user: Id)
    ensures After(BeginAttempt(OpenTarget(db, now, id, target, user), id), db).actions == db.actions
  {
    hide CancelOverdue, EndLapsed, ExpireOverdueAttempts, VoidOverdueInvoices, LapseReservations, HoldOf, Occupied, ReservedAgainst;
  }

  lemma CheckoutActions(db: Db, now: int, step: CheckoutStep)
    ensures ApplyCheckout(db, now, step).actions == db.actions
  {
    hide CancelOverdue, EndLapsed, ExpireOverdueAttempts, VoidOverdueInvoices, LapseReservations, RedeemReservations, Promote, PaidWeek, LapseOverdue;
    hide Occupied, ReservedAgainst, IsReserved, Verified, IsReplay, ExistingRow, UsedReference, Payable, Offered, Eligible, HoldOf;
    hide OpenTarget, BeginAttempt, GiveUp;
    match step
    case AcquireAttempt(id, target, user) => BeginActions(db, now, id, target, user);
    case ReplaceExpired(id, hold, user) =>
      if Replace(db, now, id, hold, user).Commit? {
        GiveUpActions(db, hold);
        BeginActions(GiveUp(db, hold), now, id, if hold.renewal then OfRental(hold.rental) else OfListing(hold.listing), user);
      }
    case _ =>
  }

  lemma GiveUpActions(db: Db, hold: Hold)
    requires hold.attempt in db.attempts && hold.invoice in db.invoices && (hold.renewal || hold.rental in db.rentals)
    ensures GiveUp(db, hold).actions == db.actions
  {
  }

  lemma DeskActions(db: Db, now: int, step: DeskStep)
    ensures ApplyDesk(db, now, step).actions == db.actions
  {
    hide CancelOverdue, EndLapsed, ExpireOverdueAttempts, VoidOverdueInvoices, LapseReservations, RedeemReservations, Promote;
    hide ReservedAgainst, Vacant, Reviewable, SettleReceipts, OwnLease, Unlinked, RentsNow, ActiveAdministrators, Eligible;
  }

  // ---------- administrators ----------

  /** Nobody stops being an active administrator. */
  ghost predicate AdministratorsStay(users: map<Id, User>, after: map<Id, User>) {
    ActiveAdministrators(users) <= ActiveAdministrators(after)
  }

  lemma PromotionStays(users: map<Id, User>, user: Id)
    ensures AdministratorsStay(users, Promote(users, user))
  {
  }

  lemma NewcomerStays(users: map<Id, User>, id: Id, user: User)
    requires id !in users
    ensures AdministratorsStay(users, users[id := user])
  {
  }

  lemma NobodyChanges(users: map<Id, User>)
    ensures AdministratorsStay(users, users)
  {
  }

  lemma BeginUsers(db: Db, now: int, id: Id, target: Target, user: Id)
    ensures After(BeginAttempt(OpenTarget(db, now, id, target, user), id), db).users == db.users
  {
    hide CancelOverdue, EndLapsed, ExpireOverdueAttempts, VoidOverdueInvoices, LapseReservations, HoldOf, Occupied, ReservedAgainst;
  }

  lemma GiveUpUsers(db: Db, hold: Hold)
    requires hold.attempt in db.attempts && hold.invoice in db.invoices && (hold.renewal || hold.rental in db.rentals)
    ensures GiveUp(db, hold).users == db.users
  {
  }

  /** Settlement may promote its renter, and changes no other user. */
  lemma SettleUsers(db: Db, now: int, id: Id, invoice: Id, reference: Reference, amount: Amount)
    ensures AdministratorsStay(db.users, After(Settle(db, now, id, invoice, reference, amount), db).users)
  {
    hide RedeemReservations, UsedReference, Promote, PaidWeek, AdministratorsStay;
    NobodyChanges(db.users);
    if Settle(db, now, id, invoice, reference, amount).Commit? {
      PromotionStays(db.users, db.invoices[invoice].user);
    }
  }

  lemma SimulatedUsers(db: Db, now: int, id: Id, hold: Hold)
    ensures AdministratorsStay(db.users, After(SettleSimulated(db, now, id, hold), db).users)
  {
    hide Settle, AdministratorsStay;
    NobodyChanges(db.users);
    SettleUsers(db, now, id, hold.invoice, BySimulation(hold.attempt), Minor(hold.amount, hold.currency));
  }

  lemma EnrolUsers(db: Db, id: Id, avatar: Id)
    requires id !in db.users
    ensures AdministratorsStay(db.users, After(Enrol(db, id, avatar), db).users)
  {
    hide AdministratorsStay;
    NobodyChanges(db.users);
    NewcomerStays(db.users, id, User(Resident, true));
  }

  lemma CheckoutAdministrators(db: Db, now: int, step: CheckoutStep)
    requires EnabledCheckout(db, step)
    ensures AdministratorsStay(db.users, ApplyCheckout(db, now, step).users)
  {
    NobodyChanges(db.users);
    hide CancelOverdue, EndLapsed, ExpireOverdueAttempts, VoidOverdueInvoices, LapseReservations, LapseOverdue;
    hide Occupied, IsReserved, Verified, IsReplay, ExistingRow, Offered, Eligible, HoldOf;
    hide OpenTarget, BeginAttempt, GiveUp, AdministratorsStay, Recorded, SettleSimulated, Enrol;
    match step
    case AcquireAttempt(id, target, user) => BeginUsers(db, now, id, target, user);
    case ReplaceExpired(id, hold, user) =>
      if Replace(db, now, id, hold, user).Commit? {
        GiveUpUsers(db, hold);
        BeginUsers(GiveUp(db, hold), now, id, if hold.renewal then OfRental(hold.rental) else OfListing(hold.listing), user);
      }
    case Simulate(id, hold, user) => SimulatedUsers(db, now, id, hold);
    case SignUp(id, avatar) => EnrolUsers(db, id, avatar);
    case _ =>
  }

  lemma SessionUsers(db: Db, now: int, id: Id, e: SessionEvent)
    ensures AdministratorsStay(db.users, After(SessionPaid(db, now, id, e), db).users)
  {
    hide *;
    NobodyChanges(db.users);
    Unchanged(SessionPaid(db, now, id, e), db);
    if SessionPaid(db, now, id, e).Commit? {
      SessionPaidCases(db, now, id, e);
      Unchanged(Settle(db, now, id, e.invoice, ByIntent(e.intent), e.amount), db);
      SettleUsers(db, now, id, e.invoice, ByIntent(e.intent), e.amount);
    }
  }

  /** A confirmed first payment promotes the payer; no other terminal payment changes a user. */
  lemma TerminalUsers(db: Db, now: int, id: Id, q: TerminalPayment)
    ensures AdministratorsStay(db.users, After(PayTerminal(db, now, id, q), db).users)
  {
    hide AdministratorsStay, Clean, Lengthen, StartLease, ReviewPayment, LinkedLease, Vacant, ReservedAgainst, Eligible;
    hide ValidWeeks, PaidWeeks, ExpectedAmount;
    NobodyChanges(db.users);
    if PayTerminal(db, now, id, q).Commit? && (q.terminal, q.event) !in db.receipts {
      PayForm(db, now, id, q);
      var listing := db.terminals[q.terminal];
      var clean := Clean(db, now, listing);
      CleanKeys(db, now, listing);
      var after := PayTerminal(db, now, id, q).db;
      if r, weeks :| r in clean.rentals && clean.rentals[r].status == Active && weeks >= 1 && after == Lengthen(clean, now, id, q, r, weeks) {
        LengthenUsers(clean, now, id, q, r, weeks);
      } else if user, weeks :| weeks >= 1 && user in db.users && Vacant(clean.rentals, listing)
                               && after == StartLease(clean, now, id, q, listing, user, weeks) {
        StartUsers(clean, now, id, q, listing, user, weeks);
      } else {
        var expected :| after == ReviewPayment(clean, now, id, q, listing, expected);
        ReviewUsers(clean, now, id, q, listing, expected);
      }
    }
  }

  lemma LengthenUsers(db: Db, now: int, id: Id, q: TerminalPayment, r: Id, weeks: int)
    requires r in db.rentals && weeks >= 0
    ensures Lengthen(db, now, id, q, r, weeks).users == db.users
  {
  }

  lemma StartUsers(db: Db, now: int, id: Id, q: TerminalPayment, listing: Id, user: Id, weeks: int)
    requires weeks >= 0
    ensures AdministratorsStay(db.users, StartLease(db, now, id, q, listing, user, weeks).users)
  {
    hide RedeemReservations, AdministratorsStay, Promote;
    PromotionStays(db.users, user);
  }

  lemma ReviewUsers(db: Db, now: int, id: Id, q: TerminalPayment, listing: Id, expected: int)
    ensures ReviewPayment(db, now, id, q, listing, expected).users == db.users
  {
  }

  lemma ProviderUsers(db: Db, e: SessionEvent, found: Option<Id>, r: RefundEvent, references: set<Id>)
    ensures After(SessionExpired(db, e), db).users == db.users
    ensures After(RefundReported(db, found, r), db).users == db.users
    ensures After(Disputed(db, references), db).users == db.users
  {
    hide RecordRefund, MarkActions, CumulativeRefund, RefundDisposition, BoundSession;
  }

  lemma ClaimUsers(db: Db, now: int, action: Id)
    ensures After(ClaimRefund(db, now, action), db).users == db.users
  {
    ClaimForm(db, now, action);
    hide Due, ClaimedRow, ClaimOn, ClaimRefund, After;
  }

  lemma WorkUsers(db: Db, now: int, c: Claim, succeeded: bool)
    ensures After(CompleteRefund(db, now, c, succeeded), db).users == db.users
    ensures After(FailRefund(db, now, c.action), db).users == db.users
  {
  }

  lemma OperatorUsers(db: Db, now: int, action: Id)
    ensures After(RetryRefund(db, now, action), db).users == db.users
    ensures After(ResolveRefund(db, action), db).users == db.users
  {
  }

  lemma MoneyAdministrators(db: Db, now: int, step: MoneyStep)
    ensures AdministratorsStay(db.users, ApplyMoney(db, now, step).users)
  {
    NobodyChanges(db.users);
    hide After, AdministratorsStay, SessionExpired, SessionPaid, RefundReported, Disputed, PayTerminal;
    hide ClaimRefund, CompleteRefund, FailRefund, RetryRefund, ResolveRefund;
    var (e, r, c) := (SessionEvent(0, 0, 0, 0, Linden(0)), ChargeRefunded(0, RefundSucceeded), Claim(0, 0, 0, 0, 0));
    match step
    case StripePaid(id, e) => SessionUsers(db, now, id, e);
    case TerminalPays(id, q) => TerminalUsers(db, now, id, q);
    case StripeExpired(e) => ProviderUsers(db, e, None, r, {});
    case StripeRefund(found, r) => ProviderUsers(db, e, found, r, {});
    case StripeDispute(references) => ProviderUsers(db, e, None, r, references);
    case WorkerClaims(a) => ClaimUsers(db, now, a);
    case WorkerCompletes(c, succeeded) => WorkUsers(db, now, c, succeeded);
    case WorkerFails(a) => WorkUsers(db, now, c.(action := a), true);
    case OperatorRetries(a) => OperatorUsers(db, now, a);
    case OperatorResolves(a) => OperatorUsers(db, now, a);
  }

  lemma ReviewedPayment(db: Db, payment: Id)
    requires Reviewable(db, payment)
    ensures payment in db.payments && db.payments[payment].invoice in db.invoices
  {
  }

  lemma DeskAdministrators(db: Db, now: int, step: DeskStep)
    requires EnabledDesk(db, step) && !step.SetRole?
    ensures AdministratorsStay(db.users, ApplyDesk(db, now, step).users)
  {
    NobodyChanges(db.users);
    hide CancelOverdue, EndLapsed, ExpireOverdueAttempts, VoidOverdueInvoices, LapseReservations, RedeemReservations, Promote;
    hide ReservedAgainst, Vacant, Reviewable, SettleReceipts, OwnLease, Unlinked, RentsNow, AdministratorsStay, Eligible;
    match step
    case ApproveAsStart(id, p) =>
      if ApproveStart(db, now, id, p).Commit? {
        ReviewedPayment(db, p);
        PromotionStays(db.users, db.invoices[db.payments[p].invoice].user);
      }
    case ApproveAsExtension(p) =>
      if ApproveExtension(db, now, p).Commit? {
        ReviewedPayment(db, p);
        PromotionStays(db.users, db.invoices[db.payments[p].invoice].user);
      }
    case AdminActivate(id, i, weeks) =>
      if Activate(db, now, id, i, weeks).Commit? {
        PromotionStays(db.users, db.invoices[i].user);
      }
    case NamePayer(id, t, e) => NewcomerStays(db.users, id, User(Resident, true));
    case _ =>
  }

  /** The last active administrator cannot be demoted. */
  lemma LastAdministratorStays(db: Db, now: int, actor: Id, target: Id, role: Role)
    requires ActiveAdministrators(db.users) != {}
    ensures ActiveAdministrators(After(ChangeRole(db, now, actor, target, role), db).users) != {}
  {
    var after := After(ChangeRole(db, now, actor, target, role), db);
    hide RentsNow;
    var admins := ActiveAdministrators(db.users);
    var other :| other in admins;
    if target in admins && role != Administrator && after != db {
      assert |admins - {target}| >= 1;
      other :| other in admins - {target};
    }
    assert other in ActiveAdministrators(after.users);
  }

  lemma StayingRemain(users: map<Id, User>, after: map<Id, User>)
    requires AdministratorsStay(users, after) && ActiveAdministrators(users) != {}
    ensures ActiveAdministrators(after) != {}
  {
    hide ActiveAdministrators;
  }

  lemma StepAdministrators(db: Db, now: int, step: Step)
    requires Enabled(db, step) && ActiveAdministrators(db.users) != {}
    ensures ActiveAdministrators(Apply(db, now, step).users) != {}
  {
    hide ActiveAdministrators, ApplyCheckout, ApplyMoney, EnabledCheckout, EnabledMoney, EnabledDesk, AdministratorsStay, ChangeRole;
    hide ApproveStart, ApproveExtension, RejectPayment, ResolvePayment, ResolveIdentity, RejectReceipt, Activate, ExtendLease, EndLease;
    match step
    case AtCheckout(s) =>
      CheckoutAdministrators(db, now, s);
      StayingRemain(db.users, Apply(db, now, step).users);
    case OfMoney(s) =>
      MoneyAdministrators(db, now, s);
      StayingRemain(db.users, Apply(db, now, step).users);
    case AtDesk(s) =>
      if s.SetRole? {
        LastAdministratorStays(db, now, s.actor, s.subject, s.role);
      } else {
        DeskAdministrators(db, now, s);
        StayingRemain(db.users, Apply(db, now, step).users);
      }
  }

  /** An active administrator remains after every run. */
  lemma {:induction false} AdministratorRemains(db: Db, moments: seq<Moment>)
    requires Runnable(db, moments) && ActiveAdministrators(db.users) != {}
    ensures ActiveAdministrators(Run(db, moments).users) != {}
    decreases |moments|
  {
    hide Apply, Enabled, ActiveAdministrators;
    if moments != [] {
      StepAdministrators(db, moments[0].now, moments[0].step);
      AdministratorRemains(Apply(db, moments[0].now, moments[0].step), moments[1..]);
    }
  }
}
