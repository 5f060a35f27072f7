/** Where roles come from: who makes renters, administrators and other staff, and whose leases stay with renters. */
module Roles {
  import opened Tables
  import opened Pricing
  import opened Allocation
  import opened Invariants
  import opened Evolution
  import opened Transactions
  import opened Runs
  import opened ClockedRuns
  import opened Postings
  import opened CheckoutEffects
  import DeskEffects
  import LeaseWeeks
  import MoneyEffects
  import TerminalPayments

  // ---------- what one transaction does to users ----------

  /** One entry more in the ledger. */
  predicate Entered(db: Db, after: Db) {
    after.ledger.Posted? && after.ledger.earlier == db.ledger
  }

  /** No user changes, and no lease is credited. */
  predicate Nobody(db: Db, after: Db) {
    && after.users == db.users
    && (after.ledger == db.ledger || (Entered(db, after) && (after.ledger.entry.source.ByExtension? || after.ledger.entry.source.ByEnding?)))
  }

  /** A lease is credited; its owner, an active user, is a renter from then on unless an administrator, and no other user changes. */
  predicate Tenant(db: Db, after: Db) {
    && Entered(db, after) && after.ledger.entry.rental in after.rentals
    && var u := after.rentals[after.ledger.entry.rental].user;
    && u in db.users && db.users[u].active
    && after.users == db.users[u := AsTenant(db.users[u])]
  }

  /** A lease that runs is credited, and no user changes. */
  predicate OnRunning(db: Db, now: int, after: Db) {
    && Entered(db, after) && after.ledger.entry.rental in db.rentals && after.users == db.users
    && db.rentals[after.ledger.entry.rental].status == Active && now < db.rentals[after.ledger.entry.rental].endsAt
  }

  /** An active resident more. */
  predicate Newcomer(db: Db, after: Db, id: Id) {
    after.ledger == db.ledger && id !in db.users && after.users == db.users[id := User(Resident, true)]
  }

  /** An active administrator gives somebody a role; not one that cannot own the hold or lease that is running. */
  predicate Given(db: Db, now: int, after: Db, actor: Id, subject: Id, role: Role) {
    && after.ledger == db.ledger && after.rentals == db.rentals
    && actor in db.users && db.users[actor] == User(Administrator, true) && subject in db.users
    && after.users == db.users[subject := User(role, db.users[subject].active)]
    && (role == Renter || role == Administrator
        || forall r | r in db.rentals && db.rentals[r].user == subject && db.rentals[r].status == Active :: db.rentals[r].endsAt <= now)
  }

  /** All that a transaction may do to users. */
  predicate UsersMove(db: Db, now: int, step: Step, after: Db) {
    || Nobody(db, after) || Tenant(db, after)
    || (step.OfMoney? && step.money.TerminalPays? && OnRunning(db, now, after))
    || match step
       case AtCheckout(SignUp(id, _)) => Newcomer(db, after, id)
       case AtDesk(NamePayer(id, _, _)) => Newcomer(db, after, id)
       case AtDesk(SetRole(actor, subject, role)) => Given(db, now, after, actor, subject, role)
       case _ => false
  }

  /** Only users, the ledger and the owners of rentals matter to that. */
  lemma SameForUsers(db: Db, after: Db, other: Db)
    requires SameMovables(after, other)
    ensures (Nobody(db, other) <==> Nobody(db, after)) && (Tenant(db, other) <==> Tenant(db, after))
  {
  }

  lemma NobodyMoves(db: Db)
    ensures Nobody(db, db)
  {
  }

  lemma SettleMoves(db: Db, now: int, id: Id, invoice: Id, reference: Reference, amount: Amount)
    requires InvoicesBound(db.rentals, db.invoices)
    ensures var after := After(Settle(db, now, id, invoice, reference, amount), db); Nobody(db, after) || Tenant(db, after)
  {
    if Settle(db, now, id, invoice, reference, amount).Commit? {
      SettlementMeans(db, now, id, invoice, reference, amount);
      MayRentIff(db.users, db.invoices[invoice].user);
    }
    hide Settle, RedeemReservations, Eligible;
  }

  lemma SimulationMoves(db: Db, now: int, id: Id, hold: Hold)
    requires InvoicesBound(db.rentals, db.invoices)
    ensures var after := After(SettleSimulated(db, now, id, hold), db); Nobody(db, after) || Tenant(db, after)
  {
    var settled := Settle(db, now, id, hold.invoice, BySimulation(hold.attempt), Minor(hold.amount, hold.currency));
    SimulationMeans(db, now, id, hold);
    SettleMoves(db, now, id, hold.invoice, BySimulation(hold.attempt), Minor(hold.amount, hold.currency));
    NobodyMoves(db);
    hide Settle, SettleSimulated, Nobody, Tenant, InvoicesBound;
    if SettleSimulated(db, now, id, hold).Commit? {
      SameForUsers(db, settled.db, SettleSimulated(db, now, id, hold).db);
    }
  }

  predicate SameMovables(db: Db, after: Db) {
    after.users == db.users && after.ledger == db.ledger && after.rentals == db.rentals
  }

  lemma AttemptsAside(db: Db, attempts: map<Id, Attempt>)
    ensures SameMovables(db, db.(attempts := attempts))
  {
  }

  lemma PaymentsAside(db: Db, payments: map<Id, Payment>, actions: map<Id, Action>)
    ensures SameMovables(db, db.(payments := payments, actions := actions))
  {
  }

  /** A paid session that is accepted leaves users, ledger and rentals as they were, or as the settlement makes them. */
  lemma PaidMovables(db: Db, now: int, id: Id, e: SessionEvent)
    requires SessionPaid(db, now, id, e).Commit?
    ensures var after, settled := SessionPaid(db, now, id, e).db, Settle(db, now, id, e.invoice, ByIntent(e.intent), e.amount);
            SameMovables(db, after) || (settled.Commit? && SameMovables(settled.db, after))
  {
    hide *;
    SessionPaidCases(db, now, id, e);
    BoundIff(db, e);
    var completed := CompletedAttempts(db.attempts, e.attempt);
    AttemptsAside(db, completed);
    if Settle(db, now, id, e.invoice, ByIntent(e.intent), e.amount).Commit? {
      AttemptsAside(Settle(db, now, id, e.invoice, ByIntent(e.intent), e.amount).db, completed);
    }
    PaymentsAside(db, SessionPaid(db, now, id, e).db.payments, SessionPaid(db, now, id, e).db.actions);
  }

  lemma SessionMoves(db: Db, now: int, id: Id, e: SessionEvent)
    requires InvoicesBound(db.rentals, db.invoices)
    ensures var after := After(SessionPaid(db, now, id, e), db); Nobody(db, after) || Tenant(db, after)
  {
    var paid, settled := SessionPaid(db, now, id, e), Settle(db, now, id, e.invoice, ByIntent(e.intent), e.amount);
    hide *;
    NobodyMoves(db);
    Unchanged(paid, db);
    if paid.Commit? {
      PaidMovables(db, now, id, e);
      SettleMoves(db, now, id, e.invoice, ByIntent(e.intent), e.amount);
      Unchanged(settled, db);
      if SameMovables(db, paid.db) {
        SameForUsers(db, db, paid.db);
      } else {
        SameForUsers(db, settled.db, paid.db);
      }
    }
  }

  lemma BeginMoves(db: Db, now: int, id: Id, target: Target, user: Id)
    ensures Nobody(db, After(BeginAttempt(OpenTarget(db, now, id, target, user), id), db))
  {
    BeginUsers(db, now, id, target, user);
    LeaseWeeks.BeginLedger(db, now, id, target, user);
    hide BeginAttempt, OpenTarget;
  }

  lemma ReplaceMoves(db: Db, now: int, id: Id, hold: Hold, user: Id)
    ensures Nobody(db, After(Replace(db, now, id, hold, user), db))
  {
    hide OpenTarget, BeginAttempt, GiveUp;
    if Replace(db, now, id, hold, user).Commit? {
      GiveUpUsers(db, hold);
      LeaseWeeks.GiveUpLedger(db, hold);
      BeginMoves(GiveUp(db, hold), now, id, if hold.renewal then OfRental(hold.rental) else OfListing(hold.listing), user);
    }
  }

  lemma CheckoutMoves(db: Db, now: int, step: CheckoutStep)
    requires EnabledCheckout(db, step) && InvoicesBound(db.rentals, db.invoices)
    ensures UsersMove(db, now, AtCheckout(step), ApplyCheckout(db, now, step))
  {
    NobodyMoves(db);
    hide CancelOverdue, EndLapsed, ExpireOverdueAttempts, VoidOverdueInvoices, LapseReservations, LapseOverdue;
    hide Occupied, IsReserved, Verified, IsReplay, ExistingRow, Offered, Eligible, HoldOf;
    hide OpenTarget, BeginAttempt, GiveUp, Replace, Recorded, SettleSimulated, InvoicesBound, Tenant;
    match step
    case AcquireAttempt(id, target, user) => BeginMoves(db, now, id, target, user);
    case ReplaceExpired(id, hold, user) => ReplaceMoves(db, now, id, hold, user);
    case Simulate(id, hold, user) => SimulationMoves(db, now, id, hold);
    case _ =>
  }

  lemma LengthenMoves(db: Db, now: int, id: Id, q: TerminalPayment, listing: Id, r: Id, weeks: int)
    requires LeaseOn(db.rentals, now, listing, r) && weeks >= 0
    ensures OnRunning(db, now, Lengthen(db, now, id, q, r, weeks))
  {
  }

  lemma ReviewMoves(db: Db, now: int, id: Id, q: TerminalPayment, listing: Id, expected: int)
    ensures Nobody(db, ReviewPayment(db, now, id, q, listing, expected))
  {
  }

  lemma FirstMoves(db: Db, now: int, id: Id, q: TerminalPayment, listing: Id, user: Id, weeks: int)
    requires Eligible(db.users, user) && weeks >= 0
    ensures Tenant(db, StartLease(db, now, id, q, listing, user, weeks))
  {
    PromotionMeans(db.users, user);
    MayRentIff(db.users, user);
    hide Eligible, Promote, RedeemReservations;
  }

  lemma SeenMoves(db: Db, now: int, id: Id, q: TerminalPayment, listing: Id, weekly: int, r: Id)
    requires LeaseOn(db.rentals, now, listing, r) && weekly > 0
    ensures var after := TerminalPayments.OnLeased(db, now, id, q, listing, weekly, r).db; Nobody(db, after) || OnRunning(db, now, after)
  {
    hide Eligible, ValidWeeks, PaidWeeks, ExpectedAmount, Lengthen, ReviewPayment, Nobody, OnRunning;
    TerminalPayments.WholeWeeks(q.amount, 0, weekly);
    ReviewMoves(db, now, id, q, listing, ExpectedAmount(q.amount, 0, weekly));
    if ValidWeeks(q.amount, 0, weekly) {
      LengthenMoves(db, now, id, q, listing, r, PaidWeeks(q.amount, 0, weekly));
    }
  }

  lemma FreeMoves(db: Db, now: int, id: Id, q: TerminalPayment, listing: Id, setup: int, weekly: int)
    requires weekly > 0
    ensures var after := TerminalPayments.OnFree(db, now, id, q, listing, setup, weekly).db; Nobody(db, after) || Tenant(db, after)
  {
    hide Eligible, ValidWeeks, PaidWeeks, ExpectedAmount, Vacant, ReservedAgainst, StartLease, ReviewPayment, Nobody, Tenant;
    TerminalPayments.WholeWeeks(q.amount, setup, weekly);
    ReviewMoves(db, now, id, q, listing, ExpectedAmount(q.amount, setup, weekly));
    if ValidWeeks(q.amount, setup, weekly) && q.payer in db.identities && Eligible(db.users, db.identities[q.payer]) {
      FirstMoves(db, now, id, q, listing, db.identities[q.payer], PaidWeeks(q.amount, setup, weekly));
    }
  }

  /** On the cleaned listing: the lease that the terminal sees is lengthened, a first payment makes a tenant, and a review
      changes nobody. */
  lemma DecidedMoves(db: Db, now: int, id: Id, q: TerminalPayment, listing: Id, p: Price)
    ensures var after := TerminalPayments.OnClean(db, now, id, q, listing, p).db;
            Nobody(db, after) || Tenant(db, after) || OnRunning(db, now, after)
  {
    hide TerminalPayments.OnLeased, TerminalPayments.OnFree, Nobody, Tenant, OnRunning;
    if exists r :: LinkedLease(db, now, listing, r) {
      SeenMoves(db, now, id, q, listing, p.weeklyLinden, SeenLease(db, now, listing));
    } else {
      FreeMoves(db, now, id, q, listing, p.setupLinden, p.weeklyLinden);
    }
  }

  lemma TerminalMoves(db: Db, now: int, id: Id, q: TerminalPayment)
    ensures var after := After(PayTerminal(db, now, id, q), db);
            Nobody(db, after) || Tenant(db, after) || OnRunning(db, now, after)
  {
    MoneyEffects.AcceptedIff(db, now, id, q);
    NobodyMoves(db);
    hide PayTerminal, Nobody, Tenant, OnRunning, Clean;
    if PayTerminal(db, now, id, q).Commit? && (q.terminal, q.event) !in db.receipts {
      MoneyEffects.EventDecided(db, now, id, q);
      var listing := db.terminals[q.terminal];
      DecidedMoves(Clean(db, now, listing), now, id, q, listing, LeaseWeeks.PriceAt(db, q.terminal));
      CleanMoves(db, now, listing, PayTerminal(db, now, id, q).db);
    }
  }

  /** Cleaning first makes no difference: a lease that still runs after it ran before. */
  lemma CleanMoves(db: Db, now: int, listing: Id, after: Db)
    requires var clean := Clean(db, now, listing); Nobody(clean, after) || Tenant(clean, after) || OnRunning(clean, now, after)
    ensures Nobody(db, after) || Tenant(db, after) || OnRunning(db, now, after)
  {
    AllocationCleans(db, now, listing);
    CleanupMeans(db, now, Some(listing));
    hide Clean, Sweep, LapseReservations;
  }

  lemma MoneyMoves(db: Db, now: int, step: MoneyStep)
    requires InvoicesBound(db.rentals, db.invoices)
    ensures UsersMove(db, now, OfMoney(step), ApplyMoney(db, now, step))
  {
    hide After, SessionExpired, SessionPaid, RefundReported, Disputed, PayTerminal, InvoicesBound, Tenant, OnRunning;
    hide ClaimRefund, CompleteRefund, FailRefund, RetryRefund, ResolveRefund;
    match step
    case StripePaid(id, e) => SessionMoves(db, now, id, e);
    case TerminalPays(id, q) => TerminalMoves(db, now, id, q);
    case StripeExpired(e) =>
      ProviderUsers(db, e, None, ChargeRefunded(0, RefundSucceeded), {});
      LeaseWeeks.ExpiryLedger(db, e);
    case StripeRefund(found, r) =>
      ProviderUsers(db, SessionEvent(0, 0, 0, 0, Linden(0)), found, r, {});
      LeaseWeeks.NoticeLedger(db, found, r, {});
    case StripeDispute(references) =>
      ProviderUsers(db, SessionEvent(0, 0, 0, 0, Linden(0)), None, ChargeRefunded(0, RefundSucceeded), references);
      LeaseWeeks.NoticeLedger(db, None, ChargeRefunded(0, RefundSucceeded), references);
    case WorkerClaims(a) =>
      ClaimUsers(db, now, a);
      LeaseWeeks.ClaimLedger(db, now, a);
    case WorkerCompletes(c, succeeded) =>
      WorkUsers(db, now, c, succeeded);
      LeaseWeeks.WorkLedger(db, now, c, succeeded, 0);
    case WorkerFails(a) =>
      WorkUsers(db, now, Claim(a, 0, 0, 0, 0), true);
      LeaseWeeks.WorkLedger(db, now, Claim(a, 0, 0, 0, 0), true, a);
    case OperatorRetries(a) =>
      OperatorUsers(db, now, a);
      LeaseWeeks.OperatorLedger(db, now, a);
    case OperatorResolves(a) =>
      OperatorUsers(db, now, a);
      LeaseWeeks.OperatorLedger(db, now, a);
  }

  lemma StartMoves(db: Db, now: int, id: Id, p: Id)
    ensures var after := After(ApproveStart(db, now, id, p), db); Nobody(db, after) || Tenant(db, after)
  {
    DeskEffects.StartApproved(db, now, id, p);
    hide ApproveStart, Clean, Reviewable, Vacant, ReservedAgainst, RedeemReservations, SettleReceipts, Eligible;
    if ApproveStart(db, now, id, p).Commit? {
      var i := db.invoices[db.payments[p].invoice];
      CleanKeys(db, now, i.listing);
      MayRentIff(db.users, i.user);
    }
  }

  lemma ExtensionMoves(db: Db, now: int, p: Id)
    requires OneLiveRental(db.rentals)
    ensures var after := After(ApproveExtension(db, now, p), db); Nobody(db, after) || Tenant(db, after)
  {
    hide ApproveExtension, Reviewable, LapseReservations, SettleReceipts, Eligible, OneLiveRental;
    DeskEffects.ExtensionNeeds(db, now, p);
    if ApproveExtension(db, now, p).Commit? {
      var r :| DeskEffects.Owns(db, now, p, r);
      DeskEffects.ExtensionApproved(db, now, p, r);
      MayRentIff(db.users, db.invoices[db.payments[p].invoice].user);
    }
  }

  lemma ActivationMoves(db: Db, now: int, id: Id, invoice: Id, weeks: int)
    ensures var after := After(Activate(db, now, id, invoice, weeks), db); Nobody(db, after) || Tenant(db, after)
  {
    DeskEffects.ActivationMeans(db, now, id, invoice, weeks);
    hide Activate, Vacant, ReservedAgainst, RedeemReservations, Eligible;
    if Activate(db, now, id, invoice, weeks).Commit? {
      MayRentIff(db.users, db.invoices[invoice].user);
    }
  }

  lemma RoleMoves(db: Db, now: int, actor: Id, subject: Id, role: Role)
    ensures var after := After(ChangeRole(db, now, actor, subject, role), db);
            Nobody(db, after) || Given(db, now, after, actor, subject, role)
  {
    DeskEffects.RoleMeans(db, now, actor, subject, role);
    hide ChangeRole, DeskEffects.OnlyAdministrator;
  }

  lemma DeskMoves(db: Db, now: int, step: DeskStep)
    requires EnabledDesk(db, step) && OneLiveRental(db.rentals)
    ensures UsersMove(db, now, AtDesk(step), ApplyDesk(db, now, step))
  {
    NobodyMoves(db);
    hide ApproveStart, ApproveExtension, ResolveIdentity, RejectReceipt, RejectPayment, ResolvePayment;
    hide Activate, ExtendLease, EndLease, ChangeRole, OneLiveRental, Tenant, Given, Reviewable, Unlinked, SettleReceipts;
    match step
    case ApproveAsStart(id, p) => StartMoves(db, now, id, p);
    case ApproveAsExtension(p) => ExtensionMoves(db, now, p);
    case AdminActivate(id, i, weeks) => ActivationMoves(db, now, id, i, weeks);
    case AdminExtend(r, weeks) => ExtensionMeans(db, now, r, weeks);
    case AdminEnd(r) => EndMeans(db, now, r);
    case NamePayer(id, t, e) => DeskEffects.IdentityMeans(db, now, id, t, e);
    case RejectEvent(t, e) => DeskEffects.IdentityMeans(db, now, 0, t, e);
    case Reject(p) => DeskEffects.RejectionMeans(db, p);
    case Resolve(p) => DeskEffects.RejectionMeans(db, p);
    case SetRole(actor, subject, role) => RoleMoves(db, now, actor, subject, role);
  }

  /** Whatever the transaction: users change only by a role that an active administrator gives, by the credit of a lease, which
      makes its owner a renter, or by one more active resident. */
  lemma StepUsers(db: Db, now: int, step: Step)
    requires Inv(db) && Enabled(db, step)
    ensures UsersMove(db, now, step, Apply(db, now, step))
  {
    assert InvoicesBound(db.rentals, db.invoices) && OneLiveRental(db.rentals) by {
      hide *;
      Parts(db);
    }
    hide Inv, InvoicesBound, OneLiveRental, EnabledCheckout, EnabledDesk, ApplyCheckout, ApplyMoney, ApplyDesk, UsersMove;
    match step
    case AtCheckout(s) => CheckoutMoves(db, now, s);
    case OfMoney(s) => MoneyMoves(db, now, s);
    case AtDesk(s) => DeskMoves(db, now, s);
  }

  // ---------- where a role comes from ----------

  /** The transaction made the user what it is: an active administrator gave the role, or a lease of the user was credited. */
  ghost predicate Makes(db: Db, m: Moment, u: Id, role: Role) {
    || (m.step.AtDesk? && m.step.desk.SetRole? && m.step.desk.subject == u && m.step.desk.role == role
        && m.step.desk.actor in db.users && db.users[m.step.desk.actor] == User(Administrator, true))
    || (role == Renter
        && var after := Apply(db, m.now, m.step);
        && Tenant(db, after) && after.rentals[after.ledger.entry.rental].user == u)
  }

  lemma StepRole(db: Db, m: Moment, u: Id)
    requires var after := Apply(db, m.now, m.step); UsersMove(db, m.now, m.step, after) && u in after.users
    ensures var after := Apply(db, m.now, m.step);
            || (u in db.users && db.users[u].role == after.users[u].role)
            || (u !in db.users && after.users[u] == User(Resident, true) && after.ledger == db.ledger
                && (m.step.AtCheckout? ==> m.step.checkout.SignUp?) && (m.step.AtDesk? ==> m.step.desk.NamePayer?) && !m.step.OfMoney?)
            || Makes(db, m, u, after.users[u].role)
  {
    hide Apply;
  }

  lemma OneMoment(db: Db, moments: seq<Moment>, i: nat)
    requires moments != [] && i < |moments| - 1
    ensures Run(db, moments[..i + 1]) == Run(Apply(db, moments[0].now, moments[0].step), moments[1..][..i])
    ensures moments[1..][i] == moments[i + 1]
  {
    hide Apply;
    assert moments[..i + 1][0] == moments[0] && moments[..i + 1][1..] == moments[1..][..i];
  }

  lemma UsersStay(db: Db, now: int, step: Step, u: Id)
    requires UsersMove(db, now, step, Apply(db, now, step)) && u in db.users
    ensures u in Apply(db, now, step).users
  {
    hide Apply;
  }

  /** After any run, everybody's role is the one it was at the start; or RESIDENT, for a user who was not there; or some
      transaction of the run made it: an active administrator's SetRole, or, for a RENTER, the credit of a lease of that user. */
  lemma {:induction false} RoleHasOrigin(db: Db, moments: seq<Moment>, u: Id) returns (i: nat)
    requires Runnable(db, moments) && u in Run(db, moments).users
    requires Inv(db)
    ensures var role := Run(db, moments).users[u].role;
            || (u in db.users && db.users[u].role == role)
            || (u !in db.users && role == Resident)
            || (i < |moments| && Makes(Run(db, moments[..i]), moments[i], u, role))
    decreases |moments|
  {
    hide Inv, Keeps, Evolves, Apply, Enabled, UsersMove, Makes;
    i := 0;
    if moments != [] {
      var m := moments[0];
      var next := Apply(db, m.now, m.step);
      StepKeeps(db, m.now, m.step);
      Kept(db, next);
      StepUsers(db, m.now, m.step);
      var j := RoleHasOrigin(next, moments[1..], u);
      assert moments[..0] == [] && Run(db, moments[..0]) == db;
      if u in db.users {
        UsersStay(db, m.now, m.step, u);
      }
      if j < |moments| - 1 && Makes(Run(next, moments[1..][..j]), moments[1..][j], u, Run(db, moments).users[u].role) {
        OneMoment(db, moments, j);
        i := j + 1;
      } else if u in next.users {
        StepRole(db, m, u);
      }
    }
  }

  /** Nobody becomes an administrator, a manager or an agent but by an active administrator's hand. */
  lemma AdministratorsAreMade(db: Db, moments: seq<Moment>, u: Id) returns (i: nat)
    requires Runnable(db, moments) && u in Run(db, moments).users
    requires Inv(db)
    ensures var role := Run(db, moments).users[u].role;
            role in {Administrator, Manager, Agent} ==>
              || (u in db.users && db.users[u].role == role)
              || (&& i < |moments| && moments[i].step.AtDesk? && moments[i].step.desk.SetRole?
                  && var s, users := moments[i].step.desk, Run(db, moments[..i]).users;
                  && s.subject == u && s.role == role && s.actor in users && users[s.actor] == User(Administrator, true))
  {
    hide Inv, Run, Runnable, Apply, Tenant;
    i := RoleHasOrigin(db, moments, u);
  }

  /** Whoever a run adds starts as an active resident, who signed up or was named as the payer of a terminal event. */
  lemma {:induction false} NewcomersAreResidents(db: Db, moments: seq<Moment>, u: Id) returns (i: nat)
    requires Runnable(db, moments) && u in Run(db, moments).users && u !in db.users
    requires Inv(db)
    ensures i < |moments|
    ensures var before, after := Run(db, moments[..i]), Run(db, moments[..i + 1]);
            u !in before.users && u in after.users && after.users[u] == User(Resident, true)
    ensures (moments[i].step.AtCheckout? && moments[i].step.checkout.SignUp?) || (moments[i].step.AtDesk? && moments[i].step.desk.NamePayer?)
    decreases |moments|
  {
    hide Inv, Keeps, Evolves, Apply, Enabled, UsersMove;
    var m := moments[0];
    var next := Apply(db, m.now, m.step);
    StepKeeps(db, m.now, m.step);
    Kept(db, next);
    StepUsers(db, m.now, m.step);
    if u in next.users {
      i := 0;
      StepRole(db, m, u);
      NoCreditOfNobody(db, m, u);
      assert moments[..0] == [] && moments[..1][0] == m && moments[..1][1..] == [];
      assert Run(db, moments[..1]) == Run(next, []);
    } else {
      var j := NewcomersAreResidents(next, moments[1..], u);
      i := j + 1;
      OneMoment(db, moments, j);
      if j + 1 < |moments| - 1 {
        OneMoment(db, moments, j + 1);
      } else {
        assert moments[..j + 2] == moments && moments[1..][..j + 1] == moments[1..];
      }
    }
  }

  lemma NoCreditOfNobody(db: Db, m: Moment, u: Id)
    requires u !in db.users && UsersMove(db, m.now, m.step, Apply(db, m.now, m.step)) && u in Apply(db, m.now, m.step).users
    ensures forall role :: !Makes(db, m, u, role)
  {
    hide Apply;
  }
}
