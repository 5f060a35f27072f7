/** Why rentals end: a lease only when its time is over or an administrator ends it, a hold only when its time is over, its
    session expires, or it is paid. */
module Endings {
  import opened Tables
  import opened Pricing
  import opened Allocation
  import opened Invariants
  import opened Evolution
  import opened Transactions
  import opened Runs
  import opened Postings
  import opened CheckoutEffects
  import opened Roles
  import DeskEffects
  import Tenants
  import Theorems
  import MoneyEffects
  import LeaseWeeks
  import TerminalPayments

  // ---------- one transaction ----------

  /** The transaction gives up the hold because its session expired. */
  ghost predicate GivesUp(db: Db, step: Step, r: Id) {
    match step
    case AtCheckout(ReplaceExpired(_, hold, _)) => hold.rental == r && !hold.renewal
    case OfMoney(StripeExpired(e)) =>
      BoundSession(db, e) && db.invoices[e.invoice].rental == Some(r) && db.invoices[e.invoice].status == Open
    case _ => false
  }

  /** What is posted for a rental: its end, by an administrator; the start of a paid week, for a hold; more time, for a lease. */
  predicate Posts(row: Rental, now: int, e: Entry, s: Rental) {
    if e.source.ByEnding? then s == row.(status := Ended, endsAt := s.endsAt)
    else if row.status == Pending then e.source.ByPayment? && s == row.(status := Active, startsAt := now, endsAt := now + 604800)
    else row.status == Active && s == row.(endsAt := s.endsAt)
  }

  /** All that a transaction may do to a rental: nothing; cancel a hold that has run out or is given up; end a lease that has run
      out; what an entry of the ledger says. */
  ghost predicate RowMoves(db: Db, now: int, step: Step, rs: map<Id, Rental>, m: Ledger, r: Id)
    requires r in db.rentals
  {
    && r in rs
    && var row := db.rentals[r];
    || rs[r] == row
    || (row.status == Pending && rs[r] == row.(status := Cancelled) && (row.endsAt <= now || GivesUp(db, step, r)))
    || (row.status == Active && rs[r] == row.(status := Ended) && row.endsAt <= now)
    || (m.Posted? && m.earlier == db.ledger && m.entry.rental == r && Posts(row, now, m.entry, rs[r]))
  }

  lemma RowStays(db: Db, now: int, step: Step, r: Id)
    requires r in db.rentals
    ensures RowMoves(db, now, step, db.rentals, db.ledger, r)
  {
  }

  /** Nothing but cleaning. */
  predicate Cleans(db: Db, now: int, rs: map<Id, Rental>, r: Id)
    requires r in db.rentals
  {
    && r in rs
    && var row := db.rentals[r];
    || rs[r] == row
    || (row.status == Pending && rs[r] == row.(status := Cancelled) && row.endsAt <= now)
    || (row.status == Active && rs[r] == row.(status := Ended) && row.endsAt <= now)
  }

  lemma SweepCleans(db: Db, now: int, scope: Option<Id>, r: Id)
    requires r in db.rentals
    ensures Cleans(db, now, Sweep(db, now, scope).rentals, r)
  {
    CleanupMeans(db, now, scope);
    hide Sweep;
  }

  lemma CleanCleans(db: Db, now: int, listing: Id, r: Id)
    requires r in db.rentals
    ensures Cleans(db, now, Clean(db, now, listing).rentals, r)
  {
    SweepCleans(db, now, Some(listing), r);
    AllocationCleans(db, now, listing);
    hide Sweep, Clean, LapseReservations;
  }

  lemma BeginCleans(db: Db, now: int, id: Id, target: Target, user: Id, r: Id)
    requires r in db.rentals && id != r
    ensures Cleans(db, now, After(BeginAttempt(OpenTarget(db, now, id, target, user), id), db).rentals, r)
  {
    match target {
      case OfListing(listing) =>
        HoldMeans(db, now, id, listing, user);
        CleanCleans(db, now, listing, r);
      case OfRental(rental) => RenewalMeans(db, now, id, rental, user);
    }
    hide OpenHold, OpenRenewal, Clean, LapseReservations, HoldOf, Eligible, Offered, Occupied, ReservedAgainst;
  }

  lemma ReplaceMoves(db: Db, now: int, id: Id, hold: Hold, user: Id, r: Id)
    requires r in db.rentals && id !in db.rentals && Recorded(db, hold, user)
    ensures RowMoves(db, now, AtCheckout(ReplaceExpired(id, hold, user)), After(Replace(db, now, id, hold, user), db).rentals, db.ledger, r)
  {
    hide BeginAttempt, OpenTarget, Recorded;
    if Replace(db, now, id, hold, user).Commit? {
      var freed := GiveUp(db, hold);
      assert r in freed.rentals;
      BeginCleans(freed, now, id, if hold.renewal then OfRental(hold.rental) else OfListing(hold.listing), user, r);
    }
  }

  lemma CheckoutRows(db: Db, now: int, step: CheckoutStep, r: Id)
    requires r in db.rentals && EnabledCheckout(db, step) && InvoicesBound(db.rentals, db.invoices)
    ensures var after := ApplyCheckout(db, now, step); RowMoves(db, now, AtCheckout(step), after.rentals, after.ledger, r)
  {
    RowStays(db, now, AtCheckout(step), r);
    hide Sweep, Poll, Clean, Acquire, Replace, Reserve, SettleSimulated, OpenTarget, BeginAttempt, InvoicesBound, LapseAll, Recorded;
    match step
    case CleanUp(scope) => SweepCleans(db, now, scope, r);
    case PollTerminal(listing) => PollMeans(db, now, listing);
    case AcquireAttempt(id, target, user) => AcquireCleans(db, now, id, target, user, r);
    case ReplaceExpired(id, hold, user) =>
      ReplaceMoves(db, now, id, hold, user, r);
      ReplaceLedger(db, now, id, hold, user);
    case Simulate(id, hold, user) => SimulationRows(db, now, id, hold, user, r);
    case MakeReservation(wall, id, actor, q) => ReserveCleans(db, wall, now, id, actor, q, r);
    case ListReservations => ListingMeans(db, now);
    case _ =>
  }

  lemma ReplaceLedger(db: Db, now: int, id: Id, hold: Hold, user: Id)
    ensures After(Replace(db, now, id, hold, user), db).ledger == db.ledger
  {
    hide OpenTarget, BeginAttempt, GiveUp;
    if Replace(db, now, id, hold, user).Commit? {
      LeaseWeeks.GiveUpLedger(db, hold);
      LeaseWeeks.BeginLedger(GiveUp(db, hold), now, id, if hold.renewal then OfRental(hold.rental) else OfListing(hold.listing), user);
    }
  }

  lemma AcquireCleans(db: Db, now: int, id: Id, target: Target, user: Id, r: Id)
    requires r in db.rentals && id !in db.rentals
    ensures var after := After(Acquire(db, now, id, target, user), db); Cleans(db, now, after.rentals, r) && after.ledger == db.ledger
  {
    BeginCleans(db, now, id, target, user, r);
    LeaseWeeks.BeginLedger(db, now, id, target, user);
    hide OpenTarget, BeginAttempt, ExistingRow, HoldOf;
  }

  lemma ReserveCleans(db: Db, wall: int, now: int, id: Id, actor: Id, q: Request, r: Id)
    requires r in db.rentals
    ensures var after := After(Reserve(db, wall, now, id, actor, q), db); Cleans(db, now, after.rentals, r) && after.ledger == db.ledger
  {
    CleanCleans(db, now, q.listing, r);
    CleanKeys(db, now, q.listing);
    hide Clean, Verified, IsReplay, Occupied, IsReserved, Eligible, Offered;
  }

  lemma SettleRows(db: Db, now: int, id: Id, invoice: Id, reference: Reference, amount: Amount, step: Step, r: Id)
    requires r in db.rentals
    ensures var after := After(Settle(db, now, id, invoice, reference, amount), db); RowMoves(db, now, step, after.rentals, after.ledger, r)
  {
    RowStays(db, now, step, r);
    if Settle(db, now, id, invoice, reference, amount).Commit? {
      SettlementMeans(db, now, id, invoice, reference, amount);
    }
    hide Settle, RedeemReservations, Eligible;
  }

  lemma SimulationRows(db: Db, now: int, id: Id, hold: Hold, user: Id, r: Id)
    requires r in db.rentals
    ensures var after := After(SettleSimulated(db, now, id, hold), db);
            RowMoves(db, now, AtCheckout(Simulate(id, hold, user)), after.rentals, after.ledger, r)
  {
    var step := AtCheckout(Simulate(id, hold, user));
    RowStays(db, now, step, r);
    SimulationMeans(db, now, id, hold);
    SettleRows(db, now, id, hold.invoice, BySimulation(hold.attempt), Minor(hold.amount, hold.currency), step, r);
    hide Settle, SettleSimulated, RowMoves;
  }

  lemma SessionRows(db: Db, now: int, id: Id, e: SessionEvent, r: Id)
    requires r in db.rentals
    ensures var after := After(SessionPaid(db, now, id, e), db); RowMoves(db, now, OfMoney(StripePaid(id, e)), after.rentals, after.ledger, r)
  {
    var step, settled := OfMoney(StripePaid(id, e)), Settle(db, now, id, e.invoice, ByIntent(e.intent), e.amount);
    hide *;
    RowStays(db, now, step, r);
    Unchanged(SessionPaid(db, now, id, e), db);
    if SessionPaid(db, now, id, e).Commit? {
      PaidMovables(db, now, id, e);
      SettleRows(db, now, id, e.invoice, ByIntent(e.intent), e.amount, step, r);
      Unchanged(settled, db);
      if SameMovables(db, SessionPaid(db, now, id, e).db) {
        SameForRows(db, now, step, db, SessionPaid(db, now, id, e).db, r);
      } else {
        SameForRows(db, now, step, settled.db, SessionPaid(db, now, id, e).db, r);
      }
    }
  }

  lemma SameForRows(db: Db, now: int, step: Step, after: Db, other: Db, r: Id)
    requires r in db.rentals && SameMovables(after, other)
    ensures RowMoves(db, now, step, other.rentals, other.ledger, r) <==> RowMoves(db, now, step, after.rentals, after.ledger, r)
  {
    hide RowMoves;
  }

  lemma ExpiryRows(db: Db, now: int, e: SessionEvent, r: Id)
    requires r in db.rentals
    ensures var after := After(SessionExpired(db, e), db); RowMoves(db, now, OfMoney(StripeExpired(e)), after.rentals, after.ledger, r)
  {
    RowStays(db, now, OfMoney(StripeExpired(e)), r);
    ExpiryMeans(db, e);
    hide SessionExpired;
  }

  /** On the cleaned listing, a rental changes only by what is credited to it. */
  predicate Credits(db: Db, after: Db, r: Id)
    requires r in db.rentals
  {
    && r in after.rentals
    && if Entered(db, after) && after.ledger.entry.rental == r
       then && db.rentals[r].status == Active && after.ledger.entry.source.ByPayment?
            && after.rentals[r] == db.rentals[r].(endsAt := after.rentals[r].endsAt)
       else after.rentals[r] == db.rentals[r] && (after.ledger == db.ledger || Entered(db, after))
  }

  lemma LengthenCredits(db: Db, now: int, id: Id, q: TerminalPayment, s: Id, weeks: int, r: Id)
    requires r in db.rentals && s in db.rentals && db.rentals[s].status == Active && weeks >= 0
    ensures Credits(db, Lengthen(db, now, id, q, s, weeks), r)
  {
  }

  lemma StartCredits(db: Db, now: int, id: Id, q: TerminalPayment, listing: Id, user: Id, weeks: int, r: Id)
    requires r in db.rentals && id != r && weeks >= 0
    ensures Credits(db, StartLease(db, now, id, q, listing, user, weeks), r)
  {
    hide Promote, RedeemReservations;
  }

  lemma ReviewCredits(db: Db, now: int, id: Id, q: TerminalPayment, listing: Id, expected: int, r: Id)
    requires r in db.rentals
    ensures Credits(db, ReviewPayment(db, now, id, q, listing, expected), r)
  {
  }

  lemma DecidedCredits(db: Db, now: int, id: Id, q: TerminalPayment, listing: Id, p: Price, r: Id)
    requires r in db.rentals && id != r
    ensures Credits(db, TerminalPayments.OnClean(db, now, id, q, listing, p).db, r)
  {
    hide Vacant, ReservedAgainst, Eligible, ValidWeeks, PaidWeeks, ExpectedAmount, Verified, Credits, Lengthen, StartLease, ReviewPayment;
    TerminalPayments.WholeWeeks(q.amount, 0, p.weeklyLinden);
    TerminalPayments.WholeWeeks(q.amount, p.setupLinden, p.weeklyLinden);
    ReviewCredits(db, now, id, q, listing, ExpectedAmount(q.amount, 0, p.weeklyLinden), r);
    ReviewCredits(db, now, id, q, listing, ExpectedAmount(q.amount, p.setupLinden, p.weeklyLinden), r);
    if exists s :: LinkedLease(db, now, listing, s) {
      if ValidWeeks(q.amount, 0, p.weeklyLinden) {
        LengthenCredits(db, now, id, q, SeenLease(db, now, listing), PaidWeeks(q.amount, 0, p.weeklyLinden), r);
      }
    } else if ValidWeeks(q.amount, p.setupLinden, p.weeklyLinden) && q.payer in db.identities {
      StartCredits(db, now, id, q, listing, db.identities[q.payer], PaidWeeks(q.amount, p.setupLinden, p.weeklyLinden), r);
    }
  }

  lemma TerminalRows(db: Db, now: int, id: Id, q: TerminalPayment, r: Id)
    requires r in db.rentals && id !in db.rentals
    ensures var after := After(PayTerminal(db, now, id, q), db); RowMoves(db, now, OfMoney(TerminalPays(id, q)), after.rentals, after.ledger, r)
  {
    RowStays(db, now, OfMoney(TerminalPays(id, q)), r);
    MoneyEffects.AcceptedIff(db, now, id, q);
    hide PayTerminal, Clean;
    if PayTerminal(db, now, id, q).Commit? && (q.terminal, q.event) !in db.receipts {
      MoneyEffects.EventDecided(db, now, id, q);
      var listing := db.terminals[q.terminal];
      CleanKeys(db, now, listing);
      CleanCleans(db, now, listing, r);
      DecidedCredits(Clean(db, now, listing), now, id, q, listing, LeaseWeeks.PriceAt(db, q.terminal), r);
    }
  }

  lemma MoneyRows(db: Db, now: int, step: MoneyStep, r: Id)
    requires r in db.rentals && EnabledMoney(db, step)
    ensures var after := ApplyMoney(db, now, step); RowMoves(db, now, OfMoney(step), after.rentals, after.ledger, r)
  {
    RowStays(db, now, OfMoney(step), r);
    hide After, SessionExpired, SessionPaid, RefundReported, Disputed, PayTerminal, RowMoves, Authentic, Taken;
    hide ClaimRefund, CompleteRefund, FailRefund, RetryRefund, ResolveRefund;
    match step
    case StripePaid(id, e) => SessionRows(db, now, id, e, r);
    case StripeExpired(e) => ExpiryRows(db, now, e, r);
    case TerminalPays(id, q) => TerminalRows(db, now, id, q, r);
    case StripeRefund(found, e) => NoticeRows(db, found, e, {});
    case StripeDispute(references) => NoticeRows(db, None, ChargeRefunded(0, RefundSucceeded), references);
    case WorkerClaims(a) => ActionRows(db, now, a, Claim(a, 0, 0, 0, 0), true);
    case WorkerCompletes(c, succeeded) => ActionRows(db, now, c.action, c, succeeded);
    case WorkerFails(a) => ActionRows(db, now, a, Claim(a, 0, 0, 0, 0), true);
    case OperatorRetries(a) => ActionRows(db, now, a, Claim(a, 0, 0, 0, 0), true);
    case OperatorResolves(a) => ActionRows(db, now, a, Claim(a, 0, 0, 0, 0), true);
  }

  lemma NoticeRows(db: Db, found: Option<Id>, e: RefundEvent, references: set<Id>)
    ensures After(RefundReported(db, found, e), db).rentals == db.rentals && After(RefundReported(db, found, e), db).ledger == db.ledger
    ensures After(Disputed(db, references), db).rentals == db.rentals && After(Disputed(db, references), db).ledger == db.ledger
  {
    LeaseWeeks.NoticeLedger(db, found, e, references);
    hide RecordRefund, MarkActions, CumulativeRefund, RefundDisposition;
  }

  lemma ActionRows(db: Db, now: int, a: Id, c: Claim, succeeded: bool)
    ensures forall after | after in [After(ClaimRefund(db, now, a), db), After(CompleteRefund(db, now, c, succeeded), db),
                                     After(FailRefund(db, now, a), db), After(RetryRefund(db, now, a), db), After(ResolveRefund(db, a), db)] ::
              after.rentals == db.rentals && after.ledger == db.ledger
  {
    ClaimForm(db, now, a);
    MoneyEffects.CompletionMeans(db, now, c, succeeded);
    MoneyEffects.FailureMeans(db, now, a);
    MoneyEffects.OperatorMeans(db, now, a);
    hide ClaimRefund, CompleteRefund, FailRefund, RetryRefund, ResolveRefund, Due, ClaimedRow, ClaimOn;
  }

  lemma StartRows(db: Db, now: int, id: Id, p: Id, r: Id)
    requires r in db.rentals && id !in db.rentals
    ensures var after := After(ApproveStart(db, now, id, p), db); RowMoves(db, now, AtDesk(ApproveAsStart(id, p)), after.rentals, after.ledger, r)
  {
    RowStays(db, now, AtDesk(ApproveAsStart(id, p)), r);
    DeskEffects.StartApproved(db, now, id, p);
    hide ApproveStart, Clean, Reviewable, Vacant, ReservedAgainst, RedeemReservations, SettleReceipts, Eligible;
    if ApproveStart(db, now, id, p).Commit? {
      CleanCleans(db, now, db.invoices[db.payments[p].invoice].listing, r);
    }
  }

  lemma ExtensionRows(db: Db, now: int, p: Id, r: Id)
    requires r in db.rentals && OneLiveRental(db.rentals)
    ensures var after := After(ApproveExtension(db, now, p), db);
            RowMoves(db, now, AtDesk(ApproveAsExtension(p)), after.rentals, after.ledger, r)
  {
    RowStays(db, now, AtDesk(ApproveAsExtension(p)), r);
    hide ApproveExtension, Reviewable, LapseReservations, SettleReceipts, Eligible, OneLiveRental;
    DeskEffects.ExtensionNeeds(db, now, p);
    if ApproveExtension(db, now, p).Commit? {
      var s :| DeskEffects.Owns(db, now, p, s);
      DeskEffects.ExtensionApproved(db, now, p, s);
    }
  }

  lemma ActivationRows(db: Db, now: int, id: Id, invoice: Id, weeks: int, r: Id)
    requires r in db.rentals && id !in db.rentals
    ensures var after := After(Activate(db, now, id, invoice, weeks), db);
            RowMoves(db, now, AtDesk(AdminActivate(id, invoice, weeks)), after.rentals, after.ledger, r)
  {
    RowStays(db, now, AtDesk(AdminActivate(id, invoice, weeks)), r);
    DeskEffects.ActivationMeans(db, now, id, invoice, weeks);
    hide Activate, Vacant, ReservedAgainst, RedeemReservations, Eligible;
  }

  lemma DeskRows(db: Db, now: int, step: DeskStep, r: Id)
    requires r in db.rentals && EnabledDesk(db, step) && OneLiveRental(db.rentals)
    ensures var after := ApplyDesk(db, now, step); RowMoves(db, now, AtDesk(step), after.rentals, after.ledger, r)
  {
    RowStays(db, now, AtDesk(step), r);
    hide ApproveStart, ApproveExtension, ResolveIdentity, RejectReceipt, RejectPayment, ResolvePayment;
    hide Activate, ExtendLease, EndLease, ChangeRole, OneLiveRental, Reviewable, Unlinked, SettleReceipts;
    match step
    case ApproveAsStart(id, p) => StartRows(db, now, id, p, r);
    case ApproveAsExtension(p) => ExtensionRows(db, now, p, r);
    case AdminActivate(id, i, weeks) => ActivationRows(db, now, id, i, weeks, r);
    case AdminExtend(s, weeks) => ExtensionMeans(db, now, s, weeks);
    case AdminEnd(s) => EndMeans(db, now, s);
    case NamePayer(id, t, e) => DeskEffects.IdentityMeans(db, now, id, t, e);
    case RejectEvent(t, e) => DeskEffects.IdentityMeans(db, now, 0, t, e);
    case Reject(p) => DeskEffects.RejectionMeans(db, p);
    case Resolve(p) => DeskEffects.RejectionMeans(db, p);
    case SetRole(actor, subject, role) => DeskEffects.RoleMeans(db, now, actor, subject, role);
  }

  /** Whatever the transaction: a rental changes only when it has run out, when its hold is given up because its session expired,
      or by what is posted for it. */
  lemma StepRows(db: Db, now: int, step: Step, r: Id)
    requires Enabled(db, step) && r in db.rentals
    requires Inv(db)
    ensures var after := Apply(db, now, step); RowMoves(db, now, step, after.rentals, after.ledger, r)
  {
    assert InvoicesBound(db.rentals, db.invoices) && OneLiveRental(db.rentals) by {
      hide *;
      Parts(db);
    }
    hide Inv, InvoicesBound, OneLiveRental, EnabledCheckout, EnabledMoney, EnabledDesk, ApplyCheckout, ApplyMoney, ApplyDesk, RowMoves;
    match step
    case AtCheckout(s) => CheckoutRows(db, now, s, r);
    case OfMoney(s) => MoneyRows(db, now, s, r);
    case AtDesk(s) => DeskRows(db, now, s, r);
  }

  // ---------- runs ----------

  /** In this moment the lease ends: its time is over, or an administrator ends it. */
  ghost predicate LeaseOver(db: Db, m: Moment, r: Id) {
    && r in db.rentals && db.rentals[r].status == Active
    && (db.rentals[r].endsAt <= m.now || m.step == AtDesk(AdminEnd(r)))
  }

  /** In this moment the hold ends: its time is over, its session has expired, or an administrator ends it. */
  ghost predicate HoldOver(db: Db, m: Moment, r: Id) {
    && r in db.rentals && db.rentals[r].status == Pending
    && (db.rentals[r].endsAt <= m.now || GivesUp(db, m.step, r) || m.step == AtDesk(AdminEnd(r)))
  }

  /** In this moment the hold is paid: the payment is credited, and the lease runs for a week from then. */
  ghost predicate HoldPaid(db: Db, m: Moment, r: Id) {
    && r in db.rentals && db.rentals[r].status == Pending
    && var after := Apply(db, m.now, m.step);
    && Entered(db, after) && after.ledger.entry.rental == r && after.ledger.entry.source.ByPayment? && after.ledger.entry.weeks == 1
    && r in after.rentals && after.rentals[r] == db.rentals[r].(status := Active, startsAt := m.now, endsAt := m.now + 604800)
  }

  lemma EndedByHand(db: Db, m: Moment, r: Id)
    requires var after := Apply(db, m.now, m.step);
             && Posting(m.step, db.ledger, after.ledger) && Entered(db, after)
             && after.ledger.entry.rental == r && after.ledger.entry.source.ByEnding?
    ensures m.step == AtDesk(AdminEnd(r))
  {
    Tenants.LedgerGrew(db.ledger, Apply(db, m.now, m.step).ledger);
    if m.step.AtDesk? && m.step.desk.AdminEnd? {
      EndMeans(db, m.now, m.step.desk.rental);
      Unchanged(EndLease(db, m.now, m.step.desk.rental), db);
    }
    hide ApplyCheckout, ApplyMoney, EndLease, After;
  }

  lemma StepLeaseOver(db: Db, m: Moment, r: Id)
    requires Enabled(db, m.step) && r in db.rentals && db.rentals[r].status == Active
    requires Inv(db)
    ensures var after := Apply(db, m.now, m.step);
            r in after.rentals && (after.rentals[r].status == Active || LeaseOver(db, m, r))
  {
    hide Inv, Enabled, Apply, GivesUp, Posting;
    StepRows(db, m.now, m.step, r);
    StepPosts(db, m.now, m.step);
    var after := Apply(db, m.now, m.step);
    if Entered(db, after) && after.ledger.entry.rental == r && after.ledger.entry.source.ByEnding? {
      EndedByHand(db, m, r);
    }
  }

  lemma StepHoldOver(db: Db, m: Moment, r: Id)
    requires Enabled(db, m.step) && r in db.rentals && db.rentals[r].status == Pending
    requires Inv(db)
    ensures var after := Apply(db, m.now, m.step);
            r in after.rentals && (after.rentals[r] == db.rentals[r] || HoldOver(db, m, r) || HoldPaid(db, m, r))
  {
    hide Inv, Enabled, Apply, GivesUp, Posting, Keeps, Evolves;
    StepRows(db, m.now, m.step, r);
    StepPosts(db, m.now, m.step);
    StepKeeps(db, m.now, m.step);
    var after := Apply(db, m.now, m.step);
    Kept(db, after);
    if Entered(db, after) && after.ledger.entry.rental == r {
      if after.ledger.entry.source.ByEnding? {
        EndedByHand(db, m, r);
      } else if after.rentals[r].status == Active {
        HoldsWeek(after, r);
      }
    }
  }

  /** A hold's payment grants one week, as the lease shows. */
  lemma HoldsWeek(db: Db, r: Id)
    requires Inv(db) && db.ledger.Posted? && db.ledger.entry.rental == r && r in db.rentals && db.rentals[r].status == Active
    requires db.ledger.entry.source.ByPayment? && db.rentals[r].endsAt - db.rentals[r].startsAt == 604800
    ensures db.ledger.entry.weeks == 1
  {
    assert Conserved(db.ledger, db.rentals) && EntriesSound(db.ledger, db.payments, db.invoices, db.rentals) by {
      hide *;
      Parts(db);
    }
    hide Inv;
  }

  /** No lease ends early: if a lease that was ACTIVE is not at the end of a run, then at some moment of the run its time, with
      everything that had been added to it until then, was over, or an administrator ended it. */
  lemma {:induction false} NoLeaseEndsEarly(db: Db, moments: seq<Moment>, r: Id) returns (i: nat)
    requires Runnable(db, moments) && r in db.rentals && db.rentals[r].status == Active
    requires Inv(db)
    ensures var end := Run(db, moments);
            r in end.rentals && (end.rentals[r].status == Active || (i < |moments| && LeaseOver(Run(db, moments[..i]), moments[i], r)))
    decreases |moments|
  {
    hide Inv, Keeps, Evolves, Enabled, Apply, LeaseOver;
    i := 0;
    if moments != [] {
      var next := Apply(db, moments[0].now, moments[0].step);
      assert moments[..0] == [] && Run(db, moments[..0]) == db;
      StepLeaseOver(db, moments[0], r);
      StepKeeps(db, moments[0].now, moments[0].step);
      Kept(db, next);
      if next.rentals[r].status == Active {
        var j := NoLeaseEndsEarly(next, moments[1..], r);
        if j < |moments| - 1 {
          OneMoment(db, moments, j);
          i := j + 1;
        }
      } else {
        RentalStays(db, moments, r);
      }
    }
  }

  lemma RentalStays(db: Db, moments: seq<Moment>, r: Id)
    requires Runnable(db, moments) && r in db.rentals
    requires Inv(db)
    ensures r in Run(db, moments).rentals
  {
    hide *;
    RunKeeps(db, moments);
    Kept(db, Run(db, moments));
    EvolvingRentals(db, Run(db, moments));
    SameRow(db.rentals, Run(db, moments).rentals, r);
  }

  lemma SameRow(rs: map<Id, Rental>, ss: map<Id, Rental>, r: Id)
    requires RentalsKept(rs, ss) && r in rs
    ensures r in ss
  {
  }

  /** No hold is lost before its time: a hold stays as it is until it is paid, and is then a lease of one week from that moment; or
      until its 32 minutes are over, its session has expired, or an administrator ends it. */
  lemma {:induction false} NoHoldIsLostEarly(db: Db, moments: seq<Moment>, r: Id) returns (i: nat)
    requires Runnable(db, moments) && r in db.rentals && db.rentals[r].status == Pending
    requires Inv(db)
    ensures var end := Run(db, moments);
            && r in end.rentals
            && (end.rentals[r] == db.rentals[r]
                || (i < |moments| && var at := Run(db, moments[..i]);
                    r in at.rentals && at.rentals[r] == db.rentals[r] && (HoldOver(at, moments[i], r) || HoldPaid(at, moments[i], r))))
    decreases |moments|
  {
    hide Inv, Keeps, Evolves, Enabled, Apply, HoldOver, HoldPaid;
    i := 0;
    if moments != [] {
      var next := Apply(db, moments[0].now, moments[0].step);
      assert moments[..0] == [] && Run(db, moments[..0]) == db;
      StepHoldOver(db, moments[0], r);
      StepKeeps(db, moments[0].now, moments[0].step);
      Kept(db, next);
      if next.rentals[r] == db.rentals[r] {
        var j := NoHoldIsLostEarly(next, moments[1..], r);
        if j < |moments| - 1 {
          OneMoment(db, moments, j);
          i := j + 1;
        }
      } else {
        RentalStays(db, moments, r);
      }
    }
  }

  // ---------- what time a lease has ----------

  lemma NoGapYet(db: Db, r: Id)
    requires Initial(db)
    ensures GapOf(db.ledger, r) == 0
  {
  }

  /** After any run from a database without business: a lease that is ACTIVE runs for exactly the weeks that were credited by
      payments or granted by administrators, and for the time for which it had lapsed before extensions revived it. */
  lemma LeaseTimeFromStart(db: Db, moments: seq<Moment>, r: Id)
    requires Runnable(db, moments) && r in Run(db, moments).rentals && Run(db, moments).rentals[r].status == Active
    requires Initial(db)
    ensures var end := Run(db, moments);
            end.rentals[r].endsAt - end.rentals[r].startsAt
            == 604800 * (Theorems.WeeksPaid(end.ledger, r) + Theorems.WeeksGiven(end.ledger, r)) + LapsesIn(db, moments, r)
  {
    hide Inv, Initial, Run, Runnable, LapsesIn, Keeps, Evolves, EntriesSound, Theorems.WeeksPaid, Theorems.WeeksGiven, WeeksOf, GapOf;
    var end := Run(db, moments);
    InitialInv(db);
    NoGapYet(db, r);
    RunKeeps(db, moments);
    Kept(db, end);
    GapsAreLapses(db, moments, r);
    Theorems.LeaseFacts(end);
    Theorems.SourcesAddUp(end.ledger, end.payments, end.invoices, end.rentals, r);
  }
}
