/** Which transaction posts what to the lease ledger, and what that says about leases: their extensions, gaps and ends. */
module Postings {
  import opened Tables
  import opened Allocation
  import opened Invariants
  import opened Evolution
  import opened Transactions
  import opened Runs
  import LeaseWeeks

  /** The kind of entry that the step may post, if any. */
  predicate Fits(step: Step, source: Source) {
    match step
    case AtCheckout(Simulate(id, _, _)) => source == ByPayment(id)
    case OfMoney(StripePaid(id, _)) => source == ByPayment(id)
    case OfMoney(TerminalPays(id, _)) => source == ByPayment(id)
    case AtDesk(ApproveAsStart(_, p)) => source == ByPayment(p)
    case AtDesk(ApproveAsExtension(p)) => source == ByPayment(p)
    case AtDesk(AdminActivate(_, _, _)) => source == ByActivation
    case AtDesk(AdminExtend(_, _)) => source == ByExtension
    case AtDesk(AdminEnd(_)) => source == ByEnding
    case _ => false
  }

  /** The ledger is as it was, or longer by one entry of a kind that fits the step. */
  ghost predicate Posting(step: Step, l: Ledger, m: Ledger) {
    m == l || (m.Posted? && m.earlier == l && Fits(step, m.entry.source))
  }

  lemma NothingPosts(step: Step, l: Ledger)
    ensures Posting(step, l, l)
  {
  }

  /** The ledger is as it was, or longer by an entry of the payment. */
  predicate PaymentPosted(l: Ledger, m: Ledger, id: Id) {
    m == l || (m.Posted? && m.earlier == l && m.entry.source == ByPayment(id))
  }

  lemma NoPaymentPosted(l: Ledger, id: Id)
    ensures PaymentPosted(l, l, id)
  {
  }

  lemma SettlePosts(db: Db, now: int, id: Id, invoice: Id, reference: Reference, amount: Amount)
    ensures PaymentPosted(db.ledger, After(Settle(db, now, id, invoice, reference, amount), db).ledger, id)
  {
    hide RedeemReservations, UsedReference, Promote, PaidWeek, Payable;
  }

  lemma SimulationPosts(db: Db, now: int, id: Id, hold: Hold, user: Id)
    ensures Posting(AtCheckout(Simulate(id, hold, user)), db.ledger, After(SettleSimulated(db, now, id, hold), db).ledger)
  {
    hide Settle;
    SettlePosts(db, now, id, hold.invoice, BySimulation(hold.attempt), Minor(hold.amount, hold.currency));
  }

  lemma CheckoutPosts(db: Db, now: int, step: CheckoutStep)
    ensures Posting(AtCheckout(step), db.ledger, ApplyCheckout(db, now, step).ledger)
  {
    NothingPosts(AtCheckout(step), db.ledger);
    hide CancelOverdue, EndLapsed, ExpireOverdueAttempts, VoidOverdueInvoices, LapseReservations, LapseOverdue, RedeemReservations;
    hide Occupied, ReservedAgainst, IsReserved, Verified, IsReplay, ExistingRow, Offered, Eligible, HoldOf;
    hide OpenTarget, BeginAttempt, GiveUp, SettleSimulated, Posting;
    match step
    case AcquireAttempt(id, target, user) => LeaseWeeks.BeginLedger(db, now, id, target, user);
    case ReplaceExpired(id, hold, user) =>
      if Replace(db, now, id, hold, user).Commit? {
        LeaseWeeks.GiveUpLedger(db, hold);
        LeaseWeeks.BeginLedger(GiveUp(db, hold), now, id, if hold.renewal then OfRental(hold.rental) else OfListing(hold.listing), user);
      }
    case Simulate(id, hold, user) => SimulationPosts(db, now, id, hold, user);
    case _ =>
  }

  lemma SessionPosts(db: Db, now: int, id: Id, e: SessionEvent)
    ensures PaymentPosted(db.ledger, After(SessionPaid(db, now, id, e), db).ledger, id)
  {
    hide *;
    NoPaymentPosted(db.ledger, id);
    Unchanged(SessionPaid(db, now, id, e), db);
    if SessionPaid(db, now, id, e).Commit? {
      SessionPaidCases(db, now, id, e);
      Unchanged(Settle(db, now, id, e.invoice, ByIntent(e.intent), e.amount), db);
      SettlePosts(db, now, id, e.invoice, ByIntent(e.intent), e.amount);
    }
  }

  lemma TerminalPosts(db: Db, now: int, id: Id, q: TerminalPayment)
    ensures Posting(OfMoney(TerminalPays(id, q)), db.ledger, After(PayTerminal(db, now, id, q), db).ledger)
  {
    hide PayTerminal, After, Clean, Lengthen, StartLease, ReviewPayment;
    Unchanged(PayTerminal(db, now, id, q), db);
    if PayTerminal(db, now, id, q).Rollback? {
    } else if (q.terminal, q.event) in db.receipts {
      PayReplay(db, now, id, q);
    } else {
      PayForm(db, now, id, q);
      var listing := db.terminals[q.terminal];
      var clean := Clean(db, now, listing);
      var after := PayTerminal(db, now, id, q).db;
      CleanKeys(db, now, listing);
      if r, w :| r in clean.rentals && clean.rentals[r].status == Active && w >= 1 && after == Lengthen(clean, now, id, q, r, w) {
        LeaseWeeks.LengthenRows(clean, now, id, q, r, w);
      } else if user, w :| w >= 1 && user in db.users && Vacant(clean.rentals, listing) && after == StartLease(clean, now, id, q, listing, user, w) {
        LeaseWeeks.StartRows(clean, now, id, q, listing, user, w);
      } else {
        var expected :| after == ReviewPayment(clean, now, id, q, listing, expected);
        LeaseWeeks.ReviewRows(clean, now, id, q, listing, expected);
      }
    }
  }

  lemma PaymentPosts(step: MoneyStep, l: Ledger, m: Ledger)
    requires step.StripePaid? && PaymentPosted(l, m, step.id)
    ensures Posting(OfMoney(step), l, m)
  {
  }

  lemma MoneyPosts(db: Db, now: int, step: MoneyStep)
    ensures Posting(OfMoney(step), db.ledger, ApplyMoney(db, now, step).ledger)
  {
    NothingPosts(OfMoney(step), db.ledger);
    hide After, SessionExpired, SessionPaid, RefundReported, Disputed, PayTerminal, Posting;
    hide ClaimRefund, CompleteRefund, FailRefund, RetryRefund, ResolveRefund;
    match step
    case StripePaid(id, e) =>
      SessionPosts(db, now, id, e);
      PaymentPosts(step, db.ledger, ApplyMoney(db, now, step).ledger);
    case TerminalPays(id, q) => TerminalPosts(db, now, id, q);
    case StripeExpired(e) => LeaseWeeks.ExpiryLedger(db, e);
    case StripeRefund(found, r) => LeaseWeeks.NoticeLedger(db, found, r, {});
    case StripeDispute(references) => LeaseWeeks.NoticeLedger(db, None, ChargeRefunded(0, RefundSucceeded), references);
    case WorkerClaims(a) => LeaseWeeks.ClaimLedger(db, now, a);
    case WorkerCompletes(c, succeeded) => LeaseWeeks.WorkLedger(db, now, c, succeeded, 0);
    case WorkerFails(a) => LeaseWeeks.WorkLedger(db, now, Claim(a, 0, 0, 0, 0), true, a);
    case OperatorRetries(a) => LeaseWeeks.OperatorLedger(db, now, a);
    case OperatorResolves(a) => LeaseWeeks.OperatorLedger(db, now, a);
  }

  lemma DeskPosts(db: Db, now: int, step: DeskStep)
    ensures Posting(AtDesk(step), db.ledger, ApplyDesk(db, now, step).ledger)
  {
    hide CancelOverdue, EndLapsed, ExpireOverdueAttempts, VoidOverdueInvoices, LapseReservations, RedeemReservations, Promote;
    hide ReservedAgainst, Vacant, Reviewable, SettleReceipts, OwnLease, Unlinked, RentsNow, ActiveAdministrators, Eligible, Max, Min;
  }

  /** A transaction posts one entry at most, and each kind of entry has its own transactions. */
  lemma StepPosts(db: Db, now: int, step: Step)
    ensures Posting(step, db.ledger, Apply(db, now, step).ledger)
  {
    hide ApplyCheckout, ApplyMoney, ApplyDesk, Posting;
    match step
    case AtCheckout(s) => CheckoutPosts(db, now, s);
    case OfMoney(s) => MoneyPosts(db, now, s);
    case AtDesk(s) => DeskPosts(db, now, s);
  }

  // ---------- extensions and ends by administrators ----------

  /** EXTEND lengthens an ACTIVE lease by the weeks granted, counted from its end or, if that has passed, from now; the time
      in between is skipped, and nothing else changes. */
  lemma ExtensionMeans(db: Db, now: int, rental: Id, weeks: int)
    ensures ExtendLease(db, now, rental, weeks).Commit? <==>
              && rental in db.rentals && db.rentals[rental].status == Active && 1 <= weeks <= 52
              && db.rentals[rental].user in db.users && MayRent(db.users[db.rentals[rental].user])
    ensures ExtendLease(db, now, rental, weeks).Commit? ==>
              var after := ExtendLease(db, now, rental, weeks).db;
              && rental in after.rentals
              && var was := db.rentals[rental];
              && var row := after.rentals[rental];
              && var from := row.endsAt - weeks * WEEK;
              && row == was.(endsAt := row.endsAt) && from >= was.endsAt && from >= now && (from == was.endsAt || from == now)
              && after.ledger.Posted? && after.ledger.earlier == db.ledger
              && after.ledger.entry.rental == rental && after.ledger.entry.source == ByExtension && after.ledger.entry.cut == 0
              && after.ledger.entry.weeks == weeks && after.ledger.entry.gap == from - was.endsAt
              && after == db.(rentals := db.rentals[rental := row], ledger := after.ledger)
  {
  }

  /** END stops any rental at its end or now, whichever is first; the rest of its time is cut, and nothing else changes. */
  lemma EndMeans(db: Db, now: int, rental: Id)
    ensures EndLease(db, now, rental).Commit? <==>
              rental in db.rentals && db.rentals[rental].startsAt < now && db.rentals[rental].startsAt < db.rentals[rental].endsAt
    ensures EndLease(db, now, rental).Commit? ==>
              var after := EndLease(db, now, rental).db;
              && rental in after.rentals
              && var was := db.rentals[rental];
              && var row := after.rentals[rental];
              && row == was.(status := Ended, endsAt := row.endsAt)
              && row.endsAt <= was.endsAt && row.endsAt <= now && (row.endsAt == was.endsAt || row.endsAt == now)
              && after.ledger.Posted? && after.ledger.earlier == db.ledger
              && after.ledger.entry.rental == rental && after.ledger.entry.source == ByEnding
              && after.ledger.entry.cut == was.endsAt - row.endsAt
              && after.ledger.entry.weeks == 0 && after.ledger.entry.gap == 0
              && after == db.(rentals := db.rentals[rental := row], ledger := after.ledger)
  {
  }

  // ---------- gaps, over runs ----------

  /** The time from the end of the lease to the clock of a step that extends it after it has lapsed. */
  ghost function LapseOf(db: Db, m: Moment, r: Id): nat {
    match m.step
    case AtDesk(AdminExtend(rental, weeks)) =>
      if rental == r && ExtendLease(db, m.now, rental, weeks).Commit? && db.rentals[r].endsAt < m.now
      then m.now - db.rentals[r].endsAt else 0
    case _ => 0
  }

  ghost function LapsesIn(db: Db, moments: seq<Moment>, r: Id): nat
    decreases |moments|
  {
    if moments == [] then 0
    else LapseOf(db, moments[0], r) + LapsesIn(Apply(db, moments[0].now, moments[0].step), moments[1..], r)
  }

  lemma OthersNoGap(db: Db, e: Entry)
    requires Inv(db) && db.ledger.Posted? && db.ledger.entry == e && e.source != ByExtension
    ensures e.gap == 0
  {
    assert EntriesSound(db.ledger, db.payments, db.invoices, db.rentals) by {
      hide *;
      Parts(db);
    }
    hide Inv;
  }

  lemma ExtensionGap(db: Db, now: int, rental: Id, weeks: int, r: Id)
    ensures GapOf(After(ExtendLease(db, now, rental, weeks), db).ledger, r)
            == GapOf(db.ledger, r) + LapseOf(db, Moment(now, AtDesk(AdminExtend(rental, weeks))), r)
  {
    Unchanged(ExtendLease(db, now, rental, weeks), db);
    ExtensionMeans(db, now, rental, weeks);
    hide ExtendLease, After;
  }

  lemma StepGap(db: Db, now: int, step: Step, r: Id)
    requires Inv(db) && Enabled(db, step)
    ensures GapOf(Apply(db, now, step).ledger, r) == GapOf(db.ledger, r) + LapseOf(db, Moment(now, step), r)
  {
    hide Inv, Enabled, ApplyCheckout, ApplyMoney, ExtendLease, After, Keeps, Evolves;
    hide ApproveStart, ApproveExtension, RejectPayment, ResolvePayment, ResolveIdentity, RejectReceipt, Activate, EndLease, ChangeRole;
    if step.AtDesk? && step.desk.AdminExtend? {
      ExtensionGap(db, now, step.desk.rental, step.desk.weeks, r);
    } else {
      StepPosts(db, now, step);
      StepKeeps(db, now, step);
      Kept(db, Apply(db, now, step));
      if Apply(db, now, step).ledger != db.ledger {
        OthersNoGap(Apply(db, now, step), Apply(db, now, step).ledger.entry);
      }
    }
  }

  /** Over any run, the time that a lease's extensions skipped is exactly the time for which it had lapsed: from its end to the
      clock of each extension that found it lapsed, and nothing for any other. */
  lemma {:induction false} GapsAreLapses(db: Db, moments: seq<Moment>, r: Id)
    requires Inv(db) && Runnable(db, moments)
    ensures GapOf(Run(db, moments).ledger, r) == GapOf(db.ledger, r) + LapsesIn(db, moments, r)
    decreases |moments|
  {
    hide Inv, Keeps, Evolves, Apply, Enabled, LapseOf;
    if moments != [] {
      var next := Apply(db, moments[0].now, moments[0].step);
      StepGap(db, moments[0].now, moments[0].step, r);
      StepKeeps(db, moments[0].now, moments[0].step);
      Kept(db, next);
      GapsAreLapses(next, moments[1..], r);
    }
  }

  // ---------- leases that nothing is posted for ----------

  /** Nothing is posted for the rental between the two ledgers. */
  predicate SameAccount(l: Ledger, m: Ledger, r: Id) {
    WeeksOf(m, r) == WeeksOf(l, r) && GapOf(m, r) == GapOf(l, r) && CutOf(m, r) == CutOf(l, r)
  }

  /** A lease that is ACTIVE and for which nothing was posted was ACTIVE before, and ran for the same time. */
  lemma UnpostedLease(db: Db, after: Db, r: Id)
    requires Inv(db) && Inv(after) && Evolves(db, after) && SameAccount(db.ledger, after.ledger, r)
    requires r in after.rentals && after.rentals[r].status == Active
    ensures r in db.rentals && after.rentals[r] == db.rentals[r]
  {
    hide *;
    Parts(db);
    Parts(after);
    NothingPosted(db.ledger, db.payments, db.invoices, db.rentals, r);
    EvolvingRentals(db, after);
    SameTime(db.rentals, after.rentals, db.ledger, after.ledger, r);
  }

  lemma EvolvingRentals(db: Db, after: Db)
    requires Evolves(db, after)
    ensures RentalsKept(db.rentals, after.rentals)
  {
    hide RentalsKept, InvoicesKept, AttemptsKept, PaymentsKept, ActionsKept, ReceiptsKept, Extends;
  }

  lemma SameTime(rs: map<Id, Rental>, ss: map<Id, Rental>, l: Ledger, m: Ledger, r: Id)
    requires Conserved(l, rs) && Conserved(m, ss) && RentalsKept(rs, ss) && SameAccount(l, m, r)
    requires r in ss && ss[r].status == Active && (r !in rs ==> WeeksOf(l, r) == 0)
    ensures r in rs && ss[r] == rs[r]
  {
    hide WeeksOf, GapOf, CutOf;
  }

  lemma OtherAccounts(step: Step, l: Ledger, m: Ledger, r: Id)
    requires Posting(step, l, m) && (m != l ==> m.entry.rental != r)
    ensures SameAccount(l, m, r)
  {
  }
}
