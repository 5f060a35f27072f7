/** How many weeks a terminal payment buys: what its amount says at the price of the day, or the one week that staff grant. */
module LeaseWeeks {
  import opened Tables
  import opened Pricing
  import opened Allocation
  import opened Invariants
  import opened Evolution
  import opened Transactions
  import opened Runs

  /** The amount is that of so many weeks, with the setup price if a lease is started. */
  predicate Buys(p: Price, amount: int, weeks: int, starts: bool) {
    1 <= weeks <= 4 && amount == weeks * p.weeklyLinden + (if starts then p.setupLinden else 0)
  }

  lemma ValidWeeksBuy(p: Price, amount: int, starts: bool)
    requires ValidWeeks(amount, if starts then p.setupLinden else 0, p.weeklyLinden)
    ensures Buys(p, amount, PaidWeeks(amount, if starts then p.setupLinden else 0, p.weeklyLinden), starts)
  {
    hide PaidWeeks;
  }

  /** The amount decides the weeks. */
  lemma BuysOnce(p: Price, amount: int, v: int, w: int, starts: bool)
    requires Buys(p, amount, v, starts) && Buys(p, amount, w, starts)
    ensures v == w
  {
    MultipleDivides(v, p.weeklyLinden);
    MultipleDivides(w, p.weeklyLinden);
  }

  ghost predicate PricedTerminal(db: Db, terminal: Id) {
    terminal in db.terminals && db.terminals[terminal] in db.listings && db.listings[db.terminals[terminal]].price.Some?
  }

  ghost function PriceAt(db: Db, terminal: Id): Price
    requires PricedTerminal(db, terminal)
  {
    db.listings[db.terminals[terminal]].price.value
  }

  /** After cleanup a lease runs there whose renter the terminal can see. */
  ghost predicate SeesLease(db: Db, now: int, terminal: Id) {
    terminal in db.terminals && exists r :: LinkedLease(Clean(db, now, db.terminals[terminal]), now, db.terminals[terminal], r)
  }

  /** As `PayForm`, with the weeks. */
  lemma PayBuys(db: Db, now: int, id: Id, q: TerminalPayment)
    requires PayTerminal(db, now, id, q).Commit? && (q.terminal, q.event) !in db.receipts
    ensures q.terminal in db.terminals && PricedTerminal(db, q.terminal)
    ensures var listing := db.terminals[q.terminal];
            var clean := Clean(db, now, listing);
            var after := PayTerminal(db, now, id, q).db;
            || (exists r, weeks | r in clean.rentals && weeks >= 1 && SeesLease(db, now, q.terminal)
                               && Buys(PriceAt(db, q.terminal), q.amount, weeks, false) ::
                  after == Lengthen(clean, now, id, q, r, weeks))
            || (exists user, weeks | weeks >= 1 && !SeesLease(db, now, q.terminal) && Buys(PriceAt(db, q.terminal), q.amount, weeks, true) ::
                  after == StartLease(clean, now, id, q, listing, user, weeks))
            || (exists expected :: after == ReviewPayment(clean, now, id, q, listing, expected))
  {
    var listing := db.terminals[q.terminal];
    var clean := Clean(db, now, listing);
    var price := PriceAt(db, q.terminal);
    var leased := exists r :: LinkedLease(clean, now, listing, r);
    if ValidWeeks(q.amount, if leased then 0 else price.setupLinden, price.weeklyLinden) {
      ValidWeeksBuy(price, q.amount, !leased);
    }
    hide Clean, Lengthen, StartLease, ReviewPayment, Vacant, ReservedAgainst, ValidWeeks, PaidWeeks, Buys, ExpectedAmount;
  }

  /** The payment is confirmed although no lease runs that the terminal can see: it starts one. */
  ghost predicate Starts(db: Db, now: int, id: Id, q: TerminalPayment) {
    && PayTerminal(db, now, id, q).Commit? && (q.terminal, q.event) !in db.receipts && PayTerminal(db, now, id, q).value == Confirmed
    && (forall r :: !LinkedLease(Clean(db, now, db.terminals[q.terminal]), now, db.terminals[q.terminal], r))
  }

  lemma StartForm(db: Db, now: int, id: Id, q: TerminalPayment) returns (user: Id, weeks: int)
    requires Starts(db, now, id, q)
    ensures PricedTerminal(db, q.terminal) && user in db.users && Buys(PriceAt(db, q.terminal), q.amount, weeks, true)
    ensures var listing := db.terminals[q.terminal];
            PayTerminal(db, now, id, q).db == StartLease(Clean(db, now, listing), now, id, q, listing, user, weeks)
  {
    var price := PriceAt(db, q.terminal);
    user, weeks := db.identities[q.payer], PaidWeeks(q.amount, price.setupLinden, price.weeklyLinden);
    ValidWeeksBuy(price, q.amount, true);
    hide Clean, Lengthen, StartLease, ReviewPayment, Vacant, ReservedAgainst, ValidWeeks, PaidWeeks, Buys, ExpectedAmount;
  }

  /** When a new event's payment starts a lease. */
  lemma PayStarts(db: Db, now: int, id: Id, q: TerminalPayment, weeks: int)
    requires PricedTerminal(db, q.terminal) && q.amount > 0 && (q.terminal, q.event) !in db.receipts && q.payer in db.identities
    requires var price := PriceAt(db, q.terminal);
             && ValidWeeks(q.amount, price.setupLinden, price.weeklyLinden) && weeks >= 0
             && PaidWeeks(q.amount, price.setupLinden, price.weeklyLinden) == weeks
    requires var listing, user := db.terminals[q.terminal], db.identities[q.payer];
             && Eligible(db.users, user) && Vacant(Clean(db, now, listing).rentals, listing) && !ReservedAgainst(db.reservations, now, listing, user)
             && forall r :: !LinkedLease(Clean(db, now, listing), now, listing, r)
    ensures var listing := db.terminals[q.terminal];
            PayTerminal(db, now, id, q) == Commit(StartLease(Clean(db, now, listing), now, id, q, listing, db.identities[q.payer], weeks), Confirmed)
    ensures Starts(db, now, id, q)
  {
    hide Clean, Lengthen, StartLease, ReviewPayment, Vacant, ReservedAgainst, ValidWeeks, PaidWeeks, ExpectedAmount, LinkedLease, Eligible;
  }

  /** A payment that starts a lease grants exactly one week if and only if its amount is the setup price and one week's. */
  lemma StartIsOneWeekIff(db: Db, now: int, id: Id, q: TerminalPayment)
    requires Starts(db, now, id, q)
    ensures PricedTerminal(db, q.terminal) && id in PayTerminal(db, now, id, q).db.rentals
    ensures var lease := PayTerminal(db, now, id, q).db.rentals[id];
            && lease.startsAt == now
            && (lease.endsAt - now == WEEK <==> q.amount == PriceAt(db, q.terminal).setupLinden + PriceAt(db, q.terminal).weeklyLinden)
  {
    var user, weeks := StartForm(db, now, id, q);
    var listing := db.terminals[q.terminal];
    hide Clean, PayTerminal, Buys, StartLease, PriceAt, Starts;
    OneWeekCosts(PriceAt(db, q.terminal), q.amount, weeks);
    StartRows(Clean(db, now, listing), now, id, q, listing, user, weeks);
  }

  lemma LengthenRows(db: Db, now: int, id: Id, q: TerminalPayment, r: Id, weeks: int)
    requires r in db.rentals && weeks >= 0
    ensures var after := Lengthen(db, now, id, q, r, weeks);
            && after.rentals.Keys == db.rentals.Keys && after.ledger == Posted(Entry(r, ByPayment(id), weeks, 0, 0), db.ledger)
            && id in after.payments && after.payments[id].amount == Linden(q.amount)
  {
  }

  lemma StartRows(db: Db, now: int, id: Id, q: TerminalPayment, listing: Id, user: Id, weeks: int)
    requires weeks >= 0
    ensures var after := StartLease(db, now, id, q, listing, user, weeks);
            && id in after.rentals && after.rentals[id] == Rental(listing, user, Active, now, now + weeks * WEEK)
            && after.ledger == Posted(Entry(id, ByPayment(id), weeks, 0, 0), db.ledger)
            && id in after.payments && after.payments[id].amount == Linden(q.amount)
  {
    hide Promote, RedeemReservations;
  }

  lemma ReviewRows(db: Db, now: int, id: Id, q: TerminalPayment, listing: Id, expected: int)
    ensures ReviewPayment(db, now, id, q, listing, expected).rentals == db.rentals
    ensures ReviewPayment(db, now, id, q, listing, expected).ledger == db.ledger
  {
  }

  lemma OneWeekCosts(p: Price, amount: int, weeks: int)
    requires Buys(p, amount, weeks, true)
    ensures weeks >= 1
    ensures weeks == 1 <==> amount == p.setupLinden + p.weeklyLinden
    ensures weeks * WEEK == WEEK <==> weeks == 1
  {
    if amount == p.setupLinden + p.weeklyLinden {
      BuysOnce(p, amount, weeks, 1, true);
    }
  }

  // ---------- what one transaction credits ----------

  function WeeksFor(l: Ledger, payment: Id): nat {
    match l
    case Opening => 0
    case Posted(e, earlier) => (if e.source == ByPayment(payment) then e.weeks else 0) + WeeksFor(earlier, payment)
  }

  ghost predicate PaidByTerminal(db: Db, p: Id) {
    p in db.payments && db.payments[p].reference.ByTerminal?
  }

  ghost predicate NotCredited(l: Ledger, m: Ledger, p: Id) {
    m == l || (m.Posted? && m.earlier == l && m.entry.source != ByPayment(p))
  }

  ghost predicate CreditedWith(l: Ledger, m: Ledger, p: Id, weeks: nat) {
    m.Posted? && m.earlier == l && m.entry.source == ByPayment(p) && m.entry.weeks == weeks
  }

  /** The step, taken from this state, gives the payment so many weeks: its own transaction by its amount at the price of
      that state, setup included exactly if it saw no lease to extend; or an approval by staff, which grants one week whatever
      was paid. */
  ghost predicate Bought(db: Db, now: int, step: Step, p: Id, weeks: nat, amount: Amount) {
    match step
    case OfMoney(TerminalPays(id, q)) =>
      p == id && amount == Linden(q.amount) && PricedTerminal(db, q.terminal)
      && Buys(PriceAt(db, q.terminal), q.amount, weeks, !SeesLease(db, now, q.terminal))
    case AtDesk(ApproveAsStart(_, review)) => review == p && weeks == 1
    case AtDesk(ApproveAsExtension(review)) => review == p && weeks == 1
    case _ => false
  }

  /** What was bought is determined by the state and the transaction. */
  lemma BoughtOnce(db: Db, now: int, step: Step, p: Id, v: nat, w: nat, amount: Amount)
    requires Bought(db, now, step, p, v, amount) && Bought(db, now, step, p, w, amount)
    ensures v == w
  {
    hide Buys, SeesLease, PricedTerminal;
    if step.OfMoney? && step.money.TerminalPays? {
      var q := step.money.payment;
      BuysOnce(PriceAt(db, q.terminal), q.amount, v, w, !SeesLease(db, now, q.terminal));
    }
  }

  lemma BeginLedger(db: Db, now: int, id: Id, target: Target, user: Id)
    ensures After(BeginAttempt(OpenTarget(db, now, id, target, user), id), db).ledger == db.ledger
  {
    hide CancelOverdue, EndLapsed, ExpireOverdueAttempts, VoidOverdueInvoices, LapseReservations, HoldOf, Occupied, ReservedAgainst;
  }

  lemma GiveUpLedger(db: Db, hold: Hold)
    requires hold.attempt in db.attempts && hold.invoice in db.invoices && (hold.renewal || hold.rental in db.rentals)
    ensures GiveUp(db, hold).ledger == db.ledger
  {
  }

  /** A settlement credits its own payment, which no terminal made. */
  lemma SettleCredits(db: Db, now: int, id: Id, invoice: Id, reference: Reference, amount: Amount, p: Id)
    requires var after := After(Settle(db, now, id, invoice, reference, amount), db); PaidByTerminal(after, p) && !reference.ByTerminal?
    ensures NotCredited(db.ledger, After(Settle(db, now, id, invoice, reference, amount), db).ledger, p)
  {
    hide RedeemReservations, UsedReference, Promote, PaidWeek, Payable;
  }

  lemma SimulationCredits(db: Db, now: int, id: Id, hold: Hold, p: Id)
    requires PaidByTerminal(After(SettleSimulated(db, now, id, hold), db), p)
    ensures NotCredited(db.ledger, After(SettleSimulated(db, now, id, hold), db).ledger, p)
  {
    var reference, amount := BySimulation(hold.attempt), Minor(hold.amount, hold.currency);
    hide Settle, NotCredited;
    if SettleSimulated(db, now, id, hold).Commit? {
      SettleCredits(db, now, id, hold.invoice, reference, amount, p);
    } else {
      Uncredited(db.ledger, p);
    }
  }

  lemma Uncredited(l: Ledger, p: Id)
    ensures NotCredited(l, l, p)
  {
  }

  lemma CheckoutCredits(db: Db, now: int, step: CheckoutStep, p: Id)
    requires PaidByTerminal(ApplyCheckout(db, now, step), p)
    ensures NotCredited(db.ledger, ApplyCheckout(db, now, step).ledger, p)
  {
    Uncredited(db.ledger, p);
    hide CancelOverdue, EndLapsed, ExpireOverdueAttempts, VoidOverdueInvoices, LapseReservations, LapseOverdue, RedeemReservations;
    hide Occupied, ReservedAgainst, IsReserved, Verified, IsReplay, ExistingRow, Offered, Eligible, HoldOf, PaidByTerminal;
    hide OpenTarget, BeginAttempt, GiveUp, SettleSimulated, NotCredited;
    match step
    case AcquireAttempt(id, target, user) => BeginLedger(db, now, id, target, user);
    case ReplaceExpired(id, hold, user) =>
      if Replace(db, now, id, hold, user).Commit? {
        GiveUpLedger(db, hold);
        BeginLedger(GiveUp(db, hold), now, id, if hold.renewal then OfRental(hold.rental) else OfListing(hold.listing), user);
      }
    case Simulate(id, hold, user) => SimulationCredits(db, now, id, hold, p);
    case _ =>
  }

  lemma SessionCredits(db: Db, now: int, id: Id, e: SessionEvent, p: Id)
    requires PaidByTerminal(After(SessionPaid(db, now, id, e), db), p)
    ensures NotCredited(db.ledger, After(SessionPaid(db, now, id, e), db).ledger, p)
  {
    hide SessionPaid, Settle, Payable, UsedReference, CompletedAttempts, BoundSession, NotCredited, After;
    Uncredited(db.ledger, p);
    Unchanged(SessionPaid(db, now, id, e), db);
    if SessionPaid(db, now, id, e).Commit? {
      SessionPaidCases(db, now, id, e);
      Unchanged(Settle(db, now, id, e.invoice, ByIntent(e.intent), e.amount), db);
      if !UsedReference(db.payments, ByIntent(e.intent)) && Payable(db, now, e.invoice) {
        SettleCredits(db, now, id, e.invoice, ByIntent(e.intent), e.amount, p);
      }
    }
  }

  lemma ExpiryLedger(db: Db, e: SessionEvent)
    ensures After(SessionExpired(db, e), db).ledger == db.ledger
  {
    hide BoundSession;
  }

  lemma NoticeLedger(db: Db, found: Option<Id>, r: RefundEvent, references: set<Id>)
    ensures After(RefundReported(db, found, r), db).ledger == db.ledger
    ensures After(Disputed(db, references), db).ledger == db.ledger
  {
    hide RecordRefund, MarkActions, CumulativeRefund, RefundDisposition;
  }

  lemma ClaimLedger(db: Db, now: int, action: Id)
    ensures After(ClaimRefund(db, now, action), db).ledger == db.ledger
  {
    ClaimForm(db, now, action);
    hide Due, ClaimedRow, ClaimOn, ClaimRefund, After;
  }

  lemma WorkLedger(db: Db, now: int, c: Claim, succeeded: bool, action: Id)
    ensures After(CompleteRefund(db, now, c, succeeded), db).ledger == db.ledger
    ensures After(FailRefund(db, now, action), db).ledger == db.ledger
  {
  }

  lemma OperatorLedger(db: Db, now: int, action: Id)
    ensures After(RetryRefund(db, now, action), db).ledger == db.ledger
    ensures After(ResolveRefund(db, action), db).ledger == db.ledger
  {
  }

  lemma TerminalCredits(db: Db, now: int, id: Id, q: TerminalPayment, p: Id) returns (weeks: nat)
    requires PaidByTerminal(After(PayTerminal(db, now, id, q), db), p)
    ensures var after := After(PayTerminal(db, now, id, q), db);
            || NotCredited(db.ledger, after.ledger, p)
            || (CreditedWith(db.ledger, after.ledger, p, weeks) && Bought(db, now, OfMoney(TerminalPays(id, q)), p, weeks, after.payments[p].amount))
  {
    hide PayTerminal, After, Clean, Lengthen, StartLease, ReviewPayment, Buys, PriceAt, PricedTerminal, SeesLease;
    weeks := 0;
    Unchanged(PayTerminal(db, now, id, q), db);
    if PayTerminal(db, now, id, q).Rollback? {
    } else if (q.terminal, q.event) in db.receipts {
      PayReplay(db, now, id, q);
    } else {
      PayBuys(db, now, id, q);
      var listing := db.terminals[q.terminal];
      var clean := Clean(db, now, listing);
      var after := PayTerminal(db, now, id, q).db;
      CleanKeys(db, now, listing);
      if r, w :| r in clean.rentals && w >= 1 && SeesLease(db, now, q.terminal) && Buys(PriceAt(db, q.terminal), q.amount, w, false)
                 && after == Lengthen(clean, now, id, q, r, w) {
        weeks := w;
        LengthenRows(clean, now, id, q, r, w);
      } else if user, w :| w >= 1 && !SeesLease(db, now, q.terminal) && Buys(PriceAt(db, q.terminal), q.amount, w, true)
                           && after == StartLease(clean, now, id, q, listing, user, w) {
        weeks := w;
        StartRows(clean, now, id, q, listing, user, w);
      } else {
        var expected :| after == ReviewPayment(clean, now, id, q, listing, expected);
        ReviewRows(clean, now, id, q, listing, expected);
      }
    }
  }

  lemma MoneyCredits(db: Db, now: int, step: MoneyStep, p: Id) returns (weeks: nat)
    requires PaidByTerminal(ApplyMoney(db, now, step), p)
    ensures var after := ApplyMoney(db, now, step);
            || NotCredited(db.ledger, after.ledger, p)
            || (CreditedWith(db.ledger, after.ledger, p, weeks) && Bought(db, now, OfMoney(step), p, weeks, after.payments[p].amount))
  {
    weeks := 0;
    Uncredited(db.ledger, p);
    hide After, SessionExpired, SessionPaid, RefundReported, Disputed, PayTerminal, NotCredited, CreditedWith, PaidByTerminal;
    hide ClaimRefund, CompleteRefund, FailRefund, RetryRefund, ResolveRefund;
    match step
    case StripePaid(id, e) => SessionCredits(db, now, id, e, p);
    case TerminalPays(id, q) => weeks := TerminalCredits(db, now, id, q, p);
    case StripeExpired(e) => ExpiryLedger(db, e);
    case StripeRefund(found, r) => NoticeLedger(db, found, r, {});
    case StripeDispute(references) => NoticeLedger(db, None, ChargeRefunded(0, RefundSucceeded), references);
    case WorkerClaims(a) => ClaimLedger(db, now, a);
    case WorkerCompletes(c, succeeded) => WorkLedger(db, now, c, succeeded, 0);
    case WorkerFails(a) => WorkLedger(db, now, Claim(a, 0, 0, 0, 0), true, a);
    case OperatorRetries(a) => OperatorLedger(db, now, a);
    case OperatorResolves(a) => OperatorLedger(db, now, a);
  }

  lemma DeskCredits(db: Db, now: int, step: DeskStep, p: Id) returns (weeks: nat)
    requires PaidByTerminal(ApplyDesk(db, now, step), p)
    ensures var after := ApplyDesk(db, now, step);
            || NotCredited(db.ledger, after.ledger, p)
            || (CreditedWith(db.ledger, after.ledger, p, weeks) && Bought(db, now, AtDesk(step), p, weeks, after.payments[p].amount))
  {
    weeks := 1;
    hide CancelOverdue, EndLapsed, ExpireOverdueAttempts, VoidOverdueInvoices, LapseReservations, RedeemReservations, Promote;
    hide ReservedAgainst, Vacant, Reviewable, SettleReceipts, OwnLease, Unlinked, RentsNow, ActiveAdministrators, Eligible;
  }

  lemma StepCredits(db: Db, now: int, step: Step, p: Id) returns (weeks: nat)
    requires PaidByTerminal(Apply(db, now, step), p)
    ensures var after := Apply(db, now, step);
            || NotCredited(db.ledger, after.ledger, p)
            || (CreditedWith(db.ledger, after.ledger, p, weeks) && Bought(db, now, step, p, weeks, after.payments[p].amount))
  {
    weeks := 0;
    hide ApplyCheckout, ApplyMoney, ApplyDesk, NotCredited, CreditedWith, Bought, PaidByTerminal;
    match step
    case AtCheckout(s) => CheckoutCredits(db, now, s, p);
    case OfMoney(s) => weeks := MoneyCredits(db, now, s, p);
    case AtDesk(s) => weeks := DeskCredits(db, now, s, p);
  }

  // ---------- over runs ----------

  lemma {:induction false} WeeksAreCredits(l: Ledger, p: Id)
    ensures WeeksFor(l, p) > 0 ==> Credits(l, p) >= 1
  {
    if l.Posted? {
      WeeksAreCredits(l.earlier, p);
    }
  }

  /** Where no credit was added, no weeks were. */
  lemma {:induction false} WeeksStay(l: Ledger, m: Ledger, p: Id)
    requires Extends(l, m) && Credits(m, p) <= Credits(l, p)
    ensures WeeksFor(m, p) == WeeksFor(l, p)
  {
    if m != l {
      CreditsGrow(l, m.earlier, p);
      WeeksStay(l, m.earlier, p);
    }
  }

  lemma CreditedOnce(db: Db, p: Id)
    requires Inv(db)
    ensures p in db.payments ==> Credits(db.ledger, p) <= 1
    ensures p !in db.payments ==> Credits(db.ledger, p) == 0
  {
    assert CreditXorRefund(db.ledger, db.payments, db.actions) && EntriesSound(db.ledger, db.payments, db.invoices, db.rentals) by {
      hide *;
      Parts(db);
    }
    hide Inv, EntriesSound;
    NothingPosted(db.ledger, db.payments, db.invoices, db.rentals, p);
  }

  lemma PaymentStays(db: Db, after: Db, p: Id)
    requires Evolves(db, after) && p in db.payments
    ensures p in after.payments && after.payments[p].reference == db.payments[p].reference && after.payments[p].amount == db.payments[p].amount
    ensures Extends(db.ledger, after.ledger)
  {
    hide RentalsKept, InvoicesKept, AttemptsKept, ActionsKept, ReceiptsKept, Extends;
  }

  /** The first transaction credits the payment, and nothing that follows adds to it. */
  lemma BoughtFirst(db: Db, moments: seq<Moment>, p: Id)
    requires Inv(db) && Runnable(db, moments) && moments != [] && PaidByTerminal(Run(db, moments), p)
    requires WeeksFor(db.ledger, p) == 0 && WeeksFor(Apply(db, moments[0].now, moments[0].step).ledger, p) > 0
    ensures var end := Run(db, moments); Bought(db, moments[0].now, moments[0].step, p, WeeksFor(end.ledger, p), end.payments[p].amount)
  {
    hide Inv, Evolves, Keeps, Apply, Enabled, Bought, Extends;
    var next := Apply(db, moments[0].now, moments[0].step);
    var end := Run(next, moments[1..]);
    StepKeeps(db, moments[0].now, moments[0].step);
    Kept(db, next);
    RunKeeps(next, moments[1..]);
    Kept(next, end);
    WeeksAreCredits(next.ledger, p);
    CreditedOnce(next, p);
    CreditedOnce(end, p);
    PaymentStays(next, end, p);
    WeeksStay(next.ledger, end.ledger, p);
    var weeks := StepCredits(db, moments[0].now, moments[0].step, p);
  }

  /** After any run: the weeks that a terminal payment was credited with during it are those that its amount bought at the
      price of the moment it was credited, one to four, or the one week that staff approved. */
  lemma {:induction false} WeeksAreBought(db: Db, moments: seq<Moment>, p: Id) returns (i: nat)
    requires Inv(db) && Runnable(db, moments) && WeeksFor(db.ledger, p) == 0
    requires PaidByTerminal(Run(db, moments), p) && WeeksFor(Run(db, moments).ledger, p) > 0
    ensures i < |moments|
    ensures var end := Run(db, moments);
            Bought(Run(db, moments[..i]), moments[i].now, moments[i].step, p, WeeksFor(end.ledger, p), end.payments[p].amount)
    decreases |moments|
  {
    hide Inv, Evolves, Keeps, Apply, Enabled, Bought, PaidByTerminal;
    var next := Apply(db, moments[0].now, moments[0].step);
    if WeeksFor(next.ledger, p) > 0 {
      i := 0;
      BoughtFirst(db, moments, p);
      assert moments[..0] == [];
    } else {
      StepKeeps(db, moments[0].now, moments[0].step);
      Kept(db, next);
      var j := WeeksAreBought(next, moments[1..], p);
      i := j + 1;
      assert moments[..i][0] == moments[0] && moments[..i][1..] == moments[1..][..j];
    }
  }
}
