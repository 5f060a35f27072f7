/** Runs from a database without any business, and what a request finds when it comes back. */
module Journeys {
  import opened Tables
  import opened Allocation
  import opened Invariants
  import opened Evolution
  import opened Transactions
  import opened Runs
  import opened Clocked
  import opened ClockedRuns
  import opened Theorems
  import opened Pricing
  import LeaseWeeks

  // ---------- late money, from the start ----------

  /** Somebody takes a hold and is shown a session to pay it with. */
  function CheckedOut(t: int, id: Id, listing: Id, user: Id, session: Id): seq<Moment> {
    [Moment(t, AtCheckout(AcquireAttempt(id, OfListing(listing), user))), Moment(t, AtCheckout(StoreSession(id, session)))]
  }

  /** The hold, its invoice and its attempt, and nothing else. */
  ghost predicate JustHeld(db: Db, t: int, id: Id, listing: Id, user: Id, price: Price, session: Option<Id>, status: AttemptStatus) {
    && db.rentals == map[id := Rental(listing, user, Pending, t, t + HOLD_SECONDS)]
    && db.invoices == map[id := Invoice(Some(id), listing, user, Open, Minor(price.weeklyMinor + price.setupMinor, price.currency), t + HOLD_SECONDS)]
    && db.attempts == map[id := Attempt(id, session, status)] && db.payments == map[]
  }

  lemma NothingToClean(db: Db, t: int, listing: Id)
    requires Initial(db)
    ensures var clean := Clean(db, t, listing);
            && clean.rentals == map[] && clean.invoices == map[] && clean.attempts == map[] && clean.payments == map[]
            && clean.intents == db.intents
  {
  }

  lemma NothingInTheWay(db: Db, t: int, listing: Id, user: Id)
    requires Initial(db)
    ensures !Occupied(db.rentals, t, listing) && !ReservedAgainst(db.reservations, t, listing, user)
    ensures forall a :: !ExistingRow(db, t, OfListing(listing), user, a)
  {
  }

  lemma FirstHold(db: Db, t: int, id: Id, listing: Id, user: Id)
    requires Eligible(db.users, user) && Offered(db.listings, listing) && Initial(db)
    ensures JustHeld(After(Acquire(db, t, id, OfListing(listing), user), db), t, id, listing, user, db.listings[listing].price.value, None, Creating)
    ensures After(Acquire(db, t, id, OfListing(listing), user), db).intents == db.intents
  {
    hide Clean, Occupied, ReservedAgainst, ExistingRow, Initial, Eligible;
    NothingToClean(db, t, listing);
    NothingInTheWay(db, t, listing, user);
  }

  lemma FirstSession(db: Db, t: int, id: Id, listing: Id, user: Id, price: Price, session: Id)
    requires JustHeld(db, t, id, listing, user, price, None, Creating)
    ensures JustHeld(After(PersistSession(db, id, session), db), t, id, listing, user, price, Some(session), Presented)
    ensures After(PersistSession(db, id, session), db).intents == db.intents
  {
  }

  lemma TwoSteps(db: Db, t: int, id: Id, listing: Id, user: Id, session: Id)
    requires Fresh(db, id)
    ensures Runnable(db, CheckedOut(t, id, listing, user, session))
    ensures var held := After(Acquire(db, t, id, OfListing(listing), user), db);
            Run(db, CheckedOut(t, id, listing, user, session)) == After(PersistSession(held, id, session), held)
  {
    hide Acquire, PersistSession, After, Fresh;
    var moments := CheckedOut(t, id, listing, user, session);
    assert Enabled(db, moments[0].step);
    assert Apply(db, t, moments[0].step) == After(Acquire(db, t, id, OfListing(listing), user), db);
    var held := Apply(db, t, moments[0].step);
    assert Enabled(held, moments[1].step);
    assert Apply(held, t, moments[1].step) == After(PersistSession(held, id, session), held);
    TwoMoments(db, moments[0], moments[1]);
  }

  lemma TwoMoments(db: Db, m: Moment, n: Moment)
    requires Enabled(db, m.step) && Enabled(Apply(db, m.now, m.step), n.step)
    ensures Runnable(db, [m, n]) && Run(db, [m, n]) == Apply(Apply(db, m.now, m.step), n.now, n.step)
  {
    hide Enabled, Apply;
    var next := Apply(db, m.now, m.step);
    assert [m, n][1..] == [n] && [n][1..] == [];
    assert Run(next, [n]) == Run(Apply(next, n.now, n.step), []);
    assert Runnable(next, [n]);
  }

  /** The event that the session was paid in full. */
  ghost function PaidEvent(db: Db, id: Id, listing: Id, session: Id): SessionEvent
    requires listing in db.listings && db.listings[listing].price.Some? && session in db.intents
  {
    var price := db.listings[listing].price.value;
    SessionEvent(id, id, session, db.intents[session], Minor(price.weeklyMinor + price.setupMinor, price.currency))
  }

  ghost predicate AcceptedForRefund(db: Db, now: int, row: Id, e: SessionEvent) {
    SessionPaid(db, now, row, e).Commit? && RefundQueued(SessionPaid(db, now, row, e).db.actions, row)
  }

  /** Wherever there is something to rent, money can come late: a session that is paid after its hold ran out is refunded if
      no cleanup came first; after a cleanup its event is refused, now and in every later state. */
  lemma LateMoneyHappens(db: Db, t: int, id: Id, listing: Id, user: Id, session: Id, cleaned: int, now: int, row: Id, more: seq<Moment>)
    requires Offered(db.listings, listing) && session in db.intents && t + HOLD_SECONDS <= cleaned <= now
    requires Runnable(Sweep(Run(db, CheckedOut(t, id, listing, user, session)), cleaned, None), more)
    requires Fresh(db, id) && Eligible(db.users, user) && Initial(db)
    ensures Runnable(db, CheckedOut(t, id, listing, user, session))
    ensures var end := Run(db, CheckedOut(t, id, listing, user, session));
            var e := PaidEvent(db, id, listing, session);
            && Authentic(end, e) && AcceptedForRefund(end, now, row, e)
            && SessionPaid(Run(Sweep(end, cleaned, None), more), now, row, e).Rollback?
  {
    hide Acquire, PersistSession, Sweep, SessionPaid, Run, Runnable, Inv, Fresh, Initial, Keeps, Evolves, After, JustHeld, AcceptedForRefund;
    var e := PaidEvent(db, id, listing, session);
    var held := After(Acquire(db, t, id, OfListing(listing), user), db);
    var end := Run(db, CheckedOut(t, id, listing, user, session));
    TwoSteps(db, t, id, listing, user, session);
    FirstHold(db, t, id, listing, user);
    FirstSession(held, t, id, listing, user, db.listings[listing].price.value, session);
    LateMoneyThere(end, t, id, listing, user, db.listings[listing].price.value, session, e, cleaned, now, row);
    InitialInv(db);
    RunKeeps(db, CheckedOut(t, id, listing, user, session));
    Kept(db, end);
    SweepKeeps(end, cleaned, None);
    Kept(end, Sweep(end, cleaned, None));
    ExpiredNeverPaid(Sweep(end, cleaned, None), more, now, row, e);
  }

  lemma LateMoneyThere(db: Db, t: int, id: Id, listing: Id, user: Id, price: Price, session: Id, e: SessionEvent, cleaned: int, now: int, row: Id)
    requires JustHeld(db, t, id, listing, user, price, Some(session), Presented) && t + HOLD_SECONDS <= cleaned <= now
    requires e.attempt == id == e.invoice && e.session == session && e.amount == Minor(price.weeklyMinor + price.setupMinor, price.currency)
    ensures AcceptedForRefund(db, now, row, e)
    ensures var swept := Sweep(db, cleaned, None); e.attempt in swept.attempts && swept.attempts[e.attempt].status == Expired
  {
    assert BoundSession(db, e) && !UsedReference(db.payments, ByIntent(e.intent));
    assert BillsOverdue(db.invoices, db.rentals, cleaned, None, e.invoice);
    hide SessionPaid, Sweep, BillsOverdue, UsedReference;
    LatePaymentLostToCleanup(db, cleaned, now, row, e, None);
    SweptAttempt(db, cleaned, None, id);
  }

  // ---------- coming back ----------

  /** What a request was given is still asked of it: the attempt is live and its rental runs; for a renewal its invoice is
      open too. */
  ghost predicate StillAsked(db: Db, now: int, target: Target, hold: Hold) {
    && hold.attempt in db.attempts && LiveAttempt(db.attempts[hold.attempt])
    && match target
       case OfListing(_) => RunningHold(db.rentals, now, hold.rental)
       case OfRental(_) => hold.rental in db.rentals && db.rentals[hold.rental].status == Active && db.rentals[hold.rental].endsAt > now
                           && hold.invoice in db.invoices && db.invoices[hold.invoice].status == Open
  }

  lemma HeldTarget(db: Db, now: int, id: Id, target: Target, user: Id)
    requires Inv(db) && Fresh(db, id) && Acquire(db, now, id, target, user).Commit?
    ensures var hold := Acquire(db, now, id, target, user).value;
            match target case OfListing(listing) => hold.listing == listing case OfRental(rental) => hold.rental == rental
  {
    hide Inv, EndLapsed, CancelOverdue, ExpireOverdueAttempts, VoidOverdueInvoices, LapseReservations, Occupied, ReservedAgainst;
  }

  /** A recorded hold that is still asked is the row that is found. */
  lemma FoundAgain(db: Db, now: int, target: Target, user: Id, hold: Hold)
    requires Inv(db) && Live(db, now) && Recorded(db, hold, user) && StillAsked(db, now, target, hold)
    requires match target case OfListing(listing) => hold.listing == listing case OfRental(rental) => hold.rental == rental
    ensures ExistingRow(db, now, target, user, hold.attempt)
    ensures HoldOf(db, hold.attempt) == hold.(session := db.attempts[hold.attempt].session, renewal := target.OfRental?)
  {
    assert InvoicesBound(db.rentals, db.invoices) && HoldsBilled(db.rentals, db.invoices) && HoldsOpen(db.rentals, db.invoices, now) by {
      hide *;
      Parts(db);
      Split(db, now);
    }
    hide Inv, Live;
  }

  /** However late a request comes back, in an ordered run: as long as its attempt is live and its rental runs, acquiring again
      returns the same attempt, with the session that was stored meanwhile, and changes nothing. */
  lemma AcquiredStaysFound(db: Db, clock: int, now: int, id: Id, target: Target, user: Id, moments: seq<Moment>, later: int, again: Id)
    requires Inv(db) && Live(db, clock) && clock <= now && Fresh(db, id) && Acquire(db, now, id, target, user).Commit?
    requires var acquired := Acquire(db, now, id, target, user);
             && Runnable(acquired.db, moments) && Ordered(now, moments) && LastNow(now, moments) <= later
             && StillAsked(Run(acquired.db, moments), later, target, acquired.value)
    ensures var acquired := Acquire(db, now, id, target, user);
            var end := Run(acquired.db, moments);
            var hold := acquired.value.(session := end.attempts[acquired.value.attempt].session, renewal := target.OfRental?);
            Acquire(end, later, again, target, user) == Commit(end, hold)
  {
    hide Inv, Live, Fresh, Acquire, Run, Runnable, Ordered, LastNow, StillAsked, Keeps, Evolves, Recorded, ExistingRow, HoldOf;
    var acquired := Acquire(db, now, id, target, user);
    var end := Run(acquired.db, moments);
    AcquireKeeps(db, now, id, target, user);
    Unchanged(acquired, db);
    Kept(db, acquired.db);
    TimePasses(db, clock, now);
    AcquireLives(db, now, id, target, user);
    AcquiredIsRecorded(db, now, id, target, user);
    HeldTarget(db, now, id, target, user);
    RunKeeps(acquired.db, moments);
    Kept(acquired.db, end);
    RunLives(acquired.db, now, moments);
    TimePasses(end, LastNow(now, moments), later);
    RecordedInRuns(acquired.db, moments, acquired.value, user);
    FoundAgain(end, later, target, user, acquired.value);
    AcquireAgain(end, later, again, target, user, acquired.value.attempt);
  }

  // ---------- holds, from the start ----------

  /** In every ordered run of a database that started without business, a hold that has not run out can be settled exactly. */
  lemma HoldPayableFromStart(db: Db, clock: int, moments: seq<Moment>, now: int, r: Id, id: Id, reference: Reference)
    requires Runnable(db, moments) && Ordered(clock, moments) && LastNow(clock, moments) <= now
    requires var end := Run(db, moments); RunningHold(end.rentals, now, r) && Fresh(end, id) && !UsedReference(end.payments, reference)
    requires Initial(db)
    ensures var end := Run(db, moments);
            r in end.invoices && Settle(end, now, id, r, reference, end.invoices[r].amount).Commit?
  {
    hide *;
    InitialLives(db, clock);
    HoldStaysPayable(db, clock, moments, now, r, id, reference);
  }

  // ---------- a start of two weeks ----------

  lemma TwoWeeksValid(p: Price)
    ensures var amount := p.setupLinden + 2 * p.weeklyLinden;
            amount > 0 && ValidWeeks(amount, p.setupLinden, p.weeklyLinden) && PaidWeeks(amount, p.setupLinden, p.weeklyLinden) == 2
  {
    MultipleDivides(2, p.weeklyLinden);
  }

  lemma NobodyThere(db: Db, now: int, listing: Id, user: Id)
    requires Initial(db)
    ensures Vacant(Clean(db, now, listing).rentals, listing) && !ReservedAgainst(db.reservations, now, listing, user)
    ensures forall r :: !LinkedLease(Clean(db, now, listing), now, listing, r)
  {
    NothingToClean(db, now, listing);
    NothingInTheWay(db, now, listing, user);
    hide Clean;
  }

  /** It happens: at the terminal of a free listing, an eligible payer with a linked avatar who pays the setup price and two
      weeks is confirmed and starts a lease of two weeks. */
  lemma TwoWeekStart(db: Db, now: int, id: Id, q: TerminalPayment)
    requires LeaseWeeks.PricedTerminal(db, q.terminal) && q.terminal in db.terminals
    requires q.payer in db.identities && Eligible(db.users, db.identities[q.payer])
    requires var p := LeaseWeeks.PriceAt(db, q.terminal); q.amount == p.setupLinden + 2 * p.weeklyLinden
    requires Initial(db)
    ensures var paid := PayTerminal(db, now, id, q);
            && paid.Commit? && paid.value == Confirmed && id in paid.db.rentals
            && paid.db.rentals[id] == Rental(db.terminals[q.terminal], db.identities[q.payer], Active, now, now + 2 * WEEK)
            && LeaseWeeks.Starts(db, now, id, q)
  {
    hide Initial, Clean, StartLease, PayTerminal, ValidWeeks, PaidWeeks, Vacant, ReservedAgainst, LinkedLease, Eligible;
    hide LeaseWeeks.PricedTerminal, LeaseWeeks.PriceAt, LeaseWeeks.Starts;
    var listing, user := db.terminals[q.terminal], db.identities[q.payer];
    TwoWeeksValid(LeaseWeeks.PriceAt(db, q.terminal));
    NobodyThere(db, now, listing, user);
    NoEventYet(db, q.terminal, q.event);
    LeaseWeeks.PayStarts(db, now, id, q, 2);
    LeaseWeeks.StartRows(Clean(db, now, listing), now, id, q, listing, user, 2);
  }

  lemma NoEventYet(db: Db, terminal: Id, event: Id)
    requires Initial(db)
    ensures (terminal, event) !in db.receipts
  {
  }
}
