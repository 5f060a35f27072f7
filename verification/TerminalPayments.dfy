/** The terminal routes: one payment transaction and the poll's housekeeping, statement by statement. */
module TerminalPayments {
  import opened Tables
  import opened Pricing
  import opened Allocation
  import opened Invariants
  import opened Transactions
  import opened Locks
  import opened Store
  import opened Checkout

  /** What the queries of a payment return: the running lease with its renter's avatar, the payer's user,
      whether that user may rent, and the running reservation. */
  datatype Reading = Reading(lease: Option<Id>, avatar: Option<Id>, payer: Option<Id>, eligible: bool, reservation: Option<Id>)

  ghost predicate ReadsTruly(db: Db, now: int, q: TerminalPayment, listing: Id, g: Reading) {
    && (g.lease.Some? ==> LinkedLease(db, now, listing, g.lease.value))
    && (g.lease.None? ==> forall r :: !LinkedLease(db, now, listing, r))
    && g.avatar.Some? == g.lease.Some?
    && (g.avatar.Some? ==> g.avatar.value in db.identities && db.identities[g.avatar.value] == db.rentals[g.lease.value].user)
    && g.payer == (if q.payer in db.identities then Some(db.identities[q.payer]) else None)
    && g.eligible == (g.payer.Some? && Eligible(db.users, g.payer.value))
    && (g.reservation.Some? ==> g.reservation.value in db.reservations && Holds(db.reservations[g.reservation.value], now, listing))
    && (g.reservation.None? <==> !IsReserved(db.reservations, now, listing))
  }

  function PaymentLocks(listing: Id, payer: Option<Id>): (keys: seq<LockKey>)
    ensures Ascending(keys)
  {
    if payer.Some? then ListingThenUser(listing, payer.value) else [ListingKey(listing)]
  }

  method ReadTerminal(db: Database, now: int, q: TerminalPayment, listing: Id) returns (g: Reading)
    requires db.held == [ListingKey(listing)]
    modifies db`held
    ensures ReadsTruly(db.tables, now, q, listing, g)
    ensures db.held == PaymentLocks(listing, g.payer)
  {
    var payer := if q.payer in db.tables.identities then Some(db.tables.identities[q.payer]) else None;
    if payer.Some? {
      db.Lock(UserKey(payer.value));
    }
    var eligible := payer.Some? && Eligible(db.tables.users, payer.value);
    var reservation := RunningReservation(db, now, listing);
    if r :| r in db.tables.rentals && LinkedLease(db.tables, now, listing, r) {
      var avatar :| avatar in db.tables.identities && db.tables.identities[avatar] == db.tables.rentals[r].user;
      return Reading(Some(r), Some(avatar), payer, eligible, reservation);
    }
    return Reading(None, None, payer, eligible, reservation);
  }

  /** The route's decision: an action, then everything that turns it into a review. */
  function TerminalAction(reservations: map<Id, Reservation>, q: TerminalPayment, g: Reading, setup: int, weekly: int): LindenAction
    requires weekly > 0 && (g.reservation.Some? ==> g.reservation.value in reservations)
  {
    var action := Decide(q.amount, ExpectedAmount(q.amount, setup, weekly), g.avatar, q.payer, g.payer.Some?);
    if !ValidWeeks(q.amount, setup, weekly) then Review
    else if g.reservation.Some? && (g.lease.Some? || Some(reservations[g.reservation.value].target) != g.payer) then Review
    else if g.payer.Some? && !g.eligible then Review
    else action
  }

  /** When the route extends: the payer is the renter, may rent, and paid for whole weeks. */
  lemma ExtendsExactly(db: Db, now: int, q: TerminalPayment, listing: Id, g: Reading, weekly: int)
    requires ReadsTruly(db, now, q, listing, g) && g.lease.Some? && weekly > 0
    requires IdentitiesDistinct(db.users.Keys, db.identities) && Coupled(db.rentals, db.reservations)
    ensures g.reservation.None?
    ensures TerminalAction(db.reservations, q, g, 0, weekly) != Start
    ensures TerminalAction(db.reservations, q, g, 0, weekly) == Extend <==>
              ValidWeeks(q.amount, 0, weekly) && q.payer in db.identities && db.identities[q.payer] == db.rentals[g.lease.value].user
              && Eligible(db.users, db.rentals[g.lease.value].user)
  {
    hide PaidWeeks, Verified;
  }

  /** When the route starts: the payer is known, may rent, paid for whole weeks, and nobody else has the listing reserved. */
  lemma StartsExactly(db: Db, now: int, q: TerminalPayment, listing: Id, g: Reading, setup: int, weekly: int)
    requires ReadsTruly(db, now, q, listing, g) && g.lease.None? && weekly > 0 && OneLiveReservation(db.reservations)
    ensures TerminalAction(db.reservations, q, g, setup, weekly) != Extend
    ensures TerminalAction(db.reservations, q, g, setup, weekly) == Start <==>
              ValidWeeks(q.amount, setup, weekly) && q.payer in db.identities && Eligible(db.users, db.identities[q.payer])
              && !ReservedAgainst(db.reservations, now, listing, db.identities[q.payer])
  {
    hide PaidWeeks, LinkedLease;
  }

  /** The reading's lease is the one the specification sees. */
  lemma OneLease(db: Db, now: int, listing: Id, r: Id, s: Id)
    requires OneLiveRental(db.rentals) && LinkedLease(db, now, listing, r) && LinkedLease(db, now, listing, s)
    ensures r == s
  {
  }

  /** The tables after the statements of START. */
  function StartedTables(db: Db, now: int, id: Id, listing: Id, user: Id, weeks: int, reservation: Option<Id>): Db {
    db.(rentals := db.rentals[id := Rental(listing, user, Active, now, now + weeks * WEEK)], users := Promote(db.users, user),
        reservations := Redeem(db.reservations, reservation))
  }

  /** The statements of START: rental, role, reservation. */
  method StartRental(db: Database, now: int, id: Id, listing: Id, user: Id, weeks: int, reservation: Option<Id>)
    returns (ok: bool, started: bool)
    modifies db`tables
    ensures var row := Rental(listing, user, Active, now, now + weeks * WEEK);
            && (ok <==> OwnerAdmissible(old(db.tables).users, now, row))
            && (started <==> RentalAdmissible(old(db.tables).users, old(db.tables).rentals, now, id, row))
            && db.tables == if !started then old(db.tables) else StartedTables(old(db.tables), now, id, listing, user, weeks, reservation)
    ensures db.tables.payments == old(db.tables).payments && (started ==> id in db.tables.rentals)
  {
    hide RentalAdmissible, OwnerAdmissible, Promote, Redeem;
    ok, started := db.InsertRentalIfFree(now, id, Rental(listing, user, Active, now, now + weeks * WEEK));
    if started {
      db.tables := db.tables.(users := Promote(db.tables.users, user));
      db.tables := db.tables.(reservations := Redeem(db.tables.reservations, reservation));
    }
  }

  /** UPDATE rentals SET ends_at=ends_at+weeks WHERE id AND status='ACTIVE' changes its one row. */
  predicate ExtensionAdmissible(db: Db, now: int, rental: Id, weeks: int)
    requires rental in db.rentals
  {
    && db.rentals[rental].status == Active
    && RentalAdmissible(db.users, db.rentals, now, rental, db.rentals[rental].(endsAt := db.rentals[rental].endsAt + weeks * WEEK))
  }

  function EventStatus(action: LindenAction): PaymentStatus {
    if action == Review then InReview else Confirmed
  }

  function EventBill(now: int, listing: Id, payer: Id, action: LindenAction, rental: Option<Id>, expected: int): Invoice {
    Invoice(if action == Review then None else rental, listing, payer, if action == Review then Open else Paid, Linden(expected), now)
  }

  function EventPayment(id: Id, q: TerminalPayment, action: LindenAction): Payment {
    Payment(id, ByTerminal(q.terminal, q.event), Linden(q.amount), EventStatus(action))
  }

  function Longer(rentals: map<Id, Rental>, r: Id, weeks: int): map<Id, Rental>
    requires r in rentals
  {
    rentals[r := rentals[r].(endsAt := rentals[r].endsAt + weeks * WEEK)]
  }

  /** The tables after the invoice, payment, rental and event statements. */
  function EventRecorded(db: Db, now: int, id: Id, q: TerminalPayment, listing: Id, payer: Option<Id>, action: LindenAction,
                         rental: Option<Id>, weeks: int, expected: int): Db
    requires action != Review ==> rental.Some? && rental.value in db.rentals && weeks >= 0
  {
    db.(invoices := if payer.Some? then db.invoices[id := EventBill(now, listing, payer.value, action, rental, expected)] else db.invoices,
        payments := if payer.Some? then db.payments[id := EventPayment(id, q, action)] else db.payments,
        rentals := if action == Extend then Longer(db.rentals, rental.value, weeks) else db.rentals,
        receipts := db.receipts[(q.terminal, q.event) :=
                      Receipt(q.payer, q.amount, EventStatus(action), if payer.Some? then Some(id) else None, q.body, expected)],
        ledger := if action == Review then db.ledger else Posted(Entry(rental.value, ByPayment(id), weeks, 0, 0), db.ledger))
  }

  /** The invoice, payment and event rows, and in between the rental's new end when the lease is extended. */
  method RecordEvent(db: Database, now: int, id: Id, q: TerminalPayment, listing: Id, payer: Option<Id>, action: LindenAction,
                     rental: Option<Id>, weeks: int, expected: int) returns (ok: bool)
    requires action != Review ==> rental.Some? && rental.value in db.tables.rentals && payer.Some? && weeks >= 0
    modifies db`tables
    ensures ok <==> && (payer.Some? ==> forall p | p in old(db.tables).payments ::
                                          old(db.tables).payments[p].reference != ByTerminal(q.terminal, q.event))
                    && (action == Extend ==> ExtensionAdmissible(old(db.tables), now, rental.value, weeks))
    ensures ok ==> db.tables == EventRecorded(old(db.tables), now, id, q, listing, payer, action, rental, weeks, expected)
  {
    hide RentalAdmissible, EventBill;
    if payer.Some? {
      db.tables := db.tables.(invoices := db.tables.invoices[id := EventBill(now, listing, payer.value, action, rental, expected)]);
      ok := db.InsertPayment(id, EventPayment(id, q, action));
      if !ok {
        return;
      }
    }
    if action == Extend {
      if db.tables.rentals[rental.value].status != Active {
        return false;
      }
      ok := db.WriteRental(now, rental.value, db.tables.rentals[rental.value].(endsAt := db.tables.rentals[rental.value].endsAt + weeks * WEEK));
      if !ok {
        return;
      }
    }
    if action != Review {
      db.tables := db.tables.(ledger := Posted(Entry(rental.value, ByPayment(id), weeks, 0, 0), db.tables.ledger));
    }
    db.tables := db.tables.(receipts := db.tables.receipts[(q.terminal, q.event) :=
      Receipt(q.payer, q.amount, EventStatus(action), if payer.Some? then Some(id) else None, q.body, expected)]);
    return true;
  }

  // ---------- the transaction on a cleaned listing ----------

  /** With a running lease whose renter has an avatar: what PayTerminal does. */
  ghost function OnLeased(db: Db, now: int, id: Id, q: TerminalPayment, listing: Id, weekly: int, r: Id): Outcome<PaymentStatus>
    requires r in db.rentals && weekly > 0
  {
    if ValidWeeks(q.amount, 0, weekly) && q.payer in db.identities && db.identities[q.payer] == db.rentals[r].user
       && Eligible(db.users, db.rentals[r].user)
    then Commit(Lengthen(db, now, id, q, r, PaidWeeks(q.amount, 0, weekly)), Confirmed)
    else Commit(ReviewPayment(db, now, id, q, listing, ExpectedAmount(q.amount, 0, weekly)), InReview)
  }

  /** Without one. */
  ghost function OnFree(db: Db, now: int, id: Id, q: TerminalPayment, listing: Id, setup: int, weekly: int): Outcome<PaymentStatus>
    requires weekly > 0
  {
    if ValidWeeks(q.amount, setup, weekly) && q.payer in db.identities && Eligible(db.users, db.identities[q.payer])
       && Vacant(db.rentals, listing) && !ReservedAgainst(db.reservations, now, listing, db.identities[q.payer])
    then Commit(StartLease(db, now, id, q, listing, db.identities[q.payer], PaidWeeks(q.amount, setup, weekly)), Confirmed)
    else Commit(ReviewPayment(db, now, id, q, listing, ExpectedAmount(q.amount, setup, weekly)), InReview)
  }

  lemma ExtensionFacts(db: Db, now: int, id: Id, q: TerminalPayment, listing: Id, r: Id, weekly: int)
    requires Inv(db) && LinkedLease(db, now, listing, r) && id !in db.invoices && id !in db.payments && weekly > 0
    requires (q.terminal, q.event) !in db.receipts
    ensures IdentitiesDistinct(db.users.Keys, db.identities) && Coupled(db.rentals, db.reservations)
    ensures r == SeenLease(db, now, listing) && r in db.rentals
    ensures !UsedReference(db.payments, ByTerminal(q.terminal, q.event))
    ensures ValidWeeks(q.amount, 0, weekly) && Eligible(db.users, db.rentals[r].user) ==>
              ExtensionAdmissible(db, now, r, PaidWeeks(q.amount, 0, weekly))
  {
    Parts(db);
    OneLease(db, now, listing, r, SeenLease(db, now, listing));
    hide Inv, UsedReference, Coupled, IdentitiesDistinct, ReceiptsBound;
    UnrecordedReference(db, q);
  }

  /** A terminal event without a record has no payment. */
  lemma UnrecordedReference(db: Db, q: TerminalPayment)
    requires ReceiptsBound(db.receipts, db.payments) && (q.terminal, q.event) !in db.receipts
    ensures !UsedReference(db.payments, ByTerminal(q.terminal, q.event))
  {
  }

  lemma WholeWeeks(amount: int, setup: int, weekly: int)
    requires weekly > 0
    ensures ValidWeeks(amount, setup, weekly) ==> PaidWeeks(amount, setup, weekly) >= 1 && ExpectedAmount(amount, setup, weekly) == amount
  {
    var weeks := PaidWeeks(amount, setup, weekly);
    assert weeks * weekly == weekly * weeks;
    hide PaidWeeks;
  }

  lemma StartFacts(db: Db, now: int, id: Id, q: TerminalPayment, listing: Id, g: Reading, weeks: int)
    requires Inv(db) && ReadsTruly(db, now, q, listing, g) && id !in db.rentals && (q.terminal, q.event) !in db.receipts
    requires LapseReservations(db.reservations, now, listing) == db.reservations
    ensures OneLiveReservation(db.reservations)
    ensures RedeemReservations(db.reservations, now, listing) == Redeem(db.reservations, g.reservation)
    ensures !UsedReference(db.payments, ByTerminal(q.terminal, q.event))
    ensures forall user | Eligible(db.users, user) && weeks >= 1 ::
              var row := Rental(listing, user, Active, now, now + weeks * WEEK);
              && OwnerAdmissible(db.users, now, row)
              && (RentalAdmissible(db.users, db.rentals, now, id, row) <==> Vacant(db.rentals, listing))
  {
    Parts(db);
    hide Inv, UsedReference, ReceiptsBound, OneLiveReservation, LapseReservations, RedeemReservations, Redeem, IsReserved;
    UnrecordedReference(db, q);
    RedeemInSteps(db.reservations, now, listing, g.reservation);
  }

  /** What PayTerminal does on a lease, as the statements write it. */
  lemma LeasedAs(db: Db, now: int, id: Id, q: TerminalPayment, listing: Id, weekly: int, g: Reading, action: LindenAction)
    requires g.lease.Some? && g.lease.value in db.rentals && weekly > 0 && db.rentals[g.lease.value].listing == listing
    requires g.payer == (if q.payer in db.identities then Some(db.identities[q.payer]) else None)
    requires action == Extend || action == Review
    requires action == Extend <==>
               ValidWeeks(q.amount, 0, weekly) && q.payer in db.identities && db.identities[q.payer] == db.rentals[g.lease.value].user
               && Eligible(db.users, db.rentals[g.lease.value].user)
    ensures action == Extend ==> PaidWeeks(q.amount, 0, weekly) >= 0
    ensures OnLeased(db, now, id, q, listing, weekly, g.lease.value)
            == Commit(EventRecorded(db, now, id, q, listing, g.payer, action, g.lease,
                                    PaidWeeks(q.amount, 0, weekly), ExpectedAmount(q.amount, 0, weekly)), EventStatus(action))
  {
    WholeWeeks(q.amount, 0, weekly);
    hide ValidWeeks, PaidWeeks, ExpectedAmount, Eligible;
  }

  /** A payment while a linked lease runs. */
  method PayOnLease(db: Database, now: int, id: Id, q: TerminalPayment, listing: Id, weekly: int, g: Reading)
    returns (status: Option<PaymentStatus>)
    requires Inv(db.tables) && ReadsTruly(db.tables, now, q, listing, g) && g.lease.Some? && weekly > 0
    requires id !in db.tables.invoices && id !in db.tables.payments && (q.terminal, q.event) !in db.tables.receipts
    modifies db`tables
    ensures var paid := OnLeased(old(db.tables), now, id, q, listing, weekly, SeenLease(old(db.tables), now, listing));
            status == Some(paid.value) && db.tables == paid.db
  {
    var action := TerminalAction(db.tables.reservations, q, g, 0, weekly);
    ExtensionFacts(db.tables, now, id, q, listing, g.lease.value, weekly);
    ExtendsExactly(db.tables, now, q, listing, g, weekly);
    LeasedAs(db.tables, now, id, q, listing, weekly, g, action);
    hide Inv, TerminalAction, Coupled, IdentitiesDistinct, ExtensionAdmissible, ExpectedAmount, PaidWeeks, ValidWeeks, OnLeased;
    hide EventRecorded;
    var ok := RecordEvent(db, now, id, q, listing, g.payer, action, g.lease, PaidWeeks(q.amount, 0, weekly), ExpectedAmount(q.amount, 0, weekly));
    if !ok {
      return None;
    }
    return Some(EventStatus(action));
  }

  /** The free listing goes to the payer. */
  ghost predicate GoesToPayer(db: Db, now: int, q: TerminalPayment, listing: Id, setup: int, weekly: int)
    requires weekly > 0
  {
    && ValidWeeks(q.amount, setup, weekly) && q.payer in db.identities && Eligible(db.users, db.identities[q.payer])
    && !ReservedAgainst(db.reservations, now, listing, db.identities[q.payer])
  }

  /** What PayTerminal does on a free listing that goes to the payer, as the statements write it. */
  lemma FreeStart(db: Db, now: int, id: Id, q: TerminalPayment, listing: Id, setup: int, weekly: int, reservation: Option<Id>,
                  weeks: int, user: Id)
    requires weekly > 0 && weeks == PaidWeeks(q.amount, setup, weekly) && weeks >= 1
    requires GoesToPayer(db, now, q, listing, setup, weekly) && Vacant(db.rentals, listing)
    requires user == db.identities[q.payer]
    requires RedeemReservations(db.reservations, now, listing) == Redeem(db.reservations, reservation)
    ensures OnFree(db, now, id, q, listing, setup, weekly)
            == Commit(EventRecorded(StartedTables(db, now, id, listing, user, weeks, reservation), now, id, q, listing, Some(user),
                                    Start, Some(id), weeks, ExpectedAmount(q.amount, setup, weekly)), Confirmed)
  {
    WholeWeeks(q.amount, setup, weekly);
    hide ValidWeeks, PaidWeeks, ExpectedAmount, Eligible, Vacant, ReservedAgainst, Redeem, RedeemReservations, Promote;
  }

  /** What PayTerminal does on a free listing otherwise. */
  lemma FreeReview(db: Db, now: int, id: Id, q: TerminalPayment, listing: Id, setup: int, weekly: int, payer: Option<Id>, weeks: int)
    requires weekly > 0 && payer == (if q.payer in db.identities then Some(db.identities[q.payer]) else None)
    requires !(GoesToPayer(db, now, q, listing, setup, weekly) && Vacant(db.rentals, listing))
    ensures OnFree(db, now, id, q, listing, setup, weekly)
            == Commit(EventRecorded(db, now, id, q, listing, payer, Review, None, weeks, ExpectedAmount(q.amount, setup, weekly)), InReview)
  {
    hide ValidWeeks, PaidWeeks, ExpectedAmount, Eligible, Vacant, ReservedAgainst;
  }

  /** A payment while no linked lease runs. */
  method PayOnFree(db: Database, now: int, id: Id, q: TerminalPayment, listing: Id, setup: int, weekly: int, g: Reading)
    returns (status: Option<PaymentStatus>)
    requires Inv(db.tables) && ReadsTruly(db.tables, now, q, listing, g) && g.lease.None? && weekly > 0
    requires id !in db.tables.rentals
    requires id !in db.tables.invoices && id !in db.tables.payments && (q.terminal, q.event) !in db.tables.receipts
    requires LapseReservations(db.tables.reservations, now, listing) == db.tables.reservations
    modifies db`tables
    ensures var paid := OnFree(old(db.tables), now, id, q, listing, setup, weekly);
            status == Some(paid.value) && db.tables == paid.db
  {
    var expected, weeks := ExpectedAmount(q.amount, setup, weekly), PaidWeeks(q.amount, setup, weekly);
    var action := TerminalAction(db.tables.reservations, q, g, setup, weekly);
    ghost var before := db.tables;
    StartFacts(before, now, id, q, listing, g, weeks);
    StartsExactly(before, now, q, listing, g, setup, weekly);
    assert action == Start <==> GoesToPayer(before, now, q, listing, setup, weekly);
    WholeWeeks(q.amount, setup, weekly);
    if action == Start && Vacant(before.rentals, listing) {
      FreeStart(before, now, id, q, listing, setup, weekly, g.reservation, weeks, g.payer.value);
    } else {
      FreeReview(before, now, id, q, listing, setup, weekly, g.payer, weeks);
    }
    hide Inv, TerminalAction, ExtensionAdmissible, ExpectedAmount, PaidWeeks, ValidWeeks, Vacant, ReservedAgainst, OnFree;
    hide EventRecorded, Eligible;
    hide RentalAdmissible, OwnerAdmissible, RedeemReservations, LapseReservations, Redeem, OneLiveReservation, Promote;
    hide LinkedLease, IsReserved;
    hide StartedTables, GoesToPayer;
    var rental: Option<Id> := None;
    if action == Start {
      var ok, started := StartRental(db, now, id, listing, g.payer.value, weeks, g.reservation);
      if !ok {
        return None;
      }
      if started {
        rental := Some(id);
      } else {
        action := Review;
      }
    }
    var ok := RecordEvent(db, now, id, q, listing, g.payer, action, rental, weeks, expected);
    if !ok {
      return None;
    }
    return Some(EventStatus(action));
  }

  // ---------- the whole transaction ----------

  /** The reservation query sees the same before and after cleanup. */
  lemma SameReserved(db: Db, now: int, listing: Id, user: Id)
    ensures ReservedAgainst(Clean(db, now, listing).reservations, now, listing, user) <==> ReservedAgainst(db.reservations, now, listing, user)
  {
    CleanAvailability(db, now, listing, user);
    hide Clean, ReservedAgainst;
  }

  /** What PayTerminal does on a cleaned listing. */
  ghost function OnClean(db: Db, now: int, id: Id, q: TerminalPayment, listing: Id, price: Price): (paid: Outcome<PaymentStatus>)
    ensures paid.Commit?
  {
    if exists r :: LinkedLease(db, now, listing, r)
    then OnLeased(db, now, id, q, listing, price.weeklyLinden, SeenLease(db, now, listing))
    else OnFree(db, now, id, q, listing, price.setupLinden, price.weeklyLinden)
  }

  /** The terminal payment specification, after deduplication and cleanup. */
  lemma PayTerminalAs(db: Db, now: int, id: Id, q: TerminalPayment)
    requires q.terminal in db.terminals && q.amount > 0 && (q.terminal, q.event) !in db.receipts
    ensures var listing := db.terminals[q.terminal];
            var clean := Clean(db, now, listing);
            var paid := PayTerminal(db, now, id, q);
            if !(listing in db.listings && db.listings[listing].price.Some?) then paid.Rollback?
            else paid == OnClean(clean, now, id, q, listing, db.listings[listing].price.value)
  {
    var listing := db.terminals[q.terminal];
    if q.payer in db.identities {
      SameReserved(db, now, listing, db.identities[q.payer]);
    }
    CleanKeys(db, now, listing);
    hide Clean, Lengthen, StartLease, ReviewPayment, Vacant, ReservedAgainst, LinkedLease, ValidWeeks, PaidWeeks, ExpectedAmount, Eligible;
  }

  lemma CleanLapsed(db: Db, now: int, listing: Id)
    ensures LapseReservations(Clean(db, now, listing).reservations, now, listing) == Clean(db, now, listing).reservations
  {
    hide Sweep;
  }

  lemma EndedTwice(rentals: map<Id, Rental>, now: int, listing: Id)
    ensures EndLapsed(EndLapsed(rentals, now, Some(listing)), now, Some(listing)) == EndLapsed(rentals, now, Some(listing))
    ensures OverdueRows(EndLapsed(rentals, now, Some(listing)), now, Some(listing)) == OverdueRows(rentals, now, Some(listing))
  {
  }

  /** The route ends lapsed leases itself before it calls the cleanup that does so again. */
  lemma CleanAfterEnding(db: Db, now: int, listing: Id)
    ensures Clean(db.(rentals := EndLapsed(db.rentals, now, Some(listing))), now, listing) == Clean(db, now, listing)
  {
    var ended := db.(rentals := EndLapsed(db.rentals, now, Some(listing)));
    SweepStatements(db, now, Some(listing));
    SweepStatements(ended, now, Some(listing));
    EndedTwice(db.rentals, now, listing);
    hide EndLapsed, CancelOverdue, ExpireOverdueAttempts, VoidOverdueInvoices, CancelRows, ExpireRows, VoidRows, BillsOf;
    hide OverdueRows, LapseReservations;
  }

  lemma CleanFresh(db: Db, now: int, id: Id, listing: Id)
    requires Inv(db) && Fresh(db, id)
    ensures var clean := Clean(db, now, listing);
            && Inv(clean) && id !in clean.rentals && id !in clean.invoices && id !in clean.payments
            && clean.receipts == db.receipts && clean.listings == db.listings && clean.identities == db.identities
  {
    CleanKeeps(db, now, listing);
    CleanKeys(db, now, listing);
    hide Inv, Clean, Keeps;
  }

  lemma ReadingSees(db: Db, now: int, q: TerminalPayment, listing: Id, g: Reading)
    requires ReadsTruly(db, now, q, listing, g)
    ensures g.lease.Some? <==> exists r :: LinkedLease(db, now, listing, r)
    ensures g.payer == (if q.payer in db.identities then Some(db.identities[q.payer]) else None)
  {
    hide LinkedLease, Eligible, IsReserved;
  }

  /** The route's cleanup: it ends lapsed leases itself, and the cleanup that it calls does so again. */
  method CleanForPayment(db: Database, now: int, listing: Id)
    modifies db`tables
    ensures db.tables == Clean(old(db.tables), now, listing)
  {
    CleanAfterEnding(db.tables, now, listing);
    hide Clean, EndLapsed;
    db.tables := db.tables.(rentals := EndLapsed(db.tables.rentals, now, Some(listing)));
    CleanListing(db, now, listing);
  }

  /** The part of the transaction after cleanup. */
  method PayOnClean(db: Database, now: int, id: Id, q: TerminalPayment, listing: Id, price: Price)
    returns (status: Option<PaymentStatus>)
    requires Inv(db.tables) && id !in db.tables.rentals && id !in db.tables.invoices && id !in db.tables.payments
    requires (q.terminal, q.event) !in db.tables.receipts && db.held == [ListingKey(listing)]
    requires LapseReservations(db.tables.reservations, now, listing) == db.tables.reservations
    modifies db
    ensures var paid := OnClean(old(db.tables), now, id, q, listing, price); status == Some(paid.value) && db.tables == paid.db
    ensures var payer := if q.payer in old(db.tables).identities then Some(old(db.tables).identities[q.payer]) else None;
            db.held == PaymentLocks(listing, payer)
  {
    hide Inv, OnLeased, OnFree, ReadsTruly, LapseReservations, LinkedLease;
    var g := ReadTerminal(db, now, q, listing);
    ReadingSees(db.tables, now, q, listing, g);
    if g.lease.Some? {
      status := PayOnLease(db, now, id, q, listing, price.weeklyLinden, g);
    } else {
      status := PayOnFree(db, now, id, q, listing, price.setupLinden, price.weeklyLinden, g);
    }
  }

  /** The locks of a payment past deduplication: its listing's, and if it is recorded its payer's. */
  function NewPaymentLocks(db: Db, q: TerminalPayment, paid: bool): (keys: seq<LockKey>)
    requires q.terminal in db.terminals
    ensures Ascending(keys)
  {
    PaymentLocks(db.terminals[q.terminal], if paid && q.payer in db.identities then Some(db.identities[q.payer]) else None)
  }

  /** The payment of a terminal, past deduplication. */
  method PayNew(db: Database, now: int, id: Id, q: TerminalPayment) returns (status: Option<PaymentStatus>)
    requires q.terminal in db.tables.terminals && q.amount > 0 && (q.terminal, q.event) !in db.tables.receipts
    requires db.held == []
    requires Fresh(db.tables, id) && Inv(db.tables)
    modifies db
    ensures status == Result(PayTerminal(old(db.tables), now, id, q))
    ensures status.Some? ==> db.tables == PayTerminal(old(db.tables), now, id, q).db
    ensures db.held == NewPaymentLocks(old(db.tables), q, status.Some?)
  {
    hide Inv, Fresh, PayTerminal, NewPaymentLocks, OnClean, Clean, ExpectedAmount, ValidWeeks, PaidWeeks, LapseReservations;
    hide Keeps, LinkedLease, OnLeased, OnFree, PaymentLocks;
    var listing := db.tables.terminals[q.terminal];
    LocksForm(db.tables, q);
    PayTerminalAs(db.tables, now, id, q);
    CleanFresh(db.tables, now, id, listing);
    CleanLapsed(db.tables, now, listing);
    db.Lock(ListingKey(listing));
    CleanForPayment(db, now, listing);
    if !(listing in db.tables.listings && db.tables.listings[listing].price.Some?) {
      return None;
    }
    status := PayOnClean(db, now, id, q, listing, db.tables.listings[listing].price.value);
  }

  lemma LocksForm(db: Db, q: TerminalPayment)
    requires q.terminal in db.terminals
    ensures NewPaymentLocks(db, q, false) == [ListingKey(db.terminals[q.terminal])]
    ensures NewPaymentLocks(db, q, true)
            == PaymentLocks(db.terminals[q.terminal], if q.payer in db.identities then Some(db.identities[q.payer]) else None)
  {
  }

  /** POST of the payment route.  A repeated event is answered from its record; one that differs from it is refused. */
  method TerminalPays(db: Database, now: int, id: Id, q: TerminalPayment) returns (status: Option<PaymentStatus>)
    requires Inv(db.tables) && Fresh(db.tables, id)
    modifies db
    ensures db.tables == After(PayTerminal(old(db.tables), now, id, q), old(db.tables))
    ensures status == Result(PayTerminal(old(db.tables), now, id, q))
    ensures Ascending(db.held)
  {
    ghost var before := db.tables;
    var saved := db.Begin();
    if q.terminal !in db.tables.terminals || q.amount <= 0 {
      NotForTerminal(before, now, id, q);
      return None;
    }
    if (q.terminal, q.event) in db.tables.receipts {
      PayRepeat(before, now, id, q);
      var prior := db.tables.receipts[(q.terminal, q.event)];
      if prior.body != q.body || prior.payer != q.payer || prior.amount != q.amount {
        return None;
      }
      return Some(prior.status);
    }
    hide Inv, Fresh, PayTerminal;
    status := PayNew(db, now, id, q);
    if status.None? {
      db.Rollback(saved);
    }
  }

  lemma NotForTerminal(db: Db, now: int, id: Id, q: TerminalPayment)
    requires q.terminal !in db.terminals || q.amount <= 0
    ensures PayTerminal(db, now, id, q).Rollback?
  {
    hide Clean, Lengthen, StartLease, ReviewPayment;
  }

  lemma PayRepeat(db: Db, now: int, id: Id, q: TerminalPayment)
    requires q.terminal in db.terminals && q.amount > 0 && (q.terminal, q.event) in db.receipts
    ensures var prior := db.receipts[(q.terminal, q.event)];
            PayTerminal(db, now, id, q)
            == if prior.body != q.body || prior.payer != q.payer || prior.amount != q.amount then Rollback else Commit(db, prior.status)
  {
    hide Clean, Lengthen, StartLease, ReviewPayment;
  }

  /** GET of the poll route: its updates. */
  method TerminalPolls(db: Database, now: int, listing: Id)
    modifies db
    ensures db.tables == Poll(old(db.tables), now, listing)
    ensures db.held == [ListingKey(listing)]
  {
    hide EndLapsed, LapseReservations;
    var saved := db.Begin();
    db.Lock(ListingKey(listing));
    db.tables := db.tables.(rentals := EndLapsed(db.tables.rentals, now, Some(listing)));
    db.tables := db.tables.(reservations := LapseReservations(db.tables.reservations, now, listing));
  }
}
