/** checkout.ts: holds, renewals and settlement, statement by statement. */
module Checkout {
  import opened Tables
  import opened Allocation
  import opened Invariants
  import opened Transactions
  import opened Locks
  import opened Store

  /** The locks of a statement sequence about one listing and one user. */
  function ListingThenUser(listing: Id, user: Id): (keys: seq<LockKey>)
    ensures Ascending(keys)
  {
    [ListingKey(listing), UserKey(user)]
  }

  // ---------- cleanup ----------

  function CancelRows(rentals: map<Id, Rental>, rows: set<Id>): map<Id, Rental> {
    map r | r in rentals :: if r in rows then rentals[r].(status := Cancelled) else rentals[r]
  }

  function BillsOf(invoices: map<Id, Invoice>, rows: set<Id>): set<Id> {
    set i | i in invoices && invoices[i].rental.Some? && invoices[i].rental.value in rows
  }

  function ExpireRows(attempts: map<Id, Attempt>, bills: set<Id>): map<Id, Attempt> {
    map a | a in attempts ::
      if attempts[a].invoice in bills && LiveAttempt(attempts[a]) then attempts[a].(status := Expired) else attempts[a]
  }

  function VoidRows(invoices: map<Id, Invoice>, bills: set<Id>): map<Id, Invoice> {
    map i | i in invoices :: if i in bills && invoices[i].status == Open then invoices[i].(status := Void) else invoices[i]
  }

  function OverdueRows(rentals: map<Id, Rental>, now: int, scope: Option<Id>): set<Id> {
    set r | r in rentals && Overdue(rentals, now, scope, r)
  }

  lemma CancelsOverdue(rentals: map<Id, Rental>, now: int, scope: Option<Id>)
    ensures CancelRows(rentals, OverdueRows(rentals, now, scope)) == CancelOverdue(rentals, now, scope)
  {
  }

  /** Ending lapsed leases first makes no hold overdue and none less so. */
  lemma EndingSparesHolds(rentals: map<Id, Rental>, now: int, scope: Option<Id>)
    ensures OverdueRows(EndLapsed(rentals, now, scope), now, scope) == OverdueRows(rentals, now, scope)
  {
  }

  lemma OverdueBills(invoices: map<Id, Invoice>, rentals: map<Id, Rental>, now: int, scope: Option<Id>)
    ensures forall i :: i in BillsOf(invoices, OverdueRows(rentals, now, scope)) <==> BillsOverdue(invoices, rentals, now, scope, i)
  {
  }

  lemma VoidsOverdue(invoices: map<Id, Invoice>, rentals: map<Id, Rental>, now: int, scope: Option<Id>, bills: set<Id>)
    requires forall i :: i in bills <==> BillsOverdue(invoices, rentals, now, scope, i)
    ensures VoidRows(invoices, bills) == VoidOverdueInvoices(invoices, rentals, now, scope)
  {
    hide BillsOverdue;
  }

  lemma ExpiresOverdue(attempts: map<Id, Attempt>, invoices: map<Id, Invoice>, rentals: map<Id, Rental>, now: int,
                       scope: Option<Id>, bills: set<Id>)
    requires forall i :: i in bills <==> BillsOverdue(invoices, rentals, now, scope, i)
    ensures ExpireRows(attempts, bills) == ExpireOverdueAttempts(attempts, invoices, rentals, now, scope)
  {
    hide BillsOverdue;
  }

  lemma SweepStatements(db: Db, now: int, scope: Option<Id>)
    ensures var ended := EndLapsed(db.rentals, now, scope);
            var expired := OverdueRows(ended, now, scope);
            && CancelRows(ended, expired) == CancelOverdue(ended, now, scope)
            && ExpireRows(db.attempts, BillsOf(db.invoices, expired)) == ExpireOverdueAttempts(db.attempts, db.invoices, db.rentals, now, scope)
            && VoidRows(db.invoices, BillsOf(db.invoices, expired)) == VoidOverdueInvoices(db.invoices, db.rentals, now, scope)
  {
    hide *;
    var bills := BillsOf(db.invoices, OverdueRows(db.rentals, now, scope));
    EndingSparesHolds(db.rentals, now, scope);
    CancelsOverdue(EndLapsed(db.rentals, now, scope), now, scope);
    OverdueBills(db.invoices, db.rentals, now, scope);
    VoidsOverdue(db.invoices, db.rentals, now, scope, bills);
    ExpiresOverdue(db.attempts, db.invoices, db.rentals, now, scope, bills);
  }

  /** cleanupExpiredPendingHolds. */
  method CleanupExpiredPendingHolds(db: Database, now: int, scope: Option<Id>)
    modifies db`tables
    ensures db.tables == Sweep(old(db.tables), now, scope)
  {
    hide EndLapsed, CancelOverdue, ExpireOverdueAttempts, VoidOverdueInvoices, CancelRows, ExpireRows, VoidRows, BillsOf, OverdueRows;
    SweepStatements(db.tables, now, scope);
    db.tables := db.tables.(rentals := EndLapsed(db.tables.rentals, now, scope));
    // One WITH statement: its parts see the rows as they are here, and the ids that the first part returns.
    var expired := OverdueRows(db.tables.rentals, now, scope);
    var bills := BillsOf(db.tables.invoices, expired);
    db.tables := db.tables.(rentals := CancelRows(db.tables.rentals, expired),
                            attempts := ExpireRows(db.tables.attempts, bills),
                            invoices := VoidRows(db.tables.invoices, bills));
  }

  /** The cleanup that an allocation begins with. */
  method CleanListing(db: Database, now: int, listing: Id)
    modifies db`tables
    ensures db.tables == Clean(old(db.tables), now, listing)
  {
    CleanupExpiredPendingHolds(db, now, Some(listing));
    hide Sweep, LapseReservations;
    db.tables := db.tables.(reservations := LapseReservations(db.tables.reservations, now, listing));
  }

  // ---------- holds ----------

  /** Cleanup changes what the availability queries see in no way, and leaves an available listing without live rows. */
  lemma CleanAvailability(db: Db, now: int, listing: Id, user: Id)
    ensures var clean := Clean(db, now, listing);
            && (Occupied(clean.rentals, now, listing) <==> Occupied(db.rentals, now, listing))
            && (IsReserved(clean.reservations, now, listing) <==> IsReserved(db.reservations, now, listing))
            && (ReservedAgainst(clean.reservations, now, listing, user) <==> ReservedAgainst(db.reservations, now, listing, user))
            && (Vacant(clean.rentals, listing) <==> !Occupied(db.rentals, now, listing))
  {
    CleanVacates(db, now, listing);
    var clean := Clean(db, now, listing);
    CleanSeen(db, now, listing);
    hide Clean;
    if Occupied(db.rentals, now, listing) {
      var r :| r in db.rentals && IsLive(db.rentals[r]) && db.rentals[r].listing == listing && db.rentals[r].endsAt > now;
      assert clean.rentals[r] == db.rentals[r];
    }
    if IsReserved(db.reservations, now, listing) {
      var v :| v in db.reservations && Holds(db.reservations[v], now, listing);
      assert clean.reservations[v] == db.reservations[v];
    }
    if ReservedAgainst(db.reservations, now, listing, user) {
      var v :| v in db.reservations && Holds(db.reservations[v], now, listing) && db.reservations[v].target != user;
      assert clean.reservations[v] == db.reservations[v];
    }
  }

  /** Rows that still run are the same before and after cleanup. */
  lemma CleanSeen(db: Db, now: int, listing: Id)
    ensures var clean := Clean(db, now, listing);
            && clean.rentals.Keys == db.rentals.Keys && clean.reservations.Keys == db.reservations.Keys
            && (forall r | r in db.rentals && IsLive(db.rentals[r]) && db.rentals[r].endsAt > now :: clean.rentals[r] == db.rentals[r])
            && (forall r | r in db.rentals && IsLive(clean.rentals[r]) :: clean.rentals[r] == db.rentals[r])
            && (forall v | v in db.reservations && db.reservations[v].status == Reserved && db.reservations[v].expiresAt > now ::
                  clean.reservations[v] == db.reservations[v])
            && (forall v | v in db.reservations && clean.reservations[v].status == Reserved :: clean.reservations[v] == db.reservations[v])
  {
  }

  /** A hold and its invoice. */
  function HeldFor(db: Db, now: int, id: Id, listing: Id, user: Id, price: Price): Db {
    db.(rentals := db.rentals[id := Rental(listing, user, Pending, now, now + HOLD_SECONDS)],
        invoices := db.invoices[id := Invoice(Some(id), listing, user, Open, Minor(price.weeklyMinor + price.setupMinor, price.currency),
                                              now + HOLD_SECONDS)])
  }

  lemma OpenHoldAs(db: Db, now: int, id: Id, listing: Id, user: Id)
    ensures OpenHold(db, now, id, listing, user)
            == if !Eligible(db.users, user) || !Offered(db.listings, listing) || Occupied(db.rentals, now, listing)
                  || ReservedAgainst(db.reservations, now, listing, user) then Rollback
               else Commit(HeldFor(Clean(db, now, listing), now, id, listing, user, db.listings[listing].price.value), ())
  {
    hide Clean, Occupied, ReservedAgainst;
  }

  /** After cleanup and the availability query, one_live_rental and the owner trigger refuse nothing. */
  lemma HoldAdmissible(db: Db, now: int, id: Id, listing: Id, user: Id)
    requires Fresh(db, id) && Eligible(db.users, user) && !Occupied(db.rentals, now, listing)
    ensures RentalAdmissible(db.users, Clean(db, now, listing).rentals, now, id, Rental(listing, user, Pending, now, now + HOLD_SECONDS))
  {
    CleanVacates(db, now, listing);
    hide Clean, Occupied;
  }

  /** The two locks of a hold, in order; the listing may be locked already. */
  method LockListingAndUser(db: Database, listing: Id, user: Id)
    requires db.held <= [ListingKey(listing)]
    modifies db`held
    ensures db.held == ListingThenUser(listing, user)
    ensures ListingKey(listing) in db.held && UserKey(user) in db.held
  {
    db.Lock(ListingKey(listing));
    db.Lock(UserKey(user));
  }

  /** createCheckoutHold.  After cleanup and the availability query, one_live_rental refuses nothing. */
  method CreateCheckoutHold(db: Database, now: int, id: Id, listing: Id, user: Id) returns (ok: bool)
    requires Fresh(db.tables, id) && db.held <= [ListingKey(listing)]
    modifies db
    ensures ok <==> OpenHold(old(db.tables), now, id, listing, user).Commit?
    ensures ok ==> db.tables == OpenHold(old(db.tables), now, id, listing, user).db
    ensures db.held == ListingThenUser(listing, user)
  {
    ghost var before := db.tables;
    LockListingAndUser(db, listing, user);
    OpenHoldAs(before, now, id, listing, user);
    hide OpenHold, HeldFor, Clean, Occupied, ReservedAgainst, IsReserved, RentalAdmissible, Fresh, Eligible;
    if !Eligible(db.tables.users, user) {
      return false;
    }
    CleanListing(db, now, listing);
    CleanAvailability(before, now, listing, user);
    CleanKeys(before, now, listing);
    if !Offered(db.tables.listings, listing) || Occupied(db.tables.rentals, now, listing)
       || ReservedAgainst(db.tables.reservations, now, listing, user) {
      return false;
    }
    HoldAdmissible(before, now, id, listing, user);
    ok := OpenRows(db, now, id, listing, user, db.tables.listings[listing].price.value);
  }

  /** The two inserts of a hold. */
  method OpenRows(db: Database, now: int, id: Id, listing: Id, user: Id, price: Price) returns (ok: bool)
    modifies db`tables
    ensures ok <==> RentalAdmissible(old(db.tables).users, old(db.tables).rentals, now, id, Rental(listing, user, Pending, now, now + HOLD_SECONDS))
    ensures ok ==> db.tables == HeldFor(old(db.tables), now, id, listing, user, price)
  {
    hide RentalAdmissible;
    ok := db.WriteRental(now, id, Rental(listing, user, Pending, now, now + HOLD_SECONDS));
    if ok {
      db.tables := db.tables.(invoices := db.tables.invoices[id :=
        Invoice(Some(id), listing, user, Open, Minor(price.weeklyMinor + price.setupMinor, price.currency), now + HOLD_SECONDS)]);
    }
  }

  /** Somebody is already asked to pay for the rental. */
  predicate Asked(db: Db, rental: Id) {
    exists a :: a in db.attempts && AsksFor(db.invoices, db.attempts, a, rental)
  }

  /** A leased listing has no reservation, so the reservation guards of renewals and extensions never fire. */
  lemma LeasedUnreserved(db: Db, now: int, rental: Id)
    requires Inv(db) && rental in db.rentals && db.rentals[rental].status == Active
    ensures !IsReserved(db.reservations, now, db.rentals[rental].listing)
    ensures !IsReserved(LapseReservations(db.reservations, now, db.rentals[rental].listing), now, db.rentals[rental].listing)
  {
    assert Coupled(db.rentals, db.reservations) by {
      hide *;
      Parts(db);
    }
    hide Inv;
  }

  /** createRenewalCheckoutHold. */
  method CreateRenewalCheckoutHold(db: Database, now: int, id: Id, rental: Id, user: Id) returns (ok: bool)
    requires Inv(db.tables)
    requires db.held == [] || (rental in db.tables.rentals && db.held == [ListingKey(db.tables.rentals[rental].listing)])
    modifies db
    ensures ok <==> OpenRenewal(old(db.tables), now, id, rental, user).Commit? && !Asked(old(db.tables), rental)
    ensures ok ==> db.tables == OpenRenewal(old(db.tables), now, id, rental, user).db
    ensures ok ==> db.held == [ListingKey(old(db.tables).rentals[rental].listing)]
    ensures !ok ==> db.held == old(db.held) || (rental in old(db.tables).rentals && db.held == [ListingKey(old(db.tables).rentals[rental].listing)])
  {
    if !(rental in db.tables.rentals && db.tables.rentals[rental].user == user) {
      return false;
    }
    var listing := db.tables.rentals[rental].listing;
    db.Lock(ListingKey(listing));
    if db.tables.rentals[rental].status == Active {
      LeasedUnreserved(db.tables, now, rental);
    }
    hide Inv, IsReserved, LapseReservations, AsksFor;
    db.tables := db.tables.(reservations := LapseReservations(db.tables.reservations, now, listing));
    var r := db.tables.rentals[rental];
    if r.status != Active || r.endsAt <= now || !Offered(db.tables.listings, r.listing)
       || IsReserved(db.tables.reservations, now, r.listing) || Asked(db.tables, rental) {
      return false;
    }
    var price := db.tables.listings[r.listing].price.value;
    db.tables := db.tables.(invoices := db.tables.invoices[id :=
      Invoice(Some(rental), r.listing, user, Open, Minor(price.weeklyMinor, price.currency), now + HOLD_SECONDS)]);
    return true;
  }

  // ---------- settlement ----------

  /** The row that the settlement query selects, once its user is known to be eligible. */
  predicate Selected(db: Db, now: int, invoice: Id) {
    && invoice in db.invoices
    && var i := db.invoices[invoice];
    && i.status == Open && i.dueAt > now && i.rental.Some? && i.rental.value in db.rentals
    && var r := db.rentals[i.rental.value];
    && IsLive(r) && r.endsAt > now && r.listing == i.listing && r.user == i.user
  }

  lemma SelectedPayable(db: Db, now: int, invoice: Id)
    requires InvoicesBound(db.rentals, db.invoices)
    ensures Payable(db, now, invoice) <==> Selected(db, now, invoice) && Eligible(db.users, db.invoices[invoice].user)
  {
  }

  /** The guard of a settlement against the running reservation. */
  predicate Conflicts(reservations: map<Id, Reservation>, found: Option<Id>, status: RentalStatus, user: Id)
    requires found.Some? ==> found.value in reservations
  {
    found.Some? && (status != Pending || reservations[found.value].target != user)
  }

  /** No reservation stands in the way of a settlement. */
  lemma SettlementUnreserved(db: Db, now: int, invoice: Id, found: Option<Id>)
    requires Coupled(db.rentals, db.reservations) && Selected(db, now, invoice)
    requires found.Some? ==> found.value in db.reservations && Holds(db.reservations[found.value], now, db.invoices[invoice].listing)
    ensures !Conflicts(db.reservations, found, db.rentals[db.invoices[invoice].rental.value].status, db.invoices[invoice].user)
  {
  }

  /** Neither the owner trigger nor one_live_rental refuses the paid week. */
  lemma PaidWeekAdmissible(db: Db, now: int, invoice: Id)
    requires OneLiveRental(db.rentals) && Payable(db, now, invoice) && InvoicesBound(db.rentals, db.invoices)
    requires OwnersKnown(db.users.Keys, db.rentals, db.invoices)
    ensures var rental := db.invoices[invoice].rental.value;
            RentalAdmissible(db.users, db.rentals, now, rental, PaidWeek(db.rentals[rental], now))
  {
  }

  /** With at most one ACTIVE reservation per listing, lapsing the late and completing the running one is all there is to do. */
  lemma RedeemInSteps(reservations: map<Id, Reservation>, now: int, listing: Id, found: Option<Id>)
    requires OneLiveReservation(reservations)
    requires found.Some? ==> found.value in reservations && Holds(reservations[found.value], now, listing)
    requires found.None? ==> !IsReserved(reservations, now, listing)
    ensures RedeemReservations(reservations, now, listing) == Redeem(LapseReservations(reservations, now, listing), found)
  {
    var steps := Redeem(LapseReservations(reservations, now, listing), found);
    forall v | v in reservations ensures RedeemReservations(reservations, now, listing)[v] == steps[v] {
      if reservations[v].listing == listing && reservations[v].status == Reserved && reservations[v].expiresAt > now {
        assert Holds(reservations[v], now, listing);
        assert found.Some? && found.value == v;
      }
    }
  }

  /** UPDATE reservations SET status='COMPLETED' WHERE id. */
  function Redeem(reservations: map<Id, Reservation>, found: Option<Id>): map<Id, Reservation> {
    if found.Some? && found.value in reservations
    then reservations[found.value := reservations[found.value].(status := Redeemed)] else reservations
  }

  /** The running reservation of a listing, if there is one. */
  method RunningReservation(db: Database, now: int, listing: Id) returns (found: Option<Id>)
    ensures found.Some? ==> found.value in db.tables.reservations && Holds(db.tables.reservations[found.value], now, listing)
    ensures found.None? <==> !IsReserved(db.tables.reservations, now, listing)
  {
    if v :| v in db.tables.reservations && Holds(db.tables.reservations[v], now, listing) {
      return Some(v);
    }
    return None;
  }

  /** Lapsing touches no running reservation. */
  lemma LapseSpares(reservations: map<Id, Reservation>, now: int, listing: Id)
    ensures var lapsed := LapseReservations(reservations, now, listing);
            && lapsed.Keys == reservations.Keys
            && (forall v | v in reservations && reservations[v].status == Reserved && reservations[v].expiresAt > now :: lapsed[v] == reservations[v])
            && (forall v | v in reservations && Holds(lapsed[v], now, listing) :: Holds(reservations[v], now, listing))
  {
  }

  /** The same reservations hold a listing before and after lapsing. */
  lemma LapseSeen(reservations: map<Id, Reservation>, now: int, listing: Id, found: Option<Id>)
    ensures var lapsed := LapseReservations(reservations, now, listing);
            && (IsReserved(lapsed, now, listing) <==> IsReserved(reservations, now, listing))
            && (found.Some? && found.value in lapsed && Holds(lapsed[found.value], now, listing) ==>
                  found.value in reservations && Holds(reservations[found.value], now, listing) && lapsed[found.value] == reservations[found.value])
  {
    var lapsed := LapseReservations(reservations, now, listing);
    LapseSpares(reservations, now, listing);
    hide LapseReservations;
    if IsReserved(reservations, now, listing) {
      var v :| v in reservations && Holds(reservations[v], now, listing);
      assert Holds(lapsed[v], now, listing);
    }
  }

  /** What settlement rests on: the facts of the invariant about the invoice and its rental. */
  lemma SettlementFacts(db: Db, now: int, invoice: Id, found: Option<Id>)
    requires Inv(db) && invoice in db.invoices
    requires var lapsed := LapseReservations(db.reservations, now, db.invoices[invoice].listing);
             && (found.Some? ==> found.value in lapsed && Holds(lapsed[found.value], now, db.invoices[invoice].listing))
             && (found.None? ==> !IsReserved(lapsed, now, db.invoices[invoice].listing))
    ensures var i := db.invoices[invoice];
            var lapsed := LapseReservations(db.reservations, now, i.listing);
            && (Payable(db, now, invoice) <==> Selected(db, now, invoice) && Eligible(db.users, i.user))
            && RedeemReservations(db.reservations, now, i.listing) == Redeem(lapsed, found)
            && (Selected(db, now, invoice) ==> i.rental.Some? && i.rental.value in db.rentals
                                               && WeekRow(db.rentals[i.rental.value], now) == PaidWeek(db.rentals[i.rental.value], now)
                                               && !Conflicts(lapsed, found, db.rentals[i.rental.value].status, i.user))
            && (Payable(db, now, invoice) ==>
                  RentalAdmissible(db.users, db.rentals, now, i.rental.value, PaidWeek(db.rentals[i.rental.value], now)))
  {
    hide Inv, IsReserved, LapseReservations, RedeemReservations, Eligible, RentalAdmissible, InvoicesBound, OneLiveRental;
    hide OneLiveReservation, Coupled;
    hide OwnersKnown, Redeem;
    Parts(db);
    var i := db.invoices[invoice];
    SelectedPayable(db, now, invoice);
    LapseSeen(db.reservations, now, i.listing, found);
    RedeemInSteps(db.reservations, now, i.listing, found);
    if Selected(db, now, invoice) {
      SettlementUnreserved(db, now, invoice, found);
    }
    if Payable(db, now, invoice) {
      PaidWeekAdmissible(db, now, invoice);
    }
  }

  /** The CASE expressions of the rental update. */
  function WeekRow(r: Rental, now: int): Rental {
    r.(status := Active, startsAt := if r.status == Pending then now else r.startsAt,
       endsAt := (if r.status == Pending then now else Max(r.endsAt, now)) + WEEK)
  }

  /** The statements of settleCheckoutInvoice that write, once the invoice has been found payable. */
  method RecordPaidWeek(db: Database, now: int, id: Id, invoice: Id, found: Option<Id>, payment: Payment) returns (ok: bool)
    requires invoice in db.tables.invoices && db.tables.invoices[invoice].rental.Some?
    requires db.tables.invoices[invoice].rental.value in db.tables.rentals
    modifies db`tables
    ensures var i := old(db.tables).invoices[invoice];
            var row := WeekRow(old(db.tables).rentals[i.rental.value], now);
            && (ok <==> RentalAdmissible(old(db.tables).users, old(db.tables).rentals, now, i.rental.value, row)
                        && PaymentAdmissible(old(db.tables).invoices, old(db.tables).payments, payment))
            && (ok ==> db.tables == old(db.tables).(
                  users := Promote(old(db.tables).users, i.user),
                  rentals := old(db.tables).rentals[i.rental.value := row],
                  reservations := Redeem(old(db.tables).reservations, found),
                  invoices := old(db.tables).invoices[invoice := i.(status := Paid)],
                  payments := old(db.tables).payments[id := payment],
                  ledger := Posted(Entry(i.rental.value, ByPayment(id), 1, 0, 0), old(db.tables).ledger)))
  {
    hide *;
    var i := db.tables.invoices[invoice];
    ok := db.WriteRental(now, i.rental.value, WeekRow(db.tables.rentals[i.rental.value], now));
    if !ok {
      return;
    }
    db.tables := db.tables.(reservations := Redeem(db.tables.reservations, found));
    db.tables := db.tables.(users := Promote(db.tables.users, i.user));
    ok := db.InsertPayment(id, payment);
    if !ok {
      return;
    }
    db.tables := db.tables.(invoices := db.tables.invoices[invoice := i.(status := Paid)],
                            ledger := Posted(Entry(i.rental.value, ByPayment(id), 1, 0, 0), db.tables.ledger));
  }

  /** The settlement specification, over the same facts as the code. */
  lemma SettleAs(db: Db, now: int, id: Id, invoice: Id, reference: Reference, amount: Amount)
    requires invoice in db.invoices
    ensures var i := db.invoices[invoice];
            var settled := Settle(db, now, id, invoice, reference, amount);
            var payment := Payment(invoice, reference, amount, Confirmed);
            && (settled.Commit? <==> Payable(db, now, invoice) && i.amount == amount && amount.Minor?
                                     && PaymentAdmissible(db.invoices, db.payments, payment))
            && (settled.Commit? ==> settled.db == db.(
                  users := Promote(db.users, i.user),
                  rentals := db.rentals[i.rental.value := PaidWeek(db.rentals[i.rental.value], now)],
                  reservations := RedeemReservations(db.reservations, now, i.listing),
                  invoices := db.invoices[invoice := i.(status := Paid)],
                  payments := db.payments[id := payment],
                  ledger := Posted(Entry(i.rental.value, ByPayment(id), 1, 0, 0), db.ledger)))
  {
    hide Promote, RedeemReservations, PaidWeek;
  }

  /** settleCheckoutInvoice.  No reservation, index or trigger ever stops it beyond what `Settle` says. */
  method SettleCheckoutInvoice(db: Database, now: int, id: Id, invoice: Id, reference: Reference, amount: Amount)
    returns (ok: bool)
    requires Inv(db.tables)
    requires db.held == [] || (invoice in db.tables.invoices && ListingKey(db.tables.invoices[invoice].listing) in db.held
                               && UserKey(db.tables.invoices[invoice].user) in db.held)
    modifies db
    ensures ok <==> Settle(old(db.tables), now, id, invoice, reference, amount).Commit?
    ensures ok ==> db.tables == Settle(old(db.tables), now, id, invoice, reference, amount).db
    ensures db.held == if old(db.held) == [] && invoice in old(db.tables).invoices
                       then ListingThenUser(old(db.tables).invoices[invoice].listing, old(db.tables).invoices[invoice].user) else old(db.held)
  {
    ghost var before := db.tables;
    if invoice !in db.tables.invoices {
      return false;
    }
    SettleAs(before, now, id, invoice, reference, amount);
    var i := db.tables.invoices[invoice];
    db.Lock(ListingKey(i.listing));
    db.Lock(UserKey(i.user));
    hide Inv, Settle, Payable, IsReserved, LapseReservations, RedeemReservations, Eligible, RentalAdmissible, PaymentAdmissible;
    hide PaidWeek, WeekRow, Conflicts, Redeem, Promote, ListingThenUser;
    if !Eligible(db.tables.users, i.user) {
      return false;
    }
    db.tables := db.tables.(reservations := LapseReservations(db.tables.reservations, now, i.listing));
    var found := RunningReservation(db, now, i.listing);
    SettlementFacts(before, now, invoice, found);
    if !Selected(db.tables, now, invoice) || i.amount != amount || !amount.Minor? {
      return false;
    }
    if Conflicts(db.tables.reservations, found, db.tables.rentals[i.rental.value].status, i.user) {
      return false;
    }
    ok := RecordPaidWeek(db, now, id, invoice, found, Payment(invoice, reference, amount, Confirmed));
  }
}
