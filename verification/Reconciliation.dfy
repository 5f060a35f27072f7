/** The reconciliation route and reconciliation.ts: what staff decide about payments under review, statement by statement. */
module Reconciliation {
  import opened Tables
  import opened Allocation
  import opened Invariants
  import opened Transactions
  import opened Locks
  import opened Store
  import opened Checkout

  /** lockPaymentForReconciliation, with the preflight query and the advisory locks in front of it. */
  method LockPayment(db: Database, payment: Id) returns (ok: bool)
    requires db.held == []
    modifies db`held
    ensures ok <==> Reviewable(db.tables, payment)
    ensures db.held == if payment in db.tables.payments && db.tables.payments[payment].invoice in db.tables.invoices
                       then var i := db.tables.invoices[db.tables.payments[payment].invoice]; ListingThenUser(i.listing, i.user)
                       else []
  {
    if !(payment in db.tables.payments && db.tables.payments[payment].invoice in db.tables.invoices) {
      return false;
    }
    var i := db.tables.invoices[db.tables.payments[payment].invoice];
    db.Lock(ListingKey(i.listing));
    db.Lock(UserKey(i.user));
    if exists a :: a in db.tables.actions && db.tables.actions[a].payment == payment && db.tables.actions[a].state != Resolved {
      return false;
    }
    return db.tables.payments[payment].status == InReview;
  }

  /** The invoice of a terminal payment under review: open, and bound to no rental. */
  lemma ReviewedInvoice(db: Db, payment: Id)
    requires Inv(db) && Reviewable(db, payment) && db.payments[payment].reference.ByTerminal?
    ensures var i := db.invoices[db.payments[payment].invoice]; i.status == Open && i.rental.None? && i.user in db.users
  {
    assert ReviewsOpen(db.invoices, db.payments) && OwnersKnown(db.users.Keys, db.rentals, db.invoices) by {
      hide *;
      Parts(db);
    }
    hide Inv;
  }

  // ---------- approval as a start ----------

  /** A running lease keeps the listing from being started. */
  predicate RunningLease(rentals: map<Id, Rental>, now: int, listing: Id) {
    exists r :: r in rentals && LeaseOn(rentals, now, listing, r)
  }

  /** The facts that the guards of an approval rest on, on the cleaned tables. */
  lemma StartGuards(db: Db, now: int, id: Id, payment: Id)
    requires Inv(db) && id !in db.rentals && Reviewable(db, payment) && db.payments[payment].reference.ByTerminal?
    ensures var invoice := db.payments[payment].invoice;
            var i := db.invoices[invoice];
            var clean := Clean(db, now, i.listing);
            && Inv(clean) && i.status == Open && invoice in clean.invoices && clean.invoices[invoice] == i
            && clean.users == db.users && clean.payments == db.payments && id !in clean.rentals
            && (Vacant(clean.rentals, i.listing) ==> !RunningLease(clean.rentals, now, i.listing))
            && (ReservedAgainst(clean.reservations, now, i.listing, i.user) <==> ReservedAgainst(db.reservations, now, i.listing, i.user))
            && LapseReservations(clean.reservations, now, i.listing) == clean.reservations
  {
    var i := db.invoices[db.payments[payment].invoice];
    ReviewedInvoice(db, payment);
    CleanKeeps(db, now, i.listing);
    CleanKeys(db, now, i.listing);
    CleanSpares(db, now, i.listing, db.payments[payment].invoice);
    CleanAvailability(db, now, i.listing, i.user);
    CleanedOnce(db, now, i.listing);
    hide Inv, Clean, Keeps, ReservedAgainst, LapseReservations;
  }

  lemma CleanedOnce(db: Db, now: int, listing: Id)
    ensures LapseReservations(Clean(db, now, listing).reservations, now, listing) == Clean(db, now, listing).reservations
  {
    hide Sweep;
  }

  /** What a start writes on the cleaned tables. */
  function StartedBy(db: Db, now: int, id: Id, payment: Id, reservations: map<Id, Reservation>): Db
    requires payment in db.payments && db.payments[payment].invoice in db.invoices
  {
    var invoice := db.payments[payment].invoice;
    var i := db.invoices[invoice];
    db.(users := Promote(db.users, i.user),
        rentals := db.rentals[id := Rental(i.listing, i.user, Active, now, now + WEEK)],
        reservations := reservations,
        invoices := db.invoices[invoice := i.(rental := Some(id), status := Paid)],
        payments := db.payments[payment := db.payments[payment].(status := Confirmed)],
        receipts := SettleReceipts(db.receipts, payment, Confirmed),
        ledger := Posted(Entry(id, ByPayment(payment), 1, 0, 0), db.ledger))
  }

  lemma ApproveStartAs(db: Db, now: int, id: Id, payment: Id)
    requires Inv(db) && id !in db.rentals
    ensures var approved := ApproveStart(db, now, id, payment);
            if !Reviewable(db, payment) || !db.payments[payment].reference.ByTerminal? then approved.Rollback?
            else
              var i := db.invoices[db.payments[payment].invoice];
              var clean := Clean(db, now, i.listing);
              if !Eligible(db.users, i.user) || !Vacant(clean.rentals, i.listing) || ReservedAgainst(clean.reservations, now, i.listing, i.user)
              then approved.Rollback?
              else
                && payment in clean.payments && clean.payments[payment].invoice in clean.invoices
                && approved == Commit(StartedBy(clean, now, id, payment, RedeemReservations(clean.reservations, now, i.listing)), ())
  {
    if Reviewable(db, payment) && db.payments[payment].reference.ByTerminal? {
      StartGuards(db, now, id, payment);
    }
    hide Inv, Clean, Eligible, Vacant, ReservedAgainst, Reviewable, RedeemReservations, SettleReceipts, Promote, RunningLease;
    hide LapseReservations;
  }

  /** The last two updates of an approval: the payment, if it is still under review, and its terminal event. */
  method ConfirmPayment(db: Database, payment: Id) returns (ok: bool)
    requires payment in db.tables.payments
    modifies db`tables
    ensures ok <==> old(db.tables).payments[payment].status == InReview
    ensures ok ==> db.tables == old(db.tables).(payments := old(db.tables).payments[payment := old(db.tables).payments[payment].(status := Confirmed)],
                                                receipts := SettleReceipts(old(db.tables).receipts, payment, Confirmed))
  {
    hide SettleReceipts;
    if db.tables.payments[payment].status != InReview {
      return false;
    }
    db.tables := db.tables.(payments := db.tables.payments[payment := db.tables.payments[payment].(status := Confirmed)]);
    db.tables := db.tables.(receipts := SettleReceipts(db.tables.receipts, payment, Confirmed));
    return true;
  }

  /** The statements of a start that write. */
  method WriteStart(db: Database, now: int, id: Id, payment: Id, found: Option<Id>) returns (ok: bool)
    requires payment in db.tables.payments && db.tables.payments[payment].invoice in db.tables.invoices
    modifies db`tables
    ensures var was := old(db.tables);
            var i := was.invoices[was.payments[payment].invoice];
            && (ok <==> RentalAdmissible(was.users, was.rentals, now, id, Rental(i.listing, i.user, Active, now, now + WEEK))
                        && i.status == Open && was.payments[payment].status == InReview)
            && (ok ==> db.tables == StartedBy(was, now, id, payment, Redeem(was.reservations, found)))
  {
    hide Redeem, Promote, SettleReceipts, ListingFree, OwnerAdmissible;
    var invoice := db.tables.payments[payment].invoice;
    var i := db.tables.invoices[invoice];
    var fine, inserted := db.InsertRentalIfFree(now, id, Rental(i.listing, i.user, Active, now, now + WEEK));
    if !fine || !inserted {
      return false;
    }
    db.tables := db.tables.(users := Promote(db.tables.users, i.user));
    db.tables := db.tables.(reservations := Redeem(db.tables.reservations, found));
    if db.tables.invoices[invoice].status != Open {
      return false;
    }
    db.tables := db.tables.(invoices := db.tables.invoices[invoice := i.(rental := Some(id), status := Paid)]);
    ok := ConfirmPayment(db, payment);
    db.tables := db.tables.(ledger := Posted(Entry(id, ByPayment(payment), 1, 0, 0), db.tables.ledger));
  }

  /** The queries and guards of a start, on the cleaned tables. */
  method StartOnClean(db: Database, now: int, id: Id, payment: Id) returns (ok: bool)
    requires Inv(db.tables) && id !in db.tables.rentals && payment in db.tables.payments
    requires db.tables.payments[payment].invoice in db.tables.invoices
    requires db.tables.payments[payment].status == InReview
    requires db.tables.invoices[db.tables.payments[payment].invoice].status == Open
    requires var i := db.tables.invoices[db.tables.payments[payment].invoice];
             Eligible(db.tables.users, i.user) && LapseReservations(db.tables.reservations, now, i.listing) == db.tables.reservations
    modifies db`tables
    ensures var i := old(db.tables).invoices[old(db.tables).payments[payment].invoice];
            && (ok <==> Vacant(old(db.tables).rentals, i.listing) && !ReservedAgainst(old(db.tables).reservations, now, i.listing, i.user))
            && (ok ==> db.tables == StartedBy(old(db.tables), now, id, payment, RedeemReservations(old(db.tables).reservations, now, i.listing)))
  {
    var i := db.tables.invoices[db.tables.payments[payment].invoice];
    StartWritable(db.tables, now, id, i.listing, i.user);
    hide *;
    var found := RunningReservation(db, now, i.listing);
    RedeemInSteps(db.tables.reservations, now, i.listing, found);
    OneReservation(db.tables.reservations, now, i.listing, i.user, found);
    if RunningLease(db.tables.rentals, now, i.listing) {
      return false;
    }
    if found.Some? && db.tables.reservations[found.value].target != i.user {
      return false;
    }
    ok := WriteStart(db, now, id, payment, found);
  }

  lemma StartWritable(db: Db, now: int, id: Id, listing: Id, user: Id)
    requires Inv(db) && id !in db.rentals && Eligible(db.users, user)
    ensures OneLiveReservation(db.reservations)
    ensures var row := Rental(listing, user, Active, now, now + WEEK);
            && OwnerAdmissible(db.users, now, row)
            && (RentalAdmissible(db.users, db.rentals, now, id, row) <==> Vacant(db.rentals, listing))
            && (Vacant(db.rentals, listing) ==> !RunningLease(db.rentals, now, listing))
  {
    Parts(db);
    hide Inv, OneLiveReservation;
  }

  /** The running reservation is the only one, so it alone can be somebody else's. */
  lemma OneReservation(reservations: map<Id, Reservation>, now: int, listing: Id, user: Id, found: Option<Id>)
    requires OneLiveReservation(reservations)
    requires found.Some? ==> found.value in reservations && Holds(reservations[found.value], now, listing)
    requires found.None? ==> !IsReserved(reservations, now, listing)
    ensures ReservedAgainst(reservations, now, listing, user) <==> found.Some? && reservations[found.value].target != user
  {
  }

  /** APPROVE with rentalAction START. */
  method ApproveAsStart(db: Database, now: int, id: Id, payment: Id) returns (ok: bool)
    requires Inv(db.tables) && Fresh(db.tables, id)
    modifies db
    ensures db.tables == After(ApproveStart(old(db.tables), now, id, payment), old(db.tables))
    ensures ok == ApproveStart(old(db.tables), now, id, payment).Commit?
    ensures Ascending(db.held)
  {
    ghost var before := db.tables;
    ApproveStartAs(before, now, id, payment);
    hide Inv, ApproveStart, Clean, Vacant, ReservedAgainst, LapseReservations, RedeemReservations, StartedBy;
    var saved := db.Begin();
    ok := LockPayment(db, payment);
    if !ok || !db.tables.payments[payment].reference.ByTerminal? {
      return false;
    }
    var i := db.tables.invoices[db.tables.payments[payment].invoice];
    if !Eligible(db.tables.users, i.user) {
      return false;
    }
    StartGuards(before, now, id, payment);
    CleanListing(db, now, i.listing);
    ok := StartOnClean(db, now, id, payment);
    if !ok {
      db.Rollback(saved);
    }
  }

  // ---------- approval as an extension ----------

  /** ends_at+interval '1 week'. */
  function Longer(r: Rental): Rental {
    r.(endsAt := r.endsAt + WEEK)
  }

  /** What an extension writes. */
  function ExtendedBy(db: Db, now: int, payment: Id, r: Id, reservations: map<Id, Reservation>): Db
    requires payment in db.payments && db.payments[payment].invoice in db.invoices && r in db.rentals
  {
    var invoice := db.payments[payment].invoice;
    var i := db.invoices[invoice];
    db.(users := Promote(db.users, i.user),
        rentals := db.rentals[r := Longer(db.rentals[r])],
        reservations := reservations,
        invoices := db.invoices[invoice := i.(rental := Some(r), status := Paid)],
        payments := db.payments[payment := db.payments[payment].(status := Confirmed)],
        receipts := SettleReceipts(db.receipts, payment, Confirmed),
        ledger := Posted(Entry(r, ByPayment(payment), 1, 0, 0), db.ledger))
  }

  lemma ApproveExtensionAs(db: Db, now: int, payment: Id)
    ensures var approved := ApproveExtension(db, now, payment);
            if !Reviewable(db, payment) || !db.payments[payment].reference.ByTerminal? then approved.Rollback?
            else
              var i := db.invoices[db.payments[payment].invoice];
              if !Eligible(db.users, i.user) || !(exists r :: OwnLease(db.rentals, now, i.listing, i.user, r)) then approved.Rollback?
              else
                approved == Commit(ExtendedBy(db, now, payment, LeaseOf(db.rentals, now, i.listing, i.user),
                                              LapseReservations(db.reservations, now, i.listing)), ())
  {
    hide Eligible, Reviewable, LapseReservations, SettleReceipts, Promote, OwnLease;
  }

  /** The facts behind an extension: nobody has the listing reserved, and the longer row is accepted. */
  lemma ExtensionGuards(db: Db, now: int, listing: Id, r: Id)
    requires Inv(db) && LeaseOn(db.rentals, now, listing, r) && Eligible(db.users, db.rentals[r].user)
    ensures !IsReserved(LapseReservations(db.reservations, now, listing), now, listing)
    ensures RentalAdmissible(db.users, db.rentals, now, r, Longer(db.rentals[r]))
  {
    LeasedUnreserved(db, now, r);
    Parts(db);
    hide Inv, IsReserved, LapseReservations;
  }

  /** The row counts and constraints that the writes of an extension depend on. */
  predicate ExtensionWritable(db: Db, now: int, payment: Id, r: Id) {
    && payment in db.payments && db.payments[payment].invoice in db.invoices && r in db.rentals
    && RentalAdmissible(db.users, db.rentals, now, r, Longer(db.rentals[r]))
    && db.rentals[r].status == Active && db.invoices[db.payments[payment].invoice].status == Open && db.payments[payment].status == InReview
  }

  /** The statements of an extension that write. */
  method WriteExtension(db: Database, now: int, payment: Id, r: Id) returns (ok: bool)
    requires payment in db.tables.payments && db.tables.payments[payment].invoice in db.tables.invoices
    requires r in db.tables.rentals
    modifies db`tables
    ensures ok <==> ExtensionWritable(old(db.tables), now, payment, r)
    ensures ok ==> db.tables == ExtendedBy(old(db.tables), now, payment, r, old(db.tables).reservations)
  {
    hide Promote, SettleReceipts, RentalAdmissible, Longer;
    var invoice := db.tables.payments[payment].invoice;
    var i := db.tables.invoices[invoice];
    if db.tables.rentals[r].status != Active || i.status != Open {
      return false;
    }
    ok := db.WriteRental(now, r, Longer(db.tables.rentals[r]));
    if !ok {
      return;
    }
    db.tables := db.tables.(invoices := db.tables.invoices[invoice := i.(rental := Some(r), status := Paid)]);
    db.tables := db.tables.(users := Promote(db.tables.users, i.user));
    ok := ConfirmPayment(db, payment);
    db.tables := db.tables.(ledger := Posted(Entry(r, ByPayment(payment), 1, 0, 0), db.tables.ledger));
  }

  /** The running lease of a listing, if there is one. */
  method FindLease(db: Database, now: int, listing: Id) returns (found: Option<Id>)
    ensures found.Some? ==> LeaseOn(db.tables.rentals, now, listing, found.value) && found.value in db.tables.rentals
    ensures found.None? ==> forall r :: !LeaseOn(db.tables.rentals, now, listing, r)
  {
    if r :| r in db.tables.rentals && LeaseOn(db.tables.rentals, now, listing, r) {
      return Some(r);
    }
    return None;
  }

  ghost predicate Leases(db: Db, now: int, listing: Id, user: Id) {
    exists r :: OwnLease(db.rentals, now, listing, user, r)
  }

  /** The payer's own lease is the running one or none. */
  lemma PayersLease(db: Db, now: int, listing: Id, user: Id, found: Option<Id>)
    requires Inv(db) && Eligible(db.users, user)
    requires found.Some? ==> LeaseOn(db.rentals, now, listing, found.value) && found.value in db.rentals
    requires found.None? ==> forall r :: !LeaseOn(db.rentals, now, listing, r)
    ensures Leases(db, now, listing, user) <==> found.Some? && db.rentals[found.value].user == user
    ensures found.Some? && db.rentals[found.value].user == user ==>
              && LeaseOf(db.rentals, now, listing, user) == found.value && db.rentals[found.value].status == Active
              && !IsReserved(LapseReservations(db.reservations, now, listing), now, listing)
              && RentalAdmissible(db.users, db.rentals, now, found.value, Longer(db.rentals[found.value]))
  {
    if found.Some? {
      if db.rentals[found.value].user == user {
        ExtensionGuards(db, now, listing, found.value);
        assert OwnLease(db.rentals, now, listing, user, found.value);
      }
      OnlyLease(db, now, listing, found.value);
    }
    hide Inv, IsReserved, LapseReservations, RentalAdmissible, Eligible, Longer;
  }

  lemma OnlyLease(db: Db, now: int, listing: Id, r: Id)
    requires Inv(db) && LeaseOn(db.rentals, now, listing, r)
    ensures forall s :: LeaseOn(db.rentals, now, listing, s) ==> s == r
  {
    Parts(db);
    hide Inv;
  }

  /** An extension writes all reservations anew, so it does not matter what they were. */
  lemma ExtendedWhatever(db: Db, now: int, payment: Id, r: Id, reservations: map<Id, Reservation>)
    requires payment in db.payments && db.payments[payment].invoice in db.invoices && r in db.rentals
    ensures ExtendedBy(db.(reservations := reservations), now, payment, r, reservations) == ExtendedBy(db, now, payment, r, reservations)
    ensures ExtensionWritable(db.(reservations := reservations), now, payment, r) <==> ExtensionWritable(db, now, payment, r)
  {
    hide SettleReceipts, Promote, RentalAdmissible, Longer;
  }

  /** What ApproveExtension does once the payer is known to be eligible, by what the lease query found. */
  ghost predicate ExtendsBy(db: Db, now: int, payment: Id, i: Invoice, found: Option<Id>, approved: Outcome<()>) {
    var lapsed := db.(reservations := LapseReservations(db.reservations, now, i.listing));
    if found.Some? && found.value in db.rentals && db.rentals[found.value].user == i.user then
      && ExtensionWritable(lapsed, now, payment, found.value) && !IsReserved(lapsed.reservations, now, i.listing)
      && approved == Commit(ExtendedBy(lapsed, now, payment, found.value, lapsed.reservations), ())
    else approved.Rollback?
  }

  lemma ExtensionByLease(db: Db, now: int, payment: Id, i: Invoice, found: Option<Id>)
    requires Reviewable(db, payment) && db.payments[payment].reference.ByTerminal?
    requires i == db.invoices[db.payments[payment].invoice]
    requires Eligible(db.users, i.user)
    requires found.Some? ==> LeaseOn(db.rentals, now, i.listing, found.value) && found.value in db.rentals
    requires found.None? ==> forall r :: !LeaseOn(db.rentals, now, i.listing, r)
    requires Inv(db)
    ensures ExtendsBy(db, now, payment, i, found, ApproveExtension(db, now, payment))
  {
    ApproveExtensionAs(db, now, payment);
    PayersLease(db, now, i.listing, i.user, found);
    ReviewedInvoice(db, payment);
    assert Leases(db, now, i.listing, i.user) <==> exists r :: OwnLease(db.rentals, now, i.listing, i.user, r);
    if found.Some? && db.rentals[found.value].user == i.user {
      assert ExtensionWritable(db, now, payment, found.value);
      ExtendedWhatever(db, now, payment, found.value, LapseReservations(db.reservations, now, i.listing));
    }
    hide Inv, ApproveExtension, ExtendedBy, LapseReservations, IsReserved, RentalAdmissible, Eligible, OwnLease, LeaseOn;
    hide Leases, ExtensionWritable, Longer;
  }

  lemma LapsedExtension(db: Db, now: int, payment: Id, i: Invoice, found: Option<Id>)
    requires ExtendsBy(db, now, payment, i, found, ApproveExtension(db, now, payment))
    ensures var lapsed := db.(reservations := LapseReservations(db.reservations, now, i.listing));
            if found.Some? && found.value in db.rentals && db.rentals[found.value].user == i.user then
              && payment in db.payments && db.payments[payment].invoice in db.invoices
              && ExtensionWritable(lapsed, now, payment, found.value) && !IsReserved(lapsed.reservations, now, i.listing)
              && ApproveExtension(db, now, payment) == Commit(ExtendedBy(lapsed, now, payment, found.value, lapsed.reservations), ())
            else ApproveExtension(db, now, payment).Rollback?
  {
    hide ApproveExtension, ExtendedBy, IsReserved, LapseReservations, RentalAdmissible;
  }

  lemma ReviewedRow(db: Db, payment: Id)
    requires Reviewable(db, payment)
    ensures payment in db.payments && db.payments[payment].invoice in db.invoices
  {
  }

  /** The queries, guards and writes of an extension, for an eligible payer. */
  method ExtendPayer(db: Database, now: int, payment: Id) returns (ok: bool)
    requires Inv(db.tables) && Reviewable(db.tables, payment) && db.tables.payments[payment].reference.ByTerminal?
    requires Eligible(db.tables.users, db.tables.invoices[db.tables.payments[payment].invoice].user)
    modifies db`tables
    ensures ok == ApproveExtension(old(db.tables), now, payment).Commit?
    ensures ok ==> db.tables == ApproveExtension(old(db.tables), now, payment).db
  {
    ghost var before := db.tables;
    ReviewedRow(before, payment);
    hide *;
    var i := db.tables.invoices[db.tables.payments[payment].invoice];
    var active := FindLease(db, now, i.listing);
    ExtensionByLease(before, now, payment, i, active);
    LapsedExtension(before, now, payment, i, active);
    db.tables := db.tables.(reservations := LapseReservations(db.tables.reservations, now, i.listing));
    var reserved := RunningReservation(db, now, i.listing);
    if reserved.Some? || active.None? || db.tables.rentals[active.value].user != i.user {
      return false;
    }
    ok := WriteExtension(db, now, payment, active.value);
  }

  /** APPROVE with rentalAction EXTENSION. */
  method ApproveAsExtension(db: Database, now: int, payment: Id) returns (ok: bool)
    requires Inv(db.tables)
    modifies db
    ensures db.tables == After(ApproveExtension(old(db.tables), now, payment), old(db.tables))
    ensures ok == ApproveExtension(old(db.tables), now, payment).Commit?
    ensures Ascending(db.held)
  {
    ApproveExtensionAs(db.tables, now, payment);
    hide Inv, ApproveExtension, LapseReservations, ExtendedBy, OwnLease, Eligible;
    var saved := db.Begin();
    ok := LockPayment(db, payment);
    if !ok || !db.tables.payments[payment].reference.ByTerminal? {
      return false;
    }
    if !Eligible(db.tables.users, db.tables.invoices[db.tables.payments[payment].invoice].user) {
      return false;
    }
    ok := ExtendPayer(db, now, payment);
    if !ok {
      db.Rollback(saved);
    }
  }

  // ---------- the other decisions ----------

  /** REJECT of a payment. */
  method Reject(db: Database, payment: Id) returns (ok: bool)
    modifies db
    ensures db.tables == After(RejectPayment(old(db.tables), payment), old(db.tables))
    ensures ok == RejectPayment(old(db.tables), payment).Commit?
    ensures Ascending(db.held)
  {
    hide SettleReceipts;
    var saved := db.Begin();
    ok := LockPayment(db, payment);
    if !ok {
      return;
    }
    var invoice := db.tables.payments[payment].invoice;
    if db.tables.payments[payment].status != InReview {
      return false;
    }
    db.tables := db.tables.(payments := db.tables.payments[payment := db.tables.payments[payment].(status := Rejected)]);
    if db.tables.invoices[invoice].status == Open {
      db.tables := db.tables.(invoices := db.tables.invoices[invoice := db.tables.invoices[invoice].(status := Void)]);
    }
    db.tables := db.tables.(receipts := SettleReceipts(db.tables.receipts, payment, Rejected));
  }

  /** RESOLVE of a Stripe payment. */
  method Resolve(db: Database, payment: Id) returns (ok: bool)
    modifies db
    ensures db.tables == After(ResolvePayment(old(db.tables), payment), old(db.tables))
    ensures ok == ResolvePayment(old(db.tables), payment).Commit?
    ensures Ascending(db.held)
  {
    var saved := db.Begin();
    ok := LockPayment(db, payment);
    if !ok || !db.tables.payments[payment].reference.ByIntent? {
      return false;
    }
    if db.tables.payments[payment].status != InReview {
      return false;
    }
    db.tables := db.tables.(payments := db.tables.payments[payment := db.tables.payments[payment].(status := Rejected)]);
  }

  /** The row of a terminal event that is under review and linked to no payment. */
  method FindUnlinked(db: Database, terminal: Id, event: Id) returns (found: bool)
    ensures found <==> Unlinked(db.tables, terminal, event)
  {
    return (terminal, event) in db.tables.receipts && terminal in db.tables.terminals
           && db.tables.receipts[(terminal, event)].status == InReview && db.tables.receipts[(terminal, event)].payment.None?;
  }

  /** RESOLVE_IDENTITY: user, identity, invoice, payment and event rows. */
  method NamePayer(db: Database, now: int, id: Id, terminal: Id, event: Id) returns (ok: bool)
    requires Inv(db.tables) && Fresh(db.tables, id)
    modifies db
    ensures db.tables == After(ResolveIdentity(old(db.tables), now, id, terminal, event), old(db.tables))
    ensures ok == ResolveIdentity(old(db.tables), now, id, terminal, event).Commit?
    ensures db.held == []
  {
    var saved := db.Begin();
    ok := FindUnlinked(db, terminal, event);
    if !ok {
      return;
    }
    UnpaidEvent(db.tables, terminal, event);
    hide Inv, Fresh;
    var q := db.tables.receipts[(terminal, event)];
    db.tables := db.tables.(users := db.tables.users[id := User(Resident, true)]);
    ok := q.payer !in db.tables.identities;
    if ok {
      db.tables := db.tables.(identities := db.tables.identities[q.payer := id]);
      db.tables := db.tables.(invoices := db.tables.invoices[id := Invoice(None, db.tables.terminals[terminal], id, Open, Linden(q.expected), now)]);
      ok := db.InsertPayment(id, Payment(id, ByTerminal(terminal, event), Linden(q.amount), InReview));
    }
    if ok {
      db.tables := db.tables.(receipts := db.tables.receipts[(terminal, event) := q.(payment := Some(id))]);
    } else {
      db.Rollback(saved);
    }
  }

  /** No payment has the reference of an event that is linked to none. */
  lemma UnpaidEvent(db: Db, terminal: Id, event: Id)
    requires Inv(db) && Unlinked(db, terminal, event)
    ensures forall p | p in db.payments :: db.payments[p].reference != ByTerminal(terminal, event)
  {
    assert ReceiptsBound(db.receipts, db.payments) by {
      hide *;
      Parts(db);
    }
    hide Inv;
  }

  /** REJECT of an event whose payer is unknown. */
  method RejectUnlinked(db: Database, terminal: Id, event: Id) returns (ok: bool)
    modifies db
    ensures db.tables == After(RejectReceipt(old(db.tables), terminal, event), old(db.tables))
    ensures ok == RejectReceipt(old(db.tables), terminal, event).Commit?
    ensures db.held == []
  {
    var saved := db.Begin();
    ok := FindUnlinked(db, terminal, event);
    if !ok {
      return;
    }
    db.tables := db.tables.(receipts := db.tables.receipts[(terminal, event) := db.tables.receipts[(terminal, event)].(status := Rejected)]);
  }
}
