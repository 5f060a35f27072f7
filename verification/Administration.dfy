/** The rental administration routes and role-management.ts, statement by statement. */
module Administration {
  import opened Tables
  import opened Allocation
  import opened Invariants
  import opened Locks
  import opened Store
  import opened Checkout
  import opened Reconciliation

  // ---------- activation of a paid invoice ----------

  predicate Activatable(db: Db, invoice: Id) {
    invoice in db.invoices && db.invoices[invoice].status == Paid && db.invoices[invoice].rental.None?
  }

  /** What an activation writes. */
  function ActivatedBy(db: Db, now: int, id: Id, invoice: Id, weeks: nat, reservations: map<Id, Reservation>): Db
    requires invoice in db.invoices
  {
    var i := db.invoices[invoice];
    db.(users := Promote(db.users, i.user),
        rentals := db.rentals[id := Rental(i.listing, i.user, Active, now, now + weeks * WEEK)],
        reservations := reservations,
        invoices := db.invoices[invoice := i.(rental := Some(id))],
        ledger := Posted(Entry(id, ByActivation, weeks, 0, 0), db.ledger))
  }

  lemma ActivateAs(db: Db, now: int, id: Id, invoice: Id, weeks: int)
    ensures var activated := Activate(db, now, id, invoice, weeks);
            if !Activatable(db, invoice) || !(1 <= weeks <= 52) then activated.Rollback?
            else
              var i := db.invoices[invoice];
              if !Eligible(db.users, i.user) || !Vacant(db.rentals, i.listing) || ReservedAgainst(db.reservations, now, i.listing, i.user)
              then activated.Rollback?
              else activated == Commit(ActivatedBy(db, now, id, invoice, weeks, RedeemReservations(db.reservations, now, i.listing)), ())
  {
    hide Eligible, Vacant, ReservedAgainst, RedeemReservations, Promote;
  }

  /** What the guards of an activation rest on. */
  lemma ActivationGuards(db: Db, now: int, id: Id, listing: Id, user: Id, weeks: int, found: Option<Id>)
    requires Inv(db) && id !in db.rentals && Eligible(db.users, user) && weeks >= 1
    requires var lapsed := LapseReservations(db.reservations, now, listing);
             && (found.Some? ==> found.value in lapsed && Holds(lapsed[found.value], now, listing))
             && (found.None? ==> !IsReserved(lapsed, now, listing))
    ensures var lapsed := LapseReservations(db.reservations, now, listing);
            && RedeemReservations(db.reservations, now, listing) == Redeem(lapsed, found)
            && (ReservedAgainst(db.reservations, now, listing, user) <==> found.Some? && lapsed[found.value].target != user)
    ensures var row := Rental(listing, user, Active, now, now + weeks * WEEK);
            && (RentalAdmissible(db.users, db.rentals, now, id, row) <==> Vacant(db.rentals, listing))
            && (Vacant(db.rentals, listing) ==> !RunningLease(db.rentals, now, listing))
  {
    ReservationGuard(db, now, listing, user, found);
    hide Inv, LapseReservations, RedeemReservations, Redeem, IsReserved, ReservedAgainst;
  }

  lemma ReservationGuard(db: Db, now: int, listing: Id, user: Id, found: Option<Id>)
    requires Inv(db)
    requires var lapsed := LapseReservations(db.reservations, now, listing);
             && (found.Some? ==> found.value in lapsed && Holds(lapsed[found.value], now, listing))
             && (found.None? ==> !IsReserved(lapsed, now, listing))
    ensures var lapsed := LapseReservations(db.reservations, now, listing);
            && RedeemReservations(db.reservations, now, listing) == Redeem(lapsed, found)
            && (ReservedAgainst(db.reservations, now, listing, user) <==> found.Some? && lapsed[found.value].target != user)
  {
    hide *;
    Parts(db);
    LapseSeen(db.reservations, now, listing, found);
    RedeemInSteps(db.reservations, now, listing, found);
    OneReservation(db.reservations, now, listing, user, found);
  }

  /** The statements of an activation that write. */
  method WriteActivation(db: Database, now: int, id: Id, invoice: Id, weeks: int, found: Option<Id>) returns (ok: bool)
    requires invoice in db.tables.invoices && weeks >= 0
    modifies db`tables
    ensures var was := old(db.tables);
            var i := was.invoices[invoice];
            && (ok <==> RentalAdmissible(was.users, was.rentals, now, id, Rental(i.listing, i.user, Active, now, now + weeks * WEEK)))
            && (ok && i.rental.None? ==> db.tables == ActivatedBy(was, now, id, invoice, weeks, Redeem(was.reservations, found)))
  {
    hide Redeem, Promote, RentalAdmissible;
    var i := db.tables.invoices[invoice];
    ok := db.WriteRental(now, id, Rental(i.listing, i.user, Active, now, now + weeks * WEEK));
    if !ok {
      return;
    }
    db.tables := db.tables.(users := Promote(db.tables.users, i.user));
    db.tables := db.tables.(reservations := Redeem(db.tables.reservations, found));
    if i.rental.None? {
      db.tables := db.tables.(invoices := db.tables.invoices[invoice := i.(rental := Some(id))]);
    }
    db.tables := db.tables.(ledger := Posted(Entry(id, ByActivation, weeks, 0, 0), db.tables.ledger));
  }

  /** The queries and guards of an activation, for an eligible user. */
  method ActivateEligible(db: Database, now: int, id: Id, invoice: Id, weeks: int) returns (ok: bool)
    requires Inv(db.tables) && id !in db.tables.rentals && Activatable(db.tables, invoice) && 1 <= weeks
    requires Eligible(db.tables.users, db.tables.invoices[invoice].user)
    modifies db`tables
    ensures var was := old(db.tables);
            var i := was.invoices[invoice];
            && (ok <==> Vacant(was.rentals, i.listing) && !ReservedAgainst(was.reservations, now, i.listing, i.user))
            && (ok ==> db.tables == ActivatedBy(was, now, id, invoice, weeks, RedeemReservations(was.reservations, now, i.listing)))
  {
    ghost var before := db.tables;
    var i := db.tables.invoices[invoice];
    hide Inv, LapseReservations, RedeemReservations, Redeem, IsReserved, ReservedAgainst, Vacant, RentalAdmissible;
    hide RunningLease, Eligible, Promote;
    db.tables := db.tables.(reservations := LapseReservations(db.tables.reservations, now, i.listing));
    var found := RunningReservation(db, now, i.listing);
    ActivationGuards(before, now, id, i.listing, i.user, weeks, found);
    if found.Some? && db.tables.reservations[found.value].target != i.user {
      return false;
    }
    if RunningLease(db.tables.rentals, now, i.listing) {
      return false;
    }
    ok := WriteActivation(db, now, id, invoice, weeks, found);
  }

  /** POST of the rentals route. */
  method ActivateInvoice(db: Database, now: int, id: Id, invoice: Id, weeks: int) returns (ok: bool)
    requires Inv(db.tables) && Fresh(db.tables, id)
    modifies db
    ensures db.tables == After(Activate(old(db.tables), now, id, invoice, weeks), old(db.tables))
    ensures ok == Activate(old(db.tables), now, id, invoice, weeks).Commit?
    ensures 1 <= weeks <= 52 ==> Ascending(db.held)
  {
    ActivateAs(db.tables, now, id, invoice, weeks);
    hide Inv, Activate, Vacant, ReservedAgainst, RedeemReservations, ActivatedBy, Eligible;
    if !(1 <= weeks <= 52) {
      return false;
    }
    var saved := db.Begin();
    if !Activatable(db.tables, invoice) {
      return false;
    }
    var i := db.tables.invoices[invoice];
    LockListingAndUser(db, i.listing, i.user);
    if !Eligible(db.tables.users, i.user) {
      return false;
    }
    ok := ActivateEligible(db, now, id, invoice, weeks);
    if !ok {
      db.Rollback(saved);
    }
  }

  // ---------- extension and end ----------

  /** GREATEST(ends_at,now())+weeks. */
  function Prolonged(r: Rental, now: int, weeks: int): Rental {
    r.(endsAt := Max(r.endsAt, now) + weeks * WEEK)
  }

  /** The EXTEND specification, branch by branch. */
  lemma ExtendLeaseAs(db: Db, now: int, rental: Id, weeks: int)
    ensures ExtendLease(db, now, rental, weeks)
            == if !(rental in db.rentals && db.rentals[rental].status == Active) || !(1 <= weeks <= 52)
                  || !Eligible(db.users, db.rentals[rental].user) then Rollback
               else Commit(db.(rentals := db.rentals[rental := Prolonged(db.rentals[rental], now, weeks)],
                               ledger := Posted(Entry(rental, ByExtension, weeks, Max(db.rentals[rental].endsAt, now) - db.rentals[rental].endsAt, 0),
                                                db.ledger)), ())
  {
    hide Eligible;
  }

  /** PATCH with EXTEND. */
  method ExtendRental(db: Database, now: int, rental: Id, weeks: int) returns (ok: bool)
    requires Inv(db.tables)
    modifies db
    ensures db.tables == After(ExtendLease(old(db.tables), now, rental, weeks), old(db.tables))
    ensures ok == ExtendLease(old(db.tables), now, rental, weeks).Commit?
    ensures db.held == (if 1 <= weeks <= 52 && rental in old(db.tables).rentals then [ListingKey(old(db.tables).rentals[rental].listing)]
                        else if 1 <= weeks <= 52 then [] else old(db.held))
  {
    ExtendLeaseAs(db.tables, now, rental, weeks);
    hide ExtendLease, Prolonged, Inv, Eligible;
    if !(1 <= weeks <= 52) {
      return false;
    }
    var saved := db.Begin();
    if rental !in db.tables.rentals {
      return false;
    }
    var r := db.tables.rentals[rental];
    db.Lock(ListingKey(r.listing));
    if r.status != Active {
      return false;
    }
    LeasedUnreserved(db.tables, now, rental);
    LongerAdmissible(db.tables, now, rental, weeks);
    hide IsReserved, RentalAdmissible, Max;
    if IsReserved(db.tables.reservations, now, r.listing) {
      return false;
    }
    ok := db.WriteRental(now, rental, Prolonged(r, now, weeks));
    if ok {
      Later(r.endsAt, now);
      db.tables := db.tables.(ledger := Posted(Entry(rental, ByExtension, weeks, Max(r.endsAt, now) - r.endsAt, 0), db.tables.ledger));
    }
  }

  lemma Later(a: int, b: int)
    ensures Max(a, b) >= a
  {
  }

  /** The trigger is the only guard left: a longer lease needs an eligible owner, however long it had lapsed. */
  lemma LongerAdmissible(db: Db, now: int, rental: Id, weeks: int)
    requires Inv(db) && rental in db.rentals && db.rentals[rental].status == Active && weeks >= 1
    ensures RentalAdmissible(db.users, db.rentals, now, rental, Prolonged(db.rentals[rental], now, weeks))
            <==> Eligible(db.users, db.rentals[rental].user)
  {
    assert OneLiveRental(db.rentals) && OwnersKnown(db.users.Keys, db.rentals, db.invoices) by {
      hide *;
      Parts(db);
    }
    hide Inv;
  }

  /** PATCH with END. */
  method EndRental(db: Database, now: int, rental: Id) returns (ok: bool)
    requires Inv(db.tables)
    modifies db
    ensures db.tables == After(EndLease(old(db.tables), now, rental), old(db.tables))
    ensures ok == EndLease(old(db.tables), now, rental).Commit?
    ensures db.held == if rental in old(db.tables).rentals then [ListingKey(old(db.tables).rentals[rental].listing)] else []
  {
    var saved := db.Begin();
    if rental !in db.tables.rentals {
      return false;
    }
    var r := db.tables.rentals[rental];
    db.Lock(ListingKey(r.listing));
    EndedAdmissible(db.tables, now, rental);
    hide Inv, RentalAdmissible;
    ok := db.WriteRental(now, rental, r.(status := Ended, endsAt := Min(r.endsAt, now)));
    if ok {
      db.tables := db.tables.(ledger := Posted(Entry(rental, ByEnding, 0, 0, r.endsAt - Min(r.endsAt, now)), db.tables.ledger));
    }
  }

  /** Only the CHECK on the lease period can refuse an end. */
  lemma EndedAdmissible(db: Db, now: int, rental: Id)
    requires Inv(db) && rental in db.rentals
    ensures var r := db.rentals[rental];
            RentalAdmissible(db.users, db.rentals, now, rental, r.(status := Ended, endsAt := Min(r.endsAt, now)))
            <==> r.startsAt < Min(r.endsAt, now)
  {
    assert OwnersKnown(db.users.Keys, db.rentals, db.invoices) by {
      hide *;
      Parts(db);
    }
    hide Inv;
  }

  // ---------- roles ----------

  /** changeUserRole. */
  method ChangeUserRole(db: Database, now: int, actor: Id, target: Id, role: Role) returns (ok: bool)
    modifies db
    ensures db.tables == After(ChangeRole(old(db.tables), now, actor, target, role), old(db.tables))
    ensures ok == ChangeRole(old(db.tables), now, actor, target, role).Commit?
    ensures db.held == [AdministratorKey, UserKey(target)]
  {
    hide RentsNow, ActiveAdministrators;
    var saved := db.Begin();
    db.Lock(AdministratorKey);
    db.Lock(UserKey(target));
    if !(actor in db.tables.users && db.tables.users[actor].active && ManagesUsers(db.tables.users[actor].role)) {
      return false;
    }
    if target !in db.tables.users {
      return false;
    }
    var t := db.tables.users[target];
    AdministratorsKnown(db.tables.users, target);
    if t.role == Administrator && role != Administrator && t.active && |ActiveAdministrators(db.tables.users)| <= 1 {
      return false;
    }
    if role != Renter && role != Administrator && RentsNow(db.tables.rentals, now, target) {
      return false;
    }
    if t.role == role {
      return true;
    }
    TriggerOnUsers(db.tables, now, target, t.(role := role));
    if !UserAdmissible(db.tables.rentals, now, target, t, t.(role := role)) {
      return false;
    }
    db.tables := db.tables.(users := db.tables.users[target := t.(role := role)]);
    return true;
  }

  lemma AdministratorsKnown(users: map<Id, User>, u: Id)
    requires u in users
    ensures u in ActiveAdministrators(users) <==> users[u].role == Administrator && users[u].active
  {
  }

  lemma TriggerOnUsers(db: Db, now: int, user: Id, row: User)
    requires user in db.users && row != db.users[user]
    ensures UserAdmissible(db.rentals, now, user, db.users[user], row) <==> MayRent(row) || !RentsNow(db.rentals, now, user)
  {
  }
}
