/** The checkout route: acquiring and replacing attempts, storing sessions, settling simulated payments. */
module CheckoutRoute {
  import opened Tables
  import opened Allocation
  import opened Invariants
  import opened Transactions
  import opened Locks
  import opened Store
  import opened Checkout

  /** A target has at most one attempt that the existing-attempt queries can find. */
  lemma ExistingUnique(db: Db, now: int, target: Target, user: Id, a: Id, b: Id)
    requires Inv(db) && ExistingRow(db, now, target, user, a) && ExistingRow(db, now, target, user, b)
    ensures a == b
  {
    assert OneAsk(db.invoices, db.attempts) && OneLiveRental(db.rentals) by {
      hide *;
      Parts(db);
    }
    hide Inv;
    var r := db.invoices[db.attempts[a].invoice].rental.value;
    assert AsksFor(db.invoices, db.attempts, a, r) && AsksFor(db.invoices, db.attempts, b, r);
  }

  /** The attempt that a target's request finds again. */
  method FindAttempt(db: Database, now: int, target: Target, user: Id) returns (found: Option<Id>)
    requires Inv(db.tables)
    ensures found.Some? <==> exists a :: ExistingRow(db.tables, now, target, user, a)
    ensures found.Some? ==> ExistingRow(db.tables, now, target, user, found.value)
                            && found.value == OpenAttempt(db.tables, now, target, user)
  {
    if a :| a in db.tables.attempts && ExistingRow(db.tables, now, target, user, a) {
      ExistingUnique(db.tables, now, target, user, a, OpenAttempt(db.tables, now, target, user));
      return Some(a);
    }
    return None;
  }

  /** The listing of a request. */
  function TargetListing(db: Db, target: Target, user: Id): Option<Id> {
    match target
    case OfListing(listing) => Some(listing)
    case OfRental(rental) =>
      if rental in db.rentals && db.rentals[rental].user == user then Some(db.rentals[rental].listing) else None
  }

  /** A new hold or renewal for the target. */
  method CreateHold(db: Database, now: int, id: Id, target: Target, user: Id) returns (ok: bool)
    requires Inv(db.tables) && Fresh(db.tables, id)
    requires TargetListing(db.tables, target, user).Some?
    requires db.held == [ListingKey(TargetListing(db.tables, target, user).value)]
    modifies db
    ensures var asked := target.OfRental? && Asked(old(db.tables), target.rental);
            && (ok <==> OpenTarget(old(db.tables), now, id, target, user).Commit? && !asked)
            && (ok ==> db.tables == OpenTarget(old(db.tables), now, id, target, user).db)
    ensures old(db.held) <= db.held <= ListingThenUser(TargetListing(old(db.tables), target, user).value, user)
  {
    hide Inv, OpenHold, OpenRenewal, Asked, Fresh;
    match target {
      case OfListing(listing) => ok := CreateCheckoutHold(db, now, id, listing, user);
      case OfRental(rental) => ok := CreateRenewalCheckoutHold(db, now, id, rental, user);
    }
  }

  /** The invoice of a hold that was just opened can carry its first attempt. */
  lemma HoldCarries(db: Db, now: int, id: Id, target: Target, user: Id)
    requires Inv(db) && Fresh(db, id) && OpenTarget(db, now, id, target, user).Commit?
    ensures var begun := OpenTarget(db, now, id, target, user).db;
            && AttemptAdmissible(begun.invoices, begun.attempts, id, Attempt(id, None, Creating))
            && id in begun.invoices && begun.invoices[id].rental.Some? && begun.invoices[id].rental.value in begun.rentals
            && begun.invoices[id].amount.Minor?
  {
    assert AttemptsBound(db.invoices, db.attempts) by {
      hide *;
      Parts(db);
    }
    hide Inv, RedeemReservations, EndLapsed, LapseReservations, Occupied, ReservedAgainst;
  }

  /** The attempts table with the first attempt of an invoice. */
  function Started(db: Db, id: Id): Db {
    db.(attempts := db.attempts[id := Attempt(id, None, Creating)])
  }

  /** Without a row to find again, nobody has been asked to pay for the rental that is to be renewed. */
  lemma NotFoundNotAsked(db: Db, now: int, id: Id, target: Target, user: Id)
    requires Inv(db) && OpenTarget(db, now, id, target, user).Commit? && !exists a :: ExistingRow(db, now, target, user, a)
    ensures target.OfRental? ==> !Asked(db, target.rental)
  {
    hide Inv, AsksFor, OpenTarget, ExistingRow;
    Parts(db);
    NoRowNoAsk(db, now, id, target, user);
  }

  /** What acquireAttempt does, by cases. */
  lemma AcquireCases(db: Db, now: int, id: Id, target: Target, user: Id)
    requires Inv(db) && Fresh(db, id)
    ensures var acquired, begun := Acquire(db, now, id, target, user), OpenTarget(db, now, id, target, user);
            if TargetListing(db, target, user).None? then acquired.Rollback?
            else if exists a :: ExistingRow(db, now, target, user, a) then
              acquired == Commit(db, HoldOf(db, OpenAttempt(db, now, target, user)))
            else if begun.Rollback? then acquired.Rollback?
            else
              && !(target.OfRental? && Asked(db, target.rental))
              && id in begun.db.invoices && begun.db.invoices[id].rental.Some? && begun.db.invoices[id].rental.value in begun.db.rentals
              && begun.db.invoices[id].amount.Minor?
              && acquired == Commit(Started(begun.db, id), HoldOf(Started(begun.db, id), id))
  {
    hide Inv, Fresh, OpenTarget, ExistingRow, Asked, AttemptAdmissible, TargetListing, HoldOf, Acquire, BeginAttempt;
    NoListingNoHold(db, now, id, target, user);
    AcquireForm(db, now, id, target, user);
    if !(exists a :: ExistingRow(db, now, target, user, a)) && OpenTarget(db, now, id, target, user).Commit? {
      HoldCarries(db, now, id, target, user);
      NotFoundNotAsked(db, now, id, target, user);
      BeginForm(OpenTarget(db, now, id, target, user), id);
    }
  }

  lemma AcquireForm(db: Db, now: int, id: Id, target: Target, user: Id)
    ensures Acquire(db, now, id, target, user)
            == if exists a :: ExistingRow(db, now, target, user, a) then Commit(db, HoldOf(db, OpenAttempt(db, now, target, user)))
               else BeginAttempt(OpenTarget(db, now, id, target, user), id)
    ensures OpenTarget(db, now, id, target, user).Rollback? ==> BeginAttempt(OpenTarget(db, now, id, target, user), id).Rollback?
  {
    hide HoldOf, OpenTarget, ExistingRow;
  }

  lemma BeginForm(taken: Outcome<()>, id: Id)
    requires taken.Commit? && id in taken.db.invoices && taken.db.invoices[id].rental.Some?
    requires taken.db.invoices[id].rental.value in taken.db.rentals && taken.db.invoices[id].amount.Minor?
    ensures BeginAttempt(taken, id) == Commit(Started(taken.db, id), HoldOf(Started(taken.db, id), id))
  {
    hide HoldOf;
  }

  lemma NoListingNoHold(db: Db, now: int, id: Id, target: Target, user: Id)
    ensures TargetListing(db, target, user).None? ==>
              OpenTarget(db, now, id, target, user).Rollback? && !(exists a :: ExistingRow(db, now, target, user, a))
  {
    hide LapseReservations, OpenHold;
  }

  /** acquireAttempt. */
  method AcquireAttempt(db: Database, now: int, id: Id, target: Target, user: Id) returns (hold: Option<Hold>)
    requires Inv(db.tables) && Fresh(db.tables, id)
    modifies db
    ensures db.tables == After(Acquire(old(db.tables), now, id, target, user), old(db.tables))
    ensures hold == Result(Acquire(old(db.tables), now, id, target, user))
    ensures var listing := TargetListing(old(db.tables), target, user);
            if listing.None? then hold.None? && db.held == []
            else [ListingKey(listing.value)] <= db.held <= ListingThenUser(listing.value, user)
  {
    hide Inv, Fresh, Acquire, OpenTarget, ExistingRow, Asked, TargetListing, AttemptAdmissible, HoldOf;
    ghost var before := db.tables;
    var saved := db.Begin();
    AcquireCases(before, now, id, target, user);
    var listing := TargetListing(db.tables, target, user);
    if listing.None? {
      return None;
    }
    db.Lock(ListingKey(listing.value));
    var found := FindAttempt(db, now, target, user);
    if found.Some? {
      return Some(HoldOf(db.tables, found.value));
    }
    var ok := CreateHold(db, now, id, target, user);
    if ok {
      HoldCarries(before, now, id, target, user);
      ok := db.WriteAttempt(id, Attempt(id, None, Creating));
    }
    if !ok {
      db.Rollback(saved);
      return None;
    }
    return Some(HoldOf(db.tables, id));
  }

  // ---------- replacing an expired session ----------

  /** UPDATE of one attempt, if its status is among those given. */
  method MoveAttempt(db: Database, attempt: Id, from: set<AttemptStatus>, to: AttemptStatus) returns (changed: bool)
    modifies db`tables
    ensures changed <==> attempt in old(db.tables).attempts && old(db.tables).attempts[attempt].status in from
    ensures db.tables == if !changed then old(db.tables)
                         else old(db.tables).(attempts := old(db.tables).attempts[attempt := old(db.tables).attempts[attempt].(status := to)])
  {
    if attempt in db.tables.attempts && db.tables.attempts[attempt].status in from {
      db.tables := db.tables.(attempts := db.tables.attempts[attempt := db.tables.attempts[attempt].(status := to)]);
      return true;
    }
    return false;
  }

  /** UPDATE invoices SET status='VOID' WHERE id AND status='OPEN'. */
  method VoidInvoice(db: Database, invoice: Id) returns (changed: bool)
    modifies db`tables
    ensures changed <==> invoice in old(db.tables).invoices && old(db.tables).invoices[invoice].status == Open
    ensures db.tables == if !changed then old(db.tables)
                         else old(db.tables).(invoices := old(db.tables).invoices[invoice := old(db.tables).invoices[invoice].(status := Void)])
  {
    if invoice in db.tables.invoices && db.tables.invoices[invoice].status == Open {
      db.tables := db.tables.(invoices := db.tables.invoices[invoice := db.tables.invoices[invoice].(status := Void)]);
      return true;
    }
    return false;
  }

  /** UPDATE rentals SET status='CANCELLED' WHERE id AND status='PENDING'. */
  method CancelHold(db: Database, rental: Id) returns (changed: bool)
    modifies db`tables
    ensures changed <==> rental in old(db.tables).rentals && old(db.tables).rentals[rental].status == Pending
    ensures db.tables == if !changed then old(db.tables)
                         else old(db.tables).(rentals := old(db.tables).rentals[rental := old(db.tables).rentals[rental].(status := Cancelled)])
  {
    if rental in db.tables.rentals && db.tables.rentals[rental].status == Pending {
      db.tables := db.tables.(rentals := db.tables.rentals[rental := db.tables.rentals[rental].(status := Cancelled)]);
      return true;
    }
    return false;
  }

  const LIVE_ATTEMPT := {Creating, Presented, Errored}

  /** The hold can be given up. */
  predicate CanGiveUp(db: Db, hold: Hold) {
    && hold.attempt in db.attempts && LiveAttempt(db.attempts[hold.attempt])
    && hold.invoice in db.invoices && db.invoices[hold.invoice].status == Open
    && (!hold.renewal ==> hold.rental in db.rentals && db.rentals[hold.rental].status == Pending)
  }

  /** The three updates that give a hold up, and their row counts. */
  method GiveHoldUp(db: Database, hold: Hold) returns (ok: bool)
    modifies db`tables
    ensures ok <==> CanGiveUp(old(db.tables), hold)
    ensures ok ==> db.tables == GiveUp(old(db.tables), hold)
  {
    var attempt := MoveAttempt(db, hold.attempt, LIVE_ATTEMPT, Expired);
    var invoice := VoidInvoice(db, hold.invoice);
    var rental := true;
    if !hold.renewal {
      rental := CancelHold(db, hold.rental);
    }
    return attempt && invoice && rental;
  }

  function HoldTarget(hold: Hold): Target {
    if hold.renewal then OfRental(hold.rental) else OfListing(hold.listing)
  }

  lemma GivenUpKeeps(db: Db, hold: Hold, user: Id)
    requires Inv(db) && Recorded(db, hold, user) && CanGiveUp(db, hold)
    ensures Inv(GiveUp(db, hold))
  {
    hide Inv, Keeps;
    GiveUpKeeps(db, hold.attempt, hold.invoice, if hold.renewal then None else Some(hold.rental));
  }

  lemma GivenUpUnasked(db: Db, hold: Hold, user: Id)
    requires Inv(db) && Recorded(db, hold, user) && CanGiveUp(db, hold)
    ensures !Asked(GiveUp(db, hold), hold.rental)
  {
    hide Inv, OneAsk, AttemptsDistinct, AsksFor;
    Parts(db);
    GaveUpNoneOpen(db, hold, user);
  }

  lemma GivenUpTarget(db: Db, id: Id, hold: Hold, user: Id)
    requires InvoicesBound(db.rentals, db.invoices) && Fresh(db, id) && Recorded(db, hold, user) && CanGiveUp(db, hold)
    ensures Fresh(GiveUp(db, hold), id) && TargetListing(GiveUp(db, hold), HoldTarget(hold), user) == Some(hold.listing)
  {
  }

  /** A hold that was given up leaves a database in which its target can be asked for again. */
  lemma GivenUp(db: Db, id: Id, hold: Hold, user: Id)
    requires Inv(db) && Fresh(db, id) && Recorded(db, hold, user) && CanGiveUp(db, hold)
    ensures var freed := GiveUp(db, hold);
            && Inv(freed) && Fresh(freed, id) && !Asked(freed, hold.rental)
            && TargetListing(freed, HoldTarget(hold), user) == Some(hold.listing)
  {
    hide *;
    Parts(db);
    GivenUpKeeps(db, hold, user);
    GivenUpUnasked(db, hold, user);
    GivenUpTarget(db, id, hold, user);
  }

  /** What replaceExpired does, by cases. */
  lemma ReplaceCases(db: Db, now: int, id: Id, hold: Hold, user: Id)
    requires Inv(db) && Fresh(db, id) && Recorded(db, hold, user)
    ensures var replaced := Replace(db, now, id, hold, user);
            if !CanGiveUp(db, hold) then replaced.Rollback?
            else
              var freed := GiveUp(db, hold);
              var begun := OpenTarget(freed, now, id, HoldTarget(hold), user);
              && Inv(freed) && Fresh(freed, id) && !(hold.renewal && Asked(freed, hold.rental))
              && TargetListing(freed, HoldTarget(hold), user) == Some(hold.listing)
              && if begun.Rollback? then replaced.Rollback?
                 else
                   && id in begun.db.invoices && begun.db.invoices[id].rental.Some? && begun.db.invoices[id].rental.value in begun.db.rentals
                   && begun.db.invoices[id].amount.Minor?
                   && AttemptAdmissible(begun.db.invoices, begun.db.attempts, id, Attempt(id, None, Creating))
                   && replaced == Commit(Started(begun.db, id), HoldOf(Started(begun.db, id), id))
  {
    if CanGiveUp(db, hold) {
      GivenUp(db, id, hold, user);
      var freed := GiveUp(db, hold);
      if OpenTarget(freed, now, id, HoldTarget(hold), user).Commit? {
        HoldCarries(freed, now, id, HoldTarget(hold), user);
      }
      hide Inv, Fresh, OpenTarget, AttemptAdmissible, Asked, TargetListing, GiveUp;
    }
  }

  /** replaceExpired. */
  method ReplaceExpired(db: Database, now: int, id: Id, hold: Hold, user: Id) returns (next: Option<Hold>)
    requires Recorded(db.tables, hold, user) && Fresh(db.tables, id) && Inv(db.tables)
    modifies db
    ensures db.tables == After(Replace(old(db.tables), now, id, hold, user), old(db.tables))
    ensures next == Result(Replace(old(db.tables), now, id, hold, user))
    ensures [ListingKey(hold.listing)] <= db.held <= ListingThenUser(hold.listing, user)
  {
    hide Inv, Fresh, Replace, GiveUp, OpenTarget, Asked, TargetListing, AttemptAdmissible, HoldOf;
    ghost var before := db.tables;
    ReplaceCases(before, now, id, hold, user);
    var saved := db.Begin();
    db.Lock(ListingKey(hold.listing));
    var ok := GiveHoldUp(db, hold);
    if ok {
      ok := CreateHold(db, now, id, HoldTarget(hold), user);
    }
    if ok {
      ok := db.WriteAttempt(id, Attempt(id, None, Creating));
    }
    if !ok {
      db.Rollback(saved);
      return None;
    }
    return Some(HoldOf(db.tables, id));
  }

  // ---------- sessions ----------

  /** The update that stores a created session; its row count must be one. */
  method StoreCreatedSession(db: Database, attempt: Id, session: Id) returns (ok: bool)
    modifies db
    ensures db.tables == After(PersistSession(old(db.tables), attempt, session), old(db.tables))
    ensures ok == PersistSession(old(db.tables), attempt, session).Commit?
    ensures db.held == []
  {
    var saved := db.Begin();
    if !(attempt in db.tables.attempts && db.tables.attempts[attempt].status in {Creating, Errored}) {
      return false;
    }
    if exists a :: a in db.tables.attempts && a != attempt && db.tables.attempts[a].session == Some(session) {
      db.Rollback(saved);
      return false;
    }
    db.tables := db.tables.(attempts := db.tables.attempts[attempt :=
      db.tables.attempts[attempt].(session := Some(session), status := Presented)]);
    return true;
  }

  /** The update after a failed session creation; it may find nothing to do. */
  method StoreFailure(db: Database, attempt: Id)
    modifies db
    ensures db.tables == After(MarkErrored(old(db.tables), attempt), old(db.tables))
    ensures db.held == []
  {
    var saved := db.Begin();
    var _ := MoveAttempt(db, attempt, {Creating, Errored}, Errored);
  }

  /** The simulation branch of the route. */
  method SettleInSimulation(db: Database, now: int, id: Id, hold: Hold) returns (ok: bool)
    requires Inv(db.tables)
    modifies db
    ensures db.tables == After(SettleSimulated(old(db.tables), now, id, hold), old(db.tables))
    ensures ok == SettleSimulated(old(db.tables), now, id, hold).Commit?
    ensures Ascending(db.held)
  {
    hide Inv, Settle;
    var saved := db.Begin();
    ok := SettleCheckoutInvoice(db, now, id, hold.invoice, BySimulation(hold.attempt), Minor(hold.amount, hold.currency));
    if ok {
      ok := MoveAttempt(db, hold.attempt, {Creating, Errored}, Completed);
    }
    if !ok {
      db.Rollback(saved);
    }
  }
}
