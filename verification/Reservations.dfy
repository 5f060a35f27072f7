/** reservations.ts: staff reservations, statement by statement. */
module Reservations {
  import opened Tables
  import opened Allocation
  import opened Transactions
  import opened Locks
  import opened Store
  import opened Checkout

  /** [...new Set([a, b])].sort(). */
  function SortedUsers(a: Id, b: Id): (users: seq<Id>)
    ensures forall i, j | 0 <= i < j < |users| :: users[i] < users[j]
    ensures forall u :: u in users <==> u == a || u == b
  {
    if a == b then [a] else if a < b then [a, b] else [b, a]
  }

  function UserKeys(users: seq<Id>): seq<LockKey> {
    seq(|users|, i requires 0 <= i < |users| => UserKey(users[i]))
  }

  /** The locks of a new reservation, in order. */
  function ReservationLocks(actor: Id, q: Request): (keys: seq<LockKey>)
    ensures Ascending(keys)
  {
    [IdempotencyKey(actor, q.key), ListingKey(q.listing)] + UserKeys(SortedUsers(actor, q.target))
  }

  /** The loop that locks the two users. */
  method LockUsers(db: Database, actor: Id, q: Request)
    requires db.held == [IdempotencyKey(actor, q.key), ListingKey(q.listing)]
    modifies db`held
    ensures db.held == ReservationLocks(actor, q)
  {
    var users := SortedUsers(actor, q.target);
    var i := 0;
    while i < |users|
      invariant 0 <= i <= |users|
      invariant db.held == [IdempotencyKey(actor, q.key), ListingKey(q.listing)] + UserKeys(users[..i])
    {
      assert users[..i + 1] == users[..i] + [users[i]];
      assert UserKey(users[i]) !in db.held;
      assert db.held + [UserKey(users[i])] == [IdempotencyKey(actor, q.key), ListingKey(q.listing)] + UserKeys(users[..i + 1]);
      db.Lock(UserKey(users[i]));
      i := i + 1;
    }
    assert users[..|users|] == users;
  }

  predicate MayReserve(users: map<Id, User>, actor: Id) {
    actor in users && users[actor].active && ManagesReservations(users[actor].role)
  }

  /** The reservation that a repeated request finds. */
  method FindReplay(db: Database, actor: Id, key: Id) returns (found: Option<Id>)
    requires forall v, w :: IsReplay(db.tables, actor, key, v) && IsReplay(db.tables, actor, key, w) ==> v == w
    ensures found.Some? <==> exists v :: IsReplay(db.tables, actor, key, v)
    ensures found.Some? ==> IsReplay(db.tables, actor, key, found.value) && found.value == ReplayOf(db.tables, actor, key)
  {
    if v :| v in db.tables.reservations && IsReplay(db.tables, actor, key, v) {
      return Some(v);
    }
    return None;
  }

  /** Neither the idempotency key nor one_live_reservation refuses a reservation that passed the queries. */
  lemma NewReservationAdmissible(db: Db, now: int, actor: Id, q: Request)
    requires !(exists v :: IsReplay(db, actor, q.key, v)) && !IsReserved(db.reservations, now, q.listing)
    requires q.expiresAt > now && actor in db.users && q.target in db.users
    ensures ReservationAdmissible(db.users, Clean(db, now, q.listing).reservations, now,
                                  Reservation(q.listing, q.target, actor, q.key, q.fingerprint, Reserved, q.expiresAt))
  {
    var clean := Clean(db, now, q.listing);
    CleanVacates(db, now, q.listing);
    CleanKeys(db, now, q.listing);
    forall v | v in clean.reservations ensures clean.reservations[v].creator != actor || clean.reservations[v].key != q.key {
      assert !IsReplay(db, actor, q.key, v);
    }
    hide Clean;
  }

  /** What createReservation requires of the target and the listing, once the request is known to be new. */
  predicate Acceptable(db: Db, now: int, actor: Id, q: Request)
    requires actor in db.users
  {
    && Eligible(db.users, q.target) && Verified(db.identities, q.target)
    && !(db.users[actor].role == Agent && db.users[q.target].role !in {Resident, Renter})
    && Offered(db.listings, q.listing) && !Occupied(db.rentals, now, q.listing) && !IsReserved(db.reservations, now, q.listing)
  }

  lemma ReserveAs(db: Db, wall: int, now: int, id: Id, actor: Id, q: Request)
    ensures var reserved := Reserve(db, wall, now, id, actor, q);
            if q.expiresAt <= wall || q.expiresAt > wall + RESERVATION_LIMIT || !MayReserve(db.users, actor) then reserved.Rollback?
            else if exists v :: IsReplay(db, actor, q.key, v) then
              var v := ReplayOf(db, actor, q.key);
              reserved == if db.reservations[v].fingerprint != q.fingerprint then Rollback else Commit(db, v)
            else if !Acceptable(db, now, actor, q) || q.expiresAt <= now then reserved.Rollback?
            else
              var clean := Clean(db, now, q.listing);
              reserved == Commit(clean.(reservations := clean.reservations[id :=
                Reservation(q.listing, q.target, actor, q.key, q.fingerprint, Reserved, q.expiresAt)]), id)
  {
    hide Clean, Occupied, IsReserved, Verified;
  }

  /** The part of createReservation after the replay check. */
  method InsertNew(db: Database, now: int, id: Id, actor: Id, q: Request) returns (ok: bool)
    requires !exists v :: IsReplay(db.tables, actor, q.key, v)
    requires MayReserve(db.tables.users, actor)
    modifies db`tables
    ensures ok <==> Acceptable(old(db.tables), now, actor, q) && q.expiresAt > now
    ensures var clean := Clean(old(db.tables), now, q.listing);
            ok ==> db.tables == clean.(reservations := clean.reservations[id :=
              Reservation(q.listing, q.target, actor, q.key, q.fingerprint, Reserved, q.expiresAt)])
  {
    ghost var before := db.tables;
    if !MayReserve(db.tables.users, actor) {
      return false;
    }
    CleanAvailability(before, now, q.listing, q.target);
    CleanKeys(before, now, q.listing);
    hide Clean, Occupied, IsReserved, Verified, ReservationAdmissible;
    CleanListing(db, now, q.listing);
    if !Acceptable(db.tables, now, actor, q) {
      return false;
    }
    if q.expiresAt > now {
      NewReservationAdmissible(before, now, actor, q);
    }
    NotYetExpired(db.tables.users, db.tables.reservations, now);
    ok := db.InsertReservation(now, id, Reservation(q.listing, q.target, actor, q.key, q.fingerprint, Reserved, q.expiresAt));
  }

  lemma NotYetExpired(users: map<Id, User>, reservations: map<Id, Reservation>, now: int)
    ensures forall row :: ReservationAdmissible(users, reservations, now, row) ==> row.expiresAt > now
  {
  }

  /** createReservation; `wall` is the server's clock. */
  method CreateReservation(db: Database, wall: int, now: int, id: Id, actor: Id, q: Request)
    returns (reservation: Option<Id>)
    requires forall v, w :: IsReplay(db.tables, actor, q.key, v) && IsReplay(db.tables, actor, q.key, w) ==> v == w
    modifies db
    ensures db.tables == After(Reserve(old(db.tables), wall, now, id, actor, q), old(db.tables))
    ensures reservation == Result(Reserve(old(db.tables), wall, now, id, actor, q))
    ensures db.held <= ReservationLocks(actor, q) || db.held == old(db.held)
  {
    ghost var before := db.tables;
    ReserveAs(before, wall, now, id, actor, q);
    hide Reserve, Clean, Acceptable, IsReplay;
    if q.expiresAt <= wall || q.expiresAt > wall + RESERVATION_LIMIT {
      return None;
    }
    var saved := db.Begin();
    if !MayReserve(db.tables.users, actor) {
      return None;
    }
    db.Lock(IdempotencyKey(actor, q.key));
    var replay := FindReplay(db, actor, q.key);
    if replay.Some? {
      ReplayKnown(db.tables, actor, q.key, replay.value);
      return if db.tables.reservations[replay.value].fingerprint != q.fingerprint then None else replay;
    }
    db.Lock(ListingKey(q.listing));
    LockUsers(db, actor, q);
    var ok := InsertNew(db, now, id, actor, q);
    if !ok {
      db.Rollback(saved);
      return None;
    }
    return Some(id);
  }

  lemma ReplayKnown(db: Db, actor: Id, key: Id, v: Id)
    requires IsReplay(db, actor, key, v)
    ensures v in db.reservations
  {
  }

  /** cancelReservation. */
  method CancelReservation(db: Database, actor: Id, reservation: Id) returns (ok: bool)
    modifies db
    ensures db.tables == After(Withdraw(old(db.tables), actor, reservation), old(db.tables))
    ensures ok == Withdraw(old(db.tables), actor, reservation).Commit?
    ensures db.held == []
  {
    var saved := db.Begin();
    if !MayReserve(db.tables.users, actor) {
      return false;
    }
    if !(reservation in db.tables.reservations && db.tables.reservations[reservation].status == Reserved) {
      return false;
    }
    if db.tables.users[actor].role == Agent && db.tables.reservations[reservation].creator != actor {
      return false;
    }
    db.tables := db.tables.(reservations := db.tables.reservations[reservation := db.tables.reservations[reservation].(status := Withdrawn)]);
    return true;
  }

  /** What the page of reservations does before it reads: a single statement for all listings, under no lock. */
  method ListReservations(db: Database, now: int)
    modifies db
    ensures db.tables == LapseAll(old(db.tables), now)
    ensures db.held == []
  {
    hide LapseOverdue;
    var saved := db.Begin();
    db.tables := db.tables.(reservations := LapseOverdue(db.tables.reservations, now));
  }

  /** It changes no answer about who keeps a listing, in its own transaction or a later one. */
  lemma LapsingIsInvisible(reservations: map<Id, Reservation>, now: int, later: int, listing: Id, user: Id)
    requires now <= later
    ensures IsReserved(LapseOverdue(reservations, now), later, listing) <==> IsReserved(reservations, later, listing)
    ensures ReservedAgainst(LapseOverdue(reservations, now), later, listing, user) <==> ReservedAgainst(reservations, later, listing, user)
  {
    var lapsed := LapseOverdue(reservations, now);
    forall v | v in reservations
      ensures Holds(lapsed[v], later, listing) <==> Holds(reservations[v], later, listing)
      ensures lapsed[v].target == reservations[v].target
    {
    }
  }
}
