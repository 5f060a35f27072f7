/** The database as the transactions see it: tables that statements change one after the other, the constraints
    and triggers that refuse a statement, and the advisory locks that the current transaction holds. */
module Store {
  import opened Tables
  import opened Locks

  /** The CHECK of the rentals table, its foreign key, and its owner trigger. */
  predicate OwnerAdmissible(users: map<Id, User>, now: int, row: Rental) {
    && row.startsAt < row.endsAt && row.user in users
    && (IsLive(row) && row.endsAt > now ==> MayRent(users[row.user]))
  }

  /** one_live_rental among the other rows. */
  predicate ListingFree(rentals: map<Id, Rental>, id: Id, row: Rental) {
    IsLive(row) ==> forall r | r in rentals :: r != id && IsLive(rentals[r]) ==> rentals[r].listing != row.listing
  }

  /** What the rentals table accepts. */
  predicate RentalAdmissible(users: map<Id, User>, rentals: map<Id, Rental>, now: int, id: Id, row: Rental) {
    OwnerAdmissible(users, now, row) && ListingFree(rentals, id, row)
  }

  /** What the reservations table accepts: its CHECK, its idempotency key, and one_live_reservation. */
  predicate ReservationAdmissible(users: map<Id, User>, reservations: map<Id, Reservation>, now: int, row: Reservation) {
    && row.expiresAt > now && row.target in users && row.creator in users
    && (forall v | v in reservations :: reservations[v].creator != row.creator || reservations[v].key != row.key)
    && (forall v | v in reservations :: reservations[v].status == Reserved ==> reservations[v].listing != row.listing)
  }

  /** What the payments table accepts: UNIQUE(provider, provider_reference). */
  predicate PaymentAdmissible(invoices: map<Id, Invoice>, payments: map<Id, Payment>, row: Payment) {
    row.invoice in invoices && forall p | p in payments :: payments[p].reference != row.reference
  }

  /** What stripe_checkout_attempts accepts: UNIQUE(invoice_id, generation), every attempt being the first of its
      invoice, and UNIQUE(session_id). */
  predicate AttemptAdmissible(invoices: map<Id, Invoice>, attempts: map<Id, Attempt>, id: Id, row: Attempt) {
    && row.invoice in invoices
    && (forall a | a in attempts :: a != id ==> attempts[a].invoice != row.invoice)
    && (row.session.Some? ==> forall a | a in attempts :: a != id ==> attempts[a].session != row.session)
  }

  /** The trigger on users: nobody who rents becomes unable to rent. */
  predicate UserAdmissible(rentals: map<Id, Rental>, now: int, user: Id, before: User, row: User) {
    MayRent(row) || before == row || forall r | r in rentals :: !(rentals[r].user == user && IsLive(rentals[r]) && rentals[r].endsAt > now)
  }

  class Database {
    var tables: Db
    var held: seq<LockKey>

    constructor (tables: Db)
      ensures this.tables == tables && held == []
    {
      this.tables, held := tables, [];
    }

    /** BEGIN: no advisory lock is held yet. */
    method Begin() returns (saved: Db)
      modifies this`held
      ensures held == [] && saved == tables
    {
      held := [];
      saved := tables;
    }

    /** ROLLBACK, after a thrown error. */
    method Rollback(saved: Db)
      modifies this`tables
      ensures tables == saved
    {
      tables := saved;
    }

    /** pg_advisory_xact_lock.  A key that the transaction already holds is granted at once; any other must come
        after all that it holds. */
    method Lock(key: LockKey)
      requires key in held || Ascending(held + [key])
      modifies this`held
      ensures held == Locked(old(held), key)
    {
      if key !in held {
        held := held + [key];
      }
    }

    /** INSERT INTO rentals, or UPDATE of one row. */
    method WriteRental(now: int, id: Id, row: Rental) returns (ok: bool)
      modifies this`tables
      ensures ok <==> RentalAdmissible(old(tables).users, old(tables).rentals, now, id, row)
      ensures tables == if ok then old(tables).(rentals := old(tables).rentals[id := row]) else old(tables)
    {
      ok := RentalAdmissible(tables.users, tables.rentals, now, id, row);
      if ok {
        tables := tables.(rentals := tables.rentals[id := row]);
      }
    }

    /** INSERT INTO rentals ... ON CONFLICT DO NOTHING: only the trigger and the CHECK can make it fail. */
    method InsertRentalIfFree(now: int, id: Id, row: Rental) returns (ok: bool, inserted: bool)
      modifies this`tables
      ensures ok <==> OwnerAdmissible(old(tables).users, now, row)
      ensures inserted <==> RentalAdmissible(old(tables).users, old(tables).rentals, now, id, row)
      ensures tables == if inserted then old(tables).(rentals := old(tables).rentals[id := row]) else old(tables)
    {
      ok := OwnerAdmissible(tables.users, now, row);
      inserted := ok && ListingFree(tables.rentals, id, row);
      if inserted {
        tables := tables.(rentals := tables.rentals[id := row]);
      }
    }

    /** INSERT INTO reservations. */
    method InsertReservation(now: int, id: Id, row: Reservation) returns (ok: bool)
      modifies this`tables
      ensures ok <==> ReservationAdmissible(old(tables).users, old(tables).reservations, now, row)
      ensures tables == if ok then old(tables).(reservations := old(tables).reservations[id := row]) else old(tables)
    {
      ok := ReservationAdmissible(tables.users, tables.reservations, now, row);
      if ok {
        tables := tables.(reservations := tables.reservations[id := row]);
      }
    }

    /** INSERT INTO payments. */
    method InsertPayment(id: Id, row: Payment) returns (ok: bool)
      modifies this`tables
      ensures ok <==> PaymentAdmissible(old(tables).invoices, old(tables).payments, row)
      ensures tables == if ok then old(tables).(payments := old(tables).payments[id := row]) else old(tables)
    {
      ok := PaymentAdmissible(tables.invoices, tables.payments, row);
      if ok {
        tables := tables.(payments := tables.payments[id := row]);
      }
    }

    /** INSERT INTO stripe_checkout_attempts, or UPDATE of one row. */
    method WriteAttempt(id: Id, row: Attempt) returns (ok: bool)
      modifies this`tables
      ensures ok <==> AttemptAdmissible(old(tables).invoices, old(tables).attempts, id, row)
      ensures tables == if ok then old(tables).(attempts := old(tables).attempts[id := row]) else old(tables)
    {
      ok := AttemptAdmissible(tables.invoices, tables.attempts, id, row);
      if ok {
        tables := tables.(attempts := tables.attempts[id := row]);
      }
    }
  }
}
