/** The database's constraints and triggers refuse exactly the rows that would break what the invariants say. */
module Constraints {
  import opened Tables
  import opened Allocation
  import opened Invariants
  import opened Clocked
  import opened Store

  /** one_live_rental refuses a row exactly if with it a listing would have two rentals that are PENDING or ACTIVE. */
  lemma RentalRefusedIff(rentals: map<Id, Rental>, id: Id, row: Rental)
    requires OneLiveRental(rentals)
    ensures ListingFree(rentals, id, row) <==> OneLiveRental(rentals[id := row])
  {
    var after := rentals[id := row];
    if !ListingFree(rentals, id, row) {
      var r :| r in rentals && r != id && IsLive(rentals[r]) && rentals[r].listing == row.listing;
      assert after[r] == rentals[r] && after[id] == row;
    }
  }

  /** The triggers on rentals refuse a row exactly if its owner could not rent while it runs. */
  lemma OwnerRefusedIff(users: map<Id, User>, rentals: map<Id, Rental>, now: int, id: Id, row: Rental)
    requires OwnersEligible(users, rentals, now) && row.user in users && row.startsAt < row.endsAt
    ensures OwnerAdmissible(users, now, row) <==> OwnersEligible(users, rentals[id := row], now)
  {
    var after := rentals[id := row];
    assert after[id] == row;
    if OwnerAdmissible(users, now, row) {
      forall r | r in after && IsLive(after[r]) && after[r].endsAt > now ensures Eligible(users, after[r].user) {
        assert r != id ==> after[r] == rentals[r];
      }
    }
  }

  /** The trigger on users refuses a change exactly if it would leave a running rental with an owner who may not rent. */
  lemma UserRefusedIff(users: map<Id, User>, rentals: map<Id, Rental>, now: int, user: Id, row: User)
    requires OwnersEligible(users, rentals, now) && user in users
    ensures UserAdmissible(rentals, now, user, users[user], row) <==> OwnersEligible(users[user := row], rentals, now)
  {
    if users[user] == row {
      assert users[user := row] == users;
    } else if !UserAdmissible(rentals, now, user, users[user], row) {
      var r :| r in rentals && rentals[r].user == user && IsLive(rentals[r]) && rentals[r].endsAt > now;
      assert !Eligible(users[user := row], rentals[r].user);
    } else {
      forall r | r in rentals && IsLive(rentals[r]) && rentals[r].endsAt > now ensures Eligible(users[user := row], rentals[r].user) {
        assert Eligible(users, rentals[r].user);
      }
    }
  }

  /** The keys of reservations refuse a new ACTIVE one of known users, that is not past its time, exactly if with it a listing
      would have two that are ACTIVE, or its creator two under one idempotency key. */
  lemma ReservationRefusedIff(users: map<Id, User>, reservations: map<Id, Reservation>, now: int, id: Id, row: Reservation)
    requires OneLiveReservation(reservations) && KeysDistinct(reservations) && id !in reservations && row.status == Reserved
    requires row.target in users && row.creator in users && row.expiresAt > now
    ensures ReservationAdmissible(users, reservations, now, row)
            <==> OneLiveReservation(reservations[id := row]) && KeysDistinct(reservations[id := row])
  {
    var after := reservations[id := row];
    if !ReservationAdmissible(users, reservations, now, row) {
      var v :| v in reservations && ((reservations[v].creator == row.creator && reservations[v].key == row.key)
                                     || (reservations[v].status == Reserved && reservations[v].listing == row.listing));
      assert after[v] == reservations[v] && after[id] == row;
    }
  }

  /** UNIQUE(provider, provider_reference) refuses a new payment of a bill exactly if its reference is another's. */
  lemma PaymentRefusedIff(invoices: map<Id, Invoice>, payments: map<Id, Payment>, id: Id, row: Payment)
    requires ReferencesDistinct(payments) && id !in payments && row.invoice in invoices
    ensures PaymentAdmissible(invoices, payments, row) <==> ReferencesDistinct(payments[id := row])
  {
    var after := payments[id := row];
    if !PaymentAdmissible(invoices, payments, row) {
      var p :| p in payments && payments[p].reference == row.reference;
      assert after[p] == payments[p] && after[id] == row;
    }
  }

  /** The keys of checkout attempts refuse a row exactly if with it a bill would have two attempts, or a session would. */
  lemma AttemptRefusedIff(invoices: map<Id, Invoice>, attempts: map<Id, Attempt>, id: Id, row: Attempt)
    requires AttemptsDistinct(attempts) && row.invoice in invoices
    ensures AttemptAdmissible(invoices, attempts, id, row) <==> AttemptsDistinct(attempts[id := row])
  {
    var after := attempts[id := row];
    if !AttemptAdmissible(invoices, attempts, id, row) {
      var a :| a in attempts && a != id && (attempts[a].invoice == row.invoice || (row.session.Some? && attempts[a].session == row.session));
      assert after[a] == attempts[a] && after[id] == row;
    }
  }
}
