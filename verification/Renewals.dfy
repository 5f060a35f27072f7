/** What renewals and holds cost, and until when they can be paid. */
module Renewals {
  import opened Tables
  import opened Allocation
  import opened Invariants
  import opened Evolution
  import opened Transactions
  import opened Runs
  import opened Clocked
  import opened ClockedRuns
  import opened CheckoutEffects

  /** At the same price, a renewal asks exactly the setup price less than a new hold of the listing, whenever and by whomever
      either is opened: one weekly price, in the listing's currency. */
  lemma RenewalSavesSetup(db: Db, now: int, id: Id, rental: Id, user: Id, other: Db, later: int, newId: Id, newcomer: Id)
    requires OpenRenewal(db, now, id, rental, user).Commit? && rental in db.rentals
    requires var listing := db.rentals[rental].listing;
             && OpenHold(other, later, newId, listing, newcomer).Commit?
             && listing in db.listings && listing in other.listings && other.listings[listing].price == db.listings[listing].price
    ensures db.listings[db.rentals[rental].listing].price.Some?
    ensures var price := db.listings[db.rentals[rental].listing].price.value;
            var bills := OpenRenewal(db, now, id, rental, user).db.invoices;
            var holds := OpenHold(other, later, newId, db.rentals[rental].listing, newcomer).db.invoices;
            && id in bills && newId in holds
            && bills[id].amount.Minor? && holds[newId].amount.Minor?
            && holds[newId].amount.minor - bills[id].amount.minor == price.setupMinor
            && bills[id].amount.minor == price.weeklyMinor
            && bills[id].amount.currency == holds[newId].amount.currency == price.currency
  {
    RenewalMeans(db, now, id, rental, user);
    HoldMeans(other, later, newId, db.rentals[rental].listing, newcomer);
    OfferedIff(db.listings, db.rentals[rental].listing);
    hide OpenRenewal, OpenHold, Clean, LapseReservations, Offered, Occupied, ReservedAgainst, Eligible;
  }

  // ---------- paying ----------

  /** The bill of the rental, as it was made. */
  predicate Asks(db: Db, id: Id, rental: Id, user: Id, amount: Amount, due: int) {
    && id in db.invoices && db.invoices[id].rental == Some(rental) && db.invoices[id].user == user
    && db.invoices[id].amount == amount && db.invoices[id].dueAt == due
  }

  lemma AskStays(db: Db, after: Db, id: Id, rental: Id, user: Id, amount: Amount, due: int)
    requires Evolves(db, after) && Asks(db, id, rental, user, amount, due)
    ensures Asks(after, id, rental, user, amount, due)
  {
    hide RentalsKept, AttemptsKept, PaymentsKept, ActionsKept, ReceiptsKept, Extends;
  }

  /** A bill can be settled at its amount exactly while it is open and not due, and its hold or lease runs: that its user may
      rent is then certain. */
  lemma PayableIff(db: Db, now: int, pid: Id, id: Id, rental: Id, user: Id, amount: Amount, due: int, reference: Reference)
    requires Asks(db, id, rental, user, amount, due) && amount.Minor? && !UsedReference(db.payments, reference)
    requires Inv(db) && Live(db, now)
    ensures rental in db.rentals
    ensures Settle(db, now, pid, id, reference, amount).Commit? <==>
              && db.invoices[id].status == Open && now < due
              && (db.rentals[rental].status == Pending || db.rentals[rental].status == Active) && now < db.rentals[rental].endsAt
  {
    assert InvoicesBound(db.rentals, db.invoices) && OwnersEligible(db.users, db.rentals, now) by {
      hide *;
      Parts(db);
      Split(db, now);
    }
    hide Inv, Live, Settle, Eligible;
    SettlesIff(db, now, pid, id, reference, amount);
  }

  lemma RenewedAsks(db: Db, now: int, id: Id, rental: Id, user: Id)
    requires Acquire(db, now, id, OfRental(rental), user).Commit? && forall a :: !ExistingRow(db, now, OfRental(rental), user, a)
    ensures rental in db.rentals && db.rentals[rental].listing in db.listings && db.listings[db.rentals[rental].listing].price.Some?
    ensures var price := db.listings[db.rentals[rental].listing].price.value;
            var acquired := Acquire(db, now, id, OfRental(rental), user);
            && Asks(acquired.db, id, rental, user, Minor(price.weeklyMinor, price.currency), now + 1920)
            && acquired.db.invoices[id].status == Open && acquired.db.rentals == db.rentals
            && db.rentals[rental].status == Active && now < db.rentals[rental].endsAt && acquired.db.payments == db.payments
            && acquired.value == Hold(id, rental, db.rentals[rental].listing, id, price.weeklyMinor, price.currency, None, true)
  {
    RenewingMeans(db, now, id, rental, user);
    RenewalMeans(db, now, id, rental, user);
    hide Acquire, OpenRenewal, LapseReservations, ExistingRow;
  }

  /** However much happens after a renewal was opened, in an ordered run: the renewal can be settled at one weekly price, that of
      its opening, exactly while it is open, its 32 minutes are not over and its lease runs; and then the lease is longer by one
      week. */
  lemma RenewalStaysPayable(db: Db, clock: int, now: int, id: Id, rental: Id, user: Id, moments: seq<Moment>, later: int,
                            pid: Id, reference: Reference)
    requires clock <= now && Fresh(db, id) && Acquire(db, now, id, OfRental(rental), user).Commit?
    requires forall a :: !ExistingRow(db, now, OfRental(rental), user, a)
    requires var acquired := Acquire(db, now, id, OfRental(rental), user);
             && Runnable(acquired.db, moments) && Ordered(now, moments) && LastNow(now, moments) <= later
             && !UsedReference(Run(acquired.db, moments).payments, reference)
    requires Inv(db) && Live(db, clock)
    ensures rental in db.rentals && db.rentals[rental].listing in db.listings && db.listings[db.rentals[rental].listing].price.Some?
    ensures var price := db.listings[db.rentals[rental].listing].price.value;
            var end := Run(Acquire(db, now, id, OfRental(rental), user).db, moments);
            var settled := Settle(end, later, pid, id, reference, Minor(price.weeklyMinor, price.currency));
            && id in end.invoices && rental in end.rentals
            && (settled.Commit? <==>
                  && end.invoices[id].status == Open && later < now + 1920
                  && end.rentals[rental].status == Active && later < end.rentals[rental].endsAt)
            && (settled.Commit? ==>
                  && rental in settled.db.rentals && id in settled.db.invoices && settled.db.invoices[id].status == Paid
                  && settled.db.rentals[rental] == end.rentals[rental].(endsAt := end.rentals[rental].endsAt + 604800))
  {
    hide Inv, Live, Keeps, Evolves, Fresh, Acquire, Run, Runnable, Ordered, LastNow, Settle, UsedReference;
    var acquired := Acquire(db, now, id, OfRental(rental), user);
    var end := Run(acquired.db, moments);
    RenewedAsks(db, now, id, rental, user);
    var price := db.listings[db.rentals[rental].listing].price.value;
    TimePasses(db, clock, now);
    AcquireKeeps(db, now, id, OfRental(rental), user);
    AcquireLives(db, now, id, OfRental(rental), user);
    Unchanged(acquired, db);
    Kept(db, acquired.db);
    RunKeeps(acquired.db, moments);
    Kept(acquired.db, end);
    RunLives(acquired.db, now, moments);
    TimePasses(end, LastNow(now, moments), later);
    AskStays(acquired.db, end, id, rental, user, Minor(price.weeklyMinor, price.currency), now + 1920);
    PayableIff(end, later, pid, id, rental, user, Minor(price.weeklyMinor, price.currency), now + 1920, reference);
    LeaseStays(acquired.db, end, rental);
    Lengthened(end, later, pid, id, rental, user, Minor(price.weeklyMinor, price.currency), now + 1920, reference);
  }

  lemma LeaseStays(db: Db, after: Db, r: Id)
    requires Evolves(db, after) && r in db.rentals && db.rentals[r].status == Active
    ensures r in after.rentals && (after.rentals[r].status == Active || after.rentals[r].status == Ended)
  {
    hide InvoicesKept, AttemptsKept, PaymentsKept, ActionsKept, ReceiptsKept, Extends;
  }

  lemma Lengthened(db: Db, now: int, pid: Id, id: Id, rental: Id, user: Id, amount: Amount, due: int, reference: Reference)
    requires Asks(db, id, rental, user, amount, due) && rental in db.rentals && db.rentals[rental].status != Pending
    ensures var settled := Settle(db, now, pid, id, reference, amount);
            settled.Commit? ==>
              && rental in settled.db.rentals && id in settled.db.invoices && settled.db.invoices[id].status == Paid
              && settled.db.rentals[rental] == db.rentals[rental].(endsAt := db.rentals[rental].endsAt + 604800)
  {
    hide Settle, RedeemReservations, Eligible;
    if Settle(db, now, pid, id, reference, amount).Commit? {
      SettlementMeans(db, now, pid, id, reference, amount);
    }
  }

  /** A renewal that was just opened can be settled until its 32 minutes or its lease are over, whichever comes first. */
  lemma RenewalPayableUntil(db: Db, now: int, id: Id, rental: Id, user: Id, later: int, pid: Id, reference: Reference)
    requires now <= later && Fresh(db, id) && Acquire(db, now, id, OfRental(rental), user).Commit?
    requires (forall a :: !ExistingRow(db, now, OfRental(rental), user, a)) && !UsedReference(db.payments, reference)
    requires Inv(db) && Live(db, now)
    ensures rental in db.rentals
    ensures var acquired := Acquire(db, now, id, OfRental(rental), user);
            Settle(acquired.db, later, pid, id, reference, Minor(acquired.value.amount, acquired.value.currency)).Commit?
            <==> later < now + 1920 && later < db.rentals[rental].endsAt
  {
    hide Inv, Live, Fresh, Acquire, Settle, UsedReference, Asks;
    var acquired := Acquire(db, now, id, OfRental(rental), user);
    RenewedAsks(db, now, id, rental, user);
    assert Run(acquired.db, []) == acquired.db;
    RenewalStaysPayable(db, now, now, id, rental, user, [], later, pid, reference);
  }

  lemma HeldAsks(db: Db, now: int, id: Id, listing: Id, user: Id)
    requires Acquire(db, now, id, OfListing(listing), user).Commit? && forall a :: !ExistingRow(db, now, OfListing(listing), user, a)
    ensures listing in db.listings && db.listings[listing].price.Some?
    ensures var price := db.listings[listing].price.value;
            var acquired := Acquire(db, now, id, OfListing(listing), user);
            && Asks(acquired.db, id, id, user, Minor(price.setupMinor + price.weeklyMinor, price.currency), now + 1920)
            && acquired.db.invoices[id].status == Open && id in acquired.db.rentals
            && acquired.db.rentals[id] == Rental(listing, user, Pending, now, now + 1920) && acquired.db.payments == db.payments
            && acquired.value == Hold(id, id, listing, id, price.setupMinor + price.weeklyMinor, price.currency, None, false)
  {
    HoldingMeans(db, now, id, listing, user);
    HoldMeans(db, now, id, listing, user);
    OfferedIff(db.listings, listing);
    CleanKeys(db, now, listing);
    hide Acquire, OpenHold, Clean, ExistingRow, Offered, Eligible, Occupied, ReservedAgainst;
  }

  /** A hold that was just opened can be settled, at the setup price and one weekly price, until its 32 minutes are over; its lease
      runs one week from then. */
  lemma HoldPayableUntil(db: Db, now: int, id: Id, listing: Id, user: Id, later: int, pid: Id, reference: Reference)
    requires now <= later && Fresh(db, id) && Acquire(db, now, id, OfListing(listing), user).Commit?
    requires (forall a :: !ExistingRow(db, now, OfListing(listing), user, a)) && !UsedReference(db.payments, reference)
    requires Inv(db) && Live(db, now)
    ensures var acquired := Acquire(db, now, id, OfListing(listing), user);
            var settled := Settle(acquired.db, later, pid, id, reference, Minor(acquired.value.amount, acquired.value.currency));
            && (settled.Commit? <==> later < now + 1920)
            && (settled.Commit? ==> id in settled.db.rentals && settled.db.rentals[id] == Rental(listing, user, Active, later, later + 604800))
  {
    hide Inv, Live, Keeps, Evolves, Fresh, Acquire, Settle, UsedReference, Asks;
    var acquired := Acquire(db, now, id, OfListing(listing), user);
    HeldAsks(db, now, id, listing, user);
    var price := db.listings[listing].price.value;
    AcquireKeeps(db, now, id, OfListing(listing), user);
    AcquireLives(db, now, id, OfListing(listing), user);
    Unchanged(acquired, db);
    Kept(db, acquired.db);
    TimePasses(acquired.db, now, later);
    PayableIff(acquired.db, later, pid, id, id, user, Minor(price.setupMinor + price.weeklyMinor, price.currency), now + 1920, reference);
    Started(acquired.db, later, pid, id, user, Minor(price.setupMinor + price.weeklyMinor, price.currency), now + 1920, reference);
  }

  lemma Started(db: Db, now: int, pid: Id, id: Id, user: Id, amount: Amount, due: int, reference: Reference)
    requires Asks(db, id, id, user, amount, due) && id in db.rentals && db.rentals[id].status == Pending
    ensures var settled := Settle(db, now, pid, id, reference, amount);
            settled.Commit? ==>
              id in settled.db.rentals && settled.db.rentals[id] == Rental(db.rentals[id].listing, db.rentals[id].user, Active, now, now + 604800)
  {
    hide Settle, RedeemReservations, Eligible;
    if Settle(db, now, pid, id, reference, amount).Commit? {
      SettlementMeans(db, now, pid, id, reference, amount);
    }
  }
}
