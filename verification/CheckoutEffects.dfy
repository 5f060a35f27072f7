/** What cleanup, holds, renewals, attempts and settlements come to, row by row: when each commits, every row that it writes,
    and that it writes no other.  Nothing here is said through the helpers of the specification. */
module CheckoutEffects {
  import opened Tables
  import opened Allocation

  // ---------- who and what ----------

  /** Who may rent. */
  lemma MayRentIff(users: map<Id, User>, u: Id)
    ensures Eligible(users, u) <==>
              u in users && users[u].active && users[u].role != Manager && users[u].role != Agent
  {
  }

  /** What may be rented. */
  lemma OfferedIff(listings: map<Id, Listing>, l: Id)
    ensures Offered(listings, l) <==> l in listings && listings[l].published && listings[l].price.Some?
  {
  }

  /** A listing is taken while a hold or a lease there has time left, and reserved while a reservation does. */
  lemma TakenIff(db: Db, now: int, listing: Id, user: Id)
    ensures Occupied(db.rentals, now, listing) <==>
              exists r :: r in db.rentals && db.rentals[r].listing == listing && now < db.rentals[r].endsAt
                          && (db.rentals[r].status == Pending || db.rentals[r].status == Active)
    ensures Vacant(db.rentals, listing) <==>
              !exists r :: r in db.rentals && db.rentals[r].listing == listing
                           && (db.rentals[r].status == Pending || db.rentals[r].status == Active)
    ensures IsReserved(db.reservations, now, listing) <==>
              exists v :: v in db.reservations && db.reservations[v].listing == listing && now < db.reservations[v].expiresAt
                          && db.reservations[v].status == Reserved
    ensures ReservedAgainst(db.reservations, now, listing, user) <==>
              exists v :: v in db.reservations && db.reservations[v].listing == listing && now < db.reservations[v].expiresAt
                          && db.reservations[v].status == Reserved && db.reservations[v].target != user
  {
    if r :| r in db.rentals && db.rentals[r].listing == listing && now < db.rentals[r].endsAt
            && (db.rentals[r].status == Pending || db.rentals[r].status == Active) {
      assert IsLive(db.rentals[r]);
    }
    if v :| v in db.reservations && db.reservations[v].listing == listing && now < db.reservations[v].expiresAt
            && db.reservations[v].status == Reserved {
      assert Holds(db.reservations[v], now, listing);
    }
    if v :| v in db.reservations && db.reservations[v].listing == listing && now < db.reservations[v].expiresAt
            && db.reservations[v].status == Reserved && db.reservations[v].target != user {
      assert Holds(db.reservations[v], now, listing);
    }
  }

  // ---------- cleanup ----------

  predicate Covers(scope: Option<Id>, listing: Id) {
    scope == None || scope == Some(listing)
  }

  /** The hold has run out and is within the scope of the cleanup. */
  predicate RanOut(db: Db, now: int, scope: Option<Id>, r: Id) {
    r in db.rentals && db.rentals[r].status == Pending && db.rentals[r].endsAt <= now && Covers(scope, db.rentals[r].listing)
  }

  predicate BillsOne(db: Db, now: int, scope: Option<Id>, i: Id) {
    i in db.invoices && db.invoices[i].rental.Some? && RanOut(db, now, scope, db.invoices[i].rental.value)
  }

  lemma CleanedRentals(db: Db, now: int, scope: Option<Id>)
    ensures var after := CancelOverdue(EndLapsed(db.rentals, now, scope), now, scope);
            && after.Keys == db.rentals.Keys
            && forall r | r in db.rentals ::
                 after[r] == db.rentals[r].(status :=
                   if db.rentals[r].endsAt > now || !Covers(scope, db.rentals[r].listing) then db.rentals[r].status
                   else if db.rentals[r].status == Active then Ended
                   else if db.rentals[r].status == Pending then Cancelled
                   else db.rentals[r].status)
  {
  }

  lemma CleanedBills(db: Db, now: int, scope: Option<Id>)
    ensures var after := VoidOverdueInvoices(db.invoices, db.rentals, now, scope);
            && after.Keys == db.invoices.Keys
            && forall i | i in db.invoices ::
                 after[i] == db.invoices[i].(status :=
                   if db.invoices[i].status == Open && BillsOne(db, now, scope, i) then Void else db.invoices[i].status)
  {
  }

  lemma CleanedAttempts(db: Db, now: int, scope: Option<Id>)
    ensures var after := ExpireOverdueAttempts(db.attempts, db.invoices, db.rentals, now, scope);
            && after.Keys == db.attempts.Keys
            && forall a | a in db.attempts ::
                 after[a] == db.attempts[a].(status :=
                   if db.attempts[a].status != Completed && BillsOne(db, now, scope, db.attempts[a].invoice) then Expired
                   else db.attempts[a].status)
  {
  }

  /** Cleanup ends the leases that have run out and cancels the holds that have, whose open bills become void and whose live
      attempts expire; it changes nothing else. */
  lemma CleanupMeans(db: Db, now: int, scope: Option<Id>)
    ensures var after := Sweep(db, now, scope);
            && after == db.(rentals := after.rentals, invoices := after.invoices, attempts := after.attempts)
            && after.rentals.Keys == db.rentals.Keys && after.invoices.Keys == db.invoices.Keys && after.attempts.Keys == db.attempts.Keys
            && (forall r | r in db.rentals ::
                  after.rentals[r] == db.rentals[r].(status :=
                    if db.rentals[r].endsAt > now || !Covers(scope, db.rentals[r].listing) then db.rentals[r].status
                    else if db.rentals[r].status == Active then Ended
                    else if db.rentals[r].status == Pending then Cancelled
                    else db.rentals[r].status))
            && (forall i | i in db.invoices ::
                  after.invoices[i] == db.invoices[i].(status :=
                    if db.invoices[i].status == Open && BillsOne(db, now, scope, i) then Void else db.invoices[i].status))
            && (forall a | a in db.attempts ::
                  after.attempts[a] == db.attempts[a].(status :=
                    if db.attempts[a].status != Completed && BillsOne(db, now, scope, db.attempts[a].invoice) then Expired
                    else db.attempts[a].status))
  {
    hide EndLapsed, CancelOverdue, VoidOverdueInvoices, ExpireOverdueAttempts, Covers, BillsOne;
    CleanedRentals(db, now, scope);
    CleanedBills(db, now, scope);
    CleanedAttempts(db, now, scope);
  }

  /** A listing's reservations that are past their time lapse, and no others. */
  lemma LapsingMeans(vs: map<Id, Reservation>, now: int, listing: Id)
    ensures var after := LapseReservations(vs, now, listing);
            && after.Keys == vs.Keys
            && forall v | v in vs ::
                 after[v] == vs[v].(status :=
                   if vs[v].listing == listing && vs[v].status == Reserved && vs[v].expiresAt <= now then Lapsed else vs[v].status)
  {
  }

  /** Once a lease is paid, what was reserved there is used up, or lapses if it was past its time. */
  lemma RedemptionMeans(vs: map<Id, Reservation>, now: int, listing: Id)
    ensures var after := RedeemReservations(vs, now, listing);
            && after.Keys == vs.Keys
            && forall v | v in vs ::
                 after[v] == vs[v].(status :=
                   if vs[v].listing != listing || vs[v].status != Reserved then vs[v].status
                   else if vs[v].expiresAt > now then Redeemed else Lapsed)
  {
  }

  /** An allocation first cleans its listing: rentals, bills and attempts as above, and its late reservations. */
  lemma AllocationCleans(db: Db, now: int, listing: Id)
    ensures Clean(db, now, listing)
            == Sweep(db, now, Some(listing)).(reservations := LapseReservations(db.reservations, now, listing))
  {
    hide Sweep, LapseReservations;
  }

  /** A terminal's poll ends its listing's lapsed leases and reservations; it cancels no hold. */
  lemma PollMeans(db: Db, now: int, listing: Id)
    ensures var after := Poll(db, now, listing);
            && after == db.(rentals := after.rentals, reservations := after.reservations)
            && after.rentals.Keys == db.rentals.Keys && after.reservations.Keys == db.reservations.Keys
            && (forall r | r in db.rentals ::
                  after.rentals[r] == db.rentals[r].(status :=
                    if db.rentals[r].listing == listing && db.rentals[r].status == Active && db.rentals[r].endsAt <= now
                    then Ended else db.rentals[r].status))
            && (forall v | v in db.reservations ::
                  after.reservations[v] == db.reservations[v].(status :=
                    if db.reservations[v].listing == listing && db.reservations[v].status == Reserved && db.reservations[v].expiresAt <= now
                    then Lapsed else db.reservations[v].status))
  {
  }

  /** The list of reservations lapses the late ones of every listing. */
  lemma ListingMeans(db: Db, now: int)
    ensures var after := LapseAll(db, now);
            && after == db.(reservations := after.reservations) && after.reservations.Keys == db.reservations.Keys
            && forall v | v in db.reservations ::
                 after.reservations[v] == db.reservations[v].(status :=
                   if db.reservations[v].status == Reserved && db.reservations[v].expiresAt <= now then Lapsed else db.reservations[v].status)
  {
  }

  // ---------- holds ----------

  /** A new hold: 32 minutes of a free listing, billed at the setup price and one weekly price. */
  lemma HoldMeans(db: Db, now: int, id: Id, listing: Id, user: Id)
    ensures OpenHold(db, now, id, listing, user).Commit? <==>
              && Eligible(db.users, user) && Offered(db.listings, listing)
              && !Occupied(db.rentals, now, listing) && !ReservedAgainst(db.reservations, now, listing, user)
    ensures OpenHold(db, now, id, listing, user).Commit? ==>
              var clean, price := Clean(db, now, listing), db.listings[listing].price.value;
              OpenHold(db, now, id, listing, user).db
              == clean.(rentals := clean.rentals[id := Rental(listing, user, Pending, now, now + 1920)],
                        invoices := clean.invoices[id := Invoice(Some(id), listing, user, Open,
                                                                 Minor(price.setupMinor + price.weeklyMinor, price.currency), now + 1920)])
  {
    hide Clean, Occupied, ReservedAgainst, Eligible, Offered;
    OfferedIff(db.listings, listing);
  }

  /** A renewal: the owner of a running lease on an offered listing is billed one weekly price, due in 32 minutes. */
  lemma RenewalMeans(db: Db, now: int, id: Id, rental: Id, user: Id)
    ensures OpenRenewal(db, now, id, rental, user).Commit? <==>
              && rental in db.rentals && db.rentals[rental].user == user && db.rentals[rental].status == Active
              && now < db.rentals[rental].endsAt && Offered(db.listings, db.rentals[rental].listing)
    ensures OpenRenewal(db, now, id, rental, user).Commit? ==>
              var listing := db.rentals[rental].listing;
              var price := db.listings[listing].price.value;
              OpenRenewal(db, now, id, rental, user).db
              == db.(reservations := LapseReservations(db.reservations, now, listing),
                     invoices := db.invoices[id := Invoice(Some(rental), listing, user, Open,
                                                           Minor(price.weeklyMinor, price.currency), now + 1920)])
  {
    hide LapseReservations;
  }

  // ---------- attempts ----------

  /** A request finds an attempt that is live, on an open bill of its user for a hold on the listing, or for the lease, that
      still runs. */
  lemma FoundIff(db: Db, now: int, target: Target, user: Id, a: Id)
    ensures ExistingRow(db, now, target, user, a) <==>
              && a in db.attempts && db.attempts[a].status != Completed && db.attempts[a].status != Expired
              && db.attempts[a].invoice in db.invoices
              && var i := db.invoices[db.attempts[a].invoice];
              && i.status == Open && i.amount.Minor? && i.rental.Some? && i.rental.value in db.rentals
              && var r := db.rentals[i.rental.value];
              && r.user == user && now < r.endsAt
              && (target.OfListing? ==> r.status == Pending && r.listing == target.listing)
              && (target.OfRental? ==> r.status == Active && i.rental.value == target.rental)
  {
  }

  /** What a request is handed: the rows of its attempt. */
  lemma HandedMeans(db: Db, a: Id)
    requires a in db.attempts && db.attempts[a].invoice in db.invoices
    requires var i := db.invoices[db.attempts[a].invoice]; i.rental.Some? && i.rental.value in db.rentals && i.amount.Minor?
    ensures var hold := HoldOf(db, a);
            && hold.attempt == a && hold.invoice == db.attempts[a].invoice && Some(hold.rental) == db.invoices[hold.invoice].rental
            && hold.listing == db.rentals[hold.rental].listing && Minor(hold.amount, hold.currency) == db.invoices[hold.invoice].amount
            && hold.session == db.attempts[a].session && (hold.renewal <==> db.rentals[hold.rental].status == Active)
  {
  }

  /** A request that finds an attempt is handed that, and nothing is written. */
  lemma FindingMeans(db: Db, now: int, id: Id, target: Target, user: Id)
    requires exists a :: ExistingRow(db, now, target, user, a)
    ensures var acquired := Acquire(db, now, id, target, user);
            && acquired.Commit? && acquired.db == db && ExistingRow(db, now, target, user, acquired.value.attempt)
            && acquired.value == HoldOf(db, acquired.value.attempt)
  {
  }

  /** One that finds none makes a hold, if one can be made, and an attempt for it that waits for its session. */
  lemma HoldingMeans(db: Db, now: int, id: Id, listing: Id, user: Id)
    requires forall a :: !ExistingRow(db, now, OfListing(listing), user, a)
    ensures var acquired, held := Acquire(db, now, id, OfListing(listing), user), OpenHold(db, now, id, listing, user);
            && (acquired.Commit? <==> held.Commit?)
            && (acquired.Commit? ==>
                  && id in held.db.invoices && held.db.invoices[id].amount.Minor?
                  && acquired.db == held.db.(attempts := held.db.attempts[id := Attempt(id, None, Creating)])
                  && acquired.value == Hold(id, id, listing, id, held.db.invoices[id].amount.minor,
                                            held.db.invoices[id].amount.currency, None, false))
  {
    hide Clean, Occupied, ReservedAgainst, Eligible, Offered, ExistingRow;
  }

  /** Or a renewal of its lease. */
  lemma RenewingMeans(db: Db, now: int, id: Id, rental: Id, user: Id)
    requires forall a :: !ExistingRow(db, now, OfRental(rental), user, a)
    ensures var acquired, held := Acquire(db, now, id, OfRental(rental), user), OpenRenewal(db, now, id, rental, user);
            && (acquired.Commit? <==> held.Commit?)
            && (acquired.Commit? ==>
                  && rental in db.rentals && id in held.db.invoices && held.db.invoices[id].amount.Minor?
                  && acquired.db == held.db.(attempts := held.db.attempts[id := Attempt(id, None, Creating)])
                  && acquired.value == Hold(id, rental, db.rentals[rental].listing, id, held.db.invoices[id].amount.minor,
                                            held.db.invoices[id].amount.currency, None, true))
  {
    hide LapseReservations, ExistingRow;
  }

  /** A hold whose session expired is given up with its bill and its attempt, if all three are still open, before another is
      made; for a renewal the lease is kept. */
  lemma ReplacementMeans(db: Db, now: int, id: Id, hold: Hold, user: Id)
    ensures var open := && hold.attempt in db.attempts
                        && db.attempts[hold.attempt].status != Completed && db.attempts[hold.attempt].status != Expired
                        && hold.invoice in db.invoices && db.invoices[hold.invoice].status == Open
                        && (hold.renewal || (hold.rental in db.rentals && db.rentals[hold.rental].status == Pending));
            && (!open ==> Replace(db, now, id, hold, user).Rollback?)
            && (open ==>
                  var freed := db.(attempts := db.attempts[hold.attempt := db.attempts[hold.attempt].(status := Expired)],
                                   invoices := db.invoices[hold.invoice := db.invoices[hold.invoice].(status := Void)],
                                   rentals := if hold.renewal then db.rentals
                                              else db.rentals[hold.rental := db.rentals[hold.rental].(status := Cancelled)]);
                  Replace(db, now, id, hold, user)
                  == BeginAttempt(if hold.renewal then OpenRenewal(freed, now, id, hold.rental, user)
                                  else OpenHold(freed, now, id, hold.listing, user), id))
  {
    hide BeginAttempt, OpenRenewal, OpenHold;
  }

  /** A session is stored once, and on one attempt; storing it makes the attempt OPEN.  A failure marks an attempt that waits for
      its session, and no other. */
  lemma SessionStored(db: Db, attempt: Id, session: Id)
    ensures var waits := attempt in db.attempts && (db.attempts[attempt].status == Creating || db.attempts[attempt].status == Errored);
            var stored, failed := PersistSession(db, attempt, session), MarkErrored(db, attempt);
            && (stored.Commit? <==> waits && forall a | a in db.attempts && db.attempts[a].session == Some(session) :: a == attempt)
            && (stored.Commit? ==>
                  stored.db == db.(attempts := db.attempts[attempt := Attempt(db.attempts[attempt].invoice, Some(session), Presented)]))
            && failed.Commit?
            && failed.db == (if waits then db.(attempts := db.attempts[attempt := db.attempts[attempt].(status := Errored)]) else db)
  {
  }

  // ---------- settlement ----------

  /** What the credit of a lease makes of its owner: a renter, or still an administrator. */
  function AsTenant(u: User): User {
    User(if u.role == Administrator then Administrator else Renter, true)
  }

  /** A payer who was a resident is a renter from then on; an administrator stays one. */
  lemma PromotionMeans(users: map<Id, User>, u: Id)
    requires Eligible(users, u)
    ensures Promote(users, u) == users[u := AsTenant(users[u])]
  {
  }

  /** When an invoice can be settled: it is open and not due yet, its rental is a hold or lease that still runs, its user may
      rent, the amount is exactly its own, and the reference is new. */
  lemma SettlesIff(db: Db, now: int, id: Id, invoice: Id, reference: Reference, amount: Amount)
    ensures Settle(db, now, id, invoice, reference, amount).Commit? <==>
              && invoice in db.invoices
              && var i := db.invoices[invoice];
              && i.status == Open && now < i.dueAt && i.amount == amount && amount.Minor?
              && i.rental.Some? && i.rental.value in db.rentals && now < db.rentals[i.rental.value].endsAt
              && (db.rentals[i.rental.value].status == Pending || db.rentals[i.rental.value].status == Active)
              && Eligible(db.users, i.user) && (forall p | p in db.payments :: db.payments[p].reference != reference)
  {
    hide RedeemReservations, Promote, PaidWeek, Eligible;
  }

  /** What a settlement writes: the hold becomes a lease of one week from now, or the lease is longer by one week; the invoice
      is PAID, by a CONFIRMED payment that is credited with that week; the payer is a renter; and what was reserved there is
      used up. */
  lemma SettlementMeans(db: Db, now: int, id: Id, invoice: Id, reference: Reference, amount: Amount)
    requires Settle(db, now, id, invoice, reference, amount).Commit?
    ensures invoice in db.invoices && db.invoices[invoice].rental.Some? && db.invoices[invoice].rental.value in db.rentals
    ensures Eligible(db.users, db.invoices[invoice].user)
    ensures var i := db.invoices[invoice];
            var was := db.rentals[i.rental.value];
            Settle(db, now, id, invoice, reference, amount).db
            == db.(users := db.users[i.user := AsTenant(db.users[i.user])],
                   rentals := db.rentals[i.rental.value :=
                                if was.status == Pending then Rental(was.listing, was.user, Active, now, now + 604800)
                                else was.(endsAt := was.endsAt + 604800)],
                   reservations := RedeemReservations(db.reservations, now, i.listing),
                   invoices := db.invoices[invoice := i.(status := Paid)],
                   payments := db.payments[id := Payment(invoice, reference, amount, Confirmed)],
                   ledger := Posted(Entry(i.rental.value, ByPayment(id), 1, 0, 0), db.ledger))
  {
    hide RedeemReservations, Promote, UsedReference, Eligible;
    assert Payable(db, now, invoice);
    PromotionMeans(db.users, db.invoices[invoice].user);
  }

  /** A simulated payment settles the hold's invoice under the attempt's own reference, and completes an attempt that waits for
      its session; without that it settles nothing. */
  lemma SimulationMeans(db: Db, now: int, id: Id, hold: Hold)
    ensures var settled := Settle(db, now, id, hold.invoice, BySimulation(hold.attempt), Minor(hold.amount, hold.currency));
            var simulated := SettleSimulated(db, now, id, hold);
            && (simulated.Commit? <==>
                  && settled.Commit? && hold.attempt in db.attempts
                  && (db.attempts[hold.attempt].status == Creating || db.attempts[hold.attempt].status == Errored))
            && (simulated.Commit? ==>
                  simulated.db == settled.db.(attempts := db.attempts[hold.attempt := db.attempts[hold.attempt].(status := Completed)]))
  {
    hide RedeemReservations, Promote, UsedReference, Eligible, Payable, PaidWeek;
  }

  // ---------- sessions that expire or are paid ----------

  /** The event names an attempt, its invoice and the session stored on it. */
  lemma BoundIff(db: Db, e: SessionEvent)
    ensures BoundSession(db, e) <==>
              && e.attempt in db.attempts && db.attempts[e.attempt].invoice == e.invoice
              && db.attempts[e.attempt].session == Some(e.session) && e.invoice in db.invoices
  {
  }

  /** An expired session gives up an OPEN attempt on an open bill: the attempt expires, the bill is void, and its hold, if it is
      still one, is cancelled.  Told again of an attempt that has expired, it does nothing. */
  lemma ExpiryMeans(db: Db, e: SessionEvent)
    ensures var gives := BoundSession(db, e) && db.attempts[e.attempt].status == Presented && db.invoices[e.invoice].status == Open;
            var again := BoundSession(db, e) && db.attempts[e.attempt].status == Expired;
            var expired := SessionExpired(db, e);
            && (expired.Commit? <==> gives || again)
            && (expired.Commit? ==> expired.value == Handled)
            && (again ==> expired.db == db)
            && (gives ==>
                  var r := db.invoices[e.invoice].rental;
                  expired.db == db.(attempts := db.attempts[e.attempt := db.attempts[e.attempt].(status := Expired)],
                                    invoices := db.invoices[e.invoice := db.invoices[e.invoice].(status := Void)],
                                    rentals := if r.Some? && r.value in db.rentals && db.rentals[r.value].status == Pending
                                               then db.rentals[r.value := db.rentals[r.value].(status := Cancelled)] else db.rentals))
  {
  }

  /** A paid session that is accepted: known money changes nothing but that its attempt is COMPLETED; new money settles the
      invoice, with the same completion, and is answered as handled; or, if the invoice cannot be settled any more, it is
      recorded under review with a refund of the whole amount queued at once, and answered so. */
  lemma PaidMeans(db: Db, now: int, id: Id, e: SessionEvent)
    requires SessionPaid(db, now, id, e).Commit?
    ensures e.attempt in db.attempts && e.amount.Minor?
    ensures var paid := SessionPaid(db, now, id, e);
            var completed := db.attempts[e.attempt := db.attempts[e.attempt].(status := Completed)];
            var settled := Settle(db, now, id, e.invoice, ByIntent(e.intent), e.amount);
            if exists p :: p in db.payments && db.payments[p].reference == ByIntent(e.intent) then
              paid.value == Handled && paid.db == db.(attempts := completed)
            else if settled.Commit? then
              paid.value == Handled && paid.db == settled.db.(attempts := completed)
            else
              && paid.value == ForReview
              && paid.db == db.(payments := db.payments[id := Payment(e.invoice, ByIntent(e.intent), e.amount, InReview)],
                                actions := db.actions[id := Action(id, e.session, e.intent, e.amount.minor, Queued, 0, now, None)])
  {
    hide Promote, PaidWeek, RedeemReservations, Payable, BoundSession;
    assert BoundSession(db, e);
    BoundIff(db, e);
    assert UsedReference(db.payments, ByIntent(e.intent)) <==> exists p :: p in db.payments && db.payments[p].reference == ByIntent(e.intent);
  }

  /** A first sign-in makes an active resident of an avatar that was unknown, and nothing of one that was known. */
  lemma SignInMeans(db: Db, id: Id, avatar: Id)
    ensures var enrolled := Enrol(db, id, avatar);
            && enrolled.Commit?
            && enrolled.db == (if avatar in db.identities then db
                               else db.(users := db.users[id := User(Resident, true)], identities := db.identities[avatar := id]))
  {
  }
}
