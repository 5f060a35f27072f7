/** Every transaction keeps the invariant and undoes nothing, at any reading of the clock. */
module Transactions {
  import opened Tables
  import opened Allocation
  import opened Invariants
  import opened Evolution
  import opened Subsiding
  import opened Growing
  import opened Crediting

  ghost predicate Keeps(db: Db, after: Db) {
    Inv(after) && Evolves(db, after)
  }

  lemma NothingDone(db: Db)
    requires Inv(db)
    ensures Keeps(db, db)
  {
    hide Inv, RentalsKept, InvoicesKept, AttemptsKept, PaymentsKept, ActionsKept, ReceiptsKept, Extends;
    Unmoved(db);
  }

  lemma KeepsTransitive(a: Db, b: Db, c: Db)
    requires Keeps(a, b) && Keeps(b, c)
    ensures Keeps(a, c)
  {
    hide Inv, Evolves;
    EvolvesTransitive(a, b, c);
  }

  lemma SubsidedKeeps(db: Db, after: Db)
    requires Inv(db) && Subsides(db, after)
    ensures Keeps(db, after)
  {
    hide Inv, Evolves, Subsides;
    SubsidingKeeps(db, after);
  }

  // ---------- cleanup ----------

  lemma EndingRetires(rs: map<Id, Rental>, now: int, scope: Option<Id>)
    ensures RentalsRetire(rs, EndLapsed(rs, now, scope))
    ensures RentalsRetire(rs, CancelOverdue(EndLapsed(rs, now, scope), now, scope))
  {
  }

  lemma LapsingRetires(vs: map<Id, Reservation>, now: int, listing: Id)
    ensures ReservationsRetire(vs, LapseReservations(vs, now, listing))
    ensures ReservationsRetire(vs, RedeemReservations(vs, now, listing))
    ensures Unreserved(RedeemReservations(vs, now, listing), listing)
  {
  }

  lemma OverdueRetires(vs: map<Id, Reservation>, now: int)
    ensures ReservationsRetire(vs, LapseOverdue(vs, now))
  {
  }

  lemma OverdueVoided(bs: map<Id, Invoice>, rs: map<Id, Rental>, ps: map<Id, Payment>, now: int, scope: Option<Id>)
    requires ReviewsOpen(bs, ps)
    ensures InvoicesVoided(bs, VoidOverdueInvoices(bs, rs, now, scope))
    ensures NoReviewVoided(bs, VoidOverdueInvoices(bs, rs, now, scope), ps)
  {
  }

  lemma OverdueExpired(xs: map<Id, Attempt>, bs: map<Id, Invoice>, rs: map<Id, Rental>, now: int, scope: Option<Id>)
    ensures AttemptsMove(xs, ExpireOverdueAttempts(xs, bs, rs, now, scope))
  {
  }

  lemma SweptTables(db: Db, now: int, scope: Option<Id>)
    ensures Sweep(db, now, scope) ==
            db.(rentals := CancelOverdue(EndLapsed(db.rentals, now, scope), now, scope),
                attempts := ExpireOverdueAttempts(db.attempts, db.invoices, db.rentals, now, scope),
                invoices := VoidOverdueInvoices(db.invoices, db.rentals, now, scope))
  {
    hide CancelOverdue, EndLapsed, ExpireOverdueAttempts, VoidOverdueInvoices;
  }

  lemma CleanTables(db: Db, now: int, listing: Id)
    ensures Clean(db, now, listing) == Sweep(db, now, Some(listing)).(reservations := LapseReservations(db.reservations, now, listing))
  {
    hide Sweep, LapseReservations;
  }

  lemma SweepKeeps(db: Db, now: int, scope: Option<Id>)
    requires Inv(db)
    ensures Keeps(db, Sweep(db, now, scope))
  {
    hide *;
    Parts(db);
    Still(db);
    SweptTables(db, now, scope);
    EndingRetires(db.rentals, now, scope);
    OverdueVoided(db.invoices, db.rentals, db.payments, now, scope);
    OverdueExpired(db.attempts, db.invoices, db.rentals, now, scope);
    Subsided(db, Sweep(db, now, scope));
    SubsidedKeeps(db, Sweep(db, now, scope));
  }

  lemma CleanKeeps(db: Db, now: int, listing: Id)
    requires Inv(db)
    ensures Keeps(db, Clean(db, now, listing)) && Inv(Clean(db, now, listing))
  {
    hide *;
    Parts(db);
    Still(db);
    SweptTables(db, now, Some(listing));
    CleanTables(db, now, listing);
    EndingRetires(db.rentals, now, Some(listing));
    OverdueVoided(db.invoices, db.rentals, db.payments, now, Some(listing));
    OverdueExpired(db.attempts, db.invoices, db.rentals, now, Some(listing));
    LapsingRetires(db.reservations, now, listing);
    Subsided(db, Clean(db, now, listing));
    SubsidedKeeps(db, Clean(db, now, listing));
    Kept(db, Clean(db, now, listing));
  }

  lemma Kept(db: Db, after: Db)
    requires Keeps(db, after)
    ensures Inv(after) && Evolves(db, after)
  {
    hide Inv, Evolves;
  }

  lemma PollKeeps(db: Db, now: int, listing: Id)
    requires Inv(db)
    ensures Keeps(db, Poll(db, now, listing))
  {
    hide *;
    PollTables(db, now, listing);
    Still(db);
    EndingRetires(db.rentals, now, Some(listing));
    LapsingRetires(db.reservations, now, listing);
    Subsided(db, Poll(db, now, listing));
    SubsidedKeeps(db, Poll(db, now, listing));
  }

  lemma LapseAllKeeps(db: Db, now: int)
    requires Inv(db)
    ensures Keeps(db, LapseAll(db, now))
  {
    hide *;
    Still(db);
    LapseAllTables(db, now);
    OverdueRetires(db.reservations, now);
    Subsided(db, LapseAll(db, now));
    SubsidedKeeps(db, LapseAll(db, now));
  }

  lemma LapseAllTables(db: Db, now: int)
    ensures LapseAll(db, now) == db.(reservations := LapseOverdue(db.reservations, now))
  {
    hide LapseOverdue;
  }

  lemma PollTables(db: Db, now: int, listing: Id)
    ensures Poll(db, now, listing) == db.(rentals := EndLapsed(db.rentals, now, Some(listing)),
                                          reservations := LapseReservations(db.reservations, now, listing))
  {
    hide EndLapsed, LapseReservations;
  }

  /** After cleanup only running rows are live, so a listing without running rows is vacant. */
  lemma CleanVacates(db: Db, now: int, listing: Id)
    ensures Vacant(Clean(db, now, listing).rentals, listing) <==> !Occupied(db.rentals, now, listing)
    ensures forall v | v in Clean(db, now, listing).reservations && Clean(db, now, listing).reservations[v].listing == listing
                       && Clean(db, now, listing).reservations[v].status == Reserved ::
              v in db.reservations && Holds(db.reservations[v], now, listing)
              && Clean(db, now, listing).reservations[v] == db.reservations[v]
  {
    var clean := Clean(db, now, listing);
    if Occupied(db.rentals, now, listing) {
      var r :| r in db.rentals && IsLive(db.rentals[r]) && db.rentals[r].listing == listing && db.rentals[r].endsAt > now;
      assert clean.rentals[r] == db.rentals[r];
    } else {
      forall r | r in clean.rentals && IsLive(clean.rentals[r]) ensures clean.rentals[r].listing != listing {
        assert clean.rentals[r] == db.rentals[r];
      }
    }
  }

  // ---------- holds ----------

  /** What createCheckoutHold writes, after cleaning. */
  lemma HoldForm(db: Db, now: int, id: Id, listing: Id, user: Id) returns (row: Rental, bill: Invoice)
    requires Fresh(db, id) && OpenHold(db, now, id, listing, user).Commit?
    ensures var clean := Clean(db, now, listing);
            && OpenHold(db, now, id, listing, user).db == clean.(rentals := clean.rentals[id := row], invoices := clean.invoices[id := bill])
            && Fresh(clean, id) && Vacant(clean.rentals, row.listing) && row.user in clean.users
            && (forall v | v in clean.reservations && clean.reservations[v].status == Reserved && clean.reservations[v].listing == row.listing ::
                  clean.reservations[v].target == row.user)
    ensures row.status == Pending && row.endsAt - row.startsAt == HOLD_SECONDS
    ensures bill == Invoice(Some(id), row.listing, row.user, Open, bill.amount, row.endsAt) && bill.amount.Minor?
  {
    var price := db.listings[listing].price.value;
    row := Rental(listing, user, Pending, now, now + HOLD_SECONDS);
    bill := Invoice(Some(id), listing, user, Open, Minor(price.weeklyMinor + price.setupMinor, price.currency), row.endsAt);
    CleanVacates(db, now, listing);
    CleanKeys(db, now, listing);
    hide Clean;
  }

  /** Cleanup adds and removes no row. */
  lemma CleanKeys(db: Db, now: int, listing: Id)
    ensures var clean := Clean(db, now, listing);
            && clean.rentals.Keys == db.rentals.Keys && clean.reservations.Keys == db.reservations.Keys
            && clean.invoices.Keys == db.invoices.Keys && clean.attempts.Keys == db.attempts.Keys
            && clean.users == db.users && clean.identities == db.identities && clean.listings == db.listings
            && clean.payments == db.payments && clean.actions == db.actions && clean.receipts == db.receipts
            && clean.ledger == db.ledger && clean.intents == db.intents && clean.terminals == db.terminals
            && clean.refunds == db.refunds
  {
  }

  lemma OpenHoldKeeps(db: Db, now: int, id: Id, listing: Id, user: Id)
    requires Inv(db) && Fresh(db, id)
    ensures Keeps(db, After(OpenHold(db, now, id, listing, user), db))
  {
    hide Inv, Evolves, Keeps, Clean, OpenHold, Vacant, Fresh;
    if OpenHold(db, now, id, listing, user).Rollback? {
      NothingDone(db);
    } else {
      var row, bill := HoldForm(db, now, id, listing, user);
      CleanKeeps(db, now, listing);
      HoldKeeps(Clean(db, now, listing), id, row, bill);
      Kept(db, Clean(db, now, listing));
      Joined(db, Clean(db, now, listing), OpenHold(db, now, id, listing, user).db);
    }
  }

  lemma Joined(a: Db, b: Db, c: Db)
    requires Keeps(a, b) && Inv(c) && Evolves(b, c)
    ensures Keeps(a, c)
  {
    hide Inv, Evolves;
    EvolvesTransitive(a, b, c);
  }

  /** What createRenewalCheckoutHold writes, once late reservations have lapsed. */
  lemma RenewalForm(db: Db, now: int, id: Id, rental: Id, user: Id) returns (bill: Invoice)
    requires Fresh(db, id) && OpenRenewal(db, now, id, rental, user).Commit?
    requires OwnersKnown(db.users.Keys, db.rentals, db.invoices)
    ensures var lapsed := db.(reservations := LapseReservations(db.reservations, now, db.rentals[rental].listing));
            OpenRenewal(db, now, id, rental, user).db == lapsed.(invoices := lapsed.invoices[id := bill]) && Fresh(lapsed, id)
    ensures rental in db.rentals && bill.status == Open && bill.amount.Minor? && bill.rental == Some(rental)
    ensures var r := db.rentals[rental];
            r.status == Active && r.endsAt > now && r.user == user && bill.listing == r.listing && bill.user == r.user && r.user in db.users
  {
    var price := db.listings[db.rentals[rental].listing].price.value;
    bill := Invoice(Some(rental), db.rentals[rental].listing, user, Open, Minor(price.weeklyMinor, price.currency), now + HOLD_SECONDS);
  }

  lemma LapseKeeps(db: Db, now: int, listing: Id)
    requires Inv(db)
    ensures var after := db.(reservations := LapseReservations(db.reservations, now, listing)); Keeps(db, after) && Inv(after)
  {
    var after := db.(reservations := LapseReservations(db.reservations, now, listing));
    hide *;
    Still(db);
    LapsingRetires(db.reservations, now, listing);
    Subsided(db, after);
    SubsidedKeeps(db, after);
    Kept(db, after);
  }

  lemma OpenRenewalKeeps(db: Db, now: int, id: Id, rental: Id, user: Id)
    requires Inv(db) && Fresh(db, id)
    ensures Keeps(db, After(OpenRenewal(db, now, id, rental, user), db))
  {
    hide Inv, Evolves, Keeps, LapseReservations, OpenRenewal, Fresh, OwnersKnown;
    if OpenRenewal(db, now, id, rental, user).Rollback? {
      NothingDone(db);
    } else {
      Parts(db);
      var bill := RenewalForm(db, now, id, rental, user);
      var lapsed := db.(reservations := LapseReservations(db.reservations, now, db.rentals[rental].listing));
      LapseKeeps(db, now, db.rentals[rental].listing);
      RenewalKeeps(lapsed, id, bill);
      Joined(db, lapsed, OpenRenewal(db, now, id, rental, user).db);
    }
  }

  lemma OpenTargetKeeps(db: Db, now: int, id: Id, target: Target, user: Id)
    requires Inv(db) && Fresh(db, id)
    ensures Keeps(db, After(OpenTarget(db, now, id, target, user), db))
  {
    hide Inv, Evolves, Keeps, OpenHold, OpenRenewal, Fresh;
    match target
    case OfListing(listing) => OpenHoldKeeps(db, now, id, listing, user);
    case OfRental(rental) => OpenRenewalKeeps(db, now, id, rental, user);
  }

  /** The target has no open attempt that a request for it would find. */
  ghost predicate NoneOpen(db: Db, target: Target) {
    target.OfRental? ==> forall a :: !AsksFor(db.invoices, db.attempts, a, target.rental)
  }

  /** The new invoice is the first that anybody is asked to pay for its rental. */
  lemma FirstAsk(db: Db, now: int, id: Id, target: Target, user: Id)
    requires Fresh(db, id) && NoneOpen(db, target) && OpenTarget(db, now, id, target, user).Commit?
    requires InvoicesBound(db.rentals, db.invoices) && AttemptsBound(db.invoices, db.attempts)
    ensures var begun := OpenTarget(db, now, id, target, user).db;
            && id !in begun.attempts && id in begun.invoices && begun.invoices[id].rental.Some? && begun.invoices[id].amount.Minor?
            && begun.invoices[id].rental.value in begun.rentals
            && begun.invoices[id].status == Open && (forall a | a in begun.attempts :: begun.attempts[a].invoice != id)
            && forall a :: !AsksFor(begun.invoices, begun.attempts, a, begun.invoices[id].rental.value)
  {
    var begun := OpenTarget(db, now, id, target, user).db;
    assert forall a | a in db.attempts :: db.attempts[a].invoice != id;
    forall a ensures !AsksFor(begun.invoices, begun.attempts, a, begun.invoices[id].rental.value) {
      assert target.OfRental? ==> !AsksFor(db.invoices, db.attempts, a, target.rental);
    }
  }

  lemma BeginKeeps(db: Db, now: int, id: Id, target: Target, user: Id)
    requires Inv(db) && Fresh(db, id) && NoneOpen(db, target)
    ensures Keeps(db, After(BeginAttempt(OpenTarget(db, now, id, target, user), id), db))
    ensures BeginAttempt(OpenTarget(db, now, id, target, user), id).Commit? <==> OpenTarget(db, now, id, target, user).Commit?
  {
    hide Inv, Evolves, Keeps, OpenTarget, Fresh, InvoicesBound, AttemptsBound, NoneOpen, AsksFor;
    if OpenTarget(db, now, id, target, user).Rollback? {
      NothingDone(db);
    } else {
      var begun := OpenTarget(db, now, id, target, user).db;
      Parts(db);
      FirstAsk(db, now, id, target, user);
      OpenTargetKeeps(db, now, id, target, user);
      Kept(db, begun);
      AttemptKeeps(begun, id, id);
      Joined(db, begun, begun.(attempts := begun.attempts[id := Attempt(id, None, Creating)]));
    }
  }

  lemma AcquireKeeps(db: Db, now: int, id: Id, target: Target, user: Id)
    requires Inv(db) && Fresh(db, id)
    ensures Keeps(db, After(Acquire(db, now, id, target, user), db))
  {
    if exists a :: ExistingRow(db, now, target, user, a) {
      hide Inv, Evolves;
      NothingDone(db);
    } else if OpenTarget(db, now, id, target, user).Rollback? {
      hide Inv, Evolves, ExistingRow, Fresh, OpenTarget;
      NothingDone(db);
    } else {
      assert NoneOpen(db, target) by {
        hide Inv, Fresh;
        Parts(db);
        NoRowNoAsk(db, now, id, target, user);
      }
      hide Inv, Evolves, Keeps, ExistingRow, Fresh, OpenTarget, NoneOpen;
      BeginKeeps(db, now, id, target, user);
    }
  }

  lemma NoRowNoAsk(db: Db, now: int, id: Id, target: Target, user: Id)
    requires OpenTarget(db, now, id, target, user).Commit? && AttemptsBound(db.invoices, db.attempts)
    requires forall a :: !ExistingRow(db, now, target, user, a)
    ensures NoneOpen(db, target)
  {
    if target.OfRental? {
      forall a ensures !AsksFor(db.invoices, db.attempts, a, target.rental) {
        assert !ExistingRow(db, now, target, user, a);
      }
    }
  }

  // ---------- giving up a hold ----------

  /** The hold that a request carries names rows that belong together; every transaction preserves that. */
  ghost predicate Recorded(db: Db, hold: Hold, user: Id) {
    && hold.attempt in db.attempts && db.attempts[hold.attempt].invoice == hold.invoice && hold.invoice in db.invoices
    && db.invoices[hold.invoice].rental == Some(hold.rental) && db.invoices[hold.invoice].user == user
    && db.invoices[hold.invoice].listing == hold.listing && db.invoices[hold.invoice].amount == Minor(hold.amount, hold.currency)
    && hold.rental in db.rentals && (hold.renewal ==> db.rentals[hold.rental].status != Pending)
  }

  lemma RecordedStays(db: Db, after: Db, hold: Hold, user: Id)
    requires Recorded(db, hold, user) && Evolves(db, after)
    ensures Recorded(after, hold, user)
  {
  }

  lemma AttemptMoves(xs: map<Id, Attempt>, a: Id, status: AttemptStatus)
    requires a in xs && AttemptKept(xs[a], xs[a].(status := status)) && (LiveAttempt(xs[a].(status := status)) ==> LiveAttempt(xs[a]))
    ensures AttemptsMove(xs, xs[a := xs[a].(status := status)])
  {
  }

  lemma RentalCancels(rs: map<Id, Rental>, r: Id)
    requires r in rs && rs[r].status == Pending
    ensures RentalsRetire(rs, rs[r := rs[r].(status := Cancelled)])
  {
  }

  /** Voiding the open invoice of a rental voids no review. */
  lemma InvoiceVoids(bs: map<Id, Invoice>, i: Id, ps: map<Id, Payment>)
    requires i in bs && bs[i].status == Open && bs[i].rental.Some? && ReviewsOpen(bs, ps)
    ensures InvoicesVoided(bs, bs[i := bs[i].(status := Void)]) && NoReviewVoided(bs, bs[i := bs[i].(status := Void)], ps)
  {
  }

  lemma GiveUpKeeps(db: Db, attempt: Id, invoice: Id, rental: Option<Id>)
    requires Inv(db) && attempt in db.attempts && LiveAttempt(db.attempts[attempt])
    requires invoice in db.invoices && db.invoices[invoice].status == Open && db.invoices[invoice].rental.Some?
    requires rental.Some? ==> rental.value in db.rentals && db.rentals[rental.value].status == Pending
    ensures var after := db.(attempts := db.attempts[attempt := db.attempts[attempt].(status := Expired)],
                             invoices := db.invoices[invoice := db.invoices[invoice].(status := Void)],
                             rentals := if rental.None? then db.rentals
                                        else db.rentals[rental.value := db.rentals[rental.value].(status := Cancelled)]);
            Keeps(db, after) && Inv(after)
  {
    var after := db.(attempts := db.attempts[attempt := db.attempts[attempt].(status := Expired)],
                     invoices := db.invoices[invoice := db.invoices[invoice].(status := Void)],
                     rentals := if rental.None? then db.rentals
                                else db.rentals[rental.value := db.rentals[rental.value].(status := Cancelled)]);
    hide Inv, Evolves, Keeps, Subsides, RentalsRetire, ReservationsRetire, InvoicesVoided, AttemptsMove, PaymentsRestated;
    hide ActionsRestated, ReceiptsRestated, NoReviewVoided, AgreementStays, ReviewsOpen;
    Parts(db);
    Still(db);
    AttemptMoves(db.attempts, attempt, Expired);
    InvoiceVoids(db.invoices, invoice, db.payments);
    if rental.Some? {
      RentalCancels(db.rentals, rental.value);
    }
    Subsided(db, after);
    SubsidedKeeps(db, after);
    Kept(db, after);
  }

  /** Once its attempt is given up, nobody is asked to pay for the rental. */
  lemma GaveUpNoneOpen(db: Db, hold: Hold, user: Id)
    requires Recorded(db, hold, user) && OneAsk(db.invoices, db.attempts) && AttemptsDistinct(db.attempts)
    requires LiveAttempt(db.attempts[hold.attempt]) && db.invoices[hold.invoice].status == Open
    ensures forall a :: !AsksFor(GiveUp(db, hold).invoices, GiveUp(db, hold).attempts, a, hold.rental)
  {
    var freed := GiveUp(db, hold);
    forall a ensures !AsksFor(freed.invoices, freed.attempts, a, hold.rental) {
      if AsksFor(freed.invoices, freed.attempts, a, hold.rental) {
        assert AsksFor(db.invoices, db.attempts, a, hold.rental);
        assert AsksFor(db.invoices, db.attempts, hold.attempt, hold.rental);
      }
    }
  }

  lemma ReplaceKeeps(db: Db, now: int, id: Id, hold: Hold, user: Id)
    requires Inv(db) && Fresh(db, id) && Recorded(db, hold, user)
    ensures Keeps(db, After(Replace(db, now, id, hold, user), db))
  {
    hide Inv, Evolves, Keeps, OpenTarget, BeginAttempt, NoneOpen, GiveUp, Fresh, Recorded;
    if Replace(db, now, id, hold, user).Rollback? {
      NothingDone(db);
    } else {
      var freed := GiveUp(db, hold);
      var target := if hold.renewal then OfRental(hold.rental) else OfListing(hold.listing);
      GivenUpKeeps(db, id, hold, user);
      BeginKeeps(freed, now, id, target, user);
      KeepsTransitive(db, freed, After(BeginAttempt(OpenTarget(freed, now, id, target, user), id), freed));
    }
  }

  /** The three updates that give a hold up. */
  lemma GivenUpKeeps(db: Db, id: Id, hold: Hold, user: Id)
    requires Inv(db) && Fresh(db, id) && Recorded(db, hold, user)
    requires LiveAttempt(db.attempts[hold.attempt]) && db.invoices[hold.invoice].status == Open
    requires !hold.renewal ==> db.rentals[hold.rental].status == Pending
    ensures var freed := GiveUp(db, hold);
            && Keeps(db, freed) && Inv(freed) && Fresh(freed, id)
            && NoneOpen(freed, if hold.renewal then OfRental(hold.rental) else OfListing(hold.listing))
  {
    assert OneAsk(db.invoices, db.attempts) && AttemptsDistinct(db.attempts) by {
      hide *;
      Parts(db);
    }
    hide Inv, Evolves, Keeps, OneAsk, AttemptsDistinct, NoneOpen, AsksFor;
    GiveUpKeeps(db, hold.attempt, hold.invoice, if hold.renewal then None else Some(hold.rental));
    GaveUpNoneOpen(db, hold, user);
    ReplaceTarget(GiveUp(db, hold), if hold.renewal then OfRental(hold.rental) else OfListing(hold.listing));
  }

  lemma ReplaceTarget(db: Db, target: Target)
    requires target.OfRental? ==> forall a :: !AsksFor(db.invoices, db.attempts, a, target.rental)
    ensures NoneOpen(db, target)
  {
  }

  lemma SessionExpiredKeeps(db: Db, e: SessionEvent)
    requires Inv(db)
    ensures Keeps(db, After(SessionExpired(db, e), db))
  {
    hide Inv, Evolves, Keeps, AttemptsBound;
    if SessionExpired(db, e).Rollback? || db.attempts[e.attempt].status == Expired {
      NothingDone(db);
    } else {
      Parts(db);
      assert db.invoices[e.invoice].rental.Some? by { AttemptBilled(db, e.attempt); }
      var r := db.invoices[e.invoice].rental.value;
      GiveUpKeeps(db, e.attempt, e.invoice, if r in db.rentals && db.rentals[r].status == Pending then Some(r) else None);
    }
  }

  lemma AttemptBilled(db: Db, attempt: Id)
    requires AttemptsBound(db.invoices, db.attempts) && attempt in db.attempts
    ensures db.attempts[attempt].invoice in db.invoices && db.invoices[db.attempts[attempt].invoice].rental.Some?
            && db.invoices[db.attempts[attempt].invoice].amount.Minor?
  {
  }

  lemma MoveKeeps(db: Db, a: Id, status: AttemptStatus)
    requires Inv(db) && a in db.attempts && AttemptKept(db.attempts[a], db.attempts[a].(status := status))
    requires LiveAttempt(db.attempts[a].(status := status)) ==> LiveAttempt(db.attempts[a])
    ensures var after := db.(attempts := db.attempts[a := db.attempts[a].(status := status)]); Keeps(db, after) && Inv(after)
  {
    var after := db.(attempts := db.attempts[a := db.attempts[a].(status := status)]);
    hide *;
    Still(db);
    AttemptMoves(db.attempts, a, status);
    Subsided(db, after);
    SubsidedKeeps(db, after);
    Kept(db, after);
  }

  lemma MarkErroredKeeps(db: Db, attempt: Id)
    requires Inv(db)
    ensures Keeps(db, After(MarkErrored(db, attempt), db))
  {
    hide Inv, Evolves, Keeps;
    if attempt in db.attempts && db.attempts[attempt].status in {Creating, Errored} {
      MoveKeeps(db, attempt, Errored);
    } else {
      NothingDone(db);
    }
  }

  lemma PersistSessionKeeps(db: Db, attempt: Id, session: Id)
    requires Inv(db)
    ensures Keeps(db, After(PersistSession(db, attempt, session), db))
  {
    hide Inv, Evolves, PersistSession;
    PersistKeeps(db, attempt, session);
  }

  // ---------- settlement ----------

  function SettleCredit(db: Db, now: int, id: Id, invoice: Id, reference: Reference, amount: Amount): Credit
    requires Payable(db, now, invoice)
  {
    var i := db.invoices[invoice];
    Credit(i.rental.value, PaidWeek(db.rentals[i.rental.value], now), 1, invoice, i.(status := Paid),
           id, Payment(invoice, reference, amount, Confirmed),
           RedeemReservations(db.reservations, now, i.listing), db.receipts, Promote(db.users, i.user))
  }

  lemma SettleForm(db: Db, now: int, id: Id, invoice: Id, reference: Reference, amount: Amount)
    requires Fresh(db, id) && !reference.ByTerminal? && Settle(db, now, id, invoice, reference, amount).Commit?
    requires OwnersKnown(db.users.Keys, db.rentals, db.invoices) && InvoicesBound(db.rentals, db.invoices)
    requires forall a | a in db.attempts && db.attempts[a].invoice == invoice :: db.attempts[a].status == Completed
    ensures Payable(db, now, invoice)
    ensures var c := SettleCredit(db, now, id, invoice, reference, amount);
            Creditable(db, c) && Settle(db, now, id, invoice, reference, amount).db == Credited(db, c)
  {
    LapsingRetires(db.reservations, now, db.invoices[invoice].listing);
    hide ReservationsRetire, Unreserved, RedeemReservations, Vacant, UsedReference;
  }

  /** Settlement, of an invoice whose attempt, if it has one, is complete. */
  lemma SettleKeeps(db: Db, now: int, id: Id, invoice: Id, reference: Reference, amount: Amount)
    requires Inv(db) && Fresh(db, id) && !reference.ByTerminal?
    requires forall a | a in db.attempts && db.attempts[a].invoice == invoice :: db.attempts[a].status == Completed
    ensures Keeps(db, After(Settle(db, now, id, invoice, reference, amount), db))
  {
    hide Inv, Evolves, Settle, Fresh, Creditable, Credited, Payable, SettleCredit, OwnersKnown, InvoicesBound;
    hide RentalsKept, InvoicesKept, AttemptsKept, PaymentsKept, ActionsKept, ReceiptsKept, Extends;
    if Settle(db, now, id, invoice, reference, amount).Rollback? {
      NothingDone(db);
    } else {
      Parts(db);
      SettleForm(db, now, id, invoice, reference, amount);
      CreditKeeps(db, SettleCredit(db, now, id, invoice, reference, amount));
    }
  }

  /** Settlement does not look at attempts, so completing the attempt first makes no difference. */
  lemma SettleCommutes(db: Db, now: int, id: Id, invoice: Id, reference: Reference, amount: Amount, xs: map<Id, Attempt>)
    ensures var before, after := Settle(db, now, id, invoice, reference, amount), Settle(db.(attempts := xs), now, id, invoice, reference, amount);
            && (before.Commit? <==> after.Commit?)
            && (before.Commit? ==> after.db == before.db.(attempts := xs) && before.db.attempts == db.attempts)
  {
  }

  /** The invoice of an attempt has no other. */
  lemma CompletedAlone(db: Db, attempt: Id, invoice: Id)
    requires Inv(db) && attempt in db.attempts && db.attempts[attempt].invoice == invoice
    ensures var xs := db.attempts[attempt := db.attempts[attempt].(status := Completed)];
            forall a | a in xs && xs[a].invoice == invoice :: xs[a].status == Completed
  {
    hide *;
    Parts(db);
    OneAttempt(db.attempts, attempt);
  }

  /** Settlement together with the completion of the attempt that asked for it. */
  lemma SettleCompletedKeeps(db: Db, now: int, id: Id, attempt: Id, invoice: Id, reference: Reference, amount: Amount)
    requires Inv(db) && Fresh(db, id) && !reference.ByTerminal?
    requires attempt in db.attempts && db.attempts[attempt].invoice == invoice && db.attempts[attempt].status != Expired
    requires Settle(db, now, id, invoice, reference, amount).Commit?
    ensures var paid := Settle(db, now, id, invoice, reference, amount).db;
            Keeps(db, paid.(attempts := paid.attempts[attempt := db.attempts[attempt].(status := Completed)]))
  {
    var xs := db.attempts[attempt := db.attempts[attempt].(status := Completed)];
    var completed := db.(attempts := xs);
    hide Inv, Evolves, Keeps, Settle;
    MoveKeeps(db, attempt, Completed);
    CompletedAlone(db, attempt, invoice);
    SettleCommutes(db, now, id, invoice, reference, amount, xs);
    SettleKeeps(completed, now, id, invoice, reference, amount);
    KeepsTransitive(db, completed, Settle(completed, now, id, invoice, reference, amount).db);
  }

  lemma OneAttempt(xs: map<Id, Attempt>, attempt: Id)
    requires AttemptsDistinct(xs) && attempt in xs
    ensures forall a | a in xs && xs[a].invoice == xs[attempt].invoice :: a == attempt
  {
  }

  lemma SettleSimulatedKeeps(db: Db, now: int, id: Id, hold: Hold, user: Id)
    requires Inv(db) && Fresh(db, id) && Recorded(db, hold, user)
    ensures Keeps(db, After(SettleSimulated(db, now, id, hold), db))
  {
    var reference, amount := BySimulation(hold.attempt), Minor(hold.amount, hold.currency);
    SettleCommutes(db, now, id, hold.invoice, reference, amount, db.attempts);
    hide Inv, Evolves, Keeps, Settle, Fresh;
    if SettleSimulated(db, now, id, hold).Rollback? {
      NothingDone(db);
    } else {
      SettleCompletedKeeps(db, now, id, hold.attempt, hold.invoice, reference, amount);
    }
  }

  // ---------- Stripe events ----------

  /** The provider's session and intent belong together. */
  predicate Authentic(db: Db, e: SessionEvent) {
    e.session in db.intents && db.intents[e.session] == e.intent
  }

  function CompletedAttempts(attempts: map<Id, Attempt>, a: Id): map<Id, Attempt>
    requires a in attempts
  {
    attempts[a := attempts[a].(status := Completed)]
  }

  /** A paid session that does not throw has one of three effects. */
  lemma SessionPaidCases(db: Db, now: int, id: Id, e: SessionEvent)
    requires SessionPaid(db, now, id, e).Commit?
    ensures BoundSession(db, e) && db.attempts[e.attempt].status in {Presented, Completed} && e.amount.Minor?
    ensures var after := SessionPaid(db, now, id, e).db;
            if UsedReference(db.payments, ByIntent(e.intent)) then
              after == db.(attempts := CompletedAttempts(db.attempts, e.attempt))
            else if Payable(db, now, e.invoice) then
              var settled := Settle(db, now, id, e.invoice, ByIntent(e.intent), e.amount);
              settled.Commit? && after == settled.db.(attempts := CompletedAttempts(db.attempts, e.attempt))
            else
              && e.amount.minor > 0
              && after == db.(payments := db.payments[id := Payment(e.invoice, ByIntent(e.intent), e.amount, InReview)],
                              actions := db.actions[id := Action(id, e.session, e.intent, e.amount.minor, Queued, 0, now, None)])
  {
    hide Settle, Payable, UsedReference;
  }

  lemma SessionPaidKeeps(db: Db, now: int, id: Id, e: SessionEvent)
    requires Inv(db) && Fresh(db, id) && Authentic(db, e)
    ensures Keeps(db, After(SessionPaid(db, now, id, e), db))
  {
    SettleCommutes(db, now, id, e.invoice, ByIntent(e.intent), e.amount, db.attempts);
    hide Inv, Evolves, Keeps, Settle, Payable, AttemptsBound;
    if SessionPaid(db, now, id, e).Rollback? {
      NothingDone(db);
    } else if UsedReference(db.payments, ByIntent(e.intent)) {
      MoveKeeps(db, e.attempt, Completed);
    } else if Payable(db, now, e.invoice) {
      SettleCompletedKeeps(db, now, id, e.attempt, e.invoice, ByIntent(e.intent), e.amount);
    } else {
      Parts(db);
      AttemptBilled(db, e.attempt);
      LateKeeps(db, id, Payment(e.invoice, ByIntent(e.intent), e.amount, InReview),
                Action(id, e.session, e.intent, e.amount.minor, Queued, 0, now, None));
      Both(db, SessionPaid(db, now, id, e).db);
    }
  }

  lemma Both(db: Db, after: Db)
    requires Inv(after) && Evolves(db, after)
    ensures Keeps(db, after)
  {
    hide Inv, Evolves;
  }

  lemma PaymentRestates(ps: map<Id, Payment>, p: Id, status: PaymentStatus)
    requires p in ps && status != Confirmed
    requires (ps[p].reference.ByTerminal? ==> status == ps[p].status || ps[p].status == InReview)
    ensures PaymentsRestated(ps, ps[p := ps[p].(status := status)])
  {
  }

  /** Only card payments change, so no receipt is concerned. */
  lemma CardsRestated(ks: map<(Id, Id), Receipt>, ps: map<Id, Payment>, qs: map<Id, Payment>)
    requires PaymentsRestated(ps, qs) && forall p | p in ps && ps[p].reference.ByTerminal? :: qs[p] == ps[p]
    ensures AgreementStays(ks, ps, ks, qs)
  {
  }

  lemma ActionsMarked(xs: map<Id, Action>, p: Id, succeeded: bool)
    ensures ActionsRestated(xs, MarkActions(xs, p, succeeded))
  {
  }

  lemma RefundReportedKeeps(db: Db, found: Option<Id>, e: RefundEvent)
    requires Inv(db)
    ensures Keeps(db, After(RefundReported(db, found, e), db))
  {
    hide Inv, Evolves, Keeps, Subsides, RentalsRetire, ReservationsRetire, InvoicesVoided, AttemptsMove, PaymentsRestated;
    hide ActionsRestated, ReceiptsRestated, NoReviewVoided, AgreementStays, MarkActions, RecordRefund, CumulativeRefund;
    var after := After(RefundReported(db, found, e), db);
    if found.None? || RefundReported(db, found, e).Rollback? {
      NothingDone(db);
    } else {
      Still(db);
      PaymentRestates(db.payments, found.value, after.payments[found.value].status);
      ActionsMarked(db.actions, found.value, after.payments[found.value].status == Refunded);
      CardsRestated(db.receipts, db.payments, after.payments);
      Subsided(db, after);
      SubsidedKeeps(db, after);
    }
  }

  lemma DisputeRestates(db: Db, references: set<Id>)
    ensures var after := After(Disputed(db, references), db);
            after == db.(payments := after.payments) && PaymentsRestated(db.payments, after.payments)
            && forall p | p in db.payments && db.payments[p].reference.ByTerminal? :: after.payments[p] == db.payments[p]
  {
  }

  lemma DisputedKeeps(db: Db, references: set<Id>)
    requires Inv(db)
    ensures Keeps(db, After(Disputed(db, references), db))
  {
    var after := After(Disputed(db, references), db);
    hide *;
    DisputeRestates(db, references);
    CardsRestated(db.receipts, db.payments, after.payments);
    Still(db);
    Subsided(db, after);
    SubsidedKeeps(db, after);
  }

  // ---------- reservations ----------

  lemma ReserveForm(db: Db, wall: int, now: int, id: Id, actor: Id, q: Request) returns (row: Reservation)
    requires Fresh(db, id) && Reserve(db, wall, now, id, actor, q).Commit? && forall v :: !IsReplay(db, actor, q.key, v)
    ensures var clean := Clean(db, now, q.listing);
            && Reserve(db, wall, now, id, actor, q).db == clean.(reservations := clean.reservations[id := row])
            && id !in clean.reservations && Vacant(clean.rentals, row.listing)
            && (forall v | v in clean.reservations && clean.reservations[v].listing == row.listing :: clean.reservations[v].status != Reserved)
            && (forall v | v in clean.reservations :: clean.reservations[v].creator != row.creator || clean.reservations[v].key != row.key)
  {
    row := Reservation(q.listing, q.target, actor, q.key, q.fingerprint, Reserved, q.expiresAt);
    var clean := Clean(db, now, q.listing);
    CleanVacates(db, now, q.listing);
    CleanKeys(db, now, q.listing);
    forall v | v in clean.reservations ensures clean.reservations[v].creator != row.creator || clean.reservations[v].key != row.key {
      assert !IsReplay(db, actor, q.key, v);
      assert clean.reservations[v] == db.reservations[v].(status := clean.reservations[v].status);
    }
    hide Clean;
  }

  lemma ReserveKeeps(db: Db, wall: int, now: int, id: Id, actor: Id, q: Request)
    requires Inv(db) && Fresh(db, id)
    ensures Keeps(db, After(Reserve(db, wall, now, id, actor, q), db))
  {
    if Reserve(db, wall, now, id, actor, q).Rollback? || exists v :: IsReplay(db, actor, q.key, v) {
      hide Inv, Evolves;
      NothingDone(db);
    } else {
      hide Inv, Evolves, Keeps, Clean, Reserve, Vacant, Fresh;
      var row := ReserveForm(db, wall, now, id, actor, q);
      CleanKeeps(db, now, q.listing);
      ReservationKeeps(Clean(db, now, q.listing), id, row);
      Joined(db, Clean(db, now, q.listing), Reserve(db, wall, now, id, actor, q).db);
    }
  }

  lemma WithdrawKeeps(db: Db, actor: Id, reservation: Id)
    requires Inv(db)
    ensures Keeps(db, After(Withdraw(db, actor, reservation), db))
  {
    var after := After(Withdraw(db, actor, reservation), db);
    assert ReservationsRetire(db.reservations, after.reservations) by { hide Inv; }
    hide Inv, Evolves, Keeps, Subsides, RentalsRetire, ReservationsRetire, InvoicesVoided, AttemptsMove, PaymentsRestated;
    hide ActionsRestated, ReceiptsRestated, NoReviewVoided, AgreementStays;
    Still(db);
    Subsided(db, after);
    SubsidedKeeps(db, after);
  }

  // ---------- terminal payments ----------

  function BillOf(r: Id, lease: Rental, q: TerminalPayment, now: int): Invoice {
    Invoice(Some(r), lease.listing, lease.user, Paid, Linden(q.amount), now)
  }

  /** What a confirmed terminal payment writes, for the lease row it produces. */
  function TerminalCredit(db: Db, now: int, id: Id, q: TerminalPayment, r: Id, lease: Rental, weeks: nat,
                          ws: map<Id, Reservation>, users: map<Id, User>): Credit {
    Credit(r, lease, weeks, id, BillOf(r, lease, q, now),
           id, Payment(id, ByTerminal(q.terminal, q.event), Linden(q.amount), Confirmed), ws,
           db.receipts[(q.terminal, q.event) := Receipt(q.payer, q.amount, Confirmed, Some(id), q.body, q.amount)], users)
  }

  lemma TerminalCreditable(db: Db, now: int, id: Id, q: TerminalPayment, r: Id, lease: Rental, weeks: nat,
                           ws: map<Id, Reservation>, users: map<Id, User>)
    requires id !in db.invoices && id !in db.payments && (q.terminal, q.event) !in db.receipts
    requires AttemptsBound(db.invoices, db.attempts) && PaymentsBound(db.invoices, db.payments)
    requires ReceiptsBound(db.receipts, db.payments)
    requires LeaseRow(db.rentals, r, lease, weeks) && lease.user in db.users && users.Keys == db.users.Keys
    requires ReservationsRetire(db.reservations, ws) && Unreserved(ws, lease.listing)
    ensures Creditable(db, TerminalCredit(db, now, id, q, r, lease, weeks, ws, users))
  {
    hide LeaseRow, ReservationsRetire, Unreserved;
    NothingBilled(db, id);
    UnpaidReceipt(db, (q.terminal, q.event));
    hide PaymentsBound, ReceiptsBound, UsedReference;
  }

  lemma LengthenForm(db: Db, now: int, id: Id, q: TerminalPayment, r: Id, weeks: int)
    requires r in db.rentals && db.rentals[r].status == Active && weeks >= 1
    requires OwnersKnown(db.users.Keys, db.rentals, db.invoices) && Coupled(db.rentals, db.reservations)
    ensures var lease := db.rentals[r].(endsAt := db.rentals[r].endsAt + weeks * WEEK);
            && LeaseRow(db.rentals, r, lease, weeks) && lease.user in db.users && Unreserved(db.reservations, lease.listing)
            && Lengthen(db, now, id, q, r, weeks) == Credited(db, TerminalCredit(db, now, id, q, r, lease, weeks, db.reservations, db.users))
  {
  }

  lemma StartForm(db: Db, now: int, id: Id, q: TerminalPayment, listing: Id, user: Id, weeks: int)
    requires id !in db.rentals && Vacant(db.rentals, listing) && weeks >= 1
    ensures var lease := Rental(listing, user, Active, now, now + weeks * WEEK);
            && LeaseRow(db.rentals, id, lease, weeks)
            && StartLease(db, now, id, q, listing, user, weeks)
               == Credited(db, TerminalCredit(db, now, id, q, id, lease, weeks,
                                              RedeemReservations(db.reservations, now, listing), Promote(db.users, user)))
  {
    hide Vacant, RedeemReservations;
  }

  lemma LengthenKeeps(db: Db, now: int, id: Id, q: TerminalPayment, r: Id, weeks: int)
    requires Inv(db) && id !in db.invoices && id !in db.payments && (q.terminal, q.event) !in db.receipts
    requires r in db.rentals && db.rentals[r].status == Active && weeks >= 1
    ensures Keeps(db, Lengthen(db, now, id, q, r, weeks))
  {
    var lease := db.rentals[r].(endsAt := db.rentals[r].endsAt + weeks * WEEK);
    var after := Lengthen(db, now, id, q, r, weeks);
    hide *;
    Parts(db);
    Still(db);
    LengthenForm(db, now, id, q, r, weeks);
    TerminalCreditable(db, now, id, q, r, lease, weeks, db.reservations, db.users);
    CreditKeeps(db, TerminalCredit(db, now, id, q, r, lease, weeks, db.reservations, db.users));
    Both(db, after);
  }

  lemma StartLeaseKeeps(db: Db, now: int, id: Id, q: TerminalPayment, listing: Id, user: Id, weeks: int)
    requires Inv(db) && id !in db.rentals && id !in db.invoices && id !in db.payments
    requires (q.terminal, q.event) !in db.receipts
    requires Vacant(db.rentals, listing) && weeks >= 1 && user in db.users
    ensures Keeps(db, StartLease(db, now, id, q, listing, user, weeks))
  {
    var lease := Rental(listing, user, Active, now, now + weeks * WEEK);
    var after := StartLease(db, now, id, q, listing, user, weeks);
    hide *;
    Parts(db);
    StartForm(db, now, id, q, listing, user, weeks);
    LapsingRetires(db.reservations, now, listing);
    var ws, users := RedeemReservations(db.reservations, now, listing), Promote(db.users, user);
    TerminalCreditable(db, now, id, q, id, lease, weeks, ws, users);
    CreditKeeps(db, TerminalCredit(db, now, id, q, id, lease, weeks, ws, users));
    Both(db, after);
  }

  lemma ReviewPaymentKeeps(db: Db, now: int, id: Id, q: TerminalPayment, listing: Id, expected: int)
    requires Inv(db) && id !in db.invoices && id !in db.payments && (q.terminal, q.event) !in db.receipts
    ensures Keeps(db, ReviewPayment(db, now, id, q, listing, expected))
  {
    var k := (q.terminal, q.event);
    var after := ReviewPayment(db, now, id, q, listing, expected);
    hide Inv, Evolves, Keeps, IdentitiesDistinct;
    if q.payer in db.identities {
      Parts(db);
      PayerKnown(db, q.payer);
      ReviewKeeps(db, id, Invoice(None, listing, db.identities[q.payer], Open, Linden(expected), now),
                  Payment(id, ByTerminal(q.terminal, q.event), Linden(q.amount), InReview), k,
                  Receipt(q.payer, q.amount, InReview, Some(id), q.body, expected));
    } else {
      ReceiptKeeps(db, k, Receipt(q.payer, q.amount, InReview, None, q.body, expected));
    }
    Both(db, after);
  }

  lemma PayerKnown(db: Db, avatar: Id)
    requires IdentitiesDistinct(db.users.Keys, db.identities) && avatar in db.identities
    ensures db.identities[avatar] in db.users
  {
  }

  /** The terminal payment, past deduplication: cleanup, then one of three outcomes. */
  lemma PayForm(db: Db, now: int, id: Id, q: TerminalPayment)
    requires PayTerminal(db, now, id, q).Commit? && (q.terminal, q.event) !in db.receipts
    ensures q.terminal in db.terminals
    ensures var listing := db.terminals[q.terminal];
            var clean := Clean(db, now, listing);
            var after := PayTerminal(db, now, id, q).db;
            || (exists r, weeks | r in clean.rentals && clean.rentals[r].status == Active && weeks >= 1 ::
                  after == Lengthen(clean, now, id, q, r, weeks))
            || (exists user, weeks | weeks >= 1 && user in db.users && Vacant(clean.rentals, listing) ::
                  after == StartLease(clean, now, id, q, listing, user, weeks))
            || (exists expected :: after == ReviewPayment(clean, now, id, q, listing, expected))
  {
    hide Clean, Lengthen, StartLease, ReviewPayment, Vacant, ReservedAgainst;
  }

  lemma PayTerminalKeeps(db: Db, now: int, id: Id, q: TerminalPayment)
    requires Inv(db) && Fresh(db, id)
    ensures Keeps(db, After(PayTerminal(db, now, id, q), db))
  {
    assert id !in db.rentals && id !in db.invoices && id !in db.payments by { hide Inv; }
    hide Inv, Evolves, Keeps, Clean, Lengthen, StartLease, ReviewPayment, Vacant, Fresh, PayTerminal;
    if PayTerminal(db, now, id, q).Rollback? {
      NothingDone(db);
    } else if (q.terminal, q.event) in db.receipts {
      PayReplay(db, now, id, q);
      NothingDone(db);
    } else {
      PayForm(db, now, id, q);
      var listing := db.terminals[q.terminal];
      var clean := Clean(db, now, listing);
      var after := PayTerminal(db, now, id, q).db;
      CleanKeys(db, now, listing);
      CleanKeeps(db, now, listing);
      if r, weeks :| r in clean.rentals && clean.rentals[r].status == Active && weeks >= 1 && after == Lengthen(clean, now, id, q, r, weeks) {
        LengthenKeeps(clean, now, id, q, r, weeks);
      } else if user, weeks :| weeks >= 1 && user in db.users && Vacant(clean.rentals, listing)
                               && after == StartLease(clean, now, id, q, listing, user, weeks) {
        StartLeaseKeeps(clean, now, id, q, listing, user, weeks);
      } else {
        var expected :| after == ReviewPayment(clean, now, id, q, listing, expected);
        ReviewPaymentKeeps(clean, now, id, q, listing, expected);
      }
      KeepsTransitive(db, clean, after);
    }
  }

  /** A repeated terminal event changes nothing and is answered with the recorded status. */
  lemma PayReplay(db: Db, now: int, id: Id, q: TerminalPayment)
    requires (q.terminal, q.event) in db.receipts
    ensures After(PayTerminal(db, now, id, q), db) == db
    ensures PayTerminal(db, now, id, q).Commit? ==> PayTerminal(db, now, id, q).value == db.receipts[(q.terminal, q.event)].status
  {
    hide Clean, Lengthen, StartLease, ReviewPayment;
  }

  // ---------- reconciliation ----------

  /** What an approval writes: the payment's own invoice is bound to the lease row it produces. */
  function ApprovalCredit(db: Db, payment: Id, r: Id, lease: Rental, ws: map<Id, Reservation>, users: map<Id, User>): Credit
    requires payment in db.payments && db.payments[payment].invoice in db.invoices
  {
    var invoice := db.payments[payment].invoice;
    Credit(r, lease, 1, invoice, db.invoices[invoice].(rental := Some(r), status := Paid),
           payment, db.payments[payment].(status := Confirmed), ws, SettleReceipts(db.receipts, payment, Confirmed), users)
  }

  lemma ApprovalCreditable(db: Db, payment: Id, r: Id, lease: Rental, ws: map<Id, Reservation>, users: map<Id, User>)
    requires payment in db.payments && db.payments[payment].invoice in db.invoices
    requires db.payments[payment].status == InReview && db.payments[payment].reference.ByTerminal?
    requires AttemptsBound(db.invoices, db.attempts) && PaymentsBound(db.invoices, db.payments)
    requires ReviewsOpen(db.invoices, db.payments)
    requires LeaseRow(db.rentals, r, lease, 1) && lease.user in db.users && users.Keys == db.users.Keys
    requires db.invoices[db.payments[payment].invoice].listing == lease.listing
    requires db.invoices[db.payments[payment].invoice].user == lease.user
    requires ReservationsRetire(db.reservations, ws) && Unreserved(ws, lease.listing)
    ensures Creditable(db, ApprovalCredit(db, payment, r, lease, ws, users))
  {
    hide LeaseRow, ReservationsRetire, Unreserved, SettleReceipts;
  }

  lemma ApproveStartForm(db: Db, now: int, id: Id, payment: Id)
    requires ApproveStart(db, now, id, payment).Commit? && id !in db.rentals
    requires ReviewsOpen(db.invoices, db.payments) && OwnersKnown(db.users.Keys, db.rentals, db.invoices)
    ensures payment in db.payments && db.payments[payment].invoice in db.invoices
    ensures db.payments[payment].status == InReview && db.payments[payment].reference.ByTerminal?
    ensures var i := db.invoices[db.payments[payment].invoice];
            var clean := Clean(db, now, i.listing);
            var lease := Rental(i.listing, i.user, Active, now, now + WEEK);
            && LeaseRow(clean.rentals, id, lease, 1) && i.user in db.users
            && db.payments[payment].invoice in clean.invoices && clean.invoices[db.payments[payment].invoice] == i
            && payment in clean.payments && clean.payments[payment] == db.payments[payment]
            && ApproveStart(db, now, id, payment).db
               == Credited(clean, ApprovalCredit(clean, payment, id, lease, RedeemReservations(clean.reservations, now, i.listing), Promote(clean.users, i.user)))
  {
    var i := db.invoices[db.payments[payment].invoice];
    CleanKeys(db, now, i.listing);
    CleanSpares(db, now, i.listing, db.payments[payment].invoice);
    hide Clean, Vacant, RedeemReservations, SettleReceipts, Reviewable, ReviewsOpen, OwnersKnown;
    assert Reviewable(db, payment);
    ReviewableParts(db, payment);
  }

  lemma ReviewableParts(db: Db, payment: Id)
    requires Reviewable(db, payment)
    ensures payment in db.payments && db.payments[payment].invoice in db.invoices && db.payments[payment].status == InReview
  {
  }

  /** Cleanup leaves an invoice alone that is bound to no rental. */
  lemma CleanSpares(db: Db, now: int, listing: Id, invoice: Id)
    requires invoice in db.invoices && db.invoices[invoice].rental.None?
    ensures invoice in Clean(db, now, listing).invoices && Clean(db, now, listing).invoices[invoice] == db.invoices[invoice]
  {
  }

  lemma ApproveStartKeeps(db: Db, now: int, id: Id, payment: Id)
    requires Inv(db) && Fresh(db, id)
    ensures Keeps(db, After(ApproveStart(db, now, id, payment), db))
  {
    assert id !in db.rentals by { hide Inv; }
    hide *;
    if ApproveStart(db, now, id, payment).Rollback? {
      Unchanged(ApproveStart(db, now, id, payment), db);
      NothingDone(db);
    } else {
      Parts(db);
      ApproveStartForm(db, now, id, payment);
      var i := db.invoices[db.payments[payment].invoice];
      var clean := Clean(db, now, i.listing);
      var lease := Rental(i.listing, i.user, Active, now, now + WEEK);
      var ws, users := RedeemReservations(clean.reservations, now, i.listing), Promote(clean.users, i.user);
      CleanKeys(db, now, i.listing);
      CleanKeeps(db, now, i.listing);
      Parts(clean);
      LapsingRetires(clean.reservations, now, i.listing);
      ApprovalCreditable(clean, payment, id, lease, ws, users);
      CreditKeeps(clean, ApprovalCredit(clean, payment, id, lease, ws, users));
      Unchanged(ApproveStart(db, now, id, payment), db);
      Joined(db, clean, ApproveStart(db, now, id, payment).db);
    }
  }

  lemma Unchanged<T>(o: Outcome<T>, db: Db)
    ensures o.Rollback? ==> After(o, db) == db
    ensures o.Commit? ==> After(o, db) == o.db
  {
  }

  lemma ApproveExtensionForm(db: Db, now: int, payment: Id) returns (r: Id)
    requires ApproveExtension(db, now, payment).Commit?
    requires ReviewsOpen(db.invoices, db.payments) && OwnersKnown(db.users.Keys, db.rentals, db.invoices)
    requires Coupled(db.rentals, db.reservations)
    ensures payment in db.payments && db.payments[payment].invoice in db.invoices
    ensures db.payments[payment].status == InReview && db.payments[payment].reference.ByTerminal?
    ensures r in db.rentals
    ensures var i := db.invoices[db.payments[payment].invoice];
            var lease := db.rentals[r].(endsAt := db.rentals[r].endsAt + WEEK);
            var ws := LapseReservations(db.reservations, now, i.listing);
            && LeaseRow(db.rentals, r, lease, 1) && i.user in db.users && lease.user == i.user && lease.listing == i.listing
            && Unreserved(ws, i.listing)
            && ApproveExtension(db, now, payment).db == Credited(db, ApprovalCredit(db, payment, r, lease, ws, Promote(db.users, i.user)))
  {
    var i := db.invoices[db.payments[payment].invoice];
    r := LeaseOf(db.rentals, now, i.listing, i.user);
    hide ReviewsOpen, SettleReceipts;
  }

  lemma ApproveExtensionKeeps(db: Db, now: int, payment: Id)
    requires Inv(db)
    ensures Keeps(db, After(ApproveExtension(db, now, payment), db))
  {
    hide *;
    Unchanged(ApproveExtension(db, now, payment), db);
    if ApproveExtension(db, now, payment).Rollback? {
      NothingDone(db);
    } else {
      Parts(db);
      var r := ApproveExtensionForm(db, now, payment);
      var i := db.invoices[db.payments[payment].invoice];
      var lease := db.rentals[r].(endsAt := db.rentals[r].endsAt + WEEK);
      var ws, users := LapseReservations(db.reservations, now, i.listing), Promote(db.users, i.user);
      LapsingRetires(db.reservations, now, i.listing);
      ApprovalCreditable(db, payment, r, lease, ws, users);
      CreditKeeps(db, ApprovalCredit(db, payment, r, lease, ws, users));
      Both(db, ApproveExtension(db, now, payment).db);
    }
  }

  /** The payment and its receipt are rejected together, and the invoice, if open, is void. */
  lemma RejectForm(db: Db, payment: Id)
    requires RejectPayment(db, payment).Commit?
    requires ReviewsOpen(db.invoices, db.payments) && ReceiptsBound(db.receipts, db.payments)
    requires ReceiptsAgree(db.receipts, db.payments)
    ensures var after := RejectPayment(db, payment).db;
            && after == db.(payments := after.payments, invoices := after.invoices, receipts := after.receipts)
            && PaymentsRestated(db.payments, after.payments) && InvoicesVoided(db.invoices, after.invoices)
            && NoReviewVoided(db.invoices, after.invoices, after.payments)
            && ReceiptsRestated(db.receipts, after.receipts)
            && AgreementStays(db.receipts, db.payments, after.receipts, after.payments)
  {
    var rejected := db.payments[payment := db.payments[payment].(status := Rejected)];
    RejectedPayment(db.payments, payment, rejected);
    RejectedBill(db.invoices, db.payments, payment, rejected);
    RejectedReceipts(db.receipts, db.payments, payment, rejected);
    hide SettleReceipts, ReviewsOpen, ReceiptsBound, ReceiptsAgree, PaymentsRestated, InvoicesVoided, NoReviewVoided;
    hide ReceiptsRestated, AgreementStays;
  }

  lemma RejectedPayment(ps: map<Id, Payment>, p: Id, rejected: map<Id, Payment>)
    requires p in ps && ps[p].status == InReview && rejected == ps[p := ps[p].(status := Rejected)]
    ensures PaymentsRestated(ps, rejected)
  {
  }

  lemma RejectedBill(bs: map<Id, Invoice>, ps: map<Id, Payment>, p: Id, rejected: map<Id, Payment>)
    requires p in ps && ps[p].status == InReview && ps[p].invoice in bs && rejected == ps[p := ps[p].(status := Rejected)]
    requires ReviewsOpen(bs, ps)
    ensures var i := ps[p].invoice;
            var after := if bs[i].status == Open then bs[i := bs[i].(status := Void)] else bs;
            InvoicesVoided(bs, after) && NoReviewVoided(bs, after, rejected)
  {
  }

  lemma RejectedReceipts(ks: map<(Id, Id), Receipt>, ps: map<Id, Payment>, p: Id, rejected: map<Id, Payment>)
    requires p in ps && ps[p].status == InReview && rejected == ps[p := ps[p].(status := Rejected)]
    requires ReceiptsBound(ks, ps) && ReceiptsAgree(ks, ps)
    ensures ReceiptsRestated(ks, SettleReceipts(ks, p, Rejected)) && AgreementStays(ks, ps, SettleReceipts(ks, p, Rejected), rejected)
  {
  }

  lemma RejectPaymentKeeps(db: Db, payment: Id)
    requires Inv(db)
    ensures Keeps(db, After(RejectPayment(db, payment), db))
  {
    hide *;
    Unchanged(RejectPayment(db, payment), db);
    if RejectPayment(db, payment).Rollback? {
      NothingDone(db);
    } else {
      Parts(db);
      RejectForm(db, payment);
      Still(db);
      Subsided(db, RejectPayment(db, payment).db);
      SubsidedKeeps(db, RejectPayment(db, payment).db);
    }
  }

  lemma RestateKeeps(db: Db, p: Id, status: PaymentStatus, actions: map<Id, Action>)
    requires Inv(db) && p in db.payments && status != Confirmed && !db.payments[p].reference.ByTerminal?
    requires ActionsRestated(db.actions, actions)
    ensures Keeps(db, db.(payments := db.payments[p := db.payments[p].(status := status)], actions := actions))
  {
    hide *;
    PaymentRestates(db.payments, p, status);
    CardsRestated(db.receipts, db.payments, db.payments[p := db.payments[p].(status := status)]);
    RestatedKeeps(db, db.payments[p := db.payments[p].(status := status)], actions);
  }

  lemma RestatedKeeps(db: Db, payments: map<Id, Payment>, actions: map<Id, Action>)
    requires PaymentsRestated(db.payments, payments) && ActionsRestated(db.actions, actions)
    requires AgreementStays(db.receipts, db.payments, db.receipts, payments)
    requires Inv(db)
    ensures Keeps(db, db.(payments := payments, actions := actions))
  {
    hide *;
    var after := db.(payments := payments, actions := actions);
    Still(db);
    Subsided(db, after);
    SubsidedKeeps(db, after);
  }

  lemma ResolvePaymentKeeps(db: Db, payment: Id)
    requires Inv(db)
    ensures Keeps(db, After(ResolvePayment(db, payment), db))
  {
    hide Inv, Evolves, Keeps, ActionsRestated;
    if ResolvePayment(db, payment).Rollback? {
      NothingDone(db);
    } else {
      Still(db);
      RestateKeeps(db, payment, Rejected, db.actions);
    }
  }

  lemma ResolveIdentityKeeps(db: Db, now: int, id: Id, terminal: Id, event: Id)
    requires Inv(db) && Fresh(db, id)
    ensures Keeps(db, After(ResolveIdentity(db, now, id, terminal, event), db))
  {
    hide Inv, Evolves, Keeps;
    if ResolveIdentity(db, now, id, terminal, event).Rollback? {
      NothingDone(db);
    } else {
      var q := db.receipts[(terminal, event)];
      var named := db.(users := db.users[id := User(Resident, true)], identities := db.identities[q.payer := id]);
      UserKeeps(db, id, User(Resident, true), q.payer);
      ReviewKeeps(named, id, Invoice(None, db.terminals[terminal], id, Open, Linden(q.expected), now),
                  Payment(id, ByTerminal(terminal, event), Linden(q.amount), InReview), (terminal, event), q.(payment := Some(id)));
      Both(db, named);
      Joined(db, named, ResolveIdentity(db, now, id, terminal, event).db);
    }
  }

  lemma ReceiptRejects(ks: map<(Id, Id), Receipt>, ps: map<Id, Payment>, k: (Id, Id))
    requires k in ks && ks[k].status == InReview && ks[k].payment.None?
    ensures ReceiptsRestated(ks, ks[k := ks[k].(status := Rejected)])
    ensures AgreementStays(ks, ps, ks[k := ks[k].(status := Rejected)], ps)
  {
  }

  lemma RejectReceiptKeeps(db: Db, terminal: Id, event: Id)
    requires Inv(db)
    ensures Keeps(db, After(RejectReceipt(db, terminal, event), db))
  {
    hide Inv, Evolves, Keeps, Subsides, RentalsRetire, ReservationsRetire, InvoicesVoided, AttemptsMove, PaymentsRestated;
    hide ActionsRestated, ReceiptsRestated, NoReviewVoided, AgreementStays;
    if RejectReceipt(db, terminal, event).Rollback? {
      NothingDone(db);
    } else {
      Still(db);
      ReceiptRejects(db.receipts, db.payments, (terminal, event));
      Subsided(db, RejectReceipt(db, terminal, event).db);
      SubsidedKeeps(db, RejectReceipt(db, terminal, event).db);
    }
  }

  // ---------- administration ----------

  lemma ActivateForm(db: Db, now: int, id: Id, invoice: Id, weeks: int)
    requires Activate(db, now, id, invoice, weeks).Commit? && id !in db.rentals && 1 <= weeks
    ensures invoice in db.invoices && db.invoices[invoice].status == Paid && db.invoices[invoice].rental.None?
    ensures var i := db.invoices[invoice];
            var lease := Rental(i.listing, i.user, Active, now, now + weeks * WEEK);
            && LeaseRow(db.rentals, id, lease, weeks) && i.user in db.users
            && Activate(db, now, id, invoice, weeks).db
               == db.(users := Promote(db.users, i.user), rentals := db.rentals[id := lease],
                      reservations := RedeemReservations(db.reservations, now, i.listing),
                      invoices := db.invoices[invoice := i.(rental := Some(id))],
                      ledger := Posted(Entry(id, ByActivation, weeks, 0, 0), db.ledger))
  {
    hide Vacant, RedeemReservations, Promote;
  }

  lemma ActivateKeeps(db: Db, now: int, id: Id, invoice: Id, weeks: int)
    requires Inv(db) && Fresh(db, id)
    ensures Keeps(db, After(Activate(db, now, id, invoice, weeks), db))
  {
    assert id !in db.rentals by { hide Inv; }
    assert Activate(db, now, id, invoice, weeks).Commit? ==> weeks >= 1 by { hide Inv; }
    hide *;
    Unchanged(Activate(db, now, id, invoice, weeks), db);
    if Activate(db, now, id, invoice, weeks).Rollback? {
      NothingDone(db);
    } else {
      ActivateForm(db, now, id, invoice, weeks);
      var i := db.invoices[invoice];
      LapsingRetires(db.reservations, now, i.listing);
      ActivationKeeps(db, id, Rental(i.listing, i.user, Active, now, now + weeks * WEEK), weeks, invoice,
                      RedeemReservations(db.reservations, now, i.listing), Promote(db.users, i.user));
      Both(db, Activate(db, now, id, invoice, weeks).db);
    }
  }

  lemma ExtendLeaseKeeps(db: Db, now: int, rental: Id, weeks: int)
    requires Inv(db)
    ensures Keeps(db, After(ExtendLease(db, now, rental, weeks), db))
  {
    hide Inv, Evolves, Keeps;
    if ExtendLease(db, now, rental, weeks).Rollback? {
      NothingDone(db);
    } else {
      var r := db.rentals[rental];
      ExtensionKeeps(db, rental, Max(r.endsAt, now) + weeks * WEEK, weeks, Max(r.endsAt, now) - r.endsAt);
      Both(db, ExtendLease(db, now, rental, weeks).db);
    }
  }

  lemma EndLeaseKeeps(db: Db, now: int, rental: Id)
    requires Inv(db)
    ensures Keeps(db, After(EndLease(db, now, rental), db))
  {
    hide Inv, Evolves, Keeps;
    if EndLease(db, now, rental).Rollback? {
      NothingDone(db);
    } else {
      EndingKeeps(db, rental, Min(db.rentals[rental].endsAt, now));
      Both(db, EndLease(db, now, rental).db);
    }
  }

  /** Changing what users are, but not which exist, touches no invariant. */
  lemma UsersKeep(db: Db, users: map<Id, User>)
    requires Inv(db) && users.Keys == db.users.Keys
    ensures Keeps(db, db.(users := users))
  {
    hide *;
    Still(db);
    Subsided(db, db.(users := users));
    SubsidedKeeps(db, db.(users := users));
  }

  lemma ChangeRoleKeeps(db: Db, now: int, actor: Id, target: Id, role: Role)
    requires Inv(db)
    ensures Keeps(db, After(ChangeRole(db, now, actor, target, role), db))
  {
    hide Inv, Evolves, Keeps, RentsNow, ActiveAdministrators;
    var after := After(ChangeRole(db, now, actor, target, role), db);
    assert after == db.(users := after.users) && after.users.Keys == db.users.Keys;
    UsersKeep(db, after.users);
  }

  // ---------- refund actions ----------

  lemma ActionRestates(xs: map<Id, Action>, a: Id, row: Action)
    requires a in xs && ActionKept(xs[a], row)
    ensures ActionsRestated(xs, xs[a := row])
  {
  }

  lemma ActionKeeps(db: Db, a: Id, row: Action)
    requires Inv(db) && a in db.actions && ActionKept(db.actions[a], row)
    ensures Keeps(db, db.(actions := db.actions[a := row]))
  {
    var after := db.(actions := db.actions[a := row]);
    hide *;
    Still(db);
    ActionRestates(db.actions, a, row);
    Subsided(db, after);
    SubsidedKeeps(db, after);
  }

  /** A claim changes the row of a due action, and nothing otherwise. */
  lemma ClaimForm(db: Db, now: int, action: Id)
    ensures var claimed := ClaimRefund(db, now, action);
            && claimed.Commit? && After(claimed, db) == claimed.db
            && if action in db.actions && Due(db.actions[action], now) then
                 && claimed.db == db.(actions := db.actions[action := ClaimedRow(db.actions[action], now)])
                 && claimed.value == ClaimOn(action, db.actions[action])
               else claimed.db == db && claimed.value.None?
  {
    hide Due, ClaimedRow, ClaimOn;
  }

  lemma ClaimRefundKeeps(db: Db, now: int, action: Id)
    requires Inv(db)
    ensures Keeps(db, After(ClaimRefund(db, now, action), db))
  {
    hide Inv, Evolves, Keeps;
    if action in db.actions && Due(db.actions[action], now) {
      ActionKeeps(db, action, After(ClaimRefund(db, now, action), db).actions[action]);
    } else {
      NothingDone(db);
    }
  }

  /** The claim names the action's own payment. */
  predicate Taken(db: Db, c: Claim) {
    && c.action in db.actions && c.payment == db.actions[c.action].payment && c.intent == db.actions[c.action].intent
    && c.amount == db.actions[c.action].amount && c.key == db.actions[c.action].key
  }

  lemma CompleteRefundKeeps(db: Db, now: int, c: Claim, succeeded: bool)
    requires Inv(db) && Taken(db, c)
    ensures Keeps(db, After(CompleteRefund(db, now, c, succeeded), db))
  {
    hide Inv, Evolves, Keeps, ActionsRestated, ActionsMatch;
    if CompleteRefund(db, now, c, succeeded).Rollback? {
      NothingDone(db);
    } else {
      var after := CompleteRefund(db, now, c, succeeded).db;
      Parts(db);
      ActionPays(db, c.action);
      ActionRestates(db.actions, c.action, after.actions[c.action]);
      RestateKeeps(db, c.payment, if succeeded then Refunded else InReview, after.actions);
    }
  }

  lemma ActionPays(db: Db, a: Id)
    requires ActionsMatch(db.actions, db.payments, db.intents) && a in db.actions
    ensures db.actions[a].payment in db.payments && db.payments[db.actions[a].payment].reference == ByIntent(db.actions[a].intent)
    ensures db.payments[db.actions[a].payment].amount.Minor? && db.payments[db.actions[a].payment].amount.minor == db.actions[a].amount
  {
  }

  lemma FailRefundKeeps(db: Db, now: int, action: Id)
    requires Inv(db)
    ensures Keeps(db, After(FailRefund(db, now, action), db))
  {
    hide Inv, Evolves, Keeps;
    if action in db.actions && db.actions[action].state == Processing {
      ActionKeeps(db, action, After(FailRefund(db, now, action), db).actions[action]);
    } else {
      NothingDone(db);
    }
  }

  lemma RetryRefundKeeps(db: Db, now: int, action: Id)
    requires Inv(db)
    ensures Keeps(db, After(RetryRefund(db, now, action), db))
  {
    hide Inv, Evolves, Keeps;
    if action in db.actions && db.actions[action].state in {Failing, NeedsOperator} {
      ActionKeeps(db, action, After(RetryRefund(db, now, action), db).actions[action]);
    } else {
      NothingDone(db);
    }
  }

  lemma ResolveRefundKeeps(db: Db, action: Id)
    requires Inv(db)
    ensures Keeps(db, After(ResolveRefund(db, action), db))
  {
    hide Inv, Evolves, Keeps;
    if action in db.actions && db.actions[action].state in {Failing, NeedsOperator} {
      ActionKeeps(db, action, After(ResolveRefund(db, action), db).actions[action]);
    } else {
      NothingDone(db);
    }
  }
}
