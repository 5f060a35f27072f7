/** What staff's decisions come to, row by row: when each commits, every row that it writes, and that it writes no other.
    Nothing here is said through the helpers of the specification. */
module DeskEffects {
  import opened Tables
  import opened Allocation
  import opened Invariants
  import opened CheckoutEffects

  // ---------- payments under review ----------

  /** A payment is open to a decision while it is under review, its bill exists, and no refund of it is left unresolved. */
  lemma ReviewableIff(db: Db, p: Id)
    ensures Reviewable(db, p) <==>
              && p in db.payments && db.payments[p].status == InReview && db.payments[p].invoice in db.invoices
              && !exists a :: a in db.actions && db.actions[a].payment == p && db.actions[a].state != Resolved
  {
  }

  /** The records of a payment's event take its status; no other record changes. */
  lemma RecordsMean(receipts: map<(Id, Id), Receipt>, p: Id, status: PaymentStatus)
    ensures var after := SettleReceipts(receipts, p, status);
            && after.Keys == receipts.Keys
            && forall k | k in receipts ::
                 after[k] == receipts[k].(status := if receipts[k].payment == Some(p) then status else receipts[k].status)
  {
  }

  /** APPROVE as START: a terminal's payment of a user who may rent, on a listing that cleanup leaves without a hold or lease
      and that nobody else has reserved.  One week from now, credited to the payment, which is CONFIRMED with its record; its
      bill is PAID and bound to the lease; the payer is a renter; and what was reserved there is used up. */
  lemma StartApproved(db: Db, now: int, id: Id, p: Id)
    ensures Reviewable(db, p) ==> p in db.payments && db.payments[p].invoice in db.invoices
    ensures var approved := ApproveStart(db, now, id, p);
            && (approved.Commit? <==>
                  && Reviewable(db, p) && db.payments[p].reference.ByTerminal?
                  && var i := db.invoices[db.payments[p].invoice];
                  && Eligible(db.users, i.user) && Vacant(Clean(db, now, i.listing).rentals, i.listing)
                  && !ReservedAgainst(db.reservations, now, i.listing, i.user))
    ensures ApproveStart(db, now, id, p).Commit? ==>
              var bill := db.payments[p].invoice;
              var i := db.invoices[bill];
              var clean := Clean(db, now, i.listing);
              && p in clean.payments && i.user in clean.users
              && ApproveStart(db, now, id, p).db
                 == clean.(users := clean.users[i.user := AsTenant(clean.users[i.user])],
                           rentals := clean.rentals[id := Rental(i.listing, i.user, Active, now, now + 604800)],
                           reservations := RedeemReservations(clean.reservations, now, i.listing),
                           invoices := clean.invoices[bill := i.(rental := Some(id), status := Paid)],
                           payments := clean.payments[p := db.payments[p].(status := Confirmed)],
                           receipts := SettleReceipts(clean.receipts, p, Confirmed),
                           ledger := Posted(Entry(id, ByPayment(p), 1, 0, 0), clean.ledger))
  {
    assert Reviewable(db, p) ==> p in db.payments && db.payments[p].invoice in db.invoices;
    if ApproveStart(db, now, id, p).Commit? {
      var i := db.invoices[db.payments[p].invoice];
      CleanedUsers(db, now, i.listing);
      MayRentIff(db.users, i.user);
      PromotionMeans(Clean(db, now, i.listing).users, i.user);
    }
    hide Clean, Reviewable, Vacant, ReservedAgainst, RedeemReservations, SettleReceipts, Promote, Eligible;
  }

  lemma CleanedUsers(db: Db, now: int, listing: Id)
    ensures Clean(db, now, listing).users == db.users && Clean(db, now, listing).payments == db.payments
  {
    hide CancelOverdue, EndLapsed, ExpireOverdueAttempts, VoidOverdueInvoices, LapseReservations;
  }

  /** The billed user may rent, and the rental is that user's running lease on the listing. */
  predicate Owns(db: Db, now: int, p: Id, r: Id) {
    && p in db.payments && db.payments[p].invoice in db.invoices
    && var i := db.invoices[db.payments[p].invoice];
    && Eligible(db.users, i.user) && r in db.rentals && db.rentals[r].user == i.user && db.rentals[r].listing == i.listing
    && db.rentals[r].status == Active && now < db.rentals[r].endsAt
  }

  lemma OneOwned(rentals: map<Id, Rental>, now: int, listing: Id, user: Id, r: Id, s: Id)
    requires OneLiveRental(rentals) && OwnLease(rentals, now, listing, user, r) && OwnLease(rentals, now, listing, user, s)
    ensures r == s
  {
  }

  /** APPROVE as EXTENSION needs a terminal's payment of a user who may rent and owns a running lease on the listing. */
  lemma ExtensionNeeds(db: Db, now: int, p: Id)
    ensures ApproveExtension(db, now, p).Commit? ==>
              Reviewable(db, p) && db.payments[p].reference.ByTerminal? && exists r :: Owns(db, now, p, r)
  {
    if ApproveExtension(db, now, p).Commit? {
      var i := db.invoices[db.payments[p].invoice];
      var r :| OwnLease(db.rentals, now, i.listing, i.user, r);
      assert Owns(db, now, p, r);
    }
    hide Reviewable, LapseReservations, SettleReceipts, Promote, Eligible;
  }

  /** And then that lease is longer by one week, credited to the payment; payment, record, bill and payer are as above; only late
      reservations lapse. */
  lemma ExtensionApproved(db: Db, now: int, p: Id, r: Id)
    requires OneLiveRental(db.rentals) && Reviewable(db, p) && db.payments[p].reference.ByTerminal? && Owns(db, now, p, r)
    ensures var bill := db.payments[p].invoice;
            var i := db.invoices[bill];
            && i.user in db.users
            && ApproveExtension(db, now, p)
               == Commit(db.(
                    users := db.users[i.user := AsTenant(db.users[i.user])],
                    rentals := db.rentals[r := db.rentals[r].(endsAt := db.rentals[r].endsAt + 604800)],
                    reservations := LapseReservations(db.reservations, now, i.listing),
                    invoices := db.invoices[bill := i.(rental := Some(r), status := Paid)],
                    payments := db.payments[p := db.payments[p].(status := Confirmed)],
                    receipts := SettleReceipts(db.receipts, p, Confirmed),
                    ledger := Posted(Entry(r, ByPayment(p), 1, 0, 0), db.ledger)), ())
  {
    var i := db.invoices[db.payments[p].invoice];
    assert OwnLease(db.rentals, now, i.listing, i.user, r);
    OneOwned(db.rentals, now, i.listing, i.user, r, LeaseOf(db.rentals, now, i.listing, i.user));
    MayRentIff(db.users, i.user);
    PromotionMeans(db.users, i.user);
    hide Reviewable, LapseReservations, SettleReceipts, Promote, Eligible, OneLiveRental, OwnLease;
  }

  /** REJECT: the payment and its record are FAILED, and its bill, if it is still open, is void.  RESOLVE, for card payments only:
      the payment is closed as FAILED, and neither its bill nor any record changes. */
  lemma RejectionMeans(db: Db, p: Id)
    ensures Reviewable(db, p) ==> p in db.payments && db.payments[p].invoice in db.invoices
    ensures var rejected, resolved := RejectPayment(db, p), ResolvePayment(db, p);
            && (rejected.Commit? <==> Reviewable(db, p))
            && (resolved.Commit? <==> Reviewable(db, p) && db.payments[p].reference.ByIntent?)
            && (rejected.Commit? ==>
                  var bill := db.payments[p].invoice;
                  rejected.db == db.(payments := db.payments[p := db.payments[p].(status := PaymentStatus.Rejected)],
                                     invoices := db.invoices[bill := db.invoices[bill].(
                                       status := if db.invoices[bill].status == Open then Void else db.invoices[bill].status)],
                                     receipts := SettleReceipts(db.receipts, p, PaymentStatus.Rejected)))
            && (resolved.Commit? ==>
                  resolved.db == db.(payments := db.payments[p := db.payments[p].(status := PaymentStatus.Rejected)]))
  {
    assert Reviewable(db, p) ==> p in db.payments && db.payments[p].invoice in db.invoices;
    if Reviewable(db, p) {
      var bill := db.payments[p].invoice;
      assert db.invoices[bill].status != Open ==> db.invoices[bill := db.invoices[bill].(status := db.invoices[bill].status)] == db.invoices;
    }
    hide Reviewable, SettleReceipts;
  }

  // ---------- payers who were unknown ----------

  lemma UnlinkedIff(db: Db, terminal: Id, event: Id)
    ensures Unlinked(db, terminal, event) <==>
              && (terminal, event) in db.receipts && terminal in db.terminals
              && db.receipts[(terminal, event)].status == InReview && db.receipts[(terminal, event)].payment == None
  {
  }

  /** RESOLVE_IDENTITY, once per unknown avatar: an active resident of its own, and for that user the open bill and the payment
      under review that the record was without.  REJECT of such a record fails it and makes nothing. */
  lemma IdentityMeans(db: Db, now: int, id: Id, terminal: Id, event: Id)
    ensures var named, rejected := ResolveIdentity(db, now, id, terminal, event), RejectReceipt(db, terminal, event);
            && (rejected.Commit? <==> Unlinked(db, terminal, event))
            && (named.Commit? <==> Unlinked(db, terminal, event) && db.receipts[(terminal, event)].payer !in db.identities)
            && (rejected.Commit? ==>
                  && (terminal, event) in db.receipts
                  && rejected.db == db.(receipts := db.receipts[(terminal, event) :=
                                          db.receipts[(terminal, event)].(status := PaymentStatus.Rejected)]))
            && (named.Commit? ==>
                  && (terminal, event) in db.receipts && terminal in db.terminals
                  && var q := db.receipts[(terminal, event)];
                  named.db == db.(users := db.users[id := User(Resident, true)],
                                  identities := db.identities[q.payer := id],
                                  invoices := db.invoices[id := Invoice(None, db.terminals[terminal], id, Open, Linden(q.expected), now)],
                                  payments := db.payments[id := Payment(id, ByTerminal(terminal, event), Linden(q.amount), InReview)],
                                  receipts := db.receipts[(terminal, event) :=
                                                Receipt(q.payer, q.amount, InReview, Some(id), q.body, q.expected)]))
  {
  }

  // ---------- activations ----------

  /** Activation of a PAID bill that no rental is bound to, for one to 52 weeks from now, of a listing without hold, lease or
      somebody else's reservation: a lease that nothing was credited for but the activation itself; its tenant is a renter. */
  lemma ActivationMeans(db: Db, now: int, id: Id, invoice: Id, weeks: int)
    ensures var activated := Activate(db, now, id, invoice, weeks);
            && (activated.Commit? <==>
                  && invoice in db.invoices && 1 <= weeks <= 52
                  && var i := db.invoices[invoice];
                  && i.status == Paid && i.rental == None && Eligible(db.users, i.user)
                  && Vacant(db.rentals, i.listing) && !ReservedAgainst(db.reservations, now, i.listing, i.user))
            && (activated.Commit? ==>
                  && invoice in db.invoices && 0 <= weeks
                  && var i := db.invoices[invoice];
                  && i.user in db.users
                  && activated.db
                     == db.(users := db.users[i.user := AsTenant(db.users[i.user])],
                            rentals := db.rentals[id := Rental(i.listing, i.user, Active, now, now + weeks * 604800)],
                            reservations := RedeemReservations(db.reservations, now, i.listing),
                            invoices := db.invoices[invoice := i.(rental := Some(id))],
                            ledger := Posted(Entry(id, ByActivation, weeks, 0, 0), db.ledger)))
  {
    if Activate(db, now, id, invoice, weeks).Commit? {
      MayRentIff(db.users, db.invoices[invoice].user);
      PromotionMeans(db.users, db.invoices[invoice].user);
    }
    hide Vacant, ReservedAgainst, RedeemReservations, Promote, Eligible;
  }

  // ---------- roles ----------

  /** Nobody else is an active administrator. */
  predicate OnlyAdministrator(users: map<Id, User>, u: Id) {
    && u in users && users[u] == User(Administrator, true)
    && forall v | v in users && users[v] == User(Administrator, true) :: v == u
  }

  lemma OnlyOne(users: map<Id, User>, u: Id)
    ensures u in ActiveAdministrators(users) && |ActiveAdministrators(users)| <= 1 <==> OnlyAdministrator(users, u)
  {
    var admins := ActiveAdministrators(users);
    if OnlyAdministrator(users, u) {
      assert admins == {u};
    } else if u in admins {
      var v :| v in users && users[v] == User(Administrator, true) && v != u;
      Two(admins, u, v);
    }
  }

  lemma Two(s: set<Id>, u: Id, v: Id)
    requires u in s && v in s && u != v
    ensures |s| >= 2
  {
    assert v in s - {u} && |s - {u}| == |s| - 1;
    assert |s - {u} - {v}| == |s - {u}| - 1;
  }

  /** SET ROLE, by an active administrator: the subject has exactly the role asked for, and nothing else changes.  It is refused to
      the only active administrator who would stop being one, and to an owner of a running hold or lease who would become
      anything but a renter or an administrator; an inactive owner's role cannot change at all. */
  lemma RoleMeans(db: Db, now: int, actor: Id, subject: Id, role: Role)
    ensures var asked := ChangeRole(db, now, actor, subject, role);
            var renting := exists r :: r in db.rentals && db.rentals[r].user == subject && now < db.rentals[r].endsAt
                                       && (db.rentals[r].status == Pending || db.rentals[r].status == Active);
            && (asked.Commit? <==>
                  && actor in db.users && db.users[actor] == User(Administrator, true) && subject in db.users
                  && (role == Administrator || !OnlyAdministrator(db.users, subject))
                  && (renting ==> role == Renter || role == Administrator)
                  && (renting && !db.users[subject].active ==> db.users[subject].role == role))
            && (asked.Commit? ==> asked.db == db.(users := db.users[subject := User(role, db.users[subject].active)]))
  {
    OnlyOne(db.users, subject);
    if r :| r in db.rentals && db.rentals[r].user == subject && now < db.rentals[r].endsAt
            && (db.rentals[r].status == Pending || db.rentals[r].status == Active) {
      assert IsLive(db.rentals[r]);
      assert RentsNow(db.rentals, now, subject);
    }
    if subject in db.users && db.users[subject].role == role {
      assert db.users[subject := User(role, db.users[subject].active)] == db.users;
    }
    hide ActiveAdministrators, OnlyAdministrator;
  }

  // ---------- reservations ----------

  /** A reservation is made by active staff, for at most seven days, on an offered listing that is neither taken nor reserved,
      for somebody with an avatar who may rent, and by an agent not for an administrator.  The same key of the same creator is
      answered from the reservation it made, if the request is the same, and writes nothing. */
  lemma ReservationMeans(db: Db, wall: int, now: int, id: Id, actor: Id, q: Request)
    ensures var made := Reserve(db, wall, now, id, actor, q);
            var staffed := && wall < q.expiresAt <= wall + 604800
                           && actor in db.users && db.users[actor].active && db.users[actor].role in {Administrator, Manager, Agent};
            && (!staffed ==> made.Rollback?)
            && (staffed && (exists v :: v in db.reservations && db.reservations[v].creator == actor && db.reservations[v].key == q.key) ==>
                  made.Commit? ==> && made.db == db && made.value in db.reservations && db.reservations[made.value].creator == actor
                                   && db.reservations[made.value].key == q.key && db.reservations[made.value].fingerprint == q.fingerprint)
            && (staffed && KeysDistinct(db.reservations) ==>
                  forall v | v in db.reservations && db.reservations[v].creator == actor && db.reservations[v].key == q.key ::
                    made == if db.reservations[v].fingerprint == q.fingerprint then Commit(db, v) else Rollback)
            && (staffed && (forall v | v in db.reservations && db.reservations[v].creator == actor :: db.reservations[v].key != q.key) ==>
                  && (made.Commit? <==>
                        && now < q.expiresAt && Eligible(db.users, q.target)
                        && (exists a :: a in db.identities && db.identities[a] == q.target)
                        && !(db.users[actor].role == Agent && db.users[q.target].role == Administrator)
                        && Offered(db.listings, q.listing)
                        && !Occupied(db.rentals, now, q.listing) && !IsReserved(db.reservations, now, q.listing))
                  && (made.Commit? ==>
                        var clean := Clean(db, now, q.listing);
                        && made.value == id
                        && made.db == clean.(reservations := clean.reservations[id :=
                             Reservation(q.listing, q.target, actor, q.key, q.fingerprint, Reserved, q.expiresAt)])))
  {
    if exists v :: IsReplay(db, actor, q.key, v) {
      var v := ReplayOf(db, actor, q.key);
      if KeysDistinct(db.reservations) {
        forall w | w in db.reservations && db.reservations[w].creator == actor && db.reservations[w].key == q.key ensures w == v {
        }
      }
    } else {
      assert forall v | v in db.reservations && db.reservations[v].creator == actor && db.reservations[v].key == q.key ::
        IsReplay(db, actor, q.key, v);
    }
    hide Clean, Occupied, IsReserved, Offered, Eligible;
  }

  /** A reservation is withdrawn by active staff, and by an agent only one that the agent made. */
  lemma WithdrawalMeans(db: Db, actor: Id, v: Id)
    ensures Withdraw(db, actor, v).Commit? <==>
              && actor in db.users && db.users[actor].active && v in db.reservations && db.reservations[v].status == Reserved
              && (db.users[actor].role == Administrator || db.users[actor].role == Manager
                  || (db.users[actor].role == Agent && db.reservations[v].creator == actor))
    ensures Withdraw(db, actor, v).Commit? ==>
              Withdraw(db, actor, v).db == db.(reservations := db.reservations[v := db.reservations[v].(status := Withdrawn)])
  {
  }
}
