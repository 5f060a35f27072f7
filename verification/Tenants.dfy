/** Whose leases run: credited leases belong to renters and administrators, and the one way around that. */
module Tenants {
  import opened Tables
  import opened Allocation
  import opened Invariants
  import opened Evolution
  import opened Transactions
  import opened Runs
  import opened ClockedRuns
  import opened Postings
  import opened Roles
  import DeskEffects
  import Journeys

  // ---------- one transaction ----------

  predicate RentsAs(users: map<Id, User>, u: Id) {
    u in users && (users[u].role == Renter || users[u].role == Administrator)
  }

  /** If the rental is a lease that runs, a renter or an administrator owns it. */
  predicate TenantOf(db: Db, now: int, r: Id) {
    r in db.rentals && db.rentals[r].status == Active && now < db.rentals[r].endsAt ==> RentsAs(db.users, db.rentals[r].user)
  }

  /** The transaction extends the lease after it has lapsed, while its owner is a resident. */
  ghost predicate Revives(db: Db, m: Moment, r: Id) {
    && m.step.AtDesk? && m.step.desk.AdminExtend? && m.step.desk.rental == r
    && ExtendLease(db, m.now, r, m.step.desk.weeks).Commit?
    && r in db.rentals && db.rentals[r].endsAt <= m.now
    && db.rentals[r].user in db.users && db.users[db.rentals[r].user].role == Resident
  }

  /** The credit of a lease, be it by settlement, by a terminal's payment, by an approval or by an activation, leaves it with a
      renter or an administrator, and changes nobody else; for a terminal's payment on a lease that runs this rests on its
      owner having been one before. */
  lemma CreditMakesTenant(db: Db, now: int, step: Step)
    requires Enabled(db, step) && Entered(db, Apply(db, now, step))
    requires Apply(db, now, step).ledger.entry.source.ByPayment? || Apply(db, now, step).ledger.entry.source.ByActivation?
    requires Inv(db)
    ensures var after := Apply(db, now, step);
            var r := after.ledger.entry.rental;
            && r in after.rentals && after.rentals[r].user in after.users
            && ((step.OfMoney? && step.money.TerminalPays? ==> TenantOf(db, now, r)) ==> RentsAs(after.users, after.rentals[r].user))
            && after.users.Keys == db.users.Keys
            && forall u | u in db.users && u != after.rentals[r].user :: after.users[u] == db.users[u]
  {
    hide Inv, Keeps, Evolves, Enabled, Apply, RentsAs;
    var after := Apply(db, now, step);
    StepUsers(db, now, step);
    StepKeeps(db, now, step);
    Kept(db, after);
    EvolvingRentals(db, after);
    PostedRental(after);
    LedgerGrew(db.ledger, after.ledger);
    OwnersThere(after, after.ledger.entry.rental);
    hide RentalsKept;
    if OnRunning(db, now, after) {
      SameOwner(db.rentals, after.rentals, after.ledger.entry.rental);
    }
    TenantRents(db, after);
  }

  lemma TenantRents(db: Db, after: Db)
    requires after.ledger.Posted? && after.ledger.entry.rental in after.rentals
    ensures Tenant(db, after) ==>
              var u := after.rentals[after.ledger.entry.rental].user;
              RentsAs(after.users, u) && u in db.users && after.users == db.users[u := after.users[u]]
  {
  }

  lemma LedgerGrew(l: Ledger, m: Ledger)
    requires m.Posted? && m.earlier == l
    ensures m != l
  {
    assert m.earlier < m;
  }

  lemma PostedRental(db: Db)
    requires Inv(db) && db.ledger.Posted?
    ensures db.ledger.entry.rental in db.rentals
  {
    assert EntriesSound(db.ledger, db.payments, db.invoices, db.rentals) by {
      hide *;
      Parts(db);
    }
    hide Inv;
  }

  lemma OwnersThere(db: Db, r: Id)
    requires Inv(db) && r in db.rentals
    ensures db.rentals[r].user in db.users
  {
    assert OwnersKnown(db.users.Keys, db.rentals, db.invoices) by {
      hide *;
      Parts(db);
    }
    hide Inv;
  }

  lemma SameOwner(rs: map<Id, Rental>, ss: map<Id, Rental>, r: Id)
    requires RentalsKept(rs, ss) && r in rs
    ensures r in ss && ss[r].user == rs[r].user
  {
  }

  /** A role that is given leaves every lease that runs with a renter or an administrator. */
  lemma GivenLeaves(db: Db, now: int, after: Db, actor: Id, subject: Id, role: Role, r: Id)
    requires Given(db, now, after, actor, subject, role) && TenantOf(db, now, r)
    ensures TenantOf(after, now, r)
  {
  }

  lemma UnpostedTenant(db: Db, now: int, step: Step, after: Db, r: Id)
    requires UsersMove(db, now, step, after) && TenantOf(db, now, r)
    requires r in after.rentals && after.rentals[r].status == Active ==> r in db.rentals && after.rentals[r] == db.rentals[r]
    ensures TenantOf(after, now, r)
  {
    if step.AtDesk? && step.desk.SetRole? && Given(db, now, after, step.desk.actor, step.desk.subject, step.desk.role) {
      GivenLeaves(db, now, after, step.desk.actor, step.desk.subject, step.desk.role, r);
    }
    hide Given;
  }

  /** EXTEND and END: whoever owned the lease still does, and the lease was running, or its owner a renter already, or it has
      ended. */
  lemma AdministeredTenant(db: Db, now: int, step: Step, r: Id)
    requires var after := Apply(db, now, step);
             && Posting(step, db.ledger, after.ledger) && Entered(db, after) && Nobody(db, after) && after.ledger.entry.rental == r
    requires TenantOf(db, now, r) && !Revives(db, Moment(now, step), r)
    ensures TenantOf(Apply(db, now, step), now, r)
  {
    var after := Apply(db, now, step);
    LedgerGrew(db.ledger, after.ledger);
    if step.AtDesk? && step.desk.AdminExtend? {
      ExtensionMeans(db, now, step.desk.rental, step.desk.weeks);
      Unchanged(ExtendLease(db, now, step.desk.rental, step.desk.weeks), db);
    } else if step.AtDesk? && step.desk.AdminEnd? {
      EndMeans(db, now, step.desk.rental);
      Unchanged(EndLease(db, now, step.desk.rental), db);
    }
    hide ApplyCheckout, ApplyMoney, ExtendLease, EndLease, After;
  }

  /** One transaction: a lease that runs stays with a renter or an administrator, unless the transaction revives it for a
      resident. */
  lemma StepTenant(db: Db, now: int, step: Step, r: Id)
    requires Enabled(db, step) && TenantOf(db, now, r) && !Revives(db, Moment(now, step), r)
    requires Inv(db)
    ensures TenantOf(Apply(db, now, step), now, r)
  {
    hide Inv, Keeps, Evolves, Enabled, Apply, Posting, Revives, RentsAs, SameAccount, UsersMove, Nobody, Tenant, OnRunning, TenantOf;
    var after := Apply(db, now, step);
    StepUsers(db, now, step);
    StepPosts(db, now, step);
    StepKeeps(db, now, step);
    Kept(db, after);
    if Entered(db, after) && after.ledger.entry.rental == r {
      PostedTenant(db, now, step, r);
    } else {
      if r in after.rentals && after.rentals[r].status == Active {
        OtherLeases(step, db, after, r);
        UnpostedLease(db, after, r);
      }
      UnpostedTenant(db, now, step, after, r);
    }
  }

  lemma OtherLeases(step: Step, db: Db, after: Db, r: Id)
    requires Posting(step, db.ledger, after.ledger) && !(Entered(db, after) && after.ledger.entry.rental == r)
    ensures SameAccount(db.ledger, after.ledger, r)
  {
    OtherAccounts(step, db.ledger, after.ledger, r);
    hide SameAccount;
  }

  lemma PostedTenant(db: Db, now: int, step: Step, r: Id)
    requires Enabled(db, step) && TenantOf(db, now, r) && !Revives(db, Moment(now, step), r)
    requires var after := Apply(db, now, step);
             && UsersMove(db, now, step, after) && Posting(step, db.ledger, after.ledger) && Entered(db, after)
             && after.ledger.entry.rental == r && Inv(after) && Evolves(db, after)
    ensures TenantOf(Apply(db, now, step), now, r)
  {
    hide Inv, Keeps, Evolves, Enabled, Apply, Posting, Revives, Nobody;
    var after := Apply(db, now, step);
    LedgerGrew(db.ledger, after.ledger);
    if Nobody(db, after) {
      AdministeredTenant(db, now, step, r);
    } else if OnRunning(db, now, after) {
      EvolvingRentals(db, after);
      SameOwner(db.rentals, after.rentals, r);
      hide RentalsKept;
    } else {
      PostedRental(after);
    }
  }

  // ---------- runs ----------

  /** Over ordered runs, a lease that runs belongs to a renter or an administrator; the only exception is a lease that, in the
      run, EXTEND revived for a resident after it had lapsed. */
  lemma {:induction false} TenantsRent(db: Db, clock: int, moments: seq<Moment>, r: Id) returns (i: nat)
    requires Runnable(db, moments) && Ordered(clock, moments) && TenantOf(db, clock, r)
    requires Inv(db)
    ensures TenantOf(Run(db, moments), LastNow(clock, moments), r) || (i < |moments| && Revives(Run(db, moments[..i]), moments[i], r))
    decreases |moments|
  {
    hide Inv, Keeps, Evolves, Enabled, Apply, Revives;
    i := 0;
    if moments != [] {
      var m := moments[0];
      var next := Apply(db, m.now, m.step);
      assert moments[..0] == [] && Run(db, moments[..0]) == db;
      if !Revives(db, m, r) {
        StepKeeps(db, m.now, m.step);
        Kept(db, next);
        StepTenant(db, m.now, m.step, r);
        var j := TenantsRent(next, m.now, moments[1..], r);
        assert LastNow(clock, moments) == LastNow(m.now, moments[1..]);
        if j < |moments| - 1 {
          OneMoment(db, moments, j);
          i := j + 1;
        }
      }
    }
  }

  /** From a database without business on, no condition on its leases is left. */
  lemma TenantsRentFromStart(db: Db, clock: int, moments: seq<Moment>, r: Id) returns (i: nat)
    requires Runnable(db, moments) && Ordered(clock, moments)
    requires Initial(db)
    ensures TenantOf(Run(db, moments), LastNow(clock, moments), r) || (i < |moments| && Revives(Run(db, moments[..i]), moments[i], r))
  {
    hide Inv, Runnable, Run, Ordered, LastNow, Revives;
    InitialInv(db);
    i := TenantsRent(db, clock, moments, r);
  }

  // ---------- the exception ----------

  /** EXTEND takes a lease away from renters and administrators exactly if it revives it for a resident. */
  lemma RevivalIff(db: Db, now: int, r: Id, weeks: int)
    requires TenantOf(db, now, r)
    ensures TenantOf(After(ExtendLease(db, now, r, weeks), db), now, r) <==> !Revives(db, Moment(now, AtDesk(AdminExtend(r, weeks))), r)
  {
    ExtensionMeans(db, now, r, weeks);
    hide ExtendLease;
  }

  /** The lease has run out but is still marked ACTIVE; its owner, an active renter, rents nothing else. */
  predicate LeftOver(db: Db, now: int, r: Id) {
    && r in db.rentals && db.rentals[r].status == Active && db.rentals[r].endsAt <= now
    && db.rentals[r].user in db.users && db.users[db.rentals[r].user] == User(Renter, true)
    && forall s | s in db.rentals && db.rentals[s].user == db.rentals[r].user :: db.rentals[s].endsAt <= now
  }

  lemma Demoted(db: Db, now: int, r: Id, actor: Id)
    requires LeftOver(db, now, r) && actor in db.users && db.users[actor] == User(Administrator, true)
    ensures var owner := db.rentals[r].user;
            Apply(db, now, AtDesk(SetRole(actor, owner, Resident))) == db.(users := db.users[owner := User(Resident, true)])
  {
    DeskEffects.RoleMeans(db, now, actor, db.rentals[r].user, Resident);
    hide ChangeRole;
  }

  lemma Revived(db: Db, now: int, r: Id, weeks: int)
    requires r in db.rentals && db.rentals[r].status == Active && db.rentals[r].endsAt <= now && 1 <= weeks <= 52
    requires db.rentals[r].user in db.users && db.users[db.rentals[r].user] == User(Resident, true)
    ensures !TenantOf(Apply(db, now, AtDesk(AdminExtend(r, weeks))), now, r)
  {
    ExtensionMeans(db, now, r, weeks);
    hide ExtendLease;
  }

  /** It happens: wherever such a lease is left over, an administrator can make its owner a resident and then extend the lease,
      which runs from then on for a resident. */
  lemma RevivedForResident(db: Db, now: int, r: Id, actor: Id, weeks: int)
    requires LeftOver(db, now, r) && 1 <= weeks <= 52 && actor in db.users && db.users[actor] == User(Administrator, true)
    ensures var moments := [Moment(now, AtDesk(SetRole(actor, db.rentals[r].user, Resident))), Moment(now, AtDesk(AdminExtend(r, weeks)))];
            && TenantOf(db, now, r) && Runnable(db, moments) && Ordered(now, moments) && !TenantOf(Run(db, moments), now, r)
  {
    var owner := db.rentals[r].user;
    var first, second := Moment(now, AtDesk(SetRole(actor, owner, Resident))), Moment(now, AtDesk(AdminExtend(r, weeks)));
    assert [first, second][1..] == [second];
    assert Ordered(now, [second]);
    assert Ordered(now, [first, second]);
    Journeys.TwoMoments(db, first, second);
    Demoted(db, now, r, actor);
    Revived(db.(users := db.users[owner := User(Resident, true)]), now, r, weeks);
    hide Apply, Run, Runnable;
  }
}
