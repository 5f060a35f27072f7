/** The program runs as the specification runs: every transaction of the code, executed on the database, takes it
    from one state of `Runs.Run` to the next. */
module Program {
  import opened Tables
  import opened Allocation
  import opened Invariants
  import opened Evolution
  import opened Transactions
  import opened Runs
  import opened Store
  import Checkout
  import CheckoutRoute
  import StripeHandler
  import Reservations
  import TerminalPayments
  import Reconciliation
  import Administration
  import ProviderActions

  /** First sign-in of an avatar. */
  method SignIn(db: Database, id: Id, avatar: Id)
    modifies db
    ensures db.tables == After(Enrol(old(db.tables), id, avatar), old(db.tables))
  {
    var saved := db.Begin();
    if avatar !in db.tables.identities {
      db.tables := db.tables.(users := db.tables.users[id := User(Resident, true)]);
      db.tables := db.tables.(identities := db.tables.identities[avatar := id]);
    }
  }

  /** A request identifies one reservation. */
  lemma OneReplay(db: Db, actor: Id, key: Id)
    requires Inv(db)
    ensures forall v, w :: IsReplay(db, actor, key, v) && IsReplay(db, actor, key, w) ==> v == w
  {
    assert KeysDistinct(db.reservations) by {
      hide *;
      Parts(db);
    }
    hide Inv;
  }

  method ExecuteCheckout(db: Database, now: int, step: CheckoutStep)
    requires Inv(db.tables) && EnabledCheckout(db.tables, step)
    modifies db
    ensures db.tables == ApplyCheckout(old(db.tables), now, step)
  {
    hide Inv, Fresh, Recorded, After, Sweep, Poll, Acquire, Replace, PersistSession, MarkErrored, SettleSimulated, Reserve;
    hide Withdraw, LapseAll, Enrol, IsReplay;
    match step {
      case CleanUp(scope) => Checkout.CleanupExpiredPendingHolds(db, now, scope);
      case PollTerminal(listing) => TerminalPayments.TerminalPolls(db, now, listing);
      case AcquireAttempt(id, target, user) => var _ := CheckoutRoute.AcquireAttempt(db, now, id, target, user);
      case ReplaceExpired(id, hold, user) => var _ := CheckoutRoute.ReplaceExpired(db, now, id, hold, user);
      case StoreSession(attempt, session) => var _ := CheckoutRoute.StoreCreatedSession(db, attempt, session);
      case StoreError(attempt) => CheckoutRoute.StoreFailure(db, attempt);
      case Simulate(id, hold, user) => var _ := CheckoutRoute.SettleInSimulation(db, now, id, hold);
      case MakeReservation(wall, id, actor, q) =>
        OneReplay(db.tables, actor, q.key);
        var _ := Reservations.CreateReservation(db, wall, now, id, actor, q);
      case CancelReservation(actor, v) => var _ := Reservations.CancelReservation(db, actor, v);
      case ListReservations => Reservations.ListReservations(db, now);
      case SignUp(id, avatar) => SignIn(db, id, avatar);
      case EditListing(id, listing) => db.tables := db.tables.(listings := db.tables.listings[id := listing]);
    }
  }

  /** The transaction around the handler of an expired or failed session. */
  method StripeExpires(db: Database, e: SessionEvent)
    requires Inv(db.tables)
    modifies db
    ensures db.tables == After(SessionExpired(old(db.tables), e), old(db.tables))
  {
    hide Inv, SessionExpired;
    var saved := db.Begin();
    var status := StripeHandler.HandleExpired(db, e);
    if status.None? {
      db.Rollback(saved);
    }
  }

  /** The transaction around the handler of a paid session. */
  method StripePays(db: Database, now: int, id: Id, e: SessionEvent)
    requires Inv(db.tables) && Authentic(db.tables, e)
    modifies db
    ensures db.tables == After(SessionPaid(old(db.tables), now, id, e), old(db.tables))
  {
    hide Inv, SessionPaid, Authentic;
    var saved := db.Begin();
    var status := StripeHandler.HandlePaid(db, now, id, e);
    if status.None? {
      db.Rollback(saved);
    }
  }

  /** The transaction around the handler of a refund, whose references lead to the given payment or to none. */
  method StripeRefunds(db: Database, found: Option<Id>, e: RefundEvent)
    requires Inv(db.tables)
    modifies db
    ensures db.tables == After(RefundReported(old(db.tables), found, e), old(db.tables))
  {
    var saved := db.Begin();
    var references: set<Id> := {};
    if found.Some? {
      if !(found.value in db.tables.payments && db.tables.payments[found.value].reference.ByIntent?) {
        return;
      }
      references := {db.tables.payments[found.value].reference.intent};
    }
    ghost var before := db.tables;
    hide Inv, RefundReported;
    var p, status := StripeHandler.HandleRefund(db, references, e);
    if p.Some? && found.Some? {
      StripeHandler.ReferenceOnce(before, p.value, found.value);
    }
    assert p == found by {
      assert found.Some? ==> StripeHandler.Referred(before.payments, references, found.value);
    }
    if status.None? {
      db.Rollback(saved);
    }
  }

  lemma ClaimedPayment(db: Db, c: Claim)
    requires Inv(db) && Taken(db, c)
    ensures c.payment in db.payments
  {
    hide *;
    Parts(db);
    TakenPays(db, c);
  }

  lemma TakenPays(db: Db, c: Claim)
    requires ActionsMatch(db.actions, db.payments, db.intents) && Taken(db, c)
    ensures c.payment in db.payments
  {
  }

  method ExecuteMoney(db: Database, now: int, step: MoneyStep)
    requires Inv(db.tables) && EnabledMoney(db.tables, step)
    modifies db
    ensures db.tables == ApplyMoney(old(db.tables), now, step)
  {
    hide Inv, Fresh, Authentic, Taken, After, SessionExpired, SessionPaid, RefundReported, PayTerminal;
    hide ClaimRefund, CompleteRefund, FailRefund, RetryRefund, ResolveRefund;
    match step {
      case StripeExpired(e) => StripeExpires(db, e);
      case StripePaid(id, e) => StripePays(db, now, id, e);
      case StripeRefund(found, e) => StripeRefunds(db, found, e);
      case StripeDispute(references) => StripeDisputes(db, references);
      case TerminalPays(id, q) => var _ := TerminalPayments.TerminalPays(db, now, id, q);
      case WorkerClaims(a) => var _ := ProviderActions.ClaimProviderAction(db, now, a);
      case WorkerCompletes(c, succeeded) =>
        ClaimedPayment(db.tables, c);
        var _ := ProviderActions.Complete(db, now, c, succeeded);
      case WorkerFails(a) => ProviderActions.Fail(db, now, a);
      case OperatorRetries(a) => var _ := ProviderActions.RetryProviderAction(db, now, a);
      case OperatorResolves(a) => var _ := ProviderActions.ResolveProviderAction(db, a);
    }
  }

  /** The transaction around the handler of a dispute. */
  method StripeDisputes(db: Database, references: set<Id>)
    modifies db
    ensures db.tables == After(Disputed(old(db.tables), references), old(db.tables))
  {
    ghost var before := db.tables;
    var saved := db.Begin();
    var _ := StripeHandler.HandleDispute(db, references);
    Unchanged(Disputed(before, references), before);
    hide *;
  }

  method ExecuteDesk(db: Database, now: int, step: DeskStep)
    requires Inv(db.tables) && EnabledDesk(db.tables, step)
    modifies db
    ensures db.tables == ApplyDesk(old(db.tables), now, step)
  {
    hide Inv, Fresh, After, ApproveStart, ApproveExtension, RejectPayment, ResolvePayment, ResolveIdentity, RejectReceipt;
    hide Activate, ExtendLease, EndLease, ChangeRole;
    match step {
      case ApproveAsStart(id, p) => var _ := Reconciliation.ApproveAsStart(db, now, id, p);
      case ApproveAsExtension(p) => var _ := Reconciliation.ApproveAsExtension(db, now, p);
      case Reject(p) => var _ := Reconciliation.Reject(db, p);
      case Resolve(p) => var _ := Reconciliation.Resolve(db, p);
      case NamePayer(id, t, e) => var _ := Reconciliation.NamePayer(db, now, id, t, e);
      case RejectEvent(t, e) => var _ := Reconciliation.RejectUnlinked(db, t, e);
      case AdminActivate(id, i, weeks) => var _ := Administration.ActivateInvoice(db, now, id, i, weeks);
      case AdminExtend(r, weeks) => var _ := Administration.ExtendRental(db, now, r, weeks);
      case AdminEnd(r) => var _ := Administration.EndRental(db, now, r);
      case SetRole(actor, target, role) => var _ := Administration.ChangeUserRole(db, now, actor, target, role);
    }
  }

  /** One transaction of the program, with all its guards, constraints and triggers, does what the specification says. */
  method Execute(db: Database, now: int, step: Step)
    requires Inv(db.tables) && Enabled(db.tables, step)
    modifies db
    ensures db.tables == Apply(old(db.tables), now, step)
    ensures Keeps(old(db.tables), db.tables)
  {
    StepKeeps(db.tables, now, step);
    hide Inv, Keeps, ApplyCheckout, ApplyMoney, ApplyDesk, EnabledCheckout, EnabledMoney, EnabledDesk;
    match step {
      case AtCheckout(s) => ExecuteCheckout(db, now, s);
      case OfMoney(s) => ExecuteMoney(db, now, s);
      case AtDesk(s) => ExecuteDesk(db, now, s);
    }
  }

  lemma RunAppends(db: Db, moments: seq<Moment>, n: nat)
    requires n < |moments|
    ensures Run(db, moments[..n + 1]) == Apply(Run(db, moments[..n]), moments[n].now, moments[n].step)
    decreases n
  {
    hide Apply;
    if n > 0 {
      var next := Apply(db, moments[0].now, moments[0].step);
      RunAppends(next, moments[1..], n - 1);
      assert moments[..n + 1][1..] == moments[1..][..n] && moments[..n][1..] == moments[1..][..n - 1];
    } else {
      assert moments[..1] == [moments[0]] && moments[..0] == [];
      assert moments[..1][1..] == [];
    }
  }

  lemma RunnableAt(db: Db, moments: seq<Moment>, n: nat)
    requires Runnable(db, moments) && n < |moments|
    ensures Enabled(Run(db, moments[..n]), moments[n].step)
    decreases n
  {
    hide Apply, Enabled;
    if n > 0 {
      RunnableAt(Apply(db, moments[0].now, moments[0].step), moments[1..], n - 1);
      assert moments[..n][1..] == moments[1..][..n - 1];
    } else {
      assert moments[..0] == [];
    }
  }

  /** Any number of transactions, one after the other: the program ends in the state of the specification's run,
      and the invariant holds there. */
  method ExecuteAll(db: Database, moments: seq<Moment>)
    requires Inv(db.tables) && Runnable(db.tables, moments)
    modifies db
    ensures db.tables == Run(old(db.tables), moments) && Inv(db.tables)
  {
    ghost var before := db.tables;
    hide Inv, Keeps, Apply, Enabled, Runnable, Run, Evolves;
    assert Run(before, []) == before by { NoRun(before); }
    assert moments[..0] == [];
    var i := 0;
    while i < |moments|
      invariant 0 <= i <= |moments|
      invariant db.tables == Run(before, moments[..i]) && Inv(db.tables)
    {
      RunnableAt(before, moments, i);
      RunAppends(before, moments, i);
      ghost var was := db.tables;
      Execute(db, moments[i].now, moments[i].step);
      Kept(was, db.tables);
      i := i + 1;
    }
    assert moments[..|moments|] == moments;
  }

  lemma NoRun(db: Db)
    ensures Run(db, []) == db
  {
  }
}
