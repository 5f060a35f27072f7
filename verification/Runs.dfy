/** Whole runs: any sequence of transactions, each at its own reading of the clock. */
module Runs {
  import opened Tables
  import opened Allocation
  import opened Invariants
  import opened Evolution
  import opened Subsiding
  import opened Transactions
  import Growing

  /** Holds, sessions and reservations. */
  datatype CheckoutStep =
    | CleanUp(scope: Option<Id>)
    | PollTerminal(listing: Id)
    | AcquireAttempt(id: Id, target: Target, user: Id)
    | ReplaceExpired(id: Id, hold: Hold, user: Id)
    | StoreSession(attempt: Id, session: Id)
    | StoreError(attempt: Id)
    | Simulate(id: Id, hold: Hold, user: Id)
    | MakeReservation(wall: int, id: Id, actor: Id, request: Request)
    | CancelReservation(actor: Id, reservation: Id)
    | ListReservations
    | SignUp(id: Id, avatar: Id)
    | EditListing(id: Id, terms: Listing)

  /** Money arriving, returning and being disputed. */
  datatype MoneyStep =
    | StripeExpired(expired: SessionEvent)
    | StripePaid(id: Id, paid: SessionEvent)
    | StripeRefund(found: Option<Id>, refund: RefundEvent)
    | StripeDispute(references: set<Id>)
    | TerminalPays(id: Id, payment: TerminalPayment)
    | WorkerClaims(action: Id)
    | WorkerCompletes(claim: Claim, succeeded: bool)
    | WorkerFails(action: Id)
    | OperatorRetries(action: Id)
    | OperatorResolves(action: Id)

  /** What staff decide. */
  datatype DeskStep =
    | ApproveAsStart(id: Id, review: Id)
    | ApproveAsExtension(review: Id)
    | Reject(review: Id)
    | Resolve(review: Id)
    | NamePayer(id: Id, terminal: Id, event: Id)
    | RejectEvent(terminal: Id, event: Id)
    | AdminActivate(id: Id, invoice: Id, weeks: int)
    | AdminExtend(rental: Id, weeks: int)
    | AdminEnd(rental: Id)
    | SetRole(actor: Id, subject: Id, role: Role)

  datatype Step = AtCheckout(checkout: CheckoutStep) | OfMoney(money: MoneyStep) | AtDesk(desk: DeskStep)

  ghost function ApplyCheckout(db: Db, now: int, step: CheckoutStep): Db {
    match step
    case CleanUp(scope) => Sweep(db, now, scope)
    case PollTerminal(listing) => Poll(db, now, listing)
    case AcquireAttempt(id, target, user) => After(Acquire(db, now, id, target, user), db)
    case ReplaceExpired(id, hold, user) => After(Replace(db, now, id, hold, user), db)
    case StoreSession(attempt, session) => After(PersistSession(db, attempt, session), db)
    case StoreError(attempt) => After(MarkErrored(db, attempt), db)
    case Simulate(id, hold, user) => After(SettleSimulated(db, now, id, hold), db)
    case MakeReservation(wall, id, actor, q) => After(Reserve(db, wall, now, id, actor, q), db)
    case CancelReservation(actor, v) => After(Withdraw(db, actor, v), db)
    case ListReservations => LapseAll(db, now)
    case SignUp(id, avatar) => After(Enrol(db, id, avatar), db)
    case EditListing(id, listing) => db.(listings := db.listings[id := listing])
  }

  ghost function ApplyMoney(db: Db, now: int, step: MoneyStep): Db {
    match step
    case StripeExpired(e) => After(SessionExpired(db, e), db)
    case StripePaid(id, e) => After(SessionPaid(db, now, id, e), db)
    case StripeRefund(found, e) => After(RefundReported(db, found, e), db)
    case StripeDispute(references) => After(Disputed(db, references), db)
    case TerminalPays(id, q) => After(PayTerminal(db, now, id, q), db)
    case WorkerClaims(a) => After(ClaimRefund(db, now, a), db)
    case WorkerCompletes(c, succeeded) => After(CompleteRefund(db, now, c, succeeded), db)
    case WorkerFails(a) => After(FailRefund(db, now, a), db)
    case OperatorRetries(a) => After(RetryRefund(db, now, a), db)
    case OperatorResolves(a) => After(ResolveRefund(db, a), db)
  }

  ghost function ApplyDesk(db: Db, now: int, step: DeskStep): Db {
    match step
    case ApproveAsStart(id, p) => After(ApproveStart(db, now, id, p), db)
    case ApproveAsExtension(p) => After(ApproveExtension(db, now, p), db)
    case Reject(p) => After(RejectPayment(db, p), db)
    case Resolve(p) => After(ResolvePayment(db, p), db)
    case NamePayer(id, t, e) => After(ResolveIdentity(db, now, id, t, e), db)
    case RejectEvent(t, e) => After(RejectReceipt(db, t, e), db)
    case AdminActivate(id, i, weeks) => After(Activate(db, now, id, i, weeks), db)
    case AdminExtend(r, weeks) => After(ExtendLease(db, now, r, weeks), db)
    case AdminEnd(r) => After(EndLease(db, now, r), db)
    case SetRole(actor, target, role) => After(ChangeRole(db, now, actor, target, role), db)
  }

  /** The committed state after a transaction; a transaction that throws leaves the state alone. */
  ghost function Apply(db: Db, now: int, step: Step): Db {
    match step
    case AtCheckout(s) => ApplyCheckout(db, now, s)
    case OfMoney(s) => ApplyMoney(db, now, s)
    case AtDesk(s) => ApplyDesk(db, now, s)
  }

  ghost predicate EnabledCheckout(db: Db, step: CheckoutStep) {
    match step
    case AcquireAttempt(id, _, _) => Fresh(db, id)
    case ReplaceExpired(id, hold, user) => Fresh(db, id) && Recorded(db, hold, user)
    case Simulate(id, hold, user) => Fresh(db, id) && Recorded(db, hold, user)
    case MakeReservation(_, id, _, _) => Fresh(db, id)
    case SignUp(id, _) => Fresh(db, id)
    case _ => true
  }

  ghost predicate EnabledMoney(db: Db, step: MoneyStep) {
    match step
    case StripePaid(id, e) => Fresh(db, id) && Authentic(db, e)
    case TerminalPays(id, _) => Fresh(db, id)
    case WorkerCompletes(c, _) => Taken(db, c)
    case _ => true
  }

  ghost predicate EnabledDesk(db: Db, step: DeskStep) {
    match step
    case ApproveAsStart(id, _) => Fresh(db, id)
    case NamePayer(id, _, _) => Fresh(db, id)
    case AdminActivate(id, _, _) => Fresh(db, id)
    case _ => true
  }

  /** What the surroundings guarantee: generated identifiers are new, a request carries a hold it was
      given, a worker a claim it was given, and a session's payment intent is the provider's. */
  ghost predicate Enabled(db: Db, step: Step) {
    match step
    case AtCheckout(s) => EnabledCheckout(db, s)
    case OfMoney(s) => EnabledMoney(db, s)
    case AtDesk(s) => EnabledDesk(db, s)
  }

  lemma EnrolKeeps(db: Db, id: Id, avatar: Id)
    requires Inv(db) && Fresh(db, id)
    ensures Keeps(db, After(Enrol(db, id, avatar), db))
  {
    hide Inv, Evolves, Keeps;
    if avatar in db.identities {
      NothingDone(db);
    } else {
      Growing.UserKeeps(db, id, User(Resident, true), avatar);
      Both(db, Enrol(db, id, avatar).db);
    }
  }

  lemma EditKeeps(db: Db, listings: map<Id, Listing>)
    requires Inv(db)
    ensures Keeps(db, db.(listings := listings))
  {
    hide *;
    Still(db);
    Subsided(db, db.(listings := listings));
    SubsidedKeeps(db, db.(listings := listings));
  }

  lemma CheckoutKeeps(db: Db, now: int, step: CheckoutStep)
    requires Inv(db) && EnabledCheckout(db, step)
    ensures Keeps(db, ApplyCheckout(db, now, step))
  {
    hide Inv, Evolves, Keeps, Fresh, Recorded, After, Sweep, Poll, Acquire, Replace, PersistSession, MarkErrored;
    hide SettleSimulated, Reserve, Withdraw, LapseAll, Enrol;
    match step
    case CleanUp(scope) => SweepKeeps(db, now, scope);
    case PollTerminal(listing) => PollKeeps(db, now, listing);
    case AcquireAttempt(id, target, user) => AcquireKeeps(db, now, id, target, user);
    case ReplaceExpired(id, hold, user) => ReplaceKeeps(db, now, id, hold, user);
    case StoreSession(attempt, session) => PersistSessionKeeps(db, attempt, session);
    case StoreError(attempt) => MarkErroredKeeps(db, attempt);
    case Simulate(id, hold, user) => SettleSimulatedKeeps(db, now, id, hold, user);
    case MakeReservation(wall, id, actor, q) => ReserveKeeps(db, wall, now, id, actor, q);
    case CancelReservation(actor, v) => WithdrawKeeps(db, actor, v);
    case ListReservations => LapseAllKeeps(db, now);
    case SignUp(id, avatar) => EnrolKeeps(db, id, avatar);
    case EditListing(id, listing) => EditKeeps(db, db.listings[id := listing]);
  }

  lemma MoneyKeeps(db: Db, now: int, step: MoneyStep)
    requires Inv(db) && EnabledMoney(db, step)
    ensures Keeps(db, ApplyMoney(db, now, step))
  {
    hide Inv, Evolves, Keeps, Fresh, Authentic, Taken, After, SessionExpired, SessionPaid, RefundReported, Disputed, PayTerminal;
    hide ClaimRefund, CompleteRefund, FailRefund, RetryRefund, ResolveRefund;
    match step
    case StripeExpired(e) => SessionExpiredKeeps(db, e);
    case StripePaid(id, e) => SessionPaidKeeps(db, now, id, e);
    case StripeRefund(found, e) => RefundReportedKeeps(db, found, e);
    case StripeDispute(references) => DisputedKeeps(db, references);
    case TerminalPays(id, q) => PayTerminalKeeps(db, now, id, q);
    case WorkerClaims(a) => ClaimRefundKeeps(db, now, a);
    case WorkerCompletes(c, succeeded) => CompleteRefundKeeps(db, now, c, succeeded);
    case WorkerFails(a) => FailRefundKeeps(db, now, a);
    case OperatorRetries(a) => RetryRefundKeeps(db, now, a);
    case OperatorResolves(a) => ResolveRefundKeeps(db, a);
  }

  lemma DeskKeeps(db: Db, now: int, step: DeskStep)
    requires Inv(db) && EnabledDesk(db, step)
    ensures Keeps(db, ApplyDesk(db, now, step))
  {
    hide Inv, Evolves, Keeps, Fresh, After, ApproveStart, ApproveExtension, RejectPayment, ResolvePayment, ResolveIdentity, RejectReceipt;
    hide Activate, ExtendLease, EndLease, ChangeRole;
    match step
    case ApproveAsStart(id, p) => ApproveStartKeeps(db, now, id, p);
    case ApproveAsExtension(p) => ApproveExtensionKeeps(db, now, p);
    case Reject(p) => RejectPaymentKeeps(db, p);
    case Resolve(p) => ResolvePaymentKeeps(db, p);
    case NamePayer(id, t, e) => ResolveIdentityKeeps(db, now, id, t, e);
    case RejectEvent(t, e) => RejectReceiptKeeps(db, t, e);
    case AdminActivate(id, i, weeks) => ActivateKeeps(db, now, id, i, weeks);
    case AdminExtend(r, weeks) => ExtendLeaseKeeps(db, now, r, weeks);
    case AdminEnd(r) => EndLeaseKeeps(db, now, r);
    case SetRole(actor, target, role) => ChangeRoleKeeps(db, now, actor, target, role);
  }

  /** Every transaction keeps the invariant and undoes nothing. */
  lemma StepKeeps(db: Db, now: int, step: Step)
    requires Inv(db) && Enabled(db, step)
    ensures Keeps(db, Apply(db, now, step))
  {
    hide Inv, Keeps, ApplyCheckout, ApplyMoney, ApplyDesk, EnabledCheckout, EnabledMoney, EnabledDesk;
    match step
    case AtCheckout(s) => CheckoutKeeps(db, now, s);
    case OfMoney(s) => MoneyKeeps(db, now, s);
    case AtDesk(s) => DeskKeeps(db, now, s);
  }

  // ---------- runs ----------

  /** A transaction and the time it read; commit order need not be clock order. */
  datatype Moment = Moment(now: int, step: Step)

  ghost function Run(db: Db, moments: seq<Moment>): Db
    decreases |moments|
  {
    if moments == [] then db else Run(Apply(db, moments[0].now, moments[0].step), moments[1..])
  }

  ghost predicate Runnable(db: Db, moments: seq<Moment>)
    decreases |moments|
  {
    moments != [] ==> Enabled(db, moments[0].step) && Runnable(Apply(db, moments[0].now, moments[0].step), moments[1..])
  }

  /** A database before any business: users, listings and terminals, but no allocation, bill or payment. */
  ghost predicate Initial(db: Db) {
    && db.rentals == map[] && db.reservations == map[] && db.invoices == map[] && db.attempts == map[] && db.payments == map[]
    && db.actions == map[] && db.refunds == map[] && db.receipts == map[] && db.ledger == Opening
    && IdentitiesDistinct(db.users.Keys, db.identities)
  }

  lemma InitialInv(db: Db)
    requires Initial(db)
    ensures Inv(db)
  {
  }

  /** The invariant holds after every run, whatever the clocks of its transactions read. */
  lemma {:induction false} RunKeeps(db: Db, moments: seq<Moment>)
    requires Inv(db) && Runnable(db, moments)
    ensures Keeps(db, Run(db, moments))
    decreases |moments|
  {
    hide Inv, Evolves, Keeps, Apply, Enabled;
    if moments == [] {
      NothingDone(db);
    } else {
      var next := Apply(db, moments[0].now, moments[0].step);
      StepKeeps(db, moments[0].now, moments[0].step);
      Kept(db, next);
      RunKeeps(next, moments[1..]);
      KeepsTransitive(db, next, Run(next, moments[1..]));
    }
  }
}
