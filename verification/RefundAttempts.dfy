/** How often a refund action can be claimed. */
module RefundAttempts {
  import opened Tables
  import opened Allocation
  import opened Transactions
  import opened Runs
  import opened ClockedRuns
  import opened Theorems

  /** The step hands a claim on the action to a worker. */
  ghost predicate Claims(db: Db, now: int, step: Step, a: Id) {
    step == OfMoney(WorkerClaims(a)) && ClaimRefund(db, now, a).Commit? && ClaimRefund(db, now, a).value.Some?
  }

  ghost function ClaimCount(db: Db, now: int, step: Step, a: Id): nat {
    if Claims(db, now, step, a) then 1 else 0
  }

  /** A row that is claimed counts the claim, and only a row with attempts left is. */
  lemma ClaimedOnce(b: Id, row: Action, now: int)
    ensures ClaimedRow(row, now).attempts == row.attempts + (if ClaimOn(b, row).Some? then 1 else 0)
    ensures ClaimOn(b, row).Some? <==> row.attempts < MAX_REFUND_ATTEMPTS
  {
  }

  lemma ClaimAttempts(db: Db, now: int, b: Id, a: Id)
    requires a in db.actions
    ensures var after := After(ClaimRefund(db, now, b), db);
            a in after.actions && after.actions[a].attempts == db.actions[a].attempts + ClaimCount(db, now, OfMoney(WorkerClaims(b)), a)
    ensures Claims(db, now, OfMoney(WorkerClaims(b)), a) ==> db.actions[a].attempts < MAX_REFUND_ATTEMPTS
  {
    ClaimForm(db, now, b);
    if b in db.actions {
      ClaimedOnce(b, db.actions[b], now);
    }
    hide Due, ClaimedRow, ClaimOn, ClaimRefund, After;
  }

  lemma CompleteAttempts(db: Db, now: int, c: Claim, succeeded: bool, a: Id)
    requires a in db.actions
    ensures var after := After(CompleteRefund(db, now, c, succeeded), db); a in after.actions && after.actions[a].attempts == db.actions[a].attempts
  {
  }

  lemma FailAttempts(db: Db, now: int, b: Id, a: Id)
    requires a in db.actions
    ensures var after := After(FailRefund(db, now, b), db); a in after.actions && after.actions[a].attempts == db.actions[a].attempts
  {
  }

  lemma RetryAttempts(db: Db, now: int, b: Id, a: Id)
    requires a in db.actions
    ensures var after := After(RetryRefund(db, now, b), db);
            a in after.actions && after.actions[a].attempts <= db.actions[a].attempts && (b != a ==> after.actions[a] == db.actions[a])
  {
    var after := After(RetryRefund(db, now, b), db);
    if RetryRefund(db, now, b).Commit? {
      assert after.actions == db.actions[b := after.actions[b]];
    }
  }

  lemma ResolveAttempts(db: Db, b: Id, a: Id)
    requires a in db.actions
    ensures var after := After(ResolveRefund(db, b), db); a in after.actions && after.actions[a].attempts == db.actions[a].attempts
  {
  }

  lemma ReportAttempts(db: Db, found: Option<Id>, e: RefundEvent, a: Id)
    requires a in db.actions
    ensures var after := After(RefundReported(db, found, e), db); a in after.actions && after.actions[a].attempts == db.actions[a].attempts
  {
    hide RecordRefund, CumulativeRefund, RefundDisposition;
  }

  /** Exactly the claims count as attempts, they stop at twelve, and only an operator's retry takes attempts back. */
  lemma StepAttempts(db: Db, now: int, step: Step, a: Id)
    requires Enabled(db, step) && a in db.actions
    ensures var after := Apply(db, now, step);
            && a in after.actions
            && (step != OfMoney(OperatorRetries(a)) ==> after.actions[a].attempts == db.actions[a].attempts + ClaimCount(db, now, step, a))
            && (step == OfMoney(OperatorRetries(a)) ==> after.actions[a].attempts <= db.actions[a].attempts)
            && (Claims(db, now, step, a) ==> db.actions[a].attempts < MAX_REFUND_ATTEMPTS)
  {
    hide ApplyCheckout, ApplyDesk, EnabledCheckout, EnabledDesk, After, SessionExpired, SessionPaid, RefundReported, Disputed, PayTerminal;
    hide ClaimRefund, CompleteRefund, FailRefund, RetryRefund, ResolveRefund, Taken, Authentic;
    match step
    case AtCheckout(s) => CheckoutActions(db, now, s);
    case AtDesk(s) => DeskActions(db, now, s);
    case OfMoney(s) =>
      match s {
        case StripeExpired(e) => NoticeActions(db, e, {});
        case StripePaid(id, e) => PaymentActions(db, now, id, e, a);
        case StripeRefund(found, e) => ReportAttempts(db, found, e, a);
        case StripeDispute(references) => NoticeActions(db, SessionEvent(0, 0, 0, 0, Linden(0)), references);
        case TerminalPays(id, q) => TerminalActions(db, now, id, q);
        case WorkerClaims(b) => ClaimAttempts(db, now, b, a);
        case WorkerCompletes(c, succeeded) => CompleteAttempts(db, now, c, succeeded, a);
        case WorkerFails(b) => FailAttempts(db, now, b, a);
        case OperatorRetries(b) => RetryAttempts(db, now, b, a);
        case OperatorResolves(b) => ResolveAttempts(db, b, a);
      }
  }

  lemma PaidNewAction(db: Db, now: int, id: Id, e: SessionEvent, a: Id)
    requires a !in db.actions
    ensures var after := After(SessionPaid(db, now, id, e), db); a in after.actions ==> after.actions[a].attempts == 0
  {
    Unchanged(SessionPaid(db, now, id, e), db);
    if SessionPaid(db, now, id, e).Commit? {
      SessionPaidCases(db, now, id, e);
      SettledRows(db, now, id, e);
    }
    hide SessionPaid, Settle, Payable, UsedReference, BoundSession, CompletedAttempts, After;
  }

  lemma RowUpdateAddsNone(actions: map<Id, Action>, after: map<Id, Action>, b: Id)
    requires after == actions || (b in actions && b in after && after == actions[b := after[b]])
    ensures after.Keys == actions.Keys
  {
  }

  lemma NoCompletedAction(db: Db, now: int, c: Claim, succeeded: bool)
    ensures After(CompleteRefund(db, now, c, succeeded), db).actions.Keys == db.actions.Keys
  {
    RowUpdateAddsNone(db.actions, After(CompleteRefund(db, now, c, succeeded), db).actions, c.action);
  }

  lemma NoReportedAction(db: Db, found: Option<Id>, e: RefundEvent)
    ensures After(RefundReported(db, found, e), db).actions.Keys == db.actions.Keys
  {
    hide RecordRefund, CumulativeRefund, RefundDisposition;
  }

  lemma NoResolvedAction(db: Db, b: Id)
    ensures After(ResolveRefund(db, b), db).actions.Keys == db.actions.Keys
  {
    RowUpdateAddsNone(db.actions, After(ResolveRefund(db, b), db).actions, b);
  }

  lemma NoFailedAction(db: Db, now: int, b: Id)
    ensures After(FailRefund(db, now, b), db).actions.Keys == db.actions.Keys
  {
    RowUpdateAddsNone(db.actions, After(FailRefund(db, now, b), db).actions, b);
  }

  lemma NoRequeuedAction(db: Db, now: int, b: Id)
    ensures After(RetryRefund(db, now, b), db).actions.Keys == db.actions.Keys
  {
    RowUpdateAddsNone(db.actions, After(RetryRefund(db, now, b), db).actions, b);
  }

  lemma NoClaimedAction(db: Db, now: int, b: Id)
    ensures After(ClaimRefund(db, now, b), db).actions.Keys == db.actions.Keys
  {
    ClaimForm(db, now, b);
    RowUpdateAddsNone(db.actions, ClaimRefund(db, now, b).db.actions, b);
    hide Due, ClaimedRow, ClaimOn, ClaimRefund, After;
  }

  /** A new action has never been claimed. */
  lemma NewActionsUnclaimed(db: Db, now: int, step: Step, a: Id)
    requires a !in db.actions
    ensures a in Apply(db, now, step).actions ==> Apply(db, now, step).actions[a].attempts == 0
  {
    hide ApplyCheckout, ApplyDesk, EnabledCheckout, EnabledDesk, After, SessionExpired, SessionPaid, RefundReported, Disputed, PayTerminal;
    hide ClaimRefund, CompleteRefund, FailRefund, RetryRefund, ResolveRefund, Taken, Authentic;
    match step
    case AtCheckout(s) => CheckoutActions(db, now, s);
    case AtDesk(s) => DeskActions(db, now, s);
    case OfMoney(s) =>
      match s {
        case StripeExpired(e) => NoticeActions(db, e, {});
        case StripePaid(id, e) => PaidNewAction(db, now, id, e, a);
        case StripeRefund(found, r) => NoReportedAction(db, found, r);
        case StripeDispute(references) => NoticeActions(db, SessionEvent(0, 0, 0, 0, Linden(0)), references);
        case TerminalPays(id, q) => TerminalActions(db, now, id, q);
        case WorkerClaims(b) => NoClaimedAction(db, now, b);
        case WorkerCompletes(c, succeeded) => NoCompletedAction(db, now, c, succeeded);
        case WorkerFails(b) => NoFailedAction(db, now, b);
        case OperatorRetries(b) => NoRequeuedAction(db, now, b);
        case OperatorResolves(b) => NoResolvedAction(db, b);
      }
  }

  ghost function ClaimsIn(db: Db, moments: seq<Moment>, a: Id): nat
    decreases |moments|
  {
    if moments == [] then 0
    else ClaimCount(db, moments[0].now, moments[0].step, a) + ClaimsIn(Apply(db, moments[0].now, moments[0].step), moments[1..], a)
  }

  ghost predicate Unretried(moments: seq<Moment>, a: Id) {
    forall i | 0 <= i < |moments| :: moments[i].step != OfMoney(OperatorRetries(a))
  }

  /** Without an operator's retry, an action is claimed at most as often as it has attempts left of its twelve. */
  lemma {:induction false} ClaimsAreBounded(db: Db, moments: seq<Moment>, a: Id)
    requires Runnable(db, moments) && a in db.actions && db.actions[a].attempts <= MAX_REFUND_ATTEMPTS
    requires Unretried(moments, a)
    ensures a in Run(db, moments).actions && Run(db, moments).actions[a].attempts <= MAX_REFUND_ATTEMPTS
    ensures ClaimsIn(db, moments, a) == Run(db, moments).actions[a].attempts - db.actions[a].attempts <= MAX_REFUND_ATTEMPTS - db.actions[a].attempts
    decreases |moments|
  {
    hide Apply, Enabled, Claims;
    if moments != [] {
      assert moments[0].step != OfMoney(OperatorRetries(a));
      StepAttempts(db, moments[0].now, moments[0].step, a);
      ClaimsAreBounded(Apply(db, moments[0].now, moments[0].step), moments[1..], a);
    }
  }

  ghost predicate WithinTwelve(actions: map<Id, Action>) {
    forall a | a in actions :: actions[a].attempts <= MAX_REFUND_ATTEMPTS
  }

  lemma StepWithinTwelve(db: Db, now: int, step: Step)
    requires Enabled(db, step) && WithinTwelve(db.actions)
    ensures WithinTwelve(Apply(db, now, step).actions)
  {
    var after := Apply(db, now, step);
    hide Apply, Enabled, Claims;
    forall a | a in after.actions ensures after.actions[a].attempts <= MAX_REFUND_ATTEMPTS {
      if a in db.actions {
        StepAttempts(db, now, step, a);
      } else {
        NewActionsUnclaimed(db, now, step, a);
      }
    }
  }

  /** Attempts of all actions stay within twelve in every run, retried or not. */
  lemma {:induction false} AttemptsStayBounded(db: Db, moments: seq<Moment>)
    requires Runnable(db, moments) && WithinTwelve(db.actions)
    ensures WithinTwelve(Run(db, moments).actions)
    decreases |moments|
  {
    hide Apply, Enabled, WithinTwelve;
    if moments != [] {
      StepWithinTwelve(db, moments[0].now, moments[0].step);
      AttemptsStayBounded(Apply(db, moments[0].now, moments[0].step), moments[1..]);
    }
  }
}
