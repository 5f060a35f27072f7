/** provider-actions.ts and the operator's retry and resolve: the refund queue, statement by statement. */
module ProviderActions {
  import opened Tables
  import opened Allocation
  import opened Store

  /** claimProviderAction, for the due row that its query found; `action` names a row that need not be due. */
  method ClaimProviderAction(db: Database, now: int, action: Id) returns (claim: Option<Claim>)
    modifies db
    ensures db.tables == After(ClaimRefund(old(db.tables), now, action), old(db.tables))
    ensures Some(claim) == Result(ClaimRefund(old(db.tables), now, action))
    ensures db.held == []
  {
    hide Due;
    var saved := db.Begin();
    if !(action in db.tables.actions && Due(db.tables.actions[action], now)) {
      return None;
    }
    var a := db.tables.actions[action];
    if a.attempts >= MAX_REFUND_ATTEMPTS {
      db.tables := db.tables.(actions := db.tables.actions[action := a.(state := NeedsOperator, lease := None)]);
      return None;
    }
    db.tables := db.tables.(actions := db.tables.actions[action :=
      a.(state := Processing, attempts := a.attempts + 1, lease := Some(now + REFUND_LEASE))]);
    return Some(Claim(action, a.payment, a.intent, a.amount, a.key));
  }

  function CompletedRow(a: Action, now: int, succeeded: bool): Action {
    a.(state := if succeeded then Succeeded else Queued,
       availableAt := if succeeded then a.availableAt else now + REFUND_BACKOFF,
       lease := None)
  }

  function AnsweredRow(p: Payment, succeeded: bool): Payment {
    p.(status := if succeeded then Refunded else InReview)
  }

  lemma CompleteAs(db: Db, now: int, c: Claim, succeeded: bool)
    ensures CompleteRefund(db, now, c, succeeded)
            == if !(c.action in db.actions && db.actions[c.action].state == Processing) || c.payment !in db.payments then Rollback
               else Commit(db.(actions := db.actions[c.action := CompletedRow(db.actions[c.action], now, succeeded)],
                               payments := db.payments[c.payment := AnsweredRow(db.payments[c.payment], succeeded)]), ())
  {
  }

  /** complete. */
  method Complete(db: Database, now: int, c: Claim, succeeded: bool) returns (ok: bool)
    requires c.action in db.tables.actions ==> c.payment in db.tables.payments
    modifies db
    ensures db.tables == After(CompleteRefund(old(db.tables), now, c, succeeded), old(db.tables))
    ensures ok == CompleteRefund(old(db.tables), now, c, succeeded).Commit?
    ensures db.held == []
  {
    CompleteAs(db.tables, now, c, succeeded);
    hide CompleteRefund, CompletedRow, AnsweredRow;
    var saved := db.Begin();
    if !(c.action in db.tables.actions && db.tables.actions[c.action].state == Processing) {
      return false;
    }
    db.tables := db.tables.(actions := db.tables.actions[c.action := CompletedRow(db.tables.actions[c.action], now, succeeded)]);
    db.tables := db.tables.(payments := db.tables.payments[c.payment := AnsweredRow(db.tables.payments[c.payment], succeeded)]);
    return true;
  }

  /** fail: it touches the row only while somebody is processing it. */
  method Fail(db: Database, now: int, action: Id)
    modifies db
    ensures db.tables == After(FailRefund(old(db.tables), now, action), old(db.tables))
    ensures db.held == []
  {
    var saved := db.Begin();
    if action in db.tables.actions && db.tables.actions[action].state == Processing {
      var a := db.tables.actions[action];
      db.tables := db.tables.(actions := db.tables.actions[action :=
        a.(state := if a.attempts >= MAX_REFUND_ATTEMPTS then NeedsOperator else Failing, lease := None,
           availableAt := now + REFUND_BACKOFF)]);
    }
  }

  /** retryProviderAction. */
  method RetryProviderAction(db: Database, now: int, action: Id) returns (ok: bool)
    modifies db
    ensures db.tables == After(RetryRefund(old(db.tables), now, action), old(db.tables))
    ensures ok == RetryRefund(old(db.tables), now, action).Commit?
    ensures db.held == []
  {
    var saved := db.Begin();
    if !(action in db.tables.actions && db.tables.actions[action].state in {Failing, NeedsOperator}) {
      return false;
    }
    db.tables := db.tables.(actions := db.tables.actions[action :=
      db.tables.actions[action].(state := Queued, attempts := 0, availableAt := now, lease := None)]);
    return true;
  }

  /** resolveProviderAction. */
  method ResolveProviderAction(db: Database, action: Id) returns (ok: bool)
    modifies db
    ensures db.tables == After(ResolveRefund(old(db.tables), action), old(db.tables))
    ensures ok == ResolveRefund(old(db.tables), action).Commit?
    ensures db.held == []
  {
    var saved := db.Begin();
    if !(action in db.tables.actions && db.tables.actions[action].state in {Failing, NeedsOperator}) {
      return false;
    }
    db.tables := db.tables.(actions := db.tables.actions[action := db.tables.actions[action].(state := Resolved, lease := None)]);
    return true;
  }
}
