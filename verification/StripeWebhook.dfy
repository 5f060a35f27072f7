/** The webhook route and the event claims as code: a table of event rows that its statements update, beside the
    database that the handlers change. */
module StripeWebhook {
  import opened Tables
  import opened Allocation
  import opened Invariants
  import opened Transactions
  import opened Store
  import opened StripeInbox
  import StripeHandler

  class EventTable {
    var events: map<Id, EventRow>

    constructor ()
      ensures events == map[]
    {
      events := map[];
    }

    /** claimStripeEvent. */
    method Claim(now: int, wall: int, event: Id, kind: Id, digest: Id) returns (result: ClaimResult)
      modifies this
      ensures (result, events) == ClaimRow(old(events), now, wall, event, kind, digest)
    {
      if event !in events {
        events := events[event := EventRow(kind, digest, InProcess, 1, Some(now + EVENT_LEASE))];
        return Claimed;
      }
      var current := events[event];
      if current.kind != kind || current.digest != digest {
        return Conflict;
      }
      if current.status == Complete {
        return AlreadyComplete;
      }
      if current.status == InProcess && current.lease.Some? && current.lease.value > wall {
        return Busy;
      }
      events := events[event := current.(status := InProcess, attempts := current.attempts + 1, lease := Some(now + EVENT_LEASE))];
      return Claimed;
    }

    /** failStripeEvent: without effect unless the row is in process. */
    method Fail(event: Id)
      modifies this
      ensures events == FailRow(old(events), event)
    {
      if event in events && events[event].status == InProcess {
        events := events[event := events[event].(status := Failed, lease := None)];
      }
    }

    /** resolveStripeEvent. */
    method Resolve(now: int, wall: int, event: Id) returns (ok: bool)
      modifies this
      ensures ok <==> Stuck(old(events), now, wall, event)
      ensures events == if ok then FinishRow(old(events), event, Complete) else old(events)
    {
      if event !in events {
        return false;
      }
      var row := events[event];
      if !(row.status in {Failed, ManualReview} || (row.status == InProcess && row.lease.Some? && row.lease.value <= wall)) {
        return false;
      }
      if !(row.status in {Failed, ManualReview} || (row.status == InProcess && row.lease.Some? && row.lease.value <= now)) {
        return false;
      }
      events := events[event := row.(status := Complete, lease := None)];
      return true;
    }
  }

  /** handleStripeEvent: the handler of the event's type. */
  method HandleStripeEvent(db: Database, now: int, e: StripeEvent)
    returns (status: Option<Handling>, ghost outcome: Outcome<Handling>)
    requires Inv(db.tables) && WellSent(db.tables, e) && db.held == []
    modifies db
    ensures Handles(old(db.tables), now, e, outcome) && status == Result(outcome)
    ensures status.Some? ==> db.tables == outcome.db
  {
    ghost var before := db.tables;
    hide Inv, SessionExpired, SessionPaid, RefundReported, Disputed, Fresh, Authentic;
    match e {
      case Expiry(s) =>
        status := StripeHandler.HandleExpired(db, s);
        outcome := SessionExpired(before, s);
      case Payment(id, s) =>
        status := StripeHandler.HandlePaid(db, now, id, s);
        outcome := SessionPaid(before, now, id, s);
      case RefundOf(references, r) =>
        var found, answer := StripeHandler.HandleRefund(db, references, r);
        status := answer;
        outcome := RefundReported(before, found, r);
        assert LedTo(before, references, found);
      case DisputeOf(references) =>
        status := StripeHandler.HandleDispute(db, references);
        outcome := Disputed(before, references);
      case Other =>
        status := Some(Handled);
        outcome := Commit(before, Handled);
    }
  }

  /** The route's second transaction: only a row that is still in process is handled, and its final status commits together
      with the handler's effects. */
  method FinishEvent(t: EventTable, db: Database, now: int, event: Id, e: StripeEvent)
    returns (ok: bool, ghost outcome: Outcome<Handling>)
    requires Inv(db.tables) && WellSent(db.tables, e)
    modifies t, db
    ensures event in old(t.events) && old(t.events)[event].status == InProcess ==> Handles(old(db.tables), now, e, outcome)
    ensures ok <==> event in old(t.events) && old(t.events)[event].status == InProcess && outcome.Commit?
    ensures db.tables == if ok then outcome.db else old(db.tables)
    ensures t.events == if ok then FinishRow(old(t.events), event, FinalStatus(outcome.value)) else old(t.events)
  {
    hide Inv, Handles, WellSent;
    var saved := db.Begin();
    if !(event in t.events && t.events[event].status == InProcess) {
      return false, Rollback;
    }
    var status;
    status, outcome := HandleStripeEvent(db, now, e);
    if status.None? {
      db.Rollback(saved);
      return false, outcome;
    }
    t.events := t.events[event := t.events[event].(status := FinalStatus(status.value), lease := None)];
    return true, outcome;
  }

  /** POST of the webhook route: three transactions, one after the other and nothing in between.  An event is either
      handled with its effects and its final status, or left FAILED, or was not the caller's to handle. */
  method ReceiveEvent(t: EventTable, db: Database, now: int, wall: int, event: Id, kind: Id, digest: Id, e: StripeEvent)
    returns (result: ClaimResult, handled: bool, ghost outcome: Outcome<Handling>)
    requires Inv(db.tables) && WellSent(db.tables, e)
    modifies t, db
    ensures result == ClaimRow(old(t.events), now, wall, event, kind, digest).0
    ensures result != Claimed ==> !handled && t.events == old(t.events) && db.tables == old(db.tables)
    ensures result == Claimed ==>
              && Handles(old(db.tables), now, e, outcome) && handled == outcome.Commit? && event in t.events
              && db.tables == After(outcome, old(db.tables))
              && t.events[event].status == (if handled then FinalStatus(outcome.value) else Failed)
              && t.events[event].attempts == (if event in old(t.events) then old(t.events)[event].attempts else 0) + 1
  {
    hide Inv, Handles, WellSent;
    result := t.Claim(now, wall, event, kind, digest);
    if result != Claimed {
      return result, false, Rollback;
    }
    handled, outcome := FinishEvent(t, db, now, event, e);
    if !handled {
      t.Fail(event);
    }
  }

  /** retryStripeEvent: claim, handler and final status in one transaction, so a handler that throws leaves the row as it was. */
  method RetryStripeEvent(t: EventTable, db: Database, now: int, wall: int, event: Id, e: StripeEvent)
    returns (ok: bool, ghost outcome: Outcome<Handling>)
    requires Inv(db.tables) && WellSent(db.tables, e)
    modifies t, db
    ensures Stuck(old(t.events), now, wall, event) ==> Handles(old(db.tables), now, e, outcome)
    ensures ok <==> Stuck(old(t.events), now, wall, event) && outcome.Commit?
    ensures db.tables == if ok then outcome.db else old(db.tables)
    ensures t.events == if ok then old(t.events)[event := old(t.events)[event].(status := FinalStatus(outcome.value),
                                                                               attempts := old(t.events)[event].attempts + 1, lease := None)]
                        else old(t.events)
  {
    hide Inv, Handles, WellSent;
    var rows := t.events;
    var saved := db.Begin();
    if event !in t.events {
      return false, Rollback;
    }
    var row := t.events[event];
    if !(row.status in {Failed, ManualReview} || (row.status == InProcess && row.lease.Some? && row.lease.value <= wall)) {
      return false, Rollback;
    }
    if !(row.status in {Failed, ManualReview} || (row.status == InProcess && row.lease.Some? && row.lease.value <= now)) {
      return false, Rollback;
    }
    t.events := t.events[event := row.(status := InProcess, attempts := row.attempts + 1, lease := Some(now + EVENT_LEASE))];
    var status;
    status, outcome := HandleStripeEvent(db, now, e);
    if status.None? {
      db.Rollback(saved);
      t.events := rows;
      return false, outcome;
    }
    t.events := t.events[event := t.events[event].(status := FinalStatus(status.value), lease := None)];
    return true, outcome;
  }
}
