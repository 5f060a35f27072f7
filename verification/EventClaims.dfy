/** How long a claim on a provider event keeps others away, and what each answer to a delivery means. */
module EventClaims {
  import opened Tables
  import opened Allocation
  import opened Runs
  import opened StripeInbox

  // ---------- one delivery ----------

  /** When each answer is given: CONFLICT for another type or digest, COMPLETE for a row that is so, BUSY while the lease of a
      row in process has not been reached by the server's clock, and CLAIMED otherwise.  Only a claim changes a row, its own:
      it is in process for two minutes of the database's clock, with one attempt more. */
  lemma ClaimAnswers(events: map<Id, EventRow>, now: int, wall: int, event: Id, kind: Id, digest: Id)
    ensures var (answer, after) := ClaimRow(events, now, wall, event, kind, digest);
            && (answer == Conflict <==> event in events && (events[event].kind != kind || events[event].digest != digest))
            && (answer == AlreadyComplete <==>
                  event in events && events[event].kind == kind && events[event].digest == digest && events[event].status == Complete)
            && (answer == Busy <==>
                  && event in events && events[event].kind == kind && events[event].digest == digest
                  && events[event].status == InProcess && events[event].lease.Some? && wall < events[event].lease.value)
            && (answer != Claimed ==> after == events)
            && (answer == Claimed ==>
                  && event in after && after == events[event := after[event]]
                  && after[event] == EventRow(kind, digest, InProcess, after[event].attempts, Some(now + 120))
                  && after[event].attempts == (if event in events then events[event].attempts else 0) + 1)
  {
  }

  /** What ends a claim: a handler that commits makes the row COMPLETE, or MANUAL_REVIEW if it asks for that, and a failure
      makes it FAILED; either way without a lease.  A row that is not in process is left alone. */
  lemma ClaimEnds(w: Inbox, now: int, event: Id, what: StripeEvent, outcome: Outcome<Handling>)
    ensures var claimed := event in w.events && w.events[event].status == InProcess;
            var handled := Next(w, Process(now, event, what, outcome));
            var failed := Next(w, Abandon(event));
            && (claimed && outcome.Commit? ==>
                  && handled.db == outcome.db && handled.payloads == w.payloads
                  && handled.events == w.events[event := EventRow(w.events[event].kind, w.events[event].digest,
                                                                  if outcome.value == ForReview then ManualReview else Complete,
                                                                  w.events[event].attempts, None)])
            && (!claimed || outcome.Rollback? ==> handled == w)
            && failed.db == w.db && failed.commits == w.commits && failed.payloads == w.payloads
            && failed.events == (if claimed then w.events[event := w.events[event].(status := Failed, lease := None)] else w.events)
  {
  }

  /** What an operator may do, with a row that failed, is under review, or is in process under a lease that both clocks have
      reached: handle it in the same way, or declare it COMPLETE.  Any other row is left alone. */
  lemma OperatorsMay(w: Inbox, now: int, wall: int, event: Id, what: StripeEvent, outcome: Outcome<Handling>)
    ensures var row := if event in w.events then Some(w.events[event]) else None;
            var open := && row.Some?
                        && (row.value.status == Failed || row.value.status == ManualReview
                            || (row.value.status == InProcess && row.value.lease.Some?
                                && row.value.lease.value <= wall && row.value.lease.value <= now));
            var retried := Next(w, Retry(now, wall, event, what, outcome));
            var settled := Next(w, Settled(now, wall, event));
            && (open && outcome.Commit? ==>
                  && retried.db == outcome.db
                  && retried.events == w.events[event := EventRow(row.value.kind, row.value.digest,
                                                                  if outcome.value == ForReview then ManualReview else Complete,
                                                                  row.value.attempts + 1, None)])
            && (!open || outcome.Rollback? ==> retried == w)
            && settled.db == w.db && settled.commits == w.commits
            && settled.events == (if open then w.events[event := row.value.(status := Complete, lease := None)] else w.events)
  {
  }

  // ---------- two deliveries ----------

  /** The delivery is answered CLAIMED. */
  predicate Claims(w: Inbox, step: InboxStep, event: Id) {
    step.Receive? && step.event == event && ClaimRow(w.events, step.now, step.wall, event, step.kind, step.digest).0 == Claimed
  }

  /** The event is in process under a lease until then. */
  predicate LeasedUntil(w: Inbox, event: Id, until: int) {
    event in w.events && w.events[event].status == InProcess && w.events[event].lease == Some(until)
  }

  /** The event is no longer in process, or somebody asks for it whose clock has reached that time. */
  ghost predicate Over(w: Inbox, step: InboxStep, event: Id, until: int) {
    || (event in w.events && w.events[event].status != InProcess)
    || (step.Receive? && step.event == event && until <= step.wall)
  }

  lemma {:induction false} DeliveredAll(w: Inbox, a: seq<InboxStep>, b: seq<InboxStep>)
    ensures Delivered(w, a + b) == Delivered(Delivered(w, a), b)
    decreases |a|
  {
    hide Next;
    if a == [] {
      assert a + b == b;
    } else {
      assert (a + b)[0] == a[0] && (a + b)[1..] == a[1..] + b;
      DeliveredAll(Next(w, a[0]), a[1..], b);
    }
  }

  /** One step: the lease goes on, or the row is no longer in process. */
  lemma LeaseGoesOn(w: Inbox, step: InboxStep, event: Id, until: int)
    requires LeasedUntil(w, event, until) && !Over(w, step, event, until)
    ensures !Claims(w, step, event)
    ensures LeasedUntil(Next(w, step), event, until) || (event in Next(w, step).events && Next(w, step).events[event].status != InProcess)
  {
    hide Apply;
  }

  /** Under a lease, nobody is given the event again before it is over. */
  lemma {:induction false} NotClaimedAgain(w: Inbox, steps: seq<InboxStep>, j: nat, event: Id, until: int) returns (k: nat)
    requires LeasedUntil(w, event, until) && j < |steps| && Claims(Delivered(w, steps[..j]), steps[j], event)
    ensures k <= j && Over(Delivered(w, steps[..k]), steps[k], event, until)
    decreases j
  {
    hide Next, Claims, LeasedUntil, Over;
    assert Delivered(w, steps[..0]) == w;
    if Over(w, steps[0], event, until) {
      k := 0;
    } else {
      LeaseGoesOn(w, steps[0], event, until);
      var next, rest := Next(w, steps[0]), steps[1..];
      assert steps[..1][1..] == [];
      assert Delivered(w, steps[..1]) == Delivered(next, []) == next;
      if j > 0 {
        assert steps[..j][0] == steps[0] && steps[..j][1..] == rest[..j - 1];
        if LeasedUntil(next, event, until) {
          var i := NotClaimedAgain(next, rest, j - 1, event, until);
          k := i + 1;
          assert steps[..k][0] == steps[0] && steps[..k][1..] == rest[..i];
        } else {
          k := 1;
          NoLongerInProcess(next, steps[1], event, until);
        }
      }
    }
  }

  lemma NoLongerInProcess(w: Inbox, step: InboxStep, event: Id, until: int)
    requires event in w.events && w.events[event].status != InProcess
    ensures Over(w, step, event, until)
  {
  }

  lemma ClaimLeases(w: Inbox, step: InboxStep, event: Id)
    requires Claims(w, step, event)
    ensures LeasedUntil(Next(w, step), event, step.now + 120)
  {
  }

  /** Over any run, of deliveries, handlers, failures and operators: if two deliveries of an event are both answered CLAIMED, then
      after the first and not later than the second the event was no longer in process, or somebody asked for it whose clock
      had reached the lease of the first, which is two minutes from its time. */
  lemma ClaimedTwice(w: Inbox, steps: seq<InboxStep>, i: nat, j: nat, event: Id) returns (k: nat)
    requires i < j < |steps|
    requires Claims(Delivered(w, steps[..i]), steps[i], event) && Claims(Delivered(w, steps[..j]), steps[j], event)
    ensures i < k <= j && Over(Delivered(w, steps[..k]), steps[k], event, steps[i].now + 120)
  {
    hide Next, ClaimRow, LeasedUntil, Over;
    var claimed := Next(Delivered(w, steps[..i]), steps[i]);
    var rest := steps[i + 1..];
    ClaimLeases(Delivered(w, steps[..i]), steps[i], event);
    SplitAt(w, steps, i, j - i - 1);
    var h := NotClaimedAgain(claimed, rest, j - i - 1, event, steps[i].now + 120);
    SplitAt(w, steps, i, h);
    k := i + 1 + h;
  }

  lemma SplitAt(w: Inbox, steps: seq<InboxStep>, i: nat, h: nat)
    requires i + 1 + h < |steps|
    ensures Delivered(w, steps[..i + 1 + h]) == Delivered(Next(Delivered(w, steps[..i]), steps[i]), steps[i + 1..][..h])
    ensures steps[i + 1..][h] == steps[i + 1 + h]
  {
    hide Next;
    var tail := steps[i + 1..][..h];
    assert steps[..i + 1 + h] == steps[..i] + ([steps[i]] + tail);
    DeliveredAll(w, steps[..i], [steps[i]] + tail);
    assert ([steps[i]] + tail)[1..] == tail;
  }
}
