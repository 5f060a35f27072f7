/** stripe-events.ts, the webhook route and the operator's retry: claims on provider events, and the transactions in
    which their handlers take effect. */
module StripeInbox {
  import opened Tables
  import opened Allocation
  import opened Invariants
  import opened Transactions
  import opened Evolution
  import opened Runs
  import opened Theorems
  import StripeHandler

  const EVENT_LEASE := 120

  // ---------- events and their handlers ----------

  /** An event as the handler sees it; `Other` is any type that it ignores. */
  datatype StripeEvent = Expiry(session: SessionEvent) | Payment(id: Id, session: SessionEvent)
                       | RefundOf(references: set<Id>, refund: RefundEvent) | DisputeOf(references: set<Id>) | Other

  datatype EventStatus = InProcess | Complete | ManualReview | Failed

  datatype EventRow = EventRow(kind: Id, digest: Id, status: EventStatus, attempts: nat, lease: Option<int>)

  datatype ClaimResult = Claimed | AlreadyComplete | Busy | Conflict

  /** What the handler may do to the database, and what it answers.  A refund's references may lead to any payment
      that carries one of them. */
  ghost predicate Handles(db: Db, now: int, e: StripeEvent, outcome: Outcome<Handling>) {
    match e
    case Expiry(s) => outcome == SessionExpired(db, s)
    case Payment(id, s) => outcome == SessionPaid(db, now, id, s)
    case RefundOf(references, r) =>
      exists found: Option<Id> :: LedTo(db, references, found) && outcome == RefundReported(db, found, r)
    case DisputeOf(references) => outcome == Disputed(db, references)
    case Other => outcome == Commit(db, Handled)
  }

  ghost predicate LedTo(db: Db, references: set<Id>, found: Option<Id>) {
    if found.Some? then StripeHandler.Referred(db.payments, references, found.value)
    else forall p | p in db.payments :: !StripeHandler.Referred(db.payments, references, p)
  }

  predicate WellSent(db: Db, e: StripeEvent) {
    e.Payment? ==> Fresh(db, e.id) && Authentic(db, e.session)
  }

  lemma HandlerKeeps(db: Db, now: int, e: StripeEvent, outcome: Outcome<Handling>)
    requires Inv(db) && WellSent(db, e) && Handles(db, now, e, outcome)
    ensures Keeps(db, After(outcome, db))
  {
    hide Inv, Keeps, SessionExpired, SessionPaid, RefundReported, Disputed, Fresh, Authentic, LedTo, After;
    match e
    case Expiry(s) => SessionExpiredKeeps(db, s);
    case Payment(id, s) => SessionPaidKeeps(db, now, id, s);
    case RefundOf(references, r) =>
      var found: Option<Id> :| LedTo(db, references, found) && outcome == RefundReported(db, found, r);
      RefundReportedKeeps(db, found, r);
    case DisputeOf(references) => DisputedKeeps(db, references);
    case Other =>
      NothingDone(db);
      Unchanged(outcome, db);
  }

  function FinalStatus(h: Handling): EventStatus {
    if h == Handled then Complete else ManualReview
  }

  // ---------- the rows of stripe_events ----------

  function Expired(row: EventRow, clock: int): bool {
    row.status == InProcess && row.lease.Some? && row.lease.value <= clock
  }

  /** claimStripeEvent; the lease is compared with the server's clock and set from the database's. */
  function ClaimRow(events: map<Id, EventRow>, now: int, wall: int, event: Id, kind: Id, digest: Id): (ClaimResult, map<Id, EventRow>) {
    if event !in events then (Claimed, events[event := EventRow(kind, digest, InProcess, 1, Some(now + EVENT_LEASE))])
    else
      var row := events[event];
      if row.kind != kind || row.digest != digest then (Conflict, events)
      else if row.status == Complete then (AlreadyComplete, events)
      else if row.status == InProcess && row.lease.Some? && row.lease.value > wall then (Busy, events)
      else (Claimed, events[event := row.(status := InProcess, attempts := row.attempts + 1, lease := Some(now + EVENT_LEASE))])
  }

  /** failStripeEvent. */
  function FailRow(events: map<Id, EventRow>, event: Id): map<Id, EventRow> {
    if event in events && events[event].status == InProcess
    then events[event := events[event].(status := Failed, lease := None)] else events
  }

  function FinishRow(events: map<Id, EventRow>, event: Id, status: EventStatus): map<Id, EventRow>
    requires event in events
  {
    events[event := events[event].(status := status, lease := None)]
  }

  /** The rows that an operator may retry or resolve: the server's clock and the database's must both find the lease over. */
  predicate Stuck(events: map<Id, EventRow>, now: int, wall: int, event: Id) {
    && event in events
    && (events[event].status in {Failed, ManualReview} || (Expired(events[event], wall) && Expired(events[event], now)))
  }

  // ---------- the inbox as a state machine ----------

  /** The database, the event rows, for each event how often a handler's effects were committed, and what the digests of
      payloads stand for. */
  datatype Inbox = Inbox(db: Db, events: map<Id, EventRow>, commits: map<Id, nat>, payloads: map<Id, StripeEvent>)

  datatype InboxStep =
    | Receive(now: int, wall: int, event: Id, kind: Id, digest: Id)
    | Process(now: int, event: Id, what: StripeEvent, outcome: Outcome<Handling>)    // by any claimant, in time or stale
    | Abandon(event: Id)                                                             // failStripeEvent, however late
    | Retry(now: int, wall: int, event: Id, what: StripeEvent, outcome: Outcome<Handling>)
    | Settled(now: int, wall: int, event: Id)                                        // resolveStripeEvent
    | Meanwhile(now: int, step: Step)                                                // any other transaction

  function CommitsOf(commits: map<Id, nat>, event: Id): nat {
    if event in commits then commits[event] else 0
  }

  /** What a payload says, apart from the identifier that its handler may give to a new row. */
  function Said(what: StripeEvent): StripeEvent {
    if what.Payment? then what.(id := 0) else what
  }

  /** The handler reads the payload that the row's digest is the digest of. */
  predicate IsPayload(w: Inbox, event: Id, what: StripeEvent) {
    event in w.events && w.events[event].digest in w.payloads ==> w.payloads[w.events[event].digest] == Said(what)
  }

  ghost predicate CanReceive(w: Inbox, step: InboxStep) {
    match step
    case Process(now, event, what, outcome) => WellSent(w.db, what) && Handles(w.db, now, what, outcome) && IsPayload(w, event, what)
    case Retry(now, _, event, what, outcome) => WellSent(w.db, what) && Handles(w.db, now, what, outcome) && IsPayload(w, event, what)
    case Meanwhile(_, s) => Enabled(w.db, s)
    case _ => true
  }

  ghost function Next(w: Inbox, step: InboxStep): Inbox {
    match step
    case Receive(now, wall, event, kind, digest) => w.(events := ClaimRow(w.events, now, wall, event, kind, digest).1)
    case Process(_, event, _, outcome) =>
      if event in w.events && w.events[event].status == InProcess && outcome.Commit?
      then Inbox(outcome.db, FinishRow(w.events, event, FinalStatus(outcome.value)),
                 w.commits[event := CommitsOf(w.commits, event) + 1], w.payloads) else w
    case Abandon(event) => w.(events := FailRow(w.events, event))
    case Retry(now, wall, event, _, outcome) =>
      if Stuck(w.events, now, wall, event) && outcome.Commit?
      then Inbox(outcome.db,
                 w.events[event := w.events[event].(status := FinalStatus(outcome.value), attempts := w.events[event].attempts + 1, lease := None)],
                 w.commits[event := CommitsOf(w.commits, event) + 1], w.payloads) else w
    case Settled(now, wall, event) =>
      if Stuck(w.events, now, wall, event) then w.(events := FinishRow(w.events, event, Complete)) else w
    case Meanwhile(now, s) => w.(db := Apply(w.db, now, s))
  }

  /** Every committed handling used up a claim of its own, and a row in process has one left. */
  ghost predicate Metered(events: map<Id, EventRow>, commits: map<Id, nat>) {
    && (forall e | e in commits :: e in events)
    && (forall e | e in events :: CommitsOf(commits, e) + (if events[e].status == InProcess then 1 else 0) <= events[e].attempts)
  }

  /** What no step changes about a row. */
  predicate RowKept(before: EventRow, after: EventRow) {
    && after.kind == before.kind && after.digest == before.digest && before.attempts <= after.attempts
    && (before.status == Complete ==> after == before)
  }

  ghost predicate RowsKept(before: map<Id, EventRow>, after: map<Id, EventRow>) {
    forall e | e in before :: e in after && RowKept(before[e], after[e])
  }

  /** What a step makes of the database undoes nothing. */
  lemma NextEvolves(w: Inbox, step: InboxStep)
    requires Inv(w.db) && CanReceive(w, step)
    ensures Inv(Next(w, step).db) && Evolves(w.db, Next(w, step).db)
  {
    hide Inv, Keeps, Evolves, Handles, WellSent, Apply, Enabled, FinishRow, FailRow, ClaimRow, Stuck, CommitsOf, IsPayload;
    NothingDone(w.db);
    Kept(w.db, w.db);
    match step
    case Process(now, _, what, outcome) => CommittedEvolves(w.db, now, what, outcome);
    case Retry(now, _, _, what, outcome) => CommittedEvolves(w.db, now, what, outcome);
    case Meanwhile(now, s) =>
      StepKeeps(w.db, now, s);
      Kept(w.db, Apply(w.db, now, s));
    case _ =>
  }

  lemma CommittedEvolves(db: Db, now: int, what: StripeEvent, outcome: Outcome<Handling>)
    requires Inv(db) && WellSent(db, what) && Handles(db, now, what, outcome)
    ensures outcome.Commit? ==> Inv(outcome.db) && Evolves(db, outcome.db)
  {
    hide *;
    HandlerKeeps(db, now, what, outcome);
    Kept(db, After(outcome, db));
    Unchanged(outcome, db);
  }

  lemma NextKeepsRows(w: Inbox, step: InboxStep)
    requires Metered(w.events, w.commits)
    ensures Metered(Next(w, step).events, Next(w, step).commits) && RowsKept(w.events, Next(w, step).events)
  {
    hide Apply;
  }

  /** Completion is final, type and digest never change, and handler commits never exceed claims. */
  lemma NextKeeps(w: Inbox, step: InboxStep)
    requires Inv(w.db) && Metered(w.events, w.commits) && CanReceive(w, step)
    ensures Metered(Next(w, step).events, Next(w, step).commits) && RowsKept(w.events, Next(w, step).events)
    ensures Inv(Next(w, step).db)
  {
    hide *;
    NextEvolves(w, step);
    NextKeepsRows(w, step);
  }

  /** An inbox step changes the database only when a handler commits, and then the event's row, which was in process or
      was claimed by the same transaction, becomes COMPLETE or MANUAL_REVIEW with it. */
  lemma EffectsCommitTogether(w: Inbox, step: InboxStep)
    requires !step.Meanwhile? && Next(w, step).db != w.db
    ensures step.Process? || step.Retry?
    ensures step.event in w.events && w.events[step.event].status != Complete
    ensures var row := Next(w, step).events[step.event];
            && row.status in {Complete, ManualReview} && row.lease.None?
            && (step.Process? ==> w.events[step.event].status == InProcess && row.attempts == w.events[step.event].attempts)
            && (step.Retry? ==> row.attempts == w.events[step.event].attempts + 1)
    ensures CommitsOf(Next(w, step).commits, step.event) == CommitsOf(w.commits, step.event) + 1
  {
  }

  ghost predicate Receivable(w: Inbox, steps: seq<InboxStep>)
    decreases |steps|
  {
    steps != [] ==> CanReceive(w, steps[0]) && Receivable(Next(w, steps[0]), steps[1..])
  }

  ghost function Delivered(w: Inbox, steps: seq<InboxStep>): Inbox
    decreases |steps|
  {
    if steps == [] then w else Delivered(Next(w, steps[0]), steps[1..])
  }

  lemma RowsKeptTransitive(a: map<Id, EventRow>, b: map<Id, EventRow>, c: map<Id, EventRow>)
    requires RowsKept(a, b) && RowsKept(b, c)
    ensures RowsKept(a, c)
  {
  }

  /** Over any run of deliveries, expired leases, stale claimants, late failures and operators' retries: an event that is
      COMPLETE stays exactly so, its type and digest never change, and its handler's effects are committed at most as
      often as it was claimed. */
  lemma {:induction false} CommitsNeverExceedClaims(w: Inbox, steps: seq<InboxStep>)
    requires Inv(w.db) && Metered(w.events, w.commits) && Receivable(w, steps)
    ensures var end := Delivered(w, steps);
            && Inv(end.db) && RowsKept(w.events, end.events)
            && forall e | e in end.events :: CommitsOf(end.commits, e) <= end.events[e].attempts
    decreases |steps|
  {
    hide Inv, CanReceive, Next, RowsKept;
    if steps == [] {
      Unkept(w.events);
    } else {
      NextKeeps(w, steps[0]);
      CommitsNeverExceedClaims(Next(w, steps[0]), steps[1..]);
      RowsKeptTransitive(w.events, Next(w, steps[0]).events, Delivered(w, steps).events);
    }
  }

  lemma Unkept(events: map<Id, EventRow>)
    ensures RowsKept(events, events)
  {
  }

  /** A handler whose event is COMPLETE never takes effect again. */
  lemma CompleteIsNeverHandledAgain(w: Inbox, step: InboxStep, event: Id)
    requires event in w.events && w.events[event].status == Complete && (step.Process? || step.Retry?)
    requires step.event == event
    ensures Next(w, step) == w
  {
  }

  // ---------- paid sessions ----------

  /** The event says that this session was paid. */
  predicate Pays(w: Inbox, event: Id, e: SessionEvent) {
    event in w.events && w.events[event].digest in w.payloads && w.payloads[w.events[event].digest] == StripeEvent.Payment(0, e)
  }

  /** Every paid session whose event was handled has its one payment. */
  ghost predicate PaidRecorded(w: Inbox) {
    forall event, e | Pays(w, event, e) && CommitsOf(w.commits, event) > 0 :: exists p :: RecordedOnce(w.db, e, p)
  }

  lemma HandledRecords(db: Db, now: int, what: StripeEvent, outcome: Outcome<Handling>, e: SessionEvent)
    requires Inv(db) && WellSent(db, what) && Handles(db, now, what, outcome) && Said(what) == StripeEvent.Payment(0, e) && outcome.Commit?
    ensures exists p :: RecordedOnce(outcome.db, e, p)
  {
    hide Inv, SessionPaid, RecordedOnce, Fresh, Authentic;
    var p := PaidSessionRecorded(db, now, what.id, e);
  }

  /** The step that hands an event's effects to the database. */
  predicate Hands(step: InboxStep, event: Id) {
    (step.Process? || step.Retry?) && step.event == event
  }

  lemma CommitsElsewhere(w: Inbox, step: InboxStep, event: Id, e: SessionEvent)
    requires Metered(w.events, w.commits) && Pays(Next(w, step), event, e) && CommitsOf(Next(w, step).commits, event) > 0
    ensures CommitsOf(w.commits, event) > 0 ==> Pays(w, event, e)
    ensures CommitsOf(w.commits, event) == 0 ==>
              Hands(step, event) && Pays(w, event, e) && step.outcome.Commit? && Next(w, step).db == step.outcome.db
  {
    hide Apply;
  }

  lemma PayloadSaid(w: Inbox, event: Id, e: SessionEvent, what: StripeEvent)
    requires Pays(w, event, e) && IsPayload(w, event, what)
    ensures Said(what) == StripeEvent.Payment(0, e)
  {
  }

  lemma NextRecords(w: Inbox, step: InboxStep)
    requires Inv(w.db) && Metered(w.events, w.commits) && CanReceive(w, step) && PaidRecorded(w)
    ensures PaidRecorded(Next(w, step))
  {
    hide Inv, Evolves, Next, RecordedOnce, Handles, WellSent, CommitsOf, Metered, Pays;
    var next := Next(w, step);
    NextEvolves(w, step);
    forall event, e | Pays(next, event, e) && CommitsOf(next.commits, event) > 0 ensures exists p :: RecordedOnce(next.db, e, p) {
      CommitsElsewhere(w, step, event, e);
      if CommitsOf(w.commits, event) > 0 {
        var p :| RecordedOnce(w.db, e, p);
        RecordStays(w.db, next.db, e, p);
      } else {
        PayloadSaid(w, event, e, step.what);
        HandledRecords(w.db, step.now, step.what, step.outcome, e);
      }
    }
  }

  /** Over any run: once a handler of a paid session's event has committed, the session has exactly one payment, of its intent,
      amount and invoice, credited or being refunded, in every later state. */
  lemma {:induction false} PaidEventsRecorded(w: Inbox, steps: seq<InboxStep>)
    requires Inv(w.db) && Metered(w.events, w.commits) && Receivable(w, steps) && PaidRecorded(w)
    ensures PaidRecorded(Delivered(w, steps))
    decreases |steps|
  {
    hide Inv, CanReceive, Next, PaidRecorded, Metered;
    if steps != [] {
      NextKeeps(w, steps[0]);
      NextRecords(w, steps[0]);
      PaidEventsRecorded(Next(w, steps[0]), steps[1..]);
    }
  }

  /** From an inbox without events on, no condition is left. */
  lemma PaidEventsRecordedFromStart(db: Db, payloads: map<Id, StripeEvent>, steps: seq<InboxStep>)
    requires Receivable(Inbox(db, map[], map[], payloads), steps)
    requires Inv(db)
    ensures PaidRecorded(Delivered(Inbox(db, map[], map[], payloads), steps))
  {
    hide Inv, Receivable, Delivered;
    PaidEventsRecorded(Inbox(db, map[], map[], payloads), steps);
  }
}
