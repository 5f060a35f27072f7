/** The rental terminal's payment queue: linkset data that survives resets, parallel lists of requests under way that do
    not, and a network that loses, delays and repeats messages, in front of the server's deduplication. */
module TerminalQueue {
  import opened Tables
  import opened Allocation
  import opened Invariants
  import opened Evolution
  import opened Transactions
  import opened Runs

  const MAX_QUEUED := 32
  const NULL_KEY: Id := 0

  /** What the payment event is about; `body` stands for the exact text that is signed and hashed. */
  datatype Payload = Payload(payer: Id, amount: int, body: Id)

  /** The script's state: the persisted queue, by event, and the lists gRequestIds and gQueueKeys. */
  datatype Script = Script(queue: map<Id, Payload>, ids: seq<Id>, keys: seq<Id>)

  ghost predicate ValidScript(s: Script) {
    && |s.queue| <= MAX_QUEUED && |s.ids| == |s.keys|
    && (forall i, j | 0 <= i < j < |s.keys| :: s.keys[i] != s.keys[j])
  }

  /** sendPayment, when the request it makes gets the given key; NULL_KEY if none was made. */
  function Send(s: Script, event: Id, request: Id): Script {
    if event in s.keys then s else s.(ids := s.ids + [request], keys := s.keys + [event])
  }

  /** retryQueue, for the keys that the linkset data returned and the requests that sendPayment would make for them. */
  function Retry(s: Script, found: seq<Id>, requests: seq<Id>): Script
    requires |requests| == |found|
    decreases |found|
  {
    if found == [] then s
    else Retry(if found[0] in s.queue then Send(s, found[0], requests[0]) else s, found[1..], requests[1..])
  }

  /** money: refused when the queue is full or the linkset data cannot be written. */
  function Take(s: Script, event: Id, p: Payload, persisted: bool, request: Id): Script {
    if |s.queue| >= MAX_QUEUED || !persisted then s else Send(s.(queue := s.queue[event := p]), event, request)
  }

  function IndexOf(ids: seq<Id>, request: Id): (at: int)
    ensures -1 <= at < |ids|
    ensures at >= 0 ==> ids[at] == request && forall i | 0 <= i < at :: ids[i] != request
    ensures at == -1 ==> request !in ids
  {
    if ids == [] then -1
    else if ids[0] == request then 0
    else
      var at := IndexOf(ids[1..], request);
      if at == -1 then -1 else at + 1
  }

  function Without<T>(s: seq<T>, at: nat): seq<T>
    requires at < |s|
  {
    s[..at] + s[at + 1..]
  }

  /** http_response of a payment request. */
  function Answer(s: Script, request: Id, success: bool): Script {
    var at := IndexOf(s.ids, request);
    if at == -1 || at >= |s.keys| then s
    else Script(if success then s.queue - {s.keys[at]} else s.queue, Without(s.ids, at), Without(s.keys, at))
  }

  /** A reset forgets the requests under way and nothing that was persisted. */
  function Reset(s: Script): Script {
    s.(ids := [], keys := [])
  }

  lemma SendValid(s: Script, event: Id, request: Id)
    requires ValidScript(s)
    ensures ValidScript(Send(s, event, request)) && Send(s, event, request).queue == s.queue
  {
  }

  lemma AnswerValid(s: Script, request: Id, success: bool)
    requires ValidScript(s)
    ensures ValidScript(Answer(s, request, success))
    ensures Answer(s, request, success).queue.Keys <= s.queue.Keys
  {
    var at := IndexOf(s.ids, request);
    if at != -1 {
      var rest := s.queue - {s.keys[at]};
      assert rest.Keys <= s.queue.Keys;
      FewerKeys(rest.Keys, s.queue.Keys);
    }
  }

  lemma FewerKeys(a: set<Id>, b: set<Id>)
    requires a <= b
    ensures |a| <= |b|
  {
    if a != {} {
      var x :| x in a;
      FewerKeys(a - {x}, b - {x});
    }
  }

  // ---------- the script as code ----------

  class Terminal {
    var queue: map<Id, Payload>
    var gRequestIds: seq<Id>
    var gQueueKeys: seq<Id>

    ghost function State(): Script
      reads this
    {
      Script(queue, gRequestIds, gQueueKeys)
    }

    constructor ()
      ensures State() == Script(map[], [], [])
    {
      queue, gRequestIds, gQueueKeys := map[], [], [];
    }

    /** `request` is what llHTTPRequest returns if it is called. */
    method SendPayment(queueKey: Id, request: Id) returns (requested: bool)
      modifies this
      ensures State() == Send(old(State()), queueKey, request)
      ensures requested <==> queueKey !in old(gQueueKeys)
    {
      if queueKey in gQueueKeys {
        return false;
      }
      gRequestIds := gRequestIds + [request];
      gQueueKeys := gQueueKeys + [queueKey];
      return true;
    }

    /** The loop over the persisted keys. */
    method RetryQueue(found: seq<Id>, requests: seq<Id>)
      requires |requests| == |found|
      modifies this
      ensures State() == Retry(old(State()), found, requests)
    {
      var i := 0;
      while i < |found|
        invariant 0 <= i <= |found|
        invariant Retry(State(), found[i..], requests[i..]) == Retry(old(State()), found, requests)
      {
        assert found[i..][1..] == found[i + 1..] && requests[i..][1..] == requests[i + 1..];
        if found[i] in queue {
          var _ := SendPayment(found[i], requests[i]);
        }
        i := i + 1;
      }
    }

    /** The money event. */
    method Money(event: Id, p: Payload, persisted: bool, request: Id) returns (accepted: bool)
      modifies this
      ensures State() == Take(old(State()), event, p, persisted, request)
      ensures accepted <==> |old(queue)| < MAX_QUEUED && persisted
    {
      if |queue| >= MAX_QUEUED {
        return false;
      }
      if !persisted {
        return false;
      }
      queue := queue[event := p];
      var _ := SendPayment(event, request);
      return true;
    }

    /** The http_response event, for a request that is neither the poll nor the registration. */
    method HttpResponse(request: Id, status: int)
      modifies this
      ensures State() == Answer(old(State()), request, 200 <= status < 300)
    {
      var at := IndexOf(gRequestIds, request);
      if at != -1 && at < |gQueueKeys| {
        var queueKey := gQueueKeys[at];
        if status >= 200 && status < 300 {
          queue := queue - {queueKey};
        }
        gRequestIds := Without(gRequestIds, at);
        gQueueKeys := Without(gQueueKeys, at);
      }
    }

    /** llResetScript: globals start over, linkset data does not. */
    method ResetScript()
      modifies this
      ensures State() == Reset(old(State()))
    {
      gRequestIds, gQueueKeys := [], [];
    }
  }

  // ---------- terminal, network and server ----------

  /** `sent` are all requests ever made, which the network may deliver late, again or never; `answered` are the requests
      that the server has ever answered with success; `taken` are all payments that the terminal ever queued. */
  datatype Estate = Estate(db: Db, script: Script, sent: map<Id, (Id, Payload)>, answered: set<Id>, taken: map<Id, Payload>)

  datatype Happening =
    | Pays(event: Id, payload: Payload, persisted: bool, request: Id)
    | Sends(event: Id, request: Id)                         // one iteration of retryQueue
    | Arrives(now: int, id: Id, request: Id)                // some copy of a request reaches the server
    | Responds(request: Id, status: int)                    // some answer, or an error on the way, reaches the script
    | Resets
    | Elsewhere(now: int, step: Step)

  function PaymentOf(terminal: Id, event: Id, p: Payload): TerminalPayment {
    TerminalPayment(terminal, event, p.payer, p.amount, p.body)
  }

  /** Requests get new keys, or none; only the server's success produces a success status. */
  ghost predicate MayHappen(w: Estate, terminal: Id, h: Happening) {
    match h
    case Pays(event, _, _, request) => event !in w.taken && (request == NULL_KEY || request !in w.sent)
    case Sends(event, request) => event in w.script.queue && (request == NULL_KEY || request !in w.sent)
    case Arrives(_, id, request) => Fresh(w.db, id) && request in w.sent
    case Responds(request, status) => request != NULL_KEY && (200 <= status < 300 ==> request in w.answered)
    case Resets => true
    case Elsewhere(_, step) => Enabled(w.db, step)
  }

  /** The request of a send, if one was made. */
  function Requested(sent: map<Id, (Id, Payload)>, s: Script, event: Id, p: Payload, request: Id): map<Id, (Id, Payload)> {
    if event in s.keys || request == NULL_KEY then sent else sent[request := (event, p)]
  }

  ghost function Happens(w: Estate, terminal: Id, h: Happening): Estate {
    match h
    case Pays(event, p, persisted, request) =>
      if |w.script.queue| >= MAX_QUEUED || !persisted then w
      else w.(script := Take(w.script, event, p, persisted, request),
              sent := Requested(w.sent, w.script, event, p, request), taken := w.taken[event := p])
    case Sends(event, request) =>
      if event !in w.script.queue then w
      else w.(script := Send(w.script, event, request), sent := Requested(w.sent, w.script, event, w.script.queue[event], request))
    case Arrives(now, id, request) =>
      if request !in w.sent then w
      else
        var outcome := PayTerminal(w.db, now, id, PaymentOf(terminal, w.sent[request].0, w.sent[request].1));
        w.(db := After(outcome, w.db), answered := if outcome.Commit? then w.answered + {request} else w.answered)
    case Responds(request, status) => w.(script := Answer(w.script, request, 200 <= status < 300))
    case Resets => w.(script := Reset(w.script))
    case Elsewhere(now, step) => w.(db := Apply(w.db, now, step))
  }

  /** The server's record of the event is a record of exactly this payment. */
  predicate RecordedAs(receipts: map<(Id, Id), Receipt>, terminal: Id, event: Id, p: Payload) {
    && (terminal, event) in receipts && receipts[(terminal, event)].payer == p.payer
    && receipts[(terminal, event)].amount == p.amount && receipts[(terminal, event)].body == p.body
  }

  /** The queue, the requests and the lists are about payments that were taken. */
  ghost predicate AboutTaken(s: Script, sent: map<Id, (Id, Payload)>, taken: map<Id, Payload>) {
    && NULL_KEY !in sent
    && (forall e | e in s.queue :: e in taken && taken[e] == s.queue[e])
    && (forall e | e in s.keys :: e in taken)
    && (forall r | r in sent :: sent[r].0 in taken && taken[sent[r].0] == sent[r].1)
  }

  /** The lists name the events of their requests. */
  ghost predicate Listed(ids: seq<Id>, keys: seq<Id>, sent: map<Id, (Id, Payload)>) {
    && |ids| == |keys|
    && (forall i | 0 <= i < |ids| && ids[i] != NULL_KEY :: ids[i] in sent && sent[ids[i]].0 == keys[i])
  }

  ghost predicate Tracked(s: Script, sent: map<Id, (Id, Payload)>, taken: map<Id, Payload>) {
    ValidScript(s) && AboutTaken(s, sent, taken) && Listed(s.ids, s.keys, sent)
  }

  ghost predicate AnswersRecorded(receipts: map<(Id, Id), Receipt>, terminal: Id, sent: map<Id, (Id, Payload)>, answered: set<Id>) {
    forall r | r in answered :: r in sent && RecordedAs(receipts, terminal, sent[r].0, sent[r].1)
  }

  /** Nothing that was taken is lost: it is still queued, or the server has it on record. */
  ghost predicate NothingLost(receipts: map<(Id, Id), Receipt>, terminal: Id, queue: map<Id, Payload>, taken: map<Id, Payload>) {
    forall e | e in taken && e !in queue :: RecordedAs(receipts, terminal, e, taken[e])
  }

  ghost predicate InOrder(w: Estate, terminal: Id) {
    && Inv(w.db) && Tracked(w.script, w.sent, w.taken)
    && AnswersRecorded(w.db.receipts, terminal, w.sent, w.answered)
    && NothingLost(w.db.receipts, terminal, w.script.queue, w.taken)
  }

  /** The records that the estate relies on outlive every transaction. */
  lemma RecordsStay(w: Estate, terminal: Id, receipts: map<(Id, Id), Receipt>)
    requires ReceiptsKept(w.db.receipts, receipts)
    requires AnswersRecorded(w.db.receipts, terminal, w.sent, w.answered)
    requires NothingLost(w.db.receipts, terminal, w.script.queue, w.taken)
    ensures AnswersRecorded(receipts, terminal, w.sent, w.answered) && NothingLost(receipts, terminal, w.script.queue, w.taken)
  {
  }

  lemma ReceiptsOnly(db: Db, after: Db)
    requires Evolves(db, after)
    ensures ReceiptsKept(db.receipts, after.receipts)
  {
    hide ReceiptsKept;
  }

  /** The server answers with success only if its record is of the payment that it was sent. */
  lemma SuccessIsRecorded(db: Db, now: int, id: Id, terminal: Id, event: Id, p: Payload)
    requires PayTerminal(db, now, id, PaymentOf(terminal, event, p)).Commit?
    ensures RecordedAs(PayTerminal(db, now, id, PaymentOf(terminal, event, p)).db.receipts, terminal, event, p)
  {
    var q := PaymentOf(terminal, event, p);
    if (terminal, event) in db.receipts {
      PayReplay(db, now, id, q);
      SamePayload(db, now, id, q);
    } else {
      PayForm(db, now, id, q);
      var listing := db.terminals[terminal];
      var clean := Clean(db, now, listing);
      var after := PayTerminal(db, now, id, q).db;
      hide Clean, Lengthen, StartLease, ReviewPayment, Vacant, PayTerminal, RecordedAs;
      if r, weeks :| r in clean.rentals && clean.rentals[r].status == Active && weeks >= 1 && after == Lengthen(clean, now, id, q, r, weeks) {
        LengthenRecords(clean, now, id, q, r, weeks);
      } else if user, weeks :| weeks >= 1 && user in db.users && Vacant(clean.rentals, listing)
                               && after == StartLease(clean, now, id, q, listing, user, weeks) {
        StartRecords(clean, now, id, q, listing, user, weeks);
      } else {
        var expected :| after == ReviewPayment(clean, now, id, q, listing, expected);
        ReviewRecords(clean, now, id, q, listing, expected);
      }
    }
  }

  lemma SamePayload(db: Db, now: int, id: Id, q: TerminalPayment)
    requires PayTerminal(db, now, id, q).Commit? && (q.terminal, q.event) in db.receipts
    ensures var prior := db.receipts[(q.terminal, q.event)]; prior.body == q.body && prior.payer == q.payer && prior.amount == q.amount
    ensures PayTerminal(db, now, id, q).db == db
  {
    hide Clean, Lengthen, StartLease, ReviewPayment;
  }

  lemma LengthenRecords(db: Db, now: int, id: Id, q: TerminalPayment, r: Id, weeks: int)
    requires r in db.rentals && weeks >= 0
    ensures RecordedAs(Lengthen(db, now, id, q, r, weeks).receipts, q.terminal, q.event, Payload(q.payer, q.amount, q.body))
  {
  }

  lemma StartRecords(db: Db, now: int, id: Id, q: TerminalPayment, listing: Id, user: Id, weeks: int)
    requires weeks >= 0
    ensures RecordedAs(StartLease(db, now, id, q, listing, user, weeks).receipts, q.terminal, q.event, Payload(q.payer, q.amount, q.body))
  {
    hide Promote, RedeemReservations;
  }

  lemma ReviewRecords(db: Db, now: int, id: Id, q: TerminalPayment, listing: Id, expected: int)
    ensures RecordedAs(ReviewPayment(db, now, id, q, listing, expected).receipts, q.terminal, q.event, Payload(q.payer, q.amount, q.body))
  {
  }

  // ---------- what each happening keeps ----------

  lemma ListedSend(ids: seq<Id>, keys: seq<Id>, sent: map<Id, (Id, Payload)>, event: Id, p: Payload, request: Id)
    requires Listed(ids, keys, sent) && (request == NULL_KEY || request !in sent)
    ensures Listed(ids + [request], keys + [event], if request == NULL_KEY then sent else sent[request := (event, p)])
  {
  }

  lemma TakenSend(s: Script, sent: map<Id, (Id, Payload)>, taken: map<Id, Payload>, event: Id, request: Id)
    requires AboutTaken(s, sent, taken) && event in s.queue
    ensures AboutTaken(Send(s, event, request), Requested(sent, s, event, s.queue[event], request), taken)
  {
  }

  lemma TrackedSend(s: Script, sent: map<Id, (Id, Payload)>, taken: map<Id, Payload>, event: Id, request: Id)
    requires Tracked(s, sent, taken) && event in s.queue && (request == NULL_KEY || request !in sent)
    ensures Tracked(Send(s, event, request), Requested(sent, s, event, s.queue[event], request), taken)
    ensures Send(s, event, request).queue == s.queue
  {
    SendValid(s, event, request);
    TakenSend(s, sent, taken, event, request);
    ListedSend(s.ids, s.keys, sent, event, s.queue[event], request);
    hide ValidScript, AboutTaken, Listed;
  }

  /** A payment that is persisted joins the queue and the payments taken. */
  lemma TrackedQueued(s: Script, sent: map<Id, (Id, Payload)>, taken: map<Id, Payload>, event: Id, p: Payload)
    requires Tracked(s, sent, taken) && event !in taken && |s.queue| < MAX_QUEUED
    ensures Tracked(s.(queue := s.queue[event := p]), sent, taken[event := p])
  {
    QueuedSize(s.queue, event, p);
    QueuedTaken(s, sent, taken, event, p);
    hide AboutTaken, Listed;
  }

  lemma QueuedSize(queue: map<Id, Payload>, event: Id, p: Payload)
    ensures |queue[event := p]| <= |queue| + 1
  {
    assert queue[event := p].Keys == queue.Keys + {event};
  }

  lemma QueuedTaken(s: Script, sent: map<Id, (Id, Payload)>, taken: map<Id, Payload>, event: Id, p: Payload)
    requires AboutTaken(s, sent, taken) && event !in taken
    ensures AboutTaken(s.(queue := s.queue[event := p]), sent, taken[event := p])
  {
  }

  lemma TrackedTake(s: Script, sent: map<Id, (Id, Payload)>, taken: map<Id, Payload>, event: Id, p: Payload, request: Id)
    requires Tracked(s, sent, taken) && event !in taken && (request == NULL_KEY || request !in sent)
    requires |s.queue| < MAX_QUEUED
    ensures Tracked(Take(s, event, p, true, request), Requested(sent, s, event, p, request), taken[event := p])
    ensures Take(s, event, p, true, request).queue == s.queue[event := p]
  {
    TrackedQueued(s, sent, taken, event, p);
    TrackedSend(s.(queue := s.queue[event := p]), sent, taken[event := p], event, request);
    hide Tracked;
  }

  lemma WithoutAt<T>(s: seq<T>, at: nat)
    requires at < |s|
    ensures |Without(s, at)| == |s| - 1
    ensures forall i | 0 <= i < |s| - 1 :: Without(s, at)[i] == if i < at then s[i] else s[i + 1]
    ensures forall x | x in Without(s, at) :: x in s
  {
  }

  lemma ListedWithout(ids: seq<Id>, keys: seq<Id>, sent: map<Id, (Id, Payload)>, at: nat)
    requires Listed(ids, keys, sent) && at < |ids|
    ensures Listed(Without(ids, at), Without(keys, at), sent)
  {
    WithoutAt(ids, at);
    WithoutAt(keys, at);
    hide Without;
  }

  lemma TakenAnswer(s: Script, sent: map<Id, (Id, Payload)>, taken: map<Id, Payload>, request: Id, success: bool)
    requires AboutTaken(s, sent, taken) && |s.ids| == |s.keys|
    ensures AboutTaken(Answer(s, request, success), sent, taken)
  {
    var at := IndexOf(s.ids, request);
    if at != -1 {
      WithoutAt(s.keys, at);
      hide Without;
    }
  }

  lemma TrackedAnswer(s: Script, sent: map<Id, (Id, Payload)>, taken: map<Id, Payload>, request: Id, success: bool)
    requires Tracked(s, sent, taken)
    ensures Tracked(Answer(s, request, success), sent, taken)
  {
    AnswerValid(s, request, success);
    TakenAnswer(s, sent, taken, request, success);
    var at := IndexOf(s.ids, request);
    if at != -1 {
      ListedWithout(s.ids, s.keys, sent, at);
    }
    hide ValidScript, AboutTaken, Listed;
  }

  /** What a successful answer removes from the queue is the event of the request that it answers. */
  lemma AnsweredEventLeaves(s: Script, sent: map<Id, (Id, Payload)>, taken: map<Id, Payload>, request: Id, success: bool)
    requires Tracked(s, sent, taken) && (success ==> request in sent)
    ensures |s.ids| == |s.keys| && Answer(s, request, success).queue.Keys <= s.queue.Keys
    ensures forall e | e in s.queue && e !in Answer(s, request, success).queue :: success && e == sent[request].0
  {
  }

  lemma TakenNothingLost(receipts: map<(Id, Id), Receipt>, terminal: Id, queue: map<Id, Payload>, taken: map<Id, Payload>, event: Id, p: Payload)
    requires NothingLost(receipts, terminal, queue, taken)
    ensures NothingLost(receipts, terminal, queue[event := p], taken[event := p])
  {
  }

  lemma AnsweredNothingLost(receipts: map<(Id, Id), Receipt>, terminal: Id, queue: map<Id, Payload>, left: map<Id, Payload>, taken: map<Id, Payload>,
                            event: Id)
    requires NothingLost(receipts, terminal, queue, taken)
    requires forall e | e in queue && e !in left :: e == event
    requires (exists e :: e in queue && e !in left) && event in taken ==> RecordedAs(receipts, terminal, event, taken[event])
    ensures NothingLost(receipts, terminal, left, taken)
  {
  }

  lemma RequestedAnswers(receipts: map<(Id, Id), Receipt>, terminal: Id, sent: map<Id, (Id, Payload)>, answered: set<Id>,
                         s: Script, event: Id, p: Payload, request: Id)
    requires AnswersRecorded(receipts, terminal, sent, answered) && (request == NULL_KEY || request !in sent)
    ensures AnswersRecorded(receipts, terminal, Requested(sent, s, event, p, request), answered)
  {
  }

  lemma PaysKeeps(w: Estate, terminal: Id, event: Id, p: Payload, persisted: bool, request: Id)
    requires InOrder(w, terminal) && MayHappen(w, terminal, Pays(event, p, persisted, request))
    ensures InOrder(Happens(w, terminal, Pays(event, p, persisted, request)), terminal)
  {
    hide Inv, Tracked, AnswersRecorded, NothingLost, Take, Requested;
    if |w.script.queue| < MAX_QUEUED && persisted {
      TrackedTake(w.script, w.sent, w.taken, event, p, request);
      TakenNothingLost(w.db.receipts, terminal, w.script.queue, w.taken, event, p);
      RequestedAnswers(w.db.receipts, terminal, w.sent, w.answered, w.script, event, p, request);
    }
  }

  lemma SendsKeeps(w: Estate, terminal: Id, event: Id, request: Id)
    requires InOrder(w, terminal) && MayHappen(w, terminal, Sends(event, request))
    ensures InOrder(Happens(w, terminal, Sends(event, request)), terminal)
  {
    hide Inv, Tracked, AnswersRecorded, NothingLost, Send, Requested;
    TrackedSend(w.script, w.sent, w.taken, event, request);
    RequestedAnswers(w.db.receipts, terminal, w.sent, w.answered, w.script, event, w.script.queue[event], request);
  }

  lemma ServerAnswers(receipts: map<(Id, Id), Receipt>, terminal: Id, sent: map<Id, (Id, Payload)>, answered: set<Id>, request: Id)
    requires AnswersRecorded(receipts, terminal, sent, answered)
    requires request in sent && RecordedAs(receipts, terminal, sent[request].0, sent[request].1)
    ensures AnswersRecorded(receipts, terminal, sent, answered + {request})
  {
  }

  lemma ArrivalKeeps(w: Estate, terminal: Id, now: int, id: Id, request: Id)
    requires InOrder(w, terminal) && MayHappen(w, terminal, Arrives(now, id, request))
    ensures InOrder(Happens(w, terminal, Arrives(now, id, request)), terminal)
  {
    hide Inv, Keeps, Evolves, PayTerminal, After, Tracked, NothingLost, AnswersRecorded, RecordedAs, Fresh, ReceiptsKept;
    var event, p := w.sent[request].0, w.sent[request].1;
    var outcome := PayTerminal(w.db, now, id, PaymentOf(terminal, event, p));
    PayTerminalKeeps(w.db, now, id, PaymentOf(terminal, event, p));
    Kept(w.db, After(outcome, w.db));
    ReceiptsOnly(w.db, After(outcome, w.db));
    RecordsStay(w, terminal, After(outcome, w.db).receipts);
    Unchanged(outcome, w.db);
    if outcome.Commit? {
      SuccessIsRecorded(w.db, now, id, terminal, event, p);
      ServerAnswers(outcome.db.receipts, terminal, w.sent, w.answered, request);
    }
  }

  lemma AnsweredPayment(receipts: map<(Id, Id), Receipt>, terminal: Id, s: Script, sent: map<Id, (Id, Payload)>, taken: map<Id, Payload>,
                        answered: set<Id>, request: Id)
    requires AnswersRecorded(receipts, terminal, sent, answered) && Tracked(s, sent, taken) && request in answered
    ensures request in sent && sent[request].0 in taken && RecordedAs(receipts, terminal, sent[request].0, taken[sent[request].0])
  {
    hide ValidScript, Listed, RecordedAs;
  }

  lemma ResponseKeeps(w: Estate, terminal: Id, request: Id, status: int)
    requires InOrder(w, terminal) && MayHappen(w, terminal, Responds(request, status))
    ensures InOrder(Happens(w, terminal, Responds(request, status)), terminal)
  {
    var success := 200 <= status < 300;
    hide Inv, Tracked, AnswersRecorded, NothingLost, Answer, RecordedAs;
    if success {
      AnsweredPayment(w.db.receipts, terminal, w.script, w.sent, w.taken, w.answered, request);
    }
    TrackedAnswer(w.script, w.sent, w.taken, request, success);
    AnsweredEventLeaves(w.script, w.sent, w.taken, request, success);
    AnsweredNothingLost(w.db.receipts, terminal, w.script.queue, Answer(w.script, request, success).queue, w.taken,
                        if success then w.sent[request].0 else 0);
  }

  lemma ResetKeeps(w: Estate, terminal: Id)
    requires InOrder(w, terminal)
    ensures InOrder(Happens(w, terminal, Resets), terminal)
  {
    hide Inv, AnswersRecorded, NothingLost;
  }

  lemma HappensKeeps(w: Estate, terminal: Id, h: Happening)
    requires InOrder(w, terminal) && MayHappen(w, terminal, h)
    ensures InOrder(Happens(w, terminal, h), terminal)
  {
    match h
    case Pays(event, p, persisted, request) => PaysKeeps(w, terminal, event, p, persisted, request);
    case Sends(event, request) => SendsKeeps(w, terminal, event, request);
    case Arrives(now, id, request) => ArrivalKeeps(w, terminal, now, id, request);
    case Responds(request, status) => ResponseKeeps(w, terminal, request, status);
    case Resets => ResetKeeps(w, terminal);
    case Elsewhere(now, step) =>
      hide Inv, Keeps, Evolves, Apply, Enabled, Tracked, AnswersRecorded, NothingLost, ReceiptsKept;
      StepKeeps(w.db, now, step);
      Kept(w.db, Apply(w.db, now, step));
      ReceiptsOnly(w.db, Apply(w.db, now, step));
      RecordsStay(w, terminal, Apply(w.db, now, step).receipts);
  }

  // ---------- runs ----------

  ghost predicate MayRun(w: Estate, terminal: Id, hs: seq<Happening>)
    decreases |hs|
  {
    hs != [] ==> MayHappen(w, terminal, hs[0]) && MayRun(Happens(w, terminal, hs[0]), terminal, hs[1..])
  }

  ghost function Afterwards(w: Estate, terminal: Id, hs: seq<Happening>): Estate
    decreases |hs|
  {
    if hs == [] then w else Afterwards(Happens(w, terminal, hs[0]), terminal, hs[1..])
  }

  lemma {:induction false} RunInOrder(w: Estate, terminal: Id, hs: seq<Happening>)
    requires InOrder(w, terminal) && MayRun(w, terminal, hs)
    ensures InOrder(Afterwards(w, terminal, hs), terminal)
    decreases |hs|
  {
    hide InOrder, Happens, MayHappen;
    if hs != [] {
      HappensKeeps(w, terminal, hs[0]);
      RunInOrder(Happens(w, terminal, hs[0]), terminal, hs[1..]);
    }
  }

  /** An event leaves the queue only through a successful answer, and then the server has it on record, with this payer,
      amount and body. */
  lemma LeavesOnlyWhenRecorded(w: Estate, terminal: Id, h: Happening, event: Id)
    requires InOrder(w, terminal) && MayHappen(w, terminal, h)
    requires event in w.script.queue && event !in Happens(w, terminal, h).script.queue
    ensures h.Responds? && 200 <= h.status < 300 && RecordedAs(w.db.receipts, terminal, event, w.script.queue[event])
  {
    hide Inv, Apply, PayTerminal, AnswersRecorded, RecordedAs, ValidScript, NothingLost, Listed;
    if h.Responds? {
      var success := 200 <= h.status < 300;
      hide Answer, Tracked;
      if success {
        AnsweredPayment(w.db.receipts, terminal, w.script, w.sent, w.taken, w.answered, h.request);
      }
      AnsweredEventLeaves(w.script, w.sent, w.taken, h.request, success);
      QueuedIsTaken(w.script, w.sent, w.taken, event);
    }
  }

  lemma QueuedIsTaken(s: Script, sent: map<Id, (Id, Payload)>, taken: map<Id, Payload>, event: Id)
    requires Tracked(s, sent, taken) && event in s.queue
    ensures event in taken && taken[event] == s.queue[event]
  {
    hide ValidScript, Listed;
  }

  /** With requests and answers lost, repeated and delayed, script resets and any other transactions in between: every
      payment the terminal ever took is still queued or on the server's record, the queue never exceeds 32, and no event
      has more than one payment or more than one credit. */
  lemma PaymentsSurvive(w: Estate, terminal: Id, hs: seq<Happening>)
    requires InOrder(w, terminal) && MayRun(w, terminal, hs)
    ensures var end := Afterwards(w, terminal, hs);
            && |end.script.queue| <= MAX_QUEUED
            && (forall e | e in end.taken :: e in end.script.queue || RecordedAs(end.db.receipts, terminal, e, end.taken[e]))
            && (forall p, q | p in end.db.payments && q in end.db.payments && end.db.payments[p].reference.ByTerminal?
                              && end.db.payments[p].reference == end.db.payments[q].reference :: p == q)
            && (forall p | p in end.db.payments :: Credits(end.db.ledger, p) <= 1)
  {
    RunInOrder(w, terminal, hs);
    hide Afterwards, MayRun, InOrder;
    Survivors(Afterwards(w, terminal, hs), terminal);
  }

  lemma Survivors(w: Estate, terminal: Id)
    requires InOrder(w, terminal)
    ensures |w.script.queue| <= MAX_QUEUED
    ensures forall e | e in w.taken :: e in w.script.queue || RecordedAs(w.db.receipts, terminal, e, w.taken[e])
    ensures forall p, q | p in w.db.payments && q in w.db.payments && w.db.payments[p].reference.ByTerminal?
                          && w.db.payments[p].reference == w.db.payments[q].reference :: p == q
    ensures forall p | p in w.db.payments :: Credits(w.db.ledger, p) <= 1
  {
    hide Inv, RecordedAs, AnswersRecorded, AboutTaken, Listed;
    assert ReferencesDistinct(w.db.payments) && CreditXorRefund(w.db.ledger, w.db.payments, w.db.actions) by {
      assert Inv(w.db);
      hide *;
      Parts(w.db);
    }
  }

  /** A new script in front of any database. */
  function NewEstate(db: Db): Estate {
    Estate(db, Script(map[], [], []), map[], {}, map[])
  }

  lemma NothingTakenYet(db: Db, terminal: Id)
    requires Inv(db)
    ensures InOrder(NewEstate(db), terminal)
  {
    hide Inv;
  }

  /** From a new script on, every payment that the terminal ever took is queued or on record. */
  lemma PaymentsSurviveFromStart(db: Db, terminal: Id, hs: seq<Happening>)
    requires MayRun(NewEstate(db), terminal, hs)
    requires Inv(db)
    ensures var end := Afterwards(NewEstate(db), terminal, hs);
            forall e | e in end.taken :: e in end.script.queue || RecordedAs(end.db.receipts, terminal, e, end.taken[e])
  {
    hide *;
    NothingTakenYet(db, terminal);
    PaymentsSurvive(NewEstate(db), terminal, hs);
  }

  // ---------- when a queued event can be sent again ----------

  /** The event's entry in the lists stands for no request: its answer will never come. */
  ghost predicate Stuck(s: Script, event: Id) {
    exists i :: 0 <= i < |s.keys| && i < |s.ids| && s.keys[i] == event && s.ids[i] == NULL_KEY
  }

  ghost predicate Unreset(hs: seq<Happening>) {
    forall i | 0 <= i < |hs| :: !hs[i].Resets?
  }

  /** A request for the event that was not there before. */
  ghost predicate SentAnew(before: map<Id, (Id, Payload)>, after: map<Id, (Id, Payload)>, event: Id) {
    exists r :: r in after && r !in before && after[r].0 == event
  }

  /** What was sent stays, and whatever joins it is not for the event. */
  ghost predicate OthersSent(before: map<Id, (Id, Payload)>, after: map<Id, (Id, Payload)>, event: Id) {
    && (forall r | r in before :: r in after && after[r] == before[r])
    && (forall r | r in after && r !in before :: after[r].0 != event)
  }

  lemma StuckAnswer(s: Script, sent: map<Id, (Id, Payload)>, taken: map<Id, Payload>, event: Id, request: Id, success: bool)
    requires Tracked(s, sent, taken) && Stuck(s, event) && event in s.queue && request != NULL_KEY
    ensures Stuck(Answer(s, request, success), event) && event in Answer(s, request, success).queue
  {
    var at := IndexOf(s.ids, request);
    var i :| 0 <= i < |s.keys| && s.keys[i] == event && s.ids[i] == NULL_KEY;
    if at != -1 {
      WithoutAt(s.ids, at);
      WithoutAt(s.keys, at);
      var j := if i < at then i else i - 1;
      assert Without(s.keys, at)[j] == event && Without(s.ids, at)[j] == NULL_KEY;
      hide Without;
    }
  }

  lemma StuckSend(s: Script, event: Id, other: Id, request: Id)
    requires Stuck(s, event) && |s.ids| == |s.keys|
    ensures Stuck(Send(s, other, request), event) && event in s.keys
  {
    var i :| 0 <= i < |s.keys| && s.keys[i] == event && s.ids[i] == NULL_KEY;
    if other !in s.keys {
      assert (s.keys + [other])[i] == event && (s.ids + [request])[i] == NULL_KEY;
    }
  }

  /** As long as there is no reset, an event whose entry is stuck stays queued, stuck and unsent. */
  lemma StuckStays(w: Estate, terminal: Id, h: Happening, event: Id)
    requires InOrder(w, terminal) && MayHappen(w, terminal, h) && !h.Resets?
    requires event in w.script.queue && Stuck(w.script, event)
    ensures var v := Happens(w, terminal, h);
            event in v.script.queue && Stuck(v.script, event) && OthersSent(w.sent, v.sent, event)
  {
    hide Inv, Apply, PayTerminal, AnswersRecorded, RecordedAs, NothingLost;
    match h
    case Pays(e, p, _, request) =>
      QueuedIsTaken(w.script, w.sent, w.taken, event);
      StuckSend(w.script.(queue := w.script.queue[e := p]), event, e, request);
    case Sends(e, request) => StuckSend(w.script, event, e, request);
    case Responds(request, status) => StuckAnswer(w.script, w.sent, w.taken, event, request, 200 <= status < 300);
    case _ =>
    hide Stuck, AboutTaken, Answer, Listed;
  }

  lemma {:induction false} StuckInRuns(w: Estate, terminal: Id, hs: seq<Happening>, event: Id)
    requires InOrder(w, terminal) && MayRun(w, terminal, hs) && Unreset(hs)
    requires event in w.script.queue && Stuck(w.script, event)
    ensures var end := Afterwards(w, terminal, hs);
            event in end.script.queue && Stuck(end.script, event) && OthersSent(w.sent, end.sent, event)
    decreases |hs|
  {
    hide InOrder, MayHappen, Happens, Stuck;
    if hs != [] {
      assert !hs[0].Resets? && Unreset(hs[1..]);
      hide Unreset;
      HappensKeeps(w, terminal, hs[0]);
      StuckStays(w, terminal, hs[0], event);
      StuckInRuns(Happens(w, terminal, hs[0]), terminal, hs[1..], event);
    }
  }

  lemma {:induction false} UnusedKey(keys: set<Id>) returns (k: Id)
    ensures k != NULL_KEY && forall x | x in keys :: x < k
    decreases |keys|
  {
    k := 1;
    if keys != {} {
      var x :| x in keys;
      var above := UnusedKey(keys - {x});
      k := if x < above then above else x + 1;
      forall y | y in keys ensures y < k {
        assert y == x || y in keys - {x};
      }
    }
  }

  /** An entry with a request makes way for another when that is answered, be it with an error. */
  lemma EntryAnswered(s: Script, sent: map<Id, (Id, Payload)>, taken: map<Id, Payload>, event: Id) returns (request: Id)
    requires Tracked(s, sent, taken) && event in s.keys && !Stuck(s, event)
    ensures request != NULL_KEY && Answer(s, request, false).queue == s.queue && event !in Answer(s, request, false).keys
  {
    var i :| 0 <= i < |s.keys| && s.keys[i] == event;
    request := s.ids[i];
    assert request != NULL_KEY;
    var at := IndexOf(s.ids, request);
    assert at == i;
    WithoutAt(s.keys, i);
    hide Without;
    assert forall j | 0 <= j < |s.keys| - 1 :: Without(s.keys, i)[j] != event;
  }

  lemma OneHappening(w: Estate, terminal: Id, h: Happening)
    requires MayHappen(w, terminal, h)
    ensures MayRun(w, terminal, [h]) && Afterwards(w, terminal, [h]) == Happens(w, terminal, h)
  {
    hide Happens, MayHappen;
    assert [h][1..] == [];
  }

  lemma TwoHappenings(w: Estate, terminal: Id, h: Happening, next: Happening)
    requires MayHappen(w, terminal, h) && MayRun(Happens(w, terminal, h), terminal, [next])
    ensures MayRun(w, terminal, [h, next]) && Afterwards(w, terminal, [h, next]) == Afterwards(Happens(w, terminal, h), terminal, [next])
  {
    hide Happens, MayHappen;
    assert [h, next][1..] == [next];
  }

  lemma SentOnceFree(w: Estate, terminal: Id, event: Id, request: Id)
    requires event in w.script.queue && event !in w.script.keys && request != NULL_KEY && request !in w.sent
    ensures MayRun(w, terminal, [Sends(event, request)])
    ensures SentAnew(w.sent, Afterwards(w, terminal, [Sends(event, request)]).sent, event) && Unreset([Sends(event, request)])
  {
    var h := Sends(event, request);
    var end := Happens(w, terminal, h);
    assert request in end.sent && end.sent[request].0 == event && MayHappen(w, terminal, h);
    hide Happens, MayHappen;
    OneHappening(w, terminal, h);
  }

  /** Without a reset, a queued event can be sent again, in some continuation, if and only if its entry is not stuck. */
  lemma SendsAgainIff(w: Estate, terminal: Id, event: Id)
    requires InOrder(w, terminal) && event in w.script.queue
    ensures (exists hs :: Unreset(hs) && MayRun(w, terminal, hs) && SentAnew(w.sent, Afterwards(w, terminal, hs).sent, event))
            <==> !Stuck(w.script, event)
  {
    hide InOrder, MayRun, Afterwards, Unreset, Stuck;
    if Stuck(w.script, event) {
      forall hs | Unreset(hs) && MayRun(w, terminal, hs) ensures !SentAnew(w.sent, Afterwards(w, terminal, hs).sent, event) {
        StuckInRuns(w, terminal, hs, event);
      }
    } else {
      var hs := SendsAgain(w, terminal, event);
    }
  }

  lemma NewRequest(sent: map<Id, (Id, Payload)>) returns (key: Id)
    ensures key != NULL_KEY && key !in sent
  {
    key := UnusedKey(sent.Keys);
    assert key in sent.Keys ==> key < key;
  }

  lemma SendsAgain(w: Estate, terminal: Id, event: Id) returns (hs: seq<Happening>)
    requires InOrder(w, terminal) && event in w.script.queue && !Stuck(w.script, event)
    ensures Unreset(hs) && MayRun(w, terminal, hs) && SentAnew(w.sent, Afterwards(w, terminal, hs).sent, event)
  {
    assert Tracked(w.script, w.sent, w.taken) by { hide Tracked, Inv, AnswersRecorded, NothingLost; }
    hide *;
    var key := NewRequest(w.sent);
    if event in w.script.keys {
      var request := EntryAnswered(w.script, w.sent, w.taken, event);
      SentAfterAnswer(w, terminal, event, request, key);
      hs := [Responds(request, 500), Sends(event, key)];
    } else {
      SentOnceFree(w, terminal, event, key);
      hs := [Sends(event, key)];
    }
  }

  lemma SentAfterAnswer(w: Estate, terminal: Id, event: Id, request: Id, key: Id)
    requires request != NULL_KEY && event in w.script.queue && Answer(w.script, request, false).queue == w.script.queue
    requires event !in Answer(w.script, request, false).keys && key != NULL_KEY && key !in w.sent
    ensures MayRun(w, terminal, [Responds(request, 500), Sends(event, key)])
    ensures SentAnew(w.sent, Afterwards(w, terminal, [Responds(request, 500), Sends(event, key)]).sent, event)
    ensures Unreset([Responds(request, 500), Sends(event, key)])
  {
    var failed := Responds(request, 500);
    var v := w.(script := Answer(w.script, request, false));
    assert v == Happens(w, terminal, failed) && MayHappen(w, terminal, failed);
    hide Happens, MayHappen, Answer;
    SentOnceFree(v, terminal, event, key);
    TwoHappenings(w, terminal, failed, Sends(event, key));
  }

  /** It happens: a payment for whose first request llHTTPRequest returned NULL_KEY is queued, but stuck. */
  lemma NullKeySticks(w: Estate, terminal: Id, event: Id, p: Payload)
    requires InOrder(w, terminal) && event !in w.taken && |w.script.queue| < MAX_QUEUED
    ensures var v := Happens(w, terminal, Pays(event, p, true, NULL_KEY)); event in v.script.queue && Stuck(v.script, event)
  {
    var v := Happens(w, terminal, Pays(event, p, true, NULL_KEY));
    assert event !in w.script.keys;
    var last := |w.script.keys|;
    hide Inv, AnswersRecorded, NothingLost;
    assert v.script.keys[last] == event && v.script.ids[last] == NULL_KEY;
  }

  /** A reset frees every entry: whatever is queued can be sent again. */
  lemma ResetFrees(w: Estate, terminal: Id, event: Id, request: Id)
    requires event in w.script.queue && request != NULL_KEY && request !in w.sent
    ensures MayRun(w, terminal, [Resets, Sends(event, request)])
    ensures SentAnew(w.sent, Afterwards(w, terminal, [Resets, Sends(event, request)]).sent, event)
  {
    var v := Happens(w, terminal, Resets);
    assert v == w.(script := Reset(w.script)) && MayHappen(w, terminal, Resets);
    hide Happens, MayHappen;
    SentOnceFree(v, terminal, event, request);
    TwoHappenings(w, terminal, Resets, Sends(event, request));
  }

  // ---------- the loop, as what happens ----------

  /** The sends of retryQueue: one for every key that was found and is still persisted. */
  function SendsOf(queue: map<Id, Payload>, found: seq<Id>, requests: seq<Id>): seq<Happening>
    requires |requests| == |found|
    decreases |found|
  {
    if found == [] then []
    else (if found[0] in queue then [Sends(found[0], requests[0])] else []) + SendsOf(queue, found[1..], requests[1..])
  }

  /** Every request that the loop makes gets a key of its own. */
  ghost predicate NewRequests(sent: map<Id, (Id, Payload)>, requests: seq<Id>) {
    && (forall i | 0 <= i < |requests| :: requests[i] == NULL_KEY || requests[i] !in sent)
    && (forall i, j | 0 <= i < j < |requests| && requests[i] != NULL_KEY :: requests[i] != requests[j])
  }

  lemma SentNew(w: Estate, terminal: Id, event: Id, requests: seq<Id>)
    requires |requests| >= 1 && NewRequests(w.sent, requests) && event in w.script.queue
    ensures var v := Happens(w, terminal, Sends(event, requests[0]));
            && MayHappen(w, terminal, Sends(event, requests[0])) && NewRequests(v.sent, requests[1..])
            && v.script == Send(w.script, event, requests[0]) && v.script.queue == w.script.queue && v.db == w.db
  {
  }

  lemma FirstHappening(w: Estate, terminal: Id, h: Happening, rest: seq<Happening>)
    ensures MayRun(w, terminal, [h] + rest) <==> MayHappen(w, terminal, h) && MayRun(Happens(w, terminal, h), terminal, rest)
    ensures Afterwards(w, terminal, [h] + rest) == Afterwards(Happens(w, terminal, h), terminal, rest)
  {
    hide Happens, MayHappen;
    assert ([h] + rest)[1..] == rest;
  }

  /** retryQueue, which the script runs in one go, is such a sequence of sends: every run of the loop is among the runs that
      the results above speak of. */
  lemma {:induction false} RetryIsSends(w: Estate, terminal: Id, found: seq<Id>, requests: seq<Id>)
    requires |requests| == |found| && NewRequests(w.sent, requests)
    ensures var hs := SendsOf(w.script.queue, found, requests);
            && MayRun(w, terminal, hs) && Afterwards(w, terminal, hs).script == Retry(w.script, found, requests)
            && Afterwards(w, terminal, hs).db == w.db
    decreases |found|
  {
    hide MayHappen, Happens, Send, NewRequests;
    if found != [] {
      var rest := SendsOf(w.script.queue, found[1..], requests[1..]);
      if found[0] in w.script.queue {
        var h := Sends(found[0], requests[0]);
        SentNew(w, terminal, found[0], requests);
        RetryIsSends(Happens(w, terminal, h), terminal, found[1..], requests[1..]);
        FirstHappening(w, terminal, h, rest);
      } else {
        FewerRequests(w.sent, requests);
        RetryIsSends(w, terminal, found[1..], requests[1..]);
        assert [] + rest == rest;
      }
    }
  }

  lemma FewerRequests(sent: map<Id, (Id, Payload)>, requests: seq<Id>)
    requires |requests| >= 1 && NewRequests(sent, requests)
    ensures NewRequests(sent, requests[1..])
  {
  }
}
