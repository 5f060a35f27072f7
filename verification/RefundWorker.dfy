/** The refund worker and its provider: claims that outlive their leases, crashes after the call, operators who retry,
    and a provider that answers a repeated idempotency key with the refund it already made. */
module RefundWorker {
  import opened Tables
  import opened Allocation
  import opened Invariants
  import opened Evolution
  import opened Transactions
  import opened Runs
  import opened Theorems
  import opened Store
  import ProviderActions

  /** A refund that the provider made. */
  datatype Refund = Refund(intent: Id, amount: int)

  /** What a worker sent to the provider, for which action. */
  datatype Call = Call(action: Id, intent: Id, amount: int, key: Id)

  /** The database, the claims that some worker still carries, the provider's refunds by idempotency key, and all calls
      that were ever made, latest last. */
  datatype World = World(db: Db, claims: set<Claim>, made: map<Id, Refund>, calls: seq<Call>)

  datatype Act =
    | Elsewhere(now: int, step: Step)                         // any transaction of the program, retries by operators included
    | TakeClaim(now: int, action: Id)
    | CallProvider(claim: Claim)
    | Record(now: int, claim: Claim, succeeded: bool)         // by the claimant, in time or long after its lease ran out
    | GiveIn(now: int, claim: Claim)                          // the call or the recording failed
    | Crash(claim: Claim)                                     // the worker forgets its claim

  /** An idempotent provider. */
  function Made(made: map<Id, Refund>, c: Claim): map<Id, Refund> {
    if c.key in made then made else made[c.key := Refund(c.intent, c.amount)]
  }

  ghost predicate Can(w: World, act: Act) {
    match act
    case Elsewhere(_, step) => Enabled(w.db, step)
    case TakeClaim(_, _) => true
    case CallProvider(c) => c in w.claims
    case Record(_, c, _) => c in w.claims && c.key in w.made
    case GiveIn(_, c) => c in w.claims
    case Crash(c) => c in w.claims
  }

  ghost function Do(w: World, act: Act): World {
    match act
    case Elsewhere(now, step) => w.(db := Apply(w.db, now, step))
    case TakeClaim(now, a) =>
      var claimed := ClaimRefund(w.db, now, a);
      w.(db := After(claimed, w.db), claims := if claimed.Commit? && claimed.value.Some? then w.claims + {claimed.value.value} else w.claims)
    case CallProvider(c) => w.(made := Made(w.made, c), calls := w.calls + [Call(c.action, c.intent, c.amount, c.key)])
    case Record(now, c, succeeded) => w.(db := After(CompleteRefund(w.db, now, c, succeeded), w.db), claims := w.claims - {c})
    case GiveIn(now, c) => w.(db := After(FailRefund(w.db, now, c.action), w.db), claims := w.claims - {c})
    case Crash(c) => w.(claims := w.claims - {c})
  }

  ghost predicate CallMatches(db: Db, call: Call) {
    && call.action in db.actions && call.intent == db.actions[call.action].intent
    && call.amount == db.actions[call.action].amount && call.key == db.actions[call.action].key
  }

  /** A refund that was made is the refund that some action asks for. */
  ghost predicate Asked(db: Db, key: Id, r: Refund) {
    exists a :: a in db.actions && db.actions[a].key == key && db.actions[a].intent == r.intent && db.actions[a].amount == r.amount
  }

  ghost predicate ClaimsTaken(db: Db, claims: set<Claim>) {
    forall c | c in claims :: Taken(db, c)
  }

  ghost predicate MadeAsked(db: Db, made: map<Id, Refund>) {
    forall k | k in made :: Asked(db, k, made[k])
  }

  ghost predicate CallsMatch(db: Db, calls: seq<Call>) {
    forall i | 0 <= i < |calls| :: CallMatches(db, calls[i])
  }

  ghost predicate Sound(w: World) {
    Inv(w.db) && ClaimsTaken(w.db, w.claims) && MadeAsked(w.db, w.made) && CallsMatch(w.db, w.calls)
  }

  /** Before any worker has started. */
  lemma NobodyWorksYet(db: Db)
    requires Inv(db)
    ensures Sound(World(db, {}, map[], []))
  {
    hide Inv;
  }

  lemma AskedStays(db: Db, after: Db, made: map<Id, Refund>)
    requires ActionsKept(db.actions, after.actions) && MadeAsked(db, made)
    ensures MadeAsked(after, made)
  {
    forall k | k in made ensures Asked(after, k, made[k]) {
      var a :| a in db.actions && db.actions[a].key == k && db.actions[a].intent == made[k].intent && db.actions[a].amount == made[k].amount;
      assert after.actions[a].key == k;
    }
  }

  lemma CallsStay(db: Db, after: Db, calls: seq<Call>)
    requires ActionsKept(db.actions, after.actions) && CallsMatch(db, calls)
    ensures CallsMatch(after, calls)
  {
    forall i | 0 <= i < |calls| ensures CallMatches(after, calls[i]) {
      assert CallMatches(db, calls[i]);
    }
  }

  lemma ClaimsStay(db: Db, after: Db, claims: set<Claim>)
    requires ActionsKept(db.actions, after.actions) && ClaimsTaken(db, claims)
    ensures ClaimsTaken(after, claims)
  {
  }

  lemma ActionsOnly(db: Db, after: Db)
    requires Evolves(db, after)
    ensures ActionsKept(db.actions, after.actions)
  {
    hide ActionsKept;
  }

  /** The rest of the world stays sound whatever the database goes through. */
  lemma SoundStays(w: World, after: Db)
    requires Sound(w) && Keeps(w.db, after)
    ensures Sound(w.(db := after))
  {
    hide Inv, Keeps, Evolves, ClaimsTaken, MadeAsked, CallsMatch, ActionsKept;
    Kept(w.db, after);
    ActionsOnly(w.db, after);
    ClaimsStay(w.db, after, w.claims);
    AskedStays(w.db, after, w.made);
    CallsStay(w.db, after, w.calls);
  }

  lemma DoKeeps(w: World, act: Act)
    requires Sound(w) && Can(w, act)
    ensures Sound(Do(w, act)) && Evolves(w.db, Do(w, act).db)
  {
    hide Inv, Evolves, Keeps, Apply, Enabled, ClaimRefund, CompleteRefund, FailRefund, After;
    match act
    case Elsewhere(now, step) =>
      StepKeeps(w.db, now, step);
      SoundStays(w, Apply(w.db, now, step));
      Kept(w.db, Apply(w.db, now, step));
    case TakeClaim(now, a) =>
      ClaimRefundKeeps(w.db, now, a);
      SoundStays(w, After(ClaimRefund(w.db, now, a), w.db));
      Kept(w.db, After(ClaimRefund(w.db, now, a), w.db));
      ClaimIsTaken(w.db, now, a);
      Unchanged(ClaimRefund(w.db, now, a), w.db);
    case CallProvider(c) =>
      NothingDone(w.db);
      Kept(w.db, w.db);
      assert Taken(w.db, c);
      assert Asked(w.db, c.key, Refund(c.intent, c.amount)) by {
        assert w.db.actions[c.action].key == c.key;
      }
    case Record(now, c, succeeded) =>
      assert Taken(w.db, c);
      CompleteRefundKeeps(w.db, now, c, succeeded);
      SoundStays(w, After(CompleteRefund(w.db, now, c, succeeded), w.db));
      Kept(w.db, After(CompleteRefund(w.db, now, c, succeeded), w.db));
    case GiveIn(now, c) =>
      FailRefundKeeps(w.db, now, c.action);
      SoundStays(w, After(FailRefund(w.db, now, c.action), w.db));
      Kept(w.db, After(FailRefund(w.db, now, c.action), w.db));
    case Crash(c) =>
      NothingDone(w.db);
      Kept(w.db, w.db);
  }

  ghost predicate Possible(w: World, acts: seq<Act>)
    decreases |acts|
  {
    acts != [] ==> Can(w, acts[0]) && Possible(Do(w, acts[0]), acts[1..])
  }

  ghost function History(w: World, acts: seq<Act>): World
    decreases |acts|
  {
    if acts == [] then w else History(Do(w, acts[0]), acts[1..])
  }

  lemma {:induction false} HistoryKeeps(w: World, acts: seq<Act>)
    requires Sound(w) && Possible(w, acts)
    ensures Sound(History(w, acts))
    decreases |acts|
  {
    hide Sound, Do, Can;
    if acts != [] {
      DoKeeps(w, acts[0]);
      HistoryKeeps(Do(w, acts[0]), acts[1..]);
    }
  }

  /** The refund is of the whole of a recorded payment. */
  ghost predicate Repays(db: Db, r: Refund) {
    exists p :: p in db.payments && db.payments[p].reference == ByIntent(r.intent) && db.payments[p].amount.Minor? && db.payments[p].amount.minor == r.amount
  }

  /** For any interleaving of workers, expired leases, crashes after the call and operator retries: every call for an action
      carries the same intent, amount and key, so the provider makes at most one refund for an intent, and it is for the
      amount of the intent's one payment. */
  lemma RefundedAtMostOnce(w: World, acts: seq<Act>)
    requires Sound(w) && Possible(w, acts)
    ensures var end := History(w, acts);
            && (forall i, j | 0 <= i < |end.calls| && 0 <= j < |end.calls| && end.calls[i].action == end.calls[j].action :: end.calls[i] == end.calls[j])
            && (forall k, m | k in end.made && m in end.made && end.made[k].intent == end.made[m].intent :: k == m)
            && (forall k | k in end.made :: Repays(end.db, end.made[k]))
  {
    var end := History(w, acts);
    HistoryKeeps(w, acts);
    hide History, Possible;
    CallsAgree(end);
    RefundsDistinct(end);
  }

  /** The same from the start, when no worker carries a claim and the provider has made no refund. */
  lemma RefundedOnceFromStart(db: Db, acts: seq<Act>)
    requires Possible(World(db, {}, map[], []), acts)
    requires Inv(db)
    ensures var end := History(World(db, {}, map[], []), acts);
            && (forall k, m | k in end.made && m in end.made && end.made[k].intent == end.made[m].intent :: k == m)
            && (forall k | k in end.made :: Repays(end.db, end.made[k]))
  {
    hide *;
    NobodyWorksYet(db);
    RefundedAtMostOnce(World(db, {}, map[], []), acts);
  }

  lemma CallsAgree(w: World)
    requires Sound(w)
    ensures forall i, j | 0 <= i < |w.calls| && 0 <= j < |w.calls| && w.calls[i].action == w.calls[j].action :: w.calls[i] == w.calls[j]
  {
    hide Inv, MadeAsked, ClaimsTaken;
    forall i, j | 0 <= i < |w.calls| && 0 <= j < |w.calls| && w.calls[i].action == w.calls[j].action ensures w.calls[i] == w.calls[j] {
      assert CallMatches(w.db, w.calls[i]) && CallMatches(w.db, w.calls[j]);
    }
  }

  lemma RefundsDistinct(w: World)
    requires Sound(w)
    ensures forall k, m | k in w.made && m in w.made && w.made[k].intent == w.made[m].intent :: k == m
    ensures forall k | k in w.made :: Repays(w.db, w.made[k])
  {
    assert ActionsMatch(w.db.actions, w.db.payments, w.db.intents) && ReferencesDistinct(w.db.payments) by {
      assert Inv(w.db);
      hide *;
      Parts(w.db);
    }
    hide Inv, CallsMatch, ClaimsTaken;
    forall k, m | k in w.made && m in w.made && w.made[k].intent == w.made[m].intent ensures k == m {
      assert Asked(w.db, k, w.made[k]) && Asked(w.db, m, w.made[m]);
    }
    forall k | k in w.made ensures Repays(w.db, w.made[k]) {
      assert Asked(w.db, k, w.made[k]);
    }
  }

  /** The row of an action that somebody is processing. */
  function Working(a: Action, now: int): Action {
    a.(state := Processing, attempts := a.attempts + 1, lease := Some(now + 120))
  }

  lemma Claiming(w: World, now: int, action: Id)
    requires action in w.db.actions && Due(w.db.actions[action], now) && w.db.actions[action].attempts < 12
    ensures var a := w.db.actions[action];
            && Can(w, TakeClaim(now, action))
            && Do(w, TakeClaim(now, action))
               == w.(db := w.db.(actions := w.db.actions[action := Working(a, now)]),
                     claims := w.claims + {Claim(action, a.payment, a.intent, a.amount, a.key)})
  {
    ClaimForm(w.db, now, action);
    hide ClaimRefund, Due;
  }

  lemma Recording(w: World, later: int, c: Claim)
    requires c in w.claims && c.key in w.made && c.action in w.db.actions && w.db.actions[c.action].state == Processing
    requires c.payment in w.db.payments
    ensures Can(w, Record(later, c, true))
    ensures var after := Do(w, Record(later, c, true));
            && after.claims == w.claims - {c} && after.made == w.made && after.calls == w.calls
            && c.action in after.db.actions && after.db.actions[c.action].state == Succeeded
            && c.payment in after.db.payments && after.db.payments[c.payment].status == Refunded
  {
  }

  lemma PaymentKnown(w: World, action: Id)
    requires Sound(w) && action in w.db.actions
    ensures w.db.actions[action].payment in w.db.payments
  {
    assert Inv(w.db);
    hide *;
    Parts(w.db);
    ActionPays(w.db, action);
  }

  /** It does go through: where an action is due with attempts left, a worker can claim it, call the provider and record its
      success, whenever that is; the provider has then made the refund, the action has succeeded and the payment is REFUNDED. */
  lemma RefundGoesThrough(w: World, now: int, later: int, action: Id)
    requires action in w.db.actions && Due(w.db.actions[action], now) && w.db.actions[action].attempts < 12
    requires Sound(w)
    ensures var a := w.db.actions[action];
            var c := Claim(action, a.payment, a.intent, a.amount, a.key);
            var acts := [TakeClaim(now, action), CallProvider(c), Record(later, c, true)];
            var end := History(w, acts);
            && Possible(w, acts) && end.claims == w.claims - {c} && end.calls == w.calls + [Call(action, a.intent, a.amount, a.key)]
            && c.key in end.made && (c.key !in w.made ==> end.made[c.key] == Refund(a.intent, a.amount))
            && action in end.db.actions && end.db.actions[action].state == Succeeded
            && a.payment in end.db.payments && end.db.payments[a.payment].status == Refunded
  {
    hide Sound, Due, Can, Do, History, Possible;
    var a := w.db.actions[action];
    var c := Claim(action, a.payment, a.intent, a.amount, a.key);
    PaymentKnown(w, action);
    Claiming(w, now, action);
    var claimed := Do(w, TakeClaim(now, action));
    Calling(claimed, c);
    var called := Do(claimed, CallProvider(c));
    Recording(called, later, c);
    assert w.claims + {c} - {c} == w.claims - {c};
    Three(w, TakeClaim(now, action), CallProvider(c), Record(later, c, true));
  }

  lemma Calling(w: World, c: Claim)
    requires c in w.claims
    ensures Can(w, CallProvider(c))
    ensures Do(w, CallProvider(c)) == w.(made := Made(w.made, c), calls := w.calls + [Call(c.action, c.intent, c.amount, c.key)])
    ensures c.key in Made(w.made, c) && (c.key !in w.made ==> Made(w.made, c)[c.key] == Refund(c.intent, c.amount))
  {
  }

  lemma Three(w: World, s1: Act, s2: Act, s3: Act)
    ensures var w1 := Do(w, s1);
            var w2 := Do(w1, s2);
            && (Possible(w, [s1, s2, s3]) <==> Can(w, s1) && Can(w1, s2) && Can(w2, s3))
            && History(w, [s1, s2, s3]) == Do(w2, s3)
  {
    hide Do, Can;
    var w1 := Do(w, s1);
    var w2 := Do(w1, s2);
    assert [s1, s2, s3][1..] == [s2, s3] && [s2, s3][1..] == [s3] && [s3][1..] == [];
    assert Possible(w2, [s3]) <==> Can(w2, s3);
    assert Possible(w1, [s2, s3]) <==> Can(w1, s2) && Possible(w2, [s3]);
    assert History(w2, [s3]) == History(Do(w2, s3), []);
    assert History(w1, [s2, s3]) == History(w2, [s3]);
  }

  // ---------- one turn of the worker, as code ----------

  /** The provider: it makes a refund for a key it has not seen, and repeats its answer for one it has. */
  class Provider {
    var made: map<Id, Refund>

    constructor ()
      ensures made == map[]
    {
      made := map[];
    }

    method Pay(c: Claim)
      modifies this
      ensures made == Made(old(made), c)
    {
      if c.key !in made {
        made := made[c.key := Refund(c.intent, c.amount)];
      }
    }
  }

  /** What becomes of a claim once the provider has answered, or has not. */
  ghost function Concluded(db: Db, now: int, c: Claim, answer: Option<bool>): Db {
    if answer.Some? then After(CompleteRefund(db, now, c, answer.value), db) else After(FailRefund(db, now, c.action), db)
  }

  /** runOneProviderAction: claim, call, record.  `answer` is what the provider says of its refund's success, or none if the
      call failed after or before it made one. */
  method RunOneProviderAction(db: Database, provider: Provider, now: int, later: int, action: Id, answer: Option<bool>, reached: bool)
    returns (worked: bool)
    requires Inv(db.tables) && (answer.Some? ==> reached)
    modifies db, provider
    ensures var claimed := ClaimRefund(old(db.tables), now, action);
            && claimed.Commit? && worked == claimed.value.Some?
            && (!worked ==> db.tables == claimed.db && provider.made == old(provider.made))
            && (worked ==> && Taken(claimed.db, claimed.value.value)
                           && db.tables == Concluded(claimed.db, later, claimed.value.value, answer)
                           && provider.made == if reached then Made(old(provider.made), claimed.value.value) else old(provider.made))
  {
    ghost var before := db.tables;
    ClaimForm(before, now, action);
    ClaimIsTaken(before, now, action);
    hide Inv, ClaimRefund, CompleteRefund, FailRefund, Made, Due, ClaimedRow, ClaimOn;
    var claim := ProviderActions.ClaimProviderAction(db, now, action);
    if claim.None? {
      return false;
    }
    var c := claim.value;
    if reached {
      provider.Pay(c);
    }
    if answer.Some? {
      ClaimKeepsPayment(before, now, action, c);
      var ok := ProviderActions.Complete(db, later, c, answer.value);
    } else {
      ProviderActions.Fail(db, later, c.action);
    }
    return true;
  }

  lemma ClaimKeepsPayment(db: Db, now: int, action: Id, c: Claim)
    requires Inv(db) && ClaimRefund(db, now, action).Commit? && Taken(ClaimRefund(db, now, action).db, c)
    ensures c.payment in ClaimRefund(db, now, action).db.payments
  {
    var after := ClaimRefund(db, now, action).db;
    hide *;
    ClaimRefundKeeps(db, now, action);
    Unchanged(ClaimRefund(db, now, action), db);
    Kept(db, after);
    Parts(after);
    TakenHasPayment(after, c);
  }

  lemma TakenHasPayment(db: Db, c: Claim)
    requires ActionsMatch(db.actions, db.payments, db.intents) && Taken(db, c)
    ensures c.payment in db.payments
  {
  }
}
