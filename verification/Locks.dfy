/** The advisory locks of the transactions: one order for all of them, and why they never deadlock. */
module Locks {
  import opened Tables

  /** The texts that pg_advisory_xact_lock is given, taken as distinct keys. */
  datatype LockKey = AdministratorKey | IdempotencyKey(actor: Id, request: Id) | ListingKey(listing: Id)
                   | UserKey(user: Id) | StripeKey(reference: Id)

  function Class(k: LockKey): nat {
    match k
    case AdministratorKey => 0
    case IdempotencyKey(_, _) => 1
    case ListingKey(_) => 2
    case UserKey(_) => 3
    case StripeKey(_) => 4
  }

  /** administrator-role < reservation-idempotency < listing < user-role (by user) < stripe-payment. */
  predicate Before(a: LockKey, b: LockKey) {
    Class(a) < Class(b) || (a.UserKey? && b.UserKey? && a.user < b.user)
  }

  predicate Ascending(keys: seq<LockKey>) {
    forall i, j | 0 <= i < j < |keys| :: Before(keys[i], keys[j])
  }

  /** Advisory locks are re-entrant. */
  function Locked(held: seq<LockKey>, key: LockKey): seq<LockKey> {
    if key in held then held else held + [key]
  }

  /** An ascending sequence names no key twice and at most one listing. */
  lemma AscendingDistinct(keys: seq<LockKey>)
    requires Ascending(keys)
    ensures forall i, j | 0 <= i < |keys| && 0 <= j < |keys| && keys[i] == keys[j] :: i == j
    ensures forall a, b | a in keys && b in keys && a.ListingKey? && b.ListingKey? :: a == b
  {
  }

  // ---------- concurrent transactions ----------

  /** A transaction holds the keys it was granted, in that order, and may be waiting for one more. */
  datatype Waiter = Waiter(held: seq<LockKey>, wants: Option<LockKey>)

  datatype LockStep = BeginTx(tx: Id) | Ask(tx: Id, key: LockKey) | Grant(tx: Id) | Finish(tx: Id)

  predicate HeldByOther(m: map<Id, Waiter>, tx: Id, key: LockKey) {
    exists u :: u in m && u != tx && key in m[u].held
  }

  /** A transaction asks only for a key that comes after all it holds. */
  predicate CanStep(m: map<Id, Waiter>, step: LockStep) {
    match step
    case BeginTx(t) => t !in m
    case Ask(t, key) => t in m && m[t].wants.None? && Ascending(m[t].held + [key])
    case Grant(t) => t in m && m[t].wants.Some? && !HeldByOther(m, t, m[t].wants.value)
    case Finish(t) => t in m && m[t].wants.None?
  }

  function LockRun(m: map<Id, Waiter>, step: LockStep): map<Id, Waiter>
    requires CanStep(m, step)
  {
    match step
    case BeginTx(t) => m[t := Waiter([], None)]
    case Ask(t, key) => m[t := m[t].(wants := Some(key))]
    case Grant(t) => m[t := Waiter(m[t].held + [m[t].wants.value], None)]
    case Finish(t) => m - {t}
  }

  /** Keys are held exclusively and asked for in order. */
  ghost predicate Disciplined(m: map<Id, Waiter>) {
    && (forall t | t in m :: Ascending(m[t].held) && (m[t].wants.Some? ==> Ascending(m[t].held + [m[t].wants.value])))
    && (forall t, u, k | t in m && u in m && k in m[t].held && k in m[u].held :: t == u)
  }

  lemma DisciplineKept(m: map<Id, Waiter>, step: LockStep)
    requires Disciplined(m) && CanStep(m, step)
    ensures Disciplined(LockRun(m, step))
  {
    if step.Grant? {
      var key := m[step.tx].wants.value;
      assert forall u | u in m && u != step.tx :: key !in m[u].held;
    }
  }

  ghost predicate LockRunnable(m: map<Id, Waiter>, steps: seq<LockStep>)
    decreases |steps|
  {
    steps != [] ==> CanStep(m, steps[0]) && LockRunnable(LockRun(m, steps[0]), steps[1..])
  }

  ghost function LockRuns(m: map<Id, Waiter>, steps: seq<LockStep>): map<Id, Waiter>
    requires LockRunnable(m, steps)
    decreases |steps|
  {
    if steps == [] then m else LockRuns(LockRun(m, steps[0]), steps[1..])
  }

  lemma {:induction false} DisciplineInRuns(m: map<Id, Waiter>, steps: seq<LockStep>)
    requires Disciplined(m) && LockRunnable(m, steps)
    ensures Disciplined(LockRuns(m, steps))
    decreases |steps|
  {
    if steps != [] {
      DisciplineKept(m, steps[0]);
      DisciplineInRuns(LockRun(m, steps[0]), steps[1..]);
    }
  }

  ghost predicate WaitsFor(m: map<Id, Waiter>, t: Id, u: Id) {
    t in m && u in m && m[t].wants.Some? && m[t].wants.value in m[u].held
  }

  /** Along a chain of waiting transactions the awaited keys ascend. */
  lemma {:induction false} WaitingAscends(m: map<Id, Waiter>, chain: seq<Id>)
    requires Disciplined(m) && |chain| >= 2
    requires forall i | 0 <= i < |chain| - 1 :: WaitsFor(m, chain[i], chain[i + 1])
    requires chain[0] in m && m[chain[0]].wants.Some? && chain[|chain| - 1] in m && m[chain[|chain| - 1]].wants.Some?
    ensures Before(m[chain[0]].wants.value, m[chain[|chain| - 1]].wants.value)
    decreases |chain|
  {
    var t, u := chain[0], chain[1];
    assert WaitsFor(m, t, u);
    var key, held := m[t].wants.value, m[u].held;
    if |chain| > 2 {
      forall i | 0 <= i < |chain| - 2 ensures WaitsFor(m, chain[1..][i], chain[1..][i + 1]) {
        assert WaitsFor(m, chain[i + 1], chain[i + 2]);
      }
      assert WaitsFor(m, u, chain[2]);
      WaitingAscends(m, chain[1..]);
    }
    var i :| 0 <= i < |held| && held[i] == key;
    assert Before((held + [m[u].wants.value])[i], (held + [m[u].wants.value])[|held|]);
  }

  /** No set of transactions waits in a circle. */
  lemma NoDeadlock(m: map<Id, Waiter>, circle: seq<Id>)
    requires Disciplined(m) && |circle| >= 2 && circle[0] == circle[|circle| - 1]
    ensures exists i :: 0 <= i < |circle| - 1 && !WaitsFor(m, circle[i], circle[i + 1])
  {
    if forall i | 0 <= i < |circle| - 1 :: WaitsFor(m, circle[i], circle[i + 1]) {
      assert WaitsFor(m, circle[0], circle[1]);
      WaitingAscends(m, circle);
    }
  }

  predicate CanProceed(m: map<Id, Waiter>, t: Id) {
    t in m && (m[t].wants.None? || !HeldByOther(m, t, m[t].wants.value))
  }

  /** While transactions are under way, one of them can finish or be granted what it waits for. */
  lemma SomeoneProceeds(m: map<Id, Waiter>)
    requires Disciplined(m) && m.Keys != {}
    ensures exists t :: CanProceed(m, t)
  {
    var t := LastWaiter(m, m.Keys);
    if m[t].wants.Some? && HeldByOther(m, t, m[t].wants.value) {
      var u :| u in m && u != t && m[t].wants.value in m[u].held;
      if m[u].wants.Some? {
        assert WaitsFor(m, t, u);
        WaitingAscends(m, [t, u]);
        assert false;
      }
      assert CanProceed(m, u);
    } else {
      assert CanProceed(m, t);
    }
  }

  /** Of finitely many transactions, one that waits for no key, or for one that no other awaits a later key than. */
  lemma {:induction false} LastWaiter(m: map<Id, Waiter>, ts: set<Id>) returns (t: Id)
    requires ts != {} && ts <= m.Keys
    ensures t in ts
    ensures m[t].wants.Some? ==> forall u | u in ts && m[u].wants.Some? :: !Before(m[t].wants.value, m[u].wants.value)
    decreases |ts|
  {
    t :| t in ts;
    if ts != {t} {
      assert |ts - {t}| < |ts|;
      var v := LastWaiter(m, ts - {t});
      if m[v].wants.None? || (m[t].wants.Some? && !Before(m[v].wants.value, m[t].wants.value)) {
        t := v;
      }
    }
  }

  /** From any start, after any interleaving of any number of transactions, nobody waits in a circle and,
      unless all have finished, somebody proceeds. */
  lemma NeverStuck(steps: seq<LockStep>)
    requires LockRunnable(map[], steps)
    ensures var m := LockRuns(map[], steps);
            && (m.Keys != {} ==> exists t :: CanProceed(m, t))
            && forall circle: seq<Id> | |circle| >= 2 && circle[0] == circle[|circle| - 1] ::
                 exists i :: 0 <= i < |circle| - 1 && !WaitsFor(m, circle[i], circle[i + 1])
  {
    var m := LockRuns(map[], steps);
    DisciplineInRuns(map[], steps);
    if m.Keys != {} {
      SomeoneProceeds(m);
    }
    forall circle: seq<Id> | |circle| >= 2 && circle[0] == circle[|circle| - 1]
      ensures exists i :: 0 <= i < |circle| - 1 && !WaitsFor(m, circle[i], circle[i + 1])
    {
      NoDeadlock(m, circle);
    }
  }
}
