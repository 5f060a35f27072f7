/** What terminal payments, refunds and disputes come to, row by row: when each commits, every row that it writes, and that it
    writes no other.  Nothing here is said through the helpers of the specification. */
module MoneyEffects {
  import opened Tables
  import opened Pricing
  import opened Allocation
  import opened Invariants
  import opened CheckoutEffects
  import LeaseWeeks
  import StripeHandler
  import TerminalPayments

  // ---------- terminal payments ----------

  /** A terminal sees a lease that runs and whose renter has an avatar. */
  lemma SeenIff(db: Db, now: int, listing: Id, r: Id)
    ensures LinkedLease(db, now, listing, r) <==>
              && r in db.rentals && db.rentals[r].listing == listing && db.rentals[r].status == Active && now < db.rentals[r].endsAt
              && exists a :: a in db.identities && db.identities[a] == db.rentals[r].user
  {
  }

  /** A terminal payment is accepted from a known terminal, for a positive amount: a new event if the listing has a price, and a
      recorded one if it says the same.  The latter is answered from its record and writes nothing. */
  lemma AcceptedIff(db: Db, now: int, id: Id, q: TerminalPayment)
    ensures var paid := PayTerminal(db, now, id, q);
            && (paid.Commit? <==>
                  && q.terminal in db.terminals && q.amount > 0
                  && if (q.terminal, q.event) in db.receipts then
                       var prior := db.receipts[(q.terminal, q.event)];
                       prior.payer == q.payer && prior.amount == q.amount && prior.body == q.body
                     else db.terminals[q.terminal] in db.listings && db.listings[db.terminals[q.terminal]].price.Some?)
            && (paid.Commit? && (q.terminal, q.event) in db.receipts ==>
                  paid.db == db && paid.value == db.receipts[(q.terminal, q.event)].status)
  {
    hide Clean, Lengthen, StartLease, ReviewPayment, LinkedLease, Vacant, ReservedAgainst, Eligible, ValidWeeks, PaidWeeks, ExpectedAmount;
  }

  /** A new event that is accepted. */
  ghost predicate NewEvent(db: Db, q: TerminalPayment) {
    LeaseWeeks.PricedTerminal(db, q.terminal) && q.amount > 0 && (q.terminal, q.event) !in db.receipts
  }

  /** The amount is that of so many weeks of the lease, and it is the renter who pays, and may rent. */
  ghost predicate PaysOn(db: Db, q: TerminalPayment, p: Price, r: Id, weeks: int) {
    && r in db.rentals && LeaseWeeks.Buys(p, q.amount, weeks, false)
    && q.payer in db.identities && db.identities[q.payer] == db.rentals[r].user && Eligible(db.users, db.rentals[r].user)
  }

  /** The amount is that of so many first weeks, by a known payer, who may rent; no hold or lease is left on the listing, and it
      is not reserved for anybody else. */
  ghost predicate PaysFirst(db: Db, now: int, q: TerminalPayment, listing: Id, p: Price, weeks: int) {
    && LeaseWeeks.Buys(p, q.amount, weeks, true)
    && q.payer in db.identities && Eligible(db.users, db.identities[q.payer])
    && Vacant(db.rentals, listing) && !ReservedAgainst(db.reservations, now, listing, db.identities[q.payer])
  }

  /** What was expected: the amount itself if it is that of whole weeks, otherwise one week's. */
  ghost function Expects(p: Price, amount: int, starts: bool): int {
    if exists w :: LeaseWeeks.Buys(p, amount, w, starts) then amount else p.weeklyLinden + (if starts then p.setupLinden else 0)
  }

  lemma WeeksDecided(p: Price, amount: int, weeks: int, starts: bool)
    requires LeaseWeeks.Buys(p, amount, weeks, starts)
    ensures var setup := if starts then p.setupLinden else 0;
            ValidWeeks(amount, setup, p.weeklyLinden) && PaidWeeks(amount, setup, p.weeklyLinden) == weeks
  {
    MultipleDivides(weeks, p.weeklyLinden);
  }

  lemma ExpectedMeans(p: Price, amount: int, starts: bool)
    ensures ExpectedAmount(amount, if starts then p.setupLinden else 0, p.weeklyLinden) == Expects(p, amount, starts)
    ensures (exists w :: LeaseWeeks.Buys(p, amount, w, starts)) <==> ValidWeeks(amount, if starts then p.setupLinden else 0, p.weeklyLinden)
  {
    var setup := if starts then p.setupLinden else 0;
    if w :| LeaseWeeks.Buys(p, amount, w, starts) {
      WeeksDecided(p, amount, w, starts);
    } else if ValidWeeks(amount, setup, p.weeklyLinden) {
      LeaseWeeks.ValidWeeksBuy(p, amount, starts);
    }
  }

  /** A new event is decided on the cleaned listing. */
  lemma EventDecided(db: Db, now: int, id: Id, q: TerminalPayment)
    requires NewEvent(db, q)
    ensures q.terminal in db.terminals
    ensures var listing := db.terminals[q.terminal];
            PayTerminal(db, now, id, q)
            == TerminalPayments.OnClean(Clean(db, now, listing), now, id, q, listing, LeaseWeeks.PriceAt(db, q.terminal))
  {
    TerminalPayments.PayTerminalAs(db, now, id, q);
    hide Clean, PayTerminal, TerminalPayments.OnClean;
  }

  /** By the renter of the one lease that the terminal sees, for whole weeks: the lease is longer by them, with a PAID bill, a
      CONFIRMED payment and the event's record. */
  lemma WeeksAdded(db: Db, now: int, id: Id, q: TerminalPayment, listing: Id, p: Price, r: Id, weeks: nat)
    requires OneLiveRental(db.rentals) && LinkedLease(db, now, listing, r) && PaysOn(db, q, p, r, weeks)
    ensures TerminalPayments.OnClean(db, now, id, q, listing, p) == Commit(db.(
              rentals := db.rentals[r := db.rentals[r].(endsAt := db.rentals[r].endsAt + weeks * 604800)],
              invoices := db.invoices[id := Invoice(Some(r), db.rentals[r].listing, db.rentals[r].user, Paid, Linden(q.amount), now)],
              payments := db.payments[id := Payment(id, ByTerminal(q.terminal, q.event), Linden(q.amount), Confirmed)],
              receipts := db.receipts[(q.terminal, q.event) := Receipt(q.payer, q.amount, Confirmed, Some(id), q.body, q.amount)],
              ledger := Posted(Entry(r, ByPayment(id), weeks, 0, 0), db.ledger)), Confirmed)
  {
    TerminalPayments.OneLease(db, now, listing, r, SeenLease(db, now, listing));
    WeeksDecided(p, q.amount, weeks, false);
    hide LinkedLease, ValidWeeks, PaidWeeks, OneLiveRental, LeaseWeeks.Buys, Eligible, TerminalPayments.OnFree;
  }

  /** First weeks, where the terminal sees no lease: a lease of those weeks from now on, its payer a renter, the listing's
      reservation used up, and the bill, payment and record as above. */
  lemma WeeksStarted(db: Db, now: int, id: Id, q: TerminalPayment, listing: Id, p: Price, weeks: nat)
    requires PaysFirst(db, now, q, listing, p, weeks) && forall r :: !LinkedLease(db, now, listing, r)
    ensures q.payer in db.identities && db.identities[q.payer] in db.users
    ensures var user := db.identities[q.payer];
            TerminalPayments.OnClean(db, now, id, q, listing, p) == Commit(db.(
              users := db.users[user := AsTenant(db.users[user])],
              rentals := db.rentals[id := Rental(listing, user, Active, now, now + weeks * 604800)],
              reservations := RedeemReservations(db.reservations, now, listing),
              invoices := db.invoices[id := Invoice(Some(id), listing, user, Paid, Linden(q.amount), now)],
              payments := db.payments[id := Payment(id, ByTerminal(q.terminal, q.event), Linden(q.amount), Confirmed)],
              receipts := db.receipts[(q.terminal, q.event) := Receipt(q.payer, q.amount, Confirmed, Some(id), q.body, q.amount)],
              ledger := Posted(Entry(id, ByPayment(id), weeks, 0, 0), db.ledger)), Confirmed)
  {
    WeeksDecided(p, q.amount, weeks, true);
    PromotionMeans(db.users, db.identities[q.payer]);
    MayRentIff(db.users, db.identities[q.payer]);
    hide LinkedLease, ValidWeeks, PaidWeeks, LeaseWeeks.Buys, Eligible, Vacant, ReservedAgainst, Promote, RedeemReservations;
    hide TerminalPayments.OnLeased;
  }

  /** The record of a payment that needs a decision: with an open bill of what was expected, and the payment, if the payer is
      known; nothing is granted to anybody. */
  ghost function Reviewed(db: Db, now: int, id: Id, q: TerminalPayment, listing: Id, expected: int): Db {
    if q.payer in db.identities then db.(
      invoices := db.invoices[id := Invoice(None, listing, db.identities[q.payer], Open, Linden(expected), now)],
      payments := db.payments[id := Payment(id, ByTerminal(q.terminal, q.event), Linden(q.amount), InReview)],
      receipts := db.receipts[(q.terminal, q.event) := Receipt(q.payer, q.amount, InReview, Some(id), q.body, expected)])
    else db.(
      receipts := db.receipts[(q.terminal, q.event) := Receipt(q.payer, q.amount, InReview, None, q.body, expected)])
  }

  lemma ReviewRow(db: Db, now: int, id: Id, q: TerminalPayment, listing: Id, expected: int)
    ensures ReviewPayment(db, now, id, q, listing, expected) == Reviewed(db, now, id, q, listing, expected)
  {
  }

  /** Any other payment where the terminal sees a lease is left for review. */
  lemma OthersOnLeaseReviewed(db: Db, now: int, id: Id, q: TerminalPayment, listing: Id, p: Price, r: Id)
    requires OneLiveRental(db.rentals) && LinkedLease(db, now, listing, r) && forall weeks :: !PaysOn(db, q, p, r, weeks)
    ensures TerminalPayments.OnClean(db, now, id, q, listing, p)
            == Commit(Reviewed(db, now, id, q, listing, Expects(p, q.amount, false)), InReview)
  {
    TerminalPayments.OneLease(db, now, listing, r, SeenLease(db, now, listing));
    ExpectedMeans(p, q.amount, false);
    ReviewRow(db, now, id, q, listing, Expects(p, q.amount, false));
    if w :| LeaseWeeks.Buys(p, q.amount, w, false) {
      assert !PaysOn(db, q, p, r, w);
    }
    hide LinkedLease, ValidWeeks, PaidWeeks, OneLiveRental, LeaseWeeks.Buys, Eligible, ExpectedAmount, Expects, ReviewPayment, Reviewed, Lengthen;
    hide TerminalPayments.OnFree;
  }

  /** And so is any other where it sees none. */
  lemma OthersReviewed(db: Db, now: int, id: Id, q: TerminalPayment, listing: Id, p: Price)
    requires (forall r :: !LinkedLease(db, now, listing, r)) && forall weeks :: !PaysFirst(db, now, q, listing, p, weeks)
    ensures TerminalPayments.OnClean(db, now, id, q, listing, p)
            == Commit(Reviewed(db, now, id, q, listing, Expects(p, q.amount, true)), InReview)
  {
    ExpectedMeans(p, q.amount, true);
    ReviewRow(db, now, id, q, listing, Expects(p, q.amount, true));
    if w :| LeaseWeeks.Buys(p, q.amount, w, true) {
      assert !PaysFirst(db, now, q, listing, p, w);
    }
    hide LinkedLease, ValidWeeks, PaidWeeks, LeaseWeeks.Buys, Eligible, ExpectedAmount, Expects, ReviewPayment, Reviewed, StartLease;
    hide Vacant, ReservedAgainst, TerminalPayments.OnLeased;
  }

  // ---------- what the provider reports ----------

  /** A dispute returns every card payment that it refers to, whatever its status, to review, and touches nothing else. */
  lemma DisputeMeans(db: Db, references: set<Id>)
    ensures var disputed := Disputed(db, references);
            && disputed.Commit? && disputed.value == ForReview
            && disputed.db == db.(payments := disputed.db.payments) && disputed.db.payments.Keys == db.payments.Keys
            && forall p | p in db.payments ::
                 disputed.db.payments[p] == db.payments[p].(status :=
                   if db.payments[p].reference.ByIntent? && db.payments[p].reference.intent in references then InReview
                   else db.payments[p].status)
  {
  }

  /** Notices of refunds and disputes refer to card payments, by their intent; with no two payments of one intent, a single
      intent refers to one payment at most. */
  lemma ReferenceMeans(payments: map<Id, Payment>, intent: Id, references: set<Id>, p: Id, q: Id)
    ensures StripeHandler.Referred(payments, references, p) <==>
              exists i :: i in references && p in payments && payments[p].reference == ByIntent(i)
    ensures ReferencesDistinct(payments) && StripeHandler.Referred(payments, {intent}, p) && StripeHandler.Referred(payments, {intent}, q) ==> p == q
  {
    if p in payments && payments[p].reference.ByIntent? {
      assert payments[p].reference == ByIntent(payments[p].reference.intent);
    }
  }

  /** The sum over the succeeded refunds of a payment is nothing without any, and each counts once by its amount. */
  lemma SumMeans(refunds: map<Id, RefundRow>, payment: Id, f: Id)
    ensures SumRefunds(refunds, {}) == 0
    ensures f in refunds ==> SumRefunds(refunds, {f}) == refunds[f].amount
    ensures f in SucceededRefunds(refunds, payment) <==>
              f in refunds && refunds[f] == RefundRow(payment, refunds[f].amount, RefundSucceeded)
  {
    if f in refunds {
      assert {f} - {f} == {};
    }
  }

  /** A refund event: recorded under its refund's name, for its payment unless another had it first; the payment is REFUNDED if
      the event says succeeded and the whole positive amount is back, otherwise under review; with REFUNDED its refund action
      has succeeded.  Without a payment to refer to, it writes nothing and is left for review. */
  lemma RefundMeans(db: Db, found: Option<Id>, e: RefundEvent)
    ensures var reported := RefundReported(db, found, e);
            && (found.None? ==> reported == Commit(db, ForReview))
            && (found.Some? ==>
                  && (reported.Commit? <==>
                        && found.value in db.payments && db.payments[found.value].reference.ByIntent? && db.payments[found.value].amount.Minor?
                        && (e.RefundNotice? ==> e.amount >= 0))
                  && (reported.Commit? ==>
                        var p := found.value;
                        var refunds := if e.ChargeRefunded? then db.refunds
                                       else db.refunds[e.refund :=
                                         RefundRow(if e.refund in db.refunds then db.refunds[e.refund].payment else p, e.amount, e.status)];
                        var back := if e.ChargeRefunded? then e.total else SumRefunds(refunds, SucceededRefunds(refunds, p));
                        var whole := e.status == RefundSucceeded && 0 < db.payments[p].amount.minor <= back;
                        && reported.value == (if whole then Handled else ForReview)
                        && reported.db == db.(refunds := refunds,
                                              payments := db.payments[p := db.payments[p].(status := if whole then Refunded else InReview)],
                                              actions := reported.db.actions)
                        && reported.db.actions.Keys == db.actions.Keys
                        && forall a | a in db.actions ::
                             reported.db.actions[a] == db.actions[a].(state :=
                               if whole && db.actions[a].payment == p then Succeeded else db.actions[a].state)))
  {
    hide SumRefunds, SucceededRefunds;
  }

  // ---------- the refund worker ----------

  /** An action is due once it is available, or once the lease of whoever was processing it is over. */
  lemma DueIff(a: Action, now: int)
    ensures Due(a, now) <==>
              || ((a.state == Queued || a.state == Failing) && a.availableAt <= now)
              || (a.state == Processing && a.lease.Some? && a.lease.value <= now)
  {
  }

  /** A claim on a due action that was claimed fewer than twelve times keeps it for two minutes, as one attempt more; the
      twelfth is the last, and after that it waits for an operator.  An action that is not due is left alone. */
  lemma ClaimMeans(db: Db, now: int, action: Id)
    ensures var claimed := ClaimRefund(db, now, action);
            && claimed.Commit?
            && (!(action in db.actions && Due(db.actions[action], now)) ==> claimed == Commit(db, None))
            && (action in db.actions && Due(db.actions[action], now) ==>
                  var a := db.actions[action];
                  if a.attempts < 12 then
                    && claimed.value == Some(Claim(action, a.payment, a.intent, a.amount, a.key))
                    && claimed.db == db.(actions := db.actions[action :=
                         a.(state := Processing, attempts := a.attempts + 1, lease := Some(now + 120))])
                  else
                    && claimed.value.None?
                    && claimed.db == db.(actions := db.actions[action := a.(state := NeedsOperator, lease := None)]))
  {
    hide Due;
  }

  /** The provider's answer is recorded while the action is being processed: a refund that succeeded makes the payment REFUNDED;
      one that is not settled returns the payment to review, and the action comes up again after a minute. */
  lemma CompletionMeans(db: Db, now: int, c: Claim, succeeded: bool)
    ensures var completed := CompleteRefund(db, now, c, succeeded);
            && (completed.Commit? <==> c.action in db.actions && db.actions[c.action].state == Processing && c.payment in db.payments)
            && (completed.Commit? ==>
                  var a := db.actions[c.action];
                  completed.db == db.(
                    actions := db.actions[c.action := if succeeded then a.(state := Succeeded, lease := None)
                                                      else a.(state := Queued, availableAt := now + 60, lease := None)],
                    payments := db.payments[c.payment := db.payments[c.payment].(status := if succeeded then Refunded else InReview)]))
  {
  }

  /** A failure gives the action back: it comes up again after a minute, unless this was the twelfth attempt. */
  lemma FailureMeans(db: Db, now: int, action: Id)
    ensures var failed := FailRefund(db, now, action);
            && failed.Commit?
            && failed.db == if action in db.actions && db.actions[action].state == Processing then
                              db.(actions := db.actions[action := db.actions[action].(
                                state := if db.actions[action].attempts < 12 then Failing else NeedsOperator,
                                availableAt := now + 60, lease := None)])
                            else db
  {
  }

  /** An operator sends an action that failed or waits back to the queue, due at once and with all its attempts, or closes it. */
  lemma OperatorMeans(db: Db, now: int, action: Id)
    ensures var open := action in db.actions && (db.actions[action].state == Failing || db.actions[action].state == NeedsOperator);
            var retried, resolved := RetryRefund(db, now, action), ResolveRefund(db, action);
            && (retried.Commit? <==> open) && (resolved.Commit? <==> open)
            && (open ==>
                  && retried.db == db.(actions := db.actions[action :=
                       db.actions[action].(state := Queued, attempts := 0, availableAt := now, lease := None)])
                  && resolved.db == db.(actions := db.actions[action := db.actions[action].(state := Resolved, lease := None)]))
  {
  }

  lemma ClaimGiven(db: Db, now: int, action: Id)
    ensures ClaimRefund(db, now, action).Commit?
    ensures ClaimRefund(db, now, action).value.Some? <==> action in db.actions && Due(db.actions[action], now) && db.actions[action].attempts < 12
  {
    ClaimMeans(db, now, action);
    hide ClaimRefund, Due;
  }

  /** The row comes up for a claim from that time on, and not before. */
  ghost predicate ComesUp(db: Db, action: Id, from: int) {
    forall later :: ClaimRefund(db, later, action).Commit? && (ClaimRefund(db, later, action).value.Some? <==> from <= later)
  }

  lemma RowComesUp(db: Db, action: Id, from: int)
    requires action in db.actions && db.actions[action].attempts < 12
    requires var a := db.actions[action];
             || ((a.state == Queued || a.state == Failing) && a.availableAt == from)
             || (a.state == Processing && a.lease == Some(from))
    ensures ComesUp(db, action, from)
  {
    forall later ensures ClaimRefund(db, later, action).Commit? && (ClaimRefund(db, later, action).value.Some? <==> from <= later) {
      ClaimGiven(db, later, action);
      hide ClaimRefund;
    }
    hide ClaimRefund;
  }

  /** No refund is forgotten: below twelve attempts a failed, an unsettled and an abandoned claim can all be claimed again, from
      the minute or the end of the lease on, and what an operator retries at once. */
  lemma ComesUpAgain(db: Db, now: int, c: Claim)
    requires c.action in db.actions && db.actions[c.action].state == Processing && db.actions[c.action].attempts < 12
    ensures ComesUp(After(FailRefund(db, now, c.action), db), c.action, now + 60)
    ensures c.payment in db.payments ==> ComesUp(After(CompleteRefund(db, now, c, false), db), c.action, now + 60)
    ensures db.actions[c.action].lease.Some? ==> ComesUp(db, c.action, db.actions[c.action].lease.value)
  {
    FailureMeans(db, now, c.action);
    CompletionMeans(db, now, c, false);
    hide FailRefund, CompleteRefund, ComesUp;
    RowComesUp(After(FailRefund(db, now, c.action), db), c.action, now + 60);
    if c.payment in db.payments {
      RowComesUp(After(CompleteRefund(db, now, c, false), db), c.action, now + 60);
    }
    if db.actions[c.action].lease.Some? {
      RowComesUp(db, c.action, db.actions[c.action].lease.value);
    }
  }

  /** What waits for an operator never comes up by itself, and at once when it is retried. */
  lemma RetriedComesUp(db: Db, now: int, action: Id, later: int)
    requires action in db.actions && db.actions[action].state == NeedsOperator
    ensures ClaimRefund(db, later, action).Commit? && ClaimRefund(db, later, action).value.None?
    ensures ComesUp(After(RetryRefund(db, now, action), db), action, now)
  {
    ClaimGiven(db, later, action);
    OperatorMeans(db, now, action);
    hide RetryRefund, ClaimRefund, ComesUp;
    RowComesUp(After(RetryRefund(db, now, action), db), action, now);
  }
}
