/** Cumulative refunds: what a log of provider refund events, with duplicates and in any order, leaves behind. */
module RefundLog {
  import opened Tables
  import opened Allocation

  /** One delivered event, for the payment that its references lead to. */
  datatype Notice = Notice(payment: Id, event: RefundEvent)

  /** The payment is a card payment, and a refund's amount is not negative. */
  predicate Recordable(payments: map<Id, Payment>, n: Notice) {
    && n.payment in payments && payments[n.payment].reference.ByIntent? && payments[n.payment].amount.Minor?
    && (n.event.RefundNotice? ==> n.event.amount >= 0)
  }

  ghost function Report(db: Db, n: Notice): Db {
    After(RefundReported(db, Some(n.payment), n.event), db)
  }

  ghost function Deliver(db: Db, log: seq<Notice>): Db
    decreases |log|
  {
    if log == [] then db else Report(Deliver(db, log[..|log| - 1]), log[|log| - 1])
  }

  /** The latest event of the log about a refund. */
  function Latest(log: seq<Notice>, refund: Id): (latest: Option<Notice>)
    ensures latest.Some? ==> latest.value in log && latest.value.event.RefundNotice? && latest.value.event.refund == refund
    decreases |log|
  {
    if log == [] then None
    else
      var n := log[|log| - 1];
      if n.event.RefundNotice? && n.event.refund == refund then Some(n) else Latest(log[..|log| - 1], refund)
  }

  /** A refund belongs to one payment: the provider's, in every event and in every row. */
  ghost predicate Belongs(owner: map<Id, Id>, refunds: map<Id, RefundRow>, log: seq<Notice>) {
    && (forall f | f in refunds :: f in owner && refunds[f].payment == owner[f])
    && (forall i | 0 <= i < |log| && log[i].event.RefundNotice? :: log[i].event.refund in owner && log[i].payment == owner[log[i].event.refund])
  }

  lemma ReportForm(db: Db, n: Notice)
    requires Recordable(db.payments, n)
    ensures var after := Report(db, n);
            && after.refunds == RecordRefund(db.refunds, n.payment, n.event)
            && after.payments == db.payments[n.payment := db.payments[n.payment].(status := after.payments[n.payment].status)]
            && after.payments[n.payment].status
               == RefundDisposition(n.event.status, CumulativeRefund(after.refunds, n.payment, n.event), db.payments[n.payment].amount.minor)
            && after.actions == MarkActions(db.actions, n.payment, after.payments[n.payment].status == Refunded)
            && after == db.(refunds := after.refunds, payments := after.payments, actions := after.actions)
  {
    hide RecordRefund, CumulativeRefund, RefundDisposition, MarkActions;
  }

  lemma {:induction false} DeliverRecordable(db: Db, log: seq<Notice>, n: Notice)
    requires Recordable(db.payments, n) && forall i | 0 <= i < |log| :: Recordable(db.payments, log[i])
    ensures Recordable(Deliver(db, log).payments, n)
    decreases |log|
  {
    if log != [] {
      var front := log[..|log| - 1];
      DeliverRecordable(db, front, n);
      DeliverRecordable(db, front, log[|log| - 1]);
      ReportForm(Deliver(db, front), log[|log| - 1]);
      hide Report;
    }
  }

  /** The payment_refunds table is the last-writer map of the log: for each refund the amount and status of its latest
      event, or the row that was there before. */
  lemma {:induction false} LastWriterWins(db: Db, owner: map<Id, Id>, log: seq<Notice>, f: Id)
    requires (forall i | 0 <= i < |log| :: Recordable(db.payments, log[i])) && Belongs(owner, db.refunds, log)
    ensures var rows := Deliver(db, log).refunds;
            var latest := Latest(log, f);
            if latest.Some? then f in rows && latest.value.event.RefundNotice?
                                 && rows[f] == RefundRow(latest.value.payment, latest.value.event.amount, latest.value.event.status)
            else (f in rows <==> f in db.refunds) && (f in rows ==> rows[f] == db.refunds[f])
    ensures f in Deliver(db, log).refunds ==> f in owner && Deliver(db, log).refunds[f].payment == owner[f]
    decreases |log|
  {
    if log != [] {
      var front, n := log[..|log| - 1], log[|log| - 1];
      assert Belongs(owner, db.refunds, front);
      assert n.event.RefundNotice? ==> n.payment == owner[n.event.refund];
      LastWriterWins(db, owner, front, f);
      DeliverRecordable(db, front, n);
      ReportForm(Deliver(db, front), n);
      hide Report;
    }
  }

  /** What one event decides about its payment. */
  lemma ReportDecides(db: Db, n: Notice)
    requires Recordable(db.payments, n) && n.event.RefundNotice?
    ensures var after := Report(db, n);
            && n.payment in after.payments && after.payments[n.payment].amount.Minor?
            && (after.payments[n.payment].status == Refunded <==>
                  && n.event.status == RefundSucceeded && after.payments[n.payment].amount.minor > 0
                  && SumRefunds(after.refunds, SucceededRefunds(after.refunds, n.payment)) >= after.payments[n.payment].amount.minor)
            && (after.payments[n.payment].status != Refunded ==> after.payments[n.payment].status == InReview)
  {
    ReportForm(db, n);
    hide Report, SumRefunds, SucceededRefunds, RecordRefund, MarkActions;
  }

  /** The latest event decides: the payment is REFUNDED exactly if that event says succeeded and the succeeded refunds of
      the payment add up to at least the positive amount paid. */
  lemma LatestDecides(db: Db, log: seq<Notice>)
    requires (forall i | 0 <= i < |log| :: Recordable(db.payments, log[i])) && log != [] && log[|log| - 1].event.RefundNotice?
    ensures var end, n := Deliver(db, log), log[|log| - 1];
            && n.payment in end.payments && end.payments[n.payment].amount.Minor?
            && (end.payments[n.payment].status == Refunded <==>
                  && n.event.status == RefundSucceeded && end.payments[n.payment].amount.minor > 0
                  && SumRefunds(end.refunds, SucceededRefunds(end.refunds, n.payment)) >= end.payments[n.payment].amount.minor)
            && (end.payments[n.payment].status != Refunded ==> end.payments[n.payment].status == InReview)
  {
    var front, n := log[..|log| - 1], log[|log| - 1];
    DeliverRecordable(db, front, n);
    ReportDecides(Deliver(db, front), n);
    hide Report, SumRefunds, SucceededRefunds, Recordable;
  }

  /** The succeeded refunds that are summed up are distinct refunds of this payment, each at the amount and status of its
      latest event. */
  lemma SummedOnce(db: Db, owner: map<Id, Id>, log: seq<Notice>, payment: Id)
    requires (forall i | 0 <= i < |log| :: Recordable(db.payments, log[i])) && Belongs(owner, db.refunds, log)
    ensures var rows := Deliver(db, log).refunds;
            forall f | f in SucceededRefunds(rows, payment) ::
              && f in owner && owner[f] == payment
              && match Latest(log, f)
                 case Some(n) => n.event.status == RefundSucceeded && rows[f].amount == n.event.amount
                 case None => f in db.refunds && rows[f] == db.refunds[f]
  {
    var rows := Deliver(db, log).refunds;
    hide Deliver, Latest, Belongs;
    forall f | f in SucceededRefunds(rows, payment)
      ensures && f in owner && owner[f] == payment
              && match Latest(log, f)
                 case Some(n) => n.event.status == RefundSucceeded && rows[f].amount == n.event.amount
                 case None => f in db.refunds && rows[f] == db.refunds[f]
    {
      LastWriterWins(db, owner, log, f);
    }
  }

  /** Delivering an event again at once changes nothing at all. */
  lemma ReportTwice(db: Db, n: Notice)
    requires Recordable(db.payments, n)
    ensures Report(Report(db, n), n) == Report(db, n)
  {
    var once := Report(db, n);
    ReportForm(db, n);
    assert Recordable(once.payments, n);
    ReportForm(once, n);
    assert RecordRefund(once.refunds, n.payment, n.event) == once.refunds;
    MarkedTwice(db.actions, n.payment, once.payments[n.payment].status == Refunded);
    hide Report, RecordRefund, MarkActions;
  }

  lemma MarkedTwice(actions: map<Id, Action>, payment: Id, succeeded: bool)
    ensures MarkActions(MarkActions(actions, payment, succeeded), payment, succeeded) == MarkActions(actions, payment, succeeded)
  {
  }

  /** A redelivery never counts twice: when an event is the latest about its refund, delivering it again, whatever other
      events came in between, leaves every refund row, and so the cumulative sum, as it was. */
  lemma RedeliveryNeverCountsTwice(db: Db, owner: map<Id, Id>, log: seq<Notice>, n: Notice)
    requires (forall i | 0 <= i < |log| :: Recordable(db.payments, log[i])) && Belongs(owner, db.refunds, log)
    requires Recordable(db.payments, n) && n.event.RefundNotice? && Latest(log, n.event.refund) == Some(n)
    ensures Deliver(db, log + [n]).refunds == Deliver(db, log).refunds
  {
    var was := Deliver(db, log);
    assert (log + [n])[..|log|] == log;
    LastWriterWins(db, owner, log, n.event.refund);
    DeliverRecordable(db, log, n);
    ReportForm(was, n);
    hide Report;
    assert RecordRefund(was.refunds, n.payment, n.event) == was.refunds;
  }
}
