/** L$ prices: what the terminal is told to offer, and how a paid amount is read back as weeks. */
module Pricing {
  import opened Tables

  datatype LindenAction = Start | Extend | Review

  /** decideLindenPayment. */
  function Decide(received: int, expected: int, renterAvatar: Option<Id>, payer: Id, payerKnown: bool): LindenAction {
    if received != expected || !payerKnown then Review
    else if renterAvatar.Some? then (if renterAvatar.value == payer then Extend else Review)
    else Start
  }

  /** The four pay prices of a poll response; a reserved listing or one without a price offers zeros. */
  function QuotedPrices(price: Option<Price>, reserved: bool, leased: bool): seq<int> {
    if price.Some? && !reserved then
      var p := price.value;
      seq(4, k requires 0 <= k < 4 => p.weeklyLinden * (k + 1) + (if leased then 0 else p.setupLinden))
    else [0, 0, 0, 0]
  }

  /** Math.floor((amount - setup) / weekly); the divisor is positive, so Dafny's division is the floor. */
  function PaidWeeks(amount: int, setup: int, weekly: int): int
    requires weekly > 0
  {
    (amount - setup) / weekly
  }

  predicate ValidWeeks(amount: int, setup: int, weekly: int)
    requires weekly > 0
  {
    var weeks := PaidWeeks(amount, setup, weekly);
    amount - setup == weeks * weekly && 1 <= weeks <= 4
  }

  /** The amount that the durable review record says was expected. */
  function ExpectedAmount(amount: int, setup: int, weekly: int): int
    requires weekly > 0
  {
    if ValidWeeks(amount, setup, weekly) then setup + weekly * PaidWeeks(amount, setup, weekly) else weekly + setup
  }

  /** A poll quotes four prices: of one to four weeks, with the setup price unless the listing is leased; nothing at all for a
      listing that is reserved or has no price. */
  lemma QuoteMeans(price: Option<Price>, reserved: bool, leased: bool, k: nat)
    requires k < 4
    ensures |QuotedPrices(price, reserved, leased)| == 4
    ensures QuotedPrices(price, reserved, leased)[k]
            == if price.None? || reserved then 0
               else if leased then (k + 1) * price.value.weeklyLinden
               else price.value.setupLinden + (k + 1) * price.value.weeklyLinden
  {
  }

  lemma MultipleDivides(weeks: int, weekly: int)
    requires weekly > 0
    ensures (weeks * weekly) / weekly == weeks
  {
    var q, r := (weeks * weekly) / weekly, (weeks * weekly) % weekly;
    DivMod(weeks * weekly, weekly);
    assert (weeks - q) * weekly == r;
    if weeks > q {
      Scale(weeks - q, 1, weekly);
    } else if weeks < q {
      Scale(-1, weeks - q, weekly);
    }
  }

  lemma DivMod(a: int, d: int)
    requires d > 0
    ensures d * (a / d) + a % d == a && 0 <= a % d < d
  {
  }

  lemma Scale(a: int, b: int, d: int)
    requires a >= b && d > 0
    ensures a * d >= b * d
  {
  }

  /** The poll, told whether the listing is leased, offers the amount. */
  ghost predicate Offers(p: Price, leased: bool, amount: int) {
    amount in QuotedPrices(Some(p), false, leased)
  }

  /** The payment route, charging setup or not, reads the amount as a whole number of weeks. */
  ghost predicate Accepts(p: Price, charged: bool, amount: int) {
    ValidWeeks(amount, if charged then p.setupLinden else 0, p.weeklyLinden)
  }

  /** An amount passes week validation exactly when it is one of the four prices a poll with the same
      lease situation offers, and it is then read back as the week count of that price. */
  lemma QuoteDecodeInverse(p: Price, leased: bool, amount: int)
    ensures Accepts(p, !leased, amount) <==> Offers(p, leased, amount)
    ensures var setup := if leased then 0 else p.setupLinden;
            (forall k :: 0 <= k < 4 && QuotedPrices(Some(p), false, leased)[k] == amount ==>
                  PaidWeeks(amount, setup, p.weeklyLinden) == k + 1)
  {
    var setup := if leased then 0 else p.setupLinden;
    var quoted := QuotedPrices(Some(p), false, leased);
    forall k | 0 <= k < 4 && quoted[k] == amount
      ensures PaidWeeks(amount, setup, p.weeklyLinden) == k + 1 && ValidWeeks(amount, setup, p.weeklyLinden)
    {
      assert amount - setup == (k + 1) * p.weeklyLinden;
      MultipleDivides(k + 1, p.weeklyLinden);
    }
    if ValidWeeks(amount, setup, p.weeklyLinden) {
      var weeks := PaidWeeks(amount, setup, p.weeklyLinden);
      assert quoted[weeks - 1] == p.weeklyLinden * weeks + setup;
      assert amount == quoted[weeks - 1];
    }
  }

  /** An amount of another length is already sent to review by the decision, before the separate
      override for invalid amounts; a valid amount is never refused for its size. */
  lemma InvalidAmountIsReviewed(amount: int, setup: int, weekly: int, renter: Option<Id>, payer: Id, known: bool)
    requires weekly > 0
    ensures !ValidWeeks(amount, setup, weekly) ==>
              Decide(amount, ExpectedAmount(amount, setup, weekly), renter, payer, known) == Review
    ensures ValidWeeks(amount, setup, weekly) <==> amount == ExpectedAmount(amount, setup, weekly)
  {
    if amount == weekly + setup {
      MultipleDivides(1, weekly);
    }
  }

  /** The poll charges setup by whether the listing is leased, the payment by whether the lessee has a
      linked avatar.  The two readings accept the same amounts exactly when there is no setup price, no
      lease, or a linked lessee. */
  lemma QuoteAgreesIffLinked(p: Price, leased: bool, linked: bool)
    ensures (forall amount :: Offers(p, leased, amount) <==> Accepts(p, !(leased && linked), amount))
            <==> (p.setupLinden == 0 || !leased || linked)
  {
    var free := leased && linked;
    forall amount
      ensures Offers(p, free, amount) <==> Accepts(p, !free, amount)
    {
      QuoteDecodeInverse(p, free, amount);
    }
    if p.setupLinden > 0 && leased && !linked {
      // The single-week price of an unlinked lessee lies below every amount that the payment accepts.
      assert Offers(p, leased, p.weeklyLinden) by {
        assert QuotedPrices(Some(p), false, leased)[0] == p.weeklyLinden;
      }
      if Accepts(p, true, p.weeklyLinden) {
        Scale(PaidWeeks(p.weeklyLinden, p.setupLinden, p.weeklyLinden), 1, p.weeklyLinden);
      }
    } else {
      var charged := !free;
      forall amount
        ensures Offers(p, leased, amount) <==> Accepts(p, charged, amount)
      {
        assert QuotedPrices(Some(p), false, leased) == QuotedPrices(Some(p), false, free);
        assert Offers(p, free, amount) <==> Accepts(p, charged, amount);
      }
    }
  }
}
