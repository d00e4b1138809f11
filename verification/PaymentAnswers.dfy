/** When the payment operations answer what, in terms of the payment rows alone, and what a top-up
    buys over a whole run. */
module PaymentAnswers {
  import opened Tables
  import opened CreditRules
  import opened Pricing
  import opened PaymentRules
  import opened PaymentFacts
  import opened World
  import opened Histories

  // ------------------------------------------------------------------ callbacks

  /** The answer to a callback that names a provider id and, perhaps, an amount. */
  predicate CallbackAnswer<T>(payments: map<InvoiceId, Payment>, i: InvoiceId, providerId: nat, outSum: Option<Decimal>, r: Result<T>) {
    if i !in payments then r == Err(PaymentNotFound)
    else if payments[i].providerPaymentId != providerId then r == Err(PaymentMismatch)
    else if outSum.None? || NormalizeAmountRub(outSum.value) == Some(payments[i].kopecks) then r.Ok?
    else r == Err(if NormalizeAmountRub(outSum.value).None? then AmountOutOfRange else PaymentMismatch)
  }

  /** A result callback succeeds exactly when invoice, provider id and amount are the payment's own,
      whatever its status; each failing test has its own error. */
  lemma MarkPaidAnswers(t: Tables, i: InvoiceId, providerId: nat, outSum: Decimal, c: Context)
    ensures CallbackAnswer(t.payments, i, providerId, Some(outSum), MarkPaid(t, i, providerId, outSum, c))
    ensures MarkPaid(t, i, providerId, outSum, c).Ok? <==>
      i in t.payments && t.payments[i].providerPaymentId == providerId && NormalizeAmountRub(outSum) == Some(t.payments[i].kopecks)
  {
  }

  /** The package of a first successful callback, whole and dated by the application's clock. */
  lemma PurchaseAnswers(t: Tables, i: InvoiceId, providerId: nat, outSum: Decimal, c: Context)
    requires PaymentsSettled(t.packages, t.payments) && i in t.payments && t.payments[i].status != Paid
    requires MarkPaid(t, i, providerId, outSum, c).Ok?
    ensures var p := t.payments[i];
      MarkPaid(t, i, providerId, outSum, c).value.packages == Balanced(t, p.owner, c).packages
        + [Package(p.owner, Purchase, p.credits, p.credits, Some(c.wall + PURCHASE_GRANT_TTL), c.at, PurchasePackage(i))]
  {
    MarkPaidOutcome(t, i, providerId, outSum, c);
  }

  /** A failure return is tested in the same way, with the amount left out at will, and moves exactly
      a pending payment. */
  lemma MarkFailedAnswers(t: Tables, i: InvoiceId, providerId: nat, outSum: Option<Decimal>)
    ensures CallbackAnswer(t.payments, i, providerId, outSum, MarkFailed(t, i, providerId, outSum))
    ensures MarkFailed(t, i, providerId, outSum).Ok? ==>
      i in t.payments && MarkFailed(t, i, providerId, outSum).value == (if t.payments[i].status != Pending then t
        else t.(payments := t.payments[i := t.payments[i].(status := PaymentFailed)]))
  {
  }

  // ------------------------------------------------------------------- timeouts

  /** `i` may be timed out by a scan at `now`. */
  predicate Overdue(payments: map<InvoiceId, Payment>, now: Instant, locked: set<InvoiceId>, i: InvoiceId) {
    i in payments && i !in locked && payments[i].status == Pending && payments[i].created + PAYMENT_PENDING_TIMEOUT < now
  }

  predicate OlderRow(p: Payment, q: Payment) {
    p.created < q.created || (p.created == q.created && p.id <= q.id)
  }

  function CancelledBy(payments: map<InvoiceId, Payment>, payments': map<InvoiceId, Payment>): set<InvoiceId> {
    set i | i in payments && i in payments' && payments'[i] != payments[i]
  }

  /** A scan cancels overdue payments and nothing else, at most a batch of them, and leaves one that is
      overdue only if the batch is full of older ones. */
  lemma CancelAnswers(payments: map<InvoiceId, Payment>, now: Instant, batch: nat, locked: set<InvoiceId>, chosen: set<InvoiceId>)
    requires IsTimeoutBatch(payments, now, batch, locked, chosen)
    ensures var payments' := Cancel(payments, chosen);
      var gone := CancelledBy(payments, payments');
      && payments'.Keys == payments.Keys && |gone| <= batch
      && (forall i :: i in gone ==> Overdue(payments, now, locked, i) && payments'[i] == payments[i].(status := Cancelled))
      && (forall i, k :: Overdue(payments, now, locked, k) && k !in gone && i in gone ==> |gone| == batch && OlderRow(payments[i], payments[k]))
      && (forall k :: Overdue(payments, now, locked, k) && k !in gone ==> |gone| == batch)
  {
    forall i | i in chosen ensures TimedOut(payments[i], now) {}
    assert CancelledBy(payments, Cancel(payments, chosen)) == chosen;
  }

  // -------------------------------------------------------------------- top-ups

  /** The row a top-up inserts. */
  lemma TopUpAnswers(payments: map<InvoiceId, Payment>, i: InvoiceId, id: nat, u: UserId, kopecks: nat, providerId: nat, at: Instant)
    requires InRange(kopecks)
    ensures var credits := TierCredits(TOPUP_TIERS, kopecks);
      && credits > 0
      && TopUp(payments, i, id, u, kopecks, providerId, at) == payments[i := Payment(id, u, Pending, kopecks, credits, providerId, at)]
  {
    TopupPricing(kopecks, kopecks);
  }

  lemma RunTopsUp(ws: seq<World>, es: seq<Event>, n: nat)
    requires Run(ws, es) && n < |es| && es[n].StartTopUp?
    ensures var (e, payments) := (es[n], ws[n + 1].t.payments);
      && e.invoice !in ws[n].t.payments && e.invoice in payments && payments[e.invoice].status == Pending
      && payments[e.invoice].owner == e.user && payments[e.invoice].kopecks == e.kopecks
      && payments[e.invoice].credits == TierCredits(TOPUP_TIERS, e.kopecks)
  {
    assert StepsAt(ws, es, n);
    TopUpAnswers(ws[n].t.payments, es[n].invoice, es[n].id, es[n].user, es[n].kopecks, es[n].providerId, es[n].at);
  }

  /** What a top-up buys: from its request on it stays priced as it was then, it is paid exactly when
      its package is there, and the package holds exactly the credits of the amount. */
  lemma TopUpBuys(ws: seq<World>, es: seq<Event>, a: nat, n: nat)
    requires Run(ws, es) && a < n < |ws| && es[a].StartTopUp?
    ensures var (t, i, credits) := (ws[n].t, es[a].invoice, TierCredits(TOPUP_TIERS, es[a].kopecks));
      && i in t.payments && t.payments[i].kopecks == es[a].kopecks && t.payments[i].credits == credits
      && (t.payments[i].status == Paid <==> HasKey(t.packages, PurchasePackage(i)))
      && (forall k :: 0 <= k < |t.packages| && t.packages[k].key == PurchasePackage(i) ==>
            t.packages[k].granted == credits && t.packages[k].owner == t.payments[i].owner)
  {
    var (t, i) := (ws[n].t, es[a].invoice);
    RunTopsUp(ws, es, a);
    PaymentHistory(ws, es, a + 1, n, i);
    InvoicePackages(ws, es, a + 1, n, i);
    RunKeeps(ws, es, n);
    forall k | 0 <= k < |t.packages| && t.packages[k].key == PurchasePackage(i)
      ensures t.packages[k].granted == t.payments[i].credits && t.packages[k].owner == t.payments[i].owner
    {
      assert PackageOfPayment(t.packages[k], t.payments);
    }
  }
}
