/** What the payment transactions do to the tables. */
module PaymentRules {
  import opened Tables
  import opened CreditRules
  import opened Pricing

  function PaidRow(p: Payment, i: InvoiceId, at: Instant): LedgerRow {
    LedgerRow(PaymentPaidKey(i), p.owner, PurchaseGrant, NoKind, p.credits, None, at)
  }

  function PurchasedPackage(p: Payment, i: InvoiceId, c: Context): Package {
    NewPackage(p.owner, Purchase, p.credits, Some(c.wall + PURCHASE_GRANT_TTL), PurchasePackage(i), c.at)
  }

  /** The callback's answer to an amount, when one was sent. */
  predicate AmountAccepted(p: Payment, outSum: Decimal) {
    NormalizeAmountRub(outSum) == Some(p.kopecks)
  }

  function CheckCallback(t: Tables, i: InvoiceId, providerId: nat, outSum: Option<Decimal>): Result<Payment>
    ensures CheckCallback(t, i, providerId, outSum).Ok? ==> i in t.payments
  {
    if i !in t.payments then Err(PaymentNotFound)
    else if t.payments[i].providerPaymentId != providerId then Err(PaymentMismatch)
    else if outSum.Some? && NormalizeAmountRub(outSum.value).None? then Err(AmountOutOfRange)
    else if outSum.Some? && !AmountAccepted(t.payments[i], outSum.value) then Err(PaymentMismatch)
    else Ok(t.payments[i])
  }

  /** The grant of a payment that is not paid yet, on up-to-date tables. */
  function Settle(t: Tables, i: InvoiceId, c: Context): Tables
    requires i in t.payments
  {
    var p := t.payments[i];
    t.(
      accounts := WithBalance(t.accounts, p.owner, ActiveSum(t.packages, p.owner, c.at) + p.credits),
      ledger := WithRow(t.ledger, PaidRow(p, i, c.at)),
      packages := WithPackage(t.packages, PurchasedPackage(p, i, c)),
      payments := t.payments[i := p.(status := Paid)])
  }

  /** `mark_payment_paid`. An error rolls the caller's transaction back. */
  function MarkPaid(t: Tables, i: InvoiceId, providerId: nat, outSum: Decimal, c: Context): Result<Tables> {
    match CheckCallback(t, i, providerId, Some(outSum))
    case Err(e) => Err(e)
    case Ok(p) =>
      var t1 := Balanced(t, p.owner, c);
      Ok(if p.status == Paid then t1 else Settle(t1, i, c))
  }

  /** `mark_payment_failed`: only a pending payment moves. */
  function MarkFailed(t: Tables, i: InvoiceId, providerId: nat, outSum: Option<Decimal>): Result<Tables> {
    match CheckCallback(t, i, providerId, outSum)
    case Err(e) => Err(e)
    case Ok(p) =>
      Ok(if p.status == Pending then t.(payments := t.payments[i := p.(status := PaymentFailed)]) else t)
  }

  predicate TimedOut(p: Payment, now: Instant) {
    p.status == Pending && p.created < now - PAYMENT_PENDING_TIMEOUT
  }

  /** ORDER BY created_at, id */
  predicate NoLater(payments: map<InvoiceId, Payment>, i: InvoiceId, k: InvoiceId) {
    i in payments && k in payments
    && (payments[i].created < payments[k].created || (payments[i].created == payments[k].created && payments[i].id <= payments[k].id))
  }

  /** The batch the timeout scan picks: the oldest timed-out payments no other transaction locks. */
  ghost predicate IsTimeoutBatch(payments: map<InvoiceId, Payment>, now: Instant, batch: nat,
                                 locked: set<InvoiceId>, chosen: set<InvoiceId>)
  {
    && (forall i :: i in chosen ==> i in payments && TimedOut(payments[i], now) && i !in locked)
    && |chosen| <= batch
    && (forall i, k :: i in chosen && k in payments && TimedOut(payments[k], now) && k !in locked && k !in chosen
          ==> NoLater(payments, i, k))
    && (|chosen| < batch ==>
          forall k :: k in payments && TimedOut(payments[k], now) && k !in locked ==> k in chosen)
  }

  function Cancel(payments: map<InvoiceId, Payment>, chosen: set<InvoiceId>): (r: map<InvoiceId, Payment>)
    ensures r.Keys == payments.Keys
    ensures forall i :: i in payments ==>
      r[i] == if i in chosen then payments[i].(status := Cancelled) else payments[i]
  {
    map i | i in payments :: if i in chosen then payments[i].(status := Cancelled) else payments[i]
  }

  /** `create_topup_payment`: the row it inserts for an amount the pricing accepts. */
  function TopUp(payments: map<InvoiceId, Payment>, i: InvoiceId, id: nat, u: UserId, kopecks: nat, providerId: nat,
                 at: Instant): map<InvoiceId, Payment>
    requires InRange(kopecks)
  {
    TopupPricing(kopecks, kopecks);
    payments[i := Payment(id, u, Pending, kopecks, TierCredits(TOPUP_TIERS, kopecks), providerId, at)]
  }
}
