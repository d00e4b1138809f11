/** The payment transactions as they run, proved to compute the functions of `PaymentRules`. */
module PaymentsService {
  import opened Tables
  import opened CreditRules
  import opened Database
  import opened CreditsService
  import opened Pricing
  import opened PaymentRules

  /** `create_topup_payment` for a user's amount; the row is pending and its credits are priced now. */
  method CreateTopupPayment(db: Database, u: UserId, raw: Decimal, providerId: nat, invoice: InvoiceId, id: nat, at: Instant)
    returns (r: Result<nat>)
    requires invoice !in db.payments
    modifies db`payments
    ensures match NormalizeAmountRub(raw)
            case None => r == Err(AmountOutOfRange) && db.payments == old(db.payments)
            case Some(kopecks) =>
              && r == Ok(TierCredits(TOPUP_TIERS, kopecks))
              && db.payments == TopUp(old(db.payments), invoice, id, u, kopecks, providerId, at)
  {
    var credits := CalculateTopupCredits(raw);
    if credits.None? {
      return Err(AmountOutOfRange);
    }
    var kopecks := NormalizeAmountRub(raw).value;
    TopupPricing(kopecks, kopecks);
    db.payments := db.payments[invoice := Payment(id, u, Pending, kopecks, credits.value, providerId, at)];
    r := Ok(credits.value);
  }

  /** INSERT INTO user_credit_accounts ... ON CONFLICT DO NOTHING before the balance is read. */
  lemma AccountInsertIsAbsorbed(t: Tables, u: UserId, at: Instant, wall: Instant, v: StarterView)
    ensures GetBalance(t.(accounts := WithAccount(t.accounts, u)), u, at, wall, v) == GetBalance(t, u, at, wall, v)
  {
    var t0 := t.(accounts := WithAccount(t.accounts, u));
    assert WithAccount(t0.accounts, u) == t0.accounts;
    assert NeverGranted(t0, u) == NeverGranted(t, u);
  }

  /** The grant that follows a first successful callback. */
  method GrantPurchase(db: Database, i: InvoiceId, balance: nat, at: Instant, wall: Instant)
    requires i in db.payments && balance == ActiveSum(db.packages, db.payments[i].owner, at)
    modifies db
    ensures forall c: Context :: c.at == at && c.wall == wall ==> db.Snapshot() == Settle(old(db.Snapshot()), i, c)
  {
    var p := db.payments[i];
    SetBalance(db, p.owner, balance + p.credits);
    var _ := InsertLedgerRow(db, PaidRow(p, i, at));
    CreateCreditPackage(db, p.owner, Purchase, p.credits, Some(wall + PURCHASE_GRANT_TTL), PurchasePackage(i), at);
    db.payments := db.payments[i := p.(status := Paid)];
  }

  /** `mark_payment_paid`. On an error the caller's transaction rolls the tables back. */
  method MarkPaymentPaid(db: Database, i: InvoiceId, providerId: nat, outSum: Decimal, at: Instant, wall: Instant)
    returns (r: Result<PaymentStatus>, ghost c: Context)
    requires LedgerKeyed(db.ledger)
    modifies db
    ensures c.at == at && c.wall == wall
    ensures match MarkPaid(old(db.Snapshot()), i, providerId, outSum, c)
            case Err(e) => r == Err(e)
            case Ok(t') => r == Ok(Paid) && db.Snapshot() == t'
    ensures r.Ok? ==> ValidView(old(db.ledger), old(db.payments)[i].owner, c.view)
  {
    c := Context(at, wall, StarterView(None, []), []);
    if i !in db.payments {
      return Err(PaymentNotFound), c;
    }
    var p := db.payments[i];
    db.accounts := WithAccount(db.accounts, p.owner);
    if p.providerPaymentId != providerId {
      return Err(PaymentMismatch), c;
    }
    var amount := NormalizeAmountRub(outSum);
    if amount.None? {
      return Err(AmountOutOfRange), c;
    }
    if amount.value != p.kopecks {
      return Err(PaymentMismatch), c;
    }
    var balance, view := GetUserBalance(db, p.owner, at, wall);
    c := Context(at, wall, view, []);
    AccountInsertIsAbsorbed(old(db.Snapshot()), p.owner, at, wall, view);
    assert db.Snapshot() == Balanced(old(db.Snapshot()), p.owner, c);
    assert db.payments == db.Snapshot().payments;
    if p.status != Paid {
      GrantPurchase(db, i, balance, at, wall);
    }
    r := Ok(Paid);
  }

  /** `mark_payment_failed` */
  method MarkPaymentFailed(db: Database, i: InvoiceId, providerId: nat, outSum: Option<Decimal>)
    returns (r: Result<PaymentStatus>)
    modifies db`payments
    ensures match MarkFailed(old(db.Snapshot()), i, providerId, outSum)
            case Err(e) => r == Err(e) && db.payments == old(db.payments)
            case Ok(t') => db.Snapshot() == t' && i in t'.payments && r == Ok(t'.payments[i].status)
  {
    if i !in db.payments {
      return Err(PaymentNotFound);
    }
    var p := db.payments[i];
    if p.providerPaymentId != providerId {
      return Err(PaymentMismatch);
    }
    if outSum.Some? {
      var amount := NormalizeAmountRub(outSum.value);
      if amount.None? {
        return Err(AmountOutOfRange);
      }
      if amount.value != p.kopecks {
        return Err(PaymentMismatch);
      }
    }
    if p.status == Pending {
      db.payments := db.payments[i := p.(status := PaymentFailed)];
    }
    r := Ok(db.payments[i].status);
  }

  method EarliestOf(payments: map<InvoiceId, Payment>, ids: set<InvoiceId>) returns (i: InvoiceId)
    requires ids != {} && ids <= payments.Keys
    ensures i in ids && forall k :: k in ids ==> NoLater(payments, i, k)
  {
    i :| i in ids;
    var rest := ids - {i};
    while rest != {}
      invariant i in ids && rest <= ids
      invariant forall k :: k in ids && k !in rest ==> NoLater(payments, i, k)
      decreases rest
    {
      var k :| k in rest;
      rest := rest - {k};
      if !NoLater(payments, i, k) {
        i := k;
      }
    }
  }

  /** SELECT ... ORDER BY created_at, id LIMIT batch FOR UPDATE SKIP LOCKED */
  method SelectTimeoutBatch(payments: map<InvoiceId, Payment>, now: Instant, batch: nat, locked: set<InvoiceId>)
    returns (chosen: set<InvoiceId>)
    ensures IsTimeoutBatch(payments, now, batch, locked, chosen)
  {
    var left := set i | i in payments && TimedOut(payments[i], now) && i !in locked;
    chosen := {};
    while left != {} && |chosen| < batch
      invariant left !! chosen && |chosen| <= batch
      invariant forall i :: i in left + chosen <==> i in payments && TimedOut(payments[i], now) && i !in locked
      invariant forall i, k :: i in chosen && k in left ==> NoLater(payments, i, k)
      decreases left
    {
      var i := EarliestOf(payments, left);
      left := left - {i};
      chosen := chosen + {i};
    }
    forall i, k | i in chosen && k in payments && TimedOut(payments[k], now) && k !in locked && k !in chosen
      ensures NoLater(payments, i, k)
    {
      assert k in left + chosen;
    }
    if |chosen| < batch {
      forall k | k in payments && TimedOut(payments[k], now) && k !in locked ensures k in chosen {
        assert k in left + chosen;
      }
    }
    forall i | i in chosen ensures i in payments && TimedOut(payments[i], now) && i !in locked {
      assert i in left + chosen;
    }
  }

  /** `cancel_expired_pending_payments` */
  method CancelExpiredPendingPayments(db: Database, batch: int, now: Instant, locked: set<InvoiceId>)
    returns (r: Result<nat>, ghost chosen: set<InvoiceId>)
    modifies db`payments
    ensures r == Err(BatchSizeOutOfRange) <==> !(1 <= batch <= 1000)
    ensures r.Err? ==> db.payments == old(db.payments)
    ensures r.Ok? ==>
      && IsTimeoutBatch(old(db.payments), now, batch, locked, chosen)
      && db.payments == Cancel(old(db.payments), chosen) && r == Ok(|chosen|)
  {
    chosen := {};
    if !(1 <= batch <= 1000) {
      return Err(BatchSizeOutOfRange), chosen;
    }
    var ids := SelectTimeoutBatch(db.payments, now, batch, locked);
    chosen := ids;
    db.payments := Cancel(db.payments, ids);
    r := Ok(|ids|);
  }
}
