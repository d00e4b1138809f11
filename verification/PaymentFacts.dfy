/** Payment settlement: one purchase package per paid invoice, whatever order the callbacks, failure
    returns and timeout scans come in. */
module PaymentFacts {
  import opened Tables
  import opened CreditRules
  import opened CreditFacts
  import opened Pricing
  import opened PaymentRules

  predicate PackageOfPayment(p: Package, payments: map<InvoiceId, Payment>) {
    p.key.PurchasePackage? ==>
      && p.key.invoice in payments && payments[p.key.invoice].status == Paid
      && p.source == Purchase && p.owner == payments[p.key.invoice].owner
      && p.granted == payments[p.key.invoice].credits
  }

  /** Purchase packages and paid payments match one to one, in owner and size. */
  predicate PaymentsSettled(ps: seq<Package>, payments: map<InvoiceId, Payment>) {
    && KeysUnique(ps)
    && (forall k :: 0 <= k < |ps| ==> PackageOfPayment(ps[k], payments))
    && (forall i :: i in payments && payments[i].status == Paid ==> HasKey(ps, PurchasePackage(i)))
  }

  /** The ledger holds a purchase row for exactly the paid payments, for their owner and full credits. */
  ghost predicate PurchasesRecorded(l: map<LedgerKey, LedgerRow>, payments: map<InvoiceId, Payment>) {
    && (forall i :: PaymentPaidKey(i) in l ==>
          i in payments && payments[i].status == Paid && IsPurchaseRow(l[PaymentPaidKey(i)], payments[i]))
    && (forall i :: i in payments && payments[i].status == Paid ==> PaymentPaidKey(i) in l)
  }

  predicate IsPurchaseRow(r: LedgerRow, p: Payment) {
    r.event == PurchaseGrant && r.owner == p.owner && r.delta == p.credits && r.job.None?
  }

  /** Rows with other keys do not matter. */
  lemma PurchasesOutliveWrites(l: map<LedgerKey, LedgerRow>, l': map<LedgerKey, LedgerRow>, payments: map<InvoiceId, Payment>)
    requires PurchasesRecorded(l, payments)
    requires forall i :: PaymentPaidKey(i) in l' <==> PaymentPaidKey(i) in l
    requires forall i :: PaymentPaidKey(i) in l ==> l'[PaymentPaidKey(i)] == l[PaymentPaidKey(i)]
    ensures PurchasesRecorded(l', payments)
  {
  }

  lemma SettleKeepsRecorded(l: map<LedgerKey, LedgerRow>, payments: map<InvoiceId, Payment>, i: InvoiceId, at: Instant)
    requires PurchasesRecorded(l, payments) && i in payments && payments[i].status != Paid
    ensures PurchasesRecorded(WithRow(l, PaidRow(payments[i], i, at)), payments[i := payments[i].(status := Paid)])
  {
  }

  predicate OnlyPackageOf(ps: seq<Package>, payments: map<InvoiceId, Payment>, i: InvoiceId, k: PackageId) {
    && i in payments && k < |ps| && ps[k].key == PurchasePackage(i)
    && ps[k].granted == payments[i].credits && ps[k].owner == payments[i].owner
    && forall l :: 0 <= l < |ps| && ps[l].key == PurchasePackage(i) ==> l == k
  }

  /** An invoice has exactly one purchase package, of its original size, if it is paid, and none otherwise. */
  lemma OnePackageIffPaid(ps: seq<Package>, payments: map<InvoiceId, Payment>, i: InvoiceId)
    requires PaymentsSettled(ps, payments) && i in payments
    ensures payments[i].status == Paid <==> HasKey(ps, PurchasePackage(i))
    ensures payments[i].status == Paid ==> exists k :: OnlyPackageOf(ps, payments, i, k)
  {
    if payments[i].status == Paid {
      var k :| 0 <= k < |ps| && ps[k].key == PurchasePackage(i);
      assert PackageOfPayment(ps[k], payments);
      assert OnlyPackageOf(ps, payments, i, k);
    }
  }

  /** How one payment row may move in one transaction. */
  predicate PaymentMoves(p: Payment, q: Payment) {
    && q.id == p.id && q.credits == p.credits && q.kopecks == p.kopecks && q.providerPaymentId == p.providerPaymentId
    && q.created == p.created
    && (q.status == p.status || q.status == Paid || (p.status == Pending && (q.status == PaymentFailed || q.status == Cancelled)))
    && (p.status == Paid ==> q.status == Paid)
  }

  ghost predicate PaymentsMove(payments: map<InvoiceId, Payment>, payments': map<InvoiceId, Payment>) {
    forall i :: i in payments ==> i in payments' && PaymentMoves(payments[i], payments'[i])
  }

  /** Nothing is paid that was not, and no payment changes hands. */
  predicate NoneSettled(payments: map<InvoiceId, Payment>, payments': map<InvoiceId, Payment>) {
    && (forall i :: i in payments && i in payments' ==> payments'[i].owner == payments[i].owner)
    && (forall i :: i in payments' && payments'[i].status == Paid ==> i in payments && payments[i].status == Paid)
  }

  // -------------------------------------------------- packages other code writes

  /** The table keeps its packages, up to what remains in them, and gains none that was bought. */
  predicate PackagesPersist(ps: seq<Package>, qs: seq<Package>) {
    && |ps| <= |qs| && KeysUnique(qs)
    && (forall k :: 0 <= k < |ps| ==> qs[k] == ps[k].(remaining := qs[k].remaining))
    && (forall k :: |ps| <= k < |qs| ==> !qs[k].key.PurchasePackage?)
  }

  lemma PersistKeepsKey(ps: seq<Package>, qs: seq<Package>, key: PackageKey)
    requires PackagesPersist(ps, qs) && HasKey(ps, key)
    ensures HasKey(qs, key)
  {
    var k :| 0 <= k < |ps| && ps[k].key == key;
    assert qs[k].key == key;
  }

  lemma PersistKeepsSettled(ps: seq<Package>, qs: seq<Package>, payments: map<InvoiceId, Payment>)
    requires PaymentsSettled(ps, payments) && PackagesPersist(ps, qs)
    ensures PaymentsSettled(qs, payments)
  {
    forall i | i in payments && payments[i].status == Paid ensures HasKey(qs, PurchasePackage(i)) {
      PersistKeepsKey(ps, qs, PurchasePackage(i));
    }
    forall k | 0 <= k < |qs| ensures PackageOfPayment(qs[k], payments) {
      if k < |ps| { assert PackageOfPayment(ps[k], payments); }
    }
  }

  lemma EmptyingPersists(ps: seq<Package>, qs: seq<Package>, u: UserId, at: Instant)
    requires PackagesPersist(ps, qs)
    ensures PackagesPersist(ps, Emptied(qs, u, at))
  {
  }

  lemma GrantPersists(t: Tables, u: UserId, at: Instant, wall: Instant)
    requires KeysUnique(t.packages)
    ensures PackagesPersist(t.packages, Granted(t, u, at, wall))
  {
    GrantedFacts(t, u, at, wall);
  }

  lemma BalancePersists(t: Tables, u: UserId, c: Context)
    requires KeysUnique(t.packages)
    ensures PackagesPersist(t.packages, Balanced(t, u, c).packages)
  {
    GrantPersists(t, u, c.at, c.wall);
    EmptyingPersists(t.packages, Granted(t, u, c.at, c.wall), u, c.at);
    GetBalanceShape(t, u, c.at, c.wall, c.view);
  }

  // ----------------------------------------------------------------- settlement

  lemma NotBoughtYet(ps: seq<Package>, payments: map<InvoiceId, Payment>, i: InvoiceId)
    requires PaymentsSettled(ps, payments) && i in payments && payments[i].status != Paid
    ensures !HasKey(ps, PurchasePackage(i))
  {
  }

  lemma SettleKeepsSettled(ps: seq<Package>, payments: map<InvoiceId, Payment>, i: InvoiceId, c: Context)
    requires PaymentsSettled(ps, payments) && i in payments && payments[i].status != Paid
    ensures var qs := WithPackage(ps, PurchasedPackage(payments[i], i, c));
      && |qs| == |ps| + 1 && qs[..|ps|] == ps
      && PaymentsSettled(qs, payments[i := payments[i].(status := Paid)])
  {
    var qs := WithPackage(ps, PurchasedPackage(payments[i], i, c));
    var payments' := payments[i := payments[i].(status := Paid)];
    NotBoughtYet(ps, payments, i);
    WithPackageFacts(ps, PurchasedPackage(payments[i], i, c));
    forall k | k in payments' && payments'[k].status == Paid ensures HasKey(qs, PurchasePackage(k)) {
      if k != i {
        var n :| 0 <= n < |ps| && ps[n].key == PurchasePackage(k);
        assert qs[n].key == PurchasePackage(k);
      }
    }
    forall k | 0 <= k < |qs| ensures PackageOfPayment(qs[k], payments') {
      if k < |ps| { assert PackageOfPayment(ps[k], payments); }
    }
  }

  /** What a callback that grants leaves: the payment's credits, usable until the package ends and not
      a moment longer, for its owner and nobody else. */
  lemma SettleAddsUp(t: Tables, i: InvoiceId, c: Context, v: UserId, x: Instant)
    requires i in t.payments && t.payments[i].status != Paid && PaymentsSettled(t.packages, t.payments)
    ensures var p := t.payments[i];
      ActiveSum(Settle(t, i, c).packages, v, x) == ActiveSum(t.packages, v, x)
        + (if v == p.owner && x < c.wall + PURCHASE_GRANT_TTL then p.credits else 0)
  {
    NotBoughtYet(t.packages, t.payments, i);
    ActiveSumAppend(t.packages, PurchasedPackage(t.payments[i], i, c), v, x);
  }

  lemma SettleRefreshes(t: Tables, i: InvoiceId, c: Context)
    requires i in t.payments && t.payments[i].status != Paid && PaymentsSettled(t.packages, t.payments)
    requires t.payments[i].owner in t.accounts
    ensures var (t', u) := (Settle(t, i, c), t.payments[i].owner);
      && u in t'.accounts
      && (t'.accounts[u].balance == ActiveSum(t'.packages, u, c.at) <==> c.at < c.wall + PURCHASE_GRANT_TTL)
  {
    SettleAddsUp(t, i, c, t.payments[i].owner, c.at);
  }

  lemma SettleWrites(t: Tables, i: InvoiceId, c: Context)
    requires i in t.payments
    ensures Settle(t, i, c).ledger == WithRow(t.ledger, PaidRow(t.payments[i], i, c.at))
  {
  }

  lemma UpkeepIsNoPurchase(l: map<LedgerKey, LedgerRow>, l': map<LedgerKey, LedgerRow>, u: UserId, i: InvoiceId)
    requires LedgerGrows(l, l', u)
    ensures PaymentPaidKey(i) in l' <==> PaymentPaidKey(i) in l
    ensures PaymentPaidKey(i) in l ==> l'[PaymentPaidKey(i)] == l[PaymentPaidKey(i)]
  {
  }

  /** The ledger says so too, once. */
  lemma SettleRecords(t: Tables, i: InvoiceId, providerId: nat, outSum: Decimal, c: Context)
    requires MarkPaid(t, i, providerId, outSum, c).Ok? && i in t.payments && t.payments[i].status != Paid
    ensures var (l', p) := (MarkPaid(t, i, providerId, outSum, c).value.ledger, t.payments[i]);
      && PaymentPaidKey(i) in l'
      && (PaymentPaidKey(i) in t.ledger ==> l'[PaymentPaidKey(i)] == t.ledger[PaymentPaidKey(i)])
      && (PaymentPaidKey(i) !in t.ledger ==>
            l'[PaymentPaidKey(i)] == LedgerRow(PaymentPaidKey(i), p.owner, PurchaseGrant, NoKind, p.credits, None, c.at))
  {
    var t1 := Balanced(t, t.payments[i].owner, c);
    GetBalanceShape(t, t.payments[i].owner, c.at, c.wall, c.view);
    UpkeepIsNoPurchase(t.ledger, t1.ledger, t.payments[i].owner, i);
    SettleWrites(t1, i, c);
    assert MarkPaid(t, i, providerId, outSum, c).value == Settle(t1, i, c);
  }

  /** `mark_payment_paid` in any state: paid afterwards, one package of the original size, and no
      second one however often the callback comes. */
  lemma MarkPaidOutcome(t: Tables, i: InvoiceId, providerId: nat, outSum: Decimal, c: Context)
    requires PaymentsSettled(t.packages, t.payments)
    requires MarkPaid(t, i, providerId, outSum, c).Ok?
    ensures i in t.payments
    ensures var t' := MarkPaid(t, i, providerId, outSum, c).value;
      var t1 := Balanced(t, t.payments[i].owner, c);
      && t'.payments == t.payments[i := t.payments[i].(status := Paid)]
      && PaymentsSettled(t'.packages, t'.payments)
      && (t.payments[i].status == Paid ==> t' == t1)
      && (t.payments[i].status != Paid ==> t'.packages == t1.packages + [PurchasedPackage(t.payments[i], i, c)])
  {
    var u := t.payments[i].owner;
    BalancePersists(t, u, c);
    PersistKeepsSettled(t.packages, Balanced(t, u, c).packages, t.payments);
    if t.payments[i].status == Paid {
      assert t.payments[i := t.payments[i].(status := Paid)] == t.payments;
    } else {
      SettleKeepsSettled(Balanced(t, u, c).packages, t.payments, i, c);
      NotBoughtYet(Balanced(t, u, c).packages, t.payments, i);
    }
  }

  /** Failure returns and timeouts leave credits alone and cannot undo a settlement. */
  lemma UnpaidKeepsSettled(ps: seq<Package>, payments: map<InvoiceId, Payment>, payments': map<InvoiceId, Payment>)
    requires PaymentsSettled(ps, payments)
    requires payments'.Keys == payments.Keys && PaymentsMove(payments, payments')
    requires forall i :: i in payments ==> payments'[i].owner == payments[i].owner
    requires forall i :: i in payments && payments'[i].status == Paid ==> payments[i].status == Paid
    ensures PaymentsSettled(ps, payments')
  {
    forall k | 0 <= k < |ps| ensures PackageOfPayment(ps[k], payments') {
      assert PackageOfPayment(ps[k], payments);
    }
  }

  lemma UnpaidKeepsRecorded(l: map<LedgerKey, LedgerRow>, payments: map<InvoiceId, Payment>, payments': map<InvoiceId, Payment>)
    requires PurchasesRecorded(l, payments) && PaymentsMove(payments, payments') && NoneSettled(payments, payments')
    ensures PurchasesRecorded(l, payments')
  {
  }

  lemma MarkFailedOutcome(t: Tables, i: InvoiceId, providerId: nat, outSum: Option<Decimal>)
    requires PaymentsSettled(t.packages, t.payments)
    requires MarkFailed(t, i, providerId, outSum).Ok?
    ensures var t' := MarkFailed(t, i, providerId, outSum).value;
      && t' == t.(payments := t'.payments) && PaymentsMove(t.payments, t'.payments)
      && PaymentsSettled(t'.packages, t'.payments)
      && i in t.payments && t'.payments[i].status == (if t.payments[i].status == Pending then PaymentFailed else t.payments[i].status)
  {
    var t' := MarkFailed(t, i, providerId, outSum).value;
    UnpaidKeepsSettled(t.packages, t.payments, t'.payments);
  }

  lemma CancelOutcome(ps: seq<Package>, payments: map<InvoiceId, Payment>, now: Instant, batch: nat,
                      locked: set<InvoiceId>, chosen: set<InvoiceId>)
    requires PaymentsSettled(ps, payments) && IsTimeoutBatch(payments, now, batch, locked, chosen)
    ensures PaymentsMove(payments, Cancel(payments, chosen)) && PaymentsSettled(ps, Cancel(payments, chosen))
  {
    UnpaidKeepsSettled(ps, payments, Cancel(payments, chosen));
  }

  lemma TopUpOutcome(ps: seq<Package>, payments: map<InvoiceId, Payment>, i: InvoiceId, id: nat, u: UserId,
                     kopecks: nat, providerId: nat, at: Instant)
    requires PaymentsSettled(ps, payments) && i !in payments && InRange(kopecks)
    ensures var payments' := TopUp(payments, i, id, u, kopecks, providerId, at);
      PaymentsMove(payments, payments') && PaymentsSettled(ps, payments')
  {
    var payments' := TopUp(payments, i, id, u, kopecks, providerId, at);
    forall k | 0 <= k < |ps| ensures PackageOfPayment(ps[k], payments') {
      assert PackageOfPayment(ps[k], payments);
    }
  }
}
