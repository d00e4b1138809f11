/** What every history of the system guarantees about payments, balances, trials and billing labels. */
module Histories {
  import opened Sums
  import opened Tables
  import opened CreditRules
  import opened CreditFacts
  import opened CreditInvariant
  import opened Pricing
  import opened PaymentRules
  import opened PaymentFacts
  import opened MergeRules
  import opened RenderRules
  import opened Billing
  import opened Conservation
  import opened Trials
  import opened Economy
  import opened World

  // ----------------------------------------------------------------- payments

  lemma StillPayments(payments: map<InvoiceId, Payment>)
    ensures PaymentsMove(payments, payments)
  {
  }

  lemma PaidMovesPayments(t: Tables, i: InvoiceId, providerId: nat, outSum: Decimal, c: Context)
    requires PaymentsSettled(t.packages, t.payments) && MarkPaid(t, i, providerId, outSum, c).Ok?
    ensures PaymentsMove(t.payments, MarkPaid(t, i, providerId, outSum, c).value.payments)
  {
    MarkPaidOutcome(t, i, providerId, outSum, c);
  }

  lemma MergeMovesPayments(t: Tables, source: UserId, survivor: UserId, at: Instant)
    requires source != survivor
    ensures PaymentsMove(t.payments, Merge(t, source, survivor, at).payments)
  {
    MergeShape(t, source, survivor, at);
  }

  lemma CreateKeepsPayments(t: Tables, j: JobId, u: UserId, creditCost: pos, c: Context)
    requires IsFifoOrder(Balanced(WithJob(t, j, u), u, c).packages, u, c.at, c.order)
    requires CreateJob(t, j, u, creditCost, c).Ok?
    ensures CreateJob(t, j, u, creditCost, c).value.1.payments == t.payments
  {
    CreateIsSpend(t, j, u, creditCost, c);
  }

  lemma FailKeepsPayments(t: Tables, j: JobId, u: UserId, c: Context)
    requires RowsInTable(t.allocations, |t.packages|)
    ensures Fail(t, j, u, c).payments == t.payments
  {
    RowsStayInTable(t, u, c);
  }

  lemma JobStepKeepsPayments(w: World, e: Event)
    requires Enabled(w, e) && OfJob(e)
    ensures Next(w, e).t.payments == w.t.payments
  {
    match e
    case CreateOne(j, u, creditCost, c) =>
      if CreateJob(w.t, j, u, creditCost, c).Ok? { CreateKeepsPayments(w.t, j, u, creditCost, c); }
    case Report(k, c) => FailKeepsPayments(w.t, StageOf(w, k).job, StageOf(w, k).user, c);
    case Compensate(j, u, c) => FailKeepsPayments(w.t, j, u, c);
    case _ =>
  }

  lemma StepMovesPayments(w: World, e: Event)
    requires PaymentsSettled(w.t.packages, w.t.payments) && Enabled(w, e)
    ensures PaymentsMove(w.t.payments, Next(w, e).t.payments)
  {
    StillPayments(w.t.payments);
    if OfJob(e) { JobStepKeepsPayments(w, e); return; }
    match e
    case AskBalance(_, _) =>
    case SignIn(_, _) =>
    case PaidCallback(i, providerId, outSum, c) =>
      if MarkPaid(w.t, i, providerId, outSum, c).Ok? { PaidMovesPayments(w.t, i, providerId, outSum, c); }
    case MergeOne(source, survivor, at) => MergeMovesPayments(w.t, source, survivor, at);
    case _ => PaymentStepMoves(w, e);
  }

  lemma MovesCompose(p: Payment, q: Payment, r: Payment)
    requires PaymentMoves(p, q) && PaymentMoves(q, r)
    ensures PaymentMoves(p, r)
  {
  }

  lemma RunStepMoves(ws: seq<World>, es: seq<Event>, n: nat)
    requires Run(ws, es) && n < |es|
    ensures PaymentsMove(ws[n].t.payments, ws[n + 1].t.payments)
  {
    RunKeeps(ws, es, n);
    assert StepsAt(ws, es, n);
    StepMovesPayments(ws[n], es[n]);
  }

  /** Under any order and repetition of result callbacks, failure returns and timeout scans, among all
      other steps: paid is absorbing, failed and cancelled may only become paid, and amount, credits
      and provider id never change. */
  lemma {:induction false} PaymentHistory(ws: seq<World>, es: seq<Event>, a: nat, n: nat, i: InvoiceId)
    requires Run(ws, es) && a <= n < |ws| && i in ws[a].t.payments
    ensures i in ws[n].t.payments && PaymentMoves(ws[a].t.payments[i], ws[n].t.payments[i])
    decreases n - a
  {
    if a < n {
      PaymentHistory(ws, es, a, n - 1, i);
      RunStepMoves(ws, es, n - 1);
      MovesCompose(ws[a].t.payments[i], ws[n - 1].t.payments[i], ws[n].t.payments[i]);
    }
  }

  /** And in every reachable state an invoice has exactly one purchase package, of the size it was
      created with, if it is paid, and none otherwise. */
  lemma InvoicePackages(ws: seq<World>, es: seq<Event>, a: nat, n: nat, i: InvoiceId)
    requires Run(ws, es) && a <= n < |ws| && i in ws[a].t.payments
    ensures i in ws[n].t.payments
    ensures ws[n].t.payments[i].status == Paid <==> HasKey(ws[n].t.packages, PurchasePackage(i))
    ensures ws[n].t.payments[i].status == Paid ==> exists k: PackageId ::
      OnlyPackageOf(ws[n].t.packages, ws[n].t.payments, i, k) && ws[n].t.packages[k].granted == ws[a].t.payments[i].credits
  {
    PaymentHistory(ws, es, a, n, i);
    RunKeeps(ws, es, n);
    OnePackageIffPaid(ws[n].t.packages, ws[n].t.payments, i);
  }

  // ----------------------------------------------------------------- balances

  /** The cached balance is what the packages hold at this instant. */
  predicate Fresh(t: Tables, u: UserId, at: Instant) {
    u in t.accounts && t.accounts[u].balance == ActiveSum(t.packages, u, at)
  }

  /** Creation: refused exactly when the usable credits do not cover the cost, never because packages
      and balance are out of sync; the balance is fresh whatever was cached before. */
  lemma CreateDecides(t: Tables, merged: set<UserId>, l: Losses, j: JobId, u: UserId, creditCost: pos, c: Context)
    requires EconomyInv(t, merged, l) && j !in t.jobs
    requires IsFifoOrder(Balanced(WithJob(t, j, u), u, c).packages, u, c.at, c.order)
    ensures var r := CreateJob(t, j, u, creditCost, c);
      var t1 := Balanced(WithJob(t, j, u), u, c);
      && (r.Err? <==> ActiveSum(t1.packages, u, c.at) < DEFAULT_CREDIT_COST)
      && (r.Err? ==> r.error == InsufficientCredits)
      && (r.Ok? ==> Fresh(r.value.1, u, c.at)
                    && r.value.0 + DEFAULT_CREDIT_COST == ActiveSum(t1.packages, u, c.at)
                    && AllocatedTo(r.value.1.allocations, j) == DEFAULT_CREDIT_COST)
  {
    InsertKeepsBooks(t, merged, l, j, u);
    ReserveDecides(WithJob(t, j, u), u, j, creditCost, c);
  }

  lemma PublishRefreshes(t: Tables, j: JobId, u: UserId, a: AssetId, c: Context)
    requires JobsAgree(t.jobs) && OwnLiveJob(t, j, u) && t.jobs[j].status == Processing
    ensures Fresh(Publish(t, j, u, a, c), u, c.at)
  {
    GetBalanceShape(WithResult(t, j, a), u, c.at, c.wall, c.view);
  }

  /** Whether what a failing job gives back can be spent at once. */
  predicate RefundTimely(t: Tables, j: JobId, u: UserId, c: Context)
    requires RowsInTable(t.allocations, |t.packages|)
  {
    RowsStayInTable(t, u, c);
    UsableAtOnce(Balanced(t, u, c), j, c)
  }

  /** A failed job: between 1 and its cost is added to the cached balance, namely what could be
      restored or else all of it, and no package is clipped; the balance is fresh exactly when the
      credits can be spent at once. */
  lemma FailRefreshes(t: Tables, merged: set<UserId>, l: Losses, j: JobId, u: UserId, c: Context)
    requires EconomyInv(t, merged, l) && OwnLiveJob(t, j, u)
    ensures var (t', t1) := (Fail(t, j, u, c), Balanced(t, u, c));
      && u in t'.accounts
      && 1 <= t'.accounts[u].balance - ActiveSum(t1.packages, u, c.at) <= t.jobs[j].cost
      && GivenBack(t1.packages, t.allocations, t'.packages, j, c.at)
      && (Fresh(t', u, c.at) <==> RefundTimely(t, j, u, c))
  {
    assert JobAgrees(t.jobs[j]);
    RefundDecides(t, u, j, c);
  }

  /** A result callback: the balance is fresh exactly when nothing was granted or the new package does
      not end in the database's past. */
  lemma PaidRefreshes(t: Tables, merged: set<UserId>, l: Losses, i: InvoiceId, providerId: nat, outSum: Decimal, c: Context)
    requires EconomyInv(t, merged, l) && MarkPaid(t, i, providerId, outSum, c).Ok?
    ensures i in t.payments
    ensures Fresh(MarkPaid(t, i, providerId, outSum, c).value, t.payments[i].owner, c.at)
       <==> t.payments[i].status == Paid || c.at < c.wall + PURCHASE_GRANT_TTL
  {
    var u := t.payments[i].owner;
    GetBalanceShape(t, u, c.at, c.wall, c.view);
    BalanceKeepsEconomy(t, merged, l, u, c);
    if t.payments[i].status != Paid {
      SettleRefreshes(Balanced(t, u, c), i, c);
    }
  }

  lemma MergeRefreshes(t: Tables, source: UserId, survivor: UserId, at: Instant)
    requires source != survivor && survivor in t.accounts
    ensures Fresh(Merge(t, source, survivor, at), survivor, at)
  {
    MergeShape(t, source, survivor, at);
  }

  lemma BalanceRefreshes(t: Tables, u: UserId, c: Context)
    ensures Fresh(Balanced(t, u, c), u, c.at)
  {
    GetBalanceShape(t, u, c.at, c.wall, c.view);
  }

  /** Whether a sign-in leaves the cached balance fresh: it neither expires packages nor reconciles, so
      what was cached has to agree already. */
  predicate SignInAgrees(t: Tables, u: UserId, c: Context) {
    Cached(t.accounts, u) - StarterTaken(t, u, c) + (if NeverGranted(t, u) then STARTER_GRANT_CREDITS else 0)
      == ActiveSum(t.packages, u, c.at) + StarterGiven(t, u, c, c.at)
  }

  lemma SignInRefreshesIff(t: Tables, u: UserId, c: Context)
    ensures Fresh(Ensured(t, u, c), u, c.at) <==> SignInAgrees(t, u, c)
  {
    EnsureBalances(t, u, c, u, c.at);
  }

  /** A user past the grant whose balance was right at an earlier instant still sees that balance when
      he signs in: it is right exactly when none of his credits have ended in between. */
  lemma LapsedCreditsStay(t: Tables, u: UserId, c: Context, earlier: Instant)
    requires Fresh(t, u, earlier) && !NeverGranted(t, u) && StarterTaken(t, u, c) == 0
    ensures Fresh(Ensured(t, u, c), u, earlier)
    ensures Fresh(Ensured(t, u, c), u, c.at) <==> ActiveSum(t.packages, u, earlier) == ActiveSum(t.packages, u, c.at)
  {
    IdleSignIn(t, u, c);
  }

  /** The user whose credits a step works on, and when. */
  function Acting(w: World, e: Event): Option<(UserId, Instant)> {
    match e
    case CreateOne(_, u, _, c) => Some((u, c.at))
    case PublishOne(k, c) => if StageOf(w, k).Holding? then Some((StageOf(w, k).user, c.at)) else None
    case Report(k, c) => if StageOf(w, k).Raising? then Some((StageOf(w, k).user, c.at)) else None
    case Compensate(_, u, c) => Some((u, c.at))
    case AskBalance(u, c) => Some((u, c.at))
    case SignIn(u, c) => Some((u, c.at))
    case PaidCallback(i, _, _, c) => if i in w.t.payments then Some((w.t.payments[i].owner, c.at)) else None
    case MergeOne(_, survivor, at) => Some((survivor, at))
    case _ => None
  }

  /** The step is not refused, does not come late, and finds an account row to write. */
  ghost predicate Effective(w: World, e: Event)
    requires Enabled(w, e)
  {
    match e
    case CreateOne(j, u, creditCost, c) => CreateJob(w.t, j, u, creditCost, c).Ok?
    case PublishOne(k, _) =>
      OwnLiveJob(w.t, StageOf(w, k).job, StageOf(w, k).user) && w.t.jobs[StageOf(w, k).job].status == Processing
    case Report(k, _) => OwnLiveJob(w.t, StageOf(w, k).job, StageOf(w, k).user)
    case Compensate(j, u, _) => OwnLiveJob(w.t, j, u)
    case AskBalance(_, _) => true
    case SignIn(_, _) => true
    case PaidCallback(i, providerId, outSum, _) =>
      && i in w.t.payments && w.t.payments[i].providerPaymentId == providerId
      && NormalizeAmountRub(outSum) == Some(w.t.payments[i].kopecks)
    case MergeOne(_, survivor, _) => survivor in w.t.accounts
    case _ => false
  }

  /** When a step leaves the balance right. Credits that come in a new package can be spent at the
      database's present, unless the application's clock lags by a whole package lifetime; a sign-in
      does not look at the packages at all. */
  ghost predicate Reconciles(w: World, e: Event)
    requires Enabled(w, e)
  {
    match e
    case Report(k, c) => RefundTimely(w.t, StageOf(w, k).job, StageOf(w, k).user, c)
    case Compensate(j, u, c) => RefundTimely(w.t, j, u, c)
    case SignIn(u, c) => SignInAgrees(w.t, u, c)
    case PaidCallback(i, _, _, c) =>
      c.at < c.wall + PURCHASE_GRANT_TTL || (i in w.t.payments && w.t.payments[i].status == Paid)
    case _ => true
  }

  lemma EffectiveStepsRefresh(w: World, e: Event)
    requires WorldInv(w) && Enabled(w, e) && Acting(w, e).Some? && Effective(w, e)
    ensures var (u, at) := Acting(w, e).value;
      Fresh(Next(w, e).t, u, at) <==> Reconciles(w, e)
  {
    var t, m, l := w.t, w.merged, w.losses;
    match e
    case CreateOne(j, u, creditCost, c) => CreateDecides(t, m, l, j, u, creditCost, c);
    case PublishOne(k, c) => PublishRefreshes(t, StageOf(w, k).job, StageOf(w, k).user, StageOf(w, k).asset, c);
    case Report(k, c) => FailRefreshes(t, m, l, StageOf(w, k).job, StageOf(w, k).user, c);
    case Compensate(j, u, c) => FailRefreshes(t, m, l, j, u, c);
    case AskBalance(u, c) => BalanceRefreshes(t, u, c);
    case SignIn(u, c) => SignInRefreshesIff(t, u, c);
    case PaidCallback(i, providerId, outSum, c) => PaidRefreshes(t, m, l, i, providerId, outSum, c);
    case MergeOne(source, survivor, at) => MergeRefreshes(t, source, survivor, at);
  }

  lemma IdleStepsKeepTables(w: World, e: Event)
    requires Enabled(w, e) && Acting(w, e).Some? && !Effective(w, e) && !e.MergeOne?
    ensures Next(w, e).t == w.t
  {
  }

  /** A credit step either has an effect, and then leaves the cached balance of its user equal to the
      packages usable at its own timestamp exactly when it reconciles, which for a sign-in alone depends
      on the value held before; or it changes no table. Only a merge into a user without an account row
      moves the other rows and leaves no balance to be wrong. */
  lemma CreditStepsRefresh(w: World, e: Event)
    requires WorldInv(w) && Enabled(w, e) && Acting(w, e).Some?
    ensures var (u, at) := Acting(w, e).value;
      && (Effective(w, e) ==> (Fresh(Next(w, e).t, u, at) <==> Reconciles(w, e)))
      && (!Effective(w, e) && !e.MergeOne? ==> Next(w, e).t == w.t)
      && (!Effective(w, e) && e.MergeOne? ==> u !in Next(w, e).t.accounts)
  {
    if Effective(w, e) {
      EffectiveStepsRefresh(w, e);
    } else if e.MergeOne? {
      MergeShape(w.t, e.source, e.survivor, e.at);
    } else {
      IdleStepsKeepTables(w, e);
    }
  }

  // ------------------------------------------------------------------- losses

  lemma PublishGrowsLosses(l: Losses, t: Tables, j: JobId, u: UserId, a: AssetId, c: Context)
    requires Covers(l, |t.packages|)
    ensures LossesGrow(l, AfterPublish(l, t, j, u, a, c))
  {
    if Publishable(t, j, u) { BalanceGrowsLosses(l, WithResult(t, j, a), u, c); }
  }

  lemma FailGrowsLosses(l: Losses, t: Tables, j: JobId, u: UserId, c: Context)
    requires Covers(l, |t.packages|) && RowsInTable(t.allocations, |t.packages|)
    ensures LossesGrow(l, AfterFail(l, t, j, u, c))
  {
    if Failable(t, j, u) {
      var t1 := Balanced(t, u, c);
      RowsStayInTable(t, u, c);
      BalanceGrowsLosses(l, t, u, c);
      if t.jobs[j].creditStatus == Reserved { NewRefundPackage(t1, u, j, RefundCost(t.jobs[j]), c); }
      ForfeitingGrows(AfterBalance(l, t, u, c), t1.packages, |Fail(t, j, u, c).packages|, t.allocations, j, c.at);
    }
  }

  lemma PaidGrowsLosses(l: Losses, t: Tables, i: InvoiceId, c: Context)
    requires Covers(l, |t.packages|) && i in t.payments
    ensures LossesGrow(l, AfterPaid(l, t, i, c))
  {
    var u := t.payments[i].owner;
    BalanceGrowsLosses(l, t, u, c);
    ExtendedGrows(AfterBalance(l, t, u, c), |Balanced(t, u, c).packages| + 1);
  }

  lemma EnsureGrowsLosses(l: Losses, t: Tables, u: UserId, c: Context)
    requires Covers(l, |t.packages|)
    ensures LossesGrow(l, AfterEnsure(l, t, u, c))
  {
    GrantedFacts(t, u, c.at, c.wall);
    ExtendedGrows(l, |Granted(t, u, c.at, c.wall)|);
  }

  lemma JobStepGrowsLosses(w: World, e: Event)
    requires Covers(w.losses, |w.t.packages|) && Enabled(w, e)
    requires OfJob(e)
    ensures LossesGrow(w.losses, Next(w, e).losses)
  {
    var t, l := w.t, w.losses;
    match e
    case CreateOne(j, u, creditCost, c) => BalanceGrowsLosses(l, WithJob(t, j, u), u, c);
    case PublishOne(k, c) => PublishGrowsLosses(l, t, StageOf(w, k).job, StageOf(w, k).user, StageOf(w, k).asset, c);
    case Report(k, c) => FailGrowsLosses(l, t, StageOf(w, k).job, StageOf(w, k).user, c);
    case Compensate(j, u, c) => FailGrowsLosses(l, t, j, u, c);
    case _ =>
  }

  /** What was once booked as lost never comes back. */
  lemma StepGrowsLosses(w: World, e: Event)
    requires Covers(w.losses, |w.t.packages|) && Enabled(w, e)
    ensures LossesGrow(w.losses, Next(w, e).losses)
  {
    var t, l := w.t, w.losses;
    match e
    case AskBalance(u, c) => BalanceGrowsLosses(l, t, u, c);
    case SignIn(u, c) => EnsureGrowsLosses(l, t, u, c);
    case PaidCallback(i, providerId, outSum, c) =>
      if MarkPaid(t, i, providerId, outSum, c).Ok? { PaidGrowsLosses(l, t, i, c); }
    case MergeOne(source, survivor, at) => ZeroingGrows(l, MovePackages(t.packages, source, survivor), survivor, at);
    case _ => if OfJob(e) { JobStepGrowsLosses(w, e); }
  }

  // ------------------------------------------------------------------- trials

  lemma KeepsGrantedByRow(t: Tables, t': Tables, v: UserId)
    requires !NeverGranted(t, v)
    requires forall k :: k in t.ledger ==> k in t'.ledger && t'.ledger[k] == t.ledger[k]
    requires v in t.accounts ==> v in t'.accounts && (t.accounts[v].trialUsedAt.Some? ==> t'.accounts[v].trialUsedAt.Some?)
    ensures !NeverGranted(t', v)
  {
    GrantStays(t.ledger, t'.ledger, v);
  }

  /** The rows a step may touch without making room for a second grant. */
  ghost predicate TrialsOnlyGrow(t: Tables, t': Tables) {
    && (forall k :: k in t.ledger ==> k in t'.ledger && t'.ledger[k] == t.ledger[k])
    && (forall v :: v in t.accounts ==> v in t'.accounts)
    && (forall v :: v in t.accounts && t.accounts[v].trialUsedAt.Some? ==> t'.accounts[v].trialUsedAt.Some?)
  }

  lemma BalanceGrowsTrials(t: Tables, u: UserId, c: Context)
    ensures TrialsOnlyGrow(t, Balanced(t, u, c))
  {
    GetBalanceShape(t, u, c.at, c.wall, c.view);
    TrialAfterBalance(t, u, c);
  }

  lemma EnsureGrowsTrials(t: Tables, u: UserId, c: Context)
    ensures TrialsOnlyGrow(t, Ensured(t, u, c))
  {
    EnsureShape(t, u, c.at, c.wall, c.view);
    TrialAfterEnsure(t, u, c);
  }

  lemma WriteGrowsTrials(t: Tables, t': Tables, u: UserId, balance: nat, r: LedgerRow)
    requires t'.ledger == WithRow(t.ledger, r)
    requires t'.accounts == WithBalance(t.accounts, u, balance) || t'.accounts == t.accounts
    ensures TrialsOnlyGrow(t, t')
  {
  }

  lemma CreateGrowsTrials(t: Tables, j: JobId, u: UserId, creditCost: pos, c: Context)
    requires IsFifoOrder(Balanced(WithJob(t, j, u), u, c).packages, u, c.at, c.order)
    requires CreateJob(t, j, u, creditCost, c).Ok?
    ensures TrialsOnlyGrow(t, CreateJob(t, j, u, creditCost, c).value.1)
  {
    var t1 := Balanced(WithJob(t, j, u), u, c);
    BalanceGrowsTrials(WithJob(t, j, u), u, c);
    CreateIsSpend(t, j, u, creditCost, c);
    WriteGrowsTrials(t1, CreateJob(t, j, u, creditCost, c).value.1, u, ActiveSum(t1.packages, u, c.at) - DEFAULT_CREDIT_COST,
      JobLedgerRow(ReserveKey(j), u, JobReserve, Minus(DEFAULT_CREDIT_COST), j, c.at));
  }

  lemma PublishGrowsTrials(t: Tables, j: JobId, u: UserId, a: AssetId, c: Context)
    ensures TrialsOnlyGrow(t, Publish(t, j, u, a, c))
  {
    if Publishable(t, j, u) {
      BalanceGrowsTrials(WithResult(t, j, a), u, c);
    }
  }

  lemma FailGrowsTrials(t: Tables, j: JobId, u: UserId, c: Context)
    requires RowsInTable(t.allocations, |t.packages|)
    ensures TrialsOnlyGrow(t, Fail(t, j, u, c))
  {
    RowsStayInTable(t, u, c);
    BalanceGrowsTrials(t, u, c);
  }

  lemma PaidGrowsTrials(t: Tables, i: InvoiceId, providerId: nat, outSum: Decimal, c: Context)
    requires MarkPaid(t, i, providerId, outSum, c).Ok?
    ensures TrialsOnlyGrow(t, MarkPaid(t, i, providerId, outSum, c).value)
  {
    BalanceGrowsTrials(t, t.payments[i].owner, c);
  }

  lemma JobStepGrowsTrials(w: World, e: Event)
    requires Enabled(w, e) && OfJob(e)
    ensures TrialsOnlyGrow(w.t, Next(w, e).t)
  {
    var t := w.t;
    match e
    case CreateOne(j, u, creditCost, c) =>
      if CreateJob(t, j, u, creditCost, c).Ok? { CreateGrowsTrials(t, j, u, creditCost, c); }
    case PublishOne(k, c) => PublishGrowsTrials(t, StageOf(w, k).job, StageOf(w, k).user, StageOf(w, k).asset, c);
    case Report(k, c) => FailGrowsTrials(t, StageOf(w, k).job, StageOf(w, k).user, c);
    case Compensate(j, u, c) => FailGrowsTrials(t, j, u, c);
    case _ =>
  }

  lemma StepGrowsTrials(w: World, e: Event)
    requires PaymentsSettled(w.t.packages, w.t.payments) && Enabled(w, e) && !e.MergeOne?
    ensures TrialsOnlyGrow(w.t, Next(w, e).t)
  {
    var t := w.t;
    if OfJob(e) { JobStepGrowsTrials(w, e); return; }
    match e
    case AskBalance(u, c) => BalanceGrowsTrials(t, u, c);
    case SignIn(u, c) => EnsureGrowsTrials(t, u, c);
    case PaidCallback(i, providerId, outSum, c) =>
      if MarkPaid(t, i, providerId, outSum, c).Ok? { PaidGrowsTrials(t, i, providerId, outSum, c); }
    case _ => PaymentStepMoves(w, e);
  }

  // ------------------------------------------------------------------- ledger

  /** No row is lost or rewritten, but for the owner that a merge changes. */
  predicate RowsStay(l: map<LedgerKey, LedgerRow>, l': map<LedgerKey, LedgerRow>) {
    forall k :: k in l ==> k in l' && l'[k] == l[k].(owner := l'[k].owner)
  }

  lemma StepKeepsRows(w: World, e: Event)
    requires WorldInv(w) && Enabled(w, e)
    ensures RowsStay(w.t.ledger, Next(w, e).t.ledger)
  {
    if e.MergeOne? {
      MergeShape(w.t, e.source, e.survivor, e.at);
    } else {
      StepGrowsTrials(w, e);
    }
  }

  lemma RunStepRows(ws: seq<World>, es: seq<Event>, n: nat)
    requires Run(ws, es) && n < |es|
    ensures RowsStay(ws[n].t.ledger, ws[n + 1].t.ledger)
  {
    RunKeeps(ws, es, n);
    assert StepsAt(ws, es, n);
    StepKeepsRows(ws[n], es[n]);
  }

  /** The ledger is append-only: event, amount, job and time of a row are for good. */
  lemma {:induction false} LedgerIsForGood(ws: seq<World>, es: seq<Event>, i: nat, n: nat)
    requires Run(ws, es) && i <= n < |ws|
    ensures RowsStay(ws[i].t.ledger, ws[n].t.ledger)
    decreases n - i
  {
    if i < n {
      LedgerIsForGood(ws, es, i, n - 1);
      RunStepRows(ws, es, n - 1);
    }
  }

  predicate Recorded(l: map<LedgerKey, LedgerRow>, r: LedgerRow) {
    r.key in l && l[r.key] == r.(owner := l[r.key].owner)
  }

  lemma RecordedForGood(ws: seq<World>, es: seq<Event>, i: nat, n: nat, r: LedgerRow)
    requires Run(ws, es) && i <= n < |ws| && Recorded(ws[i].t.ledger, r)
    ensures Recorded(ws[n].t.ledger, r)
  {
    LedgerIsForGood(ws, es, i, n);
  }

  /** A callback that will grant for invoice `i`. */
  predicate FirstPaid(t: Tables, i: InvoiceId, e: Event) {
    && e.PaidCallback? && e.invoice == i && i in t.payments && t.payments[i].status != Paid
    && e.providerId == t.payments[i].providerPaymentId && NormalizeAmountRub(e.paidSum) == Some(t.payments[i].kopecks)
  }

  function PurchaseRow(p: Payment, i: InvoiceId, at: Instant): LedgerRow {
    LedgerRow(PaymentPaidKey(i), p.owner, PurchaseGrant, NoKind, p.credits, None, at)
  }

  lemma RunStepRecords(ws: seq<World>, es: seq<Event>, n: nat, i: InvoiceId)
    requires Run(ws, es) && n < |es| && FirstPaid(ws[n].t, i, es[n])
    ensures Recorded(ws[n + 1].t.ledger, PurchaseRow(ws[n].t.payments[i], i, es[n].c.at))
  {
    var (t, e) := (ws[n].t, es[n]);
    RunKeeps(ws, es, n);
    assert StepsAt(ws, es, n);
    SettleRecords(t, i, e.providerId, e.paidSum, e.c);
  }

  /** The callback that grants records the purchase, for the full credits and for good. */
  lemma PurchaseIsRecorded(ws: seq<World>, es: seq<Event>, a: nat, n: nat, i: InvoiceId)
    requires Run(ws, es) && a < n < |ws| && FirstPaid(ws[a].t, i, es[a])
    ensures Recorded(ws[n].t.ledger, PurchaseRow(ws[a].t.payments[i], i, es[a].c.at))
  {
    RunStepRecords(ws, es, a, i);
    RecordedForGood(ws, es, a + 1, n, PurchaseRow(ws[a].t.payments[i], i, es[a].c.at));
  }

  /** In every reachable state the ledger has a purchase row for an invoice exactly when it is paid: for
      the payment's owner and for the credits it was created with. */
  lemma LedgerKnowsPurchases(ws: seq<World>, es: seq<Event>, a: nat, n: nat, i: InvoiceId)
    requires Run(ws, es) && a <= n < |ws| && i in ws[a].t.payments
    ensures i in ws[n].t.payments
    ensures ws[n].t.payments[i].status == Paid <==> PaymentPaidKey(i) in ws[n].t.ledger
    ensures PaymentPaidKey(i) in ws[n].t.ledger ==>
      var r := ws[n].t.ledger[PaymentPaidKey(i)];
      r.event == PurchaseGrant && r.owner == ws[n].t.payments[i].owner && r.delta == ws[a].t.payments[i].credits
  {
    PaymentHistory(ws, es, a, n, i);
    RunKeeps(ws, es, n);
  }

  lemma MergeSparesGrants(t: Tables, source: UserId, survivor: UserId, at: Instant, v: UserId)
    requires source != survivor && v != source && v != survivor && !NeverGranted(t, v)
    ensures !NeverGranted(Merge(t, source, survivor, at), v)
  {
    MergeShape(t, source, survivor, at);
    MergeSparesOthers(t, source, survivor, at, v, at);
    if HasStarterRow(t.ledger, v) {
      var k :| k in t.ledger && StarterReplay.IsStarterRow(t.ledger[k], v);
      assert StarterReplay.IsStarterRow(MoveLedger(t.ledger, source, survivor)[k], v);
      GrantStays(MoveLedger(t.ledger, source, survivor), Merge(t, source, survivor, at).ledger, v);
    }
  }

  /** Who has had the starter grant, or absorbed an account that had it, is past it for good. */
  lemma StepKeepsGranted(w: World, e: Event, v: UserId)
    requires WorldInv(w) && Enabled(w, e) && v !in w.merged && v !in Next(w, e).merged
    requires !NeverGranted(w.t, v) || (e.MergeOne? && e.survivor == v && !NeverGranted(w.t, e.source))
    ensures !NeverGranted(Next(w, e).t, v)
  {
    if e.MergeOne? {
      if v == e.survivor {
        AbsorbedTrialCounts(w.t, e.source, v, e.at, w.merged);
      } else {
        MergeSparesGrants(w.t, e.source, e.survivor, e.at, v);
      }
    } else {
      StepGrowsTrials(w, e);
      KeepsGrantedByRow(w.t, Next(w, e).t, v);
    }
  }

  lemma RunStepGranted(ws: seq<World>, es: seq<Event>, n: nat, v: UserId)
    requires Run(ws, es) && n < |es| && v !in ws[n + 1].merged
    ensures v !in ws[n].merged
    ensures !NeverGranted(ws[n].t, v) ==> !NeverGranted(ws[n + 1].t, v)
  {
    assert StepsAt(ws, es, n);
    if !NeverGranted(ws[n].t, v) {
      RunKeeps(ws, es, n);
      StepKeepsGranted(ws[n], es[n], v);
    }
  }

  lemma {:induction false} GrantedForGood(ws: seq<World>, es: seq<Event>, i: nat, n: nat, v: UserId)
    requires Run(ws, es) && i <= n < |ws| && v !in ws[n].merged && !NeverGranted(ws[i].t, v)
    ensures !NeverGranted(ws[n].t, v)
    decreases n - i
  {
    if i < n {
      RunStepGranted(ws, es, n - 1, v);
      GrantedForGood(ws, es, i, n - 1, v);
    }
  }

  /** From then on `get_balance` adds no package for this user, in any later state before the account
      is itself merged away. */
  lemma NeverAnotherStarter(ws: seq<World>, es: seq<Event>, i: nat, n: nat, v: UserId, at: Instant, wall: Instant)
    requires Run(ws, es) && i <= n < |ws| && v !in ws[n].merged && !NeverGranted(ws[i].t, v)
    ensures Granted(ws[n].t, v, at, wall) == ws[n].t.packages
  {
    GrantedForGood(ws, es, i, n, v);
  }

  // ------------------------------------------------------------------ billing

  /** In every reachable state the billing label tells the truth. */
  lemma ReachableBilling(ws: seq<World>, es: seq<Event>, n: nat, j: JobId, rows: seq<LedgerRow>)
    requires Run(ws, es) && n < |ws| && j in ws[n].t.jobs && IsJobListing(ws[n].t.ledger, j, rows)
    ensures var job := ws[n].t.jobs[j];
      var shown := RenderBillingStatus(EvidenceRow(job, rows));
      && (shown == ShownReserved <==> job.status == Queued || job.status == Processing)
      && (shown == ShownCharged <==> job.status == Completed)
      && (shown == ShownRefunded ==> job.status == Failed)
      && (shown == ShownUnknown ==> job.status == Failed)
      && (job.status == Failed ==> RefundKey(j) in ws[n].t.ledger)
      && (job.status == Failed ==> (shown == ShownRefunded <==> ws[n].t.ledger[RefundKey(j)].delta == job.cost))
  {
    RunKeeps(ws, es, n);
    var t := ws[n].t;
    BillingAgrees(t.ledger, t.jobs, j, rows);
    assert JobAgrees(t.jobs[j]) && JobEvidence(t.ledger, j, t.jobs[j]);
  }
}
