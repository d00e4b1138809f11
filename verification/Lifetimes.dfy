/** Credits are lost only after their package has ended, over every run; those of a cutover never are. */
module Lifetimes {
  import opened Tables
  import opened CreditRules
  import opened CreditFacts
  import opened DrawFacts
  import opened RefundFacts
  import opened PaymentRules
  import opened PaymentFacts
  import opened MergeRules
  import opened RenderRules
  import opened Conservation
  import opened Economy
  import opened World
  import opened Histories
  import opened Cutover

  /** The same package, up to its owner and what remains in it. */
  predicate Lives(p: Package, q: Package) {
    q == p.(owner := q.owner, remaining := q.remaining)
  }

  predicate SameLosses(l: Losses, l': Losses, p: PackageId) {
    At(l'.zeroed, p) == At(l.zeroed, p) && At(l'.forfeited, p) == At(l.forfeited, p)
  }

  /** Every package lives on, and one that is active at `at` loses nothing. */
  ghost predicate Spares(ps: seq<Package>, l: Losses, qs: seq<Package>, l': Losses, at: Instant) {
    && |ps| <= |qs|
    && forall p: PackageId :: p < |ps| ==> Lives(ps[p], qs[p]) && (Active(ps[p], at) ==> SameLosses(l, l', p))
  }

  lemma SparesTwice(ps: seq<Package>, l: Losses, qs: seq<Package>, l': Losses, rs: seq<Package>, l'': Losses, at: Instant)
    requires Spares(ps, l, qs, l', at) && Spares(qs, l', rs, l'', at)
    ensures Spares(ps, l, rs, l'', at)
  {
    forall p: PackageId | p < |ps| ensures Lives(ps[p], rs[p]) && (Active(ps[p], at) ==> SameLosses(l, l'', p)) {
      assert Lives(ps[p], qs[p]) && Lives(qs[p], rs[p]);
    }
  }

  // ------------------------------------------------------------------ the steps

  /** New packages at the end of the table. */
  lemma AppendSpares(ps: seq<Package>, l: Losses, qs: seq<Package>, at: Instant)
    requires |ps| <= |qs| && forall p :: 0 <= p < |ps| ==> qs[p] == ps[p]
    ensures Spares(ps, l, qs, Extended(l, |qs|), at)
  {
  }

  lemma EmptyingSpares(ps: seq<Package>, l: Losses, u: UserId, at: Instant)
    ensures Spares(ps, l, Emptied(ps, u, at), Zeroing(l, ps, u, at), at)
  {
  }

  lemma BalanceSpares(t: Tables, l: Losses, u: UserId, c: Context)
    ensures Spares(t.packages, l, Balanced(t, u, c).packages, AfterBalance(l, t, u, c), c.at)
  {
    var ps := Granted(t, u, c.at, c.wall);
    var l1 := Extended(l, |ps|);
    GrantedFacts(t, u, c.at, c.wall);
    AppendSpares(t.packages, l, ps, c.at);
    EmptyingSpares(ps, l1, u, c.at);
    SparesTwice(t.packages, l, ps, l1, Emptied(ps, u, c.at), Zeroing(l1, ps, u, c.at), c.at);
    GetBalanceShape(t, u, c.at, c.wall, c.view);
  }

  lemma EnsureSpares(t: Tables, l: Losses, u: UserId, c: Context)
    ensures Spares(t.packages, l, Ensured(t, u, c).packages, AfterEnsure(l, t, u, c), c.at)
  {
    GrantedFacts(t, u, c.at, c.wall);
    EnsureShape(t, u, c.at, c.wall, c.view);
    AppendSpares(t.packages, l, Ensured(t, u, c).packages, c.at);
  }

  lemma CreateSpares(t: Tables, l: Losses, j: JobId, u: UserId, creditCost: pos, c: Context)
    requires IsFifoOrder(Balanced(WithJob(t, j, u), u, c).packages, u, c.at, c.order)
    requires CreateJob(t, j, u, creditCost, c).Ok?
    ensures Spares(t.packages, l, CreateJob(t, j, u, creditCost, c).value.1.packages, AfterBalance(l, WithJob(t, j, u), u, c), c.at)
  {
    var t1, l1 := Balanced(WithJob(t, j, u), u, c), AfterBalance(l, WithJob(t, j, u), u, c);
    var d := Draw(t1.packages, t1.allocations, DEFAULT_CREDIT_COST);
    BalanceSpares(WithJob(t, j, u), l, u, c);
    CreateIsSpend(t, j, u, creditCost, c);
    DrawShape(d, c.order, j);
    SparesTwice(t.packages, l, t1.packages, l1, DrawAll(d, c.order, j).packages, l1, c.at);
  }

  lemma PublishSpares(t: Tables, l: Losses, j: JobId, u: UserId, a: AssetId, c: Context)
    ensures Spares(t.packages, l, Publish(t, j, u, a, c).packages, AfterPublish(l, t, j, u, a, c), c.at)
  {
    if Publishable(t, j, u) { BalanceSpares(WithResult(t, j, a), l, u, c); }
  }

  lemma RefundSpares(t: Tables, l: Losses, u: UserId, j: JobId, cost: pos, c: Context, n: nat)
    requires RowsInTable(t.allocations, |t.packages|) && n == |RefundedPackages(t, u, j, cost, c)|
    ensures Spares(t.packages, l, RefundedPackages(t, u, j, cost, c), Forfeiting(l, t.packages, n, t.allocations, j, c.at), c.at)
  {
    RestoreShape(t.packages, t.allocations, j, c.at);
  }

  lemma FailSpares(t: Tables, l: Losses, j: JobId, u: UserId, c: Context)
    requires RowsInTable(t.allocations, |t.packages|) && JobsAgree(t.jobs)
    ensures Spares(t.packages, l, Fail(t, j, u, c).packages, AfterFail(l, t, j, u, c), c.at)
  {
    if Failable(t, j, u) {
      var t1, l1, qs := Balanced(t, u, c), AfterBalance(l, t, u, c), Fail(t, j, u, c).packages;
      assert JobAgrees(t.jobs[j]);
      RowsStayInTable(t, u, c);
      BalanceSpares(t, l, u, c);
      RefundSpares(t1, l1, u, j, RefundCost(t.jobs[j]), c, |qs|);
      SparesTwice(t.packages, l, t1.packages, l1, qs, AfterFail(l, t, j, u, c), c.at);
    }
  }

  lemma PaidSpares(t: Tables, l: Losses, i: InvoiceId, providerId: nat, paid: Pricing.Decimal, c: Context)
    requires MarkPaid(t, i, providerId, paid, c).Ok? && i in t.payments && PaymentsSettled(t.packages, t.payments)
    ensures Spares(t.packages, l, MarkPaid(t, i, providerId, paid, c).value.packages, AfterPaid(l, t, i, c), c.at)
  {
    var u := t.payments[i].owner;
    var t1, l1 := Balanced(t, u, c), AfterBalance(l, t, u, c);
    BalanceSpares(t, l, u, c);
    MarkPaidOutcome(t, i, providerId, paid, c);
    if t.payments[i].status != Paid {
      var qs := t1.packages + [PurchasedPackage(t.payments[i], i, c)];
      AppendSpares(t1.packages, l1, qs, c.at);
      SparesTwice(t.packages, l, t1.packages, l1, qs, Extended(l1, |qs|), c.at);
    }
  }

  lemma MergeSpares(t: Tables, l: Losses, source: UserId, survivor: UserId, at: Instant)
    requires source != survivor
    ensures Spares(t.packages, l, Merge(t, source, survivor, at).packages, AfterMerge(l, t, source, survivor, at), at)
  {
    var moved := MovePackages(t.packages, source, survivor);
    EmptyingSpares(moved, l, survivor, at);
    SparesTwice(t.packages, l, moved, l, Emptied(moved, survivor, at), AfterMerge(l, t, source, survivor, at), at);
    MergeShape(t, source, survivor, at);
  }

  lemma OtherStepsKeepPackages(w: World, e: Event)
    requires PaymentsSettled(w.t.packages, w.t.payments) && Enabled(w, e) && Acting(w, e).None?
    ensures Next(w, e).t.packages == w.t.packages && Next(w, e).losses == w.losses
  {
    if e.StartTopUp? || e.FailureReturn? || e.TimeoutScan? { PaymentStepMoves(w, e); }
  }

  lemma JobStepSpares(w: World, e: Event)
    requires WorldInv(w) && Enabled(w, e) && Acting(w, e).Some?
    requires e.CreateOne? || e.PublishOne? || e.Report? || e.Compensate?
    ensures Spares(w.t.packages, w.losses, Next(w, e).t.packages, Next(w, e).losses, e.c.at)
  {
    var t, l := w.t, w.losses;
    match e
    case CreateOne(j, u, creditCost, c) =>
      if CreateJob(t, j, u, creditCost, c).Ok? { CreateSpares(t, l, j, u, creditCost, c); }
    case PublishOne(k, c) => PublishSpares(t, l, StageOf(w, k).job, StageOf(w, k).user, StageOf(w, k).asset, c);
    case Report(k, c) => FailSpares(t, l, StageOf(w, k).job, StageOf(w, k).user, c);
    case Compensate(j, u, c) => FailSpares(t, l, j, u, c);
  }

  /** No step takes credits from a package that has not ended at the step's own timestamp. */
  lemma StepSpares(w: World, e: Event)
    requires WorldInv(w) && Enabled(w, e) && Acting(w, e).Some?
    ensures Spares(w.t.packages, w.losses, Next(w, e).t.packages, Next(w, e).losses, Acting(w, e).value.1)
  {
    match e
    case AskBalance(u, c) => BalanceSpares(w.t, w.losses, u, c);
    case SignIn(u, c) => EnsureSpares(w.t, w.losses, u, c);
    case PaidCallback(i, providerId, paid, c) =>
      if MarkPaid(w.t, i, providerId, paid, c).Ok? { PaidSpares(w.t, w.losses, i, providerId, paid, c); }
    case MergeOne(source, survivor, at) => MergeSpares(w.t, w.losses, source, survivor, at);
    case _ => JobStepSpares(w, e);
  }

  // ------------------------------------------------------------------- the runs

  /** No step from `i` to `n` works at a timestamp at which `p` has ended. */
  ghost predicate ActiveThroughout(ws: seq<World>, es: seq<Event>, i: nat, n: nat, p: Package)
    requires |ws| == |es| + 1 && n < |ws|
  {
    forall k :: i <= k < n && Acting(ws[k], es[k]).Some? ==> Active(p, Acting(ws[k], es[k]).value.1)
  }

  lemma RunStepSpares(ws: seq<World>, es: seq<Event>, k: nat, p: PackageId)
    requires Run(ws, es) && k < |es| && p < |ws[k].t.packages|
    ensures p < |ws[k + 1].t.packages| && Lives(ws[k].t.packages[p], ws[k + 1].t.packages[p])
    ensures (Acting(ws[k], es[k]).Some? ==> Active(ws[k].t.packages[p], Acting(ws[k], es[k]).value.1)) ==>
      SameLosses(ws[k].losses, ws[k + 1].losses, p)
  {
    RunKeeps(ws, es, k);
    assert StepsAt(ws, es, k);
    if Acting(ws[k], es[k]).Some? {
      StepSpares(ws[k], es[k]);
    } else {
      OtherStepsKeepPackages(ws[k], es[k]);
    }
  }

  /** Between any two moments of a run a package keeps its size, origin and end, and it loses nothing
      unless some step worked at a timestamp at which it had ended. */
  lemma {:induction false} NothingLostEarly(ws: seq<World>, es: seq<Event>, i: nat, n: nat, p: PackageId)
    requires Run(ws, es) && i <= n < |ws| && p < |ws[i].t.packages|
    ensures p < |ws[n].t.packages| && Lives(ws[i].t.packages[p], ws[n].t.packages[p])
    ensures ActiveThroughout(ws, es, i, n, ws[i].t.packages[p]) ==> SameLosses(ws[i].losses, ws[n].losses, p)
    decreases n - i
  {
    if i < n {
      NothingLostEarly(ws, es, i, n - 1, p);
      RunStepSpares(ws, es, n - 1, p);
    }
  }

  /** Hence a package that was whole in some state is, as long as it is active, split without loss
      between what remains and what live jobs took. */
  lemma SpentOrLeft(ws: seq<World>, es: seq<Event>, i: nat, n: nat, p: PackageId)
    requires Run(ws, es) && i <= n < |ws| && p < |ws[i].t.packages|
    requires At(ws[i].losses.zeroed, p) == At(ws[i].losses.forfeited, p) == 0
    requires ActiveThroughout(ws, es, i, n, ws[i].t.packages[p])
    ensures var t := ws[n].t;
      && p < |t.packages| && Lives(ws[i].t.packages[p], t.packages[p])
      && t.packages[p].granted == t.packages[p].remaining + AllocatedOn(t.allocations, p, HeldJobs(t.jobs))
  {
    NothingLostEarly(ws, es, i, n, p);
    RunKeeps(ws, es, n);
    var w := ws[n];
    assert Conserved(w.t.packages, w.t.allocations, w.t.jobs, w.losses);
    assert Conservation.Balances(p, w.t.packages[p], w.t.allocations, HeldJobs(w.t.jobs), w.losses);
  }

  // ---------------------------------------------------------------- the cutover

  /** `p` is the permanent package that the cutover made of `balance` for user `u`. */
  predicate IsLegacyOf(p: Package, u: UserId, balance: nat) {
    p.key == CutoverPackage(u) && p.source == LegacyBalance && p.granted == balance && p.expires == None
  }

  predicate HasLegacyOf(ps: seq<Package>, u: UserId, balance: nat) {
    exists p: PackageId :: p < |ps| && IsLegacyOf(ps[p], u, balance)
  }

  /** Package `p` is `u`'s old balance, all of it still unspent or held by live and finished jobs. */
  predicate KeptIn(t: Tables, p: PackageId, u: UserId, balance: nat) {
    && p < |t.packages| && IsLegacyOf(t.packages[p], u, balance)
    && t.packages[p].remaining + AllocatedOn(t.allocations, p, HeldJobs(t.jobs)) == balance
  }

  lemma {:induction false} LegacyPackageOf(accounts: map<UserId, Account>, users: seq<UserId>, at: Instant, u: UserId)
    requires forall i :: 0 <= i < |users| ==> users[i] in accounts
    requires u in users && accounts[u].balance > 0
    ensures HasLegacyOf(LegacyPackages(accounts, users, at), u, accounts[u].balance)
  {
    var n := |users| - 1;
    var init, all := LegacyPackages(accounts, users[..n], at), LegacyPackages(accounts, users, at);
    if users[n] == u {
      assert IsLegacyOf(all[|init|], u, accounts[u].balance);
    } else {
      assert u in users[..n];
      LegacyPackageOf(accounts, users[..n], at, u);
      var p: PackageId :| p < |init| && IsLegacyOf(init[p], u, accounts[u].balance);
      assert IsLegacyOf(all[p], u, accounts[u].balance);
    }
  }

  /** The run starts where the cutover of `d` ended. */
  ghost predicate StartsAtCutover(w: World, d: Deployed, m: Migrated, users: seq<UserId>, at: Instant)
    requires IsUserListing(d.t.accounts, users)
  {
    && Migrate(d, Some(m), users, at).0.Applied? && w.t == Migrate(d, Some(m), users, at).1.t
    && w.losses == HistoryLosses(m.packages, |w.t.packages|)
  }

  /** Whatever happens after a cutover, in any order, by any clocks and however often users are merged:
      each old balance stays in its one permanent package or in jobs that live or were finished, and a
      second cutover changes nothing. */
  lemma CutoverCreditsLast(d: Deployed, m: Migrated, users: seq<UserId>, at: Instant, ws: seq<World>, es: seq<Event>, n: nat,
                           u: UserId, m': Option<Migrated>, users': seq<UserId>, at': Instant)
    requires IsUserListing(d.t.accounts, users) && u in d.t.accounts && d.t.accounts[u].balance > 0
    requires Run(ws, es) && StartsAtCutover(ws[0], d, m, users, at) && n < |ws|
    requires IsUserListing(ws[n].t.accounts, users')
    ensures exists p: PackageId :: KeptIn(ws[n].t, p, u, d.t.accounts[u].balance)
    ensures var later := Migrate(d, Some(m), users, at).1.(t := ws[n].t);
      Migrate(later, m', users', at') == (AlreadyApplied, later)
  {
    var balance := d.t.accounts[u].balance;
    LegacyPackageOf(d.t.accounts, users, at, u);
    var k: PackageId :| k < |LegacyPackages(d.t.accounts, users, at)| && IsLegacyOf(LegacyPackages(d.t.accounts, users, at)[k], u, balance);
    var p: PackageId := |m.packages| + k;
    assert IsLegacyOf(ws[0].t.packages[p], u, balance);
    SpentOrLeft(ws, es, 0, n, p);
    assert KeptIn(ws[n].t, p, u, balance);
  }
}
