/** The invariant behind the non-local lines of the credit service, and what each operation does
    in a state that satisfies it. */
module CreditInvariant {
  import opened Sums
  import opened Tables
  import opened StarterReplay
  import opened CreditRules
  import opened CreditFacts
  import opened DrawFacts
  import opened RefundFacts

  /** For every package, what remains and what live jobs took never exceeds what was granted. */
  predicate Backed(ps: seq<Package>, rows: seq<Allocation>, jobs: map<JobId, Job>) {
    forall p :: 0 <= p < |ps| ==> ps[p].remaining + AllocatedOn(rows, p, HeldJobs(jobs)) <= ps[p].granted
  }

  /** A job is paid from its owner's packages. */
  predicate PaidByOwner(ps: seq<Package>, rows: seq<Allocation>, jobs: map<JobId, Job>) {
    forall i :: 0 <= i < |rows| ==>
      rows[i].package < |ps| && rows[i].job in jobs && ps[rows[i].package].owner == jobs[rows[i].job].owner
  }

  predicate NoRows(rows: seq<Allocation>, j: JobId) {
    forall i :: 0 <= i < |rows| ==> rows[i].job != j
  }

  /** An uncharged job has taken nothing; a reserved one has taken exactly its cost. */
  predicate ChargedExactly(rows: seq<Allocation>, jobs: map<JobId, Job>) {
    forall j :: j in jobs ==>
      && (jobs[j].creditStatus == NotCharged ==> NoRows(rows, j))
      && (jobs[j].creditStatus == Reserved ==> jobs[j].cost > 0 && AllocatedTo(rows, j) == jobs[j].cost)
  }

  /** A compensation package stands for a refunded job. */
  predicate RefundPackagesEarned(ps: seq<Package>, jobs: map<JobId, Job>) {
    forall i :: 0 <= i < |ps| && ps[i].key.RefundPackage? ==>
      ps[i].key.job in jobs && jobs[ps[i].key.job].creditStatus == Refunded
  }

  predicate Sound(ps: seq<Package>, rows: seq<Allocation>, jobs: map<JobId, Job>) {
    && Backed(ps, rows, jobs) && PaidByOwner(ps, rows, jobs)
    && ChargedExactly(rows, jobs) && RefundPackagesEarned(ps, jobs)
  }

  predicate CreditInv(t: Tables) {
    Sound(t.packages, t.allocations, t.jobs) && LedgerKeyed(t.ledger)
  }

  // -------------------------------------------------------------- get_balance

  lemma NewCreditsKeepSound(ps: seq<Package>, qs: seq<Package>, rows: seq<Allocation>, jobs: map<JobId, Job>)
    requires Sound(ps, rows, jobs) && OnlyNewCredits(ps, qs)
    ensures Sound(qs, rows, jobs)
  {
    forall p | 0 <= p < |qs|
      ensures qs[p].remaining + AllocatedOn(rows, p, HeldJobs(jobs)) <= qs[p].granted
    {
      if p >= |ps| {
        AllocatedOffTable(rows, p, HeldJobs(jobs));
      } else {
        assert ps[p].remaining + AllocatedOn(rows, p, HeldJobs(jobs)) <= ps[p].granted;
      }
    }
  }

  lemma GetBalanceKeeps(t: Tables, u: UserId, at: Instant, wall: Instant, v: StarterView)
    requires CreditInv(t)
    ensures CreditInv(GetBalance(t, u, at, wall, v))
  {
    GetBalancePackages(t, u, at, wall, v);
    GetBalanceLedger(t, u, at, wall, v);
    NewCreditsKeepSound(t.packages, GetBalance(t, u, at, wall, v).packages, t.allocations, t.jobs);
  }

  lemma KeyedWithRow(ledger: map<LedgerKey, LedgerRow>, r: LedgerRow)
    requires LedgerKeyed(ledger)
    ensures LedgerKeyed(WithRow(ledger, r))
  {
  }

  lemma BalancedKeeps(t: Tables, u: UserId, c: Context)
    requires CreditInv(t)
    ensures CreditInv(Balanced(t, u, c))
  {
    GetBalanceKeeps(t, u, c.at, c.wall, c.view);
  }

  /** After the first `get_balance` a user is never granted the starter package again. */
  lemma NotGrantedTwice(t: Tables, u: UserId, at: Instant, wall: Instant, v: StarterView)
    ensures !NeverGranted(GetBalance(t, u, at, wall, v), u)
  {
    var t1 := EnsureAccount(t, u, at, wall, v);
    var t2 := Expire(t1, u, at);
    if NeverGranted(t, u) {
      assert t1.accounts[u].trialUsedAt.Some?;
      assert t2.accounts[u].trialUsedAt == t1.accounts[u].trialUsedAt;
    } else if HasStarterRow(t.ledger, u) {
      var k :| k in t.ledger && IsStarterRow(t.ledger[k], u);
      GetBalanceShape(t, u, at, wall, v);
      assert IsStarterRow(GetBalance(t, u, at, wall, v).ledger[k], u);
    }
  }

  function WithStarterAudit(t: Tables, u: UserId, k: pos, at: Instant): Tables {
    t.(ledger := t.ledger[StarterExpireKey(u) := StarterExpirationRow(u, k, at)])
  }

  /** The only thing a second call at the same instant can still change: one audit row. */
  ghost predicate SameButForStarterAudit(t: Tables, t': Tables, u: UserId, at: Instant) {
    || t' == t
    || (StarterExpireKey(u) !in t.ledger && exists k: pos :: t' == WithStarterAudit(t, u, k, at))
  }

  lemma SettledBalance(t: Tables, u: UserId, at: Instant, wall: Instant, v: StarterView)
    requires u in t.accounts && !NeverGranted(t, u)
    requires t.accounts[u].balance == ActiveSum(t.packages, u, at)
    requires forall i :: 0 <= i < |t.packages| ==> !Due(t.packages[i], u, at)
    ensures SameButForStarterAudit(t, GetBalance(t, u, at, wall, v), u, at)
    ensures GetBalance(t, u, at, wall, v) == t <==> StarterExpiry(t, u, t.accounts[u].balance, wall, v) == 0
  {
    var k := StarterExpiry(t, u, t.accounts[u].balance, wall, v);
    var e := EnsureAccount(t, u, at, wall, v);
    assert t.(accounts := WithAccount(t.accounts, u)) == t;
    TotalZero(DueAmounts(t.packages, u, at));
    assert Expire(e, u, at) == e;
    assert WithBalance(e.accounts, u, t.accounts[u].balance) == t.accounts;
    if k > 0 {
      assert GetBalance(t, u, at, wall, v) == WithStarterAudit(t, u, k, at);
      assert StarterExpireKey(u) in WithStarterAudit(t, u, k, at).ledger;
    }
  }

  /** `get_balance` asked twice at one instant: the balance, the packages, every account and every
      job are already what they will be, and the second call adds at most one audit row. It adds
      none exactly when the starter-expiry path finds nothing to take off the reconciled balance. */
  lemma GetBalanceIdempotent(t: Tables, u: UserId, at: Instant, wall: Instant, v: StarterView, v': StarterView)
    ensures var t1 := GetBalance(t, u, at, wall, v);
      var t2 := GetBalance(t1, u, at, wall, v');
      && SameButForStarterAudit(t1, t2, u, at)
      && u in t1.accounts
      && (t2 == t1 <==> StarterExpiry(t1, u, t1.accounts[u].balance, wall, v') == 0)
  {
    var t1 := GetBalance(t, u, at, wall, v);
    GetBalanceShape(t, u, at, wall, v);
    NotGrantedTwice(t, u, at, wall, v);
    SettledBalance(t1, u, at, wall, v');
  }

  // ------------------------------------------------------------------ sign-in

  function Cached(accounts: map<UserId, Account>, u: UserId): nat {
    if u in accounts then accounts[u].balance else 0
  }

  /** What the starter-expiry path of a sign-in takes off the cached balance. */
  function StarterTaken(t: Tables, u: UserId, c: Context): nat {
    StarterExpiry(t.(accounts := WithAccount(t.accounts, u)), u, Cached(t.accounts, u), c.wall, c.view)
  }

  /** What a sign-in adds to the credits usable at `x`. */
  function StarterGiven(t: Tables, u: UserId, c: Context, x: Instant): nat {
    if NeverGranted(t, u) && !HasKey(t.packages, StarterPackage(u)) && x < c.wall + STARTER_GRANT_TTL
    then STARTER_GRANT_CREDITS else 0
  }

  /** A sign-in moves the cached balance and the packages independently of each other: the one by what
      the ledger says of the starter grant, the other by a new starter package. */
  lemma EnsureBalances(t: Tables, u: UserId, c: Context, v: UserId, x: Instant)
    ensures var t' := Ensured(t, u, c);
      && u in t'.accounts
      && t'.accounts[u].balance
           == Cached(t.accounts, u) - StarterTaken(t, u, c) + (if NeverGranted(t, u) then STARTER_GRANT_CREDITS else 0)
      && ActiveSum(t'.packages, v, x) == ActiveSum(t.packages, v, x) + (if v == u then StarterGiven(t, u, c, x) else 0)
  {
    EnsureShape(t, u, c.at, c.wall, c.view);
    if NeverGranted(t, u) && !HasKey(t.packages, StarterPackage(u)) {
      ActiveSumAppend(t.packages,
        NewPackage(u, StarterGrant, STARTER_GRANT_CREDITS, Some(c.wall + STARTER_GRANT_TTL), StarterPackage(u), c.at), v, x);
    }
  }

  /** A sign-in of a user past the grant, with no starter credits to expire, changes nothing: whatever
      was cached stays cached, however many packages have ended since. */
  lemma IdleSignIn(t: Tables, u: UserId, c: Context)
    requires u in t.accounts && !NeverGranted(t, u) && StarterTaken(t, u, c) == 0
    ensures Ensured(t, u, c) == t
  {
    assert t.(accounts := WithAccount(t.accounts, u)) == t;
  }

  // ------------------------------------------------------------------ reserve

  lemma DrawMovesJob(d: Draw, order: seq<PackageId>, j: JobId)
    requires InTable(order, |d.packages|)
    ensures var r := DrawAll(d, order, j);
      r.left <= d.left && AllocatedTo(r.allocations, j) == AllocatedTo(d.allocations, j) + d.left - r.left
  {
    if order != [] {
      DrawMovesCredits(d, order, j, order[0], {}, j + 1);
    }
  }

  /** What a successful reservation leaves, as its caller sees it: the balance returned is cached and
      is what the packages hold, and the job took exactly its cost. */
  predicate ReservedOutcome(t: Tables, t': Tables, balance: nat, u: UserId, j: JobId, cost: pos, at: Instant)
    requires j in t.jobs
  {
    && balance + cost == ActiveSum(t.packages, u, at)
    && u in t'.accounts && t'.accounts[u].balance == balance == ActiveSum(t'.packages, u, at)
    && t'.jobs == t.jobs[j := t.jobs[j].(creditStatus := Reserved, cost := cost)]
    && AllocatedTo(t'.allocations, j) == cost
  }

  /** Spending on up-to-date tables is refused exactly when the usable credits do not cover the
      cost; "packages are out of sync" never happens. */
  lemma SpendDecides(t: Tables, u: UserId, j: JobId, cost: pos, at: Instant, order: seq<PackageId>)
    requires u in t.accounts && j in t.jobs && NoRows(t.allocations, j)
    requires IsFifoOrder(t.packages, u, at, order)
    ensures var r := Spend(t, u, j, cost, at, order);
      && (r == Err(InsufficientCredits) <==> ActiveSum(t.packages, u, at) < cost)
      && (r.Err? ==> r == Err(InsufficientCredits))
      && (r.Ok? ==> ReservedOutcome(t, r.value.1, r.value.0, u, j, cost, at))
  {
    if cost <= ActiveSum(t.packages, u, at) {
      var d := Draw(t.packages, t.allocations, cost);
      DrawPaysInFull(d, order, j, u, at, at);
      DrawMovesJob(d, order, j);
      AllocatedNowhere(t.allocations, 0, j);
    }
  }

  lemma ReserveDecides(t: Tables, u: UserId, j: JobId, creditCost: pos, c: Context)
    requires CreditInv(t) && j in t.jobs && t.jobs[j].creditStatus == NotCharged
    requires IsFifoOrder(Balanced(t, u, c).packages, u, c.at, c.order)
    ensures var t1 := Balanced(t, u, c);
      var cost := EffectiveCost(t.jobs[j], creditCost);
      var r := Reserve(t, u, j, creditCost, c);
      && (r == Err(InsufficientCredits) <==> ActiveSum(t1.packages, u, c.at) < cost)
      && (r.Err? ==> r == Err(InsufficientCredits))
      && (r.Ok? ==> ReservedOutcome(t1, r.value.1, r.value.0, u, j, cost, c.at))
  {
    assert u in Balanced(t, u, c).accounts by { GetBalanceShape(t, u, c.at, c.wall, c.view); }
    assert NoRows(t.allocations, j);
    SpendDecides(Balanced(t, u, c), u, j, EffectiveCost(t.jobs[j], creditCost), c.at, c.order);
  }

  function MarkReserved(jobs: map<JobId, Job>, j: JobId, cost: pos): map<JobId, Job>
    requires j in jobs
  {
    jobs[j := jobs[j].(creditStatus := Reserved, cost := cost)]
  }

  lemma DrawKeepsBacked(d: Draw, jobs: map<JobId, Job>, order: seq<PackageId>, j: JobId, cost: pos)
    requires Backed(d.packages, d.allocations, jobs) && j in jobs && !Holds(jobs[j].creditStatus)
    requires NoRows(d.allocations, j) && InTable(order, |d.packages|)
    ensures var r := DrawAll(d, order, j);
      Backed(r.packages, r.allocations, MarkReserved(jobs, j, cost))
  {
    var r := DrawAll(d, order, j);
    var held := HeldJobs(jobs);
    assert HeldJobs(MarkReserved(jobs, j, cost)) == held + {j};
    DrawShape(d, order, j);
    forall p | 0 <= p < |r.packages|
      ensures r.packages[p].remaining + AllocatedOn(r.allocations, p, held + {j}) <= r.packages[p].granted
    {
      AllocatedNowhere(d.allocations, p, j);
      DrawMovesCredits(d, order, j, p, held, j + 1);
      AllocatedSplit(r.allocations, p, held, j);
      assert d.packages[p].remaining + AllocatedOn(d.allocations, p, held) <= d.packages[p].granted;
    }
  }

  lemma DrawKeepsCharges(d: Draw, jobs: map<JobId, Job>, order: seq<PackageId>, j: JobId)
    requires ChargedExactly(d.allocations, jobs) && j in jobs
    requires NoRows(d.allocations, j) && InTable(order, |d.packages|)
    requires DrawAll(d, order, j).left == 0 && d.left > 0
    ensures ChargedExactly(DrawAll(d, order, j).allocations, MarkReserved(jobs, j, d.left))
  {
    var r := DrawAll(d, order, j);
    DrawShape(d, order, j);
    DrawMovesJob(d, order, j);
    AllocatedNowhere(d.allocations, 0, j);
    forall k | k in jobs && k != j
      ensures AllocatedTo(r.allocations, k) == AllocatedTo(d.allocations, k)
      ensures NoRows(d.allocations, k) ==> NoRows(r.allocations, k)
    {
      if order != [] { DrawMovesCredits(d, order, j, order[0], {}, k); }
    }
  }

  lemma DrawKeepsOwners(d: Draw, jobs: map<JobId, Job>, u: UserId, order: seq<PackageId>, j: JobId, cost: pos)
    requires PaidByOwner(d.packages, d.allocations, jobs) && RefundPackagesEarned(d.packages, jobs)
    requires j in jobs && jobs[j].creditStatus == NotCharged && jobs[j].owner == u
    requires InTable(order, |d.packages|) && forall k :: 0 <= k < |order| ==> d.packages[order[k]].owner == u
    ensures var r := DrawAll(d, order, j);
      && PaidByOwner(r.packages, r.allocations, MarkReserved(jobs, j, cost))
      && RefundPackagesEarned(r.packages, MarkReserved(jobs, j, cost))
  {
    DrawShape(d, order, j);
  }

  lemma DrawKeepsSound(d: Draw, jobs: map<JobId, Job>, u: UserId, order: seq<PackageId>, j: JobId)
    requires Sound(d.packages, d.allocations, jobs)
    requires j in jobs && jobs[j].creditStatus == NotCharged && jobs[j].owner == u
    requires InTable(order, |d.packages|) && forall k :: 0 <= k < |order| ==> d.packages[order[k]].owner == u
    requires DrawAll(d, order, j).left == 0 && d.left > 0
    ensures var r := DrawAll(d, order, j);
      Sound(r.packages, r.allocations, MarkReserved(jobs, j, d.left))
  {
    assert NoRows(d.allocations, j);
    DrawKeepsBacked(d, jobs, order, j, d.left);
    DrawKeepsCharges(d, jobs, order, j);
    DrawKeepsOwners(d, jobs, u, order, j, d.left);
  }

  lemma ReserveKeeps(t: Tables, u: UserId, j: JobId, creditCost: pos, c: Context)
    requires CreditInv(t) && j in t.jobs && t.jobs[j].owner == u
    requires IsFifoOrder(Balanced(t, u, c).packages, u, c.at, c.order)
    requires Reserve(t, u, j, creditCost, c).Ok?
    ensures CreditInv(Reserve(t, u, j, creditCost, c).value.1)
  {
    BalancedKeeps(t, u, c);
    var t1 := Balanced(t, u, c);
    if t.jobs[j].creditStatus == NotCharged {
      var cost := EffectiveCost(t.jobs[j], creditCost);
      DrawKeepsSound(Draw(t1.packages, t1.allocations, cost), t1.jobs, u, c.order, j);
      KeyedWithRow(t1.ledger, JobLedgerRow(ReserveKey(j), u, JobReserve, Minus(cost), j, c.at));
    }
  }

  // ----------------------------------------------------------------- finalize

  lemma FinalizedKeepsSound(ps: seq<Package>, rows: seq<Allocation>, jobs: map<JobId, Job>, j: JobId)
    requires Sound(ps, rows, jobs) && j in jobs && jobs[j].creditStatus == Reserved
    ensures Sound(ps, rows, jobs[j := jobs[j].(creditStatus := Finalized)])
  {
    assert HeldJobs(jobs[j := jobs[j].(creditStatus := Finalized)]) == HeldJobs(jobs);
  }

  lemma FinalizeKeeps(t: Tables, u: UserId, j: JobId, c: Context)
    requires CreditInv(t) && j in t.jobs
    ensures Finalize(t, u, j, c).Ok?
    ensures var (balance, t') := Finalize(t, u, j, c).value;
      && CreditInv(t') && t'.packages == Balanced(t, u, c).packages && t'.allocations == t.allocations
      && u in t'.accounts && t'.accounts[u].balance == balance == ActiveSum(t'.packages, u, c.at)
  {
    BalancedKeeps(t, u, c);
    GetBalanceShape(t, u, c.at, c.wall, c.view);
    if t.jobs[j].creditStatus == Reserved {
      var t1 := Balanced(t, u, c);
      FinalizedKeepsSound(t1.packages, t1.allocations, t1.jobs, j);
      KeyedWithRow(t1.ledger, JobLedgerRow(FinalizeKey(j), u, JobFinalize, 0, j, c.at));
    }
  }

  // ------------------------------------------------------------------- refund

  lemma LiveJobFits(ps: seq<Package>, rows: seq<Allocation>, jobs: map<JobId, Job>, j: JobId)
    requires Backed(ps, rows, jobs) && j in HeldJobs(jobs)
    ensures FitsUnderGrants(ps, rows, j)
  {
    var held := HeldJobs(jobs);
    forall p | 0 <= p < |ps| ensures ps[p].remaining + AllocatedOn(rows, p, {j}) <= ps[p].granted {
      AllocatedSplit(rows, p, held - {j}, j);
      assert held - {j} + {j} == held;
      assert ps[p].remaining + AllocatedOn(rows, p, held) <= ps[p].granted;
    }
  }

  function MarkRefunded(jobs: map<JobId, Job>, j: JobId): map<JobId, Job>
    requires j in jobs
  {
    jobs[j := jobs[j].(creditStatus := Refunded)]
  }

  lemma NoRefundPackageYet(t: Tables, j: JobId, at: Instant)
    requires RowsInTable(t.allocations, |t.packages|) && RefundPackagesEarned(t.packages, t.jobs)
    requires j in t.jobs && t.jobs[j].creditStatus == Reserved
    ensures !HasKey(Restore(t.packages, t.allocations, j, at), RefundPackage(j))
  {
    RestoreShape(t.packages, t.allocations, j, at);
    assert forall i :: 0 <= i < |t.packages| ==> t.packages[i].key != RefundPackage(j);
  }

  lemma RefundKeepsBacked(t: Tables, u: UserId, j: JobId, cost: pos, c: Context)
    requires Sound(t.packages, t.allocations, t.jobs) && j in t.jobs && t.jobs[j].creditStatus == Reserved
    ensures Backed(RefundedPackages(t, u, j, cost, c), t.allocations, MarkRefunded(t.jobs, j))
  {
    var qs := RefundedPackages(t, u, j, cost, c);
    var held := HeldJobs(t.jobs);
    assert HeldJobs(MarkRefunded(t.jobs, j)) == held - {j};
    assert held - {j} + {j} == held;
    NoRefundPackageYet(t, j, c.at);
    RestoreShape(t.packages, t.allocations, j, c.at);
    forall p | 0 <= p < |qs|
      ensures qs[p].remaining + AllocatedOn(t.allocations, p, held - {j}) <= qs[p].granted
    {
      if p < |t.packages| {
        AllocatedSplit(t.allocations, p, held - {j}, j);
        assert t.packages[p].remaining + AllocatedOn(t.allocations, p, held) <= t.packages[p].granted;
        RestoreExact(t.packages, t.allocations, j, c.at, p);
      } else {
        AllocatedOffTable(t.allocations, p, held - {j});
      }
    }
  }

  lemma RefundKeepsOwners(t: Tables, u: UserId, j: JobId, cost: pos, c: Context)
    requires PaidByOwner(t.packages, t.allocations, t.jobs) && RefundPackagesEarned(t.packages, t.jobs)
    requires j in t.jobs && t.jobs[j].creditStatus == Reserved
    ensures PaidByOwner(RefundedPackages(t, u, j, cost, c), t.allocations, MarkRefunded(t.jobs, j))
    ensures RefundPackagesEarned(RefundedPackages(t, u, j, cost, c), MarkRefunded(t.jobs, j))
  {
    RestoreShape(t.packages, t.allocations, j, c.at);
  }

  lemma RefundKeepsSound(t: Tables, u: UserId, j: JobId, cost: pos, c: Context)
    requires Sound(t.packages, t.allocations, t.jobs) && j in t.jobs && t.jobs[j].creditStatus == Reserved
    ensures Sound(RefundedPackages(t, u, j, cost, c), t.allocations, MarkRefunded(t.jobs, j))
  {
    RefundKeepsBacked(t, u, j, cost, c);
    RefundKeepsOwners(t, u, j, cost, c);
  }

  lemma RefundKeeps(t: Tables, u: UserId, j: JobId, c: Context)
    requires CreditInv(t) && j in t.jobs
    ensures RowsInTable(t.allocations, |Balanced(t, u, c).packages|) && RefundJob(t, u, j, c).Ok?
    ensures CreditInv(RefundJob(t, u, j, c).value.1)
  {
    BalancedKeeps(t, u, c);
    if t.jobs[j].creditStatus == Reserved {
      var t1 := Balanced(t, u, c);
      var cost := RefundCost(t.jobs[j]);
      RefundKeepsSound(t1, u, j, cost, c);
      KeyedWithRow(t1.ledger,
        JobLedgerRow(RefundKey(j), u, JobRefund, RefundAmount(t1, j, cost, c.at), j, c.at));
    }
  }

  /** What a package of the table holds after refunding `j` at `at`: with LEAST never clipping, all
      that the job took from it comes back, or nothing once the package has expired. */
  predicate GivenBack(ps: seq<Package>, rows: seq<Allocation>, qs: seq<Package>, j: JobId, at: Instant) {
    |ps| <= |qs| &&
    forall p :: 0 <= p < |ps| ==>
      qs[p] == ps[p].(remaining := ps[p].remaining + (if Active(ps[p], at) then AllocatedOn(rows, p, {j}) else 0))
  }

  lemma RefundGivesBack(t: Tables, u: UserId, j: JobId, cost: pos, c: Context)
    requires RowsInTable(t.allocations, |t.packages|) && FitsUnderGrants(t.packages, t.allocations, j)
    ensures GivenBack(t.packages, t.allocations, RefundedPackages(t, u, j, cost, c), j, c.at)
  {
    var ps := t.packages;
    RestoreShape(ps, t.allocations, j, c.at);
    forall p | 0 <= p < |ps|
      ensures Restore(ps, t.allocations, j, c.at)[p].remaining
           == ps[p].remaining + (if Active(ps[p], c.at) then AllocatedOn(t.allocations, p, {j}) else 0)
    {
      RestoreExact(ps, t.allocations, j, c.at, p);
    }
  }

  lemma RefundAmountBounds(t: Tables, j: JobId, cost: pos, at: Instant)
    requires RowsInTable(t.allocations, |t.packages|) && AllocatedTo(t.allocations, j) == cost
    ensures 1 <= RefundAmount(t, j, cost, at) <= cost
  {
    RestorableAtMost(t.packages, t.allocations, j, at);
  }

  /** Whether what a refund gives back can be spent at once: something went back into a package that
      is still active, or the compensation package ends after the database's present. */
  predicate UsableAtOnce(t: Tables, j: JobId, c: Context)
    requires RowsInTable(t.allocations, |t.packages|)
  {
    Restorable(t.packages, t.allocations, j, c.at) > 0 || c.at < c.wall + PURCHASE_GRANT_TTL
  }

  lemma RefundAddsUp(t: Tables, u: UserId, j: JobId, cost: pos, c: Context)
    requires RowsInTable(t.allocations, |t.packages|) && FitsUnderGrants(t.packages, t.allocations, j)
    requires forall i :: 0 <= i < |t.allocations| && t.allocations[i].job == j ==>
      t.packages[t.allocations[i].package].owner == u
    requires !HasKey(Restore(t.packages, t.allocations, j, c.at), RefundPackage(j))
    ensures ActiveSum(RefundedPackages(t, u, j, cost, c), u, c.at)
         == ActiveSum(t.packages, u, c.at) + (if UsableAtOnce(t, j, c) then RefundAmount(t, j, cost, c.at) else 0)
  {
    RestoreAddsUp(t.packages, t.allocations, j, u, c.at);
    ActiveSumAppend(Restore(t.packages, t.allocations, j, c.at),
      NewPackage(u, Source.Refund, cost, Some(c.wall + PURCHASE_GRANT_TTL), RefundPackage(j), c.at), u, c.at);
  }

  /** What a refund leaves, as its caller sees it: between 1 and the job's cost, the full cost when no
      package could be restored, no package clipped; the balance returned is cached, and it is what
      the packages hold exactly when the credits can be spent at once. */
  predicate RefundedOutcome(t: Tables, t': Tables, balance: nat, u: UserId, j: JobId, c: Context)
    requires RowsInTable(t.allocations, |t.packages|) && j in t.jobs
  {
    var amount := balance - ActiveSum(t.packages, u, c.at);
    var restorable := Restorable(t.packages, t.allocations, j, c.at);
    && 1 <= amount <= t.jobs[j].cost
    && amount == (if restorable == 0 then t.jobs[j].cost else restorable)
    && u in t'.accounts && t'.accounts[u].balance == balance
    && (balance == ActiveSum(t'.packages, u, c.at) <==> UsableAtOnce(t, j, c))
    && GivenBack(t.packages, t.allocations, t'.packages, j, c.at)
    && t'.jobs == MarkRefunded(t.jobs, j)
  }

  lemma ReservedAddsUp(t: Tables, u: UserId, j: JobId, cost: pos, c: Context)
    requires Sound(t.packages, t.allocations, t.jobs)
    requires j in t.jobs && t.jobs[j].creditStatus == Reserved && t.jobs[j].owner == u
    ensures ActiveSum(RefundedPackages(t, u, j, cost, c), u, c.at)
         == ActiveSum(t.packages, u, c.at) + (if UsableAtOnce(t, j, c) then RefundAmount(t, j, cost, c.at) else 0)
    ensures GivenBack(t.packages, t.allocations, RefundedPackages(t, u, j, cost, c), j, c.at)
  {
    LiveJobFits(t.packages, t.allocations, t.jobs, j);
    RefundGivesBack(t, u, j, cost, c);
    NoRefundPackageYet(t, j, c.at);
    RefundAddsUp(t, u, j, cost, c);
  }

  /** Refunding a reserved job on up-to-date tables. */
  lemma RefundReservedDecides(t: Tables, u: UserId, j: JobId, c: Context)
    requires CreditInv(t) && u in t.accounts
    requires j in t.jobs && t.jobs[j].creditStatus == Reserved && t.jobs[j].owner == u
    ensures t.jobs[j].cost > 0
    ensures var (balance, t') := RefundReserved(t, u, j, t.jobs[j].cost, c);
      RefundedOutcome(t, t', balance, u, j, c)
  {
    ReservedAddsUp(t, u, j, t.jobs[j].cost, c);
    RefundAmountBounds(t, j, t.jobs[j].cost, c.at);
  }

  lemma RefundDecides(t: Tables, u: UserId, j: JobId, c: Context)
    requires CreditInv(t) && j in t.jobs && t.jobs[j].creditStatus == Reserved && t.jobs[j].owner == u
    ensures RowsInTable(t.allocations, |Balanced(t, u, c).packages|) && RefundJob(t, u, j, c).Ok?
    ensures var (balance, t') := RefundJob(t, u, j, c).value;
      RefundedOutcome(Balanced(t, u, c), t', balance, u, j, c)
  {
    BalancedKeeps(t, u, c);
    assert u in Balanced(t, u, c).accounts by { GetBalanceShape(t, u, c.at, c.wall, c.view); }
    RefundReservedDecides(Balanced(t, u, c), u, j, c);
  }
}
