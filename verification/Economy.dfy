/** One invariant over all credit tables, and every transaction of the repository that touches them
    keeps it. */
module Economy {
  import opened Sums
  import opened Tables
  import opened CreditRules
  import opened CreditFacts
  import opened DrawFacts
  import opened RefundFacts
  import opened CreditInvariant
  import opened Pricing
  import opened PaymentRules
  import opened PaymentFacts
  import opened MergeRules
  import opened RenderRules
  import opened Billing
  import opened Conservation
  import opened Trials

  /** Packages, allocations, jobs and payments against each other. */
  ghost predicate Stock(ps: seq<Package>, rows: seq<Allocation>, jobs: map<JobId, Job>,
                        payments: map<InvoiceId, Payment>, l: Losses)
  {
    Sound(ps, rows, jobs) && AllocationsUnique(rows) && Conserved(ps, rows, jobs, l) && PaymentsSettled(ps, payments)
  }

  /** Accounts and ledger against each other. */
  ghost predicate Records(accounts: map<UserId, Account>, ledger: map<LedgerKey, LedgerRow>, merged: set<UserId>) {
    LedgerKeyed(ledger) && TrialsRecorded(accounts, ledger, merged)
  }

  /** The part of the invariant that does not speak of what a job's status means. */
  ghost predicate BooksInv(t: Tables, merged: set<UserId>, l: Losses) {
    Stock(t.packages, t.allocations, t.jobs, t.payments, l) && Records(t.accounts, t.ledger, merged)
  }

  ghost predicate EconomyInv(t: Tables, merged: set<UserId>, l: Losses) {
    BooksInv(t, merged, l) && JobsAgree(t.jobs) && Evidence(t.ledger, t.jobs) && PurchasesRecorded(t.ledger, t.payments)
  }

  // ------------------------------------------------------------------ balance

  lemma BalanceKeepsBooks(t: Tables, merged: set<UserId>, l: Losses, u: UserId, c: Context)
    requires BooksInv(t, merged, l)
    ensures BooksInv(Balanced(t, u, c), merged, AfterBalance(l, t, u, c))
  {
    BalancedKeeps(t, u, c);
    BalanceConserves(t, l, u, c);
    BalancePersists(t, u, c);
    PersistKeepsSettled(t.packages, Balanced(t, u, c).packages, t.payments);
    BalanceKeepsTrials(t, u, c, merged);
  }

  lemma BalanceKeepsEvidence(t: Tables, jobs: map<JobId, Job>, u: UserId, c: Context)
    requires Evidence(t.ledger, jobs)
    ensures Evidence(Balanced(t, u, c).ledger, jobs)
  {
    GetBalanceShape(t, u, c.at, c.wall, c.view);
    EvidenceOutlivesUpkeep(t.ledger, Balanced(t, u, c).ledger, jobs, u);
  }

  lemma UpkeepKeepsPurchases(l: map<LedgerKey, LedgerRow>, l': map<LedgerKey, LedgerRow>,
                             payments: map<InvoiceId, Payment>, u: UserId)
    requires PurchasesRecorded(l, payments) && LedgerGrows(l, l', u)
    ensures PurchasesRecorded(l', payments)
  {
    PurchasesOutliveWrites(l, l', payments);
  }

  lemma BalanceKeepsPurchases(t: Tables, u: UserId, c: Context)
    requires PurchasesRecorded(t.ledger, t.payments)
    ensures PurchasesRecorded(Balanced(t, u, c).ledger, t.payments)
  {
    GetBalanceShape(t, u, c.at, c.wall, c.view);
    UpkeepKeepsPurchases(t.ledger, Balanced(t, u, c).ledger, t.payments, u);
  }

  lemma RowKeepsPurchases(l: map<LedgerKey, LedgerRow>, payments: map<InvoiceId, Payment>, r: LedgerRow)
    requires PurchasesRecorded(l, payments) && !r.key.PaymentPaidKey?
    ensures PurchasesRecorded(WithRow(l, r), payments)
  {
    PurchasesOutliveWrites(l, WithRow(l, r), payments);
  }

  lemma BalanceKeepsEconomy(t: Tables, merged: set<UserId>, l: Losses, u: UserId, c: Context)
    requires EconomyInv(t, merged, l)
    ensures EconomyInv(Balanced(t, u, c), merged, AfterBalance(l, t, u, c))
  {
    BalanceKeepsBooks(t, merged, l, u, c);
    BalanceKeepsEvidence(t, t.jobs, u, c);
    BalanceKeepsPurchases(t, u, c);
  }

  // ------------------------------------------------------------------ sign-in

  /** `ensure_credit_account_state` loses nothing and may grant the starter package. */
  function AfterEnsure(l: Losses, t: Tables, u: UserId, c: Context): Losses {
    Extended(l, |Granted(t, u, c.at, c.wall)|)
  }

  lemma EnsureKeepsStock(t: Tables, l: Losses, u: UserId, c: Context)
    requires Stock(t.packages, t.allocations, t.jobs, t.payments, l)
    ensures var ps := Granted(t, u, c.at, c.wall);
      Stock(ps, t.allocations, t.jobs, t.payments, Extended(l, |ps|))
  {
    var ps := Granted(t, u, c.at, c.wall);
    GrantedFacts(t, u, c.at, c.wall);
    NewCreditsKeepSound(t.packages, ps, t.allocations, t.jobs);
    AppendConserves(t.packages, ps, t.allocations, t.jobs, l);
    GrantPersists(t, u, c.at, c.wall);
    PersistKeepsSettled(t.packages, ps, t.payments);
  }

  /** Signing in, by the bootstrap endpoint or the bot's /start. */
  lemma EnsureKeepsEconomy(t: Tables, merged: set<UserId>, l: Losses, u: UserId, c: Context)
    requires EconomyInv(t, merged, l)
    ensures EconomyInv(Ensured(t, u, c), merged, AfterEnsure(l, t, u, c))
  {
    EnsureKeepsStock(t, l, u, c);
    EnsureShape(t, u, c.at, c.wall, c.view);
    EnsureKeepsTrials(t, u, c, merged);
    EvidenceOutlivesUpkeep(t.ledger, Ensured(t, u, c).ledger, t.jobs, u);
    UpkeepKeepsPurchases(t.ledger, Ensured(t, u, c).ledger, t.payments, u);
  }

  /** One cached balance and one ledger row that is no starter row. */
  lemma WriteKeepsRecords(accounts: map<UserId, Account>, ledger: map<LedgerKey, LedgerRow>, merged: set<UserId>,
                          u: UserId, balance: nat, r: LedgerRow)
    requires Records(accounts, ledger, merged) && !r.key.StarterGrantKey?
    ensures Records(WithBalance(accounts, u, balance), WithRow(ledger, r), merged)
  {
    TrialsOutliveWrites(accounts, WithBalance(accounts, u, balance), ledger, WithRow(ledger, r), merged);
  }

  lemma RowKeepsRecords(accounts: map<UserId, Account>, ledger: map<LedgerKey, LedgerRow>, merged: set<UserId>, r: LedgerRow)
    requires Records(accounts, ledger, merged) && !r.key.StarterGrantKey?
    ensures Records(accounts, WithRow(ledger, r), merged)
  {
    TrialsOutliveWrites(accounts, accounts, ledger, WithRow(ledger, r), merged);
  }

  // ----------------------------------------------------------------- creation

  lemma InsertKeepsSound(ps: seq<Package>, rows: seq<Allocation>, jobs: map<JobId, Job>, j: JobId, job: Job)
    requires Sound(ps, rows, jobs) && j !in jobs && job.creditStatus == NotCharged
    ensures Sound(ps, rows, jobs[j := job]) && HeldJobs(jobs[j := job]) == HeldJobs(jobs)
  {
    assert HeldJobs(jobs[j := job]) == HeldJobs(jobs);
    assert NoRows(rows, j);
  }

  lemma InsertKeepsBooks(t: Tables, merged: set<UserId>, l: Losses, j: JobId, u: UserId)
    requires BooksInv(t, merged, l) && j !in t.jobs
    ensures BooksInv(WithJob(t, j, u), merged, l)
  {
    InsertKeepsSound(t.packages, t.allocations, t.jobs, j, NewJob(u));
    SameHeldConserves(t.packages, t.allocations, t.jobs, WithJob(t, j, u).jobs, l);
  }

  lemma DrawPersists(d: Draw, order: seq<PackageId>, j: JobId)
    requires InTable(order, |d.packages|) && KeysUnique(d.packages)
    ensures PackagesPersist(d.packages, DrawAll(d, order, j).packages)
  {
    DrawShape(d, order, j);
  }

  lemma DrawKeepsStock(d: Draw, jobs: map<JobId, Job>, payments: map<InvoiceId, Payment>, l: Losses,
                       u: UserId, order: seq<PackageId>, j: JobId)
    requires Stock(d.packages, d.allocations, jobs, payments, l)
    requires j in jobs && jobs[j].creditStatus == NotCharged && jobs[j].owner == u
    requires InTable(order, |d.packages|) && forall k :: 0 <= k < |order| ==> d.packages[order[k]].owner == u
    requires DrawAll(d, order, j).left == 0 && d.left > 0
    ensures var r := DrawAll(d, order, j);
      Stock(r.packages, r.allocations, MarkReserved(jobs, j, d.left), payments, l)
  {
    assert NoRows(d.allocations, j);
    DrawShape(d, order, j);
    DrawKeepsSound(d, jobs, u, order, j);
    DrawConserves(d, jobs, l, order, j, d.left);
    DrawPersists(d, order, j);
    PersistKeepsSettled(d.packages, DrawAll(d, order, j).packages, payments);
  }

  lemma SpendKeepsBooks(t: Tables, merged: set<UserId>, l: Losses, u: UserId, j: JobId, cost: pos, c: Context)
    requires BooksInv(t, merged, l) && j in t.jobs && t.jobs[j].creditStatus == NotCharged && t.jobs[j].owner == u
    requires IsFifoOrder(t.packages, u, c.at, c.order) && Spend(t, u, j, cost, c.at, c.order).Ok?
    ensures BooksInv(Spend(t, u, j, cost, c.at, c.order).value.1, merged, l)
  {
    DrawKeepsStock(Draw(t.packages, t.allocations, cost), t.jobs, t.payments, l, u, c.order, j);
    WriteKeepsRecords(t.accounts, t.ledger, merged, u, ActiveSum(t.packages, u, c.at) - cost,
      JobLedgerRow(ReserveKey(j), u, JobReserve, Minus(cost), j, c.at));
  }

  lemma SpendKeepsEvidence(l: map<LedgerKey, LedgerRow>, jobs: map<JobId, Job>, j: JobId, job: Job, u: UserId, at: Instant)
    requires Evidence(l, jobs) && j !in jobs && job.creditStatus == Reserved && job.cost > 0
    ensures Evidence(WithRow(l, JobLedgerRow(ReserveKey(j), u, JobReserve, Minus(job.cost), j, at)), jobs[j := job])
  {
    var r := JobLedgerRow(ReserveKey(j), u, JobReserve, Minus(job.cost), j, at);
    assert ReserveKey(j) !in l && FinalizeKey(j) !in l && RefundKey(j) !in l;
    EvidenceAfter(l, jobs, j, job, r);
  }

  lemma CreateIsSpend(t: Tables, j: JobId, u: UserId, creditCost: pos, c: Context)
    requires IsFifoOrder(Balanced(WithJob(t, j, u), u, c).packages, u, c.at, c.order)
    ensures CreateJob(t, j, u, creditCost, c)
         == Spend(Balanced(WithJob(t, j, u), u, c), u, j, DEFAULT_CREDIT_COST, c.at, c.order)
  {
  }

  lemma CreateKeepsBooks(t: Tables, merged: set<UserId>, l: Losses, j: JobId, u: UserId, creditCost: pos, c: Context)
    requires BooksInv(t, merged, l) && j !in t.jobs
    requires IsFifoOrder(Balanced(WithJob(t, j, u), u, c).packages, u, c.at, c.order)
    requires CreateJob(t, j, u, creditCost, c).Ok?
    ensures BooksInv(CreateJob(t, j, u, creditCost, c).value.1, merged, AfterBalance(l, WithJob(t, j, u), u, c))
  {
    var t0 := WithJob(t, j, u);
    InsertKeepsBooks(t, merged, l, j, u);
    BalanceKeepsBooks(t0, merged, l, u, c);
    CreateIsSpend(t, j, u, creditCost, c);
    SpendKeepsBooks(Balanced(t0, u, c), merged, AfterBalance(l, t0, u, c), u, j, DEFAULT_CREDIT_COST, c);
  }

  lemma CreateShape(t: Tables, j: JobId, u: UserId, creditCost: pos, c: Context)
    requires IsFifoOrder(Balanced(WithJob(t, j, u), u, c).packages, u, c.at, c.order)
    requires CreateJob(t, j, u, creditCost, c).Ok?
    ensures var t' := CreateJob(t, j, u, creditCost, c).value.1;
      && t'.jobs == t.jobs[j := Job(u, Queued, Reserved, DEFAULT_CREDIT_COST, None)]
      && t'.ledger == WithRow(Balanced(WithJob(t, j, u), u, c).ledger,
                              JobLedgerRow(ReserveKey(j), u, JobReserve, Minus(DEFAULT_CREDIT_COST), j, c.at))
  {
  }

  lemma CreateKeepsEvidence(t: Tables, j: JobId, u: UserId, creditCost: pos, c: Context)
    requires JobsAgree(t.jobs) && Evidence(t.ledger, t.jobs) && j !in t.jobs
    requires IsFifoOrder(Balanced(WithJob(t, j, u), u, c).packages, u, c.at, c.order)
    requires CreateJob(t, j, u, creditCost, c).Ok?
    ensures var t' := CreateJob(t, j, u, creditCost, c).value.1;
      JobsAgree(t'.jobs) && Evidence(t'.ledger, t'.jobs)
  {
    CreateShape(t, j, u, creditCost, c);
    var t0, job := WithJob(t, j, u), Job(u, Queued, Reserved, DEFAULT_CREDIT_COST, None);
    BalanceKeepsEvidence(t0, t.jobs, u, c);
    SpendKeepsEvidence(Balanced(t0, u, c).ledger, t.jobs, j, job, u, c.at);
  }

  /** Creation of a job, paid in full when it succeeds. */
  lemma CreateKeepsPurchases(t: Tables, j: JobId, u: UserId, creditCost: pos, c: Context)
    requires PurchasesRecorded(t.ledger, t.payments)
    requires IsFifoOrder(Balanced(WithJob(t, j, u), u, c).packages, u, c.at, c.order)
    requires CreateJob(t, j, u, creditCost, c).Ok?
    ensures var t' := CreateJob(t, j, u, creditCost, c).value.1;
      PurchasesRecorded(t'.ledger, t'.payments)
  {
    var t1 := Balanced(WithJob(t, j, u), u, c);
    CreateShape(t, j, u, creditCost, c);
    CreateIsSpend(t, j, u, creditCost, c);
    BalanceKeepsPurchases(WithJob(t, j, u), u, c);
    RowKeepsPurchases(t1.ledger, t1.payments, JobLedgerRow(ReserveKey(j), u, JobReserve, Minus(DEFAULT_CREDIT_COST), j, c.at));
  }

  lemma CreateKeepsEconomy(t: Tables, merged: set<UserId>, l: Losses, j: JobId, u: UserId, creditCost: pos, c: Context)
    requires EconomyInv(t, merged, l) && j !in t.jobs
    requires IsFifoOrder(Balanced(WithJob(t, j, u), u, c).packages, u, c.at, c.order)
    requires CreateJob(t, j, u, creditCost, c).Ok?
    ensures EconomyInv(CreateJob(t, j, u, creditCost, c).value.1, merged, AfterBalance(l, WithJob(t, j, u), u, c))
  {
    CreateKeepsBooks(t, merged, l, j, u, creditCost, c);
    CreateKeepsEvidence(t, j, u, creditCost, c);
    CreateKeepsPurchases(t, j, u, creditCost, c);
  }

  // ---------------------------------------------------- claim and publication

  /** Status and result are nothing the books know of. */
  lemma SameCreditKeepsBooks(t: Tables, merged: set<UserId>, l: Losses, j: JobId, job: Job)
    requires BooksInv(t, merged, l) && j in t.jobs
    requires job.owner == t.jobs[j].owner && job.creditStatus == t.jobs[j].creditStatus && job.cost == t.jobs[j].cost
    ensures BooksInv(t.(jobs := t.jobs[j := job]), merged, l)
  {
    var jobs := t.jobs[j := job];
    assert HeldJobs(jobs) == HeldJobs(t.jobs);
    SameHeldConserves(t.packages, t.allocations, t.jobs, jobs, l);
    SameCreditKeepsSound(t.packages, t.allocations, t.jobs, j, job);
  }

  lemma SameCreditKeepsSound(ps: seq<Package>, rows: seq<Allocation>, jobs: map<JobId, Job>, j: JobId, job: Job)
    requires Sound(ps, rows, jobs) && j in jobs
    requires job.owner == jobs[j].owner && job.creditStatus == jobs[j].creditStatus && job.cost == jobs[j].cost
    ensures Sound(ps, rows, jobs[j := job])
  {
    assert HeldJobs(jobs[j := job]) == HeldJobs(jobs);
  }

  lemma SameCreditKeepsEvidence(l: map<LedgerKey, LedgerRow>, jobs: map<JobId, Job>, j: JobId, job: Job)
    requires Evidence(l, jobs) && j in jobs
    requires job.creditStatus == jobs[j].creditStatus && job.cost == jobs[j].cost
    ensures Evidence(l, jobs[j := job])
  {
    forall k | k in jobs ensures JobEvidence(l, k, jobs[j := job][k]) {
      assert JobEvidence(l, k, jobs[k]);
    }
  }

  lemma ClaimKeepsEconomy(t: Tables, merged: set<UserId>, l: Losses, j: JobId, u: UserId)
    requires EconomyInv(t, merged, l)
    ensures EconomyInv(Claim(t, j, u), merged, l)
  {
    if Claimable(t, j, u) {
      var job := t.jobs[j].(status := Processing);
      SameCreditKeepsBooks(t, merged, l, j, job);
      SameCreditKeepsEvidence(t.ledger, t.jobs, j, job);
    }
  }

  lemma FinalizedKeepsEvidence(l: map<LedgerKey, LedgerRow>, jobs: map<JobId, Job>, j: JobId, job: Job, u: UserId, at: Instant)
    requires Evidence(l, jobs) && j in jobs && jobs[j].creditStatus == Reserved
    requires job.creditStatus == Finalized && job.cost == jobs[j].cost
    ensures Evidence(WithRow(l, JobLedgerRow(FinalizeKey(j), u, JobFinalize, 0, j, at)), jobs[j := job])
  {
    assert JobEvidence(l, j, jobs[j]);
    EvidenceAfter(l, jobs, j, job, JobLedgerRow(FinalizeKey(j), u, JobFinalize, 0, j, at));
  }

  lemma FinalizeKeepsBooks(t: Tables, merged: set<UserId>, l: Losses, j: JobId, u: UserId, at: Instant)
    requires BooksInv(t, merged, l) && j in t.jobs && t.jobs[j].creditStatus == Reserved
    ensures BooksInv(t.(
      ledger := WithRow(t.ledger, JobLedgerRow(FinalizeKey(j), u, JobFinalize, 0, j, at)),
      jobs := t.jobs[j := t.jobs[j].(creditStatus := Finalized)]), merged, l)
  {
    var jobs := t.jobs[j := t.jobs[j].(creditStatus := Finalized)];
    assert HeldJobs(jobs) == HeldJobs(t.jobs);
    SameHeldConserves(t.packages, t.allocations, t.jobs, jobs, l);
    FinalizedKeepsSound(t.packages, t.allocations, t.jobs, j);
    RowKeepsRecords(t.accounts, t.ledger, merged, JobLedgerRow(FinalizeKey(j), u, JobFinalize, 0, j, at));
  }

  function AfterPublish(l: Losses, t: Tables, j: JobId, u: UserId, a: AssetId, c: Context): Losses {
    if Publishable(t, j, u) then AfterBalance(l, WithResult(t, j, a), u, c) else l
  }

  lemma PublishKeepsEconomy(t: Tables, merged: set<UserId>, l: Losses, j: JobId, u: UserId, a: AssetId, c: Context)
    requires EconomyInv(t, merged, l)
    ensures EconomyInv(Publish(t, j, u, a, c), merged, AfterPublish(l, t, j, u, a, c))
  {
    if Publishable(t, j, u) {
      var t0 := WithResult(t, j, a);
      var t1 := Balanced(t0, u, c);
      SameCreditKeepsBooks(t, merged, l, j, t0.jobs[j]);
      SameCreditKeepsEvidence(t.ledger, t.jobs, j, t0.jobs[j]);
      BalanceKeepsBooks(t0, merged, l, u, c);
      BalanceKeepsEvidence(t0, t0.jobs, u, c);
      FinalizeKeepsBooks(t1, merged, AfterBalance(l, t0, u, c), j, u, c.at);
      FinalizedKeepsEvidence(t1.ledger, t1.jobs, j, t1.jobs[j].(creditStatus := Finalized), u, c.at);
      BalanceKeepsPurchases(t0, u, c);
      RowKeepsPurchases(t1.ledger, t1.payments, JobLedgerRow(FinalizeKey(j), u, JobFinalize, 0, j, c.at));
      PublishOutcome(t, j, u, a, c);
    }
  }

  // ------------------------------------------------------------------ failure

  lemma RefundKeepsStock(t: Tables, l: Losses, j: JobId, u: UserId, cost: pos, c: Context)
    requires Stock(t.packages, t.allocations, t.jobs, t.payments, l) && LedgerKeyed(t.ledger)
    requires j in t.jobs && t.jobs[j].creditStatus == Reserved
    ensures var qs := RefundedPackages(t, u, j, cost, c);
      Stock(qs, t.allocations, MarkRefunded(t.jobs, j), t.payments,
            Forfeiting(l, t.packages, |qs|, t.allocations, j, c.at))
  {
    RefundKeepsSound(t, u, j, cost, c);
    RefundConserves(t, l, u, j, cost, c);
    RefundPersists(t, u, j, cost, c);
    PersistKeepsSettled(t.packages, RefundedPackages(t, u, j, cost, c), t.payments);
  }

  lemma RefundKeepsRecords(t: Tables, merged: set<UserId>, j: JobId, u: UserId, cost: pos, c: Context)
    requires Records(t.accounts, t.ledger, merged) && RowsInTable(t.allocations, |t.packages|) && j in t.jobs
    ensures var t' := RefundReserved(t, u, j, cost, c).1;
      Records(t'.accounts, t'.ledger, merged)
  {
    var amount := RefundAmount(t, j, cost, c.at);
    WriteKeepsRecords(t.accounts, t.ledger, merged, u, ActiveSum(t.packages, u, c.at) + amount,
      JobLedgerRow(RefundKey(j), u, JobRefund, amount, j, c.at));
  }

  lemma RefundKeepsBooks(t: Tables, merged: set<UserId>, l: Losses, j: JobId, u: UserId, cost: pos, c: Context)
    requires BooksInv(t, merged, l) && j in t.jobs && t.jobs[j].creditStatus == Reserved
    ensures var t' := RefundReserved(t, u, j, cost, c).1;
      BooksInv(t', merged, Forfeiting(l, t.packages, |t'.packages|, t.allocations, j, c.at))
  {
    RefundKeepsStock(t, l, j, u, cost, c);
    RefundKeepsRecords(t, merged, j, u, cost, c);
  }

  lemma RefundPersists(t: Tables, u: UserId, j: JobId, cost: pos, c: Context)
    requires RowsInTable(t.allocations, |t.packages|) && KeysUnique(t.packages)
    ensures PackagesPersist(t.packages, RefundedPackages(t, u, j, cost, c))
  {
    RestoreShape(t.packages, t.allocations, j, c.at);
    WithPackageFacts(Restore(t.packages, t.allocations, j, c.at),
      NewPackage(u, Source.Refund, cost, Some(c.wall + PURCHASE_GRANT_TTL), RefundPackage(j), c.at));
  }

  lemma RefundedKeepsEvidence(l: map<LedgerKey, LedgerRow>, jobs: map<JobId, Job>, j: JobId, job: Job,
                              u: UserId, amount: pos, at: Instant)
    requires Evidence(l, jobs) && j in jobs && jobs[j].creditStatus == Reserved
    requires job.creditStatus == Refunded && job.cost == jobs[j].cost && amount <= job.cost
    ensures Evidence(WithRow(l, JobLedgerRow(RefundKey(j), u, JobRefund, amount, j, at)), jobs[j := job])
  {
    assert JobEvidence(l, j, jobs[j]);
    EvidenceAfter(l, jobs, j, job, JobLedgerRow(RefundKey(j), u, JobRefund, amount, j, at));
  }

  lemma FailureKeepsBooks(t: Tables, merged: set<UserId>, l: Losses, j: JobId)
    requires BooksInv(t, merged, l) && j in t.jobs
    ensures BooksInv(WithFailure(t, j), merged, l)
  {
    SameCreditKeepsBooks(t, merged, l, j, t.jobs[j].(status := Failed));
  }

  lemma RefundShape(t: Tables, j: JobId, u: UserId, cost: pos, c: Context)
    requires RowsInTable(t.allocations, |t.packages|) && j in t.jobs
    ensures var t' := WithFailure(RefundReserved(t, u, j, cost, c).1, j);
      && t'.jobs == t.jobs[j := t.jobs[j].(status := Failed, creditStatus := Refunded)]
      && t'.ledger == WithRow(t.ledger, JobLedgerRow(RefundKey(j), u, JobRefund, RefundAmount(t, j, cost, c.at), j, c.at))
  {
  }

  lemma RefundKeepsEvidence(t: Tables, j: JobId, u: UserId, c: Context)
    requires JobsAgree(t.jobs) && Evidence(t.ledger, t.jobs) && RowsInTable(t.allocations, |t.packages|)
    requires j in t.jobs && t.jobs[j].creditStatus == Reserved && t.jobs[j].cost > 0
    requires AllocatedTo(t.allocations, j) == t.jobs[j].cost
    ensures var t' := WithFailure(RefundReserved(t, u, j, t.jobs[j].cost, c).1, j);
      JobsAgree(t'.jobs) && Evidence(t'.ledger, t'.jobs)
  {
    var cost := t.jobs[j].cost;
    var job := t.jobs[j].(status := Failed, creditStatus := Refunded);
    RefundShape(t, j, u, cost, c);
    RefundAmountBounds(t, j, cost, c.at);
    RefundedKeepsEvidence(t.ledger, t.jobs, j, job, u, RefundAmount(t, j, cost, c.at), c.at);
    assert JobAgrees(job);
  }

  /** The failure of a live job, once the balance is up to date. */
  lemma RefundKeepsEconomy(t: Tables, merged: set<UserId>, l: Losses, j: JobId, u: UserId, c: Context)
    requires EconomyInv(t, merged, l) && j in t.jobs && t.jobs[j].creditStatus == Reserved && t.jobs[j].cost > 0
    ensures var t' := WithFailure(RefundReserved(t, u, j, t.jobs[j].cost, c).1, j);
      EconomyInv(t', merged, Forfeiting(l, t.packages, |t'.packages|, t.allocations, j, c.at))
  {
    var t1 := RefundReserved(t, u, j, t.jobs[j].cost, c).1;
    RefundKeepsBooks(t, merged, l, j, u, t.jobs[j].cost, c);
    FailureKeepsBooks(t1, merged, Forfeiting(l, t.packages, |t1.packages|, t.allocations, j, c.at), j);
    RefundKeepsEvidence(t, j, u, c);
    RefundShape(t, j, u, t.jobs[j].cost, c);
    RowKeepsPurchases(t.ledger, t.payments,
      JobLedgerRow(RefundKey(j), u, JobRefund, RefundAmount(t, j, t.jobs[j].cost, c.at), j, c.at));
  }

  function AfterFail(l: Losses, t: Tables, j: JobId, u: UserId, c: Context): Losses
    requires RowsInTable(t.allocations, |t.packages|)
  {
    if Failable(t, j, u)
    then Forfeiting(AfterBalance(l, t, u, c), Balanced(t, u, c).packages, |Fail(t, j, u, c).packages|, t.allocations, j, c.at)
    else l
  }

  lemma FailKeepsEconomy(t: Tables, merged: set<UserId>, l: Losses, j: JobId, u: UserId, c: Context)
    requires EconomyInv(t, merged, l)
    ensures EconomyInv(Fail(t, j, u, c), merged, AfterFail(l, t, j, u, c))
  {
    if Failable(t, j, u) {
      assert JobAgrees(t.jobs[j]);
      BalanceKeepsEconomy(t, merged, l, u, c);
      RefundKeepsEconomy(Balanced(t, u, c), merged, AfterBalance(l, t, u, c), j, u, c);
    }
  }

  // ----------------------------------------------------------------- payments

  lemma SettleKeepsStock(t: Tables, l: Losses, i: InvoiceId, c: Context)
    requires Stock(t.packages, t.allocations, t.jobs, t.payments, l) && i in t.payments && t.payments[i].status != Paid
    ensures var t' := Settle(t, i, c);
      Stock(t'.packages, t.allocations, t.jobs, t'.payments, Extended(l, |t.packages| + 1))
  {
    var t' := Settle(t, i, c);
    SettleKeepsSettled(t.packages, t.payments, i, c);
    NotBoughtYet(t.packages, t.payments, i);
    NewCreditsKeepSound(t.packages, t'.packages, t.allocations, t.jobs);
    AppendConserves(t.packages, t'.packages, t.allocations, t.jobs, l);
  }

  lemma SettleKeepsEconomy(t: Tables, merged: set<UserId>, l: Losses, i: InvoiceId, c: Context)
    requires EconomyInv(t, merged, l) && i in t.payments && t.payments[i].status != Paid
    ensures EconomyInv(Settle(t, i, c), merged, Extended(l, |t.packages| + 1))
  {
    var p := t.payments[i];
    SettleKeepsStock(t, l, i, c);
    EvidenceIgnores(t.ledger, t.jobs, PaidRow(p, i, c.at));
    SettleKeepsRecorded(t.ledger, t.payments, i, c.at);
    WriteKeepsRecords(t.accounts, t.ledger, merged, p.owner, ActiveSum(t.packages, p.owner, c.at) + p.credits,
      PaidRow(p, i, c.at));
  }

  function AfterPaid(l: Losses, t: Tables, i: InvoiceId, c: Context): Losses
    requires i in t.payments
  {
    var l1 := AfterBalance(l, t, t.payments[i].owner, c);
    if t.payments[i].status == Paid then l1
    else Extended(l1, |Balanced(t, t.payments[i].owner, c).packages| + 1)
  }

  lemma PaidKeepsEconomy(t: Tables, merged: set<UserId>, l: Losses, i: InvoiceId, providerId: nat, outSum: Decimal, c: Context)
    requires EconomyInv(t, merged, l) && MarkPaid(t, i, providerId, outSum, c).Ok?
    ensures i in t.payments && EconomyInv(MarkPaid(t, i, providerId, outSum, c).value, merged, AfterPaid(l, t, i, c))
  {
    var u := t.payments[i].owner;
    BalanceKeepsEconomy(t, merged, l, u, c);
    if t.payments[i].status != Paid {
      SettleKeepsEconomy(Balanced(t, u, c), merged, AfterBalance(l, t, u, c), i, c);
    }
  }

  /** Writes to the payment table alone. */
  lemma PaymentsKeepEconomy(t: Tables, merged: set<UserId>, l: Losses, payments: map<InvoiceId, Payment>)
    requires EconomyInv(t, merged, l) && PaymentsSettled(t.packages, payments) && PurchasesRecorded(t.ledger, payments)
    ensures EconomyInv(t.(payments := payments), merged, l)
  {
  }

  // -------------------------------------------------------------------- merge

  lemma MoveKeepsSound(ps: seq<Package>, rows: seq<Allocation>, jobs: map<JobId, Job>, source: UserId, survivor: UserId)
    requires Sound(ps, rows, jobs)
    ensures Sound(MovePackages(ps, source, survivor), rows, MoveJobs(jobs, source, survivor))
  {
    var qs, jobs' := MovePackages(ps, source, survivor), MoveJobs(jobs, source, survivor);
    assert HeldJobs(jobs') == HeldJobs(jobs);
    forall p | 0 <= p < |qs| ensures qs[p].remaining + AllocatedOn(rows, p, HeldJobs(jobs')) <= qs[p].granted {
      assert ps[p].remaining + AllocatedOn(rows, p, HeldJobs(jobs)) <= ps[p].granted;
    }
  }

  lemma MoveKeepsSettled(ps: seq<Package>, payments: map<InvoiceId, Payment>, source: UserId, survivor: UserId)
    requires PaymentsSettled(ps, payments)
    ensures PaymentsSettled(MovePackages(ps, source, survivor), MovePayments(payments, source, survivor))
  {
    var qs, payments' := MovePackages(ps, source, survivor), MovePayments(payments, source, survivor);
    forall k | 0 <= k < |qs| ensures PackageOfPayment(qs[k], payments') {
      assert PackageOfPayment(ps[k], payments);
    }
    forall i | i in payments' && payments'[i].status == Paid ensures HasKey(qs, PurchasePackage(i)) {
      var k :| 0 <= k < |ps| && ps[k].key == PurchasePackage(i);
      assert qs[k].key == PurchasePackage(i);
    }
  }

  lemma MoveKeepsEvidence(l: map<LedgerKey, LedgerRow>, jobs: map<JobId, Job>, source: UserId, survivor: UserId)
    requires Evidence(l, jobs)
    ensures Evidence(MoveLedger(l, source, survivor), MoveJobs(jobs, source, survivor))
  {
    var l', jobs' := MoveLedger(l, source, survivor), MoveJobs(jobs, source, survivor);
    forall k | k in l' ensures l'[k].key == k && JobKeyed(k, l'[k]) && (l'[k].job.Some? ==> l'[k].job.value in jobs') {
      assert JobKeyed(k, l[k]);
    }
    forall j | j in jobs' ensures JobEvidence(l', j, jobs'[j]) {
      assert JobEvidence(l, j, jobs[j]);
    }
  }

  lemma EmptiedKeepsSound(ps: seq<Package>, rows: seq<Allocation>, jobs: map<JobId, Job>, u: UserId, at: Instant)
    requires Sound(ps, rows, jobs)
    ensures Sound(Emptied(ps, u, at), rows, jobs)
  {
    NewCreditsKeepSound(ps, Emptied(ps, u, at), rows, jobs);
  }

  lemma MergeKeepsStock(t: Tables, l: Losses, source: UserId, survivor: UserId, at: Instant)
    requires Stock(t.packages, t.allocations, t.jobs, t.payments, l) && source != survivor
    ensures var t' := Merge(t, source, survivor, at);
      Stock(t'.packages, t'.allocations, t'.jobs, t'.payments, AfterMerge(l, t, source, survivor, at))
  {
    var ps, jobs := MovePackages(t.packages, source, survivor), MoveJobs(t.jobs, source, survivor);
    MergeConserves(t, l, source, survivor, at);
    MergeShape(t, source, survivor, at);
    MoveKeepsSound(t.packages, t.allocations, t.jobs, source, survivor);
    EmptiedKeepsSound(ps, t.allocations, jobs, survivor, at);
    MoveKeepsSettled(t.packages, t.payments, source, survivor);
    EmptyingPersists(ps, ps, survivor, at);
    PersistKeepsSettled(ps, Emptied(ps, survivor, at), MovePayments(t.payments, source, survivor));
  }

  lemma MergeKeepsLedger(t: Tables, source: UserId, survivor: UserId, at: Instant)
    requires LedgerKeyed(t.ledger) && JobsAgree(t.jobs) && Evidence(t.ledger, t.jobs) && source != survivor
    ensures var t' := Merge(t, source, survivor, at);
      LedgerKeyed(t'.ledger) && JobsAgree(t'.jobs) && Evidence(t'.ledger, t'.jobs)
  {
    MergeShape(t, source, survivor, at);
    MoveKeepsEvidence(t.ledger, t.jobs, source, survivor);
    EvidenceOutlivesUpkeep(MoveLedger(t.ledger, source, survivor), Merge(t, source, survivor, at).ledger,
      MoveJobs(t.jobs, source, survivor), survivor);
  }

  lemma MergeKeepsPurchases(t: Tables, source: UserId, survivor: UserId, at: Instant)
    requires PurchasesRecorded(t.ledger, t.payments) && source != survivor
    ensures var t' := Merge(t, source, survivor, at);
      PurchasesRecorded(t'.ledger, t'.payments)
  {
    MergeShape(t, source, survivor, at);
    UpkeepKeepsPurchases(MoveLedger(t.ledger, source, survivor), Merge(t, source, survivor, at).ledger,
      MovePayments(t.payments, source, survivor), survivor);
  }

  lemma MergeKeepsEconomy(t: Tables, merged: set<UserId>, l: Losses, source: UserId, survivor: UserId, at: Instant)
    requires EconomyInv(t, merged, l) && source != survivor && source !in merged && survivor !in merged
    ensures EconomyInv(Merge(t, source, survivor, at), merged + {source}, AfterMerge(l, t, source, survivor, at))
  {
    MergeKeepsStock(t, l, source, survivor, at);
    MergeKeepsLedger(t, source, survivor, at);
    MergeKeepsPurchases(t, source, survivor, at);
    MergeKeepsTrials(t, source, survivor, at, merged);
  }
}
