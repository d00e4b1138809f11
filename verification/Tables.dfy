/** The database rows that carry credits, as values. A row of `credit_packages` is named by its
    position; idempotency keys are constructors in place of the formatted strings, so two keys
    are equal exactly when their strings are. */
module Tables {
  import opened Sums

  datatype Option<+T> = None | Some(value: T)

  type pos = x: int | 0 < x witness 1
  type Instant = int
  type UserId = nat
  type JobId = nat
  type InvoiceId = nat
  type PackageId = nat
  type AssetId = nat

  // Deployment configuration, all positive; time is measured in one unit throughout.
  const STARTER_GRANT_CREDITS: pos
  const STARTER_GRANT_TTL: pos
  const PURCHASE_GRANT_TTL: pos
  const JOB_CREDIT_COST: pos
  const PAYMENT_PENDING_TIMEOUT: pos

  datatype Source = StarterGrant | Purchase | Refund | LegacyBalance

  datatype PackageKey =
    | StarterPackage(user: UserId)
    | PurchasePackage(invoice: InvoiceId)
    | RefundPackage(job: JobId)
    | CutoverPackage(user: UserId)
    | HistoricPackage(id: nat)

  /** `expires == None` is SQL NULL: the package never expires. */
  datatype Package = Package(
    owner: UserId, source: Source, granted: pos, remaining: nat,
    expires: Option<Instant>, created: Instant, key: PackageKey)

  datatype Account = Account(balance: nat, trialUsedAt: Option<Instant>)

  datatype LedgerEvent =
    TrialGrant | PurchaseGrant | JobReserve | JobFinalize | JobRefund | ManualAdjustment | Expiration

  datatype MetadataKind = NoKind | StarterGrantKind | StarterGrantExpirationKind

  datatype LedgerKey =
    | StarterGrantKey(user: UserId)
    | StarterExpireKey(user: UserId)
    | PackageExpireKey(package: PackageId)
    | ReserveKey(job: JobId)
    | FinalizeKey(job: JobId)
    | RefundKey(job: JobId)
    | PaymentPaidKey(invoice: InvoiceId)
    | HistoricKey(id: nat)

  datatype LedgerRow = LedgerRow(
    key: LedgerKey, owner: UserId, event: LedgerEvent, kind: MetadataKind,
    delta: int, job: Option<JobId>, created: Instant)

  datatype Allocation = Allocation(package: PackageId, job: JobId, credits: pos)

  datatype JobStatus = Queued | Processing | Completed | Failed

  datatype CreditStatus = NotCharged | Reserved | Finalized | Refunded

  datatype Job = Job(
    owner: UserId, status: JobStatus, creditStatus: CreditStatus, cost: nat, result: Option<AssetId>)

  datatype PaymentStatus = Pending | Paid | PaymentFailed | Cancelled

  /** `payments` is keyed by invoice number; `id` is the row's primary key. */
  datatype Payment = Payment(
    id: nat, owner: UserId, status: PaymentStatus, kopecks: nat, credits: pos,
    providerPaymentId: nat, created: Instant)

  datatype Tables = Tables(
    packages: seq<Package>,
    accounts: map<UserId, Account>,
    ledger: map<LedgerKey, LedgerRow>,
    allocations: seq<Allocation>,
    jobs: map<JobId, Job>,
    payments: map<InvoiceId, Payment>)

  datatype CreditError =
    | JobNotFound
    | JobAlreadyRefunded
    | InsufficientCredits
    | PackagesOutOfSync
    | PaymentNotFound
    | PaymentMismatch
    | AmountOutOfRange
    | BatchSizeOutOfRange

  datatype Result<+T> = Ok(value: T) | Err(error: CreditError)

  // ---------------------------------------------------------------- packages

  /** `expires_at IS NULL OR expires_at > at` */
  predicate Active(p: Package, at: Instant) {
    p.expires.None? || p.expires.value > at
  }

  /** What the package adds to the user's credits usable at `at`. */
  function Share(p: Package, u: UserId, at: Instant): nat {
    if p.owner == u && Active(p, at) then p.remaining else 0
  }

  function Shares(ps: seq<Package>, u: UserId, at: Instant): (xs: seq<nat>)
    ensures |xs| == |ps|
    ensures forall i :: 0 <= i < |ps| ==> xs[i] == Share(ps[i], u, at)
  {
    seq(|ps|, i requires 0 <= i < |ps| => Share(ps[i], u, at))
  }

  /** Credits of `u` usable at instant `at`. */
  function ActiveSum(ps: seq<Package>, u: UserId, at: Instant): nat {
    Total(Shares(ps, u, at))
  }

  lemma SharesDecide(ps: seq<Package>, qs: seq<Package>, u: UserId, v: UserId, at: Instant, bt: Instant)
    requires |ps| == |qs|
    requires forall i :: 0 <= i < |ps| ==> Share(ps[i], u, at) == Share(qs[i], v, bt)
    ensures ActiveSum(ps, u, at) == ActiveSum(qs, v, bt)
  {
    assert Shares(ps, u, at) == Shares(qs, v, bt);
  }

  lemma ActiveSumAppend(ps: seq<Package>, p: Package, u: UserId, at: Instant)
    ensures ActiveSum(ps + [p], u, at) == ActiveSum(ps, u, at) + Share(p, u, at)
  {
    assert Shares(ps + [p], u, at) == Shares(ps, u, at) + [Share(p, u, at)];
    TotalAppend(Shares(ps, u, at), Share(p, u, at));
  }

  lemma ActiveSumUpdate(ps: seq<Package>, i: nat, p: Package, u: UserId, at: Instant)
    requires i < |ps|
    ensures ActiveSum(ps[i := p], u, at) == ActiveSum(ps, u, at) - Share(ps[i], u, at) + Share(p, u, at)
    ensures Share(ps[i], u, at) <= ActiveSum(ps, u, at)
  {
    assert Shares(ps[i := p], u, at) == Shares(ps, u, at)[i := Share(p, u, at)];
    TotalUpdate(Shares(ps, u, at), i, Share(p, u, at));
  }

  // ------------------------------------------------------------- allocations

  function PartsOn(rows: seq<Allocation>, p: PackageId, held: set<JobId>): (xs: seq<nat>)
    ensures |xs| == |rows|
    ensures forall i :: 0 <= i < |rows| ==>
      xs[i] == if rows[i].package == p && rows[i].job in held then rows[i].credits else 0
  {
    seq(|rows|, i requires 0 <= i < |rows| =>
      if rows[i].package == p && rows[i].job in held then rows[i].credits else 0)
  }

  /** Credits that the jobs in `held` took from package `p`. */
  function AllocatedOn(rows: seq<Allocation>, p: PackageId, held: set<JobId>): nat {
    Total(PartsOn(rows, p, held))
  }

  function PartsOf(rows: seq<Allocation>, j: JobId): (xs: seq<nat>)
    ensures |xs| == |rows|
    ensures forall i :: 0 <= i < |rows| ==> xs[i] == if rows[i].job == j then rows[i].credits else 0
  {
    seq(|rows|, i requires 0 <= i < |rows| => if rows[i].job == j then rows[i].credits else 0)
  }

  /** Credits that job `j` took from all packages together. */
  function AllocatedTo(rows: seq<Allocation>, j: JobId): nat {
    Total(PartsOf(rows, j))
  }

  lemma AllocatedAppend(rows: seq<Allocation>, a: Allocation, p: PackageId, held: set<JobId>, j: JobId)
    ensures AllocatedOn(rows + [a], p, held)
         == AllocatedOn(rows, p, held) + (if a.package == p && a.job in held then a.credits else 0)
    ensures AllocatedTo(rows + [a], j) == AllocatedTo(rows, j) + (if a.job == j then a.credits else 0)
  {
    var x := if a.package == p && a.job in held then a.credits else 0;
    var y := if a.job == j then a.credits else 0;
    assert PartsOn(rows + [a], p, held) == PartsOn(rows, p, held) + [x];
    assert PartsOf(rows + [a], j) == PartsOf(rows, j) + [y];
    TotalAppend(PartsOn(rows, p, held), x);
    TotalAppend(PartsOf(rows, j), y);
  }

  lemma AllocatedUpdate(rows: seq<Allocation>, i: nat, c: pos, p: PackageId, held: set<JobId>, j: JobId)
    requires i < |rows|
    ensures AllocatedOn(rows[i := rows[i].(credits := rows[i].credits + c)], p, held)
         == AllocatedOn(rows, p, held) + (if rows[i].package == p && rows[i].job in held then c else 0)
    ensures AllocatedTo(rows[i := rows[i].(credits := rows[i].credits + c)], j)
         == AllocatedTo(rows, j) + (if rows[i].job == j then c else 0)
  {
    var a := rows[i].(credits := rows[i].credits + c);
    var x := if a.package == p && a.job in held then a.credits else 0;
    var y := if a.job == j then a.credits else 0;
    assert PartsOn(rows[i := a], p, held) == PartsOn(rows, p, held)[i := x];
    assert PartsOf(rows[i := a], j) == PartsOf(rows, j)[i := y];
    TotalUpdate(PartsOn(rows, p, held), i, x);
    TotalUpdate(PartsOf(rows, j), i, y);
  }

  /** Adding a job to the held set adds exactly what that job took. */
  lemma AllocatedSplit(rows: seq<Allocation>, p: PackageId, held: set<JobId>, j: JobId)
    requires j !in held
    ensures AllocatedOn(rows, p, held + {j}) == AllocatedOn(rows, p, held) + AllocatedOn(rows, p, {j})
  {
    TotalAdd(PartsOn(rows, p, held), PartsOn(rows, p, {j}), PartsOn(rows, p, held + {j}));
  }

  lemma AllocatedNowhere(rows: seq<Allocation>, p: PackageId, j: JobId)
    requires forall i :: 0 <= i < |rows| ==> rows[i].job != j
    ensures AllocatedOn(rows, p, {j}) == 0 && AllocatedTo(rows, j) == 0
  {
    TotalZero(PartsOn(rows, p, {j}));
    TotalZero(PartsOf(rows, j));
  }

  lemma AllocatedOffTable(rows: seq<Allocation>, p: PackageId, held: set<JobId>)
    requires forall i :: 0 <= i < |rows| ==> rows[i].package != p
    ensures AllocatedOn(rows, p, held) == 0
  {
    TotalZero(PartsOn(rows, p, held));
  }

  /** The jobs whose allocations still count: reserved, or spent for good. */
  predicate Holds(s: CreditStatus) {
    s == Reserved || s == Finalized
  }

  function HeldJobs(jobs: map<JobId, Job>): set<JobId> {
    set j | j in jobs && Holds(jobs[j].creditStatus)
  }

  // -------------------------------------------------------- table constraints

  predicate KeysUnique(ps: seq<Package>) {
    forall i, k :: 0 <= i < k < |ps| ==> ps[i].key != ps[k].key
  }

  predicate AllocationsUnique(rows: seq<Allocation>) {
    forall i, k :: 0 <= i < k < |rows| ==> rows[i].package != rows[k].package || rows[i].job != rows[k].job
  }

  /** A ledger row is filed under its own idempotency key. */
  predicate LedgerKeyed(ledger: map<LedgerKey, LedgerRow>) {
    forall k :: k in ledger ==> ledger[k].key == k
  }

  /** Foreign keys of the allocation table. */
  predicate RowsLinked(rows: seq<Allocation>, n: nat, jobs: map<JobId, Job>) {
    forall i :: 0 <= i < |rows| ==> rows[i].package < n && rows[i].job in jobs
  }

  /** CHECK (remaining_credits <= credits_granted) */
  predicate WithinGrant(ps: seq<Package>) {
    forall i :: 0 <= i < |ps| ==> ps[i].remaining <= ps[i].granted
  }

  /** The constraints the schema declares on these tables. */
  predicate WellFormed(t: Tables) {
    && KeysUnique(t.packages) && AllocationsUnique(t.allocations)
    && WithinGrant(t.packages) && RowsLinked(t.allocations, |t.packages|, t.jobs)
    && LedgerKeyed(t.ledger)
  }
}
