/** What each credit operation does to the tables, as functions of the state before the call.
    The methods in `CreditsService` are proved to compute these; the theorems are about these. */
module CreditRules {
  import opened Sums
  import opened Tables
  import opened StarterReplay

  // ------------------------------------------------------------ single inserts

  predicate HasKey(ps: seq<Package>, key: PackageKey) {
    exists i :: 0 <= i < |ps| && ps[i].key == key
  }

  /** INSERT ... ON CONFLICT (idempotency_key) DO NOTHING */
  function WithPackage(ps: seq<Package>, p: Package): seq<Package> {
    if HasKey(ps, p.key) then ps else ps + [p]
  }

  function NewPackage(u: UserId, source: Source, credits: pos, expires: Option<Instant>,
                      key: PackageKey, at: Instant): Package
  {
    Package(u, source, credits, credits, expires, at, key)
  }

  function WithRow(ledger: map<LedgerKey, LedgerRow>, r: LedgerRow): map<LedgerKey, LedgerRow> {
    if r.key in ledger then ledger else ledger[r.key := r]
  }

  function WithBalance(accounts: map<UserId, Account>, u: UserId, balance: nat): map<UserId, Account> {
    if u in accounts then accounts[u := accounts[u].(balance := balance)] else accounts
  }

  // ------------------------------------------------------------------- expiry

  predicate Due(p: Package, u: UserId, at: Instant) {
    p.owner == u && p.remaining > 0 && !Active(p, at)
  }

  function Emptied(ps: seq<Package>, u: UserId, at: Instant): (qs: seq<Package>)
    ensures |qs| == |ps|
    ensures forall i :: 0 <= i < |ps| ==>
      qs[i] == if Due(ps[i], u, at) then ps[i].(remaining := 0) else ps[i]
  {
    seq(|ps|, i requires 0 <= i < |ps| => if Due(ps[i], u, at) then ps[i].(remaining := 0) else ps[i])
  }

  function DueAmounts(ps: seq<Package>, u: UserId, at: Instant): (xs: seq<nat>)
    ensures |xs| == |ps|
    ensures forall i :: 0 <= i < |ps| ==> xs[i] == if Due(ps[i], u, at) then ps[i].remaining else 0
  {
    seq(|ps|, i requires 0 <= i < |ps| => if Due(ps[i], u, at) then ps[i].remaining else 0)
  }

  function ExpirationRow(ps: seq<Package>, i: PackageId, u: UserId, at: Instant): LedgerRow
    requires i < |ps|
  {
    LedgerRow(PackageExpireKey(i), u, Expiration, NoKind, Minus(ps[i].remaining), None, at)
  }

  function ExpirationRows(ps: seq<Package>, u: UserId, at: Instant): map<LedgerKey, LedgerRow> {
    map i: PackageId | 0 <= i < |ps| && Due(ps[i], u, at) :: PackageExpireKey(i) := ExpirationRow(ps, i, u, at)
  }

  /** `expire_credit_packages` */
  function Expire(t: Tables, u: UserId, at: Instant): (t': Tables)
    ensures t'.jobs == t.jobs && t'.allocations == t.allocations && t'.payments == t.payments
  {
    var expired := Total(DueAmounts(t.packages, u, at));
    if expired == 0 then t
    else t.(
      packages := Emptied(t.packages, u, at),
      ledger := ExpirationRows(t.packages, u, at) + t.ledger,
      accounts := if u in t.accounts
                  then WithBalance(t.accounts, u, Max(0, t.accounts[u].balance - expired))
                  else t.accounts)
  }

  // ------------------------------------------------------------ starter grant

  predicate HasStarterRow(ledger: map<LedgerKey, LedgerRow>, u: UserId) {
    exists k :: k in ledger && IsStarterRow(ledger[k], u)
  }

  predicate HasStarterExpiration(ledger: map<LedgerKey, LedgerRow>, u: UserId) {
    exists k :: k in ledger && ledger[k].owner == u
      && (ledger[k].kind == StarterGrantExpirationKind || ledger[k].event == Expiration
          || ledger[k].key == StarterExpireKey(u))
  }

  predicate HasLegacyPackage(ps: seq<Package>, u: UserId) {
    exists i :: 0 <= i < |ps| && ps[i].owner == u && ps[i].source == LegacyBalance
  }

  /** What the database returned for the two ledger queries of the starter-expiry path. Rows
      created at the same instant may come in any order. */
  datatype StarterView = StarterView(first: Option<LedgerRow>, listing: seq<LedgerRow>)

  ghost predicate IsListing(ledger: map<LedgerKey, LedgerRow>, u: UserId, rows: seq<LedgerRow>) {
    && (forall i :: 0 <= i < |rows| ==>
          rows[i].key in ledger && ledger[rows[i].key] == rows[i] && rows[i].owner == u)
    && (forall k :: k in ledger && ledger[k].owner == u ==> ledger[k] in rows)
    && (forall i, j :: 0 <= i < j < |rows| ==>
          rows[i].key != rows[j].key && rows[i].created <= rows[j].created)
  }

  ghost predicate IsEarliestStarter(ledger: map<LedgerKey, LedgerRow>, u: UserId, first: Option<LedgerRow>) {
    match first
    case None => !HasStarterRow(ledger, u)
    case Some(r) =>
      && r.key in ledger && ledger[r.key] == r && IsStarterRow(r, u)
      && forall k :: k in ledger && IsStarterRow(ledger[k], u) ==> r.created <= ledger[k].created
  }

  ghost predicate ValidView(ledger: map<LedgerKey, LedgerRow>, u: UserId, v: StarterView) {
    IsEarliestStarter(ledger, u, v.first) && IsListing(ledger, u, v.listing)
  }

  /** Credits `_expire_starter_grant_if_due` takes off the cached balance: none, or between 1 and it. */
  function StarterExpiry(t: Tables, u: UserId, balance: nat, wall: Instant, v: StarterView): (k: nat)
    ensures k <= balance
  {
    if v.first.None? || v.first.value.created + STARTER_GRANT_TTL > wall then 0
    else if HasLegacyPackage(t.packages, u) || HasStarterExpiration(t.ledger, u) then 0
    else if StarterExpireKey(u) in t.ledger then 0
    else Max(0, Min(balance, RemainingStarterCredits(v.listing, u, v.first.value.delta)))
  }

  function StarterExpirationRow(u: UserId, k: nat, at: Instant): LedgerRow {
    LedgerRow(StarterExpireKey(u), u, Expiration, StarterGrantExpirationKind, Minus(k), None, at)
  }

  /** `_expire_starter_grant_if_due` touches the cached balance and the ledger, never a package. */
  function ExpireStarter(t: Tables, u: UserId, at: Instant, wall: Instant, v: StarterView): (t': Tables)
    requires u in t.accounts
    ensures t'.jobs == t.jobs && t'.allocations == t.allocations && t'.payments == t.payments
    ensures u in t'.accounts
  {
    var k := StarterExpiry(t, u, t.accounts[u].balance, wall, v);
    if k == 0 then t
    else t.(
      ledger := WithRow(t.ledger, StarterExpirationRow(u, k, at)),
      accounts := WithBalance(t.accounts, u, t.accounts[u].balance - k))
  }

  function StarterGrantRow(u: UserId, at: Instant): LedgerRow {
    LedgerRow(StarterGrantKey(u), u, TrialGrant, StarterGrantKind, STARTER_GRANT_CREDITS, None, at)
  }

  function WithAccount(accounts: map<UserId, Account>, u: UserId): map<UserId, Account> {
    if u in accounts then accounts else accounts[u := Account(0, None)]
  }

  predicate NeverGranted(t: Tables, u: UserId) {
    (u in t.accounts ==> t.accounts[u].trialUsedAt.None?) && !HasStarterRow(t.ledger, u)
  }

  /** The grant itself. The wall clock, not the transaction clock, dates the package's end. */
  function GrantStarter(t: Tables, u: UserId, at: Instant, wall: Instant): (t': Tables)
    requires u in t.accounts
    ensures t'.jobs == t.jobs && t'.allocations == t.allocations && t'.payments == t.payments
  {
    t.(
      accounts := t.accounts[u := Account(t.accounts[u].balance + STARTER_GRANT_CREDITS, Some(at))],
      ledger := WithRow(t.ledger, StarterGrantRow(u, at)),
      packages := WithPackage(t.packages,
        NewPackage(u, StarterGrant, STARTER_GRANT_CREDITS, Some(wall + STARTER_GRANT_TTL),
                   StarterPackage(u), at)))
  }

  /** `ensure_credit_account_state` */
  function EnsureAccount(t: Tables, u: UserId, at: Instant, wall: Instant, v: StarterView): (t': Tables)
    ensures u in t'.accounts
    ensures t'.jobs == t.jobs && t'.allocations == t.allocations && t'.payments == t.payments
  {
    var t1 := ExpireStarter(t.(accounts := WithAccount(t.accounts, u)), u, at, wall, v);
    if NeverGranted(t, u) then GrantStarter(t1, u, at, wall) else t1
  }

  // ------------------------------------------------------------------ balance

  /** `reconcile_credit_account_balance` */
  function Reconcile(t: Tables, u: UserId, at: Instant): (t': Tables)
    ensures t'.jobs == t.jobs && t'.allocations == t.allocations && t'.payments == t.payments
  {
    t.(accounts := WithBalance(t.accounts, u, ActiveSum(t.packages, u, at)))
  }

  /** `get_balance` */
  function GetBalance(t: Tables, u: UserId, at: Instant, wall: Instant, v: StarterView): (t': Tables)
    ensures t'.jobs == t.jobs && t'.allocations == t.allocations && t'.payments == t.payments
  {
    Reconcile(Expire(EnsureAccount(t, u, at, wall, v), u, at), u, at)
  }

  // ------------------------------------------------------------------ reserve

  predicate Spendable(p: Package, u: UserId, at: Instant) {
    p.owner == u && p.remaining > 0 && Active(p, at)
  }

  /** `ORDER BY expires_at NULLS LAST, created_at`, ties in any order. */
  predicate NotAfter(p: Package, q: Package) {
    match (p.expires, q.expires)
    case (Some(a), Some(b)) => a < b || (a == b && p.created <= q.created)
    case (Some(_), None) => true
    case (None, Some(_)) => false
    case (None, None) => p.created <= q.created
  }

  /** A row order the spending query may return. */
  predicate IsFifoOrder(ps: seq<Package>, u: UserId, at: Instant, order: seq<PackageId>) {
    && (forall k :: 0 <= k < |order| ==> order[k] < |ps| && Spendable(ps[order[k]], u, at))
    && (forall i :: 0 <= i < |ps| && Spendable(ps[i], u, at) ==> i in order)
    && (forall k, l :: 0 <= k < l < |order| ==>
          order[k] != order[l] && NotAfter(ps[order[k]], ps[order[l]]))
  }

  /** Position of the allocation row of (p, j), or the length of the table. */
  function RowOf(rows: seq<Allocation>, p: PackageId, j: JobId): (n: nat)
    ensures n <= |rows|
    ensures n < |rows| ==> rows[n].package == p && rows[n].job == j
    ensures n == |rows| ==> forall i :: 0 <= i < |rows| ==> rows[i].package != p || rows[i].job != j
  {
    if rows == [] then 0
    else
      var n := RowOf(rows[..|rows| - 1], p, j);
      if n < |rows| - 1 then n
      else if rows[|rows| - 1].package == p && rows[|rows| - 1].job == j then |rows| - 1
      else |rows|
  }

  /** INSERT ... ON CONFLICT (package_id, job_id) DO UPDATE SET credits = credits + EXCLUDED.credits */
  function Upsert(rows: seq<Allocation>, p: PackageId, j: JobId, c: pos): seq<Allocation> {
    var n := RowOf(rows, p, j);
    if n < |rows| then rows[n := rows[n].(credits := rows[n].credits + c)]
    else rows + [Allocation(p, j, c)]
  }

  /** State of the spending loop: packages, allocations and what is still to be paid. */
  datatype Draw = Draw(packages: seq<Package>, allocations: seq<Allocation>, left: nat)

  /** One pass of the spending loop over package `i`. */
  function DrawOne(d: Draw, i: PackageId, j: JobId): Draw
    requires i < |d.packages|
  {
    var part := Min(d.left, d.packages[i].remaining);
    if part == 0 then d
    else Draw(
      d.packages[i := d.packages[i].(remaining := d.packages[i].remaining - part)],
      Upsert(d.allocations, i, j, part),
      d.left - part)
  }

  function DrawAll(d: Draw, order: seq<PackageId>, j: JobId): (r: Draw)
    requires forall k :: 0 <= k < |order| ==> order[k] < |d.packages|
    ensures |r.packages| == |d.packages|
  {
    if order == [] then d
    else DrawOne(DrawAll(d, order[..|order| - 1], j), order[|order| - 1], j)
  }

  /** What nondeterminism a credit transaction sees: both clocks and the row orders of its queries. */
  datatype Context = Context(at: Instant, wall: Instant, view: StarterView, order: seq<PackageId>)

  function EffectiveCost(job: Job, creditCost: pos): pos {
    if job.cost > 0 then job.cost else creditCost
  }

  function JobLedgerRow(key: LedgerKey, u: UserId, event: LedgerEvent, delta: int, j: JobId, at: Instant): LedgerRow {
    LedgerRow(key, u, event, NoKind, delta, Some(j), at)
  }

  function Balanced(t: Tables, u: UserId, c: Context): (t': Tables)
    ensures t'.jobs == t.jobs && t'.allocations == t.allocations && t'.payments == t.payments
  {
    GetBalance(t, u, c.at, c.wall, c.view)
  }

  /** `ensure_credit_account_state` in a transaction of its own: no package expires, nothing is reconciled. */
  function Ensured(t: Tables, u: UserId, c: Context): (t': Tables)
    ensures t'.jobs == t.jobs && t'.allocations == t.allocations && t'.payments == t.payments
  {
    EnsureAccount(t, u, c.at, c.wall, c.view)
  }

  /** The spending of a job on up-to-date tables. */
  function Spend(t: Tables, u: UserId, j: JobId, cost: pos, at: Instant, order: seq<PackageId>): Result<(nat, Tables)>
    requires forall k :: 0 <= k < |order| ==> order[k] < |t.packages|
    requires j in t.jobs
  {
    var balance := ActiveSum(t.packages, u, at);
    var d := DrawAll(Draw(t.packages, t.allocations, cost), order, j);
    if balance < cost then Err(InsufficientCredits)
    else if d.left != 0 then Err(PackagesOutOfSync)
    else Ok((balance - cost, t.(
      packages := d.packages,
      allocations := d.allocations,
      accounts := WithBalance(t.accounts, u, balance - cost),
      ledger := WithRow(t.ledger, JobLedgerRow(ReserveKey(j), u, JobReserve, Minus(cost), j, at)),
      jobs := t.jobs[j := t.jobs[j].(creditStatus := Reserved, cost := cost)])))
  }

  /** `reserve_job_credit`: the balance returned and the tables on success. An error aborts the
      surrounding transaction, so no tables go with it. */
  function Reserve(t: Tables, u: UserId, j: JobId, creditCost: pos, c: Context): Result<(nat, Tables)>
    requires forall k :: 0 <= k < |c.order| ==> c.order[k] < |Balanced(t, u, c).packages|
  {
    if j !in t.jobs then Err(JobNotFound)
    else
      var t1 := Balanced(t, u, c);
      if Holds(t.jobs[j].creditStatus) then Ok((ActiveSum(t1.packages, u, c.at), t1))
      else if t.jobs[j].creditStatus == Refunded then Err(JobAlreadyRefunded)
      else Spend(t1, u, j, EffectiveCost(t.jobs[j], creditCost), c.at, c.order)
  }

  // ----------------------------------------------------------------- finalize

  /** `finalize_job_credit` */
  function Finalize(t: Tables, u: UserId, j: JobId, c: Context): Result<(nat, Tables)> {
    if j !in t.jobs then Err(JobNotFound)
    else
      var t1 := Balanced(t, u, c);
      var balance := ActiveSum(t1.packages, u, c.at);
      if t.jobs[j].creditStatus != Reserved then Ok((balance, t1))
      else Ok((balance, t1.(
        ledger := WithRow(t1.ledger, JobLedgerRow(FinalizeKey(j), u, JobFinalize, 0, j, c.at)),
        jobs := t1.jobs[j := t1.jobs[j].(creditStatus := Finalized)])))
  }

  // ------------------------------------------------------------------- refund

  /** The refund's UPDATE ... FROM: each allocation row of the job puts its credits back into its
      package, clamped by LEAST, unless the package has expired. */
  function Restore(ps: seq<Package>, rows: seq<Allocation>, j: JobId, at: Instant): (qs: seq<Package>)
    requires forall i :: 0 <= i < |rows| ==> rows[i].package < |ps|
    ensures |qs| == |ps|
  {
    if rows == [] then ps
    else
      var qs := Restore(ps, rows[..|rows| - 1], j, at);
      var a := rows[|rows| - 1];
      if a.job == j && Active(qs[a.package], at)
      then qs[a.package := qs[a.package].(remaining := Min(qs[a.package].granted, qs[a.package].remaining + a.credits))]
      else qs
  }

  /** RETURNING allocation.credits, row by row. */
  function RestoredParts(ps: seq<Package>, rows: seq<Allocation>, j: JobId, at: Instant): (xs: seq<nat>)
    requires forall i :: 0 <= i < |rows| ==> rows[i].package < |ps|
    ensures |xs| == |rows|
    ensures forall i :: 0 <= i < |rows| ==>
      xs[i] == if rows[i].job == j && Active(ps[rows[i].package], at) then rows[i].credits else 0
  {
    seq(|rows|, i requires 0 <= i < |rows| =>
      if rows[i].job == j && Active(ps[rows[i].package], at) then rows[i].credits else 0)
  }

  /** Credits a refund of `j` puts back into packages at instant `at`. */
  function Restorable(ps: seq<Package>, rows: seq<Allocation>, j: JobId, at: Instant): nat
    requires forall i :: 0 <= i < |rows| ==> rows[i].package < |ps|
  {
    Total(RestoredParts(ps, rows, j, at))
  }

  function RefundCost(job: Job): pos {
    if job.cost > 0 then job.cost else JOB_CREDIT_COST
  }

  predicate RowsInTable(rows: seq<Allocation>, n: nat) {
    forall i :: 0 <= i < |rows| ==> rows[i].package < n
  }

  /** Packages after the UPDATE and, if nothing could be restored, the compensation package. */
  function RefundedPackages(t: Tables, u: UserId, j: JobId, cost: pos, c: Context): seq<Package>
    requires RowsInTable(t.allocations, |t.packages|)
  {
    var ps := Restore(t.packages, t.allocations, j, c.at);
    if Restorable(t.packages, t.allocations, j, c.at) == 0
    then WithPackage(ps, NewPackage(u, Source.Refund, cost, Some(c.wall + PURCHASE_GRANT_TTL), RefundPackage(j), c.at))
    else ps
  }

  function RefundAmount(t: Tables, j: JobId, cost: pos, at: Instant): pos
    requires RowsInTable(t.allocations, |t.packages|)
  {
    var restored := Restorable(t.packages, t.allocations, j, at);
    if restored == 0 then cost else restored
  }

  /** The refund of a reserved job, once balance and packages are up to date. */
  function RefundReserved(t: Tables, u: UserId, j: JobId, cost: pos, c: Context): (nat, Tables)
    requires RowsInTable(t.allocations, |t.packages|) && j in t.jobs
  {
    var amount := RefundAmount(t, j, cost, c.at);
    var balance := ActiveSum(t.packages, u, c.at) + amount;
    (balance, t.(
      packages := RefundedPackages(t, u, j, cost, c),
      accounts := WithBalance(t.accounts, u, balance),
      ledger := WithRow(t.ledger, JobLedgerRow(RefundKey(j), u, JobRefund, amount, j, c.at)),
      jobs := t.jobs[j := t.jobs[j].(creditStatus := Refunded)]))
  }

  /** `refund_job_credit`: into the packages that paid, or, when all of them have expired, as a new package. */
  function RefundJob(t: Tables, u: UserId, j: JobId, c: Context): Result<(nat, Tables)>
    requires RowsInTable(t.allocations, |Balanced(t, u, c).packages|)
  {
    if j !in t.jobs then Err(JobNotFound)
    else
      var t1 := Balanced(t, u, c);
      if t.jobs[j].creditStatus != Reserved then Ok((ActiveSum(t1.packages, u, c.at), t1))
      else Ok(RefundReserved(t1, u, j, RefundCost(t.jobs[j]), c))
  }
}
