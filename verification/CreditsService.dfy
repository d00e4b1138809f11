/** The credit operations as they run: loops over queried rows, one table update after another.
    Each is proved to compute the function of `CreditRules` that carries its name. */
module CreditsService {
  import opened Sums
  import opened Tables
  import opened StarterReplay
  import opened CreditRules
  import opened CreditFacts
  import opened DrawFacts
  import opened Database

  method CreateCreditPackage(db: Database, u: UserId, source: Source, credits: pos,
                             expires: Option<Instant>, key: PackageKey, at: Instant)
    modifies db
    ensures db.Snapshot() == old(db.Snapshot()).(
      packages := WithPackage(old(db.packages), NewPackage(u, source, credits, expires, key, at)))
  {
    if !HasKey(db.packages, key) {
      db.packages := db.packages + [NewPackage(u, source, credits, expires, key, at)];
    }
  }

  method InsertLedgerRow(db: Database, r: LedgerRow) returns (inserted: bool)
    modifies db`ledger
    ensures db.ledger == WithRow(old(db.ledger), r)
    ensures inserted == (r.key !in old(db.ledger))
  {
    inserted := r.key !in db.ledger;
    if inserted {
      db.ledger := db.ledger[r.key := r];
    }
  }

  method SetBalance(db: Database, u: UserId, balance: nat)
    modifies db`accounts
    ensures db.accounts == WithBalance(old(db.accounts), u, balance)
  {
    if u in db.accounts {
      db.accounts := db.accounts[u := db.accounts[u].(balance := balance)];
    }
  }

  /** Rows `ids` of `ps` emptied. */
  predicate EmptiedAt(ps: seq<Package>, qs: seq<Package>, ids: seq<PackageId>) {
    |qs| == |ps| && forall i: PackageId :: i < |ps| ==> qs[i] == if i in ids then ps[i].(remaining := 0) else ps[i]
  }

  function RowsFor(ps: seq<Package>, ids: seq<PackageId>, u: UserId, at: Instant): map<LedgerKey, LedgerRow> {
    map i: PackageId | i in ids && i < |ps| :: PackageExpireKey(i) := ExpirationRow(ps, i, u, at)
  }

  lemma ExpirationsComplete(ps: seq<Package>, qs: seq<Package>, rows: seq<PackageId>, u: UserId, at: Instant)
    requires IsListOf(ps, u, at, rows) && EmptiedAt(ps, qs, rows)
    ensures qs == Emptied(ps, u, at) && RowsFor(ps, rows, u, at) == ExpirationRows(ps, u, at)
  {
    assert forall i: PackageId :: i < |ps| ==> (i in rows <==> Due(ps[i], u, at));
  }

  function Remainings(ps: seq<Package>, rows: seq<PackageId>): (xs: seq<nat>)
    requires forall k :: 0 <= k < |rows| ==> rows[k] < |ps|
    ensures |xs| == |rows| && forall k :: 0 <= k < |rows| ==> xs[k] == ps[rows[k]].remaining
  {
    seq(|rows|, k requires 0 <= k < |rows| => ps[rows[k]].remaining)
  }

  lemma DueAddsUp(ps: seq<Package>, rows: seq<PackageId>, u: UserId, at: Instant)
    requires IsListOf(ps, u, at, rows)
    ensures Total(Remainings(ps, rows)) == Total(DueAmounts(ps, u, at))
  {
    PickCovers(DueAmounts(ps, u, at), rows);
    assert Pick(DueAmounts(ps, u, at), rows) == Remainings(ps, rows);
  }

  /** sum(row["remaining_credits"] for row in rows) */
  method SumRemaining(ps: seq<Package>, rows: seq<PackageId>) returns (sum: nat)
    requires forall k :: 0 <= k < |rows| ==> rows[k] < |ps|
    ensures sum == Total(Remainings(ps, rows))
  {
    sum := 0;
    for k := 0 to |rows|
      invariant sum == Total(Remainings(ps, rows)[..k])
    {
      assert Remainings(ps, rows)[..k + 1] == Remainings(ps, rows)[..k] + [ps[rows[k]].remaining];
      TotalAppend(Remainings(ps, rows)[..k], ps[rows[k]].remaining);
      sum := sum + ps[rows[k]].remaining;
    }
    assert Remainings(ps, rows)[..|rows|] == Remainings(ps, rows);
  }

  lemma OneMoreEmptied(ps: seq<Package>, qs: seq<Package>, rows: seq<PackageId>, k: nat)
    requires k < |rows| && rows[k] < |ps| && rows[k] !in rows[..k] && EmptiedAt(ps, qs, rows[..k])
    ensures qs[rows[k]] == ps[rows[k]]
    ensures EmptiedAt(ps, qs[rows[k] := qs[rows[k]].(remaining := 0)], rows[..k + 1])
  {
    assert rows[..k + 1] == rows[..k] + [rows[k]];
  }

  lemma OneMoreRow(ps: seq<Package>, rows: seq<PackageId>, k: nat, u: UserId, at: Instant, l: map<LedgerKey, LedgerRow>)
    requires k < |rows| && rows[k] < |ps| && rows[k] !in rows[..k]
    ensures WithRow(RowsFor(ps, rows[..k], u, at) + l, ExpirationRow(ps, rows[k], u, at))
         == RowsFor(ps, rows[..k + 1], u, at) + l
  {
    assert rows[..k + 1] == rows[..k] + [rows[k]];
  }

  method EmptyPackages(db: Database, rows: seq<PackageId>, u: UserId, at: Instant)
    requires forall k :: 0 <= k < |rows| ==> rows[k] < |db.packages|
    requires forall k, l :: 0 <= k < l < |rows| ==> rows[k] != rows[l]
    modifies db`packages, db`ledger
    ensures EmptiedAt(old(db.packages), db.packages, rows)
    ensures db.ledger == RowsFor(old(db.packages), rows, u, at) + old(db.ledger)
  {
    ghost var ps, ledger := db.packages, db.ledger;
    for k := 0 to |rows|
      invariant EmptiedAt(ps, db.packages, rows[..k])
      invariant db.ledger == RowsFor(ps, rows[..k], u, at) + ledger
    {
      OneMoreEmptied(ps, db.packages, rows, k);
      OneMoreRow(ps, rows, k, u, at, ledger);
      var i := rows[k];
      var remaining := db.packages[i].remaining;
      db.packages := db.packages[i := db.packages[i].(remaining := 0)];
      var _ := InsertLedgerRow(db,
        LedgerRow(PackageExpireKey(i), u, Expiration, NoKind, Minus(remaining), None, at));
    }
    assert rows[..|rows|] == rows;
  }

  method ExpireCreditPackages(db: Database, u: UserId, at: Instant) returns (expired: nat)
    modifies db
    ensures db.Snapshot() == Expire(old(db.Snapshot()), u, at)
    ensures expired == Total(DueAmounts(old(db.packages), u, at))
  {
    var rows := db.SelectDue(u, at);
    expired := SumRemaining(db.packages, rows);
    DueAddsUp(db.packages, rows, u, at);
    if expired == 0 {
      return;
    }
    EmptyPackages(db, rows, u, at);
    ExpirationsComplete(old(db.packages), db.packages, rows, u, at);
    if u in db.accounts {
      SetBalance(db, u, Max(0, db.accounts[u].balance - expired));
    }
  }

  // ------------------------------------------------------------ starter grant

  /** The first starter row of a listing is an earliest one. */
  method FirstStarterRow(rows: seq<LedgerRow>, u: UserId, ghost ledger: map<LedgerKey, LedgerRow>)
    returns (first: Option<LedgerRow>)
    requires IsListing(ledger, u, rows) && LedgerKeyed(ledger)
    ensures IsEarliestStarter(ledger, u, first)
  {
    for i := 0 to |rows|
      invariant forall k :: 0 <= k < i ==> !IsStarterRow(rows[k], u)
    {
      if IsStarterRow(rows[i], u) {
        return Some(rows[i]);
      }
    }
    return None;
  }

  /** `_expire_starter_grant_if_due`. Its two SELECTs have no effect, so they are asked up front. */
  method ExpireStarterGrantIfDue(db: Database, u: UserId, balance: nat, at: Instant, wall: Instant)
    returns (balanceAfter: nat, ghost view: StarterView)
    requires LedgerKeyed(db.ledger) && u in db.accounts && balance == db.accounts[u].balance
    modifies db
    ensures ValidView(old(db.ledger), u, view)
    ensures db.Snapshot() == ExpireStarter(old(db.Snapshot()), u, at, wall, view)
    ensures u in db.accounts && db.accounts[u].balance == balanceAfter
  {
    var listing := db.SelectLedger(u);
    var starter := FirstStarterRow(listing, u, db.ledger);
    view := StarterView(starter, listing);
    if starter.None? || starter.value.created + STARTER_GRANT_TTL > wall {
      return balance, view;
    }
    if HasLegacyPackage(db.packages, u) || HasStarterExpiration(db.ledger, u) {
      return balance, view;
    }
    var left := CalculateRemainingStarterCredits(listing, u, starter.value.delta);
    var toExpire := Min(balance, left);
    if toExpire <= 0 {
      return balance, view;
    }
    balanceAfter := balance - toExpire;
    var inserted := InsertLedgerRow(db, StarterExpirationRow(u, toExpire, at));
    if !inserted {
      return balance, view;
    }
    SetBalance(db, u, balanceAfter);
  }

  /** `ensure_credit_account_state` */
  method EnsureCreditAccountState(db: Database, u: UserId, at: Instant, wall: Instant)
    returns (balance: nat, grantedNow: bool, ghost view: StarterView)
    requires LedgerKeyed(db.ledger)
    modifies db
    ensures ValidView(old(db.ledger), u, view)
    ensures db.Snapshot() == EnsureAccount(old(db.Snapshot()), u, at, wall, view)
    ensures grantedNow == NeverGranted(old(db.Snapshot()), u)
    ensures u in db.accounts && balance == db.accounts[u].balance
  {
    db.accounts := WithAccount(db.accounts, u);
    var trialUsedAt := db.accounts[u].trialUsedAt;
    balance, view := ExpireStarterGrantIfDue(db, u, db.accounts[u].balance, at, wall);
    assert HasStarterRow(db.ledger, u) == HasStarterRow(old(db.ledger), u) by {
      StarterRowsStay(old(db.ledger), db.ledger, u);
    }
    if trialUsedAt.Some? || HasStarterRow(db.ledger, u) {
      return balance, false, view;
    }
    balance := balance + STARTER_GRANT_CREDITS;
    db.accounts := db.accounts[u := Account(balance, Some(at))];
    var _ := InsertLedgerRow(db, StarterGrantRow(u, at));
    CreateCreditPackage(db, u, StarterGrant, STARTER_GRANT_CREDITS, Some(wall + STARTER_GRANT_TTL),
                        StarterPackage(u), at);
    grantedNow := true;
  }

  /** An expiration row is no starter row. */
  lemma StarterRowsStay(l: map<LedgerKey, LedgerRow>, l': map<LedgerKey, LedgerRow>, u: UserId)
    requires l' == l || exists k: nat, at: Instant :: StarterExpireKey(u) !in l && l' == l[StarterExpireKey(u) := StarterExpirationRow(u, k, at)]
    ensures HasStarterRow(l', u) == HasStarterRow(l, u)
  {
    if HasStarterRow(l, u) {
      var k :| k in l && IsStarterRow(l[k], u);
      assert k in l' && IsStarterRow(l'[k], u);
    }
  }

  // ------------------------------------------------------------------ balance

  method ReconcileCreditAccountBalance(db: Database, u: UserId, at: Instant) returns (balance: nat)
    modifies db`accounts
    ensures db.Snapshot() == Reconcile(old(db.Snapshot()), u, at)
    ensures balance == ActiveSum(db.packages, u, at)
  {
    balance := ActiveSum(db.packages, u, at);
    SetBalance(db, u, balance);
  }

  method GetUserBalance(db: Database, u: UserId, at: Instant, wall: Instant)
    returns (balance: nat, ghost view: StarterView)
    requires LedgerKeyed(db.ledger)
    modifies db
    ensures ValidView(old(db.ledger), u, view)
    ensures db.Snapshot() == GetBalance(old(db.Snapshot()), u, at, wall, view)
    ensures balance == ActiveSum(db.packages, u, at)
    ensures u in db.accounts && db.accounts[u].balance == balance
  {
    var cached, _, v := EnsureCreditAccountState(db, u, at, wall);
    view := v;
    var _ := ExpireCreditPackages(db, u, at);
    balance := ReconcileCreditAccountBalance(db, u, at);
    GetBalanceShape(old(db.Snapshot()), u, at, wall, view);
  }

  // ------------------------------------------------------------------ reserve

  /** The spending loop: oldest-ending package first until the cost is paid. */
  method SpendPackages(db: Database, order: seq<PackageId>, j: JobId, cost: pos) returns (left: nat)
    requires InTable(order, |db.packages|)
    modifies db`packages, db`allocations
    ensures var d := DrawAll(Draw(old(db.packages), old(db.allocations), cost), order, j);
      db.packages == d.packages && db.allocations == d.allocations && left == d.left
  {
    ghost var start := Draw(db.packages, db.allocations, cost);
    left := cost;
    for k := 0 to |order|
      invariant |db.packages| == |start.packages|
      invariant Draw(db.packages, db.allocations, left) == DrawAll(start, order[..k], j)
    {
      assert order[..k + 1][..k] == order[..k];
      var i := order[k];
      var part := Min(left, db.packages[i].remaining);
      if part == 0 {
        continue;
      }
      db.packages := db.packages[i := db.packages[i].(remaining := db.packages[i].remaining - part)];
      db.allocations := Upsert(db.allocations, i, j, part);
      left := left - part;
    }
    assert order[..|order|] == order;
  }

  method SpendOnJob(db: Database, u: UserId, j: JobId, cost: pos, balance: nat, at: Instant)
    returns (r: Result<nat>, ghost order: seq<PackageId>)
    requires j in db.jobs && balance == ActiveSum(db.packages, u, at)
    modifies db
    ensures InTable(order, |old(db.packages)|)
    ensures match Spend(old(db.Snapshot()), u, j, cost, at, order)
            case Err(e) => r == Err(e)
            case Ok(v) => r == Ok(v.0) && db.Snapshot() == v.1
    ensures r.Ok? ==> IsFifoOrder(old(db.packages), u, at, order)
  {
    order := [];
    if balance < cost {
      return Err(InsufficientCredits), order;
    }
    var rows := db.SelectSpendable(u, at);
    order := rows;
    var left := SpendPackages(db, rows, j, cost);
    if left != 0 {
      return Err(PackagesOutOfSync), order;
    }
    SetBalance(db, u, balance - cost);
    var _ := InsertLedgerRow(db, JobLedgerRow(ReserveKey(j), u, JobReserve, Minus(cost), j, at));
    db.jobs := db.jobs[j := db.jobs[j].(creditStatus := Reserved, cost := cost)];
    r := Ok(balance - cost);
  }

  /** `reserve_job_credit`. On an error the caller's transaction rolls the tables back. */
  method ReserveJobCredit(db: Database, u: UserId, j: JobId, creditCost: pos, at: Instant, wall: Instant)
    returns (r: Result<nat>, ghost c: Context)
    requires LedgerKeyed(db.ledger)
    modifies db
    ensures c.at == at && c.wall == wall && InTable(c.order, |Balanced(old(db.Snapshot()), u, c).packages|)
    ensures match Reserve(old(db.Snapshot()), u, j, creditCost, c)
            case Err(e) => r == Err(e)
            case Ok(v) => r == Ok(v.0) && db.Snapshot() == v.1
    ensures r.Ok? ==> j in old(db.jobs) && ValidView(old(db.ledger), u, c.view)
    ensures r.Ok? && old(db.jobs)[j].creditStatus == NotCharged ==>
      IsFifoOrder(Balanced(old(db.Snapshot()), u, c).packages, u, at, c.order)
  {
    c := Context(at, wall, StarterView(None, []), []);
    if j !in db.jobs {
      return Err(JobNotFound), c;
    }
    var status := db.jobs[j].creditStatus;
    if status == Refunded {
      return Err(JobAlreadyRefunded), c;
    }
    var balance, view := GetUserBalance(db, u, at, wall);
    c := Context(at, wall, view, []);
    assert db.Snapshot() == Balanced(old(db.Snapshot()), u, c);
    assert db.jobs == db.Snapshot().jobs;
    if Holds(status) {
      return Ok(balance), c;
    }
    ghost var order;
    r, order := SpendOnJob(db, u, j, EffectiveCost(db.jobs[j], creditCost), balance, at);
    c := Context(at, wall, view, order);
  }

  // ------------------------------------------------------- finalize and refund

  /** `finalize_job_credit` */
  method FinalizeJobCredit(db: Database, u: UserId, j: JobId, at: Instant, wall: Instant)
    returns (r: Result<nat>, ghost c: Context)
    requires LedgerKeyed(db.ledger)
    modifies db
    ensures c.at == at && c.wall == wall
    ensures match Finalize(old(db.Snapshot()), u, j, c)
            case Err(e) => r == Err(e)
            case Ok(v) => r == Ok(v.0) && db.Snapshot() == v.1
    ensures r.Ok? ==> j in old(db.jobs) && ValidView(old(db.ledger), u, c.view)
  {
    c := Context(at, wall, StarterView(None, []), []);
    if j !in db.jobs {
      return Err(JobNotFound), c;
    }
    var status := db.jobs[j].creditStatus;
    var balance, view := GetUserBalance(db, u, at, wall);
    c := Context(at, wall, view, []);
    assert db.jobs == db.Snapshot().jobs;
    if status == Reserved {
      var _ := InsertLedgerRow(db, JobLedgerRow(FinalizeKey(j), u, JobFinalize, 0, j, at));
      db.jobs := db.jobs[j := db.jobs[j].(creditStatus := Finalized)];
    }
    r := Ok(balance);
  }

  /** The refund's writes, once the balance is up to date. */
  method RefundReservedJob(db: Database, u: UserId, j: JobId, cost: pos, balance: nat, at: Instant, wall: Instant)
    returns (balanceAfter: nat)
    requires j in db.jobs && balance == ActiveSum(db.packages, u, at)
    requires RowsInTable(db.allocations, |db.packages|)
    modifies db
    ensures forall c: Context :: c.at == at && c.wall == wall ==>
      (balanceAfter, db.Snapshot()) == RefundReserved(old(db.Snapshot()), u, j, cost, c)
  {
    var restored: nat := Restorable(db.packages, db.allocations, j, at);
    db.packages := Restore(db.packages, db.allocations, j, at);
    if restored == 0 {
      CreateCreditPackage(db, u, Source.Refund, cost, Some(wall + PURCHASE_GRANT_TTL), RefundPackage(j), at);
      restored := cost;
    }
    balanceAfter := balance + restored;
    SetBalance(db, u, balanceAfter);
    var _ := InsertLedgerRow(db, JobLedgerRow(RefundKey(j), u, JobRefund, restored, j, at));
    db.jobs := db.jobs[j := db.jobs[j].(creditStatus := Refunded)];
  }

  /** `refund_job_credit` */
  method RefundJobCredit(db: Database, u: UserId, j: JobId, at: Instant, wall: Instant)
    returns (r: Result<nat>, ghost c: Context)
    requires LedgerKeyed(db.ledger) && RowsInTable(db.allocations, |db.packages|)
    modifies db
    ensures c.at == at && c.wall == wall
    ensures RowsInTable(old(db.allocations), |Balanced(old(db.Snapshot()), u, c).packages|)
    ensures match RefundJob(old(db.Snapshot()), u, j, c)
            case Err(e) => r == Err(e)
            case Ok(v) => r == Ok(v.0) && db.Snapshot() == v.1
    ensures r.Ok? ==> j in old(db.jobs) && ValidView(old(db.ledger), u, c.view)
  {
    c := Context(at, wall, StarterView(None, []), []);
    GetBalancePackages(db.Snapshot(), u, at, wall, c.view);
    if j !in db.jobs {
      return Err(JobNotFound), c;
    }
    var balance, view := GetUserBalance(db, u, at, wall);
    c := Context(at, wall, view, []);
    GetBalancePackages(old(db.Snapshot()), u, at, wall, view);
    assert db.Snapshot() == Balanced(old(db.Snapshot()), u, c);
    assert db.jobs == db.Snapshot().jobs && db.allocations == db.Snapshot().allocations;
    if db.jobs[j].creditStatus == Reserved {
      balance := RefundReservedJob(db, u, j, RefundCost(db.jobs[j]), balance, at, wall);
    }
    r := Ok(balance);
  }
}
