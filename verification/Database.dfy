/** The tables as mutable state, and the queries whose row order the database chooses. */
module Database {
  import opened Tables
  import opened CreditRules

  class Database {
    var packages: seq<Package>
    var accounts: map<UserId, Account>
    var ledger: map<LedgerKey, LedgerRow>
    var allocations: seq<Allocation>
    var jobs: map<JobId, Job>
    var payments: map<InvoiceId, Payment>

    constructor (t: Tables)
      ensures Snapshot() == t
    {
      packages, accounts, ledger := t.packages, t.accounts, t.ledger;
      allocations, jobs, payments := t.allocations, t.jobs, t.payments;
    }

    function Snapshot(): Tables
      reads this
    {
      Tables(packages, accounts, ledger, allocations, jobs, payments)
    }

    /** ROLLBACK of a transaction that started in `t`. */
    method Rollback(t: Tables)
      modifies this
      ensures Snapshot() == t
    {
      packages, accounts, ledger := t.packages, t.accounts, t.ledger;
      allocations, jobs, payments := t.allocations, t.jobs, t.payments;
    }

    /** SELECT ... WHERE remaining_credits > 0 AND <active> ORDER BY expires_at NULLS LAST, created_at */
    method SelectSpendable(u: UserId, at: Instant) returns (rows: seq<PackageId>)
      ensures IsFifoOrder(packages, u, at, rows)
    {
      rows := [];
      for i := 0 to |packages|
        invariant InFifoOrder(packages, rows)
        invariant forall k: PackageId :: k in rows <==> k < i && Spendable(packages[k], u, at)
      {
        if Spendable(packages[i], u, at) {
          rows := InsertByExpiry(packages, rows, i);
        }
      }
      assert forall k :: 0 <= k < |rows| ==> rows[k] in rows;
      assert forall k, l :: 0 <= k < l < |rows| ==> FifoBefore(packages)(rows[k], rows[l]);
    }

    /** SELECT ... WHERE remaining_credits > 0 AND expires_at <= now ORDER BY expires_at NULLS LAST, created_at */
    method SelectDue(u: UserId, at: Instant) returns (rows: seq<PackageId>)
      ensures IsListOf(packages, u, at, rows)
    {
      rows := [];
      for i := 0 to |packages|
        invariant InFifoOrder(packages, rows)
        invariant forall k: PackageId :: k in rows <==> k < i && Due(packages[k], u, at)
      {
        if Due(packages[i], u, at) {
          rows := InsertByExpiry(packages, rows, i);
        }
      }
      assert forall k :: 0 <= k < |rows| ==> rows[k] in rows;
      assert forall k, l :: 0 <= k < l < |rows| ==> FifoBefore(packages)(rows[k], rows[l]);
    }

    /** SELECT ... FROM credit_ledger WHERE user_id = u ORDER BY created_at */
    method SelectLedger(u: UserId) returns (rows: seq<LedgerRow>)
      requires LedgerKeyed(ledger)
      ensures IsListing(ledger, u, rows)
    {
      rows := [];
      var keys := set k | k in ledger && ledger[k].owner == u;
      while keys != {}
        invariant keys <= ledger.Keys && forall k :: k in keys ==> ledger[k].owner == u
        invariant Pairwise(rows, CreatedBefore())
        invariant forall r :: r in rows ==> r.key in ledger && r.key !in keys && ledger[r.key] == r && r.owner == u
        invariant forall k :: k in ledger && ledger[k].owner == u && k !in keys ==> ledger[k] in rows
        decreases keys
      {
        var k :| k in keys;
        keys := keys - {k};
        rows := InsertByCreation(rows, ledger[k]);
      }
      assert forall i :: 0 <= i < |rows| ==> rows[i] in rows;
      assert forall i, j :: 0 <= i < j < |rows| ==> CreatedBefore()(rows[i], rows[j]);
    }
  }

  /** `rows` lists the due packages, each once. */
  ghost predicate IsListOf(ps: seq<Package>, u: UserId, at: Instant, rows: seq<PackageId>) {
    && (forall k :: 0 <= k < |rows| ==> rows[k] < |ps| && Due(ps[rows[k]], u, at))
    && (forall i: PackageId :: i < |ps| && Due(ps[i], u, at) ==> i in rows)
    && (forall k, l :: 0 <= k < l < |rows| ==> rows[k] != rows[l])
  }

  ghost predicate Pairwise<T(!new)>(xs: seq<T>, before: (T, T) -> bool) {
    forall i, j :: 0 <= i < j < |xs| ==> before(xs[i], xs[j])
  }

  function Inserted<T>(xs: seq<T>, n: nat, x: T): (ys: seq<T>)
    requires n <= |xs|
    ensures |ys| == |xs| + 1 && ys[n] == x
    ensures forall i :: 0 <= i < n ==> ys[i] == xs[i]
    ensures forall i :: n < i < |ys| ==> ys[i] == xs[i - 1]
  {
    xs[..n] + [x] + xs[n..]
  }

  lemma InsertedMembers<T>(xs: seq<T>, n: nat, x: T, y: T)
    requires n <= |xs|
    ensures y in Inserted(xs, n, x) <==> y == x || y in xs
  {
    var ys := Inserted(xs, n, x);
    if y in xs {
      var i :| 0 <= i < |xs| && xs[i] == y;
      assert ys[if i < n then i else i + 1] == y;
    }
  }

  /** An insertion after everything that must precede `x` and before everything it must precede. */
  lemma InsertedPairwise<T(!new)>(xs: seq<T>, n: nat, x: T, before: (T, T) -> bool)
    requires n <= |xs| && Pairwise(xs, before)
    requires forall i :: 0 <= i < n ==> before(xs[i], x)
    requires forall i :: n <= i < |xs| ==> before(x, xs[i])
    ensures Pairwise(Inserted(xs, n, x), before)
  {
  }

  function FifoBefore(ps: seq<Package>): (PackageId, PackageId) -> bool {
    (k: PackageId, l: PackageId) => k < |ps| && l < |ps| && k != l && NotAfter(ps[k], ps[l])
  }

  ghost predicate InFifoOrder(ps: seq<Package>, rows: seq<PackageId>) {
    (forall k :: 0 <= k < |rows| ==> rows[k] < |ps|) && Pairwise(rows, FifoBefore(ps))
  }

  function CreatedBefore(): (LedgerRow, LedgerRow) -> bool {
    (r: LedgerRow, s: LedgerRow) => r.key != s.key && r.created <= s.created
  }

  method InsertByExpiry(ps: seq<Package>, rows: seq<PackageId>, i: PackageId) returns (rows': seq<PackageId>)
    requires InFifoOrder(ps, rows) && i < |ps| && i !in rows
    ensures InFifoOrder(ps, rows')
    ensures forall k: PackageId :: k in rows' <==> k == i || k in rows
  {
    var n := 0;
    while n < |rows| && NotAfter(ps[rows[n]], ps[i])
      invariant n <= |rows|
      invariant forall k :: 0 <= k < n ==> FifoBefore(ps)(rows[k], i)
    {
      n := n + 1;
    }
    forall k | n <= k < |rows| ensures FifoBefore(ps)(i, rows[k]) {
      assert k == n || FifoBefore(ps)(rows[n], rows[k]);
    }
    InsertedPairwise(rows, n, i, FifoBefore(ps));
    rows' := Inserted(rows, n, i);
    forall k: PackageId ensures k in rows' <==> k == i || k in rows { InsertedMembers(rows, n, i, k); }
  }

  method InsertByCreation(rows: seq<LedgerRow>, r: LedgerRow) returns (rows': seq<LedgerRow>)
    requires Pairwise(rows, CreatedBefore()) && forall s :: s in rows ==> s.key != r.key
    ensures Pairwise(rows', CreatedBefore())
    ensures forall s :: s in rows' <==> s == r || s in rows
  {
    var n := 0;
    while n < |rows| && rows[n].created <= r.created
      invariant n <= |rows|
      invariant forall i :: 0 <= i < n ==> rows[i].created <= r.created
    {
      n := n + 1;
    }
    forall i | n <= i < |rows| ensures CreatedBefore()(r, rows[i]) {
      assert rows[i] in rows;
      assert i == n || CreatedBefore()(rows[n], rows[i]);
    }
    forall i | 0 <= i < n ensures CreatedBefore()(rows[i], r) {
      assert rows[i] in rows;
    }
    InsertedPairwise(rows, n, r, CreatedBefore());
    rows' := Inserted(rows, n, r);
    forall s ensures s in rows' <==> s == r || s in rows { InsertedMembers(rows, n, r, s); }
  }
}
