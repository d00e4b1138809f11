/** The spending loop of `reserve_job_credit`: what it takes, from where, and what it leaves usable
    at every later instant. */
module DrawFacts {
  import opened Sums
  import opened Tables
  import opened CreditRules

  predicate InTable(order: seq<PackageId>, n: nat) {
    forall k :: 0 <= k < |order| ==> order[k] < n
  }

  // ------------------------------------------------------------------ upserts

  lemma UpsertFacts(rows: seq<Allocation>, p: PackageId, j: JobId, c: pos, q: PackageId, held: set<JobId>, k: JobId)
    ensures var rows' := Upsert(rows, p, j, c);
      && AllocatedOn(rows', q, held) == AllocatedOn(rows, q, held) + (if q == p && j in held then c else 0)
      && AllocatedTo(rows', k) == AllocatedTo(rows, k) + (if k == j then c else 0)
  {
    var n := RowOf(rows, p, j);
    if n < |rows| {
      AllocatedUpdate(rows, n, c, q, held, k);
    } else {
      AllocatedAppend(rows, Allocation(p, j, c), q, held, k);
    }
  }

  lemma UpsertKeepsUnique(rows: seq<Allocation>, p: PackageId, j: JobId, c: pos)
    requires AllocationsUnique(rows)
    ensures AllocationsUnique(Upsert(rows, p, j, c))
  {
  }

  // -------------------------------------------------------------- row by row

  /** Nothing but `remaining` changes, and only downwards. */
  predicate OnlySpends(ps: seq<Package>, qs: seq<Package>) {
    && |qs| == |ps|
    && forall i :: 0 <= i < |ps| ==>
         qs[i].remaining <= ps[i].remaining && qs[i] == ps[i].(remaining := qs[i].remaining)
  }

  predicate RowsFrom(rows: seq<Allocation>, rows': seq<Allocation>, order: seq<PackageId>, j: JobId) {
    && |rows| <= |rows'|
    && (forall i :: 0 <= i < |rows| ==> rows'[i].package == rows[i].package && rows'[i].job == rows[i].job)
    && (forall i :: |rows| <= i < |rows'| ==> rows'[i].job == j && rows'[i].package in order)
  }

  lemma {:induction false} DrawShape(d: Draw, order: seq<PackageId>, j: JobId)
    requires InTable(order, |d.packages|)
    ensures var r := DrawAll(d, order, j);
      && OnlySpends(d.packages, r.packages)
      && RowsFrom(d.allocations, r.allocations, order, j)
      && r.left <= d.left
      && (AllocationsUnique(d.allocations) ==> AllocationsUnique(r.allocations))
      && forall i :: 0 <= i < |d.packages| && i !in order ==> r.packages[i] == d.packages[i]
  {
    if order != [] {
      var init := order[..|order| - 1];
      DrawShape(d, init, j);
      var m := DrawAll(d, init, j);
      if Min(m.left, m.packages[order[|order| - 1]].remaining) != 0 && AllocationsUnique(m.allocations) {
        UpsertKeepsUnique(m.allocations, order[|order| - 1], j, Min(m.left, m.packages[order[|order| - 1]].remaining));
      }
    }
  }

  /** What leaves a package is what the job's allocation on it gains, and the job's allocations
      gain together what the loop has paid; every other job's allocations stay as they were. */
  lemma {:induction false} DrawMovesCredits(
      d: Draw, order: seq<PackageId>, j: JobId, p: PackageId, others: set<JobId>, k: JobId)
    requires InTable(order, |d.packages|)
    requires p < |d.packages| && j !in others && k != j
    ensures var r := DrawAll(d, order, j);
      && r.left <= d.left
      && r.packages[p].remaining + AllocatedOn(r.allocations, p, {j})
           == d.packages[p].remaining + AllocatedOn(d.allocations, p, {j})
      && AllocatedOn(r.allocations, p, others) == AllocatedOn(d.allocations, p, others)
      && AllocatedTo(r.allocations, j) == AllocatedTo(d.allocations, j) + d.left - r.left
      && AllocatedTo(r.allocations, k) == AllocatedTo(d.allocations, k)
  {
    if order != [] {
      var init := order[..|order| - 1];
      DrawMovesCredits(d, init, j, p, others, k);
      var m := DrawAll(d, init, j);
      var last := order[|order| - 1];
      var part := Min(m.left, m.packages[last].remaining);
      if part != 0 {
        UpsertFacts(m.allocations, last, j, part, p, {j}, j);
        UpsertFacts(m.allocations, last, j, part, p, others, k);
      }
    }
  }

  // ------------------------------------------------- what the order adds up to

  function OrderSum(ps: seq<Package>, order: seq<PackageId>, u: UserId, at: Instant): nat
    requires InTable(order, |ps|)
  {
    Total(Pick(Shares(ps, u, at), order))
  }

  predicate Distinct(order: seq<PackageId>) {
    forall k, l :: 0 <= k < l < |order| ==> order[k] != order[l]
  }

  lemma OrderSumStep(ps: seq<Package>, order: seq<PackageId>, u: UserId, at: Instant)
    requires order != [] && InTable(order, |ps|)
    ensures OrderSum(ps, order, u, at)
         == OrderSum(ps, order[..|order| - 1], u, at) + Share(ps[order[|order| - 1]], u, at)
  {
    var n := |order| - 1;
    assert Pick(Shares(ps, u, at), order)[..n] == Pick(Shares(ps, u, at), order[..n]);
  }

  predicate Spendables(ps: seq<Package>, order: seq<PackageId>, u: UserId, at: Instant) {
    InTable(order, |ps|) && forall k :: 0 <= k < |order| ==> Spendable(ps[order[k]], u, at)
  }

  predicate Sorted(ps: seq<Package>, order: seq<PackageId>)
    requires InTable(order, |ps|)
  {
    forall k, l :: 0 <= k < l < |order| ==> NotAfter(ps[order[k]], ps[order[l]])
  }

  /** What the loop still owes after `order`. */
  lemma {:induction false} DrawLeft(d: Draw, order: seq<PackageId>, j: JobId, u: UserId, at: Instant)
    requires Spendables(d.packages, order, u, at) && Distinct(order)
    ensures DrawAll(d, order, j).left == d.left - Min(d.left, OrderSum(d.packages, order, u, at))
  {
    if order != [] {
      var n := |order| - 1;
      DrawLeft(d, order[..n], j, u, at);
      DrawShape(d, order[..n], j);
      OrderSumStep(d.packages, order, u, at);
      assert DrawAll(d, order[..n], j).packages[order[n]] == d.packages[order[n]];
    }
  }

  /** Everything before a package that ends by `x` ends by `x` as well. */
  lemma NoTailBefore(ps: seq<Package>, order: seq<PackageId>, u: UserId, x: Instant)
    requires order != [] && InTable(order, |ps|) && Sorted(ps, order)
    requires !Active(ps[order[|order| - 1]], x)
    ensures OrderSum(ps, order[..|order| - 1], u, x) == 0
  {
    var init := order[..|order| - 1];
    forall k | 0 <= k < |init| ensures Pick(Shares(ps, u, x), init)[k] == 0 {
      assert NotAfter(ps[order[k]], ps[order[|order| - 1]]);
    }
    TotalZero(Pick(Shares(ps, u, x), init));
  }

  lemma DrawOneTail(m: Draw, i: PackageId, j: JobId, u: UserId, x: Instant)
    requires i < |m.packages| && m.packages[i].owner == u
    ensures ActiveSum(DrawOne(m, i, j).packages, u, x) == ActiveSum(m.packages, u, x)
         - (if Active(m.packages[i], x) then Min(m.left, m.packages[i].remaining) else 0)
  {
    var part := Min(m.left, m.packages[i].remaining);
    ActiveSumUpdate(m.packages, i, m.packages[i].(remaining := m.packages[i].remaining - part), u, x);
  }

  /** A proper FIFO sequence of packages `u` can spend at `at`. */
  predicate FifoRun(ps: seq<Package>, order: seq<PackageId>, u: UserId, at: Instant) {
    Spendables(ps, order, u, at) && Distinct(order) && Sorted(ps, order)
  }

  lemma BeforeLast(d: Draw, order: seq<PackageId>, j: JobId, u: UserId, at: Instant, x: Instant)
    requires order != [] && FifoRun(d.packages, order, u, at)
    ensures var n := |order| - 1;
      var m := DrawAll(d, order[..n], j);
      && FifoRun(d.packages, order[..n], u, at)
      && m.packages[order[n]] == d.packages[order[n]]
      && m.left == d.left - Min(d.left, OrderSum(d.packages, order[..n], u, at))
      && (Active(d.packages[order[n]], x) || OrderSum(d.packages, order[..n], u, x) == 0)
  {
    var n := |order| - 1;
    DrawShape(d, order[..n], j);
    DrawLeft(d, order[..n], j, u, at);
    if !Active(d.packages[order[n]], x) {
      NoTailBefore(d.packages, order, u, x);
    }
  }

  /** What the loop has left usable at `x`: it takes the packages that end by `x` before those
      that outlast it. */
  lemma {:induction false} DrawTail(d: Draw, order: seq<PackageId>, j: JobId, u: UserId, at: Instant, x: Instant)
    requires FifoRun(d.packages, order, u, at) && at <= x
    ensures var sum := OrderSum(d.packages, order, u, at);
      var tail := OrderSum(d.packages, order, u, x);
      && tail <= sum
      && ActiveSum(DrawAll(d, order, j).packages, u, x)
           == ActiveSum(d.packages, u, x) - (Min(d.left, sum) - Min(d.left, sum - tail))
  {
    if order != [] {
      var n := |order| - 1;
      BeforeLast(d, order, j, u, at, x);
      DrawTail(d, order[..n], j, u, at, x);
      OrderSumStep(d.packages, order, u, at);
      OrderSumStep(d.packages, order, u, x);
      DrawOneTail(DrawAll(d, order[..n], j), order[n], j, u, x);
    }
  }

  /** The spending loop over the full earliest-expiry-first order: it pays everything it was asked
      to whenever the balance covers it, and at every instant from now on the credits still usable
      are as many as any way of paying `d.left` now could leave. */
  lemma DrawPaysInFull(d: Draw, order: seq<PackageId>, j: JobId, u: UserId, at: Instant, x: Instant)
    requires IsFifoOrder(d.packages, u, at, order)
    requires d.left <= ActiveSum(d.packages, u, at) && at <= x
    ensures var r := DrawAll(d, order, j);
      && r.left == 0
      && ActiveSum(r.packages, u, x)
           == Min(ActiveSum(d.packages, u, x), ActiveSum(d.packages, u, at) - d.left)
  {
    forall i | 0 <= i < |d.packages| && (Share(d.packages[i], u, at) > 0 || Share(d.packages[i], u, x) > 0)
      ensures i in order
    {
      assert Spendable(d.packages[i], u, at);
    }
    PickCovers(Shares(d.packages, u, at), order);
    PickCovers(Shares(d.packages, u, x), order);
    DrawLeft(d, order, j, u, at);
    DrawTail(d, order, j, u, at, x);
  }

  /** Nobody else's credits move. */
  lemma DrawSparesOthers(d: Draw, order: seq<PackageId>, j: JobId, u: UserId, at: Instant, v: UserId, x: Instant)
    requires IsFifoOrder(d.packages, u, at, order) && v != u
    ensures ActiveSum(DrawAll(d, order, j).packages, v, x) == ActiveSum(d.packages, v, x)
  {
    DrawShape(d, order, j);
    var r := DrawAll(d, order, j);
    forall i | 0 <= i < |d.packages| ensures Share(r.packages[i], v, x) == Share(d.packages[i], v, x) {
      if i in order { assert d.packages[i].owner == u; }
    }
    SharesDecide(r.packages, d.packages, v, v, x, x);
  }
}
