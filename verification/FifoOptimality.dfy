/** Earliest-expiry-first spending is optimal over whole histories: whatever way of choosing
    packages serves a history, the service's loop serves it too and is never left with fewer
    usable credits. */
module FifoOptimality {
  import opened Sums
  import opened Tables
  import opened CreditRules
  import opened CreditFacts
  import opened DrawFacts

  datatype Op =
    | Grant(at: Instant, package: Package)
    | Expiry(at: Instant)
    | Charge(at: Instant, cost: pos)

  /** Any way at all to pay `cost` at `at` from `u`'s usable packages. */
  ghost predicate Pays(ps: seq<Package>, qs: seq<Package>, u: UserId, at: Instant, cost: pos) {
    && OnlySpends(ps, qs)
    && (forall i :: 0 <= i < |ps| && !(ps[i].owner == u && Active(ps[i], at)) ==> qs[i] == ps[i])
    && ActiveSum(qs, u, at) + cost == ActiveSum(ps, u, at)
  }

  /** The service's way: its loop over any earliest-expiry-first order, paying in full. */
  ghost predicate PaysFifo(ps: seq<Package>, qs: seq<Package>, u: UserId, at: Instant, cost: pos) {
    exists order :: IsFifoOrder(ps, u, at, order)
      && DrawAll(Draw(ps, [], cost), order, 0).left == 0
      && DrawAll(Draw(ps, [], cost), order, 0).packages == qs
  }

  ghost predicate Upkept(ps: seq<Package>, qs: seq<Package>, u: UserId, op: Op)
    requires !op.Charge?
  {
    match op
    case Grant(_, p) => qs == ps + [p]
    case Expiry(at) => qs == Emptied(ps, u, at)
  }

  ghost predicate AnyStep(ps: seq<Package>, qs: seq<Package>, u: UserId, op: Op) {
    if op.Charge? then Pays(ps, qs, u, op.at, op.cost) else Upkept(ps, qs, u, op)
  }

  ghost predicate FifoStep(ps: seq<Package>, qs: seq<Package>, u: UserId, op: Op) {
    if op.Charge? then PaysFifo(ps, qs, u, op.at, op.cost) else Upkept(ps, qs, u, op)
  }

  predicate InOrder(ops: seq<Op>) {
    forall i, k :: 0 <= i < k < |ops| ==> ops[i].at <= ops[k].at
  }

  /** `states` is a history of `ops` in which every charge was served somehow. */
  ghost predicate AnyHistory(states: seq<seq<Package>>, ops: seq<Op>, u: UserId) {
    |states| == |ops| + 1 && forall k :: 0 <= k < |ops| ==> AnyStep(states[k], states[k + 1], u, ops[k])
  }

  /** `states` is the service's history of the first |states| - 1 of the `ops`. */
  ghost predicate FifoHistory(states: seq<seq<Package>>, ops: seq<Op>, u: UserId) {
    1 <= |states| <= |ops| + 1
    && forall k :: 0 <= k < |states| - 1 ==> FifoStep(states[k], states[k + 1], u, ops[k])
  }

  // ------------------------------------------------------------------- proofs

  lemma LaterIsLess(ps: seq<Package>, u: UserId, at: Instant, x: Instant)
    requires at <= x
    ensures ActiveSum(ps, u, x) <= ActiveSum(ps, u, at)
  {
    TotalAtMost(Shares(ps, u, x), Shares(ps, u, at));
  }

  lemma SpendingIsLess(ps: seq<Package>, qs: seq<Package>, u: UserId, x: Instant)
    requires OnlySpends(ps, qs)
    ensures ActiveSum(qs, u, x) <= ActiveSum(ps, u, x)
  {
    TotalAtMost(Shares(qs, u, x), Shares(ps, u, x));
  }

  /** One charge keeps the lead. */
  lemma ChargeKeepsLead(
      ps: seq<Package>, ps': seq<Package>, qs: seq<Package>, qs': seq<Package>,
      u: UserId, at: Instant, cost: pos, x: Instant)
    requires at <= x && PaysFifo(ps, ps', u, at, cost) && Pays(qs, qs', u, at, cost)
    requires ActiveSum(qs, u, at) <= ActiveSum(ps, u, at) && ActiveSum(qs, u, x) <= ActiveSum(ps, u, x)
    ensures ActiveSum(qs', u, x) <= ActiveSum(ps', u, x)
  {
    var order :| IsFifoOrder(ps, u, at, order)
      && DrawAll(Draw(ps, [], cost), order, 0).left == 0
      && DrawAll(Draw(ps, [], cost), order, 0).packages == ps';
    DrawPaysInFull(Draw(ps, [], cost), order, 0, u, at, x);
    SpendingIsLess(qs, qs', u, x);
    LaterIsLess(qs', u, at, x);
  }

  /** At every instant from its clock on, the service has at least as many usable credits as the
      other history has, after any number of steps of the same operations. */
  lemma {:induction false} FifoLeads(
      fifo: seq<seq<Package>>, any: seq<seq<Package>>, ops: seq<Op>, u: UserId, k: nat, x: Instant)
    requires InOrder(ops) && FifoHistory(fifo, ops, u) && AnyHistory(any, ops, u)
    requires fifo[0] == any[0] && k < |fifo|
    requires k > 0 ==> ops[k - 1].at <= x
    ensures ActiveSum(any[k], u, x) <= ActiveSum(fifo[k], u, x)
  {
    if k > 0 {
      var op := ops[k - 1];
      if k > 1 { assert ops[k - 2].at <= op.at; }
      FifoLeads(fifo, any, ops, u, k - 1, x);
      assert FifoStep(fifo[k - 1], fifo[k - 1 + 1], u, ops[k - 1]);
      assert AnyStep(any[k - 1], any[k - 1 + 1], u, ops[k - 1]);
      match op
      case Grant(_, p) =>
        ActiveSumAppend(fifo[k - 1], p, u, x);
        ActiveSumAppend(any[k - 1], p, u, x);
      case Expiry(at) =>
        EmptyingIsInvisible(fifo[k - 1], u, at, u, x);
        EmptyingIsInvisible(any[k - 1], u, at, u, x);
      case Charge(at, cost) =>
        FifoLeads(fifo, any, ops, u, k - 1, at);
        ChargeKeepsLead(fifo[k - 1], fifo[k], any[k - 1], any[k], u, at, cost, x);
    }
  }

  /** The service never refuses a charge that some way of choosing packages would have served:
      its loop, over any earliest-expiry-first order, pays it in full. */
  lemma FifoServesAll(
      fifo: seq<seq<Package>>, any: seq<seq<Package>>, ops: seq<Op>, u: UserId, order: seq<PackageId>)
    requires InOrder(ops) && FifoHistory(fifo, ops, u) && AnyHistory(any, ops, u) && fifo[0] == any[0]
    requires |fifo| <= |ops| && ops[|fifo| - 1].Charge?
    requires IsFifoOrder(fifo[|fifo| - 1], u, ops[|fifo| - 1].at, order)
    ensures var k := |fifo| - 1;
      var d := Draw(fifo[k], [], ops[k].cost);
      && ops[k].cost <= ActiveSum(fifo[k], u, ops[k].at)
      && FifoHistory(fifo + [DrawAll(d, order, 0).packages], ops, u)
  {
    var k := |fifo| - 1;
    var at, cost := ops[k].at, ops[k].cost;
    if k > 0 { assert ops[k - 1].at <= at; }
    FifoLeads(fifo, any, ops, u, k, at);
    assert AnyStep(any[k], any[k + 1], u, ops[k]);
    DrawPaysInFull(Draw(fifo[k], [], cost), order, 0, u, at, at);
    var next := DrawAll(Draw(fifo[k], [], cost), order, 0).packages;
    assert PaysFifo(fifo[k], next, u, at, cost);
    forall i | 0 <= i < |fifo + [next]| - 1
      ensures FifoStep((fifo + [next])[i], (fifo + [next])[i + 1], u, ops[i])
    {
      if i < k { assert FifoStep(fifo[i], fifo[i + 1], u, ops[i]); }
    }
  }

  // ------------------------------------------------------- the service's spending

  /** Which packages pay does not depend on the allocation table or on the job. */
  lemma {:induction false} PackagesOnly(
      ps: seq<Package>, rows: seq<Allocation>, order: seq<PackageId>, j: JobId, k: JobId, cost: pos)
    requires InTable(order, |ps|)
    ensures var d := DrawAll(Draw(ps, rows, cost), order, j);
      var e := DrawAll(Draw(ps, [], cost), order, k);
      d.packages == e.packages && d.left == e.left
  {
    if order != [] {
      PackagesOnly(ps, rows, order[..|order| - 1], j, k, cost);
    }
  }

  /** A successful reservation is a step of the service's history. */
  lemma ReservationIsFifoStep(t: Tables, u: UserId, j: JobId, cost: pos, at: Instant, order: seq<PackageId>)
    requires j in t.jobs && IsFifoOrder(t.packages, u, at, order)
    requires Spend(t, u, j, cost, at, order).Ok?
    ensures FifoStep(t.packages, Spend(t, u, j, cost, at, order).value.1.packages, u, Charge(at, cost))
  {
    PackagesOnly(t.packages, t.allocations, order, j, 0, cost);
  }
}
