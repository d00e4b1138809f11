/** What balance keeping gives and what replayed credit operations do not: everything a user notices
    of a call that should have no effect. */
module CreditOutcomes {
  import opened Sums
  import opened Tables
  import opened CreditRules
  import opened CreditFacts
  import opened CreditInvariant
  import opened DrawFacts
  import opened RefundFacts

  /** `get_balance` changes the usable credits of nobody, at this or any later instant, except that a
      first-time user gets the starter credits, until the starter package ends. */
  lemma BalanceGivesOnlyTheStarter(t: Tables, u: UserId, c: Context, v: UserId, x: Instant)
    requires c.at <= x || v != u
    ensures var gains := v == u && NeverGranted(t, u) && !HasKey(t.packages, StarterPackage(u)) && x < c.wall + STARTER_GRANT_TTL;
      ActiveSum(Balanced(t, u, c).packages, v, x) == ActiveSum(t.packages, v, x) + (if gains then STARTER_GRANT_CREDITS else 0)
  {
    GetBalanceShape(t, u, c.at, c.wall, c.view);
    EmptyingIsInvisible(Granted(t, u, c.at, c.wall), u, c.at, v, x);
    if NeverGranted(t, u) && !HasKey(t.packages, StarterPackage(u)) {
      ActiveSumAppend(t.packages,
        NewPackage(u, StarterGrant, STARTER_GRANT_CREDITS, Some(c.wall + STARTER_GRANT_TTL), StarterPackage(u), c.at), v, x);
    }
  }

  /** A replayed reservation, finalization or refund is exactly a balance request. */
  lemma ReplaysOnlyRefresh(t: Tables, u: UserId, j: JobId, creditCost: pos, c: Context)
    requires CreditInv(t) && j in t.jobs
    requires forall k :: 0 <= k < |c.order| ==> c.order[k] < |Balanced(t, u, c).packages|
    ensures RowsInTable(t.allocations, |Balanced(t, u, c).packages|)
    ensures var t1 := Balanced(t, u, c);
      var refreshed := Ok((ActiveSum(t1.packages, u, c.at), t1));
      && (Holds(t.jobs[j].creditStatus) ==> Reserve(t, u, j, creditCost, c) == refreshed)
      && (t.jobs[j].creditStatus == Refunded ==> Reserve(t, u, j, creditCost, c) == Err(JobAlreadyRefunded))
      && (t.jobs[j].creditStatus != Reserved ==> Finalize(t, u, j, c) == refreshed && RefundJob(t, u, j, c) == refreshed)
  {
    BalancedKeeps(t, u, c);
  }

  /** Reserving, finalizing or refunding once and asking again: the second time takes nothing, gives
      nothing and leaves the job alone. */
  lemma SecondTimeIsFree(t: Tables, u: UserId, j: JobId, c: Context, v: UserId, x: Instant)
    requires CreditInv(t) && j in t.jobs && !NeverGranted(t, u) && (c.at <= x || v != u)
    requires t.jobs[j].creditStatus == Finalized || t.jobs[j].creditStatus == Refunded
    ensures RowsInTable(t.allocations, |Balanced(t, u, c).packages|)
    ensures Finalize(t, u, j, c).Ok? && RefundJob(t, u, j, c).Ok?
    ensures var (f, r) := (Finalize(t, u, j, c).value.1, RefundJob(t, u, j, c).value.1);
      && f.jobs == r.jobs == t.jobs && f.allocations == r.allocations == t.allocations
      && ActiveSum(f.packages, v, x) == ActiveSum(r.packages, v, x) == ActiveSum(t.packages, v, x)
  {
    ReplaysOnlyRefresh(t, u, j, 1, c.(order := []));
    assert Balanced(t, u, c.(order := [])) == Balanced(t, u, c);
    BalancedKeeps(t, u, c);
    BalanceGivesOnlyTheStarter(t, u, c, v, x);
  }

  lemma SpendCosts(t: Tables, u: UserId, j: JobId, cost: pos, at: Instant, order: seq<PackageId>, v: UserId, x: Instant)
    requires j in t.jobs && IsFifoOrder(t.packages, u, at, order) && (at <= x || v != u)
    requires Spend(t, u, j, cost, at, order).Ok?
    ensures var qs := Spend(t, u, j, cost, at, order).value.1.packages;
      && cost <= ActiveSum(t.packages, u, at)
      && (v == u ==> ActiveSum(qs, v, x) == Min(ActiveSum(t.packages, v, x), ActiveSum(t.packages, v, at) - cost))
      && (v != u ==> ActiveSum(qs, v, x) == ActiveSum(t.packages, v, x))
  {
    var d := Draw(t.packages, t.allocations, cost);
    if v == u {
      DrawPaysInFull(d, order, j, u, at, x);
    } else {
      DrawSparesOthers(d, order, j, u, at, v, x);
    }
  }

  lemma ReserveIsSpend(t: Tables, u: UserId, j: JobId, creditCost: pos, c: Context)
    requires j in t.jobs && t.jobs[j].creditStatus == NotCharged && InTable(c.order, |Balanced(t, u, c).packages|)
    ensures Reserve(t, u, j, creditCost, c)
         == Spend(Balanced(t, u, c), u, j, EffectiveCost(t.jobs[j], creditCost), c.at, c.order)
  {
  }

  /** A reservation takes the job's cost out of what its user can spend now; what he can spend at a
      later instant falls only as far as it must; nobody else loses anything, ever. */
  lemma ReservationCosts(t: Tables, u: UserId, j: JobId, creditCost: pos, c: Context, v: UserId, x: Instant)
    requires j in t.jobs && t.jobs[j].creditStatus == NotCharged
    requires IsFifoOrder(Balanced(t, u, c).packages, u, c.at, c.order)
    requires Reserve(t, u, j, creditCost, c).Ok? && (c.at <= x || v != u)
    ensures var (ps, qs) := (Balanced(t, u, c).packages, Reserve(t, u, j, creditCost, c).value.1.packages);
      var cost := EffectiveCost(t.jobs[j], creditCost);
      && cost <= ActiveSum(ps, u, c.at)
      && (v == u ==> ActiveSum(qs, v, x) == Min(ActiveSum(ps, v, x), ActiveSum(ps, v, c.at) - cost))
      && (v != u ==> ActiveSum(qs, v, x) == ActiveSum(t.packages, v, x))
  {
    ReserveIsSpend(t, u, j, creditCost, c);
    SpendCosts(Balanced(t, u, c), u, j, EffectiveCost(t.jobs[j], creditCost), c.at, c.order, v, x);
    if v != u { BalanceGivesOnlyTheStarter(t, u, c, v, x); }
  }

  lemma RefundedPackagesSpareOthers(t: Tables, u: UserId, j: JobId, cost: pos, c: Context, v: UserId, x: Instant)
    requires PaidByOwner(t.packages, t.allocations, t.jobs) && j in t.jobs && t.jobs[j].owner == u && v != u
    ensures ActiveSum(RefundedPackages(t, u, j, cost, c), v, x) == ActiveSum(t.packages, v, x)
  {
    RestoreSparesOthers(t.packages, t.allocations, j, u, c.at, v, x);
    ActiveSumAppend(Restore(t.packages, t.allocations, j, c.at),
      NewPackage(u, Source.Refund, cost, Some(c.wall + PURCHASE_GRANT_TTL), RefundPackage(j), c.at), v, x);
  }

  /** A refund gives nobody but the job's owner anything. */
  lemma RefundSparesOthers(t: Tables, u: UserId, j: JobId, c: Context, v: UserId, x: Instant)
    requires CreditInv(t) && j in t.jobs && t.jobs[j].creditStatus == Reserved && t.jobs[j].owner == u && v != u
    ensures RowsInTable(t.allocations, |Balanced(t, u, c).packages|) && RefundJob(t, u, j, c).Ok?
    ensures ActiveSum(RefundJob(t, u, j, c).value.1.packages, v, x) == ActiveSum(t.packages, v, x)
  {
    BalancedKeeps(t, u, c);
    RefundedPackagesSpareOthers(Balanced(t, u, c), u, j, RefundCost(t.jobs[j]), c, v, x);
    BalanceGivesOnlyTheStarter(t, u, c, v, x);
  }
}
