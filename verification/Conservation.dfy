/** Where every granted credit is: still in its package, held by a live job, or lost in one of two
    ways that the operations record here. */
module Conservation {
  import opened Sums
  import opened Tables
  import opened CreditRules
  import opened CreditFacts
  import opened DrawFacts
  import opened CreditInvariant
  import opened MergeRules

  /** Per package: credits zeroed by expiry, and credits a refund could not bring back because the
      package had expired. */
  datatype Losses = Losses(zeroed: seq<nat>, forfeited: seq<nat>)

  predicate Covers(l: Losses, n: nat) {
    |l.zeroed| == n && |l.forfeited| == n
  }

  function At(xs: seq<nat>, p: nat): nat {
    if p < |xs| then xs[p] else 0
  }

  /** The books of package `p`, whose grant is spread over four places. */
  predicate Balances(p: PackageId, q: Package, rows: seq<Allocation>, held: set<JobId>, l: Losses) {
    q.granted == q.remaining + AllocatedOn(rows, p, held) + At(l.zeroed, p) + At(l.forfeited, p)
  }

  predicate Conserved(ps: seq<Package>, rows: seq<Allocation>, jobs: map<JobId, Job>, l: Losses) {
    Covers(l, |ps|) && forall p :: 0 <= p < |ps| ==> Balances(p, ps[p], rows, HeldJobs(jobs), l)
  }

  // ------------------------------------------------------------------- totals

  function Grants(ps: seq<Package>): (xs: seq<nat>)
    ensures |xs| == |ps| && forall p :: 0 <= p < |ps| ==> xs[p] == ps[p].granted
  {
    seq(|ps|, p requires 0 <= p < |ps| => ps[p].granted)
  }

  function Left(ps: seq<Package>): (xs: seq<nat>)
    ensures |xs| == |ps| && forall p :: 0 <= p < |ps| ==> xs[p] == ps[p].remaining
  {
    seq(|ps|, p requires 0 <= p < |ps| => ps[p].remaining)
  }

  function HeldOn(n: nat, rows: seq<Allocation>, held: set<JobId>): (xs: seq<nat>)
    ensures |xs| == n && forall p :: 0 <= p < n ==> xs[p] == AllocatedOn(rows, p, held)
  {
    seq(n, p requires 0 <= p < n => AllocatedOn(rows, p, held))
  }

  function Both(xs: seq<nat>, ys: seq<nat>): (zs: seq<nat>)
    requires |xs| == |ys|
    ensures |zs| == |xs| && forall i :: 0 <= i < |xs| ==> zs[i] == xs[i] + ys[i]
  {
    seq(|xs|, i requires 0 <= i < |xs| => xs[i] + ys[i])
  }

  /** Everything ever granted is accounted for. */
  lemma TotalsBalance(ps: seq<Package>, rows: seq<Allocation>, jobs: map<JobId, Job>, l: Losses)
    requires Conserved(ps, rows, jobs, l)
    ensures Total(Grants(ps)) == Total(Left(ps)) + Total(HeldOn(|ps|, rows, HeldJobs(jobs)))
                                 + Total(l.zeroed) + Total(l.forfeited)
  {
    var held := HeldOn(|ps|, rows, HeldJobs(jobs));
    var live := Both(Left(ps), held);
    TotalAdd(Left(ps), held, live);
    TotalAdd(l.zeroed, l.forfeited, Both(l.zeroed, l.forfeited));
    forall p | 0 <= p < |ps| ensures Grants(ps)[p] == live[p] + Both(l.zeroed, l.forfeited)[p] {
      assert Balances(p, ps[p], rows, HeldJobs(jobs), l);
    }
    TotalAdd(live, Both(l.zeroed, l.forfeited), Grants(ps));
  }

  // ------------------------------------------------------------ what is recorded

  /** The books of `n` packages, the new ones without losses. */
  function Extended(l: Losses, n: nat): (r: Losses)
    ensures Covers(r, n)
    ensures forall p :: 0 <= p < n ==> r.zeroed[p] == At(l.zeroed, p) && r.forfeited[p] == At(l.forfeited, p)
  {
    Losses(seq(n, p requires 0 <= p < n => At(l.zeroed, p)), seq(n, p requires 0 <= p < n => At(l.forfeited, p)))
  }

  /** Expiry of `u`'s packages at `at` zeroes what is left in them. */
  function Zeroing(l: Losses, ps: seq<Package>, u: UserId, at: Instant): (r: Losses)
    ensures Covers(r, |ps|)
    ensures forall p :: 0 <= p < |ps| ==> r.zeroed[p] == At(l.zeroed, p) + DueAmounts(ps, u, at)[p]
    ensures forall p :: 0 <= p < |ps| ==> r.forfeited[p] == At(l.forfeited, p)
  {
    Losses(seq(|ps|, p requires 0 <= p < |ps| => At(l.zeroed, p) + DueAmounts(ps, u, at)[p]),
           Extended(l, |ps|).forfeited)
  }

  function Forfeit(ps: seq<Package>, rows: seq<Allocation>, j: JobId, at: Instant, p: PackageId): nat {
    if p < |ps| && !Active(ps[p], at) then AllocatedOn(rows, p, {j}) else 0
  }

  /** A refund of `j` at `at` forfeits what the job took from packages that have expired since. */
  function Forfeiting(l: Losses, ps: seq<Package>, n: nat, rows: seq<Allocation>, j: JobId, at: Instant): (r: Losses)
    ensures Covers(r, n)
    ensures forall p :: 0 <= p < n ==> r.zeroed[p] == At(l.zeroed, p)
    ensures forall p :: 0 <= p < n ==> r.forfeited[p] == At(l.forfeited, p) + Forfeit(ps, rows, j, at, p)
  {
    Losses(Extended(l, n).zeroed,
           seq(n, p requires 0 <= p < n =>
             At(l.forfeited, p) + Forfeit(ps, rows, j, at, p)))
  }

  // ------------------------------------------------------------- step by step

  /** A package appended whole is accounted for. */
  lemma AppendConserves(ps: seq<Package>, qs: seq<Package>, rows: seq<Allocation>, jobs: map<JobId, Job>, l: Losses)
    requires Conserved(ps, rows, jobs, l) && RowsInTable(rows, |ps|)
    requires |ps| <= |qs| && forall p :: 0 <= p < |ps| ==> qs[p] == ps[p]
    requires forall p :: |ps| <= p < |qs| ==> qs[p].remaining == qs[p].granted
    ensures Conserved(qs, rows, jobs, Extended(l, |qs|))
  {
    forall p | 0 <= p < |qs| ensures Balances(p, qs[p], rows, HeldJobs(jobs), Extended(l, |qs|)) {
      if p < |ps| {
        assert Balances(p, ps[p], rows, HeldJobs(jobs), l);
      } else {
        AllocatedOffTable(rows, p, HeldJobs(jobs));
      }
    }
  }

  lemma EmptyingConserves(ps: seq<Package>, rows: seq<Allocation>, jobs: map<JobId, Job>, l: Losses, u: UserId, at: Instant)
    requires Conserved(ps, rows, jobs, l)
    ensures Conserved(Emptied(ps, u, at), rows, jobs, Zeroing(l, ps, u, at))
  {
    forall p | 0 <= p < |ps|
      ensures Balances(p, Emptied(ps, u, at)[p], rows, HeldJobs(jobs), Zeroing(l, ps, u, at))
    {
      assert Balances(p, ps[p], rows, HeldJobs(jobs), l);
    }
  }

  /** `get_balance` */
  function AfterBalance(l: Losses, t: Tables, u: UserId, c: Context): Losses {
    Zeroing(Extended(l, |Granted(t, u, c.at, c.wall)|), Granted(t, u, c.at, c.wall), u, c.at)
  }

  lemma BalanceConserves(t: Tables, l: Losses, u: UserId, c: Context)
    requires Conserved(t.packages, t.allocations, t.jobs, l) && RowsInTable(t.allocations, |t.packages|)
    ensures Conserved(Balanced(t, u, c).packages, t.allocations, t.jobs, AfterBalance(l, t, u, c))
  {
    var ps := Granted(t, u, c.at, c.wall);
    GrantedFacts(t, u, c.at, c.wall);
    AppendConserves(t.packages, ps, t.allocations, t.jobs, l);
    EmptyingConserves(ps, t.allocations, t.jobs, Extended(l, |ps|), u, c.at);
    GetBalanceShape(t, u, c.at, c.wall, c.view);
  }

  /** A reservation moves credits from `remaining` to an allocation, package by package. */
  lemma DrawConserves(d: Draw, jobs: map<JobId, Job>, l: Losses, order: seq<PackageId>, j: JobId, cost: pos)
    requires Conserved(d.packages, d.allocations, jobs, l) && j in jobs && !Holds(jobs[j].creditStatus)
    requires NoRows(d.allocations, j) && InTable(order, |d.packages|)
    ensures var r := DrawAll(d, order, j);
      Conserved(r.packages, r.allocations, MarkReserved(jobs, j, cost), l)
  {
    var r, held := DrawAll(d, order, j), HeldJobs(jobs);
    assert HeldJobs(MarkReserved(jobs, j, cost)) == held + {j};
    DrawShape(d, order, j);
    forall p | 0 <= p < |r.packages| ensures Balances(p, r.packages[p], r.allocations, held + {j}, l) {
      AllocatedNowhere(d.allocations, p, j);
      DrawMovesCredits(d, order, j, p, held, j + 1);
      AllocatedSplit(r.allocations, p, held, j);
      assert Balances(p, d.packages[p], d.allocations, held, l);
    }
  }

  lemma PackageRefundBalances(ps: seq<Package>, qs: seq<Package>, rows: seq<Allocation>, held: set<JobId>, l: Losses,
                              j: JobId, at: Instant, p: PackageId)
    requires p < |ps| && j in held && GivenBack(ps, rows, qs, j, at) && Balances(p, ps[p], rows, held, l)
    ensures Balances(p, qs[p], rows, held - {j}, Forfeiting(l, ps, |qs|, rows, j, at))
  {
    AllocatedSplit(rows, p, held - {j}, j);
    assert held - {j} + {j} == held;
  }

  /** A refund moves a job's allocation back into `remaining`, or into the forfeits of a package
      that has expired; a compensation package is a new grant. */
  lemma RefundConserves(t: Tables, l: Losses, u: UserId, j: JobId, cost: pos, c: Context)
    requires CreditInv(t) && Conserved(t.packages, t.allocations, t.jobs, l)
    requires j in t.jobs && t.jobs[j].creditStatus == Reserved
    ensures var qs := RefundedPackages(t, u, j, cost, c);
      Conserved(qs, t.allocations, MarkRefunded(t.jobs, j), Forfeiting(l, t.packages, |qs|, t.allocations, j, c.at))
  {
    var qs, held := RefundedPackages(t, u, j, cost, c), HeldJobs(t.jobs);
    var l' := Forfeiting(l, t.packages, |qs|, t.allocations, j, c.at);
    assert HeldJobs(MarkRefunded(t.jobs, j)) == held - {j};
    LiveJobFits(t.packages, t.allocations, t.jobs, j);
    RefundGivesBack(t, u, j, cost, c);
    NewRefundPackage(t, u, j, cost, c);
    forall p | 0 <= p < |qs| ensures Balances(p, qs[p], t.allocations, held - {j}, l') {
      if p < |t.packages| {
        assert Balances(p, t.packages[p], t.allocations, held, l);
        PackageRefundBalances(t.packages, qs, t.allocations, held, l, j, c.at, p);
      } else {
        AllocatedOffTable(t.allocations, p, held - {j});
      }
    }
  }

  lemma NewRefundPackage(t: Tables, u: UserId, j: JobId, cost: pos, c: Context)
    requires RowsInTable(t.allocations, |t.packages|)
    ensures var qs := RefundedPackages(t, u, j, cost, c);
      && |t.packages| <= |qs| <= |t.packages| + 1
      && forall p :: |t.packages| <= p < |qs| ==> qs[p].remaining == qs[p].granted && qs[p].key == RefundPackage(j) && qs[p].owner == u
  {
  }

  /** A job that starts uncharged, or moves between reserved and finalized, leaves the books alone. */
  lemma SameHeldConserves(ps: seq<Package>, rows: seq<Allocation>, jobs: map<JobId, Job>, jobs': map<JobId, Job>, l: Losses)
    requires Conserved(ps, rows, jobs, l) && HeldJobs(jobs') == HeldJobs(jobs)
    ensures Conserved(ps, rows, jobs', l)
  {
  }

  /** A merge changes owners and empties what has expired. */
  function AfterMerge(l: Losses, t: Tables, source: UserId, survivor: UserId, at: Instant): Losses {
    Zeroing(l, MovePackages(t.packages, source, survivor), survivor, at)
  }

  lemma MergeConserves(t: Tables, l: Losses, source: UserId, survivor: UserId, at: Instant)
    requires source != survivor && Conserved(t.packages, t.allocations, t.jobs, l)
    ensures var t' := Merge(t, source, survivor, at);
      Conserved(t'.packages, t'.allocations, t'.jobs, AfterMerge(l, t, source, survivor, at))
  {
    var moved := MovePackages(t.packages, source, survivor);
    var jobs' := MoveJobs(t.jobs, source, survivor);
    assert HeldJobs(jobs') == HeldJobs(t.jobs);
    forall p | 0 <= p < |moved| ensures Balances(p, moved[p], t.allocations, HeldJobs(jobs'), l) {
      assert Balances(p, t.packages[p], t.allocations, HeldJobs(t.jobs), l);
    }
    EmptyingConserves(moved, t.allocations, jobs', l, survivor, at);
    MergeShape(t, source, survivor, at);
  }

  // ------------------------------------------------------------ losses are final

  ghost predicate LossesGrow(l: Losses, l': Losses) {
    && (forall p: PackageId :: At(l.zeroed, p) <= At(l'.zeroed, p))
    && (forall p: PackageId :: At(l.forfeited, p) <= At(l'.forfeited, p))
  }

  lemma ZeroingGrows(l: Losses, ps: seq<Package>, u: UserId, at: Instant)
    requires |l.zeroed| <= |ps| && |l.forfeited| <= |ps|
    ensures LossesGrow(l, Zeroing(l, ps, u, at))
  {
  }

  lemma ExtendedGrows(l: Losses, n: nat)
    requires |l.zeroed| <= n && |l.forfeited| <= n
    ensures LossesGrow(l, Extended(l, n))
  {
  }

  lemma ForfeitingGrows(l: Losses, ps: seq<Package>, n: nat, rows: seq<Allocation>, j: JobId, at: Instant)
    requires |l.zeroed| <= n && |l.forfeited| <= n
    ensures LossesGrow(l, Forfeiting(l, ps, n, rows, j, at))
  {
  }

  lemma BalanceGrowsLosses(l: Losses, t: Tables, u: UserId, c: Context)
    requires Covers(l, |t.packages|)
    ensures LossesGrow(l, AfterBalance(l, t, u, c)) && Covers(AfterBalance(l, t, u, c), |Balanced(t, u, c).packages|)
  {
    var ps := Granted(t, u, c.at, c.wall);
    GrantedFacts(t, u, c.at, c.wall);
    ExtendedGrows(l, |ps|);
    ZeroingGrows(Extended(l, |ps|), ps, u, c.at);
    GetBalanceShape(t, u, c.at, c.wall, c.view);
  }
}
