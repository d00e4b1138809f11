/** The billing projection shown with a job, and its agreement with what happened to the credits. */
module Billing {
  import opened Sums
  import opened Tables
  import opened CreditRules
  import opened CreditFacts

  datatype BillingStatus = ShownReserved | ShownCharged | ShownRefunded | ShownUnknown

  /** The columns of `billing_evidence_select`; SUM over no rows is NULL. */
  datatype BillingRow = BillingRow(
    creditStatus: CreditStatus, cost: nat,
    reserveDelta: Option<int>, reserveCount: nat,
    refundDelta: Option<int>, refundCount: nat, finalizeCount: nat)

  /** `render_billing_status` */
  function RenderBillingStatus(row: BillingRow): BillingStatus {
    if row.cost <= 0 then ShownUnknown
    else if row.reserveCount != 1 || row.reserveDelta != Some(Minus(row.cost)) then ShownUnknown
    else if row.creditStatus == Reserved && row.refundCount == 0 && row.finalizeCount == 0 then ShownReserved
    else if row.creditStatus == Finalized && row.finalizeCount == 1 && row.refundCount == 0 then ShownCharged
    else if row.creditStatus == Refunded && row.refundCount == 1 && row.refundDelta == Some(row.cost)
            && row.finalizeCount == 0 then ShownRefunded
    else ShownUnknown
  }

  // ---------------------------------------------------------- aggregate queries

  function CountOf(rows: seq<LedgerRow>, event: LedgerEvent): nat {
    if rows == [] then 0
    else CountOf(rows[..|rows| - 1], event) + (if rows[|rows| - 1].event == event then 1 else 0)
  }

  function DeltaOf(rows: seq<LedgerRow>, event: LedgerEvent): Option<int> {
    if rows == [] then None
    else
      var sum, last := DeltaOf(rows[..|rows| - 1], event), rows[|rows| - 1];
      if last.event != event then sum
      else Some(last.delta + (if sum.Some? then sum.value else 0))
  }

  function CountZeroOf(rows: seq<LedgerRow>, event: LedgerEvent): nat {
    if rows == [] then 0
    else CountZeroOf(rows[..|rows| - 1], event)
         + (if rows[|rows| - 1].event == event && rows[|rows| - 1].delta == 0 then 1 else 0)
  }

  /** `rows` are the ledger rows of job `j`, each once, in any order. */
  ghost predicate IsJobListing(ledger: map<LedgerKey, LedgerRow>, j: JobId, rows: seq<LedgerRow>) {
    && (forall i :: 0 <= i < |rows| ==> rows[i].key in ledger && ledger[rows[i].key] == rows[i] && rows[i].job == Some(j))
    && (forall k :: k in ledger && ledger[k].job == Some(j) ==> ledger[k] in rows)
    && (forall i, k :: 0 <= i < k < |rows| ==> rows[i].key != rows[k].key)
  }

  function EvidenceRow(job: Job, rows: seq<LedgerRow>): BillingRow {
    BillingRow(job.creditStatus, job.cost,
      DeltaOf(rows, JobReserve), CountOf(rows, JobReserve),
      DeltaOf(rows, JobRefund), CountOf(rows, JobRefund), CountZeroOf(rows, JobFinalize))
  }

  // ------------------------------------------------------------- the invariant

  predicate JobKeyed(k: LedgerKey, r: LedgerRow) {
    match k
    case ReserveKey(j) => r.job == Some(j) && r.event == JobReserve
    case FinalizeKey(j) => r.job == Some(j) && r.event == JobFinalize && r.delta == 0
    case RefundKey(j) => r.job == Some(j) && r.event == JobRefund
    case _ => r.job == None
  }

  predicate JobRowsKeyed(ledger: map<LedgerKey, LedgerRow>, jobs: map<JobId, Job>) {
    forall k :: k in ledger ==>
      ledger[k].key == k && JobKeyed(k, ledger[k]) && (ledger[k].job.Some? ==> ledger[k].job.value in jobs)
  }

  predicate JobEvidence(ledger: map<LedgerKey, LedgerRow>, j: JobId, job: Job) {
    && job.cost > 0
    && (job.creditStatus != NotCharged ==> ReserveKey(j) in ledger && ledger[ReserveKey(j)].delta == Minus(job.cost))
    && (job.creditStatus == NotCharged ==> ReserveKey(j) !in ledger)
    && (FinalizeKey(j) in ledger <==> job.creditStatus == Finalized)
    && (RefundKey(j) in ledger <==> job.creditStatus == Refunded)
    && (job.creditStatus == Refunded ==> 1 <= ledger[RefundKey(j)].delta <= job.cost)
  }

  /** What the ledger says about every job agrees with the job's own row. */
  predicate Evidence(ledger: map<LedgerKey, LedgerRow>, jobs: map<JobId, Job>) {
    JobRowsKeyed(ledger, jobs) && forall j :: j in jobs ==> JobEvidence(ledger, j, jobs[j])
  }

  // ------------------------------------------------------------ keeping it kept

  lemma EvidenceOutlivesUpkeep(l: map<LedgerKey, LedgerRow>, l': map<LedgerKey, LedgerRow>, jobs: map<JobId, Job>, u: UserId)
    requires Evidence(l, jobs) && LedgerGrows(l, l', u)
    ensures Evidence(l', jobs)
  {
    forall j | j in jobs ensures JobEvidence(l', j, jobs[j]) {
      assert JobEvidence(l, j, jobs[j]);
    }
  }

  /** The one row and the one job a credit transition writes. */
  lemma EvidenceAfter(l: map<LedgerKey, LedgerRow>, jobs: map<JobId, Job>, j: JobId, job: Job, r: LedgerRow)
    requires Evidence(l, jobs) && r.key !in l && JobKeyed(r.key, r) && r.job == Some(j)
    requires JobEvidence(l[r.key := r], j, job)
    ensures Evidence(l[r.key := r], jobs[j := job])
  {
    forall k | k in jobs && k != j ensures JobEvidence(l[r.key := r], k, jobs[k]) {
      assert JobEvidence(l, k, jobs[k]);
    }
  }

  /** A row about no job changes nothing. */
  lemma EvidenceIgnores(l: map<LedgerKey, LedgerRow>, jobs: map<JobId, Job>, r: LedgerRow)
    requires Evidence(l, jobs) && JobKeyed(r.key, r) && r.job == None
    ensures Evidence(WithRow(l, r), jobs)
  {
    forall k | k in jobs ensures JobEvidence(WithRow(l, r), k, jobs[k]) {
      assert JobEvidence(l, k, jobs[k]);
    }
  }

  // -------------------------------------------------------------- the projection

  lemma {:induction false} OneRow(rows: seq<LedgerRow>, event: LedgerEvent, r: LedgerRow)
    requires forall i, k :: 0 <= i < k < |rows| ==> rows[i].key != rows[k].key
    requires forall i :: 0 <= i < |rows| ==> (rows[i].event == event <==> rows[i].key == r.key)
    requires forall i :: 0 <= i < |rows| && rows[i].key == r.key ==> rows[i] == r
    ensures r in rows ==> CountOf(rows, event) == 1 && DeltaOf(rows, event) == Some(r.delta)
    ensures r in rows && r.delta == 0 ==> CountZeroOf(rows, event) == 1
    ensures r !in rows ==> CountOf(rows, event) == 0 && DeltaOf(rows, event) == None && CountZeroOf(rows, event) == 0
  {
    if rows != [] {
      OneRow(rows[..|rows| - 1], event, r);
    }
  }

  lemma {:induction false} NoRow(rows: seq<LedgerRow>, event: LedgerEvent)
    requires forall i :: 0 <= i < |rows| ==> rows[i].event != event
    ensures CountOf(rows, event) == 0 && DeltaOf(rows, event) == None && CountZeroOf(rows, event) == 0
  {
    if rows != [] {
      NoRow(rows[..|rows| - 1], event);
    }
  }

  /** The aggregates over one event of a job's rows. */
  lemma EventAggregates(ledger: map<LedgerKey, LedgerRow>, jobs: map<JobId, Job>, j: JobId, rows: seq<LedgerRow>,
                        event: LedgerEvent, key: LedgerKey)
    requires JobRowsKeyed(ledger, jobs) && IsJobListing(ledger, j, rows)
    requires (event, key) in {(JobReserve, ReserveKey(j)), (JobFinalize, FinalizeKey(j)), (JobRefund, RefundKey(j))}
    ensures key in ledger ==> CountOf(rows, event) == 1 && DeltaOf(rows, event) == Some(ledger[key].delta)
    ensures key in ledger && ledger[key].delta == 0 ==> CountZeroOf(rows, event) == 1
    ensures key !in ledger ==> CountOf(rows, event) == 0 && DeltaOf(rows, event) == None && CountZeroOf(rows, event) == 0
  {
    forall i | 0 <= i < |rows| ensures rows[i].event == event <==> rows[i].key == key {
      assert JobKeyed(rows[i].key, ledger[rows[i].key]);
    }
    if key in ledger {
      assert JobKeyed(key, ledger[key]);
      OneRow(rows, event, ledger[key]);
    } else {
      NoRow(rows, event);
    }
  }

  /** The label is the truth: reserved and charged exactly for reserved and finalized jobs, refunded
      exactly when the full cost came back; a partial restoration is shown as unknown. */
  lemma BillingAgrees(ledger: map<LedgerKey, LedgerRow>, jobs: map<JobId, Job>, j: JobId, rows: seq<LedgerRow>)
    requires Evidence(ledger, jobs) && j in jobs && IsJobListing(ledger, j, rows)
    ensures var shown := RenderBillingStatus(EvidenceRow(jobs[j], rows));
      && (shown == ShownReserved <==> jobs[j].creditStatus == Reserved)
      && (shown == ShownCharged <==> jobs[j].creditStatus == Finalized)
      && (shown == ShownRefunded <==>
            jobs[j].creditStatus == Refunded && RefundKey(j) in ledger && ledger[RefundKey(j)].delta == jobs[j].cost)
      && (shown == ShownUnknown <==>
            jobs[j].creditStatus == NotCharged || (RefundKey(j) in ledger && ledger[RefundKey(j)].delta < jobs[j].cost))
  {
    assert JobEvidence(ledger, j, jobs[j]);
    EventAggregates(ledger, jobs, j, rows, JobReserve, ReserveKey(j));
    EventAggregates(ledger, jobs, j, rows, JobFinalize, FinalizeKey(j));
    EventAggregates(ledger, jobs, j, rows, JobRefund, RefundKey(j));
  }
}
