/** The transactions of a render job, from its creation to its result or its compensation. */
module RenderRules {
  import opened Tables
  import opened CreditRules
  import opened CreditFacts

  /** The column default of `jobs.credit_cost`, which the schema sets to 1; any positive one will do. */
  const DEFAULT_CREDIT_COST: pos

  function NewJob(u: UserId): Job {
    Job(u, Queued, NotCharged, DEFAULT_CREDIT_COST, None)
  }

  function WithJob(t: Tables, j: JobId, u: UserId): Tables {
    t.(jobs := t.jobs[j := NewJob(u)])
  }

  /** INSERT INTO jobs and `reserve_job_credit` in one transaction; an error leaves nothing. */
  function CreateJob(t: Tables, j: JobId, u: UserId, creditCost: pos, c: Context): Result<(nat, Tables)>
    requires forall k :: 0 <= k < |c.order| ==> c.order[k] < |Balanced(WithJob(t, j, u), u, c).packages|
  {
    Reserve(WithJob(t, j, u), u, j, creditCost, c)
  }

  predicate Claimable(t: Tables, j: JobId, u: UserId) {
    j in t.jobs && t.jobs[j].owner == u && t.jobs[j].status == Queued && t.jobs[j].creditStatus == Reserved
  }

  function Claim(t: Tables, j: JobId, u: UserId): Tables {
    if Claimable(t, j, u) then t.(jobs := t.jobs[j := t.jobs[j].(status := Processing)]) else t
  }

  predicate Publishable(t: Tables, j: JobId, u: UserId) {
    j in t.jobs && t.jobs[j].owner == u && t.jobs[j].status == Processing && t.jobs[j].creditStatus == Reserved
  }

  function WithResult(t: Tables, j: JobId, a: AssetId): Tables
    requires j in t.jobs
  {
    t.(jobs := t.jobs[j := t.jobs[j].(status := Completed, result := Some(a))])
  }

  /** `_publish_render_output` */
  function Publish(t: Tables, j: JobId, u: UserId, a: AssetId, c: Context): Tables {
    if Publishable(t, j, u) then Finalize(WithResult(t, j, a), u, j, c).value.1 else t
  }

  predicate Failable(t: Tables, j: JobId, u: UserId) {
    j in t.jobs && t.jobs[j].owner == u && (t.jobs[j].status == Queued || t.jobs[j].status == Processing)
  }

  function WithFailure(t: Tables, j: JobId): Tables
    requires j in t.jobs
  {
    t.(jobs := t.jobs[j := t.jobs[j].(status := Failed)])
  }

  lemma RowsStayInTable(t: Tables, u: UserId, c: Context)
    requires RowsInTable(t.allocations, |t.packages|)
    ensures RowsInTable(t.allocations, |Balanced(t, u, c).packages|)
  {
    GetBalancePackages(t, u, c.at, c.wall, c.view);
  }

  /** `_mark_render_failed` and `_compensate_queue_publish_failure` */
  function Fail(t: Tables, j: JobId, u: UserId, c: Context): Tables
    requires RowsInTable(t.allocations, |t.packages|)
  {
    RowsStayInTable(t, u, c);
    if Failable(t, j, u) then WithFailure(RefundJob(t, u, j, c).value.1, j) else t
  }

  // --------------------------------------------------------------- job states

  /** What a user sees of a job and what happened to the credits agree; only completed jobs have results. */
  predicate JobAgrees(job: Job) {
    && (job.status == Queued || job.status == Processing <==> job.creditStatus == Reserved)
    && (job.status == Completed <==> job.creditStatus == Finalized)
    && (job.status == Failed <==> job.creditStatus == Refunded)
    && (job.result.Some? <==> job.status == Completed)
  }

  predicate JobsAgree(jobs: map<JobId, Job>) {
    forall j :: j in jobs ==> JobAgrees(jobs[j])
  }

  /** How one job row may move in one transaction: forwards, and never once it is over. */
  predicate JobMoves(p: Job, q: Job) {
    || q == p.(owner := q.owner)
    || (p.status == Queued && q == p.(status := Processing))
    || (p.status == Processing && q.result.Some? && q == p.(status := Completed, result := q.result, creditStatus := Finalized))
    || ((p.status == Queued || p.status == Processing) && q == p.(status := Failed, creditStatus := Refunded))
  }

  ghost predicate OnlyJobMoves(jobs: map<JobId, Job>, jobs': map<JobId, Job>, j: JobId) {
    && jobs'.Keys == jobs.Keys && (j in jobs ==> JobMoves(jobs[j], jobs'[j]))
    && forall k :: k in jobs && k != j ==> jobs'[k] == jobs[k]
  }

  lemma OneJobMoves(jobs: map<JobId, Job>, j: JobId, job: Job)
    requires JobsAgree(jobs) && j in jobs && JobAgrees(job) && JobMoves(jobs[j], job)
    ensures JobsAgree(jobs[j := job]) && OnlyJobMoves(jobs, jobs[j := job], j)
  {
  }

  lemma PublishWrites(t: Tables, j: JobId, u: UserId, a: AssetId, c: Context)
    requires Publishable(t, j, u)
    ensures var job := t.jobs[j].(status := Completed, result := Some(a), creditStatus := Finalized);
      Publish(t, j, u, a, c).jobs == t.jobs[j := job]
  {
  }

  /** A job of user `u` that is not over yet. */
  predicate OwnLiveJob(t: Tables, j: JobId, u: UserId) {
    j in t.jobs && t.jobs[j].owner == u && (t.jobs[j].status == Queued || t.jobs[j].status == Processing)
  }

  /** Publication: exactly the owner's job that is being processed is completed, finalized and given
      this result; a late output changes nothing at all. */
  lemma PublishOutcome(t: Tables, j: JobId, u: UserId, a: AssetId, c: Context)
    requires JobsAgree(t.jobs)
    ensures var t' := Publish(t, j, u, a, c);
      && JobsAgree(t'.jobs) && OnlyJobMoves(t.jobs, t'.jobs, j)
      && (if OwnLiveJob(t, j, u) && t.jobs[j].status == Processing
          then t'.jobs[j] == t.jobs[j].(status := Completed, result := Some(a), creditStatus := Finalized)
          else t' == t)
  {
    if Publishable(t, j, u) {
      PublishWrites(t, j, u, a, c);
      OneJobMoves(t.jobs, j, t.jobs[j].(status := Completed, result := Some(a), creditStatus := Finalized));
    }
  }

  /** Failure or compensation: exactly the owner's live job, queued or processing, is failed and
      refunded; nothing is done twice. */
  lemma FailOutcome(t: Tables, j: JobId, u: UserId, c: Context)
    requires RowsInTable(t.allocations, |t.packages|) && JobsAgree(t.jobs)
    ensures var t' := Fail(t, j, u, c);
      && JobsAgree(t'.jobs) && OnlyJobMoves(t.jobs, t'.jobs, j)
      && (if OwnLiveJob(t, j, u)
          then t'.jobs[j] == t.jobs[j].(status := Failed, creditStatus := Refunded)
          else t' == t)
  {
    RowsStayInTable(t, u, c);
    if OwnLiveJob(t, j, u) { assert JobAgrees(t.jobs[j]); }
  }

  /** A claim: exactly the owner's queued job starts to be processed. */
  lemma ClaimOutcome(t: Tables, j: JobId, u: UserId)
    requires JobsAgree(t.jobs)
    ensures var t' := Claim(t, j, u);
      && JobsAgree(t'.jobs) && OnlyJobMoves(t.jobs, t'.jobs, j)
      && (if OwnLiveJob(t, j, u) && t.jobs[j].status == Queued
          then t' == t.(jobs := t.jobs[j := t.jobs[j].(status := Processing)])
          else t' == t)
  {
    if OwnLiveJob(t, j, u) { assert JobAgrees(t.jobs[j]); }
  }
}
