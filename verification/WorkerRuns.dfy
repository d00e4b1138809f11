/** What the steps of the workers answer, in terms of the rows alone, and what they forget: no stored
    file unless a worker dies or a deletion fails, no job unless a worker dies or its user is merged away. */
module WorkerRuns {
  import opened Tables
  import opened CreditRules
  import opened MergeRules
  import opened RenderRules
  import opened Billing
  import opened Economy
  import opened World

  // -------------------------------------------------------------- single steps

  /** A queue message is acted on exactly when its job is queued and still the user's. */
  lemma TakeAnswers(w: World, k: WorkerId, j: JobId, u: UserId)
    requires WorldInv(w) && Enabled(w, Take(k, j, u))
    ensures var w' := Next(w, Take(k, j, u));
      if OwnLiveJob(w.t, j, u) && w.t.jobs[j].status == Queued
      then w'.t.jobs == w.t.jobs[j := w.t.jobs[j].(status := Processing)] && StageOf(w', k) == Working(j, u)
      else w'.t == w.t && w'.workers == w.workers
  {
    ClaimOutcome(w.t, j, u);
    if OwnLiveJob(w.t, j, u) { assert JobAgrees(w.t.jobs[j]); }
  }

  /** An output becomes the result exactly of the job that is still processed for the same user;
      otherwise its file is on its way out and no table changes. */
  lemma PublishAnswers(w: World, k: WorkerId, c: Context)
    requires WorldInv(w) && Enabled(w, PublishOne(k, c))
    ensures var (w', s) := (Next(w, PublishOne(k, c)), StageOf(w, k));
      && w'.storage == w.storage
      && (if Publishes(w.t, s)
          then HasResult(w.t, w'.t, s) && StageOf(w', k) == Idle
          else w'.t == w.t && StageOf(w', k) == Dropping(s.job, s.user, s.asset, false))
  {
    var s := StageOf(w, k);
    PublishTables(w.t, s, c);
    if Publishes(w.t, s) { assert JobAgrees(w.t.jobs[s.job]); }
  }

  /** The job is still being processed for the user the worker took it from. */
  predicate Publishes(t: Tables, s: Stage)
    requires s.Holding?
  {
    OwnLiveJob(t, s.job, s.user) && t.jobs[s.job].status == Processing
  }

  predicate HasResult(t: Tables, t': Tables, s: Stage)
    requires s.Holding? && s.job in t.jobs
  {
    && s.job in t'.jobs
    && t'.jobs[s.job] == t.jobs[s.job].(status := Completed, result := Some(s.asset), creditStatus := Finalized)
  }

  lemma PublishTables(t: Tables, s: Stage, c: Context)
    requires JobsAgree(t.jobs) && s.Holding?
    ensures var t' := Publish(t, s.job, s.user, s.asset, c);
      if Publishes(t, s) then HasResult(t, t', s) else t' == t
  {
    PublishOutcome(t, s.job, s.user, s.asset, c);
  }

  /** The job is failed and refunded, and the ledger says how much came back. */
  ghost predicate FailedAndRefunded(t: Tables, t': Tables, j: JobId)
    requires j in t.jobs
  {
    && j in t'.jobs && t'.jobs[j] == t.jobs[j].(status := Failed, creditStatus := Refunded)
    && RefundKey(j) in t'.ledger && 1 <= t'.ledger[RefundKey(j)].delta <= t.jobs[j].cost
  }

  lemma FailAnswers(w: World, e: Event, j: JobId, u: UserId, c: Context)
    requires WorldInv(w) && Enabled(w, e) && Next(w, e).t == Fail(w.t, j, u, c) && WorldInv(Next(w, e))
    ensures if OwnLiveJob(w.t, j, u) then FailedAndRefunded(w.t, Next(w, e).t, j) else Next(w, e).t == w.t
  {
    FailOutcome(w.t, j, u, c);
    if OwnLiveJob(w.t, j, u) { assert JobEvidence(Next(w, e).t.ledger, j, Next(w, e).t.jobs[j]); }
  }

  /** A failed queue push: the job, still queued or already being processed, is failed and refunded. */
  lemma CompensateAnswers(w: World, j: JobId, u: UserId, c: Context)
    requires WorldInv(w) && Enabled(w, Compensate(j, u, c))
    ensures var w' := Next(w, Compensate(j, u, c));
      if OwnLiveJob(w.t, j, u) then FailedAndRefunded(w.t, w'.t, j) else w'.t == w.t
  {
    StepKeeps(w, Compensate(j, u, c));
    FailAnswers(w, Compensate(j, u, c), j, u, c);
  }

  /** A worker that gave up ends its job in the same way, and is free again. */
  lemma ReportAnswers(w: World, k: WorkerId, c: Context)
    requires WorldInv(w) && Enabled(w, Report(k, c))
    ensures var (w', s) := (Next(w, Report(k, c)), StageOf(w, k));
      && StageOf(w', k) == Idle
      && (if OwnLiveJob(w.t, s.job, s.user) then FailedAndRefunded(w.t, w'.t, s.job) else w'.t == w.t)
  {
    StepKeeps(w, Report(k, c));
    FailAnswers(w, Report(k, c), StageOf(w, k).job, StageOf(w, k).user, c);
  }

  /** Metadata are written exactly while the worker's job is being processed. */
  lemma MetadataAnswers(w: World, k: WorkerId, generated: nat)
    requires WorldInv(w) && Enabled(w, Metadata(k, generated))
    ensures var (w', j) := (Next(w, Metadata(k, generated)), StageOf(w, k).job);
      w'.generation == if j in w.t.jobs && w.t.jobs[j].status == Processing then w.generation[j := generated] else w.generation
  {
    var j := StageOf(w, k).job;
    if j in w.t.jobs { assert JobAgrees(w.t.jobs[j]); }
  }

  // --------------------------------------------------------------- stored files

  ghost predicate IsResult(jobs: map<JobId, Job>, a: AssetId) {
    exists j :: j in jobs && jobs[j].result == Some(a)
  }

  ghost predicate InHand(workers: map<WorkerId, Stage>, a: AssetId) {
    exists k :: k in workers && HasAsset(workers[k]) && workers[k].asset == a
  }

  /** Every file stored since `before` is a job's result or in a worker's hands. */
  ghost predicate Accounted(w: World, before: set<AssetId>) {
    forall a :: a in w.storage && a !in before ==> IsResult(w.t.jobs, a) || InHand(w.workers, a)
  }

  /** The two ways to lose track of a file. */
  ghost predicate LosesTrack(w: World, e: Event) {
    (e.Die? && HasAsset(StageOf(w, e.worker))) || (e.Discard? && !e.deleted)
  }

  lemma ResultsStay(jobs: map<JobId, Job>, jobs': map<JobId, Job>, a: AssetId)
    requires JobsMove(jobs, jobs') && JobsAgree(jobs) && IsResult(jobs, a)
    ensures IsResult(jobs', a)
  {
    var j :| j in jobs && jobs[j].result == Some(a);
    assert JobAgrees(jobs[j]) && JobMoves(jobs[j], jobs'[j]);
  }

  /** An asset leaves the hands of its worker only as a result, by deletion, or by losing track. */
  lemma HandsStay(w: World, e: Event, k: WorkerId)
    requires WorldInv(w) && Enabled(w, e) && !LosesTrack(w, e)
    requires k in w.workers && HasAsset(w.workers[k]) && w.workers[k].asset in Next(w, e).storage
    ensures IsResult(Next(w, e).t.jobs, w.workers[k].asset) || InHand(Next(w, e).workers, w.workers[k].asset)
  {
    var (w', s) := (Next(w, e), w.workers[k]);
    if k in w'.workers && w'.workers[k] == s {
      assert InHand(w'.workers, s.asset);
    } else if e.PublishOne? {
      PublishAnswers(w, k, e.c);
      assert k in w'.workers;
      if w'.workers[k].Idle? { assert w'.t.jobs[s.job].result == Some(s.asset); }
    } else {
      assert e.PublishFails? && k in w'.workers && w'.workers[k].asset == s.asset;
    }
  }

  lemma StepAccounts(w: World, e: Event, before: set<AssetId>)
    requires WorldInv(w) && Enabled(w, e) && Accounted(w, before) && !LosesTrack(w, e)
    ensures Accounted(Next(w, e), before)
  {
    var w' := Next(w, e);
    StepMovesJobs(w, e);
    forall a | a in w'.storage && a !in before ensures IsResult(w'.t.jobs, a) || InHand(w'.workers, a) {
      if e.Upload? && a == e.asset {
        assert w'.workers[e.worker].asset == a;
      } else if IsResult(w.t.jobs, a) {
        ResultsStay(w.t.jobs, w'.t.jobs, a);
      } else {
        var k :| k in w.workers && HasAsset(w.workers[k]) && w.workers[k].asset == a;
        HandsStay(w, e, k);
      }
    }
  }

  lemma RunStepAccounts(ws: seq<World>, es: seq<Event>, n: nat, before: set<AssetId>)
    requires Run(ws, es) && n < |es| && Accounted(ws[n], before) && !LosesTrack(ws[n], es[n])
    ensures Accounted(ws[n + 1], before)
  {
    RunKeeps(ws, es, n);
    assert StepsAt(ws, es, n);
    StepAccounts(ws[n], es[n], before);
  }

  /** In every run in which no worker dies with a file and no deletion fails, each file stored by the
      run is the result of a job or still in the hands of a worker: late and refused outputs are
      cleaned up. */
  lemma {:induction false} NoFileIsForgotten(ws: seq<World>, es: seq<Event>, n: nat)
    requires Run(ws, es) && n < |ws| && forall i :: 0 <= i < n ==> !LosesTrack(ws[i], es[i])
    ensures Accounted(ws[n], ws[0].storage)
  {
    if n > 0 {
      NoFileIsForgotten(ws, es, n - 1);
      RunStepAccounts(ws, es, n - 1, ws[0].storage);
    }
  }

  // ------------------------------------------------------------- jobs in process

  /** The worker will still end this job of this user, one way or the other. */
  predicate Attends(s: Stage, j: JobId, u: UserId) {
    match s
    case Idle => false
    case Dropping(job, user, _, raising) => raising && job == j && user == u
    case Working(job, user) => job == j && user == u
    case Holding(job, user, _) => job == j && user == u
    case Raising(job, user) => job == j && user == u
  }

  ghost predicate IsAttended(workers: map<WorkerId, Stage>, j: JobId, u: UserId) {
    exists k :: k in workers && Attends(workers[k], j, u)
  }

  /** Every job in process, except those of `before`, has a worker that will end it. */
  ghost predicate Attended(w: World, before: set<JobId>) {
    forall j :: j in w.t.jobs && w.t.jobs[j].status == Processing && j !in before ==> IsAttended(w.workers, j, w.t.jobs[j].owner)
  }

  /** The two ways to leave a job behind: the death of its worker, and a merge of its owner. */
  ghost predicate LeavesJob(w: World, e: Event) {
    || (e.Die? && !StageOf(w, e.worker).Idle?)
    || (e.MergeOne? && exists j :: j in w.t.jobs && w.t.jobs[j].status == Processing && w.t.jobs[j].owner == e.source)
  }

  /** No job of `jobs'` is newly in process, and those of `jobs` keep their owner. */
  ghost predicate NoneStarts(jobs: map<JobId, Job>, jobs': map<JobId, Job>) {
    forall j :: j in jobs' ==>
      && (j in jobs ==> jobs'[j].owner == jobs[j].owner)
      && (jobs'[j].status == Processing ==> j in jobs && jobs[j].status == Processing)
  }

  lemma CreateStartsNone(t: Tables, j: JobId, u: UserId, creditCost: pos, c: Context)
    requires j !in t.jobs && IsFifoOrder(Balanced(WithJob(t, j, u), u, c).packages, u, c.at, c.order)
    requires CreateJob(t, j, u, creditCost, c).Ok?
    ensures NoneStarts(t.jobs, CreateJob(t, j, u, creditCost, c).value.1.jobs)
  {
    CreateShape(t, j, u, creditCost, c);
  }

  lemma PublishStartsNone(t: Tables, j: JobId, u: UserId, a: AssetId, c: Context)
    requires JobsAgree(t.jobs)
    ensures NoneStarts(t.jobs, Publish(t, j, u, a, c).jobs)
  {
    PublishOutcome(t, j, u, a, c);
  }

  lemma FailStartsNone(t: Tables, j: JobId, u: UserId, c: Context)
    requires RowsInTable(t.allocations, |t.packages|) && JobsAgree(t.jobs)
    ensures NoneStarts(t.jobs, Fail(t, j, u, c).jobs)
  {
    FailOutcome(t, j, u, c);
  }

  lemma OtherStepsStartNone(w: World, e: Event)
    requires WorldInv(w) && Enabled(w, e) && !OfJob(e) && !e.MergeOne?
    ensures Next(w, e).t.jobs == w.t.jobs
  {
    if !WritesCredits(e) { PaymentStepFrame(w, e); }
  }

  lemma StepStartsNone(w: World, e: Event)
    requires WorldInv(w) && Enabled(w, e) && !e.Take? && !e.MergeOne?
    ensures NoneStarts(w.t.jobs, Next(w, e).t.jobs)
  {
    match e
    case CreateOne(i, u, creditCost, c) =>
      if CreateJob(w.t, i, u, creditCost, c).Ok? { CreateStartsNone(w.t, i, u, creditCost, c); }
    case PublishOne(k, c) => PublishStartsNone(w.t, StageOf(w, k).job, StageOf(w, k).user, StageOf(w, k).asset, c);
    case Report(k, c) => FailStartsNone(w.t, StageOf(w, k).job, StageOf(w, k).user, c);
    case Compensate(i, u, c) => FailStartsNone(w.t, i, u, c);
    case _ => OtherStepsStartNone(w, e);
  }

  /** A job is in process after a step only if it was before or was just taken, and only a merge
      changes its owner. */
  lemma ProcessingBefore(w: World, e: Event, j: JobId)
    requires WorldInv(w) && Enabled(w, e) && j in Next(w, e).t.jobs
    ensures j in w.t.jobs && !e.MergeOne? ==> Next(w, e).t.jobs[j].owner == w.t.jobs[j].owner
    ensures Next(w, e).t.jobs[j].status == Processing ==>
      (j in w.t.jobs && w.t.jobs[j].status == Processing) || (e.Take? && e.job == j && Claims(w, e))
  {
    if e.Take? {
      ClaimOutcome(w.t, e.job, e.user);
    } else if e.MergeOne? {
      MergeKeepsWorkers(w, e);
    } else {
      StepStartsNone(w, e);
    }
  }

  /** A worker that publishes or reports for its user's job in process ends it. */
  lemma EndingEnds(w: World, e: Event, j: JobId)
    requires WorldInv(w) && Enabled(w, e) && (e.PublishOne? || e.Report?)
    requires j in w.t.jobs && w.t.jobs[j].status == Processing && Attends(StageOf(w, e.worker), j, w.t.jobs[j].owner)
    ensures j in Next(w, e).t.jobs ==> Next(w, e).t.jobs[j].status != Processing
  {
    if e.PublishOne? { PublishAnswers(w, e.worker, e.c); } else { ReportAnswers(w, e.worker, e.c); }
  }

  /** No other step makes a worker stop attending its job, short of its death. */
  lemma StagesGoOn(w: World, e: Event, k: WorkerId, j: JobId, u: UserId)
    requires Enabled(w, e) && !(e.Die? && !StageOf(w, e.worker).Idle?)
    requires (e.PublishOne? || e.Report?) ==> e.worker != k
    requires k in w.workers && Attends(w.workers[k], j, u)
    ensures k in WorkersAfter(w, e) && Attends(WorkersAfter(w, e)[k], j, u)
  {
  }

  /** A worker goes on attending a job that stays in process. */
  lemma WorkerGoesOn(w: World, e: Event, k: WorkerId, j: JobId)
    requires WorldInv(w) && Enabled(w, e) && !(e.Die? && !StageOf(w, e.worker).Idle?) && !e.MergeOne?
    requires k in w.workers && j in w.t.jobs && Attends(w.workers[k], j, w.t.jobs[j].owner) && w.t.jobs[j].status == Processing
    requires j in Next(w, e).t.jobs && Next(w, e).t.jobs[j].status == Processing
    ensures k in Next(w, e).workers && Attends(Next(w, e).workers[k], j, w.t.jobs[j].owner)
  {
    if (e.PublishOne? || e.Report?) && e.worker == k {
      EndingEnds(w, e, j);
    } else {
      StagesGoOn(w, e, k, j, w.t.jobs[j].owner);
    }
  }

  lemma MergeKeepsWorkers(w: World, e: Event)
    requires Enabled(w, e) && e.MergeOne?
    ensures Next(w, e).workers == w.workers && Next(w, e).t.jobs == MoveJobs(w.t.jobs, e.source, e.survivor)
  {
    MergeShape(w.t, e.source, e.survivor, e.at);
  }

  lemma StepAttends(w: World, e: Event, before: set<JobId>, j: JobId)
    requires WorldInv(w) && Enabled(w, e) && Attended(w, before) && !LeavesJob(w, e)
    requires j in Next(w, e).t.jobs && Next(w, e).t.jobs[j].status == Processing && j !in before
    ensures IsAttended(Next(w, e).workers, j, Next(w, e).t.jobs[j].owner)
  {
    ProcessingBefore(w, e, j);
    if j in w.t.jobs && w.t.jobs[j].status == Processing {
      assert IsAttended(w.workers, j, w.t.jobs[j].owner);
      var k :| k in w.workers && Attends(w.workers[k], j, w.t.jobs[j].owner);
      if e.MergeOne? {
        MergeKeepsWorkers(w, e);
      } else {
        WorkerGoesOn(w, e, k, j);
      }
    } else {
      TakeAnswers(w, e.worker, j, e.user);
      assert Attends(Next(w, e).workers[e.worker], j, e.user);
    }
  }

  lemma RunStepAttends(ws: seq<World>, es: seq<Event>, n: nat, before: set<JobId>)
    requires Run(ws, es) && n < |es| && Attended(ws[n], before) && !LeavesJob(ws[n], es[n])
    ensures Attended(ws[n + 1], before)
  {
    RunKeeps(ws, es, n);
    assert StepsAt(ws, es, n);
    forall j | j in ws[n + 1].t.jobs && ws[n + 1].t.jobs[j].status == Processing && j !in before
      ensures IsAttended(ws[n + 1].workers, j, ws[n + 1].t.jobs[j].owner)
    {
      StepAttends(ws[n], es[n], before, j);
    }
  }

  function InProcess(jobs: map<JobId, Job>): set<JobId> {
    set j | j in jobs && jobs[j].status == Processing
  }

  /** In every run in which no busy worker dies and nobody is merged away while a job of his is in
      process, each job taken up by the run is completed, failed, or still has its worker. */
  lemma {:induction false} NoJobIsAbandoned(ws: seq<World>, es: seq<Event>, n: nat)
    requires Run(ws, es) && n < |ws| && forall i :: 0 <= i < n ==> !LeavesJob(ws[i], es[i])
    ensures Attended(ws[n], InProcess(ws[0].t.jobs))
  {
    if n > 0 {
      NoJobIsAbandoned(ws, es, n - 1);
      RunStepAttends(ws, es, n - 1, InProcess(ws[0].t.jobs));
    }
  }

  // ------------------------------------------------------- merges during a render

  /** `j` is not `u`'s, who was merged away. */
  predicate LeftBehind(w: World, j: JobId, u: UserId) {
    u in w.merged && j in w.t.jobs && w.t.jobs[j].owner != u
  }

  lemma StepLeavesBehind(w: World, e: Event, j: JobId, u: UserId)
    requires WorldInv(w) && Enabled(w, e) && LeftBehind(w, j, u)
    ensures LeftBehind(Next(w, e), j, u)
  {
    StepMovesJobs(w, e);
    if e.MergeOne? { MergeKeepsWorkers(w, e); } else { ProcessingBefore(w, e, j); }
  }

  /** What is left behind before a step still is after it. */
  predicate StaysBehind(w: World, w': World, j: JobId, u: UserId) {
    LeftBehind(w, j, u) ==> LeftBehind(w', j, u)
  }

  lemma RunStepLeavesBehind(ws: seq<World>, es: seq<Event>, n: nat, j: JobId, u: UserId)
    requires Run(ws, es) && n < |es|
    ensures StaysBehind(ws[n], ws[n + 1], j, u)
  {
    RunKeeps(ws, es, n);
    assert StepsAt(ws, es, n);
    if LeftBehind(ws[n], j, u) { StepLeavesBehind(ws[n], es[n], j, u); }
  }

  lemma {:induction false} BehindAlong(ws: seq<World>, i: nat, n: nat, j: JobId, u: UserId)
    requires i <= n < |ws| && LeftBehind(ws[i], j, u)
    requires forall k :: i <= k < n ==> StaysBehind(ws[k], ws[k + 1], j, u)
    ensures LeftBehind(ws[n], j, u)
  {
    if i < n {
      BehindAlong(ws, i, n - 1, j, u);
      assert StaysBehind(ws[n - 1], ws[n - 1 + 1], j, u);
    }
  }

  lemma LeftBehindForGood(ws: seq<World>, es: seq<Event>, i: nat, n: nat, j: JobId, u: UserId)
    requires Run(ws, es) && i <= n < |ws| && LeftBehind(ws[i], j, u)
    ensures LeftBehind(ws[n], j, u)
  {
    forall k | i <= k < n ensures StaysBehind(ws[k], ws[k + 1], j, u) {
      RunStepLeavesBehind(ws, es, k, j, u);
    }
    BehindAlong(ws, i, n, j, u);
  }

  lemma RunMergeLeavesBehind(ws: seq<World>, es: seq<Event>, n: nat, j: JobId)
    requires Run(ws, es) && n < |es| && es[n].MergeOne? && j in ws[n].t.jobs
    ensures LeftBehind(ws[n + 1], j, es[n].source)
  {
    assert StepsAt(ws, es, n);
    MergeKeepsWorkers(ws[n], es[n]);
  }

  /** The worker reports for job `j` as user `u`'s, with an output or without one. */
  predicate Ends(w: World, e: Event, j: JobId, u: UserId) {
    || (e.PublishOne? && StageOf(w, e.worker).Holding? && StageOf(w, e.worker).job == j && StageOf(w, e.worker).user == u)
    || (e.Report? && StageOf(w, e.worker).Raising? && StageOf(w, e.worker).job == j && StageOf(w, e.worker).user == u)
    || (e.Compensate? && e.job == j && e.user == u)
  }

  lemma RunEndIgnored(ws: seq<World>, es: seq<Event>, n: nat, j: JobId, u: UserId)
    requires Run(ws, es) && n < |es| && LeftBehind(ws[n], j, u) && Ends(ws[n], es[n], j, u)
    ensures ws[n + 1].t == ws[n].t
  {
    RunKeeps(ws, es, n);
    assert StepsAt(ws, es, n);
    match es[n]
    case PublishOne(k, c) => PublishAnswers(ws[n], k, c);
    case Report(k, c) => ReportAnswers(ws[n], k, c);
    case Compensate(_, _, c) => CompensateAnswers(ws[n], j, u, c);
  }

  /** After a merge nothing a worker reports for a job it took from the merged user changes any table,
      at any later moment of the run: a job in process at the merge is neither completed nor refunded
      by its worker. */
  lemma MergeStrandsRender(ws: seq<World>, es: seq<Event>, i: nat, n: nat, j: JobId)
    requires Run(ws, es) && i < n < |es| && es[i].MergeOne? && j in ws[i].t.jobs
    requires Ends(ws[n], es[n], j, es[i].source)
    ensures ws[n + 1].t == ws[n].t
  {
    RunMergeLeavesBehind(ws, es, i, j);
    LeftBehindForGood(ws, es, i + 1, n, j, es[i].source);
    RunEndIgnored(ws, es, n, j, es[i].source);
  }
}
