/** The whole system as a state machine: any number of workers, HTTP requests, payment callbacks and
    timers, each database transaction one step with clocks of its own, interleaved in any order. */
module World {
  import opened Sums
  import opened Tables
  import opened CreditRules
  import opened Pricing
  import opened PaymentRules
  import opened PaymentFacts
  import opened MergeRules
  import opened RenderRules
  import opened Conservation
  import opened Economy

  type WorkerId = nat

  /** Where a worker stands in `process_jobs_loop` and `process_render_job`, between two awaits. */
  datatype Stage =
    | Idle
    | Working(job: JobId, user: UserId)
    | Holding(job: JobId, user: UserId, asset: AssetId)
    | Dropping(job: JobId, user: UserId, asset: AssetId, raising: bool)
    | Raising(job: JobId, user: UserId)

  /** `uploaded` are all asset ids ever used; `generation` is the metadata column group of the jobs. */
  datatype World = World(
    t: Tables, merged: set<UserId>, losses: Losses,
    workers: map<WorkerId, Stage>, storage: set<AssetId>, uploaded: set<AssetId>, generation: map<JobId, nat>)

  datatype Event =
    | CreateOne(job: JobId, user: UserId, creditCost: pos, c: Context)
    | Take(worker: WorkerId, job: JobId, user: UserId)
    | TakeFails(worker: WorkerId, job: JobId, user: UserId)
    | Metadata(worker: WorkerId, generated: nat)
    | Upload(worker: WorkerId, asset: AssetId)
    | PublishOne(worker: WorkerId, c: Context)
    | PublishFails(worker: WorkerId)
    | Discard(worker: WorkerId, deleted: bool)
    | Raise(worker: WorkerId)
    | Report(worker: WorkerId, c: Context)
    | Die(worker: WorkerId)
    | Compensate(job: JobId, user: UserId, c: Context)
    | AskBalance(user: UserId, c: Context)
    | SignIn(user: UserId, c: Context)
    | StartTopUp(invoice: InvoiceId, id: nat, user: UserId, kopecks: nat, providerId: nat, at: Instant)
    | PaidCallback(invoice: InvoiceId, providerId: nat, paidSum: Decimal, c: Context)
    | FailureReturn(invoice: InvoiceId, providerId: nat, outSum: Option<Decimal>)
    | TimeoutScan(now: Instant, batch: nat, locked: set<InvoiceId>, chosen: set<InvoiceId>)
    | MergeOne(source: UserId, survivor: UserId, at: Instant)

  function StageOf(w: World, k: WorkerId): Stage {
    if k in w.workers then w.workers[k] else Idle
  }

  /** What the code and its environment let happen. Queue messages (job, user) are arbitrary, so they
      may be replayed, late, or carry an owner from before a merge. */
  ghost predicate Enabled(w: World, e: Event) {
    RowsInTable(w.t.allocations, |w.t.packages|) &&
    match e
    case CreateOne(j, u, _, c) => j !in w.t.jobs && IsFifoOrder(Balanced(WithJob(w.t, j, u), u, c).packages, u, c.at, c.order)
    case Take(k, _, _) => StageOf(w, k).Idle?
    case TakeFails(k, _, _) => StageOf(w, k).Idle?
    case Metadata(k, _) => StageOf(w, k).Working?
    case Upload(k, a) => StageOf(w, k).Working? && a !in w.uploaded
    case PublishOne(k, _) => StageOf(w, k).Holding?
    case PublishFails(k) => StageOf(w, k).Holding?
    case Discard(k, _) => StageOf(w, k).Dropping?
    case Raise(k) => StageOf(w, k).Working?
    case Report(k, _) => StageOf(w, k).Raising?
    case Die(_) => true
    case Compensate(_, _, _) => true
    case AskBalance(_, _) => true
    case SignIn(_, _) => true
    case StartTopUp(i, _, _, kopecks, _, _) => i !in w.t.payments && InRange(kopecks)
    case PaidCallback(_, _, _, _) => true
    case FailureReturn(_, _, _) => true
    case TimeoutScan(now, batch, locked, chosen) => IsTimeoutBatch(w.t.payments, now, batch, locked, chosen)
    case MergeOne(source, survivor, _) => source != survivor && source !in w.merged && survivor !in w.merged
  }

  /** The tables after a step; a rejected request leaves them as they were. */
  ghost function TablesAfter(w: World, e: Event): Tables
    requires Enabled(w, e)
  {
    var t := w.t;
    match e
    case CreateOne(j, u, creditCost, c) =>
      (match CreateJob(t, j, u, creditCost, c) case Err(_) => t case Ok(v) => v.1)
    case Take(_, j, u) => Claim(t, j, u)
    case PublishOne(k, c) => Publish(t, StageOf(w, k).job, StageOf(w, k).user, StageOf(w, k).asset, c)
    case Report(k, c) => Fail(t, StageOf(w, k).job, StageOf(w, k).user, c)
    case Compensate(j, u, c) => Fail(t, j, u, c)
    case AskBalance(u, c) => Balanced(t, u, c)
    case SignIn(u, c) => Ensured(t, u, c)
    case StartTopUp(i, id, u, kopecks, providerId, at) => t.(payments := TopUp(t.payments, i, id, u, kopecks, providerId, at))
    case PaidCallback(i, providerId, outSum, c) =>
      (match MarkPaid(t, i, providerId, outSum, c) case Err(_) => t case Ok(t') => t')
    case FailureReturn(i, providerId, outSum) =>
      (match MarkFailed(t, i, providerId, outSum) case Err(_) => t case Ok(t') => t')
    case TimeoutScan(_, _, _, chosen) => t.(payments := Cancel(t.payments, chosen))
    case MergeOne(source, survivor, at) => Merge(t, source, survivor, at)
    case _ => t
  }

  /** The losses the step records. */
  ghost function LossesAfter(w: World, e: Event): Losses
    requires Enabled(w, e)
  {
    var t, l := w.t, w.losses;
    match e
    case CreateOne(j, u, creditCost, c) =>
      if CreateJob(t, j, u, creditCost, c).Ok? then AfterBalance(l, WithJob(t, j, u), u, c) else l
    case PublishOne(k, c) => AfterPublish(l, t, StageOf(w, k).job, StageOf(w, k).user, StageOf(w, k).asset, c)
    case Report(k, c) => AfterFail(l, t, StageOf(w, k).job, StageOf(w, k).user, c)
    case Compensate(j, u, c) => AfterFail(l, t, j, u, c)
    case AskBalance(u, c) => AfterBalance(l, t, u, c)
    case SignIn(u, c) => AfterEnsure(l, t, u, c)
    case PaidCallback(i, providerId, outSum, c) =>
      if MarkPaid(t, i, providerId, outSum, c).Ok? then AfterPaid(l, t, i, c) else l
    case MergeOne(source, survivor, at) => AfterMerge(l, t, source, survivor, at)
    case _ => l
  }

  /** Where the step leaves its worker. */
  function WorkersAfter(w: World, e: Event): map<WorkerId, Stage> {
    match e
    case Take(k, j, u) => if Claimable(w.t, j, u) then w.workers[k := Working(j, u)] else w.workers
    case TakeFails(k, j, u) => w.workers[k := Raising(j, u)]
    case Upload(k, a) =>
      (match StageOf(w, k) case Working(j, u) => w.workers[k := Holding(j, u, a)] case _ => w.workers)
    case PublishOne(k, _) =>
      (match StageOf(w, k)
       case Holding(j, u, a) => w.workers[k := if Publishable(w.t, j, u) then Idle else Dropping(j, u, a, false)]
       case _ => w.workers)
    case PublishFails(k) =>
      (match StageOf(w, k) case Holding(j, u, a) => w.workers[k := Dropping(j, u, a, true)] case _ => w.workers)
    case Discard(k, _) =>
      (match StageOf(w, k)
       case Dropping(j, u, _, raising) => w.workers[k := if raising then Raising(j, u) else Idle]
       case _ => w.workers)
    case Raise(k) =>
      (match StageOf(w, k) case Working(j, u) => w.workers[k := Raising(j, u)] case _ => w.workers)
    case Report(k, _) => w.workers[k := Idle]
    case Die(k) => w.workers[k := Idle]
    case _ => w.workers
  }

  function StorageAfter(w: World, e: Event): set<AssetId> {
    match e
    case Upload(_, a) => w.storage + {a}
    case Discard(k, deleted) =>
      if deleted && StageOf(w, k).Dropping? then w.storage - {StageOf(w, k).asset} else w.storage
    case _ => w.storage
  }

  /** `_persist_generation_metadata`: only while the job is processing and reserved. */
  function GenerationAfter(w: World, e: Event): map<JobId, nat> {
    match e
    case Metadata(k, generated) =>
      (match StageOf(w, k)
       case Working(j, _) =>
         if j in w.t.jobs && w.t.jobs[j].status == Processing && w.t.jobs[j].creditStatus == Reserved
         then w.generation[j := generated] else w.generation
       case _ => w.generation)
    case _ => w.generation
  }

  ghost function Next(w: World, e: Event): World
    requires Enabled(w, e)
  {
    World(
      TablesAfter(w, e),
      if e.MergeOne? then w.merged + {e.source} else w.merged,
      LossesAfter(w, e),
      WorkersAfter(w, e),
      StorageAfter(w, e),
      if e.Upload? then w.uploaded + {e.asset} else w.uploaded,
      GenerationAfter(w, e))
  }

  // ------------------------------------------------------------- the invariant

  ghost predicate HasAsset(s: Stage) {
    s.Holding? || s.Dropping?
  }

  /** Published results stay in storage; an asset a worker may still delete is nobody's result. */
  ghost predicate AssetsSafe(jobs: map<JobId, Job>, workers: map<WorkerId, Stage>, storage: set<AssetId>, uploaded: set<AssetId>) {
    && (forall j :: j in jobs && jobs[j].result.Some? ==> jobs[j].result.value in storage * uploaded)
    && (forall j, k :: j in jobs && k in jobs && j != k && jobs[j].result.Some? ==> jobs[j].result != jobs[k].result)
    && (forall k :: k in workers && HasAsset(workers[k]) ==> workers[k].asset in uploaded)
    && (forall k :: k in workers && workers[k].Holding? ==> workers[k].asset in storage)
    && (forall k, j :: k in workers && HasAsset(workers[k]) && j in jobs ==> jobs[j].result != Some(workers[k].asset))
    && (forall k, l :: k in workers && l in workers && k != l && HasAsset(workers[k]) && HasAsset(workers[l]) ==>
          workers[k].asset != workers[l].asset)
  }

  ghost predicate WorldInv(w: World) {
    EconomyInv(w.t, w.merged, w.losses) && AssetsSafe(w.t.jobs, w.workers, w.storage, w.uploaded)
  }

  /** A new deployment. */
  ghost predicate Initial(w: World) {
    w.t == Tables([], map[], map[], [], map[], map[]) && w.losses == Losses([], [])
    && w.merged == {} && w.workers == map[] && w.uploaded == {} && w.generation == map[]
  }

  lemma InitialHolds(w: World)
    requires Initial(w)
    ensures WorldInv(w)
  {
  }

  // ------------------------------------------------------------------ the steps

  /** A step of a render job, from its creation to its end. */
  predicate OfJob(e: Event) {
    e.CreateOne? || e.Take? || e.PublishOne? || e.Report? || e.Compensate?
  }

  lemma JobStepKeepsEconomy(w: World, e: Event)
    requires EconomyInv(w.t, w.merged, w.losses) && Enabled(w, e) && OfJob(e)
    ensures EconomyInv(Next(w, e).t, Next(w, e).merged, Next(w, e).losses)
  {
    var t, m, l := w.t, w.merged, w.losses;
    match e
    case CreateOne(j, u, creditCost, c) =>
      if CreateJob(t, j, u, creditCost, c).Ok? { CreateKeepsEconomy(t, m, l, j, u, creditCost, c); }
    case Take(_, j, u) => ClaimKeepsEconomy(t, m, l, j, u);
    case PublishOne(k, c) => PublishKeepsEconomy(t, m, l, StageOf(w, k).job, StageOf(w, k).user, StageOf(w, k).asset, c);
    case Report(k, c) => FailKeepsEconomy(t, m, l, StageOf(w, k).job, StageOf(w, k).user, c);
    case Compensate(j, u, c) => FailKeepsEconomy(t, m, l, j, u, c);
  }

  lemma StepKeepsEconomy(w: World, e: Event)
    requires EconomyInv(w.t, w.merged, w.losses) && Enabled(w, e)
    ensures EconomyInv(Next(w, e).t, Next(w, e).merged, Next(w, e).losses)
  {
    var t, m, l := w.t, w.merged, w.losses;
    if OfJob(e) { JobStepKeepsEconomy(w, e); return; }
    match e
    case AskBalance(u, c) => BalanceKeepsEconomy(t, m, l, u, c);
    case SignIn(u, c) => EnsureKeepsEconomy(t, m, l, u, c);
    case PaidCallback(i, providerId, outSum, c) =>
      if MarkPaid(t, i, providerId, outSum, c).Ok? { PaidKeepsEconomy(t, m, l, i, providerId, outSum, c); }
    case MergeOne(source, survivor, at) => MergeKeepsEconomy(t, m, l, source, survivor, at);
    case _ => PaymentStepKeepsEconomy(w, e);
  }

  predicate WritesCredits(e: Event) {
    OfJob(e) || e.AskBalance? || e.SignIn? || e.PaidCallback? || e.MergeOne?
  }

  /** The steps that write no table but payments, or none. */
  lemma PaymentStepKeepsEconomy(w: World, e: Event)
    requires EconomyInv(w.t, w.merged, w.losses) && Enabled(w, e)
    requires !WritesCredits(e)
    ensures EconomyInv(Next(w, e).t, Next(w, e).merged, Next(w, e).losses)
  {
    PaymentStepMoves(w, e);
    UnpaidKeepsRecorded(w.t.ledger, w.t.payments, Next(w, e).t.payments);
    PaymentsKeepEconomy(w.t, w.merged, w.losses, Next(w, e).t.payments);
  }

  lemma PaymentStepFrame(w: World, e: Event)
    requires Enabled(w, e) && !WritesCredits(e)
    ensures var w' := Next(w, e);
      w'.t == w.t.(payments := w'.t.payments) && w'.merged == w.merged && w'.losses == w.losses
    ensures !e.StartTopUp? && !e.FailureReturn? && !e.TimeoutScan? ==> Next(w, e).t == w.t
  {
  }

  lemma PaymentStepMoves(w: World, e: Event)
    requires PaymentsSettled(w.t.packages, w.t.payments) && Enabled(w, e)
    requires !WritesCredits(e)
    ensures var w' := Next(w, e);
      && w'.t == w.t.(payments := w'.t.payments) && w'.merged == w.merged && w'.losses == w.losses
      && PaymentsMove(w.t.payments, w'.t.payments) && PaymentsSettled(w.t.packages, w'.t.payments)
      && NoneSettled(w.t.payments, w'.t.payments)
  {
    var ps, payments := w.t.packages, w.t.payments;
    PaymentStepFrame(w, e);
    match e
    case StartTopUp(i, id, u, kopecks, providerId, at) => TopUpOutcome(ps, payments, i, id, u, kopecks, providerId, at);
    case FailureReturn(i, providerId, outSum) =>
      if MarkFailed(w.t, i, providerId, outSum).Ok? { MarkFailedOutcome(w.t, i, providerId, outSum); }
    case TimeoutScan(now, batch, locked, chosen) => CancelOutcome(ps, payments, now, batch, locked, chosen);
    case _ =>
  }

  /** Jobs move forwards only, new ones have no result, and a new result comes from the worker that
      published it. */
  ghost predicate JobsMove(jobs: map<JobId, Job>, jobs': map<JobId, Job>) {
    && (forall j :: j in jobs ==> j in jobs' && JobMoves(jobs[j], jobs'[j]))
    && (forall j :: j in jobs' && j !in jobs ==> jobs'[j].result == None)
  }

  ghost predicate SameResults(jobs: map<JobId, Job>, jobs': map<JobId, Job>) {
    && (forall j :: j in jobs ==> j in jobs')
    && forall k :: k in jobs' ==> jobs'[k].result == if k in jobs then jobs[k].result else None
  }

  lemma CreateMovesJobs(t: Tables, j: JobId, u: UserId, creditCost: pos, c: Context)
    requires j !in t.jobs && IsFifoOrder(Balanced(WithJob(t, j, u), u, c).packages, u, c.at, c.order)
    requires CreateJob(t, j, u, creditCost, c).Ok?
    ensures var jobs' := CreateJob(t, j, u, creditCost, c).value.1.jobs;
      JobsMove(t.jobs, jobs') && SameResults(t.jobs, jobs')
  {
    CreateShape(t, j, u, creditCost, c);
  }

  lemma ClaimMovesJobs(t: Tables, j: JobId, u: UserId)
    ensures JobsMove(t.jobs, Claim(t, j, u).jobs) && SameResults(t.jobs, Claim(t, j, u).jobs)
  {
  }

  lemma FailMovesJobs(t: Tables, j: JobId, u: UserId, c: Context)
    requires RowsInTable(t.allocations, |t.packages|) && JobsAgree(t.jobs)
    ensures JobsMove(t.jobs, Fail(t, j, u, c).jobs) && SameResults(t.jobs, Fail(t, j, u, c).jobs)
  {
    FailOutcome(t, j, u, c);
  }

  lemma PublishMovesJobs(t: Tables, j: JobId, u: UserId, a: AssetId, c: Context)
    requires JobsAgree(t.jobs)
    ensures JobsMove(t.jobs, Publish(t, j, u, a, c).jobs)
  {
    PublishOutcome(t, j, u, a, c);
  }

  lemma PaidMovesNoJob(t: Tables, i: InvoiceId, providerId: nat, outSum: Decimal, c: Context)
    requires MarkPaid(t, i, providerId, outSum, c).Ok?
    ensures MarkPaid(t, i, providerId, outSum, c).value.jobs == t.jobs
  {
  }

  lemma MergeMovesJobs(t: Tables, source: UserId, survivor: UserId, at: Instant)
    requires source != survivor
    ensures var jobs' := Merge(t, source, survivor, at).jobs;
      JobsMove(t.jobs, jobs') && SameResults(t.jobs, jobs')
  {
    MergeShape(t, source, survivor, at);
  }

  lemma StillJobs(jobs: map<JobId, Job>)
    ensures JobsMove(jobs, jobs) && SameResults(jobs, jobs)
  {
  }

  lemma StepMovesJobs(w: World, e: Event)
    requires JobsAgree(w.t.jobs) && PaymentsSettled(w.t.packages, w.t.payments) && Enabled(w, e)
    ensures JobsMove(w.t.jobs, Next(w, e).t.jobs)
    ensures !e.PublishOne? ==> SameResults(w.t.jobs, Next(w, e).t.jobs)
  {
    var t := w.t;
    StillJobs(t.jobs);
    match e
    case CreateOne(j, u, creditCost, c) =>
      if CreateJob(t, j, u, creditCost, c).Ok? { CreateMovesJobs(t, j, u, creditCost, c); }
    case Take(_, j, u) => ClaimMovesJobs(t, j, u);
    case PublishOne(k, c) => PublishMovesJobs(t, StageOf(w, k).job, StageOf(w, k).user, StageOf(w, k).asset, c);
    case Report(k, c) => FailMovesJobs(t, StageOf(w, k).job, StageOf(w, k).user, c);
    case Compensate(j, u, c) => FailMovesJobs(t, j, u, c);
    case AskBalance(u, c) =>
    case SignIn(u, c) =>
    case PaidCallback(i, providerId, outSum, c) =>
      if MarkPaid(t, i, providerId, outSum, c).Ok? { PaidMovesNoJob(t, i, providerId, outSum, c); }
    case MergeOne(source, survivor, at) => MergeMovesJobs(t, source, survivor, at);
    case _ => PaymentStepMoves(w, e);
  }

  // ------------------------------------------------------------------- assets

  /** Jobs moved without a result being written: assets are safe for the same workers and storage. */
  lemma SameResultsSafe(jobs: map<JobId, Job>, jobs': map<JobId, Job>, workers: map<WorkerId, Stage>,
                        storage: set<AssetId>, uploaded: set<AssetId>)
    requires AssetsSafe(jobs, workers, storage, uploaded) && SameResults(jobs, jobs')
    ensures AssetsSafe(jobs', workers, storage, uploaded)
  {
  }

  /** A worker that lets go of its asset, or keeps the one it has. */
  lemma KeepOrDropSafe(jobs: map<JobId, Job>, workers: map<WorkerId, Stage>, storage: set<AssetId>,
                       uploaded: set<AssetId>, k: WorkerId, s: Stage)
    requires AssetsSafe(jobs, workers, storage, uploaded)
    requires s.Dropping? ==> k in workers && HasAsset(workers[k]) && s.asset == workers[k].asset
    requires !s.Holding?
    ensures AssetsSafe(jobs, workers[k := s], storage, uploaded)
  {
  }

  lemma UploadSafe(jobs: map<JobId, Job>, workers: map<WorkerId, Stage>, storage: set<AssetId>,
                   uploaded: set<AssetId>, k: WorkerId, j: JobId, u: UserId, a: AssetId)
    requires AssetsSafe(jobs, workers, storage, uploaded) && a !in uploaded
    ensures AssetsSafe(jobs, workers[k := Holding(j, u, a)], storage + {a}, uploaded + {a})
  {
  }

  lemma DiscardSafe(jobs: map<JobId, Job>, workers: map<WorkerId, Stage>, storage: set<AssetId>,
                    uploaded: set<AssetId>, k: WorkerId)
    requires AssetsSafe(jobs, workers, storage, uploaded) && k in workers && workers[k].Dropping?
    ensures AssetsSafe(jobs, workers, storage - {workers[k].asset}, uploaded)
  {
  }

  lemma PublishSafe(jobs: map<JobId, Job>, workers: map<WorkerId, Stage>, storage: set<AssetId>,
                    uploaded: set<AssetId>, k: WorkerId, j: JobId, job: Job)
    requires AssetsSafe(jobs, workers, storage, uploaded) && k in workers && workers[k].Holding? && j in jobs
    requires job.result == Some(workers[k].asset)
    ensures AssetsSafe(jobs[j := job], workers[k := Idle], storage, uploaded)
  {
  }

  lemma PublishStepSafe(w: World, e: Event)
    requires AssetsSafe(w.t.jobs, w.workers, w.storage, w.uploaded) && Enabled(w, e) && e.PublishOne?
    ensures var w' := Next(w, e);
      AssetsSafe(w'.t.jobs, w'.workers, w'.storage, w'.uploaded)
  {
    var k, s, jobs := e.worker, StageOf(w, e.worker), w.t.jobs;
    if Publishable(w.t, s.job, s.user) {
      PublishWrites(w.t, s.job, s.user, s.asset, e.c);
      var job := jobs[s.job].(status := Completed, result := Some(s.asset), creditStatus := Finalized);
      PublishSafe(jobs, w.workers, w.storage, w.uploaded, k, s.job, job);
    } else {
      KeepOrDropSafe(jobs, w.workers, w.storage, w.uploaded, k, Dropping(s.job, s.user, s.asset, false));
    }
  }

  lemma WorkerStepSafe(w: World, e: Event)
    requires AssetsSafe(w.t.jobs, w.workers, w.storage, w.uploaded) && Enabled(w, e) && !e.PublishOne?
    ensures var w' := Next(w, e);
      AssetsSafe(w.t.jobs, w'.workers, w'.storage, w'.uploaded)
  {
    var jobs, workers, storage, uploaded := w.t.jobs, w.workers, w.storage, w.uploaded;
    match e
    case Take(k, j, u) =>
      if Claimable(w.t, j, u) { KeepOrDropSafe(jobs, workers, storage, uploaded, k, Working(j, u)); }
    case TakeFails(k, j, u) => KeepOrDropSafe(jobs, workers, storage, uploaded, k, Raising(j, u));
    case Upload(k, a) => UploadSafe(jobs, workers, storage, uploaded, k, StageOf(w, k).job, StageOf(w, k).user, a);
    case PublishFails(k) =>
      var s := StageOf(w, k);
      KeepOrDropSafe(jobs, workers, storage, uploaded, k, Dropping(s.job, s.user, s.asset, true));
    case Discard(k, deleted) =>
      var s := StageOf(w, k);
      DiscardSafe(jobs, workers, storage, uploaded, k);
      KeepOrDropSafe(jobs, workers, if deleted then storage - {s.asset} else storage, uploaded, k,
        if s.raising then Raising(s.job, s.user) else Idle);
    case Raise(k) => KeepOrDropSafe(jobs, workers, storage, uploaded, k, Raising(StageOf(w, k).job, StageOf(w, k).user));
    case Report(k, _) => KeepOrDropSafe(jobs, workers, storage, uploaded, k, Idle);
    case Die(k) => KeepOrDropSafe(jobs, workers, storage, uploaded, k, Idle);
    case _ =>
  }

  /** Every step of the system keeps the invariant, whatever was interleaved before it. */
  lemma StepKeeps(w: World, e: Event)
    requires WorldInv(w) && Enabled(w, e)
    ensures WorldInv(Next(w, e))
  {
    StepKeepsEconomy(w, e);
    if e.PublishOne? {
      PublishStepSafe(w, e);
    } else {
      StepMovesJobs(w, e);
      WorkerStepSafe(w, e);
      SameResultsSafe(w.t.jobs, Next(w, e).t.jobs, Next(w, e).workers, Next(w, e).storage, Next(w, e).uploaded);
    }
  }

  // ----------------------------------------------------------------- histories

  ghost predicate StepsAt(ws: seq<World>, es: seq<Event>, i: nat)
    requires |ws| == |es| + 1 && i < |es|
  {
    Enabled(ws[i], es[i]) && ws[i + 1] == Next(ws[i], es[i])
  }

  /** A run: the worlds before, between and after the events. It may start from any state that
      satisfies the invariant, such as the empty one or what a cutover leaves. */
  ghost predicate Run(ws: seq<World>, es: seq<Event>) {
    |ws| == |es| + 1 && WorldInv(ws[0]) && forall i :: 0 <= i < |es| ==> StepsAt(ws, es, i)
  }

  lemma RunStepKeeps(ws: seq<World>, es: seq<Event>, n: nat)
    requires Run(ws, es) && n < |es| && WorldInv(ws[n])
    ensures WorldInv(ws[n + 1])
  {
    assert StepsAt(ws, es, n);
    StepKeeps(ws[n], es[n]);
  }

  lemma {:induction false} RunKeeps(ws: seq<World>, es: seq<Event>, n: nat)
    requires Run(ws, es) && n < |ws|
    ensures WorldInv(ws[n])
  {
    if n > 0 {
      RunKeeps(ws, es, n - 1);
      RunStepKeeps(ws, es, n - 1);
    }
  }

  /** In every reachable state status and credits of every job agree, only completed jobs have
      results, and all granted credits are accounted for, package by package and in total. */
  lemma ReachableStates(ws: seq<World>, es: seq<Event>, n: nat)
    requires Run(ws, es) && n < |ws|
    ensures var w := ws[n];
      && (forall j :: j in w.t.jobs ==> JobAgrees(w.t.jobs[j]))
      && Conserved(w.t.packages, w.t.allocations, w.t.jobs, w.losses)
      && Total(Grants(w.t.packages)) == Total(Left(w.t.packages))
           + Total(HeldOn(|w.t.packages|, w.t.allocations, HeldJobs(w.t.jobs)))
           + Total(w.losses.zeroed) + Total(w.losses.forfeited)
  {
    RunKeeps(ws, es, n);
    TotalsBalance(ws[n].t.packages, ws[n].t.allocations, ws[n].t.jobs, ws[n].losses);
  }

  /** A job that is over never changes again, but for its owner in a merge. */
  predicate JobLater(p: Job, q: Job) {
    && (p.status == Completed || p.status == Failed ==> q == p.(owner := q.owner))
    && (p.status == Processing ==> q.status != Queued)
    && q.cost == p.cost
  }

  lemma RunStep(ws: seq<World>, es: seq<Event>, n: nat)
    requires Run(ws, es) && n < |es|
    ensures JobsMove(ws[n].t.jobs, ws[n + 1].t.jobs)
  {
    RunKeeps(ws, es, n);
    assert StepsAt(ws, es, n);
    StepMovesJobs(ws[n], es[n]);
  }

  lemma LaterStill(p: Job, q: Job, r: Job)
    requires JobLater(p, q) && JobMoves(q, r)
    ensures JobLater(p, r)
  {
  }

  lemma {:induction false} JobHistory(ws: seq<World>, es: seq<Event>, i: nat, n: nat, j: JobId)
    requires Run(ws, es) && i <= n < |ws| && j in ws[i].t.jobs
    ensures j in ws[n].t.jobs && JobLater(ws[i].t.jobs[j], ws[n].t.jobs[j])
    decreases n - i
  {
    if i < n {
      JobHistory(ws, es, i, n - 1, j);
      RunStep(ws, es, n - 1);
      LaterStill(ws[i].t.jobs[j], ws[n - 1].t.jobs[j], ws[n].t.jobs[j]);
    }
  }

  /** The message finds its user's job queued. */
  predicate Claims(w: World, e: Event) {
    e.Take? && OwnLiveJob(w.t, e.job, e.user) && w.t.jobs[e.job].status == Queued
  }

  lemma ClaimStep(w: World, e: Event)
    requires JobsAgree(w.t.jobs) && Enabled(w, e) && Claims(w, e)
    ensures e.job in Next(w, e).t.jobs && Next(w, e).t.jobs[e.job].status == Processing
  {
    ClaimOutcome(w.t, e.job, e.user);
  }

  lemma RunClaims(ws: seq<World>, es: seq<Event>, n: nat)
    requires Run(ws, es) && n < |es| && Claims(ws[n], es[n])
    ensures es[n].job in ws[n + 1].t.jobs && ws[n + 1].t.jobs[es[n].job].status == Processing
  {
    RunKeeps(ws, es, n);
    assert StepsAt(ws, es, n);
    ClaimStep(ws[n], es[n]);
  }

  lemma RunIgnores(ws: seq<World>, es: seq<Event>, n: nat)
    requires Run(ws, es) && n < |es| && es[n].Take? && !Claims(ws[n], es[n])
    ensures ws[n + 1].t == ws[n].t
  {
    RunKeeps(ws, es, n);
    assert StepsAt(ws, es, n);
    ClaimOutcome(ws[n].t, es[n].job, es[n].user);
  }

  /** A job is claimed at most once, however often its queue message is delivered and to whatever worker. */
  lemma ClaimedOnce(ws: seq<World>, es: seq<Event>, i: nat, n: nat)
    requires Run(ws, es) && i < n < |es| && Claims(ws[i], es[i]) && es[n].Take? && es[n].job == es[i].job
    ensures !Claims(ws[n], es[n]) && ws[n + 1].t == ws[n].t
  {
    RunClaims(ws, es, i);
    JobHistory(ws, es, i + 1, n, es[i].job);
    RunIgnores(ws, es, n);
  }

  /** No job is ever both finalized and refunded, at whatever two moments one looks. */
  lemma NeverBothFinalizedAndRefunded(ws: seq<World>, es: seq<Event>, i: nat, n: nat, j: JobId)
    requires Run(ws, es) && i < |ws| && n < |ws| && j in ws[i].t.jobs && j in ws[n].t.jobs
    ensures !(ws[i].t.jobs[j].creditStatus == Finalized && ws[n].t.jobs[j].creditStatus == Refunded)
  {
    RunKeeps(ws, es, i);
    RunKeeps(ws, es, n);
    if i <= n { JobHistory(ws, es, i, n, j); } else { JobHistory(ws, es, n, i, j); }
  }

  /** A result, once there, stays the job's only result, and its file stays in storage. */
  lemma ResultIsForGood(ws: seq<World>, es: seq<Event>, i: nat, n: nat, j: JobId)
    requires Run(ws, es) && i <= n < |ws| && j in ws[i].t.jobs && ws[i].t.jobs[j].result.Some?
    ensures j in ws[n].t.jobs && ws[n].t.jobs[j].result == ws[i].t.jobs[j].result
    ensures ws[n].t.jobs[j].status == Completed && ws[n].t.jobs[j].result.value in ws[n].storage
  {
    RunKeeps(ws, es, i);
    RunKeeps(ws, es, n);
    JobHistory(ws, es, i, n, j);
    assert JobAgrees(ws[i].t.jobs[j]);
  }

  lemma StepFreezesMetadata(w: World, e: Event, j: JobId)
    requires Enabled(w, e) && j in w.t.jobs && w.t.jobs[j].status != Processing
    ensures j in w.generation <==> j in Next(w, e).generation
    ensures j in w.generation ==> Next(w, e).generation[j] == w.generation[j]
  {
    if !e.Metadata? {
      assert Next(w, e).generation == w.generation;
    }
  }

  lemma RunStepFreezes(ws: seq<World>, es: seq<Event>, n: nat, j: JobId)
    requires Run(ws, es) && n < |es| && j in ws[n].t.jobs && ws[n].t.jobs[j].status != Processing
    ensures j in ws[n].generation <==> j in ws[n + 1].generation
    ensures j in ws[n].generation ==> ws[n + 1].generation[j] == ws[n].generation[j]
  {
    assert StepsAt(ws, es, n);
    StepFreezesMetadata(ws[n], es[n], j);
  }

  /** Generation metadata of a job that is over is frozen. */
  lemma {:induction false} MetadataIsForGood(ws: seq<World>, es: seq<Event>, i: nat, n: nat, j: JobId)
    requires Run(ws, es) && i <= n < |ws| && j in ws[i].t.jobs
    requires ws[i].t.jobs[j].status == Completed || ws[i].t.jobs[j].status == Failed
    ensures j in ws[i].generation <==> j in ws[n].generation
    ensures j in ws[i].generation ==> ws[n].generation[j] == ws[i].generation[j]
    decreases n - i
  {
    if i < n {
      MetadataIsForGood(ws, es, i, n - 1, j);
      JobHistory(ws, es, i, n - 1, j);
      RunStepFreezes(ws, es, n - 1, j);
    }
  }
}
