/** The job transactions as they run, proved to compute the functions of `RenderRules`. */
module RenderService {
  import opened Tables
  import opened CreditRules
  import opened Database
  import opened CreditsService
  import opened RenderRules

  /** The creation transaction of the job endpoints. */
  method CreateRenderJob(db: Database, j: JobId, u: UserId, creditCost: pos, at: Instant, wall: Instant)
    returns (r: Result<nat>, ghost c: Context)
    requires LedgerKeyed(db.ledger) && j !in db.jobs
    modifies db
    ensures c.at == at && c.wall == wall
    ensures forall k :: 0 <= k < |c.order| ==> c.order[k] < |Balanced(WithJob(old(db.Snapshot()), j, u), u, c).packages|
    ensures match CreateJob(old(db.Snapshot()), j, u, creditCost, c)
            case Err(e) => r == Err(e) && db.Snapshot() == old(db.Snapshot())
            case Ok(v) => r == Ok(v.0) && db.Snapshot() == v.1
    ensures r.Ok? ==> IsFifoOrder(Balanced(WithJob(old(db.Snapshot()), j, u), u, c).packages, u, at, c.order)
  {
    var before := db.Snapshot();
    db.jobs := db.jobs[j := NewJob(u)];
    assert db.Snapshot() == WithJob(before, j, u);
    r, c := ReserveJobCredit(db, u, j, creditCost, at, wall);
    if r.Err? {
      db.Rollback(before);
    }
  }

  /** UPDATE jobs SET status = 'processing' ... RETURNING id, at the head of `process_render_job`. */
  method ClaimRenderJob(db: Database, j: JobId, u: UserId) returns (claimed: bool)
    modifies db`jobs
    ensures db.Snapshot() == Claim(old(db.Snapshot()), j, u)
    ensures claimed == Claimable(old(db.Snapshot()), j, u)
  {
    claimed := j in db.jobs && db.jobs[j].owner == u && db.jobs[j].status == Queued && db.jobs[j].creditStatus == Reserved;
    if claimed {
      db.jobs := db.jobs[j := db.jobs[j].(status := Processing)];
    }
  }

  /** `_publish_render_output` */
  method PublishRenderOutput(db: Database, j: JobId, u: UserId, a: AssetId, at: Instant, wall: Instant)
    returns (published: bool, ghost c: Context)
    requires LedgerKeyed(db.ledger)
    modifies db
    ensures c.at == at && c.wall == wall
    ensures db.Snapshot() == Publish(old(db.Snapshot()), j, u, a, c)
    ensures published == Publishable(old(db.Snapshot()), j, u)
  {
    c := Context(at, wall, StarterView(None, []), []);
    published := j in db.jobs && db.jobs[j].owner == u && db.jobs[j].status == Processing && db.jobs[j].creditStatus == Reserved;
    if !published {
      return published, c;
    }
    db.jobs := db.jobs[j := db.jobs[j].(status := Completed, result := Some(a))];
    assert db.Snapshot() == WithResult(old(db.Snapshot()), j, a);
    var balance;
    balance, c := FinalizeJobCredit(db, u, j, at, wall);
  }

  /** `_mark_render_failed` and `_compensate_queue_publish_failure` write the same columns. */
  method FailRenderJob(db: Database, j: JobId, u: UserId, at: Instant, wall: Instant)
    returns (failed: bool, ghost c: Context)
    requires LedgerKeyed(db.ledger) && RowsInTable(db.allocations, |db.packages|)
    modifies db
    ensures c.at == at && c.wall == wall
    ensures db.Snapshot() == Fail(old(db.Snapshot()), j, u, c)
    ensures failed == Failable(old(db.Snapshot()), j, u)
  {
    c := Context(at, wall, StarterView(None, []), []);
    failed := j in db.jobs && db.jobs[j].owner == u && (db.jobs[j].status == Queued || db.jobs[j].status == Processing);
    if !failed {
      return failed, c;
    }
    var balance;
    balance, c := RefundJobCredit(db, u, j, at, wall);
    RowsStayInTable(old(db.Snapshot()), u, c);
    assert db.jobs == db.Snapshot().jobs && j in db.jobs;
    db.jobs := db.jobs[j := db.jobs[j].(status := Failed)];
  }
}
