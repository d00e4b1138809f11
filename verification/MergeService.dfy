/** The merge transaction as it runs: ownership moved table by table and job by job, then one
    account row rewritten and the other deleted. */
module MergeService {
  import opened Tables
  import opened CreditRules
  import opened Database
  import opened CreditsService
  import opened MergeRules

  /** UPDATE jobs SET user_id, one job at a time. */
  method MoveJobsOneByOne(db: Database, source: UserId, survivor: UserId)
    requires source != survivor
    modifies db`jobs
    ensures db.jobs == MoveJobs(old(db.jobs), source, survivor)
  {
    var ids := set j | j in db.jobs && db.jobs[j].owner == source;
    while ids != {}
      invariant db.jobs.Keys == old(db.jobs).Keys && ids <= db.jobs.Keys
      invariant forall j :: j in ids <==> j in db.jobs && db.jobs[j].owner == source
      invariant forall j :: j in db.jobs && j !in ids ==> db.jobs[j] == MoveJobs(old(db.jobs), source, survivor)[j]
      invariant forall j :: j in ids ==> db.jobs[j] == old(db.jobs)[j]
      decreases ids
    {
      var j :| j in ids;
      db.jobs := db.jobs[j := db.jobs[j].(owner := survivor)];
      ids := ids - {j};
    }
  }

  /** `_move_owned_rows` */
  method MoveOwnedRows(db: Database, source: UserId, survivor: UserId)
    requires source != survivor
    modifies db
    ensures db.Snapshot() == MoveOwned(old(db.Snapshot()), source, survivor)
  {
    db.payments := MovePayments(db.payments, source, survivor);
    db.ledger := MoveLedger(db.ledger, source, survivor);
    db.packages := MovePackages(db.packages, source, survivor);
    MoveJobsOneByOne(db, source, survivor);
  }

  /** `_merge_credit_accounts` */
  method MergeCreditAccounts(db: Database, source: UserId, survivor: UserId, at: Instant)
    requires source != survivor
    modifies db
    ensures db.Snapshot() == MergeCredits(old(db.Snapshot()), source, survivor, at)
  {
    var _ := ExpireCreditPackages(db, survivor, at);
    assert db.Snapshot() == Expire(old(db.Snapshot()), survivor, at);
    var _ := ExpireCreditPackages(db, source, at);
    var sourceTrial := TrialOf(db.accounts, source);
    var survivorTrial := TrialOf(db.accounts, survivor);
    var balance := ActiveSum(db.packages, survivor, at);
    if survivor in db.accounts {
      db.accounts := db.accounts[survivor := Account(balance, Earliest(sourceTrial, survivorTrial))];
    }
    db.accounts := db.accounts - {source};
  }

  method MergeAccounts(db: Database, source: UserId, survivor: UserId, at: Instant)
    requires source != survivor
    modifies db
    ensures db.Snapshot() == Merge(old(db.Snapshot()), source, survivor, at)
  {
    MoveOwnedRows(db, source, survivor);
    MergeCreditAccounts(db, source, survivor, at);
  }
}
