/** The leased queue of fitment checks: claims, crashes, lease recovery and late finishes. */
module FitmentQueue {
  import opened Tables

  type CheckId = nat
  type WorkerId = nat

  /** One of the verdict values the rules engine may give. */
  type Verdict = nat

  const LEASE_SEC := 900
  const MAX_ATTEMPTS := 3

  datatype Status = CheckQueued | CheckProcessing | CheckCompleted | CheckFailed

  datatype Check = Check(status: Status, attempts: nat, started: Option<Instant>, verdict: Option<Verdict>)

  predicate Terminal(c: Check) {
    c.status == CheckCompleted || c.status == CheckFailed
  }

  // -------------------------------------------------------- the SQL statements

  /** UPDATE ... SET execution_status='processing' ... WHERE id = ... AND execution_status='queued' */
  function Claimed(c: Check, now: Instant): Check {
    if c.status == CheckQueued then c.(status := CheckProcessing, attempts := c.attempts + 1, started := Some(now)) else c
  }

  /** The final UPDATE ... WHERE execution_status='processing'; `None` is an execution error. */
  function Finished(c: Check, outcome: Option<Verdict>): Check {
    if c.status != CheckProcessing then c
    else c.(status := if outcome.Some? then CheckCompleted else CheckFailed, verdict := outcome)
  }

  predicate Stale(c: Check, now: Instant) {
    c.status == CheckProcessing && c.started.Some? && c.started.value < now - LEASE_SEC
  }

  function Requeued(c: Check, now: Instant): Check {
    if Stale(c, now) && c.attempts < MAX_ATTEMPTS then c.(status := CheckQueued, started := None) else c
  }

  function GivenUp(c: Check, now: Instant): Check {
    if Stale(c, now) && c.attempts >= MAX_ATTEMPTS then c.(status := CheckFailed, verdict := None) else c
  }

  /** The rules refresh of a completed check. */
  function Refreshed(c: Check, verdict: Verdict): Check {
    if c.status == CheckCompleted then c.(verdict := Some(verdict)) else c
  }

  /** The row an INSERT creates: queued, or executed by the request itself. */
  function Created(executed: Option<Option<Verdict>>): Check {
    match executed
    case None => Check(CheckQueued, 0, None, None)
    case Some(Some(v)) => Check(CheckCompleted, 0, None, Some(v))
    case Some(None) => Check(CheckFailed, 0, None, None)
  }

  // ------------------------------------------------------------------ as it runs

  class CheckStore {
    var checks: map<CheckId, Check>
    var queue: seq<CheckId>

    constructor ()
      ensures checks == map[] && queue == []
    {
      checks, queue := map[], [];
    }

    /** INSERT of a check: queued for a worker, or already executed by the request itself. */
    method Insert(id: CheckId, executed: Option<Option<Verdict>>)
      requires id !in checks
      modifies this
      ensures checks == old(checks)[id := Created(executed)]
      ensures queue == if executed.None? then old(queue) + [id] else old(queue)
    {
      if executed.None? {
        checks := checks[id := Check(CheckQueued, 0, None, None)];
        queue := queue + [id];
      } else {
        var status := if executed.value.Some? then CheckCompleted else CheckFailed;
        checks := checks[id := Check(status, 0, None, executed.value)];
      }
    }

    /** The claim at the head of `execute_fitment_check` */
    method Claim(id: CheckId, now: Instant) returns (claimed: bool)
      modifies this`checks
      ensures claimed <==> id in old(checks) && old(checks)[id].status == CheckQueued
      ensures checks == if id in old(checks) then old(checks)[id := Claimed(old(checks)[id], now)] else old(checks)
    {
      claimed := id in checks && checks[id].status == CheckQueued;
      if claimed {
        checks := checks[id := checks[id].(status := CheckProcessing, attempts := checks[id].attempts + 1, started := Some(now))];
      } else if id in checks {
        assert checks[id := checks[id]] == checks;
      }
    }

    /** Its end, whatever happened to the row in the meantime */
    method Finish(id: CheckId, outcome: Option<Verdict>)
      modifies this`checks
      ensures checks == if id in old(checks) then old(checks)[id := Finished(old(checks)[id], outcome)] else old(checks)
    {
      if id in checks && checks[id].status == CheckProcessing {
        var status := if outcome.Some? then CheckCompleted else CheckFailed;
        checks := checks[id := checks[id].(status := status, verdict := outcome)];
      } else if id in checks {
        assert checks[id := checks[id]] == checks;
      }
    }

    /** `recover_stale_fitment_checks`: two statements with clocks of their own, then the requeued
        ids are pushed again in the order the first statement returned them. */
    method RecoverStale(now: Instant, later: Instant) returns (requeued: seq<CheckId>)
      modifies this
      ensures checks == RecoverAll(old(checks), now, later)
      ensures queue == old(queue) + requeued
      ensures forall id :: id in requeued <==> id in old(checks) && Requeued(old(checks)[id], now) != old(checks)[id]
      ensures forall i, k :: 0 <= i < k < |requeued| ==> requeued[i] != requeued[k]
    {
      requeued := [];
      var left := set id | id in checks && Stale(checks[id], now) && checks[id].attempts < MAX_ATTEMPTS;
      while left != {}
        modifies this`checks
        invariant checks.Keys == old(checks).Keys && left <= checks.Keys
        invariant forall id :: id in checks ==>
          checks[id] == if id in left then old(checks)[id] else Requeued(old(checks)[id], now)
        invariant forall id :: id in left || id in requeued <==> id in old(checks) && Requeued(old(checks)[id], now) != old(checks)[id]
        invariant forall i :: 0 <= i < |requeued| ==> requeued[i] !in left
        invariant forall i, k :: 0 <= i < k < |requeued| ==> requeued[i] != requeued[k]
        decreases left
      {
        var id :| id in left;
        checks := checks[id := checks[id].(status := CheckQueued, started := None)];
        requeued := requeued + [id];
        left := left - {id};
      }
      checks := map id | id in checks :: GivenUp(checks[id], later);
      queue := queue + requeued;
    }
  }

  function RecoverAll(checks: map<CheckId, Check>, now: Instant, later: Instant): map<CheckId, Check> {
    map id | id in checks :: GivenUp(Requeued(checks[id], now), later)
  }

  // ---------------------------------------------------- concurrent executions

  /** A worker is executing a claimed check, or idle; `writes` and `claims` count, per check, the
      outcomes written, over whatever was there, and the claims that took effect. */
  datatype System = System(
    checks: map<CheckId, Check>, running: map<WorkerId, CheckId>,
    claims: map<CheckId, nat>, writes: map<CheckId, nat>)

  datatype Event =
    | Create(id: CheckId, executed: Option<Option<Verdict>>)
    | Take(worker: WorkerId, id: CheckId, now: Instant)
    | Complete(worker: WorkerId, outcome: Option<Verdict>)
    | Crash(worker: WorkerId)
    | RequeueStale(now: Instant)
    | GiveUpStale(now: Instant)
    | Refresh(id: CheckId, verdict: Verdict)

  predicate Enabled(s: System, e: Event) {
    match e
    case Create(id, _) => id !in s.checks
    case Take(k, _, _) => k !in s.running
    case Complete(k, _) => k in s.running
    case _ => true
  }

  function ChecksAfter(s: System, e: Event): map<CheckId, Check>
    requires Enabled(s, e)
  {
    match e
    case Create(id, executed) => s.checks[id := Created(executed)]
    case Take(_, id, now) => if id in s.checks then s.checks[id := Claimed(s.checks[id], now)] else s.checks
    case Complete(k, outcome) =>
      var id := s.running[k];
      if id in s.checks then s.checks[id := Finished(s.checks[id], outcome)] else s.checks
    case Crash(_) => s.checks
    case RequeueStale(now) => map id | id in s.checks :: Requeued(s.checks[id], now)
    case GiveUpStale(now) => map id | id in s.checks :: GivenUp(s.checks[id], now)
    case Refresh(id, v) => if id in s.checks then s.checks[id := Refreshed(s.checks[id], v)] else s.checks
  }

  function Count(m: map<CheckId, nat>, id: CheckId): nat {
    if id in m then m[id] else 0
  }

  /** The counters after a step: one more for each of `ids`. */
  function Bumped(m: map<CheckId, nat>, ids: set<CheckId>): (r: map<CheckId, nat>)
    ensures forall id :: Count(r, id) == Count(m, id) + (if id in ids then 1 else 0)
  {
    map id | id in m.Keys + ids :: Count(m, id) + (if id in ids then 1 else 0)
  }

  function ClaimedNow(s: System, e: Event): set<CheckId> {
    match e
    case Take(_, id, _) => if id in s.checks && s.checks[id].status == CheckQueued then {id} else {}
    case _ => {}
  }

  /** The checks whose row the step changes and leaves terminal: a first outcome as well as one written
      over another. Only a refresh of the verdict is no outcome. */
  function WrittenNow(s: System, e: Event): set<CheckId>
    requires Enabled(s, e)
  {
    set id | id in ChecksAfter(s, e) && Terminal(ChecksAfter(s, e)[id]) && !e.Refresh?
      && (id !in s.checks || s.checks[id] != ChecksAfter(s, e)[id])
  }

  function RunningAfter(s: System, e: Event): map<WorkerId, CheckId> {
    match e
    case Take(k, id, _) => if id in s.checks && s.checks[id].status == CheckQueued then s.running[k := id] else s.running
    case Complete(k, _) => s.running - {k}
    case Crash(k) => s.running - {k}
    case _ => s.running
  }

  function Next(s: System, e: Event): System
    requires Enabled(s, e)
  {
    System(ChecksAfter(s, e), RunningAfter(s, e), Bumped(s.claims, ClaimedNow(s, e)), Bumped(s.writes, WrittenNow(s, e)))
  }

  // ------------------------------------------------------------------ theorems

  /** One row: attempts stay in bounds, and there is a verdict exactly when the check completed. */
  predicate RowOk(c: Check) {
    && c.attempts <= MAX_ATTEMPTS
    && (c.status == CheckQueued ==> c.attempts < MAX_ATTEMPTS)
    && (c.status == CheckProcessing ==> c.started.Some? && c.attempts > 0)
    && (c.verdict.Some? <==> c.status == CheckCompleted)
  }

  ghost predicate Inv(s: System) {
    && (forall id :: id in s.checks ==> RowOk(s.checks[id]) && Count(s.claims, id) == s.checks[id].attempts)
    && (forall id :: id in s.checks ==> Count(s.writes, id) == if Terminal(s.checks[id]) then 1 else 0)
    && (forall id :: id !in s.checks ==> Count(s.claims, id) == 0 && Count(s.writes, id) == 0)
  }

  lemma RowsKeep(s: System, e: Event, id: CheckId)
    requires Inv(s) && Enabled(s, e) && id in ChecksAfter(s, e)
    ensures RowOk(ChecksAfter(s, e)[id])
  {
    assert id in s.checks ==> RowOk(s.checks[id]);
  }

  /** The attempt counter of the row counts the claims. */
  lemma AttemptsCount(s: System, e: Event, id: CheckId)
    requires Enabled(s, e)
    ensures id in s.checks ==> id in ChecksAfter(s, e)
    ensures id in s.checks ==>
      ChecksAfter(s, e)[id].attempts == s.checks[id].attempts + (if id in ClaimedNow(s, e) then 1 else 0)
    ensures id !in s.checks && id in ChecksAfter(s, e) ==> ChecksAfter(s, e)[id].attempts == 0
    ensures id !in s.checks ==> id !in ClaimedNow(s, e)
  {
  }

  lemma ClaimsKeep(s: System, e: Event, id: CheckId)
    requires Inv(s) && Enabled(s, e)
    ensures id in ChecksAfter(s, e) ==> Count(Next(s, e).claims, id) == ChecksAfter(s, e)[id].attempts
    ensures id !in ChecksAfter(s, e) ==> Count(Next(s, e).claims, id) == 0
  {
    AttemptsCount(s, e, id);
    assert Count(Next(s, e).claims, id) == Count(s.claims, id) + (if id in ClaimedNow(s, e) then 1 else 0);
  }

  /** The same outcome, up to a refreshed verdict of a completed check. */
  predicate SameOutcome(c: Check, c': Check) {
    c' == c || (c.status == CheckCompleted && c'.verdict.Some? && c' == c.(verdict := c'.verdict))
  }

  /** No step writes over an outcome. */
  lemma OutcomeStays(s: System, e: Event, id: CheckId)
    requires Enabled(s, e) && id in s.checks && Terminal(s.checks[id])
    ensures id in ChecksAfter(s, e) && SameOutcome(s.checks[id], ChecksAfter(s, e)[id])
    ensures !(e.Refresh? && e.id == id) ==> ChecksAfter(s, e)[id] == s.checks[id]
  {
  }

  lemma WritesKeep(s: System, e: Event, id: CheckId)
    requires Inv(s) && Enabled(s, e)
    ensures id in ChecksAfter(s, e) ==> Count(Next(s, e).writes, id) == if Terminal(ChecksAfter(s, e)[id]) then 1 else 0
    ensures id !in ChecksAfter(s, e) ==> Count(Next(s, e).writes, id) == 0
  {
    assert Count(Next(s, e).writes, id) == Count(s.writes, id) + (if id in WrittenNow(s, e) then 1 else 0);
    if id in s.checks && Terminal(s.checks[id]) { OutcomeStays(s, e, id); }
  }

  lemma StepKeeps(s: System, e: Event)
    requires Inv(s) && Enabled(s, e)
    ensures Inv(Next(s, e))
  {
    forall id
      ensures id in ChecksAfter(s, e) ==> RowOk(ChecksAfter(s, e)[id]) && Count(Next(s, e).claims, id) == ChecksAfter(s, e)[id].attempts
      ensures id in ChecksAfter(s, e) ==> Count(Next(s, e).writes, id) == if Terminal(ChecksAfter(s, e)[id]) then 1 else 0
      ensures id !in ChecksAfter(s, e) ==> Count(Next(s, e).claims, id) == 0 && Count(Next(s, e).writes, id) == 0
    {
      if id in ChecksAfter(s, e) { RowsKeep(s, e, id); }
      ClaimsKeep(s, e, id);
      WritesKeep(s, e, id);
    }
  }

  ghost predicate StepsAt(ss: seq<System>, es: seq<Event>, i: nat)
    requires |ss| == |es| + 1 && i < |es|
  {
    Enabled(ss[i], es[i]) && ss[i + 1] == Next(ss[i], es[i])
  }

  ghost predicate Run(ss: seq<System>, es: seq<Event>) {
    && |ss| == |es| + 1 && ss[0] == System(map[], map[], map[], map[])
    && forall i :: 0 <= i < |es| ==> StepsAt(ss, es, i)
  }

  lemma {:induction false} RunKeeps(ss: seq<System>, es: seq<Event>, n: nat)
    requires Run(ss, es) && n < |ss|
    ensures Inv(ss[n])
  {
    if n > 0 {
      RunKeeps(ss, es, n - 1);
      assert StepsAt(ss, es, n - 1);
      StepKeeps(ss[n - 1], es[n - 1]);
    }
  }

  /** Under any interleaving of claims, crashes, recoveries and late finishes: a check is claimed at
      most three times, has an outcome written to it at most once, and has a verdict exactly when it
      completed. */
  lemma EveryRun(ss: seq<System>, es: seq<Event>, n: nat, id: CheckId)
    requires Run(ss, es) && n < |ss|
    ensures Count(ss[n].claims, id) <= MAX_ATTEMPTS && Count(ss[n].writes, id) <= 1
    ensures id in ss[n].checks ==> (ss[n].checks[id].verdict.Some? <==> ss[n].checks[id].status == CheckCompleted)
    ensures id in ss[n].checks ==> (Terminal(ss[n].checks[id]) <==> Count(ss[n].writes, id) == 1)
  {
    RunKeeps(ss, es, n);
    if id in ss[n].checks { assert RowOk(ss[n].checks[id]); }
  }

  /** An outcome, once there, is the check's outcome for good: no late worker, recovery or replayed
      claim writes over it, and without a refresh of the verdict the row never changes at all. */
  lemma {:induction false} OutcomeIsForGood(ss: seq<System>, es: seq<Event>, i: nat, n: nat, id: CheckId)
    requires Run(ss, es) && i <= n < |ss| && id in ss[i].checks && Terminal(ss[i].checks[id])
    ensures id in ss[n].checks && SameOutcome(ss[i].checks[id], ss[n].checks[id])
    ensures (forall k :: i <= k < n ==> !(es[k].Refresh? && es[k].id == id)) ==> ss[n].checks[id] == ss[i].checks[id]
    decreases n - i
  {
    if i < n {
      OutcomeIsForGood(ss, es, i, n - 1, id);
      assert StepsAt(ss, es, n - 1);
      OutcomeStays(ss[n - 1], es[n - 1], id);
    }
  }

  /** How far a check is from its end. */
  function Distance(c: Check): nat
    requires RowOk(c)
  {
    match c.status
    case CheckQueued => 2 * (MAX_ATTEMPTS - c.attempts) + 1
    case CheckProcessing => 2 * (MAX_ATTEMPTS - c.attempts) + 2
    case _ => 0
  }

  /** Every step leaves an existing check's row alone, refreshes the verdict of a completed one, or
      brings it strictly nearer to its end; so at most seven steps ever move it. */
  lemma StepsApproachTheEnd(s: System, e: Event, id: CheckId)
    requires Inv(s) && Enabled(s, e) && id in s.checks
    ensures id in Next(s, e).checks && RowOk(s.checks[id]) && RowOk(Next(s, e).checks[id])
    ensures var c, c' := s.checks[id], Next(s, e).checks[id];
      || c' == c
      || (c.status == CheckCompleted && c' == c.(verdict := c'.verdict))
      || Distance(c') < Distance(c) <= 7
  {
    RowsKeep(s, e, id);
  }

  // -------------------------------------------------------- what each step answers

  /** A lease of fifteen minutes has run out at `now`. */
  predicate LeaseOver(c: Check, now: Instant) {
    c.status == CheckProcessing && c.started.Some? && c.started.value + 900 < now
  }

  /** Claiming and finishing move exactly a queued and exactly a processing check. */
  lemma WorkerAnswers(s: System, e: Event, id: CheckId)
    requires Enabled(s, e) && id in s.checks && (e.Take? || e.Complete?)
    ensures var (c, c') := (s.checks[id], ChecksAfter(s, e)[id]);
      c' == if e.Take? && e.id == id && c.status == CheckQueued
            then Check(CheckProcessing, c.attempts + 1, Some(e.now), c.verdict)
            else if e.Complete? && s.running[e.worker] == id && c.status == CheckProcessing
            then Check(if e.outcome.Some? then CheckCompleted else CheckFailed, c.attempts, c.started, e.outcome)
            else c
  {
  }

  /** Recovery leaves a live lease alone; of the others it requeues the checks that were tried less than
      three times and gives up the rest, so that none is left behind. */
  lemma RecoveryAnswers(s: System, now: Instant, later: Instant, id: CheckId)
    requires id in s.checks && now <= later
    ensures var requeued := Next(s, RequeueStale(now));
      var (c, c') := (s.checks[id], Next(requeued, GiveUpStale(later)).checks[id]);
      && (!LeaseOver(c, later) ==> c' == c)
      && (LeaseOver(c, now) && c.attempts < 3 ==> c' == c.(status := CheckQueued, started := None))
      && (LeaseOver(c, later) && c.attempts >= 3 ==> c' == c.(status := CheckFailed, verdict := None))
      && !LeaseOver(c', now)
  {
  }

  /** Both statements of one recovery together do what the two steps do. */
  lemma RecoverAllAnswers(s: System, now: Instant, later: Instant, id: CheckId)
    requires id in s.checks
    ensures RecoverAll(s.checks, now, later)[id] == Next(Next(s, RequeueStale(now)), GiveUpStale(later)).checks[id]
  {
  }

  /** A refresh changes the verdict of a completed check and nothing else; a new check waits, or has
      what the request itself found. */
  lemma RefreshAnswers(s: System, id: CheckId, v: Verdict, k: CheckId)
    requires k in s.checks
    ensures Next(s, Refresh(id, v)).checks[k]
         == if k == id && s.checks[k].status == CheckCompleted then s.checks[k].(verdict := Some(v)) else s.checks[k]
  {
  }

  lemma CreateAnswers(s: System, id: CheckId, executed: Option<Option<Verdict>>)
    requires id !in s.checks
    ensures Next(s, Create(id, executed)).checks[id]
         == if executed.None? then Check(CheckQueued, 0, None, None)
            else Check(if executed.value.Some? then CheckCompleted else CheckFailed, 0, None, executed.value)
  {
  }
}
