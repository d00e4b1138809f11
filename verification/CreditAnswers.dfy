/** When the credit operations answer what, in terms of the rows alone: expiry, sign-in, reservation,
    finalization and refund. */
module CreditAnswers {
  import opened Sums
  import opened Tables
  import opened StarterReplay
  import opened CreditRules
  import opened CreditFacts
  import opened DrawFacts
  import opened RefundFacts
  import opened CreditInvariant

  // ------------------------------------------------------------------- expiry

  predicate Ended(p: Package, at: Instant) {
    p.expires.Some? && p.expires.value <= at
  }

  /** What is left of package `i` after `u`'s packages were expired at `at`. */
  predicate ExpiredOnly(ps: seq<Package>, qs: seq<Package>, u: UserId, at: Instant, i: PackageId)
    requires i < |ps| && i < |qs|
  {
    qs[i] == if ps[i].owner == u && Ended(ps[i], at) then ps[i].(remaining := 0) else ps[i]
  }

  /** Expiring packages empties exactly the user's packages that have ended, and files one row for each
      that had something left. */
  lemma ExpireAnswers(t: Tables, u: UserId, at: Instant, i: PackageId)
    requires i < |t.packages|
    ensures var t' := Expire(t, u, at);
      && i < |t'.packages| && ExpiredOnly(t.packages, t'.packages, u, at, i)
      && (t.packages[i].owner == u && Ended(t.packages[i], at) && t.packages[i].remaining > 0 && PackageExpireKey(i) !in t.ledger ==>
            PackageExpireKey(i) in t'.ledger && t'.ledger[PackageExpireKey(i)]
              == LedgerRow(PackageExpireKey(i), u, Expiration, NoKind, Minus(t.packages[i].remaining), None, at))
  {
    ExpireShape(t, u, at);
    if t.packages[i].owner == u && Ended(t.packages[i], at) && t.packages[i].remaining > 0 {
      assert DueAmounts(t.packages, u, at)[i] > 0;
      TotalZero(DueAmounts(t.packages, u, at));
    }
  }

  /** What is left in the user's packages that have ended. */
  function EndedTotal(ps: seq<Package>, u: UserId, at: Instant): nat {
    if ps == [] then 0
    else
      var p := ps[|ps| - 1];
      EndedTotal(ps[..|ps| - 1], u, at) + (if p.owner == u && Ended(p, at) then p.remaining else 0)
  }

  lemma {:induction false} EndedTotalIs(ps: seq<Package>, u: UserId, at: Instant)
    ensures Total(DueAmounts(ps, u, at)) == EndedTotal(ps, u, at)
  {
    if ps != [] {
      EndedTotalIs(ps[..|ps| - 1], u, at);
      assert DueAmounts(ps, u, at)[..|ps| - 1] == DueAmounts(ps[..|ps| - 1], u, at);
    }
  }

  /** The cached balance is lowered by just that, but not below nothing, and nobody else's is touched. */
  lemma ExpireLowers(t: Tables, u: UserId, at: Instant)
    ensures var accounts := Expire(t, u, at).accounts;
      && accounts.Keys == t.accounts.Keys
      && (forall v :: v in t.accounts ==> accounts[v] == if v != u then t.accounts[v] else
            t.accounts[v].(balance := Max(0, t.accounts[v].balance - EndedTotal(t.packages, u, at))))
  {
    EndedTotalIs(t.packages, u, at);
  }

  /** So does `get_balance`, after a sign-in, and leaves the balance of what is then active. */
  lemma BalanceAnswers(t: Tables, u: UserId, c: Context, i: PackageId)
    requires i < |Ensured(t, u, c).packages|
    ensures var (ps, t') := (Ensured(t, u, c).packages, Balanced(t, u, c));
      && |t'.packages| == |ps| && ExpiredOnly(ps, t'.packages, u, c.at, i)
      && u in t'.accounts && t'.accounts[u].balance == ActiveSum(t'.packages, u, c.at)
  {
    EnsureShape(t, u, c.at, c.wall, c.view);
    GetBalanceShape(t, u, c.at, c.wall, c.view);
  }

  // ------------------------------------------------------------ starter grant

  /** A row that counts as the user's starter grant. */
  predicate StarterRow(r: LedgerRow, u: UserId) {
    r.owner == u && (r.kind == StarterGrantKind || r.event == TrialGrant || r.key == StarterGrantKey(u))
  }

  /** No trial date and no starter row speaks against the grant. */
  ghost predicate FirstTime(t: Tables, u: UserId) {
    && (u in t.accounts ==> t.accounts[u].trialUsedAt.None?)
    && forall k :: k in t.ledger ==> !StarterRow(t.ledger[k], u)
  }

  lemma FirstTimeIsNeverGranted(t: Tables, u: UserId)
    ensures FirstTime(t, u) <==> NeverGranted(t, u)
  {
    assert forall r :: StarterRow(r, u) <==> IsStarterRow(r, u);
  }

  /** A first-time user, and nobody else, gets the trial date, the ledger row and, unless its key is
      taken, the package of STARTER_GRANT_CREDITS credits dated by the application's clock. */
  lemma GrantAnswers(t: Tables, u: UserId, c: Context)
    ensures var t' := Ensured(t, u, c);
      && u in t'.accounts
      && t'.accounts[u].trialUsedAt
           == (if FirstTime(t, u) then Some(c.at) else if u in t.accounts then t.accounts[u].trialUsedAt else None)
      && t'.packages == (
           if FirstTime(t, u) && !HasKey(t.packages, StarterPackage(u))
           then t.packages + [Package(u, StarterGrant, STARTER_GRANT_CREDITS, STARTER_GRANT_CREDITS,
                                      Some(c.wall + STARTER_GRANT_TTL), c.at, StarterPackage(u))]
           else t.packages)
      && (FirstTime(t, u) && StarterGrantKey(u) !in t.ledger ==>
            StarterGrantKey(u) in t'.ledger && t'.ledger[StarterGrantKey(u)]
              == LedgerRow(StarterGrantKey(u), u, TrialGrant, StarterGrantKind, STARTER_GRANT_CREDITS, None, c.at))
  {
    FirstTimeIsNeverGranted(t, u);
    EnsureShape(t, u, c.at, c.wall, c.view);
  }

  /** Something other than the replay speaks against taking starter credits back. */
  ghost predicate StarterIsSafe(t: Tables, u: UserId, wall: Instant) {
    || (forall k :: k in t.ledger && StarterRow(t.ledger[k], u) ==> t.ledger[k].created + STARTER_GRANT_TTL > wall)
    || (exists i :: 0 <= i < |t.packages| && t.packages[i].owner == u && t.packages[i].source == LegacyBalance)
    || (exists k :: k in t.ledger && t.ledger[k].owner == u
          && (t.ledger[k].kind == StarterGrantExpirationKind || t.ledger[k].event == Expiration || t.ledger[k].key == StarterExpireKey(u)))
    || StarterExpireKey(u) in t.ledger
  }

  /** What a sign-in takes off the cached balance. */
  ghost function Taken(t: Tables, u: UserId, c: Context): int {
    Cached(t.accounts, u) + (if FirstTime(t, u) then STARTER_GRANT_CREDITS else 0) - Cached(Ensured(t, u, c).accounts, u)
  }

  lemma TakenIs(t: Tables, u: UserId, c: Context)
    ensures Taken(t, u, c) == StarterTaken(t, u, c)
  {
    FirstTimeIsNeverGranted(t, u);
    EnsureBalances(t, u, c, u, c.at);
  }

  /** The guards of the starter expiry, as the code asks them of the rows the queries returned. */
  predicate ViewIsSafe(t: Tables, u: UserId, c: Context) {
    || c.view.first.None? || c.view.first.value.created + STARTER_GRANT_TTL > c.wall
    || HasLegacyPackage(t.packages, u) || HasStarterExpiration(t.ledger, u) || StarterExpireKey(u) in t.ledger
  }

  lemma SafeIsViewSafe(t: Tables, u: UserId, c: Context)
    requires ValidView(t.ledger, u, c.view)
    ensures StarterIsSafe(t, u, c.wall) <==> ViewIsSafe(t, u, c)
  {
    assert forall r :: StarterRow(r, u) <==> IsStarterRow(r, u);
    if c.view.first.Some? {
      var r := c.view.first.value;
      assert r.key in t.ledger && StarterRow(t.ledger[r.key], u);
    }
  }

  /** What is taken for a grant of `granted`, of which the rows `after` it debited D and refunded R:
      between what is left without and with the refunds, exactly the former without refunds, exactly
      granted - D + R when that sum never leaves its range, and never more than was cached. */
  predicate TakesWhatIsLeft(taken: int, cached: nat, granted: int, after: seq<LedgerRow>) {
    var (d, r) := (Debits(after), Refunds(after));
    && Min(cached, Max(0, granted - d)) <= taken <= Min(cached, Max(0, Min(granted, Max(0, granted - d) + r)))
    && (r == 0 ==> taken == Min(cached, Max(0, granted - d)))
    && (NeverClips(after, granted) ==> taken == Min(cached, granted - d + r))
  }

  lemma ReplayTakes(cached: nat, granted: int, after: seq<LedgerRow>)
    ensures TakesWhatIsLeft(Max(0, Min(cached, ReplayFrom(after, granted))), cached, granted, after)
  {
    if granted >= 0 { ReplayBounds(after, granted); } else { NothingGranted(after, granted); }
    if NeverClips(after, granted) {
      ExactWithoutClipping(after, granted);
      assert after[..|after|] == after;
    }
  }

  /** A sign-in, and with it every balance request, takes starter credits off the cached balance only
      when the earliest starter row is older than the grant's lifetime and neither a cutover package
      nor an expiration row speaks against it, and then what the ledger says is left of the grant. */
  lemma SignInTakes(t: Tables, u: UserId, c: Context)
    requires ValidView(t.ledger, u, c.view)
    ensures StarterIsSafe(t, u, c.wall) ==> Taken(t, u, c) == 0
    ensures !StarterIsSafe(t, u, c.wall) ==> c.view.first.Some?
    ensures !StarterIsSafe(t, u, c.wall) ==>
      TakesWhatIsLeft(Taken(t, u, c), Cached(t.accounts, u), c.view.first.value.delta, AfterStarter(c.view.listing, u))
  {
    TakenIs(t, u, c);
    SafeIsViewSafe(t, u, c);
    if !ViewIsSafe(t, u, c) {
      ReplayTakes(Cached(t.accounts, u), c.view.first.value.delta, AfterStarter(c.view.listing, u));
    }
  }

  /** Taking starter credits is recorded, for the very amount; otherwise only a grant writes rows. */
  lemma SignInRecords(t: Tables, u: UserId, c: Context)
    requires ValidView(t.ledger, u, c.view)
    ensures var (k, l') := (Taken(t, u, c), Ensured(t, u, c).ledger);
      && (k > 0 ==> StarterExpireKey(u) !in t.ledger && l' == t.ledger[StarterExpireKey(u) :=
            LedgerRow(StarterExpireKey(u), u, Expiration, StarterGrantExpirationKind, Minus(k), None, c.at)])
      && (k == 0 && !FirstTime(t, u) ==> l' == t.ledger)
  {
    TakenIs(t, u, c);
    SafeIsViewSafe(t, u, c);
    FirstTimeIsNeverGranted(t, u);
    if !ViewIsSafe(t, u, c) {
      assert t.ledger[c.view.first.value.key] == c.view.first.value;
      assert HasStarterRow(t.ledger, u);
    }
  }

  // ---------------------------------------------------------------- reservation

  /** One pass touches no other package, takes nothing when all is paid, and stops short of the package's
      end only when all is paid. */
  lemma LastIsPaid(d: Draw, i: PackageId, j: JobId)
    requires i < |d.packages|
    ensures var r := DrawOne(d, i, j);
      && |r.packages| == |d.packages| && r.left <= d.left
      && (forall p :: 0 <= p < |d.packages| && p != i ==> r.packages[p] == d.packages[p])
      && (d.left == 0 ==> r.packages[i] == d.packages[i])
      && (r.left > 0 ==> r.packages[i].remaining == 0)
  {
  }

  predicate Drained(ps: seq<Package>, order: seq<PackageId>) {
    forall k :: 0 <= k < |order| ==> order[k] < |ps| && ps[order[k]].remaining == 0
  }

  lemma DrainedStays(ps: seq<Package>, qs: seq<Package>, order: seq<PackageId>, i: PackageId)
    requires Drained(ps, order) && i !in order && |qs| == |ps|
    requires forall p :: 0 <= p < |ps| && p != i ==> qs[p] == ps[p]
    ensures Drained(qs, order)
  {
    forall k | 0 <= k < |order| ensures qs[order[k]].remaining == 0 { assert order[k] in order; }
  }

  /** While something is owed, everything passed so far is used up. */
  lemma {:induction false} OwingMeansDrained(d: Draw, order: seq<PackageId>, j: JobId)
    requires InTable(order, |d.packages|) && Distinct(order)
    ensures DrawAll(d, order, j).left > 0 ==> Drained(DrawAll(d, order, j).packages, order)
  {
    if order != [] {
      var n := |order| - 1;
      var m := DrawAll(d, order[..n], j);
      OwingMeansDrained(d, order[..n], j);
      LastIsPaid(m, order[n], j);
      if DrawAll(d, order, j).left > 0 {
        DrainedStays(m.packages, DrawAll(d, order, j).packages, order[..n], order[n]);
        assert order == order[..n] + [order[n]];
      }
    }
  }

  lemma LastTakenInOrder(d: Draw, order: seq<PackageId>, j: JobId)
    requires order != [] && InTable(order, |d.packages|) && Distinct(order)
    ensures var (r, n) := (DrawAll(d, order, j), |order| - 1);
      r.packages[order[n]] != d.packages[order[n]] ==> Drained(r.packages, order[..n])
  {
    var n := |order| - 1;
    var (m, r) := (DrawAll(d, order[..n], j), DrawAll(d, order, j));
    DrawShape(d, order[..n], j);
    LastIsPaid(m, order[n], j);
    if r.packages[order[n]] != d.packages[order[n]] {
      OwingMeansDrained(d, order[..n], j);
      DrainedStays(m.packages, r.packages, order[..n], order[n]);
    }
  }

  /** The oldest-ending package is used first: if something was taken from a package, those before it
      are used up. */
  lemma {:induction false} PaidInOrder(d: Draw, order: seq<PackageId>, j: JobId, l: nat)
    requires InTable(order, |d.packages|) && Distinct(order) && l < |order|
    ensures var r := DrawAll(d, order, j);
      r.packages[order[l]] != d.packages[order[l]] ==> Drained(r.packages, order[..l])
    decreases |order|
  {
    var n := |order| - 1;
    var (m, r) := (DrawAll(d, order[..n], j), DrawAll(d, order, j));
    LastIsPaid(m, order[n], j);
    DrawShape(d, order[..n], j);
    if l < n {
      PaidInOrder(d, order[..n], j, l);
      assert order[..n][..l] == order[..l] && order[l] != order[n];
      if r.packages[order[l]] != d.packages[order[l]] { DrainedStays(m.packages, r.packages, order[..l], order[n]); }
    } else {
      LastTakenInOrder(d, order, j);
    }
  }

  /** `p` ends before `q`, or with it and is older; packages without an end come last. */
  predicate EndsBefore(p: Package, q: Package) {
    || (p.expires.Some? && (q.expires.None? || p.expires.value < q.expires.value))
    || (p.expires == q.expires && p.created < q.created)
  }

  /** A reservation touches a package only when every active package of the user that ends before it,
      or with it and is older, has been used up. */
  lemma OldestFirst(t: Tables, u: UserId, j: JobId, cost: pos, at: Instant, order: seq<PackageId>, p: PackageId, q: PackageId)
    requires j in t.jobs && IsFifoOrder(t.packages, u, at, order) && Spend(t, u, j, cost, at, order).Ok?
    requires p < |t.packages| && q < |t.packages| && EndsBefore(t.packages[p], t.packages[q])
    requires t.packages[p].owner == u && !Ended(t.packages[p], at)
    ensures var qs := Spend(t, u, j, cost, at, order).value.1.packages;
      |qs| == |t.packages| && (qs[q] != t.packages[q] ==> qs[p].remaining == 0)
  {
    var d := Draw(t.packages, t.allocations, cost);
    DrawShape(d, order, j);
    if q in order && p in order {
      var l :| 0 <= l < |order| && order[l] == q;
      var k :| 0 <= k < |order| && order[k] == p;
      assert k < l;
      PaidInOrder(d, order, j, l);
      assert order[..l][k] == p;
    }
  }

  /** What a reservation answers for a job of each status; an uncharged one costs what its row says or,
      when that is nothing, the configured cost. */
  lemma ReserveAnswers(t: Tables, u: UserId, j: JobId, creditCost: pos, c: Context)
    requires CreditInv(t) && IsFifoOrder(Balanced(t, u, c).packages, u, c.at, c.order)
    ensures var (r, t1) := (Reserve(t, u, j, creditCost, c), Balanced(t, u, c));
      if j !in t.jobs then r == Err(JobNotFound)
      else
        var cost: pos := if t.jobs[j].cost > 0 then t.jobs[j].cost else creditCost;
        match t.jobs[j].creditStatus
        case Refunded => r == Err(JobAlreadyRefunded)
        case NotCharged =>
          if ActiveSum(t1.packages, u, c.at) < cost then r == Err(InsufficientCredits)
          else r.Ok? && ReservedOutcome(t1, r.value.1, r.value.0, u, j, cost, c.at)
        case _ => r == Ok((ActiveSum(t1.packages, u, c.at), t1))
  {
    if j in t.jobs && t.jobs[j].creditStatus == NotCharged {
      ReserveDecides(t, u, j, creditCost, c);
    }
  }

  /** A ledger row about a job, filed once. */
  predicate FilesJobRow(l: map<LedgerKey, LedgerRow>, l': map<LedgerKey, LedgerRow>, key: LedgerKey, u: UserId,
                        event: LedgerEvent, delta: int, j: JobId, at: Instant) {
    l' == if key in l then l else l[key := LedgerRow(key, u, event, NoKind, delta, Some(j), at)]
  }

  lemma ReserveRecords(t: Tables, u: UserId, j: JobId, creditCost: pos, c: Context)
    requires InTable(c.order, |Balanced(t, u, c).packages|)
    requires j in t.jobs && t.jobs[j].creditStatus == NotCharged && Reserve(t, u, j, creditCost, c).Ok?
    ensures var t' := Reserve(t, u, j, creditCost, c).value.1;
      FilesJobRow(Balanced(t, u, c).ledger, t'.ledger, ReserveKey(j), u, JobReserve, Minus(t'.jobs[j].cost), j, c.at)
  {
  }

  // ------------------------------------------------------- finalize and refund

  /** Finalizing turns exactly a reserved job into a finalized one, with a row of delta 0. */
  lemma FinalizeAnswers(t: Tables, u: UserId, j: JobId, c: Context)
    ensures var (r, t1) := (Finalize(t, u, j, c), Balanced(t, u, c));
      if j !in t.jobs then r == Err(JobNotFound)
      else
        && r.Ok? && r.value.0 == ActiveSum(t1.packages, u, c.at)
        && (if t.jobs[j].creditStatus != Reserved then r.value.1 == t1
            else
              && r.value.1 == t1.(jobs := t.jobs[j := t.jobs[j].(creditStatus := Finalized)], ledger := r.value.1.ledger)
              && FilesJobRow(t1.ledger, r.value.1.ledger, FinalizeKey(j), u, JobFinalize, 0, j, c.at))
  {
  }

  /** What the job took from packages that have not ended. */
  function StillThere(ps: seq<Package>, rows: seq<Allocation>, j: JobId, at: Instant): nat {
    if rows == [] then 0
    else
      var a := rows[|rows| - 1];
      StillThere(ps, rows[..|rows| - 1], j, at)
        + (if a.job == j && a.package < |ps| && !Ended(ps[a.package], at) then a.credits else 0)
  }

  lemma {:induction false} StillThereIs(ps: seq<Package>, rows: seq<Allocation>, j: JobId, at: Instant)
    requires RowsInTable(rows, |ps|)
    ensures Restorable(ps, rows, j, at) == StillThere(ps, rows, j, at)
  {
    if rows != [] {
      var n := |rows| - 1;
      StillThereIs(ps, rows[..n], j, at);
      assert RestoredParts(ps, rows, j, at)[..n] == RestoredParts(ps, rows[..n], j, at);
    }
  }

  lemma RefundReservedAnswers(t: Tables, u: UserId, j: JobId, cost: pos, c: Context)
    requires RowsInTable(t.allocations, |t.packages|) && RefundPackagesEarned(t.packages, t.jobs)
    requires j in t.jobs && t.jobs[j].creditStatus == Reserved
    ensures var back := StillThere(t.packages, t.allocations, j, c.at);
      RefundedAs(t, RefundReserved(t, u, j, cost, c), u, j, if back == 0 then cost else back, back == 0, c)
  {
    StillThereIs(t.packages, t.allocations, j, c.at);
    NoRefundPackageYet(t, j, c.at);
    RestoreShape(t.packages, t.allocations, j, c.at);
    if StillThere(t.packages, t.allocations, j, c.at) == 0 { NothingRestored(t.packages, t.allocations, j, c.at); }
  }

  /** Balance returned, job, ledger row and packages of a refund of `amount`, `anew` as a package of its own. */
  predicate RefundedAs(t: Tables, r: (nat, Tables), u: UserId, j: JobId, amount: pos, anew: bool, c: Context)
    requires j in t.jobs
  {
    && r.0 == ActiveSum(t.packages, u, c.at) + amount
    && r.1.jobs == t.jobs[j := t.jobs[j].(creditStatus := Refunded)]
    && FilesJobRow(t.ledger, r.1.ledger, RefundKey(j), u, JobRefund, amount, j, c.at)
    && (if anew
        then r.1.packages == t.packages + [Package(u, Source.Refund, amount, amount, Some(c.wall + PURCHASE_GRANT_TTL), c.at, RefundPackage(j))]
        else |r.1.packages| == |t.packages|)
  }

  /** Refunding gives a reserved job's credits back, into the packages that have not ended or, when
      there are none of them, as one new package of the job's whole cost; the amount is recorded. */
  lemma RefundAnswers(t: Tables, u: UserId, j: JobId, c: Context)
    requires CreditInv(t) && j in t.jobs && t.jobs[j].creditStatus == Reserved
    requires RowsInTable(t.allocations, |Balanced(t, u, c).packages|)
    ensures var (r, t1) := (RefundJob(t, u, j, c), Balanced(t, u, c));
      var back := StillThere(t1.packages, t.allocations, j, c.at);
      r.Ok? && RefundedAs(t1, r.value, u, j, if back == 0 then t.jobs[j].cost else back, back == 0, c)
  {
    BalancedKeeps(t, u, c);
    RefundReservedAnswers(Balanced(t, u, c), u, j, t.jobs[j].cost, c);
  }

  lemma {:induction false} NothingRestored(ps: seq<Package>, rows: seq<Allocation>, j: JobId, at: Instant)
    requires RowsInTable(rows, |ps|) && StillThere(ps, rows, j, at) == 0
    ensures Restore(ps, rows, j, at) == ps
  {
    if rows != [] {
      NothingRestored(ps, rows[..|rows| - 1], j, at);
    }
  }

  /** Any other status asks for the balance only. */
  lemma RefundRefuses(t: Tables, u: UserId, j: JobId, c: Context)
    requires RowsInTable(t.allocations, |Balanced(t, u, c).packages|)
    requires j in t.jobs ==> t.jobs[j].creditStatus != Reserved
    ensures var t1 := Balanced(t, u, c);
      RefundJob(t, u, j, c) == if j in t.jobs then Ok((ActiveSum(t1.packages, u, c.at), t1)) else Err(JobNotFound)
  {
  }
}
