/** Merging one account's rows and credits into another: what the transaction writes, and that no
    credit is gained or lost by it. */
module MergeRules {
  import opened Sums
  import opened Tables
  import opened StarterReplay
  import opened CreditRules
  import opened CreditFacts

  function NewOwner(u: UserId, source: UserId, survivor: UserId): UserId {
    if u == source then survivor else u
  }

  function MovePackages(ps: seq<Package>, source: UserId, survivor: UserId): (qs: seq<Package>)
    ensures |qs| == |ps|
    ensures forall i :: 0 <= i < |ps| ==> qs[i] == ps[i].(owner := NewOwner(ps[i].owner, source, survivor))
  {
    seq(|ps|, i requires 0 <= i < |ps| => ps[i].(owner := NewOwner(ps[i].owner, source, survivor)))
  }

  function MoveLedger(l: map<LedgerKey, LedgerRow>, source: UserId, survivor: UserId): (r: map<LedgerKey, LedgerRow>)
    ensures r.Keys == l.Keys && forall k :: k in l ==> r[k] == l[k].(owner := NewOwner(l[k].owner, source, survivor))
  {
    map k | k in l :: l[k].(owner := NewOwner(l[k].owner, source, survivor))
  }

  function MovePayments(m: map<InvoiceId, Payment>, source: UserId, survivor: UserId): (r: map<InvoiceId, Payment>)
    ensures r.Keys == m.Keys && forall k :: k in m ==> r[k] == m[k].(owner := NewOwner(m[k].owner, source, survivor))
  {
    map k | k in m :: m[k].(owner := NewOwner(m[k].owner, source, survivor))
  }

  function MoveJobs(m: map<JobId, Job>, source: UserId, survivor: UserId): (r: map<JobId, Job>)
    ensures r.Keys == m.Keys && forall k :: k in m ==> r[k] == m[k].(owner := NewOwner(m[k].owner, source, survivor))
  {
    map k | k in m :: m[k].(owner := NewOwner(m[k].owner, source, survivor))
  }

  /** `_move_owned_rows`, for the tables of this model. */
  function MoveOwned(t: Tables, source: UserId, survivor: UserId): Tables {
    t.(
      packages := MovePackages(t.packages, source, survivor),
      ledger := MoveLedger(t.ledger, source, survivor),
      payments := MovePayments(t.payments, source, survivor),
      jobs := MoveJobs(t.jobs, source, survivor))
  }

  function TrialOf(accounts: map<UserId, Account>, u: UserId): Option<Instant> {
    if u in accounts then accounts[u].trialUsedAt else None
  }

  /** min((value for value in (a, b) if value is not None), default=None) */
  function Earliest(a: Option<Instant>, b: Option<Instant>): Option<Instant> {
    match (a, b)
    case (None, _) => b
    case (_, None) => a
    case (Some(x), Some(y)) => Some(Min(x, y))
  }

  /** `_merge_credit_accounts`, after the rows have moved. */
  function MergeCredits(t: Tables, source: UserId, survivor: UserId, at: Instant): Tables {
    var t1 := Expire(Expire(t, survivor, at), source, at);
    var trial := Earliest(TrialOf(t1.accounts, source), TrialOf(t1.accounts, survivor));
    var accounts := if survivor in t1.accounts
                    then t1.accounts[survivor := Account(ActiveSum(t1.packages, survivor, at), trial)]
                    else t1.accounts;
    t1.(accounts := accounts - {source})
  }

  function Merge(t: Tables, source: UserId, survivor: UserId, at: Instant): Tables {
    MergeCredits(MoveOwned(t, source, survivor), source, survivor, at)
  }

  // -------------------------------------------------------------------- shapes

  function MergedAccount(t: Tables, ps: seq<Package>, source: UserId, survivor: UserId, at: Instant): Account {
    Account(ActiveSum(ps, survivor, at), Earliest(TrialOf(t.accounts, source), TrialOf(t.accounts, survivor)))
  }

  /** Which rows a merge writes, table by table. */
  lemma MergeShape(t: Tables, source: UserId, survivor: UserId, at: Instant)
    requires source != survivor
    ensures var t' := Merge(t, source, survivor, at);
      var moved := MovePackages(t.packages, source, survivor);
      && t'.packages == Emptied(moved, survivor, at)
      && t'.allocations == t.allocations
      && t'.jobs == MoveJobs(t.jobs, source, survivor) && t'.payments == MovePayments(t.payments, source, survivor)
      && LedgerGrows(MoveLedger(t.ledger, source, survivor), t'.ledger, survivor)
      && t'.accounts.Keys == t.accounts.Keys - {source}
      && (survivor in t'.accounts ==> t'.accounts[survivor] == MergedAccount(t, t'.packages, source, survivor, at))
      && forall w :: w in t'.accounts && w != survivor ==> t'.accounts[w] == t.accounts[w]
  {
    var t0 := MoveOwned(t, source, survivor);
    var t1 := Expire(t0, survivor, at);
    ExpireShape(t0, survivor, at);
    NothingLeftToExpire(t1, source, at);
  }

  lemma NothingLeftToExpire(t: Tables, u: UserId, at: Instant)
    requires forall i :: 0 <= i < |t.packages| ==> t.packages[i].owner != u
    ensures Expire(t, u, at) == t
  {
    TotalZero(DueAmounts(t.packages, u, at));
  }

  lemma MovedShares(ps: seq<Package>, source: UserId, survivor: UserId, v: UserId, x: Instant)
    requires source != survivor && v != source
    ensures ActiveSum(MovePackages(ps, source, survivor), v, x)
         == ActiveSum(ps, v, x) + (if v == survivor then ActiveSum(ps, source, x) else 0)
  {
    var qs := MovePackages(ps, source, survivor);
    if v == survivor {
      TotalAdd(Shares(ps, survivor, x), Shares(ps, source, x), Shares(qs, survivor, x));
    } else {
      SharesDecide(qs, ps, v, v, x, x);
    }
  }

  // ------------------------------------------------------------------ theorems

  /** At every instant from the merge on, the survivor has what both accounts would have had; every
      other account has what it had, and the cached rows agree. */
  lemma MergeConservesCredits(t: Tables, source: UserId, survivor: UserId, at: Instant, x: Instant)
    requires source != survivor && at <= x
    ensures var t' := Merge(t, source, survivor, at);
      var both := ActiveSum(t.packages, survivor, at) + ActiveSum(t.packages, source, at);
      && ActiveSum(t'.packages, survivor, x) == ActiveSum(t.packages, survivor, x) + ActiveSum(t.packages, source, x)
      && (survivor in t.accounts ==> survivor in t'.accounts && t'.accounts[survivor].balance == both)
  {
    MergeShape(t, source, survivor, at);
    MovedShares(t.packages, source, survivor, survivor, x);
    MovedShares(t.packages, source, survivor, survivor, at);
    EmptyingIsInvisible(MovePackages(t.packages, source, survivor), survivor, at, survivor, x);
    EmptyingIsInvisible(MovePackages(t.packages, source, survivor), survivor, at, survivor, at);
  }

  lemma MergeSparesOthers(t: Tables, source: UserId, survivor: UserId, at: Instant, v: UserId, x: Instant)
    requires source != survivor && v != source && v != survivor
    ensures var t' := Merge(t, source, survivor, at);
      && ActiveSum(t'.packages, v, x) == ActiveSum(t.packages, v, x)
      && (v in t'.accounts <==> v in t.accounts) && (v in t.accounts ==> t'.accounts[v] == t.accounts[v])
  {
    MergeShape(t, source, survivor, at);
    MovedShares(t.packages, source, survivor, v, x);
    EmptyingIsInvisible(MovePackages(t.packages, source, survivor), survivor, at, v, x);
  }

  ghost predicate OwnsNothing(t: Tables, u: UserId) {
    && u !in t.accounts
    && (forall i :: 0 <= i < |t.packages| ==> t.packages[i].owner != u)
    && (forall k :: k in t.ledger ==> t.ledger[k].owner != u)
    && (forall j :: j in t.jobs ==> t.jobs[j].owner != u)
    && (forall i :: i in t.payments ==> t.payments[i].owner != u)
  }

  lemma SourceOwnsNothing(t: Tables, source: UserId, survivor: UserId, at: Instant)
    requires source != survivor
    ensures OwnsNothing(Merge(t, source, survivor, at), source)
  {
    MergeShape(t, source, survivor, at);
  }

  /** Every row stays in place and changes at most its owner, except that the survivor's packages that
      have ended are emptied. */
  lemma MergeAnswers(t: Tables, source: UserId, survivor: UserId, at: Instant)
    requires source != survivor
    ensures var t' := Merge(t, source, survivor, at);
      && |t'.packages| == |t.packages|
      && (forall i :: 0 <= i < |t.packages| ==>
            var p := t.packages[i];
            var u := if p.owner == source then survivor else p.owner;
            t'.packages[i] == p.(owner := u,
              remaining := if u == survivor && p.expires.Some? && p.expires.value <= at then 0 else p.remaining))
      && t'.jobs.Keys == t.jobs.Keys && t'.payments.Keys == t.payments.Keys && t'.allocations == t.allocations
      && (forall j :: j in t.jobs ==> t'.jobs[j] == t.jobs[j].(owner := if t.jobs[j].owner == source then survivor else t.jobs[j].owner))
      && (forall i :: i in t.payments ==>
            t'.payments[i] == t.payments[i].(owner := if t.payments[i].owner == source then survivor else t.payments[i].owner))
      && (forall k :: k in t.ledger ==> k in t'.ledger)
      && (forall k :: k in t.ledger ==>
            t'.ledger[k] == t.ledger[k].(owner := if t.ledger[k].owner == source then survivor else t.ledger[k].owner))
  {
    MergeShape(t, source, survivor, at);
  }

  // -------------------------------------------------------------------- trials

  lemma StarterRowsUnite(t: Tables, source: UserId, survivor: UserId, at: Instant)
    requires source != survivor
    ensures HasStarterRow(Merge(t, source, survivor, at).ledger, survivor)
       <==> HasStarterRow(MoveLedger(t.ledger, source, survivor), survivor)
  {
    MergeShape(t, source, survivor, at);
    var l, l' := MoveLedger(t.ledger, source, survivor), Merge(t, source, survivor, at).ledger;
    if HasStarterRow(l, survivor) {
      var k :| k in l && IsStarterRow(l[k], survivor);
      assert IsStarterRow(l'[k], survivor);
    }
    if HasStarterRow(l', survivor) {
      ExpireAddsNoStarterRow(MoveOwned(t, source, survivor), survivor, at);
      NothingLeftToExpire(Expire(MoveOwned(t, source, survivor), survivor, at), source, at);
    }
  }

  lemma ExpireAddsNoStarterRow(t: Tables, u: UserId, at: Instant)
    ensures HasStarterRow(Expire(t, u, at).ledger, u) ==> HasStarterRow(t.ledger, u)
  {
    var l' := Expire(t, u, at).ledger;
    if HasStarterRow(l', u) {
      var k :| k in l' && IsStarterRow(l'[k], u);
      assert k in t.ledger && l'[k] == t.ledger[k];
    }
  }

  /** The survivor can still be granted the starter package after the merge exactly when no starter
      row speaks against it on either side and, if it has a cached account, no trial date does. */
  lemma GrantableAfterMerge(t: Tables, source: UserId, survivor: UserId, at: Instant)
    requires source != survivor
    ensures NeverGranted(Merge(t, source, survivor, at), survivor)
       <==> !HasStarterRow(MoveLedger(t.ledger, source, survivor), survivor)
            && (survivor in t.accounts ==>
                  TrialOf(t.accounts, survivor).None? && TrialOf(t.accounts, source).None?)
  {
    MergeShape(t, source, survivor, at);
    StarterRowsUnite(t, source, survivor, at);
  }

  /** The survivor's trial date is the earlier of the two there are. */
  lemma MergedTrialIsEarliest(t: Tables, source: UserId, survivor: UserId, at: Instant)
    requires source != survivor && survivor in t.accounts
    ensures var (a, b) := (TrialOf(t.accounts, source), TrialOf(t.accounts, survivor));
      var merged := TrialOf(Merge(t, source, survivor, at).accounts, survivor);
      && (merged == a || merged == b) && (merged.None? <==> a.None? && b.None?)
      && (a.Some? ==> merged.value <= a.value) && (b.Some? ==> merged.value <= b.value)
  {
    MergeShape(t, source, survivor, at);
  }
}
