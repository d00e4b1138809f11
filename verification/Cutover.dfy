/** The one-off move of pre-package balances into packages that never expire. */
module Cutover {
  import opened Sums
  import opened Tables
  import opened CreditRules
  import opened Database
  import opened PaymentFacts
  import opened Conservation
  import opened Billing
  import opened RenderRules
  import opened Trials
  import opened Economy

  /** What the schema migrations leave: packages for historical grants, and account rows whose
      balances they have recomputed. */
  datatype Migrated = Migrated(packages: seq<Package>, accounts: map<UserId, Account>)

  datatype Outcome = AlreadyApplied | Applied(accounts: nat, credits: nat) | Refused

  /** SELECT user_id, balance FROM user_credit_accounts ORDER BY user_id */
  predicate IsUserListing(accounts: map<UserId, Account>, users: seq<UserId>) {
    && (forall i :: 0 <= i < |users| ==> users[i] in accounts)
    && (forall u :: u in accounts ==> u in users)
    && (forall i, k :: 0 <= i < k < |users| ==> users[i] < users[k])
  }

  function Zeroed(ps: seq<Package>): (qs: seq<Package>)
    ensures |qs| == |ps| && forall i :: 0 <= i < |ps| ==> qs[i] == ps[i].(remaining := 0)
  {
    seq(|ps|, i requires 0 <= i < |ps| => ps[i].(remaining := 0))
  }

  function LegacyPackage(u: UserId, balance: pos, at: Instant): Package {
    NewPackage(u, LegacyBalance, balance, None, CutoverPackage(u), at)
  }

  /** One permanent package for each positive balance. */
  function LegacyPackages(accounts: map<UserId, Account>, users: seq<UserId>, at: Instant): seq<Package>
    requires forall i :: 0 <= i < |users| ==> users[i] in accounts
  {
    if users == [] then []
    else
      var u := users[|users| - 1];
      LegacyPackages(accounts, users[..|users| - 1], at)
        + (if accounts[u].balance > 0 then [LegacyPackage(u, accounts[u].balance, at)] else [])
  }

  function Restored(migrated: map<UserId, Account>, accounts: map<UserId, Account>, users: seq<UserId>): (r: map<UserId, Account>)
    requires forall i :: 0 <= i < |users| ==> users[i] in accounts
    ensures r.Keys == migrated.Keys
    ensures forall u :: u in migrated ==>
      r[u] == if u in users then migrated[u].(balance := accounts[u].balance) else migrated[u]
  {
    map u | u in migrated :: if u in users then migrated[u].(balance := accounts[u].balance) else migrated[u]
  }

  function Balances(accounts: map<UserId, Account>, users: seq<UserId>): (xs: seq<nat>)
    requires forall i :: 0 <= i < |users| ==> users[i] in accounts
    ensures |xs| == |users| && forall i :: 0 <= i < |users| ==> xs[i] == accounts[users[i]].balance
  {
    seq(|users|, i requires 0 <= i < |users| => accounts[users[i]].balance)
  }

  predicate Mismatched(t: Tables, at: Instant) {
    exists u :: u in t.accounts && t.accounts[u].balance != ActiveSum(t.packages, u, at)
  }

  function Replaced(t: Tables, m: Migrated, users: seq<UserId>, at: Instant): Tables
    requires IsUserListing(t.accounts, users)
  {
    t.(packages := Zeroed(m.packages) + LegacyPackages(t.accounts, users, at),
       allocations := [],
       accounts := Restored(m.accounts, t.accounts, users))
  }

  predicate HasReservedJob(t: Tables) {
    exists j :: j in t.jobs && t.jobs[j].creditStatus == Reserved
  }

  /** Tables, whether the package table exists, whether the cutover is marked as done. */
  datatype Deployed = Deployed(t: Tables, packageTable: bool, done: bool)

  /** `migrate_legacy_balances`; `m` is None when a migration fails. A refusal rolls back. */
  function Migrate(d: Deployed, m: Option<Migrated>, users: seq<UserId>, at: Instant): (Outcome, Deployed)
    requires IsUserListing(d.t.accounts, users)
  {
    if d.done then (AlreadyApplied, d)
    else if d.packageTable || HasReservedJob(d.t) || m.None? then (Refused, d)
    else
      var t := Replaced(d.t, m.value, users, at);
      if Mismatched(t, at) then (Refused, d)
      else (Applied(|users|, Total(Balances(d.t.accounts, users))), Deployed(t, true, true))
  }

  // ------------------------------------------------------------ as it runs

  class Deployment {
    const db: Database
    var packageTable: bool
    var done: bool

    constructor (db: Database)
      ensures this.db == db && !packageTable && !done
    {
      this.db := db;
      packageTable, done := false, false;
    }

    function State(): Deployed
      reads this, db
    {
      Deployed(db.Snapshot(), packageTable, done)
    }
  }

  method SmallestUser(users: set<UserId>) returns (u: UserId)
    requires users != {}
    ensures u in users && forall v :: v in users ==> u <= v
  {
    u :| u in users;
    var rest := users - {u};
    while rest != {}
      invariant u in users && rest <= users
      invariant forall v :: v in users && v !in rest ==> u <= v
      decreases rest
    {
      var v :| v in rest;
      rest := rest - {v};
      if v < u { u := v; }
    }
  }

  method SelectUsers(accounts: map<UserId, Account>) returns (users: seq<UserId>)
    ensures IsUserListing(accounts, users)
  {
    users := [];
    var left := accounts.Keys;
    while left != {}
      invariant forall u :: u in accounts <==> u in left || u in users
      invariant forall i :: 0 <= i < |users| ==> users[i] in accounts && users[i] !in left
      invariant forall i, k :: 0 <= i < k < |users| ==> users[i] < users[k]
      invariant forall i, v :: 0 <= i < |users| && v in left ==> users[i] < v
      decreases left
    {
      var u := SmallestUser(left);
      left := left - {u};
      users := users + [u];
    }
  }

  lemma OneMoreUser(migrated: map<UserId, Account>, accounts: map<UserId, Account>, users: seq<UserId>, i: nat, at: Instant)
    requires IsUserListing(accounts, users) && i < |users| && migrated.Keys == accounts.Keys
    ensures var u := users[i];
      && LegacyPackages(accounts, users[..i + 1], at) == LegacyPackages(accounts, users[..i], at)
           + (if accounts[u].balance > 0 then [LegacyPackage(u, accounts[u].balance, at)] else [])
      && Restored(migrated, accounts, users[..i + 1])
           == Restored(migrated, accounts, users[..i])[u := migrated[u].(balance := accounts[u].balance)]
  {
    assert users[..i + 1][..i] == users[..i] && users[..i + 1] == users[..i] + [users[i]];
  }

  /** The loop over the saved balances. */
  method InsertLegacyPackages(db: Database, accounts: map<UserId, Account>, users: seq<UserId>, at: Instant)
    requires IsUserListing(accounts, users) && db.accounts.Keys == accounts.Keys
    modifies db`packages, db`accounts
    ensures db.packages == old(db.packages) + LegacyPackages(accounts, users, at)
    ensures db.accounts == Restored(old(db.accounts), accounts, users)
  {
    ghost var ps, was := db.packages, db.accounts;
    for i := 0 to |users|
      invariant db.packages == ps + LegacyPackages(accounts, users[..i], at)
      invariant db.accounts == Restored(was, accounts, users[..i])
    {
      var u := users[i];
      OneMoreUser(was, accounts, users, i, at);
      if accounts[u].balance > 0 {
        db.packages := db.packages + [LegacyPackage(u, accounts[u].balance, at)];
      }
      db.accounts := db.accounts[u := db.accounts[u].(balance := accounts[u].balance)];
    }
    assert users[..|users|] == users;
  }

  method MigrateLegacyBalances(d: Deployment, m: Option<Migrated>, at: Instant)
    returns (r: Outcome, ghost users: seq<UserId>)
    requires m.Some? ==> m.value.accounts.Keys == d.db.accounts.Keys
    modifies d, d.db
    ensures IsUserListing(old(d.db.accounts), users)
    ensures (r, d.State()) == Migrate(old(d.State()), m, users, at)
  {
    var before := d.db.Snapshot();
    var listing := SelectUsers(d.db.accounts);
    users := listing;
    if d.done {
      return AlreadyApplied, users;
    }
    if d.packageTable || HasReservedJob(before) || m.None? {
      return Refused, users;
    }
    d.db.packages, d.db.accounts, d.db.allocations := Zeroed(m.value.packages), m.value.accounts, [];
    InsertLegacyPackages(d.db, before.accounts, listing, at);
    assert d.db.Snapshot() == Replaced(before, m.value, users, at);
    if Mismatched(d.db.Snapshot(), at) {
      d.db.Rollback(before);
      return Refused, users;
    }
    d.packageTable, d.done := true, true;
    r := Applied(|listing|, Total(Balances(before.accounts, listing)));
  }

  // ------------------------------------------------------------------ theorems

  lemma ZeroedHoldNothing(ps: seq<Package>, u: UserId, x: Instant)
    ensures ActiveSum(Zeroed(ps), u, x) == 0
  {
    TotalZero(Shares(Zeroed(ps), u, x));
  }

  /** The permanent packages hold each listed user's balance, at every instant. */
  lemma {:induction false} LegacySums(zeroed: seq<Package>, accounts: map<UserId, Account>, users: seq<UserId>, at: Instant,
                                      u: UserId, x: Instant)
    requires forall i :: 0 <= i < |users| ==> users[i] in accounts
    requires forall i, k :: 0 <= i < k < |users| ==> users[i] < users[k]
    ensures ActiveSum(zeroed + LegacyPackages(accounts, users, at), u, x)
         == ActiveSum(zeroed, u, x) + (if u in users then accounts[u].balance else 0)
  {
    if users == [] {
      assert zeroed + [] == zeroed;
    } else {
      var n := |users| - 1;
      var v := users[n];
      var ps := zeroed + LegacyPackages(accounts, users[..n], at);
      LegacySums(zeroed, accounts, users[..n], at, u, x);
      assert u in users <==> u in users[..n] || u == v;
      if accounts[v].balance > 0 {
        assert zeroed + LegacyPackages(accounts, users, at) == ps + [LegacyPackage(v, accounts[v].balance, at)];
        ActiveSumAppend(ps, LegacyPackage(v, accounts[v].balance, at), u, x);
      } else {
        assert zeroed + LegacyPackages(accounts, users, at) == ps;
      }
    }
  }

  /** After the replacement every account can spend exactly its old balance, now and at any later
      instant, and nobody else can spend anything. */
  lemma ReplacedSums(t: Tables, m: Migrated, users: seq<UserId>, at: Instant, u: UserId, x: Instant)
    requires IsUserListing(t.accounts, users)
    ensures ActiveSum(Replaced(t, m, users, at).packages, u, x) == if u in t.accounts then t.accounts[u].balance else 0
  {
    ZeroedHoldNothing(m.packages, u, x);
    LegacySums(Zeroed(m.packages), t.accounts, users, at, u, x);
  }

  /** The reconciliation check at the end cannot fail. */
  lemma NeverMismatched(t: Tables, m: Migrated, users: seq<UserId>, at: Instant)
    requires IsUserListing(t.accounts, users) && m.accounts.Keys == t.accounts.Keys
    ensures !Mismatched(Replaced(t, m, users, at), at)
  {
    forall u | u in t.accounts
      ensures Replaced(t, m, users, at).accounts[u].balance == ActiveSum(Replaced(t, m, users, at).packages, u, at)
    {
      ReplacedSums(t, m, users, at, u, at);
    }
  }

  /** The cutover happens exactly when it may; a refusal and a repeat leave the whole state as it is; a
      success keeps every balance. */
  lemma CutoverOutcome(d: Deployed, m: Option<Migrated>, users: seq<UserId>, at: Instant, u: UserId, x: Instant)
    requires IsUserListing(d.t.accounts, users)
    requires m.Some? ==> m.value.accounts.Keys == d.t.accounts.Keys
    ensures var (r, d') := Migrate(d, m, users, at);
      && (r.Applied? <==> !d.done && !d.packageTable && m.Some? && forall j :: j in d.t.jobs ==> d.t.jobs[j].creditStatus != Reserved)
      && (r.AlreadyApplied? <==> d.done)
      && (!r.Applied? ==> d' == d)
      && (r.Applied? ==> d'.done && ActiveSum(d'.t.packages, u, x) == if u in d.t.accounts then d.t.accounts[u].balance else 0)
      && (r.Applied? && u in d.t.accounts ==> u in d'.t.accounts && d'.t.accounts[u].balance == d.t.accounts[u].balance)
  {
    if m.Some? {
      NeverMismatched(d.t, m.value, users, at);
      ReplacedSums(d.t, m.value, users, at, u, x);
    }
  }

  lemma LeftAppend(ps: seq<Package>, p: Package)
    ensures Total(Left(ps + [p])) == Total(Left(ps)) + p.remaining
  {
    assert Left(ps + [p]) == Left(ps) + [p.remaining];
    TotalAppend(Left(ps), p.remaining);
  }

  lemma LegacyStep(zeroed: seq<Package>, accounts: map<UserId, Account>, users: seq<UserId>, at: Instant)
    requires users != [] && forall i :: 0 <= i < |users| ==> users[i] in accounts
    ensures var n := |users| - 1;
      Total(Left(zeroed + LegacyPackages(accounts, users, at)))
        == Total(Left(zeroed + LegacyPackages(accounts, users[..n], at))) + accounts[users[n]].balance
  {
    var n := |users| - 1;
    var (ps, b) := (zeroed + LegacyPackages(accounts, users[..n], at), accounts[users[n]].balance);
    if b > 0 {
      assert zeroed + LegacyPackages(accounts, users, at) == ps + [LegacyPackage(users[n], b, at)];
      LeftAppend(ps, LegacyPackage(users[n], b, at));
    } else {
      assert zeroed + LegacyPackages(accounts, users, at) == ps;
    }
  }

  lemma BalancesStep(accounts: map<UserId, Account>, users: seq<UserId>)
    requires users != [] && forall i :: 0 <= i < |users| ==> users[i] in accounts
    ensures Total(Balances(accounts, users)) == Total(Balances(accounts, users[..|users| - 1])) + accounts[users[|users| - 1]].balance
  {
    assert Balances(accounts, users)[..|users| - 1] == Balances(accounts, users[..|users| - 1]);
  }

  lemma {:induction false} LegacyTotals(zeroed: seq<Package>, accounts: map<UserId, Account>, users: seq<UserId>, at: Instant)
    requires forall i :: 0 <= i < |users| ==> users[i] in accounts
    ensures Total(Left(zeroed + LegacyPackages(accounts, users, at))) == Total(Left(zeroed)) + Total(Balances(accounts, users))
  {
    if users == [] {
      assert zeroed + [] == zeroed;
    } else {
      LegacyTotals(zeroed, accounts, users[..|users| - 1], at);
      LegacyStep(zeroed, accounts, users, at);
      BalancesStep(accounts, users);
    }
  }

  /** The report of a cutover: the credits it names are those that can be spent afterwards, in all. */
  lemma CutoverReports(d: Deployed, m: Option<Migrated>, users: seq<UserId>, at: Instant)
    requires IsUserListing(d.t.accounts, users) && Migrate(d, m, users, at).0.Applied?
    ensures var (r, d') := Migrate(d, m, users, at);
      r.credits == Total(Left(d'.t.packages)) && r.accounts == |users|
  {
    LegacyTotals(Zeroed(m.value.packages), d.t.accounts, users, at);
    TotalZero(Left(Zeroed(m.value.packages)));
  }

  // ----------------------------------------------- where the package model starts

  /** What migration 0024 builds: one purchase package for each paid payment, no other package of a
      payment, a refund or a cutover, and no trial date without its ledger row. */
  ghost predicate FromHistory(t: Tables, m: Migrated) {
    && PaymentsSettled(m.packages, t.payments)
    && (forall i :: 0 <= i < |m.packages| ==> !m.packages[i].key.RefundPackage? && !m.packages[i].key.CutoverPackage?)
    && TrialsRecorded(m.accounts, t.ledger, {})
  }

  lemma {:induction false} LegacyKeys(accounts: map<UserId, Account>, users: seq<UserId>, at: Instant)
    requires forall i :: 0 <= i < |users| ==> users[i] in accounts
    requires forall i, k :: 0 <= i < k < |users| ==> users[i] < users[k]
    ensures var ps := LegacyPackages(accounts, users, at);
      && (forall i :: 0 <= i < |ps| ==>
            ps[i].key.CutoverPackage? && ps[i].key.user in users && ps[i].remaining == ps[i].granted)
      && KeysUnique(ps)
  {
    if users != [] {
      LegacyKeys(accounts, users[..|users| - 1], at);
    }
  }

  /** What the zeroed historical packages lost. */
  function HistoryLosses(ps: seq<Package>, n: nat): (l: Losses)
    ensures Covers(l, n)
    ensures forall p :: 0 <= p < n ==> l.zeroed[p] == (if p < |ps| then ps[p].granted else 0) && l.forfeited[p] == 0
  {
    Losses(seq(n, p requires 0 <= p < n => if p < |ps| then ps[p].granted else 0), seq(n, _ => 0))
  }

  lemma ReplacedStock(t: Tables, m: Migrated, users: seq<UserId>, at: Instant)
    requires IsUserListing(t.accounts, users) && PaymentsSettled(m.packages, t.payments) && !HasReservedJob(t)
    requires forall i :: 0 <= i < |m.packages| ==> !m.packages[i].key.RefundPackage? && !m.packages[i].key.CutoverPackage?
    ensures var t' := Replaced(t, m, users, at);
      Stock(t'.packages, [], t.jobs, t.payments, HistoryLosses(m.packages, |t'.packages|))
  {
    var ps := Replaced(t, m, users, at).packages;
    LegacyKeys(t.accounts, users, at);
    assert PackagesPersist(m.packages, ps);
    PersistKeepsSettled(m.packages, ps, t.payments);
    forall p | 0 <= p < |ps|
      ensures Conservation.Balances(p, ps[p], [], HeldJobs(t.jobs), HistoryLosses(m.packages, |ps|))
    {
    }
  }

  /** The state after a cutover satisfies the books part of the invariant, and all of it when the old
      jobs and paid payments agreed with their ledger rows, so that runs may start from it. */
  lemma CutoverStartsTheBooks(t: Tables, m: Migrated, users: seq<UserId>, at: Instant)
    requires IsUserListing(t.accounts, users) && FromHistory(t, m) && !HasReservedJob(t) && LedgerKeyed(t.ledger)
    ensures var t' := Replaced(t, m, users, at);
      var l := HistoryLosses(m.packages, |t'.packages|);
      BooksInv(t', {}, l) && (JobsAgree(t.jobs) && Evidence(t.ledger, t.jobs) && PurchasesRecorded(t.ledger, t.payments) ==> EconomyInv(t', {}, l))
  {
    ReplacedStock(t, m, users, at);
    var accounts := Restored(m.accounts, t.accounts, users);
    forall u | u in accounts && accounts[u].trialUsedAt.Some? ensures HasGrant(t.ledger, u) {
      assert m.accounts[u].trialUsedAt.Some?;
    }
  }
}
