/** What the credit operations mean: balances, amounts paid and given back, untouched rows. */
module CreditFacts {
  import opened Sums
  import opened Tables
  import opened CreditRules

  // ------------------------------------------------------------------ balance

  /** Expiring `u`'s packages at `at` changes nobody's credits usable at `at` or later. */
  lemma EmptyingIsInvisible(ps: seq<Package>, u: UserId, at: Instant, v: UserId, later: Instant)
    requires at <= later || v != u
    ensures ActiveSum(Emptied(ps, u, at), v, later) == ActiveSum(ps, v, later)
  {
    SharesDecide(Emptied(ps, u, at), ps, v, v, later, later);
  }

  lemma NothingDue(ps: seq<Package>, u: UserId, at: Instant)
    requires Total(DueAmounts(ps, u, at)) == 0
    ensures Emptied(ps, u, at) == ps
  {
    TotalZero(DueAmounts(ps, u, at));
    forall i | 0 <= i < |ps| ensures !Due(ps[i], u, at) {
      assert DueAmounts(ps, u, at)[i] == 0;
    }
  }

  lemma WithPackageFacts(ps: seq<Package>, p: Package)
    ensures var qs := WithPackage(ps, p);
      && |ps| <= |qs| && qs[..|ps|] == ps
      && (KeysUnique(ps) ==> KeysUnique(qs))
      && HasKey(qs, p.key)
  {
    if !HasKey(ps, p.key) {
      assert (ps + [p])[|ps|].key == p.key;
    }
  }

  /** The packages `get_balance` works on: those of the table, and the starter grant if it is due now. */
  function Granted(t: Tables, u: UserId, at: Instant, wall: Instant): seq<Package> {
    if NeverGranted(t, u)
    then WithPackage(t.packages,
           NewPackage(u, StarterGrant, STARTER_GRANT_CREDITS, Some(wall + STARTER_GRANT_TTL),
                      StarterPackage(u), at))
    else t.packages
  }

  /** A ledger row that balance keeping writes: never about a job. */
  predicate IsUpkeepRow(r: LedgerRow, u: UserId) {
    r.owner == u && r.job.None? && (r.key == StarterGrantKey(u) || r.key == StarterExpireKey(u) || r.key.PackageExpireKey?)
  }

  /** `t'` differs from `t` only by balance keeping for `u`: its account, its packages, new upkeep rows. */
  predicate LedgerGrows(l: map<LedgerKey, LedgerRow>, l': map<LedgerKey, LedgerRow>, u: UserId) {
    && (forall k :: k in l ==> k in l' && l'[k] == l[k])
    && (forall k :: k in l' && k !in l ==> l'[k].key == k && IsUpkeepRow(l'[k], u))
  }

  ghost predicate OthersKeep(a: map<UserId, Account>, a': map<UserId, Account>, u: UserId) {
    forall w :: w != u ==> (w in a <==> w in a') && (w in a ==> a'[w] == a[w])
  }

  ghost predicate Upkeep(t: Tables, t': Tables, u: UserId) {
    && t'.allocations == t.allocations && t'.jobs == t.jobs && t'.payments == t.payments
    && OthersKeep(t.accounts, t'.accounts, u)
    && LedgerGrows(t.ledger, t'.ledger, u)
  }

  lemma ExpireStarterShape(t: Tables, u: UserId, at: Instant, wall: Instant, v: StarterView)
    requires u in t.accounts
    ensures var t' := ExpireStarter(t, u, at, wall, v);
      Upkeep(t, t', u) && t'.packages == t.packages
  {
  }

  lemma GrantStarterShape(t: Tables, u: UserId, at: Instant, wall: Instant)
    requires u in t.accounts
    ensures Upkeep(t, GrantStarter(t, u, at, wall), u)
  {
  }

  lemma EnsureShape(t: Tables, u: UserId, at: Instant, wall: Instant, v: StarterView)
    ensures var t' := EnsureAccount(t, u, at, wall, v);
      Upkeep(t, t', u) && t'.packages == Granted(t, u, at, wall)
  {
    var t0 := t.(accounts := WithAccount(t.accounts, u));
    ExpireStarterShape(t0, u, at, wall, v);
    GrantStarterShape(ExpireStarter(t0, u, at, wall, v), u, at, wall);
  }

  lemma ExpireShape(t: Tables, u: UserId, at: Instant)
    ensures var t' := Expire(t, u, at);
      Upkeep(t, t', u) && t'.packages == Emptied(t.packages, u, at) && t'.accounts.Keys == t.accounts.Keys
  {
    if Total(DueAmounts(t.packages, u, at)) == 0 {
      NothingDue(t.packages, u, at);
    } else {
      var rows := ExpirationRows(t.packages, u, at);
      forall k | k in rows ensures rows[k].key == k && IsUpkeepRow(rows[k], u) {}
      assert LedgerGrows(t.ledger, rows + t.ledger, u);
    }
  }

  /** `get_balance`, whatever stale balance was cached: which rows it writes, and that the cached
      balance it leaves is what the packages hold at this instant. */
  lemma GetBalanceShape(t: Tables, u: UserId, at: Instant, wall: Instant, v: StarterView)
    ensures var t' := GetBalance(t, u, at, wall, v);
      && Upkeep(t, t', u)
      && t'.packages == Emptied(Granted(t, u, at, wall), u, at)
      && u in t'.accounts && t'.accounts[u].balance == ActiveSum(t'.packages, u, at)
  {
    EnsureShape(t, u, at, wall, v);
    ExpireShape(EnsureAccount(t, u, at, wall, v), u, at);
  }

  lemma GrantedFacts(t: Tables, u: UserId, at: Instant, wall: Instant)
    ensures var ps := Granted(t, u, at, wall);
      && |t.packages| <= |ps| <= |t.packages| + 1
      && (forall i :: 0 <= i < |t.packages| ==> ps[i] == t.packages[i])
      && (KeysUnique(t.packages) ==> KeysUnique(ps))
      && (|ps| > |t.packages| ==>
            NeverGranted(t, u) && ps[|t.packages|] == NewPackage(u, StarterGrant, STARTER_GRANT_CREDITS,
              Some(wall + STARTER_GRANT_TTL), StarterPackage(u), at))
  {
    if NeverGranted(t, u) {
      WithPackageFacts(t.packages,
        NewPackage(u, StarterGrant, STARTER_GRANT_CREDITS, Some(wall + STARTER_GRANT_TTL), StarterPackage(u), at));
    }
  }

  lemma GetBalanceLedger(t: Tables, u: UserId, at: Instant, wall: Instant, v: StarterView)
    requires LedgerKeyed(t.ledger)
    ensures LedgerKeyed(GetBalance(t, u, at, wall, v).ledger)
  {
    GetBalanceShape(t, u, at, wall, v);
  }

  /** Old packages may only lose credits; new ones hold no more than their grant. */
  predicate OnlyNewCredits(ps: seq<Package>, qs: seq<Package>) {
    && |ps| <= |qs|
    && (forall i :: 0 <= i < |ps| ==>
          qs[i].remaining <= ps[i].remaining && qs[i] == ps[i].(remaining := qs[i].remaining))
    && (forall i :: |ps| <= i < |qs| ==> qs[i].remaining <= qs[i].granted && !qs[i].key.RefundPackage?)
  }

  lemma GetBalancePackages(t: Tables, u: UserId, at: Instant, wall: Instant, v: StarterView)
    ensures OnlyNewCredits(t.packages, GetBalance(t, u, at, wall, v).packages)
  {
    GrantedFacts(t, u, at, wall);
    var ps := Granted(t, u, at, wall);
    var qs := Emptied(ps, u, at);
    assert OnlyNewCredits(t.packages, qs);
    GetBalanceShape(t, u, at, wall, v);
  }
}
