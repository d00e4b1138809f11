/** The starter grant is given at most once, also to users who absorbed an account that had it. */
module Trials {
  import opened Tables
  import opened StarterReplay
  import opened CreditRules
  import opened CreditFacts
  import opened MergeRules

  /** A starter row that stays one whoever owns it. */
  predicate HasGrant(l: map<LedgerKey, LedgerRow>, u: UserId) {
    exists k :: k in l && l[k].owner == u && (l[k].kind == StarterGrantKind || l[k].event == TrialGrant)
  }

  /** Of the accounts that were not merged away: a trial date is backed by a ledger row, and a
      starter key names its owner. */
  ghost predicate TrialsRecorded(accounts: map<UserId, Account>, l: map<LedgerKey, LedgerRow>, merged: set<UserId>) {
    && (forall u :: u in accounts && u !in merged && accounts[u].trialUsedAt.Some? ==> HasGrant(l, u))
    && (forall u :: StarterGrantKey(u) in l && u !in merged ==>
          l[StarterGrantKey(u)].owner == u && l[StarterGrantKey(u)].kind == StarterGrantKind)
  }

  lemma GrantStays(l: map<LedgerKey, LedgerRow>, l': map<LedgerKey, LedgerRow>, u: UserId)
    requires forall k :: k in l ==> k in l' && l'[k] == l[k]
    ensures HasGrant(l, u) ==> HasGrant(l', u)
    ensures HasStarterRow(l, u) ==> HasStarterRow(l', u)
  {
    if HasGrant(l, u) {
      var k :| k in l && l[k].owner == u && (l[k].kind == StarterGrantKind || l[k].event == TrialGrant);
      assert k in l' && l'[k] == l[k];
    }
    if HasStarterRow(l, u) {
      var k :| k in l && IsStarterRow(l[k], u);
      assert k in l' && IsStarterRow(l'[k], u);
    }
  }

  /** Trial dates stay, and rows of other kinds do not touch the record. */
  lemma TrialsOutliveWrites(accounts: map<UserId, Account>, accounts': map<UserId, Account>,
                            l: map<LedgerKey, LedgerRow>, l': map<LedgerKey, LedgerRow>, merged: set<UserId>)
    requires TrialsRecorded(accounts, l, merged)
    requires forall u :: u in accounts' && accounts'[u].trialUsedAt.Some? && u !in merged ==> TrialOf(accounts, u).Some? || HasGrant(l', u)
    requires forall k :: k in l ==> k in l' && l'[k] == l[k]
    requires forall u :: StarterGrantKey(u) in l' && StarterGrantKey(u) !in l && u !in merged ==>
      l'[StarterGrantKey(u)].owner == u && l'[StarterGrantKey(u)].kind == StarterGrantKind
    ensures TrialsRecorded(accounts', l', merged)
  {
    forall u | u in accounts' && u !in merged && accounts'[u].trialUsedAt.Some? ensures HasGrant(l', u) {
      GrantStays(l, l', u);
    }
  }

  lemma TrialAfterEnsure(t: Tables, u: UserId, c: Context)
    ensures var t' := Ensured(t, u, c);
      && TrialOf(t'.accounts, u) == (if NeverGranted(t, u) then Some(c.at) else TrialOf(t.accounts, u))
      && (NeverGranted(t, u) && StarterGrantKey(u) !in t.ledger ==>
            StarterGrantKey(u) in t'.ledger && t'.ledger[StarterGrantKey(u)] == StarterGrantRow(u, c.at))
      && (!NeverGranted(t, u) ==> (StarterGrantKey(u) in t'.ledger <==> StarterGrantKey(u) in t.ledger))
  {
  }

  lemma TrialAfterBalance(t: Tables, u: UserId, c: Context)
    ensures var t' := Balanced(t, u, c);
      && TrialOf(t'.accounts, u) == (if NeverGranted(t, u) then Some(c.at) else TrialOf(t.accounts, u))
      && (NeverGranted(t, u) && StarterGrantKey(u) !in t.ledger ==>
            StarterGrantKey(u) in t'.ledger && t'.ledger[StarterGrantKey(u)] == StarterGrantRow(u, c.at))
      && (!NeverGranted(t, u) ==> (StarterGrantKey(u) in t'.ledger <==> StarterGrantKey(u) in t.ledger))
  {
    var e := Ensured(t, u, c);
    TrialAfterEnsure(t, u, c);
    assert Expire(e, u, c.at).accounts[u].trialUsedAt == e.accounts[u].trialUsedAt;
  }

  lemma NoStarterKeyYet(t: Tables, u: UserId, merged: set<UserId>)
    requires TrialsRecorded(t.accounts, t.ledger, merged) && u !in merged && NeverGranted(t, u)
    ensures StarterGrantKey(u) !in t.ledger
  {
  }

  lemma EnsureKeepsTrials(t: Tables, u: UserId, c: Context, merged: set<UserId>)
    requires TrialsRecorded(t.accounts, t.ledger, merged)
    ensures TrialsRecorded(Ensured(t, u, c).accounts, Ensured(t, u, c).ledger, merged)
  {
    var t' := Ensured(t, u, c);
    EnsureShape(t, u, c.at, c.wall, c.view);
    TrialAfterEnsure(t, u, c);
    if NeverGranted(t, u) && u !in merged {
      NoStarterKeyYet(t, u, merged);
      assert HasGrant(t'.ledger, u);
    }
    TrialsOutliveWrites(t.accounts, t'.accounts, t.ledger, t'.ledger, merged);
  }

  lemma BalanceKeepsTrials(t: Tables, u: UserId, c: Context, merged: set<UserId>)
    requires TrialsRecorded(t.accounts, t.ledger, merged)
    ensures TrialsRecorded(Balanced(t, u, c).accounts, Balanced(t, u, c).ledger, merged)
  {
    var t' := Balanced(t, u, c);
    GetBalanceShape(t, u, c.at, c.wall, c.view);
    TrialAfterBalance(t, u, c);
    if NeverGranted(t, u) && u !in merged {
      NoStarterKeyYet(t, u, merged);
      assert HasGrant(t'.ledger, u);
    }
    TrialsOutliveWrites(t.accounts, t'.accounts, t.ledger, t'.ledger, merged);
  }

  /** A grant recorded on either side of a merge is recorded for the survivor. */
  lemma GrantMoves(l: map<LedgerKey, LedgerRow>, source: UserId, survivor: UserId, u: UserId)
    requires HasGrant(l, u) && source != survivor
    ensures HasGrant(MoveLedger(l, source, survivor), NewOwner(u, source, survivor))
  {
    var k :| k in l && l[k].owner == u && (l[k].kind == StarterGrantKind || l[k].event == TrialGrant);
    assert MoveLedger(l, source, survivor)[k].owner == NewOwner(u, source, survivor);
  }

  lemma MergeKeepsTrials(t: Tables, source: UserId, survivor: UserId, at: Instant, merged: set<UserId>)
    requires source != survivor && source !in merged && survivor !in merged
    requires TrialsRecorded(t.accounts, t.ledger, merged)
    ensures var t' := Merge(t, source, survivor, at);
      TrialsRecorded(t'.accounts, t'.ledger, merged + {source})
  {
    var t', moved := Merge(t, source, survivor, at), MoveLedger(t.ledger, source, survivor);
    MergeShape(t, source, survivor, at);
    forall u | u in t'.accounts && u !in merged + {source} && t'.accounts[u].trialUsedAt.Some?
      ensures HasGrant(t'.ledger, u)
    {
      if TrialOf(t.accounts, u).Some? {
        GrantMoves(t.ledger, source, survivor, u);
      } else {
        GrantMoves(t.ledger, source, survivor, source);
      }
      GrantStays(moved, t'.ledger, u);
    }
    forall u | StarterGrantKey(u) in t'.ledger && u !in merged + {source}
      ensures t'.ledger[StarterGrantKey(u)].owner == u && t'.ledger[StarterGrantKey(u)].kind == StarterGrantKind
    {
      ExpiryKeepsStarterKeys(t, source, survivor, at, u);
    }
  }

  lemma ExpiryKeepsStarterKeys(t: Tables, source: UserId, survivor: UserId, at: Instant, u: UserId)
    requires source != survivor && StarterGrantKey(u) in Merge(t, source, survivor, at).ledger
    ensures StarterGrantKey(u) in t.ledger
    ensures Merge(t, source, survivor, at).ledger[StarterGrantKey(u)] == MoveLedger(t.ledger, source, survivor)[StarterGrantKey(u)]
  {
    NothingLeftToExpire(Expire(MoveOwned(t, source, survivor), survivor, at), source, at);
  }

  lemma GrantedHasGrant(t: Tables, u: UserId, merged: set<UserId>)
    requires TrialsRecorded(t.accounts, t.ledger, merged) && u !in merged && LedgerKeyed(t.ledger)
    requires !NeverGranted(t, u)
    ensures HasGrant(t.ledger, u)
  {
    if HasStarterRow(t.ledger, u) {
      var k :| k in t.ledger && IsStarterRow(t.ledger[k], u);
      assert t.ledger[k].key == k;
    }
  }

  /** A survivor that absorbed a used trial is never granted the starter package again, whether or
      not it had a cached account row of its own. */
  lemma AbsorbedTrialCounts(t: Tables, source: UserId, survivor: UserId, at: Instant, merged: set<UserId>)
    requires source != survivor && source !in merged && survivor !in merged
    requires TrialsRecorded(t.accounts, t.ledger, merged) && LedgerKeyed(t.ledger)
    requires !NeverGranted(t, source) || !NeverGranted(t, survivor)
    ensures !NeverGranted(Merge(t, source, survivor, at), survivor)
  {
    var u := if NeverGranted(t, source) then survivor else source;
    GrantedHasGrant(t, u, merged);
    GrantMoves(t.ledger, source, survivor, u);
    var moved := MoveLedger(t.ledger, source, survivor);
    assert HasStarterRow(moved, survivor) by {
      var k :| k in moved && moved[k].owner == survivor && (moved[k].kind == StarterGrantKind || moved[k].event == TrialGrant);
      assert IsStarterRow(moved[k], survivor);
    }
    GrantableAfterMerge(t, source, survivor, at);
  }
}
