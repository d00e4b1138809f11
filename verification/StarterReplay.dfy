/** `_calculate_remaining_starter_grant_credits`: replaying a user's ledger to find how much of
    the starter grant is left, and what the answer is bounded by. */
module StarterReplay {
  import opened Sums
  import opened Tables

  /** The rows every starter-grant query looks for. */
  predicate IsStarterRow(r: LedgerRow, u: UserId) {
    r.owner == u && (r.kind == StarterGrantKind || r.event == TrialGrant || r.key == StarterGrantKey(u))
  }

  /** The row that switches the replay on: a starter row that granted something. The listing only
      holds rows of `u`, so ownership is not looked at again. */
  predicate StartsReplay(r: LedgerRow, u: UserId) {
    (r.kind == StarterGrantKind || r.event == TrialGrant || r.key == StarterGrantKey(u)) && r.delta > 0
  }

  /** One replayed row after the starter row. */
  function ReplayRow(remaining: int, r: LedgerRow, granted: int): int {
    if r.delta < 0 then Max(0, remaining + r.delta)
    else if r.event == JobRefund then Min(granted, remaining + r.delta)
    else remaining
  }

  function ReplayFrom(rows: seq<LedgerRow>, granted: int): int {
    if rows == [] then granted
    else ReplayRow(ReplayFrom(rows[..|rows| - 1], granted), rows[|rows| - 1], granted)
  }

  predicate StarterSeen(rows: seq<LedgerRow>, u: UserId) {
    exists i :: 0 <= i < |rows| && StartsReplay(rows[i], u)
  }

  /** The rows the replay acts on: those after the first row that starts it. */
  function AfterStarter(rows: seq<LedgerRow>, u: UserId): seq<LedgerRow> {
    if rows == [] || !StarterSeen(rows[..|rows| - 1], u) then []
    else AfterStarter(rows[..|rows| - 1], u) + [rows[|rows| - 1]]
  }

  function RemainingStarterCredits(rows: seq<LedgerRow>, u: UserId, granted: int): int {
    ReplayFrom(AfterStarter(rows, u), granted)
  }

  /** What one more row does to the replay. */
  lemma OneMoreRow(rows: seq<LedgerRow>, i: nat, u: UserId, granted: int)
    requires i < |rows|
    ensures StarterSeen(rows[..i + 1], u) <==> StarterSeen(rows[..i], u) || StartsReplay(rows[i], u)
    ensures RemainingStarterCredits(rows[..i + 1], u, granted)
         == if StarterSeen(rows[..i], u) then ReplayRow(RemainingStarterCredits(rows[..i], u, granted), rows[i], granted) else granted
  {
    var before, after := rows[..i], AfterStarter(rows[..i], u);
    assert rows[..i + 1][..i] == before && rows[..i + 1][i] == rows[i];
    assert (after + [rows[i]])[..|after|] == after;
    if StarterSeen(before, u) {
      var k :| 0 <= k < i && StartsReplay(before[k], u);
      assert StartsReplay(rows[..i + 1][k], u);
    }
    if StartsReplay(rows[i], u) { assert StartsReplay(rows[..i + 1][i], u); }
    if StarterSeen(rows[..i + 1], u) {
      var k :| 0 <= k < i + 1 && StartsReplay(rows[..i + 1][k], u);
      assert k == i || before[k] == rows[k];
    }
    Unseen(before, u);
  }

  lemma {:induction false} Unseen(rows: seq<LedgerRow>, u: UserId)
    ensures !StarterSeen(rows, u) ==> AfterStarter(rows, u) == []
  {
    if rows != [] && StarterSeen(rows[..|rows| - 1], u) {
      var k :| 0 <= k < |rows| - 1 && StartsReplay(rows[..|rows| - 1][k], u);
      assert StartsReplay(rows[k], u);
    }
  }

  method CalculateRemainingStarterCredits(rows: seq<LedgerRow>, u: UserId, granted: int)
    returns (remaining: int)
    ensures remaining == RemainingStarterCredits(rows, u, granted)
  {
    remaining := granted;
    var starterSeen := false;
    for i := 0 to |rows|
      invariant starterSeen <==> StarterSeen(rows[..i], u)
      invariant remaining == RemainingStarterCredits(rows[..i], u, granted)
      invariant !starterSeen ==> remaining == granted
    {
      OneMoreRow(rows, i, u, granted);
      var row := rows[i];
      if !starterSeen {
        if StartsReplay(row, u) {
          starterSeen := true;
        }
      } else if row.delta < 0 {
        remaining := Max(0, remaining + row.delta);
      } else if row.event == JobRefund {
        remaining := Min(granted, remaining + row.delta);
      }
    }
    assert rows[..|rows|] == rows;
  }

  /** Credits debited by `rows`. */
  function Debits(rows: seq<LedgerRow>): nat {
    if rows == [] then 0
    else Debits(rows[..|rows| - 1]) + Max(0, -rows[|rows| - 1].delta)
  }

  /** Credits given back by refund rows. */
  function Refunds(rows: seq<LedgerRow>): nat {
    if rows == [] then 0
    else
      var last := rows[|rows| - 1];
      Refunds(rows[..|rows| - 1]) + (if last.event == JobRefund then Max(0, last.delta) else 0)
  }

  lemma {:induction false} ReplayBounds(rows: seq<LedgerRow>, granted: int)
    requires granted >= 0
    ensures Max(0, granted - Debits(rows)) <= ReplayFrom(rows, granted)
    ensures ReplayFrom(rows, granted)
         <= Min(granted, Max(0, granted - Debits(rows)) + Refunds(rows))
  {
    if rows != [] {
      ReplayBounds(rows[..|rows| - 1], granted);
    }
  }

  /** With debits D and refunds R after the starter row, the replay lies between
      max(0, granted - D) and min(granted, max(0, granted - D) + R), whatever was in the ledger before. */
  lemma {:induction false} RemainingWithinBounds(rows: seq<LedgerRow>, u: UserId, granted: int)
    requires granted >= 0
    ensures var after := AfterStarter(rows, u);
      var left := Max(0, granted - Debits(after));
      left <= RemainingStarterCredits(rows, u, granted) <= Min(granted, left + Refunds(after))
  {
    ReplayBounds(AfterStarter(rows, u), granted);
  }

  /** Without refunds the bounds meet: the replay is exact. */
  lemma {:induction false} ExactWithoutRefunds(rows: seq<LedgerRow>, u: UserId, granted: int)
    requires granted >= 0
    requires Refunds(AfterStarter(rows, u)) == 0
    ensures RemainingStarterCredits(rows, u, granted)
         == Max(0, granted - Debits(AfterStarter(rows, u)))
  {
    RemainingWithinBounds(rows, u, granted);
  }

  /** Row by row: a debit takes what is there, a refund fills up to the grant, nothing else counts. */
  lemma ReplayGoesOn(rows: seq<LedgerRow>, r: LedgerRow, granted: int)
    ensures var before := ReplayFrom(rows, granted);
      ReplayFrom(rows + [r], granted) == if r.delta < 0 then Max(0, before + r.delta)
                                         else if r.event == JobRefund then Min(granted, before + r.delta) else before
  {
    assert (rows + [r])[..|rows|] == rows;
  }

  /** Whether the running sum of debits and refunds always stays between nothing and the grant. */
  predicate NeverClips(rows: seq<LedgerRow>, granted: int) {
    forall n :: 0 <= n <= |rows| ==> 0 <= granted - Debits(rows[..n]) + Refunds(rows[..n]) <= granted
  }

  lemma NeverClipsBefore(rows: seq<LedgerRow>, granted: int)
    requires rows != [] && NeverClips(rows, granted)
    ensures NeverClips(rows[..|rows| - 1], granted)
  {
    var init := rows[..|rows| - 1];
    forall n | 0 <= n <= |init| ensures 0 <= granted - Debits(init[..n]) + Refunds(init[..n]) <= granted {
      assert init[..n] == rows[..n];
    }
  }

  /** As long as no clamp acts, the replay is the plain sum: every debit is taken and every refund
      given back. */
  lemma {:induction false} ExactWithoutClipping(rows: seq<LedgerRow>, granted: int)
    requires NeverClips(rows, granted)
    ensures ReplayFrom(rows, granted) == granted - Debits(rows) + Refunds(rows)
  {
    assert rows[..|rows|] == rows;
    if rows != [] {
      NeverClipsBefore(rows, granted);
      ExactWithoutClipping(rows[..|rows| - 1], granted);
    }
  }

  /** A grant of nothing leaves nothing to take back. */
  lemma {:induction false} NothingGranted(rows: seq<LedgerRow>, granted: int)
    requires granted <= 0
    ensures ReplayFrom(rows, granted) <= 0
  {
    if rows != [] {
      NothingGranted(rows[..|rows| - 1], granted);
    }
  }

  /** `s` is the first row of a starter grant of something. */
  predicate FirstGrantAt(rows: seq<LedgerRow>, u: UserId, s: nat) {
    && s < |rows| && IsGrantOf(rows[s], u) && forall i :: 0 <= i < s ==> !IsGrantOf(rows[i], u)
  }

  predicate IsGrantOf(r: LedgerRow, u: UserId) {
    (r.kind == StarterGrantKind || r.event == TrialGrant || r.key == StarterGrantKey(u)) && r.delta > 0
  }

  /** The rows the replay acts on are exactly those after that row. */
  lemma {:induction false} AfterStarterIs(rows: seq<LedgerRow>, u: UserId)
    ensures (forall i :: 0 <= i < |rows| ==> !IsGrantOf(rows[i], u)) ==> AfterStarter(rows, u) == []
    ensures forall s: nat :: FirstGrantAt(rows, u, s) ==> AfterStarter(rows, u) == rows[s + 1..]
  {
    if rows != [] {
      var n := |rows| - 1;
      AfterStarterIs(rows[..n], u);
      forall s: nat | FirstGrantAt(rows, u, s) ensures AfterStarter(rows, u) == rows[s + 1..] {
        if s < n {
          assert StartsReplay(rows[..n][s], u) && FirstGrantAt(rows[..n], u, s);
          assert rows[s + 1..] == rows[..n][s + 1..] + [rows[n]];
        } else {
          forall i | 0 <= i < n ensures !StartsReplay(rows[..n][i], u) { assert !IsGrantOf(rows[i], u); }
        }
      }
    }
  }
}
