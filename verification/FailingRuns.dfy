/** Two runs of a new deployment that show what the credit operations do not promise: `get_balance` asked
    twice at one instant writes both times, and a sign-in leaves a balance that is not the user's. */
module FailingRuns {
  import opened Sums
  import opened Tables
  import opened StarterReplay
  import opened CreditRules
  import opened CreditFacts
  import opened CreditInvariant
  import opened MergeRules
  import opened Conservation
  import opened World

  const STARTER := Package(7, StarterGrant, STARTER_GRANT_CREDITS, STARTER_GRANT_CREDITS,
                           Some(1 + STARTER_GRANT_TTL), 0, StarterPackage(7))
  const MOVED_STARTER := STARTER.(owner := 1)
  const MOVED_ROW := StarterGrantRow(7, 0).(owner := 1)

  /** The trial user signs in; the application reads its clock a moment after the transaction began. */
  const FIRST := Context(0, 1, StarterView(None, []), [])

  /** The instant at which the starter grant is over for the ledger, but not yet for its package. */
  const LATER := Context(STARTER_GRANT_TTL, STARTER_GRANT_TTL, StarterView(Some(MOVED_ROW), [MOVED_ROW]), [])

  /** The trial user has the starter package and nobody else has anything. */
  predicate TrialGranted(t: Tables) {
    && t.packages == [STARTER] && t.accounts.Keys == {7}
    && t.ledger.Keys == {StarterGrantKey(7)} && t.ledger[StarterGrantKey(7)] == StarterGrantRow(7, 0)
  }

  /** All of it was moved to user 1. */
  predicate TrialMoved(t: Tables) {
    && t.packages == [MOVED_STARTER]
    && t.ledger.Keys == {StarterGrantKey(7)} && t.ledger[StarterGrantKey(7)] == MOVED_ROW
  }

  predicate NoRows(t: Tables) {
    t.packages == [] && t.accounts.Keys == {} && t.ledger.Keys == {} && t.allocations == []
  }

  lemma FirstGrant(t: Tables)
    requires NoRows(t)
    ensures ValidView(t.ledger, 7, FIRST.view)
    ensures TrialGranted(Ensured(t, 7, FIRST))
  {
    assert Ensured(t, 7, FIRST).packages == [STARTER];
  }

  lemma TrialIsMoved(t: Tables)
    requires TrialGranted(t)
    ensures TrialMoved(Merge(t, 7, 1, 1)) && Merge(t, 7, 1, 1).accounts.Keys == {}
  {
    var moved := MoveOwned(t, 7, 1);
    assert DueAmounts(moved.packages, 1, 1) == [0] && Total([0]) == 0;
    NothingLeftToExpire(moved, 7, 1);
  }

  lemma MovedRowIsSeen(t: Tables)
    requires TrialMoved(t)
    ensures ValidView(t.ledger, 1, LATER.view) && !NeverGranted(t, 1)
    ensures ActiveSum(t.packages, 1, LATER.at) == STARTER_GRANT_CREDITS
  {
    assert IsStarterRow(t.ledger[StarterGrantKey(7)], 1);
    assert Shares(t.packages, 1, LATER.at) == [STARTER_GRANT_CREDITS];
    assert Total([STARTER_GRANT_CREDITS]) == STARTER_GRANT_CREDITS;
  }

  /** The first call starts from no cached balance, so there is nothing to take off. */
  lemma FirstCallAuditsNothing(t: Tables)
    requires TrialMoved(t) && 1 !in t.accounts
    ensures var t1 := Balanced(t, 1, LATER);
      TrialMoved(t1) && 1 in t1.accounts && t1.accounts[1].balance == STARTER_GRANT_CREDITS
  {
    MovedRowIsSeen(t);
    GetBalanceShape(t, 1, LATER.at, LATER.wall, LATER.view);
    assert DueAmounts(t.packages, 1, LATER.at) == [0] && Total([0]) == 0;
  }

  /** The second call takes the balance that the first one cached for starter credits to expire. */
  lemma SecondCallAudits(t: Tables)
    requires TrialMoved(t) && 1 in t.accounts && t.accounts[1].balance == STARTER_GRANT_CREDITS
    ensures Balanced(t, 1, LATER) != t
  {
    MovedRowIsSeen(t);
    assert RemainingStarterCredits([MOVED_ROW], 1, STARTER_GRANT_CREDITS) == STARTER_GRANT_CREDITS;
    assert StarterExpiry(t, 1, STARTER_GRANT_CREDITS, LATER.wall, LATER.view) == STARTER_GRANT_CREDITS;
    SettledBalance(t, 1, LATER.at, LATER.wall, LATER.view);
  }

  lemma SameStep(ws: seq<World>, es: seq<Event>, ws': seq<World>, es': seq<Event>, i: nat)
    requires |ws| == |es| + 1 && i < |es| && |ws'| == |es'| + 1 && i < |es'|
    requires StepsAt(ws, es, i) && ws'[i] == ws[i] && ws'[i + 1] == ws[i + 1] && es'[i] == es[i]
    ensures StepsAt(ws', es', i)
  {
  }

  lemma LastStep(ws: seq<World>, es: seq<Event>)
    requires |ws| == |es| + 1 && es != []
    requires Enabled(ws[|es| - 1], es[|es| - 1]) && ws[|es|] == Next(ws[|es| - 1], es[|es| - 1])
    ensures StepsAt(ws, es, |es| - 1)
  {
  }

  lemma ExtendSteps(ws: seq<World>, es: seq<Event>, ws': seq<World>, es': seq<Event>)
    requires |ws| == |es| + 1 && |ws'| == |es'| + 1 == |ws| + 1 && ws'[..|ws|] == ws && es'[..|es|] == es
    requires StepsAt(ws', es', |es|)
    requires forall i :: 0 <= i < |es| ==> StepsAt(ws, es, i)
    ensures forall i :: 0 <= i < |es'| ==> StepsAt(ws', es', i)
  {
    forall i | 0 <= i < |es| ensures StepsAt(ws', es', i) {
      SameStep(ws, es, ws', es', i);
    }
  }

  lemma ExtendRun(ws: seq<World>, es: seq<Event>, e: Event, w: World)
    requires Run(ws, es) && Enabled(ws[|es|], e) && w == Next(ws[|es|], e)
    ensures Run(ws + [w], es + [e])
  {
    LastStep(ws + [w], es + [e]);
    ExtendSteps(ws, es, ws + [w], es + [e]);
  }

  predicate NobodyMerged(w: World) {
    7 !in w.merged && 1 !in w.merged && w.t.allocations == []
  }

  /** The run goes on by one event. */
  ghost predicate Goes(ws: seq<World>, es: seq<Event>, e: Event, ws': seq<World>, es': seq<Event>) {
    |ws| == |es| + 1 && Run(ws', es') && es' == es + [e] && |ws'| == |ws| + 1 && ws'[..|ws|] == ws
  }

  lemma GrantStep(ws: seq<World>, es: seq<Event>) returns (ws': seq<World>, es': seq<Event>)
    requires Run(ws, es) && NoRows(ws[|es|].t) && NobodyMerged(ws[|es|])
    ensures Goes(ws, es, SignIn(7, FIRST), ws', es')
    ensures TrialGranted(ws'[|es'|].t) && NobodyMerged(ws'[|es'|])
  {
    FirstGrant(ws[|es|].t);
    var w := Next(ws[|es|], SignIn(7, FIRST));
    ExtendRun(ws, es, SignIn(7, FIRST), w);
    ws', es' := ws + [w], es + [SignIn(7, FIRST)];
  }

  lemma MergeStep(ws: seq<World>, es: seq<Event>) returns (ws': seq<World>, es': seq<Event>)
    requires Run(ws, es) && TrialGranted(ws[|es|].t) && NobodyMerged(ws[|es|])
    ensures Goes(ws, es, MergeOne(7, 1, 1), ws', es')
    ensures TrialMoved(ws'[|es'|].t) && 1 !in ws'[|es'|].t.accounts && ws'[|es'|].t.allocations == []
  {
    TrialIsMoved(ws[|es|].t);
    MergeShape(ws[|es|].t, 7, 1, 1);
    var w := Next(ws[|es|], MergeOne(7, 1, 1));
    ExtendRun(ws, es, MergeOne(7, 1, 1), w);
    ws', es' := ws + [w], es + [MergeOne(7, 1, 1)];
  }

  lemma FirstCallStep(ws: seq<World>, es: seq<Event>) returns (ws': seq<World>, es': seq<Event>)
    requires Run(ws, es) && TrialMoved(ws[|es|].t) && 1 !in ws[|es|].t.accounts && ws[|es|].t.allocations == []
    ensures Goes(ws, es, AskBalance(1, LATER), ws', es')
    ensures TrialMoved(ws'[|es'|].t) && ws'[|es'|].t.allocations == []
    ensures 1 in ws'[|es'|].t.accounts && ws'[|es'|].t.accounts[1].balance == STARTER_GRANT_CREDITS
  {
    FirstCallAuditsNothing(ws[|es|].t);
    var w := Next(ws[|es|], AskBalance(1, LATER));
    ExtendRun(ws, es, AskBalance(1, LATER), w);
    ws', es' := ws + [w], es + [AskBalance(1, LATER)];
  }

  lemma SecondCallStep(ws: seq<World>, es: seq<Event>) returns (ws': seq<World>, es': seq<Event>)
    requires Run(ws, es) && TrialMoved(ws[|es|].t) && ws[|es|].t.allocations == []
    requires 1 in ws[|es|].t.accounts && ws[|es|].t.accounts[1].balance == STARTER_GRANT_CREDITS
    ensures Goes(ws, es, AskBalance(1, LATER), ws', es')
    ensures ws'[|es'|].t != ws[|es|].t
  {
    SecondCallAudits(ws[|es|].t);
    var w := Next(ws[|es|], AskBalance(1, LATER));
    ExtendRun(ws, es, AskBalance(1, LATER), w);
    ws', es' := ws + [w], es + [AskBalance(1, LATER)];
  }

  /** A run of a new deployment ends with the same balance request twice in a row, every query is
      answered correctly, and the second request writes. */
  ghost predicate RepeatWrites(ws: seq<World>, es: seq<Event>, u: UserId, c: Context) {
    && Run(ws, es) && Initial(ws[0])
    && |es| >= 2 && es[|es| - 2] == es[|es| - 1] == AskBalance(u, c)
    && ValidView(ws[|es| - 2].t.ledger, u, c.view) && ValidView(ws[|es| - 1].t.ledger, u, c.view)
    && ws[|es|].t != ws[|es| - 1].t
  }

  /** The trial user signs in and is merged into user 1, who has no cached account row. */
  lemma MergedTrial(w0: World) returns (ws: seq<World>, es: seq<Event>)
    requires Initial(w0)
    ensures Run(ws, es) && ws[0] == w0 && es == [SignIn(7, FIRST), MergeOne(7, 1, 1)]
    ensures TrialMoved(ws[2].t) && 1 !in ws[2].t.accounts && ws[2].t.allocations == []
  {
    InitialHolds(w0);
    var ws1, es1 := GrantStep([w0], []);
    ws, es := MergeStep(ws1, es1);
  }

  lemma Scenario(w0: World)
    requires Initial(w0)
    ensures exists ws, es :: RepeatWrites(ws, es, 1, LATER)
  {
    var ws2, es2 := MergedTrial(w0);
    MovedRowIsSeen(ws2[|es2|].t);
    var ws3, es3 := FirstCallStep(ws2, es2);
    MovedRowIsSeen(ws3[|es3|].t);
    var ws4, es4 := SecondCallStep(ws3, es3);
    assert RepeatWrites(ws4, es4, 1, LATER);
  }

  lemma EmptyWorld() returns (w0: World)
    ensures Initial(w0)
  {
    w0 := World(Tables([], map[], map[], [], map[], map[]), {}, Losses([], []), map[], {}, {}, map[]);
  }

  /** On a new deployment a trial user is merged into a user without a cached account row, who then
      asks for his balance twice at one instant. The first call creates the row with balance 0; the
      second one sees the balance of the packages and records a starter expiration of credits that
      can still be spent. */
  lemma SecondCallMayAudit()
    ensures exists ws, es, u, c :: RepeatWrites(ws, es, u, c)
  {
    var w0 := EmptyWorld();
    Scenario(w0);
  }

  // ------------------------------------------------------------------ sign-in

  /** A run of a new deployment ends with a sign-in, every query is answered correctly, and the balance
      shown is not what the user's packages hold. */
  ghost predicate ShowsWrongBalance(ws: seq<World>, es: seq<Event>, u: UserId, c: Context) {
    && Run(ws, es) && Initial(ws[0]) && es != [] && es[|es| - 1] == SignIn(u, c)
    && ValidView(ws[|es| - 1].t.ledger, u, c.view)
    && u in ws[|es|].t.accounts && ws[|es|].t.accounts[u].balance < ActiveSum(ws[|es|].t.packages, u, c.at)
  }

  lemma SignInStep(ws: seq<World>, es: seq<Event>) returns (ws': seq<World>, es': seq<Event>)
    requires Run(ws, es) && TrialMoved(ws[|es|].t) && 1 !in ws[|es|].t.accounts && ws[|es|].t.allocations == []
    ensures Goes(ws, es, SignIn(1, LATER), ws', es')
    ensures 1 in ws'[|es'|].t.accounts
    ensures ws'[|es'|].t.accounts[1].balance == 0 < ActiveSum(ws'[|es'|].t.packages, 1, LATER.at)
  {
    var t := ws[|es|].t;
    MovedRowIsSeen(t);
    EnsureBalances(t, 1, LATER, 1, LATER.at);
    var w := Next(ws[|es|], SignIn(1, LATER));
    ExtendRun(ws, es, SignIn(1, LATER), w);
    ws', es' := ws + [w], es + [SignIn(1, LATER)];
  }

  lemma SignInScenario(w0: World)
    requires Initial(w0)
    ensures exists ws, es :: ShowsWrongBalance(ws, es, 1, LATER)
  {
    var ws2, es2 := MergedTrial(w0);
    MovedRowIsSeen(ws2[|es2|].t);
    var ws3, es3 := SignInStep(ws2, es2);
    assert ShowsWrongBalance(ws3, es3, 1, LATER);
  }

  /** The survivor of the same merge signs in: he is shown a balance of 0, and has the starter credits. */
  lemma SignInMayShowNothing()
    ensures exists ws, es, u, c :: ShowsWrongBalance(ws, es, u, c)
  {
    var w0 := EmptyWorld();
    SignInScenario(w0);
  }
}
