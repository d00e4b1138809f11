/** Chains of merge pointers end, identities stay unique, spent tokens stay spent. */
module IdentityFacts {
  import opened Tables
  import opened Text
  import opened MergeRules
  import opened IdentityRules

  // -------------------------------------------------------------------- chains

  function Smaller(users: map<UserId, User>, u: UserId): set<UserId>
    requires u in users
  {
    set v | v in users && Before(users, v, u)
  }

  lemma SmallerShrinks(users: map<UserId, User>, u: UserId, v: UserId)
    requires u in users && v in users && Before(users, v, u)
    ensures |Smaller(users, v)| < |Smaller(users, u)|
  {
    assert v in Smaller(users, u) && v !in Smaller(users, v);
    assert Smaller(users, v) <= Smaller(users, u) - {v};
    ProperSubsetIsSmaller(Smaller(users, v), Smaller(users, u) - {v});
  }

  lemma {:induction false} ProperSubsetIsSmaller<T>(a: set<T>, b: set<T>)
    requires a <= b
    ensures |a| <= |b|
  {
    if a != {} {
      var x :| x in a;
      ProperSubsetIsSmaller(a - {x}, b - {x});
    }
  }

  /** The account at the end of `u`'s merge pointers. */
  ghost function Root(users: map<UserId, User>, u: UserId): (r: UserId)
    requires PointersDescend(users) && u in users
    ensures Live(users, r) && (r == u || Before(users, r, u))
    decreases |Smaller(users, u)|
  {
    match users[u].mergedInto
    case None => u
    case Some(v) =>
      SmallerShrinks(users, u, v);
      Root(users, v)
  }

  /** Walking along merge pointers always goes down, so no walk returns to where it was. */
  lemma {:induction false} PointersNeverCycle(users: map<UserId, User>, path: seq<UserId>)
    requires PointersDescend(users) && |path| >= 2
    requires forall i :: 0 <= i < |path| ==> path[i] in users
    requires forall i :: 0 <= i < |path| - 1 ==> users[path[i]].mergedInto == Some(path[i + 1])
    ensures Before(users, path[|path| - 1], path[0]) && path[|path| - 1] != path[0]
  {
    var n := |path| - 1;
    assert users[path[n - 1]].mergedInto == Some(path[n - 1 + 1]);
    if n > 1 { PointersNeverCycle(users, path[..n]); }
  }

  // ----------------------------------------------------------- what each step keeps

  lemma EnsureKeeps(d: Directory, id: Identity, owner: Option<UserId>, newUser: UserId, now: Instant)
    requires DirectoryInv(d) && ValidIdentity(id) && IsTelegramOwner(d.users, id, owner) && newUser !in d.users
    ensures var (u, d') := EnsureIdentity(d, id, owner, newUser, now);
      && DirectoryInv(d') && id in d'.identities && d'.identities[id] == u && u in d'.users
      && (OwnersLive(d.users, d.identities) ==> OwnersLive(d'.users, d'.identities))
  {
    if id.provider == Telegram { IntValueWrites(id.subject); }
  }

  /** Linking: the identity ends with one owner and no account gets a second subject of its provider.
      The only way an identity comes to a merged account is that a free one is linked to an account
      merged since its credential was looked up, which the operation does not look at. */
  lemma LinkKeeps(d: Directory, current: UserId, id: Identity, existing: Option<string>, legacy: Option<UserId>)
    requires DirectoryInv(d) && ValidIdentity(id) && current in d.users
    requires IsExisting(d.identities, current, id.provider, existing) && IsLegacyOwner(d.users, id, legacy)
    ensures var (r, d') := Link(d, current, id, existing, legacy);
      && DirectoryInv(d')
      && (OwnersLive(d.users, d.identities) ==>
            (OwnersLive(d'.users, d'.identities) <==> !r.Linked? || Live(d.users, current)))
      && (r.Linked? || r.AlreadyLinked? ==> id in d'.identities && d'.identities[id] == current)
      && (r.MergeRequired? ==> id in d'.identities && d'.identities[id] == r.token.target != current && d' == d)
      && (r.ProviderConflict? ==> d' == d)
  {
    if id.provider == Telegram { IntValueWrites(id.subject); }
    var (r, d') := Link(d, current, id, existing, legacy);
    if r.Linked? { assert d'.identities[id] == current; }
  }

  predicate HoldsOther(identities: map<Identity, UserId>, u: UserId, id: Identity) {
    exists a :: a in identities && identities[a] == u && a.provider == id.provider && a.subject != id.subject
  }

  /** Without the Telegram numbers being mirrored by identity rows, linking keeps single subjects
      exactly unless it adopts a legacy owner who already holds another Telegram identity. */
  lemma LinkKeepsSingleIff(d: Directory, current: UserId, id: Identity, existing: Option<string>, legacy: Option<UserId>)
    requires SingleSubject(d.identities) && ValidIdentity(id)
    requires IsExisting(d.identities, current, id.provider, existing) && IsLegacyOwner(d.users, id, legacy)
    ensures var adopts := id !in d.identities && legacy.Some? && !(existing.Some? && existing.value != id.subject);
      SingleSubject(Link(d, current, id, existing, legacy).1.identities) <==> !(adopts && HoldsOther(d.identities, legacy.value, id))
  {
    var identities' := Link(d, current, id, existing, legacy).1.identities;
    if id !in d.identities && legacy.Some? && !(existing.Some? && existing.value != id.subject)
       && HoldsOther(d.identities, legacy.value, id) {
      var a :| a in d.identities && d.identities[a] == legacy.value && a.provider == id.provider && a.subject != id.subject;
      assert identities'[a] == identities'[id];
    }
  }

  lemma NoConflictMeansSingle(identities: map<Identity, UserId>, source: UserId, survivor: UserId)
    requires SingleSubject(identities) && !SubjectsConflict(identities, source, survivor) && source != survivor
    ensures SingleSubject(MoveIdentities(identities, source, survivor))
  {
  }

  lemma MergeKeepsPointers(d: Directory, source: UserId, survivor: UserId)
    requires PointersDescend(d.users)
    requires Live(d.users, source) && Live(d.users, survivor) && Before(d.users, survivor, source)
    ensures PointersDescend(MergeUsers(d, source, survivor).users)
  {
  }

  lemma MergeKeepsOwnersLive(d: Directory, source: UserId, survivor: UserId)
    requires OwnersLive(d.users, d.identities) && Live(d.users, source) && Live(d.users, survivor) && source != survivor
    ensures OwnersLive(MergeUsers(d, source, survivor).users, MergeUsers(d, source, survivor).identities)
  {
  }

  lemma MergeKeepsDirectory(d: Directory, source: UserId, survivor: UserId)
    requires DirectoryInv(d) && Live(d.users, source) && Live(d.users, survivor) && Before(d.users, survivor, source)
    requires !SubjectsConflict(d.identities, source, survivor)
    ensures DirectoryInv(MergeUsers(d, source, survivor))
  {
    MergeKeepsPointers(d, source, survivor);
    NoConflictMeansSingle(d.identities, source, survivor);
    MergeKeepsMirror(d, source, survivor);
  }

  lemma MergeKeepsMirror(d: Directory, source: UserId, survivor: UserId)
    requires TelegramMirrored(d.users, d.identities) && Live(d.users, source) && Live(d.users, survivor)
    requires source != survivor && !SubjectsConflict(d.identities, source, survivor)
    ensures var d' := MergeUsers(d, source, survivor);
      TelegramMirrored(d'.users, d'.identities)
  {
  }

  /** What a successful merge did: the larger account went into the smaller, with all its identities. */
  ghost predicate Absorbed(d: Directory, d': Directory, source: UserId, survivor: UserId) {
    && Live(d.users, source) && Live(d'.users, survivor) && survivor in d.users && Before(d.users, survivor, source)
    && source in d'.users && d'.users[source].mergedInto == Some(survivor)
    && (forall id :: id in d.identities ==> id in d'.identities && d'.identities[id] == NewOwner(d.identities[id], source, survivor))
    && (forall u :: u in d.users && u != source && u != survivor ==> u in d'.users && d'.users[u] == d.users[u])
  }

  lemma MergeAbsorbs(d: Directory, source: UserId, survivor: UserId)
    requires Live(d.users, source) && Live(d.users, survivor) && Before(d.users, survivor, source)
    ensures Absorbed(d, MergeUsers(d, source, survivor), source, survivor)
  {
  }

  /** Confirmation of a merge: whatever the token, the invariant holds afterwards; a success absorbs
      the larger account into the smaller, rows and credits included, and touches no third account. */
  lemma ConfirmKeeps(d: Directory, t: Tables, current: UserId, token: Option<Token>, at: Instant)
    requires DirectoryInv(d)
    ensures var (r, d', t') := Confirm(d, t, current, token, at);
      && DirectoryInv(d') && (OwnersLive(d.users, d.identities) ==> OwnersLive(d'.users, d'.identities))
      && (!r.Merged? ==> d' == d && t' == t)
      && (r.Merged? ==>
            var source := Loser(d.users, current, token.value.target);
            Absorbed(d, d', source, r.survivor) && t' == Merge(t, source, r.survivor, at))
  {
    var r := Confirm(d, t, current, token, at).0;
    if r.Merged? {
      var source := Loser(d.users, current, token.value.target);
      MergeKeepsDirectory(d, source, r.survivor);
      if OwnersLive(d.users, d.identities) { MergeKeepsOwnersLive(d, source, r.survivor); }
      MergeAbsorbs(d, source, r.survivor);
    }
  }

  // -------------------------------------------------------------- spent tokens

  /** A token is spent once one of its two accounts has been merged away. */
  predicate Spent(users: map<UserId, User>, token: Token) {
    || (token.current in users && users[token.current].mergedInto.Some?)
    || (token.target in users && users[token.target].mergedInto.Some?)
  }

  lemma SuccessSpends(d: Directory, t: Tables, current: UserId, token: Token, at: Instant)
    requires DirectoryInv(d) && Confirm(d, t, current, Some(token), at).0.Merged?
    ensures Spent(Confirm(d, t, current, Some(token), at).1.users, token)
  {
  }

  /** Replaying a spent token, by anyone and at any time, changes nothing. */
  lemma SpentTokenIsInert(d: Directory, t: Tables, current: UserId, token: Token, at: Instant)
    requires Spent(d.users, token)
    ensures var (r, d', t') := Confirm(d, t, current, Some(token), at);
      d' == d && t' == t && !r.Merged?
  {
  }

  // ----------------------------------------------------------------- histories

  datatype Op =
    | Authenticate(id: Identity, owner: Option<UserId>, newUser: UserId, now: Instant)
    | LinkOne(current: UserId, id: Identity, existing: Option<string>, legacy: Option<UserId>)
    | ConfirmOne(current: UserId, token: Option<Token>, at: Instant)

  datatype Accounts = Accounts(d: Directory, t: Tables)

  ghost predicate Possible(a: Accounts, op: Op) {
    match op
    case Authenticate(id, owner, newUser, _) => ValidIdentity(id) && IsTelegramOwner(a.d.users, id, owner) && newUser !in a.d.users
    case LinkOne(current, id, existing, legacy) =>
      && ValidIdentity(id) && current in a.d.users
      && IsExisting(a.d.identities, current, id.provider, existing) && IsLegacyOwner(a.d.users, id, legacy)
    case ConfirmOne(_, _, _) => true
  }

  function After(a: Accounts, op: Op): Accounts
    requires op.Authenticate? ==> ValidIdentity(op.id)
  {
    match op
    case Authenticate(id, owner, newUser, now) => a.(d := EnsureIdentity(a.d, id, owner, newUser, now).1)
    case LinkOne(current, id, existing, legacy) => a.(d := Link(a.d, current, id, existing, legacy).1)
    case ConfirmOne(current, token, at) => var (_, d, t) := Confirm(a.d, a.t, current, token, at); Accounts(d, t)
  }

  ghost predicate StepsAt(states: seq<Accounts>, ops: seq<Op>, i: nat)
    requires |states| == |ops| + 1 && i < |ops|
  {
    Possible(states[i], ops[i]) && states[i + 1] == After(states[i], ops[i])
  }

  ghost predicate History(states: seq<Accounts>, ops: seq<Op>) {
    && |states| == |ops| + 1 && DirectoryInv(states[0].d)
    && forall i :: 0 <= i < |ops| ==> StepsAt(states, ops, i)
  }

  /** Users stay, keep their place in the order, and stay merged once merged. */
  predicate UsersPersist(users: map<UserId, User>, users': map<UserId, User>) {
    forall u :: u in users ==>
      && u in users' && users'[u].created == users[u].created
      && (users[u].mergedInto.Some? ==> users'[u].mergedInto == users[u].mergedInto)
  }

  lemma StepKeeps(a: Accounts, op: Op)
    requires DirectoryInv(a.d) && Possible(a, op)
    ensures DirectoryInv(After(a, op).d)
  {
    match op
    case Authenticate(id, owner, newUser, now) => EnsureKeeps(a.d, id, owner, newUser, now);
    case LinkOne(current, id, existing, legacy) => LinkKeeps(a.d, current, id, existing, legacy);
    case ConfirmOne(current, token, at) => ConfirmKeeps(a.d, a.t, current, token, at);
  }

  lemma StepPersists(a: Accounts, op: Op)
    requires Possible(a, op)
    ensures UsersPersist(a.d.users, After(a, op).d.users)
  {
  }

  lemma HistoryStep(states: seq<Accounts>, ops: seq<Op>, n: nat)
    requires History(states, ops) && n < |ops| && DirectoryInv(states[n].d)
    ensures DirectoryInv(states[n + 1].d) && UsersPersist(states[n].d.users, states[n + 1].d.users)
  {
    assert StepsAt(states, ops, n);
    StepKeeps(states[n], ops[n]);
    StepPersists(states[n], ops[n]);
  }

  lemma {:induction false} HistoryKeeps(states: seq<Accounts>, ops: seq<Op>, i: nat, n: nat)
    requires History(states, ops) && i <= n < |states|
    ensures DirectoryInv(states[n].d) && UsersPersist(states[i].d.users, states[n].d.users)
    decreases n
  {
    if n > 0 {
      HistoryKeeps(states, ops, if i < n then i else n - 1, n - 1);
      HistoryStep(states, ops, n - 1);
    }
  }

  /** A free identity is linked to an account that was merged after its credential was looked up. */
  predicate LateLink(a: Accounts, op: Op) {
    && op.LinkOne? && !Live(a.d.users, op.current)
    && Link(a.d, op.current, op.id, op.existing, op.legacy).0.Linked?
  }

  lemma StepKeepsOwnersLive(a: Accounts, op: Op)
    requires DirectoryInv(a.d) && Possible(a, op)
    ensures OwnersLive(After(a, op).d.users, After(a, op).d.identities)
       <==> OwnersLive(a.d.users, a.d.identities) && !LateLink(a, op)
  {
    if OwnersLive(a.d.users, a.d.identities) {
      match op
      case Authenticate(id, owner, newUser, now) => EnsureKeeps(a.d, id, owner, newUser, now);
      case LinkOne(current, id, existing, legacy) => LinkKeeps(a.d, current, id, existing, legacy);
      case ConfirmOne(current, token, at) => ConfirmKeeps(a.d, a.t, current, token, at);
    } else {
      var id :| id in a.d.identities && !Live(a.d.users, a.d.identities[id]);
      StepPersists(a, op);
      assert After(a, op).d.identities[id] == a.d.identities[id];
    }
  }

  lemma HistoryStepOwners(states: seq<Accounts>, ops: seq<Op>, n: nat)
    requires History(states, ops) && n < |ops|
    ensures OwnersLive(states[n + 1].d.users, states[n + 1].d.identities)
       <==> OwnersLive(states[n].d.users, states[n].d.identities) && !LateLink(states[n], ops[n])
  {
    HistoryKeeps(states, ops, 0, n);
    assert StepsAt(states, ops, n);
    StepKeepsOwnersLive(states[n], ops[n]);
  }

  /** Every identity belongs to an account that is not merged exactly as long as no link came late. */
  lemma {:induction false} OwnersLiveIff(states: seq<Accounts>, ops: seq<Op>, n: nat)
    requires History(states, ops) && n < |states| && OwnersLive(states[0].d.users, states[0].d.identities)
    ensures OwnersLive(states[n].d.users, states[n].d.identities) <==> forall i :: 0 <= i < n ==> !LateLink(states[i], ops[i])
  {
    if n > 0 {
      OwnersLiveIff(states, ops, n - 1);
      HistoryStepOwners(states, ops, n - 1);
    }
  }

  lemma HistorySpends(states: seq<Accounts>, ops: seq<Op>, i: nat, token: Token)
    requires History(states, ops) && i < |ops| && ops[i].ConfirmOne? && ops[i].token == Some(token)
    requires Confirm(states[i].d, states[i].t, ops[i].current, Some(token), ops[i].at).0.Merged?
    ensures Spent(states[i + 1].d.users, token)
  {
    HistoryKeeps(states, ops, 0, i);
    assert StepsAt(states, ops, i);
    SuccessSpends(states[i].d, states[i].t, ops[i].current, token, ops[i].at);
  }

  lemma StaysSpent(users: map<UserId, User>, users': map<UserId, User>, token: Token)
    requires Spent(users, token) && UsersPersist(users, users')
    ensures Spent(users', token)
  {
  }

  /** In every history a token that succeeded once changes nothing ever after. */
  lemma SpentForGood(states: seq<Accounts>, ops: seq<Op>, i: nat, n: nat, token: Token, replayer: UserId, at: Instant)
    requires History(states, ops) && i < n < |states|
    requires ops[i].ConfirmOne? && ops[i].token == Some(token)
    requires Confirm(states[i].d, states[i].t, ops[i].current, Some(token), ops[i].at).0.Merged?
    ensures After(states[n], ConfirmOne(replayer, Some(token), at)) == states[n]
  {
    HistorySpends(states, ops, i, token);
    HistoryKeeps(states, ops, i + 1, n);
    StaysSpent(states[i + 1].d.users, states[n].d.users, token);
    SpentTokenIsInert(states[n].d, states[n].t, replayer, token, at);
  }

  /** Linking `id` for live user 2 breaks single subjects, although everything but the mirror of
      Telegram numbers was in order. */
  ghost predicate LinkBreaks(d: Directory, id: Identity, legacy: Option<UserId>) {
    && ValidIdentity(id) && SingleSubject(d.identities) && OwnersLive(d.users, d.identities) && Live(d.users, 2)
    && IsExisting(d.identities, 2, id.provider, None) && IsLegacyOwner(d.users, id, legacy)
    && !SingleSubject(Link(d, 2, id, None, legacy).1.identities)
  }

  /** The example behind the exact condition: user 1 has the Telegram number 5 without an identity row
      and has linked Telegram 6; user 2 links Telegram 5, and user 1 ends with both. */
  lemma LegacyOwnerMayHoldTwo()
    ensures exists d: Directory, legacy: Option<UserId> :: LinkBreaks(d, Identity(Telegram, "5"), legacy)
  {
    var users := map[1 := User(0, Some(5), None), 2 := User(1, None, None)];
    var d := Directory(users, map[Identity(Telegram, "6") := 1], map[]);
    var id := Identity(Telegram, "5");
    assert NatValue("5"[..0]) == 0;
    assert IntValue("5") == 5;
    assert HoldsOther(d.identities, 1, id) by { assert Identity(Telegram, "6") in d.identities; }
    LinkKeepsSingleIff(d, 2, id, None, Some(1));
    assert LinkBreaks(d, id, Some(1));
  }
}
