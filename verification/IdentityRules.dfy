/** External identities, account linking and the pointers that merges leave. */
module IdentityRules {
  import opened Tables
  import opened Text
  import opened MergeRules

  datatype Provider = Telegram | Supabase

  datatype Identity = Identity(provider: Provider, subject: string)

  /** int() and str() refuse longer decimal numbers. */
  const MAX_INT_DIGITS := 4300

  predicate TelegramSubject(s: string) {
    CanonicalInt(s) && (if s[0] == '-' then |s| - 1 else |s|) <= MAX_INT_DIGITS
  }

  /** `_validate_identity` */
  function ValidateIdentity(provider: string, subject: string): Option<Identity> {
    if provider != "telegram" && provider != "supabase" then None
    else if subject == "" || subject != Strip(subject) then None
    else if provider == "supabase" then Some(Identity(Supabase, subject))
    else if TelegramSubject(subject) then Some(Identity(Telegram, subject))
    else None
  }

  /** Accepted subjects are trimmed and name their identity: no two of them denote one Telegram number. */
  lemma ValidatedIsCanonical(provider: string, subject: string)
    ensures var r := ValidateIdentity(provider, subject);
      && (r.Some? ==> subject != "" && Trimmed(subject) && r.value.subject == subject)
      && (r.Some? && r.value.provider == Telegram ==>
            CanonicalInt(subject) && IntText(IntValue(subject)) == subject)
      && (provider == "telegram" && TelegramSubject(subject) ==> r == Some(Identity(Telegram, subject)))
  {
    StripIsTrimmed(subject);
    if CanonicalInt(subject) {
      IntValueWrites(subject);
      assert Trimmed(subject);
    }
  }

  /** The subject `ensure_user` builds from a Telegram number names that number; it is accepted
      unless the number is too long to be read back. */
  lemma NumberHasSubject(n: int)
    ensures var s := IntText(n);
      && CanonicalInt(s) && IntValue(s) == n
      && (ValidateIdentity("telegram", s) == Some(Identity(Telegram, s)) <==>
            (if n < 0 then |s| - 1 else |s|) <= MAX_INT_DIGITS)
  {
    var s := IntText(n);
    IntTextReads(n);
    ValidatedIsCanonical("telegram", s);
    if n < 0 {
      assert s[0] == '-';
    } else {
      NatTextReads(n);
      assert IsDigit(s[0]);
    }
  }

  datatype User = User(created: Instant, telegram: Option<int>, mergedInto: Option<UserId>)

  /** Users, `user_identities` by (provider, subject), and `account_merges` by source. */
  datatype Directory = Directory(
    users: map<UserId, User>, identities: map<Identity, UserId>, merges: map<UserId, UserId>)

  predicate ValidIdentity(id: Identity) {
    id.provider == Telegram ==> CanonicalInt(id.subject)
  }

  // ------------------------------------------------------- first authentication

  /** SELECT id FROM users WHERE telegram_user_id = n */
  ghost predicate IsTelegramOwner(users: map<UserId, User>, id: Identity, owner: Option<UserId>)
    requires ValidIdentity(id)
  {
    match owner
    case Some(u) => id.provider == Telegram && u in users && users[u].telegram == Some(IntValue(id.subject))
    case None => id.provider == Telegram ==> forall u :: u in users ==> users[u].telegram != Some(IntValue(id.subject))
  }

  /** `ensure_user_identity`: the user an identity belongs to, created on first sight. */
  function EnsureIdentity(d: Directory, id: Identity, owner: Option<UserId>, newUser: UserId, now: Instant): (UserId, Directory)
    requires ValidIdentity(id)
  {
    if id in d.identities then (d.identities[id], d)
    else if owner.Some? then (owner.value, d.(identities := d.identities[id := owner.value]))
    else
      var telegram := if id.provider == Telegram then Some(IntValue(id.subject)) else None;
      (newUser, d.(users := d.users[newUser := User(now, telegram, None)],
                   identities := d.identities[id := newUser]))
  }

  // ------------------------------------------------------------------- linking

  datatype Token = Token(current: UserId, target: UserId, identity: Identity)

  datatype LinkResult = Linked | AlreadyLinked | MergeRequired(token: Token) | ProviderConflict

  /** SELECT provider_subject FROM user_identities WHERE user_id = current AND provider = ... */
  ghost predicate IsExisting(identities: map<Identity, UserId>, u: UserId, p: Provider, existing: Option<string>) {
    match existing
    case Some(s) => Identity(p, s) in identities && identities[Identity(p, s)] == u
    case None => forall id :: id in identities && identities[id] == u ==> id.provider != p
  }

  /** `_legacy_telegram_owner` */
  ghost predicate IsLegacyOwner(users: map<UserId, User>, id: Identity, legacy: Option<UserId>)
    requires ValidIdentity(id)
  {
    match legacy
    case Some(u) =>
      id.provider == Telegram && u in users && users[u].telegram == Some(IntValue(id.subject)) && users[u].mergedInto.None?
    case None =>
      id.provider == Telegram ==>
        forall u :: u in users && users[u].mergedInto.None? ==> users[u].telegram != Some(IntValue(id.subject))
  }

  /** `link_verified_identity` */
  function Link(d: Directory, current: UserId, id: Identity, existing: Option<string>, legacy: Option<UserId>): (LinkResult, Directory) {
    if existing.Some? && existing.value != id.subject then (ProviderConflict, d)
    else if id !in d.identities && legacy.None? then (Linked, d.(identities := d.identities[id := current]))
    else
      var d' := if id in d.identities then d else d.(identities := d.identities[id := legacy.value]);
      var target := if id in d.identities then d.identities[id] else legacy.value;
      if target == current then (AlreadyLinked, d') else (MergeRequired(Token(current, target, id)), d')
  }

  // ------------------------------------------------------------------- merging

  datatype MergeResult =
    | Merged(survivor: UserId)
    | AlreadyMerged(survivor: UserId)
    | TokenInvalid
    | TokenForbidden
    | MergeConflict

  /** min over (created_at, id) */
  predicate Before(users: map<UserId, User>, u: UserId, v: UserId)
    requires u in users && v in users
  {
    users[u].created < users[v].created || (users[u].created == users[v].created && u < v)
  }

  predicate Live(users: map<UserId, User>, u: UserId) {
    u in users && users[u].mergedInto.None?
  }

  predicate SubjectsConflict(identities: map<Identity, UserId>, source: UserId, survivor: UserId) {
    exists a, b :: a in identities && b in identities && identities[a] == source && identities[b] == survivor
      && a.provider == b.provider && a.subject != b.subject
  }

  function MoveIdentities(m: map<Identity, UserId>, source: UserId, survivor: UserId): (r: map<Identity, UserId>)
    ensures r.Keys == m.Keys && forall id :: id in m ==> r[id] == NewOwner(m[id], source, survivor)
  {
    map id | id in m :: NewOwner(m[id], source, survivor)
  }

  function MergeUsers(d: Directory, source: UserId, survivor: UserId): Directory
    requires source in d.users && survivor in d.users
  {
    var telegram := if d.users[survivor].telegram.Some? then d.users[survivor].telegram else d.users[source].telegram;
    d.(
      users := d.users[survivor := d.users[survivor].(telegram := telegram)]
                      [source := d.users[source].(telegram := None, mergedInto := Some(survivor))],
      identities := MoveIdentities(d.identities, source, survivor),
      merges := if source in d.merges then d.merges else d.merges[source := survivor])
  }

  function Survivor(users: map<UserId, User>, u: UserId, v: UserId): UserId
    requires u in users && v in users
  {
    if Before(users, v, u) then v else u
  }

  function Loser(users: map<UserId, User>, u: UserId, v: UserId): UserId
    requires u in users && v in users
  {
    if Before(users, v, u) then u else v
  }

  /** `confirm_account_merge`; a token that cannot be read is None. */
  function Confirm(d: Directory, t: Tables, current: UserId, token: Option<Token>, at: Instant): (MergeResult, Directory, Tables) {
    if token.None? then (TokenInvalid, d, t)
    else
      var id, target := token.value.identity, token.value.target;
      if id in d.identities && d.identities[id] == current then (AlreadyMerged(current), d, t)
      else if token.value.current != current then (TokenForbidden, d, t)
      else if current == target || !Live(d.users, current) || !Live(d.users, target) then (TokenInvalid, d, t)
      else if id !in d.identities || d.identities[id] != target then (TokenInvalid, d, t)
      else
        var survivor, source := Survivor(d.users, current, target), Loser(d.users, current, target);
        if SubjectsConflict(d.identities, source, survivor) then (MergeConflict, d, t)
        else (Merged(survivor), MergeUsers(d, source, survivor), Merge(t, source, survivor, at))
  }

  // ------------------------------------------------------------- the invariant

  /** Every merge pointer goes to a user strictly smaller in (created_at, id). */
  ghost predicate PointersDescend(users: map<UserId, User>) {
    forall u :: u in users && users[u].mergedInto.Some? ==>
      users[u].mergedInto.value in users && Before(users, users[u].mergedInto.value, u)
  }

  /** Foreign key. */
  predicate OwnersKnown(users: map<UserId, User>, identities: map<Identity, UserId>) {
    forall id :: id in identities ==> identities[id] in users
  }

  predicate OwnersLive(users: map<UserId, User>, identities: map<Identity, UserId>) {
    forall id :: id in identities ==> Live(users, identities[id])
  }

  /** No account holds two subjects of one provider. */
  predicate SingleSubject(identities: map<Identity, UserId>) {
    forall a, b :: a in identities && b in identities && identities[a] == identities[b] && a.provider == b.provider ==> a == b
  }

  /** A user's Telegram number is backed by an identity row; merged users have none. */
  ghost predicate TelegramMirrored(users: map<UserId, User>, identities: map<Identity, UserId>) {
    && (forall u :: u in users && users[u].telegram.Some? ==>
          var id := Identity(Telegram, IntText(users[u].telegram.value));
          id in identities && identities[id] == u)
    && (forall u :: u in users && users[u].mergedInto.Some? ==> users[u].telegram.None?)
  }

  ghost predicate DirectoryInv(d: Directory) {
    && PointersDescend(d.users) && OwnersKnown(d.users, d.identities) && SingleSubject(d.identities)
    && TelegramMirrored(d.users, d.identities)
    && (forall u :: u in d.merges ==> u in d.users && d.users[u].mergedInto == Some(d.merges[u]))
    && (forall u :: u in d.users && d.users[u].mergedInto.Some? ==> u in d.merges)
  }
}
