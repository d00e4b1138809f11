/** Authentication, linking and merging as they run over mutable user and identity tables. */
module IdentityService {
  import opened Tables
  import opened Text
  import opened Database
  import opened MergeService
  import opened IdentityRules

  class UserDirectory {
    var users: map<UserId, User>
    var identities: map<Identity, UserId>
    var merges: map<UserId, UserId>

    constructor (d: Directory)
      ensures Snapshot() == d
    {
      users, identities, merges := d.users, d.identities, d.merges;
    }

    function Snapshot(): Directory
      reads this
    {
      Directory(users, identities, merges)
    }

    method SelectTelegramOwner(id: Identity, liveOnly: bool) returns (owner: Option<UserId>)
      requires ValidIdentity(id)
      ensures !liveOnly ==> IsTelegramOwner(users, id, owner)
      ensures liveOnly ==> IsLegacyOwner(users, id, owner)
    {
      if id.provider != Telegram {
        return None;
      }
      var n := IntValue(id.subject);
      var found := set u | u in users && users[u].telegram == Some(n) && (liveOnly ==> users[u].mergedInto.None?);
      if found == {} {
        assert forall u :: u in users && users[u].telegram == Some(n) && (liveOnly ==> users[u].mergedInto.None?) ==> u in found;
        return None;
      }
      var u :| u in found;
      owner := Some(u);
    }

    method SelectSubject(u: UserId, p: Provider) returns (existing: Option<string>)
      ensures IsExisting(identities, u, p, existing)
    {
      var found := set id | id in identities && identities[id] == u && id.provider == p;
      if found == {} {
        assert forall id :: id in identities && identities[id] == u && id.provider == p ==> id in found;
        return None;
      }
      var id :| id in found;
      existing := Some(id.subject);
    }

    /** `ensure_user_identity`, after validation. The new row's id and clock come from the database. */
    method EnsureUserIdentity(id: Identity, newUser: UserId, now: Instant) returns (u: UserId, ghost owner: Option<UserId>)
      requires ValidIdentity(id) && newUser !in users
      modifies this
      ensures IsTelegramOwner(old(users), id, owner)
      ensures (u, Snapshot()) == EnsureIdentity(old(Snapshot()), id, owner, newUser, now)
    {
      var telegramOwner := SelectTelegramOwner(id, false);
      owner := telegramOwner;
      if id in identities {
        return identities[id], owner;
      }
      if telegramOwner.Some? {
        u := telegramOwner.value;
      } else {
        u := newUser;
        users := users[newUser := User(now, if id.provider == Telegram then Some(IntValue(id.subject)) else None, None)];
      }
      identities := identities[id := u];
    }

    /** `link_verified_identity`, after validation */
    method LinkVerifiedIdentity(current: UserId, id: Identity)
      returns (r: LinkResult, ghost existing: Option<string>, ghost legacy: Option<UserId>)
      requires ValidIdentity(id)
      modifies this`identities
      ensures IsExisting(old(identities), current, id.provider, existing) && IsLegacyOwner(users, id, legacy)
      ensures (r, Snapshot()) == Link(old(Snapshot()), current, id, existing, legacy)
    {
      var subject := SelectSubject(current, id.provider);
      var owner := SelectTelegramOwner(id, true);
      existing, legacy := subject, owner;
      if subject.Some? && subject.value != id.subject {
        return ProviderConflict, existing, legacy;
      }
      var target;
      if id in identities {
        target := identities[id];
      } else if owner.Some? {
        target := owner.value;
        identities := identities[id := target];
      } else {
        identities := identities[id := current];
        return Linked, existing, legacy;
      }
      if target == current {
        return AlreadyLinked, existing, legacy;
      }
      r := MergeRequired(Token(current, target, id));
    }

    /** The user and identity rows of a merge, one UPDATE after another. */
    method MergeDirectory(source: UserId, survivor: UserId)
      requires source in users && survivor in users && source != survivor
      modifies this
      ensures Snapshot() == MergeUsers(old(Snapshot()), source, survivor)
    {
      var telegram := users[source].telegram;
      users := users[source := users[source].(telegram := None)];
      if users[survivor].telegram.None? {
        users := users[survivor := users[survivor].(telegram := telegram)];
      }
      identities := MoveIdentities(identities, source, survivor);
      users := users[source := users[source].(mergedInto := Some(survivor))];
      if source !in merges {
        merges := merges[source := survivor];
      }
      assert users == MergeUsers(old(Snapshot()), source, survivor).users;
    }

    /** `confirm_account_merge`, with the credit tables in the same transaction */
    method ConfirmAccountMerge(db: Database, current: UserId, token: Option<Token>, at: Instant) returns (r: MergeResult)
      modifies this, db
      ensures (r, Snapshot(), db.Snapshot()) == Confirm(old(Snapshot()), old(db.Snapshot()), current, token, at)
    {
      if token.None? {
        return TokenInvalid;
      }
      var id, target := token.value.identity, token.value.target;
      if id in identities && identities[id] == current {
        return AlreadyMerged(current);
      }
      if token.value.current != current {
        return TokenForbidden;
      }
      if current == target || !Live(users, current) || !Live(users, target) {
        return TokenInvalid;
      }
      if id !in identities || identities[id] != target {
        return TokenInvalid;
      }
      var survivor, source := Survivor(users, current, target), Loser(users, current, target);
      if SubjectsConflict(identities, source, survivor) {
        return MergeConflict;
      }
      MergeAccounts(db, source, survivor, at);
      MergeDirectory(source, survivor);
      r := Merged(survivor);
    }
  }
}
