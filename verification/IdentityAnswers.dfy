/** When authentication, linking and merging answer what, in terms of the rows alone. */
module IdentityAnswers {
  import opened Tables
  import opened Text
  import opened IdentityRules
  import opened IdentityFacts

  // ----------------------------------------------------------------- validation

  /** The text of a number that is not too long to be read. */
  ghost predicate IsNumberText(s: string) {
    exists n :: IntText(n) == s && |s| <= (if n < 0 then 4301 else 4300)
  }

  /** An identity is accepted exactly when its provider is known, its subject is not empty and has no
      space at either end, and a Telegram subject is the text of a number; it is stored as it is. */
  lemma ValidateAnswers(provider: string, subject: string)
    ensures var trimmed := subject != "" && !IsSpace(subject[0]) && !IsSpace(subject[|subject| - 1]);
      && (provider == "telegram" ==>
            ValidateIdentity(provider, subject) == if trimmed && IsNumberText(subject) then Some(Identity(Telegram, subject)) else None)
      && (provider == "supabase" ==>
            ValidateIdentity(provider, subject) == if trimmed then Some(Identity(Supabase, subject)) else None)
      && (provider != "telegram" && provider != "supabase" ==> ValidateIdentity(provider, subject) == None)
  {
    StripIsTrimmed(subject);
    if IsNumberText(subject) {
      var n :| IntText(n) == subject && |subject| <= (if n < 0 then 4301 else 4300);
      NumberHasSubject(n);
    }
    if TelegramSubject(subject) {
      IntValueWrites(subject);
      NumberHasSubject(IntValue(subject));
    }
  }

  // ------------------------------------------------------- first authentication

  /** A known identity answers with its owner and changes nothing; an unknown one joins the user with
      that Telegram number, or a new user who has just this identity. */
  lemma EnsureAnswers(d: Directory, id: Identity, owner: Option<UserId>, newUser: UserId, now: Instant)
    requires ValidIdentity(id) && IsTelegramOwner(d.users, id, owner)
    ensures var (u, d') := EnsureIdentity(d, id, owner, newUser, now);
      if id in d.identities then u == d.identities[id] && d' == d
      else
        && d'.identities == d.identities[id := u] && d'.merges == d.merges
        && (if id.provider == Telegram && exists v :: v in d.users && d.users[v].telegram == Some(IntValue(id.subject))
            then u in d.users && d.users[u].telegram == Some(IntValue(id.subject)) && d'.users == d.users
            else u == newUser
                 && d'.users == d.users[u := User(now, if id.provider == Telegram then Some(IntValue(id.subject)) else None, None)])
  {
  }

  // -------------------------------------------------------------------- linking

  /** Somebody not merged away has the Telegram number of `id`. */
  ghost predicate NumberIsTaken(users: map<UserId, User>, id: Identity)
    requires ValidIdentity(id)
  {
    id.provider == Telegram && exists u ::
      u in users && users[u].mergedInto.None? && users[u].telegram == Some(IntValue(id.subject))
  }

  /** Which of the four results a link has. With single subjects it is a conflict exactly when the
      current account has another subject of the provider, whoever holds the identity asked for. A free
      identity is linked. One held by the current account is already linked, and one held by another
      account needs a merge with just that account; an unheld Telegram number of a legacy user counts as
      held by him, and is held by him afterwards. */
  lemma LinkAnswers(d: Directory, current: UserId, id: Identity, existing: Option<string>, legacy: Option<UserId>)
    requires ValidIdentity(id) && SingleSubject(d.identities)
    requires IsExisting(d.identities, current, id.provider, existing) && IsLegacyOwner(d.users, id, legacy)
    ensures var (r, d') := Link(d, current, id, existing, legacy);
      var holder := if id in d.identities then Some(d.identities[id]) else legacy;
      && (legacy.Some? <==> NumberIsTaken(d.users, id))
      && (r.ProviderConflict? <==> HoldsOther(d.identities, current, id))
      && (r.Linked? <==> !HoldsOther(d.identities, current, id) && id !in d.identities && !NumberIsTaken(d.users, id))
      && (r.AlreadyLinked? <==> !HoldsOther(d.identities, current, id) && holder == Some(current))
      && (r.MergeRequired? <==> !HoldsOther(d.identities, current, id) && holder.Some? && holder.value != current)
      && (r.MergeRequired? ==> r.token == Token(current, holder.value, id))
      && d' == (if r.ProviderConflict? || id in d.identities then d
                else d.(identities := d.identities[id := if r.Linked? then current else legacy.value]))
  {
    ExistingDecides(d.identities, current, id, existing);
  }

  lemma ExistingDecides(identities: map<Identity, UserId>, u: UserId, id: Identity, existing: Option<string>)
    requires SingleSubject(identities) && IsExisting(identities, u, id.provider, existing)
    ensures HoldsOther(identities, u, id) <==> existing.Some? && existing.value != id.subject
  {
    if existing.Some? {
      var e := Identity(id.provider, existing.value);
      assert e in identities && identities[e] == u;
      assert existing.value != id.subject ==> HoldsOther(identities, u, id);
    }
  }

  /** Without single subjects, in terms of the one subject that the query returned. */
  lemma LinkDecides(d: Directory, current: UserId, id: Identity, existing: Option<string>, legacy: Option<UserId>)
    requires ValidIdentity(id)
    requires IsExisting(d.identities, current, id.provider, existing) && IsLegacyOwner(d.users, id, legacy)
    ensures var (r, d') := Link(d, current, id, existing, legacy);
      && (r.ProviderConflict? <==> existing.Some? && existing.value != id.subject)
      && (r.Linked? <==> existing.None? && id !in d.identities && legacy.None?)
      && (r.Linked? ==> d' == d.(identities := d.identities[id := current]))
  {
    if existing.Some? { assert Identity(id.provider, existing.value) in d.identities; }
  }

  // -------------------------------------------------------------------- merging

  /** The two accounts hold different subjects of one provider. */
  ghost predicate Clash(identities: map<Identity, UserId>, u: UserId, v: UserId) {
    exists a, b :: a in identities && b in identities && identities[a] == u && identities[b] == v
      && a.provider == b.provider && a.subject != b.subject
  }

  predicate Owns(identities: map<Identity, UserId>, u: UserId, id: Identity) {
    id in identities && identities[id] == u
  }

  /** Two live accounts, of which the token's target still holds the token's identity. */
  predicate MayMerge(d: Directory, token: Token) {
    && token.current != token.target && Owns(d.identities, token.target, token.identity)
    && token.current in d.users && d.users[token.current].mergedInto.None?
    && token.target in d.users && d.users[token.target].mergedInto.None?
  }

  lemma ClashIsSymmetric(identities: map<Identity, UserId>, u: UserId, v: UserId)
    ensures Clash(identities, u, v) <==> Clash(identities, v, u)
  {
    if Clash(identities, u, v) {
      var a, b :| a in identities && b in identities && identities[a] == u && identities[b] == v
        && a.provider == b.provider && a.subject != b.subject;
      assert b.provider == a.provider && b.subject != a.subject;
    }
    if Clash(identities, v, u) {
      var a, b :| a in identities && b in identities && identities[a] == v && identities[b] == u
        && a.provider == b.provider && a.subject != b.subject;
      assert b.provider == a.provider && b.subject != a.subject;
    }
  }

  /** A confirmation merges exactly when the token is the caller's own, its identity is still held by
      its target, both accounts are live and they do not hold different subjects of one provider. */
  lemma ConfirmAnswers(d: Directory, t: Tables, current: UserId, token: Option<Token>, at: Instant)
    ensures var r := Confirm(d, t, current, token, at).0;
      if token.None? then r == TokenInvalid
      else
        var k := token.value;
        if Owns(d.identities, current, k.identity) then r == AlreadyMerged(current)
        else if k.current != current then r == TokenForbidden
        else if !MayMerge(d, k) then r == TokenInvalid
        else if Clash(d.identities, current, k.target) then r == MergeConflict
        else r.Merged? && r.survivor in {current, k.target}
  {
    if token.Some? {
      ClashIsSymmetric(d.identities, current, token.value.target);
    }
  }

  /** The older account survives, the smaller id among equals; it keeps its Telegram number or takes
      over the other's, and gets all identities. */
  lemma MergeAnswers(d: Directory, t: Tables, current: UserId, token: Option<Token>, at: Instant)
    requires Confirm(d, t, current, token, at).0.Merged?
    ensures var ((r, d', _), target) := (Confirm(d, t, current, token, at), token.value.target);
      var (survivor, source) := (r.survivor, if r.survivor == current then target else current);
      && current in d.users && target in d.users
      && (d.users[survivor].created < d.users[source].created || (d.users[survivor].created == d.users[source].created && survivor < source))
      && d'.users == d.users[survivor := d.users[survivor].(telegram :=
                       if d.users[survivor].telegram.Some? then d.users[survivor].telegram else d.users[source].telegram)]
                            [source := d.users[source].(telegram := None, mergedInto := Some(survivor))]
      && d'.identities.Keys == d.identities.Keys
      && (forall id :: id in d.identities ==> d'.identities[id] == if d.identities[id] == source then survivor else d.identities[id])
      && source in d'.merges && (source !in d.merges ==> d'.merges == d.merges[source := survivor])
  {
  }
}
