// The refresh tokens of session families as the identity database keeps them. Every operation is one
// transaction; the database may refuse it, and then nothing has happened.
module RefreshStore {
  import opened Wrappers

  // A token is known by its id; the hash of its secret depends on the pepper version.
  datatype Token = Token(hash: nat, version: nat, session: nat, expiresAt: int, consumed: bool, revoked: bool)

  datatype Family = Family(
    user: nat, client: string, authzAtLogin: int, idleExpiresAt: int, absoluteExpiresAt: int, revoked: bool)

  datatype User = User(authz: int, disabled: bool)

  datatype Store = Store(tokens: map<nat, Token>, families: map<nat, Family>, users: map<nat, User>)

  // A token id with the hash of a secret under one pepper version.
  datatype Credential = Credential(id: nat, hash: nat, version: nat)

  datatype Rotation = Rotation(
    presented: Credential, replacement: Credential, client: string, now: int, idleExpiresAt: int, refused: bool)

  datatype Outcome = Rotated(session: nat) | Reused | Invalid | Failed

  function Min(a: int, b: int): int {
    if a < b then a else b
  }

  // The presented credential is that of a token whose family and user exist.
  predicate Matches(s: Store, c: Credential) {
    && c.id in s.tokens && s.tokens[c.id].session in s.families
    && s.families[s.tokens[c.id].session].user in s.users
    && s.tokens[c.id].version == c.version && s.tokens[c.id].hash == c.hash
  }

  function RevokeFamily(s: Store, session: nat): Store {
    if session in s.families then s.(families := s.families[session := s.families[session].(revoked := true)]) else s
  }

  // A family whose refresh tokens and access tokens are good.
  predicate IsUsable(s: Store, session: nat, now: int) {
    && session in s.families
    && var f := s.families[session];
       && f.user in s.users && !f.revoked && !s.users[f.user].disabled
       && f.authzAtLogin == s.users[f.user].authz && f.idleExpiresAt > now && f.absoluteExpiresAt > now
  }

  function Rotate(s: Store, r: Rotation): (Store, Outcome) {
    if r.refused then (s, Failed)
    else if !Matches(s, r.presented) then (s, Invalid)
    else
      var token := s.tokens[r.presented.id];
      var family := s.families[token.session];
      if token.consumed || token.revoked then (RevokeFamily(s, token.session), Reused)
      else if token.expiresAt <= r.now || !IsUsable(s, token.session, r.now) || family.client != r.client then
        (RevokeFamily(s, token.session), Invalid)
      else if r.replacement.id in s.tokens then (s, Failed)
      else
        var idle := Min(r.idleExpiresAt, family.absoluteExpiresAt);
        var next := Token(r.replacement.hash, r.replacement.version, token.session, idle, false, false);
        (s.(tokens := s.tokens[r.replacement.id := next][r.presented.id := token.(consumed := true)],
            families := s.families[token.session := family.(idleExpiresAt := idle)]),
         Rotated(token.session))
  }

  // A new family with its first token.
  datatype Login = Login(
    session: nat, user: nat, client: string, authz: int, idleExpiresAt: int, absoluteExpiresAt: int, token: Credential, refused: bool)

  function CreateSession(s: Store, l: Login): (Store, bool) {
    if l.refused || l.session in s.families || l.token.id in s.tokens || l.user !in s.users then (s, false)
    else
      var family := Family(l.user, l.client, l.authz, l.idleExpiresAt, l.absoluteExpiresAt, false);
      var token := Token(l.token.hash, l.token.version, l.session, l.idleExpiresAt, false, false);
      (s.(families := s.families[l.session := family], tokens := s.tokens[l.token.id := token]), true)
  }

  datatype Revocation = Revocation(presented: Credential, refused: bool)

  function RevokeByRefresh(s: Store, r: Revocation): (Store, bool) {
    if r.refused || !Matches(s, r.presented) then (s, false)
    else (RevokeFamily(s, s.tokens[r.presented.id].session), true)
  }

  // Everything that happens to the store.
  datatype Op =
    | Enter(login: Login)
    | Refresh(rotation: Rotation)
    | LogOut(session: nat)
    | LogOutByRefresh(revocation: Revocation)
    | ChangeUser(id: nat, user: User)

  function Apply(s: Store, op: Op): Store {
    match op
    case Enter(login) => CreateSession(s, login).0
    case Refresh(rotation) => Rotate(s, rotation).0
    case LogOut(session) => RevokeFamily(s, session)
    case LogOutByRefresh(revocation) => RevokeByRefresh(s, revocation).0
    case ChangeUser(id, user) => s.(users := s.users[id := user])
  }

  function ApplyAll(s: Store, ops: seq<Op>): Store
    decreases |ops|
  {
    if ops == [] then s else ApplyAll(Apply(s, ops[0]), ops[1..])
  }

  const EMPTY: Store := Store(map[], map[], map[])

  // ---- What never changes back ----

  // Tokens and families stay, with their lineage; consumed tokens stay consumed, revoked families revoked.
  predicate Grows(s: Store, t: Store) {
    && (forall id | id in s.tokens ::
          && id in t.tokens && t.tokens[id].hash == s.tokens[id].hash && t.tokens[id].version == s.tokens[id].version
          && t.tokens[id].session == s.tokens[id].session && (s.tokens[id].consumed ==> t.tokens[id].consumed))
    && (forall f | f in s.families ::
          && f in t.families && t.families[f].user == s.families[f].user && t.families[f].client == s.families[f].client
          && t.families[f].authzAtLogin == s.families[f].authzAtLogin
          && t.families[f].absoluteExpiresAt == s.families[f].absoluteExpiresAt
          && (s.families[f].revoked ==> t.families[f].revoked))
    && s.users.Keys <= t.users.Keys
  }

  lemma RotateGrows(s: Store, r: Rotation)
    ensures Grows(s, Rotate(s, r).0)
  {
  }

  lemma ApplyGrows(s: Store, op: Op)
    ensures Grows(s, Apply(s, op))
  {
    hide Rotate;
    if op.Refresh? {
      RotateGrows(s, op.rotation);
    }
  }

  lemma {:induction false} RunGrows(s: Store, ops: seq<Op>)
    ensures Grows(s, ApplyAll(s, ops))
    decreases |ops|
  {
    if ops != [] {
      RunGrows(Apply(s, ops[0]), ops[1..]);
      ApplyGrows(s, ops[0]);
    }
  }

  // ---- Access ----

  // An access token that names a session, a user and an authorization version is good at a time.
  predicate IsActive(s: Store, session: nat, user: nat, authz: int, now: int) {
    IsUsable(s, session, now) && s.families[session].user == user && s.users[user].authz == authz
  }

  // After a login and anything else, the access tokens that are good in its session are exactly those of the
  // user and version of that login, as long as the user is enabled and still has that version, the session is
  // not revoked, and neither its idle time nor its time since the login is over.
  lemma AccessExactly(s: Store, l: Login, ops: seq<Op>, user: nat, authz: int, now: int)
    requires CreateSession(s, l).1
    ensures var t := ApplyAll(CreateSession(s, l).0, ops);
            && l.session in t.families && l.user in t.users
            && (IsActive(t, l.session, user, authz, now) <==>
                  && user == l.user && authz == l.authz && t.users[l.user] == User(l.authz, false)
                  && !t.families[l.session].revoked && now < t.families[l.session].idleExpiresAt && now < l.absoluteExpiresAt)
  {
    RunGrows(CreateSession(s, l).0, ops);
  }

  // ---- One live token a family ----

  predicate IsLive(s: Store, id: nat) {
    id in s.tokens && !s.tokens[id].consumed
  }

  ghost predicate Inv(s: Store) {
    && (forall id | id in s.tokens :: s.tokens[id].session in s.families)
    && (forall a, b | IsLive(s, a) && IsLive(s, b) && s.tokens[a].session == s.tokens[b].session :: a == b)
  }

  lemma ApplyKeepsInv(s: Store, op: Op)
    requires Inv(s)
    ensures Inv(Apply(s, op))
  {
  }

  lemma {:induction false} RunKeepsInv(s: Store, ops: seq<Op>)
    requires Inv(s)
    ensures Inv(ApplyAll(s, ops))
    decreases |ops|
  {
    if ops != [] {
      ApplyKeepsInv(s, ops[0]);
      RunKeepsInv(Apply(s, ops[0]), ops[1..]);
    }
  }

  // Over every run of logins, refreshes, logouts and changes to users, a family has at most one token that
  // has not been consumed.
  lemma OneLiveToken(ops: seq<Op>, a: nat, b: nat)
    ensures var s := ApplyAll(EMPTY, ops);
            IsLive(s, a) && IsLive(s, b) && s.tokens[a].session == s.tokens[b].session ==> a == b
  {
    RunKeepsInv(EMPTY, ops);
  }

  // ---- One success a token ----

  function Successes(s: Store, ops: seq<Op>, id: nat): nat
    decreases |ops|
  {
    if ops == [] then 0
    else
      (if ops[0].Refresh? && ops[0].rotation.presented.id == id && Rotate(s, ops[0].rotation).1.Rotated? then 1 else 0)
      + Successes(Apply(s, ops[0]), ops[1..], id)
  }

  lemma {:induction false} ConsumedNeverSucceeds(s: Store, ops: seq<Op>, id: nat)
    requires id in s.tokens && s.tokens[id].consumed
    ensures Successes(s, ops, id) == 0
    decreases |ops|
  {
    if ops != [] {
      ApplyGrows(s, ops[0]);
      ConsumedNeverSucceeds(Apply(s, ops[0]), ops[1..], id);
    }
  }

  // Over every run, of all the refreshes that present a token at most one succeeds.
  lemma {:induction false} OneSuccess(s: Store, ops: seq<Op>, id: nat)
    ensures Successes(s, ops, id) <= 1
    decreases |ops|
  {
    if ops != [] {
      if ops[0].Refresh? && ops[0].rotation.presented.id == id && Rotate(s, ops[0].rotation).1.Rotated? {
        ConsumedNeverSucceeds(Apply(s, ops[0]), ops[1..], id);
      } else {
        OneSuccess(Apply(s, ops[0]), ops[1..], id);
      }
    }
  }

  // ---- Replay ----

  // Nothing of a family works any more: no access, and no refresh with any of its tokens.
  ghost predicate IsFinished(s: Store, session: nat) {
    && (forall now :: !IsUsable(s, session, now))
    && (forall r: Rotation | r.presented.id in s.tokens && s.tokens[r.presented.id].session == session ::
          !Rotate(s, r).1.Rotated?)
  }

  predicate IsRevoked(s: Store, session: nat) {
    session in s.families && s.families[session].revoked
  }

  lemma RevokedIsFinished(s: Store, session: nat, ops: seq<Op>)
    requires IsRevoked(s, session)
    ensures IsFinished(ApplyAll(s, ops), session)
  {
    RunGrows(s, ops);
  }

  // A token that has been refreshed once and is presented again, at any later time and after anything
  // else, is found out; from then on its whole family is finished, with the tokens that came of it.
  lemma ReplayEndsFamily(s: Store, first: Rotation, between: seq<Op>, again: Rotation, later: seq<Op>)
    requires Rotate(s, first).1.Rotated? && again.presented == first.presented && !again.refused
    ensures var t, session := ApplyAll(Rotate(s, first).0, between), s.tokens[first.presented.id].session;
            && Rotate(t, again).1 == Reused
            && IsFinished(ApplyAll(Rotate(t, again).0, later), session)
  {
    var rotated := Rotate(s, first).0;
    var t := ApplyAll(rotated, between);
    ApplyGrows(s, Refresh(first));
    RunGrows(rotated, between);
    RevokedIsFinished(Rotate(t, again).0, s.tokens[first.presented.id].session, later);
  }

  // So no access token is good in that session any more, for any user, version and time.
  lemma ReplayEndsAccess(
      s: Store, first: Rotation, between: seq<Op>, again: Rotation, later: seq<Op>, user: nat, authz: int, now: int)
    requires Rotate(s, first).1.Rotated? && again.presented == first.presented && !again.refused
    ensures var t := ApplyAll(Rotate(ApplyAll(Rotate(s, first).0, between), again).0, later);
            !IsActive(t, s.tokens[first.presented.id].session, user, authz, now)
  {
    ReplayEndsFamily(s, first, between, again, later);
  }

  // A logout, by either token, finishes the family as well.
  lemma LogOutEndsFamily(s: Store, r: Revocation, later: seq<Op>)
    requires RevokeByRefresh(s, r).1
    ensures IsFinished(ApplyAll(RevokeByRefresh(s, r).0, later), s.tokens[r.presented.id].session)
  {
    RevokedIsFinished(RevokeByRefresh(s, r).0, s.tokens[r.presented.id].session, later);
  }

  // A refresh succeeds exactly when its credential matches a token that is still live in a usable family of
  // the client; then that token is spent, the replacement is the family's only live token, the family expires
  // with it and never later than it would have at the latest, and nothing else has changed.
  lemma RotationMeaning(s: Store, r: Rotation)
    requires Inv(s)
    ensures var token := if r.presented.id in s.tokens then Some(s.tokens[r.presented.id]) else None;
            Rotate(s, r).1.Rotated? <==>
              && !r.refused && Matches(s, r.presented) && r.replacement.id !in s.tokens
              && IsLive(s, r.presented.id) && !token.value.revoked && token.value.expiresAt > r.now
              && IsUsable(s, token.value.session, r.now) && s.families[token.value.session].client == r.client
    ensures Rotate(s, r).1.Rotated? ==>
              var t, session := Rotate(s, r).0, s.tokens[r.presented.id].session;
              && Matches(t, r.replacement) && t.tokens[r.replacement.id].session == session
              && forall id | id in t.tokens && t.tokens[id].session == session :: IsLive(t, id) <==> id == r.replacement.id
    ensures Rotate(s, r).1.Rotated? ==>
              var t, session := Rotate(s, r).0, s.tokens[r.presented.id].session;
              var before, after := s.families[session], t.families[session];
              && after == before.(idleExpiresAt := t.tokens[r.replacement.id].expiresAt)
              && after.idleExpiresAt <= r.idleExpiresAt && after.idleExpiresAt <= before.absoluteExpiresAt
              && (after.idleExpiresAt == r.idleExpiresAt || after.idleExpiresAt == before.absoluteExpiresAt)
              && t.users == s.users && t.families - {session} == s.families - {session}
              && t.tokens - {r.presented.id, r.replacement.id} == s.tokens - {r.presented.id}
    ensures !Matches(s, r.presented) ==> Rotate(s, r).0 == s
  {
  }
}
