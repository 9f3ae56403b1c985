// The identity service over a shared repository: between any two of its calls others may do anything.
module RefreshService {
  import opened Wrappers
  import opened RefreshStore

  // What others do before each call, one batch a call.
  function Drift(s: Store, others: nat -> seq<Op>, start: nat, end: nat): Store
    requires start <= end
    decreases end - start
  {
    if start == end then s else Drift(ApplyAll(s, others(start)), others, start + 1, end)
  }

  // A revocation and its answer, which is an error when the database refuses.
  function LogOutCall(s: Store, r: Revocation): (Store, Result<bool, ServiceError>) {
    var (t, revoked) := RevokeByRefresh(s, r);
    (t, if r.refused then Err(Unavailable) else Ok(revoked))
  }

  class Repository {
    const others: nat -> seq<Op>
    var calls: nat
    var store: Store

    constructor (store: Store, others: nat -> seq<Op>)
      ensures this.store == store && this.others == others && calls == 0
    {
      this.store, this.others, calls := store, others, 0;
    }

    method RotateRefresh(r: Rotation) returns (outcome: Outcome)
      modifies this
      ensures calls == old(calls) + 1
      ensures (store, outcome) == Rotate(ApplyAll(old(store), others(old(calls))), r)
    {
      store := ApplyAll(store, others(calls));
      calls := calls + 1;
      var result := Rotate(store, r);
      store := result.0;
      return result.1;
    }

    method RevokeSessionByRefresh(r: Revocation) returns (revoked: Result<bool, ServiceError>)
      modifies this
      ensures calls == old(calls) + 1
      ensures (store, revoked) == LogOutCall(ApplyAll(old(store), others(old(calls))), r)
    {
      store := ApplyAll(store, others(calls));
      calls := calls + 1;
      var result := LogOutCall(store, r);
      store := result.0;
      return result.1;
    }

    method ActiveSessionPrincipal(session: nat, user: nat, authz: int, now: int) returns (active: bool)
      ensures active == IsActive(store, session, user, authz, now)
    {
      return IsUsable(store, session, now) && store.families[session].user == user && store.users[user].authz == authz;
    }
  }

  // A presented token: its id and the hashes of its secret under each pepper version, the current first.
  datatype Presented = Presented(id: nat, digests: seq<(nat, nat)>)

  predicate HasDistinctVersions(p: Presented) {
    forall i, j | 0 <= i < j < |p.digests| :: p.digests[i].0 != p.digests[j].0
  }

  function CredentialAt(p: Presented, k: nat): Credential
    requires k < |p.digests|
  {
    Credential(p.id, p.digests[k].1, p.digests[k].0)
  }

  // The position of the one digest made with the pepper version a token is stored under; past the end
  // when there is none. An unknown token may be looked for anywhere.
  predicate IsStoredAt(s: Store, p: Presented, k: nat) {
    && k <= |p.digests|
    && (p.id in s.tokens ==> forall n | 0 <= n < |p.digests| :: p.digests[n].0 == s.tokens[p.id].version <==> n == k)
  }

  lemma StoredSomewhere(s: Store, p: Presented) returns (k: nat)
    requires HasDistinctVersions(p)
    ensures IsStoredAt(s, p, k) && (p.id !in s.tokens ==> k == |p.digests|)
  {
    if p.id !in s.tokens {
      k := |p.digests|;
    } else if n :| 0 <= n < |p.digests| && p.digests[n].0 == s.tokens[p.id].version {
      k := n;
    } else {
      k := |p.digests|;
    }
  }

  datatype Request = Request(client: string, now: int, idleExpiresAt: int, replacement: Credential, refusals: nat -> bool)

  function RotationOf(q: Request, p: Presented, k: nat): Rotation
    requires k < |p.digests|
  {
    Rotation(CredentialAt(p, k), q.replacement, q.client, q.now, q.idleExpiresAt, q.refusals(k))
  }

  lemma {:induction false} DriftGrows(s: Store, others: nat -> seq<Op>, start: nat, end: nat)
    requires start <= end
    ensures Grows(s, Drift(s, others, start, end))
    decreases end - start
  {
    if start < end {
      RunGrows(s, others(start));
      DriftGrows(ApplyAll(s, others(start)), others, start + 1, end);
    }
  }

  lemma {:induction false} DriftMore(s: Store, others: nat -> seq<Op>, start: nat, end: nat)
    requires start <= end
    ensures Drift(s, others, start, end + 1) == ApplyAll(Drift(s, others, start, end), others(end))
    decreases end - start
  {
    if start < end {
      DriftMore(ApplyAll(s, others(start)), others, start + 1, end);
    } else {
      assert Drift(s, others, start, end + 1) == Drift(ApplyAll(s, others(start)), others, end + 1, end + 1);
    }
  }

  lemma {:induction false} DriftOn(s: Store, others: nat -> seq<Op>, start: nat, middle: nat, end: nat)
    requires start <= middle <= end
    ensures Drift(s, others, start, end) == Drift(Drift(s, others, start, middle), others, middle, end)
    decreases middle - start
  {
    if start < middle {
      DriftOn(ApplyAll(s, others(start)), others, start + 1, middle, end);
    }
  }

  // The tries with other pepper versions than the stored one do nothing.
  lemma OtherVersionsDoNothing(s: Store, q: Request, p: Presented, k: nat)
    requires k < |p.digests| && (p.id in s.tokens ==> s.tokens[p.id].version != p.digests[k].0)
    ensures Rotate(s, RotationOf(q, p, k)) == (s, if q.refusals(k) then Failed else Invalid)
  {
  }

  datatype ServiceError = InvalidAuthentication | Unavailable

  function ResultOf(outcome: Outcome): Result<nat, ServiceError> {
    match outcome
    case Rotated(session) => Ok(session)
    case Reused | Invalid => Err(InvalidAuthentication)
    case Failed => Err(Unavailable)
  }

  // The store when the try with one pepper version is made, if the tries before it did nothing.
  function StoreAt(s: Store, others: nat -> seq<Op>, start: nat, k: nat): Store {
    Drift(s, others, start, start + k + 1)
  }

  // A refresh did one rotation, with the digest of the stored pepper version, and otherwise only others
  // have acted; or the database failed, and only others have acted.
  predicate ActsOnce(
      s: Store, others: nat -> seq<Op>, start: nat, end: nat, q: Request, p: Presented, k: nat, t: Store,
      r: Result<nat, ServiceError>)
    requires start <= end && k <= |p.digests|
  {
    if k == |p.digests| then r.Err? && t == Drift(s, others, start, end)
    else
      var rotated := Rotate(StoreAt(s, others, start, k), RotationOf(q, p, k));
      || (r == Err(Unavailable) && t == Drift(s, others, start, end))
      || (start + k < end && t == Drift(rotated.0, others, start + k + 1, end)
          && (r == ResultOf(rotated.1) || (rotated.1 == Invalid && r == Err(Unavailable))))
  }

  // What the first tries have come to, when each was invalid.
  predicate TriedUpTo(
      s: Store, others: nat -> seq<Op>, start: nat, n: nat, q: Request, p: Presented, k: nat, t: Store)
    requires k <= |p.digests| && n <= |p.digests|
  {
    if n <= k then t == Drift(s, others, start, start + n)
    else
      var rotated := Rotate(StoreAt(s, others, start, k), RotationOf(q, p, k));
      rotated.1 == Invalid && t == Drift(rotated.0, others, start + k + 1, start + n)
  }

  // A token that is stored now was stored under the same version before, or unknown.
  lemma StoredBefore(s: Store, t: Store, p: Presented, k: nat)
    requires IsStoredAt(t, p, k) && Grows(s, t)
    ensures IsStoredAt(s, p, k)
  {
  }

  // A known token is stored under the same version in whatever becomes of the store.
  lemma StoredAlike(s: Store, t: Store, u: Store, v: Store, p: Presented, k: nat)
    requires p.id in s.tokens && Grows(s, t) && Grows(s, u) && Grows(u, v) && IsStoredAt(t, p, k)
    ensures IsStoredAt(v, p, k)
  {
    assert t.tokens[p.id].version == s.tokens[p.id].version == u.tokens[p.id].version == v.tokens[p.id].version;
  }

  // One more try, up to that with the stored version, and after it. What others alone would have made of the
  // store says where the token is stored.

  lemma TriedBefore(s: Store, others: nat -> seq<Op>, start: nat, n: nat, q: Request, p: Presented, k: nat)
    requires IsStoredAt(Drift(s, others, start, start + n + 1), p, k) && n <= k && n < |p.digests|
    ensures var now := ApplyAll(Drift(s, others, start, start + n), others(start + n));
            && now == StoreAt(s, others, start, n)
            && (n != k ==> Rotate(now, RotationOf(q, p, n)) == (now, if q.refusals(n) then Failed else Invalid))
  {
    DriftMore(s, others, start, start + n);
    if n != k {
      OtherVersionsDoNothing(Drift(s, others, start, start + n + 1), q, p, n);
    }
  }

  // After an invalid rotation, the token is stored as others alone would have stored it.
  lemma StoredAfter(s: Store, others: nat -> seq<Op>, start: nat, n: nat, q: Request, p: Presented, k: nat)
    requires k < n < |p.digests| && IsStoredAt(Drift(s, others, start, start + n + 1), p, k)
    requires Rotate(StoreAt(s, others, start, k), RotationOf(q, p, k)).1 == Invalid
    ensures var rotated := Rotate(StoreAt(s, others, start, k), RotationOf(q, p, k)).0;
            IsStoredAt(Drift(rotated, others, start + k + 1, start + n + 1), p, k)
  {
    var middle := StoreAt(s, others, start, k);
    DriftOn(s, others, start, start + k + 1, start + n + 1);
    UnknownStays(middle, RotationOf(q, p, k));
    StoredLater(middle, Rotate(middle, RotationOf(q, p, k)).0, others, start + k + 1, start + n + 1, p, k);
  }

  lemma UnknownStays(s: Store, r: Rotation)
    ensures Grows(s, Rotate(s, r).0) && (r.presented.id !in s.tokens ==> Rotate(s, r).0 == s)
  {
    ApplyGrows(s, Op.Refresh(r));
  }

  lemma StoredLater(s: Store, u: Store, others: nat -> seq<Op>, start: nat, end: nat, p: Presented, k: nat)
    requires start <= end && Grows(s, u) && (p.id !in s.tokens ==> u == s)
    requires IsStoredAt(Drift(s, others, start, end), p, k)
    ensures IsStoredAt(Drift(u, others, start, end), p, k)
  {
    if p.id in s.tokens {
      DriftGrows(s, others, start, end);
      DriftGrows(u, others, start, end);
      StoredAlike(s, Drift(s, others, start, end), u, Drift(u, others, start, end), p, k);
    }
  }

  lemma TriedAfter(s: Store, others: nat -> seq<Op>, start: nat, n: nat, q: Request, p: Presented, k: nat)
    requires k < n < |p.digests| && IsStoredAt(Drift(s, others, start, start + n + 1), p, k)
    requires Rotate(StoreAt(s, others, start, k), RotationOf(q, p, k)).1 == Invalid
    ensures var rotated := Rotate(StoreAt(s, others, start, k), RotationOf(q, p, k)).0;
            var now := ApplyAll(Drift(rotated, others, start + k + 1, start + n), others(start + n));
            && now == Drift(rotated, others, start + k + 1, start + n + 1)
            && Rotate(now, RotationOf(q, p, n)) == (now, if q.refusals(n) then Failed else Invalid)
  {
    var rotated := Rotate(StoreAt(s, others, start, k), RotationOf(q, p, k)).0;
    DriftMore(rotated, others, start + k + 1, start + n);
    StoredAfter(s, others, start, n, q, p, k);
    OtherVersionsDoNothing(Drift(rotated, others, start + k + 1, start + n + 1), q, p, n);
  }

  lemma TriedMore(s: Store, others: nat -> seq<Op>, start: nat, n: nat, q: Request, p: Presented, k: nat, t: Store)
    requires n < |p.digests| && IsStoredAt(Drift(s, others, start, start + n + 1), p, k)
    requires TriedUpTo(s, others, start, n, q, p, k, t)
    ensures var (u, outcome) := Rotate(ApplyAll(t, others(start + n)), RotationOf(q, p, n));
            && (outcome == Invalid ==> TriedUpTo(s, others, start, n + 1, q, p, k, u))
            && (outcome != Invalid ==> ActsOnce(s, others, start, start + n + 1, q, p, k, u, ResultOf(outcome)))
  {
    if n <= k {
      TriedBefore(s, others, start, n, q, p, k);
    } else {
      TriedAfter(s, others, start, n, q, p, k);
    }
  }

  lemma StoredAllTheWhile(s: Store, others: nat -> seq<Op>, start: nat, n: nat, p: Presented, k: nat)
    ensures IsStoredAt(Drift(s, others, start, start + n + 1), p, k) ==> IsStoredAt(Drift(s, others, start, start + n), p, k)
  {
    DriftOn(s, others, start, start + n, start + n + 1);
    DriftGrows(Drift(s, others, start, start + n), others, start + n, start + n + 1);
    if IsStoredAt(Drift(s, others, start, start + n + 1), p, k) {
      StoredBefore(Drift(s, others, start, start + n), Drift(s, others, start, start + n + 1), p, k);
    }
  }

  // What the tries have come to, wherever others alone would have stored the token.
  predicate Stands(
      s: Store, others: nat -> seq<Op>, start: nat, n: nat, q: Request, p: Presented, k: nat, t: Store, outcome: Outcome)
    requires n <= |p.digests|
  {
    IsStoredAt(Drift(s, others, start, start + n), p, k) ==>
      if outcome == Invalid then TriedUpTo(s, others, start, n, q, p, k, t)
      else ActsOnce(s, others, start, start + n, q, p, k, t, ResultOf(outcome))
  }

  lemma StandsToTheEnd(
      s: Store, others: nat -> seq<Op>, start: nat, n: nat, q: Request, p: Presented, k: nat, t: Store, outcome: Outcome)
    requires n <= |p.digests| && Stands(s, others, start, n, q, p, k, t, outcome) && (outcome == Invalid ==> n == |p.digests|)
    ensures IsStoredAt(Drift(s, others, start, start + n), p, k) ==>
              ActsOnce(s, others, start, start + n, q, p, k, t, ResultOf(outcome))
  {
  }

  lemma StandsFirst(s: Store, others: nat -> seq<Op>, start: nat, q: Request, p: Presented, k: nat)
    ensures Stands(s, others, start, 0, q, p, k, s, Invalid)
  {
  }

  lemma StandsNext(s: Store, others: nat -> seq<Op>, start: nat, n: nat, q: Request, p: Presented, k: nat, t: Store)
    requires n < |p.digests| && Stands(s, others, start, n, q, p, k, t, Invalid)
    ensures var (u, outcome) := Rotate(ApplyAll(t, others(start + n)), RotationOf(q, p, n));
            Stands(s, others, start, n + 1, q, p, k, u, outcome)
  {
    StoredAllTheWhile(s, others, start, n, p, k);
    if IsStoredAt(Drift(s, others, start, start + n + 1), p, k) {
      TriedMore(s, others, start, n, q, p, k, t);
    }
  }

  // One try.
  method RotateNext(repository: Repository, q: Request, p: Presented, n: nat, ghost s: Store, ghost start: nat, ghost k: nat)
    returns (outcome: Outcome)
    requires n < |p.digests| && repository.calls == start + n
    requires Stands(s, repository.others, start, n, q, p, k, repository.store, Invalid)
    modifies repository
    ensures repository.calls == start + n + 1
    ensures Stands(s, repository.others, start, n + 1, q, p, k, repository.store, outcome)
  {
    hide Stands, Drift, Rotate;
    StandsNext(s, repository.others, start, n, q, p, k, repository.store);
    outcome := repository.RotateRefresh(RotationOf(q, p, n));
  }

  // Rotates with each digest in turn until one is not invalid.
  method RotateInTurn(repository: Repository, q: Request, p: Presented, ghost k: nat) returns (outcome: Outcome, ghost n: nat)
    modifies repository
    ensures n <= |p.digests| && repository.calls == old(repository.calls) + n && (outcome == Invalid ==> n == |p.digests|)
    ensures Stands(old(repository.store), repository.others, old(repository.calls), n, q, p, k, repository.store, outcome)
  {
    hide Stands, Drift;
    ghost var s, start := repository.store, repository.calls;
    StandsFirst(s, repository.others, start, q, p, k);
    for i := 0 to |p.digests|
      invariant repository.calls == start + i
      invariant Stands(s, repository.others, start, i, q, p, k, repository.store, Invalid)
    {
      outcome := RotateNext(repository, q, p, i, s, start, k);
      if outcome != Invalid {
        return outcome, i + 1;
      }
    }
    return Invalid, |p.digests|;
  }

  // Refreshes a session. Whatever others do between the tries, this amounts to one rotation with the digest of
  // the pepper version the token is stored under, wherever that is; and when the token stays unknown, to none,
  // as past the end of the digests.
  method Refresh(repository: Repository, policyClient: string, q: Request, presented: Option<Presented>, ghost k: nat)
    returns (r: Result<nat, ServiceError>)
    modifies repository
    ensures repository.calls >= old(repository.calls)
    ensures q.client != policyClient || presented.None? ==>
              r == Err(InvalidAuthentication) && repository.store == old(repository.store)
    ensures q.client == policyClient && presented.Some?
            && IsStoredAt(Drift(old(repository.store), repository.others, old(repository.calls), repository.calls), presented.value, k) ==>
              ActsOnce(old(repository.store), repository.others, old(repository.calls), repository.calls, q,
                       presented.value, k, repository.store, r)
  {
    hide Stands, Drift, IsStoredAt, ActsOnce;
    if q.client != policyClient || presented.None? {
      return Err(InvalidAuthentication);
    }
    var p := presented.value;
    ghost var s, others, start := repository.store, repository.others, repository.calls;
    var outcome, n := RotateInTurn(repository, q, p, k);
    StandsToTheEnd(s, others, start, n, q, p, k, repository.store, outcome);
    return ResultOf(outcome);
  }

  // ---- Logout ----

  // A logout did one revocation, with the digest of the stored pepper version, and otherwise only others have
  // acted; or the database failed before, and only others have acted.
  predicate LogsOutOnce(
      s: Store, others: nat -> seq<Op>, start: nat, end: nat, refusals: nat -> bool, p: Presented, k: nat, t: Store, ok: bool)
    requires start <= end && k <= |p.digests|
  {
    if k == |p.digests| then t == Drift(s, others, start, end)
    else
      || (!ok && t == Drift(s, others, start, end))
      || (start + k < end && (ok ==> !refusals(k))
          && t == Drift(RevokeByRefresh(StoreAt(s, others, start, k), Revocation(CredentialAt(p, k), refusals(k))).0,
                        others, start + k + 1, end))
  }

  // So a logout that succeeds with a credential that matches has the family revoked.
  lemma LogsOutMeaning(
      s: Store, others: nat -> seq<Op>, start: nat, end: nat, refusals: nat -> bool, p: Presented, k: nat, t: Store)
    requires start + k < end && k < |p.digests| && LogsOutOnce(s, others, start, end, refusals, p, k, t, true)
    requires Matches(StoreAt(s, others, start, k), CredentialAt(p, k))
    ensures IsRevoked(t, StoreAt(s, others, start, k).tokens[p.id].session)
  {
    var revoked := RevokeByRefresh(StoreAt(s, others, start, k), Revocation(CredentialAt(p, k), false)).0;
    DriftGrows(revoked, others, start + k + 1, end);
  }

  lemma LogOutTry(
      s: Store, others: nat -> seq<Op>, start: nat, n: nat, p: Presented, k: nat, refused: bool)
    requires n < |p.digests| && IsStoredAt(Drift(s, others, start, start + n + 1), p, k)
    ensures var now := ApplyAll(Drift(s, others, start, start + n), others(start + n));
            var (t, revoked) := RevokeByRefresh(now, Revocation(CredentialAt(p, n), refused));
            && now == StoreAt(s, others, start, n) && (!revoked ==> t == now) && (revoked ==> n == k && !refused)
  {
    DriftMore(s, others, start, start + n);
  }

  // What the first tries have come to, when none revoked anything.
  predicate LogOutsUpTo(
      s: Store, others: nat -> seq<Op>, start: nat, n: nat, refusals: nat -> bool, p: Presented, k: nat, t: Store)
    requires k <= |p.digests|
  {
    && t == Drift(s, others, start, start + n)
    && (k < n && k < |p.digests| ==>
          && !refusals(k)
          && RevokeByRefresh(StoreAt(s, others, start, k), Revocation(CredentialAt(p, k), refusals(k))).0 == StoreAt(s, others, start, k))
  }

  predicate LogOutStands(
      s: Store, others: nat -> seq<Op>, start: nat, n: nat, refusals: nat -> bool, p: Presented, k: nat, t: Store,
      revoked: Result<bool, ServiceError>)
  {
    IsStoredAt(Drift(s, others, start, start + n), p, k) ==>
      if revoked == Ok(false) then LogOutsUpTo(s, others, start, n, refusals, p, k, t)
      else LogsOutOnce(s, others, start, start + n, refusals, p, k, t, revoked.Ok?)
  }

  lemma NobodyLoggedOut(
      s: Store, others: nat -> seq<Op>, start: nat, n: nat, refusals: nat -> bool, p: Presented, k: nat, t: Store,
      revoked: Result<bool, ServiceError>)
    requires LogOutStands(s, others, start, n, refusals, p, k, t, revoked) && (revoked == Ok(false) ==> n == |p.digests|)
    ensures IsStoredAt(Drift(s, others, start, start + n), p, k) ==>
              LogsOutOnce(s, others, start, start + n, refusals, p, k, t, revoked.Ok?)
  {
    if k < |p.digests| && revoked == Ok(false) {
      DriftOn(s, others, start, start + k + 1, start + |p.digests|);
    }
  }

  lemma LogOutStandsFirst(s: Store, others: nat -> seq<Op>, start: nat, refusals: nat -> bool, p: Presented, k: nat)
    ensures LogOutStands(s, others, start, 0, refusals, p, k, s, Ok(false))
  {
  }

  lemma LogOutStandsNext(s: Store, others: nat -> seq<Op>, start: nat, n: nat, refusals: nat -> bool, p: Presented, k: nat, t: Store)
    requires n < |p.digests| && LogOutStands(s, others, start, n, refusals, p, k, t, Ok(false))
    ensures var (u, revoked) := LogOutCall(ApplyAll(t, others(start + n)), Revocation(CredentialAt(p, n), refusals(n)));
            LogOutStands(s, others, start, n + 1, refusals, p, k, u, revoked)
  {
    StoredAllTheWhile(s, others, start, n, p, k);
    if IsStoredAt(Drift(s, others, start, start + n + 1), p, k) {
      LogOutTry(s, others, start, n, p, k, refusals(n));
    }
  }

  // One try.
  method LogOutNext(
      repository: Repository, p: Presented, n: nat, refusals: nat -> bool, ghost s: Store, ghost start: nat, ghost k: nat)
    returns (revoked: Result<bool, ServiceError>)
    requires n < |p.digests| && repository.calls == start + n
    requires LogOutStands(s, repository.others, start, n, refusals, p, k, repository.store, Ok(false))
    modifies repository
    ensures repository.calls == start + n + 1 && (revoked.Err? ==> revoked.error == Unavailable)
    ensures LogOutStands(s, repository.others, start, n + 1, refusals, p, k, repository.store, revoked)
  {
    hide LogOutStands, Drift, RevokeByRefresh;
    LogOutStandsNext(s, repository.others, start, n, refusals, p, k, repository.store);
    revoked := repository.RevokeSessionByRefresh(Revocation(CredentialAt(p, n), refusals(n)));
  }

  // Revokes with each digest in turn until one matches.
  method LogOutInTurn(repository: Repository, p: Presented, refusals: nat -> bool, ghost k: nat)
    returns (revoked: Result<bool, ServiceError>, ghost n: nat)
    modifies repository
    ensures n <= |p.digests| && repository.calls == old(repository.calls) + n && (revoked == Ok(false) ==> n == |p.digests|)
    ensures LogOutStands(old(repository.store), repository.others, old(repository.calls), n, refusals, p, k, repository.store, revoked)
    ensures revoked.Err? ==> revoked.error == Unavailable
  {
    hide LogOutStands, Drift;
    ghost var s, start := repository.store, repository.calls;
    LogOutStandsFirst(s, repository.others, start, refusals, p, k);
    for i := 0 to |p.digests|
      invariant repository.calls == start + i
      invariant LogOutStands(s, repository.others, start, i, refusals, p, k, repository.store, Ok(false))
    {
      revoked := LogOutNext(repository, p, i, refusals, s, start, k);
      if revoked != Ok(false) {
        return revoked, i + 1;
      }
    }
    return Ok(false), |p.digests|;
  }

  // Logs a session out by its refresh token, which may be any token the family has ever had. This amounts to
  // one revocation with the digest of the stored pepper version; a token that matches nothing changes nothing.
  method LogOutRefresh(repository: Repository, presented: Option<Presented>, refusals: nat -> bool, ghost k: nat)
    returns (r: Result<(), ServiceError>)
    modifies repository
    ensures repository.calls >= old(repository.calls) && (r.Err? ==> r.error == Unavailable)
    ensures presented.None? ==> r == Ok(()) && repository.store == old(repository.store)
    ensures presented.Some?
            && IsStoredAt(Drift(old(repository.store), repository.others, old(repository.calls), repository.calls), presented.value, k) ==>
              LogsOutOnce(old(repository.store), repository.others, old(repository.calls), repository.calls, refusals,
                          presented.value, k, repository.store, r.Ok?)
  {
    hide LogOutStands, Drift, IsStoredAt, LogsOutOnce;
    if presented.None? {
      return Ok(());
    }
    var p := presented.value;
    ghost var s, others, start := repository.store, repository.others, repository.calls;
    var revoked, n := LogOutInTurn(repository, p, refusals, k);
    NobodyLoggedOut(s, others, start, n, refusals, p, k, repository.store, revoked);
    return if revoked.Err? then Err(revoked.error) else Ok(());
  }
}
