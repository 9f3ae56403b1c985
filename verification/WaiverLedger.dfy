// The ledger of capacity risk waivers: one command reviews or applies one manifest in one transaction.
module WaiverLedger {
  import opened Wrappers
  import opened Uuids
  import opened WaiverManifests
  import F = Framing

  const MAX_VALIDITY_MS: int := 86_400_000

  // A waiver, as it was granted.
  datatype Waiver = Waiver(
    original: Original, account: Uuid, policy: Uuid, revision: int, authorization: Uuid, manifest: string,
    reference: string, actor: string, authorizedBefore: int, createdAt: int)

  type Ledger = map<Uuid, Waiver>

  // What the database says of an allocation: unresolved when its execution and submission are uncertain,
  // its intent is quarantined without an operation, and its reconciliation has no evidence.
  datatype Row = Row(
    submission: Uuid, execution: Uuid, account: Uuid, policy: Uuid, revision: int, acquiredAt: int, held: bool,
    unresolved: bool, record: string)

  datatype Policy = Policy(account: Uuid, occupied: int, limit: int)

  // The rest of the database, which others change between commands.
  datatype World = World(rows: map<Uuid, Row>, policies: map<(Uuid, int), Policy>)

  datatype Command = Command(bytes: seq<F.Byte>, reviewed: string, apply: bool, now: int)

  datatype Receipt = Receipt(
    authorization: Uuid, manifest: string, applied: bool, reviewedOriginals: nat, alreadyApplied: nat, raw: int,
    waived: int, effective: int)

  predicate IsTimely(m: Manifest, now: int) {
    m.observedBefore <= now <= m.expiresAt <= now + MAX_VALIDITY_MS
  }

  predicate IsFound(w: World, m: Manifest, o: Original) {
    && o.allocation in w.rows
    && var row := w.rows[o.allocation];
       && row.submission == o.submission && row.execution == o.execution && row.account == m.account
       && row.policy == m.policy && row.revision == m.revision
  }

  predicate HasPolicy(w: World, m: Manifest) {
    (m.policy, m.revision) in w.policies && w.policies[(m.policy, m.revision)].account == m.account
  }

  predicate IsReused(l: Ledger, authorization: Uuid, manifest: string) {
    exists a | a in l :: l[a].authorization == authorization && l[a].manifest != manifest
  }

  predicate IsEligible(w: World, m: Manifest, o: Original) {
    && o.allocation in w.rows
    && var row := w.rows[o.allocation];
       row.held && row.acquiredAt <= m.observedBefore && row.unresolved && row.record == o.record
  }

  // The waiver of an original, if it has one, is of this very manifest; otherwise it may get one.
  predicate IsAdmissible(l: Ledger, w: World, m: Manifest, manifest: string, o: Original) {
    if o.allocation in l then l[o.allocation].authorization == m.authorization && l[o.allocation].manifest == manifest
    else IsEligible(w, m, o)
  }

  function Granted(m: Manifest, manifest: string, now: int, o: Original): Waiver {
    Waiver(o, m.account, m.policy, m.revision, m.authorization, manifest, m.reference, m.actor, m.observedBefore, now)
  }

  // The ledger with a waiver for every one of some originals that has none.
  function Grant(l: Ledger, m: Manifest, manifest: string, now: int, originals: seq<Original>): Ledger {
    if originals == [] then l
    else
      var last := originals[|originals| - 1];
      var before := Grant(l, m, manifest, now, originals[..|originals| - 1]);
      if last.allocation in l then before else before[last.allocation := Granted(m, manifest, now, last)]
  }

  function CountWaived(l: Ledger, originals: seq<Original>): (n: nat)
    ensures n <= |originals|
  {
    if originals == [] then 0
    else CountWaived(l, originals[..|originals| - 1]) + if originals[|originals| - 1].allocation in l then 1 else 0
  }

  // The waived allocations under a policy that are still held.
  function HeldWaivers(l: Ledger, w: World, policy: Uuid, revision: int): set<Uuid> {
    set a | a in l && l[a].policy == policy && l[a].revision == revision && a in w.rows && w.rows[a].held
  }

  // The effective count that the database allows once rows are added.
  predicate IsWithinLimit(l: Ledger, w: World, m: Manifest)
    requires HasPolicy(w, m)
  {
    var policy := w.policies[(m.policy, m.revision)];
    0 <= policy.occupied - |HeldWaivers(l, w, m.policy, m.revision)| <= policy.limit
  }

  // What a command must meet, apart from what the database checks when rows are added.
  predicate IsAcceptable(l: Ledger, w: World, m: Manifest, c: Command) {
    && IsTimely(m, c.now) && (forall k | 0 <= k < |m.originals| :: IsFound(w, m, m.originals[k])) && HasPolicy(w, m)
    && !IsReused(l, m.authorization, c.reviewed)
    && forall k | 0 <= k < |m.originals| :: IsAdmissible(l, w, m, c.reviewed, m.originals[k])
  }

  function ReceiptOf(l: Ledger, w: World, m: Manifest, c: Command): Receipt
    requires HasPolicy(w, m)
  {
    var raw := w.policies[(m.policy, m.revision)].occupied;
    var already := CountWaived(l, m.originals);
    var waived := |HeldWaivers(Grant(l, m, c.reviewed, c.now, m.originals), w, m.policy, m.revision)|;
    Receipt(m.authorization, c.reviewed, c.apply, |m.originals|, already, raw, waived, raw - waived)
  }

  // The outcome of a command: what an applied manifest adds, and the receipt, which is the same for a dry
  // run; or an error, and nothing is added.
  function Decide(codec: Codec, l: Ledger, w: World, c: Command): (Ledger, Result<Receipt, Error>) {
    var manifest := Accepted(codec, c.bytes, c.reviewed);
    if manifest.Err? then (l, Err(manifest.error))
    else
      var m := manifest.value;
      if !IsAcceptable(l, w, m, c) then (l, Err(Conflict))
      else if !c.apply then (l, Ok(ReceiptOf(l, w, m, c)))
      else
        var granted := Grant(l, m, c.reviewed, c.now, m.originals);
        if granted != l && !IsWithinLimit(granted, w, m) then (l, Err(Unavailable))
        else (granted, Ok(ReceiptOf(l, w, m, c)))
  }

  // ---- The command, step by step ----

  predicate Mentions(originals: seq<Original>, a: Uuid) {
    exists k | 0 <= k < |originals| :: originals[k].allocation == a
  }

  lemma MentionsLast(originals: seq<Original>, a: Uuid)
    requires originals != []
    ensures Mentions(originals, a) <==>
              Mentions(originals[..|originals| - 1], a) || originals[|originals| - 1].allocation == a
  {
    if k :| 0 <= k < |originals| && originals[k].allocation == a && k < |originals| - 1 {
      assert originals[..|originals| - 1][k].allocation == a;
    }
    var rest := originals[..|originals| - 1];
    if k :| 0 <= k < |rest| && rest[k].allocation == a {
      assert originals[k].allocation == a;
    }
  }

  // Granting adds the originals that had no waiver and changes no waiver there was.
  lemma {:induction false} GrantAdds(l: Ledger, m: Manifest, manifest: string, now: int, originals: seq<Original>)
    ensures var granted := Grant(l, m, manifest, now, originals);
            && (forall a | a in l :: a in granted && granted[a] == l[a])
            && (forall a | a in granted :: a in l || Mentions(originals, a))
            && (forall a | Mentions(originals, a) :: a in granted)
            && (forall a | a in granted && a !in l ::
                  exists k | 0 <= k < |originals| :: granted[a] == Granted(m, manifest, now, originals[k]) && originals[k].allocation == a)
    decreases |originals|
  {
    if originals != [] {
      var n := |originals| - 1;
      GrantAdds(l, m, manifest, now, originals[..n]);
      var granted := Grant(l, m, manifest, now, originals);
      forall a ensures Mentions(originals, a) <==> Mentions(originals[..n], a) || originals[n].allocation == a {
        MentionsLast(originals, a);
      }
      forall a | a in granted && a !in l
        ensures exists k | 0 <= k < |originals| ::
                  granted[a] == Granted(m, manifest, now, originals[k]) && originals[k].allocation == a {
        if a != originals[n].allocation {
          var k :| 0 <= k < n && granted[a] == Granted(m, manifest, now, originals[..n][k]) && originals[..n][k].allocation == a;
          assert originals[k] == originals[..n][k];
        }
      }
    }
  }

  lemma HeldWith(l: Ledger, w: World, a: Uuid, waiver: Waiver)
    requires a !in l && a in w.rows && w.rows[a].held
    ensures |HeldWaivers(l[a := waiver], w, waiver.policy, waiver.revision)| == |HeldWaivers(l, w, waiver.policy, waiver.revision)| + 1
  {
    assert HeldWaivers(l[a := waiver], w, waiver.policy, waiver.revision) == HeldWaivers(l, w, waiver.policy, waiver.revision) + {a};
  }

  lemma LastIsNew(originals: seq<Original>)
    requires originals != [] && AreDistinct(originals)
    ensures AreDistinct(originals[..|originals| - 1])
    ensures !Mentions(originals[..|originals| - 1], originals[|originals| - 1].allocation)
  {
  }

  lemma {:induction false} CountGranted(
      l: Ledger, w: World, m: Manifest, manifest: string, now: int, originals: seq<Original>)
    requires AreDistinct(originals)
    requires forall k | 0 <= k < |originals| :: IsFound(w, m, originals[k]) && IsAdmissible(l, w, m, manifest, originals[k])
    ensures |HeldWaivers(Grant(l, m, manifest, now, originals), w, m.policy, m.revision)|
            == |HeldWaivers(l, w, m.policy, m.revision)| + |originals| - CountWaived(l, originals)
    decreases |originals|
  {
    if originals != [] {
      var n := |originals| - 1;
      var last, before := originals[n], Grant(l, m, manifest, now, originals[..n]);
      LastIsNew(originals);
      CountGranted(l, w, m, manifest, now, originals[..n]);
      GrantAdds(l, m, manifest, now, originals[..n]);
      assert IsAdmissible(l, w, m, manifest, last);
      if last.allocation !in l {
        HeldWith(before, w, last.allocation, Granted(m, manifest, now, last));
      }
    }
  }

  class Store {
    var ledger: Ledger

    constructor ()
      ensures ledger == map[]
    {
      ledger := map[];
    }

    // Reviews or applies a manifest.
    method ReviewOrApply(codec: Codec, w: World, c: Command) returns (r: Result<Receipt, Error>)
      modifies this
      ensures (ledger, r) == Decide(codec, old(ledger), w, c)
    {
      var manifest := ParseManifest(codec, c.bytes, c.reviewed);
      if manifest.Err? {
        return Err(manifest.error);
      }
      var m := manifest.value;
      if m.observedBefore > c.now || m.expiresAt < c.now || m.expiresAt > c.now + MAX_VALIDITY_MS {
        return Err(Conflict);
      }
      for k := 0 to |m.originals|
        invariant forall i | 0 <= i < k :: IsFound(w, m, m.originals[i])
      {
        if !IsFound(w, m, m.originals[k]) {
          return Err(Conflict);
        }
      }
      if !HasPolicy(w, m) || IsReused(ledger, m.authorization, c.reviewed) {
        return Err(Conflict);
      }
      r := CheckAndInsert(w, c, m);
    }

    // The rest of the transaction, which inserts rows as it goes and keeps them only if it commits.
    method CheckAndInsert(w: World, c: Command, m: Manifest) returns (r: Result<Receipt, Error>)
      requires AreDistinct(m.originals) && HasPolicy(w, m)
      requires forall i | 0 <= i < |m.originals| :: IsFound(w, m, m.originals[i])
      modifies this
      ensures var granted := Grant(old(ledger), m, c.reviewed, c.now, m.originals);
              var acceptable := forall k | 0 <= k < |m.originals| :: IsAdmissible(old(ledger), w, m, c.reviewed, m.originals[k]);
              var refused := c.apply && granted != old(ledger) && !IsWithinLimit(granted, w, m);
              && r == (if !acceptable then Err(Conflict) else if refused then Err(Unavailable)
                       else Ok(ReceiptOf(old(ledger), w, m, c)))
              && ledger == if r.Ok? && c.apply then granted else old(ledger)
    {
      var tx, already, ok := CheckEach(ledger, w, c, m);
      if !ok {
        return Err(Conflict);
      }
      CountGranted(ledger, w, m, c.reviewed, c.now, m.originals);
      if tx != ledger && !IsWithinLimit(tx, w, m) {
        return Err(Unavailable);
      }
      var raw := w.policies[(m.policy, m.revision)].occupied;
      var waived := |HeldWaivers(tx, w, m.policy, m.revision)|;
      if !c.apply {
        waived := waived + |m.originals| - already;
      }
      if c.apply {
        ledger := tx;
      }
      return Ok(Receipt(m.authorization, c.reviewed, c.apply, |m.originals|, already, raw, waived, raw - waived));
    }
  }

  // Checks each original in turn and, to apply, inserts its waiver into the transaction's rows.
  method CheckEach(l: Ledger, w: World, c: Command, m: Manifest) returns (tx: Ledger, already: nat, ok: bool)
    requires AreDistinct(m.originals)
    ensures ok <==> forall k | 0 <= k < |m.originals| :: IsAdmissible(l, w, m, c.reviewed, m.originals[k])
    ensures ok ==> already == CountWaived(l, m.originals)
                   && tx == if c.apply then Grant(l, m, c.reviewed, c.now, m.originals) else l
  {
    tx, already := l, 0;
    for k := 0 to |m.originals|
      invariant already == CountWaived(l, m.originals[..k])
      invariant forall i | 0 <= i < k :: IsAdmissible(l, w, m, c.reviewed, m.originals[i])
      invariant tx == if c.apply then Grant(l, m, c.reviewed, c.now, m.originals[..k]) else l
    {
      var row := m.originals[k];
      InTransaction(l, w, m, c, k);
      if row.allocation in tx {
        if tx[row.allocation].authorization != m.authorization || tx[row.allocation].manifest != c.reviewed {
          assert !IsAdmissible(l, w, m, c.reviewed, row);
          return tx, already, false;
        }
        already := already + 1;
      } else {
        if !IsEligible(w, m, row) {
          assert !IsAdmissible(l, w, m, c.reviewed, row);
          return tx, already, false;
        }
        if c.apply {
          tx := tx[row.allocation := Granted(m, c.reviewed, c.now, row)];
        }
      }
    }
    assert m.originals[..|m.originals|] == m.originals;
    return tx, already, true;
  }

  lemma LaterIsNew(originals: seq<Original>, k: nat)
    requires AreDistinct(originals) && k < |originals|
    ensures !Mentions(originals[..k], originals[k].allocation)
  {
  }

  // One more original, in terms of the ones before.
  lemma OneMore(l: Ledger, m: Manifest, c: Command, k: nat)
    requires k < |m.originals|
    ensures var row, tx := m.originals[k], Grant(l, m, c.reviewed, c.now, m.originals[..k]);
            && Grant(l, m, c.reviewed, c.now, m.originals[..k + 1])
               == (if row.allocation in l then tx else tx[row.allocation := Granted(m, c.reviewed, c.now, row)])
            && CountWaived(l, m.originals[..k + 1]) == CountWaived(l, m.originals[..k]) + if row.allocation in l then 1 else 0
  {
    hide Granted;
    assert m.originals[..k + 1][..k] == m.originals[..k] && m.originals[..k + 1][k] == m.originals[k];
  }

  // The transaction knows of an original what the ledger does, until it inserts it.
  lemma InTransaction(l: Ledger, w: World, m: Manifest, c: Command, k: nat)
    requires AreDistinct(m.originals) && k < |m.originals|
    ensures var row, tx := m.originals[k], Grant(l, m, c.reviewed, c.now, m.originals[..k]);
            && (row.allocation in tx <==> row.allocation in l)
            && (row.allocation in l ==> tx[row.allocation] == l[row.allocation])
            && Grant(l, m, c.reviewed, c.now, m.originals[..k + 1])
               == (if row.allocation in l then tx else tx[row.allocation := Granted(m, c.reviewed, c.now, row)])
            && CountWaived(l, m.originals[..k + 1]) == CountWaived(l, m.originals[..k]) + if row.allocation in l then 1 else 0
  {
    hide Grant, CountWaived, Granted, AreDistinct, Mentions;
    OneMore(l, m, c, k);
    GrantAdds(l, m, c.reviewed, c.now, m.originals[..k]);
    LaterIsNew(m.originals, k);
  }
}
