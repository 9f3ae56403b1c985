// The ledger over any number of commands, while the rest of the database changes in between.
module WaiverRuns {
  import opened Wrappers
  import opened Uuids
  import opened WaiverManifests
  import opened WaiverLedger
  import F = Framing

  // Different manifests have different digests.
  ghost predicate IsCollisionFree(codec: Codec) {
    forall a, b :: codec.sha256(a) == codec.sha256(b) ==> a == b
  }

  // The waivers of an authorization are those of one manifest, all of them.
  ghost predicate IsWhole(codec: Codec, l: Ledger, bytes: seq<F.Byte>, reviewed: string) {
    && Accepted(codec, bytes, reviewed).Ok?
    && var m := Accepted(codec, bytes, reviewed).value;
       && (forall k | 0 <= k < |m.originals| ::
             var o := m.originals[k];
             && o.allocation in l && l[o.allocation].authorization == m.authorization
             && l[o.allocation].manifest == reviewed && l[o.allocation].original == o)
       && (forall b | b in l && l[b].authorization == m.authorization ::
             l[b].manifest == reviewed && Mentions(m.originals, b))
  }

  ghost predicate ComesFrom(codec: Codec, l: Ledger, bytes: seq<F.Byte>, waiver: Waiver) {
    IsWhole(codec, l, bytes, waiver.manifest) && Accepted(codec, bytes, waiver.manifest).value.authorization == waiver.authorization
  }

  // Every waiver comes from a manifest that was applied as a whole.
  ghost predicate Inv(codec: Codec, l: Ledger) {
    forall a | a in l :: exists bytes :: ComesFrom(codec, l, bytes, l[a])
  }

  // An acceptable manifest has been applied before as a whole, or not at all.
  lemma AllOrNone(codec: Codec, l: Ledger, w: World, m: Manifest, c: Command)
    requires IsCollisionFree(codec) && Inv(codec, l)
    requires Accepted(codec, c.bytes, c.reviewed) == Ok(m) && IsAcceptable(l, w, m, c)
    ensures || (forall k | 0 <= k < |m.originals| ::
                  m.originals[k].allocation in l && l[m.originals[k].allocation].original == m.originals[k])
            || ((forall k | 0 <= k < |m.originals| :: m.originals[k].allocation !in l)
                && forall b | b in l :: l[b].authorization != m.authorization)
  {
    if b :| b in l && l[b].authorization == m.authorization {
      assert l[b].manifest == c.reviewed;
      var bytes :| ComesFrom(codec, l, bytes, l[b]);
      assert codec.sha256(bytes) == codec.sha256(c.bytes);
    } else {
      forall k | 0 <= k < |m.originals| ensures m.originals[k].allocation !in l {
        assert IsAdmissible(l, w, m, c.reviewed, m.originals[k]);
      }
    }
  }

  lemma {:induction false} GrantNothing(l: Ledger, m: Manifest, manifest: string, now: int, originals: seq<Original>)
    requires forall k | 0 <= k < |originals| :: originals[k].allocation in l
    ensures Grant(l, m, manifest, now, originals) == l && CountWaived(l, originals) == |originals|
    decreases |originals|
  {
    if originals != [] {
      GrantNothing(l, m, manifest, now, originals[..|originals| - 1]);
    }
  }

  lemma {:induction false} CountNone(l: Ledger, originals: seq<Original>)
    requires forall k | 0 <= k < |originals| :: originals[k].allocation !in l
    ensures CountWaived(l, originals) == 0
    decreases |originals|
  {
    if originals != [] {
      CountNone(l, originals[..|originals| - 1]);
    }
  }

  // What is granted anew is the manifest as a whole.
  lemma NewIsWhole(codec: Codec, l: Ledger, m: Manifest, c: Command)
    requires Accepted(codec, c.bytes, c.reviewed) == Ok(m)
    requires forall k | 0 <= k < |m.originals| :: m.originals[k].allocation !in l
    requires forall b | b in l :: l[b].authorization != m.authorization
    ensures IsWhole(codec, Grant(l, m, c.reviewed, c.now, m.originals), c.bytes, c.reviewed)
  {
    var granted := Grant(l, m, c.reviewed, c.now, m.originals);
    GrantAdds(l, m, c.reviewed, c.now, m.originals);
    forall k | 0 <= k < |m.originals|
      ensures var o := m.originals[k];
              o.allocation in granted && granted[o.allocation] == Granted(m, c.reviewed, c.now, o) {
      var a := m.originals[k].allocation;
      assert Mentions(m.originals, a);
      var j :| 0 <= j < |m.originals| && granted[a] == Granted(m, c.reviewed, c.now, m.originals[j]) && m.originals[j].allocation == a;
      assert j == k;
    }
  }

  // What was whole stays whole when another authorization is granted.
  lemma OldStaysWhole(
      codec: Codec, l: Ledger, m: Manifest, c: Command, bytes: seq<F.Byte>, reviewed: string)
    requires forall b | b in l :: l[b].authorization != m.authorization
    requires IsWhole(codec, l, bytes, reviewed) && Accepted(codec, bytes, reviewed).value.authorization != m.authorization
    ensures IsWhole(codec, Grant(l, m, c.reviewed, c.now, m.originals), bytes, reviewed)
  {
    GrantAdds(l, m, c.reviewed, c.now, m.originals);
  }

  // After granting, each waiver comes from a whole manifest: an old one, or the one granted.

  predicate IsFresh(l: Ledger, m: Manifest) {
    && (forall k | 0 <= k < |m.originals| :: m.originals[k].allocation !in l)
    && forall b | b in l :: l[b].authorization != m.authorization
  }

  lemma OldComesFrom(codec: Codec, l: Ledger, m: Manifest, c: Command, a: Uuid)
    requires Inv(codec, l) && IsFresh(l, m) && a in l
    ensures var granted := Grant(l, m, c.reviewed, c.now, m.originals);
            a in granted && exists bytes :: ComesFrom(codec, granted, bytes, granted[a])
  {
    hide IsWhole, Grant;
    var bytes :| ComesFrom(codec, l, bytes, l[a]);
    GrantAdds(l, m, c.reviewed, c.now, m.originals);
    OldStaysWhole(codec, l, m, c, bytes, l[a].manifest);
    assert ComesFrom(codec, Grant(l, m, c.reviewed, c.now, m.originals), bytes, l[a]);
  }

  lemma NewComesFrom(codec: Codec, l: Ledger, m: Manifest, c: Command, a: Uuid)
    requires Accepted(codec, c.bytes, c.reviewed) == Ok(m) && IsFresh(l, m)
    requires a in Grant(l, m, c.reviewed, c.now, m.originals) && a !in l
    ensures var granted := Grant(l, m, c.reviewed, c.now, m.originals); ComesFrom(codec, granted, c.bytes, granted[a])
  {
    hide IsWhole, Grant;
    GrantAdds(l, m, c.reviewed, c.now, m.originals);
    NewIsWhole(codec, l, m, c);
  }

  lemma GrantKeepsInv(codec: Codec, l: Ledger, m: Manifest, c: Command)
    requires Inv(codec, l) && Accepted(codec, c.bytes, c.reviewed) == Ok(m) && IsFresh(l, m)
    ensures Inv(codec, Grant(l, m, c.reviewed, c.now, m.originals))
  {
    hide ComesFrom, Grant, IsFresh;
    var after := Grant(l, m, c.reviewed, c.now, m.originals);
    forall a | a in after ensures exists bytes :: ComesFrom(codec, after, bytes, after[a]) {
      if a in l {
        OldComesFrom(codec, l, m, c, a);
      } else {
        NewComesFrom(codec, l, m, c, a);
      }
    }
  }

  lemma DecideKeepsInv(codec: Codec, l: Ledger, w: World, c: Command)
    requires IsCollisionFree(codec) && Inv(codec, l)
    ensures Inv(codec, Decide(codec, l, w, c).0)
  {
    hide Inv, IsCollisionFree, IsAcceptable, Grant, IsWithinLimit, ReceiptOf, Accepted;
    if Decide(codec, l, w, c).0 != l {
      var m := Accepted(codec, c.bytes, c.reviewed).value;
      AllOrNone(codec, l, w, m, c);
      if forall k | 0 <= k < |m.originals| :: m.originals[k].allocation in l {
        GrantNothing(l, m, c.reviewed, c.now, m.originals);
      } else {
        GrantKeepsInv(codec, l, m, c);
      }
    }
  }

  // ---- Runs ----

  function RunAll(codec: Codec, l: Ledger, steps: seq<(World, Command)>): Ledger
    decreases |steps|
  {
    if steps == [] then l else RunAll(codec, Decide(codec, l, steps[0].0, steps[0].1).0, steps[1..])
  }

  lemma {:induction false} RunKeepsInv(codec: Codec, l: Ledger, steps: seq<(World, Command)>)
    requires IsCollisionFree(codec) && Inv(codec, l)
    ensures Inv(codec, RunAll(codec, l, steps))
    decreases |steps|
  {
    if steps != [] {
      DecideKeepsInv(codec, l, steps[0].0, steps[0].1);
      RunKeepsInv(codec, Decide(codec, l, steps[0].0, steps[0].1).0, steps[1..]);
    }
  }

  // Over every run from the empty ledger, the waivers of an authorization are exactly the originals of one
  // manifest, whose digest they carry.
  lemma AuthorizationIsOneManifest(codec: Codec, steps: seq<(World, Command)>, a: Uuid) returns (bytes: seq<F.Byte>)
    requires IsCollisionFree(codec) && a in RunAll(codec, map[], steps)
    ensures ComesFrom(codec, RunAll(codec, map[], steps), bytes, RunAll(codec, map[], steps)[a])
  {
    RunKeepsInv(codec, map[], steps);
    bytes :| ComesFrom(codec, RunAll(codec, map[], steps), bytes, RunAll(codec, map[], steps)[a]);
  }

  // Over every run, a waiver that was granted stays as it was granted.
  lemma {:induction false} WaiversStay(codec: Codec, l: Ledger, steps: seq<(World, Command)>, a: Uuid)
    requires a in l
    ensures a in RunAll(codec, l, steps) && RunAll(codec, l, steps)[a] == l[a]
    decreases |steps|
  {
    if steps != [] {
      var (w, c) := steps[0];
      var next := Decide(codec, l, w, c).0;
      if next != l {
        var m := Accepted(codec, c.bytes, c.reviewed).value;
        GrantAdds(l, m, c.reviewed, c.now, m.originals);
      }
      WaiversStay(codec, next, steps[1..], a);
    }
  }

  // A successful command has found all of its originals waived before, or none.
  lemma AlreadyAllOrNone(codec: Codec, l: Ledger, w: World, c: Command)
    requires IsCollisionFree(codec) && Inv(codec, l) && Decide(codec, l, w, c).1.Ok?
    ensures Decide(codec, l, w, c).1.value.alreadyApplied in {0, Decide(codec, l, w, c).1.value.reviewedOriginals}
  {
    var m := Accepted(codec, c.bytes, c.reviewed).value;
    AllOrNone(codec, l, w, m, c);
    if forall k | 0 <= k < |m.originals| :: m.originals[k].allocation in l {
      GrantNothing(l, m, c.reviewed, c.now, m.originals);
    } else {
      CountNone(l, m.originals);
    }
  }

  // The waivers of a manifest that was applied stay, whatever follows.
  predicate HoldsAll(l: Ledger, m: Manifest) {
    forall k | 0 <= k < |m.originals| :: m.originals[k].allocation in l
  }

  lemma AppliedStays(codec: Codec, l: Ledger, m: Manifest, c: Command, steps: seq<(World, Command)>, k: nat)
    requires k < |m.originals|
    ensures var granted := Grant(l, m, c.reviewed, c.now, m.originals);
            var a := m.originals[k].allocation;
            && a in granted && a in RunAll(codec, granted, steps) && RunAll(codec, granted, steps)[a] == granted[a]
            && (a in l ==> granted[a] == l[a])
            && (a !in l ==> granted[a].authorization == m.authorization && granted[a].manifest == c.reviewed)
  {
    hide Grant, RunAll;
    GrantAdds(l, m, c.reviewed, c.now, m.originals);
    assert Mentions(m.originals, m.originals[k].allocation);
    WaiversStay(codec, Grant(l, m, c.reviewed, c.now, m.originals), steps, m.originals[k].allocation);
  }

  // What a command comes to when all of its originals are waived.
  lemma DecideAgain(codec: Codec, l: Ledger, w: World, m: Manifest, c: Command)
    requires Accepted(codec, c.bytes, c.reviewed) == Ok(m) && c.apply && HoldsAll(l, m)
    ensures var (after, r) := Decide(codec, l, w, c);
            && after == l && (r.Ok? <==> IsAcceptable(l, w, m, c))
            && (r.Ok? ==> r.value.alreadyApplied == r.value.reviewedOriginals)
  {
    hide IsAcceptable, Accepted, Grant, CountWaived, IsWithinLimit, HeldWaivers;
    GrantNothing(l, m, c.reviewed, c.now, m.originals);
    AcceptableHasPolicy(l, w, m, c);
  }

  lemma AcceptableHasPolicy(l: Ledger, w: World, m: Manifest, c: Command)
    ensures IsAcceptable(l, w, m, c) ==> HasPolicy(w, m)
  {
  }

  // What an apply that succeeds makes of the ledger.
  lemma AppliedMeaning(codec: Codec, l: Ledger, w: World, c: Command)
    requires Decide(codec, l, w, c).1.Ok? && c.apply
    ensures Accepted(codec, c.bytes, c.reviewed).Ok?
    ensures var m := Accepted(codec, c.bytes, c.reviewed).value;
            IsAcceptable(l, w, m, c) && Decide(codec, l, w, c).0 == Grant(l, m, c.reviewed, c.now, m.originals)
  {
    hide IsAcceptable, Accepted, Grant, IsWithinLimit, ReceiptOf;
  }

  // The ledger holds a manifest as a whole exactly when its waivers are there; then applying the same bytes
  // once more, at any time and in any state of the rest, changes nothing, and succeeds unless the manifest
  // is out of time or its originals or policy are not found.
  lemma ReapplyChangesNothing(
      codec: Codec, l: Ledger, w: World, c: Command, steps: seq<(World, Command)>, again: World, now: int)
    requires Decide(codec, l, w, c).1.Ok? && c.apply
    ensures var m := Accepted(codec, c.bytes, c.reviewed).value;
            var later := RunAll(codec, Decide(codec, l, w, c).0, steps);
            var (after, r) := Decide(codec, later, again, c.(now := now));
            && after == later
            && (r.Ok? ==> r.value.alreadyApplied == r.value.reviewedOriginals)
            && (IsCollisionFree(codec) && Inv(codec, l) ==>
                  (r.Ok? <==> && IsTimely(m, now) && HasPolicy(again, m)
                              && forall k | 0 <= k < |m.originals| :: IsFound(again, m, m.originals[k])))
  {
    hide Accepted, Decide, Grant, RunAll, IsCollisionFree, Inv, IsTimely, HasPolicy, IsFound, IsReused;
    AppliedMeaning(codec, l, w, c);
    var m := Accepted(codec, c.bytes, c.reviewed).value;
    var later := RunAll(codec, Decide(codec, l, w, c).0, steps);
    forall k | 0 <= k < |m.originals| ensures m.originals[k].allocation in later {
      AppliedStays(codec, l, m, c, steps, k);
    }
    DecideAgain(codec, later, again, m, c.(now := now));
    if IsCollisionFree(codec) && Inv(codec, l) {
      AppliedIsAdmissible(codec, l, w, m, c, steps);
      AcceptableAgain(later, again, m, c.(now := now));
    }
  }

  // An acceptable command whose originals all have its own waivers depends on the rest of the database only.
  lemma AcceptableAgain(l: Ledger, w: World, m: Manifest, c: Command)
    requires !IsReused(l, m.authorization, c.reviewed)
    requires forall k | 0 <= k < |m.originals| ::
               var a := m.originals[k].allocation;
               a in l && l[a].authorization == m.authorization && l[a].manifest == c.reviewed
    ensures IsAcceptable(l, w, m, c)
       <==> && IsTimely(m, c.now) && HasPolicy(w, m) && forall k | 0 <= k < |m.originals| :: IsFound(w, m, m.originals[k])
  {
    hide IsTimely, HasPolicy, IsFound, IsReused;
  }

  lemma AppliedIsAdmissible(codec: Codec, l: Ledger, w: World, m: Manifest, c: Command, steps: seq<(World, Command)>)
    requires IsCollisionFree(codec) && Inv(codec, l)
    requires Accepted(codec, c.bytes, c.reviewed) == Ok(m) && Decide(codec, l, w, c).1.Ok? && c.apply
    ensures var later := RunAll(codec, Decide(codec, l, w, c).0, steps);
            && !IsReused(later, m.authorization, c.reviewed)
            && forall k | 0 <= k < |m.originals| ::
                 var a := m.originals[k].allocation;
                 a in later && later[a].authorization == m.authorization && later[a].manifest == c.reviewed
  {
    hide Accepted, Decide, Grant, RunAll, IsCollisionFree, Inv, IsReused;
    AppliedMeaning(codec, l, w, c);
    var applied := Decide(codec, l, w, c).0;
    var later := RunAll(codec, applied, steps);
    forall k | 0 <= k < |m.originals|
      ensures var a := m.originals[k].allocation;
              a in later && later[a].authorization == m.authorization && later[a].manifest == c.reviewed {
      assert IsAdmissible(l, w, m, c.reviewed, m.originals[k]);
      AppliedStays(codec, l, m, c, steps, k);
    }
    DecideKeepsInv(codec, l, w, c);
    RunKeepsInv(codec, applied, steps);
    AcceptedIsNonEmpty(codec, c, m);
    NotReused(codec, later, m.originals[0].allocation);
  }

  lemma AcceptedIsNonEmpty(codec: Codec, c: Command, m: Manifest)
    requires Accepted(codec, c.bytes, c.reviewed) == Ok(m)
    ensures m.originals != []
  {
  }

  // The waivers of an authorization are of one manifest.
  lemma NotReused(codec: Codec, l: Ledger, a: Uuid)
    requires Inv(codec, l) && a in l
    ensures !IsReused(l, l[a].authorization, l[a].manifest)
  {
    hide Accepted;
    var bytes :| ComesFrom(codec, l, bytes, l[a]);
  }

  // A dry run foretells an apply in the same state: the receipts agree, and only the limit of the policy
  // can still refuse the new waivers.
  lemma DryRunForetells(codec: Codec, l: Ledger, w: World, c: Command)
    requires c.apply
    ensures var dry, (after, r) := Decide(codec, l, w, c.(apply := false)), Decide(codec, l, w, c);
            && dry.0 == l && (r.Err? ==> after == l)
            && (r.Ok? ==> dry.1 == Ok(r.value.(applied := false)))
            && (dry.1.Ok? ==>
                  var m := Accepted(codec, c.bytes, c.reviewed).value;
                  var refused := && dry.1.value.alreadyApplied < dry.1.value.reviewedOriginals
                                 && !(0 <= dry.1.value.effective <= w.policies[(m.policy, m.revision)].limit);
                  r == if refused then Err(Unavailable) else Ok(dry.1.value.(applied := true)))
  {
    var dry := Decide(codec, l, w, c.(apply := false));
    if dry.1.Ok? {
      var m := Accepted(codec, c.bytes, c.reviewed).value;
      GrantSomething(l, m, c.reviewed, c.now, m.originals);
    }
  }

  // The ledger grows exactly when some original had no waiver.
  lemma {:induction false} GrantSomething(l: Ledger, m: Manifest, manifest: string, now: int, originals: seq<Original>)
    ensures Grant(l, m, manifest, now, originals) == l <==> CountWaived(l, originals) == |originals|
    decreases |originals|
  {
    if originals != [] {
      var n := |originals| - 1;
      GrantSomething(l, m, manifest, now, originals[..n]);
      GrantAdds(l, m, manifest, now, originals[..n]);
      GrantAdds(l, m, manifest, now, originals);
      MentionsAll(originals);
    }
  }

  lemma MentionsAll(originals: seq<Original>)
    ensures forall k | 0 <= k < |originals| :: Mentions(originals, originals[k].allocation)
  {
  }
}
