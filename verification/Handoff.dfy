// Handing the fixed updater over to a candidate, and back when anything goes wrong.
module Handoff {
  import opened Wrappers
  import opened UpdaterHost

  // Where an error came up: before the handoff, in it, or in the rollback.
  datatype Failure = NotPrepared(error: Error) | HandoffFailed(error: Error) | RollbackFailed(error: Error)

  // What the preparation has found: production, and the updater in use with its digest.
  datatype Prepared = Prepared(before: Snapshot, replaced: Pin)

  // The updater of a release, and the fixed one, had a digest.
  ghost predicate IsPinnedInUse(worlds: nat -> World, start: nat, end: nat, sha256: Bytes -> nat, current: string, pin: Pin) {
    && (exists t | start <= t < end :: IsPinned(sha256, pin, worlds(t).updaterOf(current)))
    && (exists t | start <= t < end :: IsPinned(sha256, pin, worlds(t).fixed))
  }

  ghost predicate IsPrepared(worlds: nat -> World, start: nat, end: nat, sha256: Bytes -> nat, p: Prepared, candidate: Pin) {
    && (exists t | start <= t <= end :: IsSeen(worlds, start, t, p.before) && IsSeen(worlds, t, end, p.before))
    && IsPinnedInUse(worlds, start, end, sha256, p.before.current, p.replaced)
    && (exists t | start <= t < end :: IsPinned(sha256, candidate, worlds(t).self))
  }

  // Production stays idle and unchanged, the fixed updater is that of the current release, and the bootstrap
  // is the candidate.
  ghost predicate IsReady(worlds: nat -> World, start: nat, end: nat, sha256: Bytes -> nat, candidate: Pin) {
    && IsUnchanged(worlds, start, end, SnapshotOf(worlds(start)))
    && forall t | start <= t < end ::
         && worlds(t).fixed == worlds(t).updaterOf(worlds(start).current) == worlds(start).updaterOf(worlds(start).current)
         && IsPinned(sha256, candidate, worlds(t).self)
  }

  function SnapshotOf(w: World): Snapshot {
    Snapshot(w.current, w.schema, w.services)
  }

  // Looks at production once more; a difference is an error of its own.
  method CompareProduction(host: Host, before: Snapshot, otherwise: Error) returns (r: Result<(), Error>)
    modifies host`time, host`faults
    ensures host.time >= old(host.time) && host.faults >= old(host.faults)
    ensures r.Ok? ==> IsSeen(host.worlds, old(host.time), host.time, before)
    ensures r.Ok? ==> !host.applyEnabled
    ensures host.faults == old(host.faults) && !host.applyEnabled && IsUnchanged(host.worlds, old(host.time), host.time, before) ==> r.Ok?
  {
    ghost var start := host.time;
    var after := host.CandidateIdleSnapshot();
    if after.Err? {
      return Err(after.error);
    }
    SeenIsSame(host.worlds, start, host.time, after.value, before);
    return if after.value == before then Ok(()) else Err(otherwise);
  }

  lemma SeenIsSame(worlds: nat -> World, start: nat, end: nat, seen: Snapshot, s: Snapshot)
    requires IsSeen(worlds, start, end, seen)
    ensures IsUnchanged(worlds, start, end, s) ==> seen == s
  {
  }

  // The fixed updater stays that of a release.
  ghost predicate KeepsUpdater(worlds: nat -> World, start: nat, end: nat, current: string) {
    forall t | start <= t < end :: worlds(t).fixed == worlds(start).updaterOf(current)
  }

  // Takes the digest of the updater that the current release holds, which must be the fixed one.
  method PinUpdaterInUse(host: Host, current: string) returns (r: Result<Pin, Error>)
    modifies host`time, host`faults
    ensures host.time >= old(host.time) && host.faults >= old(host.faults)
    ensures r.Ok? ==> IsPinnedInUse(host.worlds, old(host.time), host.time, host.sha256, current, r.value)
    ensures host.faults == old(host.faults) && KeepsUpdater(host.worlds, old(host.time), host.time, current) ==> r.Ok?
  {
    ghost var first := host.time;
    var read := host.Look();
    if read.Err? {
      return Err(read.error);
    }
    var bytes := read.value.updaterOf(current);
    var pin := Pin(host.sha256(bytes), |bytes|);
    ghost var second := host.time;
    var fixed := host.Look();
    if fixed.Err? || !IsPinned(host.sha256, pin, fixed.value.fixed) {
      return Err(if fixed.Err? then fixed.error else InvalidRelease);
    }
    assert IsPinned(host.sha256, pin, host.worlds(first).updaterOf(current)) && IsPinned(host.sha256, pin, host.worlds(second).fixed);
    return Ok(pin);
  }

  // The source is verified, the release staged, and its schema contract checked, each of which may fail; then
  // the release must have an updater.
  method StageCandidate(host: Host, staged: Option<Pin>) returns (r: Result<Pin, Error>)
    modifies host`faults
    ensures host.faults >= old(host.faults) && (r.Ok? ==> staged == Some(r.value))
    ensures host.faults == old(host.faults) && staged.Some? ==> r.Ok?
  {
    var error := host.Fault();
    if error.None? {
      error := host.Fault();
    }
    if error.None? {
      error := host.Fault();
    }
    if error.Some? {
      return Err(error.value);
    }
    return if staged.None? then Err(InvalidRelease) else Ok(staged.value);
  }

  // The bootstrap itself is the staged candidate.
  method VerifySelf(host: Host, candidate: Pin) returns (r: Result<(), Error>)
    modifies host`time, host`faults
    ensures host.time == old(host.time) + 1 && host.faults >= old(host.faults)
    ensures r.Ok? ==> IsPinned(host.sha256, candidate, host.worlds(old(host.time)).self)
    ensures host.faults == old(host.faults) && IsPinned(host.sha256, candidate, host.worlds(old(host.time)).self) ==> r.Ok?
  {
    var self := host.Look();
    if self.Err? {
      return Err(self.error);
    }
    return if IsPinned(host.sha256, candidate, self.value.self) then Ok(()) else Err(InvalidRelease);
  }

  ghost predicate StaysReady(worlds: nat -> World, start: nat, end: nat, sha256: Bytes -> nat, candidate: Pin, before: Snapshot) {
    IsUnchanged(worlds, start, end, before) && forall t | start <= t < end :: IsPinned(sha256, candidate, worlds(t).self)
  }

  method CompareAndVerifySelf(host: Host, before: Snapshot, candidate: Pin) returns (r: Result<(), Error>, ghost last: nat)
    modifies host`time, host`faults
    ensures old(host.time) <= last <= host.time && host.faults >= old(host.faults)
    ensures r.Ok? ==> && IsSeen(host.worlds, old(host.time), last, before) && last < host.time
                      && IsPinned(host.sha256, candidate, host.worlds(last).self)
    ensures host.faults == old(host.faults) && !host.applyEnabled
            && StaysReady(host.worlds, old(host.time), host.time, host.sha256, candidate, before) ==>
              r.Ok?
  {
    var same := CompareProduction(host, before, Config);
    last := host.time;
    if same.Err? {
      return same, last;
    }
    r := VerifySelf(host, candidate);
  }

  // What the first half of a preparation finds: production, and then the updater in use. It does not fail when
  // nothing else does and all is ready, for however long.
  ghost predicate IsSurvey(
      faultless: bool, worlds: nat -> World, start: nat, first: nat, middle: nat, sha256: Bytes -> nat, r: Result<Prepared, Error>)
  {
    && start <= first <= middle
    && (r.Ok? ==> IsSeen(worlds, start, first, r.value.before)
                  && IsPinnedInUse(worlds, first, middle, sha256, r.value.before.current, r.value.replaced))
    && (faultless && IsUnchanged(worlds, start, first, SnapshotOf(worlds(start)))
        && KeepsUpdater(worlds, first, middle, worlds(start).current) ==>
          r.Ok? && r.value.before == SnapshotOf(worlds(start)))
  }

  method Survey(host: Host) returns (r: Result<Prepared, Error>, ghost first: nat)
    modifies host`time, host`faults
    ensures host.faults >= old(host.faults)
    ensures IsSurvey(host.faults == old(host.faults) && !host.applyEnabled, host.worlds, old(host.time), first, host.time, host.sha256, r)
  {
    ghost var start := host.time;
    var before := host.CandidateIdleSnapshot();
    first := host.time;
    if before.Err? {
      return Err(before.error), first;
    }
    SeenIsSame(host.worlds, start, first, before.value, SnapshotOf(host.worlds(start)));
    var inUse := PinUpdaterInUse(host, before.value.current);
    return if inUse.Err? then Err(inUse.error) else Ok(Prepared(before.value, inUse.value)), first;
  }

  // Production is looked at before and after the candidate is verified and staged, and must not have changed.
  method Prepare(host: Host, staged: Option<Pin>) returns (r: Result<Prepared, Error>)
    modifies host`time, host`faults
    ensures host.time >= old(host.time) && host.faults >= old(host.faults)
    ensures IsPreparation(host.faults == old(host.faults) && !host.applyEnabled, host.worlds, old(host.time), host.time, host.sha256, staged, r)
  {
    ghost var start := host.time;
    var survey, first := Survey(host);
    ghost var middle := host.time;
    ReadyParts(host.worlds, start, first, middle, host.sha256);
    if survey.Err? {
      return survey;
    }
    var candidate := StageCandidate(host, staged);
    if candidate.Err? {
      return Err(candidate.error);
    }
    var same, last := CompareAndVerifySelf(host, survey.value.before, candidate.value);
    if same.Err? {
      return Err(same.error);
    }
    PreparedFrom(host.worlds, start, first, middle, last, host.time, host.sha256, survey.value, staged.value);
    return survey;
  }

  // What being ready means for the parts of the preparation.
  lemma ReadyParts(worlds: nat -> World, start: nat, first: nat, middle: nat, sha256: Bytes -> nat)
    requires start <= first <= middle
    ensures forall end: nat, candidate: Pin | middle <= end && IsReady(worlds, start, end, sha256, candidate) ::
              && IsUnchanged(worlds, start, first, SnapshotOf(worlds(start)))
              && StaysReady(worlds, middle, end, sha256, candidate, SnapshotOf(worlds(start)))
              && KeepsUpdater(worlds, first, middle, worlds(start).current)
  {
  }

  lemma PreparedFrom(
      worlds: nat -> World, start: nat, first: nat, middle: nat, last: nat, end: nat, sha256: Bytes -> nat, p: Prepared, candidate: Pin)
    requires start <= first <= middle <= last < end
    requires IsSeen(worlds, start, first, p.before) && IsSeen(worlds, middle, last, p.before)
    requires IsPinnedInUse(worlds, first, middle, sha256, p.before.current, p.replaced)
    requires IsPinned(sha256, candidate, worlds(last).self)
    ensures IsPrepared(worlds, start, end, sha256, p, candidate)
  {
    SeenLonger(worlds, start, first, middle, p.before);
    SeenLonger(worlds, middle, last, end, p.before);
  }

  lemma SeenLonger(worlds: nat -> World, start: nat, end: nat, later: nat, s: Snapshot)
    requires IsSeen(worlds, start, end, s) && end <= later
    ensures IsSeen(worlds, start, later, s)
  {
  }

  lemma SeenEarlier(worlds: nat -> World, earlier: nat, start: nat, end: nat, s: Snapshot)
    requires IsSeen(worlds, start, end, s) && earlier <= start
    ensures IsSeen(worlds, earlier, end, s)
  {
  }

  lemma RunningLonger(worlds: nat -> World, start: nat, end: nat, later: nat, sha256: Bytes -> nat, pin: Pin)
    requires IsRunning(worlds, start, end, sha256, pin) && end <= later
    ensures IsRunning(worlds, start, later, sha256, pin)
  {
    var first, second, id :| start <= first < second < end
      && IsIdentity(worlds, first, second, sha256, pin, id)
      && IsIdentity(worlds, second, end, sha256, pin, id)
      && exists t | second <= t < end :: worlds(t).clean(id.1);
    assert IsIdentity(worlds, second, later, sha256, pin, id);
  }

  // Since the helper finished: the updater runs a binary, and production is as it was.
  ghost predicate IsInPlace(worlds: nat -> World, start: nat, end: nat, sha256: Bytes -> nat, pin: Pin, before: Snapshot) {
    IsRunning(worlds, start, end, sha256, pin) && IsSeen(worlds, start, end, before)
  }

  // Since the helper finished: the updater keeps running a binary, and production stays as it was.
  ghost predicate Prospers(worlds: nat -> World, start: nat, end: nat, sha256: Bytes -> nat, pin: Pin, before: Snapshot) {
    KeepsRunning(worlds, start, end, sha256, pin) && IsUnchanged(worlds, start, end, before)
  }

  // Puts a binary in place and looks that it runs and that production has not changed.
  method PutInPlace(host: Host, binary: Binary, pin: Pin, before: Snapshot) returns (r: Result<(), Error>, ghost moment: nat)
    modifies host`time, host`log, host`faults
    ensures host.time >= moment == old(host.time) + 1 && host.faults >= old(host.faults)
    ensures Goes(host.faults == old(host.faults) && !host.applyEnabled, host.worlds, moment, host.time, host.sha256, pin, before, r.Ok?)
    ensures host.log == old(host.log) + [Started(binary, host.locks)]
            || host.log == old(host.log) + [Started(binary, host.locks), Finished(binary)]
    ensures r.Ok? ==> host.log == old(host.log) + [Started(binary, host.locks), Finished(binary)]
                      && IsInPlace(host.worlds, moment, host.time, host.sha256, pin, before) && !host.applyEnabled
  {
    var ran := host.RunHelper(binary);
    moment := host.time;
    if ran.Err? {
      return Err(if binary == Previous then RestoreRequired else ran.error), moment;
    }
    r := Inspect(host, binary, pin, before);
  }

  // The updater runs a binary, and production is as it was.
  method Inspect(host: Host, binary: Binary, pin: Pin, before: Snapshot) returns (r: Result<(), Error>)
    modifies host`time, host`faults
    ensures host.time >= old(host.time) && host.faults >= old(host.faults)
    ensures r.Ok? ==> IsInPlace(host.worlds, old(host.time), host.time, host.sha256, pin, before) && !host.applyEnabled
    ensures Goes(host.faults == old(host.faults) && !host.applyEnabled, host.worlds, old(host.time), host.time, host.sha256, pin, before, r.Ok?)
  {
    ghost var start := host.time;
    var running := host.VerifyRunningUpdater(pin);
    ghost var middle := host.time;
    ProspersInParts(host.worlds, start, middle, host.sha256, pin, before);
    if running.Err? {
      return Err(running.error);
    }
    var same := CompareProduction(host, before, if binary == Previous then RestoreRequired else Config);
    if same.Err? {
      return same;
    }
    RunningLonger(host.worlds, start, middle, host.time, host.sha256, pin);
    SeenEarlier(host.worlds, start, middle, host.time, before);
    return Ok(());
  }

  lemma ProspersInParts(worlds: nat -> World, start: nat, middle: nat, sha256: Bytes -> nat, pin: Pin, before: Snapshot)
    requires start <= middle
    ensures forall end: nat | middle <= end && Prospers(worlds, start, end, sha256, pin, before) ::
              KeepsRunning(worlds, start, middle, sha256, pin) && IsUnchanged(worlds, middle, end, before)
  {
  }

  // When nothing fails and the world prospers, so it goes.
  ghost predicate Goes(
      faultless: bool, worlds: nat -> World, start: nat, end: nat, sha256: Bytes -> nat, pin: Pin, before: Snapshot, ok: bool)
  {
    faultless && Prospers(worlds, start, end, sha256, pin, before) ==> ok
  }

  const HANDOFF_LOCKS: Locks := Locks(false, false, true, true)

  // What a bootstrap comes to. If it succeeds, the candidate, and nothing else, was put in place under the
  // enqueue fence and the maintenance lock alone, and the fence was released without loss. If it reports the
  // error of the handoff, the helper never ran, or the old updater is back in place. If the rollback fails,
  // it reports the error of the rollback. An error before the handoff means that no helper ran.
  ghost predicate IsOutcome(host: Host, p: Option<Prepared>, candidate: Option<Pin>, moment: nat, r: Result<(), Failure>)
    reads host
  {
    match r
    case Ok(_) =>
      && p.Some? && candidate.Some? && host.log == [Started(Candidate, HANDOFF_LOCKS), Finished(Candidate)]
      && IsInPlace(host.worlds, moment, host.time, host.sha256, candidate.value, p.value.before)
      && !host.locks.fence && !host.applyEnabled
    case Err(NotPrepared(_)) => host.log == []
    case Err(HandoffFailed(_)) =>
      || host.log == []
      || (p.Some? && IsRolledBack(host.log) && IsInPlace(host.worlds, moment, host.time, host.sha256, p.value.replaced, p.value.before))
    case Err(RollbackFailed(_)) => |host.log| > 1 && host.log[0] == Started(Candidate, HANDOFF_LOCKS)
  }

  // The helper ran for the candidate, and then for the previous updater to its end.
  predicate IsRolledBack(log: seq<Event>) {
    && |log| >= 3 && log[0] == Started(Candidate, HANDOFF_LOCKS)
    && log[|log| - 2].Started? && log[|log| - 2].binary == Previous && log[|log| - 1] == Finished(Previous)
  }

  method BootstrapPinnedSource(host: Host, privileged: bool, staged: Option<Pin>)
    returns (r: Result<(), Failure>, ghost p: Option<Prepared>, ghost prepared: nat, ghost moment: nat)
    requires host.log == []
    modifies host
    ensures IsOutcome(host, p, staged, moment, r)
    ensures p.Some? ==> staged.Some? && IsPrepared(host.worlds, old(host.time), prepared, host.sha256, p.value, staged.value)
    ensures privileged && staged.Some? && host.faults == old(host.faults) && !host.applyEnabled ==>
              GoesThrough(host.worlds, old(host.time), prepared, host.time, host.sha256, staged.value, r.Ok?)
  {
    p, prepared, moment := None, host.time, host.time;
    if !privileged {
      return Err(NotPrepared(Config)), p, prepared, moment;
    }
    var preparation := LockAndPrepare(host, staged);
    prepared := host.time;
    if preparation.Err? {
      return Err(NotPrepared(preparation.error)), p, prepared, moment;
    }
    p := Some(preparation.value);
    r, moment := HandOver(host, preparation.value, staged.value);
    Together(host.worlds, old(host.time), prepared, host.time, host.sha256, staged.value, preparation, r.Ok?);
  }

  // When all is ready and then prospers, the handoff goes through.
  ghost predicate GoesThrough(
      worlds: nat -> World, start: nat, prepared: nat, end: nat, sha256: Bytes -> nat, candidate: Pin, ok: bool)
  {
    && IsReady(worlds, start, prepared, sha256, candidate)
    && Prospers(worlds, prepared + 1, end, sha256, candidate, SnapshotOf(worlds(start))) ==>
      ok
  }

  lemma Together(
      worlds: nat -> World, start: nat, prepared: nat, end: nat, sha256: Bytes -> nat, candidate: Pin,
      preparation: Result<Prepared, Error>, ok: bool)
    requires preparation.Ok?
    ensures IsPreparation(true, worlds, start, prepared, sha256, Some(candidate), preparation)
            && Goes(true, worlds, prepared + 1, end, sha256, candidate, preparation.value.before, ok)
       ==> GoesThrough(worlds, start, prepared, end, sha256, candidate, ok)
  {
  }

  // What a preparation comes to: it has found what IsPrepared says, and it succeeds when nothing fails and
  // all is ready.
  ghost predicate IsPreparation(
      faultless: bool, worlds: nat -> World, start: nat, end: nat, sha256: Bytes -> nat, staged: Option<Pin>, r: Result<Prepared, Error>)
  {
    && (r.Ok? ==> staged.Some? && IsPrepared(worlds, start, end, sha256, r.value, staged.value))
    && (faultless && staged.Some? && IsReady(worlds, start, end, sha256, staged.value) ==>
          r.Ok? && r.value.before == SnapshotOf(worlds(start)))
  }

  lemma PreparationFails(worlds: nat -> World, start: nat, end: nat, sha256: Bytes -> nat, staged: Option<Pin>, error: Error)
    ensures IsPreparation(false, worlds, start, end, sha256, staged, Err(error))
  {
  }

  // Takes all locks, prepares, and releases those that the daemon needs.
  method LockAndPrepare(host: Host, staged: Option<Pin>) returns (r: Result<Prepared, Error>)
    modifies host`time, host`faults, host`locks
    ensures host.time >= old(host.time) && host.faults >= old(host.faults)
    ensures IsPreparation(host.faults == old(host.faults) && !host.applyEnabled, host.worlds, old(host.time), host.time, host.sha256, staged, r)
    ensures r.Ok? ==> host.locks == HANDOFF_LOCKS
  {
    var locked := AcquireLocks(host);
    if locked.Err? {
      PreparationFails(host.worlds, host.time, host.time, host.sha256, staged, locked.error);
      return Err(locked.error);
    }
    ghost var start := host.time;
    r := Prepare(host, staged);
    if r.Ok? {
      var released := ReleaseForHandoff(host);
      if released.Err? {
        PreparationFails(host.worlds, start, host.time, host.sha256, staged, released.error);
        r := Err(released.error);
      }
    }
  }

  method AcquireLocks(host: Host) returns (r: Result<(), Error>)
    modifies host`locks, host`faults
    ensures r.Ok? ==> host.locks == Locks(true, true, true, true)
    ensures host.faults == old(host.faults) + if r.Err? then 1 else 0
  {
    var error := host.Fault();
    host.locks := host.locks.(maintenance := true);
    if error.Some? {
      return Err(error.value);
    }
    error := host.Fault();
    host.locks := host.locks.(host := true);
    if error.Some? {
      return Err(error.value);
    }
    error := host.Fault();
    host.locks := host.locks.(cluster := true);
    if error.Some? {
      return Err(error.value);
    }
    error := host.Fault();
    host.locks := host.locks.(fence := true);
    return if error.Some? then Err(error.value) else Ok(());
  }

  // The daemon needs the cluster and the host lock to start; the fence and the maintenance lock stay.
  method ReleaseForHandoff(host: Host) returns (r: Result<(), Error>)
    requires host.locks == Locks(true, true, true, true)
    modifies host`locks, host`faults
    ensures r.Ok? ==> host.locks == HANDOFF_LOCKS
    ensures host.faults == old(host.faults) + if r.Err? then 1 else 0
  {
    var error := host.Fault();
    host.locks := host.locks.(cluster := false);
    if error.Some? {
      return Err(LeaseLost);
    }
    host.locks := host.locks.(host := false);
    return Ok(());
  }

  // The handoff itself, and the rollback when it fails after the replacement has started.
  method HandOver(host: Host, p: Prepared, candidate: Pin) returns (r: Result<(), Failure>, ghost moment: nat)
    requires host.log == [] && host.locks == HANDOFF_LOCKS
    modifies host
    ensures IsOutcome(host, Some(p), Some(candidate), moment, r) && !(r.Err? && r.error.NotPrepared?)
    ensures host.time >= old(host.time) && host.faults >= old(host.faults)
    ensures Goes(host.faults == old(host.faults) && !host.applyEnabled, host.worlds, old(host.time) + 1, host.time, host.sha256, candidate, p.before, r.Ok?)
  {
    var replacement, replacementStarted;
    replacement, replacementStarted, moment := TryCandidate(host, p, candidate);
    if replacement.Ok? {
      return Ok(()), moment;
    }
    if !replacementStarted {
      return Err(HandoffFailed(replacement.error)), moment;
    }
    ProspersShorter(host.worlds, old(host.time) + 1, host.time, host.sha256, candidate, p.before);
    r, moment := RollBack(host, p, replacement.error);
  }

  lemma ProspersShorter(worlds: nat -> World, start: nat, end: nat, sha256: Bytes -> nat, pin: Pin, before: Snapshot)
    ensures forall later: nat | end <= later && Prospers(worlds, start, later, sha256, pin, before) ::
              Prospers(worlds, start, end, sha256, pin, before)
  {
  }

  // Puts the candidate in place and releases the fence; a fence that was lost by then is a failed handoff too.
  method TryCandidate(host: Host, p: Prepared, candidate: Pin)
    returns (r: Result<(), Error>, replacementStarted: bool, ghost moment: nat)
    requires host.log == [] && host.locks == HANDOFF_LOCKS
    modifies host
    ensures if replacementStarted then |host.log| > 0 && host.log[0] == Started(Candidate, HANDOFF_LOCKS)
            else r.Err? && host.log == []
    ensures r.Ok? ==> && host.log == [Started(Candidate, HANDOFF_LOCKS), Finished(Candidate)] && !host.locks.fence
                      && IsInPlace(host.worlds, moment, host.time, host.sha256, candidate, p.before) && !host.applyEnabled
    ensures host.time >= old(host.time) && host.faults >= old(host.faults)
    ensures Goes(host.faults == old(host.faults) && !host.applyEnabled, host.worlds, old(host.time) + 1, host.time, host.sha256, candidate, p.before, r.Ok?)
  {
    var lost := host.Fault();
    if lost.Some? {
      return Err(LeaseLost), false, host.time;
    }
    r, moment := PutInPlace(host, Candidate, candidate, p.before);
    if r.Err? {
      return r, true, moment;
    }
    var error := host.Fault();
    host.locks := host.locks.(fence := false);
    return if error.Some? then Err(error.value) else Ok(()), true, moment;
  }

  // Puts the previous updater back. The error of the handoff is reported when that has worked, and only then.
  method RollBack(host: Host, p: Prepared, handoff: Error) returns (r: Result<(), Failure>, ghost moment: nat)
    requires |host.log| > 0 && host.log[0] == Started(Candidate, HANDOFF_LOCKS)
    modifies host`time, host`log, host`faults
    ensures r == Err(HandoffFailed(handoff)) || (r.Err? && r.error.RollbackFailed?)
    ensures |host.log| > 1 && host.log[0] == Started(Candidate, HANDOFF_LOCKS)
    ensures r.error.HandoffFailed? ==>
              IsRolledBack(host.log) && IsInPlace(host.worlds, moment, host.time, host.sha256, p.replaced, p.before)
    ensures host.time >= old(host.time) && host.faults >= old(host.faults)
    ensures Goes(host.faults == old(host.faults) && !host.applyEnabled, host.worlds, old(host.time) + 1, host.time, host.sha256, p.replaced, p.before, r.error.HandoffFailed?)
  {
    var restored;
    restored, moment := PutInPlace(host, Previous, p.replaced, p.before);
    return Err(if restored.Err? then RollbackFailed(restored.error) else HandoffFailed(handoff)), moment;
  }

  // ---- In terms of bytes ----

  // At some moment the fixed file, and at some moment the running process, had these bytes.
  ghost predicate RunsBytes(worlds: nat -> World, start: nat, end: nat, bytes: Bytes) {
    (exists t | start <= t < end :: worlds(t).fixed == bytes) && (exists t | start <= t < end :: worlds(t).updater.executable == bytes)
  }

  // When no two files share a digest, what runs after a success is the very binary that executed the
  // bootstrap, and what runs after a rollback is what was fixed before.
  lemma BytesInPlace(
      worlds: nat -> World, start: nat, middle: nat, moment: nat, end: nat, sha256: Bytes -> nat, p: Prepared, candidate: Pin)
    requires forall a, b :: sha256(a) == sha256(b) ==> a == b
    requires IsPrepared(worlds, start, middle, sha256, p, candidate)
    ensures IsInPlace(worlds, moment, end, sha256, candidate, p.before) ==>
              exists t | start <= t < middle :: RunsBytes(worlds, moment, end, worlds(t).self)
    ensures IsInPlace(worlds, moment, end, sha256, p.replaced, p.before) ==>
              exists t | start <= t < middle :: RunsBytes(worlds, moment, end, worlds(t).fixed)
  {
    var self :| start <= self < middle && IsPinned(sha256, candidate, worlds(self).self);
    var fixed :| start <= fixed < middle && IsPinned(sha256, p.replaced, worlds(fixed).fixed);
    OnlyPinned(sha256, candidate, worlds(self).self);
    OnlyPinned(sha256, p.replaced, worlds(fixed).fixed);
    InPlaceRuns(worlds, moment, end, sha256, candidate, p.before, worlds(self).self);
    InPlaceRuns(worlds, moment, end, sha256, p.replaced, p.before, worlds(fixed).fixed);
  }

  lemma OnlyPinned(sha256: Bytes -> nat, pin: Pin, bytes: Bytes)
    requires (forall a, b :: sha256(a) == sha256(b) ==> a == b) && IsPinned(sha256, pin, bytes)
    ensures forall b | IsPinned(sha256, pin, b) :: b == bytes
  {
  }

  lemma InPlaceRuns(worlds: nat -> World, start: nat, end: nat, sha256: Bytes -> nat, pin: Pin, before: Snapshot, bytes: Bytes)
    requires forall b | IsPinned(sha256, pin, b) :: b == bytes
    ensures IsInPlace(worlds, start, end, sha256, pin, before) ==> RunsBytes(worlds, start, end, bytes)
  {
    if IsInPlace(worlds, start, end, sha256, pin, before) {
      RunsPinned(worlds, start, end, sha256, pin, bytes);
    }
  }

  lemma RunsPinned(worlds: nat -> World, start: nat, end: nat, sha256: Bytes -> nat, pin: Pin, bytes: Bytes)
    requires IsRunning(worlds, start, end, sha256, pin) && forall b | IsPinned(sha256, pin, b) :: b == bytes
    ensures RunsBytes(worlds, start, end, bytes)
  {
    hide IsIdentity, RunsBytes, IsPinned;
    var first, second, id :| start <= first < second < end
      && IsIdentity(worlds, first, second, sha256, pin, id)
      && IsIdentity(worlds, second, end, sha256, pin, id)
      && exists t | second <= t < end :: worlds(t).clean(id.1);
    IdentityRunsPinned(worlds, first, second, sha256, pin, id, bytes);
    RunsLonger(worlds, start, first, second, end, bytes);
  }

  lemma RunsLonger(worlds: nat -> World, earlier: nat, start: nat, end: nat, later: nat, bytes: Bytes)
    requires earlier <= start && end <= later && RunsBytes(worlds, start, end, bytes)
    ensures RunsBytes(worlds, earlier, later, bytes)
  {
  }

  lemma IdentityRunsPinned(
      worlds: nat -> World, start: nat, end: nat, sha256: Bytes -> nat, pin: Pin, id: (nat, string), bytes: Bytes)
    requires IsIdentity(worlds, start, end, sha256, pin, id) && forall b | IsPinned(sha256, pin, b) :: b == bytes
    ensures RunsBytes(worlds, start, end, bytes)
  {
  }
}
