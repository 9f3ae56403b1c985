// The host an updater runs on: what it looks like is an arbitrary function of time, and every look at it
// sees one moment and may fail.
module UpdaterHost {
  import opened Wrappers
  import F = Framing

  type Bytes = seq<F.Byte>

  datatype Error = Config | Database | Io | InvalidRelease | Command | LeaseLost | RestoreRequired

  // The updater's service: its process and invocation, and the binary that the process executes.
  datatype Service = Service(pid: nat, invocation: string, stable: bool, executesFixed: bool, executable: Bytes)

  // The state of commands, services, migrations and releases; what the updater's messages of an invocation
  // are; the updater that each release holds; and the binary that is executing the bootstrap.
  datatype World = World(
    recovering: bool, pending: bool, gatewayApplies: bool, updaterApplies: bool, migrationsClean: bool, schema: int,
    current: string, inventoried: bool, services: Bytes, updater: Service, fixed: Bytes, clean: string -> bool,
    updaterOf: string -> Bytes, self: Bytes)

  datatype Snapshot = Snapshot(current: string, schema: int, services: Bytes)

  // A file as a digest and a length.
  datatype Pin = Pin(digest: nat, size: nat)

  datatype Binary = Candidate | Previous

  datatype Locks = Locks(host: bool, cluster: bool, fence: bool, maintenance: bool)

  datatype Event = Started(binary: Binary, locks: Locks) | Finished(binary: Binary)

  predicate IsPinned(sha256: Bytes -> nat, pin: Pin, bytes: Bytes) {
    sha256(bytes) == pin.digest && |bytes| == pin.size
  }

  // Within a stretch of time: the parts of a snapshot were seen, each at some moment, and so were an idle
  // command queue, no recovery, and Apply disabled in both services.
  ghost predicate IsSeen(worlds: nat -> World, start: nat, end: nat, s: Snapshot) {
    && (exists t | start <= t < end :: worlds(t).current == s.current)
    && (exists t | start <= t < end :: worlds(t).schema == s.schema && worlds(t).migrationsClean)
    && (exists t | start <= t < end :: worlds(t).services == s.services)
    && (exists t | start <= t < end :: !worlds(t).pending)
    && (exists t | start <= t < end :: !worlds(t).recovering)
    && (exists t | start <= t < end :: !worlds(t).gatewayApplies)
    && (exists t | start <= t < end :: !worlds(t).updaterApplies)
    && (exists t | start <= t < end :: worlds(t).inventoried)
  }

  // Nothing is going on.
  predicate IsIdle(w: World) {
    && !w.recovering && !w.pending && !w.gatewayApplies && !w.updaterApplies && w.migrationsClean && w.inventoried
  }

  // Production stays idle, and just as a snapshot says.
  ghost predicate IsUnchanged(worlds: nat -> World, start: nat, end: nat, s: Snapshot) {
    forall t | start <= t < end ::
      IsIdle(worlds(t)) && worlds(t).current == s.current && worlds(t).schema == s.schema && worlds(t).services == s.services
  }

  // The updater stably runs a binary from the fixed path.
  predicate Runs(w: World, sha256: Bytes -> nat, pin: Pin) {
    && w.updater.pid > 0 && w.updater.stable && w.updater.executesFixed
    && IsPinned(sha256, pin, w.updater.executable) && IsPinned(sha256, pin, w.fixed)
  }

  // The updater keeps running a binary in one invocation, with nothing wrong in its messages.
  ghost predicate KeepsRunning(worlds: nat -> World, start: nat, end: nat, sha256: Bytes -> nat, pin: Pin) {
    forall t | start <= t < end ::
      && Runs(worlds(t), sha256, pin) && worlds(t).updater.pid == worlds(start).updater.pid
      && worlds(t).updater.invocation == worlds(start).updater.invocation && worlds(t).clean(worlds(start).updater.invocation)
  }

  // One and the same invocation of the updater was seen running at two moments; after each, its process
  // executed the fixed path with the pinned bytes, and the fixed file had them.
  ghost predicate IsRunning(worlds: nat -> World, start: nat, end: nat, sha256: Bytes -> nat, pin: Pin) {
    exists first, second, id | start <= first < second < end ::
      && IsIdentity(worlds, first, second, sha256, pin, id)
      && IsIdentity(worlds, second, end, sha256, pin, id)
      && exists t | second <= t < end :: worlds(t).clean(id.1)
  }

  ghost predicate IsIdentity(
      worlds: nat -> World, start: nat, end: nat, sha256: Bytes -> nat, pin: Pin, id: (nat, string))
  {
    && start < end && worlds(start).updater.pid == id.0 > 0 && worlds(start).updater.invocation == id.1 && worlds(start).updater.stable
    && (exists t | start <= t < end :: worlds(t).updater.executesFixed)
    && (exists t | start <= t < end :: IsPinned(sha256, pin, worlds(t).updater.executable))
    && (exists t | start <= t < end :: IsPinned(sha256, pin, worlds(t).fixed))
  }

  // How many looks a snapshot takes.
  const SNAPSHOT_LOOKS: nat := 8

  class Host {
    const worlds: nat -> World
    const sha256: Bytes -> nat
    const applyEnabled: bool  // in the updater's own configuration
    var time: nat
    var locks: Locks
    ghost var log: seq<Event>
    ghost var faults: nat

    constructor (worlds: nat -> World, sha256: Bytes -> nat, applyEnabled: bool)
      ensures this.worlds == worlds && this.sha256 == sha256 && this.applyEnabled == applyEnabled
      ensures log == [] && locks == Locks(false, false, false, false) && faults == 0
    {
      this.worlds, this.sha256, this.applyEnabled := worlds, sha256, applyEnabled;
      time, locks, log, faults := 0, Locks(false, false, false, false), [], 0;
    }

    // Whether something fails here, is lost or takes too long; a ghost counts how often that happens.
    method Fault() returns (error: Option<Error>)
      modifies this`faults
      ensures faults == old(faults) + if error.Some? then 1 else 0
    {
      error := *;
      faults := faults + if error.Some? then 1 else 0;
    }

    // One look.
    method Look() returns (r: Result<World, Error>)
      modifies this`time, this`faults
      ensures time == old(time) + 1 && faults == old(faults) + if r.Err? then 1 else 0
      ensures r.Ok? ==> r.value == worlds(old(time))
    {
      var error := Fault();
      var now := worlds(time);
      time := time + 1;
      return if error.Some? then Err(error.value) else Ok(now);
    }

    // The state of production, taken only while Apply is disabled and nothing is going on.
    method CandidateIdleSnapshot() returns (r: Result<Snapshot, Error>)
      modifies this`time, this`faults
      ensures old(time) <= time <= old(time) + SNAPSHOT_LOOKS && faults >= old(faults)
      ensures r.Ok? ==> IsSeen(worlds, old(time), time, r.value) && !applyEnabled
      ensures faults == old(faults) && !applyEnabled && (forall t | old(time) <= t < time :: IsIdle(worlds(t))) ==> r.Ok?
    {
      if applyEnabled {
        return Err(Config);
      }
      ghost var t0 := time;
      var recovery := Look();
      if recovery.Err? || recovery.value.recovering {
        return Err(if recovery.Err? then recovery.error else Config);
      }
      var queue := Look();
      if queue.Err? || queue.value.pending {
        return Err(if queue.Err? then queue.error else Config);
      }
      var gateway := Look();
      if gateway.Err? || gateway.value.gatewayApplies {
        return Err(if gateway.Err? then gateway.error else Config);
      }
      var updater := Look();
      if updater.Err? || updater.value.updaterApplies {
        return Err(if updater.Err? then updater.error else Config);
      }
      var migrations := Look();
      if migrations.Err? || !migrations.value.migrationsClean {
        return Err(if migrations.Err? then migrations.error else InvalidRelease);
      }
      var release := Look();
      if release.Err? {
        return Err(release.error);
      }
      var inventory := Look();
      if inventory.Err? || !inventory.value.inventoried {
        return Err(if inventory.Err? then inventory.error else Config);
      }
      var shown := Look();
      if shown.Err? {
        return Err(shown.error);
      }
      assert time == t0 + SNAPSHOT_LOOKS;
      return Ok(Snapshot(release.value.current, migrations.value.schema, shown.value.services));
    }

    method UpdaterIdentity(pin: Pin) returns (r: Result<(nat, string), Error>)
      modifies this`time, this`faults
      ensures time > old(time) && faults >= old(faults)
      ensures r.Ok? ==> IsIdentity(worlds, old(time), time, sha256, pin, r.value)
      ensures faults == old(faults) && (forall t | old(time) <= t < time :: Runs(worlds(t), sha256, pin)) ==> r.Ok?
    {
      ghost var t0 := time;
      var shown := Look();
      if shown.Err? || shown.value.updater.pid == 0 || !shown.value.updater.stable {
        return Err(if shown.Err? then shown.error else Config);
      }
      var link := Look();
      if link.Err? || !link.value.updater.executesFixed {
        return Err(if link.Err? then link.error else Config);
      }
      var executable := Look();
      if executable.Err? || !IsPinned(sha256, pin, executable.value.updater.executable) {
        return Err(if executable.Err? then executable.error else InvalidRelease);
      }
      var fixed := Look();
      if fixed.Err? || !IsPinned(sha256, pin, fixed.value.fixed) {
        return Err(if fixed.Err? then fixed.error else InvalidRelease);
      }
      assert time == t0 + 4;
      return Ok((shown.value.updater.pid, shown.value.updater.invocation));
    }

    // The updater runs a binary, and goes on running it: the same invocation before and after a while, and
    // nothing wrong in its messages.
    method VerifyRunningUpdater(pin: Pin) returns (r: Result<(), Error>)
      modifies this`time, this`faults
      ensures time > old(time) && faults >= old(faults)
      ensures r.Ok? ==> IsRunning(worlds, old(time), time, sha256, pin)
      ensures faults == old(faults) && KeepsRunning(worlds, old(time), time, sha256, pin) ==> r.Ok?
    {
      ghost var first := time;
      var before := UpdaterIdentity(pin);
      if before.Err? {
        return Err(before.error);
      }
      ghost var second := time;
      var after := UpdaterIdentity(pin);
      if after.Err? {
        return Err(after.error);
      }
      if after.value != before.value {
        return Err(Config);
      }
      ghost var last := time;
      var messages := Look();
      if messages.Err? || !messages.value.clean(before.value.1) {
        return Err(if messages.Err? then messages.error else Config);
      }
      IdentityLonger(second, last, time, pin, before.value);
      assert IsIdentity(worlds, first, second, sha256, pin, before.value);
      assert worlds(last).clean(before.value.1);
      return Ok(());
    }

    lemma IdentityLonger(start: nat, end: nat, later: nat, pin: Pin, id: (nat, string))
      requires IsIdentity(worlds, start, end, sha256, pin, id) && end <= later
      ensures IsIdentity(worlds, start, later, sha256, pin, id)
    {
    }

    // Runs the helper that replaces the fixed updater with a binary and restarts the service. A failed or
    // interrupted helper may have done anything in between.
    method RunHelper(binary: Binary) returns (r: Result<(), Error>)
      modifies this`time, this`log, this`faults
      ensures time == old(time) + 1 && faults == old(faults) + if r.Err? then 1 else 0
      ensures log == old(log) + [Started(binary, locks)] + if r.Ok? then [Finished(binary)] else []
    {
      var error := Fault();
      log := log + [Started(binary, locks)];
      time := time + 1;
      if error.Some? {
        return Err(error.value);
      }
      log := log + [Finished(binary)];
      return Ok(());
    }
  }
}
