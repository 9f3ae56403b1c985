// The life of a spawned process group: every wait may end in cancellation, and the guard must leave no
// group behind. The kernel answers as it likes; what was asked and answered is kept in a log.
module ProcessGuard {
  import opened Wrappers

  datatype Signal = TERM | KILL
  datatype Presence = Present | Absent | Unknown

  datatype Waited = Exited | WaitFailed | Expired

  // What the observer, the input and the capture tasks are asked for, and what they may do.
  datatype Stage = Observing | Feeding | Capturing | Completing
  datatype Turn = Succeeds | Fails | RunsOut

  datatype Event =
    | Waiting(armed: bool, cancelled: bool)
    | Probed(presence: Presence)
    | Signalled(signal: Signal, delivered: bool)
    | LeaderKilled(ok: bool)
    | LeaderWaited(waited: Waited)
    | Turned(stage: Stage, turn: Turn)

  // A wait ends with what was waited for, or never because the whole invocation was dropped.
  datatype Flow<T> = Finished(value: T) | Cancelled

  // An event of an invocation that goes well.
  predicate IsGood(e: Event) {
    match e
    case Waiting(_, cancelled) => !cancelled
    case Probed(presence) => presence.Absent?
    case LeaderWaited(waited) => waited.Exited?
    case Turned(_, turn) => turn.Succeeds?
    case _ => false
  }

  // The first thing that went wrong.
  function FirstBad(log: seq<Event>): Option<Event> {
    if log == [] then None
    else
      var before, last := FirstBad(log[..|log| - 1]), log[|log| - 1];
      if before.Some? || IsGood(last) then before else Some(last)
  }

  lemma NextBad(log: seq<Event>, e: Event)
    ensures FirstBad(log + [e]) == if FirstBad(log).Some? || IsGood(e) then FirstBad(log) else Some(e)
  {
    assert (log + [e])[..|log|] == log;
  }

  lemma BadFirst(before: seq<Event>, e: Event, after: seq<Event>)
    requires FirstBad(before).None? && !IsGood(e) && before + [e] <= after
    ensures FirstBad(after) == Some(e)
  {
    NextBad(before, e);
    FirstBadStays(before + [e], after);
  }

  lemma {:induction false} FirstBadStays(log: seq<Event>, longer: seq<Event>)
    requires log <= longer && FirstBad(log).Some?
    ensures FirstBad(longer) == FirstBad(log)
    decreases |longer|
  {
    if |log| < |longer| {
      FirstBadStays(log, longer[..|longer| - 1]);
    } else {
      assert log == longer;
    }
  }

  predicate ReportedAbsent(log: seq<Event>) {
    Probed(Absent) in log
  }

  // Every signal was delivered.
  predicate NothingRefused(log: seq<Event>) {
    Signalled(TERM, false) !in log && Signalled(KILL, false) !in log
  }

  // The invocation was dropped at one of its waits.
  predicate WasDropped(log: seq<Event>) {
    exists k | 0 <= k < |log| :: log[k].Waiting? && log[k].cancelled
  }

  lemma DroppedWith(log: seq<Event>, e: Event)
    ensures WasDropped(log + [e]) <==> WasDropped(log) || (e.Waiting? && e.cancelled)
  {
    if k :| 0 <= k < |log| && log[k].Waiting? && log[k].cancelled {
      assert (log + [e])[k] == log[k];
    }
    if e.Waiting? && e.cancelled {
      assert (log + [e])[|log|] == e;
    }
  }

  // At every wait the guard is armed, or the group has been reported absent before.
  ghost predicate IsGuarded(log: seq<Event>) {
    forall k | 0 <= k < |log| && log[k].Waiting? && !log[k].armed :: ReportedAbsent(log[..k])
  }

  predicate SendsNoSignal(log: seq<Event>) {
    forall k | 0 <= k < |log| :: !log[k].Signalled?
  }

  // The last thing done was to kill the group and its leader.
  predicate EndsWithKill(log: seq<Event>) {
    |log| >= 2 && log[|log| - 2].Signalled? && log[|log| - 2].signal == KILL && log[|log| - 1].LeaderKilled?
  }

  // No group is left behind: it was reported absent, or killed at the very end.
  predicate IsSettled(log: seq<Event>) {
    ReportedAbsent(log) || EndsWithKill(log)
  }

  // The kernel and the clock, as one invocation sees them.
  class Kernel {
    ghost var log: seq<Event>
    var now: nat

    constructor ()
      ensures log == []
    {
      log, now := [], 0;
    }

    method Probe() returns (presence: Presence)
      modifies this
      ensures log == old(log) + [Probed(presence)] && now >= old(now)
      ensures old(IsGuarded(log)) ==> IsGuarded(log)
      ensures WasDropped(log) <==> old(WasDropped(log))
    {
      presence := *;
      log := log + [Probed(presence)];
      GuardedWith(old(log), Probed(presence));
      DroppedWith(old(log), Probed(presence));
    }

    method SignalGroup(signal: Signal) returns (delivered: bool)
      modifies this
      ensures log == old(log) + [Signalled(signal, delivered)] && now >= old(now)
      ensures old(IsGuarded(log)) ==> IsGuarded(log)
      ensures WasDropped(log) <==> old(WasDropped(log))
    {
      delivered := *;
      log := log + [Signalled(signal, delivered)];
      GuardedWith(old(log), Signalled(signal, delivered));
      DroppedWith(old(log), Signalled(signal, delivered));
    }

    method KillLeader() returns (ok: bool)
      modifies this
      ensures log == old(log) + [LeaderKilled(ok)] && now >= old(now)
      ensures old(IsGuarded(log)) ==> IsGuarded(log)
      ensures WasDropped(log) <==> old(WasDropped(log))
    {
      ok := *;
      log := log + [LeaderKilled(ok)];
      GuardedWith(old(log), LeaderKilled(ok));
      DroppedWith(old(log), LeaderKilled(ok));
    }

    // Asks the observer, the input or a capture task.
    method Ask(stage: Stage) returns (turn: Turn)
      modifies this
      ensures log == old(log) + [Turned(stage, turn)] && now >= old(now)
      ensures FirstBad(log) == if old(FirstBad(log)).Some? || turn.Succeeds? then old(FirstBad(log)) else Some(Turned(stage, turn))
      ensures old(IsGuarded(log)) ==> IsGuarded(log)
      ensures WasDropped(log) <==> old(WasDropped(log))
    {
      turn := *;
      log := log + [Turned(stage, turn)];
      NextBad(old(log), Turned(stage, turn));
      GuardedWith(old(log), Turned(stage, turn));
      DroppedWith(old(log), Turned(stage, turn));
    }

    // A wait during which the invocation may be dropped, and which takes at least some time otherwise.
    method Await(ghost armed: bool, duration: nat) returns (cancelled: bool)
      requires armed || ReportedAbsent(log)
      modifies this
      ensures log == old(log) + [Waiting(armed, cancelled)] && now >= old(now) + duration
      ensures FirstBad(log) == if old(FirstBad(log)).Some? || !cancelled then old(FirstBad(log)) else Some(Waiting(armed, cancelled))
      ensures old(IsGuarded(log)) ==> IsGuarded(log)
      ensures WasDropped(log) <==> old(WasDropped(log)) || cancelled
    {
      var longer: int := *;
      cancelled := *;
      now := now + duration + if longer > 0 then longer else 0;
      log := log + [Waiting(armed, cancelled)];
      NextBad(old(log), Waiting(armed, cancelled));
      GuardedWith(old(log), Waiting(armed, cancelled));
      DroppedWith(old(log), Waiting(armed, cancelled));
    }

    // Waits for the leader to exit.
    method AwaitLeader(ghost armed: bool) returns (r: Flow<Waited>)
      requires armed || ReportedAbsent(log)
      modifies this
      ensures log == old(log) + match r
                                case Cancelled => [Waiting(armed, true)]
                                case Finished(waited) => [Waiting(armed, false), LeaderWaited(waited)]
      ensures r == Finished(Exited) ==> LeaderWaited(Exited) in log
      ensures now >= old(now)
      ensures old(IsGuarded(log)) ==> IsGuarded(log)
      ensures WasDropped(log) <==> old(WasDropped(log)) || r.Cancelled?
    {
      var cancelled := Await(armed, 0);
      if cancelled {
        return Cancelled;
      }
      var waited: Waited := *;
      GuardedWith(log, LeaderWaited(waited));
      DroppedWith(log, LeaderWaited(waited));
      log := log + [LeaderWaited(waited)];
      return Finished(waited);
    }
  }

  lemma GuardedWith(log: seq<Event>, e: Event)
    requires e.Waiting? && !e.armed ==> ReportedAbsent(log)
    ensures IsGuarded(log) ==> IsGuarded(log + [e])
  {
    forall k | 0 <= k <= |log| ensures (log + [e])[..k] == log[..k] {}
  }

  lemma StaysIn(e: Event, before: seq<Event>, after: seq<Event>)
    requires e in before && before <= after
    ensures e in after
  {
    var k :| 0 <= k < |before| && before[k] == e;
    assert after[k] == e;
  }

  class ChildProcessGuard {
    const kernel: Kernel
    var armed: bool

    constructor (kernel: Kernel)
      ensures this.kernel == kernel && armed
    {
      this.kernel := kernel;
      armed := true;
    }

    method Disarm()
      modifies this
      ensures !armed
    {
      armed := false;
    }

    // The end of the guard's scope.
    method Drop()
      requires armed || ReportedAbsent(kernel.log)
      modifies kernel
      ensures if armed then exists delivered, ok :: kernel.log == old(kernel.log) + [Signalled(KILL, delivered), LeaderKilled(ok)]
              else kernel.log == old(kernel.log)
      ensures old(IsGuarded(kernel.log)) ==> IsGuarded(kernel.log)
      ensures IsSettled(kernel.log) && (WasDropped(kernel.log) <==> old(WasDropped(kernel.log)))
    {
      if armed {
        var delivered := kernel.SignalGroup(KILL);
        var ok := kernel.KillLeader();
        assert kernel.log == old(kernel.log) + [Signalled(KILL, delivered), LeaderKilled(ok)];
      }
    }
  }

  datatype Complaint = TermFailed | KillGroupFailed | KillLeaderFailed | WaitAfterTermFailed | WaitAfterKillFailed | NotGone

  // Kills what is left of the group after its leader, and waits until it is gone.
  method TerminateRemainingGroup(kernel: Kernel, grace: nat, ghost guard: ChildProcessGuard) returns (r: Flow<Result<bool, Complaint>>)
    requires guard.armed && IsGuarded(kernel.log)
    requires !WasDropped(kernel.log)
    modifies kernel
    ensures r.Cancelled? <==> WasDropped(kernel.log)
    ensures IsGuarded(kernel.log) && old(kernel.log) <= kernel.log
    ensures r == Finished(Ok(false)) ==> kernel.log == old(kernel.log) + [Probed(Absent)]
    ensures r == Finished(Ok(false)) || old(kernel.log) + [Probed(Present)] <= kernel.log || old(kernel.log) + [Probed(Unknown)] <= kernel.log
    ensures r == Finished(Ok(true)) ==> old(kernel.log) + [Probed(Present), Signalled(KILL, true)] <= kernel.log
                                        && kernel.log[|kernel.log| - 1] == Probed(Absent)
    ensures r.Finished? && r.value.Err? ==>
              Probed(Unknown) in kernel.log || Signalled(KILL, false) in kernel.log || kernel.now >= old(kernel.now) + grace
    ensures r.Finished? && r.value.Ok? && old(NothingRefused(kernel.log)) ==> NothingRefused(kernel.log)
    ensures r.Finished? && r.value.Ok? ==> ReportedAbsent(kernel.log) && (r.value.value ==> Signalled(KILL, true) in kernel.log)
  {
    hide IsGuarded, WasDropped, FirstBad, IsGood;
    var presence := kernel.Probe();
    if presence.Unknown? {
      return Finished(Err(NotGone));
    }
    if presence.Absent? {
      return Finished(Ok(false));
    }
    var killed := kernel.SignalGroup(KILL);
    if !killed {
      return Finished(Err(NotGone));
    }
    ghost var start := old(kernel.log) + [Probed(Present), Signalled(KILL, true)];
    assert kernel.log == start;
    var deadline := kernel.now + grace;
    while true
      invariant IsGuarded(kernel.log) && start <= kernel.log && !WasDropped(kernel.log)
      invariant old(NothingRefused(kernel.log)) ==> NothingRefused(kernel.log)
      invariant deadline >= old(kernel.now) + grace
      decreases if kernel.now < deadline then deadline - kernel.now else 0
    {
      presence := kernel.Probe();
      if presence.Unknown? {
        return Finished(Err(NotGone));
      }
      if presence.Absent? {
        assert kernel.log[|start| - 1] == Signalled(KILL, true);
        return Finished(Ok(true));
      }
      if kernel.now >= deadline {
        return Finished(Err(NotGone));
      }
      var cancelled := kernel.Await(guard.armed, 10);
      if cancelled {
        return Cancelled;
      }
    }
  }

  // Waits for the leader that has been killed.
  method ReapAfterKill(guard: ChildProcessGuard) returns (r: Flow<bool>)
    requires guard.armed && IsGuarded(guard.kernel.log)
    requires !WasDropped(guard.kernel.log)
    modifies guard.kernel
    ensures r.Cancelled? <==> WasDropped(guard.kernel.log)
    ensures IsGuarded(guard.kernel.log) && old(guard.kernel.log) <= guard.kernel.log
    ensures r == Finished(true) ==> LeaderWaited(Exited) in guard.kernel.log
    ensures old(NothingRefused(guard.kernel.log)) ==> NothingRefused(guard.kernel.log)
  {
    var waited := guard.kernel.AwaitLeader(guard.armed);
    return if waited.Cancelled? then Cancelled else Finished(waited.value.Exited?);
  }

  // Kills the group and its leader at once, and reaps the leader.
  method KillAndReap(guard: ChildProcessGuard, complaints: seq<Complaint>) returns (r: Flow<(bool, seq<Complaint>)>)
    requires guard.armed && IsGuarded(guard.kernel.log)
    requires !WasDropped(guard.kernel.log)
    modifies guard.kernel
    ensures r.Cancelled? <==> WasDropped(guard.kernel.log)
    ensures IsGuarded(guard.kernel.log) && old(guard.kernel.log) <= guard.kernel.log
    ensures exists delivered, ok :: old(guard.kernel.log) + [Signalled(KILL, delivered), LeaderKilled(ok)] <= guard.kernel.log
    ensures r.Finished? && r.value.1 == [] && old(NothingRefused(guard.kernel.log)) ==> NothingRefused(guard.kernel.log)
    ensures r.Finished? ==> complaints <= r.value.1 && (r.value.0 ==> LeaderWaited(Exited) in guard.kernel.log)
                            && (!r.value.0 ==> r.value.1 != [])
  {
    var all := complaints;
    var signalled := guard.kernel.SignalGroup(KILL);
    if !signalled {
      all := all + [KillGroupFailed];
    }
    var killed := guard.kernel.KillLeader();
    assert old(guard.kernel.log) + [Signalled(KILL, signalled), LeaderKilled(killed)] == guard.kernel.log;
    if !killed {
      all := all + [KillLeaderFailed];
    }
    var reaped := ReapAfterKill(guard);
    if reaped.Cancelled? {
      return Cancelled;
    }
    return Finished((reaped.value, if reaped.value then all else all + [WaitAfterKillFailed]));
  }

  // Gives the leader time to exit, and kills it when it does not.
  method ReapAfterTerm(guard: ChildProcessGuard, complaints: seq<Complaint>) returns (r: Flow<(bool, seq<Complaint>)>)
    requires guard.armed && IsGuarded(guard.kernel.log)
    requires !WasDropped(guard.kernel.log)
    modifies guard.kernel
    ensures r.Cancelled? <==> WasDropped(guard.kernel.log)
    ensures IsGuarded(guard.kernel.log) && old(guard.kernel.log) <= guard.kernel.log
    ensures r.Finished? && r.value.1 == [] && old(NothingRefused(guard.kernel.log)) ==> NothingRefused(guard.kernel.log)
    ensures r.Finished? ==> complaints <= r.value.1 && (r.value.0 ==> LeaderWaited(Exited) in guard.kernel.log)
                            && (!r.value.0 ==> r.value.1 != [])
  {
    hide IsGuarded, WasDropped, FirstBad, IsGood;
    var waited := guard.kernel.AwaitLeader(guard.armed);
    if waited.Cancelled? {
      return Cancelled;
    }
    if waited.value.Exited? {
      return Finished((true, complaints));
    }
    r := KillAndReap(guard, if waited.value.WaitFailed? then complaints + [WaitAfterTermFailed] else complaints);
  }

  // Ends a process that is not to go on, and the guard with it. Without a complaint the leader was reaped
  // and the group was reported absent.
  method Cleanup(guard: ChildProcessGuard, grace: nat) returns (r: Flow<seq<Complaint>>)
    requires guard.armed && IsGuarded(guard.kernel.log)
    requires !WasDropped(guard.kernel.log)
    modifies guard, guard.kernel
    ensures r.Cancelled? <==> WasDropped(guard.kernel.log)
    ensures IsGuarded(guard.kernel.log) && IsSettled(guard.kernel.log) && old(guard.kernel.log) <= guard.kernel.log
    ensures r == Finished([]) ==> LeaderWaited(Exited) in guard.kernel.log && ReportedAbsent(guard.kernel.log)
    ensures r == Finished([]) && old(NothingRefused(guard.kernel.log)) ==> NothingRefused(guard.kernel.log)
    ensures exists delivered :: old(guard.kernel.log) + [Signalled(TERM, delivered)] <= guard.kernel.log
  {
    r := EndProcess(guard, grace);
    guard.Drop();
  }

  method EndProcess(guard: ChildProcessGuard, grace: nat) returns (r: Flow<seq<Complaint>>)
    requires guard.armed && IsGuarded(guard.kernel.log)
    requires !WasDropped(guard.kernel.log)
    modifies guard, guard.kernel
    ensures r.Cancelled? <==> WasDropped(guard.kernel.log)
    ensures IsGuarded(guard.kernel.log) && (guard.armed || ReportedAbsent(guard.kernel.log))
    ensures r == Finished([]) ==> LeaderWaited(Exited) in guard.kernel.log && ReportedAbsent(guard.kernel.log)
    ensures r == Finished([]) && old(NothingRefused(guard.kernel.log)) ==> NothingRefused(guard.kernel.log)
    ensures r == Finished([]) ==> !guard.armed
    ensures exists delivered :: old(guard.kernel.log) + [Signalled(TERM, delivered)] <= guard.kernel.log
  {
    hide IsGuarded, WasDropped, FirstBad, IsGood;
    var complaints: seq<Complaint> := [];
    var told := guard.kernel.SignalGroup(TERM);
    ghost var start := guard.kernel.log;
    assert start == old(guard.kernel.log) + [Signalled(TERM, told)];
    if !told {
      complaints := complaints + [TermFailed];
    }
    var ended := ReapAfterTerm(guard, complaints);
    if ended.Cancelled? {
      return Cancelled;
    }
    var reaped;
    reaped, complaints := ended.value.0, ended.value.1;
    ghost var before := guard.kernel.log;
    var gone := TerminateRemainingGroup(guard.kernel, grace, guard);
    if gone.Cancelled? {
      return Cancelled;
    }
    if reaped {
      StaysIn(LeaderWaited(Exited), before, guard.kernel.log);
    }
    if gone.value.Err? {
      complaints := complaints + [gone.value.error];
    }
    if reaped && gone.value.Ok? {
      guard.Disarm();
    }
    return Finished(complaints);
  }

  // ---- The whole invocation, from the spawn on ----

  datatype Failure =
    | ObserverFailed(cleanup: seq<Complaint>)
    | StdinFailed(cleanup: seq<Complaint>)
    | TimedOut(cleanup: seq<Complaint>)
    | WaitingFailed(cleanup: seq<Complaint>)
    | ResidualGroup(cleanup: seq<Complaint>)
    | CaptureFailed

  // The process ran to its end by itself: the runtime never signalled it, its leader was reaped, and every
  // probe, of which there was at least one, found the group empty.
  predicate EndedByItself(log: seq<Event>) {
    && SendsNoSignal(log) && LeaderWaited(Exited) in log
    && ReportedAbsent(log) && Probed(Present) !in log && Probed(Unknown) !in log
  }

  // What a result says about what was asked of the kernel.
  predicate IsJustified(r: Flow<Result<(), Failure>>, log: seq<Event>) {
    match r
    case Cancelled => true
    case Finished(Ok(_)) => EndedByItself(log)
    case Finished(Err(CaptureFailed)) => EndedByItself(log)
    case Finished(Err(failure)) =>
      failure.cleanup == [] ==> && LeaderWaited(Exited) in log && ReportedAbsent(log)
                                && (failure.ResidualGroup? ==> Signalled(KILL, true) in log)
  }

  // The result that the first thing to go wrong leads to, unless the invocation is dropped on the way.
  predicate IsExplained(r: Flow<Result<(), Failure>>, bad: Option<Event>) {
    match bad
    case None => r == Finished(Ok(()))
    case Some(event) => r.Cancelled? || (r.value.Err? && CallsFor(event, r.value.error))
  }

  predicate CallsFor(event: Event, failure: Failure) {
    match event
    case Turned(Observing, _) => failure.ObserverFailed?
    case Turned(Feeding, turn) => if turn.Fails? then failure.StdinFailed? else failure.TimedOut?
    case Turned(Capturing, _) => failure.CaptureFailed?
    case Turned(Completing, _) => failure == ObserverFailed([])
    case LeaderWaited(waited) => if waited.WaitFailed? then failure.WaitingFailed? else failure.TimedOut?
    case Probed(_) => failure.ResidualGroup?
    case _ => false
  }

  // The leader has exited: the group must be empty before its output counts.
  method FinishExited(guard: ChildProcessGuard, captures: bool, grace: nat) returns (r: Flow<Result<(), Failure>>)
    requires guard.armed && IsGuarded(guard.kernel.log) && FirstBad(guard.kernel.log).None?
    requires SendsNoSignal(guard.kernel.log) && LeaderWaited(Exited) in guard.kernel.log
    requires forall presence :: Probed(presence) !in guard.kernel.log
    requires !WasDropped(guard.kernel.log)
    modifies guard, guard.kernel
    ensures r.Cancelled? <==> WasDropped(guard.kernel.log)
    ensures IsGuarded(guard.kernel.log) && (guard.armed || ReportedAbsent(guard.kernel.log))
    ensures IsJustified(r, guard.kernel.log) && IsExplained(r, FirstBad(guard.kernel.log))
    ensures guard.armed ==> r.Cancelled? || (r.value.Err? && r.value.error.ResidualGroup? && r.value.error.cleanup != [])
    ensures guard.armed ==> FirstBad(guard.kernel.log).Some?
  {
    ghost var before := guard.kernel.log;
    var residual := TerminateRemainingGroup(guard.kernel, grace, guard);
    StaysIn(LeaderWaited(Exited), before, guard.kernel.log);
    AfterProbing(before, guard.kernel.log);
    if residual.Cancelled? {
      return Cancelled;
    }
    if residual.value.Err? {
      return Finished(Err(ResidualGroup([residual.value.error])));
    }
    guard.Disarm();
    if residual.value.value {
      return Finished(Err(ResidualGroup([])));
    }
    r := Complete(guard, captures);
  }

  lemma AfterProbing(before: seq<Event>, after: seq<Event>)
    requires FirstBad(before).None?
    ensures after == before + [Probed(Absent)] ==> FirstBad(after).None?
    ensures before + [Probed(Present)] <= after ==> FirstBad(after) == Some(Probed(Present))
    ensures before + [Probed(Unknown)] <= after ==> FirstBad(after) == Some(Probed(Unknown))
  {
    NextBad(before, Probed(Absent));
    if before + [Probed(Present)] <= after {
      BadFirst(before, Probed(Present), after);
    }
    if before + [Probed(Unknown)] <= after {
      BadFirst(before, Probed(Unknown), after);
    }
  }

  lemma StillByItself(log: seq<Event>, e: Event)
    requires EndedByItself(log) && (e.Waiting? || e.Turned?)
    ensures EndedByItself(log + [e])
  {
  }

  // Waits for one captured stream.
  method Collect(guard: ChildProcessGuard) returns (r: Flow<Turn>)
    requires !guard.armed && IsGuarded(guard.kernel.log) && FirstBad(guard.kernel.log).None?
    requires EndedByItself(guard.kernel.log) && !WasDropped(guard.kernel.log)
    modifies guard.kernel
    ensures IsGuarded(guard.kernel.log) && EndedByItself(guard.kernel.log)
    ensures r.Cancelled? <==> WasDropped(guard.kernel.log)
    ensures FirstBad(guard.kernel.log) == if r.Cancelled? then Some(Waiting(guard.armed, true))
                                          else if r.value.Succeeds? then None else Some(Turned(Capturing, r.value))
  {
    StillByItself(guard.kernel.log, Waiting(false, false));
    StillByItself(guard.kernel.log, Waiting(false, true));
    var cancelled := guard.kernel.Await(guard.armed, 0);
    if cancelled {
      return Cancelled;
    }
    ghost var before := guard.kernel.log;
    var captured := guard.kernel.Ask(Capturing);
    StillByItself(before, Turned(Capturing, captured));
    return Finished(captured);
  }

  // Collects the captured output and tells the observer.
  method Complete(guard: ChildProcessGuard, captures: bool) returns (r: Flow<Result<(), Failure>>)
    requires !guard.armed && IsGuarded(guard.kernel.log) && FirstBad(guard.kernel.log).None?
    requires EndedByItself(guard.kernel.log) && !WasDropped(guard.kernel.log)
    modifies guard.kernel
    ensures IsGuarded(guard.kernel.log) && EndedByItself(guard.kernel.log) && IsExplained(r, FirstBad(guard.kernel.log))
    ensures r.Cancelled? <==> WasDropped(guard.kernel.log)
    ensures r.Finished? && r.value.Err? ==> r.value.error == CaptureFailed || r.value.error == ObserverFailed([])
  {
    if captures {
      for stream := 0 to 2
        invariant IsGuarded(guard.kernel.log) && EndedByItself(guard.kernel.log) && FirstBad(guard.kernel.log).None?
        invariant !WasDropped(guard.kernel.log)
      {
        var captured := Collect(guard);
        if captured.Cancelled? {
          return Cancelled;
        }
        if !captured.value.Succeeds? {
          return Finished(Err(CaptureFailed));
        }
      }
    }
    ghost var before := guard.kernel.log;
    var observed := guard.kernel.Ask(Completing);
    StillByItself(before, Turned(Completing, observed));
    return Finished(if observed.Succeeds? then Ok(()) else Err(ObserverFailed([])));
  }

  // The invocation from the spawn on. At every wait the guard is armed or the group has been reported absent;
  // in the end nothing is left behind; and the result is what the first thing to go wrong calls for: success
  // exactly when nothing has.
  method Execute(kernel: Kernel, wantsInput: bool, captures: bool, grace: nat) returns (r: Flow<Result<(), Failure>>)
    requires kernel.log == []
    modifies kernel
    ensures r.Cancelled? <==> WasDropped(kernel.log)
    ensures IsGuarded(kernel.log) && IsSettled(kernel.log)
    ensures IsJustified(r, kernel.log) && IsExplained(r, FirstBad(kernel.log))
  {
    var guard := new ChildProcessGuard(kernel);
    var observed := kernel.Ask(Observing);
    if !observed.Succeeds? {
      var complaints := Abandon(guard, grace);
      return if complaints.Cancelled? then Cancelled else Finished(Err(ObserverFailed(complaints.value)));
    }
    if wantsInput {
      var cancelled := kernel.Await(guard.armed, 0);
      if cancelled {
        DropGuard(guard);
        return Cancelled;
      }
      var written := kernel.Ask(Feeding);
      if !written.Succeeds? {
        var complaints := Abandon(guard, grace);
        return if complaints.Cancelled? then Cancelled
               else Finished(Err(if written.Fails? then StdinFailed(complaints.value) else TimedOut(complaints.value)));
      }
    }
    r := AwaitExit(guard, captures, grace);
  }

  // Waits for the leader to exit, and for what follows.
  method AwaitExit(guard: ChildProcessGuard, captures: bool, grace: nat) returns (r: Flow<Result<(), Failure>>)
    requires guard.armed && IsGuarded(guard.kernel.log) && FirstBad(guard.kernel.log).None?
    requires SendsNoSignal(guard.kernel.log) && forall presence :: Probed(presence) !in guard.kernel.log
    requires !WasDropped(guard.kernel.log)
    modifies guard, guard.kernel
    ensures r.Cancelled? <==> WasDropped(guard.kernel.log)
    ensures IsGuarded(guard.kernel.log) && IsSettled(guard.kernel.log)
    ensures IsJustified(r, guard.kernel.log) && IsExplained(r, FirstBad(guard.kernel.log))
  {
    ghost var before := guard.kernel.log;
    var waited := guard.kernel.AwaitLeader(guard.armed);
    AfterWaiting(before, waited, guard.kernel.log, guard.armed);
    if waited == Finished(Exited) {
      r := FinishExited(guard, captures, grace);
      DropGuard(guard);
    } else if waited.Cancelled? {
      DropGuard(guard);
      r := Cancelled;
    } else {
      var complaints := Abandon(guard, grace);
      r := if complaints.Cancelled? then Cancelled
           else Finished(Err(if waited.value.WaitFailed? then WaitingFailed(complaints.value) else TimedOut(complaints.value)));
    }
  }

  lemma AfterWaiting(before: seq<Event>, waited: Flow<Waited>, after: seq<Event>, armed: bool)
    requires FirstBad(before).None?
    requires after == before + match waited
                               case Cancelled => [Waiting(armed, true)]
                               case Finished(w) => [Waiting(armed, false), LeaderWaited(w)]
    ensures FirstBad(after) == match waited
                               case Cancelled => Some(Waiting(armed, true))
                               case Finished(w) => if w.Exited? then None else Some(LeaderWaited(w))
  {
    if waited.Cancelled? {
      assert after[..|after| - 1] == before;
    } else {
      assert after[..|after| - 1][..|after| - 2] == before && after[..|after| - 1] == before + [Waiting(armed, false)];
    }
  }

  // The end of the guard's scope changes nothing about what went wrong first.
  method DropGuard(guard: ChildProcessGuard)
    requires guard.armed || ReportedAbsent(guard.kernel.log)
    requires IsGuarded(guard.kernel.log) && (guard.armed ==> FirstBad(guard.kernel.log).Some?)
    modifies guard.kernel
    ensures IsGuarded(guard.kernel.log) && IsSettled(guard.kernel.log) && FirstBad(guard.kernel.log) == old(FirstBad(guard.kernel.log))
    ensures old(guard.kernel.log) <= guard.kernel.log && (!guard.armed ==> guard.kernel.log == old(guard.kernel.log))
    ensures WasDropped(guard.kernel.log) <==> old(WasDropped(guard.kernel.log))
  {
    ghost var before := guard.kernel.log;
    guard.Drop();
    if FirstBad(before).Some? {
      FirstBadStays(before, guard.kernel.log);
    }
  }

  // Cleaning up changes nothing about it either.
  method Abandon(guard: ChildProcessGuard, grace: nat) returns (r: Flow<seq<Complaint>>)
    requires guard.armed && IsGuarded(guard.kernel.log) && FirstBad(guard.kernel.log).Some?
    requires !WasDropped(guard.kernel.log)
    modifies guard, guard.kernel
    ensures r.Cancelled? <==> WasDropped(guard.kernel.log)
    ensures IsGuarded(guard.kernel.log) && IsSettled(guard.kernel.log) && FirstBad(guard.kernel.log) == old(FirstBad(guard.kernel.log))
    ensures r == Finished([]) ==> LeaderWaited(Exited) in guard.kernel.log && ReportedAbsent(guard.kernel.log)
  {
    ghost var before := guard.kernel.log;
    r := Cleanup(guard, grace);
    FirstBadStays(before, guard.kernel.log);
  }

  // ---- What this means for the group ----

  // A history of the group along a log: whether, before each event and after the last, some member is
  // alive that has not been sent the kill signal. An empty group stays empty, and a delivered kill
  // reaches every member.
  predicate IsHistory(log: seq<Event>, free: seq<bool>) {
    && |free| == |log| + 1
    && forall k | 0 <= k < |log| ::
         && (log[k] == Probed(Absent) ==> !free[k])
         && (log[k] == Signalled(KILL, true) ==> !free[k + 1])
         && (!free[k] ==> !free[k + 1])
  }

  lemma {:induction false} StaysEmpty(log: seq<Event>, free: seq<bool>, j: nat, k: nat)
    requires IsHistory(log, free) && j <= k <= |log| && !free[j]
    ensures !free[k]
    decreases k - j
  {
    if j < k {
      assert log[j] == log[j];
      StaysEmpty(log, free, j + 1, k);
    }
  }

  // Wherever the invocation is dropped, the group has nobody left that escapes: it is empty already, or
  // the guard is still armed and the drop kills it.
  lemma NobodyEscapesAtAWait(log: seq<Event>, free: seq<bool>, k: nat)
    requires IsGuarded(log) && IsHistory(log, free) && k < |log| && log[k].Waiting? && free[k]
    ensures log[k].armed
  {
    if !log[k].armed {
      assert ReportedAbsent(log[..k]);
      var j :| 0 <= j < k && log[..k][j] == Probed(Absent);
      assert log[j] == Probed(Absent);
      StaysEmpty(log, free, j, k);
    }
  }

  // When the invocation is over in whatever way, nobody in the group escapes, unless the kernel refused
  // the last kill.
  lemma NobodyEscapesAtTheEnd(log: seq<Event>, free: seq<bool>)
    requires IsSettled(log) && IsHistory(log, free) && free[|log|]
    ensures EndsWithKill(log) && !log[|log| - 2].delivered
  {
    if Probed(Absent) in log {
      var j :| 0 <= j < |log| && log[j] == Probed(Absent);
      StaysEmpty(log, free, j, |log|);
    } else if log[|log| - 2].delivered {
      StaysEmpty(log, free, |log| - 1, |log|);
    }
  }
}
