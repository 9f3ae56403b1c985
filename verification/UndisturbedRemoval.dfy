// Removers of one attempt that nobody opens or creates again. Each has a budget of its own.
module UndisturbedRemoval {
  import opened Wrappers
  import opened WorkspaceCleanup
  import opened ConcurrentRemoval
  import opened RemovalWithOpeners
  import opened RemovalConditions
  import opened FileTrees
  import opened RootCleanup

  // A run in which only removers act.
  function Events(schedule: seq<(nat, bool)>): seq<Event> {
    seq(|schedule|, k requires 0 <= k < |schedule| => Remove(schedule[k].0, schedule[k].1, false))
  }

  lemma EventsStep(schedule: seq<(nat, bool)>)
    requires schedule != []
    ensures Events(schedule) != [] && Events(schedule)[0] == Remove(schedule[0].0, schedule[0].1, false)
    ensures Events(schedule)[1..] == Events(schedule[1..])
  {
  }

  predicate SomeoneFails(s: State) {
    exists i | 0 <= i < |s.removers| :: IsFailed(s.removers[i])
  }

  predicate SomeoneAnswers(s: State, a: Answer) {
    exists i | 0 <= i < |s.removers| :: Answers(s.removers[i], a)
  }

  // There is one directory, with what cannot be deleted of it; a lock is given back with the name only by a
  // remover that has failed; and nobody finds the attempt absent while the name is bound and its lock free,
  // unless somebody has failed.
  predicate IsLone(s: State, a: Attempt) {
    && |s.attempts| == 1 && s.undone == {} && s.openers == [] && s.late == 0 && s.written == 0
    && s.attempts[0] == a.(deletable := s.attempts[0].deletable)
    && (forall i | 0 <= i < |s.removers| ::
          s.removers[i].Closing? && s.removers[i].locked.Some? && !IsFailed(s.removers[i]) ==> s.name.None?)
    && (s.name.Some? && 0 !in s.locks && SomeoneAnswers(s, Absent) ==> SomeoneFails(s))
  }

  lemma KeepsAnswers(s: State, t: State, i: nat)
    requires i < |s.removers| == |t.removers| && t.removers == s.removers[i := t.removers[i]]
    requires (s.removers[i].Closing? || s.removers[i].Done?) ==>
               (t.removers[i].Closing? || t.removers[i].Done?) && t.removers[i].answer == s.removers[i].answer
    ensures SomeoneFails(s) ==> SomeoneFails(t)
    ensures SomeoneAnswers(t, Absent) ==> SomeoneAnswers(s, Absent) || Answers(t.removers[i], Absent)
    ensures IsFailed(t.removers[i]) ==> SomeoneFails(t)
  {
    if k :| 0 <= k < |s.removers| && IsFailed(s.removers[k]) {
      assert IsFailed(t.removers[k]);
    }
    if k :| 0 <= k < |t.removers| && Answers(t.removers[k], Absent) && k != i {
      assert Answers(s.removers[k], Absent);
    }
  }

  // What a call of a remover of the only directory does to the lock and the name.
  lemma LoneCall(s: State, r: Remover, i: nat, givesUp: bool)
    requires NamesInv(s) && IsPlaced(s, r, i) && |s.attempts| == 1 && s.undone == {} && s.late == 0
    requires r.Closing? && r.locked.Some? && !IsFailed(r) ==> s.name.None?
    ensures var (effect, next) := RemoverCall(s, r, givesUp, false);
            && (r.Closing? || r.Done? ==> (next.Closing? || next.Done?) && next.answer == r.answer)
            && (Answers(next, Absent) && !Answers(r, Absent) ==> s.name.None? || 0 in s.locks)
            && (next.Closing? && next.locked.Some? && !IsFailed(next) ==> s.name.None? || effect.Takes?)
            && (effect.Unlocks? ==> effect.directory == 0 && (IsFailed(next) || s.name.None?))
            && (effect.Takes? ==> effect.held == 0 && s.name == Some(0))
            && (effect.Quiet? || !IsOfOpener(effect)) && !effect.Notices?
  {
  }

  // What the effects of such calls leave.
  lemma LoneEffect(s: State, i: nat, effect: Effect)
    requires |s.attempts| == 1 && s.late == 0 && IsPossible(s, effect)
    requires (effect.Quiet? || !IsOfOpener(effect)) && !effect.Notices? && (effect.Takes? ==> s.name == Some(effect.held))
    ensures var t := Perform(s, i, effect);
            && |t.attempts| == 1 && t.late == 0 && t.written == s.written && t.undone == s.undone
            && t.attempts[0] == s.attempts[0].(deletable := t.attempts[0].deletable)
            && t.attempts[0].deletable == s.attempts[0].deletable - (if effect.Deletes? then 1 else 0)
            && t.name == (if effect.Takes? then None else s.name)
            && (0 in t.locks <==> effect == Locks(0) || (0 in s.locks && effect != Unlocks(0)))
  {
  }

  // One call in terms of its effect.
  lemma LoneStep(s: State, a: Attempt, i: nat, givesUp: bool)
    requires Inv(s) && IsLone(s, a) && i < |s.removers|
    ensures Knows(s.removers[i], |s.attempts|) && IsPlaced(s, s.removers[i], i)
    ensures var t, (effect, next) := After(s, Remove(i, givesUp, false)), RemoverCall(s, s.removers[i], givesUp, false);
            && t.removers == s.removers[i := next] && t.openers == []
            && |t.attempts| == 1 && t.late == 0 && t.written == 0 && t.undone == {}
            && t.attempts[0] == a.(deletable := t.attempts[0].deletable)
            && t.attempts[0].deletable == s.attempts[0].deletable - (if effect.Deletes? then 1 else 0)
            && t.name == (if effect.Takes? then None else s.name)
            && (0 in t.locks <==> effect == Locks(0) || (0 in s.locks && effect != Unlocks(0)))
  {
    hide RemoverCall, Perform, IsPossible, NamesInv, LocksInv;
    assert IsPlaced(s, s.removers[i], i);
    EffectIsPossible(s, Remove(i, givesUp, false));
    LoneCall(s, s.removers[i], i, givesUp);
    LoneEffect(s, i, RemoverCall(s, s.removers[i], givesUp, false).0);
  }

  lemma StaysLone(s: State, a: Attempt, i: nat, givesUp: bool)
    requires Inv(s) && IsLone(s, a) && i < |s.removers|
    ensures IsLone(After(s, Remove(i, givesUp, false)), a)
  {
    hide After, RemoverCall, NamesInv, LocksInv, IsPlaced, Knows;
    var t := After(s, Remove(i, givesUp, false));
    LoneStep(s, a, i, givesUp);
    LoneCall(s, s.removers[i], i, givesUp);
    KeepsAnswers(s, t, i);
  }

  lemma {:induction false} RunStaysLone(s: State, a: Attempt, schedule: seq<(nat, bool)>)
    requires Inv(s) && IsLone(s, a)
    ensures IsLone(Run(s, Events(schedule)), a)
    decreases |schedule|
  {
    if schedule != [] {
      var (i, givesUp) := schedule[0];
      EventsStep(schedule);
      AfterKeepsInv(s, Remove(i, givesUp, false));
      if i < |s.removers| {
        StaysLone(s, a, i, givesUp);
      }
      RunStaysLone(After(s, Remove(i, givesUp, false)), a, schedule[1..]);
    }
  }

  predicate AllDone(s: State) {
    forall i | 0 <= i < |s.removers| :: s.removers[i].Done?
  }

  lemma NobodyHolds(s: State)
    requires Inv(s)
    ensures AllDone(s) ==> s.locks == map[]
  {
    if x :| x in s.locks {
      assert !s.removers[s.locks[x]].Done?;
    }
  }

  // ---- Attempts that can be cleared within a budget ----

  // With one directory there is no other to be bound.
  lemma {:induction false} NoRebinding(s: State, a: Attempt, schedule: seq<(nat, bool)>, i: nat)
    requires Inv(s) && IsLone(s, a) && i < |s.removers|
    ensures !MeetsRebinding(s, Events(schedule), i)
    decreases |schedule|
  {
    if schedule != [] {
      var (k, givesUp) := schedule[0];
      EventsStep(schedule);
      AfterKeepsInv(s, Remove(k, givesUp, false));
      assert IsPlaced(s, s.removers[i], i);
      if k < |s.removers| {
        StaysLone(s, a, k, givesUp);
      }
      NoRebinding(After(s, Remove(k, givesUp, false)), a, schedule[1..], i);
    }
  }

  lemma NobodyFails(removers: nat, a: Attempt, schedule: seq<(nat, bool)>)
    requires IsPrivate(a) && IsClearable(a, MAX_CLEANUP_ENTRIES)
    requires AllDone(Run(Start(removers, 0, Some(a)), Events(schedule)))
    ensures !SomeoneFails(Run(Start(removers, 0, Some(a)), Events(schedule)))
  {
    var s := Start(removers, 0, Some(a));
    RunStaysLone(s, a, schedule);
    forall i | 0 <= i < removers ensures !IsFailed(Run(s, Events(schedule)).removers[i]) {
      FailsByRebinding(removers, 0, Some(a), Events(schedule), i);
      NoRebinding(s, a, schedule, i);
    }
  }

  lemma {:induction false} AnswersAddUp(removers: seq<Remover>)
    requires forall i | 0 <= i < |removers| :: removers[i].Done?
    ensures Count(removers, Removed) + Count(removers, Absent) + CountFailed(removers) == |removers|
    ensures CountFailed(removers) > 0 <==> exists i | 0 <= i < |removers| :: IsFailed(removers[i])
    decreases |removers|
  {
    if removers != [] {
      AnswersAddUp(removers[1..]);
      if i :| 0 <= i < |removers| && IsFailed(removers[i]) && i > 0 {
        assert IsFailed(removers[1..][i - 1]);
      }
    }
  }

  function CountFailed(removers: seq<Remover>): nat {
    if removers == [] then 0 else (if IsFailed(removers[0]) then 1 else 0) + CountFailed(removers[1..])
  }

  // When all are done and nobody has failed, the name is gone.
  lemma NameGoes(s: State, a: Attempt)
    requires Inv(s) && IsLone(s, a) && IsAccounted(s) && AllDone(s) && s.removers != []
    ensures s.name.None? || SomeoneFails(s)
  {
    NobodyHolds(s);
    assert Answers(s.removers[0], Removed) ==> Count(s.removers, Removed) >= 1;
    assert Answers(s.removers[0], Absent) ==> SomeoneAnswers(s, Absent);
  }

  // ---- Attempts that cannot ----

  // The first to confirm such an attempt is doomed.
  predicate IsPristineOrFailing(s: State, a: Attempt) {
    || (exists i | 0 <= i < |s.removers| :: HasFailed(s, s.removers[i]))
    || (s.attempts == [a] && s.name == Some(0) && forall i | 0 <= i < |s.removers| :: !IsConfirmed(s.removers[i]))
  }

  lemma PristineCall(s: State, a: Attempt, r: Remover, i: nat, givesUp: bool)
    requires NamesInv(s) && IsPlaced(s, r, i) && s.attempts == [a] && s.name == Some(0) && !IsConfirmed(r) && s.late == 0
    requires !IsClearable(a, MAX_CLEANUP_ENTRIES)
    ensures var (effect, next) := RemoverCall(s, r, givesUp, false);
            && (effect.Quiet? || effect.Locks? || effect.Unlocks? || effect == Lists(0))
            && (IsConfirmed(next) ==> next == Clearing(0, MAX_CLEANUP_ENTRIES))
  {
  }

  lemma StaysPristineOrFailing(s: State, a: Attempt, i: nat, givesUp: bool)
    requires Inv(s) && IsLone(s, a) && IsPristineOrFailing(s, a) && i < |s.removers|
    requires !IsClearable(a, MAX_CLEANUP_ENTRIES)
    ensures IsPristineOrFailing(After(s, Remove(i, givesUp, false)), a)
  {
    var e := Remove(i, givesUp, false);
    var t := After(s, e);
    assert IsPlaced(s, s.removers[i], i);
    if k :| 0 <= k < |s.removers| && HasFailed(s, s.removers[k]) {
      TripsStep(s, e, k);
      assert HasFailed(t, t.removers[k]);
    } else {
      PristineCall(s, a, s.removers[i], i, givesUp);
      if IsConfirmed(t.removers[i]) {
        assert HasFailed(t, t.removers[i]);
      }
    }
  }

  lemma {:induction false} RunStaysPristineOrFailing(s: State, a: Attempt, schedule: seq<(nat, bool)>)
    requires Inv(s) && IsLone(s, a) && IsPristineOrFailing(s, a) && !IsClearable(a, MAX_CLEANUP_ENTRIES)
    ensures IsPristineOrFailing(Run(s, Events(schedule)), a)
    decreases |schedule|
  {
    if schedule != [] {
      var (i, givesUp) := schedule[0];
      EventsStep(schedule);
      AfterKeepsInv(s, Remove(i, givesUp, false));
      if i < |s.removers| {
        StaysLone(s, a, i, givesUp);
        StaysPristineOrFailing(s, a, i, givesUp);
      }
      RunStaysPristineOrFailing(After(s, Remove(i, givesUp, false)), a, schedule[1..]);
    }
  }

  lemma SomeoneCannotClear(removers: nat, a: Attempt, schedule: seq<(nat, bool)>)
    requires removers > 0 && !IsClearable(a, MAX_CLEANUP_ENTRIES)
    requires AllDone(Run(Start(removers, 0, Some(a)), Events(schedule)))
    ensures SomeoneFails(Run(Start(removers, 0, Some(a)), Events(schedule)))
  {
    var s := Start(removers, 0, Some(a));
    var t := Run(s, Events(schedule));
    NobodyAnswered(removers, Removed);
    RunKeepsAccount(s, Events(schedule));
    RunStaysLone(s, a, schedule);
    RunStaysPristineOrFailing(s, a, schedule);
    NameGoes(t, a);
  }

  // Nobody goes beyond the first look at a directory that is not private.
  predicate AreRejected(s: State, a: Attempt) {
    && s.attempts == [a] && s.name == Some(0)
    && forall i | 0 <= i < |s.removers| :: s.removers[i] in {Starting, Closing(None, Failed(Integrity)), Done(Failed(Integrity))}
  }

  lemma {:induction false} RunStaysRejected(s: State, a: Attempt, schedule: seq<(nat, bool)>)
    requires Inv(s) && AreRejected(s, a) && !IsPrivate(a)
    ensures AreRejected(Run(s, Events(schedule)), a)
    decreases |schedule|
  {
    if schedule != [] {
      var (i, givesUp) := schedule[0];
      EventsStep(schedule);
      AfterKeepsInv(s, Remove(i, givesUp, false));
      if i < |s.removers| {
        assert IsPlaced(s, s.removers[i], i);
        RejectedCall(s, a, s.removers[i], givesUp);
      }
      RunStaysRejected(After(s, Remove(i, givesUp, false)), a, schedule[1..]);
    }
  }

  lemma RejectedCall(s: State, a: Attempt, r: Remover, givesUp: bool)
    requires NamesInv(s) && s.attempts == [a] && s.name == Some(0) && !IsPrivate(a)
    requires r in {Starting, Closing(None, Failed(Integrity)), Done(Failed(Integrity))}
    ensures RemoverCall(s, r, givesUp, false).0.Quiet?
    ensures RemoverCall(s, r, givesUp, false).1 in {Starting, Closing(None, Failed(Integrity)), Done(Failed(Integrity))}
  {
  }

  // ---- The exact condition ----

  predicate IsOneRemoval(s: State) {
    Count(s.removers, Removed) == 1 && Count(s.removers, Absent) == |s.removers| - 1
  }

  // Every complete interleaving of one or more removers ends with exactly one of them removing the attempt and
  // all others finding it absent, so without a failure, if and only if the attempt is private and everything in
  // it can be deleted within the budget of one remover. Then the name is gone, the directory empty and every
  // lock free.
  lemma ExactlyOneRemoves(removers: nat, a: Attempt, schedule: seq<(nat, bool)>)
    requires removers > 0 && AllDone(Run(Start(removers, 0, Some(a)), Events(schedule)))
    ensures var s := Run(Start(removers, 0, Some(a)), Events(schedule));
            && |s.attempts| == 1
            && (IsOneRemoval(s) <==> IsPrivate(a) && IsClearable(a, MAX_CLEANUP_ENTRIES))
            && (!SomeoneFails(s) <==> IsOneRemoval(s))
            && (IsOneRemoval(s) ==> s.name == None && IsEmpty(s.attempts[0]) && s.locks == map[])
  {
    var start := Start(removers, 0, Some(a));
    var s := Run(start, Events(schedule));
    NobodyAnswered(removers, Removed);
    RunKeepsAccount(start, Events(schedule));
    RunStaysLone(start, a, schedule);
    NobodyHolds(s);
    NameGoes(s, a);
    AnswersAddUp(s.removers);
    if !IsPrivate(a) {
      RunStaysRejected(start, a, schedule);
      assert IsFailed(s.removers[0]);
    } else if !IsClearable(a, MAX_CLEANUP_ENTRIES) {
      SomeoneCannotClear(removers, a, schedule);
    } else {
      NobodyFails(removers, a, schedule);
    }
  }

  // ---- Beyond the condition ----

  // How much of its budget a remover may have spent.
  function Charge(r: Remover): nat {
    if r.Clearing? then if r.budget <= MAX_CLEANUP_ENTRIES then MAX_CLEANUP_ENTRIES - r.budget else 0
    else if r.Rechecking? || r.Unlinking? || Answers(r, Removed) || IsFailed(r) then MAX_CLEANUP_ENTRIES
    else 0
  }

  function Charges(removers: seq<Remover>): nat {
    if removers == [] then 0 else Charge(removers[0]) + Charges(removers[1..])
  }

  lemma {:induction false} ChargesAt(removers: seq<Remover>, i: nat, place: Remover)
    requires i < |removers|
    ensures Charges(removers[i := place]) == Charges(removers) - Charge(removers[i]) + Charge(place)
  {
    if i > 0 {
      assert removers[i := place][1..] == removers[1..][i - 1 := place];
      ChargesAt(removers[1..], i - 1, place);
    } else {
      assert removers[i := place][1..] == removers[1..];
    }
  }

  lemma ChargeCall(s: State, r: Remover, i: nat, givesUp: bool)
    requires NamesInv(s) && IsPlaced(s, r, i)
    ensures var (effect, next) := RemoverCall(s, r, givesUp, false);
            Charge(next) >= Charge(r) + (if effect.Deletes? then 1 else 0)
  {
  }

  lemma StepKeepsCharges(s: State, a: Attempt, i: nat, givesUp: bool)
    requires Inv(s) && IsLone(s, a) && i < |s.removers|
    ensures var t := After(s, Remove(i, givesUp, false));
            |t.attempts| == 1 && s.attempts[0].deletable + Charges(s.removers) <= t.attempts[0].deletable + Charges(t.removers)
  {
    hide After, RemoverCall, LocksInv, IsPlaced, Knows, Charge;
    LoneStep(s, a, i, givesUp);
    ChargeCall(s, s.removers[i], i, givesUp);
    ChargesAt(s.removers, i, RemoverCall(s, s.removers[i], givesUp, false).1);
  }

  lemma {:induction false} RunKeepsCharges(s: State, a: Attempt, schedule: seq<(nat, bool)>)
    requires Inv(s) && IsLone(s, a) && a.deletable <= s.attempts[0].deletable + Charges(s.removers)
    ensures var t := Run(s, Events(schedule)); |t.attempts| == 1 && a.deletable <= t.attempts[0].deletable + Charges(t.removers)
    decreases |schedule|
  {
    if schedule != [] {
      var (i, givesUp) := schedule[0];
      EventsStep(schedule);
      AfterKeepsInv(s, Remove(i, givesUp, false));
      if i < |s.removers| {
        StaysLone(s, a, i, givesUp);
        StepKeepsCharges(s, a, i, givesUp);
      }
      RunKeepsCharges(After(s, Remove(i, givesUp, false)), a, schedule[1..]);
    }
  }

  lemma {:induction false} ChargesOfDone(removers: seq<Remover>)
    requires forall i | 0 <= i < |removers| :: removers[i].Done?
    ensures Charges(removers) == MAX_CLEANUP_ENTRIES * (Count(removers, Removed) + CountFailed(removers))
    decreases |removers|
  {
    if removers != [] {
      ChargesOfDone(removers[1..]);
    }
  }

  lemma {:induction false} NothingCharged(n: nat)
    ensures Charges(seq(n, _ => Starting)) == 0
    decreases n
  {
    if n > 0 {
      assert seq(n, _ => Starting)[1..] == seq(n - 1, _ => Starting);
      NothingCharged(n - 1);
    }
  }

  // Whatever the attempt: removers that follow one another under the lock delete no more than a budget each,
  // and what cannot be deleted stays. The name goes only when the directory is empty, by exactly one of them;
  // so an attempt of more entries than a budget goes only after enough others have failed.
  lemma PartialRemovals(removers: nat, a: Attempt, schedule: seq<(nat, bool)>)
    requires AllDone(Run(Start(removers, 0, Some(a)), Events(schedule)))
    ensures var s := Run(Start(removers, 0, Some(a)), Events(schedule));
            && |s.attempts| == 1 && s.attempts[0].stuck == a.stuck && s.attempts[0].deletable <= a.deletable
            && a.deletable - s.attempts[0].deletable
               <= MAX_CLEANUP_ENTRIES * (Count(s.removers, Removed) + CountFailed(s.removers))
            && Count(s.removers, Removed) == (if s.name.None? then 1 else 0)
            && (s.name.None? ==> a.stuck == 0 && a.deletable <= MAX_CLEANUP_ENTRIES * (1 + CountFailed(s.removers)))
  {
    var start := Start(removers, 0, Some(a));
    var s := Run(start, Events(schedule));
    NobodyAnswered(removers, Removed);
    RunKeepsAccount(start, Events(schedule));
    RunStaysLone(start, a, schedule);
    NothingCharged(removers);
    RunKeepsCharges(start, a, schedule);
    ChargesOfDone(s.removers);
    OnlyFewer(start, a, schedule);
  }

  lemma {:induction false} OnlyFewer(s: State, a: Attempt, schedule: seq<(nat, bool)>)
    requires Inv(s) && IsLone(s, a) && s.attempts[0].deletable <= a.deletable
    ensures var t := Run(s, Events(schedule)); |t.attempts| == 1 && t.attempts[0].deletable <= a.deletable
    decreases |schedule|
  {
    if schedule != [] {
      var (i, givesUp) := schedule[0];
      EventsStep(schedule);
      AfterKeepsInv(s, Remove(i, givesUp, false));
      if i < |s.removers| {
        StaysLone(s, a, i, givesUp);
        LoneStep(s, a, i, givesUp);
      }
      OnlyFewer(After(s, Remove(i, givesUp, false)), a, schedule[1..]);
    }
  }

  // ---- Attempts in a file system ----

  // The attempt that an entry of the root is. When something in it cannot be deleted, at least one entry is
  // stuck; which others are does not matter.
  function AttemptOf(fs: Inodes, user: nat, device: nat, entry: Dirent): Attempt {
    var size := Size(fs, EntriesOf(fs, entry.id), ROOT_LEVELS - 1);
    var owned := IsDirectory(fs, entry.id) && fs[entry.id].owner == user && entry.id.device == device;
    var exact := entry.id in fs && fs[entry.id].mode == RWXU;
    if size == 0 || (IsDirectory(fs, entry.id) && ClearableAt(fs, user, device, entry.id, ROOT_LEVELS - 1))
    then Attempt(owned, exact, size, 0) else Attempt(owned, exact, size - 1, 1)
  }

  lemma AttemptMeaning(fs: Inodes, user: nat, device: nat, entry: Dirent)
    ensures var a := AttemptOf(fs, user, device, entry);
            && a.deletable + a.stuck == Size(fs, EntriesOf(fs, entry.id), ROOT_LEVELS - 1)
            && (IsPrivate(a) && IsClearable(a, MAX_CLEANUP_ENTRIES)
                <==> IsRemovable(fs, user, device, entry)
                     && Size(fs, EntriesOf(fs, entry.id), ROOT_LEVELS - 1) <= MAX_CLEANUP_ENTRIES)
  {
    if Size(fs, EntriesOf(fs, entry.id), ROOT_LEVELS - 1) == 0 {
      SizeCounts(fs, EntriesOf(fs, entry.id), ROOT_LEVELS - 1);
      assert EntriesOf(fs, entry.id) == [] && Clearable(fs, user, device, [], ROOT_LEVELS - 1);
      assert IsDirectory(fs, entry.id) ==> ClearableAt(fs, user, device, entry.id, ROOT_LEVELS - 1);
    }
  }

  // So any number of removers of a directory end with exactly one removal under the very condition under which
  // a single one removes it.
  lemma ManyRemoveLikeOne(
      fs: Inodes, user: nat, device: nat, entry: Dirent, removers: nat, schedule: seq<(nat, bool)>)
    requires removers > 0 && AllDone(Run(Start(removers, 0, Some(AttemptOf(fs, user, device, entry))), Events(schedule)))
    ensures IsOneRemoval(Run(Start(removers, 0, Some(AttemptOf(fs, user, device, entry))), Events(schedule)))
       <==> IsRemovable(fs, user, device, entry)
            && Size(fs, EntriesOf(fs, entry.id), ROOT_LEVELS - 1) <= MAX_CLEANUP_ENTRIES
  {
    ExactlyOneRemoves(removers, AttemptOf(fs, user, device, entry), schedule);
    AttemptMeaning(fs, user, device, entry);
  }
}
