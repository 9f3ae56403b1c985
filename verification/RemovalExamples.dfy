// Runs in which a remover fails because of an opener.
module RemovalExamples {
  import opened Wrappers
  import opened WorkspaceCleanup
  import opened ConcurrentRemoval
  import opened RemovalWithOpeners
  import opened RemovalConditions

  lemma {:induction false} RunOn(s: State, first: seq<Event>, second: seq<Event>)
    requires Inv(s)
    ensures Run(s, first + second) == Run(Run(s, first), second)
    decreases |first|
  {
    if first == [] {
      assert first + second == second;
    } else {
      assert (first + second)[1..] == first[1..] + second;
      AfterKeepsInv(s, first[0]);
      RunOn(After(s, first[0]), first[1..], second);
    }
  }

  // What some events lead to, and one more.
  lemma Then(s: State, events: seq<Event>, e: Event)
    requires Inv(s)
    ensures Run(s, events + [e]) == After(Run(s, events), e)
  {
    RunOn(s, events, [e]);
    AfterKeepsInv(Run(s, events), e);
    assert Run(Run(s, events), [e]) == Run(After(Run(s, events), e), []);
  }

  // Consecutive calls of one remover, and of one opener.

  function Calls(i: nat, n: nat): seq<Event> {
    if n == 0 then [] else Calls(i, n - 1) + [Remove(i, false, false)]
  }

  function Opens(j: nat, n: nat): seq<Event> {
    if n == 0 then [] else Opens(j, n - 1) + [Open(j, false, true)]
  }

  lemma NoCalls(s: State, i: nat)
    requires Inv(s)
    ensures Run(s, Calls(i, 0)) == s == Run(s, Opens(i, 0))
  {
  }

  function At(s: State, i: nat, place: Remover): State
    requires i < |s.removers|
  {
    s.(removers := s.removers[i := place])
  }

  function OpenerAt(s: State, j: nat, place: Opener): State
    requires j < |s.openers|
  {
    s.(openers := s.openers[j := place])
  }

  // Where one more call of a remover leads.
  lemma Call(s: State, i: nat, n: nat, base: State, place: Remover, effect: Effect, next: Remover)
    requires Inv(s) && i < |base.removers| && Run(s, Calls(i, n)) == At(base, i, place)
    requires NamesInv(base) && Knows(place, |base.attempts|) && RemoverCall(base, place, false, false) == (effect, next)
    ensures IsPossible(base, effect) && Run(s, Calls(i, n + 1)) == At(Perform(base, i, effect), i, next)
  {
    var t, e := At(base, i, place), Remove(i, false, false);
    Then(s, Calls(i, n), e);
    EffectIsPossible(t, e);
    SameCall(t, base, place);
    SameEffect(base, t, i, effect);
    AfterCall(t, i);
  }

  lemma AfterCall(t: State, i: nat)
    requires Inv(t) && i < |t.removers|
    ensures Knows(t.removers[i], |t.attempts|)
    ensures var (effect, next) := RemoverCall(t, t.removers[i], false, false);
            IsPossible(t, effect) && After(t, Remove(i, false, false)) == At(Perform(t, i, effect), i, next)
  {
    hide RemoverCall, Perform, NamesInv, LocksInv;
    assert IsPlaced(t, t.removers[i], i);
    EffectIsPossible(t, Remove(i, false, false));
  }

  lemma SameCall(t: State, base: State, place: Remover)
    requires t == base.(removers := t.removers, openers := t.openers) && NamesInv(base) && Knows(place, |base.attempts|)
    ensures NamesInv(t) && RemoverCall(t, place, false, false) == RemoverCall(base, place, false, false)
  {
  }

  lemma SameEffect(base: State, t: State, i: nat, effect: Effect)
    requires t == base.(removers := t.removers, openers := t.openers)
    ensures IsPossible(t, effect) <==> IsPossible(base, effect)
    ensures IsPossible(t, effect) ==>
              Perform(t, i, effect) == Perform(base, i, effect).(removers := t.removers, openers := t.openers)
  {
  }

  // Where one more call of an opener leads.
  lemma OpenCall(s: State, j: nat, n: nat, base: State, place: Opener, effect: Effect, next: Opener)
    requires Inv(s) && j < |base.openers| && Run(s, Opens(j, n)) == OpenerAt(base, j, place)
    requires NamesInv(base) && Holds(place, |base.attempts|) && OpenerCall(base, place, false, true) == (effect, next)
    ensures IsPossible(base, effect) && Run(s, Opens(j, n + 1)) == OpenerAt(Perform(base, 0, effect), j, next)
  {
    var t, e := OpenerAt(base, j, place), Open(j, false, true);
    Then(s, Opens(j, n), e);
    SameOpenerCall(t, base, place);
    SameEffect(base, t, 0, effect);
    AfterOpenerCall(t, j);
  }

  lemma AfterOpenerCall(t: State, j: nat)
    requires Inv(t) && j < |t.openers|
    ensures Holds(t.openers[j], |t.attempts|)
    ensures var (effect, next) := OpenerCall(t, t.openers[j], false, true);
            IsPossible(t, effect) && After(t, Open(j, false, true)) == OpenerAt(Perform(t, 0, effect), j, next)
  {
    hide OpenerCall, Perform, NamesInv, LocksInv;
    assert Holds(t.openers[j], |t.attempts|);
    EffectIsPossible(t, Open(j, false, true));
  }

  lemma SameOpenerCall(t: State, base: State, place: Opener)
    requires t == base.(removers := t.removers, openers := t.openers) && NamesInv(base) && Holds(place, |base.attempts|)
    ensures NamesInv(t) && OpenerCall(t, place, false, true) == OpenerCall(base, place, false, true)
  {
  }

  // Undisturbed, a remover of a private directory is about to lock it after three calls.
  lemma Finds(s: State, i: nat, x: nat)
    requires Inv(s) && i < |s.removers| && s.removers[i] == Starting && s.name == Some(x) && IsPrivate(s.attempts[x])
    ensures Run(s, Calls(i, 3)) == At(s, i, Locking(x))
  {
    hide Run, Calls, Opens, IsPlaced, LocksInv;
    NoCalls(s, i);
    assert s == At(s, i, Starting);
    Call(s, i, 0, s, Starting, Quiet, Opening(x));
    Call(s, i, 1, s, Opening(x), Quiet, Comparing(x, x));
    Call(s, i, 2, s, Comparing(x, x), Quiet, Locking(x));
  }

  // After two more it has confirmed it.

  lemma TakesLock(s: State, i: nat, x: nat)
    requires Inv(s) && i < |s.removers| && s.removers[i] == Starting
    requires s.name == Some(x) && IsPrivate(s.attempts[x]) && x !in s.locks
    ensures Run(s, Calls(i, 4)) == At(s.(locks := s.locks[x := i]), i, Confirming(x))
  {
    hide Run, Calls, Opens, IsPlaced, LocksInv;
    Finds(s, i, x);
    Call(s, i, 3, s, Locking(x), Locks(x), Confirming(x));
  }

  lemma Confirms(s: State, i: nat, x: nat)
    requires Inv(s) && i < |s.removers| && s.removers[i] == Starting && s.late == 0
    requires s.name == Some(x) && IsPrivate(s.attempts[x]) && x !in s.locks
    ensures Run(s, Calls(i, 5)) == At(s.(locks := s.locks[x := i]), i, Clearing(x, MAX_CLEANUP_ENTRIES))
  {
    hide Run, Calls, Opens, IsPlaced, LocksInv;
    var locked := s.(locks := s.locks[x := i]);
    TakesLock(s, i, x);
    NothingLate(locked, i, x);
    Call(s, i, 4, locked, Confirming(x), Lists(x), Clearing(x, MAX_CLEANUP_ENTRIES));
  }

  lemma NothingLate(s: State, i: nat, x: nat)
    requires s.name == Some(x) && x < |s.attempts| && s.late == 0
    ensures Perform(s, i, Lists(x)) == s
  {
    assert s.attempts[x := With(s.attempts[x], 0)] == s.attempts;
  }

  // When the directory is empty, two more calls bring it to unlinking, and a third removes it.

  lemma Clears(s: State, i: nat, x: nat)
    requires Inv(s) && i < |s.removers| && s.removers[i] == Clearing(x, MAX_CLEANUP_ENTRIES)
    requires s.name == Some(x) && IsEmpty(s.attempts[x])
    ensures Run(s, Calls(i, 2)) == At(s, i, Unlinking(x))
  {
    hide Run, Calls, Opens, IsPlaced, LocksInv;
    NoCalls(s, i);
    assert s == At(s, i, Clearing(x, MAX_CLEANUP_ENTRIES));
    Call(s, i, 0, s, Clearing(x, MAX_CLEANUP_ENTRIES), Quiet, Rechecking(x));
    Call(s, i, 1, s, Rechecking(x), Quiet, Unlinking(x));
  }

  lemma Removes(s: State, i: nat, x: nat)
    requires Inv(s) && i < |s.removers| && s.removers[i] == Clearing(x, MAX_CLEANUP_ENTRIES)
    requires s.name == Some(x) && IsEmpty(s.attempts[x]) && s.late == 0
    ensures Run(s, Calls(i, 3)) == At(s.(name := None), i, Closing(Some(x), Removed))
  {
    hide Run, Calls, Opens, IsPlaced, LocksInv;
    Clears(s, i, x);
    Call(s, i, 2, s, Unlinking(x), Takes(x), Closing(Some(x), Removed));
  }

  const EMPTY: Attempt := Attempt(true, true, 0, 0)

  // ---- An attempt that is made again between the first calls of a remover ----

  // The remover has seen the directory, and the other remover removes it.
  lemma SeenAndRemoved(s: State)
    requires s == Start(2, 1, Some(EMPTY))
    ensures Run(s, Calls(0, 1) + Calls(1, 5) + Calls(1, 3))
         == s.(name := None, locks := map[0 := 1], removers := [Opening(0), Closing(Some(0), Removed)])
  {
    hide Run, Calls, Opens, IsPlaced, LocksInv;
    NoCalls(s, 0);
    assert s == At(s, 0, Starting);
    Call(s, 0, 0, s, Starting, Quiet, Opening(0));
    var seen := s.(removers := [Opening(0), Starting]);
    assert At(s, 0, Opening(0)) == seen;
    Confirms(seen, 1, 0);
    var confirmed := seen.(locks := map[0 := 1], removers := [Opening(0), Clearing(0, MAX_CLEANUP_ENTRIES)]);
    RunOn(s, Calls(0, 1), Calls(1, 5));
    assert Run(s, Calls(0, 1) + Calls(1, 5)) == confirmed;
    Removes(confirmed, 1, 0);
    RunOn(s, Calls(0, 1) + Calls(1, 5), Calls(1, 3));
  }

  lemma OpenerCanFailRemover()
    ensures exists events :: Run(Start(2, 1, Some(EMPTY)), events).removers[0] == Done(Failed(Integrity))
  {
    hide Run, Calls, Opens, Inv;
    var s := Start(2, 1, Some(EMPTY));
    var events := Calls(0, 1) + Calls(1, 5) + Calls(1, 3);
    SeenAndRemoved(s);
    var removed := s.(name := None, locks := map[0 := 1], removers := [Opening(0), Closing(Some(0), Removed)]);
    Creates(removed, 0);
    RunOn(s, events, Opens(0, 1));
    var made := removed.(attempts := [EMPTY, EMPTY], name := Some(1), openers := [Binding(Some(1))]);
    assert Run(s, events + Opens(0, 1)) == made;
    LateOpening(made, 0, 0, 1);
    RunOn(s, events + Opens(0, 1), Calls(0, 3));
    assert Run(s, events + Opens(0, 1) + Calls(0, 3)).removers[0] == Done(Failed(Integrity));
  }

  lemma LateOpening(s: State, i: nat, before: nat, now: nat)
    requires Inv(s) && i < |s.removers| && s.removers[i] == Opening(before) && s.name == Some(now) && now != before
    ensures Run(s, Calls(i, 3)) == At(s, i, Done(Failed(Integrity)))
  {
    assert IsPlaced(s, s.removers[i], i);
    hide Run, Calls, Opens, IsPlaced, LocksInv;
    NoCalls(s, i);
    assert s == At(s, i, Opening(before));
    Call(s, i, 0, s, Opening(before), Quiet, Comparing(before, now));
    Call(s, i, 1, s, Comparing(before, now), Quiet, Closing(None, Failed(Integrity)));
    Call(s, i, 2, s, Closing(None, Failed(Integrity)), Quiet, Done(Failed(Integrity)));
  }

  // ---- An undo under a confirmed remover ----

  // An opener makes a directory, opens it, sets its mode and looks at that; then it is about to look at the name
  // again.

  function Made(s: State): State {
    s.(attempts := s.attempts + [EMPTY], name := Some(|s.attempts|))
  }

  lemma Creates(s: State, j: nat)
    requires Inv(s) && j < |s.openers| && s.openers[j] == Making && s.name == None
    ensures Run(s, Opens(j, 1)) == OpenerAt(Made(s), j, Binding(Some(|s.attempts|)))
  {
    hide Run, Calls, Opens, IsPlaced, LocksInv;
    NoCalls(s, j);
    assert s == OpenerAt(s, j, Making);
    OpenCall(s, j, 0, s, Making, Effect.Creates(true), Binding(Some(|s.attempts|)));
  }

  lemma Tightened(s: State, x: nat)
    requires x < |s.attempts| && s.attempts[x] == EMPTY
    ensures Perform(s, 0, Tightens(x)) == s
  {
    assert s.attempts[x := EMPTY] == s.attempts;
  }

  lemma Binds(s: State, j: nat, x: nat)
    requires Inv(s) && j < |s.openers| && s.openers[j] == Binding(Some(x)) && s.name == Some(x) && s.attempts[x] == EMPTY
    ensures Run(s, Opens(j, 3)) == OpenerAt(s, j, Verifying(Some(x), x))
  {
    hide Run, Calls, Opens, IsPlaced, LocksInv;
    NoCalls(s, j);
    assert s == OpenerAt(s, j, Binding(Some(x)));
    OpenCall(s, j, 0, s, Binding(Some(x)), Quiet, Tightening(Some(x), x));
    Tightened(s, x);
    OpenCall(s, j, 1, s, Tightening(Some(x), x), Tightens(x), Inspecting(Some(x), x));
    OpenCall(s, j, 2, s, Inspecting(Some(x), x), Quiet, Verifying(Some(x), x));
  }

  lemma Makes(s: State)
    requires s == Start(2, 2, None)
    ensures Run(s, Opens(0, 1) + Opens(0, 3)) == s.(attempts := [EMPTY], name := Some(0), openers := [Verifying(Some(0), 0), Making])
  {
    hide Run, Calls, Opens, Inv;
    Creates(s, 0);
    Binds(Run(s, Opens(0, 1)), 0, 0);
    RunOn(s, Opens(0, 1), Opens(0, 3));
  }

  // It finds the name bound to another directory, and unlinks that.
  lemma FirstUndoes(s: State)
    requires Inv(s) && |s.openers| == 2 && s.openers[0] == Verifying(Some(0), 0)
    requires s.name == Some(1) && IsEmpty(s.attempts[1]) && s.late == 0
    ensures Run(s, Opens(0, 2)) == OpenerAt(s.(name := None, undone := s.undone + {1}), 0, GaveUp(Integrity))
  {
    hide Run, Calls, Opens, IsPlaced, LocksInv;
    NoCalls(s, 0);
    assert s == OpenerAt(s, 0, Verifying(Some(0), 0));
    OpenCall(s, 0, 0, s, Verifying(Some(0), 0), Quiet, Undoing(Some(0), Integrity));
    OpenCall(s, 0, 1, s, Undoing(Some(0), Integrity), Undoes, GaveUp(Integrity));
  }

  // The confirmed remover then finds the name gone.
  lemma SecondFails(s: State)
    requires Inv(s) && |s.removers| == 2 && s.removers[1] == Clearing(1, MAX_CLEANUP_ENTRIES) && s.name == None
    requires |s.attempts| == 2 && IsEmpty(s.attempts[1])
    ensures Run(s, Calls(1, 2)) == At(s, 1, Closing(Some(1), Failed(Unavailable)))
  {
    hide Run, Calls, Opens, IsPlaced, LocksInv;
    NoCalls(s, 1);
    assert s == At(s, 1, Clearing(1, MAX_CLEANUP_ENTRIES));
    Call(s, 1, 0, s, Clearing(1, MAX_CLEANUP_ENTRIES), Quiet, Rechecking(1));
    Call(s, 1, 1, s, Rechecking(1), Quiet, Closing(Some(1), Failed(Unavailable)));
  }

  const FIRST: seq<Event> := Opens(0, 1) + Opens(0, 3) + Calls(0, 5) + Calls(0, 3)
  const SECOND: seq<Event> := Opens(1, 1) + Calls(1, 5) + Opens(0, 2) + Calls(1, 2)

  // The directory of the first opener is removed by the first remover.
  lemma FirstHalf(s: State)
    requires s == Start(2, 2, None)
    ensures Run(s, FIRST) == s.(attempts := [EMPTY], locks := map[0 := 0], removers := [Closing(Some(0), Removed), Starting],
                                openers := [Verifying(Some(0), 0), Making])
  {
    hide Run, Calls, Opens, Inv;
    Makes(s);
    var made := s.(attempts := [EMPTY], name := Some(0), openers := [Verifying(Some(0), 0), Making]);
    Confirms(made, 0, 0);
    RunOn(s, Opens(0, 1) + Opens(0, 3), Calls(0, 5));
    var confirmed := made.(locks := map[0 := 0], removers := [Clearing(0, MAX_CLEANUP_ENTRIES), Starting]);
    assert Run(s, Opens(0, 1) + Opens(0, 3) + Calls(0, 5)) == confirmed;
    Removes(confirmed, 0, 0);
    RunOn(s, Opens(0, 1) + Opens(0, 3) + Calls(0, 5), Calls(0, 3));
  }

  // The second opener makes another, which the second remover confirms; then the first opener undoes.
  lemma SecondHalf(s: State)
    requires Inv(s) && s.attempts == [EMPTY] && s.name == None && s.late == 0 && s.locks == map[0 := 0]
    requires s.removers == [Closing(Some(0), Removed), Starting] && s.openers == [Verifying(Some(0), 0), Making]
    ensures var t := Run(s, SECOND);
            && t.removers == [Closing(Some(0), Removed), Closing(Some(1), Failed(Unavailable))]
            && t.attempts == [EMPTY, EMPTY] && t.name == None && 1 in t.undone
  {
    hide Run, Calls, Opens, Inv;
    Creates(s, 1);
    var made := s.(attempts := [EMPTY, EMPTY], name := Some(1), openers := [Verifying(Some(0), 0), Binding(Some(1))]);
    assert Run(s, Opens(1, 1)) == made;
    Confirms(made, 1, 1);
    RunOn(s, Opens(1, 1), Calls(1, 5));
    var confirmed := At(made.(locks := s.locks[1 := 1]), 1, Clearing(1, MAX_CLEANUP_ENTRIES));
    assert Run(s, Opens(1, 1) + Calls(1, 5)) == confirmed;
    FirstUndoes(confirmed);
    RunOn(s, Opens(1, 1) + Calls(1, 5), Opens(0, 2));
    SecondFails(Run(confirmed, Opens(0, 2)));
    RunOn(s, Opens(1, 1) + Calls(1, 5) + Opens(0, 2), Calls(1, 2));
  }

  lemma {:induction false} FaultlessCalls(i: nat, n: nat)
    ensures IsFaultless(Calls(i, n)) && IsFaultless(Opens(i, n))
  {
    if n > 0 {
      FaultlessCalls(i, n - 1);
    }
  }

  lemma FaultlessTogether(first: seq<Event>, second: seq<Event>)
    requires IsFaultless(first) && IsFaultless(second)
    ensures IsFaultless(first + second)
  {
  }

  lemma FaultlessHalves()
    ensures IsFaultless(FIRST + SECOND)
  {
    hide Calls, Opens, IsFaultless;
    FaultlessCalls(0, 1);
    FaultlessCalls(0, 2);
    FaultlessCalls(0, 3);
    FaultlessCalls(0, 5);
    FaultlessCalls(1, 1);
    FaultlessCalls(1, 2);
    FaultlessCalls(1, 5);
    FaultlessTogether(Opens(0, 1), Opens(0, 3));
    FaultlessTogether(Opens(0, 1) + Opens(0, 3), Calls(0, 5));
    FaultlessTogether(Opens(0, 1) + Opens(0, 3) + Calls(0, 5), Calls(0, 3));
    FaultlessTogether(Opens(1, 1), Calls(1, 5));
    FaultlessTogether(Opens(1, 1) + Calls(1, 5), Opens(0, 2));
    FaultlessTogether(Opens(1, 1) + Calls(1, 5) + Opens(0, 2), Calls(1, 2));
    FaultlessTogether(FIRST, SECOND);
  }

  // Two openers and two removers, and no call fails by itself: the undo of one opener takes away the other's
  // directory from under a remover that has confirmed it under its lock. That remover fails, and two
  // directories are gone while one remover says that it removed one.
  lemma UndoCanFailConfirmedRemover()
    ensures exists events :: IsFaultless(events) &&
              var s := Run(Start(2, 2, None), events);
              && s.removers == [Closing(Some(0), Removed), Closing(Some(1), Failed(Unavailable))]
              && |s.attempts| == 2 && s.name == None && s.undone != {}
  {
    hide Calls, Opens, IsFaultless;
    var s := Start(2, 2, None);
    FirstHalf(s);
    SecondHalf(Run(s, FIRST));
    RunOn(s, FIRST, SECOND);
    FaultlessHalves();
  }

  // ---- An entry that is written between clearing and unlinking ----

  // An opener opens a directory that exists, in five calls, and then writes into it.

  lemma OpensExisting(s: State, j: nat, x: nat)
    requires Inv(s) && j < |s.openers| && s.openers[j] == Making && s.name == Some(x) && IsPrivate(s.attempts[x])
    ensures Run(s, Opens(j, 5)) == OpenerAt(s, j, Opened(x))
  {
    hide Run, Calls, Opens, IsPlaced, LocksInv;
    NoCalls(s, j);
    assert s == OpenerAt(s, j, Making);
    OpenCall(s, j, 0, s, Making, Quiet, Binding(None));
    OpenCall(s, j, 1, s, Binding(None), Quiet, Inspecting(None, x));
    OpenCall(s, j, 2, s, Inspecting(None, x), Quiet, Verifying(None, x));
    OpenCall(s, j, 3, s, Verifying(None, x), Quiet, Syncing(None, x));
    OpenCall(s, j, 4, s, Syncing(None, x), Quiet, Opened(x));
  }

  lemma OpensAndWrites(s: State, j: nat, x: nat)
    requires Inv(s) && j < |s.openers| && s.openers[j] == Making && s.name == Some(x) && IsPrivate(s.attempts[x])
    ensures Run(s, Opens(j, 6)) == OpenerAt(s.(late := s.late + 1, written := s.written + 1), j, Opened(x))
  {
    hide Run, Calls, Opens, IsPlaced, LocksInv;
    OpensExisting(s, j, x);
    OpenCall(s, j, 5, s, Opened(x), Writes(x), Opened(x));
  }

  // A remover has confirmed an attempt under its lock and cleared it, and an opener opens it and writes into it:
  // the remover fails, and the attempt stays.
  lemma WriteCanFailConfirmedRemover()
    ensures exists events :: IsFaultless(events) &&
              var s := Run(Start(1, 1, Some(EMPTY)), events);
              s.removers == [Closing(Some(0), Failed(Unavailable))] && s.openers == [Opened(0)] && s.name == Some(0)
  {
    hide Run, Calls, Opens, Inv;
    var s := Start(1, 1, Some(EMPTY));
    var events := Calls(0, 5) + Calls(0, 2);
    Confirms(s, 0, 0);
    var confirmed := s.(locks := map[0 := 0], removers := [Clearing(0, MAX_CLEANUP_ENTRIES)]);
    assert Run(s, Calls(0, 5)) == confirmed;
    Clears(confirmed, 0, 0);
    RunOn(s, Calls(0, 5), Calls(0, 2));
    var cleared := confirmed.(removers := [Unlinking(0)]);
    assert Run(s, events) == cleared;
    OpensAndWrites(cleared, 0, 0);
    RunOn(s, events, Opens(0, 6));
    var crowded := cleared.(late := 1, written := 1, openers := [Opened(0)]);
    assert Run(s, events + Opens(0, 6)) == crowded;
    FindsEntry(crowded);
    RunOn(s, events + Opens(0, 6), Calls(0, 1));
    FaultlessCrowding();
  }

  lemma FindsEntry(s: State)
    requires Inv(s) && s.removers == [Unlinking(0)] && s.name == Some(0) && s.late == 1
    ensures Run(s, Calls(0, 1)) == At(s, 0, Closing(Some(0), Failed(Unavailable)))
  {
    hide Run, Calls, Opens, IsPlaced, LocksInv;
    NoCalls(s, 0);
    assert s == At(s, 0, Unlinking(0));
    Call(s, 0, 0, s, Unlinking(0), Quiet, Closing(Some(0), Failed(Unavailable)));
  }

  lemma FaultlessCrowding()
    ensures IsFaultless(Calls(0, 5) + Calls(0, 2) + Opens(0, 6) + Calls(0, 1))
  {
    hide Calls, Opens, IsFaultless;
    FaultlessCalls(0, 1);
    FaultlessCalls(0, 2);
    FaultlessCalls(0, 5);
    FaultlessCalls(0, 6);
    FaultlessTogether(Calls(0, 5), Calls(0, 2));
    FaultlessTogether(Calls(0, 5) + Calls(0, 2), Opens(0, 6));
    FaultlessTogether(Calls(0, 5) + Calls(0, 2) + Opens(0, 6), Calls(0, 1));
  }
}
