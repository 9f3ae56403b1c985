// What removers of an attempt can rely on while openers open and create it. An opener that fails after it has
// made a directory undoes that by unlinking the name, without a lock, whatever the name is bound to by then.
// All the results turn on this undo.
module RemovalWithOpeners {
  import opened Wrappers
  import opened WorkspaceCleanup
  import opened ConcurrentRemoval

  // ---- Discipline: a confirmed remover has the name bound to what it holds ----

  predicate IsDisciplined(s: State) {
    forall i | 0 <= i < |s.removers| && IsConfirmed(s.removers[i]) :: s.name == Some(s.removers[i].held)
  }

  // An undo takes the name from under a confirmed remover.
  predicate Undercuts(s: State, e: Event)
    requires Inv(s)
  {
    EffectOf(s, e).Undoes? && exists i | 0 <= i < |s.removers| :: IsConfirmed(s.removers[i]) && s.name == Some(s.removers[i].held)
  }

  // Between disciplined states, a name is only taken by the holder, and there is one holder.
  lemma DisciplinedTaking(s: State, i: nat, givesUp: bool, notices: bool, k: nat)
    requires Inv(s) && IsDisciplined(s) && i < |s.removers| && k < |s.removers| && i != k
    requires EffectOf(s, Remove(i, givesUp, notices)).Takes?
    ensures s.name == Some(EffectOf(s, Remove(i, givesUp, notices)).held) && !IsConfirmed(s.removers[k])
  {
    assert IsPlaced(s, s.removers[i], i) && IsPlaced(s, s.removers[k], k);
  }

  lemma CallStaysDisciplined(s: State, r: Remover, i: nat, givesUp: bool, notices: bool)
    requires NamesInv(s) && IsPlaced(s, r, i) && (IsConfirmed(r) ==> s.name == Some(r.held))
    ensures var (effect, next) := RemoverCall(s, r, givesUp, notices);
            && IsPossible(s, effect)
            && (IsConfirmed(next) ==> Perform(s, i, effect).name == Some(next.held))
            && (!effect.Takes? ==> Perform(s, i, effect).name == s.name)
  {
  }

  lemma RemoverStaysDisciplined(s: State, i: nat, givesUp: bool, notices: bool)
    requires Inv(s) && IsDisciplined(s) && i < |s.removers|
    ensures IsDisciplined(After(s, Remove(i, givesUp, notices)))
  {
    hide RemoverCall, Perform, IsPossible, LocksInv, NamesInv;
    var t := After(s, Remove(i, givesUp, notices));
    assert IsPlaced(s, s.removers[i], i);
    CallStaysDisciplined(s, s.removers[i], i, givesUp, notices);
    forall k | 0 <= k < |t.removers| && IsConfirmed(t.removers[k]) ensures t.name == Some(t.removers[k].held) {
      if k != i && EffectOf(s, Remove(i, givesUp, notices)).Takes? {
        DisciplinedTaking(s, i, givesUp, notices, k);
      }
    }
  }

  lemma OpenerAndDiscipline(s: State, j: nat, fails: bool, exact: bool)
    requires Inv(s) && IsDisciplined(s) && j < |s.openers|
    ensures IsDisciplined(After(s, Open(j, fails, exact))) <==> !Undercuts(s, Open(j, fails, exact))
  {
    assert Holds(s.openers[j], |s.attempts|);
    OpenerCallIsFit(s, s.openers[j], fails, exact);
    var t := After(s, Open(j, fails, exact));
    assert t.removers == s.removers;
    if i :| 0 <= i < |s.removers| && IsConfirmed(s.removers[i]) && s.name == Some(s.removers[i].held) {
      assert t.removers[i] == s.removers[i];
    }
  }

  predicate StaysDisciplined(s: State, events: seq<Event>)
    requires Inv(s)
    decreases |events|
  {
    IsDisciplined(s) && (events != [] ==> Inv(After(s, events[0])) && StaysDisciplined(After(s, events[0]), events[1..]))
  }

  predicate IsUndercut(s: State, events: seq<Event>)
    requires Inv(s)
    decreases |events|
  {
    events != [] && (Undercuts(s, events[0]) || (Inv(After(s, events[0])) && IsUndercut(After(s, events[0]), events[1..])))
  }

  // Over every run from a disciplined state, all removers stay disciplined if and only if no undo takes the
  // name from under a confirmed one.
  lemma {:induction false} DisciplineExactly(s: State, events: seq<Event>)
    requires Inv(s) && IsDisciplined(s)
    ensures StaysDisciplined(s, events) <==> !IsUndercut(s, events)
    decreases |events|
  {
    if events != [] {
      var e := events[0];
      AfterKeepsInv(s, e);
      DisciplineStep(s, e);
      if IsDisciplined(After(s, e)) {
        DisciplineExactly(After(s, e), events[1..]);
      }
    }
  }

  lemma DisciplineStep(s: State, e: Event)
    requires Inv(s) && IsDisciplined(s)
    ensures IsDisciplined(After(s, e)) <==> !Undercuts(s, e)
  {
    match e
    case Remove(i, givesUp, notices) =>
      if i < |s.removers| {
        RemoverStaysDisciplined(s, i, givesUp, notices);
        assert IsPlaced(s, s.removers[i], i);
      }
    case Open(j, fails, exact) => if j < |s.openers| { OpenerAndDiscipline(s, j, fails, exact); }
  }

  // ---- Who deletes, and who takes the name ----

  predicate ByHolder(s: State, e: Event)
    requires s.name.Some?
  {
    e.Remove? && s.name.value in s.locks && s.locks[s.name.value] == e.remover
  }

  // The entries of a directory, those that were written since it was last listed included.
  function Entries(s: State, x: nat): nat
    requires x < |s.attempts|
  {
    s.attempts[x].deletable + if s.name == Some(x) then s.late else 0
  }

  predicate ByOpener(s: State, e: Event, x: nat) {
    e.Open? && e.opener < |s.openers| && s.openers[e.opener] == Opened(x)
  }

  // The same of an effect: who takes the name of a directory holds its lock or does not.
  lemma WhatEffectsDo(s: State, i: nat, effect: Effect, x: nat)
    requires NamesInv(s) && LocksInv(s) && IsFit(s, i, effect) && x < |s.attempts|
    ensures var t := Perform(s, i, effect);
            && (Entries(t, x) < Entries(s, x) ==> s.name == Some(x) && effect.Deletes? && x in s.locks && s.locks[x] == i)
            && (Entries(t, x) > Entries(s, x) ==> s.name == Some(x) && effect == Writes(x))
            && t.attempts[x].stuck == s.attempts[x].stuck
            && (s.name == Some(x) && t.name != s.name ==>
                  && t.name == None && Entries(s, x) == 0 && s.attempts[x].stuck == 0 && (effect.Takes? || effect.Undoes?)
                  && (effect.Takes? && x in s.locks && s.locks[x] == i <==> x !in t.undone && x !in t.strayed))
  {
    hide LockOf;
  }

  // What the effects of events are.
  lemma EffectsOfEvents(s: State, e: Event)
    requires Inv(s)
    ensures e.Remove? ==> !IsOfOpener(EffectOf(s, e)) || EffectOf(s, e).Quiet?
    ensures e.Open? && EffectOf(s, e).Writes? ==> ByOpener(s, e, EffectOf(s, e).directory)
  {
    hide NamesInv, LocksInv;
    match e
    case Remove(i, givesUp, notices) =>
      if i < |s.removers| {
        assert IsPlaced(s, s.removers[i], i);
        RemoverEffects(s, s.removers[i], givesUp, notices);
      }
    case Open(j, fails, exact) =>
      if j < |s.openers| {
        assert Holds(s.openers[j], |s.attempts|);
      }
  }

  // Entries go only from the directory bound to the name, by the holder of its lock, and come only into that, by
  // openers that hold it. The name goes only from an empty directory, and by the holder of its lock unless it is
  // lost.
  lemma OnlyHolderRemoves(s: State, e: Event, x: nat)
    requires Inv(s) && x < |s.attempts|
    ensures var t := After(s, e);
            && (Entries(t, x) < Entries(s, x) ==> s.name == Some(x) && ByHolder(s, e))
            && (Entries(t, x) > Entries(s, x) ==> s.name == Some(x) && ByOpener(s, e, x))
            && t.attempts[x].stuck == s.attempts[x].stuck
            && (s.name == Some(x) && t.name != s.name ==>
                  && t.name == None && Entries(s, x) == 0 && s.attempts[x].stuck == 0
                  && (ByHolder(s, e) <==> x !in t.undone && x !in t.strayed))
  {
    hide Perform, EffectOf, After, IsFit;
    AfterIsEffect(s, e);
    EffectsOfEvents(s, e);
    WhatEffectsDo(s, ActorOf(e), EffectOf(s, e), x);
  }

  // The history only grows.

  lemma HistoryOfEffect(s: State, i: nat, effect: Effect)
    requires IsPossible(s, effect)
    ensures var t := Perform(s, i, effect);
            && s.strayed <= t.strayed && s.written <= t.written && (s.late < t.late ==> s.written < t.written)
            && (t.undone == s.undone || (s.name.Some? && t.name.None? && t.undone == s.undone + {s.name.value}))
  {
  }

  lemma HistoryStep(s: State, e: Event)
    requires Inv(s)
    ensures var t := After(s, e);
            && s.strayed <= t.strayed && s.written <= t.written && (s.late < t.late ==> s.written < t.written)
            && (t.undone == s.undone || (s.name.Some? && t.name.None? && t.undone == s.undone + {s.name.value}))
  {
    hide Perform, EffectOf, After;
    AfterIsEffect(s, e);
    HistoryOfEffect(s, ActorOf(e), EffectOf(s, e));
  }

  lemma {:induction false} HistoryGrows(s: State, events: seq<Event>)
    requires Inv(s)
    ensures s.undone <= Run(s, events).undone && s.strayed <= Run(s, events).strayed && s.written <= Run(s, events).written
    decreases |events|
  {
    if events != [] {
      AfterKeepsInv(s, events[0]);
      HistoryStep(s, events[0]);
      HistoryGrows(After(s, events[0]), events[1..]);
    }
  }

  // Whenever the name is taken, it is by the holder of the lock on the directory it was bound to.
  predicate AreByHolders(s: State, events: seq<Event>)
    requires Inv(s)
    decreases |events|
  {
    events != [] ==>
      && Inv(After(s, events[0])) && AreByHolders(After(s, events[0]), events[1..])
      && (s.name.Some? && After(s, events[0]).name != s.name ==> ByHolder(s, events[0]))
  }

  // Over every run, the name is only ever taken by the holder if and only if no undo takes it.
  lemma {:induction false} HoldersExactly(s: State, events: seq<Event>)
    requires Inv(s) && s.undone == {}
    ensures AreByHolders(s, events) <==> Run(s, events).undone == {}
    decreases |events|
  {
    if events != [] {
      var e := events[0];
      var t := After(s, e);
      AfterKeepsInv(s, e);
      if s.name.Some? {
        OnlyHolderRemoves(s, e, s.name.value);
      }
      HistoryStep(s, e);
      if t.undone == {} {
        HoldersExactly(t, events[1..]);
      } else {
        HistoryGrows(t, events[1..]);
      }
    }
  }

  // ---- The account of names ----

  predicate Answers(r: Remover, a: Answer) {
    (r.Closing? || r.Done?) && r.answer == a
  }

  function Count(removers: seq<Remover>, a: Answer): (n: nat)
    ensures n <= |removers|
  {
    if removers == [] then 0 else (if Answers(removers[0], a) then 1 else 0) + Count(removers[1..], a)
  }

  lemma {:induction false} CountAt(removers: seq<Remover>, i: nat, place: Remover, a: Answer)
    requires i < |removers|
    ensures Count(removers[i := place], a)
         == Count(removers, a) - (if Answers(removers[i], a) then 1 else 0) + (if Answers(place, a) then 1 else 0)
  {
    if i > 0 {
      assert removers[i := place][1..] == removers[1..][i - 1 := place];
      CountAt(removers[1..], i - 1, place, a);
    } else {
      assert removers[i := place][1..] == removers[1..];
    }
  }

  // Every directory the attempt has had is bound to the name, or was removed by a remover that says so, or its
  // name was taken by an undo.
  predicate IsAccounted(s: State) {
    Count(s.removers, Removed) + |s.undone| + (if s.name.Some? then 1 else 0) == |s.attempts|
  }

  // A remover comes to answer that it removed something just when it takes the name.
  lemma AnswersWhenTaking(s: State, i: nat, givesUp: bool, notices: bool)
    requires Inv(s) && i < |s.removers|
    ensures Answers(After(s, Remove(i, givesUp, notices)).removers[i], Removed)
       <==> Answers(s.removers[i], Removed) || EffectOf(s, Remove(i, givesUp, notices)).Takes?
    ensures EffectOf(s, Remove(i, givesUp, notices)).Takes? ==> !Answers(s.removers[i], Removed)
  {
    assert IsPlaced(s, s.removers[i], i);
  }

  lemma RemoverKeepsAccount(s: State, i: nat, givesUp: bool, notices: bool)
    requires Inv(s) && IsAccounted(s) && i < |s.removers|
    ensures IsAccounted(After(s, Remove(i, givesUp, notices)))
  {
    assert IsPlaced(s, s.removers[i], i);
    RemoverCallIsFit(s, s.removers[i], i, givesUp, notices);
    AnswersWhenTaking(s, i, givesUp, notices);
    CountAt(s.removers, i, After(s, Remove(i, givesUp, notices)).removers[i], Removed);
    RemoverEffects(s, s.removers[i], givesUp, notices);
  }

  lemma RemoverEffects(s: State, r: Remover, givesUp: bool, notices: bool)
    requires NamesInv(s) && Knows(r, |s.attempts|)
    ensures var effect := RemoverCall(s, r, givesUp, notices).0; !IsOfOpener(effect) || effect.Quiet?
  {
  }

  lemma OpenerKeepsAccount(s: State, j: nat, fails: bool, exact: bool)
    requires Inv(s) && IsAccounted(s) && j < |s.openers|
    ensures IsAccounted(After(s, Open(j, fails, exact)))
  {
    assert Holds(s.openers[j], |s.attempts|);
    OpenerCallIsFit(s, s.openers[j], fails, exact);
  }

  lemma {:induction false} RunKeepsAccount(s: State, events: seq<Event>)
    requires Inv(s) && IsAccounted(s)
    ensures IsAccounted(Run(s, events))
    decreases |events|
  {
    if events != [] {
      var e := events[0];
      AfterKeepsInv(s, e);
      if e.Remove? && e.remover < |s.removers| {
        RemoverKeepsAccount(s, e.remover, e.givesUp, e.notices);
      } else if e.Open? && e.opener < |s.openers| {
        OpenerKeepsAccount(s, e.opener, e.fails, e.exact);
      }
      RunKeepsAccount(After(s, e), events[1..]);
    }
  }

  lemma {:induction false} NobodyAnswered(n: nat, a: Answer)
    ensures Count(seq(n, _ => Starting), a) == 0
    decreases n
  {
    if n > 0 {
      assert seq(n, _ => Starting)[1..] == seq(n - 1, _ => Starting);
      NobodyAnswered(n - 1, a);
    }
  }

  // Over every run, the directories that are gone are as many as the removers that say they removed one and
  // the undos that took a name; they are empty. So the removals match the directories that are gone if and
  // only if no undo has taken a name.
  lemma RemovalsMatchCreations(removers: nat, openers: nat, first: Option<Attempt>, events: seq<Event>)
    ensures var s := Run(Start(removers, openers, first), events);
            && IsAccounted(s)
            && (Count(s.removers, Removed) + (if s.name.Some? then 1 else 0) == |s.attempts| <==> s.undone == {})
            && forall x | 0 <= x < |s.attempts| :: s.name == Some(x) || IsEmpty(s.attempts[x])
  {
    NobodyAnswered(removers, Removed);
    RunKeepsAccount(Start(removers, openers, first), events);
  }

  // ---- When a remover fails ----

  predicate IsFailed(r: Remover) {
    (r.Closing? || r.Done?) && r.answer.Failed?
  }

  // A remover that has yet to find out that it fails.
  predicate IsDoomed(s: State, r: Remover) {
    || (r.Comparing? && r.before != r.held)
    || (r.Clearing? && r.held < |s.attempts| && !IsClearable(s.attempts[r.held], r.budget))
  }

  predicate HasFailed(s: State, r: Remover) {
    IsFailed(r) || IsDoomed(s, r)
  }

  predicate IsLost(s: State, x: nat) {
    x in s.undone || x in s.strayed
  }

  // A call of a remover finds what makes it fail: first, a directory that is not private; then, at its opening or
  // confirming call, another directory than the one it saw; one that it cannot clear within its budget, as it
  // lists it or as it comes upon what was written since; and in the end, that its directory has lost the name,
  // which it notices when it looks or finds nothing empty to unlink, or that there is something in it again.
  predicate Trips(s: State, r: Remover, notices: bool)
    requires NamesInv(s)
  {
    match r
    case Starting => s.name.Some? && !IsPrivate(s.attempts[s.name.value])
    case Opening(before) => s.name.Some? && s.name.value != before
    case Confirming(held) =>
      s.name.Some? && (s.name.value != held || !IsClearable(With(s.attempts[held], s.late), MAX_CLEANUP_ENTRIES))
    case Clearing(held, budget) => notices && s.late > 0 && s.name == Some(held) && !IsClearable(With(s.attempts[held], 1), budget)
    case Rechecking(held) => IsLost(s, held)
    case Unlinking(held) => s.late > 0 || (IsLost(s, held) && (s.name.None? || !IsEmpty(s.attempts[s.name.value])))
    case _ => false
  }

  predicate IsTripped(s: State, events: seq<Event>, i: nat)
    requires Inv(s) && i < |s.removers|
    decreases |events|
  {
    events != [] &&
    (|| (events[0].Remove? && events[0].remover == i && Trips(s, s.removers[i], events[0].notices))
     || (Inv(After(s, events[0])) && IsTripped(After(s, events[0]), events[1..], i)))
  }

  // The last two calls of a confirmed remover fail only when its directory has lost the name, or has entries again.
  lemma LostMeaning(s: State, r: Remover, i: nat, notices: bool)
    requires NamesInv(s) && IsPlaced(s, r, i)
    ensures r.Rechecking? ==> (s.name != Some(r.held) <==> Trips(s, r, notices))
    ensures r.Unlinking? ==> (!IsTakeable(s) <==> Trips(s, r, notices))
  {
  }

  lemma TripsOwn(s: State, r: Remover, i: nat, givesUp: bool, notices: bool)
    requires NamesInv(s) && IsPlaced(s, r, i) && IsPossible(s, RemoverCall(s, r, givesUp, notices).0)
    ensures var (effect, next) := RemoverCall(s, r, givesUp, notices);
            HasFailed(Perform(s, i, effect), next) <==> HasFailed(s, r) || Trips(s, r, notices)
  {
    hide Clear;
    if r.Clearing? {
      TripsClearing(s, r, i, givesUp, notices);
    } else {
      LostMeaning(s, r, i, notices);
    }
  }

  lemma TripsClearing(s: State, r: Remover, i: nat, givesUp: bool, notices: bool)
    requires NamesInv(s) && r.Clearing? && IsPlaced(s, r, i)
    ensures var (effect, next) := Clear(s, r.held, r.budget, givesUp, notices);
            IsPossible(s, effect) && (HasFailed(Perform(s, i, effect), next) <==> HasFailed(s, r) || Trips(s, r, notices))
  {
  }

  // What others do dooms nobody, and saves nobody.
  lemma TripsOther(s: State, i: nat, effect: Effect, r: Remover, k: nat)
    requires IsFit(s, i, effect) && IsPlaced(s, r, k) && (i == k ==> IsOfOpener(effect))
    ensures IsDoomed(Perform(s, i, effect), r) <==> IsDoomed(s, r)
  {
  }

  lemma TripsStep(s: State, e: Event, k: nat)
    requires Inv(s) && k < |s.removers|
    ensures HasFailed(After(s, e), After(s, e).removers[k])
       <==> HasFailed(s, s.removers[k]) || (e.Remove? && e.remover == k && Trips(s, s.removers[k], e.notices))
  {
    assert IsPlaced(s, s.removers[k], k);
    match e
    case Remove(i, givesUp, notices) =>
      if i < |s.removers| {
        assert IsPlaced(s, s.removers[i], i);
        RemoverCallIsFit(s, s.removers[i], i, givesUp, notices);
        if i == k {
          TripsOwn(s, s.removers[k], k, givesUp, notices);
        } else {
          TripsOther(s, i, EffectOf(s, e), s.removers[k], k);
        }
      }
    case Open(j, fails, exact) =>
      if j < |s.openers| {
        assert Holds(s.openers[j], |s.attempts|);
        OpenerCallIsFit(s, s.openers[j], fails, exact);
        TripsOther(s, 0, EffectOf(s, e), s.removers[k], k);
      }
  }

  lemma {:induction false} FailsFrom(s: State, events: seq<Event>, i: nat)
    requires Inv(s) && i < |s.removers|
    ensures HasFailed(Run(s, events), Run(s, events).removers[i]) <==> HasFailed(s, s.removers[i]) || IsTripped(s, events, i)
    decreases |events|
  {
    if events != [] {
      AfterKeepsInv(s, events[0]);
      TripsStep(s, events[0], i);
      FailsFrom(After(s, events[0]), events[1..], i);
    }
  }

  // Over every run, a remover that has answered has failed if and only if one of its calls has tripped.
  lemma FailsExactly(removers: nat, openers: nat, first: Option<Attempt>, events: seq<Event>, i: nat)
    requires i < removers
    requires var r := Run(Start(removers, openers, first), events).removers[i]; r.Closing? || r.Done?
    ensures IsFailed(Run(Start(removers, openers, first), events).removers[i])
       <==> IsTripped(Start(removers, openers, first), events, i)
  {
    FailsFrom(Start(removers, openers, first), events, i);
  }

  // ---- After the confirmation ----

  // A remover that has confirmed what it holds, or has gone on from there to an answer.
  predicate IsPastConfirming(r: Remover, held: nat) {
    (IsConfirmed(r) && r.held == held) || Answers(r, Removed) || IsFailed(r)
  }

  lemma PastConfirmingCall(s: State, r: Remover, i: nat, givesUp: bool, notices: bool, held: nat)
    requires NamesInv(s) && IsPlaced(s, r, i) && IsPastConfirming(r, held)
    ensures IsPastConfirming(RemoverCall(s, r, givesUp, notices).1, held)
    ensures Trips(s, r, notices) ==> IsLost(s, held) || s.late > 0
  {
  }

  lemma PastConfirmingStep(s: State, e: Event, i: nat, held: nat)
    requires Inv(s) && i < |s.removers| && IsPastConfirming(s.removers[i], held)
    ensures IsPastConfirming(After(s, e).removers[i], held)
    ensures e.Remove? && Trips(s, s.removers[i], e.notices) ==> IsLost(s, held) || s.late > 0
  {
    hide RemoverCall, OpenerCall, Trips, IsPastConfirming, NamesInv, LocksInv;
    assert IsPlaced(s, s.removers[i], i);
    if e.Remove? {
      PastConfirmingCall(s, s.removers[i], i, e.givesUp, e.notices, held);
    }
  }

  lemma {:induction false} PastConfirming(s: State, events: seq<Event>, i: nat, held: nat)
    requires Inv(s) && i < |s.removers| && IsPastConfirming(s.removers[i], held)
    ensures IsPastConfirming(Run(s, events).removers[i], held)
    ensures IsTripped(s, events, i) ==> IsLost(Run(s, events), held) || s.late > 0 || s.written < Run(s, events).written
    decreases |events|
  {
    if events != [] {
      var e := events[0];
      AfterKeepsInv(s, e);
      PastConfirmingStep(s, e, i, held);
      HistoryStep(s, e);
      HistoryGrows(s, events);
      HistoryGrows(After(s, e), events[1..]);
      PastConfirming(After(s, e), events[1..], i, held);
    }
  }

  // A confirmed remover that can clear what it holds goes on to remove it, whatever the others do, if and only
  // if none of its calls trips; in particular if the name is never lost and nothing is written.
  lemma ConfirmedSucceeds(s: State, events: seq<Event>, i: nat)
    requires Inv(s) && i < |s.removers| && IsConfirmed(s.removers[i]) && !IsDoomed(s, s.removers[i])
    requires Run(s, events).removers[i].Closing? || Run(s, events).removers[i].Done?
    ensures Answers(Run(s, events).removers[i], Removed) <==> !IsTripped(s, events, i)
    ensures !IsLost(Run(s, events), s.removers[i].held) && s.late == 0 && s.written == Run(s, events).written ==>
              Answers(Run(s, events).removers[i], Removed)
  {
    FailsFrom(s, events, i);
    PastConfirming(s, events, i, s.removers[i].held);
  }
}
