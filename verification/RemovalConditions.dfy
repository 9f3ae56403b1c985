// Two special kinds of runs: those in which everything that is made is sound and no undo takes a name, and
// those in which no call of an opener fails by itself.
module RemovalConditions {
  import opened Wrappers
  import opened WorkspaceCleanup
  import opened ConcurrentRemoval
  import opened RemovalWithOpeners

  // ---- Sound runs: a remover fails only by a rebinding or a crowding ----

  // The name is bound to another directory than the one the remover saw first.
  predicate IsRebound(s: State, r: Remover) {
    match r
    case Opening(before) => s.name.Some? && s.name.value != before
    case Confirming(held) => s.name.Some? && s.name.value != held
    case _ => false
  }

  predicate MeetsRebinding(s: State, events: seq<Event>, i: nat)
    requires Inv(s) && i < |s.removers|
    decreases |events|
  {
    events != [] &&
    (|| (events[0].Remove? && events[0].remover == i && IsRebound(s, s.removers[i]))
     || (Inv(After(s, events[0])) && MeetsRebinding(After(s, events[0]), events[1..], i)))
  }

  // Entries stand in the remover's way: more than its budget as it lists the directory or comes upon what was
  // written since, or any that it has not come upon when it unlinks the name.
  predicate IsCrowded(s: State, r: Remover, notices: bool) {
    match r
    case Confirming(held) =>
      s.name == Some(held) && held < |s.attempts| && s.attempts[held].deletable + s.late > MAX_CLEANUP_ENTRIES
    case Clearing(held, budget) =>
      notices && s.late > 0 && s.name == Some(held) && held < |s.attempts| && s.attempts[held].deletable + 1 > budget
    case Unlinking(_) => s.late > 0
    case _ => false
  }

  predicate MeetsCrowding(s: State, events: seq<Event>, i: nat)
    requires Inv(s) && i < |s.removers|
    decreases |events|
  {
    events != [] &&
    (|| (events[0].Remove? && events[0].remover == i && IsCrowded(s, s.removers[i], events[0].notices))
     || (Inv(After(s, events[0])) && MeetsCrowding(After(s, events[0]), events[1..], i)))
  }

  // Every directory is private, and all its entries can be deleted.
  predicate AreSound(s: State) {
    forall x | 0 <= x < |s.attempts| :: IsPrivate(s.attempts[x]) && s.attempts[x].stuck == 0
  }

  // Each fits one budget.
  predicate AreSmall(s: State) {
    forall x | 0 <= x < |s.attempts| :: s.attempts[x].deletable <= MAX_CLEANUP_ENTRIES
  }

  predicate MakesExact(events: seq<Event>) {
    forall k | 0 <= k < |events| :: events[k].Open? ==> events[k].exact
  }

  lemma SoundEffect(s: State, i: nat, effect: Effect)
    requires IsPossible(s, effect) && AreSound(s) && (effect.Creates? ==> effect.exact)
    ensures AreSound(Perform(s, i, effect))
    ensures AreSmall(s) && s.late == 0 ==> AreSmall(Perform(s, i, effect))
  {
  }

  lemma StaysSound(s: State, e: Event)
    requires Inv(s) && AreSound(s) && (e.Open? ==> e.exact)
    ensures AreSound(After(s, e))
    ensures AreSmall(s) && s.late == 0 ==> AreSmall(After(s, e))
  {
    hide Perform, EffectOf, After, NamesInv, LocksInv;
    AfterIsEffect(s, e);
    EffectsOfEvents(s, e);
    MakesExactly(s, e);
    SoundEffect(s, ActorOf(e), EffectOf(s, e));
  }

  lemma MakesExactly(s: State, e: Event)
    requires Inv(s) && (e.Open? ==> e.exact)
    ensures EffectOf(s, e).Creates? ==> EffectOf(s, e).exact
  {
    EffectsOfEvents(s, e);
    if e.Open? && e.opener < |s.openers| {
      assert Holds(s.openers[e.opener], |s.attempts|);
    }
  }

  lemma TripsWhenSound(s: State, r: Remover, i: nat, notices: bool)
    requires NamesInv(s) && IsPlaced(s, r, i) && AreSound(s) && s.undone == {}
    ensures Trips(s, r, notices) <==> IsRebound(s, r) || IsCrowded(s, r, notices)
  {
  }

  lemma {:induction false} TripsInSoundRuns(s: State, events: seq<Event>, i: nat)
    requires Inv(s) && i < |s.removers| && AreSound(s) && MakesExact(events) && Run(s, events).undone == {}
    ensures IsTripped(s, events, i) <==> MeetsRebinding(s, events, i) || MeetsCrowding(s, events, i)
    decreases |events|
  {
    if events != [] {
      var e := events[0];
      AfterKeepsInv(s, e);
      StaysSound(s, e);
      HistoryGrows(s, events);
      assert IsPlaced(s, s.removers[i], i);
      if e.Remove? {
        TripsWhenSound(s, s.removers[i], i, e.notices);
      }
      TripsInSoundRuns(After(s, e), events[1..], i);
    }
  }

  // When nothing is written, nothing stands in the way.
  lemma {:induction false} NoCrowding(s: State, events: seq<Event>, i: nat)
    requires Inv(s) && i < |s.removers| && AreSound(s) && AreSmall(s) && MakesExact(events) && Run(s, events).written == 0
    ensures !MeetsCrowding(s, events, i)
    decreases |events|
  {
    if events != [] {
      var e := events[0];
      AfterKeepsInv(s, e);
      HistoryGrows(s, events);
      assert s.late == 0;
      StaysSound(s, e);
      assert IsPlaced(s, s.removers[i], i);
      NoCrowding(After(s, e), events[1..], i);
    }
  }

  // With openers that make sound directories and no undo that takes a name, a remover that has answered has
  // failed if and only if, at its opening or its confirming call, the name was bound to another directory than
  // the one it saw first, or entries stood in its way; which they do not when nothing is written.
  lemma FailsByRebinding(removers: nat, openers: nat, first: Option<Attempt>, events: seq<Event>, i: nat)
    requires i < removers && AreSound(Start(removers, openers, first)) && MakesExact(events)
    requires Run(Start(removers, openers, first), events).undone == {}
    requires var r := Run(Start(removers, openers, first), events).removers[i]; r.Closing? || r.Done?
    ensures var s := Start(removers, openers, first);
            && (IsFailed(Run(s, events).removers[i]) <==> MeetsRebinding(s, events, i) || MeetsCrowding(s, events, i))
            && (AreSmall(s) && Run(s, events).written == 0 ==> !MeetsCrowding(s, events, i))
  {
    var s := Start(removers, openers, first);
    FailsExactly(removers, openers, first, events, i);
    TripsInSoundRuns(s, events, i);
    if AreSmall(s) && Run(s, events).written == 0 {
      NoCrowding(s, events, i);
    }
  }

  // ---- Faultless runs: an undo is always misplaced ----

  predicate IsFaultless(events: seq<Event>) {
    forall k | 0 <= k < |events| :: events[k].Open? ==> !events[k].fails
  }

  // While no call fails by itself, an opener that has made a directory holds it or a later one, and undoes
  // its creation only when the name is no longer bound to it.
  predicate IsSteady(s: State, o: Opener)
    requires Holds(o, |s.attempts|)
  {
    match o
    case Binding(Some(m)) => s.attempts[m].owned
    case Tightening(Some(m), held) => s.attempts[m].owned && m <= held && s.attempts[held].owned
    case Inspecting(Some(m), held) => m <= held && IsPrivate(s.attempts[held])
    case Verifying(Some(m), held) => m <= held
    case Undoing(Some(m), _) => s.name != Some(m)
    case _ => true
  }

  predicate AreSteady(s: State) {
    && (forall x | 0 < x < |s.attempts| :: s.attempts[x].owned)
    && forall j | 0 <= j < |s.openers| :: Holds(s.openers[j], |s.attempts|) && IsSteady(s, s.openers[j])
  }

  lemma OpenerCallIsSteady(s: State, o: Opener, exact: bool)
    requires NamesInv(s) && Holds(o, |s.attempts|) && IsSteady(s, o) && forall x | 0 < x < |s.attempts| :: s.attempts[x].owned
    ensures var (effect, next) := OpenerCall(s, o, false, exact);
            && IsPossible(s, effect)
            && var t := Perform(s, 0, effect);
               Holds(next, |t.attempts|) && IsSteady(t, next)
  {
  }

  lemma EffectIsSteady(s: State, i: nat, effect: Effect, o: Opener)
    requires NamesInv(s) && IsFit(s, i, effect) && Holds(o, |s.attempts|) && IsSteady(s, o)
    ensures Holds(o, |Perform(s, i, effect).attempts|) && IsSteady(Perform(s, i, effect), o)
  {
  }

  lemma EffectKeepsOwned(s: State, i: nat, effect: Effect)
    requires IsPossible(s, effect) && forall x | 0 < x < |s.attempts| :: s.attempts[x].owned
    ensures forall x | 0 < x < |Perform(s, i, effect).attempts| :: Perform(s, i, effect).attempts[x].owned
  {
  }

  lemma RemoveStaysSteady(s: State, i: nat, givesUp: bool, notices: bool)
    requires Inv(s) && AreSteady(s) && i < |s.removers|
    ensures AreSteady(After(s, Remove(i, givesUp, notices)))
  {
    assert IsPlaced(s, s.removers[i], i);
    var effect := RemoverCall(s, s.removers[i], givesUp, notices).0;
    var t := After(s, Remove(i, givesUp, notices));
    RemoverCallIsFit(s, s.removers[i], i, givesUp, notices);
    EffectKeepsOwned(s, i, effect);
    forall j | 0 <= j < |t.openers| ensures Holds(t.openers[j], |t.attempts|) && IsSteady(t, t.openers[j]) {
      EffectIsSteady(s, i, effect, s.openers[j]);
      SameSteady(Perform(s, i, effect), t, t.openers[j]);
    }
  }

  // Where everybody is does not matter for an opener's steadiness.
  lemma SameSteady(s: State, t: State, o: Opener)
    requires s.attempts == t.attempts && s.name == t.name && Holds(o, |s.attempts|)
    ensures IsSteady(s, o) <==> IsSteady(t, o)
  {
  }

  lemma OpenStaysSteady(s: State, j: nat, exact: bool)
    requires Inv(s) && AreSteady(s) && j < |s.openers|
    ensures AreSteady(After(s, Open(j, false, exact)))
  {
    hide OpenerCall, Perform, NamesInv, LocksInv, IsSteady, IsFit;
    assert Holds(s.openers[j], |s.attempts|) && IsSteady(s, s.openers[j]);
    var effect := OpenerCall(s, s.openers[j], false, exact).0;
    var t := After(s, Open(j, false, exact));
    OpenerCallIsFit(s, s.openers[j], false, exact);
    EffectKeepsOwned(s, 0, effect);
    OpenerCallIsSteady(s, s.openers[j], exact);
    forall k | 0 <= k < |t.openers| ensures Holds(t.openers[k], |t.attempts|) && IsSteady(t, t.openers[k]) {
      EffectIsSteady(s, 0, effect, s.openers[k]);
      SameSteady(Perform(s, 0, effect), t, t.openers[k]);
    }
  }

  lemma {:induction false} RunStaysSteady(s: State, events: seq<Event>)
    requires Inv(s) && AreSteady(s) && IsFaultless(events)
    ensures AreSteady(Run(s, events))
    decreases |events|
  {
    if events != [] {
      var e := events[0];
      AfterKeepsInv(s, e);
      if e.Remove? && e.remover < |s.removers| {
        RemoveStaysSteady(s, e.remover, e.givesUp, e.notices);
      } else if e.Open? && e.opener < |s.openers| {
        OpenStaysSteady(s, e.opener, e.exact);
      }
      RunStaysSteady(After(s, e), events[1..]);
    }
  }

  // Over every run in which no call of an opener fails by itself, an opener that is about to undo its creation
  // never finds the name bound to what it made: if its unlinking takes a name at all, it is that of a directory
  // somebody else has made.
  lemma UndoIsMisplaced(removers: nat, openers: nat, first: Option<Attempt>, events: seq<Event>, j: nat)
    requires IsFaultless(events) && j < openers && Run(Start(removers, openers, first), events).openers[j].Undoing?
    ensures var s := Run(Start(removers, openers, first), events); s.name != s.openers[j].made
  {
    var s := Run(Start(removers, openers, first), events);
    RunStaysSteady(Start(removers, openers, first), events);
    assert Holds(s.openers[j], |s.attempts|) && IsSteady(s, s.openers[j]);
  }
}
