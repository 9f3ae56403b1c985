// Nobody waits: removers and openers all come to an end, whatever the order of their calls.
module RemovalProgress {
  import opened Wrappers
  import opened ConcurrentRemoval
  import opened RemovalWithOpeners

  function Rank(r: Remover): nat {
    match r
    case Starting => 9
    case Opening(_) => 8
    case Comparing(_, _) => 7
    case Locking(_) => 6
    case Confirming(_) => 5
    case Clearing(_, _) => 4
    case Rechecking(_) => 3
    case Unlinking(_) => 2
    case Closing(_, _) => 1
    case Done(_) => 0
  }

  function OpenerRank(o: Opener): nat {
    match o
    case Making => 7
    case Binding(_) => 6
    case Tightening(_, _) => 5
    case Inspecting(_, _) => 4
    case Verifying(_, _) => 3
    case Syncing(_, _) => 2
    case Undoing(_, _) => 1
    case Opened(_) | GaveUp(_) => 0
  }

  function Ranks(removers: seq<Remover>): nat {
    if removers == [] then 0 else Rank(removers[0]) + Ranks(removers[1..])
  }

  function OpenerRanks(openers: seq<Opener>): nat {
    if openers == [] then 0 else OpenerRank(openers[0]) + OpenerRanks(openers[1..])
  }

  lemma {:induction false} RanksAt(removers: seq<Remover>, i: nat, place: Remover)
    requires i < |removers|
    ensures Ranks(removers[i := place]) == Ranks(removers) - Rank(removers[i]) + Rank(place)
  {
    if i > 0 {
      assert removers[i := place][1..] == removers[1..][i - 1 := place];
      RanksAt(removers[1..], i - 1, place);
    } else {
      assert removers[i := place][1..] == removers[1..];
    }
  }

  lemma {:induction false} OpenerRanksAt(openers: seq<Opener>, j: nat, place: Opener)
    requires j < |openers|
    ensures OpenerRanks(openers[j := place]) == OpenerRanks(openers) - OpenerRank(openers[j]) + OpenerRank(place)
  {
    if j > 0 {
      assert openers[j := place][1..] == openers[1..][j - 1 := place];
      OpenerRanksAt(openers[1..], j - 1, place);
    } else {
      assert openers[j := place][1..] == openers[1..];
    }
  }

  // The entries to delete, which are all in the directory bound to the name; those that a remover has yet to come
  // upon take two calls.
  function Room(s: State): nat
    requires NamesInv(s)
  {
    if s.name.Some? then s.attempts[s.name.value].deletable + 2 * s.late else 0
  }

  // What is left to do.
  function Work(s: State): nat
    requires NamesInv(s)
  {
    Ranks(s.removers) + OpenerRanks(s.openers) + Room(s)
  }

  // Somebody who has not come to an end.
  predicate IsActor(s: State, e: Event) {
    match e
    case Remove(i, _, _) => i < |s.removers| && !s.removers[i].Done?
    case Open(j, _, _) => j < |s.openers| && !s.openers[j].Opened? && !s.openers[j].GaveUp?
  }

  predicate AllOver(s: State) {
    && (forall i | 0 <= i < |s.removers| :: s.removers[i].Done?)
    && forall j | 0 <= j < |s.openers| :: s.openers[j].Opened? || s.openers[j].GaveUp?
  }

  lemma RemoverWorks(s: State, r: Remover, i: nat, givesUp: bool, notices: bool)
    requires NamesInv(s) && IsPlaced(s, r, i) && !r.Done?
    ensures var (effect, next) := RemoverCall(s, r, givesUp, notices);
            if effect.Deletes? || effect.Notices? then Rank(next) == Rank(r) else Rank(next) < Rank(r)
  {
  }

  lemma OpenerWorks(s: State, o: Opener, fails: bool, exact: bool)
    requires NamesInv(s) && Holds(o, |s.attempts|) && !o.Opened? && !o.GaveUp?
    ensures OpenerRank(OpenerCall(s, o, fails, exact).1) < OpenerRank(o) && !OpenerCall(s, o, fails, exact).0.Writes?
  {
  }

  lemma RoomAfter(s: State, i: nat, effect: Effect)
    requires NamesInv(s) && IsFit(s, i, effect)
    ensures NamesInv(Perform(s, i, effect))
    ensures Room(Perform(s, i, effect)) <= Room(s) + (if effect.Writes? then 2 else 0)
                                           - (if effect.Deletes? || effect.Notices? then 1 else 0)
  {
    FitKeepsNames(s, i, effect);
  }

  lemma SameRoom(s: State, t: State)
    requires t == s.(removers := t.removers, openers := t.openers) && NamesInv(s)
    ensures NamesInv(t) && Room(t) == Room(s)
  {
  }

  // What a remover's call does to the ranks, and an opener's.

  lemma RanksAfterRemove(s: State, e: Event)
    requires Inv(s) && IsActor(s, e) && e.Remove?
    ensures var t, effect := After(s, e), EffectOf(s, e);
            && t.openers == s.openers && !effect.Writes?
            && (if effect.Deletes? || effect.Notices? then Ranks(t.removers) == Ranks(s.removers)
                else Ranks(t.removers) < Ranks(s.removers))
  {
    hide RemoverCall, Perform, NamesInv, LocksInv, IsFit;
    var i := e.remover;
    assert IsPlaced(s, s.removers[i], i);
    RemoverWorks(s, s.removers[i], i, e.givesUp, e.notices);
    RemoverEffects(s, s.removers[i], e.givesUp, e.notices);
    RanksAt(s.removers, i, After(s, e).removers[i]);
  }

  lemma RanksAfterOpen(s: State, e: Event)
    requires Inv(s) && IsActor(s, e) && e.Open?
    ensures var t, effect := After(s, e), EffectOf(s, e);
            t.removers == s.removers && IsOfOpener(effect) && !effect.Writes? && OpenerRanks(t.openers) < OpenerRanks(s.openers)
  {
    hide OpenerCall, Perform, NamesInv, LocksInv, IsFit;
    var j := e.opener;
    assert Holds(s.openers[j], |s.attempts|);
    OpenerCallIsFit(s, s.openers[j], e.fails, e.exact);
    OpenerWorks(s, s.openers[j], e.fails, e.exact);
    OpenerRanksAt(s.openers, j, After(s, e).openers[j]);
  }

  lemma CallDoesWork(s: State, e: Event)
    requires Inv(s) && IsActor(s, e)
    ensures NamesInv(After(s, e)) && Work(After(s, e)) < Work(s)
  {
    hide Perform, EffectOf, After, Ranks, OpenerRanks, Room, NamesInv, LocksInv, IsActor;
    AfterIsEffect(s, e);
    RoomAfter(s, ActorOf(e), EffectOf(s, e));
    SameRoom(Perform(s, ActorOf(e), EffectOf(s, e)), After(s, e));
    if e.Remove? {
      RanksAfterRemove(s, e);
    } else {
      RanksAfterOpen(s, e);
    }
  }

  // An opener that is through writes an entry.
  predicate IsWrite(s: State, e: Event)
    requires Inv(s)
  {
    EffectOf(s, e).Writes?
  }

  lemma WriteMakesWork(s: State, e: Event)
    requires Inv(s) && IsWrite(s, e)
    ensures NamesInv(After(s, e)) && Work(After(s, e)) <= Work(s) + 2 && After(s, e).written == s.written + 1
  {
    hide After, Ranks, OpenerRanks, Room, NamesInv, LocksInv, EffectOf;
    AfterIsEffect(s, e);
    RoomAfter(s, ActorOf(e), EffectOf(s, e));
    SameRoom(Perform(s, ActorOf(e), EffectOf(s, e)), After(s, e));
    WriterStays(s, e);
  }

  lemma WriterStays(s: State, e: Event)
    requires Inv(s) && IsWrite(s, e)
    ensures After(s, e).removers == s.removers && After(s, e).openers == s.openers
  {
    EffectsOfEvents(s, e);
    if e.Open? && e.opener < |s.openers| {
      assert Holds(s.openers[e.opener], |s.attempts|);
      assert s.openers[e.opener := s.openers[e.opener]] == s.openers;
    }
  }

  // Every event is a call of somebody who has not come to an end, or writes an entry.
  predicate IsBusy(s: State, events: seq<Event>)
    requires Inv(s)
    decreases |events|
  {
    events != [] ==>
      (IsActor(s, events[0]) || IsWrite(s, events[0])) && Inv(After(s, events[0])) && IsBusy(After(s, events[0]), events[1..])
  }

  lemma {:induction false} BusyRunsEnd(s: State, events: seq<Event>)
    requires Inv(s) && IsBusy(s, events)
    ensures |events| <= Work(s) + 3 * (Run(s, events).written - s.written)
    decreases |events|
  {
    if events != [] {
      var e := events[0];
      AfterKeepsInv(s, e);
      HistoryStep(s, e);
      if IsWrite(s, e) {
        WriteMakesWork(s, e);
      } else {
        CallDoesWork(s, e);
      }
      BusyRunsEnd(After(s, e), events[1..]);
    }
  }

  lemma {:induction false} StartingRanks(removers: nat, openers: nat)
    ensures Ranks(seq(removers, _ => Starting)) == 9 * removers && OpenerRanks(seq(openers, _ => Making)) == 7 * openers
    decreases removers + openers
  {
    if removers > 0 {
      assert seq(removers, _ => Starting)[1..] == seq(removers - 1, _ => Starting);
      StartingRanks(removers - 1, openers);
    } else if openers > 0 {
      assert seq(openers, _ => Making)[1..] == seq(openers - 1, _ => Making);
      StartingRanks(removers, openers - 1);
    }
  }

  // Whatever the order, everybody is through after nine calls a remover, seven an opener, one for every entry
  // that can be deleted, and three for every entry that is written.
  lemma EverybodyAnswers(removers: nat, openers: nat, first: Option<Attempt>, events: seq<Event>)
    requires IsBusy(Start(removers, openers, first), events)
    ensures |events| <= 9 * removers + 7 * openers + (if first.Some? then first.value.deletable else 0)
                        + 3 * Run(Start(removers, openers, first), events).written
  {
    StartingRanks(removers, openers);
    BusyRunsEnd(Start(removers, openers, first), events);
  }

  // From every state that keeps the invariant, everybody can be brought to an end.
  lemma {:induction false} CanComplete(s: State) returns (events: seq<Event>)
    requires Inv(s)
    ensures AllOver(Run(s, events))
    decreases Work(s)
  {
    events := [];
    if !AllOver(s) {
      var e := NextActor(s);
      CallDoesWork(s, e);
      AfterKeepsInv(s, e);
      var rest := CanComplete(After(s, e));
      events := [e] + rest;
    }
  }

  lemma NextActor(s: State) returns (e: Event)
    requires !AllOver(s)
    ensures IsActor(s, e)
  {
    if i :| 0 <= i < |s.removers| && !s.removers[i].Done? {
      e := Remove(i, false, false);
    } else {
      var j :| 0 <= j < |s.openers| && !s.openers[j].Opened? && !s.openers[j].GaveUp?;
      e := Open(j, false, true);
    }
  }
}
