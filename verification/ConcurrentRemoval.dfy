// Any number of removers of one recoverable attempt, and of openers that open it or create it again, each
// going one system call at a time.
module ConcurrentRemoval {
  import opened Wrappers
  import opened WorkspaceCleanup

  // A directory the attempt has had: whether it is the user's own on the root's device and has exactly the
  // private mode, and its entries, nested ones included: those that can be deleted, and those that cannot,
  // because they are foreign, off the device, out of reach or too deep.
  datatype Attempt = Attempt(owned: bool, exact: bool, deletable: nat, stuck: nat)

  predicate IsPrivate(a: Attempt) {
    a.owned && a.exact
  }

  predicate IsEmpty(a: Attempt) {
    a.deletable == 0 && a.stuck == 0
  }

  predicate IsClearable(a: Attempt, budget: nat) {
    a.stuck == 0 && a.deletable <= budget
  }

  datatype Answer = Removed | Absent | Failed(error: Error)

  // Where a remover is, with the directories it has seen or holds open.
  datatype Remover =
    | Starting
    | Opening(before: nat)
    | Comparing(before: nat, held: nat)
    | Locking(held: nat)
    | Confirming(held: nat)
    | Clearing(held: nat, budget: nat)
    | Rechecking(held: nat)
    | Unlinking(held: nat)
    | Closing(locked: Option<nat>, answer: Answer)
    | Done(answer: Answer)

  // Where an opener is, with the directory it has made, if it has, and the one it holds open.
  datatype Opener =
    | Making
    | Binding(made: Option<nat>)
    | Tightening(made: Option<nat>, held: nat)
    | Inspecting(made: Option<nat>, held: nat)
    | Verifying(made: Option<nat>, held: nat)
    | Syncing(made: Option<nat>, held: nat)
    | Undoing(made: Option<nat>, error: Error)
    | Opened(held: nat)
    | GaveUp(error: Error)

  // Every directory the attempt has had, in order; the one bound to its name now; how many entries have been
  // written into that since a remover last listed it; who holds which lock; where everybody is; and, as history,
  // the directories whose name was taken away by an opener that undid its creation, and by a remover that held
  // another directory, and how many entries were ever written.
  datatype State = State(
    attempts: seq<Attempt>, name: Option<nat>, late: nat, locks: map<nat, nat>, removers: seq<Remover>,
    openers: seq<Opener>, undone: set<nat>, strayed: set<nat>, written: nat)

  // A system call of a remover, which may stop clearing early when there is something it cannot clear, and may
  // come upon an entry that was written meanwhile; or a system call of an opener, which may fail, and which makes
  // a directory with or without the exact mode. An opener that is through writes entries.
  datatype Event = Remove(remover: nat, givesUp: bool, notices: bool) | Open(opener: nat, fails: bool, exact: bool)

  // What a call does to what all share; the actor only moves on.
  datatype Effect =
    | Quiet
    | Locks(directory: nat)
    | Unlocks(directory: nat)
    | Lists(directory: nat)
    | Notices(directory: nat)
    | Deletes(directory: nat)
    | Takes(held: nat)
    | Undoes
    | Creates(exact: bool)
    | Tightens(directory: nat)
    | Writes(directory: nat)

  // An effect that openers may have.
  predicate IsOfOpener(effect: Effect) {
    effect.Quiet? || effect.Undoes? || effect.Creates? || effect.Tightens? || effect.Writes?
  }

  // The name is bound to an empty directory, which any unlinking of the name takes away.
  predicate IsTakeable(s: State) {
    s.name.Some? && s.name.value < |s.attempts| && IsEmpty(s.attempts[s.name.value]) && s.late == 0
  }

  predicate IsPossible(s: State, effect: Effect) {
    match effect
    case Quiet | Creates(_) => true
    case Locks(x) => x < |s.attempts|
    case Unlocks(x) => x in s.locks
    case Lists(x) => s.name == Some(x) && x < |s.attempts|
    case Notices(x) => s.name == Some(x) && x < |s.attempts| && s.late > 0
    case Deletes(x) => x < |s.attempts| && s.attempts[x].deletable > 0
    case Takes(_) | Undoes => IsTakeable(s)
    case Tightens(x) => x < |s.attempts|
    case Writes(x) => s.name == Some(x)
  }

  function With(a: Attempt, more: nat): Attempt {
    a.(deletable := a.deletable + more)
  }

  function Perform(s: State, i: nat, effect: Effect): (t: State)
    requires IsPossible(s, effect)
    ensures t.removers == s.removers && t.openers == s.openers
    ensures |t.attempts| == |s.attempts| + if effect.Creates? then 1 else 0
    ensures IsOfOpener(effect) ==> t.locks == s.locks
  {
    match effect
    case Quiet => s
    case Locks(x) => s.(locks := s.locks[x := i])
    case Unlocks(x) => s.(locks := s.locks - {x})
    case Lists(x) => s.(attempts := s.attempts[x := With(s.attempts[x], s.late)], late := 0)
    case Notices(x) => s.(attempts := s.attempts[x := With(s.attempts[x], 1)], late := s.late - 1)
    case Deletes(x) => s.(attempts := s.attempts[x := s.attempts[x].(deletable := s.attempts[x].deletable - 1)])
    case Takes(held) => s.(name := None, strayed := if s.name.value == held then s.strayed else s.strayed + {s.name.value})
    case Undoes => s.(name := None, undone := s.undone + {s.name.value})
    case Creates(exact) => s.(attempts := s.attempts + [Attempt(true, exact, 0, 0)], name := Some(|s.attempts|))
    case Tightens(x) => s.(attempts := s.attempts[x := s.attempts[x].(exact := true)])
    case Writes(_) => s.(late := s.late + 1, written := s.written + 1)
  }

  // One call of clearing: it comes upon a late entry, or an entry goes while the budget lasts.
  function Clear(s: State, held: nat, budget: nat, givesUp: bool, notices: bool): (Effect, Remover)
    requires held < |s.attempts|
  {
    var a := s.attempts[held];
    if notices && s.late > 0 && s.name == Some(held) then (Notices(held), Clearing(held, budget))
    else if IsEmpty(a) then (Quiet, Rechecking(held))
    else if budget == 0 || a.deletable == 0 || (givesUp && !IsClearable(a, budget)) then
      (Quiet, Closing(Some(held), Failed(Integrity)))
    else (Deletes(held), Clearing(held, budget - 1))
  }

  // A system call of a remover: its effect, and where the remover is then.
  function RemoverCall(s: State, r: Remover, givesUp: bool, notices: bool): (Effect, Remover)
    requires NamesInv(s) && Knows(r, |s.attempts|)
  {
    match r
    case Starting =>
      (Quiet, if s.name.None? then Closing(None, Absent)
              else if !IsPrivate(s.attempts[s.name.value]) then Closing(None, Failed(Integrity))
              else Opening(s.name.value))
    case Opening(before) => (Quiet, if s.name.None? then Closing(None, Absent) else Comparing(before, s.name.value))
    case Comparing(before, held) => (Quiet, if before == held then Locking(held) else Closing(None, Failed(Integrity)))
    case Locking(held) => if held in s.locks then (Quiet, Closing(None, Absent)) else (Locks(held), Confirming(held))
    case Confirming(held) =>
      if s.name.None? then (Quiet, Closing(Some(held), Absent))
      else if s.name.value != held then (Quiet, Closing(Some(held), Failed(Integrity)))
      else (Lists(held), Clearing(held, MAX_CLEANUP_ENTRIES))
    case Clearing(held, budget) => Clear(s, held, budget, givesUp, notices)
    case Rechecking(held) =>
      (Quiet, if s.name.None? then Closing(Some(held), Failed(Unavailable))
              else if s.name.value != held then Closing(Some(held), Failed(Integrity))
              else Unlinking(held))
    case Unlinking(held) =>
      if IsTakeable(s) then (Takes(held), Closing(Some(held), Removed))
      else (Quiet, Closing(Some(held), Failed(Unavailable)))
    case Closing(locked, answer) => (if locked.Some? then Unlocks(locked.value) else Quiet, Done(answer))
    case Done(_) => (Quiet, r)
  }

  // An opener that fails undoes its creation, if it has created anything.
  function Fails(made: Option<nat>, error: Error): (Effect, Opener) {
    (Quiet, if made.Some? then Undoing(made, error) else GaveUp(error))
  }

  // A system call of an opener.
  function OpenerCall(s: State, o: Opener, fails: bool, exact: bool): (Effect, Opener)
    requires NamesInv(s) && Holds(o, |s.attempts|)
  {
    match o
    case Making =>
      if fails then Fails(None, Unavailable)
      else if s.name.Some? then (Quiet, Binding(None))
      else (Creates(exact), Binding(Some(|s.attempts|)))
    case Binding(made) =>
      if fails || s.name.None? then Fails(made, Integrity)
      else (Quiet, if made.Some? then Tightening(made, s.name.value) else Inspecting(made, s.name.value))
    case Tightening(made, held) =>
      if fails || !s.attempts[held].owned then Fails(made, Unavailable) else (Tightens(held), Inspecting(made, held))
    case Inspecting(made, held) =>
      if fails then Fails(made, Unavailable)
      else if !IsPrivate(s.attempts[held]) then Fails(made, Integrity)
      else (Quiet, Verifying(made, held))
    case Verifying(made, held) =>
      if fails || s.name.None? then Fails(made, Unavailable)
      else if s.name.value != held then Fails(made, Integrity)
      else (Quiet, Syncing(made, held))
    case Syncing(made, held) => if fails then Fails(made, Unavailable) else (Quiet, Opened(held))
    case Undoing(made, error) => (if fails || !IsTakeable(s) then Quiet else Undoes, GaveUp(error))
    case Opened(held) => (if fails || s.name != Some(held) then Quiet else Writes(held), o)
    case GaveUp(_) => (Quiet, o)
  }

  // The directories somebody refers to are among the first n.

  predicate Knows(r: Remover, n: nat) {
    match r
    case Opening(before) => before < n
    case Comparing(before, held) => before < n && held < n
    case Starting | Done(_) => true
    case Closing(locked, _) => locked.Some? ==> locked.value < n
    case _ => r.held < n
  }

  predicate Holds(o: Opener, n: nat) {
    match o
    case Making | GaveUp(_) => true
    case Binding(made) => made.Some? ==> made.value < n
    case Undoing(made, _) => made.Some? && made.value < n
    case Tightening(made, held) => made.Some? && made.value < n && held < n
    case Opened(held) => held < n
    case _ => o.held < n && (o.made.Some? ==> o.made.value < n)
  }

  function LockOf(r: Remover): Option<nat> {
    match r
    case Confirming(held) => Some(held)
    case Clearing(held, _) => Some(held)
    case Rechecking(held) => Some(held)
    case Unlinking(held) => Some(held)
    case Closing(locked, _) => locked
    case _ => None
  }

  // A remover that has confirmed, under its lock, that the name is bound to what it holds.
  predicate IsConfirmed(r: Remover) {
    r.Clearing? || r.Rechecking? || r.Unlinking?
  }

  // A confirmed remover still finds the name bound to what it holds, unless that was lost.
  predicate IsPlaced(s: State, r: Remover, i: nat) {
    && Knows(r, |s.attempts|)
    && (LockOf(r).Some? ==> LockOf(r).value in s.locks && s.locks[LockOf(r).value] == i)
    && (IsConfirmed(r) ==> s.name == Some(r.held) || r.held in s.undone || r.held in s.strayed)
    && (r.Rechecking? || r.Unlinking? ==> IsEmpty(s.attempts[r.held]))
    && (r.Clearing? ==> r.budget <= MAX_CLEANUP_ENTRIES)
  }

  // The name is bound to the latest directory if to any; all other directories are empty; entries are written
  // only into the bound one; and names are lost only after an opener has undone a creation.
  predicate NamesInv(s: State) {
    && (s.name.Some? ==> s.name.value + 1 == |s.attempts|)
    && (forall x | 0 <= x < |s.attempts| :: IsEmpty(s.attempts[x]) || s.name == Some(x))
    && (s.late > 0 ==> s.name.Some?) && s.late <= s.written
    && (forall x | x in s.undone :: x < |s.attempts| && s.name != Some(x))
    && (forall x | x in s.strayed :: x < |s.attempts| && s.name != Some(x))
    && (s.strayed != {} ==> s.undone != {})
  }

  predicate LocksInv(s: State) {
    forall x | x in s.locks :: s.locks[x] < |s.removers| && LockOf(s.removers[s.locks[x]]) == Some(x)
  }

  // What every interleaving keeps.
  predicate Inv(s: State) {
    && NamesInv(s) && LocksInv(s)
    && (forall i | 0 <= i < |s.removers| :: IsPlaced(s, s.removers[i], i))
    && (forall j | 0 <= j < |s.openers| :: Holds(s.openers[j], |s.attempts|))
  }

  // The effect of an event.
  function EffectOf(s: State, e: Event): Effect
    requires Inv(s)
  {
    match e
    case Remove(i, givesUp, notices) =>
      if i < |s.removers| then assert IsPlaced(s, s.removers[i], i); RemoverCall(s, s.removers[i], givesUp, notices).0 else Quiet
    case Open(j, fails, exact) =>
      if j < |s.openers| then assert Holds(s.openers[j], |s.attempts|); OpenerCall(s, s.openers[j], fails, exact).0 else Quiet
  }

  function After(s: State, e: Event): (t: State)
    requires Inv(s)
    ensures |t.attempts| >= |s.attempts| && |t.removers| == |s.removers| && |t.openers| == |s.openers|
  {
    EffectIsPossible(s, e);
    match e
    case Remove(i, givesUp, notices) =>
      if i >= |s.removers| then s
      else
        assert IsPlaced(s, s.removers[i], i);
        Perform(s, i, EffectOf(s, e)).(removers := s.removers[i := RemoverCall(s, s.removers[i], givesUp, notices).1])
    case Open(j, fails, exact) =>
      if j >= |s.openers| then s
      else
        assert Holds(s.openers[j], |s.attempts|);
        Perform(s, 0, EffectOf(s, e)).(openers := s.openers[j := OpenerCall(s, s.openers[j], fails, exact).1])
  }

  lemma EffectIsPossible(s: State, e: Event)
    requires Inv(s)
    ensures IsPossible(s, EffectOf(s, e))
  {
    if e.Remove? && e.remover < |s.removers| {
      assert IsPlaced(s, s.removers[e.remover], e.remover);
    }
    if e.Open? && e.opener < |s.openers| {
      assert Holds(s.openers[e.opener], |s.attempts|);
    }
  }

  // ---- The invariant ----

  // An effect that is fit for an actor: it keeps to what the actor has locked, and a name goes to waste only
  // by an undo or after one.
  predicate IsFit(s: State, i: nat, effect: Effect) {
    && IsPossible(s, effect)
    && match effect
       case Locks(x) => x !in s.locks
       case Unlocks(x) => s.locks[x] == i
       case Lists(x) => x in s.locks && s.locks[x] == i
       case Notices(x) => x in s.locks && s.locks[x] == i
       case Deletes(x) => x in s.locks && s.locks[x] == i
       case Takes(held) => held in s.locks && s.locks[held] == i && (s.name == Some(held) || s.undone != {})
       case Creates(_) => s.name.None?
       case _ => true
  }

  lemma FitKeepsNames(s: State, i: nat, effect: Effect)
    requires NamesInv(s) && IsFit(s, i, effect)
    ensures NamesInv(Perform(s, i, effect))
  {
  }

  // What one actor does leaves every other remover in place.
  lemma FitKeepsOthers(s: State, i: nat, effect: Effect, r: Remover, k: nat)
    requires IsFit(s, i, effect) && IsPlaced(s, r, k) && (i == k ==> IsOfOpener(effect))
    ensures IsPlaced(Perform(s, i, effect), r, k)
  {
  }

  // The call of a remover is fit, and puts it where it belongs.
  lemma RemoverCallIsFit(s: State, r: Remover, i: nat, givesUp: bool, notices: bool)
    requires NamesInv(s) && IsPlaced(s, r, i)
    ensures IsFit(s, i, RemoverCall(s, r, givesUp, notices).0)
  {
  }

  lemma RemoverCallIsPlaced(s: State, r: Remover, i: nat, givesUp: bool, notices: bool)
    requires NamesInv(s) && IsPlaced(s, r, i) && IsPossible(s, RemoverCall(s, r, givesUp, notices).0)
    ensures IsPlaced(Perform(s, i, RemoverCall(s, r, givesUp, notices).0), RemoverCall(s, r, givesUp, notices).1, i)
  {
    hide Clear;
    if r.Clearing? {
      ClearIsPlaced(s, r, i, givesUp, notices);
    } else if LockOf(r).Some? {
      HolderIsPlaced(s, r, i, givesUp, notices);
    }
  }

  lemma HolderIsPlaced(s: State, r: Remover, i: nat, givesUp: bool, notices: bool)
    requires NamesInv(s) && LockOf(r).Some? && !r.Clearing? && IsPlaced(s, r, i)
    ensures var (effect, next) := RemoverCall(s, r, givesUp, notices);
            IsPossible(s, effect) && IsPlaced(Perform(s, i, effect), next, i)
  {
    hide Clear;
  }

  lemma ClearIsPlaced(s: State, r: Remover, i: nat, givesUp: bool, notices: bool)
    requires NamesInv(s) && r.Clearing? && IsPlaced(s, r, i)
    ensures var (effect, next) := Clear(s, r.held, r.budget, givesUp, notices);
            IsPossible(s, effect) && IsPlaced(Perform(s, i, effect), next, i)
  {
  }

  // The lock a remover comes to hold, or to hold no more.
  lemma RemoverCallLocks(s: State, r: Remover, i: nat, givesUp: bool, notices: bool)
    requires NamesInv(s) && IsPlaced(s, r, i)
    ensures var (effect, next) := RemoverCall(s, r, givesUp, notices);
            LockOf(next) == match effect
                            case Locks(x) => Some(x)
                            case Unlocks(_) => None
                            case _ => LockOf(r)
    ensures var effect := RemoverCall(s, r, givesUp, notices).0;
            (effect.Unlocks? ==> LockOf(r) == Some(effect.directory)) && (effect.Locks? ==> LockOf(r).None?)
  {
  }

  // Where everybody is does not matter for the names, nor for where somebody else belongs.
  lemma OnlyShared(s: State, t: State, r: Remover, k: nat)
    requires t == s.(removers := t.removers, openers := t.openers)
    ensures NamesInv(s) <==> NamesInv(t)
    ensures IsPlaced(s, r, k) <==> IsPlaced(t, r, k)
  {
  }

  lemma RemoveKeepsInv(s: State, i: nat, givesUp: bool, notices: bool)
    requires Inv(s) && i < |s.removers|
    ensures Inv(After(s, Remove(i, givesUp, notices)))
  {
    hide OpenerCall, RemoverCall, Perform, IsPossible, NamesInv, LocksInv, IsPlaced, IsFit, Holds, LockOf;
    var r := s.removers[i];
    assert IsPlaced(s, r, i);
    PlacedKnows(s, r, i);
    var (effect, next) := RemoverCall(s, r, givesUp, notices);
    RemoverCallIsFit(s, r, i, givesUp, notices);
    RemoverCallIsPlaced(s, r, i, givesUp, notices);
    RemoverCallLocks(s, r, i, givesUp, notices);
    FitKeepsNames(s, i, effect);
    var u := Perform(s, i, effect);
    var t := u.(removers := s.removers[i := next]);
    assert t == After(s, Remove(i, givesUp, notices));
    forall k | 0 <= k < |t.removers| ensures IsPlaced(t, t.removers[k], k) {
      assert IsPlaced(s, s.removers[k], k);
      if k != i { FitKeepsOthers(s, i, effect, s.removers[k], k); }
      OnlyShared(u, t, t.removers[k], k);
    }
    OnlyShared(u, t, next, i);
    LocksFollow(s, i, effect, t);
    OpenersHold(s, t);
  }

  lemma PlacedKnows(s: State, r: Remover, i: nat)
    requires IsPlaced(s, r, i)
    ensures Knows(r, |s.attempts|)
  {
  }

  lemma OpenersHold(s: State, t: State)
    requires Inv(s) && t.openers == s.openers && |t.attempts| >= |s.attempts|
    ensures forall j | 0 <= j < |t.openers| :: Holds(t.openers[j], |t.attempts|)
  {
    forall j | 0 <= j < |t.openers| ensures Holds(t.openers[j], |t.attempts|) {
      assert Holds(s.openers[j], |s.attempts|);
    }
  }

  lemma LocksFollow(s: State, i: nat, effect: Effect, t: State)
    requires LocksInv(s) && i < |s.removers| == |t.removers| && IsFit(s, i, effect) && t.locks == Perform(s, i, effect).locks
    requires forall k | 0 <= k < |s.removers| && k != i :: t.removers[k] == s.removers[k]
    requires LockOf(t.removers[i]) == match effect
                                      case Locks(x) => Some(x)
                                      case Unlocks(_) => None
                                      case _ => LockOf(s.removers[i])
    requires (effect.Unlocks? ==> LockOf(s.removers[i]) == Some(effect.directory)) && (effect.Locks? ==> LockOf(s.removers[i]).None?)
    ensures LocksInv(t)
  {
  }

  lemma OpenerCallIsFit(s: State, o: Opener, fails: bool, exact: bool)
    requires NamesInv(s) && Holds(o, |s.attempts|)
    ensures var (effect, next) := OpenerCall(s, o, fails, exact);
            && IsFit(s, 0, effect) && (IsOfOpener(effect))
            && Holds(next, |s.attempts| + if effect.Creates? then 1 else 0)
  {
  }

  lemma OpenKeepsInv(s: State, j: nat, fails: bool, exact: bool)
    requires Inv(s) && j < |s.openers|
    ensures Inv(After(s, Open(j, fails, exact)))
  {
    hide OpenerCall, RemoverCall, Perform, IsPossible, NamesInv, IsPlaced, IsFit, Holds, LockOf;
    var o := s.openers[j];
    assert Holds(o, |s.attempts|);
    var (effect, next) := OpenerCall(s, o, fails, exact);
    OpenerCallIsFit(s, o, fails, exact);
    FitKeepsNames(s, 0, effect);
    var u := Perform(s, 0, effect);
    var t := u.(openers := s.openers[j := next]);
    assert t == After(s, Open(j, fails, exact));
    OnlyShared(u, t, Starting, 0);
    forall k | 0 <= k < |t.removers| ensures IsPlaced(t, t.removers[k], k) {
      assert IsPlaced(s, s.removers[k], k);
      FitKeepsOthers(s, 0, effect, s.removers[k], k);
      OnlyShared(u, t, t.removers[k], k);
    }
    OpenersHoldMore(s, t, j);
  }

  lemma OpenersHoldMore(s: State, t: State, j: nat)
    requires Inv(s) && j < |s.openers| && |t.attempts| >= |s.attempts|
    requires |t.openers| == |s.openers| && t.openers == s.openers[j := t.openers[j]] && Holds(t.openers[j], |t.attempts|)
    ensures forall k | 0 <= k < |t.openers| :: Holds(t.openers[k], |t.attempts|)
  {
    forall k | 0 <= k < |t.openers| ensures Holds(t.openers[k], |t.attempts|) {
      assert Holds(s.openers[k], |s.attempts|);
    }
  }

  // Every interleaving of removers and openers keeps the invariant.
  lemma AfterKeepsInv(s: State, e: Event)
    requires Inv(s)
    ensures Inv(After(s, e))
  {
    match e
    case Remove(i, givesUp, notices) => if i < |s.removers| { RemoveKeepsInv(s, i, givesUp, notices); }
    case Open(j, fails, exact) => if j < |s.openers| { OpenKeepsInv(s, j, fails, exact); }
  }

  function ActorOf(e: Event): nat {
    if e.Remove? then e.remover else 0
  }

  // All that an event does to what all share is its effect, which is fit for its actor.
  lemma AfterIsEffect(s: State, e: Event)
    requires Inv(s)
    ensures var effect, t := EffectOf(s, e), After(s, e);
            && IsFit(s, ActorOf(e), effect) && (e.Open? ==> IsOfOpener(effect))
            && t == Perform(s, ActorOf(e), effect).(removers := t.removers, openers := t.openers)
  {
    hide OpenerCall, RemoverCall, Perform, IsPossible, NamesInv, LocksInv, IsPlaced, Holds, IsOfOpener;
    match e
    case Remove(i, givesUp, notices) =>
      if i < |s.removers| {
        assert IsPlaced(s, s.removers[i], i);
        PlacedKnows(s, s.removers[i], i);
        RemoverCallIsFit(s, s.removers[i], i, givesUp, notices);
      } else {
        NothingHappens(s, i);
      }
    case Open(j, fails, exact) =>
      if j < |s.openers| {
        assert Holds(s.openers[j], |s.attempts|);
        OpenerCallIsFit(s, s.openers[j], fails, exact);
      } else {
        NothingHappens(s, 0);
      }
  }

  lemma NothingHappens(s: State, i: nat)
    ensures IsFit(s, i, Quiet) && Perform(s, i, Quiet) == s && IsOfOpener(Quiet)
  {
  }

  function Run(s: State, events: seq<Event>): (t: State)
    requires Inv(s)
    ensures Inv(t) && |t.removers| == |s.removers| && |t.openers| == |s.openers|
    decreases |events|
  {
    if events == [] then s
    else
      AfterKeepsInv(s, events[0]);
      Run(After(s, events[0]), events[1..])
  }

  // Everybody before the first call; the attempt exists already or not.
  function Start(removers: nat, openers: nat, first: Option<Attempt>): (s: State)
    ensures Inv(s) && |s.removers| == removers && |s.openers| == openers
  {
    State(if first.Some? then [first.value] else [], if first.Some? then Some(0) else None, 0, map[],
          seq(removers, _ => Starting), seq(openers, _ => Making), {}, {}, 0)
  }
}
